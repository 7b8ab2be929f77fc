/** GET /conversations/{cid}/messages: pages assembled from bounded windows of
    the stream, against assembly of the whole stream. */
module History {
  import opened Common
  import opened Events

  /** One bounded read: from a seq on, of what the stream held at that moment. */
  datatype Read = Read(from: nat, tail: nat)

  const MAX_PAGES := 4

  function Window(stream: seq<Event>, r: Read, over: nat): seq<SeqEvent>
    requires r.tail <= |stream|
  {
    var hi := Min(r.from + over, r.tail);
    Log(stream)[Min(r.from, hi)..hi]
  }

  // ------------------------------------------------------------------
  // Stable sort by seqStart
  // ------------------------------------------------------------------

  function Rank(m: Message, desc: bool): int { if desc then 0 - m.seqStart else m.seqStart }

  ghost predicate Ordered(ms: seq<Message>, desc: bool) {
    forall i, j :: 0 <= i < j < |ms| ==> Rank(ms[i], desc) <= Rank(ms[j], desc)
  }

  function Insert(ms: seq<Message>, m: Message, desc: bool): seq<Message> {
    if ms == [] || Rank(ms[|ms| - 1], desc) <= Rank(m, desc) then ms + [m]
    else Insert(ms[..|ms| - 1], m, desc) + [ms[|ms| - 1]]
  }

  /** sort.SliceStable by seq_start, ascending or descending. */
  function Sorted(ms: seq<Message>, desc: bool): seq<Message> {
    if ms == [] then [] else Insert(Sorted(ms[..|ms| - 1], desc), ms[|ms| - 1], desc)
  }

  /** The messages starting at seq at, in their order. */
  function StartingAt(ms: seq<Message>, at: nat): seq<Message> {
    if ms == [] then []
    else StartingAt(ms[..|ms| - 1], at) + if ms[|ms| - 1].seqStart == at then [ms[|ms| - 1]] else []
  }

  lemma StartingAtAppend(ms: seq<Message>, m: Message, at: nat)
    ensures StartingAt(ms + [m], at) == StartingAt(ms, at) + if m.seqStart == at then [m] else []
  {
    assert (ms + [m])[..|ms|] == ms;
  }

  lemma {:induction false} InsertMembers(ms: seq<Message>, m: Message, desc: bool)
    ensures forall x :: x in Insert(ms, m, desc) <==> x in ms || x == m
    ensures |Insert(ms, m, desc)| == |ms| + 1
  {
    if ms != [] && Rank(ms[|ms| - 1], desc) > Rank(m, desc) {
      var front, last := ms[..|ms| - 1], ms[|ms| - 1];
      InsertMembers(front, m, desc);
      assert ms == front + [last];
    }
  }

  lemma {:induction false} InsertOrdered(ms: seq<Message>, m: Message, desc: bool)
    requires Ordered(ms, desc)
    ensures Ordered(Insert(ms, m, desc), desc)
  {
    if ms != [] && Rank(ms[|ms| - 1], desc) > Rank(m, desc) {
      var front, last := ms[..|ms| - 1], ms[|ms| - 1];
      InsertOrdered(front, m, desc);
      InsertMembers(front, m, desc);
      forall i | 0 <= i < |Insert(front, m, desc)|
        ensures Rank(Insert(front, m, desc)[i], desc) <= Rank(last, desc)
      {
        assert Insert(front, m, desc)[i] in Insert(front, m, desc);
      }
    }
  }

  lemma Swapped(s: seq<Message>, m: Message, last: Message, at: nat)
    requires last.seqStart != m.seqStart
    ensures (s + if m.seqStart == at then [m] else []) + (if last.seqStart == at then [last] else [])
            == (s + if last.seqStart == at then [last] else []) + (if m.seqStart == at then [m] else [])
  {
  }

  lemma {:induction false} InsertStarting(ms: seq<Message>, m: Message, desc: bool, at: nat)
    requires Ordered(ms, desc)
    ensures StartingAt(Insert(ms, m, desc), at) == StartingAt(ms, at) + if m.seqStart == at then [m] else []
  {
    if ms == [] || Rank(ms[|ms| - 1], desc) <= Rank(m, desc) {
      StartingAtAppend(ms, m, at);
    } else {
      var front, last := ms[..|ms| - 1], ms[|ms| - 1];
      InsertStarting(front, m, desc, at);
      StartingAtAppend(Insert(front, m, desc), last, at);
      Swapped(StartingAt(front, at), m, last, at);
    }
  }

  lemma {:induction false} InsertMultiset(ms: seq<Message>, m: Message, desc: bool)
    ensures multiset(Insert(ms, m, desc)) == multiset(ms) + multiset{m}
  {
    if ms != [] && Rank(ms[|ms| - 1], desc) > Rank(m, desc) {
      var front, last := ms[..|ms| - 1], ms[|ms| - 1];
      InsertMultiset(front, m, desc);
      assert ms == front + [last];
    }
  }

  lemma SortedMultisetNext(front: seq<Message>, last: Message, desc: bool)
    requires multiset(Sorted(front, desc)) == multiset(front)
    ensures multiset(Sorted(front + [last], desc)) == multiset(front + [last])
  {
    assert (front + [last])[..|front|] == front;
    InsertMultiset(Sorted(front, desc), last, desc);
  }

  lemma {:induction false} SortedMultiset(ms: seq<Message>, desc: bool)
    ensures multiset(Sorted(ms, desc)) == multiset(ms)
  {
    if ms != [] {
      SortedMultiset(ms[..|ms| - 1], desc);
      SortedMultisetNext(ms[..|ms| - 1], ms[|ms| - 1], desc);
      assert ms == ms[..|ms| - 1] + [ms[|ms| - 1]];
    }
  }

  lemma {:induction false} SortedMembers(ms: seq<Message>, desc: bool, m: Message)
    ensures m in Sorted(ms, desc) <==> m in ms
    ensures |Sorted(ms, desc)| == |ms|
  {
    if ms != [] {
      var front, last := ms[..|ms| - 1], ms[|ms| - 1];
      SortedMembers(front, desc, m);
      InsertMembers(Sorted(front, desc), last, desc);
      assert m in Insert(Sorted(front, desc), last, desc) <==> m in Sorted(front, desc) || m == last;
      assert ms == front + [last];
    }
  }

  lemma {:induction false} SortedOrdered(ms: seq<Message>, desc: bool)
    ensures Ordered(Sorted(ms, desc), desc)
  {
    if ms != [] {
      SortedOrdered(ms[..|ms| - 1], desc);
      InsertOrdered(Sorted(ms[..|ms| - 1], desc), ms[|ms| - 1], desc);
    }
  }

  lemma SortedKeeps(ms: seq<Message>, desc: bool)
    ensures Ordered(Sorted(ms, desc), desc)
    ensures forall m :: m in Sorted(ms, desc) <==> m in ms
    ensures |Sorted(ms, desc)| == |ms| && multiset(Sorted(ms, desc)) == multiset(ms)
  {
    SortedMultiset(ms, desc);
    SortedOrdered(ms, desc);
    forall m ensures m in Sorted(ms, desc) <==> m in ms {
      SortedMembers(ms, desc, m);
    }
    if ms != [] { SortedMembers(ms, desc, ms[0]); }
  }

  lemma {:induction false} SortedStarting(ms: seq<Message>, desc: bool, at: nat)
    ensures StartingAt(Sorted(ms, desc), at) == StartingAt(ms, at)
  {
    if ms != [] {
      var front, last := ms[..|ms| - 1], ms[|ms| - 1];
      SortedStarting(front, desc, at);
      SortedKeeps(front, desc);
      InsertStarting(Sorted(front, desc), last, desc, at);
    }
  }

  lemma {:induction false} StartingAtMember(ms: seq<Message>, m: Message)
    ensures m in ms <==> m in StartingAt(ms, m.seqStart)
  {
    if ms != [] {
      StartingAtMember(ms[..|ms| - 1], m);
      assert ms == ms[..|ms| - 1] + [ms[|ms| - 1]];
    }
  }

  /** The two lists hold the same messages, in the same order, at each start seq. */
  ghost predicate SamePerStart(a: seq<Message>, b: seq<Message>) {
    forall at: nat :: StartingAt(a, at) == StartingAt(b, at)
  }

  lemma LastRanksHighest(a: seq<Message>, b: seq<Message>, desc: bool)
    requires a != [] && Ordered(b, desc) && StartingAt(a, a[|a| - 1].seqStart) == StartingAt(b, a[|a| - 1].seqStart)
    ensures b != [] && Rank(a[|a| - 1], desc) <= Rank(b[|b| - 1], desc)
  {
    var m := a[|a| - 1];
    StartingAtMember(a, m);
    StartingAtMember(b, m);
    var i :| 0 <= i < |b| && b[i] == m;
    assert i < |b| - 1 ==> Rank(b[i], desc) <= Rank(b[|b| - 1], desc);
  }

  lemma SameLast(a: seq<Message>, b: seq<Message>)
    requires a != [] && b != [] && a[|a| - 1].seqStart == b[|b| - 1].seqStart
    requires StartingAt(a, a[|a| - 1].seqStart) == StartingAt(b, a[|a| - 1].seqStart)
    ensures a[|a| - 1] == b[|b| - 1]
    ensures StartingAt(a[..|a| - 1], a[|a| - 1].seqStart) == StartingAt(b[..|b| - 1], a[|a| - 1].seqStart)
  {
    var at := a[|a| - 1].seqStart;
    var x, y := StartingAt(a[..|a| - 1], at), StartingAt(b[..|b| - 1], at);
    assert x + [a[|a| - 1]] == y + [b[|b| - 1]];
    assert (x + [a[|a| - 1]])[..|x|] == x && (y + [b[|b| - 1]])[..|y|] == y;
    assert (x + [a[|a| - 1]])[|x|] == a[|a| - 1] && (y + [b[|b| - 1]])[|y|] == b[|b| - 1];
  }

  /** A stable sort has one possible result: lists that agree per start seq and
      are both in order are equal. */
  lemma {:induction false} OrderedUnique(a: seq<Message>, b: seq<Message>, desc: bool)
    requires Ordered(a, desc) && Ordered(b, desc) && SamePerStart(a, b)
    ensures a == b
    decreases |a|
  {
    if a == [] {
      if b != [] { LastRanksHighest(b, a, desc); }
    } else {
      LastRanksHighest(a, b, desc);
      LastRanksHighest(b, a, desc);
      SameLast(a, b);
      var a', b' := a[..|a| - 1], b[..|b| - 1];
      forall at: nat ensures StartingAt(a', at) == StartingAt(b', at) {
        assert StartingAt(a, at) == StartingAt(b, at);
        if at != a[|a| - 1].seqStart {
          assert StartingAt(a, at) == StartingAt(a', at) && StartingAt(b, at) == StartingAt(b', at);
        }
      }
      OrderedUnique(a', b', desc);
      assert a == a' + [a[|a| - 1]] && b == b' + [b[|b| - 1]];
    }
  }

  // ------------------------------------------------------------------
  // What one window shows
  // ------------------------------------------------------------------

  function Below(ms: seq<Message>, upper: nat): seq<Message> {
    if ms == [] then []
    else Below(ms[..|ms| - 1], upper) + if ms[|ms| - 1].seqStart < upper then [ms[|ms| - 1]] else []
  }

  lemma {:induction false} BelowMember(ms: seq<Message>, upper: nat, m: Message)
    ensures m in Below(ms, upper) <==> m in ms && m.seqStart < upper
  {
    if ms != [] {
      BelowMember(ms[..|ms| - 1], upper, m);
      assert ms == ms[..|ms| - 1] + [ms[|ms| - 1]];
    }
  }

  lemma {:induction false} BelowStarting(ms: seq<Message>, upper: nat, at: nat)
    ensures StartingAt(Below(ms, upper), at) == if at < upper then StartingAt(ms, at) else []
  {
    if ms != [] {
      var front, last := ms[..|ms| - 1], ms[|ms| - 1];
      BelowStarting(front, upper, at);
      if last.seqStart < upper {
        StartingAtAppend(Below(front, upper), last, at);
      } else {
        assert Below(ms, upper) == Below(front, upper);
        assert at < upper ==> StartingAt(ms, at) == StartingAt(front, at);
      }
    }
  }

  /** The stream as the read saw it up to the end of its window. */
  function Seen(stream: seq<Event>, r: Read, over: nat): seq<Event>
    requires r.tail <= |stream|
  {
    stream[..Min(r.from + over, r.tail)]
  }

  lemma WindowAssembly(stream: seq<Event>, r: Read, over: nat)
    requires r.tail <= |stream|
    ensures Joined(View(Seen(stream, r, over)), Run(EMPTY, Window(stream, r, over)), r.from)
  {
    var hi := Min(r.from + over, r.tail);
    var lo := Min(r.from, hi);
    var seen, window := Log(Seen(stream, r, over)), Window(stream, r, over);
    assert seen == seen[..lo] + window;
    WindowIsExact(seen[..lo], window, r.from);
  }

  lemma WindowOrderly(stream: seq<Event>, r: Read, over: nat)
    requires r.tail <= |stream|
    ensures Orderly(Run(EMPTY, Window(stream, r, over)), Min(r.from + over, r.tail))
  {
    OrderlyRun(Window(stream, r, over));
  }

  lemma SeenIsPast(stream: seq<Event>, n: nat)
    requires n <= |stream|
    ensures View(stream[..n]).done <= View(stream).done
  {
    assert stream == stream[..n] + stream[n..];
    ViewGrows(stream[..n], stream[n..]);
  }

  /** What an entry of a window means for the whole stream: a finished one is a
      message of it; one in progress was open where the window ended, with what
      had been appended to it by then. */
  ghost predicate True(stream: seq<Event>, r: Read, over: nat, m: Message)
    requires r.tail <= |stream|
  {
    if m.status == InProgress then
      m.seqEnd == 0
      && OpenSomewhere(Log(stream[..Min(r.from + over, r.tail)]), m.id, Pending(m.sender, m.content, m.seqStart))
    else m in View(stream).done
  }

  lemma DoneEntry(stream: seq<Event>, r: Read, over: nat, m: Message)
    requires r.tail <= |stream|
    ensures m in Run(EMPTY, Window(stream, r, over)).done <==> m in View(Seen(stream, r, over)).done && m.seqStart >= r.from
    ensures m in Run(EMPTY, Window(stream, r, over)).done ==> m.status != InProgress && m in View(stream).done
  {
    WindowAssembly(stream, r, over);
    WindowOrderly(stream, r, over);
    SeenIsPast(stream, |Seen(stream, r, over)|);
    SinceMember(View(Seen(stream, r, over)).done, r.from, m);
  }

  lemma OpenEntry(stream: seq<Event>, r: Read, over: nat, id: Id, p: Pending)
    requires r.tail <= |stream|
    ensures var open := Run(EMPTY, Window(stream, r, over)).pending;
            (id in open && open[id] == p)
            <==> r.from <= p.seqStart && OpenSomewhere(Log(Seen(stream, r, over)), id, p)
  {
    WindowAssembly(stream, r, over);
    OpenMessages(Log(Seen(stream, r, over)), id, p);
  }

  /** m starts in the window of the read, and is what the stream up to the
      window's end reports: finished, or open with its text so far. */
  ghost predicate Entry(stream: seq<Event>, r: Read, over: nat, m: Message)
    requires r.tail <= |stream|
  {
    r.from <= m.seqStart && Reported(Log(stream[..Min(r.from + over, r.tail)]), m)
  }

  /** A window lists exactly its entries. */
  lemma WindowExactly(stream: seq<Event>, r: Read, over: nat, ms: seq<Message>, m: Message)
    requires r.tail <= |stream| && Shows(ms, Run(EMPTY, Window(stream, r, over)))
    ensures m in ms <==> Entry(stream, r, over, m)
  {
    ShownMember(ms, Run(EMPTY, Window(stream, r, over)), m);
    DoneEntry(stream, r, over, m);
    FinishedMessages(Log(Seen(stream, r, over)), m);
    OpenEntry(stream, r, over, m.id, Pending(m.sender, m.content, m.seqStart));
  }

  lemma EntryIsTrue(stream: seq<Event>, r: Read, over: nat, ms: seq<Message>, m: Message)
    requires r.tail <= |stream| && Shows(ms, Run(EMPTY, Window(stream, r, over))) && m in ms
    ensures True(stream, r, over, m)
  {
    WindowExactly(stream, r, over, ms, m);
    if m.status != InProgress {
      FinishedMessages(Log(Seen(stream, r, over)), m);
      SeenIsPast(stream, |Seen(stream, r, over)|);
    }
  }

  /** Every finished entry of a window is a message of the whole stream, with
      the same content and seqs; an in-progress entry was open where the window
      ended; and every message of the stream that lies wholly inside the window
      is there. */
  lemma WindowRefines(stream: seq<Event>, r: Read, over: nat, ms: seq<Message>, m: Message)
    requires r.tail <= |stream| && Shows(ms, Run(EMPTY, Window(stream, r, over)))
    ensures m in ms ==> True(stream, r, over, m)
    ensures m in View(stream[..r.tail]).done && r.from <= m.seqStart && m.seqEnd < r.from + over ==> m in ms
  {
    if m in ms { EntryIsTrue(stream, r, over, ms, m); }
    if m in View(stream[..r.tail]).done && r.from <= m.seqStart && m.seqEnd < r.from + over {
      var seen := Seen(stream, r, over);
      EndedInside(stream[..r.tail], |seen|, m);
      assert stream[..r.tail][..|seen|] == seen;
      DoneEntry(stream, r, over, m);
      ShownMember(ms, Run(EMPTY, Window(stream, r, over)), m);
    }
  }

  /** A message that ended before position n was finished at position n. */
  lemma EndedInside(stream: seq<Event>, n: nat, m: Message)
    requires n <= |stream| && m in View(stream).done && (m.seqEnd < n || n == |stream|)
    ensures m in View(stream[..n]).done
  {
    if n == |stream| {
      assert stream[..n] == stream;
    } else {
      FinishedMessages(Log(stream), m);
      var i: nat, j: nat :| Spans(Log(stream), m, i, j);
      assert Log(stream) == Log(stream[..n]) + Log(stream)[n..];
      SpansPrefix(Log(stream[..n]), Log(stream)[n..], m, i, j);
      FinishedMessages(Log(stream[..n]), m);
    }
  }

  lemma {:induction false} AtMostOneStartingAt(ms: seq<Message>, at: nat)
    requires forall i, j :: 0 <= i < j < |ms| ==> ms[i].seqStart != ms[j].seqStart
    ensures |StartingAt(ms, at)| <= 1
    ensures StartingAt(ms, at) != [] ==> StartingAt(ms, at)[0] in ms && StartingAt(ms, at)[0].seqStart == at
  {
    if ms != [] {
      AtMostOneStartingAt(ms[..|ms| - 1], at);
    }
  }

  /** No two entries of one assembly start at the same seq. */
  lemma ShownStartsDistinct(ms: seq<Message>, a: Assembly, bound: nat)
    requires Shows(ms, a) && Orderly(a, bound)
    ensures forall i, j :: 0 <= i < j < |ms| ==> ms[i].seqStart != ms[j].seqStart
  {
    var n := |a.done|;
    var open := ms[n..];
    ListedOnce(open, a.pending);
    forall i, j | 0 <= i < j < |ms| ensures ms[i].seqStart != ms[j].seqStart {
      assert i < n ==> ms[i] == ms[..n][i] == a.done[i];
      assert j < n ==> ms[j] == ms[..n][j] == a.done[j];
      if i >= n { assert ms[i] == open[i - n] && ms[i] in open; }
      if j >= n { assert ms[j] == open[j - n] && ms[j] in open; }
    }
  }

  /** A list as long as the table, holding every entry of it, holds each once. */
  lemma ListedOnce(open: seq<Message>, pending: map<Id, Pending>)
    requires |open| == |pending|
    requires forall m :: m in open ==> m.id in pending && m == Unfinished(m.id, pending[m.id])
    requires forall id :: id in pending ==> Unfinished(id, pending[id]) in open
    ensures forall i, j :: 0 <= i < j < |open| ==> open[i].id != open[j].id
  {
    if i, j :| 0 <= i < j < |open| && open[i].id == open[j].id {
      var rest := open[..j] + open[j + 1..];
      var ids := set k | 0 <= k < |rest| :: rest[k].id;
      forall id | id in pending ensures id in ids {
        var k :| 0 <= k < |open| && open[k] == Unfinished(id, pending[id]);
        var k' := if k < j then k else if k == j then i else k - 1;
        assert rest[k'].id == id;
      }
      assert pending.Keys <= ids;
      Subset(pending.Keys, ids);
      ImageSize(rest);
    }
  }

  lemma Subset(a: set<Id>, b: set<Id>)
    requires a <= b
    ensures |a| <= |b|
  {
    assert b == a + (b - a);
  }

  lemma {:induction false} ImageSize(ms: seq<Message>)
    ensures |set k | 0 <= k < |ms| :: ms[k].id| <= |ms|
  {
    if ms != [] {
      var front := ms[..|ms| - 1];
      ImageSize(front);
      assert (set k | 0 <= k < |ms| :: ms[k].id) == (set k | 0 <= k < |front| :: front[k].id) + {ms[|ms| - 1].id};
    }
  }

  lemma ListingHas(ms: seq<Message>, ms': seq<Message>, a: Assembly, at: nat)
    requires Shows(ms, a) && Shows(ms', a)
    requires |StartingAt(ms, at)| == 1 && |StartingAt(ms', at)| <= 1
    requires StartingAt(ms, at)[0] in ms && StartingAt(ms, at)[0].seqStart == at
    ensures StartingAt(ms', at) == StartingAt(ms, at)
  {
    var m := StartingAt(ms, at)[0];
    ShownMember(ms, a, m);
    ShownMember(ms', a, m);
    StartingAtMember(ms', m);
  }

  /** Two listings of one assembly agree on what starts at each seq, whatever
      order the table of open messages was walked in. */
  lemma ListingsAgree(ms: seq<Message>, ms': seq<Message>, a: Assembly, bound: nat, at: nat)
    requires Shows(ms, a) && Shows(ms', a) && Orderly(a, bound)
    ensures StartingAt(ms, at) == StartingAt(ms', at)
  {
    ShownStartsDistinct(ms, a, bound);
    ShownStartsDistinct(ms', a, bound);
    AtMostOneStartingAt(ms, at);
    AtMostOneStartingAt(ms', at);
    if StartingAt(ms, at) != [] {
      ListingHas(ms, ms', a, at);
    } else if StartingAt(ms', at) != [] {
      ListingHas(ms', ms, a, at);
    }
  }

  // ------------------------------------------------------------------
  // The backward walk
  // ------------------------------------------------------------------

  ghost predicate ScansOk(stream: seq<Event>, scans: seq<Read>) {
    forall i :: 0 <= i < |scans| ==> scans[i].tail <= |stream|
  }

  /** lists[i] is what the i-th read shows, listed in whatever order its table
      of open messages was walked. */
  ghost predicate Listed(lists: seq<seq<Message>>, stream: seq<Event>, scans: seq<Read>, over: nat)
    requires ScansOk(stream, scans)
  {
    |lists| == |scans| && forall i :: 0 <= i < |scans| ==> Shows(lists[i], Run(EMPTY, Window(stream, scans[i], over)))
  }

  /** What the walk collects: each list below upper, one after the other. */
  function Collect(lists: seq<seq<Message>>, upper: nat): seq<Message> {
    if lists == [] then [] else Collect(lists[..|lists| - 1], upper) + Below(lists[|lists| - 1], upper)
  }

  lemma {:induction false} StartingAtConcat(a: seq<Message>, b: seq<Message>, at: nat)
    ensures StartingAt(a + b, at) == StartingAt(a, at) + StartingAt(b, at)
  {
    if b == [] {
      assert a + b == a;
    } else {
      assert (a + b)[..|a + b| - 1] == a + b[..|b| - 1];
      StartingAtConcat(a, b[..|b| - 1], at);
    }
  }

  lemma {:induction false} CollectAgree(lists: seq<seq<Message>>, lists': seq<seq<Message>>, stream: seq<Event>,
                                        scans: seq<Read>, upper: nat, over: nat, at: nat)
    requires ScansOk(stream, scans) && Listed(lists, stream, scans, over) && Listed(lists', stream, scans, over)
    ensures StartingAt(Collect(lists, upper), at) == StartingAt(Collect(lists', upper), at)
    decreases |scans|
  {
    if scans != [] {
      var n := |scans| - 1;
      var r := scans[n];
      CollectAgree(lists[..n], lists'[..n], stream, scans[..n], upper, over, at);
      WindowOrderly(stream, r, over);
      ListingsAgree(lists[n], lists'[n], Run(EMPTY, Window(stream, r, over)), Min(r.from + over, r.tail), at);
      BelowStarting(lists[n], upper, at);
      BelowStarting(lists'[n], upper, at);
      StartingAtConcat(Collect(lists[..n], upper), Below(lists[n], upper), at);
      StartingAtConcat(Collect(lists'[..n], upper), Below(lists'[n], upper), at);
    }
  }

  /** The page does not depend on the map iteration order inside assembly. */
  lemma PageIsDetermined(lists: seq<seq<Message>>, lists': seq<seq<Message>>, stream: seq<Event>, scans: seq<Read>,
                         upper: nat, over: nat, limit: nat)
    requires ScansOk(stream, scans) && Listed(lists, stream, scans, over) && Listed(lists', stream, scans, over)
    ensures Page(Collect(lists, upper), true, limit) == Page(Collect(lists', upper), true, limit)
  {
    var c, c' := Collect(lists, upper), Collect(lists', upper);
    SortedKeeps(c, true);
    SortedKeeps(c', true);
    forall at: nat ensures StartingAt(Sorted(c, true), at) == StartingAt(Sorted(c', true), at) {
      SortedStarting(c, true, at);
      SortedStarting(c', true, at);
      CollectAgree(lists, lists', stream, scans, upper, over, at);
    }
    OrderedUnique(Sorted(c, true), Sorted(c', true), true);
  }

  lemma {:induction false} CollectMember(lists: seq<seq<Message>>, upper: nat, m: Message)
    ensures m in Collect(lists, upper) <==> m.seqStart < upper && exists i :: 0 <= i < |lists| && m in lists[i]
  {
    if lists != [] {
      var n := |lists| - 1;
      CollectMember(lists[..n], upper, m);
      BelowMember(lists[n], upper, m);
      InSome(lists[..n], lists[n], m);
      assert lists == lists[..n] + [lists[n]];
    }
  }

  lemma InSome(lists: seq<seq<Message>>, last: seq<Message>, m: Message)
    ensures (exists i :: 0 <= i < |lists + [last]| && m in (lists + [last])[i])
            <==> (exists i :: 0 <= i < |lists| && m in lists[i]) || m in last
  {
    var all := lists + [last];
    assert all[|lists|] == last;
    if i :| 0 <= i < |lists| && m in lists[i] { assert m in all[i]; }
  }

  /** m was finished when the read was made and lies wholly inside its window. */
  ghost predicate Inside(stream: seq<Event>, r: Read, over: nat, m: Message)
    requires r.tail <= |stream|
  {
    m in View(stream[..r.tail]).done && r.from <= m.seqStart && m.seqEnd < r.from + over
  }

  lemma InsideIsEntry(stream: seq<Event>, r: Read, over: nat, m: Message)
    requires r.tail <= |stream| && Inside(stream, r, over, m)
    ensures Entry(stream, r, over, m) && m.status != InProgress
  {
    var seen := Seen(stream, r, over);
    EndedInside(stream[..r.tail], |seen|, m);
    assert stream[..r.tail][..|seen|] == seen;
    FinishedMessages(Log(seen), m);
  }

  /** A finished message that starts in a window and ends at or after its end is
      listed there in progress, with its text up to the end; and a window that
      starts after the message does not list it at all. */
  lemma Straddling(stream: seq<Event>, r: Read, over: nat, ms: seq<Message>, m: Message) returns (open: Message)
    requires r.tail <= |stream| && Shows(ms, Run(EMPTY, Window(stream, r, over))) && m in View(stream).done
    requires m.seqStart < Min(r.from + over, r.tail) <= m.seqEnd
    ensures open.status == InProgress && open.id == m.id && open.sender == m.sender && open.seqStart == m.seqStart
    ensures m !in ms && (open in ms <==> r.from <= m.seqStart)
  {
    var hi := Min(r.from + over, r.tail);
    FinishedMessages(Log(stream), m);
    var i: nat, j: nat :| Spans(Log(stream), m, i, j);
    open := OpenBefore(stream, hi, m, i, j);
    WindowExactly(stream, r, over, ms, open);
    WindowExactly(stream, r, over, ms, m);
    NotFinishedBefore(stream, hi, m);
  }

  lemma OpenBefore(stream: seq<Event>, hi: nat, m: Message, i: nat, j: nat) returns (open: Message)
    requires hi <= |stream| && Spans(Log(stream), m, i, j) && m.seqStart < hi <= m.seqEnd
    ensures open.status == InProgress && open.id == m.id && open.sender == m.sender && open.seqStart == m.seqStart
    ensures Reported(Log(stream[..hi]), open)
  {
    var es := Log(stream[..hi]);
    assert Log(stream)[..j][i] == Log(stream)[i] == es[i];
    var p := Pending(m.sender, Appended(es[i + 1..], m.id), m.seqStart);
    forall k | i < k < |es| ensures !Delimits(es[k].event, m.id) {
      assert es[k] == Log(stream)[..j][k];
    }
    assert OpensAt(es, m.id, i, p);
    open := Message(m.id, m.sender, p.content, m.seqStart, 0, InProgress);
  }

  lemma NotFinishedBefore(stream: seq<Event>, hi: nat, m: Message)
    requires hi <= |stream| && m in View(stream).done && hi <= m.seqEnd
    ensures !Reported(Log(stream[..hi]), m)
  {
    FinishedMessages(Log(stream), m);
  }

  /** Each read starts a window further back than the one before, the last one
      clipped at the start of the stream. */
  predicate WalksBack(scans: seq<Read>, upper: nat, over: nat) {
    scans == [] ||
    (WalksBack(scans[..|scans| - 1], upper, over)
     && scans[|scans| - 1].from == Back(Reached(scans[..|scans| - 1], upper), over))
  }

  /** How far back the walk has come. */
  function Reached(scans: seq<Read>, upper: nat): nat { if scans == [] then upper else scans[|scans| - 1].from }

  function Back(cursor: nat, over: nat): nat { if cursor > over then cursor - over else 0 }

  /** The first limit messages in order. */
  function Page(ms: seq<Message>, desc: bool, limit: nat): seq<Message> {
    var all := Sorted(ms, desc);
    if |all| > limit then all[..limit] else all
  }

  method FilterBelow(ms: seq<Message>, upper: nat) returns (kept: seq<Message>)
    ensures kept == Below(ms, upper)
  {
    kept := [];
    for i := 0 to |ms|
      invariant kept == Below(ms[..i], upper)
    {
      assert ms[..i + 1][..i] == ms[..i];
      if ms[i].seqStart < upper { kept := kept + [ms[i]]; }
    }
    assert ms[..|ms|] == ms;
  }

  lemma WalksOn(scans: seq<Read>, upper: nat, over: nat, r: Read)
    requires WalksBack(scans, upper, over) && r.from == Back(Reached(scans, upper), over)
    ensures WalksBack(scans + [r], upper, over)
  {
    assert (scans + [r])[..|scans|] == scans;
  }

  lemma ListsOn(stream: seq<Event>, scans: seq<Read>, lists: seq<seq<Message>>, over: nat, r: Read, ms: seq<Message>)
    requires ScansOk(stream, scans) && Listed(lists, stream, scans, over)
    requires r.tail <= |stream| && Shows(ms, Run(EMPTY, Window(stream, r, over)))
    ensures ScansOk(stream, scans + [r]) && Listed(lists + [ms], stream, scans + [r], over)
  {
    var scans', lists' := scans + [r], lists + [ms];
    forall i | 0 <= i < |scans'| ensures Shows(lists'[i], Run(EMPTY, Window(stream, scans'[i], over))) {
      if i < |scans| { assert lists'[i] == lists[i] && scans'[i] == scans[i]; }
    }
  }

  /** One window: read, assembled and cut off at the bound. */
  method ReadWindow(stream: seq<Event>, r: Read, over: nat, upper: nat) returns (ms: seq<Message>, kept: seq<Message>)
    requires r.tail <= |stream|
    ensures Shows(ms, Run(EMPTY, Window(stream, r, over))) && kept == Below(ms, upper)
  {
    ms := AssembleMessages(Window(stream, r, over));
    kept := FilterBelow(ms, upper);
  }

  lemma CollectOn(lists: seq<seq<Message>>, ms: seq<Message>, upper: nat)
    ensures Collect(lists + [ms], upper) == Collect(lists, upper) + Below(ms, upper)
  {
    assert (lists + [ms])[..|lists|] == lists;
  }

  /** The state of the walk: the windows read so far, each of what the stream held
      then, what they list, and what was found below the bound. */
  ghost predicate Walked(stream: seq<Event>, tails: seq<nat>, scans: seq<Read>, lists: seq<seq<Message>>, found: seq<Message>,
                         upper: nat, over: nat)
  {
    && ScansOk(stream, scans) && WalksBack(scans, upper, over) && Listed(lists, stream, scans, over)
    && found == Collect(lists, upper)
    && Timely(scans, tails)
  }

  ghost predicate Timely(scans: seq<Read>, tails: seq<nat>) {
    |scans| <= |tails| && forall i :: 0 <= i < |scans| ==> scans[i].tail == tails[i]
  }

  lemma TimelyNext(scans: seq<Read>, tails: seq<nat>, r: Read)
    requires Timely(scans, tails) && |scans| < |tails| && r.tail == tails[|scans|]
    ensures Timely(scans + [r], tails)
  {
  }

  /** Before read i the stream had not been read to its beginning and the page
      was not full. */
  predicate NeededAt(scans: seq<Read>, lists: seq<seq<Message>>, upper: nat, limit: nat, i: nat)
    requires 0 < i < |scans| == |lists|
  {
    scans[i - 1].from > 0 && |Collect(lists[..i], upper)| <= limit
  }

  /** No read but the first was made without need. */
  ghost predicate Needed(scans: seq<Read>, lists: seq<seq<Message>>, upper: nat, limit: nat) {
    |lists| == |scans| && forall i :: 0 < i < |scans| ==> NeededAt(scans, lists, upper, limit, i)
  }

  lemma NeededNext(scans: seq<Read>, lists: seq<seq<Message>>, r: Read, ms: seq<Message>, upper: nat, limit: nat)
    requires Needed(scans, lists, upper, limit)
    requires scans != [] ==> scans[|scans| - 1].from > 0 && |Collect(lists, upper)| <= limit
    ensures Needed(scans + [r], lists + [ms], upper, limit)
  {
    forall i | 0 < i < |scans| + 1 ensures NeededAt(scans + [r], lists + [ms], upper, limit, i) {
      if i < |scans| {
        assert NeededAt(scans, lists, upper, limit, i);
        assert (lists + [ms])[..i] == lists[..i];
      } else {
        assert (lists + [ms])[..i] == lists;
      }
    }
  }

  lemma WalkedNone(stream: seq<Event>, tails: seq<nat>, upper: nat, over: nat)
    ensures Walked(stream, tails, [], [], [], upper, over)
  {
  }

  lemma WalkedNext(stream: seq<Event>, tails: seq<nat>, scans: seq<Read>, lists: seq<seq<Message>>, found: seq<Message>,
                   upper: nat, over: nat, r: Read, ms: seq<Message>)
    requires Walked(stream, tails, scans, lists, found, upper, over) && |scans| < |tails|
    requires r == Read(Back(Reached(scans, upper), over), tails[|scans|]) && r.tail <= |stream|
    requires Shows(ms, Run(EMPTY, Window(stream, r, over)))
    ensures Walked(stream, tails, scans + [r], lists + [ms], found + Below(ms, upper), upper, over)
  {
    TimelyNext(scans, tails, r);
    WalksOn(scans, upper, over, r);
    ListsOn(stream, scans, lists, over, r, ms);
    CollectOn(lists, ms, upper);
  }

  /** The descending page. tails[i] is what the i-th read finds as the end of
      the stream, stream what it holds by the time of the reply. */
  method GetHistoryBefore(stream: seq<Event>, tails: seq<nat>, fails: seq<bool>, before: Option<nat>, head: nat, limit: nat)
    returns (ok: bool, page: seq<Message>, hasMore: bool, upper: nat, scans: seq<Read>, lists: seq<seq<Message>>)
    requires limit > 0 && |tails| == |fails| == MAX_PAGES
    requires forall i :: 0 <= i < |tails| ==> tails[i] <= |stream|
    ensures upper == if before.Some? then before.value else head + 1
    ensures ok ==>
      && 0 < |scans| <= MAX_PAGES && ScansOk(stream, scans) && WalksBack(scans, upper, limit * 8)
      && Listed(lists, stream, scans, limit * 8)
      && hasMore == (|Collect(lists, upper)| > limit) && page == Page(Collect(lists, upper), true, limit)
      && (scans[|scans| - 1].from == 0 || |Collect(lists, upper)| > limit || |scans| == MAX_PAGES)
      && Needed(scans, lists, upper, limit)
    ensures Timely(scans, tails) && (!ok ==> |scans| < MAX_PAGES && fails[|scans|])
    ensures ok ==> forall m :: Recent(stream[..tails[0]], upper, limit * 8, m) ==> OnPage(m, page, limit)
  {
    var over := limit * 8;
    upper := if before.Some? then before.value else head + 1;
    var found: seq<Message> := [];
    var cursor := upper;
    scans, lists := [], [];
    ok, page, hasMore := false, [], false;
    WalkedNone(stream, tails, upper, over);
    assert Needed(scans, lists, upper, limit);
    while |scans| < MAX_PAGES
      invariant |scans| <= MAX_PAGES && Walked(stream, tails, scans, lists, found, upper, over)
      invariant cursor == Reached(scans, upper)
      invariant Needed(scans, lists, upper, limit) && (scans != [] ==> scans[|scans| - 1].from > 0 && |found| <= limit)
      decreases MAX_PAGES - |scans|
    {
      var r := Read(Back(cursor, over), tails[|scans|]);
      if fails[|scans|] { return; }
      var ms, kept := ReadWindow(stream, r, over, upper);
      WalkedNext(stream, tails, scans, lists, found, upper, over, r, ms);
      NeededNext(scans, lists, r, ms, upper, limit);
      found, lists := found + kept, lists + [ms];
      scans := scans + [r];
      if r.from == 0 || |found| > limit { break; }
      cursor := r.from;
    }
    SortedKeeps(found, true);
    hasMore := |found| > limit;
    page := Page(found, true, limit);
    ok := true;
    NewestAllOnPage(stream, scans, lists, upper, over, limit);
  }

  /** Soundness: the page is in order, everything on it starts below the bound
      and is an entry of some window read; if finished, it is a message of the
      whole stream, with the same content and seqs. */
  lemma PageIsSound(stream: seq<Event>, scans: seq<Read>, lists: seq<seq<Message>>, upper: nat, over: nat, limit: nat, m: Message)
    requires ScansOk(stream, scans) && Listed(lists, stream, scans, over)
    ensures var page := Page(Collect(lists, upper), true, limit);
            && Ordered(page, true)
            && (m in page ==> m.seqStart < upper && exists i :: 0 <= i < |scans| && Entry(stream, scans[i], over, m))
            && (m in page && m.status != InProgress ==> m in View(stream).done)
  {
    var c := Collect(lists, upper);
    SortedKeeps(c, true);
    if m in Page(c, true, limit) {
      assert m in Sorted(c, true);
      CollectMember(lists, upper, m);
      var i :| 0 <= i < |lists| && m in lists[i];
      WindowExactly(stream, scans[i], over, lists[i], m);
      EntryIsTrue(stream, scans[i], over, lists[i], m);
    }
  }

  /** Coverage: an entry of a window read, starting below the bound, is on the
      page unless the page is full of later ones. */
  lemma PageCovers(stream: seq<Event>, scans: seq<Read>, lists: seq<seq<Message>>, upper: nat, over: nat, limit: nat,
                   m: Message, i: nat)
    requires ScansOk(stream, scans) && Listed(lists, stream, scans, over)
    requires i < |scans| && Entry(stream, scans[i], over, m) && m.seqStart < upper
    ensures OnPage(m, Page(Collect(lists, upper), true, limit), limit)
  {
    var c := Collect(lists, upper);
    SortedKeeps(c, true);
    WindowExactly(stream, scans[i], over, lists[i], m);
    CollectMember(lists, upper, m);
    FirstOnes(Sorted(c, true), true, limit, m);
  }

  /** m is on the descending page, or the page is full of later ones. */
  predicate OnPage(m: Message, page: seq<Message>, limit: nat) {
    m in page || (|page| == limit && forall x | x in page :: x.seqStart >= m.seqStart)
  }

  /** The walk misses nothing: its windows cover every seq from where it ended up
      to the bound; the first one ends at the bound and is no longer than a window
      unless the stream begins inside it. */
  lemma {:induction false} WalkCovers(scans: seq<Read>, upper: nat, over: nat, at: nat) returns (i: nat)
    requires scans != [] && WalksBack(scans, upper, over) && scans[|scans| - 1].from <= at < upper
    ensures i < |scans| && scans[i].from <= at < scans[i].from + over
  {
    var n := |scans| - 1;
    if at < Reached(scans[..n], upper) {
      i := n;
    } else {
      i := WalkCovers(scans[..n], upper, over, at);
    }
  }

  lemma {:induction false} FirstWindow(scans: seq<Read>, upper: nat, over: nat)
    requires scans != [] && WalksBack(scans, upper, over)
    ensures upper <= scans[0].from + over && (scans[0].from + over == upper || scans[0].from == 0)
  {
    if |scans| > 1 {
      FirstWindow(scans[..|scans| - 1], upper, over);
    } else {
      assert scans[..0] == [];
    }
  }

  /** The newest messages are always found: a message that starts within a window
      of the bound and ended below it before the first read was made is on the
      page, unless the page is full of later ones. */
  lemma NewestOnPage(stream: seq<Event>, scans: seq<Read>, lists: seq<seq<Message>>, upper: nat, over: nat, limit: nat, m: Message)
    requires ScansOk(stream, scans) && Listed(lists, stream, scans, over) && scans != [] && WalksBack(scans, upper, over)
    requires Recent(stream[..scans[0].tail], upper, over, m)
    ensures OnPage(m, Page(Collect(lists, upper), true, limit), limit)
  {
    FirstWindow(scans, upper, over);
    StartsBefore(stream[..scans[0].tail], m);
    InsideIsEntry(stream, scans[0], over, m);
    PageCovers(stream, scans, lists, upper, over, limit, m, 0);
  }

  lemma NewestAllOnPage(stream: seq<Event>, scans: seq<Read>, lists: seq<seq<Message>>, upper: nat, over: nat, limit: nat)
    requires ScansOk(stream, scans) && Listed(lists, stream, scans, over) && scans != [] && WalksBack(scans, upper, over)
    ensures forall m :: Recent(stream[..scans[0].tail], upper, over, m) ==> OnPage(m, Page(Collect(lists, upper), true, limit), limit)
  {
    forall m | Recent(stream[..scans[0].tail], upper, over, m)
      ensures OnPage(m, Page(Collect(lists, upper), true, limit), limit)
    {
      NewestOnPage(stream, scans, lists, upper, over, limit, m);
    }
  }

  /** m is finished in the stream, starts within a window of the bound and ends below it. */
  ghost predicate Recent(stream: seq<Event>, upper: nat, over: nat, m: Message) {
    m in View(stream).done && upper <= m.seqStart + over && m.seqEnd < upper
  }

  lemma StartsBefore(stream: seq<Event>, m: Message)
    requires m in View(stream).done
    ensures m.seqStart < m.seqEnd
  {
    OrderlyRun(Log(stream));
  }

  /** And further back: a message that lies inside one of the windows the walk
      must read by itself, whatever the bound, is found by a walk that came that
      far; so is one that was open there, with its text so far. */
  lemma OlderOnPage(stream: seq<Event>, scans: seq<Read>, lists: seq<seq<Message>>, upper: nat, over: nat, limit: nat, at: nat)
    returns (i: nat)
    requires ScansOk(stream, scans) && Listed(lists, stream, scans, over) && scans != [] && WalksBack(scans, upper, over)
    requires scans[|scans| - 1].from <= at < upper
    ensures i < |scans| && scans[i].from <= at < scans[i].from + over
    ensures forall m :: Entry(stream, scans[i], over, m) && m.seqStart == at ==> OnPage(m, Page(Collect(lists, upper), true, limit), limit)
  {
    i := WalkCovers(scans, upper, over, at);
    forall m | Entry(stream, scans[i], over, m) && m.seqStart == at
      ensures OnPage(m, Page(Collect(lists, upper), true, limit), limit)
    {
      PageCovers(stream, scans, lists, upper, over, limit, m, i);
    }
  }

  lemma FirstOnes(all: seq<Message>, desc: bool, limit: nat, m: Message)
    requires Ordered(all, desc) && m in all
    ensures var page := if |all| > limit then all[..limit] else all;
            m in page || (|page| == limit && forall x :: x in page ==> Rank(x, desc) <= Rank(m, desc))
  {
    var j :| 0 <= j < |all| && all[j] == m;
    var page := if |all| > limit then all[..limit] else all;
    assert j < |page| ==> page[j] == m;
  }

  /** The ascending page: one window from a seq on, oldest first. */
  method GetHistoryFrom(stream: seq<Event>, tail: nat, from: nat, limit: nat)
    returns (page: seq<Message>, hasMore: bool, ms: seq<Message>)
    requires limit > 0 && tail <= |stream|
    ensures Shows(ms, Run(EMPTY, Window(stream, Read(from, tail), limit * 8)))
    ensures hasMore == (|ms| > limit) && page == Page(ms, false, limit)
  {
    ms := AssembleMessages(Window(stream, Read(from, tail), limit * 8));
    SortedKeeps(ms, false);
    hasMore := |ms| > limit;
    page := Page(ms, false, limit);
  }

  /** What the ascending page means: in order, only entries of its window, true
      of the whole stream, and all of them but for what a full page pushed out. */
  lemma CatchUpRefines(stream: seq<Event>, r: Read, over: nat, limit: nat, ms: seq<Message>, m: Message)
    requires r.tail <= |stream| && Shows(ms, Run(EMPTY, Window(stream, r, over)))
    ensures var page := Page(ms, false, limit);
            && Ordered(page, false)
            && (m in page ==> Entry(stream, r, over, m) && True(stream, r, over, m))
            && (Entry(stream, r, over, m) ==>
                  m in page || (|page| == limit && forall x :: x in page ==> x.seqStart <= m.seqStart))
  {
    SortedKeeps(ms, false);
    WindowRefines(stream, r, over, ms, m);
    WindowExactly(stream, r, over, ms, m);
    assert m in Page(ms, false, limit) ==> m in Sorted(ms, false);
    if m in ms { FirstOnes(Sorted(ms, false), false, limit, m); }
  }

  // ------------------------------------------------------------------
  // When a page repeats a message
  // ------------------------------------------------------------------

  /** Position i of es starts a message that no later start of its id supersedes:
      between the two something ends or aborts it. */
  ghost predicate Kept(es: seq<SeqEvent>, i: nat) {
    && i < |es| && es[i].event.MessageStart?
    && forall k :: i < k < |es| && es[k].event.MessageStart? && es[k].event.id == es[i].event.id ==>
         exists j :: i < j < k && Delimits(es[j].event, es[i].event.id)
  }

  /** The next delimiter of id after position i, |es| if there is none. */
  lemma NextDelimiter(es: seq<SeqEvent>, id: Id, i: nat) returns (k: nat)
    requires i < |es|
    ensures i < k <= |es| && (k < |es| ==> Delimits(es[k].event, id))
    ensures forall j :: i < j < k ==> !Delimits(es[j].event, id)
  {
    k := i + 1;
    while k < |es| && !Delimits(es[k].event, id)
      invariant i < k <= |es| && forall j :: i < j < k ==> !Delimits(es[j].event, id)
    {
      k := k + 1;
    }
  }

  /** A kept start is finished by the next delimiter, or still open. */
  lemma KeptIsListed(es: seq<SeqEvent>, ms: seq<Message>, i: nat) returns (m: Message)
    requires Shows(ms, Run(EMPTY, es)) && Kept(es, i)
    ensures m in ms && m.seqStart == es[i].at
  {
    var id, sender := es[i].event.id, es[i].event.sender;
    var k := NextDelimiter(es, id, i);
    var p := Pending(sender, Appended(es[..k][i + 1..], id), es[i].at);
    assert OpensAt(es[..k], id, i, p);
    if k == |es| {
      assert es[..k] == es;
      OpenMessages(es, id, p);
      assert OpenSomewhere(es, id, p);
      m := Unfinished(id, p);
    } else {
      m := Message(id, sender, p.content, es[i].at, es[k].at, if es[k].event.MessageEnd? then Complete else Aborted);
      assert Spans(es, m, i, k);
      FinishedMessages(es, m);
    }
    ShownMember(ms, Run(EMPTY, es), m);
  }

  lemma SpannedIsKept(es: seq<SeqEvent>, m: Message, i: nat, j: nat)
    requires Spans(es, m, i, j)
    ensures Kept(es, i) && es[i].at == m.seqStart
  {
    assert forall k :: 0 <= k < j ==> es[..j][k] == es[k];
    forall k | i < k < |es| && es[k].event.MessageStart? && es[k].event.id == m.id
      ensures exists d :: i < d < k && Delimits(es[d].event, m.id)
    {
      assert Delimits(es[j].event, m.id);
    }
  }

  /** Only kept starts are listed. */
  lemma ListedIsKept(es: seq<SeqEvent>, ms: seq<Message>, m: Message) returns (i: nat)
    requires Shows(ms, Run(EMPTY, es)) && m in ms
    ensures Kept(es, i) && es[i].at == m.seqStart
  {
    var a := Run(EMPTY, es);
    ShownMember(ms, a, m);
    if m in a.done {
      FinishedMessages(es, m);
      var x: nat, y: nat :| Spans(es, m, x, y);
      SpannedIsKept(es, m, x, y);
      i := x;
    } else {
      OpenMessages(es, m.id, a.pending[m.id]);
      var x: nat :| OpensAt(es, m.id, x, a.pending[m.id]);
      i := x;
    }
  }

  /** Of the stream, that a read has the start of a message at seq at: its
      message_start lies in the window and is not superseded there. */
  ghost predicate HasStart(stream: seq<Event>, r: Read, over: nat, at: nat)
    requires r.tail <= |stream|
  {
    r.from <= at < Min(r.from + over, r.tail) && Kept(Window(stream, r, over), at - r.from)
  }

  lemma WindowAt(stream: seq<Event>, r: Read, over: nat, i: nat)
    requires r.tail <= |stream| && i < |Window(stream, r, over)|
    ensures Window(stream, r, over)[i] == SeqEvent(r.from + i, stream[r.from + i])
  {
  }

  lemma ListedStart(stream: seq<Event>, r: Read, over: nat, ms: seq<Message>, m: Message)
    requires r.tail <= |stream| && Shows(ms, Run(EMPTY, Window(stream, r, over))) && m in ms
    ensures HasStart(stream, r, over, m.seqStart)
  {
    var i := ListedIsKept(Window(stream, r, over), ms, m);
    WindowAt(stream, r, over, i);
  }

  /** A window lists an entry starting at seq at iff it has that start, and then
      exactly one. */
  lemma StartIsListed(stream: seq<Event>, r: Read, over: nat, ms: seq<Message>, at: nat)
    requires r.tail <= |stream| && Shows(ms, Run(EMPTY, Window(stream, r, over)))
    ensures |StartingAt(ms, at)| == if HasStart(stream, r, over, at) then 1 else 0
  {
    LastAlone(stream, r, over, ms, at);
    if HasStart(stream, r, over, at) {
      WindowAt(stream, r, over, at - r.from);
      var m := KeptIsListed(Window(stream, r, over), ms, at - r.from);
      StartingAtMember(ms, m);
    }
    if StartingAt(ms, at) != [] {
      StartingAtHere(ms, at, StartingAt(ms, at)[0]);
      ListedStart(stream, r, over, ms, StartingAt(ms, at)[0]);
    }
  }

  lemma {:induction false} StartingAtHere(ms: seq<Message>, at: nat, m: Message)
    requires m in StartingAt(ms, at)
    ensures m in ms && m.seqStart == at
  {
    if ms != [] && m in StartingAt(ms[..|ms| - 1], at) {
      StartingAtHere(ms[..|ms| - 1], at, m);
    }
  }

  lemma LastAlone(stream: seq<Event>, r: Read, over: nat, ms: seq<Message>, at: nat)
    requires r.tail <= |stream| && Shows(ms, Run(EMPTY, Window(stream, r, over)))
    ensures |StartingAt(ms, at)| <= 1
  {
    WindowOrderly(stream, r, over);
    ShownStartsDistinct(ms, Run(EMPTY, Window(stream, r, over)), Min(r.from + over, r.tail));
    AtMostOneStartingAt(ms, at);
  }

  /** How many of the reads have the start at seq at. */
  ghost function Hits(stream: seq<Event>, scans: seq<Read>, over: nat, at: nat): nat
    requires ScansOk(stream, scans)
  {
    if scans == [] then 0
    else Hits(stream, scans[..|scans| - 1], over, at) + if HasStart(stream, scans[|scans| - 1], over, at) then 1 else 0
  }

  /** Exactly how often a start is collected: below the bound, once for every
      read that has it, whether its message is listed there as finished or as
      still in progress. */
  lemma {:induction false} CollectedCount(stream: seq<Event>, scans: seq<Read>, lists: seq<seq<Message>>, upper: nat, over: nat, at: nat)
    requires ScansOk(stream, scans) && Listed(lists, stream, scans, over)
    ensures |StartingAt(Collect(lists, upper), at)| == if at < upper then Hits(stream, scans, over, at) else 0
    decreases |scans|
  {
    if scans != [] {
      var n := |scans| - 1;
      CollectedCount(stream, scans[..n], lists[..n], upper, over, at);
      StartIsListed(stream, scans[n], over, lists[n], at);
      BelowStarting(lists[n], upper, at);
      StartingAtConcat(Collect(lists[..n], upper), Below(lists[n], upper), at);
    }
  }

  lemma {:induction false} HitOnce(stream: seq<Event>, scans: seq<Read>, over: nat, at: nat, i: nat)
    requires ScansOk(stream, scans) && i < |scans| && HasStart(stream, scans[i], over, at)
    ensures Hits(stream, scans, over, at) >= 1
  {
    if i < |scans| - 1 { HitOnce(stream, scans[..|scans| - 1], over, at, i); }
  }

  lemma {:induction false} HitTwice(stream: seq<Event>, scans: seq<Read>, over: nat, at: nat, i: nat, j: nat)
    requires ScansOk(stream, scans) && i < j < |scans|
    requires HasStart(stream, scans[i], over, at) && HasStart(stream, scans[j], over, at)
    ensures Hits(stream, scans, over, at) >= 2
  {
    var front := scans[..|scans| - 1];
    if j < |scans| - 1 { HitTwice(stream, front, over, at, i, j); } else { HitOnce(stream, front, over, at, i); }
  }

  lemma {:induction false} FindHit(stream: seq<Event>, scans: seq<Read>, over: nat, at: nat) returns (i: nat)
    requires ScansOk(stream, scans) && Hits(stream, scans, over, at) >= 1
    ensures i < |scans| && HasStart(stream, scans[i], over, at)
  {
    i := |scans| - 1;
    if !HasStart(stream, scans[i], over, at) { i := FindHit(stream, scans[..i], over, at); }
  }

  lemma {:induction false} FindHits(stream: seq<Event>, scans: seq<Read>, over: nat, at: nat) returns (i: nat, j: nat)
    requires ScansOk(stream, scans) && Hits(stream, scans, over, at) >= 2
    ensures i < j < |scans| && HasStart(stream, scans[i], over, at) && HasStart(stream, scans[j], over, at)
  {
    j := |scans| - 1;
    if HasStart(stream, scans[j], over, at) {
      i := FindHit(stream, scans[..j], over, at);
    } else {
      i, j := FindHits(stream, scans[..j], over, at);
    }
  }

  /** A start is collected at least twice iff it is below the bound and two
      different reads have it. */
  lemma RepeatedIff(stream: seq<Event>, scans: seq<Read>, lists: seq<seq<Message>>, upper: nat, over: nat, at: nat)
    requires ScansOk(stream, scans) && Listed(lists, stream, scans, over)
    ensures |StartingAt(Collect(lists, upper), at)| >= 2
            <==> at < upper && exists i, j :: 0 <= i < j < |scans|
                                 && HasStart(stream, scans[i], over, at) && HasStart(stream, scans[j], over, at)
  {
    CollectedCount(stream, scans, lists, upper, over, at);
    if Hits(stream, scans, over, at) >= 2 {
      var i, j := FindHits(stream, scans, over, at);
    }
    if i: nat, j: nat :| i < j < |scans| && HasStart(stream, scans[i], over, at) && HasStart(stream, scans[j], over, at) {
      HitTwice(stream, scans, over, at, i, j);
    }
  }

  /** While no window overlaps a later one, nothing is collected twice. */
  lemma NoRepeats(stream: seq<Event>, scans: seq<Read>, lists: seq<seq<Message>>, upper: nat, over: nat, at: nat)
    requires ScansOk(stream, scans) && Listed(lists, stream, scans, over)
    requires forall i, j :: 0 <= i < j < |scans| ==> scans[j].from + over <= scans[i].from
    ensures |StartingAt(Collect(lists, upper), at)| <= 1
  {
    RepeatedIff(stream, scans, lists, upper, over, at);
  }

  /** A walk's windows are apart except that the last one, clipped at seq 0, may
      reach into the one before it: exactly when that one starts below over. */
  lemma {:induction false} WalkOverlaps(scans: seq<Read>, upper: nat, over: nat, i: nat, j: nat)
    requires WalksBack(scans, upper, over) && i < j < |scans|
    ensures scans[j].from <= scans[j - 1].from <= scans[i].from
    ensures scans[j].from + over <= scans[j - 1].from <==> over <= scans[j - 1].from
    ensures scans[j - 1].from < over ==> scans[j].from == 0
  {
    var front := scans[..|scans| - 1];
    if j < |scans| - 1 {
      WalkOverlaps(front, upper, over, i, j);
    } else if i < j - 1 {
      WalkOverlaps(front, upper, over, i, j - 1);
    }
  }
}
