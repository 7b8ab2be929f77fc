/** The resident agent's incremental reader: live assembly, one lazy seed and a
    bounded history. */
module Resident {
  import opened Common
  import opened Events

  const MAX_HISTORY := 50
  const SEED_WINDOW := 500

  /** An open message as the listener keeps it. */
  datatype Partial = Partial(sender: Id, content: string)

  datatype ConvMessage = ConvMessage(sender: Id, content: string)

  /** Where a history entry came from: a finished message of the stream, or the
      agent's own response, which its respond path adds by itself. */
  datatype Entry = Peer(message: Message) | Own(content: string)

  // ------------------------------------------------------------------
  // What the history should be
  // ------------------------------------------------------------------

  function Last<T>(s: seq<T>, n: nat): seq<T> { if |s| > n then s[|s| - n..] else s }

  predicate Answers(m: Message, me: Id) { m.status == Complete && m.sender != me }

  /** The complete messages of others. */
  function Peers(ms: seq<Message>, me: Id): seq<Message> {
    if ms == [] then []
    else Peers(ms[..|ms| - 1], me) + if Answers(ms[|ms| - 1], me) then [ms[|ms| - 1]] else []
  }

  /** Those of them that ended before seq t. */
  function EndedBefore(ms: seq<Message>, t: nat, me: Id): seq<Message> {
    if ms == [] then []
    else EndedBefore(ms[..|ms| - 1], t, me)
         + if Answers(ms[|ms| - 1], me) && ms[|ms| - 1].seqEnd < t then [ms[|ms| - 1]] else []
  }

  function PeersOf(es: seq<Entry>): seq<Message> {
    if es == [] then [] else PeersOf(es[..|es| - 1]) + if es[|es| - 1].Peer? then [es[|es| - 1].message] else []
  }

  function Entries(ms: seq<Message>): (es: seq<Entry>)
    ensures |es| == |ms| && forall i :: 0 <= i < |es| ==> es[i] == Peer(ms[i])
  {
    seq(|ms|, i requires 0 <= i < |ms| => Peer(ms[i]))
  }

  function Shown(e: Entry, me: Id): ConvMessage {
    match e
    case Peer(m) => ConvMessage(m.sender, m.content)
    case Own(content) => ConvMessage(me, content)
  }

  function History(es: seq<Entry>, me: Id): (h: seq<ConvMessage>)
    ensures |h| == |es| && forall i :: 0 <= i < |h| ==> h[i] == Shown(es[i], me)
  {
    seq(|es|, i requires 0 <= i < |es| => Shown(es[i], me))
  }

  /** Messages in the order of their ends, each of another agent and complete. */
  ghost predicate Ordered(ms: seq<Message>, me: Id) {
    && (forall i :: 0 <= i < |ms| ==> Answers(ms[i], me))
    && (forall i, j :: 0 <= i < j < |ms| ==> ms[i].seqEnd < ms[j].seqEnd)
  }

  lemma PeersNext(ms: seq<Message>, m: Message, me: Id)
    ensures Peers(ms + [m], me) == Peers(ms, me) + if Answers(m, me) then [m] else []
  {
    assert (ms + [m])[..|ms|] == ms;
  }

  lemma PeersOfNext(es: seq<Entry>, e: Entry)
    ensures PeersOf(es + [e]) == PeersOf(es) + if e.Peer? then [e.message] else []
  {
    assert (es + [e])[..|es|] == es;
  }

  lemma {:induction false} PeersOfEntries(ms: seq<Message>)
    ensures PeersOf(Entries(ms)) == ms
  {
    if ms != [] {
      PeersOfEntries(ms[..|ms| - 1]);
      assert Entries(ms)[..|ms| - 1] == Entries(ms[..|ms| - 1]);
    }
  }

  lemma {:induction false} PeersAre(ms: seq<Message>, me: Id, m: Message)
    ensures m in Peers(ms, me) <==> m in ms && Answers(m, me)
  {
    if ms != [] {
      PeersAre(ms[..|ms| - 1], me, m);
      assert ms == ms[..|ms| - 1] + [ms[|ms| - 1]];
    }
  }

  lemma {:induction false} PeersOrdered(ms: seq<Message>, me: Id)
    requires forall i, j :: 0 <= i < j < |ms| ==> ms[i].seqEnd < ms[j].seqEnd
    ensures Ordered(Peers(ms, me), me)
  {
    if ms != [] {
      var front := ms[..|ms| - 1];
      PeersOrdered(front, me);
      var ps := Peers(front, me);
      forall i | 0 <= i < |ps| ensures ps[i].seqEnd < ms[|ms| - 1].seqEnd {
        PeersAre(front, me, ps[i]);
      }
    }
  }

  // ------------------------------------------------------------------
  // The seed is exact
  // ------------------------------------------------------------------

  lemma {:induction false} LaterEndsLate(a: Assembly, es: seq<SeqEvent>, t: nat)
    requires forall i :: 0 <= i < |es| ==> es[i].at >= t
    ensures a.done <= Run(a, es).done
    ensures forall m :: m in Run(a, es).done[|a.done|..] ==> m.seqEnd >= t
  {
    if es != [] {
      LaterEndsLate(a, es[..|es| - 1], t);
    }
  }

  lemma {:induction false} EarlyAll(ms: seq<Message>, t: nat, me: Id)
    requires forall m :: m in ms ==> m.seqEnd < t
    ensures EndedBefore(ms, t, me) == Peers(ms, me)
  {
    if ms != [] {
      assert forall m :: m in ms[..|ms| - 1] ==> m in ms;
      EarlyAll(ms[..|ms| - 1], t, me);
    }
  }

  lemma {:induction false} LateNone(ms: seq<Message>, late: seq<Message>, t: nat, me: Id)
    requires forall m :: m in late ==> m.seqEnd >= t || m.status == InProgress
    ensures EndedBefore(ms + late, t, me) == EndedBefore(ms, t, me)
  {
    if late == [] {
      assert ms + late == ms;
    } else {
      var front := late[..|late| - 1];
      assert forall m :: m in front ==> m in late;
      LateNone(ms, front, t, me);
      assert (ms + late)[..|ms + late| - 1] == ms + front;
      assert (ms + late)[|ms + late| - 1] == late[|late| - 1];
    }
  }

  /** What was read for a seed triggered at seq t. */
  function SeedFrom(t: nat): nat { if t > SEED_WINDOW then t - SEED_WINDOW else 0 }

  function SeedRead(stream: seq<Event>, t: nat): seq<SeqEvent>
    requires t < |stream|
  {
    var hi := SeedFrom(t) + SEED_WINDOW;
    Log(stream)[SeedFrom(t)..if hi < |stream| then hi else |stream|]
  }

  /** The complete messages of others that lie wholly inside the window before
      t, the last MAX_HISTORY of them. */
  function SeedOf(stream: seq<Event>, t: nat, me: Id): seq<Message>
    requires t < |stream|
  {
    Last(Peers(Since(View(stream[..t]).done, SeedFrom(t)), me), MAX_HISTORY)
  }

  lemma WindowBefore(stream: seq<Event>, from: nat, t: nat)
    requires from <= t <= |stream|
    ensures Run(EMPTY, Log(stream)[from..t]).done == Since(View(stream[..t]).done, from)
  {
    assert Log(stream[..t]) == Log(stream)[..from] + Log(stream)[from..t];
    WindowIsExact(Log(stream)[..from], Log(stream)[from..t], from);
  }

  /** What a listing shows past its first k finished messages ended late, if at all. */
  lemma ShownLate(ms: seq<Message>, b: Assembly, k: nat, t: nat)
    requires Shows(ms, b) && k <= |b.done|
    requires forall m :: m in b.done[k..] ==> m.seqEnd >= t
    ensures forall m :: m in ms[k..] ==> m.seqEnd >= t || m.status == InProgress
  {
    forall m | m in ms[k..] ensures m.seqEnd >= t || m.status == InProgress {
      var j :| k <= j < |ms| && ms[j] == m;
      if j < |b.done| {
        assert m == ms[..|b.done|][j] == b.done[k..][j - k];
      } else {
        assert m == ms[|b.done|..][j - |b.done|];
      }
    }
  }

  lemma EndsWithin(es: seq<SeqEvent>, t: nat)
    requires Increasing(es) && forall i :: 0 <= i < |es| ==> es[i].at < t
    ensures forall m :: m in Run(EMPTY, es).done ==> m.seqEnd < t
  {
    OrderlyRun(es);
    if es == [] { assert Run(EMPTY, es) == EMPTY; }
  }

  lemma EarlyMessages(stream: seq<Event>, from: nat, t: nat, me: Id)
    requires from <= t <= |stream|
    ensures EndedBefore(Run(EMPTY, Log(stream)[from..t]).done, t, me) == Peers(Since(View(stream[..t]).done, from), me)
  {
    EndsWithin(Log(stream)[from..t], t);
    EarlyAll(Run(EMPTY, Log(stream)[from..t]).done, t, me);
    WindowBefore(stream, from, t);
  }

  /** A window that may reach past t, cut at t. */
  lemma LateIsDropped(early: seq<SeqEvent>, late: seq<SeqEvent>, t: nat, me: Id, ms: seq<Message>)
    requires Shows(ms, Run(EMPTY, early + late))
    requires forall i :: 0 <= i < |late| ==> late[i].at >= t
    ensures EndedBefore(ms, t, me) == EndedBefore(Run(EMPTY, early).done, t, me)
  {
    RunConcat(EMPTY, early, late);
    LaterEndsLate(Run(EMPTY, early), late, t);
    LateListed(Run(EMPTY, early).done, Run(EMPTY, early + late), t, me, ms);
  }

  lemma LateListed(kept: seq<Message>, b: Assembly, t: nat, me: Id, ms: seq<Message>)
    requires Shows(ms, b) && kept <= b.done
    requires forall m :: m in b.done[|kept|..] ==> m.seqEnd >= t
    ensures EndedBefore(ms, t, me) == EndedBefore(kept, t, me)
  {
    ShownLate(ms, b, |kept|, t);
    assert ms[..|b.done|][..|kept|] == kept;
    assert ms == kept + ms[|kept|..];
    LateNone(kept, ms[|kept|..], t, me);
  }

  /** Dropping what ends at or after the trigger from a window that may reach
      past it leaves exactly what the whole stream had finished before it. */
  lemma SeedIsExact(stream: seq<Event>, t: nat, me: Id, ms: seq<Message>)
    requires t < |stream| && Shows(ms, Run(EMPTY, SeedRead(stream, t)))
    ensures EndedBefore(ms, t, me) == Peers(Since(View(stream[..t]).done, SeedFrom(t)), me)
  {
    SeedReadSplits(stream, t);
    LateIsDropped(Log(stream)[SeedFrom(t)..t], SeedRead(stream, t)[t - SeedFrom(t)..], t, me, ms);
    EarlyMessages(stream, SeedFrom(t), t, me);
  }

  lemma SeedReadSplits(stream: seq<Event>, t: nat)
    requires t < |stream|
    ensures SeedFrom(t) <= t && t - SeedFrom(t) <= |SeedRead(stream, t)|
    ensures var early, late := Log(stream)[SeedFrom(t)..t], SeedRead(stream, t)[t - SeedFrom(t)..];
            SeedRead(stream, t) == early + late && forall i :: 0 <= i < |late| ==> late[i].at >= t
  {
  }

  // ------------------------------------------------------------------
  // The live path
  // ------------------------------------------------------------------

  /** Every partial message is one the stream has open with that text. */
  ghost predicate Live(pending: map<Id, Partial>, a: Assembly, base: nat) {
    forall id :: id in pending ==>
      && id in a.pending && a.pending[id].seqStart >= base
      && pending[id] == Partial(a.pending[id].sender, a.pending[id].content)
  }

  /** And none that started at base or later is missing. */
  ghost predicate Whole(pending: map<Id, Partial>, a: Assembly, base: nat) {
    forall id :: id in a.pending && a.pending[id].seqStart >= base ==> id in pending
  }

  function FoldLive(pending: map<Id, Partial>, e: Event): map<Id, Partial> {
    match e
    case MessageStart(id, sender) => pending[id := Partial(sender, "")]
    case MessageAppend(id, content) =>
      if id in pending then pending[id := Partial(pending[id].sender, pending[id].content + content)] else pending
    case MessageEnd(id) => pending - {id}
    case MessageAbort(id, _) => pending - {id}
    case _ => pending
  }

  lemma LiveFold(pending: map<Id, Partial>, a: Assembly, base: nat, e: SeqEvent)
    requires Live(pending, a, base) && e.at >= base
    ensures Live(FoldLive(pending, e.event), Fold(a, e), base)
    ensures Whole(pending, a, base) ==> Whole(FoldLive(pending, e.event), Fold(a, e), base)
  {
  }

  /** The message that event e finishes, if it started at base or later. */
  function Ended(a: Assembly, e: SeqEvent, base: nat): seq<Message> {
    if (e.event.MessageEnd? || e.event.MessageAbort?) && e.event.id in a.pending && a.pending[e.event.id].seqStart >= base then
      var p := a.pending[e.event.id];
      [Message(e.event.id, p.sender, p.content, p.seqStart, e.at, if e.event.MessageEnd? then Complete else Aborted)]
    else []
  }

  lemma SinceFold(a: Assembly, e: SeqEvent, base: nat)
    ensures Since(Fold(a, e).done, base) == Since(a.done, base) + Ended(a, e, base)
  {
    if (e.event.MessageEnd? || e.event.MessageAbort?) && e.event.id in a.pending {
      var status := if e.event.MessageEnd? then Complete else Aborted;
      SinceAppend(a.done, Finish(a, e.event.id, e.at, status).done[|a.done|], base);
    }
  }

  lemma ViewStep(stream: seq<Event>, n: nat)
    requires n < |stream|
    ensures View(stream[..n + 1]) == Fold(View(stream[..n]), SeqEvent(n, stream[n]))
  {
    assert stream[..n + 1] == stream[..n] + [stream[n]];
    ViewAppend(stream[..n], stream[n]);
  }

  /** Every finished message of the first n records ended before n. */
  lemma EndsBelow(stream: seq<Event>, n: nat)
    requires n <= |stream|
    ensures forall i :: 0 <= i < |View(stream[..n]).done| ==> View(stream[..n]).done[i].seqEnd < n
    ensures forall i, j :: 0 <= i < j < |View(stream[..n]).done| ==> View(stream[..n]).done[i].seqEnd < View(stream[..n]).done[j].seqEnd
  {
    OrderlyRun(Log(stream[..n]));
  }

  lemma {:induction false} SinceOrdered(ms: seq<Message>, bound: nat)
    requires forall i, j :: 0 <= i < j < |ms| ==> ms[i].seqEnd < ms[j].seqEnd
    ensures forall i, j :: 0 <= i < j < |Since(ms, bound)| ==> Since(ms, bound)[i].seqEnd < Since(ms, bound)[j].seqEnd
  {
    if ms != [] {
      var front := ms[..|ms| - 1];
      SinceOrdered(front, bound);
      forall i | 0 <= i < |Since(front, bound)| ensures Since(front, bound)[i].seqEnd < ms[|ms| - 1].seqEnd {
        SinceMember(front, bound, Since(front, bound)[i]);
      }
    }
  }

  /** The seed: complete messages of others, in order, all ended before t. */
  lemma SeedOrdered(stream: seq<Event>, t: nat, me: Id)
    requires t < |stream|
    ensures Ordered(SeedOf(stream, t, me), me)
    ensures forall m :: m in SeedOf(stream, t, me) ==> m in View(stream[..t]).done && m.seqEnd < t
  {
    var done := View(stream[..t]).done;
    var since := Since(done, SeedFrom(t));
    EndsBelow(stream, t);
    SinceOrdered(done, SeedFrom(t));
    PeersOrdered(since, me);
    forall m | m in SeedOf(stream, t, me) ensures m in done && m.seqEnd < t {
      assert m in Peers(since, me);
      PeersAre(since, me, m);
      SinceMember(done, SeedFrom(t), m);
    }
  }

  // ------------------------------------------------------------------
  // The invariant of the listener, on values
  // ------------------------------------------------------------------

  /** Of a listener that follows messages from seq base on: its partial messages
      and the peer messages it has collected are true of assembly a; and if
      nothing was swept, they are complete too. */
  ghost predicate Sound(a: Assembly, base: nat, me: Id, pending: map<Id, Partial>,
                        peers: seq<Message>, seed: seq<Message>, whole: bool)
  {
    && Ordered(peers, me)
    && Live(pending, a, base)
    && (forall m :: m in peers ==> m in a.done)
    && (whole ==> Whole(pending, a, base) && peers == seed + Peers(Since(a.done, base), me))
  }

  /** The same after the first n records of the stream. */
  ghost predicate Grounded(stream: seq<Event>, n: nat, base: nat, me: Id, pending: map<Id, Partial>,
                           peers: seq<Message>, seed: seq<Message>, whole: bool)
    requires n <= |stream|
  {
    Sound(View(stream[..n]), base, me, pending, peers, seed, whole)
  }

  /** The peer message that event e completes for the listener, if any. */
  function Gain(a: Assembly, e: SeqEvent, base: nat, me: Id, pending: map<Id, Partial>): seq<Message>
    requires Live(pending, a, base)
  {
    if e.event.MessageEnd? && e.event.id in pending && pending[e.event.id].sender != me then
      var p := pending[e.event.id];
      [Message(e.event.id, p.sender, p.content, a.pending[e.event.id].seqStart, e.at, Complete)]
    else []
  }

  lemma OrderedNext(peers: seq<Message>, m: Message, me: Id)
    requires Ordered(peers, me) && Answers(m, me) && forall p :: p in peers ==> p.seqEnd < m.seqEnd
    ensures Ordered(peers + [m], me)
  {
  }

  lemma GainOrdered(a: Assembly, e: SeqEvent, base: nat, me: Id, pending: map<Id, Partial>, peers: seq<Message>)
    requires Live(pending, a, base) && Ordered(peers, me)
    requires forall m :: m in peers ==> m in a.done
    requires forall m :: m in a.done ==> m.seqEnd < e.at
    ensures Ordered(peers + Gain(a, e, base, me, pending), me)
    ensures forall m :: m in peers + Gain(a, e, base, me, pending) ==> m in Fold(a, e).done
  {
    var gain := Gain(a, e, base, me, pending);
    if gain != [] {
      OrderedNext(peers, gain[0], me);
    } else {
      assert peers + gain == peers;
    }
  }

  lemma PeersMore(ms: seq<Message>, more: seq<Message>, me: Id)
    requires |more| <= 1
    ensures Peers(ms + more, me) == Peers(ms, me) + if more != [] && Answers(more[0], me) then more else []
  {
    if more == [] {
      assert ms + more == ms;
    } else {
      assert more == [more[0]];
      PeersNext(ms, more[0], me);
    }
  }

  lemma GainIsAll(a: Assembly, e: SeqEvent, base: nat, me: Id, pending: map<Id, Partial>)
    requires Live(pending, a, base) && Whole(pending, a, base)
    ensures Peers(Since(Fold(a, e).done, base), me) == Peers(Since(a.done, base), me) + Gain(a, e, base, me, pending)
  {
    SinceFold(a, e, base);
    PeersMore(Since(a.done, base), Ended(a, e, base), me);
  }

  lemma SoundFold(a: Assembly, e: SeqEvent, base: nat, me: Id, pending: map<Id, Partial>,
                  peers: seq<Message>, seed: seq<Message>, whole: bool)
    requires Sound(a, base, me, pending, peers, seed, whole) && base <= e.at
    requires forall m :: m in a.done ==> m.seqEnd < e.at
    ensures Sound(Fold(a, e), base, me, FoldLive(pending, e.event), peers + Gain(a, e, base, me, pending), seed, whole)
  {
    LiveFold(pending, a, base, e);
    GainOrdered(a, e, base, me, pending, peers);
    if whole {
      GainIsAll(a, e, base, me, pending);
      Assoc(seed, Peers(Since(a.done, base), me), Gain(a, e, base, me, pending));
    }
  }

  lemma GroundedStep(stream: seq<Event>, n: nat, base: nat, me: Id, pending: map<Id, Partial>,
                     peers: seq<Message>, seed: seq<Message>, whole: bool)
    requires n < |stream| && base <= n && Grounded(stream, n, base, me, pending, peers, seed, whole)
    ensures Grounded(stream, n + 1, base, me, FoldLive(pending, stream[n]),
                     peers + Gain(View(stream[..n]), SeqEvent(n, stream[n]), base, me, pending), seed, whole)
  {
    ViewStep(stream, n);
    EndsBelow(stream, n);
    SoundFold(View(stream[..n]), SeqEvent(n, stream[n]), base, me, pending, peers, seed, whole);
  }

  /** Nothing of the first n records started at base >= n. */
  lemma GroundedStart(stream: seq<Event>, n: nat, base: nat, me: Id)
    requires n <= |stream| && n <= base
    ensures Grounded(stream, n, base, me, map[], [], [], true)
  {
    EarlierIsOutside(Log(stream[..n]), base);
  }

  lemma GroundedSweep(stream: seq<Event>, n: nat, base: nat, me: Id, pending: map<Id, Partial>, stale: set<Id>,
                      peers: seq<Message>, seed: seq<Message>, whole: bool)
    requires n <= |stream| && Grounded(stream, n, base, me, pending, peers, seed, whole)
    ensures Grounded(stream, n, base, me, pending - stale, peers, seed, whole && stale !! pending.Keys)
  {
    if whole && stale !! pending.Keys { assert pending - stale == pending; }
  }

  lemma ViewNone(stream: seq<Event>)
    ensures View(stream[..0]) == EMPTY
  {
    assert Log(stream[..0]) == [];
  }

  /** The record at seq 0 is dropped: nothing the listener follows starts there. */
  lemma GroundedZero(stream: seq<Event>, me: Id, pending: map<Id, Partial>,
                     peers: seq<Message>, seed: seq<Message>, whole: bool)
    requires stream != [] && Grounded(stream, 0, 1, me, pending, peers, seed, whole)
    ensures Grounded(stream, 1, 1, me, pending, peers, seed, whole)
  {
    ViewNone(stream);
    EarlierIsOutside(Log(stream[..1]), 1);
  }

  lemma SeedAtZero(stream: seq<Event>, me: Id)
    requires stream != []
    ensures SeedOf(stream, 0, me) == []
  {
    ViewNone(stream);
  }

  /** What was finished before seq t does not change. */
  lemma SeedStays(stream: seq<Event>, more: seq<Event>, t: nat, me: Id)
    ensures t < |stream| ==> SeedOf(stream + more, t, me) == SeedOf(stream, t, me)
  {
    if t < |stream| { assert (stream + more)[..t] == stream[..t]; }
  }

  lemma GroundedSeed(stream: seq<Event>, n: nat, base: nat, me: Id, pending: map<Id, Partial>, whole: bool)
    requires n < |stream| && Grounded(stream, n, base, me, pending, [], [], whole)
    ensures Grounded(stream, n, base, me, pending, SeedOf(stream, n, me), SeedOf(stream, n, me), whole)
  {
    SeedOrdered(stream, n, me);
  }

  lemma Apart(x: seq<Message>, y: seq<Message>, me: Id, m: Message)
    requires Ordered(x + y, me)
    ensures m in x ==> m !in y
  {
    forall i, j | 0 <= i < |x| && 0 <= j < |y| ensures x[i].seqEnd < y[j].seqEnd {
      assert (x + y)[i] == x[i] && (x + y)[|x| + j] == y[j];
    }
  }

  /** A seed taken when record n arrives, at its place or again at 0. */
  lemma SeedFits(stream: seq<Event>, n: nat, next: nat, base: nat, me: Id, pending: map<Id, Partial>, whole: bool)
    requires n < |stream| && next <= |stream| && (n == next || n == 0)
    requires Grounded(stream, next, base, me, pending, [], [], whole)
    ensures Grounded(stream, next, base, me, pending, SeedOf(stream, n, me), SeedOf(stream, n, me), whole)
  {
    if n == 0 { SeedAtZero(stream, me); } else { GroundedSeed(stream, n, base, me, pending, whole); }
  }

  /** Trimming after every append keeps the last entries. */
  lemma HistoryAppend(es: seq<Entry>, e: Entry, me: Id, n: nat)
    ensures Last(History(Last(es, n), me) + [Shown(e, me)], n) == History(Last(es + [e], n), me)
  {
    assert History(Last(es, n), me) + [Shown(e, me)] == History(Last(es, n) + [e], me);
    LastOfHistory(Last(es, n) + [e], me, n);
    LastNext(es, e, n);
  }

  lemma LastOfHistory(es: seq<Entry>, me: Id, n: nat)
    ensures Last(History(es, me), n) == History(Last(es, n), me)
  {
  }

  lemma LastNext<T>(s: seq<T>, x: T, n: nat)
    ensures Last(Last(s, n) + [x], n) == Last(s + [x], n)
  {
    if |s| > n {
      assert s == s[..|s| - n] + s[|s| - n..];
      assert s + [x] == s[..|s| - n] + (s[|s| - n..] + [x]);
    }
  }

  lemma HistoryLast(ms: seq<Message>, me: Id, n: nat)
    ensures Last(History(Entries(ms), me), n) == History(Entries(Last(ms, n)), me)
  {
    var x, y := Last(History(Entries(ms), me), n), History(Entries(Last(ms, n)), me);
    assert |x| == |y|;
    forall i | 0 <= i < |x| ensures x[i] == y[i] {
      assert y[i] == Shown(Peer(ms[|ms| - |x| + i]), me);
    }
  }

  lemma HistoryNext(ms: seq<Message>, m: Message, me: Id)
    ensures History(Entries(ms + [m]), me) == History(Entries(ms), me) + [ConvMessage(m.sender, m.content)]
  {
  }

  /** The peer messages among es come in the order of their ends. */
  ghost predicate InOrder(es: seq<Entry>) {
    forall i, j :: 0 <= i < j < |es| && es[i].Peer? && es[j].Peer? ==> es[i].message.seqEnd < es[j].message.seqEnd
  }

  lemma PeersInOrder(es: seq<Entry>, me: Id)
    requires Ordered(PeersOf(es), me)
    ensures InOrder(es)
  {
    forall i, j | 0 <= i < j < |es| && es[i].Peer? && es[j].Peer? ensures es[i].message.seqEnd < es[j].message.seqEnd {
      PeerOrder(es, me, i, j);
    }
  }

  /** Each is the agent's own or a complete message of another in the stream. */
  ghost predicate TrueEntries(es: seq<Entry>, stream: seq<Event>, me: Id) {
    forall i :: 0 <= i < |es| && es[i].Peer? ==> Answers(es[i].message, me) && es[i].message in View(stream).done
  }

  lemma LastIsTrue(es: seq<Entry>, stream: seq<Event>, me: Id)
    requires TrueEntries(es, stream, me) && InOrder(es)
    ensures TrueEntries(Last(es, MAX_HISTORY), stream, me) && InOrder(Last(es, MAX_HISTORY))
  {
    if |es| > MAX_HISTORY { SuffixInOrder(es, |es| - MAX_HISTORY); }
  }

  lemma SuffixInOrder(es: seq<Entry>, skip: nat)
    requires skip <= |es| && InOrder(es)
    ensures InOrder(es[skip..])
  {
  }

  lemma {:induction false} PeerOrder(es: seq<Entry>, me: Id, i: nat, j: nat)
    requires Ordered(PeersOf(es), me) && i <= j < |es| && es[i].Peer? && es[j].Peer?
    ensures es[i].message in PeersOf(es) && es[j].message in PeersOf(es)
    ensures i < j ==> es[i].message.seqEnd < es[j].message.seqEnd
  {
    var front, last := es[..|es| - 1], es[|es| - 1];
    var peers := PeersOf(front);
    assert forall k :: 0 <= k < |peers| ==> peers[k] == PeersOf(es)[k];
    if j < |es| - 1 {
      PeerOrder(front, me, i, j);
    } else if i < j {
      PeerOrder(front, me, i, i);
      var k :| 0 <= k < |peers| && peers[k] == es[i].message;
      assert PeersOf(es)[|peers|] == last.message;
    }
  }

  // ------------------------------------------------------------------
  // The listener as a function of what happens
  // ------------------------------------------------------------------

  function Larger(a: nat, b: nat): nat { if a < b then b else a }

  /** What can happen while a read session is open: the next record arrives
      (with some partial messages gone stale, and the seed read, if one is due,
      failing or not), others append, or a response of the agent finishes. */
  datatype Step =
    | Arrive(stale: set<Id>, readFails: bool, typedEnd: bool)
    | Append(events: seq<Event>)
    | Respond(content: string)

  /** What a listener has made of the records so far. It began to read at seq
      first, has come to next, and in this session reads on at seq at; all is the
      history without its bound, peers the messages of others in it, asked those a
      response was triggered by.
      The seed was taken before the record at trigger, if it was used; whole says
      that no sweep has removed anything. */
  datatype Track = Track(
    first: nat,
    next: nat,
    at: nat,
    cursor: nat,
    stream: seq<Event>,
    pending: map<Id, Partial>,
    all: seq<Entry>,
    peers: seq<Message>,
    asked: seq<Message>,
    seeded: bool,
    lastSeeded: nat,
    trigger: Option<nat>,
    seed: seq<Message>,
    whole: bool)

  /** Where a session starts: after the cursor, or at 0 if there is none. */
  function From(cursor: nat): nat { if cursor > 0 then cursor + 1 else 0 }

  function Begun(stream: seq<Event>, cursor: nat): Track {
    Track(From(cursor), From(cursor), From(cursor), cursor, stream, map[], [], [], [], false, 0, None, [], true)
  }

  /** The first seq whose message_start the listener acts on: the record at seq 0
      is always taken for one already seeded. */
  function Base(t: Track): nat { if t.first == 0 then 1 else t.first }

  /** The seed counts as taken even if its read fails; it is used only while the
      history is empty; everything before the trigger is marked as folded. */
  function SeedTaken(t: Track, readFails: bool, me: Id): Track
    requires t.at < |t.stream|
  {
    SeedWith(t, readFails, SeedOf(t.stream, t.at, me))
  }

  function SeedWith(t: Track, readFails: bool, ms: seq<Message>): Track {
    var last := if t.at > 0 && t.at - 1 > t.lastSeeded then t.at - 1 else t.lastSeeded;
    if readFails then t.(seeded := true)
    else if t.all != [] then t.(seeded := true, lastSeeded := last)
    else t.(seeded := true, lastSeeded := last, all := Entries(ms), peers := ms, seed := ms, trigger := Some(t.at))
  }

  /** The first message_end leads to the seed. */
  function Seeded(t: Track, readFails: bool, typedEnd: bool, me: Id): (r: Track)
    requires t.at < |t.stream|
    ensures r.at == t.at && r.stream == t.stream
  {
    var e := t.stream[t.at];
    if !t.seeded && (e.MessageEnd? || (e.Unreadable? && typedEnd)) then SeedTaken(t, readFails, me) else t
  }

  function Swept(t: Track, stale: set<Id>): Track {
    t.(pending := t.pending - stale, whole := t.whole && stale !! t.pending.Keys)
  }

  /** Where the open message of id started, of the stream up to n. */
  function StartOf(stream: seq<Event>, n: nat, id: Id): nat
    requires n <= |stream|
  {
    var open := View(stream[..n]).pending; if id in open then open[id].seqStart else 0
  }

  /** The message of another agent that the record at t.at ends, if any. */
  function Heard(t: Track, me: Id): seq<Message>
    requires t.at < |t.stream|
  {
    var e := t.stream[t.at];
    if e.MessageEnd? && e.id in t.pending && t.pending[e.id].sender != me then
      [Message(e.id, t.pending[e.id].sender, t.pending[e.id].content, StartOf(t.stream, t.at, e.id), t.at, Complete)]
    else []
  }

  function Switched(t: Track, me: Id): Track
    requires t.at < |t.stream|
  {
    t.(pending := FoldLive(t.pending, t.stream[t.at]), all := t.all + Entries(Heard(t, me)),
       peers := t.peers + Heard(t, me), asked := t.asked + Heard(t, me))
  }

  /** A record already folded is passed over. */
  function Folded(t: Track, stale: set<Id>, me: Id): (r: Track)
    requires t.at < |t.stream|
    ensures r.at == t.at && r.stream == t.stream
  {
    if t.at <= t.lastSeeded then t else Switched(Swept(t, stale), me)
  }

  function Recorded(t: Track, stale: set<Id>, readFails: bool, typedEnd: bool, me: Id): Track
    requires t.at < |t.stream|
  {
    var u := Seeded(t.(cursor := Larger(t.cursor, t.at)), readFails, typedEnd, me);
    Folded(u, stale, me).(at := t.at + 1, next := Larger(t.next, t.at + 1))
  }

  function Follow(t: Track, s: Step, me: Id): Track {
    match s
    case Append(events) => t.(stream := t.stream + events)
    case Respond(content) => t.(all := t.all + [Own(content)])
    case Arrive(stale, readFails, typedEnd) =>
      if t.at < |t.stream| then Recorded(t, stale, readFails, typedEnd, me) else t
  }

  function FollowAll(t: Track, steps: seq<Step>, me: Id): Track {
    if steps == [] then t else Follow(FollowAll(t, steps[..|steps| - 1], me), steps[|steps| - 1], me)
  }

  lemma FollowNext(t: Track, steps: seq<Step>, i: nat, me: Id)
    requires i < |steps|
    ensures FollowAll(t, steps[..i + 1], me) == Follow(FollowAll(t, steps[..i], me), steps[i], me)
  {
    assert steps[..i + 1][..i] == steps[..i];
  }

  // ------------------------------------------------------------------
  // What every step keeps
  // ------------------------------------------------------------------

  /** The seed is what the stream had finished before the trigger. */
  ghost predicate SeedKnown(t: Track, me: Id) {
    && (t.trigger.Some? ==> t.trigger.value < |t.stream|)
    && t.seed == if t.trigger.Some? && t.trigger.value < |t.stream| then SeedOf(t.stream, t.trigger.value, me) else []
  }

  /** Everything about the first n records. */
  ghost predicate GoodAt(t: Track, n: nat, me: Id) {
    && n <= |t.stream|
    && (!t.seeded ==> t.peers == [] && t.seed == [])
    && t.peers == t.seed + t.asked
    && Grounded(t.stream, n, Base(t), me, t.pending, t.peers, t.seed, t.whole)
  }

  ghost predicate Good(t: Track, me: Id) {
    && t.first <= t.next
    && (if t.cursor > 0 then t.next == t.cursor + 1 else t.first == 0 && t.next <= 1)
    && (t.lastSeeded == 0 || t.lastSeeded < t.next)
    && (t.next <= |t.stream| ==> GoodAt(t, t.next, me))
    && (t.next > |t.stream| ==>
          t.next == t.first && t.pending == map[] && t.peers == [] && t.seed == [] && t.asked == [])
  }

  /** Where a session can be reading. */
  predicate Reading(t: Track) { t.at == t.next || (t.at == 0 && t.next == 1) }

  lemma BegunGood(stream: seq<Event>, cursor: nat, me: Id)
    ensures Good(Begun(stream, cursor), me)
  {
    var t := Begun(stream, cursor);
    if t.next <= |stream| { GroundedStart(stream, t.next, Base(t), me); }
  }

  lemma SeedWithGood(t: Track, n: nat, readFails: bool, ms: seq<Message>, me: Id)
    requires GoodAt(t, n, me) && !t.seeded && Grounded(t.stream, n, Base(t), me, t.pending, ms, ms, t.whole)
    ensures var u := SeedWith(t, readFails, ms);
            && GoodAt(u, n, me) && u.seeded && u.first == t.first && u.next == t.next && u.cursor == t.cursor
            && (u.lastSeeded == t.lastSeeded || u.lastSeeded < t.at)
  {
    assert t.seed + t.asked == [];
    assert ms + [] == ms;
  }

  lemma SeedTakenGood(t: Track, n: nat, readFails: bool, me: Id)
    requires GoodAt(t, n, me) && !t.seeded && t.at < |t.stream| && (t.at == n || t.at == 0)
    ensures var u := SeedTaken(t, readFails, me);
            && GoodAt(u, n, me) && u.seeded && u.first == t.first && u.next == t.next && u.cursor == t.cursor
            && (u.lastSeeded == t.lastSeeded || u.lastSeeded < t.at)
  {
    assert t.seed + t.asked == [];
    SeedFits(t.stream, t.at, n, Base(t), me, t.pending, t.whole);
    SeedWithGood(t, n, readFails, SeedOf(t.stream, t.at, me), me);
  }

  lemma SeededGood(t: Track, n: nat, readFails: bool, typedEnd: bool, me: Id)
    requires GoodAt(t, n, me) && t.at < |t.stream| && (t.at == n || t.at == 0)
    ensures var u := Seeded(t, readFails, typedEnd, me);
            && GoodAt(u, n, me) && (t.stream[t.at].MessageEnd? ==> u.seeded)
            && u.first == t.first && u.next == t.next && u.cursor == t.cursor
            && (u.lastSeeded == t.lastSeeded || u.lastSeeded < t.at)
  {
    if !t.seeded { SeedTakenGood(t, n, readFails, me); }
  }

  lemma SweptGood(t: Track, n: nat, stale: set<Id>, me: Id)
    requires GoodAt(t, n, me)
    ensures GoodAt(Swept(t, stale), n, me)
  {
    GroundedSweep(t.stream, n, Base(t), me, t.pending, stale, t.peers, t.seed, t.whole);
  }

  lemma SwitchedGood(t: Track, me: Id)
    requires GoodAt(t, t.at, me) && t.at < |t.stream| && Base(t) <= t.at && (t.stream[t.at].MessageEnd? ==> t.seeded)
    ensures GoodAt(Switched(t, me), t.at + 1, me)
  {
    var n, heard := t.at, Heard(t, me);
    assert Live(t.pending, View(t.stream[..n]), Base(t));
    assert heard == Gain(View(t.stream[..n]), SeqEvent(n, t.stream[n]), Base(t), me, t.pending);
    GroundedStep(t.stream, n, Base(t), me, t.pending, t.peers, t.seed, t.whole);
    Assoc(t.seed, t.asked, heard);
  }

  lemma FoldedGood(t: Track, stale: set<Id>, me: Id)
    requires GoodAt(t, t.at, me) && t.at < |t.stream| && (t.stream[t.at].MessageEnd? ==> t.seeded)
    requires t.first <= t.at && (t.lastSeeded == 0 || t.lastSeeded < t.at)
    ensures GoodAt(Folded(t, stale, me), t.at + 1, me)
  {
    if t.at <= t.lastSeeded {
      GroundedZero(t.stream, me, t.pending, t.peers, t.seed, t.whole);
    } else {
      SweptGood(t, t.at, stale, me);
      SwitchedGood(Swept(t, stale), me);
    }
  }

  /** The next record. */
  lemma NextGood(u: Track, stale: set<Id>, me: Id)
    requires u.at < |u.stream| && GoodAt(u, u.at, me) && (u.stream[u.at].MessageEnd? ==> u.seeded)
    requires u.first <= u.at && (u.lastSeeded == 0 || u.lastSeeded < u.at)
    requires if u.cursor > 0 then u.at == u.cursor else u.first == 0 && u.at == 0
    ensures Good(Folded(u, stale, me).(at := u.at + 1, next := u.at + 1), me)
  {
    FoldedGood(u, stale, me);
    FoldedSame(u, stale, me);
    MovedGood(Folded(u, stale, me), u.at + 1, me);
  }

  lemma FoldedSame(u: Track, stale: set<Id>, me: Id)
    requires u.at < |u.stream|
    ensures var v := Folded(u, stale, me);
            v.first == u.first && v.next == u.next && v.cursor == u.cursor && v.lastSeeded == u.lastSeeded && v.stream == u.stream
  {
  }

  lemma MovedGood(v: Track, n: nat, me: Id)
    requires GoodAt(v, n, me) && v.first <= n && (v.lastSeeded == 0 || v.lastSeeded < n)
    requires if v.cursor > 0 then n == v.cursor + 1 else v.first == 0 && n <= 1
    ensures Good(v.(at := n, next := n), me)
  {
    var x := v.(at := n, next := n);
    assert Grounded(x.stream, n, Base(x), me, x.pending, x.peers, x.seed, x.whole);
  }

  /** The record at seq 0 once more. */
  lemma AgainGood(t: Track, u: Track, stale: set<Id>, me: Id)
    requires Good(t, me) && t.at == 0 && t.next == 1 && GoodAt(u, 1, me)
    requires u.first == t.first && u.at == 0 && u.next == 1 && u.stream == t.stream && u.cursor == t.cursor && u.lastSeeded == t.lastSeeded
    ensures Folded(u, stale, me) == u && Good(u.(at := 1, next := 1), me)
  {
    MovedGood(u, 1, me);
  }

  lemma RecordedIs(t: Track, stale: set<Id>, readFails: bool, typedEnd: bool, me: Id)
    requires t.at < |t.stream| && t.next <= t.at + 1
    ensures var u := Seeded(t.(cursor := Larger(t.cursor, t.at)), readFails, typedEnd, me);
            Recorded(t, stale, readFails, typedEnd, me) == Folded(u, stale, me).(at := t.at + 1, next := t.at + 1)
  {
  }

  /** All that matters of the record to be read next. */
  ghost predicate Ready(s: Track, me: Id) {
    && s.at < |s.stream| && GoodAt(s, s.at, me) && s.first <= s.at && (s.lastSeeded == 0 || s.lastSeeded < s.at)
    && (if s.cursor > 0 then s.at == s.cursor else s.first == 0 && s.at == 0)
  }

  lemma ReadyNow(t: Track, me: Id)
    requires Good(t, me) && t.at == t.next < |t.stream|
    ensures Ready(t.(cursor := Larger(t.cursor, t.at)), me)
  {
    SameGoodAt(t, t.(cursor := Larger(t.cursor, t.at)), me);
  }

  lemma ReadyGoes(s: Track, stale: set<Id>, readFails: bool, typedEnd: bool, me: Id)
    requires Ready(s, me)
    ensures Good(Folded(Seeded(s, readFails, typedEnd, me), stale, me).(at := s.at + 1, next := s.at + 1), me)
  {
    SeededGood(s, s.at, readFails, typedEnd, me);
    NextGood(Seeded(s, readFails, typedEnd, me), stale, me);
  }

  lemma RecordedNext(t: Track, stale: set<Id>, readFails: bool, typedEnd: bool, me: Id)
    requires Good(t, me) && t.at == t.next < |t.stream|
    ensures Good(Recorded(t, stale, readFails, typedEnd, me), me)
  {
    ReadyNow(t, me);
    ReadyGoes(t.(cursor := Larger(t.cursor, t.at)), stale, readFails, typedEnd, me);
    RecordedIs(t, stale, readFails, typedEnd, me);
  }

  lemma RecordedAgain(t: Track, stale: set<Id>, readFails: bool, typedEnd: bool, me: Id)
    requires Good(t, me) && t.at == 0 && t.next == 1 && t.stream != []
    ensures Good(Recorded(t, stale, readFails, typedEnd, me), me)
  {
    var s := t.(cursor := Larger(t.cursor, t.at));
    SameGoodAt(t, s, me);
    SeededGood(s, 1, readFails, typedEnd, me);
    AgainGood(t, Seeded(s, readFails, typedEnd, me), stale, me);
    RecordedIs(t, stale, readFails, typedEnd, me);
  }

  lemma RecordedGood(t: Track, stale: set<Id>, readFails: bool, typedEnd: bool, me: Id)
    requires Good(t, me) && Reading(t) && t.at < |t.stream|
    ensures Good(Recorded(t, stale, readFails, typedEnd, me), me) && Reading(Recorded(t, stale, readFails, typedEnd, me))
  {
    ReadsOne(t, Arrive(stale, readFails, typedEnd), me);
    if t.at == t.next { RecordedNext(t, stale, readFails, typedEnd, me); } else { RecordedAgain(t, stale, readFails, typedEnd, me); }
  }

  lemma SameGoodAt(t: Track, s: Track, me: Id)
    requires GoodAt(t, t.next, me) && s == t.(cursor := s.cursor)
    ensures GoodAt(s, t.next, me)
  {
  }

  lemma AppendGood(t: Track, events: seq<Event>, me: Id)
    requires Good(t, me)
    ensures Good(t.(stream := t.stream + events), me)
  {
    var u := t.(stream := t.stream + events);
    if t.next <= |t.stream| {
      assert u.stream[..t.next] == t.stream[..t.next];
    } else if t.next <= |u.stream| {
      GroundedStart(u.stream, t.next, Base(t), me);
      assert t.seed + t.asked == [];
      GroundedWhole(u.stream, t.next, Base(t), me, t.whole);
    }
  }

  lemma GroundedWhole(stream: seq<Event>, n: nat, base: nat, me: Id, whole: bool)
    requires n <= |stream| && Grounded(stream, n, base, me, map[], [], [], true)
    ensures Grounded(stream, n, base, me, map[], [], [], whole)
  {
  }

  lemma RespondGood(t: Track, content: string, me: Id)
    requires Good(t, me)
    ensures Good(t.(all := t.all + [Own(content)]), me)
  {
  }

  lemma FollowGood(t: Track, s: Step, me: Id)
    requires Good(t, me) && Reading(t)
    ensures Good(Follow(t, s, me), me) && Reading(Follow(t, s, me))
  {
    match s
    case Append(events) => AppendGood(t, events, me);
    case Respond(content) => RespondGood(t, content, me);
    case Arrive(stale, readFails, typedEnd) => if t.at < |t.stream| { RecordedGood(t, stale, readFails, typedEnd, me); }
  }

  lemma {:induction false} FollowAllGood(t: Track, steps: seq<Step>, me: Id)
    requires Good(t, me) && Reading(t)
    ensures Good(FollowAll(t, steps, me), me) && Reading(FollowAll(t, steps, me))
  {
    if steps != [] {
      FollowAllGood(t, steps[..|steps| - 1], me);
      FollowGood(FollowAll(t, steps[..|steps| - 1], me), steps[|steps| - 1], me);
    }
  }

  // ------------------------------------------------------------------
  // What a session takes in
  // ------------------------------------------------------------------

  function Arrivals(steps: seq<Step>): nat {
    if steps == [] then 0 else Arrivals(steps[..|steps| - 1]) + if steps[|steps| - 1].Arrive? then 1 else 0
  }

  function Responses(steps: seq<Step>): seq<string> {
    if steps == [] then []
    else Responses(steps[..|steps| - 1]) + if steps[|steps| - 1].Respond? then [steps[|steps| - 1].content] else []
  }

  function Owns(es: seq<Entry>): seq<string> {
    if es == [] then [] else Owns(es[..|es| - 1]) + if es[|es| - 1].Own? then [es[|es| - 1].content] else []
  }

  lemma OwnsNext(es: seq<Entry>, e: Entry)
    ensures Owns(es + [e]) == Owns(es) + if e.Own? then [e.content] else []
  {
    assert (es + [e])[..|es|] == es;
  }

  lemma {:induction false} OwnsMore(es: seq<Entry>, ms: seq<Message>)
    ensures Owns(es + Entries(ms)) == Owns(es)
  {
    if ms == [] {
      assert es + Entries(ms) == es;
    } else {
      var front, last := ms[..|ms| - 1], ms[|ms| - 1];
      OwnsMore(es, front);
      OwnsNext(es + Entries(front), Peer(last));
      assert es + Entries(ms) == (es + Entries(front)) + [Peer(last)];
    }
  }

  lemma OwnsSeeded(t: Track, readFails: bool, ms: seq<Message>)
    ensures Owns(SeedWith(t, readFails, ms).all) == Owns(t.all)
  {
    OwnsMore([], ms);
    assert [] + Entries(ms) == Entries(ms);
  }

  lemma OwnsFolded(t: Track, stale: set<Id>, me: Id)
    requires t.at < |t.stream|
    ensures Owns(Folded(t, stale, me).all) == Owns(t.all)
  {
    OwnsMore(t.all, Heard(Swept(t, stale), me));
  }

  lemma OwnsRecorded(t: Track, stale: set<Id>, readFails: bool, typedEnd: bool, me: Id)
    requires t.at < |t.stream|
    ensures Owns(Recorded(t, stale, readFails, typedEnd, me).all) == Owns(t.all)
  {
    var s := t.(cursor := Larger(t.cursor, t.at));
    OwnsSeeded(s, readFails, SeedOf(t.stream, t.at, me));
    OwnsFolded(Seeded(s, readFails, typedEnd, me), stale, me);
  }

  lemma OwnsStep(t: Track, s: Step, me: Id)
    ensures Owns(Follow(t, s, me).all) == Owns(t.all) + if s.Respond? then [s.content] else []
  {
    if s.Arrive? && t.at < |t.stream| { OwnsRecorded(t, s.stale, s.readFails, s.typedEnd, me); }
    if s.Respond? { OwnsNext(t.all, Own(s.content)); }
  }

  /** Every answer is in the history once, in order. */
  lemma {:induction false} OwnsAll(t: Track, steps: seq<Step>, me: Id)
    ensures Owns(FollowAll(t, steps, me).all) == Owns(t.all) + Responses(steps)
  {
    if steps != [] {
      var front, s := steps[..|steps| - 1], steps[|steps| - 1];
      OwnsAll(t, front, me);
      OwnsStep(FollowAll(t, front, me), s, me);
      Assoc(Owns(t.all), Responses(front), if s.Respond? then [s.content] else []);
    }
  }

  lemma ReadsOne(t: Track, s: Step, me: Id)
    ensures var u := Follow(t, s, me);
            if s.Arrive? && t.at < |t.stream| then u.stream == t.stream && u.at == t.at + 1 && u.next == Larger(t.next, u.at)
                                                   && u.cursor == Larger(t.cursor, t.at)
            else t.stream <= u.stream && u.at == t.at && u.next == t.next && u.cursor == t.cursor
  {
  }

  /** From t to u, n records having arrived: no record is passed over, as many are
      read as arrived as long as there were any, and next and the cursor move
      along. */
  predicate ReadTo(t: Track, u: Track, n: nat) {
    && t.stream <= u.stream && t.at <= u.at <= t.at + n
    && (u.at < t.at + n ==> t.at + n > |t.stream|)
    && u.next == (if u.at == t.at then t.next else Larger(t.next, u.at))
    && u.cursor == if u.at == t.at then t.cursor else Larger(t.cursor, u.at - 1)
  }

  lemma ReadToNext(t: Track, u: Track, n: nat, s: Step, me: Id)
    requires ReadTo(t, u, n)
    ensures ReadTo(t, Follow(u, s, me), n + if s.Arrive? then 1 else 0)
  {
    ReadsOne(u, s, me);
  }

  lemma {:induction false} ReadsAll(t: Track, steps: seq<Step>, me: Id)
    ensures ReadTo(t, FollowAll(t, steps, me), Arrivals(steps))
  {
    if steps != [] {
      ReadsAll(t, steps[..|steps| - 1], me);
      ReadToNext(t, FollowAll(t, steps[..|steps| - 1], me), Arrivals(steps[..|steps| - 1]), steps[|steps| - 1], me);
    }
  }

  /** A session starts where the listener is. */
  lemma SessionGood(t: Track, me: Id)
    requires Good(t, me)
    ensures Good(t.(at := From(t.cursor)), me) && Reading(t.(at := From(t.cursor)))
  {
    var u := t.(at := From(t.cursor));
    if t.next <= |t.stream| { assert Base(u) == Base(t); }
  }

  /** A session whose records are all there reads each of them. */
  lemma SessionReads(t: Track, steps: seq<Step>, me: Id)
    requires Placed(t)
    ensures var start, n, u := From(t.cursor), Arrivals(steps), FollowAll(t.(at := From(t.cursor)), steps, me);
            start + n <= |t.stream| && n > 0 ==> u.at == start + n && u.cursor == start + n - 1 && u.next == Larger(t.next, start + n)
  {
    ReadsAll(t.(at := From(t.cursor)), steps, me);
  }

  lemma SessionGoes(t: Track, steps: seq<Step>, me: Id)
    requires Good(t, me)
    ensures Good(FollowAll(t.(at := From(t.cursor)), steps, me), me)
  {
    SessionGood(t, me);
    FollowAllGood(t.(at := From(t.cursor)), steps, me);
  }

  /** Session after session, each from where the cursor is by then. */
  function Sessions(t: Track, sessions: seq<seq<Step>>, me: Id): Track {
    if sessions == [] then t
    else
      var u := Sessions(t, sessions[..|sessions| - 1], me);
      FollowAll(u.(at := From(u.cursor)), sessions[|sessions| - 1], me)
  }

  lemma SessionsNext(t: Track, sessions: seq<seq<Step>>, steps: seq<Step>, me: Id)
    ensures var u := Sessions(t, sessions, me);
            Sessions(t, sessions + [steps], me) == FollowAll(u.(at := From(u.cursor)), steps, me)
  {
    assert (sessions + [steps])[..|sessions|] == sessions;
  }

  /** From t to u every record that arrived has been read, if all were there, and
      moved the cursor; every answer has been added once, in order; and without
      sweeps nothing was dropped. */
  predicate TookIn(t: Track, u: Track, steps: seq<Step>) {
    var start, n := From(t.cursor), Arrivals(steps);
    && (start + n <= |t.stream| && n > 0 ==> u.at == start + n && u.cursor == start + n - 1 && u.next == Larger(t.next, start + n))
    && Owns(u.all) == Owns(t.all) + Responses(steps)
    && (t.whole && NoneStale(steps) ==> u.whole)
  }

  /** What a session takes in. */
  lemma SessionTakes(t: Track, steps: seq<Step>, me: Id)
    requires Placed(t)
    ensures TookIn(t, FollowAll(t.(at := From(t.cursor)), steps, me), steps)
  {
    SessionReads(t, steps, me);
    OwnsAll(t.(at := From(t.cursor)), steps, me);
    if t.whole && NoneStale(steps) { StaysWhole(t.(at := From(t.cursor)), steps, me); }
  }

  /** The cursor is that of the last record read, if any was. */
  predicate Placed(t: Track) { if t.cursor > 0 then t.next == t.cursor + 1 else t.next <= 1 }

  lemma PlaceOf(began: Track, sessions: seq<seq<Step>>, me: Id)
    requires began == Begun(began.stream, began.cursor)
    ensures Placed(Sessions(began, sessions, me))
  {
    SessionsGood(began.stream, began.cursor, sessions, me);
  }

  lemma {:induction false} SessionsPeers(t: Track, sessions: seq<seq<Step>>, me: Id)
    requires t.peers == PeersOf(t.all)
    ensures var u := Sessions(t, sessions, me); u.peers == PeersOf(u.all)
  {
    if sessions != [] {
      SessionsPeers(t, sessions[..|sessions| - 1], me);
      var u := Sessions(t, sessions[..|sessions| - 1], me);
      PeersAll(u.(at := From(u.cursor)), sessions[|sessions| - 1], me);
    }
  }

  lemma {:induction false} SessionsSeed(t: Track, sessions: seq<seq<Step>>, me: Id)
    requires SeedKnown(t, me)
    ensures SeedKnown(Sessions(t, sessions, me), me)
  {
    if sessions != [] {
      SessionsSeed(t, sessions[..|sessions| - 1], me);
      var u := Sessions(t, sessions[..|sessions| - 1], me);
      SeedKnownAll(u.(at := From(u.cursor)), sessions[|sessions| - 1], me);
    }
  }

  lemma {:induction false} SessionsGood(stream: seq<Event>, cursor: nat, sessions: seq<seq<Step>>, me: Id)
    ensures Good(Sessions(Begun(stream, cursor), sessions, me), me)
  {
    if sessions == [] {
      BegunGood(stream, cursor, me);
    } else {
      SessionsGood(stream, cursor, sessions[..|sessions| - 1], me);
      SessionGoes(Sessions(Begun(stream, cursor), sessions[..|sessions| - 1], me), sessions[|sessions| - 1], me);
    }
  }

  /** The peers are those in the history. */
  lemma {:induction false} PeersOfMore(es: seq<Entry>, ms: seq<Message>)
    ensures PeersOf(es + Entries(ms)) == PeersOf(es) + ms
  {
    if ms == [] {
      assert es + Entries(ms) == es && PeersOf(es) + ms == PeersOf(es);
    } else {
      var front, last := ms[..|ms| - 1], ms[|ms| - 1];
      PeersOfMore(es, front);
      PeersOfNext(es + Entries(front), Peer(last));
      assert es + Entries(ms) == (es + Entries(front)) + [Peer(last)];
      assert PeersOf(es) + ms == (PeersOf(es) + front) + [last];
    }
  }

  lemma PeersSeeded(t: Track, readFails: bool, ms: seq<Message>)
    requires t.peers == PeersOf(t.all)
    ensures var u := SeedWith(t, readFails, ms); u.peers == PeersOf(u.all)
  {
    PeersOfEntries(ms);
  }

  lemma PeersFolded(t: Track, stale: set<Id>, me: Id)
    requires t.peers == PeersOf(t.all) && t.at < |t.stream|
    ensures var u := Folded(t, stale, me); u.peers == PeersOf(u.all)
  {
    PeersOfMore(t.all, Heard(Swept(t, stale), me));
  }

  lemma PeersRecorded(t: Track, stale: set<Id>, readFails: bool, typedEnd: bool, me: Id)
    requires t.peers == PeersOf(t.all) && t.at < |t.stream|
    ensures var u := Recorded(t, stale, readFails, typedEnd, me); u.peers == PeersOf(u.all)
  {
    var s := t.(cursor := Larger(t.cursor, t.at));
    PeersSeeded(s, readFails, SeedOf(t.stream, t.at, me));
    PeersFolded(Seeded(s, readFails, typedEnd, me), stale, me);
  }

  lemma PeersStep(t: Track, s: Step, me: Id)
    requires t.peers == PeersOf(t.all)
    ensures var u := Follow(t, s, me); u.peers == PeersOf(u.all)
  {
    match s
    case Append(_) =>
    case Respond(content) =>
      PeersOfNext(t.all, Own(content));
      assert t.peers + [] == t.peers;
    case Arrive(stale, readFails, typedEnd) => if t.at < |t.stream| { PeersRecorded(t, stale, readFails, typedEnd, me); }
  }

  lemma SeedKnownRecorded(t: Track, stale: set<Id>, readFails: bool, typedEnd: bool, me: Id)
    requires SeedKnown(t, me) && t.at < |t.stream|
    ensures SeedKnown(Recorded(t, stale, readFails, typedEnd, me), me)
  {
    var s := t.(cursor := Larger(t.cursor, t.at));
    SeedKnownSeeded(s, readFails, typedEnd, me);
    var u := Seeded(s, readFails, typedEnd, me);
    FoldedSeed(u, stale, me);
    var v := Folded(u, stale, me);
    SameSeed(u, v.(at := t.at + 1, next := Larger(t.next, t.at + 1)), me);
  }

  lemma SeedKnownSeeded(t: Track, readFails: bool, typedEnd: bool, me: Id)
    requires SeedKnown(t, me) && t.at < |t.stream|
    ensures SeedKnown(Seeded(t, readFails, typedEnd, me), me)
  {
  }

  lemma FoldedSeed(u: Track, stale: set<Id>, me: Id)
    requires u.at < |u.stream|
    ensures var v := Folded(u, stale, me); v.seed == u.seed && v.trigger == u.trigger && v.stream == u.stream
  {
  }

  lemma SameSeed(u: Track, v: Track, me: Id)
    requires SeedKnown(u, me) && v.seed == u.seed && v.trigger == u.trigger && v.stream == u.stream
    ensures SeedKnown(v, me)
  {
  }

  lemma SeedKnownAppend(t: Track, events: seq<Event>, me: Id)
    requires SeedKnown(t, me)
    ensures SeedKnown(t.(stream := t.stream + events), me)
  {
    SeedStays(t.stream, events, if t.trigger.Some? then t.trigger.value else 0, me);
  }

  lemma SeedKnownStep(t: Track, s: Step, me: Id)
    requires SeedKnown(t, me)
    ensures SeedKnown(Follow(t, s, me), me)
  {
    match s
    case Append(events) => SeedKnownAppend(t, events, me);
    case Respond(content) => SameSeed(t, t.(all := t.all + [Own(content)]), me);
    case Arrive(stale, readFails, typedEnd) => if t.at < |t.stream| { SeedKnownRecorded(t, stale, readFails, typedEnd, me); }
  }

  lemma {:induction false} SeedKnownAll(t: Track, steps: seq<Step>, me: Id)
    requires SeedKnown(t, me)
    ensures SeedKnown(FollowAll(t, steps, me), me)
  {
    if steps != [] {
      SeedKnownAll(t, steps[..|steps| - 1], me);
      SeedKnownStep(FollowAll(t, steps[..|steps| - 1], me), steps[|steps| - 1], me);
    }
  }

  lemma {:induction false} PeersAll(t: Track, steps: seq<Step>, me: Id)
    requires t.peers == PeersOf(t.all)
    ensures var u := FollowAll(t, steps, me); u.peers == PeersOf(u.all)
  {
    if steps != [] {
      PeersAll(t, steps[..|steps| - 1], me);
      PeersStep(FollowAll(t, steps[..|steps| - 1], me), steps[|steps| - 1], me);
    }
  }

  /** What has gone stale when a record is folded is open no more, unless that
      record starts it anew; and nothing else is dropped. */
  lemma StaleIsDropped(t: Track, stale: set<Id>, readFails: bool, typedEnd: bool, me: Id, id: Id)
    requires Good(t, me) && Reading(t) && 0 < t.at < |t.stream|
    ensures var u, e := Recorded(t, stale, readFails, typedEnd, me), t.stream[t.at];
            && (id in stale ==> (id in u.pending <==> e.MessageStart? && e.id == id))
            && (id in t.pending && id !in stale && !Delimits(e, id) ==> id in u.pending && u.pending[id].sender == t.pending[id].sender)
  {
    var s := t.(cursor := Larger(t.cursor, t.at));
    SeededKeeps(s, readFails, typedEnd, me);
  }

  lemma SeededKeeps(s: Track, readFails: bool, typedEnd: bool, me: Id)
    requires s.at < |s.stream|
    ensures var u := Seeded(s, readFails, typedEnd, me);
            u.pending == s.pending && (u.lastSeeded == s.lastSeeded || u.lastSeeded < s.at)
  {
  }

  predicate NoneStale(steps: seq<Step>) { forall i | 0 <= i < |steps| :: steps[i].Arrive? ==> steps[i].stale == {} }

  lemma {:induction false} StaysWhole(t: Track, steps: seq<Step>, me: Id)
    requires t.whole && NoneStale(steps)
    ensures FollowAll(t, steps, me).whole
  {
    if steps != [] { StaysWhole(t, steps[..|steps| - 1], me); }
  }

  /** The record to be read next is a message_end or might be taken for one. */
  predicate EndsAt(t: Track) { t.at < |t.stream| && (t.stream[t.at].MessageEnd? || t.stream[t.at].Unreadable?) }

  /** Nothing before step i leads to a seed or an answer. */
  ghost predicate QuietUntil(t: Track, steps: seq<Step>, i: nat, me: Id)
    requires i <= |steps|
  {
    forall j :: 0 <= j < i ==> !steps[j].Respond? && (steps[j].Arrive? ==> !EndsAt(FollowAll(t, steps[..j], me)))
  }

  lemma {:induction false} NotYetSeeded(t: Track, steps: seq<Step>, i: nat, me: Id)
    requires !t.seeded && t.all == [] && i <= |steps| && QuietUntil(t, steps, i, me)
    ensures var u := FollowAll(t, steps[..i], me); !u.seeded && u.all == []
  {
    if i > 0 {
      NotYetSeeded(t, steps, i - 1, me);
      FollowNext(t, steps, i - 1, me);
      QuietStep(FollowAll(t, steps[..i - 1], me), steps[i - 1], me);
    } else {
      assert steps[..0] == [];
    }
  }

  lemma QuietStep(t: Track, s: Step, me: Id)
    requires !t.seeded && t.all == [] && !s.Respond? && (s.Arrive? ==> !EndsAt(t))
    ensures var u := Follow(t, s, me); !u.seeded && u.all == []
  {
    if s.Arrive? && t.at < |t.stream| { assert t.all + Entries([]) == []; }
  }

  lemma SeededOne(t: Track, s: Step, me: Id)
    requires t.seeded
    ensures var u := Follow(t, s, me); u.seeded && u.trigger == t.trigger
  {
  }

  lemma {:induction false} SeededStays(t: Track, steps: seq<Step>, i: nat, n: nat, me: Id)
    requires i <= n <= |steps| && FollowAll(t, steps[..i], me).seeded
    ensures var u := FollowAll(t, steps[..n], me); u.seeded && u.trigger == FollowAll(t, steps[..i], me).trigger
  {
    if i < n {
      SeededStays(t, steps, i, n - 1, me);
      FollowNext(t, steps, n - 1, me);
      SeededOne(FollowAll(t, steps[..n - 1], me), steps[n - 1], me);
    }
  }

  /** The first message_end to arrive is what the seed is taken before, if its
      read succeeds and nothing is in the history yet. */
  lemma SeedAtFirstEnd(t: Track, steps: seq<Step>, i: nat, me: Id)
    requires !t.seeded && t.all == [] && i < |steps| && QuietUntil(t, steps, i, me)
    requires steps[i].Arrive? && !steps[i].readFails
    requires var u := FollowAll(t, steps[..i], me); u.at < |u.stream| && u.stream[u.at].MessageEnd?
    ensures var u := FollowAll(t, steps, me); u.seeded && u.trigger == Some(FollowAll(t, steps[..i], me).at)
  {
    NotYetSeeded(t, steps, i, me);
    FollowNext(t, steps, i, me);
    SeededStays(t, steps, i + 1, |steps|, me);
    assert steps[..|steps|] == steps;
  }

  // ------------------------------------------------------------------
  // The listener
  // ------------------------------------------------------------------

  class Listener {
    const me: Id
    var stream: seq<Event>
    var cursor: nat
    var pending: map<Id, Partial>
    var history: seq<ConvMessage>
    var asked: seq<ConvMessage>    // the messages triggerResponse was called for
    var seeded: bool
    var lastSeededSeq: nat
    ghost const began: Track
    ghost var sessions: seq<seq<Step>>
    ghost var track: Track

    /** The fields are those of the track, the history its last entries. */
    ghost predicate Tied()
      reads this
    {
      && stream == track.stream && cursor == track.cursor && pending == track.pending
      && seeded == track.seeded && lastSeededSeq == track.lastSeeded
      && history == History(Last(track.all, MAX_HISTORY), me) && asked == History(Entries(track.asked), me)
    }

    /** And the track is what the sessions so far have made of it. */
    ghost predicate Valid()
      reads this
    {
      Tied() && track == Sessions(began, sessions, me) && began == Begun(began.stream, began.cursor)
    }

    lemma ValidIsGood()
      requires Valid()
      ensures Good(track, me) && track.peers == PeersOf(track.all) && SeedKnown(track, me)
    {
      SessionsGood(began.stream, began.cursor, sessions, me);
      SessionsPeers(began, sessions, me);
      SessionsSeed(began, sessions, me);
    }

    /** The cursor found when the process started may be anything. */
    constructor (me: Id, stream: seq<Event>, cursor: nat)
      ensures Valid() && this.me == me && track == began == Begun(stream, cursor) && sessions == []
    {
      this.me, this.stream, this.cursor := me, stream, cursor;
      pending, history, asked, seeded, lastSeededSeq := map[], [], [], false, 0;
      track, began, sessions := Begun(stream, cursor), Begun(stream, cursor), [];
    }

    /** Main result: the history holds at most MAX_HISTORY entries, each of them
        the agent's own or a complete message of another agent in the stream,
        no message twice, in the order in which they ended. */
    lemma HistoryIsTrue()
      requires Valid()
      ensures |history| <= 50
      ensures var kept := Last(track.all, 50);
              history == History(kept, me) && TrueEntries(kept, stream, me) && InOrder(kept)
    {
      ValidIsGood();
      EntriesAreTrue(track, me);
      LastIsTrue(track.all, stream, me);
    }

    /** Main result: as long as no sweep removed anything, nothing is lost and
        nothing counted by both paths. The peer messages collected, each once and
        in the order they ended, are the last MAX_HISTORY ones lying in the window
        before the trigger, and every complete message of another agent that
        started where the listener follows the stream and ended in what arrived;
        and it is just the latter that a response was triggered for, once each. */
    lemma NothingLostOrDoubled(m: Message)
      requires Valid() && track.whole && track.next <= |stream|
      ensures var live := Peers(Since(View(stream[..track.next]).done, Base(track)), me);
              && PeersOf(track.all) == track.seed + live && Ordered(PeersOf(track.all), me)
              && asked == History(Entries(live), me)
              && (m in track.seed ==>
                    track.trigger.Some? && track.trigger.value < |stream| && m in SeedOf(stream, track.trigger.value, me) && m !in live)
              && (m in live <==> m in View(stream[..track.next]).done && Answers(m, me) && m.seqStart >= Base(track))
    {
      ValidIsGood();
      TrackKnows(track, me, m);
    }

    /** appendMessage: trims to the last MAX_HISTORY. */
    method AppendMessage(m: ConvMessage, ghost e: Entry)
      requires Tied() && m == Shown(e, me)
      modifies this`history, this`track
      ensures Tied() && track == old(track).(all := old(track).all + [e])
    {
      HistoryAppend(track.all, e, me, MAX_HISTORY);
      history := history + [m];
      if |history| > MAX_HISTORY { history := history[|history| - MAX_HISTORY..]; }
      track := track.(all := track.all + [e]);
    }

    /** The filter loop of seedHistory over the messages it assembled. */
    method SelectSeed(ms: seq<Message>, t: nat) returns (kept: seq<ConvMessage>)
      ensures kept == History(Entries(EndedBefore(ms, t, me)), me)
    {
      ghost var tags: seq<Message> := [];
      kept := [];
      for i := 0 to |ms|
        invariant tags == EndedBefore(ms[..i], t, me) && kept == History(Entries(tags), me)
      {
        assert ms[..i + 1][..i] == ms[..i];
        if ms[i].status == Complete && ms[i].seqEnd < t && ms[i].sender != me {
          HistoryNext(tags, ms[i], me);
          kept := kept + [ConvMessage(ms[i].sender, ms[i].content)];
          tags := tags + [ms[i]];
        }
      }
      assert ms[..|ms|] == ms;
    }

    /** The window read of seedHistory: at most SEED_WINDOW records. */
    method ReadSeed(t: nat) returns (events: seq<SeqEvent>)
      requires t < |stream|
      ensures events == SeedRead(stream, t)
    {
      var from := if t > SEED_WINDOW then t - SEED_WINDOW else 0;
      events := Log(stream)[from..if from + SEED_WINDOW < |stream| then from + SEED_WINDOW else |stream|];
    }

    /** What seedHistory reads, assembles, filters and trims. */
    method SeedMessages(t: nat) returns (kept: seq<ConvMessage>)
      requires t < |stream|
      ensures kept == History(Entries(SeedOf(stream, t, me)), me)
    {
      var events := ReadSeed(t);
      var ms := AssembleMessages(events);
      kept := SelectSeed(ms, t);
      SeedIsExact(stream, t, me, ms);
      HistoryLast(EndedBefore(ms, t, me), me, MAX_HISTORY);
      if |kept| > MAX_HISTORY { kept := kept[|kept| - MAX_HISTORY..]; }
    }

    /** seedHistory, triggered by the record at seq t. */
    method SeedHistory(t: nat, readFails: bool)
      requires Tied() && t == track.at < |stream|
      modifies this`history, this`seeded, this`lastSeededSeq, this`track
      ensures Tied() && track == SeedTaken(old(track), readFails, me)
    {
      ghost var before := track;
      seeded := true;
      if !readFails {
        var kept := SeedMessages(t);
        if history == [] {
          history := kept;
          SeedFitsHistory(stream, t, me);
        }
        if t > 0 && t - 1 > lastSeededSeq { lastSeededSeq := t - 1; }
      }
      track := SeedTaken(before, readFails, me);
    }

    /** The switch of onEvent. */
    method Switch(e: Event)
      requires Tied() && track.at < |stream| && e == stream[track.at]
      modifies this`pending, this`history, this`asked, this`track
      ensures Tied() && track == Switched(old(track), me)
    {
      ghost var heard, before := Heard(track, me), track;
      if e.MessageEnd? && e.id in pending && pending[e.id].sender != me {
        Collect(e.id, heard[0]);
      } else {
        assert track.all + Entries([]) == track.all && track.asked + [] == track.asked && track.peers + [] == track.peers;
      }
      match e {
        case MessageStart(id, sender) => pending := pending[id := Partial(sender, "")];
        case MessageAppend(id, content) =>
          if id in pending { pending := pending[id := Partial(pending[id].sender, pending[id].content + content)]; }
        case MessageEnd(id) => pending := pending - {id};
        case MessageAbort(id, _) => pending := pending - {id};
        case _ =>
      }
      track := track.(pending := pending);
    }

    /** A message of another agent has ended: it is added to the history, and a
        response to it is triggered. */
    method Collect(id: Id, ghost m: Message)
      requires Tied() && id in pending && pending[id] == Partial(m.sender, m.content)
      modifies this`history, this`asked, this`track
      ensures Tied()
      ensures track == old(track).(all := old(track).all + Entries([m]), peers := old(track).peers + [m],
                                         asked := old(track).asked + [m])
    {
      var p := pending[id];
      HistoryNext(track.asked, m, me);
      AppendMessage(ConvMessage(p.sender, p.content), Peer(m));
      asked := asked + [ConvMessage(p.sender, p.content)];
      assert Entries([m]) == [Peer(m)];
      track := track.(peers := track.peers + [m], asked := track.asked + [m]);
    }

    method SweepStalePending(stale: set<Id>)
      requires Tied()
      modifies this`pending, this`track
      ensures Tied() && track == Swept(old(track), stale)
    {
      track := Swept(track, stale);
      pending := pending - stale;
    }

    /** onEvent for the record at seq n. */
    method OnEvent(n: nat, stale: set<Id>, readFails: bool, typedEnd: bool)
      requires Tied() && n == track.at < |stream|
      modifies this`pending, this`history, this`asked, this`seeded, this`lastSeededSeq, this`track
      ensures Tied() && track == Folded(Seeded(old(track), readFails, typedEnd, me), stale, me)
    {
      if !seeded && (stream[n].MessageEnd? || (stream[n].Unreadable? && typedEnd)) { SeedHistory(n, readFails); }
      if n <= lastSeededSeq { return; }
      SweepStalePending(stale);
      Switch(stream[n]);
    }

    method MoveCursor(at: nat)
      requires Tied()
      modifies this`cursor, this`track
      ensures Tied() && track == old(track).(cursor := Larger(old(track).cursor, at))
    {
      if at > cursor { cursor := at; }
      track := track.(cursor := cursor);
    }

    /** One round of the listen loop. */
    method Take(at: nat, stale: set<Id>, readFails: bool, typedEnd: bool)
      requires Tied() && at == track.at < |stream|
      modifies this`cursor, this`pending, this`history, this`asked, this`seeded, this`lastSeededSeq, this`track
      ensures Tied() && track == Recorded(old(track), stale, readFails, typedEnd, me)
    {
      MoveCursor(at);
      OnEvent(at, stale, readFails, typedEnd);
      track := track.(at := at + 1, next := Larger(track.next, at + 1));
    }

    /** One lifecycle of listen: it resumes after the cursor, or at 0 if there is
        none, and goes on until the session ends. Every record that arrives is
        folded, in order, and moves the cursor; every answer is added once. */
    method Listen(steps: seq<Step>)
      requires Valid()
      modifies this
      ensures Valid() && sessions == old(sessions) + [steps]
      ensures track == FollowAll(old(track).(at := From(old(cursor))), steps, me)
      ensures TookIn(old(track), track, steps)
    {
      PlaceOf(began, sessions, me);
      SessionTakes(track, steps, me);
      ReadSession(steps);
    }

    method ReadSession(steps: seq<Step>)
      requires Valid()
      modifies this
      ensures Valid() && sessions == old(sessions) + [steps]
      ensures track == FollowAll(old(track).(at := From(old(cursor))), steps, me)
    {
      SessionsNext(began, sessions, steps, me);
      track := track.(at := From(cursor));
      TakeSteps(steps);
      sessions := sessions + [steps];
    }

    /** The loop of a session. */
    method TakeSteps(steps: seq<Step>)
      requires Tied() && track.at == From(cursor)
      modifies this`stream, this`cursor, this`pending, this`history, this`asked, this`seeded, this`lastSeededSeq, this`track
      ensures Tied() && track == FollowAll(old(track), steps, me)
    {
      var at := From(cursor);
      ghost var before := track;
      assert steps[..0] == [];
      for i := 0 to |steps|
        invariant Tied() && track.at == at && track == FollowAll(before, steps[..i], me)
      {
        FollowNext(before, steps, i, me);
        at := OneStep(at, steps[i]);
      }
      assert steps[..|steps|] == steps;
    }

    method OneStep(at: nat, s: Step) returns (to: nat)
      requires Tied() && track.at == at
      modifies this`stream, this`cursor, this`pending, this`history, this`asked, this`seeded, this`lastSeededSeq, this`track
      ensures Tied() && track.at == to && track == Follow(old(track), s, me)
    {
      to := at;
      match s
      case Arrive(stale, readFails, typedEnd) =>
        if at < |stream| {
          Take(at, stale, readFails, typedEnd);
          to := at + 1;
        }
      case Append(events) => Others(events);
      case Respond(content) => Response(content);
    }

    /** Others append to the stream. */
    method Others(events: seq<Event>)
      requires Tied()
      modifies this`stream, this`track
      ensures Tied() && track == old(track).(stream := old(track).stream + events)
    {
      stream := stream + events;
      track := track.(stream := stream);
    }

    /** The respond path adds the agent's own answer. */
    method Response(content: string)
      requires Tied()
      modifies this`history, this`track
      ensures Tied() && track == old(track).(all := old(track).all + [Own(content)])
    {
      AppendMessage(ConvMessage(me, content), Own(content));
    }

    /** The retry loop of startListening, over any number of sessions, each from
        where the cursor is by then. */
    method StartListening(more: seq<seq<Step>>)
      requires Valid()
      modifies this
      ensures Valid() && sessions == old(sessions) + more
    {
      for i := 0 to |more|
        invariant Valid() && sessions == old(sessions) + more[..i]
      {
        Listen(more[i]);
        TakenNext(old(sessions), more, i);
      }
      assert more[..|more|] == more;
    }
  }

  lemma TakenNext<T>(a: seq<T>, more: seq<T>, i: nat)
    requires i < |more|
    ensures a + more[..i + 1] == (a + more[..i]) + [more[i]]
  {
  }

  lemma OrderedPeers(t: Track, me: Id)
    requires Good(t, me)
    ensures Ordered(t.peers, me)
  {
  }

  lemma EntriesAreTrue(t: Track, me: Id)
    requires Good(t, me) && t.peers == PeersOf(t.all)
    ensures TrueEntries(t.all, t.stream, me) && InOrder(t.all)
  {
    OrderedPeers(t, me);
    PeersInOrder(t.all, me);
    forall i | 0 <= i < |t.all| && t.all[i].Peer?
      ensures Answers(t.all[i].message, me) && t.all[i].message in View(t.stream).done
    {
      PeerOrder(t.all, me, i, i);
      PeersAreTrue(t, me, t.all[i].message);
    }
  }

  lemma TrackKnows(t: Track, me: Id, m: Message)
    requires Good(t, me) && SeedKnown(t, me) && t.whole && t.next <= |t.stream|
    ensures var live := Peers(Since(View(t.stream[..t.next]).done, Base(t)), me);
            && t.peers == t.seed + live && Ordered(t.peers, me) && t.asked == live
            && (m in t.seed ==> t.trigger.Some? && t.trigger.value < |t.stream| && m in SeedOf(t.stream, t.trigger.value, me) && m !in live)
            && (m in live <==> m in View(t.stream[..t.next]).done && Answers(m, me) && m.seqStart >= Base(t))
  {
    var done := View(t.stream[..t.next]).done;
    var live := Peers(Since(done, Base(t)), me);
    PeersAre(Since(done, Base(t)), me, m);
    SinceMember(done, Base(t), m);
    Apart(t.seed, live, me, m);
    SameRest(t.seed, t.asked, live);
  }

  lemma PeersAreTrue(t: Track, me: Id, m: Message)
    requires Good(t, me) && m in t.peers
    ensures m in View(t.stream).done
  {
    if t.next <= |t.stream| {
      assert t.stream[..t.next] + t.stream[t.next..] == t.stream;
      ViewGrows(t.stream[..t.next], t.stream[t.next..]);
    }
  }

  lemma SameRest(x: seq<Message>, y: seq<Message>, z: seq<Message>)
    requires x + y == x + z
    ensures y == z
  {
    assert (x + y)[|x|..] == y && (x + z)[|x|..] == z;
  }

  lemma SeedFitsHistory(stream: seq<Event>, t: nat, me: Id)
    requires t < |stream|
    ensures Last(Entries(SeedOf(stream, t, me)), MAX_HISTORY) == Entries(SeedOf(stream, t, me))
  {
  }
}
