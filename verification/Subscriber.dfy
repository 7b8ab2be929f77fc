/** The Python SSE subscriber: line reader, bounded duplicate filter and message
    reassembly over a tail that may be cut anywhere and may redeliver. */
module Subscriber {
  import opened Common
  import opened Events

  // ------------------------------------------------------------------
  // The last cap distinct seqs
  // ------------------------------------------------------------------

  /** The distinct seqs delivered after the last delivery of x. */
  function After(history: seq<nat>, x: nat): set<nat> {
    if history == [] || history[|history| - 1] == x then {}
    else After(history[..|history| - 1], x) + {history[|history| - 1]}
  }

  /** x is one of the last cap distinct seqs delivered. */
  predicate Recent(history: seq<nat>, x: nat, cap: nat) {
    x in history && |After(history, x)| < cap
  }

  ghost predicate NoDuplicates(s: seq<nat>) {
    forall i, j :: 0 <= i < j < |s| ==> s[i] != s[j]
  }

  function Elements(s: seq<nat>): set<nat> { set x | x in s }

  /** seen lists the last cap distinct seqs of history, least recent first. */
  ghost predicate SeenOk(seen: seq<nat>, history: seq<nat>, cap: nat) {
    && NoDuplicates(seen) && |seen| <= cap
    && Placed(seen, history) && Dropped(seen, history, cap)
  }

  /** What comes after an entry of the list is what was delivered after it. */
  ghost predicate Placed(seen: seq<nat>, history: seq<nat>) {
    forall i :: 0 <= i < |seen| ==> seen[i] in history && After(history, seen[i]) == Elements(seen[i + 1..])
  }

  /** What is not in it has cap distinct ones after it. */
  ghost predicate Dropped(seen: seq<nat>, history: seq<nat>, cap: nat) {
    forall x :: x in history && x !in seen ==> |After(history, x)| >= cap
  }

  lemma {:induction false} DistinctSize(s: seq<nat>)
    requires NoDuplicates(s)
    ensures |Elements(s)| == |s|
  {
    if s != [] {
      DistinctSize(s[1..]);
      assert s == [s[0]] + s[1..];
      assert Elements(s) == {s[0]} + Elements(s[1..]);
    }
  }

  /** The list holds exactly the recent seqs. */
  lemma SeenIsRecent(seen: seq<nat>, history: seq<nat>, cap: nat, x: nat)
    requires SeenOk(seen, history, cap)
    ensures x in seen <==> Recent(history, x, cap)
  {
    if x in seen {
      var i :| 0 <= i < |seen| && seen[i] == x;
      DistinctSize(seen[i + 1..]);
    }
  }

  lemma AfterNext(history: seq<nat>, y: nat, x: nat)
    ensures After(history + [y], x) == if x == y then {} else After(history, x) + {y}
  {
    assert (history + [y])[..|history|] == history;
  }

  /** OrderedDict with a cap: a known seq moves to the end, a new one is added
      there and the least recent dropped when the cap is exceeded. */
  function Touch(seen: seq<nat>, y: nat, cap: nat): seq<nat> {
    if y in seen then
      var i := IndexOf(seen, y);
      seen[..i] + seen[i + 1..] + [y]
    else if |seen| + 1 > cap then (seen + [y])[1..]
    else seen + [y]
  }

  function IndexOf(s: seq<nat>, y: nat): (i: nat)
    requires y in s
    ensures i < |s| && s[i] == y
  {
    if s[0] == y then 0 else 1 + IndexOf(s[1..], y)
  }

  lemma Larger(s: set<nat>, y: nat)
    ensures |s + {y}| >= |s|
  {
    if y in s { assert s + {y} == s; }
  }

  lemma MovedElements(x: seq<nat>, y: nat, z: seq<nat>)
    ensures Elements(x + z + [y]) == Elements(x + [y] + z) + {y}
  {
  }

  /** Moving y from between a and b to the end: an element of a. */
  lemma KeptBefore(a: seq<nat>, y: nat, b: seq<nat>, i: nat, history: seq<nat>)
    requires i < |a| && NoDuplicates(a + [y] + b)
    requires After(history, a[i]) == Elements((a + [y] + b)[i + 1..])
    ensures After(history + [y], a[i]) == Elements((a + b + [y])[i + 1..])
  {
    AfterNext(history, y, a[i]);
    MovedElements(a[i + 1..], y, b);
    assert (a + b + [y])[i + 1..] == a[i + 1..] + b + [y];
    assert (a + [y] + b)[i + 1..] == a[i + 1..] + [y] + b;
    assert a[i] == (a + [y] + b)[i] && y == (a + [y] + b)[|a|];
  }

  /** The same for an element of b. */
  lemma KeptAfter(a: seq<nat>, y: nat, b: seq<nat>, i: nat, history: seq<nat>)
    requires i < |b| && NoDuplicates(a + [y] + b)
    requires After(history, b[i]) == Elements((a + [y] + b)[|a| + 1 + i + 1..])
    ensures After(history + [y], b[i]) == Elements((a + b + [y])[|a| + i + 1..])
  {
    AfterNext(history, y, b[i]);
    assert (a + b + [y])[|a| + i + 1..] == b[i + 1..] + [y];
    assert (a + [y] + b)[|a| + 1 + i + 1..] == b[i + 1..];
    assert b[i] == (a + [y] + b)[|a| + 1 + i] && y == (a + [y] + b)[|a|];
  }

  /** Moving y from position p to the end. */
  lemma KnownPosition(seen: seq<nat>, p: nat, i: nat, history: seq<nat>, y: nat)
    requires NoDuplicates(seen) && p < |seen| && seen[p] == y && i < |seen|
    requires var j := if i < p then i else Min(i + 1, |seen| - 1);
             After(history, seen[j]) == Elements(seen[j + 1..])
    ensures var seen' := seen[..p] + seen[p + 1..] + [y];
            After(history + [y], seen'[i]) == Elements(seen'[i + 1..])
  {
    var a, b := seen[..p], seen[p + 1..];
    assert seen == a + [y] + b;
    if i < p {
      assert seen[i] == a[i];
      KeptBefore(a, y, b, i, history);
    } else if i < |seen| - 1 {
      assert seen[i + 1] == b[i - p];
      KeptAfter(a, y, b, i - p, history);
    } else {
      AfterNext(history, y, y);
      assert (a + b + [y])[i + 1..] == [];
    }
  }

  lemma KnownMembers(seen: seq<nat>, p: nat, y: nat)
    requires NoDuplicates(seen) && p < |seen| && seen[p] == y
    ensures var seen' := seen[..p] + seen[p + 1..] + [y];
            NoDuplicates(seen') && forall x :: x in seen' <==> x in seen
  {
    assert seen == seen[..p] + [y] + seen[p + 1..];
  }

  lemma KnownPositions(seen: seq<nat>, p: nat, history: seq<nat>, y: nat, cap: nat)
    requires SeenOk(seen, history, cap) && p < |seen| && seen[p] == y
    ensures var seen' := seen[..p] + seen[p + 1..] + [y];
            forall i :: 0 <= i < |seen'| ==> After(history + [y], seen'[i]) == Elements(seen'[i + 1..])
  {
    var seen' := seen[..p] + seen[p + 1..] + [y];
    forall i | 0 <= i < |seen'| ensures After(history + [y], seen'[i]) == Elements(seen'[i + 1..]) {
      KnownPosition(seen, p, i, history, y);
    }
  }

  lemma MoveToEnd(seen: seq<nat>, p: nat, history: seq<nat>, y: nat, cap: nat)
    requires SeenOk(seen, history, cap) && p < |seen| && seen[p] == y
    ensures SeenOk(seen[..p] + seen[p + 1..] + [y], history + [y], cap)
  {
    var seen' := seen[..p] + seen[p + 1..] + [y];
    KnownMembers(seen, p, y);
    KnownPositions(seen, p, history, y, cap);
    forall i | 0 <= i < |seen'| ensures seen'[i] in history + [y] {
      assert seen'[i] in seen';
    }
    forall x | x in history + [y] && x !in seen' ensures |After(history + [y], x)| >= cap {
      KnownOutside(seen, history, y, cap, x);
    }
  }

  lemma TouchKnown(seen: seq<nat>, history: seq<nat>, y: nat, cap: nat)
    requires SeenOk(seen, history, cap) && y in seen
    ensures SeenOk(Touch(seen, y, cap), history + [y], cap)
  {
    MoveToEnd(seen, IndexOf(seen, y), history, y, cap);
  }

  lemma KnownOutside(seen: seq<nat>, history: seq<nat>, y: nat, cap: nat, x: nat)
    requires SeenOk(seen, history, cap) && y in seen && x in history + [y] && x !in seen
    ensures |After(history + [y], x)| >= cap
  {
    AfterNext(history, y, x);
    Larger(After(history, x), y);
  }

  /** Adding y at the end, dropping the first `shift` (0 or 1). */
  lemma NewPosition(seen: seq<nat>, shift: nat, i: nat, history: seq<nat>, y: nat)
    requires y !in seen && shift <= 1 && i + shift <= |seen|
    requires Placed(seen, history)
    ensures var seen' := (seen + [y])[shift..];
            seen'[i] in history + [y] && After(history + [y], seen'[i]) == Elements(seen'[i + 1..])
  {
    var seen' := (seen + [y])[shift..];
    AfterNext(history, y, seen'[i]);
    if i + shift < |seen| {
      assert seen'[i] == seen[i + shift];
      assert seen'[i + 1..] == seen[i + shift + 1..] + [y];
    } else {
      assert seen'[i + 1..] == [];
    }
  }

  lemma EvictedIsFirst(seen: seq<nat>, y: nat, x: nat)
    requires x in seen && x !in (seen + [y])[1..]
    ensures x == seen[0]
  {
    assert seen == [seen[0]] + seen[1..];
    assert (seen + [y])[1..] == seen[1..] + [y];
  }

  lemma NewOutside(seen: seq<nat>, history: seq<nat>, y: nat, cap: nat, x: nat)
    requires SeenOk(seen, history, cap) && y !in seen && cap > 0
    requires x in history + [y] && x !in Touch(seen, y, cap)
    ensures |After(history + [y], x)| >= cap
  {
    assert y in seen + [y] && (|seen| + 1 > cap ==> y == (seen + [y])[1..][|seen| - 1]);
    AfterNext(history, y, x);
    if x in seen {
      assert |seen| == cap by { assert |seen| + 1 <= cap ==> x in seen + [y]; }
      EvictedIsFirst(seen, y, x);
      assert NoDuplicates(seen[1..]);
      DistinctSize(seen[1..]);
      assert After(history, x) == Elements(seen[1..]) && y !in Elements(seen[1..]);
    } else {
      Larger(After(history, x), y);
    }
  }

  lemma NewPositions(seen: seq<nat>, shift: nat, history: seq<nat>, y: nat)
    requires y !in seen && shift <= 1 && shift <= |seen| + 1
    requires Placed(seen, history)
    ensures Placed((seen + [y])[shift..], history + [y])
  {
    var seen' := (seen + [y])[shift..];
    forall i | 0 <= i < |seen'|
      ensures seen'[i] in history + [y] && After(history + [y], seen'[i]) == Elements(seen'[i + 1..])
    {
      NewPosition(seen, shift, i, history, y);
    }
  }

  lemma NewDistinct(seen: seq<nat>, shift: nat, y: nat)
    requires NoDuplicates(seen) && y !in seen && shift <= |seen| + 1
    ensures NoDuplicates((seen + [y])[shift..])
  {
  }

  lemma NewDropped(seen: seq<nat>, history: seq<nat>, y: nat, cap: nat)
    requires SeenOk(seen, history, cap) && y !in seen && cap > 0
    ensures Dropped(Touch(seen, y, cap), history + [y], cap)
  {
    forall x | x in history + [y] && x !in Touch(seen, y, cap) ensures |After(history + [y], x)| >= cap {
      NewOutside(seen, history, y, cap, x);
    }
  }

  lemma TouchNew(seen: seq<nat>, history: seq<nat>, y: nat, cap: nat)
    requires SeenOk(seen, history, cap) && y !in seen && cap > 0
    ensures SeenOk(Touch(seen, y, cap), history + [y], cap)
  {
    var shift := if |seen| + 1 > cap then 1 else 0;
    assert Touch(seen, y, cap) == (seen + [y])[shift..];
    NewDistinct(seen, shift, y);
    NewPositions(seen, shift, history, y);
    NewDropped(seen, history, y, cap);
  }

  // ------------------------------------------------------------------
  // What a sequence of deliveries comes to
  // ------------------------------------------------------------------

  function Seqs(ds: seq<SeqEvent>): seq<nat> {
    seq(|ds|, i requires 0 <= i < |ds| => ds[i].at)
  }

  lemma SeqsNext(ds: seq<SeqEvent>, d: SeqEvent)
    ensures Seqs(ds + [d]) == Seqs(ds) + [d.at]
  {
  }

  /** The deliveries that get past the duplicate filter. */
  function Handled(ds: seq<SeqEvent>, cap: nat): seq<SeqEvent> {
    if ds == [] then []
    else
      var front, d := ds[..|ds| - 1], ds[|ds| - 1];
      Handled(front, cap) + if Recent(Seqs(front), d.at, cap) then [] else [d]
  }

  lemma HandledNext(ds: seq<SeqEvent>, d: SeqEvent, cap: nat)
    ensures Handled(ds + [d], cap) == if Recent(Seqs(ds), d.at, cap) then Handled(ds, cap) else Handled(ds, cap) + [d]
  {
    assert (ds + [d])[..|ds|] == ds;
  }

  lemma AcceptNext(ds: seq<SeqEvent>, d: SeqEvent, cap: nat)
    ensures if Recent(Seqs(ds), d.at, cap) then Handled(ds + [d], cap) == Handled(ds, cap)
            else && Run(EMPTY, Handled(ds + [d], cap)) == Fold(Run(EMPTY, Handled(ds, cap)), d)
                 && forall start :: LastSeq(start, Handled(ds + [d], cap)) == Some(d.at)
  {
    HandledNext(ds, d, cap);
    if !Recent(Seqs(ds), d.at, cap) { RunNext(EMPTY, Handled(ds, cap), d); }
  }

  /** The messages handed out over the deliveries ds. */
  ghost function DoneBy(ds: seq<SeqEvent>, cap: nat): seq<Message> { Run(EMPTY, Handled(ds, cap)).done }

  lemma HandledMore(ds: seq<SeqEvent>, d: SeqEvent, cap: nat)
    ensures DoneBy(ds, cap) <= DoneBy(ds + [d], cap)
  {
    HandledNext(ds, d, cap);
    if !Recent(Seqs(ds), d.at, cap) {
      RunNext(EMPTY, Handled(ds, cap), d);
    }
  }

  /** More deliveries only add to what was assembled. */
  lemma {:induction false} HandledGrows(ds: seq<SeqEvent>, es: seq<SeqEvent>, cap: nat)
    ensures DoneBy(ds, cap) <= DoneBy(ds + es, cap)
  {
    if es == [] {
      assert ds + es == ds;
    } else {
      var front, d := es[..|es| - 1], es[|es| - 1];
      HandledGrows(ds, front, cap);
      HandledMore(ds + front, d, cap);
      assert ds + es == (ds + front) + [d];
    }
  }

  /** Every delivery of a seq delivered before is of one of the last cap
      distinct seqs at that moment. */
  ghost predicate RepeatsAreRecent(ds: seq<SeqEvent>, cap: nat) {
    forall i :: 0 <= i < |ds| && ds[i].at in Seqs(ds[..i]) ==> Recent(Seqs(ds[..i]), ds[i].at, cap)
  }

  lemma {:induction false} HandledCovers(ds: seq<SeqEvent>, cap: nat, x: nat)
    ensures x in Seqs(Handled(ds, cap)) <==> x in Seqs(ds)
  {
    if ds != [] {
      var front, d := ds[..|ds| - 1], ds[|ds| - 1];
      HandledCovers(front, cap, x);
      SeqsNext(front, d);
      SeqsNext(Handled(front, cap), d);
      assert front + [d] == ds;
      if Recent(Seqs(front), d.at, cap) {
        assert Handled(ds, cap) == Handled(front, cap);
      } else {
        assert Seqs(Handled(ds, cap)) == Seqs(Handled(front, cap)) + [d.at];
      }
    }
  }

  lemma OneMore(h: seq<nat>, x: nat)
    ensures NoDuplicates(h + [x]) <==> NoDuplicates(h) && x !in h
  {
    if NoDuplicates(h + [x]) {
      forall i | 0 <= i < |h| ensures h[i] != x && (h + [x])[i] == h[i] {
        assert (h + [x])[i] != (h + [x])[|h|];
      }
    }
  }

  /** Exactly when the bounded filter is enough: no seq is handled twice iff
      every repeated delivery is of one of the last cap distinct seqs. */
  lemma {:induction false} HandledOnceIff(ds: seq<SeqEvent>, cap: nat)
    ensures NoDuplicates(Seqs(Handled(ds, cap))) <==> RepeatsAreRecent(ds, cap)
  {
    if ds != [] {
      var n := |ds| - 1;
      var front, d := ds[..n], ds[n];
      HandledOnceIff(front, cap);
      HandledCovers(front, cap, d.at);
      SeqsNext(Handled(front, cap), d);
      assert forall i :: 0 <= i < n ==> front[..i] == ds[..i];
      var h := Seqs(Handled(front, cap));
      if Recent(Seqs(front), d.at, cap) {
        assert Handled(ds, cap) == Handled(front, cap);
      } else {
        assert Seqs(Handled(ds, cap)) == h + [d.at];
        OneMore(h, d.at);
      }
      assert RepeatsAreRecent(ds, cap) ==> RepeatsAreRecent(front, cap);
      if RepeatsAreRecent(front, cap) && (d.at in Seqs(front) ==> Recent(Seqs(front), d.at, cap)) {
        assert RepeatsAreRecent(ds, cap);
      }
    }
  }

  /** One past the highest seq delivered so far. */
  function Next(ds: seq<SeqEvent>, base: nat): (n: nat)
    ensures n >= base
  {
    if ds == [] then base
    else
      var n := Next(ds[..|ds| - 1], base);
      if ds[|ds| - 1].at >= n then ds[|ds| - 1].at + 1 else n
  }

  /** From n on, at is the first seq the server forwards. */
  predicate Reaches(hidden: set<nat>, n: nat, at: nat) {
    n <= at && at !in hidden && forall i :: n <= i < at ==> i in hidden
  }

  /** A delivery is a record of the stream, and either the next one forwarded
      from seq n on or a redelivery of one of the last cap distinct seqs. */
  predicate Genuine(stream: seq<Event>, hidden: set<nat>, n: nat, history: seq<nat>, d: SeqEvent, cap: nat) {
    && d.at < |stream| && d.event == stream[d.at]
    && (Reaches(hidden, n, d.at) || Recent(history, d.at, cap))
  }

  /** An at-least-once tail of stream from base. */
  predicate AtLeastOnce(stream: seq<Event>, hidden: set<nat>, base: nat, ds: seq<SeqEvent>, cap: nat) {
    ds == [] ||
    (AtLeastOnce(stream, hidden, base, ds[..|ds| - 1], cap)
     && Genuine(stream, hidden, Next(ds[..|ds| - 1], base), Seqs(ds[..|ds| - 1]), ds[|ds| - 1], cap))
  }

  lemma {:induction false} DeliveredBelowNext(ds: seq<SeqEvent>, base: nat)
    ensures forall x :: x in Seqs(ds) ==> x < Next(ds, base)
  {
    if ds != [] {
      var front, d := ds[..|ds| - 1], ds[|ds| - 1];
      DeliveredBelowNext(front, base);
      SeqsNext(front, d);
      assert front + [d] == ds;
    }
  }

  lemma NextForwarded(stream: seq<Event>, hidden: set<nat>, base: nat, n: nat, at: nat)
    requires base <= n && Reaches(hidden, n, at) && at < |stream|
    ensures Forwarded(stream, base, at + 1, hidden) == Forwarded(stream, base, n, hidden) + [SeqEvent(at, stream[at])]
  {
    ForwardedSkip(stream, base, n, at, hidden);
  }

  /** What gets past the filter is everything the server forwards from base up
      to the last seq reached. */
  ghost predicate HandlesAll(stream: seq<Event>, hidden: set<nat>, base: nat, ds: seq<SeqEvent>, cap: nat) {
    && (Next(ds, base) <= |stream| || Next(ds, base) == base)
    && Handled(ds, cap) == Forwarded(stream, base, Next(ds, base), hidden)
    && (ds != [] ==> Next(ds, base) > base && Next(ds, base) - 1 !in hidden)
  }

  lemma NextOf(front: seq<SeqEvent>, d: SeqEvent, base: nat)
    ensures Next(front + [d], base) == if d.at >= Next(front, base) then d.at + 1 else Next(front, base)
  {
    assert (front + [d])[..|front|] == front;
  }

  lemma ExactlyOnceNext(stream: seq<Event>, hidden: set<nat>, base: nat, front: seq<SeqEvent>, d: SeqEvent, cap: nat)
    requires HandlesAll(stream, hidden, base, front, cap)
    requires Genuine(stream, hidden, Next(front, base), Seqs(front), d, cap)
    ensures HandlesAll(stream, hidden, base, front + [d], cap)
  {
    DeliveredBelowNext(front, base);
    NextOf(front, d, base);
    HandledNext(front, d, cap);
    if Recent(Seqs(front), d.at, cap) {
      assert d.at < Next(front, base);
    } else {
      NextForwarded(stream, hidden, base, Next(front, base), d.at);
    }
  }

  /** Exactly once, in order, without gaps. */
  lemma {:induction false} ExactlyOnce(stream: seq<Event>, hidden: set<nat>, base: nat, ds: seq<SeqEvent>, cap: nat)
    requires AtLeastOnce(stream, hidden, base, ds, cap)
    ensures HandlesAll(stream, hidden, base, ds, cap)
  {
    if ds != [] {
      ExactlyOnce(stream, hidden, base, ds[..|ds| - 1], cap);
      ExactlyOnceNext(stream, hidden, base, ds[..|ds| - 1], ds[|ds| - 1], cap);
      assert ds[..|ds| - 1] + [ds[|ds| - 1]] == ds;
    }
  }

  // ------------------------------------------------------------------
  // Reconnecting
  // ------------------------------------------------------------------

  /** What a server that starts at seq from writes to a client that has received
      ds: what it forwards from there on, mixed with redeliveries of recent seqs. */
  predicate Offers(stream: seq<Event>, hidden: set<nat>, from: nat, ds: seq<SeqEvent>, es: seq<SeqEvent>, cap: nat) {
    es == [] ||
    (Offers(stream, hidden, from, ds, es[..|es| - 1], cap)
     && Genuine(stream, hidden, Next(es[..|es| - 1], from), Seqs(ds + es[..|es| - 1]), es[|es| - 1], cap))
  }

  lemma {:induction false} OffersPrefix(stream: seq<Event>, hidden: set<nat>, from: nat, ds: seq<SeqEvent>,
                                        es: seq<SeqEvent>, got: seq<SeqEvent>, cap: nat)
    requires Offers(stream, hidden, from, ds, es, cap) && got <= es
    ensures Offers(stream, hidden, from, ds, got, cap)
    decreases |es|
  {
    if |got| < |es| {
      OffersPrefix(stream, hidden, from, ds, es[..|es| - 1], got, cap);
    } else {
      assert got == es;
    }
  }

  lemma LastOff(ds: seq<SeqEvent>, es: seq<SeqEvent>)
    requires es != []
    ensures (ds + es)[..|ds + es| - 1] == ds + es[..|es| - 1] && (ds + es)[|ds + es| - 1] == es[|es| - 1]
  {
  }

  lemma {:induction false} NextConcat(ds: seq<SeqEvent>, es: seq<SeqEvent>, base: nat)
    ensures Next(ds + es, base) == Next(es, Next(ds, base))
  {
    if es == [] {
      assert ds + es == ds;
    } else {
      LastOff(ds, es);
      NextConcat(ds, es[..|es| - 1], base);
    }
  }

  /** A server that starts one past what the client has keeps the tail
      at-least-once. */
  lemma {:induction false} ResumeKeepsTail(stream: seq<Event>, hidden: set<nat>, base: nat, ds: seq<SeqEvent>, es: seq<SeqEvent>, cap: nat)
    requires AtLeastOnce(stream, hidden, base, ds, cap) && Offers(stream, hidden, Next(ds, base), ds, es, cap)
    ensures AtLeastOnce(stream, hidden, base, ds + es, cap)
  {
    if es == [] {
      assert ds + es == ds;
    } else {
      ResumeKeepsTail(stream, hidden, base, ds, es[..|es| - 1], cap);
      NextConcat(ds, es[..|es| - 1], base);
      LastOff(ds, es);
    }
  }

  lemma OffersNext(stream: seq<Event>, hidden: set<nat>, from: nat, ds: seq<SeqEvent>, es: seq<SeqEvent>, d: SeqEvent, cap: nat)
    requires Offers(stream, hidden, from, ds, es, cap) && Genuine(stream, hidden, Next(es, from), Seqs(ds + es), d, cap)
    ensures Offers(stream, hidden, from, ds, es + [d], cap)
    ensures Next(es + [d], from) == if d.at >= Next(es, from) then d.at + 1 else Next(es, from)
  {
    assert (es + [d])[..|es|] == es;
  }

  /** es are the records from .. to that are not hidden, and fit for an offer. */
  ghost predicate Offered(stream: seq<Event>, hidden: set<nat>, from: nat, to: nat, ds: seq<SeqEvent>, es: seq<SeqEvent>, cap: nat) {
    && Offers(stream, hidden, from, ds, es, cap) && Next(es, from) <= Max(from, to)
    && forall n :: Next(es, from) <= n < to ==> n in hidden
  }

  lemma OfferedNext(stream: seq<Event>, hidden: set<nat>, from: nat, to: nat, ds: seq<SeqEvent>, es: seq<SeqEvent>, cap: nat)
    requires from <= to < |stream| && Offered(stream, hidden, from, to, ds, es, cap)
    ensures Offered(stream, hidden, from, to + 1, ds, es + if to in hidden then [] else [SeqEvent(to, stream[to])], cap)
  {
    if to in hidden {
      assert es + [] == es;
    } else {
      assert Reaches(hidden, Next(es, from), to);
      OffersNext(stream, hidden, from, ds, es, SeqEvent(to, stream[to]), cap);
    }
  }

  /** Without redeliveries a server offers just what it forwards; so does one
      that breaks off anywhere, by OffersPrefix. */
  lemma {:induction false} ForwardingOffers(stream: seq<Event>, hidden: set<nat>, from: nat, to: nat, ds: seq<SeqEvent>, cap: nat)
    requires to <= |stream| || to <= from
    ensures Offered(stream, hidden, from, to, ds, Forwarded(stream, from, to, hidden), cap)
  {
    if from < to {
      ForwardingOffers(stream, hidden, from, to - 1, ds, cap);
      OfferedNext(stream, hidden, from, to - 1, ds, Forwarded(stream, from, to - 1, hidden), cap);
    }
  }

  /** Where a server starts: one past Last-Event-ID, or at the stored cursor if
      the client sends none or a negative one, which does not parse. */
  function ResumeAt(lastEventId: Option<int>, stored: nat): nat {
    if lastEventId.Some? && lastEventId.value >= 0 then lastEventId.value + 1 else stored
  }

  /** The last seq handled, or where the client was told to start. */
  function LastSeq(start: Option<int>, handled: seq<SeqEvent>): Option<int> {
    if handled == [] then start else Some(handled[|handled| - 1].at)
  }

  /** The resume rule is right: the client's last seq makes the server start one
      past everything received. */
  lemma ResumesAtNext(stream: seq<Event>, hidden: set<nat>, start: Option<int>, stored: nat, ds: seq<SeqEvent>, cap: nat)
    requires AtLeastOnce(stream, hidden, ResumeAt(start, stored), ds, cap)
    ensures ResumeAt(LastSeq(start, Handled(ds, cap)), stored) == Next(ds, ResumeAt(start, stored))
  {
    ExactlyOnce(stream, hidden, ResumeAt(start, stored), ds, cap);
  }

  // ------------------------------------------------------------------
  // The wire, line by line
  // ------------------------------------------------------------------

  datatype Line = Blank | Comment | IdLine(value: Option<nat>) | EventLine(etype: string) | DataLine(data: string) | OtherLine

  datatype WireEvent = WireEvent(at: nat, etype: string, data: string)

  /** The fields of the frame being read; forgotten when the connection drops. */
  datatype Frame = Frame(at: Option<nat>, etype: Option<string>, data: Option<string>)

  const NO_FRAME := Frame(None, None, None)

  function Feed(f: Frame, line: Line): Frame {
    match line
    case Blank => NO_FRAME
    case IdLine(v) => f.(at := v)
    case EventLine(t) => f.(etype := Some(t))
    case DataLine(d) => f.(data := Some(if f.data.None? then d else f.data.value + "\n" + d))
    case _ => f
  }

  function Dispatched(f: Frame, line: Line): seq<WireEvent> {
    if line.Blank? && f.at.Some? && f.etype.Some? && f.data.Some?
    then [WireEvent(f.at.value, f.etype.value, f.data.value)] else []
  }

  /** The events a connection delivers, given the lines it got through. */
  function Dispatch(f: Frame, lines: seq<Line>): seq<WireEvent>
    decreases lines
  {
    if lines == [] then [] else Dispatched(f, lines[0]) + Dispatch(Feed(f, lines[0]), lines[1..])
  }

  /** What the server writes: event frames, comments, error frames without id. */
  datatype Item = EventItem(e: WireEvent) | CommentItem | ErrorItem(data: string)

  function ItemLines(item: Item): seq<Line> {
    match item
    case EventItem(e) => [IdLine(Some(e.at)), EventLine(e.etype), DataLine(e.data), Blank]
    case CommentItem => [Comment, Blank]
    case ErrorItem(data) => [EventLine("error"), DataLine(data), Blank]
  }

  function Lines(items: seq<Item>): seq<Line> {
    if items == [] then [] else ItemLines(items[0]) + Lines(items[1..])
  }

  function EventsOf(items: seq<Item>): seq<WireEvent> {
    if items == [] then [] else (if items[0].EventItem? then [items[0].e] else []) + EventsOf(items[1..])
  }

  lemma {:induction false} DispatchConcat(f: Frame, x: seq<Line>, y: seq<Line>)
    ensures Dispatch(f, x + y) == Dispatch(f, x) + Dispatch(FeedAll(f, x), y)
    ensures FeedAll(f, x + y) == FeedAll(FeedAll(f, x), y)
    decreases x
  {
    if x == [] {
      assert x + y == y;
    } else {
      assert (x + y)[1..] == x[1..] + y;
      DispatchConcat(Feed(f, x[0]), x[1..], y);
    }
  }

  function FeedAll(f: Frame, lines: seq<Line>): Frame
    decreases lines
  {
    if lines == [] then f else FeedAll(Feed(f, lines[0]), lines[1..])
  }

  lemma DispatchOne(f: Frame, line: Line)
    ensures Dispatch(f, [line]) == Dispatched(f, line) && FeedAll(f, [line]) == Feed(f, line)
  {
    assert [line][1..] == [];
    assert Dispatch(f, [line]) == Dispatched(f, line) + Dispatch(Feed(f, line), []);
  }

  /** One line more. */
  lemma DispatchNext(lines: seq<Line>, i: nat)
    requires i < |lines|
    ensures var f := FeedAll(NO_FRAME, lines[..i]);
            && Dispatch(NO_FRAME, lines[..i + 1]) == Dispatch(NO_FRAME, lines[..i]) + Dispatched(f, lines[i])
            && FeedAll(NO_FRAME, lines[..i + 1]) == Feed(f, lines[i])
  {
    assert lines[..i + 1] == lines[..i] + [lines[i]];
    DispatchConcat(NO_FRAME, lines[..i], [lines[i]]);
    DispatchOne(FeedAll(NO_FRAME, lines[..i]), lines[i]);
  }

  lemma DispatchFirst(f: Frame, line: Line, rest: seq<Line>)
    ensures Dispatch(f, [line] + rest) == Dispatched(f, line) + Dispatch(Feed(f, line), rest)
    ensures FeedAll(f, [line] + rest) == FeedAll(Feed(f, line), rest)
  {
    assert ([line] + rest)[1..] == rest;
  }

  lemma EventDispatch(e: WireEvent)
    ensures Dispatch(NO_FRAME, ItemLines(EventItem(e))) == [e] && FeedAll(NO_FRAME, ItemLines(EventItem(e))) == NO_FRAME
  {
    var id, etype, data := IdLine(Some(e.at)), EventLine(e.etype), DataLine(e.data);
    var f1 := Feed(NO_FRAME, id);
    var f2 := Feed(f1, etype);
    assert ItemLines(EventItem(e)) == [id] + ([etype] + ([data] + [Blank]));
    DispatchFirst(NO_FRAME, id, [etype] + ([data] + [Blank]));
    DispatchFirst(f1, etype, [data] + [Blank]);
    DispatchFirst(f2, data, [Blank]);
    DispatchOne(Feed(f2, data), Blank);
  }

  lemma ErrorDispatch(data: string)
    ensures Dispatch(NO_FRAME, ItemLines(ErrorItem(data))) == [] && FeedAll(NO_FRAME, ItemLines(ErrorItem(data))) == NO_FRAME
  {
    var f1 := Feed(NO_FRAME, EventLine("error"));
    assert ItemLines(ErrorItem(data)) == [EventLine("error")] + ([DataLine(data)] + [Blank]);
    DispatchFirst(NO_FRAME, EventLine("error"), [DataLine(data)] + [Blank]);
    DispatchFirst(f1, DataLine(data), [Blank]);
    DispatchOne(Feed(f1, DataLine(data)), Blank);
  }

  lemma CommentDispatch()
    ensures Dispatch(NO_FRAME, ItemLines(CommentItem)) == [] && FeedAll(NO_FRAME, ItemLines(CommentItem)) == NO_FRAME
  {
    assert ItemLines(CommentItem) == [Comment] + [Blank];
    DispatchFirst(NO_FRAME, Comment, [Blank]);
    DispatchOne(NO_FRAME, Blank);
  }

  lemma ItemDispatch(item: Item)
    ensures Dispatch(NO_FRAME, ItemLines(item)) == if item.EventItem? then [item.e] else []
    ensures FeedAll(NO_FRAME, ItemLines(item)) == NO_FRAME
  {
    match item
    case EventItem(e) => EventDispatch(e);
    case CommentItem => CommentDispatch();
    case ErrorItem(data) => ErrorDispatch(data);
  }

  lemma {:induction false} NoBlankNoDispatch(f: Frame, lines: seq<Line>)
    requires forall i :: 0 <= i < |lines| ==> !lines[i].Blank?
    ensures Dispatch(f, lines) == []
    decreases lines
  {
    if lines != [] {
      NoBlankNoDispatch(Feed(f, lines[0]), lines[1..]);
    }
  }

  function DataLines(parts: seq<string>): seq<Line> { seq(|parts|, i requires 0 <= i < |parts| => DataLine(parts[i])) }

  function Joined(parts: seq<string>): string
    requires parts != []
  {
    if |parts| == 1 then parts[0] else Joined(parts[..|parts| - 1]) + "\n" + parts[|parts| - 1]
  }

  lemma {:induction false} DataFed(f: Frame, parts: seq<string>)
    requires parts != [] && f.data.None?
    ensures FeedAll(f, DataLines(parts)) == f.(data := Some(Joined(parts))) && Dispatch(f, DataLines(parts)) == []
  {
    var front, last := parts[..|parts| - 1], parts[|parts| - 1];
    NoBlankNoDispatch(f, DataLines(parts));
    assert DataLines(parts) == DataLines(front) + [DataLine(last)];
    if front == [] {
      assert DataLines(parts) == [DataLine(last)];
      DispatchOne(f, DataLine(last));
    } else {
      DataFed(f, front);
      DispatchConcat(f, DataLines(front), [DataLine(last)]);
      DispatchOne(FeedAll(f, DataLines(front)), DataLine(last));
    }
  }

  /** A frame is one event: its own seq and type, and its data lines joined by
      newlines however many there are. */
  lemma FrameIsEvent(at: nat, etype: string, parts: seq<string>)
    requires parts != []
    ensures var lines := [IdLine(Some(at))] + ([EventLine(etype)] + (DataLines(parts) + [Blank]));
            Dispatch(NO_FRAME, lines) == [WireEvent(at, etype, Joined(parts))] && FeedAll(NO_FRAME, lines) == NO_FRAME
  {
    var f1 := Feed(NO_FRAME, IdLine(Some(at)));
    var f2 := Feed(f1, EventLine(etype));
    DispatchFirst(NO_FRAME, IdLine(Some(at)), [EventLine(etype)] + (DataLines(parts) + [Blank]));
    DispatchFirst(f1, EventLine(etype), DataLines(parts) + [Blank]);
    DataFed(f2, parts);
    DispatchConcat(f2, DataLines(parts), [Blank]);
    DispatchOne(FeedAll(f2, DataLines(parts)), Blank);
  }

  lemma ItemThen(item: Item, lines: seq<Line>)
    ensures Dispatch(NO_FRAME, ItemLines(item) + lines) == (if item.EventItem? then [item.e] else []) + Dispatch(NO_FRAME, lines)
  {
    ItemDispatch(item);
    DispatchConcat(NO_FRAME, ItemLines(item), lines);
  }

  lemma PartOfItem(item: Item, cut: nat)
    requires cut < |ItemLines(item)|
    ensures Dispatch(NO_FRAME, ItemLines(item)[..cut]) == []
  {
    NoBlankNoDispatch(NO_FRAME, ItemLines(item)[..cut]);
  }

  /** What is cut off after so many lines dispatches a prefix of the events. */
  ghost predicate CutOk(items: seq<Item>, cut: nat)
    requires cut <= |Lines(items)|
  {
    && Dispatch(NO_FRAME, Lines(items)[..cut]) <= EventsOf(items)
    && (cut == |Lines(items)| ==> Dispatch(NO_FRAME, Lines(items)[..cut]) == EventsOf(items))
  }

  lemma CutHead(items: seq<Item>, cut: nat)
    requires items != [] && cut < |ItemLines(items[0])|
    ensures cut < |Lines(items)| && CutOk(items, cut)
  {
    assert Lines(items)[..cut] == ItemLines(items[0])[..cut];
    PartOfItem(items[0], cut);
  }

  lemma CutTail(items: seq<Item>, cut: nat)
    requires items != [] && |ItemLines(items[0])| <= cut <= |Lines(items)|
    requires CutOk(items[1..], cut - |ItemLines(items[0])|)
    ensures CutOk(items, cut)
  {
    var head, rest := ItemLines(items[0]), Lines(items[1..]);
    assert Lines(items)[..cut] == head + rest[..cut - |head|];
    ItemThen(items[0], rest[..cut - |head|]);
  }

  /** A connection cut after any line, mid-frame included, delivers a prefix of
      the events written to it, each with its own seq, type and data. */
  lemma {:induction false} CutDeliversPrefix(items: seq<Item>, cut: nat)
    requires cut <= |Lines(items)|
    ensures CutOk(items, cut)
  {
    if items == [] {
      assert Lines(items)[..cut] == [];
    } else if cut < |ItemLines(items[0])| {
      CutHead(items, cut);
    } else {
      CutDeliversPrefix(items[1..], cut - |ItemLines(items[0])|);
      CutTail(items, cut);
    }
  }

  // ------------------------------------------------------------------
  // The subscriber
  // ------------------------------------------------------------------

  const CAP := 10_000

  function Decoded(es: seq<WireEvent>, decode: (string, string) -> Event): seq<SeqEvent> {
    seq(|es|, i requires 0 <= i < |es| => SeqEvent(es[i].at, decode(es[i].etype, es[i].data)))
  }

  lemma DecodedConcat(ds: seq<SeqEvent>, es: seq<WireEvent>, more: seq<WireEvent>, decode: (string, string) -> Event)
    ensures (ds + Decoded(es, decode)) + Decoded(more, decode) == ds + Decoded(es + more, decode)
  {
    assert Decoded(es + more, decode) == Decoded(es, decode) + Decoded(more, decode);
  }

  /** One connection: what the server writes, after how many whole lines the
      connection drops, and what is left of the line it drops in, if anything:
      that reads as a line too, as some line that is not blank. */
  datatype Visit = Visit(items: seq<Item>, cut: nat, rest: Option<Line>)

  function Broken(rest: Option<Line>): seq<Line> {
    if rest.Some? && !rest.value.Blank? then [rest.value] else []
  }

  function Arriving(v: Visit): seq<Line> { Lines(v.items)[..Min(v.cut, |Lines(v.items)|)] + Broken(v.rest) }

  /** A connection cut anywhere, in the middle of a frame or of a line included,
      delivers a prefix of the events written to it. */
  lemma BrokenDeliversPrefix(v: Visit)
    ensures Dispatch(NO_FRAME, Arriving(v)) <= EventsOf(v.items)
  {
    var whole := Lines(v.items)[..Min(v.cut, |Lines(v.items)|)];
    CutDeliversPrefix(v.items, Min(v.cut, |Lines(v.items)|));
    DispatchConcat(NO_FRAME, whole, Broken(v.rest));
    NoBlankNoDispatch(FeedAll(NO_FRAME, whole), Broken(v.rest));
  }

  /** Everything the connections deliver, one after the other. */
  function Received(visits: seq<Visit>, decode: (string, string) -> Event): seq<SeqEvent> {
    if visits == [] then []
    else
      Received(visits[..|visits| - 1], decode)
      + Decoded(Dispatch(NO_FRAME, Arriving(visits[|visits| - 1])), decode)
  }

  lemma ReceivedNext(visits: seq<Visit>, i: nat, ds: seq<SeqEvent>, decode: (string, string) -> Event)
    requires i < |visits|
    ensures ds + Received(visits[..i + 1], decode)
            == ds + Received(visits[..i], decode) + Decoded(Dispatch(NO_FRAME, Arriving(visits[i])), decode)
  {
    assert visits[..i + 1][..i] == visits[..i];
  }

  /** Every server answers the last seq the client has reached by then. */
  predicate Answered(stream: seq<Event>, hidden: set<nat>, start: Option<int>, stored: nat, decode: (string, string) -> Event,
                     visits: seq<Visit>, cap: nat)
  {
    visits == [] ||
    (var front := visits[..|visits| - 1];
     && Answered(stream, hidden, start, stored, decode, front, cap)
     && var ds := Received(front, decode);
        Offers(stream, hidden, ResumeAt(LastSeq(start, Handled(ds, cap)), stored), ds,
               Decoded(EventsOf(visits[|visits| - 1].items), decode), cap))
  }

  /** Whatever part of what was offered arrives keeps the tail at-least-once. */
  lemma VisitKeepsTail(stream: seq<Event>, hidden: set<nat>, start: Option<int>, stored: nat, decode: (string, string) -> Event,
                       ds: seq<SeqEvent>, v: Visit, cap: nat)
    requires AtLeastOnce(stream, hidden, ResumeAt(start, stored), ds, cap)
    requires Offers(stream, hidden, ResumeAt(LastSeq(start, Handled(ds, cap)), stored), ds, Decoded(EventsOf(v.items), decode), cap)
    ensures AtLeastOnce(stream, hidden, ResumeAt(start, stored), ds + Decoded(Dispatch(NO_FRAME, Arriving(v)), decode), cap)
  {
    var got := Dispatch(NO_FRAME, Arriving(v));
    BrokenDeliversPrefix(v);
    assert Decoded(got, decode) <= Decoded(EventsOf(v.items), decode);
    ResumesAtNext(stream, hidden, start, stored, ds, cap);
    OffersPrefix(stream, hidden, Next(ds, ResumeAt(start, stored)), ds, Decoded(EventsOf(v.items), decode), Decoded(got, decode), cap);
    ResumeKeepsTail(stream, hidden, ResumeAt(start, stored), ds, Decoded(got, decode), cap);
  }

  /** So, over any number of connections, does everything received. */
  lemma {:induction false} AnsweredKeepsTail(stream: seq<Event>, hidden: set<nat>, start: Option<int>, stored: nat,
                                             decode: (string, string) -> Event, visits: seq<Visit>, cap: nat)
    requires Answered(stream, hidden, start, stored, decode, visits, cap)
    ensures AtLeastOnce(stream, hidden, ResumeAt(start, stored), Received(visits, decode), cap)
  {
    if visits != [] {
      var front := visits[..|visits| - 1];
      AnsweredKeepsTail(stream, hidden, start, stored, decode, front, cap);
      VisitKeepsTail(stream, hidden, start, stored, decode, Received(front, decode), visits[|visits| - 1], cap);
    }
  }

  class SSESubscriber {
    var pending: map<Id, Pending>
    var seen: seq<nat>
    var lastSeq: Option<int>
    var messages: seq<Message>        // the on_message calls made so far
    const start: Option<int>
    const decode: (string, string) -> Event   // JSON payload of an event type
    ghost var deliveries: seq<SeqEvent>
    ghost var history: seq<nat>

    /** The reassembly is that of the deliveries that got past the filter. */
    ghost predicate Assembled()
      reads this
    {
      && Assembly(pending, messages) == Run(EMPTY, Handled(deliveries, CAP))
      && lastSeq == LastSeq(start, Handled(deliveries, CAP))
    }

    ghost predicate Valid()
      reads this
    {
      SeenOk(seen, history, CAP) && history == Seqs(deliveries) && Assembled()
    }

    constructor (startFrom: Option<nat>, decode: (string, string) -> Event)
      ensures Valid() && deliveries == [] && messages == [] && this.decode == decode
      ensures pending == map[] && seen == [] && lastSeq == start
      ensures forall stored :: ResumeAt(start, stored) == if startFrom.Some? && startFrom.value > 0 then startFrom.value else stored
    {
      this.decode := decode;
      start := if startFrom.None? then None else Some(startFrom.value - 1);
      lastSeq := if startFrom.None? then None else Some(startFrom.value - 1);
      pending, seen, messages := map[], [], [];
      deliveries, history := [], [];
    }

    method HandleEvent(at: nat, e: Event)
      modifies this`pending, this`messages
      ensures Assembly(pending, messages) == Fold(Assembly(old(pending), old(messages)), SeqEvent(at, e))
    {
      match e {
        case MessageStart(id, sender) =>
          pending := pending[id := Pending(sender, "", at)];
        case MessageAppend(id, content) =>
          if id in pending {
            pending := pending[id := pending[id].(content := pending[id].content + content)];
          }
        case MessageEnd(id) =>
          if id in pending {
            var p := pending[id];
            pending := pending - {id};
            messages := messages + [Message(id, p.sender, p.content, p.seqStart, at, Complete)];
          }
        case MessageAbort(id, _) =>
          if id in pending {
            var p := pending[id];
            pending := pending - {id};
            messages := messages + [Message(id, p.sender, p.content, p.seqStart, at, Aborted)];
          }
        case _ =>
      }
    }

    /** _BoundedSeen.add: true iff the seq is not among the last CAP distinct ones. */
    method Add(at: nat) returns (isNew: bool)
      requires SeenOk(seen, history, CAP)
      modifies this`seen, this`history
      ensures SeenOk(seen, history, CAP) && history == old(history) + [at]
      ensures isNew <==> !Recent(old(history), at, CAP)
    {
      SeenIsRecent(seen, history, CAP, at);
      isNew := at !in seen;
      if isNew { TouchNew(seen, history, at, CAP); } else { TouchKnown(seen, history, at, CAP); }
      seen := Touch(seen, at, CAP);
      history := history + [at];
    }

    /** What a new seq leads to; a known one leads to nothing. */
    method Accept(d: SeqEvent, isNew: bool)
      requires Assembled() && (isNew <==> !Recent(Seqs(deliveries), d.at, CAP))
      modifies this`pending, this`messages, this`lastSeq, this`deliveries
      ensures Assembled() && deliveries == old(deliveries) + [d]
    {
      AcceptNext(deliveries, d, CAP);
      if isNew {
        HandleEvent(d.at, d.event);
        lastSeq := Some(d.at);
      }
      deliveries := deliveries + [d];
    }

    /** One complete frame. */
    method Deliver(w: WireEvent)
      requires Valid()
      modifies this
      ensures Valid() && deliveries == old(deliveries) + [SeqEvent(w.at, decode(w.etype, w.data))]
    {
      var d := SeqEvent(w.at, decode(w.etype, w.data));
      SeqsNext(deliveries, d);
      var isNew := Add(w.at);
      Accept(d, isNew);
    }

    /** One line: a blank one ends the frame and delivers it if it is complete. */
    method ReadLine(f: Frame, line: Line) returns (g: Frame)
      requires Valid()
      modifies this
      ensures Valid() && g == Feed(f, line)
      ensures deliveries == old(deliveries) + Decoded(Dispatched(f, line), decode)
    {
      if line.Blank? && f.at.Some? && f.etype.Some? && f.data.Some? {
        Deliver(WireEvent(f.at.value, f.etype.value, f.data.value));
      }
      g := Feed(f, line);
    }

    /** _read_once: the frame fields are locals, so a cut frame is lost with
        its connection. */
    method ReadOnce(lines: seq<Line>)
      requires Valid()
      modifies this
      ensures Valid() && deliveries == old(deliveries) + Decoded(Dispatch(NO_FRAME, lines), decode)
    {
      var f := NO_FRAME;
      assert lines[..0] == [] && old(deliveries) + [] == old(deliveries);
      for i := 0 to |lines|
        invariant Valid() && f == FeedAll(NO_FRAME, lines[..i])
        invariant deliveries == old(deliveries) + Decoded(Dispatch(NO_FRAME, lines[..i]), decode)
      {
        DispatchNext(lines, i);
        DecodedConcat(old(deliveries), Dispatch(NO_FRAME, lines[..i]), Dispatched(f, lines[i]), decode);
        f := ReadLine(f, lines[i]);
      }
      assert lines[..|lines|] == lines;
    }

    /** run: connection after connection, each asking for what comes after the
        last seq, and each dropping wherever it does, mid-line included. */
    method Tail(visits: seq<Visit>)
      requires Valid()
      modifies this
      ensures Valid() && deliveries == old(deliveries) + Received(visits, decode)
    {
      for i := 0 to |visits|
        invariant Valid() && deliveries == old(deliveries) + Received(visits[..i], decode)
      {
        ReceivedNext(visits, i, old(deliveries), decode);
        ReadOnce(Arriving(visits[i]));
      }
      assert visits[..|visits|] == visits;
    }

    /** Main result: from a fresh subscriber, after any connections and drops,
        with every server starting after the last seq the client has, passing
        over what it cannot forward and redelivering recent seqs at will, the
        messages handed out are the finished part of AssembleMessages on the
        segment of the stream reached, every forwarded record of which was
        handled exactly once and in order; the last seq is the end of it. */
    method TailReassembles(visits: seq<Visit>, ghost stream: seq<Event>, ghost hidden: set<nat>, ghost stored: nat)
      requires Valid() && deliveries == []
      requires Unread(stream, hidden) && Answered(stream, hidden, start, stored, decode, visits, CAP)
      modifies this
      ensures Valid()
      ensures var base := ResumeAt(start, stored);
              var next := Next(deliveries, base);
              && (next <= |stream| || next == base)
              && Handled(deliveries, CAP) == Forwarded(stream, base, next, hidden)
              && (next <= |stream| ==>
                    && messages == Run(EMPTY, Log(stream)[base..next]).done
                    && pending == Run(EMPTY, Log(stream)[base..next]).pending)
              && (next > |stream| ==> messages == [] && pending == map[])
              && ResumeAt(lastSeq, stored) == next
    {
      Tail(visits);
      AnsweredKeepsTail(stream, hidden, start, stored, decode, visits, CAP);
      assert [] + Received(visits, decode) == Received(visits, decode);
      Reassembles(stream, hidden, stored);
    }

    /** The last seq never goes back, whatever the next connection brings. */
    method Reconnect(v: Visit, ghost stream: seq<Event>, ghost hidden: set<nat>, ghost stored: nat)
      requires Valid() && AtLeastOnce(stream, hidden, ResumeAt(start, stored), deliveries, CAP)
      requires Offers(stream, hidden, ResumeAt(lastSeq, stored), deliveries, Decoded(EventsOf(v.items), decode), CAP)
      modifies this
      ensures Valid() && AtLeastOnce(stream, hidden, ResumeAt(start, stored), deliveries, CAP)
      ensures ResumeAt(old(lastSeq), stored) <= ResumeAt(lastSeq, stored) && old(messages) <= messages
    {
      ghost var ds, es := deliveries, Decoded(Dispatch(NO_FRAME, Arriving(v)), decode);
      VisitKeepsTail(stream, hidden, start, stored, decode, ds, v, CAP);
      ResumesAtNext(stream, hidden, start, stored, ds, CAP);
      ResumesAtNext(stream, hidden, start, stored, ds + es, CAP);
      NextConcat(ds, es, ResumeAt(start, stored));
      ReadOnce(Arriving(v));
      HandledGrows(ds, es, CAP);
    }

    lemma Reassembles(stream: seq<Event>, hidden: set<nat>, stored: nat)
      requires Valid() && Unread(stream, hidden) && AtLeastOnce(stream, hidden, ResumeAt(start, stored), deliveries, CAP)
      ensures var base := ResumeAt(start, stored);
              var next := Next(deliveries, base);
              && (next <= |stream| || next == base)
              && Handled(deliveries, CAP) == Forwarded(stream, base, next, hidden)
              && (next <= |stream| ==>
                    && messages == Run(EMPTY, Log(stream)[base..next]).done
                    && pending == Run(EMPTY, Log(stream)[base..next]).pending)
              && (next > |stream| ==> messages == [] && pending == map[])
              && ResumeAt(lastSeq, stored) == next
    {
      var base := ResumeAt(start, stored);
      ExactlyOnce(stream, hidden, base, deliveries, CAP);
      ResumesAtNext(stream, hidden, start, stored, deliveries, CAP);
      if Next(deliveries, base) <= |stream| { RunForwarded(stream, base, Next(deliveries, base), hidden); }
    }
  }
}
