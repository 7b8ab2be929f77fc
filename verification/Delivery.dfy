/** The two-tier delivery cursor, and where a tail starts and what it writes. */
module Delivery {
  import opened Common
  import opened Events
  import opened WriteProtocol

  datatype Pair = Pair(agent: Id, conv: Id)

  /** An upsert on its way to Postgres: what it carries, and which of it is
      marked dirty again if it fails. */
  datatype Flight = Flight(values: map<Pair, nat>, restores: set<Pair>)

  function Stored(db: map<Pair, nat>, p: Pair): nat { if p in db then db[p] else 0 }

  /** One past the highest confirmed seq, 0 if none was ever confirmed. */
  function Bound(confirmed: map<Pair, nat>, p: Pair): nat { if p in confirmed then confirmed[p] + 1 else 0 }

  /** The batch upsert: inserts, and overwrites only smaller values. */
  function Upsert(db: map<Pair, nat>, values: map<Pair, nat>): (db': map<Pair, nat>)
    ensures forall p :: Stored(db', p) == if p in values then Max(Stored(db, p), values[p]) else Stored(db, p)
  {
    map p | p in db.Keys + values.Keys ::
      if p in values then Max(Stored(db, p), values[p]) else db[p]
  }

  /** Flight f writes p at exactly v, and marks it dirty again if it fails. */
  predicate Carries(f: Flight, p: Pair, v: nat) {
    p in f.restores && p in f.values && f.values[p] == v
  }

  /** The confirmations after v was confirmed for p, and after all of ops. */
  function Confirming(confirmed: map<Pair, nat>, p: Pair, v: nat): map<Pair, nat> {
    confirmed[p := if p in confirmed then Max(confirmed[p], v) else v]
  }

  function Confirmations(confirmed: map<Pair, nat>, ops: seq<Op>): map<Pair, nat> {
    if ops == [] then confirmed
    else
      var front, last := Confirmations(confirmed, ops[..|ops| - 1]), ops[|ops| - 1];
      if last.Confirmed? then Confirming(front, last.p, last.v) else front
  }

  /** ops confirm for p only seqs below at. */
  ghost predicate Below(ops: seq<Op>, p: Pair, at: nat) {
    forall o :: o in ops && o.Confirmed? && o.p == p ==> o.v < at
  }

  /** That keeps the bound at or below at. */
  lemma {:induction false} BoundKept(confirmed: map<Pair, nat>, ops: seq<Op>, p: Pair, at: nat)
    requires Bound(confirmed, p) <= at && Below(ops, p, at)
    ensures Bound(Confirmations(confirmed, ops), p) <= at
  {
    if ops != [] { BoundKept(confirmed, ops[..|ops| - 1], p, at); }
  }

  /** Nothing in m' is below what m had. */
  ghost predicate Rises(m: map<Pair, nat>, m': map<Pair, nat>) {
    forall p :: p in m ==> p in m' && m[p] <= m'[p]
  }

  lemma SameFlight(cursors: map<Pair, nat>, dirty: set<Pair>)
    requires dirty <= cursors.Keys
    ensures (map p | p in dirty :: cursors[p]) == map p | p in dirty && p in cursors :: cursors[p]
  {
  }

  class CursorCache {
    var cursors: map<Pair, nat>       // hot tier
    var dirty: set<Pair>
    var db: map<Pair, nat>            // cursors.delivery_seq in Postgres
    var flights: map<nat, Flight>     // flushes between their snapshot and their end
    ghost var confirmed: map<Pair, nat>

    /** Some running flush carries p at exactly its hot value and marks it
        dirty again if it fails. */
    ghost predicate Carried(p: Pair)
      reads `cursors, `flights
      requires p in cursors
    {
      exists f :: f in flights && Carries(flights[f], p, cursors[p])
    }

    /** The tiers agree: what Postgres lacks is dirty or on its way. */
    ghost predicate Agree()
      reads `cursors, `dirty, `db, `flights
    {
      forall p :: p in cursors && cursors[p] > Stored(db, p) ==> p in dirty || Carried(p)
    }

    /** No tier holds more than one past what the client confirmed. */
    ghost predicate Bounded()
      reads `cursors, `db, `flights, `confirmed
    {
      && (forall p :: p in cursors ==> cursors[p] <= Bound(confirmed, p))
      && (forall p :: Stored(db, p) <= Bound(confirmed, p))
      && (forall f, p :: f in flights && p in flights[f].values ==> flights[f].values[p] <= Bound(confirmed, p))
    }

    ghost predicate Shape()
      reads `cursors, `dirty, `flights
    {
      dirty <= cursors.Keys && forall f :: f in flights ==> flights[f].values.Keys <= cursors.Keys
    }

    ghost predicate Valid()
      reads this
    {
      Shape() && Agree() && Bounded()
    }

    function Now(): Tiers
      reads this
    {
      Tiers(cursors, dirty, db, flights)
    }

    constructor ()
      ensures Valid() && cursors == map[] && db == map[] && flights == map[] && confirmed == map[]
    {
      cursors, dirty, db, flights, confirmed := map[], {}, map[], map[], map[];
    }

    method Update(p: Pair, to: nat)
      requires Valid() && to <= Bound(confirmed, p)
      modifies this`cursors, this`dirty
      ensures Valid()
      ensures var known := p in old(cursors) && old(cursors)[p] >= to;
              && cursors == (if known then old(cursors) else old(cursors)[p := to])
              && dirty == (if known then old(dirty) else old(dirty) + {p})
    {
      if p in cursors && cursors[p] >= to { return; }
      cursors := cursors[p := to];
      dirty := dirty + {p};
      forall q | q in cursors && cursors[q] > Stored(db, q) ensures q in dirty || Carried(q) {
        if q != p && q !in old(dirty) {
          var g :| g in old(flights) && Carries(old(flights)[g], q, old(cursors)[q]);
          assert Carries(flights[g], q, cursors[q]);
        }
      }
    }

    /** The client confirmed everything up to seq v: Last-Event-ID or an ack. */
    method Confirm(p: Pair, v: nat)
      requires Valid()
      modifies this`cursors, this`dirty, this`confirmed
      ensures Valid() && Rises(old(cursors), cursors)
      ensures confirmed == Confirming(old(confirmed), p, v)
      ensures var known := p in old(cursors) && old(cursors)[p] >= v + 1;
              && cursors == (if known then old(cursors) else old(cursors)[p := v + 1])
              && dirty == (if known then old(dirty) else old(dirty) + {p})
    {
      confirmed := Confirming(confirmed, p, v);
      assert forall q :: Bound(old(confirmed), q) <= Bound(confirmed, q);
      Update(p, v + 1);
    }

    /** snapshotDirty and the start of a FlushAll. */
    method BeginFlushAll(f: nat) returns (started: bool)
      requires Valid() && f !in flights
      modifies this`dirty, this`flights
      ensures Valid() && dirty == {}
      ensures started == (old(dirty) != {})
      ensures flights == if started then old(flights)[f := Flight(map p | p in old(dirty) :: cursors[p], old(dirty))] else old(flights)
    {
      if dirty == {} { return false; }
      var values: map<Pair, nat> := map[];
      var left := dirty;
      while left != {}
        invariant left <= dirty && values == map p | p in dirty - left :: cursors[p]
        decreases left
      {
        var p :| p in left;
        values := values[p := cursors[p]];
        left := left - {p};
      }
      assert dirty - left == dirty;
      flights := flights[f := Flight(values, dirty)];
      dirty := {};
      started := true;
      forall q | q in cursors && cursors[q] > Stored(db, q) ensures Carried(q) {
        if q in old(dirty) {
          assert Carries(flights[f], q, cursors[q]);
        } else {
          var g :| g in old(flights) && Carries(old(flights)[g], q, cursors[q]);
          assert Carries(flights[g], q, cursors[q]);
        }
      }
    }

    /** The start of a FlushOne: a clean pair is written too, but not marked on failure. */
    method BeginFlushOne(f: nat, p: Pair) returns (started: bool)
      requires Valid() && f !in flights
      modifies this`dirty, this`flights
      ensures Valid() && started == (p in cursors)
      ensures dirty == if started then old(dirty) - {p} else old(dirty)
      ensures flights == if started then old(flights)[f := Flight(map[p := cursors[p]], old(dirty) * {p})] else old(flights)
    {
      if p !in cursors { return false; }
      flights := flights[f := Flight(map[p := cursors[p]], dirty * {p})];
      dirty := dirty - {p};
      started := true;
      forall q | q in cursors && cursors[q] > Stored(db, q) ensures q in dirty || Carried(q) {
        if q in old(dirty) {
          if q == p { assert Carries(flights[f], q, cursors[q]); }
        } else {
          var g :| g in old(flights) && Carries(old(flights)[g], q, cursors[q]);
          assert Carries(flights[g], q, cursors[q]);
        }
      }
    }

    /** The upsert of a running flush takes effect before its answer is back. */
    method Land(f: nat)
      requires Valid() && f in flights
      modifies this`db
      ensures Valid() && db == Upsert(old(db), flights[f].values)
    {
      db := Upsert(db, flights[f].values);
      forall q | q in cursors && cursors[q] > Stored(db, q) ensures q in dirty || Carried(q) {
        assert cursors[q] > Stored(old(db), q);
      }
    }

    /** The end of a flush: the guarded upsert, and on an error the dirty marks
        put back. */
    method EndFlush(f: nat, o: Outcome)
      requires Valid() && f in flights
      modifies this`dirty, this`flights, this`db
      ensures Valid()
      ensures flights == old(flights) - {f}
      ensures db == if Took(o) then Upsert(old(db), old(flights)[f].values) else old(db)
      ensures dirty == if o == Ok then old(dirty) else old(dirty) + (old(flights)[f].restores * cursors.Keys)
    {
      var flight := flights[f];
      if Took(o) { db := Upsert(db, flight.values); }
      flights := flights - {f};
      if o != Ok { dirty := dirty + flight.restores * cursors.Keys; }
      forall q | q in cursors && cursors[q] > Stored(db, q) ensures q in dirty || Carried(q) {
        assert cursors[q] > Stored(old(db), q);
        if q !in old(dirty) {
          var g :| g in old(flights) && Carries(old(flights)[g], q, cursors[q]);
          if g != f { assert Carries(flights[g], q, cursors[q]); }
        }
      }
    }

    /** A lone FlushAll that succeeds leaves Postgres at or above hot everywhere. */
    method FlushAllAlone(f: nat, o: Outcome)
      requires Valid() && flights == map[]
      modifies this`dirty, this`flights, this`db
      ensures Valid() && flights == map[]
      ensures o == Ok ==> forall p :: p in cursors ==> Stored(db, p) >= cursors[p]
      ensures forall p :: Stored(db, p) >= Stored(old(db), p)
    {
      var started := BeginFlushAll(f);
      if started { EndFlush(f, o); }
      assert flights == map[];
      forall p | p in cursors && o == Ok ensures Stored(db, p) >= cursors[p] {
        assert !Carried(p);
      }
    }

    /** The process is gone: the hot tier and everything in flight with it. */
    method Restart()
      requires Valid()
      modifies this`cursors, this`dirty, this`flights
      ensures Valid() && cursors == map[] && flights == map[] && dirty == {}
    {
      cursors, dirty, flights := map[], {}, map[];
    }

    method GetDeliveryCursor(p: Pair) returns (at: nat)
      requires Valid()
      ensures at == if p in cursors then cursors[p] else Stored(db, p)
      ensures at <= Bound(confirmed, p)
    {
      at := if p in cursors then cursors[p] else Stored(db, p);
    }

    /** Where a tail starts: ?from wins, then Last-Event-ID, which also confirms,
        then the stored cursor. With neither, it starts at most one past the
        highest seq the client ever confirmed, in whatever process. */
    method StartSeq(p: Pair, from: Option<nat>, lastEventId: Option<nat>) returns (start: nat)
      requires Valid()
      modifies this`cursors, this`dirty, this`confirmed
      ensures Valid() && Rises(old(cursors), cursors)
      ensures from.Some? ==> start == from.value && confirmed == old(confirmed)
      ensures from.None? && lastEventId.Some? ==>
                start == lastEventId.value + 1 && confirmed == Confirming(old(confirmed), p, lastEventId.value)
      ensures from.None? && lastEventId.None? ==>
                && start <= Bound(confirmed, p) && confirmed == old(confirmed)
                && start == if p in cursors then cursors[p] else Stored(db, p)
    {
      if from.Some? { return from.value; }
      if lastEventId.Some? {
        Confirm(p, lastEventId.value);
        return lastEventId.value + 1;
      }
      start := GetDeliveryCursor(p);
    }

    /** After a restart the tiers can disagree the other way round: a client that
        confirms a lower seq than it once did is served from the hot value below
        Postgres. It then sees events again, but misses none. */
    method LowAfterRestart(p: Pair, v: nat) returns (at: nat)
      requires Valid() && v + 1 < Stored(db, p)
      modifies this
      ensures Valid() && at == v + 1 < Stored(db, p) && db == old(db)
    {
      Restart();
      Confirm(p, v);
      at := GetDeliveryCursor(p);
    }

    /** One of the sections between which others may run. */
    method Take(o: Op)
      requires Valid()
      modifies this
      ensures Valid() && Now() == Step(old(Now()), o)
      ensures forall p :: Stored(db, p) >= Stored(old(db), p)
      ensures confirmed == if o.Confirmed? then Confirming(old(confirmed), o.p, o.v) else old(confirmed)
      ensures !o.Restarted? ==> Rises(old(cursors), cursors)
      ensures o.Confirmed? ==> o.p in cursors && o.v < cursors[o.p]
    {
      match o {
        case Confirmed(p, v) => Confirm(p, v);
        case AllStarts(f) =>
          if f !in flights {
            var started := BeginFlushAll(f);
            if started { SameFlight(old(cursors), old(dirty)); }
          }
        case OneStarts(f, p) => if f !in flights { var started := BeginFlushOne(f, p); }
        case Lands(f) => if f in flights { Land(f); }
        case Ends(f, o) => if f in flights { EndFlush(f, o); }
        case Restarted => Restart();
      }
    }

    /** Any interleaving of confirmations, flush starts and ends, and restarts.
        Postgres never goes down, and neither does the hot tier but for restarts. */
    method Interleave(ops: seq<Op>)
      requires Valid()
      modifies this
      ensures Valid()
      ensures forall p :: Stored(db, p) >= Stored(old(db), p)
      ensures confirmed == Confirmations(old(confirmed), ops)
      ensures (forall i :: 0 <= i < |ops| ==> !ops[i].Restarted?) ==> Rises(old(cursors), cursors)
      ensures forall i :: 0 <= i < |ops| && ops[i].Confirmed? && Kept(ops, i, |ops|) ==>
                ops[i].p in cursors && ops[i].v < cursors[ops[i].p]
      ensures Now() == After(old(Now()), ops)
    {
      assert ops[..0] == [];
      for i := 0 to |ops|
        invariant Valid() && confirmed == Confirmations(old(confirmed), ops[..i])
        invariant forall p :: Stored(db, p) >= Stored(old(db), p)
        invariant Now() == After(old(Now()), ops[..i])
        invariant (forall j :: 0 <= j < i ==> !ops[j].Restarted?) ==> Rises(old(cursors), cursors)
      {
        assert ops[..i + 1][..i] == ops[..i];
        Take(ops[i]);
      }
      assert ops[..|ops|] == ops;
      forall i | 0 <= i < |ops| && ops[i].Confirmed? && Kept(ops, i, |ops|)
        ensures ops[i].p in cursors && ops[i].v < cursors[ops[i].p]
      {
        ConfirmedStays(old(Now()), ops, i);
      }
    }
  }

  /** No restart between op i and op n. */
  predicate Kept(ops: seq<Op>, i: nat, n: nat)
    requires n <= |ops|
  {
    forall k | i < k < n :: !ops[k].Restarted?
  }

  /** Both tiers, and the flushes under way. */
  datatype Tiers = Tiers(cursors: map<Pair, nat>, dirty: set<Pair>, db: map<Pair, nat>, flights: map<nat, Flight>)

  /** One op on them: a confirmation raises the hot value and marks it; a flush
      takes a copy and clears the marks; it writes what is larger; its end does
      too, and an error puts the marks back; a restart loses the hot tier. */
  function Step(s: Tiers, o: Op): Tiers {
    match o
    case Confirmed(p, v) =>
      if p in s.cursors && s.cursors[p] > v then s
      else s.(cursors := s.cursors[p := v + 1], dirty := s.dirty + {p})
    case AllStarts(f) =>
      if f in s.flights || s.dirty == {} then s
      else s.(dirty := {}, flights := s.flights[f := Flight(map p | p in s.dirty && p in s.cursors :: s.cursors[p], s.dirty)])
    case OneStarts(f, p) =>
      if f in s.flights || p !in s.cursors then s
      else s.(dirty := s.dirty - {p}, flights := s.flights[f := Flight(map[p := s.cursors[p]], s.dirty * {p})])
    case Lands(f) => if f in s.flights then s.(db := Upsert(s.db, s.flights[f].values)) else s
    case Ends(f, o) =>
      if f !in s.flights then s
      else Tiers(s.cursors, if o == Ok then s.dirty else s.dirty + s.flights[f].restores * s.cursors.Keys,
                 if Took(o) then Upsert(s.db, s.flights[f].values) else s.db, s.flights - {f})
    case Restarted => Tiers(map[], {}, s.db, map[])
  }

  function After(s: Tiers, ops: seq<Op>): Tiers {
    if ops == [] then s else Step(After(s, ops[..|ops| - 1]), ops[|ops| - 1])
  }

  /** A confirmation is what is read, or something later is, until a restart. */
  lemma {:induction false} ConfirmedStays(s: Tiers, ops: seq<Op>, i: nat)
    requires i < |ops| && ops[i].Confirmed? && Kept(ops, i, |ops|)
    ensures var cursors := After(s, ops).cursors; ops[i].p in cursors && ops[i].v < cursors[ops[i].p]
  {
    if i < |ops| - 1 {
      var front := ops[..|ops| - 1];
      assert forall k :: i < k < |front| ==> front[k] == ops[k];
      ConfirmedStays(s, front, i);
      assert !ops[|ops| - 1].Restarted?;
    }
  }

  datatype Op =
    | Confirmed(p: Pair, v: nat)
    | AllStarts(f: nat)
    | OneStarts(f: nat, p: Pair)
    | Lands(f: nat)
    | Ends(f: nat, o: Outcome)
    | Restarted

  // ------------------------------------------------------------------
  // One tail connection
  // ------------------------------------------------------------------

  const SSE_CHAN_CAP := 64

  /** Stream seqs from .. to. */
  function Segment(stream: seq<Event>, from: nat, to: nat): seq<SeqEvent>
    requires to <= |stream| || to <= from
  {
    Forwarded(stream, from, to, {})
  }

  lemma UnconfirmedWritten(stream: seq<Event>, start: nat, got: nat, malformed: set<nat>, i: nat)
    requires start <= got <= |stream| && start <= i < got && i !in malformed
    ensures SeqEvent(i, stream[i]) in Forwarded(stream, start, got, malformed)
  {
    ForwardedAre(stream, start, got, malformed, SeqEvent(i, stream[i]));
  }

  /** A connection started at most one past the highest confirmed seq writes
      every readable event after the confirmed ones, in seq order, as far as it
      got: reconnecting skips nothing. */
  lemma NothingUnconfirmedSkipped(stream: seq<Event>, start: nat, got: nat, malformed: set<nat>, confirmed: map<Pair, nat>, p: Pair)
    requires start <= Bound(confirmed, p) && start <= got <= |stream|
    ensures var written := Forwarded(stream, start, got, malformed);
            && Increasing(written)
            && forall i :: Bound(confirmed, p) <= i < got && i !in malformed ==> SeqEvent(i, stream[i]) in written
  {
    ForwardedIncreasing(stream, start, got, malformed);
    forall i | Bound(confirmed, p) <= i < got && i !in malformed
      ensures SeqEvent(i, stream[i]) in Forwarded(stream, start, got, malformed)
    {
      UnconfirmedWritten(stream, start, got, malformed, i);
    }
  }

  /** A tail: one loop moves records from the read session into a bounded
      channel, the other takes them out and writes them, skipping those whose
      payload cannot be enriched. Either may stop at any moment. */
  class Connection {
    const start: nat
    const malformed: set<nat>
    var stream: seq<Event>
    var next: nat                 // of the read session
    var tailing: bool
    var serving: bool
    var channel: seq<SeqEvent>
    var written: seq<SeqEvent>
    ghost var served: nat         // one past the last seq written or skipped

    /** Seqs taken out of the channel so far: start up to here. */
    ghost function Got(): int
      reads `next, `channel
    {
      next - |channel|
    }

    /** What was written is the readable part of the stream from start up to
        what was served, and that is all that was taken out while the connection
        serves; the channel continues it. */
    ghost predicate Valid()
      reads this
    {
      && |channel| <= SSE_CHAN_CAP
      && start <= served <= Got() && (next <= |stream| || next == start)
      && written == Forwarded(stream, start, served, malformed)
      && (serving ==> served == Got())
      && channel == Segment(stream, Got(), next)
    }

    constructor (start: nat, stream: seq<Event>, malformed: set<nat>)
      ensures Valid() && this.start == start && this.malformed == malformed && this.stream == stream && written == []
      ensures Now() == Opened(stream, start)
    {
      this.start, this.stream, this.malformed := start, stream, malformed;
      next, tailing, serving, channel, written, served := start, true, true, [], [], start;
    }

    function Now(): Pipe
      reads this
    {
      Pipe(stream, next, tailing, serving, channel, written)
    }

    /** Others append to the stream. */
    method Grow(more: seq<Event>)
      requires Valid()
      modifies this`stream
      ensures Valid() && stream == old(stream) + more && Now() == Shifted(old(Now()), malformed, Grows(more))
    {
      ForwardedGrows(stream, more, start, served, malformed);
      ForwardedGrows(stream, more, Got(), next, {});
      stream := stream + more;
    }

    /** One round of the tailer: the next record into the channel; with the
        channel still full after the grace period the connection is cancelled. */
    method TailOne(expired: bool)
      requires Valid()
      modifies this`next, this`channel, this`tailing, this`serving
      ensures Valid()
      ensures var moves := old(tailing) && old(next) < |stream| && |old(channel)| < SSE_CHAN_CAP;
              && next == old(next) + (if moves then 1 else 0)
              && channel == old(channel) + (if moves then [SeqEvent(old(next), stream[old(next)])] else [])
      ensures old(tailing) && old(serving) ==>
                (!serving <==> old(next) < |stream| && |old(channel)| == 64 && expired) && tailing == serving
      ensures Now() == Shifted(old(Now()), malformed, Tails(expired))
    {
      if !tailing || next >= |stream| { return; }
      var ev := SeqEvent(next, stream[next]);
      if |channel| < SSE_CHAN_CAP {
        channel, next := channel + [ev], next + 1;
      } else if expired {
        tailing, serving := false, false;
      }
    }

    /** One event out of the channel; a failed write ends the connection. */
    method WriteOne(fails: bool)
      requires Valid()
      modifies this`channel, this`written, this`serving, this`served
      ensures Valid() && old(written) <= written && old(served) <= served
      ensures old(serving) && old(channel) != [] ==>
                && channel == old(channel)[1..]
                && (serving <==> old(channel)[0].at in malformed || !fails)
                && written == old(written) + if old(channel)[0].at in malformed || fails then [] else [old(channel)[0]]
      ensures !old(serving) || old(channel) == [] ==> written == old(written) && channel == old(channel) && serving == old(serving)
      ensures Now() == Shifted(old(Now()), malformed, Writes(fails))
    {
      if !serving || channel == [] { return; }
      var ev := channel[0];
      ForwardedFirst(stream, Got(), next);
      channel := channel[1..];
      if ev.at !in malformed {
        if fails { serving := false; return; }
        written := written + [ev];
      }
      served := served + 1;
    }

    /** Any interleaving of the two loops and of others' appends. */
    method Run(moves: seq<Move>)
      requires Valid()
      modifies this
      ensures Valid() && old(stream) <= stream && old(written) <= written
      ensures Now() == AfterMoves(old(Now()), malformed, moves)
    {
      for i := 0 to |moves|
        invariant Valid() && old(stream) <= stream && old(written) <= written
        invariant Now() == AfterMoves(old(Now()), malformed, moves[..i])
      {
        assert moves[..i + 1][..i] == moves[..i];
        match moves[i] {
          case Grows(more) => Grow(more);
          case Tails(expired) => TailOne(expired);
          case Writes(fails) => WriteOne(fails);
        }
      }
      assert moves[..|moves|] == moves;
    }
  }

  /** A tail as its two loops see it. */
  datatype Pipe = Pipe(stream: seq<Event>, next: nat, tailing: bool, serving: bool, channel: seq<SeqEvent>, written: seq<SeqEvent>)

  function Opened(stream: seq<Event>, start: nat): Pipe { Pipe(stream, start, true, true, [], []) }

  function Shifted(p: Pipe, malformed: set<nat>, m: Move): Pipe {
    match m
    case Grows(more) => p.(stream := p.stream + more)
    case Tails(expired) =>
      if !p.tailing || p.next >= |p.stream| then p
      else if |p.channel| < SSE_CHAN_CAP then p.(channel := p.channel + [SeqEvent(p.next, p.stream[p.next])], next := p.next + 1)
      else if expired then p.(tailing := false, serving := false) else p
    case Writes(fails) =>
      if !p.serving || p.channel == [] then p
      else if p.channel[0].at in malformed then p.(channel := p.channel[1..])
      else if fails then p.(channel := p.channel[1..], serving := false)
      else p.(channel := p.channel[1..], written := p.written + [p.channel[0]])
  }

  function AfterMoves(p: Pipe, malformed: set<nat>, moves: seq<Move>): Pipe {
    if moves == [] then p else Shifted(AfterMoves(p, malformed, moves[..|moves| - 1]), malformed, moves[|moves| - 1])
  }

  /** n rounds in which one record is taken and written. */
  function Rounds(n: nat): seq<Move> { if n == 0 then [] else Rounds(n - 1) + [Tails(false)] + [Writes(false)] }

  lemma MoveNext(p: Pipe, malformed: set<nat>, moves: seq<Move>, m: Move)
    ensures AfterMoves(p, malformed, moves + [m]) == Shifted(AfterMoves(p, malformed, moves), malformed, m)
  {
    assert (moves + [m])[..|moves|] == moves;
  }

  lemma OneRound(p: Pipe, malformed: set<nat>, at: nat)
    requires p.tailing && p.serving && p.channel == [] && at <= p.next <= |p.stream|
    requires p.written == Forwarded(p.stream, at, p.next, malformed)
    ensures var q, n := Shifted(Shifted(p, malformed, Tails(false)), malformed, Writes(false)), Min(p.next + 1, |p.stream|);
            q == Pipe(p.stream, n, true, true, [], Forwarded(p.stream, at, n, malformed))
  {
    if p.next < |p.stream| && p.next in malformed { assert p.written + [] == p.written; }
  }

  /** A tail that is let to goes on: in n such rounds it writes the next n
      records, as far as there are any and they can be forwarded. */
  lemma {:induction false} RoundsReach(stream: seq<Event>, start: nat, malformed: set<nat>, n: nat)
    requires start <= |stream|
    ensures var to := Min(start + n, |stream|);
            AfterMoves(Opened(stream, start), malformed, Rounds(n))
            == Pipe(stream, to, true, true, [], Forwarded(stream, start, to, malformed))
  {
    if n > 0 {
      RoundsReach(stream, start, malformed, n - 1);
      var p := Opened(stream, start);
      MoveNext(p, malformed, Rounds(n - 1), Tails(false));
      MoveNext(p, malformed, Rounds(n - 1) + [Tails(false)], Writes(false));
      OneRound(AfterMoves(p, malformed, Rounds(n - 1)), malformed, start);
    }
  }

  datatype Move = Grows(more: seq<Event>) | Tails(expired: bool) | Writes(fails: bool)

  // ------------------------------------------------------------------
  // From confirmations to what is written
  // ------------------------------------------------------------------

  /** What a connection has written are records it could read from where it
      started, up to the last one served, and every readable one of them from
      bound on. */
  ghost predicate Wrote(stream: seq<Event>, malformed: set<nat>, bound: nat, served: nat, written: seq<SeqEvent>) {
    && Increasing(written) && (forall d :: d in written ==> Readable(stream, malformed, d) && d.at < served)
    && (forall i :: bound <= i < served && i !in malformed ==> i < |stream| && SeqEvent(i, stream[i]) in written)
  }

  predicate Readable(stream: seq<Event>, malformed: set<nat>, d: SeqEvent) {
    d.at < |stream| && d.at !in malformed && d == SeqEvent(d.at, stream[d.at])
  }

  lemma ConnectionWrote(stream: seq<Event>, start: nat, served: nat, malformed: set<nat>, confirmed: map<Pair, nat>, p: Pair)
    requires start <= Bound(confirmed, p) && start <= served && (served <= |stream| || served == start)
    ensures Wrote(stream, malformed, Bound(confirmed, p), served, Forwarded(stream, start, served, malformed))
  {
    if served <= |stream| { NothingUnconfirmedSkipped(stream, start, served, malformed, confirmed, p); }
    forall d | d in Forwarded(stream, start, served, malformed) ensures Readable(stream, malformed, d) && d.at < served {
      ForwardedAre(stream, start, served, malformed, d);
    }
  }

  /** One tail that resumes by Last-Event-ID or from the stored cursor, with
      whatever the cache went through before: it starts at most one past the
      highest confirmed seq, and writes in order every readable event after the
      confirmed ones up to where it was served. */
  method Resume(cache: CursorCache, p: Pair, lastEventId: Option<nat>, stream: seq<Event>, malformed: set<nat>, moves: seq<Move>)
    returns (conn: Connection)
    requires cache.Valid()
    modifies cache`cursors, cache`dirty, cache`confirmed
    ensures cache.Valid() && fresh(conn) && conn.Valid() && conn.malformed == malformed && stream <= conn.stream
    ensures cache.confirmed == if lastEventId.Some? then Confirming(old(cache.confirmed), p, lastEventId.value) else old(cache.confirmed)
    ensures conn.start <= Bound(cache.confirmed, p)
    ensures Wrote(conn.stream, malformed, Bound(cache.confirmed, p), conn.served, conn.written)
    ensures conn.Now() == AfterMoves(Opened(stream, conn.start), malformed, moves)
  {
    var start := cache.StartSeq(p, None, lastEventId);
    conn := new Connection(start, stream, malformed);
    conn.Run(moves);
    ConnectionWrote(conn.stream, start, conn.served, malformed, cache.confirmed, p);
  }

  /** One visit of a client: what happens at the cache before it, the
      Last-Event-ID sent if any, and how its tail goes. */
  datatype Visit = Visit(ops: seq<Op>, lastEventId: Option<nat>, moves: seq<Move>)

  /** The confirmations of p that are of something already written to it. */
  function Honest(ops: seq<Op>, p: Pair, reached: nat): seq<Op> {
    if ops == [] then []
    else
      var last := ops[|ops| - 1];
      Honest(ops[..|ops| - 1], p, reached) + if last.Confirmed? && last.p == p && last.v >= reached then [] else [last]
  }

  lemma {:induction false} HonestBelow(ops: seq<Op>, p: Pair, reached: nat)
    ensures Below(Honest(ops, p, reached), p, reached)
  {
    if ops != [] { HonestBelow(ops[..|ops| - 1], p, reached); }
  }

  /** all holds the readable records below reached, and only those. */
  ghost predicate Covered(stream: seq<Event>, malformed: set<nat>, reached: nat, all: seq<SeqEvent>) {
    reached <= |stream| && forall d :: d in all <==> Readable(stream, malformed, d) && d.at < reached
  }

  ghost predicate Everything(stream: seq<Event>, malformed: set<nat>, all: seq<SeqEvent>) {
    forall d :: d in all <==> Readable(stream, malformed, d)
  }

  lemma StaysLong(stream: seq<Event>, start: nat, malformed: set<nat>, n: nat, p: Pipe, reached: nat, all: seq<SeqEvent>)
    requires Covered(stream, malformed, reached, all) && start <= reached
    requires p == AfterMoves(Opened(stream, start), malformed, Rounds(n)) && n >= |p.stream|
    ensures Everything(p.stream, malformed, all + p.written)
  {
    RoundsReach(stream, start, malformed, n);
    forall d ensures d in all + p.written <==> Readable(stream, malformed, d) {
      ForwardedAre(stream, start, |stream|, malformed, d);
    }
  }

  /** How far a client has come after receiving written. */
  function Reach(reached: nat, written: seq<SeqEvent>): nat {
    if written == [] then reached else Max(reached, written[|written| - 1].at + 1)
  }

  lemma ReachBounds(reached: nat, written: seq<SeqEvent>, d: SeqEvent)
    requires Increasing(written) && d in written
    ensures d.at < Reach(reached, written)
  {
  }

  lemma CoveredMore(stream: seq<Event>, stream': seq<Event>, malformed: set<nat>, reached: nat, bound: nat, served: nat,
                    all: seq<SeqEvent>, written: seq<SeqEvent>)
    requires Covered(stream, malformed, reached, all) && stream <= stream' && bound <= reached
    requires Wrote(stream', malformed, bound, served, written)
    ensures Covered(stream', malformed, Reach(reached, written), all + written)
  {
    if written != [] { assert Readable(stream', malformed, written[|written| - 1]); }
    forall d ensures d in all + written <==> Readable(stream', malformed, d) && d.at < Reach(reached, written) {
      if d in written { ReachBounds(reached, written, d); }
      if Readable(stream', malformed, d) && d.at < reached { assert Readable(stream, malformed, d); }
      if d in all { assert Readable(stream, malformed, d); }
    }
  }

  /** Main result: over any visits of a client, whatever happens to the cache
      before and between them (other pairs' confirmations, flushes that fail or
      lose their answer, restarts) and however each tail ends, if the client
      confirms only what was written to it, the records written to it by all of
      them are exactly the readable ones up to the furthest: none is skipped. If
      the last tail is let to go on long enough, that is all there are. */
  method AllDelivered(cache: CursorCache, p: Pair, begin: seq<Event>, malformed: set<nat>, visits: seq<Visit>)
    returns (stream: seq<Event>, reached: nat, all: seq<SeqEvent>)
    requires cache.Valid() && Bound(cache.confirmed, p) == 0
    modifies cache
    ensures cache.Valid() && begin <= stream
    ensures Covered(stream, malformed, reached, all) && Bound(cache.confirmed, p) <= reached
    ensures visits != [] && (exists n :: n >= |stream| && visits[|visits| - 1].moves == Rounds(n)) ==>
              forall d :: d in all <==> Readable(stream, malformed, d)
  {
    stream, reached, all := begin, 0, [];
    for i := 0 to |visits|
      invariant cache.Valid() && begin <= stream
      invariant Covered(stream, malformed, reached, all) && Bound(cache.confirmed, p) <= reached
      invariant i > 0 && (exists n :: n >= |stream| && visits[i - 1].moves == Rounds(n)) ==> Everything(stream, malformed, all)
    {
      var v := visits[i];
      HonestBelow(v.ops, p, reached);
      BoundKept(cache.confirmed, Honest(v.ops, p, reached), p, reached);
      cache.Interleave(Honest(v.ops, p, reached));
      var id := if v.lastEventId.Some? && v.lastEventId.value < reached then v.lastEventId else None;
      var conn := Resume(cache, p, id, stream, malformed, v.moves);
      CoveredMore(stream, conn.stream, malformed, reached, Bound(cache.confirmed, p), conn.served, all, conn.written);
      if n: nat :| n >= |conn.stream| && v.moves == Rounds(n) {
        StaysLong(stream, conn.start, malformed, n, conn.Now(), reached, all);
      }
      stream, reached, all := conn.stream, Reach(reached, conn.written), all + conn.written;
    }
  }
}
