/** What the write protocol guarantees over whole runs. */
module WriteSafety {
  import opened Common
  import opened Events
  import opened WriteProtocol

  lemma {:induction false} ExecConcat(w: World, x: seq<Action>, y: seq<Action>)
    requires Legal(w, x) && Legal(Exec(w, x), y)
    ensures Legal(w, x + y) && Exec(w, x + y) == Exec(Exec(w, x), y)
  {
    if y == [] {
      assert x + y == x;
    } else {
      ExecConcat(w, x, y[..|y| - 1]);
      assert (x + y)[..|x + y| - 1] == x + y[..|y| - 1];
    }
  }

  lemma {:induction false} LegalSplit(w: World, x: seq<Action>, y: seq<Action>)
    requires Legal(w, x + y)
    ensures Legal(w, x) && Legal(Exec(w, x), y) && Exec(w, x + y) == Exec(Exec(w, x), y)
  {
    if y == [] {
      assert x + y == x;
    } else {
      assert (x + y)[..|x + y| - 1] == x + y[..|y| - 1];
      LegalSplit(w, x, y[..|y| - 1]);
    }
  }

  lemma ExecOne(w: World, a: Action)
    requires Enabled(w, a)
    ensures Legal(w, [a]) && Exec(w, [a]) == Apply(w, a)
  {
    assert [a][..0] == [];
    assert Legal(w, []);
  }

  lemma ExecThree(w: World, x: Action, y: Action, z: Action)
    requires Enabled(w, x) && Enabled(Apply(w, x), y) && Enabled(Apply(Apply(w, x), y), z)
    ensures Legal(w, [x, y, z]) && Exec(w, [x, y, z]) == Apply(Apply(Apply(w, x), y), z)
  {
    ExecOne(w, x);
    ExecOne(Apply(w, x), y);
    ExecOne(Apply(Apply(w, x), y), z);
    ExecConcat(w, [x], [y]);
    ExecConcat(w, [x] + [y], [z]);
    assert [x] + [y] + [z] == [x, y, z];
  }

  // ------------------------------------------------------------------
  // At every moment one holder per id
  // ------------------------------------------------------------------

  /** In every run, whatever fails or crashes, no two live requests hold the
      claim on the same id, and a held id has its row in the claims table. */
  lemma OneLiveHolder(run: seq<Action>, k: Key, k': Key)
    requires Legal(INIT, run)
    requires k in Exec(INIT, run).requests && k' in Exec(INIT, run).requests && k != k'
    requires Holds(Exec(INIT, run).requests[k])
    ensures Exec(INIT, run).requests[k].id in Exec(INIT, run).claims
    ensures Holds(Exec(INIT, run).requests[k']) ==> Exec(INIT, run).requests[k].id != Exec(INIT, run).requests[k'].id
  {
    InvRun(run);
    assert RequestOk(Exec(INIT, run), Exec(INIT, run).requests[k]);
  }

  // ------------------------------------------------------------------
  // Dedup rows
  // ------------------------------------------------------------------

  lemma PumpKeeps(w: World, a: Action)
    requires Enabled(w, a) && Pumps(a)
    ensures var w' := Apply(w, a); w'.dedup == w.dedup && w'.head == w.head && w'.acks == w.acks
  {
  }

  lemma SweepKeeps(w: World, a: Action)
    requires Enabled(w, a) && Sweeps(a)
    ensures Apply(w, a).head == w.head && Apply(w, a).acks == w.acks
  {
  }

  predicate Inserts(a: Action) { a.Record? || a.RecordAbort? || a.RecordRow? }

  lemma RowsSame(w: World, a: Action)
    requires Enabled(w, a) && !Inserts(a) && !Pumps(a)
    ensures Apply(w, a).dedup == w.dedup
  {
  }

  lemma RowsInsert(w: World, a: Action, id: Id)
    requires Enabled(w, a) && id in w.dedup && Inserts(a)
    ensures id in Apply(w, a).dedup && Apply(w, a).dedup[id] == w.dedup[id]
  {
  }

  lemma RowsStep(w: World, a: Action, id: Id)
    requires Enabled(w, a) && id in w.dedup
    ensures id in Apply(w, a).dedup && Apply(w, a).dedup[id] == w.dedup[id]
  {
    if Inserts(a) { RowsInsert(w, a, id); } else if Pumps(a) { PumpKeeps(w, a); } else { RowsSame(w, a); }
  }

  lemma {:induction false} RowsNeverChange(w: World, run: seq<Action>, id: Id)
    requires Legal(w, run) && id in w.dedup
    ensures id in Exec(w, run).dedup && Exec(w, run).dedup[id] == w.dedup[id]
  {
    if run != [] {
      RowsNeverChange(w, run[..|run| - 1], id);
      RowsStep(Exec(w, run[..|run| - 1]), run[|run| - 1], id);
    }
  }

  /** A message whose start and end records sit at seqs start and end. */
  predicate Bracketed(stream: seq<Event>, id: Id, start: nat, end: nat) {
    && start < end < |stream|
    && stream[start].MessageStart? && stream[start].id == id
    && stream[end] == MessageEnd(id)
  }

  lemma CompleteIsBracketed(stream: seq<Event>, m: Message)
    requires m in View(stream).done && m.status == Complete
    ensures Bracketed(stream, m.id, m.seqStart, m.seqEnd)
  {
    FinishedMessages(Log(stream), m);
    var i: nat, j: nat :| Spans(Log(stream), m, i, j);
    assert Log(stream)[..j][i] == Log(stream)[i];
  }

  /** No false completes: a complete row means its message was already on the
      stream from start to end. If the id was never streamed, the stored range
      is exactly the seqs of those two records; and whatever happens afterwards
      every later lookup returns the same row, so the same true range. */
  lemma NoFalseComplete(run: seq<Action>, more: seq<Action>, id: Id)
    requires Legal(INIT, run) && Legal(Exec(INIT, run), more)
    requires id in Exec(INIT, run).dedup && Exec(INIT, run).dedup[id].CompleteRow?
    ensures var w, row := Exec(INIT, run), Exec(INIT, run).dedup[id];
            && (exists start: nat, end: nat :: Bracketed(w.stream, id, start, end))
            && (id !in w.streams ==> Bracketed(w.stream, id, row.start, row.end))
            && id in Exec(w, more).dedup && Exec(w, more).dedup[id] == row
  {
    var w, row := Exec(INIT, run), Exec(INIT, run).dedup[id];
    InvRun(run);
    assert RowOk(w, id, row);
    var m :| Fits(w, id, row.start, row.end, m);
    CompleteIsBracketed(w.stream, m);
    RowsNeverChange(w, more, id);
  }

  /** The range stored for an id that was only ever streamed is never the true
      one: it is either (0, 0) or ends strictly after the message's last record. */
  lemma StreamedRangeIsOff(run: seq<Action>, id: Id)
    requires Legal(INIT, run) && id in Exec(INIT, run).dedup && Exec(INIT, run).dedup[id].CompleteRow?
    requires id !in Exec(INIT, run).wholes
    ensures var w, row := Exec(INIT, run), Exec(INIT, run).dedup[id];
            exists start: nat, end: nat :: Bracketed(w.stream, id, start, end)
              && !(row.start == start && row.end == end)
              && ((row.start == 0 && row.end == 0) || (row.start <= start + 1 && end < row.end <= |w.stream|))
  {
    var w, row := Exec(INIT, run), Exec(INIT, run).dedup[id];
    InvRun(run);
    assert RowOk(w, id, row);
    var m :| Fits(w, id, row.start, row.end, m);
    CompleteIsBracketed(w.stream, m);
  }

  // ------------------------------------------------------------------
  // Cursors
  // ------------------------------------------------------------------

  function AckOf(w: World, g: Id): nat {
    if g in w.acks then w.acks[g] else 0
  }

  lemma CursorsEarly(w: World, a: Action)
    requires Enabled(w, a) && (a.Begin? || a.Lookup? || a.Claim? || a.Batch? || a.AckRead?)
    ensures Apply(w, a).head == w.head && Apply(w, a).acks == w.acks
  {
  }

  lemma CursorsLate(w: World, a: Action)
    requires Enabled(w, a) && (a.Record? || a.Release? || a.Abort? || a.RecordAbort? || a.Announce?)
    ensures Apply(w, a).head == w.head && Apply(w, a).acks == w.acks
  {
  }

  lemma CursorsStep(w: World, a: Action, g: Id)
    requires Enabled(w, a)
    ensures w.head <= Apply(w, a).head && AckOf(w, g) <= AckOf(Apply(w, a), g)
  {
    CursorsAfter(w, a, g);
  }

  lemma {:induction false} CursorsRise(w: World, run: seq<Action>, g: Id)
    requires Legal(w, run)
    ensures w.head <= Exec(w, run).head && AckOf(w, g) <= AckOf(Exec(w, run), g)
  {
    if run != [] {
      CursorsRise(w, run[..|run| - 1], g);
      CursorsStep(Exec(w, run[..|run| - 1]), run[|run| - 1], g);
    }
  }

  /** In every interleaving of sends, joins, leaves, two-step acks and crashes:
      ack_seq <= head_seq <= tail, so event_delta is never negative, and neither
      cursor ever goes down. */
  lemma CursorOrder(run: seq<Action>, more: seq<Action>, g: Id)
    requires Legal(INIT, run) && Legal(Exec(INIT, run), more)
    ensures var w, w' := Exec(INIT, run), Exec(Exec(INIT, run), more);
            && AckOf(w, g) <= w.head <= |w.stream|
            && w.head <= w'.head && AckOf(w, g) <= AckOf(w', g)
  {
    InvRun(run);
    CursorsRise(Exec(INIT, run), more, g);
  }

  /** Step i of the run is a head update that took effect, to seq end. */
  ghost predicate Advances(run: seq<Action>, i: nat, end: nat)
    requires Legal(INIT, run)
  {
    i < |run| && run[i].Head? && Took(run[i].o) && Legal(INIT, run[..i])
    && run[i].k in Exec(INIT, run[..i]).requests && Exec(INIT, run[..i]).requests[run[i].k].pc == AtHead(end)
  }

  /** Step i of the run is a write of agent g's ack that took effect, to seq end. */
  ghost predicate Acks(run: seq<Action>, i: nat, g: Id, end: nat)
    requires Legal(INIT, run)
  {
    i < |run| && run[i].AckWrite? && Took(run[i].o) && Legal(INIT, run[..i])
    && run[i].k in Exec(INIT, run[..i]).requests
    && Exec(INIT, run[..i]).requests[run[i].k].kind == Ack(end) && Exec(INIT, run[..i]).requests[run[i].k].sender == g
  }

  /** What one step does to the two cursors. */
  lemma CursorsAfter(w: World, a: Action, g: Id)
    requires Enabled(w, a)
    ensures Apply(w, a).head == if a.Head? && Took(a.o) then Max(w.head, w.requests[a.k].pc.end) else w.head
    ensures AckOf(Apply(w, a), g)
            == if a.AckWrite? && Took(a.o) && w.requests[a.k].kind.Ack? && w.requests[a.k].sender == g
               then Max(AckOf(w, g), w.requests[a.k].kind.upTo) else AckOf(w, g)
  {
    if Pumps(a) { PumpKeeps(w, a); }
    else if Sweeps(a) { SweepKeeps(w, a); }
    else if a.Head? { HeadAfter(w, a.k, a.o); }
    else if a.AckWrite? { AckAfter(w, a.k, a.o, g); }
    else if a.Begin? || a.Lookup? || a.Claim? || a.Batch? || a.AckRead? { CursorsEarly(w, a); }
    else { CursorsLate(w, a); }
  }

  lemma HeadAfter(w: World, k: Key, o: Outcome)
    requires Enabled(w, Head(k, o))
    ensures Apply(w, Head(k, o)).head == if Took(o) then Max(w.head, w.requests[k].pc.end) else w.head
    ensures Apply(w, Head(k, o)).acks == w.acks
  {
  }

  lemma AckAfter(w: World, k: Key, o: Outcome, g: Id)
    requires Enabled(w, AckWrite(k, o))
    ensures Apply(w, AckWrite(k, o)).head == w.head
    ensures AckOf(Apply(w, AckWrite(k, o)), g)
            == if Took(o) && w.requests[k].kind.Ack? && w.requests[k].sender == g
               then Max(AckOf(w, g), w.requests[k].kind.upTo) else AckOf(w, g)
  {
  }

  lemma AdvancesEarlier(run: seq<Action>, i: nat, end: nat)
    requires run != [] && Legal(INIT, run) && i < |run| - 1
    ensures Advances(run, i, end) <==> Advances(run[..|run| - 1], i, end)
  {
    assert run[..|run| - 1][..i] == run[..i];
  }

  lemma AcksEarlier(run: seq<Action>, i: nat, g: Id, end: nat)
    requires run != [] && Legal(INIT, run) && i < |run| - 1
    ensures Acks(run, i, g, end) <==> Acks(run[..|run| - 1], i, g, end)
  {
    assert run[..|run| - 1][..i] == run[..i];
  }

  /** head_seq is exactly the highest end any head update took effect with, 0 if
      there was none. */
  lemma {:induction false} HeadIsHighest(run: seq<Action>)
    requires Legal(INIT, run)
    ensures forall i: nat, end: nat :: Advances(run, i, end) ==> end <= Exec(INIT, run).head
    ensures Exec(INIT, run).head == 0 || exists i: nat :: Advances(run, i, Exec(INIT, run).head)
  {
    if run != [] {
      var front, a := run[..|run| - 1], run[|run| - 1];
      var w := Exec(INIT, front);
      HeadIsHighest(front);
      CursorsAfter(w, a, 0);
      forall i: nat, end: nat | Advances(run, i, end) ensures end <= Exec(INIT, run).head {
        if i < |run| - 1 { AdvancesEarlier(run, i, end); }
      }
      if Exec(INIT, run).head != w.head {
        assert Advances(run, |run| - 1, Exec(INIT, run).head);
      } else if i: nat :| Advances(front, i, w.head) {
        AdvancesEarlier(run, i, w.head);
      }
    }
  }

  /** So is each agent's ack_seq of its ack writes. */
  lemma {:induction false} AckIsHighest(run: seq<Action>, g: Id)
    requires Legal(INIT, run)
    ensures forall i: nat, end: nat :: Acks(run, i, g, end) ==> end <= AckOf(Exec(INIT, run), g)
    ensures AckOf(Exec(INIT, run), g) == 0 || exists i: nat :: Acks(run, i, g, AckOf(Exec(INIT, run), g))
  {
    if run != [] {
      var front, a := run[..|run| - 1], run[|run| - 1];
      var w := Exec(INIT, front);
      AckIsHighest(front, g);
      CursorsAfter(w, a, g);
      forall i: nat, end: nat | Acks(run, i, g, end) ensures end <= AckOf(Exec(INIT, run), g) {
        if i < |run| - 1 { AcksEarlier(run, i, g, end); }
      }
      if AckOf(Exec(INIT, run), g) != AckOf(w, g) {
        assert Acks(run, |run| - 1, g, AckOf(Exec(INIT, run), g));
      } else if i: nat :| Acks(front, i, g, AckOf(w, g)) {
        AcksEarlier(run, i, g, AckOf(w, g));
      }
    }
  }

  // ------------------------------------------------------------------
  // A claim is a lock
  // ------------------------------------------------------------------

  /** Nothing happened to id: its open message, its claim and its dedup row. */
  ghost predicate Untouched(w: World, w': World, id: Id) {
    && SameOpen(w.stream, w'.stream, id)
    && (id in w.claims <==> id in w'.claims)
    && (id in w.dedup <==> id in w'.dedup) && (id in w.dedup ==> w'.dedup[id] == w.dedup[id])
  }

  /** What a request's step can do to the rest of the world: it appends at most
      records of its own id or notices, and writes only its own claim and row. */
  ghost predicate OwnWork(w: World, w': World, mine: Id, holds: bool) {
    && (forall id :: !(holds && id == mine) ==> SameOpen(w.stream, w'.stream, id))
    && (forall id :: !(id == mine) ==> (id in w.claims <==> id in w'.claims))
    && (mine in w.claims && !holds ==> mine in w'.claims)
    && (forall id :: !(holds && id == mine) ==> (id in w.dedup <==> id in w'.dedup) && (id in w.dedup ==> w'.dedup[id] == w.dedup[id]))
  }

  lemma SameStream(s: seq<Event>)
    ensures forall id :: SameOpen(s, s, id)
  {
  }

  lemma PumpOwnWork(w: World, a: Action)
    requires Inv(w) && Enabled(w, a) && Pumps(a)
    ensures OwnWork(w, Apply(w, a), w.requests[a.k].id, Holds(w.requests[a.k]))
  {
    assert RequestOk(w, w.requests[a.k]);
    if a.Land? { LandOwnWork(w, a.k); } else { QuietOwnWork(w, a); }
  }

  lemma LandOwnWork(w: World, k: Key)
    requires Inv(w) && Enabled(w, Land(k)) && RequestOk(w, w.requests[k])
    ensures OwnWork(w, Apply(w, Land(k)), w.requests[k].id, Holds(w.requests[k]))
  {
    var w' := LandEffect(w, k);
    StreamStep(w, w.requests[k].pc.sent[w.requests[k].pc.landed]);
  }

  lemma QuietOwnWork(w: World, a: Action)
    requires Enabled(w, a) && Pumps(a) && !a.Land?
    ensures Apply(w, a).(requests := w.requests) == w
    ensures OwnWork(w, Apply(w, a), w.requests[a.k].id, Holds(w.requests[a.k]))
  {
    SameStream(w.stream);
  }

  lemma BatchOwnWork(w: World, k: Key, o: Outcome)
    requires Inv(w) && Enabled(w, Batch(k, o))
    ensures OwnWork(w, Apply(w, Batch(k, o)), w.requests[k].id, Holds(w.requests[k]))
  {
    var r := w.requests[k];
    assert RequestOk(w, r);
    var w' := BatchEffect(w, k, o);
    SameStream(w.stream);
    if Took(o) { BatchStep(w.stream, r.id, r.sender, r.text); }
  }

  lemma AbortOwnWork(w: World, k: Key, reason: string, o: Outcome)
    requires Inv(w) && Enabled(w, Abort(k, reason, o))
    ensures OwnWork(w, Apply(w, Abort(k, reason, o)), w.requests[k].id, Holds(w.requests[k]))
  {
    assert RequestOk(w, w.requests[k]);
    SameStream(w.stream);
    if Took(o) { StreamStep(w, MessageAbort(w.requests[k].id, reason)); }
  }

  lemma AnnounceOwnWork(w: World, k: Key, o: Outcome)
    requires Inv(w) && Enabled(w, Announce(k, o))
    ensures OwnWork(w, Apply(w, Announce(k, o)), w.requests[k].id, Holds(w.requests[k]))
  {
    assert RequestOk(w, w.requests[k]);
    SameStream(w.stream);
    if Took(o) { StreamStep(w, w.requests[k].kind.event); }
  }

  lemma ClaimOwnWork(w: World, a: Action)
    requires Inv(w) && Enabled(w, a) && (a.Claim? || a.Release?)
    ensures OwnWork(w, Apply(w, a), w.requests[a.k].id, Holds(w.requests[a.k]))
  {
    assert RequestOk(w, w.requests[a.k]);
    SameStream(w.stream);
  }

  lemma RowOwnWork(w: World, a: Action)
    requires Inv(w) && Enabled(w, a) && (a.Record? || a.RecordAbort?)
    ensures OwnWork(w, Apply(w, a), w.requests[a.k].id, Holds(w.requests[a.k]))
  {
    assert RequestOk(w, w.requests[a.k]);
    SameStream(w.stream);
  }

  lemma CursorOwnWork(w: World, a: Action)
    requires Enabled(w, a) && (a.Lookup? || a.Head? || a.AckRead? || a.AckWrite?)
    ensures OwnWork(w, Apply(w, a), w.requests[a.k].id, Holds(w.requests[a.k]))
  {
    SameStream(w.stream);
  }

  /** While a request holds the claim on its id, no step of any other touches
      the id's open message, its claim or its dedup row. */
  lemma ClaimIsLock(w: World, a: Action, k: Key)
    requires Inv(w) && Enabled(w, a) && !System(a) && a.k != k && k in w.requests && Holds(w.requests[k])
    ensures Untouched(w, Apply(w, a), w.requests[k].id)
  {
    assert RequestOk(w, w.requests[k]);
    if Pumps(a) { PumpOwnWork(w, a); }
    else if a.Batch? { BatchOwnWork(w, a.k, a.o); }
    else if a.Abort? { AbortOwnWork(w, a.k, a.reason, a.o); }
    else if a.Announce? { AnnounceOwnWork(w, a.k, a.o); }
    else if a.Claim? || a.Release? { ClaimOwnWork(w, a); }
    else if a.Record? || a.RecordAbort? { RowOwnWork(w, a); }
    else { CursorOwnWork(w, a); }
  }

  // ------------------------------------------------------------------
  // Crash repair
  // ------------------------------------------------------------------

  predicate IsOpen(w: World, id: Id) {
    id in View(w.stream).pending
  }

  /** The request's own message has been ended or aborted. */
  predicate Settled(r: Request) {
    Holds(r) && (r.pc.AtTailAfter? || r.pc.AtRecord? || r.pc.AtHead? || r.pc.AtRelease? || r.pc.AtRecordAbort?)
  }

  /** The message of id can be repaired: while it is open its claim row is
      there, and nobody who could let go of that row has it open. */
  ghost predicate Repairable(w: World, id: Id) {
    && (IsOpen(w, id) ==> id in w.claims)
    && SettledClosed(w, id)
    && (w.mode.Sweeping? && w.mode.rows != [] && w.mode.rows[0] == id && w.mode.at != SweepAbort ==> !IsOpen(w, id))
  }

  ghost predicate SettledClosed(w: World, id: Id) {
    forall k :: k in w.requests && w.requests[k].id == id && Settled(w.requests[k]) ==> !IsOpen(w, id)
  }

  /** A handler's own abort append for id reached the stream, or found nothing
      open that it could have closed. */
  predicate CleanupLands(w: World, a: Action, id: Id) {
    a.Abort? && a.k in w.requests && w.requests[a.k].id == id && !Took(a.o) ==> !IsOpen(w, id)
  }

  /** So did every such append of a run. */
  ghost predicate CleanedUp(run: seq<Action>, id: Id) {
    forall i :: 0 <= i < |run| && Legal(INIT, run[..i]) ==> CleanupLands(Exec(INIT, run[..i]), run[i], id)
  }

  lemma RepairLand(w: World, a: Action, id: Id)
    requires Inv(w) && Repairable(w, id) && Enabled(w, a) && a.Land?
    ensures Repairable(Apply(w, a), id)
  {
    var r := w.requests[a.k];
    assert RequestOk(w, r);
    ViewAppend(w.stream, r.pc.sent[r.pc.landed]);
  }

  lemma RepairAbort(w: World, a: Action, id: Id)
    requires Inv(w) && Repairable(w, id) && Enabled(w, a) && CleanupLands(w, a, id) && a.Abort?
    ensures Repairable(Apply(w, a), id)
  {
    ViewAppend(w.stream, MessageAbort(w.requests[a.k].id, a.reason));
  }

  /** A request that is not settled moves on or leaves, and nothing opens or
      closes. */
  lemma RepairMoved(w: World, w': World, k: Key, id: Id)
    requires Repairable(w, id) && w'.mode == w.mode && w'.claims == w.claims && (IsOpen(w', id) <==> IsOpen(w, id))
    requires forall j :: j in w'.requests && j != k ==> j in w.requests && w'.requests[j] == w.requests[j]
    requires k in w'.requests ==> !Settled(w'.requests[k])
    ensures Repairable(w', id)
  {
  }

  lemma Announced(w: World, k: Key, o: Outcome) returns (w': World)
    requires Enabled(w, Announce(k, o)) && w.requests[k].kind.Notice?
    ensures w' == Apply(w, Announce(k, o)) && w'.mode == w.mode && w'.claims == w.claims
    ensures w'.stream == if Took(o) then w.stream + [w.requests[k].kind.event] else w.stream
    ensures w'.requests - {k} == w.requests - {k} && (k in w'.requests ==> w'.requests[k].kind == w.requests[k].kind)
  {
    w' := Apply(w, Announce(k, o));
  }

  lemma RepairAnnounce(w: World, a: Action, id: Id)
    requires Inv(w) && Repairable(w, id) && Enabled(w, a) && a.Announce?
    ensures Repairable(Apply(w, a), id)
  {
    assert RequestOk(w, w.requests[a.k]);
    var w' := Announced(w, a.k, a.o);
    if Took(a.o) { ViewAppend(w.stream, w.requests[a.k].kind.event); }
    assert forall j :: j in w'.requests && j != a.k ==> j in (w'.requests - {a.k}) && w'.requests[j] == (w'.requests - {a.k})[j];
    RepairMoved(w, w', a.k, id);
  }

  lemma RepairBatch(w: World, a: Action, id: Id)
    requires Inv(w) && Repairable(w, id) && Enabled(w, a) && a.Batch?
    ensures Repairable(Apply(w, a), id)
  {
    var r := w.requests[a.k];
    assert RequestOk(w, r);
    BatchStep(w.stream, r.id, r.sender, r.text);
  }

  predicate System(a: Action) {
    a.Begin? || a.Crash? || a.List? || a.AbortRow? || a.RecordRow? || a.DeleteRow? || a.SweepEnd?
  }

  lemma RepairAbortRow(w: World, o: Outcome, id: Id)
    requires Inv(w) && Repairable(w, id) && Enabled(w, AbortRow(o))
    ensures Repairable(Apply(w, AbortRow(o)), id)
  {
    ViewAppend(w.stream, MessageAbort(w.mode.rows[0], "server_crash"));
  }

  lemma RepairRow(w: World, a: Action, id: Id)
    requires Inv(w) && Repairable(w, id) && Enabled(w, a) && (a.RecordRow? || a.DeleteRow?)
    ensures Repairable(Apply(w, a), id)
  {
  }

  lemma RepairSystem(w: World, a: Action, id: Id)
    requires Inv(w) && Repairable(w, id) && Enabled(w, a) && (a.Begin? || a.Crash? || a.List? || a.SweepEnd?)
    ensures Repairable(Apply(w, a), id)
  {
  }

  /** Closing the session cleanly: the end has landed. */
  lemma RepairClose(w: World, a: Action, id: Id)
    requires Inv(w) && Repairable(w, id) && Enabled(w, a) && a.CloseOk?
    ensures Repairable(Apply(w, a), id)
  {
    assert RequestOk(w, w.requests[a.k]);
  }

  /** A request's step that appends nothing and does not close a session. */
  predicate Bookkeeping(a: Action) {
    !System(a) && !a.Land? && !a.Abort? && !a.Announce? && !a.Batch? && !a.CloseOk?
  }

  /** The effect of such a step, as far as repair is concerned. */
  ghost predicate Aside(w: World, a: Action, w': World)
    requires Enabled(w, a) && Bookkeeping(a)
  {
    && w'.stream == w.stream && w'.mode == w.mode
    && (forall k :: k in w'.requests && k != a.k ==> k in w.requests && w'.requests[k] == w.requests[k])
    && (a.k in w'.requests ==>
          var r, r' := w.requests[a.k], w'.requests[a.k];
          r'.id == r.id && r'.kind == r.kind && (Settled(r') ==> r.pc.AtTailAfter? || r.pc.AtRecord? || r.pc.AtHead? || r.pc.AtRecordAbort?))
    && w.claims <= w'.claims + (if a.Release? then {w.requests[a.k].id} else {})
  }

  lemma PumpAside(w: World, a: Action)
    requires Enabled(w, a) && Bookkeeping(a) && Pumps(a)
    ensures Aside(w, a, Apply(w, a))
  {
  }

  lemma CursorAside(w: World, a: Action)
    requires Enabled(w, a) && (a.Head? || a.AckRead? || a.AckWrite? || a.Lookup?)
    ensures Aside(w, a, Apply(w, a))
  {
  }

  lemma ClaimAside(w: World, a: Action)
    requires Enabled(w, a) && (a.Claim? || a.Record? || a.RecordAbort? || a.Release?)
    ensures Aside(w, a, Apply(w, a))
  {
  }

  lemma SettledAside(w: World, a: Action, w': World, id: Id)
    requires Repairable(w, id) && Enabled(w, a) && Bookkeeping(a) && Aside(w, a, w')
    requires RequestOk(w, w.requests[a.k])
    ensures SettledClosed(w', id)
  {
    forall k | k in w'.requests && w'.requests[k].id == id && Settled(w'.requests[k]) ensures !IsOpen(w', id) {
      assert k in w.requests && w.requests[k].id == id && Settled(w.requests[k]);
    }
  }

  lemma RepairAside(w: World, a: Action, w': World, id: Id)
    requires Repairable(w, id) && Enabled(w, a) && Bookkeeping(a) && Aside(w, a, w')
    requires RequestOk(w, w.requests[a.k])
    ensures Repairable(w', id)
  {
    SettledAside(w, a, w', id);
    if a.Release? && w.requests[a.k].id == id { assert Settled(w.requests[a.k]); }
  }

  lemma RepairBookkeeping(w: World, a: Action, id: Id)
    requires Inv(w) && Repairable(w, id) && Enabled(w, a) && Bookkeeping(a)
    ensures Repairable(Apply(w, a), id)
  {
    assert RequestOk(w, w.requests[a.k]);
    if Pumps(a) { PumpAside(w, a); }
    else if a.Head? || a.AckRead? || a.AckWrite? || a.Lookup? { CursorAside(w, a); }
    else { ClaimAside(w, a); }
    RepairAside(w, a, Apply(w, a), id);
  }

  lemma RepairStep(w: World, a: Action, id: Id)
    requires Inv(w) && Repairable(w, id) && Enabled(w, a) && CleanupLands(w, a, id)
    ensures Repairable(Apply(w, a), id)
  {
    if a.AbortRow? { RepairAbortRow(w, a.o, id); }
    else if a.RecordRow? || a.DeleteRow? { RepairRow(w, a, id); }
    else if System(a) { RepairSystem(w, a, id); }
    else if a.Batch? { RepairBatch(w, a, id); }
    else if a.Land? { RepairLand(w, a, id); }
    else if a.Abort? { RepairAbort(w, a, id); }
    else if a.Announce? { RepairAnnounce(w, a, id); }
    else if a.CloseOk? { RepairClose(w, a, id); }
    else { RepairBookkeeping(w, a, id); }
  }

  /** At every moment of a run in which no abort append of id failed to land
      while its message was open, that message has its row in the claims table
      if assembly shows it in progress. What becomes of other ids does not
      matter. */
  lemma {:induction false} OpenIsClaimed(run: seq<Action>, id: Id)
    requires Legal(INIT, run) && CleanedUp(run, id)
    ensures Repairable(Exec(INIT, run), id)
  {
    if run != [] {
      var front := run[..|run| - 1];
      assert forall i :: 0 <= i < |front| ==> front[..i] == run[..i];
      OpenIsClaimed(front, id);
      InvRun(front);
      RepairStep(Exec(INIT, front), run[|run| - 1], id);
    }
  }

  /** The calls of a sweep over rows that all succeed. */
  function SweepCalls(rows: seq<Id>): seq<Action> {
    if rows == [] then [SweepEnd]
    else [AbortRow(Ok), RecordRow(Ok), DeleteRow(Ok)] + SweepCalls(rows[1..])
  }

  /** From w to w' every open message with a claim became aborted with the
      content it had; every other id shows exactly the messages it showed before,
      those open without a claim included. */
  ghost predicate Repaired(w: World, w': World) {
    && View(w'.stream).pending == View(w.stream).pending - w.claims
    && View(w.stream).done <= View(w'.stream).done
    && (forall id :: !IsOpen(w, id) || id !in w.claims ==> OfId(View(w'.stream).done, id) == OfId(View(w.stream).done, id))
    && (forall id :: IsOpen(w, id) && id in w.claims ==> exists at :: AbortedAt(w, w', id, at))
  }

  predicate AbortedAt(w: World, w': World, id: Id, at: nat)
    requires IsOpen(w, id)
  {
    var p := View(w.stream).pending[id];
    OfId(View(w'.stream).done, id)
    == OfId(View(w.stream).done, id) + [Message(id, p.sender, p.content, p.seqStart, at, Aborted)]
  }

  /** The message of id was closed if it was open, and nothing else of the
      assembly changed. */
  ghost predicate Closed(w: World, w': World, id: Id) {
    && View(w'.stream).pending == View(w.stream).pending - {id}
    && View(w.stream).done <= View(w'.stream).done
    && (forall i :: i != id || !IsOpen(w, id) ==> OfId(View(w'.stream).done, i) == OfId(View(w.stream).done, i))
    && (IsOpen(w, id) ==> AbortedAt(w, w', id, |w.stream|))
  }

  lemma ClosedThenRepaired(w: World, w1: World, w2: World, id: Id)
    requires Closed(w, w1, id) && Repaired(w1, w2) && id in w.claims && w1.claims == w.claims - {id}
    ensures Repaired(w, w2)
  {
    assert View(w2.stream).pending == View(w.stream).pending - w.claims;
    forall i | IsOpen(w, i) && i in w.claims ensures exists at :: AbortedAt(w, w2, i, at) {
      if i == id {
        assert !IsOpen(w1, id);
        assert AbortedAt(w, w2, i, |w.stream|);
      } else {
        assert IsOpen(w1, i);
        var at :| AbortedAt(w1, w2, i, at);
        assert AbortedAt(w, w2, i, at);
      }
    }
    forall i | !IsOpen(w, i) || i !in w.claims ensures OfId(View(w2.stream).done, i) == OfId(View(w.stream).done, i) {
      assert !IsOpen(w1, i) || i !in w1.claims;
    }
  }

  lemma SweptAbort(w: World, w': World, id: Id)
    requires w'.stream == w.stream + [MessageAbort(id, "server_crash")]
    ensures Closed(w, w', id)
  {
    ViewAppend(w.stream, MessageAbort(id, "server_crash"));
    if IsOpen(w, id) {
      var m := View(w'.stream).done[|View(w.stream).done|];
      forall i ensures OfId(View(w'.stream).done, i) == OfId(View(w.stream).done, i) + if i == id then [m] else [] {
        OfIdAppend(View(w.stream).done, m, i);
      }
    }
  }

  function RowCalls(): seq<Action> { [AbortRow(Ok), RecordRow(Ok), DeleteRow(Ok)] }

  /** One row swept, its three calls succeeding. */
  lemma SweepRow(w: World, rows: seq<Id>) returns (w': World)
    requires rows != [] && w.mode == Sweeping(rows, SweepAbort)
    ensures Legal(w, RowCalls()) && Exec(w, RowCalls()) == w'
    ensures w'.mode == Sweeping(rows[1..], SweepAbort) && w'.claims == w.claims - {rows[0]}
    ensures w'.stream == w.stream + [MessageAbort(rows[0], "server_crash")]
  {
    ExecThree(w, AbortRow(Ok), RecordRow(Ok), DeleteRow(Ok));
    w' := Apply(Apply(Apply(w, AbortRow(Ok)), RecordRow(Ok)), DeleteRow(Ok));
  }

  lemma ListsRest(rows: seq<Id>, claims: set<Id>)
    requires rows != [] && Lists(rows, claims)
    ensures Lists(rows[1..], claims - {rows[0]})
  {
    assert forall id :: id in rows <==> id == rows[0] || id in rows[1..];
  }

  lemma {:induction false} SweepRepairs(w: World, rows: seq<Id>)
    requires w.mode == Sweeping(rows, SweepAbort) && Lists(rows, w.claims)
    ensures Legal(w, SweepCalls(rows))
    ensures var w' := Exec(w, SweepCalls(rows)); w'.mode == Serving && w'.claims == {} && Repaired(w, w')
    decreases |rows|
  {
    if rows == [] {
      ExecOne(w, SweepEnd);
      assert View(w.stream).pending - {} == View(w.stream).pending;
    } else {
      var w1 := SweepRow(w, rows);
      SweptAbort(w, w1, rows[0]);
      ListsRest(rows, w.claims);
      SweepRepairs(w1, rows[1..]);
      ExecConcat(w, RowCalls(), SweepCalls(rows[1..]));
      ClosedThenRepaired(w, w1, Exec(w1, SweepCalls(rows[1..])), rows[0]);
    }
  }

  /** Crash repair. Take any run of requests, failures, crashes and earlier,
      possibly interrupted sweeps. A sweep whose store calls succeed turns every
      open message that has its claim into an aborted one with its content so
      far, and leaves every other as it was, even though it may append an abort
      after its end. So what is left in progress is exactly what was open without
      a claim; and no message is whose id had every abort append land that found
      it open. */
  lemma CrashRepair(run: seq<Action>, rows: seq<Id>)
    requires Legal(INIT, run)
    requires Exec(INIT, run).mode == Down && Lists(rows, Exec(INIT, run).claims)
    ensures var w, sweep := Exec(INIT, run), [List(rows, true)] + SweepCalls(rows);
            && Legal(w, sweep)
            && Exec(w, sweep).mode == Serving && Exec(w, sweep).claims == {}
            && Repaired(w, Exec(w, sweep))
            && forall id :: CleanedUp(run, id) ==> !IsOpen(Exec(w, sweep), id)
  {
    var w := Exec(INIT, run);
    ExecOne(w, List(rows, true));
    var w1 := Apply(w, List(rows, true));
    SweepRepairs(w1, rows);
    ExecConcat(w, [List(rows, true)], SweepCalls(rows));
    var w' := Exec(w, [List(rows, true)] + SweepCalls(rows));
    SameRepair(w, w1, w');
    forall id | CleanedUp(run, id) ensures !IsOpen(w', id) {
      OpenIsClaimed(run, id);
    }
  }

  lemma SameRepair(w: World, w1: World, w': World)
    requires w1.stream == w.stream && w1.claims == w.claims && Repaired(w1, w')
    ensures Repaired(w, w')
  {
    forall id | IsOpen(w, id) && id in w.claims ensures exists at :: AbortedAt(w, w', id, at) {
      assert IsOpen(w1, id);
      var at :| AbortedAt(w1, w', id, at);
      assert AbortedAt(w, w', id, at);
    }
    forall id | !IsOpen(w, id) || id !in w.claims ensures OfId(View(w'.stream).done, id) == OfId(View(w.stream).done, id) {
      assert !IsOpen(w1, id) || id !in w1.claims;
    }
  }

  /** How a message comes to be open without a claim: a failed abort append followed by a successful release leaves the
      message in progress with no claim, hence out of every sweep's reach, iff
      the message was open. */
  lemma FailedCleanupStrands(w: World, k: Key, reason: string)
    requires Inv(w) && At(w, k, AtAbort)
    ensures var calls, id := [Abort(k, reason, Failed), RecordAbort(k, Ok), Release(k, Ok)], w.requests[k].id;
            && Legal(w, calls)
            && id !in Exec(w, calls).claims
            && (IsOpen(Exec(w, calls), id) <==> IsOpen(w, id))
  {
    ExecThree(w, Abort(k, reason, Failed), RecordAbort(k, Ok), Release(k, Ok));
  }
}
