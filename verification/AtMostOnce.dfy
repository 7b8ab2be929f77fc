/** How many times one message id can be started. */
module AtMostOnce {
  import opened Events
  import opened WriteProtocol
  import opened WriteSafety

  function Starts(stream: seq<Event>, id: Id): nat {
    if stream == [] then 0
    else
      var last := stream[|stream| - 1];
      Starts(stream[..|stream| - 1], id) + if last.MessageStart? && last.id == id then 1 else 0
  }

  lemma StartsAppend(stream: seq<Event>, e: Event, id: Id)
    ensures Starts(stream + [e], id) == Starts(stream, id) + if e.MessageStart? && e.id == id then 1 else 0
  {
    assert (stream + [e])[..|stream|] == stream;
  }

  lemma StartsBatch(stream: seq<Event>, id: Id, sender: Id, content: string, i: Id)
    ensures Starts(stream + Script(id, sender, [content], true), i) == Starts(stream, i) + if i == id then 1 else 0
  {
    var s1 := stream + [MessageStart(id, sender)];
    var s2 := s1 + [MessageAppend(id, content)];
    StartsAppend(stream, MessageStart(id, sender), i);
    StartsAppend(s1, MessageAppend(id, content), i);
    StartsAppend(s2, MessageEnd(id), i);
    assert stream + Script(id, sender, [content], true) == s2 + [MessageEnd(id)];
  }

  /** Between its lookup and its claim. */
  predicate Waiting(w: World, k: Key, id: Id) {
    k in w.requests && w.requests[k].pc == AtClaim && w.requests[k].id == id
  }

  /** The dedup insert of the step, if it makes one, takes effect. */
  predicate Inserted(a: Action) { Inserts(a) ==> Took(a.o) }

  /** The step inserts a dedup row for id. */
  predicate InsertsFor(w: World, a: Action, id: Id) {
    match a
    case Record(k, _) => k in w.requests && w.requests[k].id == id
    case RecordAbort(k, _) => k in w.requests && w.requests[k].id == id
    case RecordRow(_) => w.mode.Sweeping? && w.mode.rows != [] && w.mode.rows[0] == id
    case _ => false
  }

  /** No request finalizes id between another one's lookup of it and its claim. */
  ghost predicate NotOvertaking(w: World, a: Action, id: Id) {
    (a.Record? || a.RecordAbort?) && InsertsFor(w, a, id) ==> forall k :: !Waiting(w, k, id)
  }

  /** The claim of request k on id goes through and its caller learns so. */
  predicate Wins(w: World, k: Key, id: Id, o: Outcome) {
    k in w.requests && w.requests[k].id == id && id !in w.claims && o == Ok
  }

  /** A claim won on id finds no dedup row: what the code could check by looking
      again once it has the claim. */
  predicate Guarded(w: World, a: Action, id: Id) {
    a.Claim? && Wins(w, a.k, id, a.o) ==> id !in w.dedup
  }

  /** The dedup inserts for id take effect throughout the run; its claims are
      guarded throughout; nobody overtakes on it. */
  ghost predicate InsertsLand(run: seq<Action>, id: Id) {
    forall i :: 0 <= i < |run| && Legal(INIT, run[..i]) && InsertsFor(Exec(INIT, run[..i]), run[i], id) ==> Inserted(run[i])
  }

  ghost predicate ClaimsGuarded(run: seq<Action>, id: Id) {
    forall i :: 0 <= i < |run| && Legal(INIT, run[..i]) ==> Guarded(Exec(INIT, run[..i]), run[i], id)
  }

  ghost predicate NoOvertaking(run: seq<Action>, id: Id) {
    forall i :: 0 <= i < |run| && Legal(INIT, run[..i]) ==> NotOvertaking(Exec(INIT, run[..i]), run[i], id)
  }

  predicate BeforeStart(r: Request) {
    Holds(r) && (r.pc.AtBatch? || r.pc.AtTail? || r.pc.AtOpen? || (r.pc.Pumping? && r.pc.landed == 0))
  }

  predicate Recorded(r: Request) {
    Holds(r) && (r.pc.AtHead? || r.pc.AtRelease?)
  }

  /** Once id was started it has its claim or its dedup row. */
  ghost predicate Accounted(w: World, id: Id) {
    && (Starts(w.stream, id) > 0 ==> id in w.claims || id in w.dedup)
    && (forall k :: k in w.requests && w.requests[k].id == id && Recorded(w.requests[k]) ==> id in w.dedup)
    && (w.mode.Sweeping? && w.mode.rows != [] && w.mode.at == SweepDelete && w.mode.rows[0] == id ==> id in w.dedup)
  }

  /** id was not started twice, and whoever is about to start it is the first. */
  ghost predicate Once(w: World, id: Id) {
    && Starts(w.stream, id) <= 1
    && (forall k :: k in w.requests && w.requests[k].id == id && BeforeStart(w.requests[k]) ==> Starts(w.stream, id) == 0)
  }

  ghost predicate Single(w: World, id: Id, once: bool) { Accounted(w, id) && (once ==> Once(w, id)) }

  /** How a step that appends changes the counts: at most one start of id more. */
  ghost predicate Counts(stream: seq<Event>, stream': seq<Event>, id: Id, more: nat) {
    forall i :: Starts(stream', i) == Starts(stream, i) + if i == id then more else 0
  }

  lemma CountsAppend(stream: seq<Event>, e: Event, id: Id)
    requires e.MessageStart? ==> e.id == id
    ensures Counts(stream, stream + [e], id, if e.MessageStart? then 1 else 0)
  {
    forall i ensures Starts(stream + [e], i) == Starts(stream, i) + if i == id && e.MessageStart? then 1 else 0 {
      StartsAppend(stream, e, i);
    }
  }

  lemma CountsBatch(stream: seq<Event>, id: Id, sender: Id, content: string)
    ensures Counts(stream, stream + Script(id, sender, [content], true), id, 1)
  {
    forall i ensures Starts(stream + Script(id, sender, [content], true), i) == Starts(stream, i) + if i == id then 1 else 0 {
      StartsBatch(stream, id, sender, content, i);
    }
  }

  /** Request k started its id, which was unstarted and is claimed by k alone. */
  lemma SingleStarted(w: World, w': World, k: Key, more: nat, id: Id, once: bool)
    requires OneHolder(w) && Single(w, id, once) && k in w.requests && more <= 1
    requires w'.(requests := w.requests, stream := w.stream) == w
    requires w'.requests.Keys == w.requests.Keys
    requires forall j :: j in w.requests && j != k ==> w'.requests[j] == w.requests[j]
    requires Counts(w.stream, w'.stream, w.requests[k].id, more)
    requires w'.requests[k].id == w.requests[k].id && w'.requests[k].pc != AtClaim
    requires Holds(w.requests[k]) && w.requests[k].id in w.claims
    requires more == 1 ==> BeforeStart(w.requests[k]) && !BeforeStart(w'.requests[k])
    requires BeforeStart(w'.requests[k]) ==> BeforeStart(w.requests[k])
    requires !Recorded(w'.requests[k])
    ensures Single(w', id, once)
  {
  }

  lemma LandFacts(w: World, k: Key)
    requires Enabled(w, Land(k)) && RequestOk(w, w.requests[k])
    ensures var r := w.requests[k];
            var e := r.pc.sent[r.pc.landed];
            && Holds(r) && r.id in w.claims
            && (e.MessageStart? <==> r.pc.landed == 0) && (e.MessageStart? ==> e.id == r.id)
  {
  }

  lemma SingleLand(w: World, k: Key, id: Id, once: bool)
    requires OneHolder(w) && Single(w, id, once) && Enabled(w, Land(k)) && RequestOk(w, w.requests[k])
    ensures Single(Apply(w, Land(k)), id, once)
  {
    var r := w.requests[k];
    var e := r.pc.sent[r.pc.landed];
    LandFacts(w, k);
    CountsAppend(w.stream, e, r.id);
    SingleStarted(w, Apply(w, Land(k)), k, if e.MessageStart? then 1 else 0, id, once);
  }

  lemma SingleBatch(w: World, k: Key, o: Outcome, id: Id, once: bool)
    requires OneHolder(w) && Single(w, id, once) && Enabled(w, Batch(k, o)) && RequestOk(w, w.requests[k])
    ensures Single(Apply(w, Batch(k, o)), id, once)
  {
    var r := w.requests[k];
    CountsBatch(w.stream, r.id, r.sender, r.text);
    SingleStarted(w, Apply(w, Batch(k, o)), k, if Took(o) then 1 else 0, id, once);
  }

  /** Appending a record that starts nothing. */
  lemma StartsNothing(stream: seq<Event>, e: Event)
    requires !e.MessageStart?
    ensures forall id :: Starts(stream + [e], id) == Starts(stream, id)
  {
    forall id ensures Starts(stream + [e], id) == Starts(stream, id) {
      StartsAppend(stream, e, id);
    }
  }

  lemma SingleAbort(w: World, k: Key, reason: string, o: Outcome, id: Id, once: bool)
    requires Single(w, id, once) && Enabled(w, Abort(k, reason, o))
    ensures Single(Apply(w, Abort(k, reason, o)), id, once)
  {
    if Took(o) { StartsNothing(w.stream, MessageAbort(w.requests[k].id, reason)); }
  }

  lemma SingleAnnounce(w: World, k: Key, o: Outcome, id: Id, once: bool)
    requires Single(w, id, once) && Enabled(w, Announce(k, o)) && RequestOk(w, w.requests[k])
    ensures Single(Apply(w, Announce(k, o)), id, once)
  {
    StartsNothing(w.stream, w.requests[k].kind.event);
  }

  lemma SingleRecord(w: World, k: Key, o: Outcome, id: Id, once: bool)
    requires OneHolder(w) && Single(w, id, once) && Enabled(w, Record(k, o)) && (w.requests[k].id == id ==> Took(o)) && Holds(w.requests[k])
    ensures Single(Apply(w, Record(k, o)), id, once)
  {
  }

  lemma SingleRecordAbort(w: World, k: Key, o: Outcome, id: Id, once: bool)
    requires OneHolder(w) && Single(w, id, once) && Enabled(w, RecordAbort(k, o)) && (w.requests[k].id == id ==> Took(o)) && Holds(w.requests[k])
    ensures Single(Apply(w, RecordAbort(k, o)), id, once)
  {
  }

  lemma SingleRelease(w: World, k: Key, o: Outcome, id: Id, once: bool)
    requires Single(w, id, once) && Enabled(w, Release(k, o)) && Holds(w.requests[k])
    ensures Single(Apply(w, Release(k, o)), id, once)
  {
  }

  lemma SingleClaim(w: World, k: Key, o: Outcome, id: Id, once: bool)
    requires Single(w, id, once) && Enabled(w, Claim(k, o)) && (once ==> Guarded(w, Claim(k, o), id))
    ensures Single(Apply(w, Claim(k, o)), id, once)
  {
  }

  lemma SingleLookup(w: World, a: Action, id: Id, once: bool)
    requires Single(w, id, once) && Enabled(w, a) && a.Lookup?
    ensures Single(Apply(w, a), id, once)
  {
  }

  predicate Plain(a: Action) {
    !System(a) && !a.Land? && !a.Batch? && !a.Abort? && !a.Announce? && !a.Record? && !a.RecordAbort?
    && !a.Release? && !a.Claim? && !a.Lookup?
  }

  /** The effect of such a step. */
  ghost predicate Quiet(w: World, k: Key, w': World)
  {
    && w'.(requests := w.requests, head := w.head, acks := w.acks) == w
    && (forall j :: j in w'.requests ==> j in w.requests && w'.requests[j].id == w.requests[j].id)
    && (forall j :: j in w'.requests && j != k ==> w'.requests[j] == w.requests[j])
    && (k in w'.requests ==>
          var r, r' := w.requests[k], w'.requests[k];
          && r'.pc != AtClaim && (BeforeStart(r') ==> BeforeStart(r)) && (Recorded(r') ==> Recorded(r)))
  }

  lemma SubmitQuiet(w: World, a: Action)
    requires Enabled(w, a) && (a.SubmitStart? || a.SubmitChunk? || a.SubmitEnd?)
    ensures Quiet(w, a.k, Apply(w, a))
  {
  }

  lemma OpeningQuiet(w: World, a: Action)
    requires Enabled(w, a) && (a.Tail? || a.Open?)
    ensures Quiet(w, a.k, Apply(w, a))
  {
  }

  lemma ClosingQuiet(w: World, a: Action)
    requires Enabled(w, a) && (a.Quit? || a.CloseOk? || a.TailAfter?)
    ensures Quiet(w, a.k, Apply(w, a))
  {
  }

  lemma PumpQuiet(w: World, a: Action)
    requires Enabled(w, a) && (a.Tail? || a.Open? || a.Quit? || a.CloseOk? || a.TailAfter?)
    ensures Quiet(w, a.k, Apply(w, a))
  {
    if a.Tail? || a.Open? { OpeningQuiet(w, a); } else { ClosingQuiet(w, a); }
  }

  lemma MinorQuiet(w: World, a: Action)
    requires Enabled(w, a) && Plain(a) && !Pumps(a)
    ensures Quiet(w, a.k, Apply(w, a))
  {
  }

  lemma SingleSystem(w: World, a: Action, id: Id, once: bool)
    requires Single(w, id, once) && Enabled(w, a) && (InsertsFor(w, a, id) ==> Inserted(a)) && System(a)
    requires w.mode != Serving ==> w.requests == map[]
    ensures Single(Apply(w, a), id, once)
  {
    if a.AbortRow? { StartsNothing(w.stream, MessageAbort(w.mode.rows[0], "server_crash")); }
  }

  lemma SinglePlain(w: World, a: Action, id: Id, once: bool)
    requires Single(w, id, once) && Enabled(w, a) && Plain(a)
    ensures Single(Apply(w, a), id, once)
  {
    if a.SubmitStart? || a.SubmitChunk? || a.SubmitEnd? { SubmitQuiet(w, a); }
    else if Pumps(a) { PumpQuiet(w, a); }
    else { MinorQuiet(w, a); }
    QuietSingle(w, a.k, Apply(w, a), id, once);
  }

  lemma QuietSingle(w: World, k: Key, w': World, id: Id, once: bool)
    requires Single(w, id, once) && Quiet(w, k, w')
    ensures Single(w', id, once)
  {
  }

  lemma SingleStep(w: World, a: Action, id: Id, once: bool)
    requires Inv(w) && Single(w, id, once) && Enabled(w, a) && (InsertsFor(w, a, id) ==> Inserted(a)) && (once ==> Guarded(w, a, id))
    ensures Single(Apply(w, a), id, once)
  {
    if a.Land? { assert RequestOk(w, w.requests[a.k]); SingleLand(w, a.k, id, once); }
    else if a.Batch? { assert RequestOk(w, w.requests[a.k]); SingleBatch(w, a.k, a.o, id, once); }
    else if a.Abort? { SingleAbort(w, a.k, a.reason, a.o, id, once); }
    else if a.Announce? { assert RequestOk(w, w.requests[a.k]); SingleAnnounce(w, a.k, a.o, id, once); }
    else if a.Record? { assert RequestOk(w, w.requests[a.k]); SingleRecord(w, a.k, a.o, id, once); }
    else if a.RecordAbort? { assert RequestOk(w, w.requests[a.k]); SingleRecordAbort(w, a.k, a.o, id, once); }
    else if a.Release? { assert RequestOk(w, w.requests[a.k]); SingleRelease(w, a.k, a.o, id, once); }
    else if a.Claim? { SingleClaim(w, a.k, a.o, id, once); }
    else if a.Lookup? { SingleLookup(w, a, id, once); }
    else if System(a) { SingleSystem(w, a, id, once); }
    else { SinglePlain(w, a, id, once); }
  }

  lemma {:induction false} SingleRun(run: seq<Action>, id: Id, once: bool)
    requires Legal(INIT, run) && InsertsLand(run, id) && (once ==> ClaimsGuarded(run, id))
    ensures Single(Exec(INIT, run), id, once)
  {
    if run != [] {
      var front := run[..|run| - 1];
      assert forall i :: 0 <= i < |front| ==> front[..i] == run[..i];
      SingleRun(front, id, once);
      InvRun(front);
      SingleStep(Exec(INIT, front), run[|run| - 1], id, once);
    }
  }

  /** At most once per id, from the guard: for any number of retries, failures,
      crashes, sweeps and overtakings, if the dedup inserts for an id take effect
      and every claim won on it finds no dedup row, the stream holds at most one
      message_start for it, whatever happens to other ids. */
  lemma GuardedStartsOnce(run: seq<Action>, id: Id)
    requires Legal(INIT, run) && InsertsLand(run, id) && ClaimsGuarded(run, id)
    ensures Starts(Exec(INIT, run).stream, id) <= 1
  {
    SingleRun(run, id, true);
  }

  /** No request that passed its lookup of id has a dedup row meanwhile. */
  ghost predicate Untold(w: World, id: Id) {
    forall k :: Waiting(w, k, id) ==> id !in w.dedup
  }

  /** Who waits to claim after a step did so before, or has just looked up. */
  ghost predicate Waiters(w: World, w': World) {
    forall k :: k in w'.requests && w'.requests[k].pc == AtClaim ==>
      k in w.requests && w.requests[k].id == w'.requests[k].id
      && (w.requests[k].pc == AtClaim || w'.requests[k].id !in w.dedup)
  }

  lemma PumpWaiters(w: World, a: Action)
    requires Enabled(w, a) && Pumps(a)
    ensures Waiters(w, Apply(w, a))
  {
    if a.SubmitStart? || a.SubmitChunk? || a.SubmitEnd? { SubmitQuiet(w, a); }
    else if !a.Land? { PumpQuiet(w, a); }
  }

  lemma SweepWaiters(w: World, a: Action)
    requires Enabled(w, a) && Sweeps(a)
    ensures Waiters(w, Apply(w, a))
  {
  }

  lemma FirstCallWaiters(w: World, a: Action)
    requires Enabled(w, a) && (a.Begin? || a.Lookup? || a.Claim? || a.Batch?)
    ensures Waiters(w, Apply(w, a))
  {
  }

  lemma EndingWaiters(w: World, a: Action)
    requires Enabled(w, a) && (a.Record? || a.RecordAbort? || a.Abort? || a.Release?)
    ensures Waiters(w, Apply(w, a))
  {
  }

  lemma CursorWaiters(w: World, a: Action)
    requires Enabled(w, a) && (a.Head? || a.Announce? || a.AckRead? || a.AckWrite?)
    ensures Waiters(w, Apply(w, a))
  {
  }

  lemma CallWaiters(w: World, a: Action)
    requires Enabled(w, a) && !Pumps(a) && !Sweeps(a)
    ensures Waiters(w, Apply(w, a))
  {
    if a.Begin? || a.Lookup? || a.Claim? || a.Batch? { FirstCallWaiters(w, a); }
    else if a.Record? || a.RecordAbort? || a.Abort? || a.Release? { EndingWaiters(w, a); }
    else { CursorWaiters(w, a); }
  }

  lemma UntoldOther(w: World, a: Action, id: Id)
    requires Enabled(w, a) && Inserts(a) && !InsertsFor(w, a, id)
    ensures id in Apply(w, a).dedup ==> id in w.dedup
  {
  }

  lemma UntoldInsert(w: World, a: Action, id: Id)
    requires Untold(w, id) && Enabled(w, a) && NotOvertaking(w, a, id) && (a.Record? || a.RecordAbort?)
    ensures Untold(Apply(w, a), id)
  {
    CallWaiters(w, a);
    if !InsertsFor(w, a, id) { UntoldOther(w, a, id); }
    forall k | Waiting(Apply(w, a), k, id) ensures id !in Apply(w, a).dedup {
      assert Waiting(w, k, id) || id !in w.dedup;
    }
  }

  lemma UntoldRow(w: World, o: Outcome, id: Id)
    requires Enabled(w, RecordRow(o)) && (w.mode != Serving ==> w.requests == map[])
    ensures Untold(Apply(w, RecordRow(o)), id)
  {
  }

  /** Without an insert there is nothing new to be told. */
  lemma UntoldSame(w: World, w': World, id: Id)
    requires Untold(w, id) && Waiters(w, w') && w'.dedup == w.dedup
    ensures Untold(w', id)
  {
    forall k | Waiting(w', k, id) ensures id !in w.dedup {
      assert Waiting(w, k, id) || id !in w.dedup;
    }
  }

  lemma UntoldStep(w: World, a: Action, id: Id)
    requires Inv(w) && Untold(w, id) && Enabled(w, a) && NotOvertaking(w, a, id)
    ensures Untold(Apply(w, a), id)
  {
    if a.Record? || a.RecordAbort? { UntoldInsert(w, a, id); }
    else if a.RecordRow? { UntoldRow(w, a.o, id); }
    else {
      if Pumps(a) { PumpWaiters(w, a); PumpKeeps(w, a); }
      else {
        RowsSame(w, a);
        if Sweeps(a) { SweepWaiters(w, a); } else { CallWaiters(w, a); }
      }
      UntoldSame(w, Apply(w, a), id);
    }
  }

  lemma {:induction false} UntoldRun(run: seq<Action>, id: Id)
    requires Legal(INIT, run) && NoOvertaking(run, id)
    ensures Untold(Exec(INIT, run), id)
  {
    if run != [] {
      var front := run[..|run| - 1];
      assert forall i :: 0 <= i < |front| ==> front[..i] == run[..i];
      UntoldRun(front, id);
      InvRun(front);
      UntoldStep(Exec(INIT, front), run[|run| - 1], id);
    }
  }

  /** And from the order of the calls: if no request finalizes the id between
      another one's lookup and claim, every claim on it is guarded, so the stream
      holds at most one message_start for it. */
  lemma AtMostOneStart(run: seq<Action>, id: Id)
    requires Legal(INIT, run) && InsertsLand(run, id) && NoOvertaking(run, id)
    ensures Starts(Exec(INIT, run).stream, id) <= 1
  {
    forall i | 0 <= i < |run| && Legal(INIT, run[..i]) ensures Guarded(Exec(INIT, run[..i]), run[i], id) {
      GuardedHere(run, i, id);
    }
    GuardedStartsOnce(run, id);
  }

  lemma {:induction false} EnabledAt(run: seq<Action>, i: nat)
    requires Legal(INIT, run) && i < |run|
    ensures Legal(INIT, run[..i]) && Enabled(Exec(INIT, run[..i]), run[i])
  {
    if i < |run| - 1 {
      EnabledAt(run[..|run| - 1], i);
      assert run[..|run| - 1][..i] == run[..i];
    }
  }

  lemma GuardedHere(run: seq<Action>, i: nat, id: Id)
    requires Legal(INIT, run) && i < |run| && Legal(INIT, run[..i]) && NoOvertaking(run, id)
    ensures Guarded(Exec(INIT, run[..i]), run[i], id)
  {
    var front := run[..i];
    assert forall j :: 0 <= j < i ==> front[..j] == run[..j];
    UntoldRun(front, id);
    EnabledAt(run, i);
    UntoldGuards(Exec(INIT, front), run[i], id);
  }

  lemma UntoldGuards(w: World, a: Action, id: Id)
    requires Untold(w, id) && Enabled(w, a)
    ensures Guarded(w, a, id)
  {
    if a.Claim? && w.requests[a.k].id == id { assert Waiting(w, a.k, id); }
  }

  // ------------------------------------------------------------------
  // What decides whether a claim is harmless
  // ------------------------------------------------------------------

  lemma {:induction false} Started(stream: seq<Event>, i: nat, id: Id)
    requires i < |stream| && stream[i].MessageStart? && stream[i].id == id
    ensures Starts(stream, id) >= 1
  {
    if i < |stream| - 1 { Started(stream[..|stream| - 1], i, id); }
  }

  lemma CompleteRowStarted(w: World, id: Id)
    requires Inv(w) && id in w.dedup && w.dedup[id].CompleteRow?
    ensures Starts(w.stream, id) >= 1
  {
    assert RowOk(w, id, w.dedup[id]);
    var m :| Fits(w, id, w.dedup[id].start, w.dedup[id].end, m);
    CompleteIsBracketed(w.stream, m);
    Started(w.stream, m.seqStart, id);
  }

  /** The calls from a claim to the start on the stream, all succeeding. */
  function StartCalls(k: Key, kind: Kind): seq<Action> {
    if kind.Whole? then [Claim(k, Ok)] + [Batch(k, Ok)]
    else [Claim(k, Ok)] + [Tail(k, true)] + [Open(k, true)] + [SubmitStart(k)] + [Land(k)]
  }

  lemma WholeStarts(w: World, k: Key)
    requires At(w, k, AtClaim) && w.requests[k].kind.Whole? && w.requests[k].id !in w.claims
    ensures var calls := StartCalls(k, w.requests[k].kind);
            Legal(w, calls) && Starts(Exec(w, calls).stream, w.requests[k].id) == Starts(w.stream, w.requests[k].id) + 1
  {
    var r := w.requests[k];
    ExecOne(w, Claim(k, Ok));
    Extend(w, [Claim(k, Ok)], Batch(k, Ok));
    StartsBatch(w.stream, r.id, r.sender, r.text, r.id);
  }

  lemma StreamOpens(w: World, k: Key)
    requires At(w, k, AtClaim) && w.requests[k].kind.Streamed? && w.requests[k].id !in w.claims
    ensures var calls, r := [Claim(k, Ok)] + [Tail(k, true)] + [Open(k, true)], w.requests[k];
            && Legal(w, calls) && Exec(w, calls).stream == w.stream
            && k in Exec(w, calls).requests && Exec(w, calls).requests[k] == r.(pc := Pumping(|w.stream|, [], 0))
  {
    ExecOne(w, Claim(k, Ok));
    Extend(w, [Claim(k, Ok)], Tail(k, true));
    Extend(w, [Claim(k, Ok)] + [Tail(k, true)], Open(k, true));
  }

  lemma StreamStarts(w: World, k: Key)
    requires At(w, k, AtClaim) && w.requests[k].kind.Streamed? && w.requests[k].id !in w.claims
    ensures var calls := StartCalls(k, w.requests[k].kind);
            Legal(w, calls) && Starts(Exec(w, calls).stream, w.requests[k].id) == Starts(w.stream, w.requests[k].id) + 1
  {
    var opening, r := [Claim(k, Ok)] + [Tail(k, true)] + [Open(k, true)], w.requests[k];
    StreamOpens(w, k);
    Extend(w, opening, SubmitStart(k));
    Extend(w, opening + [SubmitStart(k)], Land(k));
    StartsAppend(w.stream, MessageStart(r.id, r.sender), r.id);
  }

  /** What decides whether a claim is harmless, at the guard a handler could
      check when it has won it. After any run whose dedup inserts for the id take
      effect, with overtaking allowed: if there is no dedup row then, the start that
      follows is the only one; if there is a complete row, it is always a second
      one; so unless the row is an aborted one it is harmless iff there is none. */
  lemma ClaimDecides(run: seq<Action>, k: Key)
    requires Legal(INIT, run) && At(Exec(INIT, run), k, AtClaim)
    requires var w := Exec(INIT, run); w.requests[k].id !in w.claims && InsertsLand(run, w.requests[k].id)
    ensures var w := Exec(INIT, run);
            var id, calls := w.requests[k].id, StartCalls(k, w.requests[k].kind);
            && Legal(w, calls)
            && (id !in w.dedup ==> Starts(Exec(w, calls).stream, id) == 1)
            && (id in w.dedup && w.dedup[id].CompleteRow? ==> Starts(Exec(w, calls).stream, id) >= 2)
            && (!(id in w.dedup && w.dedup[id].AbortedRow?) ==>
                  (Starts(Exec(w, calls).stream, id) <= 1 <==> id !in w.dedup))
  {
    var w := Exec(INIT, run);
    InvRun(run);
    SingleRun(run, w.requests[k].id, false);
    assert RequestOk(w, w.requests[k]);
    if w.requests[k].kind.Whole? { WholeStarts(w, k); } else { StreamStarts(w, k); }
    if w.requests[k].id in w.dedup && w.dedup[w.requests[k].id].CompleteRow? { CompleteRowStarted(w, w.requests[k].id); }
  }

  /** An aborted row decides nothing by itself: from any serving state, for any
      unused id, an overtaken request can find one with the start on the stream
      (took) or without it, depending on whether the failed append landed. */
  lemma AbortedRowLeavesOpen(w: World, k: Key, k': Key, id: Id, sender: Id, content: string, took: bool) returns (run: seq<Action>)
    requires w.mode == Serving && k !in w.requests && k' !in w.requests && k != k' && content != ""
    requires id !in w.claims && id !in w.dedup
    ensures Legal(w, run) && forall i :: 0 <= i < |run| ==> Inserted(run[i])
    ensures var v := Exec(w, run);
            && At(v, k, AtClaim) && v.requests[k].id == id && id !in v.claims
            && id in v.dedup && v.dedup[id] == AbortedRow
            && Starts(v.stream, id) == Starts(w.stream, id) + if took then 1 else 0
  {
    var first := Begin(k, id, sender, Whole(content));
    ExecOne(w, first);
    Extend(w, [first], Lookup(k, true));
    var early := [first] + [Lookup(k, true)];
    var other := SendFails(Exec(w, early), k', id, sender, content, took);
    ExecConcat(w, early, other);
    run := early + other;
  }

  /** One request whose append fails, and its cleanup. */
  lemma SendFails(w: World, k: Key, id: Id, sender: Id, content: string, took: bool) returns (run: seq<Action>)
    requires w.mode == Serving && k !in w.requests && content != ""
    requires id !in w.claims && id !in w.dedup
    ensures Legal(w, run) && forall i :: 0 <= i < |run| ==> Inserted(run[i])
    ensures var v := Exec(w, run);
            && v.requests == w.requests && id !in v.claims && id in v.dedup && v.dedup[id] == AbortedRow
            && Starts(v.stream, id) == Starts(w.stream, id) + if took then 1 else 0
  {
    var claims := SendClaims(w, k, id, sender, content);
    var v := Exec(w, claims);
    var rest := SendAborts(v, k, took);
    ExecConcat(w, claims, rest);
    run := claims + rest;
  }

  lemma SendAborts(w: World, k: Key, took: bool) returns (run: seq<Action>)
    requires At(w, k, AtBatch)
    ensures Legal(w, run) && forall i :: 0 <= i < |run| ==> Inserted(run[i])
    ensures var id, v := w.requests[k].id, Exec(w, run);
            && v.requests == w.requests - {k} && id !in v.claims
            && v.dedup == InsertRow(w.dedup, id, AbortedRow)
            && Starts(v.stream, id) == Starts(w.stream, id) + if took then 1 else 0
  {
    var o := if took then FailedButApplied else Failed;
    var v := BatchFails(w, k, o);
    ExecOne(w, Batch(k, o));
    var cleans := CleanCalls(k);
    var x := Cleaned(v, k);
    ExecConcat(w, [Batch(k, o)], cleans);
    run := [Batch(k, o)] + cleans;
  }

  lemma BatchFails(w: World, k: Key, o: Outcome) returns (v: World)
    requires At(w, k, AtBatch) && o != Ok
    ensures v == Apply(w, Batch(k, o)) && At(v, k, AtAbort) && v.requests[k].id == w.requests[k].id
    ensures v.requests - {k} == w.requests - {k} && v.claims == w.claims && v.dedup == w.dedup
    ensures Starts(v.stream, w.requests[k].id) == Starts(w.stream, w.requests[k].id) + if Took(o) then 1 else 0
  {
    v := Apply(w, Batch(k, o));
    StartsBatch(w.stream, w.requests[k].id, w.requests[k].sender, w.requests[k].text, w.requests[k].id);
  }

  function CleanCalls(k: Key): (calls: seq<Action>)
    ensures forall i :: 0 <= i < |calls| ==> Inserted(calls[i])
  {
    [Abort(k, "", Ok), RecordAbort(k, Ok), Release(k, Ok)]
  }

  lemma Cleaned(w: World, k: Key) returns (v: World)
    requires At(w, k, AtAbort)
    ensures Legal(w, CleanCalls(k)) && v == Exec(w, CleanCalls(k))
    ensures var id := w.requests[k].id;
            && v.requests == w.requests - {k} && v.claims == w.claims - {id}
            && v.dedup == InsertRow(w.dedup, id, AbortedRow) && Starts(v.stream, id) == Starts(w.stream, id)
  {
    v := CleanEffect(w, k);
    ExecThree(w, Abort(k, "", Ok), RecordAbort(k, Ok), Release(k, Ok));
  }

  lemma CleanAbort(w: World, k: Key) returns (v: World)
    requires At(w, k, AtAbort)
    ensures v == Apply(w, Abort(k, "", Ok)) && At(v, k, AtRecordAbort) && v.requests[k].id == w.requests[k].id
    ensures v.requests - {k} == w.requests - {k} && v.claims == w.claims && v.dedup == w.dedup
    ensures v.stream == w.stream + [MessageAbort(w.requests[k].id, "")]
  {
    v := Apply(w, Abort(k, "", Ok));
  }

  lemma CleanRecord(w: World, k: Key) returns (v: World)
    requires At(w, k, AtRecordAbort)
    ensures v == Apply(w, RecordAbort(k, Ok)) && At(v, k, AtRelease) && v.requests[k].id == w.requests[k].id
    ensures v.requests - {k} == w.requests - {k} && v.claims == w.claims && v.stream == w.stream
    ensures v.dedup == InsertRow(w.dedup, w.requests[k].id, AbortedRow)
  {
    v := Apply(w, RecordAbort(k, Ok));
  }

  lemma CleanRelease(w: World, k: Key) returns (v: World)
    requires At(w, k, AtRelease)
    ensures v == Apply(w, Release(k, Ok))
    ensures v.requests == w.requests - {k} && v.claims == w.claims - {w.requests[k].id}
    ensures v.stream == w.stream && v.dedup == w.dedup
  {
    v := Apply(w, Release(k, Ok));
  }

  lemma CleanEffect(w: World, k: Key) returns (v: World)
    requires At(w, k, AtAbort)
    ensures Enabled(w, Abort(k, "", Ok)) && Enabled(Apply(w, Abort(k, "", Ok)), RecordAbort(k, Ok))
    ensures Enabled(Apply(Apply(w, Abort(k, "", Ok)), RecordAbort(k, Ok)), Release(k, Ok))
    ensures v == Apply(Apply(Apply(w, Abort(k, "", Ok)), RecordAbort(k, Ok)), Release(k, Ok))
    ensures var id := w.requests[k].id;
            && v.requests == w.requests - {k} && v.claims == w.claims - {id}
            && v.dedup == InsertRow(w.dedup, id, AbortedRow) && Starts(v.stream, id) == Starts(w.stream, id)
  {
    var x := CleanAbort(w, k);
    StartsAppend(w.stream, MessageAbort(w.requests[k].id, ""), w.requests[k].id);
    var y := CleanRecord(x, k);
    v := CleanRelease(y, k);
    TakenOut(w.requests, x.requests, y.requests, k);
  }

  lemma TakenOut(a: map<Key, Request>, b: map<Key, Request>, c: map<Key, Request>, k: Key)
    requires b - {k} == a - {k} && c - {k} == b - {k}
    ensures c - {k} == a - {k}
  {
  }

  lemma Extend(w: World, run: seq<Action>, a: Action)
    requires Legal(w, run) && Enabled(Exec(w, run), a)
    ensures Legal(w, run + [a]) && Exec(w, run + [a]) == Apply(Exec(w, run), a)
  {
    assert (run + [a])[..|run|] == run;
  }

  /** One request alone, up to its claim. */
  lemma SendClaims(w: World, k: Key, id: Id, sender: Id, content: string) returns (run: seq<Action>)
    requires w.mode == Serving && k !in w.requests && content != ""
    requires id !in w.claims && id !in w.dedup
    ensures Legal(w, run) && forall i :: 0 <= i < |run| ==> Inserted(run[i])
    ensures var w' := Exec(w, run);
            && w'.mode == Serving && w'.stream == w.stream && w'.claims == w.claims + {id} && w'.dedup == w.dedup
            && w'.requests == w.requests[k := Request(id, sender, Whole(content), content, AtBatch)]
  {
    run := [Begin(k, id, sender, Whole(content))];
    ExecOne(w, run[0]);
    Extend(w, run, Lookup(k, true));
    run := run + [Lookup(k, true)];
    Extend(w, run, Claim(k, Ok));
    run := run + [Claim(k, Ok)];
  }

  /** And its append. */
  lemma SendStarts(w: World, k: Key, id: Id, sender: Id, content: string) returns (run: seq<Action>)
    requires w.mode == Serving && k !in w.requests && content != ""
    requires id !in w.claims && id !in w.dedup
    ensures Legal(w, run)
    ensures var w' := Exec(w, run);
            && w'.mode == Serving && k in w'.requests && w'.requests == w.requests[k := w'.requests[k]]
            && w'.requests[k].pc.AtRecord? && w'.requests[k].id == id && w'.requests[k].kind == Whole(content)
            && w'.claims == w.claims + {id} && Starts(w'.stream, id) == Starts(w.stream, id) + 1
  {
    run := SendClaims(w, k, id, sender, content);
    StartsBatch(w.stream, id, sender, content, id);
    Extend(w, run, Batch(k, Ok));
    run := run + [Batch(k, Ok)];
  }

  /** And from there to its reply. */
  lemma SendConcludes(w: World, k: Key) returns (run: seq<Action>)
    requires w.mode == Serving && k in w.requests && w.requests[k].pc.AtRecord? && w.requests[k].kind.Whole?
    ensures Legal(w, run)
    ensures var w' := Exec(w, run);
            && w'.mode == Serving && w'.requests == w.requests - {k} && w'.stream == w.stream
            && w'.claims == w.claims - {w.requests[k].id}
  {
    run := [Record(k, Ok)];
    ExecOne(w, run[0]);
    Extend(w, run, Head(k, Ok));
    run := run + [Head(k, Ok)];
    Extend(w, run, Release(k, Ok));
    run := run + [Release(k, Ok)];
  }

  /** One request alone: begin, look up, claim, append, record, release. */
  lemma SendAlone(w: World, k: Key, id: Id, sender: Id, content: string) returns (run: seq<Action>)
    requires w.mode == Serving && k !in w.requests && content != ""
    requires id !in w.claims && id !in w.dedup
    ensures Legal(w, run)
    ensures var w' := Exec(w, run);
            && w'.mode == Serving && w'.requests == w.requests && id !in w'.claims
            && Starts(w'.stream, id) == Starts(w.stream, id) + 1
  {
    var x := SendStarts(w, k, id, sender, content);
    var y := SendConcludes(Exec(w, x), k);
    ExecConcat(w, x, y);
    run := x + y;
  }

  /** The premise on overtaking is needed: from any serving state, for any
      unused id, a request that looked up before another one finished the same
      id starts it a second time. */
  lemma OvertakingStartsTwice(w: World, k: Key, k': Key, id: Id, sender: Id, content: string) returns (run: seq<Action>)
    requires Inv(w) && w.mode == Serving && k !in w.requests && k' !in w.requests && k != k' && content != ""
    requires id !in w.claims && id !in w.dedup
    ensures Legal(w, run) && Starts(Exec(w, run).stream, id) >= 2
  {
    var first := Begin(k, id, sender, Whole(content));
    ExecOne(w, first);
    Extend(w, [first], Lookup(k, true));
    var early := [first] + [Lookup(k, true)];
    var w1 := Exec(w, early);
    var other := SendAlone(w1, k', id, sender, content);
    ExecConcat(w, early, other);
    run := early + other;
    assert At(Exec(w, run), k, AtClaim);
    var again := StartCalls(k, Whole(content));
    WholeStarts(Exec(w, run), k);
    ExecConcat(w, run, again);
    run := run + again;
  }
}
