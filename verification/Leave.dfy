/** Leaving a conversation: the leave handler against running writes, the
    resident agent's listener and its responses. */
module Leave {
  import opened Common
  import opened Events
  import R = Registry

  /** Who put a record on the stream. */
  datatype Record = ByWriter(token: nat) | ByResponse(token: nat) | Left

  /** The resident agent's listener of this conversation: its loop may have
      exited, and then, with all responses finished, closed its done channel. */
  datatype Listener = Listener(id: nat, cancelled: bool, exited: bool, done: bool)

  /** Where the leave handler is, with what was running when it looked: the
      writes alone with their entry at LookupAndCancel, the responses at
      NotifyLeave. */
  datatype Pc =
    | Away
    | Waiting(waits: set<nat>, writers: set<nat>)
    | Draining(writers: set<nat>, awaits: Option<nat>, responses: set<nat>)
    | Gone(writers: set<nat>, responses: set<nat>, at: nat)

  /** Which waits of a leave timed out. */
  datatype Flags = Flags(writersLate: bool, responsesLate: bool)

  datatype World = World(
    conns: R.World,
    stream: seq<Record>,
    listener: Option<Listener>,
    finished: set<nat>,           // listeners whose done channel is closed
    running: set<nat>,            // responses counted by responseWg
    nextResponse: nat,
    nextListener: nat,
    pc: Pc,
    flags: Flags)

  const INIT := World(R.IDLE, [], None, {}, {}, 0, 0, Away, Flags(false, false))

  datatype Action =
    | Conn(a: R.Action)
    | Write(t: nat)
    | StartListener
    | Cancel
    | LoopExits
    | ListenerDone
    | ListenerRemoved
    | Trigger
    | Answer(r: nat)
    | ResponseDone(r: nat)
    | LookUp
    | Notify(timedOut: bool)
    | Depart(timedOut: bool)
    | GiveUp

  /** Running writes of the pair that have their entry alone. */
  function Writers(w: R.World, key: R.Key): set<nat> {
    set t | t in w.handlers && R.Writer(w, key, t) && R.Alone(w, t)
  }

  /** key is the leaving pair, resident whether it is the resident agent. */
  predicate Enabled(w: World, a: Action, key: R.Key, resident: bool) {
    match a
    case Conn(a) => R.Enabled(w.conns, a)
    case Write(t) => t in w.conns.handlers && w.conns.handlers[t].Writing? && w.conns.handlers[t].key.conv == key.conv
    case StartListener => w.listener.None?
    case Cancel => w.listener.Some?
    case LoopExits => w.listener.Some? && w.listener.value.cancelled
    case ListenerDone => w.listener.Some? && w.listener.value.exited && !w.listener.value.done && w.running == {}
    case ListenerRemoved => w.listener.Some? && w.listener.value.done
    case Trigger => w.listener.Some? && !w.listener.value.exited
    case Answer(r) => r in w.running
    case ResponseDone(r) => r in w.running
    case LookUp => w.pc.Away? || w.pc.Gone?
    case Notify(timedOut) => w.pc.Waiting? && (timedOut || w.pc.waits <= w.conns.reg.closed)
    case Depart(timedOut) =>
      w.pc.Draining? && (timedOut || w.pc.awaits.None? || w.pc.awaits.value in w.finished)
    case GiveUp => w.pc.Draining?
  }

  function Apply(w: World, a: Action, key: R.Key, resident: bool): World
    requires Enabled(w, a, key, resident)
  {
    match a
    case Conn(a) => w.(conns := R.Apply(w.conns, a))
    case Write(t) => w.(stream := w.stream + [ByWriter(t)])
    case StartListener =>
      w.(listener := Some(Listener(w.nextListener, false, false, false)), nextListener := w.nextListener + 1)
    case Cancel => w.(listener := Some(w.listener.value.(cancelled := true)))
    case LoopExits => w.(listener := Some(w.listener.value.(exited := true)))
    case ListenerDone =>
      w.(listener := Some(w.listener.value.(done := true)), finished := w.finished + {w.listener.value.id})
    case ListenerRemoved => w.(listener := None)
    case Trigger => w.(running := w.running + {w.nextResponse}, nextResponse := w.nextResponse + 1)
    case Answer(r) => w.(stream := w.stream + [ByResponse(r)])
    case ResponseDone(r) => w.(running := w.running - {r})
    case LookUp =>
      w.(pc := Waiting(R.Entries(w.conns.reg, key), Writers(w.conns, key)),
         conns := R.Apply(w.conns, R.Lookup(key)), flags := Flags(false, false))
    case Notify(timedOut) =>
      var pc := Draining(w.pc.writers, if resident && w.listener.Some? then Some(w.listener.value.id) else None,
                         if resident then w.running else {});
      var v := w.(pc := pc, flags := w.flags.(writersLate := timedOut));
      if pc.awaits.Some? then v.(listener := Some(w.listener.value.(cancelled := true))) else v
    case Depart(timedOut) =>
      w.(pc := Gone(w.pc.writers, w.pc.responses, |w.stream|), stream := w.stream + [Left],
         flags := w.flags.(responsesLate := timedOut))
    case GiveUp => w.(pc := Away)
  }

  ghost predicate Legal(w: World, acts: seq<Action>, key: R.Key, resident: bool)
    decreases |acts|, 0
  {
    acts == [] ||
    (Legal(w, acts[..|acts| - 1], key, resident)
     && Enabled(Exec(w, acts[..|acts| - 1], key, resident), acts[|acts| - 1], key, resident))
  }

  ghost function Exec(w: World, acts: seq<Action>, key: R.Key, resident: bool): World
    requires Legal(w, acts, key, resident)
    decreases |acts|, 1
  {
    if acts == [] then w
    else Apply(Exec(w, acts[..|acts| - 1], key, resident), acts[|acts| - 1], key, resident)
  }

  /** Responses run only under a listener that has not closed its channel. */
  ghost predicate Listens(w: World) {
    && (forall r :: r in w.running ==> r < w.nextResponse)
    && (forall l :: l in w.finished ==> l < w.nextListener)
    && (w.listener.None? ==> w.running == {})
    && (w.listener.Some? ==>
          var l := w.listener.value;
          && l.id < w.nextListener && (l.done ==> l.exited && w.running == {}) && (l.done <==> l.id in w.finished))
  }

  /** Responses this leave waits for still run under the listener it waits for. */
  ghost predicate Awaited(w: World) {
    w.pc.Draining? ==>
      && (forall r :: r in w.pc.responses ==> r < w.nextResponse)
      && (w.pc.responses !! w.running
          || (w.pc.awaits.Some? && w.listener.Some? && w.listener.value.id == w.pc.awaits.value))
      && (w.pc.awaits.Some? ==>
            || w.pc.awaits.value in w.finished
            || (w.listener.Some? && w.listener.value.id == w.pc.awaits.value && w.listener.value.cancelled))
  }

  /** Whoever the leave waits for has been told to stop. */
  ghost predicate Told(w: World) {
    && (w.pc.Waiting? ==> w.pc.waits <= w.conns.reg.cancelled)
    && (!w.pc.Away? ==> w.pc.writers <= w.conns.reg.cancelled)
  }

  /** Writers this leave waits for have entries among those it collected, each
      to itself, and afterwards are gone. */
  ghost predicate Waited(w: World) {
    && (!w.pc.Away? ==> forall t :: t in w.pc.writers ==> t < w.conns.reg.next)
    && (w.pc.Waiting? ==>
          forall t :: t in w.pc.writers ==> t in w.pc.waits && R.Sole(w.conns, t))
    && ((w.pc.Draining? || w.pc.Gone?) && !w.flags.writersLate ==> w.pc.writers !! w.conns.handlers.Keys)
  }

  /** After agent_left: nothing from the writers the leave waited for. */
  ghost predicate WritersSilent(w: World) {
    w.pc.Gone? && !w.flags.writersLate ==>
      forall i :: w.pc.at < i < |w.stream| && w.stream[i].ByWriter? ==> w.stream[i].token !in w.pc.writers
  }

  /** Nor from the responses. */
  ghost predicate ResponsesSilent(w: World) {
    w.pc.Gone? && !w.flags.responsesLate ==>
      && w.pc.responses !! w.running
      && forall i :: w.pc.at < i < |w.stream| && w.stream[i].ByResponse? ==> w.stream[i].token !in w.pc.responses
  }

  ghost predicate Departed(w: World) {
    w.pc.Gone? ==>
      && w.pc.at < |w.stream| && w.stream[w.pc.at] == Left
      && forall r :: r in w.pc.responses ==> r < w.nextResponse
  }

  ghost predicate Inv(w: World) {
    && R.Inv(w.conns) && Listens(w) && Awaited(w) && Waited(w) && Told(w)
    && Departed(w) && WritersSilent(w) && ResponsesSilent(w)
  }

  lemma ConnStep(w: World, a: R.Action, key: R.Key, resident: bool)
    requires Inv(w) && R.Enabled(w.conns, a)
    ensures Inv(Apply(w, Conn(a), key, resident))
  {
    InvOne(w.conns, a);
    var c := R.Apply(w.conns, a);
    assert w.conns.reg.cancelled <= c.reg.cancelled;
    assert forall t :: t in c.handlers && t < w.conns.reg.next ==> t in w.conns.handlers;
    if w.pc.Waiting? {
      forall t | t in w.pc.writers ensures R.Sole(c, t) {
        R.SoleStep(w.conns, a, t);
      }
    }
  }

  lemma InvOne(w: R.World, a: R.Action)
    requires R.Inv(w) && R.Enabled(w, a)
    ensures R.Inv(R.Apply(w, a))
  {
    match a
    case OpenWrite(key, msg) => R.InvOpenWrite(w, key, msg);
    case CloseWrite(t) => R.InvCloseWrite(w, t);
    case _ => R.InvTail(w, a);
  }

  lemma LookUpStep(w: World, key: R.Key, resident: bool)
    requires Inv(w) && Enabled(w, LookUp, key, resident)
    ensures Inv(Apply(w, LookUp, key, resident))
  {
    InvOne(w.conns, R.Lookup(key));
    forall t | t in Writers(w.conns, key)
      ensures t in R.Entries(w.conns.reg, key) && R.Sole(R.Apply(w.conns, R.Lookup(key)), t)
    {
      R.CollectedWriters(w.conns, key, t);
      R.SoleTail(w.conns, R.Lookup(key), t);
    }
  }

  lemma LeaveStep(w: World, a: Action, key: R.Key, resident: bool)
    requires Inv(w) && Enabled(w, a, key, resident) && (a.Notify? || a.Depart? || a.GiveUp?)
    ensures Inv(Apply(w, a, key, resident))
  {
  }

  lemma ListenerStep(w: World, a: Action, key: R.Key, resident: bool)
    requires Inv(w) && Enabled(w, a, key, resident)
    requires a.StartListener? || a.Cancel? || a.LoopExits? || a.ListenerDone? || a.ListenerRemoved? || a.Trigger? || a.ResponseDone?
    ensures Inv(Apply(w, a, key, resident))
  {
  }

  lemma RecordStep(w: World, a: Action, key: R.Key, resident: bool)
    requires Inv(w) && Enabled(w, a, key, resident) && (a.Write? || a.Answer?)
    ensures Inv(Apply(w, a, key, resident))
  {
  }

  lemma {:induction false} InvRun(w: World, acts: seq<Action>, key: R.Key, resident: bool)
    requires Inv(w) && Legal(w, acts, key, resident)
    ensures Inv(Exec(w, acts, key, resident))
  {
    if acts != [] {
      InvRun(w, acts[..|acts| - 1], key, resident);
      var v, a := Exec(w, acts[..|acts| - 1], key, resident), acts[|acts| - 1];
      match a
      case Conn(c) => ConnStep(v, c, key, resident);
      case LookUp => LookUpStep(v, key, resident);
      case Notify(_) => LeaveStep(v, a, key, resident);
      case Depart(_) => LeaveStep(v, a, key, resident);
      case GiveUp => LeaveStep(v, a, key, resident);
      case Write(_) => RecordStep(v, a, key, resident);
      case Answer(_) => RecordStep(v, a, key, resident);
      case _ => ListenerStep(v, a, key, resident);
    }
  }

  /** Main result: in every run, after agent_left the stream holds no record of
      a write that was alone with its entry when the leave looked, if that wait
      did not time out; and none of a response that was running when the leave
      told the resident agent, if that wait did not time out. */
  lemma LeftIsLast(acts: seq<Action>, key: R.Key, resident: bool)
    requires Legal(INIT, acts, key, resident) && Exec(INIT, acts, key, resident).pc.Gone?
    ensures var w := Exec(INIT, acts, key, resident);
            && w.pc.at < |w.stream| && w.stream[w.pc.at] == Left
            && (!w.flags.writersLate ==>
                  forall i :: w.pc.at < i < |w.stream| && w.stream[i].ByWriter? ==> w.stream[i].token !in w.pc.writers)
            && (!w.flags.responsesLate ==>
                  forall i :: w.pc.at < i < |w.stream| && w.stream[i].ByResponse? ==> w.stream[i].token !in w.pc.responses)
  {
    InvRun(INIT, acts, key, resident);
  }

  // ------------------------------------------------------------------
  // Exactly which writes end before agent_left
  // ------------------------------------------------------------------

  /** The steps after a look that still belong to that leave. */
  predicate OneLeave(rest: seq<Action>) {
    forall i :: 0 <= i < |rest| ==> !rest[i].LookUp?
  }

  lemma {:induction false} SameLeave(w: World, rest: seq<Action>, key: R.Key, resident: bool)
    requires Legal(w, rest, key, resident) && OneLeave(rest) && !w.pc.Away?
    ensures var v := Exec(w, rest, key, resident); v.pc.Away? || v.pc.writers == w.pc.writers
  {
    if rest != [] { SameLeave(w, rest[..|rest| - 1], key, resident); }
  }

  /** Write t puts nothing on the stream after agent_left. */
  predicate SilentAfter(w: World, t: nat) {
    w.pc.Gone? ==> forall i :: w.pc.at < i < |w.stream| ==> w.stream[i] != ByWriter(t)
  }

  /** However a leave that looks now goes on, if its wait for the writes does
      not time out, t puts nothing on the stream after its agent_left. */
  ghost predicate Silenced(w: World, key: R.Key, resident: bool, t: nat)
    requires Enabled(w, LookUp, key, resident)
  {
    forall rest: seq<Action> :: Legal(Apply(w, LookUp, key, resident), rest, key, resident) && OneLeave(rest) ==>
      var v := Exec(Apply(w, LookUp, key, resident), rest, key, resident); !v.flags.writersLate ==> SilentAfter(v, t)
  }

  function Conns(acts: seq<R.Action>): (r: seq<Action>)
    ensures |r| == |acts| && forall i :: 0 <= i < |r| ==> r[i] == Conn(acts[i])
  {
    seq(|acts|, i requires 0 <= i < |acts| => Conn(acts[i]))
  }

  /** A run of the registry is one of the whole. */
  lemma {:induction false} ConnsRun(w: World, acts: seq<R.Action>, key: R.Key, resident: bool)
    requires R.Legal(w.conns, acts)
    ensures Legal(w, Conns(acts), key, resident)
    ensures Exec(w, Conns(acts), key, resident) == w.(conns := R.Exec(w.conns, acts))
  {
    if acts == [] {
      assert Conns(acts) == [];
    } else {
      var front := acts[..|acts| - 1];
      ConnsRun(w, front, key, resident);
      assert Conns(acts) == Conns(front) + [Conn(acts[|acts| - 1])];
      ExecNext(w, Conns(front), Conn(acts[|acts| - 1]), key, resident);
    }
  }

  /** A write that is not alone with its entry can outlast the wait and land
      after agent_left. */
  lemma LandsLate(w: World, key: R.Key, resident: bool, t: nat) returns (rest: seq<Action>)
    requires Inv(w) && Enabled(w, LookUp, key, resident) && R.Writer(w.conns, key, t) && !R.Alone(w.conns, t)
    ensures var x := Apply(w, LookUp, key, resident);
            && Legal(x, rest, key, resident) && OneLeave(rest)
            && !Exec(x, rest, key, resident).flags.writersLate && !SilentAfter(Exec(x, rest, key, resident), t)
  {
    var x := Apply(w, LookUp, key, resident);
    var drain := R.OutlivesWait(w.conns, key, t);
    ConnsRun(x, drain, key, resident);
    rest := LateWrite(x, Conns(drain), key, resident, t);
  }

  /** With the channels closed the leave goes on, and the write after it. */
  lemma LateWrite(x: World, drained: seq<Action>, key: R.Key, resident: bool, t: nat) returns (rest: seq<Action>)
    requires Legal(x, drained, key, resident) && OneLeave(drained)
    requires var v := Exec(x, drained, key, resident);
             v.pc.Waiting? && v.pc.waits <= v.conns.reg.closed && R.Writer(v.conns, key, t)
    ensures Legal(x, rest, key, resident) && OneLeave(rest)
    ensures !Exec(x, rest, key, resident).flags.writersLate && !SilentAfter(Exec(x, rest, key, resident), t)
  {
    ExecNext(x, drained, Notify(false), key, resident);
    rest := drained + [Notify(false)];
    ExecNext(x, rest, Depart(true), key, resident);
    rest := rest + [Depart(true)];
    var v := Exec(x, rest, key, resident);
    ExecNext(x, rest, Write(t), key, resident);
    LastIsLate(v, key, resident, t);
    rest := rest + [Write(t)];
  }

  lemma LastIsLate(v: World, key: R.Key, resident: bool, t: nat)
    requires v.pc.Gone? && v.pc.at < |v.stream| && Enabled(v, Write(t), key, resident)
    ensures !SilentAfter(Apply(v, Write(t), key, resident), t)
  {
    assert Apply(v, Write(t), key, resident).stream[|v.stream|] == ByWriter(t);
  }

  /** Main result, exact: in every state in which a leave can look, for every
      running write of the pair: nothing of it can come after agent_left without
      that wait timing out iff it is alone with its entry. */
  lemma SilencedIff(acts: seq<Action>, key: R.Key, resident: bool, t: nat)
    requires Legal(INIT, acts, key, resident) && Enabled(Exec(INIT, acts, key, resident), LookUp, key, resident)
    requires R.Writer(Exec(INIT, acts, key, resident).conns, key, t)
    ensures var w := Exec(INIT, acts, key, resident); Silenced(w, key, resident, t) <==> R.Alone(w.conns, t)
  {
    var w := Exec(INIT, acts, key, resident);
    InvRun(INIT, acts, key, resident);
    var x := Apply(w, LookUp, key, resident);
    if R.Alone(w.conns, t) {
      LookUpStep(w, key, resident);
      forall rest: seq<Action> | Legal(x, rest, key, resident) && OneLeave(rest) && !Exec(x, rest, key, resident).flags.writersLate
        ensures SilentAfter(Exec(x, rest, key, resident), t)
      {
        InvRun(x, rest, key, resident);
        SameLeave(x, rest, key, resident);
      }
    } else {
      var rest := LandsLate(w, key, resident, t);
    }
  }

  /** So a leave silences all running writes of its pair iff each of them has
      its entry when it looks. */
  lemma AllSilencedIff(acts: seq<Action>, key: R.Key, resident: bool)
    requires Legal(INIT, acts, key, resident) && Enabled(Exec(INIT, acts, key, resident), LookUp, key, resident)
    ensures var w := Exec(INIT, acts, key, resident);
            R.Registered(w.conns, key) <==> forall t :: R.Writer(w.conns, key, t) ==> Silenced(w, key, resident, t)
  {
    var w := Exec(INIT, acts, key, resident);
    R.RegisteredAlone(w.conns, key);
    forall t | R.Writer(w.conns, key, t) ensures Silenced(w, key, resident, t) <==> R.Alone(w.conns, t) {
      SilencedIff(acts, key, resident, t);
    }
  }

  // ------------------------------------------------------------------
  // Exactly which responses end before agent_left
  // ------------------------------------------------------------------

  predicate OneNotice(rest: seq<Action>) {
    forall i :: 0 <= i < |rest| ==> !rest[i].LookUp? && !rest[i].Notify?
  }

  lemma {:induction false} SameNotice(w: World, rest: seq<Action>, key: R.Key, resident: bool)
    requires Legal(w, rest, key, resident) && OneNotice(rest) && (w.pc.Draining? || w.pc.Away?)
    ensures var v := Exec(w, rest, key, resident);
            v.pc.Away? || ((v.pc.Draining? || v.pc.Gone?) && w.pc.Draining? && v.pc.responses == w.pc.responses)
  {
    if rest != [] { SameNotice(w, rest[..|rest| - 1], key, resident); }
  }

  /** However a leave that tells the agent now goes on, if its wait for the
      responses does not time out, r puts nothing on the stream after its
      agent_left. */
  ghost predicate Answered(w: World, key: R.Key, resident: bool, late: bool, r: nat)
    requires Enabled(w, Notify(late), key, resident)
  {
    forall rest: seq<Action> :: Legal(Apply(w, Notify(late), key, resident), rest, key, resident) && OneNotice(rest) ==>
      var v := Exec(Apply(w, Notify(late), key, resident), rest, key, resident);
      v.pc.Gone? && !v.flags.responsesLate ==> forall i :: v.pc.at < i < |v.stream| ==> v.stream[i] != ByResponse(r)
  }

  /** A running response of an agent that is not told can answer after agent_left. */
  lemma AnswersLate(w: World, key: R.Key, late: bool, r: nat) returns (rest: seq<Action>)
    requires Inv(w) && Enabled(w, Notify(late), key, false) && r in w.running
    ensures var x := Apply(w, Notify(late), key, false);
            && Legal(x, rest, key, false) && OneNotice(rest)
            && var v := Exec(x, rest, key, false);
               v.pc.Gone? && !v.flags.responsesLate && v.pc.at < |v.stream| - 1 && v.stream[|v.stream| - 1] == ByResponse(r)
  {
    var x := Apply(w, Notify(late), key, false);
    assert Legal(x, [], key, false);
    ExecNext(x, [], Depart(false), key, false);
    ExecNext(x, [] + [Depart(false)], Answer(r), key, false);
    rest := [] + [Depart(false)] + [Answer(r)];
  }

  /** Main result for responses, exact: in every state in which a leave tells the
      agent, for every response running then: nothing of it can come after
      agent_left without that wait timing out iff the leaver is the resident
      agent, whose responses they are. */
  lemma AnsweredIff(acts: seq<Action>, key: R.Key, resident: bool, late: bool, r: nat)
    requires Legal(INIT, acts, key, resident) && Enabled(Exec(INIT, acts, key, resident), Notify(late), key, resident)
    requires r in Exec(INIT, acts, key, resident).running
    ensures Answered(Exec(INIT, acts, key, resident), key, resident, late, r) <==> resident
  {
    var w := Exec(INIT, acts, key, resident);
    InvRun(INIT, acts, key, resident);
    var x := Apply(w, Notify(late), key, resident);
    LeaveStep(w, Notify(late), key, resident);
    if resident {
      forall rest: seq<Action> | Legal(x, rest, key, resident) && OneNotice(rest)
        ensures var v := Exec(x, rest, key, resident);
                v.pc.Gone? && !v.flags.responsesLate ==> forall i :: v.pc.at < i < |v.stream| ==> v.stream[i] != ByResponse(r)
      {
        InvRun(x, rest, key, resident);
        SameNotice(x, rest, key, resident);
      }
    } else {
      var rest := AnswersLate(w, key, late, r);
    }
  }

  /** Steps with which a listener comes to its end. */
  predicate Ending(rest: seq<Action>) {
    forall i | 0 <= i < |rest| :: rest[i].LoopExits? || rest[i].ResponseDone? || rest[i].ListenerDone?
  }

  lemma EndingNext(rest: seq<Action>, a: Action)
    requires Ending(rest) && (a.LoopExits? || a.ResponseDone? || a.ListenerDone?)
    ensures Ending(rest + [a])
  {
  }

  /** And that wait can always end: the listener has been told to stop, so once
      its loop exits and the responses finish, its channel closes. */
  lemma DrainEnds(acts: seq<Action>, key: R.Key, resident: bool) returns (rest: seq<Action>)
    requires Legal(INIT, acts, key, resident) && Exec(INIT, acts, key, resident).pc.Draining?
    ensures var w := Exec(INIT, acts, key, resident);
            Legal(w, rest, key, resident) && Ending(rest) && Enabled(Exec(w, rest, key, resident), Depart(false), key, resident)
  {
    InvRun(INIT, acts, key, resident);
    rest := ListenerEnds(Exec(INIT, acts, key, resident), key, resident);
  }

  lemma ListenerEnds(w: World, key: R.Key, resident: bool) returns (rest: seq<Action>)
    requires Inv(w) && w.pc.Draining?
    ensures Legal(w, rest, key, resident) && Ending(rest) && Enabled(Exec(w, rest, key, resident), Depart(false), key, resident)
  {
    rest := [];
    assert Legal(w, [], key, resident);
    if w.pc.awaits.Some? && w.pc.awaits.value !in w.finished {
      ExecNext(w, [], LoopExits, key, resident);
      EndingNext([], LoopExits);
      rest := ResponsesEnd(w, [] + [LoopExits], key, resident);
      ExecNext(w, rest, ListenerDone, key, resident);
      EndingNext(rest, ListenerDone);
      rest := rest + [ListenerDone];
    }
  }

  lemma ResponseEnds(w: World, acts: seq<Action>, r: nat, key: R.Key, resident: bool)
    requires Legal(w, acts, key, resident) && Ending(acts) && r in Exec(w, acts, key, resident).running
    ensures Legal(w, acts + [ResponseDone(r)], key, resident) && Ending(acts + [ResponseDone(r)])
    ensures var v := Exec(w, acts, key, resident);
            Exec(w, acts + [ResponseDone(r)], key, resident) == v.(running := v.running - {r})
  {
    ExecNext(w, acts, ResponseDone(r), key, resident);
    EndingNext(acts, ResponseDone(r));
  }

  lemma {:induction false} ResponsesEnd(w: World, acts: seq<Action>, key: R.Key, resident: bool) returns (rest: seq<Action>)
    requires Legal(w, acts, key, resident) && Ending(acts)
    ensures Legal(w, rest, key, resident) && Ending(rest)
    ensures Exec(w, rest, key, resident) == Exec(w, acts, key, resident).(running := {})
    decreases Exec(w, acts, key, resident).running
  {
    var v := Exec(w, acts, key, resident);
    rest := acts;
    if v.running != {} {
      var r :| r in v.running;
      ResponseEnds(w, acts, r, key, resident);
      rest := ResponsesEnd(w, acts + [ResponseDone(r)], key, resident);
    }
  }

  lemma ExecNext(w: World, acts: seq<Action>, a: Action, key: R.Key, resident: bool)
    requires Legal(w, acts, key, resident) && Enabled(Exec(w, acts, key, resident), a, key, resident)
    ensures Legal(w, acts + [a], key, resident)
    ensures Exec(w, acts + [a], key, resident) == Apply(Exec(w, acts, key, resident), a, key, resident)
  {
    assert (acts + [a])[..|acts|] == acts;
  }

  /** A write that has its claim but is not registered yet when the leave looks
      is outside that promise: from whatever state a leave is about to write
      agent_left, such a write can register first and land after it. */
  lemma UnregisteredWriteLandsLate(acts: seq<Action>, key: R.Key, msg: Id, resident: bool)
    requires Legal(INIT, acts, key, resident) && Enabled(Exec(INIT, acts, key, resident), Depart(false), key, resident)
    ensures var w := Exec(INIT, acts, key, resident);
            var t := w.conns.reg.next;
            var more := acts + [Conn(R.OpenWrite(key, msg))] + [Depart(false)] + [Write(t)];
            && Legal(INIT, more, key, resident)
            && Exec(INIT, more, key, resident).stream == w.stream + [Left] + [ByWriter(t)]
            && Exec(INIT, more, key, resident).pc.Gone? && t !in Exec(INIT, more, key, resident).pc.writers
  {
    InvRun(INIT, acts, key, resident);
    var t := Exec(INIT, acts, key, resident).conns.reg.next;
    ExecNext(INIT, acts, Conn(R.OpenWrite(key, msg)), key, resident);
    ExecNext(INIT, acts + [Conn(R.OpenWrite(key, msg))], Depart(false), key, resident);
    ExecNext(INIT, acts + [Conn(R.OpenWrite(key, msg))] + [Depart(false)], Write(t), key, resident);
  }
}
