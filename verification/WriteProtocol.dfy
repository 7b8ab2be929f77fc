/** The write, dedup, claim and recovery protocol of one conversation, as a
    machine whose steps are the single store calls the handlers make. Requests
    interleave freely between calls; the process may crash between any two. */
module WriteProtocol {
  import opened Common
  import opened Events

  /** A request being served; keys only tell concurrent requests apart. */
  type Key = nat

  /** How a store call ends. A call that reports an error may or may not have
      taken effect: a lost reply is an error to the caller. */
  datatype Outcome = Ok | Failed | FailedButApplied

  predicate Took(o: Outcome) { o != Failed }

  /** A row of messages_dedup. */
  datatype Row = CompleteRow(start: nat, end: nat) | AbortedRow

  /** What a request does: a whole-message send, a streamed send, a membership
      record (join or leave), or an ack. */
  datatype Kind = Whole(content: string) | Streamed | Notice(event: Event) | Ack(upTo: nat)

  /** The next store call of a request. Pumping is a streamed send with its
      append session open: `sent` was submitted, the first `landed` of it is on
      the stream. */
  datatype Pc =
    | AtLookup
    | AtClaim
    | AtBatch
    | AtTail
    | AtOpen(tail: nat)
    | Pumping(tail: nat, sent: seq<Event>, landed: nat)
    | AtTailAfter(tail: nat)
    | AtRecord(start: nat, end: nat)
    | AtHead(end: nat)
    | AtRelease
    | AtAbort
    | AtRecordAbort
    | AtNotice
    | AtAckRead
    | AtAckWrite

  /** text is the content submitted so far. */
  datatype Request = Request(id: Id, sender: Id, kind: Kind, text: string, pc: Pc)

  datatype SweepPc = SweepAbort | SweepRecord | SweepDelete

  /** The sweep runs after a start and before anything is served. */
  datatype Mode = Down | Sweeping(rows: seq<Id>, at: SweepPc) | Serving

  /** wholes and streams only record which ids were ever sent which way. */
  datatype World = World(
    mode: Mode,
    stream: seq<Event>,
    claims: set<Id>,
    dedup: map<Id, Row>,
    head: nat,
    acks: map<Id, nat>,
    requests: map<Key, Request>,
    wholes: set<Id>,
    streams: set<Id>)

  const INIT := World(Down, [], {}, map[], 0, map[], map[], {}, {})

  datatype Action =
    | Begin(k: Key, id: Id, sender: Id, kind: Kind)
    | Lookup(k: Key, ok: bool)
    | Claim(k: Key, o: Outcome)
    | Batch(k: Key, o: Outcome)
    | Tail(k: Key, ok: bool)
    | Open(k: Key, ok: bool)
    | SubmitStart(k: Key)
    | SubmitChunk(k: Key, chunk: string)
    | SubmitEnd(k: Key)
    | Land(k: Key)
    | Quit(k: Key)
    | CloseOk(k: Key)
    | TailAfter(k: Key, ok: bool)
    | Record(k: Key, o: Outcome)
    | Head(k: Key, o: Outcome)
    | Release(k: Key, o: Outcome)
    | Abort(k: Key, reason: string, o: Outcome)
    | RecordAbort(k: Key, o: Outcome)
    | Announce(k: Key, o: Outcome)
    | AckRead(k: Key, ok: bool)
    | AckWrite(k: Key, o: Outcome)
    | Crash
    | List(rows: seq<Id>, ok: bool)
    | AbortRow(o: Outcome)
    | RecordRow(o: Outcome)
    | DeleteRow(o: Outcome)
    | SweepEnd

  predicate At(w: World, k: Key, pc: Pc) {
    k in w.requests && w.requests[k].pc == pc
  }

  predicate Distinct(rows: seq<Id>) {
    forall i, j :: 0 <= i < j < |rows| ==> rows[i] != rows[j]
  }

  predicate Lists(rows: seq<Id>, claims: set<Id>) {
    Distinct(rows) && (set id | id in rows) == claims
  }

  predicate Enabled(w: World, a: Action) {
    match a
    case Begin(k, id, _, kind) =>
      && w.mode == Serving && k !in w.requests
      && (kind.Whole? ==> kind.content != "")
      && (kind.Notice? ==> kind.event.AgentJoined? || kind.event.AgentLeft?)
    case Lookup(k, _) => At(w, k, AtLookup)
    case Claim(k, _) => At(w, k, AtClaim)
    case Batch(k, _) => At(w, k, AtBatch)
    case Tail(k, _) => At(w, k, AtTail)
    case Open(k, _) => k in w.requests && w.requests[k].pc.AtOpen?
    case SubmitStart(k) => k in w.requests && w.requests[k].pc.Pumping? && w.requests[k].pc.sent == []
    case SubmitChunk(k, chunk) => CanSubmit(w, k) && chunk != ""
    case SubmitEnd(k) => CanSubmit(w, k)
    case Land(k) =>
      k in w.requests && w.requests[k].pc.Pumping? && w.requests[k].pc.landed < |w.requests[k].pc.sent|
    case Quit(k) => k in w.requests && w.requests[k].pc.Pumping?
    case CloseOk(k) =>
      && k in w.requests && w.requests[k].pc.Pumping?
      && w.requests[k].pc.landed == |w.requests[k].pc.sent| > 0
      && w.requests[k].pc.sent[|w.requests[k].pc.sent| - 1].MessageEnd?
    case TailAfter(k, _) => k in w.requests && w.requests[k].pc.AtTailAfter?
    case Record(k, _) => k in w.requests && w.requests[k].pc.AtRecord?
    case Head(k, _) => k in w.requests && w.requests[k].pc.AtHead?
    case Release(k, _) => At(w, k, AtRelease)
    case Abort(k, _, _) => At(w, k, AtAbort)
    case RecordAbort(k, _) => At(w, k, AtRecordAbort)
    case Announce(k, _) => At(w, k, AtNotice)
    case AckRead(k, _) => At(w, k, AtAckRead)
    case AckWrite(k, _) => At(w, k, AtAckWrite)
    case Crash => true
    case List(rows, ok) => w.mode == Down && (ok ==> Lists(rows, w.claims))
    case AbortRow(_) => w.mode.Sweeping? && w.mode.rows != [] && w.mode.at == SweepAbort
    case RecordRow(_) => w.mode.Sweeping? && w.mode.rows != [] && w.mode.at == SweepRecord
    case DeleteRow(_) => w.mode.Sweeping? && w.mode.rows != [] && w.mode.at == SweepDelete
    case SweepEnd => w.mode.Sweeping? && w.mode.rows == []
  }

  predicate CanSubmit(w: World, k: Key) {
    && k in w.requests && w.requests[k].pc.Pumping?
    && w.requests[k].pc.sent != []
    && !w.requests[k].pc.sent[|w.requests[k].pc.sent| - 1].MessageEnd?
  }

  function FirstPc(kind: Kind): Pc {
    match kind
    case Whole(_) => AtLookup
    case Streamed => AtLookup
    case Notice(_) => AtNotice
    case Ack(_) => AtAckRead
  }

  function Goto(w: World, k: Key, pc: Pc): World
    requires k in w.requests
  {
    w.(requests := w.requests[k := w.requests[k].(pc := pc)])
  }

  function Leave(w: World, k: Key): World {
    w.(requests := w.requests - {k})
  }

  /** INSERT ... ON CONFLICT DO NOTHING. */
  function InsertRow(dedup: map<Id, Row>, id: Id, row: Row): map<Id, Row> {
    if id in dedup then dedup else dedup[id := row]
  }

  function Submitted(w: World, k: Key, e: Event, text: string): World
    requires k in w.requests && w.requests[k].pc.Pumping?
  {
    var r := w.requests[k];
    w.(requests := w.requests[k := r.(text := r.text + text, pc := r.pc.(sent := r.pc.sent + [e]))])
  }

  function Apply(w: World, a: Action): World
    requires Enabled(w, a)
  {
    match a
    case Begin(k, id, sender, kind) =>
      w.(requests := w.requests[k := Request(id, sender, kind, if kind.Whole? then kind.content else "", FirstPc(kind))],
         wholes := w.wholes + if kind.Whole? then {id} else {},
         streams := w.streams + if kind.Streamed? then {id} else {})
    case Lookup(k, ok) => if ok && w.requests[k].id !in w.dedup then Goto(w, k, AtClaim) else Leave(w, k)
    case Claim(k, o) =>
      var r := w.requests[k];
      if r.id in w.claims || o == Failed then Leave(w, k)
      else
        var w' := w.(claims := w.claims + {r.id});
        if o == Ok then Goto(w', k, if r.kind.Whole? then AtBatch else AtTail) else Leave(w', k)
    case Batch(k, o) =>
      var r := w.requests[k];
      var w' := if Took(o) then w.(stream := w.stream + Script(r.id, r.sender, [r.text], true)) else w;
      Goto(w', k, if o == Ok then AtRecord(|w.stream|, |w.stream| + 2) else AtAbort)
    case Tail(k, ok) => Goto(w, k, AtOpen(if ok then |w.stream| else 0))
    case Open(k, ok) => Goto(w, k, if ok then Pumping(w.requests[k].pc.tail, [], 0) else AtAbort)
    case SubmitStart(k) => Submitted(w, k, MessageStart(w.requests[k].id, w.requests[k].sender), "")
    case SubmitChunk(k, chunk) => Submitted(w, k, MessageAppend(w.requests[k].id, chunk), chunk)
    case SubmitEnd(k) => Submitted(w, k, MessageEnd(w.requests[k].id), "")
    case Land(k) =>
      var pc := w.requests[k].pc;
      Goto(w.(stream := w.stream + [pc.sent[pc.landed]]), k, pc.(landed := pc.landed + 1))
    case Quit(k) => Goto(w, k, AtAbort)
    case CloseOk(k) => Goto(w, k, AtTailAfter(w.requests[k].pc.tail))
    case TailAfter(k, ok) =>
      var start, end := w.requests[k].pc.tail + 1, if ok then |w.stream| else 0;
      Goto(w, k, if end < start then AtRecord(0, 0) else AtRecord(start, end))
    case Record(k, o) =>
      var r := w.requests[k];
      var w' := if Took(o) then w.(dedup := InsertRow(w.dedup, r.id, CompleteRow(r.pc.start, r.pc.end))) else w;
      Goto(w', k, if r.kind.Streamed? && r.pc.end == 0 then AtRelease else AtHead(r.pc.end))
    case Head(k, o) =>
      var r := w.requests[k];
      var w' := if Took(o) then w.(head := Max(w.head, r.pc.end)) else w;
      if r.kind.Notice? then Leave(w', k) else Goto(w', k, AtRelease)
    case Release(k, o) => Leave(if Took(o) then w.(claims := w.claims - {w.requests[k].id}) else w, k)
    case Abort(k, reason, o) =>
      Goto(if Took(o) then w.(stream := w.stream + [MessageAbort(w.requests[k].id, reason)]) else w, k, AtRecordAbort)
    case RecordAbort(k, o) =>
      Goto(if Took(o) then w.(dedup := InsertRow(w.dedup, w.requests[k].id, AbortedRow)) else w, k, AtRelease)
    case Announce(k, o) =>
      var w' := if Took(o) && w.requests[k].kind.Notice? then w.(stream := w.stream + [w.requests[k].kind.event]) else w;
      if o == Ok then Goto(w', k, AtHead(|w.stream|)) else Leave(w', k)
    case AckRead(k, ok) =>
      if ok && w.requests[k].kind.Ack? && w.requests[k].kind.upTo <= w.head then Goto(w, k, AtAckWrite) else Leave(w, k)
    case AckWrite(k, o) =>
      var r := w.requests[k];
      var old_ := if r.sender in w.acks then w.acks[r.sender] else 0;
      var w' := if Took(o) && r.kind.Ack? then w.(acks := w.acks[r.sender := Max(old_, r.kind.upTo)]) else w;
      Leave(w', k)
    case Crash => w.(mode := Down, requests := map[])
    case List(rows, ok) => w.(mode := if ok then Sweeping(rows, SweepAbort) else Serving)
    case AbortRow(o) =>
      var w' := if Took(o) then w.(stream := w.stream + [MessageAbort(w.mode.rows[0], "server_crash")]) else w;
      w'.(mode := if o == Ok then Sweeping(w.mode.rows, SweepRecord) else Sweeping(w.mode.rows[1..], SweepAbort))
    case RecordRow(o) =>
      var w' := if Took(o) then w.(dedup := InsertRow(w.dedup, w.mode.rows[0], AbortedRow)) else w;
      w'.(mode := Sweeping(w.mode.rows, SweepDelete))
    case DeleteRow(o) =>
      var w' := if Took(o) then w.(claims := w.claims - {w.mode.rows[0]}) else w;
      w'.(mode := Sweeping(w.mode.rows[1..], SweepAbort))
    case SweepEnd => w.(mode := Serving)
  }

  // ------------------------------------------------------------------
  // Runs
  // ------------------------------------------------------------------

  ghost predicate Legal(w: World, run: seq<Action>)
    decreases |run|, 0
  {
    run == [] || (Legal(w, run[..|run| - 1]) && Enabled(Exec(w, run[..|run| - 1]), run[|run| - 1]))
  }

  ghost function Exec(w: World, run: seq<Action>): World
    requires Legal(w, run)
    decreases |run|, 1
  {
    if run == [] then w else Apply(Exec(w, run[..|run| - 1]), run[|run| - 1])
  }

  // ------------------------------------------------------------------
  // What every run keeps
  // ------------------------------------------------------------------

  /** The request has won the claim on its id and not yet let go of it. */
  predicate Holds(r: Request) {
    && (r.kind.Whole? || r.kind.Streamed?)
    && r.pc != AtLookup && r.pc != AtClaim
  }

  /** The content of the appends among es. */
  function Chunks(es: seq<Event>): string {
    if es == [] then ""
    else
      var last := es[|es| - 1];
      Chunks(es[..|es| - 1]) + if last.MessageAppend? then last.content else ""
  }

  /** sent is a start, then appends, then possibly an end, all of one message. */
  predicate IsScript(sent: seq<Event>, id: Id, sender: Id) {
    sent != [] ==>
      && sent[0] == MessageStart(id, sender)
      && (forall i :: 0 < i < |sent| ==>
            (sent[i].MessageAppend? && sent[i].id == id) || (i == |sent| - 1 && sent[i] == MessageEnd(id)))
  }

  /** A finished message m of id on the stream, complete and started no earlier than from. */
  predicate Published(stream: seq<Event>, id: Id, sender: Id, text: string, from: nat, m: Message) {
    && m in View(stream).done
    && m.id == id && m.sender == sender && m.content == text && m.status == Complete
    && from <= m.seqStart && m.seqEnd < |stream|
  }

  /** What a streamed send stores as its range: unknown, or an estimate that
      starts at most one too late and ends strictly after the true end. */
  predicate Estimates(start: nat, end: nat, m: Message) {
    (start == 0 && end == 0) || (start <= m.seqStart + 1 && m.seqEnd < end)
  }

  predicate Fits(w: World, id: Id, start: nat, end: nat, m: Message) {
    && m in View(w.stream).done && m.id == id && m.status == Complete
    && ((id in w.wholes && start == m.seqStart && end == m.seqEnd)
        || (id in w.streams && Estimates(start, end, m)))
  }

  ghost predicate PumpOk(w: World, r: Request)
    requires r.pc.Pumping?
  {
    var Pumping(tail, sent, landed) := r.pc;
    && tail <= |w.stream| && landed <= |sent|
    && IsScript(sent, r.id, r.sender) && r.text == Chunks(sent)
    && (landed > 0 ==>
          if sent[landed - 1].MessageEnd? then
            && r.id !in View(w.stream).pending
            && exists m :: Published(w.stream, r.id, r.sender, r.text, tail, m)
          else
            && r.id in View(w.stream).pending
            && var p := View(w.stream).pending[r.id];
               p.sender == r.sender && p.content == Chunks(sent[..landed]) && tail <= p.seqStart < |w.stream|)
  }

  ghost predicate RequestOk(w: World, r: Request) {
    && (Holds(r) ==> r.id in w.claims)
    && (r.kind.Whole? ==> r.id in w.wholes && r.text == r.kind.content != "")
    && (r.kind.Streamed? ==> r.id in w.streams)
    && match r.pc
       case AtLookup => r.kind.Whole? || (r.kind.Streamed? && r.text == "")
       case AtClaim => r.kind.Whole? || (r.kind.Streamed? && r.text == "")
       case AtBatch => r.kind.Whole?
       case AtTail => r.kind.Streamed? && r.text == ""
       case AtOpen(tail) => r.kind.Streamed? && r.text == "" && tail <= |w.stream|
       case Pumping(_, _, _) => r.kind.Streamed? && PumpOk(w, r)
       case AtTailAfter(tail) => r.kind.Streamed? && exists m :: Published(w.stream, r.id, r.sender, r.text, tail, m)
       case AtRecord(start, end) =>
         && (r.kind.Whole? || r.kind.Streamed?) && end <= |w.stream|
         && (exists m :: Published(w.stream, r.id, r.sender, r.text, 0, m) && Fits(w, r.id, start, end, m)
                         && (r.kind.Whole? ==> start == m.seqStart && end == m.seqEnd))
       case AtHead(end) => end <= |w.stream| && !r.kind.Ack?
       case AtNotice => r.kind.Notice? && (r.kind.event.AgentJoined? || r.kind.event.AgentLeft?)
       case AtAckRead => r.kind.Ack?
       case AtAckWrite => r.kind.Ack? && r.kind.upTo <= w.head
       case _ => r.kind.Whole? || r.kind.Streamed?
  }

  /** A complete row was written only after its message was complete on the
      stream; the stored range is exact unless the id was streamed. */
  ghost predicate RowOk(w: World, id: Id, row: Row) {
    row.CompleteRow? ==> row.end <= |w.stream| && exists m :: Fits(w, id, row.start, row.end, m)
  }

  ghost predicate OneHolder(w: World) {
    forall k, k' :: k in w.requests && k' in w.requests && k != k' && Holds(w.requests[k]) && Holds(w.requests[k'])
      ==> w.requests[k].id != w.requests[k'].id
  }

  ghost predicate CursorsOk(w: World) {
    w.head <= |w.stream| && forall g :: g in w.acks ==> w.acks[g] <= w.head
  }

  ghost predicate Inv(w: World) {
    && (w.mode != Serving ==> w.requests == map[])
    && CursorsOk(w)
    && (forall k :: k in w.requests ==> RequestOk(w, w.requests[k]))
    && OneHolder(w)
    && (forall id :: id in w.dedup ==> RowOk(w, id, w.dedup[id]))
  }

  /** Going from w to w' only adds to the stream, nothing of it about id. */
  ghost predicate Grows(w: World, w': World) {
    && w.stream <= w'.stream && View(w.stream).done <= View(w'.stream).done
    && w.head <= w'.head && w.wholes <= w'.wholes && w.streams <= w'.streams
  }

  ghost predicate SameOpen(s: seq<Event>, s': seq<Event>, id: Id) {
    var p, p' := View(s).pending, View(s').pending;
    (id in p <==> id in p') && (id in p ==> p[id] == p'[id])
  }

  lemma RequestFrame(w: World, w': World, r: Request)
    requires RequestOk(w, r) && Grows(w, w')
    requires Holds(r) ==> r.id in w'.claims && SameOpen(w.stream, w'.stream, r.id)
    ensures RequestOk(w', r)
  {
    match r.pc
    case Pumping(tail, sent, landed) =>
      if landed > 0 && sent[landed - 1].MessageEnd? {
        var m :| Published(w.stream, r.id, r.sender, r.text, tail, m);
        assert Published(w'.stream, r.id, r.sender, r.text, tail, m);
      }
    case AtTailAfter(tail) =>
      var m :| Published(w.stream, r.id, r.sender, r.text, tail, m);
      assert Published(w'.stream, r.id, r.sender, r.text, tail, m);
    case AtRecord(start, end) =>
      var m :| Published(w.stream, r.id, r.sender, r.text, 0, m) && Fits(w, r.id, start, end, m)
               && (r.kind.Whole? ==> start == m.seqStart && end == m.seqEnd);
      assert Published(w'.stream, r.id, r.sender, r.text, 0, m) && Fits(w', r.id, start, end, m);
    case _ =>
  }

  lemma RowFrame(w: World, w': World, id: Id, row: Row)
    requires RowOk(w, id, row) && Grows(w, w')
    ensures RowOk(w', id, row)
  {
    if row.CompleteRow? {
      var m :| Fits(w, id, row.start, row.end, m);
      assert Fits(w', id, row.start, row.end, m);
    }
  }

  lemma RowsFrame(w: World, w': World)
    requires Inv(w) && Grows(w, w')
    ensures forall id :: id in w.dedup ==> RowOk(w', id, w.dedup[id])
  {
    forall id | id in w.dedup ensures RowOk(w', id, w.dedup[id]) {
      RowFrame(w, w', id, w.dedup[id]);
    }
  }

  /** A step of request k alone keeps everything about the others. */
  lemma OthersFrame(w: World, w': World, k: Key)
    requires Inv(w) && Grows(w, w') && k in w.requests
    requires w.claims <= w'.claims + if Holds(w.requests[k]) then {w.requests[k].id} else {}
    requires forall id :: (Holds(w.requests[k]) ==> id != w.requests[k].id) ==> SameOpen(w.stream, w'.stream, id)
    ensures forall k' :: k' in w.requests && k' != k ==> RequestOk(w', w.requests[k'])
  {
    forall k' | k' in w.requests && k' != k ensures RequestOk(w', w.requests[k']) {
      RequestFrame(w, w', w.requests[k']);
    }
  }

  /** Reassembles the invariant after request k moved on or left. */
  lemma Rebuild(w: World, w': World, k: Key)
    requires Inv(w) && Grows(w, w') && k in w.requests
    requires w'.mode == w.mode && CursorsOk(w')
    requires w'.requests.Keys <= w.requests.Keys
    requires forall k' :: k' in w'.requests && k' != k ==> w'.requests[k'] == w.requests[k'] && RequestOk(w', w.requests[k'])
    requires k in w'.requests ==>
               && RequestOk(w', w'.requests[k]) && w'.requests[k].id == w.requests[k].id
               && (Holds(w'.requests[k]) ==> Holds(w.requests[k]) || w.requests[k].id !in w.claims)
    requires forall id :: id in w'.dedup ==> (id in w.dedup && w'.dedup[id] == w.dedup[id]) || RowOk(w', id, w'.dedup[id])
    ensures Inv(w')
  {
    RowsFrame(w, w');
  }

  lemma GrowsSame(w: World, w': World)
    requires w'.stream == w.stream && w.head <= w'.head && w'.wholes == w.wholes && w'.streams == w.streams
    ensures Grows(w, w') && forall id :: SameOpen(w.stream, w'.stream, id)
  {
  }

  lemma StreamStep(w: World, e: Event)
    ensures w.stream < w.stream + [e]
    ensures View(w.stream).done <= View(w.stream + [e]).done
    ensures forall id :: !Concerns(e, id) ==> SameOpen(w.stream, w.stream + [e], id)
  {
    ViewAppend(w.stream, e);
  }

  lemma BatchStep(stream: seq<Event>, id: Id, sender: Id, content: string)
    ensures var s := stream + Script(id, sender, [content], true);
            && |s| == |stream| + 3
            && View(s).done == View(stream).done + [Message(id, sender, content, |stream|, |stream| + 2, Complete)]
            && View(s).pending == View(stream).pending - {id}
  {
    var s1 := stream + [MessageStart(id, sender)];
    var s2 := s1 + [MessageAppend(id, content)];
    ViewAppend(stream, MessageStart(id, sender));
    ViewAppend(s1, MessageAppend(id, content));
    ViewAppend(s2, MessageEnd(id));
    assert "" + content == content;
    assert stream + Script(id, sender, [content], true) == s2 + [MessageEnd(id)];
  }

  /** Steps that touch nothing but the request itself and the cursors. */
  predicate Local(a: Action) {
    a.Tail? || a.Open? || a.Quit? || a.CloseOk? || Minor(a)
  }

  predicate Minor(a: Action) {
    a.Lookup? || a.Head? || a.AckRead? || a.AckWrite?
  }

  /** The request that moved is still as it should be, and so are the cursors. */
  ghost predicate Moved(w: World, w': World, k: Key) {
    && CursorsOk(w') && w.head <= w'.head
    && (k in w'.requests ==> RequestOk(w', w'.requests[k]))
  }

  lemma LocalOk(w: World, a: Action)
    requires Enabled(w, a) && Local(a) && !Minor(a) && RequestOk(w, w.requests[a.k]) && CursorsOk(w)
    ensures Moved(w, Apply(w, a), a.k)
  {
    if a.CloseOk? {
      var Pumping(tail, sent, landed) := w.requests[a.k].pc;
      assert sent[landed - 1].MessageEnd?;
    }
  }

  lemma CallOk(w: World, a: Action)
    requires Enabled(w, a) && (a.Lookup? || a.Head?) && RequestOk(w, w.requests[a.k]) && CursorsOk(w)
    ensures Moved(w, Apply(w, a), a.k)
  {
  }

  lemma AckOk(w: World, a: Action)
    requires Enabled(w, a) && (a.AckRead? || a.AckWrite?) && RequestOk(w, w.requests[a.k]) && CursorsOk(w)
    ensures Moved(w, Apply(w, a), a.k)
  {
  }

  lemma MinorOk(w: World, a: Action)
    requires Enabled(w, a) && Minor(a) && RequestOk(w, w.requests[a.k]) && CursorsOk(w)
    ensures Moved(w, Apply(w, a), a.k)
  {
    if a.Lookup? || a.Head? { CallOk(w, a); } else { AckOk(w, a); }
  }

  /** A request that moved without touching the stream, the claims or the rows. */
  lemma Quietly(w: World, w': World, k: Key)
    requires Inv(w) && k in w.requests
    requires w'.(requests := w.requests, head := w.head, acks := w.acks) == w
    requires Moved(w, w', k)
    requires w'.requests.Keys <= w.requests.Keys
    requires forall k' :: k' in w'.requests && k' != k ==> w'.requests[k'] == w.requests[k']
    requires k in w'.requests ==>
               && w'.requests[k].id == w.requests[k].id
               && (Holds(w'.requests[k]) ==> Holds(w.requests[k]) || w.requests[k].id !in w.claims)
    ensures Inv(w')
  {
    GrowsSame(w, w');
    OthersFrame(w, w', k);
    Rebuild(w, w', k);
  }

  lemma StepLocal(w: World, a: Action)
    requires Inv(w) && Enabled(w, a) && Local(a) && !Minor(a)
    ensures Inv(Apply(w, a))
  {
    LocalOk(w, a);
    Quietly(w, Apply(w, a), a.k);
  }

  lemma StepMinor(w: World, a: Action)
    requires Inv(w) && Enabled(w, a) && Minor(a)
    ensures Inv(Apply(w, a))
  {
    MinorOk(w, a);
    Quietly(w, Apply(w, a), a.k);
  }

  lemma SubmitOk(w: World, a: Action)
    requires Enabled(w, a) && (a.SubmitStart? || a.SubmitChunk? || a.SubmitEnd?) && RequestOk(w, w.requests[a.k])
    ensures var w' := Apply(w, a); RequestOk(w', w'.requests[a.k])
  {
    var r, r' := w.requests[a.k], Apply(w, a).requests[a.k];
    var Pumping(tail, sent, landed) := r.pc;
    var sent' := r'.pc.sent;
    assert sent'[..|sent|] == sent;
    assert sent'[..landed] == sent[..landed];
    assert landed > 0 ==> sent'[landed - 1] == sent[landed - 1];
  }

  /** Request k moves on having appended to the stream, or failed to. */
  lemma StreamMoved(w: World, w': World, k: Key, r': Request)
    requires Inv(w) && k in w.requests && Holds(w.requests[k])
    requires w'.(requests := w.requests, stream := w.stream) == w && Grows(w, w')
    requires w'.requests == w.requests[k := r'] && r'.id == w.requests[k].id && RequestOk(w', r')
    requires forall id :: id != w.requests[k].id ==> SameOpen(w.stream, w'.stream, id)
    ensures Inv(w')
  {
    OthersFrame(w, w', k);
    Rebuild(w, w', k);
  }

  lemma SubmitEffect(w: World, a: Action)
    requires Enabled(w, a) && (a.SubmitStart? || a.SubmitChunk? || a.SubmitEnd?)
    ensures var w', r := Apply(w, a), w.requests[a.k];
            && w'.(requests := w.requests) == w && a.k in w'.requests
            && w'.requests == w.requests[a.k := w'.requests[a.k]]
            && w'.requests[a.k].id == r.id && w'.requests[a.k].kind == r.kind
  {
  }

  lemma StepSubmit(w: World, a: Action)
    requires Inv(w) && Enabled(w, a) && (a.SubmitStart? || a.SubmitChunk? || a.SubmitEnd?)
    ensures Inv(Apply(w, a))
  {
    assert RequestOk(w, w.requests[a.k]);
    SubmitOk(w, a);
    SubmitEffect(w, a);
    GrowsSame(w, Apply(w, a));
    StreamMoved(w, Apply(w, a), a.k, Apply(w, a).requests[a.k]);
  }

  lemma StepClaim(w: World, k: Key, o: Outcome)
    requires Inv(w) && Enabled(w, Claim(k, o))
    ensures Inv(Apply(w, Claim(k, o)))
  {
    var w' := Apply(w, Claim(k, o));
    GrowsSame(w, w');
    assert RequestOk(w, w.requests[k]);
    OthersFrame(w, w', k);
    Rebuild(w, w', k);
  }

  lemma BatchEffect(w: World, k: Key, o: Outcome) returns (w': World)
    requires Enabled(w, Batch(k, o))
    ensures w' == Apply(w, Batch(k, o)) && w'.(requests := w.requests, stream := w.stream) == w
    ensures var r, n := w.requests[k], |w.stream|;
            && w'.requests == w.requests[k := r.(pc := if o == Ok then AtRecord(n, n + 2) else AtAbort)]
            && w'.stream == if Took(o) then w.stream + Script(r.id, r.sender, [r.text], true) else w.stream
  {
    w' := Apply(w, Batch(k, o));
  }

  /** The batch leaves the request with its message published, if it took effect. */
  lemma BatchOk(w: World, k: Key, o: Outcome, w': World)
    requires Inv(w) && Enabled(w, Batch(k, o)) && w' == Apply(w, Batch(k, o)) && Took(o)
    ensures Grows(w, w') && RequestOk(w', w'.requests[k])
    ensures forall id :: id != w.requests[k].id ==> SameOpen(w.stream, w'.stream, id)
  {
    var r, n := w.requests[k], |w.stream|;
    var x := BatchEffect(w, k, o);
    assert RequestOk(w, r);
    BatchStep(w.stream, r.id, r.sender, r.text);
    var m := Message(r.id, r.sender, r.text, n, n + 2, Complete);
    assert m == View(w'.stream).done[|View(w.stream).done|];
    assert Published(w'.stream, r.id, r.sender, r.text, 0, m);
    assert Fits(w', r.id, n, n + 2, m);
  }

  lemma StepBatch(w: World, a: Action)
    requires Inv(w) && Enabled(w, a) && a.Batch?
    ensures Inv(Apply(w, a))
  {
    assert RequestOk(w, w.requests[a.k]);
    var w' := BatchEffect(w, a.k, a.o);
    if Took(a.o) { BatchOk(w, a.k, a.o, w'); } else { GrowsSame(w, w'); }
    StreamMoved(w, w', a.k, w'.requests[a.k]);
  }

  lemma LandEnd(w: World, k: Key)
    requires Inv(w) && Enabled(w, Land(k)) && var pc := w.requests[k].pc; pc.sent[pc.landed].MessageEnd?
    ensures var r, s := w.requests[k], w.stream + [w.requests[k].pc.sent[w.requests[k].pc.landed]];
            r.id !in View(s).pending && exists m :: Published(s, r.id, r.sender, r.text, r.pc.tail, m)
  {
    var r := w.requests[k];
    assert RequestOk(w, r);
    var Pumping(tail, sent, landed) := r.pc;
    var s := w.stream + [sent[landed]];
    ViewAppend(w.stream, sent[landed]);
    assert sent[..landed + 1][..landed] == sent[..landed] && sent[..landed + 1] == sent;
    var p := View(w.stream).pending[r.id];
    var m := Message(r.id, r.sender, r.text, p.seqStart, |w.stream|, Complete);
    assert m == View(s).done[|View(w.stream).done|];
    assert Published(s, r.id, r.sender, r.text, tail, m);
  }

  lemma LandEffect(w: World, k: Key) returns (w': World)
    requires Enabled(w, Land(k))
    ensures var r := w.requests[k];
            && w' == Apply(w, Land(k)) && w'.(requests := w.requests, stream := w.stream) == w
            && w'.stream == w.stream + [r.pc.sent[r.pc.landed]]
            && w'.requests == w.requests[k := r.(pc := r.pc.(landed := r.pc.landed + 1))]
  {
    w' := Apply(w, Land(k));
  }

  lemma LandChunk(w: World, k: Key)
    requires Inv(w) && Enabled(w, Land(k)) && var pc := w.requests[k].pc; !pc.sent[pc.landed].MessageEnd?
    ensures var r := w.requests[k];
            var sent, landed := r.pc.sent, r.pc.landed;
            var open := View(w.stream + [sent[landed]]).pending;
            r.id in open && open[r.id].sender == r.sender && open[r.id].content == Chunks(sent[..landed + 1])
            && r.pc.tail <= open[r.id].seqStart <= |w.stream|
  {
    var r := w.requests[k];
    assert RequestOk(w, r);
    var Pumping(tail, sent, landed) := r.pc;
    ViewAppend(w.stream, sent[landed]);
    assert sent[..landed + 1][..landed] == sent[..landed];
  }

  lemma LandOk(w: World, k: Key)
    requires Inv(w) && Enabled(w, Land(k))
    ensures RequestOk(Apply(w, Land(k)), Apply(w, Land(k)).requests[k])
  {
    assert RequestOk(w, w.requests[k]);
    var w' := LandEffect(w, k);
    if w.requests[k].pc.sent[w.requests[k].pc.landed].MessageEnd? { LandEnd(w, k); } else { LandChunk(w, k); }
  }

  lemma StepLand(w: World, a: Action)
    requires Inv(w) && Enabled(w, a) && a.Land?
    ensures Inv(Apply(w, a))
  {
    var w' := Apply(w, a);
    var r := w.requests[a.k];
    assert RequestOk(w, r);
    StreamStep(w, r.pc.sent[r.pc.landed]);
    OthersFrame(w, w', a.k);
    LandOk(w, a.k);
    Rebuild(w, w', a.k);
  }

  lemma StepTailAfter(w: World, a: Action)
    requires Inv(w) && Enabled(w, a) && a.TailAfter?
    ensures Inv(Apply(w, a))
  {
    var w' := Apply(w, a);
    var r := w.requests[a.k];
    assert RequestOk(w, r);
    var m :| Published(w.stream, r.id, r.sender, r.text, r.pc.tail, m);
    var pc := w'.requests[a.k].pc;
    assert Fits(w', r.id, pc.start, pc.end, m) && Published(w'.stream, r.id, r.sender, r.text, 0, m);
    OthersFrame(w, w', a.k);
    Rebuild(w, w', a.k);
  }

  lemma RecordFits(w: World, a: Action)
    requires Enabled(w, a) && a.Record? && RequestOk(w, w.requests[a.k])
    ensures var pc := w.requests[a.k].pc; RowOk(Apply(w, a), w.requests[a.k].id, CompleteRow(pc.start, pc.end))
  {
    var r := w.requests[a.k];
    var m :| Published(w.stream, r.id, r.sender, r.text, 0, m) && Fits(w, r.id, r.pc.start, r.pc.end, m);
    assert Fits(Apply(w, a), r.id, r.pc.start, r.pc.end, m);
  }

  lemma RecordEffect(w: World, k: Key, o: Outcome) returns (w': World)
    requires Enabled(w, Record(k, o))
    ensures w' == Apply(w, Record(k, o)) && w'.(requests := w.requests, dedup := w.dedup) == w
    ensures var r := w.requests[k];
            && w'.requests == w.requests[k := r.(pc := if r.kind.Streamed? && r.pc.end == 0 then AtRelease else AtHead(r.pc.end))]
            && w'.dedup == if Took(o) then InsertRow(w.dedup, r.id, CompleteRow(r.pc.start, r.pc.end)) else w.dedup
  {
    w' := Apply(w, Record(k, o));
  }

  lemma RecordedOk(w: World, k: Key, w': World)
    requires Enabled(w, Record(k, Ok)) && RequestOk(w, w.requests[k])
    requires var r := w.requests[k];
             && w'.(requests := w.requests, dedup := w.dedup) == w
             && w'.requests == w.requests[k := r.(pc := if r.kind.Streamed? && r.pc.end == 0 then AtRelease else AtHead(r.pc.end))]
    ensures RequestOk(w', w'.requests[k])
  {
  }

  /** Request k moves on having written a row, or failed to. */
  lemma RowWritten(w: World, w': World, k: Key, pc: Pc, row: Row)
    requires Inv(w) && k in w.requests && Holds(w.requests[k])
    requires w'.(requests := w.requests, dedup := w.dedup) == w
    requires w'.requests == w.requests[k := w.requests[k].(pc := pc)] && RequestOk(w', w'.requests[k])
    requires w'.dedup == w.dedup || (w'.dedup == InsertRow(w.dedup, w.requests[k].id, row) && RowOk(w', w.requests[k].id, row))
    ensures Inv(w')
  {
    GrowsSame(w, w');
    OthersFrame(w, w', k);
    Rebuild(w, w', k);
  }

  lemma StepRecord(w: World, k: Key, o: Outcome)
    requires Inv(w) && Enabled(w, Record(k, o))
    ensures Inv(Apply(w, Record(k, o)))
  {
    assert RequestOk(w, w.requests[k]);
    RecordFits(w, Record(k, o));
    var w' := RecordEffect(w, k, o);
    RecordedOk(w, k, w');
    RowWritten(w, w', k, w'.requests[k].pc, CompleteRow(w.requests[k].pc.start, w.requests[k].pc.end));
  }

  lemma StepRecordAbort(w: World, k: Key, o: Outcome)
    requires Inv(w) && Enabled(w, RecordAbort(k, o))
    ensures Inv(Apply(w, RecordAbort(k, o)))
  {
    assert RequestOk(w, w.requests[k]);
    RowWritten(w, Apply(w, RecordAbort(k, o)), k, AtRelease, AbortedRow);
  }

  lemma StepRelease(w: World, k: Key, o: Outcome)
    requires Inv(w) && Enabled(w, Release(k, o))
    ensures Inv(Apply(w, Release(k, o)))
  {
    var w' := Apply(w, Release(k, o));
    GrowsSame(w, w');
    assert RequestOk(w, w.requests[k]);
    OthersFrame(w, w', k);
    Rebuild(w, w', k);
  }

  lemma StepAbort(w: World, k: Key, reason: string, o: Outcome)
    requires Inv(w) && Enabled(w, Abort(k, reason, o))
    ensures Inv(Apply(w, Abort(k, reason, o)))
  {
    var w' := Apply(w, Abort(k, reason, o));
    assert RequestOk(w, w.requests[k]);
    if Took(o) { StreamStep(w, MessageAbort(w.requests[k].id, reason)); } else { GrowsSame(w, w'); }
    StreamMoved(w, w', k, w'.requests[k]);
  }

  lemma StepAnnounce(w: World, k: Key, o: Outcome)
    requires Inv(w) && Enabled(w, Announce(k, o))
    ensures Inv(Apply(w, Announce(k, o)))
  {
    var w' := Apply(w, Announce(k, o));
    assert RequestOk(w, w.requests[k]);
    if Took(o) { StreamStep(w, w.requests[k].kind.event); } else { GrowsSame(w, w'); }
    OthersFrame(w, w', k);
    Rebuild(w, w', k);
  }

  lemma StepBegin(w: World, a: Action)
    requires Inv(w) && Enabled(w, a) && a.Begin?
    ensures Inv(Apply(w, a))
  {
    var w' := Apply(w, a);
    RowsFrame(w, w');
    forall k | k in w.requests ensures RequestOk(w', w.requests[k]) {
      RequestFrame(w, w', w.requests[k]);
    }
  }

  lemma StepMode(w: World, a: Action)
    requires Inv(w) && Enabled(w, a) && (a.Crash? || a.List? || a.SweepEnd?)
    ensures Inv(Apply(w, a))
  {
    RowsFrame(w, Apply(w, a));
  }

  lemma StepAbortRow(w: World, o: Outcome)
    requires Inv(w) && Enabled(w, AbortRow(o))
    ensures Inv(Apply(w, AbortRow(o)))
  {
    StreamStep(w, MessageAbort(w.mode.rows[0], "server_crash"));
    RowsFrame(w, Apply(w, AbortRow(o)));
  }

  lemma StepRow(w: World, a: Action)
    requires Inv(w) && Enabled(w, a) && (a.RecordRow? || a.DeleteRow?)
    ensures Inv(Apply(w, a))
  {
    RowsFrame(w, Apply(w, a));
  }

  /** Steps of the streaming writer and those of the sweep. */
  predicate Pumps(a: Action) {
    a.Tail? || a.Open? || a.SubmitStart? || a.SubmitChunk? || a.SubmitEnd? || a.Land? || a.Quit? || a.CloseOk? || a.TailAfter?
  }

  predicate Sweeps(a: Action) {
    a.Crash? || a.List? || a.SweepEnd? || a.AbortRow? || a.RecordRow? || a.DeleteRow?
  }

  lemma StepPump(w: World, a: Action)
    requires Inv(w) && Enabled(w, a) && Pumps(a)
    ensures Inv(Apply(w, a))
  {
    if a.Land? { StepLand(w, a); }
    else if a.TailAfter? { StepTailAfter(w, a); }
    else if Local(a) { StepLocal(w, a); }
    else { StepSubmit(w, a); }
  }

  lemma StepSweep(w: World, a: Action)
    requires Inv(w) && Enabled(w, a) && Sweeps(a)
    ensures Inv(Apply(w, a))
  {
    match a
    case AbortRow(o) => StepAbortRow(w, o);
    case RecordRow(_) => StepRow(w, a);
    case DeleteRow(_) => StepRow(w, a);
    case _ => StepMode(w, a);
  }

  lemma StepRequest(w: World, a: Action)
    requires Inv(w) && Enabled(w, a) && !Pumps(a) && !Sweeps(a)
    ensures Inv(Apply(w, a))
  {
    match a
    case Claim(k, o) => StepClaim(w, k, o);
    case Batch(_, _) => StepBatch(w, a);
    case Record(k, o) => StepRecord(w, k, o);
    case RecordAbort(k, o) => StepRecordAbort(w, k, o);
    case Release(k, o) => StepRelease(w, k, o);
    case Abort(k, reason, o) => StepAbort(w, k, reason, o);
    case Announce(k, o) => StepAnnounce(w, k, o);
    case Begin(_, _, _, _) => StepBegin(w, a);
    case _ => StepMinor(w, a);
  }

  /** Every step keeps the invariant, whatever fails and wherever it crashes. */
  lemma InvStep(w: World, a: Action)
    requires Inv(w) && Enabled(w, a)
    ensures Inv(Apply(w, a))
  {
    if Pumps(a) {
      StepPump(w, a);
    } else if Sweeps(a) {
      StepSweep(w, a);
    } else {
      StepRequest(w, a);
    }
  }

  lemma {:induction false} InvRun(run: seq<Action>)
    requires Legal(INIT, run)
    ensures Inv(Exec(INIT, run))
  {
    if run != [] {
      InvRun(run[..|run| - 1]);
      InvStep(Exec(INIT, run[..|run| - 1]), run[|run| - 1]);
    }
  }
}
