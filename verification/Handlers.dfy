/** The handlers themselves, call by call, running among other requests. Every
    store call is one step of the write protocol, so what is proved of its runs
    holds of whatever these methods do. */
module Handlers {
  import opened Events
  import opened WriteProtocol
  import opened WriteSafety

  datatype Reply =
    | Fresh(start: nat, end: nat)       // 201 from a send, 200 from a stream
    | Replayed(start: nat, end: nat)    // 200, already processed
    | AlreadyAborted                    // 409
    | Conflict                          // 409, another write is in flight
    | Acked                             // 204
    | BeyondHead                        // 400
    | Error                             // any other status

  /** One NDJSON line of a streamed body. */
  datatype Line = EmptyLine | Malformed | InvalidUtf8 | Chunk(content: string)

  function Content(lines: seq<Line>): string {
    if lines == [] then ""
    else
      var last := lines[|lines| - 1];
      Content(lines[..|lines| - 1]) + if last.Chunk? then last.content else ""
  }

  /** Nothing but time and the durable acks of its own records passed for a request. */
  predicate Waited(r: Request, r': Request) {
    r' == r || (r.pc.Pumping? && r'.pc.Pumping? && r.pc.landed <= r'.pc.landed
                && r' == r.(pc := r.pc.(landed := r'.pc.landed)))
  }

  /** A step request k does not take itself; its records may become durable. */
  predicate Foreign(a: Action, k: Key) {
    if System(a) then a.Begin? else a.k != k || a.Land?
  }

  lemma OtherPump(w: World, a: Action, k: Key)
    requires Enabled(w, a) && Pumps(a) && a.k != k && k in w.requests
    ensures k in Apply(w, a).requests && Apply(w, a).requests[k] == w.requests[k] && Apply(w, a).mode == w.mode
  {
  }

  lemma OtherFirst(w: World, a: Action, k: Key)
    requires Enabled(w, a) && (a.Lookup? || a.Claim? || a.Batch? || a.Announce? || a.AckRead? || a.AckWrite?) && a.k != k && k in w.requests
    ensures k in Apply(w, a).requests && Apply(w, a).requests[k] == w.requests[k] && Apply(w, a).mode == w.mode
  {
  }

  lemma OtherLast(w: World, a: Action, k: Key)
    requires Enabled(w, a) && (a.Record? || a.Head? || a.Release? || a.Abort? || a.RecordAbort?) && a.k != k && k in w.requests
    ensures k in Apply(w, a).requests && Apply(w, a).requests[k] == w.requests[k] && Apply(w, a).mode == w.mode
  {
  }

  lemma OtherCall(w: World, a: Action, k: Key)
    requires Enabled(w, a) && !Pumps(a) && !System(a) && a.k != k && k in w.requests
    ensures k in Apply(w, a).requests && Apply(w, a).requests[k] == w.requests[k] && Apply(w, a).mode == w.mode
  {
    if a.Record? || a.Head? || a.Release? || a.Abort? || a.RecordAbort? { OtherLast(w, a, k); } else { OtherFirst(w, a, k); }
  }

  lemma ForeignKeeps(w: World, a: Action, k: Key)
    requires Enabled(w, a) && Foreign(a, k) && k in w.requests
    ensures k in Apply(w, a).requests && Waited(w.requests[k], Apply(w, a).requests[k]) && Apply(w, a).mode == w.mode
  {
    if !System(a) && a.k != k {
      if Pumps(a) { OtherPump(w, a, k); } else { OtherCall(w, a, k); }
    }
  }

  /** The claim on id and its dedup row are as they were. */
  ghost predicate KeptRow(w: World, w': World, id: Id) {
    && (id in w.claims <==> id in w'.claims)
    && (id in w.dedup <==> id in w'.dedup) && (id in w.dedup ==> w'.dedup[id] == w.dedup[id])
  }

  /** While request k holds its claim, what others do leaves its id alone; only
      its own records may become durable. */
  lemma ForeignLeaves(w: World, a: Action, k: Key)
    requires Inv(w) && Enabled(w, a) && Foreign(a, k) && k in w.requests && Holds(w.requests[k])
    ensures KeptRow(w, Apply(w, a), w.requests[k].id)
    ensures !w.requests[k].pc.Pumping? ==> SameOpen(w.stream, Apply(w, a).stream, w.requests[k].id)
  {
    if System(a) {
      assert Apply(w, a).(requests := w.requests, wholes := w.wholes, streams := w.streams) == w;
    } else if a.k == k {
      var w' := LandEffect(w, k);
    } else {
      ClaimIsLock(w, a, k);
    }
  }

  /** The row of id after an attempt to insert one, which took effect or not. */
  ghost predicate RowBecomes(dedup: map<Id, Row>, dedup': map<Id, Row>, id: Id, took: bool, row: Row) {
    if id in dedup then id in dedup' && dedup'[id] == dedup[id]
    else if took then id in dedup' && dedup'[id] == row
    else id !in dedup'
  }

  /** What a request is told of a dedup row found at its lookup. */
  predicate Replays(reply: Reply, row: Row) {
    match row
    case CompleteRow(start, end) => reply == Replayed(start, end)
    case AbortedRow => reply == AlreadyAborted
  }

  /** How the calls of a finalization end, of a cleanup, and of the two sends. */
  datatype Finals = Finals(record: Outcome, head: Outcome, release: Outcome)

  datatype Cleanup = Cleanup(reason: string, abort: Outcome, record: Outcome, release: Outcome)

  datatype SendCalls = SendCalls(lookup: bool, claim: Outcome, append: Outcome, finals: Finals, cleanup: Cleanup)

  /** accepted: whether the session takes each line's chunk; closes: whether
      every ack comes; landings: how many records become durable before one that
      fails. */
  datatype StreamCalls = StreamCalls(lookup: bool, claim: Outcome, tail: bool, open: bool, start: bool, accepted: seq<bool>,
                                     closes: bool, landings: nat, tailAfter: bool, finals: Finals, cleanup: Cleanup)

  predicate LineOk(line: Line, accepted: bool) {
    line.EmptyLine? || (line.Chunk? && (line.content == "" || accepted))
  }

  /** A body every line of which is good and taken. */
  predicate Clean(lines: seq<Line>, accepted: seq<bool>)
    requires |accepted| == |lines|
  {
    forall i | 0 <= i < |lines| :: LineOk(lines[i], accepted[i])
  }

  lemma PumpedNext(lines: seq<Line>, accepted: seq<bool>, i: nat)
    requires i < |lines| == |accepted|
    ensures Clean(lines[..i + 1], accepted[..i + 1]) <==> Clean(lines[..i], accepted[..i]) && LineOk(lines[i], accepted[i])
    ensures Clean(lines, accepted) ==> LineOk(lines[i], accepted[i])
    ensures Content(lines[..i + 1]) == Content(lines[..i]) + if lines[i].Chunk? then lines[i].content else ""
  {
    assert lines[..i + 1][..i] == lines[..i];
    assert forall j :: 0 <= j < i ==> lines[..i + 1][j] == lines[..i][j] && accepted[..i + 1][j] == accepted[..i][j];
    if Clean(lines[..i + 1], accepted[..i + 1]) { assert LineOk(lines[..i + 1][i], accepted[..i + 1][i]); }
  }

  /** The streamed send got through all its calls up to the close. */
  predicate Through(c: StreamCalls, lines: seq<Line>, bodyEnded: bool)
    requires |c.accepted| == |lines|
  {
    c.open && c.start && Clean(lines, c.accepted) && bodyEnded && c.closes
  }

  /** The stream and the records of how ids were sent only grow. */
  ghost predicate Longer(w: World, w': World) {
    w.stream <= w'.stream && w.wholes <= w'.wholes && w.streams <= w'.streams
  }

  lemma PumpLonger(w: World, a: Action)
    requires Enabled(w, a) && Pumps(a)
    ensures Longer(w, Apply(w, a))
  {
  }

  lemma SweepLonger(w: World, a: Action)
    requires Enabled(w, a) && Sweeps(a)
    ensures Longer(w, Apply(w, a))
  {
  }

  lemma CallLonger(w: World, a: Action)
    requires Enabled(w, a) && !Pumps(a) && !Sweeps(a)
    ensures Longer(w, Apply(w, a))
  {
  }

  lemma StreamOnlyGrows(w: World, a: Action)
    requires Enabled(w, a)
    ensures Longer(w, Apply(w, a))
  {
    if Pumps(a) { PumpLonger(w, a); } else if Sweeps(a) { SweepLonger(w, a); } else { CallLonger(w, a); }
  }

  lemma {:induction false} RunGrows(w: World, run: seq<Action>)
    requires Legal(w, run)
    ensures Grows(w, Exec(w, run))
  {
    if run != [] {
      var w1, a := Exec(w, run[..|run| - 1]), run[|run| - 1];
      RunGrows(w, run[..|run| - 1]);
      StreamOnlyGrows(w1, a);
      CursorsStep(w1, a, 0);
      var w2 := Apply(w1, a);
      ViewGrows(w1.stream, w2.stream[|w1.stream|..]);
      assert w1.stream + w2.stream[|w1.stream|..] == w2.stream;
    }
  }

  /** What one trace established still stands later. */
  lemma Later(trace: seq<Action>, more: seq<Action>)
    requires trace <= more && Legal(INIT, more)
    ensures Legal(INIT, trace)
    ensures Grows(Exec(INIT, trace), Exec(INIT, more))
    ensures forall id :: id in Exec(INIT, trace).dedup ==>
              id in Exec(INIT, more).dedup && Exec(INIT, more).dedup[id] == Exec(INIT, trace).dedup[id]
  {
    var rest := more[|trace|..];
    assert more == trace + rest;
    LegalSplit(INIT, trace, rest);
    RunGrows(Exec(INIT, trace), rest);
    forall id | id in Exec(INIT, trace).dedup
      ensures id in Exec(INIT, more).dedup && Exec(INIT, more).dedup[id] == Exec(INIT, trace).dedup[id]
    {
      RowsNeverChange(Exec(INIT, trace), rest, id);
    }
  }

  /** Between two points of a trace no cursor goes down. */
  lemma RunRises(trace: seq<Action>, more: seq<Action>, g: Id)
    requires trace <= more && Legal(INIT, more)
    ensures Legal(INIT, trace) && Exec(INIT, trace).head <= Exec(INIT, more).head
    ensures AckOf(Exec(INIT, trace), g) <= AckOf(Exec(INIT, more), g)
  {
    var rest := more[|trace|..];
    assert more == trace + rest;
    LegalSplit(INIT, trace, rest);
    CursorsRise(Exec(INIT, trace), rest, g);
  }

  /** A finished message is still there later. */
  lemma StillThere(trace: seq<Action>, more: seq<Action>, m: Message)
    requires trace <= more && Legal(INIT, more) && Legal(INIT, trace) && m in View(Exec(INIT, trace).stream).done
    ensures m in View(Exec(INIT, more).stream).done
  {
    Later(trace, more);
  }

  lemma PublishedLater(trace: seq<Action>, more: seq<Action>, r: Request, m: Message)
    requires trace <= more && Legal(INIT, more) && Legal(INIT, trace)
    requires Published(Exec(INIT, trace).stream, r.id, r.sender, r.text, 0, m)
    ensures Published(Exec(INIT, more).stream, r.id, r.sender, r.text, 0, m)
  {
    Later(trace, more);
  }

  class Server {
    var w: World
    ghost var trace: seq<Action>

    /** The state is what the steps taken so far lead to. */
    ghost predicate Valid()
      reads this
    {
      Legal(INIT, trace) && w == Exec(INIT, trace)
    }

    constructor ()
      ensures Valid() && trace == [] && w == INIT
    {
      w := INIT;
      trace := [];
    }

    method Do(a: Action)
      requires Valid() && Enabled(w, a)
      modifies this
      ensures Valid() && w == Apply(old(w), a) && trace == old(trace) + [a]
    {
      w := Apply(w, a);
      trace := trace + [a];
      assert trace[..|trace| - 1] == old(trace);
    }

    /** Any number of steps of anything but request k. */
    method Others(k: Key)
      requires Valid() && k in w.requests
      modifies this
      ensures Valid() && old(trace) <= trace && w.mode == old(w.mode)
      ensures k in w.requests && Waited(old(w.requests[k]), w.requests[k])
      ensures old(w.stream) <= w.stream && old(w.head) <= w.head
      ensures var r := old(w.requests[k]);
              Holds(r) ==> KeptRow(old(w), w, r.id) && (!r.pc.Pumping? ==> SameOpen(old(w.stream), w.stream, r.id))
    {
      var n: nat := *;
      ghost var before := w;
      while n > 0
        invariant Valid() && old(trace) <= trace && w.mode == before.mode
        invariant k in w.requests && Waited(before.requests[k], w.requests[k])
        invariant before.stream <= w.stream && before.head <= w.head
        invariant Holds(before.requests[k]) ==> KeptRow(before, w, before.requests[k].id)
        invariant Holds(before.requests[k]) && !before.requests[k].pc.Pumping? ==>
                    SameOpen(before.stream, w.stream, before.requests[k].id)
      {
        var a: Action := *;
        if Enabled(w, a) && Foreign(a, k) { Other(a, k); }
        n := n - 1;
      }
    }

    /** One of them. */
    method Other(a: Action, k: Key)
      requires Valid() && Enabled(w, a) && Foreign(a, k) && k in w.requests
      modifies this
      ensures Valid() && trace == old(trace) + [a] && w.mode == old(w.mode)
      ensures k in w.requests && Waited(old(w.requests[k]), w.requests[k])
      ensures old(w.stream) <= w.stream && old(w.head) <= w.head
      ensures var r := old(w.requests[k]);
              Holds(r) ==> KeptRow(old(w), w, r.id) && (!r.pc.Pumping? ==> SameOpen(old(w.stream), w.stream, r.id))
    {
      InvRun(trace);
      ForeignKeeps(w, a, k);
      StreamOnlyGrows(w, a);
      CursorsStep(w, a, 0);
      if Holds(w.requests[k]) { ForeignLeaves(w, a, k); }
      Do(a);
    }

    method AppendAbort(k: Key, reason: string, o: Outcome)
      requires Valid() && At(w, k, AtAbort)
      modifies this
      ensures Valid() && old(trace) <= trace && w.mode == old(w.mode)
      ensures k in w.requests && w.requests[k] == old(w.requests[k]).(pc := AtRecordAbort)
      ensures KeptRow(old(w), w, w.requests[k].id)
      ensures IsOpen(w, w.requests[k].id) <==> IsOpen(old(w), w.requests[k].id) && !Took(o)
    {
      ViewAppend(w.stream, MessageAbort(w.requests[k].id, reason));
      Do(Abort(k, reason, o));
    }

    method InsertAborted(k: Key, o: Outcome)
      requires Valid() && At(w, k, AtRecordAbort)
      modifies this
      ensures Valid() && old(trace) <= trace && w.mode == old(w.mode)
      ensures k in w.requests && w.requests[k] == old(w.requests[k]).(pc := AtRelease)
      ensures w.stream == old(w.stream) && w.claims == old(w.claims)
      ensures RowBecomes(old(w.dedup), w.dedup, w.requests[k].id, Took(o), AbortedRow)
    {
      Do(RecordAbort(k, o));
    }

    method DeleteInProgress(k: Key, o: Outcome)
      requires Valid() && At(w, k, AtRelease) && w.requests[k].id in w.claims
      modifies this
      ensures Valid() && old(trace) <= trace && w.mode == old(w.mode) && k !in w.requests
      ensures w.stream == old(w.stream) && w.dedup == old(w.dedup) && w.head == old(w.head)
      ensures old(w.requests[k].id) in w.claims <==> !Took(o)
    {
      Do(Release(k, o));
    }

    /** A request past its claim has it. */
    lemma Claimed(k: Key)
      requires Valid() && k in w.requests
      requires var r := w.requests[k];
               r.pc == AtAbort || r.pc == AtRelease || r.pc == AtRecordAbort || r.pc == AtBatch || r.pc.AtRecord? || r.pc.AtTailAfter?
      ensures Holds(w.requests[k]) && w.requests[k].id in w.claims
    {
      InvRun(trace);
      assert RequestOk(w, w.requests[k]);
    }

    /** finalizeCompleteAbort and finalizeStreamAbort: abort append, aborted
        row, release of the claim, each logged and passed over if it fails, and
        each doing just its own part. */
    method FinalizeAbort(k: Key, c: Cleanup)
      requires Valid() && At(w, k, AtAbort)
      modifies this
      ensures Valid() && old(trace) <= trace && w.mode == old(w.mode) && k !in w.requests
      ensures var id := old(w.requests[k].id);
              && (IsOpen(w, id) <==> IsOpen(old(w), id) && !Took(c.abort))
              && RowBecomes(old(w.dedup), w.dedup, id, Took(c.record), AbortedRow)
              && (id in w.claims <==> !Took(c.release))
    {
      Claimed(k);
      AppendAbort(k, c.reason, c.abort);
      Claimed(k);
      Others(k);
      InsertAborted(k, c.record);
      Claimed(k);
      Others(k);
      DeleteInProgress(k, c.release);
    }

    /** The dedup gate: passed exactly without a row; a row is replayed. */
    method PassLookup(k: Key, ok: bool) returns (reply: Reply, passed: bool)
      requires Valid() && At(w, k, AtLookup) && (w.requests[k].kind.Whole? || w.requests[k].kind.Streamed?)
      modifies this
      ensures Valid() && old(trace) <= trace && w.(requests := old(w.requests)) == old(w)
      ensures var r := old(w.requests[k]);
              && (passed <==> ok && r.id !in w.dedup)
              && (passed ==> k in w.requests && w.requests[k] == r.(pc := AtClaim))
              && (!passed ==> k !in w.requests && if ok then Replays(reply, w.dedup[r.id]) else reply == Error)
    {
      var id := w.requests[k].id;
      if !ok {
        Do(Lookup(k, false));
        return Error, false;
      }
      passed := id !in w.dedup;
      reply := if passed then Error else match w.dedup[id] { case CompleteRow(start, end) => Replayed(start, end) case AbortedRow => AlreadyAborted };
      Do(Lookup(k, true));
    }

    /** The dedup gate and the claim, in that order. Goes on exactly if there is
        no row, the claim call succeeds and nobody has the claim; otherwise the
        reply says which of these it was. */
    method Admit(k: Key, lookup: bool, claim: Outcome) returns (reply: Reply, admitted: bool)
      requires Valid() && At(w, k, AtLookup) && (w.requests[k].kind.Whole? || w.requests[k].kind.Streamed?)
      modifies this
      ensures Valid() && old(trace) <= trace && w.mode == old(w.mode) && old(w.stream) <= w.stream && old(w.head) <= w.head
      ensures var r := old(w.requests[k]);
              && (admitted ==> lookup && claim == Ok && r.id !in old(w.dedup) && r.id in w.claims
                               && k in w.requests && w.requests[k] == r.(pc := if r.kind.Whole? then AtBatch else AtTail))
              && (!admitted ==> k !in w.requests && Refused(reply, old(w), w, r.id, lookup, claim))
    {
      reply, admitted := PassLookup(k, lookup);
      if !admitted { return; }
      var id := w.requests[k].id;
      Others(k);
      var taken := id in w.claims;
      Do(Claim(k, claim));
      reply := if claim != Ok then Error else Conflict;
      admitted := claim == Ok && !taken;
    }

    /** The complete row; a range of (0, 0) from a stream skips the head. */
    method InsertComplete(k: Key, o: Outcome) returns (skip: bool)
      requires Valid() && k in w.requests && w.requests[k].pc.AtRecord?
      requires w.requests[k].kind.Whole? || w.requests[k].kind.Streamed?
      modifies this
      ensures Valid() && old(trace) <= trace && w.mode == old(w.mode) && k in w.requests
      ensures var r := old(w.requests[k]);
              && (skip <==> r.kind.Streamed? && r.pc.end == 0)
              && w.requests[k] == r.(pc := if skip then AtRelease else AtHead(r.pc.end))
              && RowBecomes(old(w.dedup), w.dedup, r.id, Took(o), CompleteRow(r.pc.start, r.pc.end))
      ensures w.stream == old(w.stream) && w.claims == old(w.claims)
    {
      skip := w.requests[k].kind.Streamed? && w.requests[k].pc.end == 0;
      Do(Record(k, o));
    }

    method AdvanceHead(k: Key, o: Outcome)
      requires Valid() && k in w.requests && w.requests[k].pc.AtHead? && !w.requests[k].kind.Notice?
      modifies this
      ensures Valid() && old(trace) <= trace && w.mode == old(w.mode)
      ensures k in w.requests && w.requests[k] == old(w.requests[k]).(pc := AtRelease)
      ensures w.stream == old(w.stream) && w.claims == old(w.claims) && w.dedup == old(w.dedup)
      ensures Took(o) ==> old(w.requests[k].pc.end) <= w.head
    {
      CursorsAfter(w, Head(k, o), 0);
      Do(Head(k, o));
    }

    /** The complete row, the head and the release of the claim. */
    method Finalize(k: Key, c: Finals)
      requires Valid() && k in w.requests && w.requests[k].pc.AtRecord?
      requires w.requests[k].kind.Whole? || w.requests[k].kind.Streamed?
      modifies this
      ensures Valid() && old(trace) <= trace && w.mode == old(w.mode) && k !in w.requests
      ensures var r := old(w.requests[k]);
              && RowBecomes(old(w.dedup), w.dedup, r.id, Took(c.record), CompleteRow(r.pc.start, r.pc.end))
              && (r.id in w.claims <==> !Took(c.release))
              && (Took(c.head) && (r.kind.Whole? || r.pc.end > 0) ==> r.pc.end <= w.head)
              && SameOpen(old(w.stream), w.stream, r.id)
    {
      Claimed(k);
      var skip := InsertComplete(k, c.record);
      HoldsStill(k);
      Others(k);
      if !skip {
        AdvanceHead(k, c.head);
        HoldsStill(k);
        Others(k);
      }
      DeleteInProgress(k, c.release);
    }

    lemma HoldsStill(k: Key)
      requires Valid() && k in w.requests && (w.requests[k].pc.AtHead? || w.requests[k].pc.AtRelease?)
      requires w.requests[k].kind.Whole? || w.requests[k].kind.Streamed?
      ensures Holds(w.requests[k]) && w.requests[k].id in w.claims
    {
      InvRun(trace);
      assert RequestOk(w, w.requests[k]);
    }

    method Arrive(k: Key, id: Id, sender: Id, kind: Kind)
      requires Valid() && Enabled(w, Begin(k, id, sender, kind)) && (kind.Whole? || kind.Streamed?)
      modifies this
      ensures Valid() && old(trace) <= trace && w.mode == Serving && k in w.requests
      ensures w.requests[k] == Request(id, sender, kind, if kind.Whole? then kind.content else "", AtLookup)
      ensures old(w.stream) <= w.stream && old(w.head) <= w.head
    {
      Do(Begin(k, id, sender, kind));
      Others(k);
    }

    /** POST /messages. The reply says what happened: a fresh one carries the true
        seqs of the message, which is still there when the reply is sent, with the
        row, the head and the claim as the calls left them; a replay or a 409
        repeats the row; a conflict means that somebody has the claim; an error
        that a call failed. */
    method SendMessage(k: Key, id: Id, sender: Id, content: string, c: SendCalls) returns (reply: Reply)
      requires Valid() && w.mode == Serving && k !in w.requests && content != ""
      modifies this
      ensures Valid() && old(trace) <= trace && w.mode == Serving && k !in w.requests
      ensures reply.Fresh? ==> c.lookup && c.claim == Ok && c.append == Ok && id !in old(w.dedup)
      ensures reply.Fresh? ==> Message(id, sender, content, reply.start, reply.end, Complete) in View(w.stream).done
      ensures reply.Fresh? ==> Concluded(w, id, reply.end, c.finals) && |old(w.stream)| <= reply.start
      ensures c.lookup && id in old(w.dedup) ==> Replays(reply, old(w.dedup[id]))
      ensures reply.Replayed? || reply.AlreadyAborted? ==> c.lookup && id in w.dedup && Replays(reply, w.dedup[id])
      ensures reply.Replayed? && id !in w.streams ==> Bracketed(w.stream, id, reply.start, reply.end)
      ensures reply.Conflict? ==> c.lookup && c.claim == Ok && id in w.claims
      ensures reply.Error? ==> !c.lookup || c.claim != Ok || (c.append != Ok && CleanedAfter(w, id, c.cleanup))
      ensures !reply.Acked? && !reply.BeyondHead?
    {
      Arrive(k, id, sender, Whole(content));
      ghost var arrived := trace;
      var admitted;
      reply, admitted := Admit(k, c.lookup, c.claim);
      Later(old(trace), arrived);
      if !admitted {
        if reply.Replayed? { NoFalseComplete(trace, [], id); }
        return;
      }
      Others(k);
      reply := Publish(k, c.append, c.finals, c.cleanup);
    }

    /** The send once its claim is won. */
    method Publish(k: Key, append: Outcome, finals: Finals, cleanup: Cleanup) returns (reply: Reply)
      requires Valid() && At(w, k, AtBatch) && w.requests[k].kind.Whole?
      requires w.requests[k].text == w.requests[k].kind.content != ""
      modifies this
      ensures Valid() && old(trace) <= trace && w.mode == old(w.mode) && k !in w.requests
      ensures var r := old(w.requests[k]);
              if append == Ok then
                && reply.Fresh? && |old(w.stream)| <= reply.start
                && Message(r.id, r.sender, r.text, reply.start, reply.end, Complete) in View(w.stream).done
                && RowBecomes(old(w.dedup), w.dedup, r.id, Took(finals.record), CompleteRow(reply.start, reply.end))
                && Concluded(w, r.id, reply.end, finals)
              else
                && reply == Error && CleanedAfter(w, r.id, cleanup)
                && RowBecomes(old(w.dedup), w.dedup, r.id, Took(cleanup.record), AbortedRow)
    {
      ghost var m := Message(w.requests[k].id, w.requests[k].sender, w.requests[k].text, |w.stream|, |w.stream| + 2, Complete);
      var ok, start := AppendBatch(k, append);
      ghost var landed := trace;
      Claimed(k);
      Others(k);
      if !ok {
        FinalizeAbort(k, cleanup);
        return Error;
      }
      Finalize(k, finals);
      StillThere(landed, trace, m);
      reply := Fresh(start, start + 2);
    }

    /** The atomic append of start, content and end. */
    method AppendBatch(k: Key, o: Outcome) returns (ok: bool, start: nat)
      requires Valid() && At(w, k, AtBatch) && w.requests[k].kind.Whole?
      requires w.requests[k].text == w.requests[k].kind.content != ""
      modifies this
      ensures Valid() && old(trace) <= trace && w.mode == old(w.mode) && k in w.requests
      ensures w.requests[k] == old(w.requests[k]).(pc := if ok then AtRecord(start, start + 2) else AtAbort)
      ensures start == |old(w.stream)| && (ok <==> o == Ok)
      ensures w.dedup == old(w.dedup) && w.claims == old(w.claims)
      ensures IsOpen(w, w.requests[k].id) <==> IsOpen(old(w), w.requests[k].id) && !Took(o)
      ensures var r := w.requests[k];
              ok ==> Message(r.id, r.sender, r.kind.content, start, start + 2, Complete) in View(w.stream).done
    {
      var r, before := w.requests[k], w.stream;
      start := |before|;
      Do(Batch(k, o));
      ok := o == Ok;
      BatchStep(before, r.id, r.sender, r.text);
      assert ok ==> Message(r.id, r.sender, r.text, start, start + 2, Complete) == View(w.stream).done[|View(before).done|];
    }

    /** Closing the append session: every ack is awaited unless one fails. */
    method CloseSession(k: Key, closes: bool, landings: nat) returns (ok: bool)
      requires Valid() && k in w.requests && w.requests[k].pc.Pumping?
      modifies this
      ensures Valid() && old(trace) <= trace && w.mode == old(w.mode) && k in w.requests
      ensures var sent := old(w.requests[k].pc.sent);
              && w.requests[k] == old(w.requests[k]).(pc :=
                   if ok then AtTailAfter(old(w.requests[k].pc.tail)) else AtAbort)
              && (ok <==> closes && sent != [] && sent[|sent| - 1].MessageEnd?)
    {
      var sent := w.requests[k].pc.sent;
      AwaitAcks(k, closes, landings);
      if !closes || sent == [] || !sent[|sent| - 1].MessageEnd? {
        Do(Quit(k));
        ok := false;
      } else {
        Do(CloseOk(k));
        ok := true;
      }
    }

    /** All records become durable, or some of them do. */
    method AwaitAcks(k: Key, all: bool, landings: nat)
      requires Valid() && k in w.requests && w.requests[k].pc.Pumping?
      modifies this
      ensures Valid() && old(trace) <= trace && w.mode == old(w.mode)
      ensures k in w.requests && Waited(old(w.requests[k]), w.requests[k]) && w.requests[k].pc.Pumping?
      ensures all ==> w.requests[k].pc.landed == |w.requests[k].pc.sent|
    {
      LandedWithin(k);
      var left := landings;
      while (all || left > 0) && w.requests[k].pc.landed < |w.requests[k].pc.sent|
        invariant Valid() && old(trace) <= trace && w.mode == old(w.mode)
        invariant k in w.requests && Waited(old(w.requests[k]), w.requests[k])
        invariant w.requests[k].pc.Pumping? && w.requests[k].pc.landed <= |w.requests[k].pc.sent|
        decreases |w.requests[k].pc.sent| - w.requests[k].pc.landed
      {
        LandOne(k);
        LandedWithin(k);
        if left > 0 { left := left - 1; }
      }
    }

    method LandOne(k: Key)
      requires Valid() && Enabled(w, Land(k))
      modifies this
      ensures Valid() && old(trace) <= trace && w.mode == old(w.mode)
      ensures k in w.requests && Waited(old(w.requests[k]), w.requests[k])
      ensures w.requests[k].pc.Pumping? && old(w.requests[k].pc.landed) < w.requests[k].pc.landed
    {
      Do(Land(k));
      Others(k);
    }

    lemma LandedWithin(k: Key)
      requires Valid() && k in w.requests && w.requests[k].pc.Pumping?
      ensures w.requests[k].pc.landed <= |w.requests[k].pc.sent|
    {
      InvRun(trace);
      assert RequestOk(w, w.requests[k]);
    }

    /** The tail, the session and the start. */
    method OpenStream(k: Key, tail: bool, open: bool, start: bool) returns (ok: bool)
      requires Valid() && At(w, k, AtTail) && w.requests[k].text == ""
      modifies this
      ensures Valid() && old(trace) <= trace && w.mode == old(w.mode) && k in w.requests && (ok <==> open && start)
      ensures var r := w.requests[k];
              && r == old(w.requests[k]).(pc := r.pc)
              && if ok then r.pc.Pumping? && r.pc.sent == [MessageStart(r.id, r.sender)] && r.pc.tail == (if tail then |old(w.stream)| else 0)
                 else r.pc == AtAbort
    {
      Do(Tail(k, tail));
      Others(k);
      Do(Open(k, open));
      ok := open;
      if ok {
        Others(k);
        ok := SubmitFirst(k, start);
      }
    }

    method SubmitFirst(k: Key, start: bool) returns (ok: bool)
      requires Valid() && k in w.requests && w.requests[k].pc.Pumping? && w.requests[k].pc.sent == []
      modifies this
      ensures Valid() && old(trace) <= trace && w.mode == old(w.mode) && k in w.requests && ok == start
      ensures var r := w.requests[k];
              && r == old(w.requests[k]).(pc := r.pc)
              && if ok then r.pc.Pumping? && r.pc.sent == [MessageStart(r.id, r.sender)] && r.pc.tail == old(w.requests[k].pc.tail)
                 else r.pc == AtAbort
    {
      Do(SubmitStart(k));
      Others(k);
      ok := start;
      if !ok { Do(Quit(k)); }
    }

    /** The body loop: empty lines and empty chunks are passed over; a bad line
        or a failed submit ends the session. */
    method Pump(k: Key, lines: seq<Line>, accepted: seq<bool>) returns (ok: bool)
      requires Valid() && CanSubmit(w, k) && w.requests[k].text == "" && |accepted| == |lines|
      modifies this
      ensures Valid() && old(trace) <= trace && w.mode == old(w.mode) && k in w.requests
      ensures ok <==> Clean(lines, accepted)
      ensures var r := w.requests[k];
              && r.id == old(w.requests[k].id) && r.sender == old(w.requests[k].sender) && r.kind == old(w.requests[k].kind)
              && if ok then CanSubmit(w, k) && r.text == Content(lines) && r.pc.tail == old(w.requests[k].pc.tail)
                 else r.pc == AtAbort
    {
      ok := true;
      for i := 0 to |lines|
        invariant Valid() && old(trace) <= trace && w.mode == old(w.mode) && ok
        invariant CanSubmit(w, k) && w.requests[k].text == Content(lines[..i])
        invariant w.requests[k].id == old(w.requests[k].id) && w.requests[k].sender == old(w.requests[k].sender)
        invariant w.requests[k].kind == old(w.requests[k].kind) && w.requests[k].pc.tail == old(w.requests[k].pc.tail)
        invariant Clean(lines[..i], accepted[..i])
      {
        PumpedNext(lines, accepted, i);
        ok := PumpLine(k, lines[i], accepted[i]);
        if !ok { return; }
      }
      assert lines[..|lines|] == lines && accepted[..|lines|] == accepted;
    }

    /** One line of the body. */
    method PumpLine(k: Key, line: Line, accepted: bool) returns (ok: bool)
      requires Valid() && CanSubmit(w, k)
      modifies this
      ensures Valid() && old(trace) <= trace && w.mode == old(w.mode) && k in w.requests
      ensures ok <==> LineOk(line, accepted)
      ensures var r, r' := old(w.requests[k]), w.requests[k];
              && r'.id == r.id && r'.sender == r.sender && r'.kind == r.kind
              && if ok then CanSubmit(w, k) && r'.text == r.text + (if line.Chunk? then line.content else "") && r'.pc.tail == r.pc.tail
                 else r'.pc == AtAbort
    {
      ok := line.EmptyLine? || line.Chunk?;
      if line.Chunk? && line.content != "" { ok := SubmitOne(k, line.content, accepted); }
      if !ok { Do(Quit(k)); }
    }

    method SubmitOne(k: Key, chunk: string, accepted: bool) returns (ok: bool)
      requires Valid() && CanSubmit(w, k) && chunk != ""
      modifies this
      ensures Valid() && old(trace) <= trace && w.mode == old(w.mode) && CanSubmit(w, k) && ok == accepted
      ensures var r, r' := old(w.requests[k]), w.requests[k];
              r'.id == r.id && r'.sender == r.sender && r'.kind == r.kind && r'.text == r.text + chunk && r'.pc.tail == r.pc.tail
    {
      Do(SubmitChunk(k, chunk));
      Others(k);
      ok := accepted;
    }

    /** The end of the body: a clean one is submitted and the session closed,
        anything else quits the session. */
    method EndStream(k: Key, bodyEnded: bool, closes: bool, landings: nat) returns (ok: bool)
      requires Valid() && CanSubmit(w, k)
      modifies this
      ensures Valid() && old(trace) <= trace && w.mode == old(w.mode) && k in w.requests
      ensures ok <==> bodyEnded && closes
      ensures w.requests[k] == old(w.requests[k]).(pc := if ok then AtTailAfter(old(w.requests[k].pc.tail)) else AtAbort)
    {
      if bodyEnded {
        Do(SubmitEnd(k));
        Others(k);
        ok := CloseSession(k, closes, landings);
      } else {
        Do(Quit(k));
        ok := false;
      }
    }

    /** Session, body and close. */
    method StreamBody(k: Key, lines: seq<Line>, bodyEnded: bool, c: StreamCalls) returns (ok: bool)
      requires Valid() && At(w, k, AtTail) && w.requests[k].text == "" && |c.accepted| == |lines|
      modifies this
      ensures Valid() && old(trace) <= trace && w.mode == old(w.mode) && k in w.requests
      ensures ok <==> Through(c, lines, bodyEnded)
      ensures ok ==> w.requests[k].pc == AtTailAfter(if c.tail then |old(w.stream)| else 0) && w.requests[k].text == Content(lines)
      ensures !ok ==> w.requests[k].pc == AtAbort
      ensures w.requests[k].id == old(w.requests[k].id) && w.requests[k].sender == old(w.requests[k].sender)
      ensures w.requests[k].kind == old(w.requests[k].kind)
    {
      ok := OpenStream(k, c.tail, c.open, c.start);
      if ok {
        Others(k);
        ok := FeedStream(k, lines, bodyEnded, c);
      }
    }

    method FeedStream(k: Key, lines: seq<Line>, bodyEnded: bool, c: StreamCalls) returns (ok: bool)
      requires Valid() && CanSubmit(w, k) && w.requests[k].text == "" && |c.accepted| == |lines|
      modifies this
      ensures Valid() && old(trace) <= trace && w.mode == old(w.mode) && k in w.requests
      ensures ok <==> Clean(lines, c.accepted) && bodyEnded && c.closes
      ensures var r, r' := old(w.requests[k]), w.requests[k];
              && r'.id == r.id && r'.sender == r.sender && r'.kind == r.kind
              && if ok then r'.pc == AtTailAfter(r.pc.tail) && r'.text == Content(lines) else r'.pc == AtAbort
    {
      ok := Pump(k, lines, c.accepted);
      if ok {
        Others(k);
        ok := EndStream(k, bodyEnded, c.closes, c.landings);
      }
    }

    /** POST /messages/stream. A fresh reply means that the start, every
        non-empty chunk and the end are durable as one message. The range it
        carries is an estimate of that message's own: unknown if the second tail
        reading failed, otherwise from one past the first reading, made after the
        request came in, to a seq past the message's end. */
    method StreamMessage(k: Key, id: Id, sender: Id, lines: seq<Line>, bodyEnded: bool, c: StreamCalls) returns (reply: Reply)
      requires Valid() && w.mode == Serving && k !in w.requests && |c.accepted| == |lines|
      modifies this
      ensures Valid() && old(trace) <= trace && w.mode == Serving && k !in w.requests
      ensures reply.Fresh? ==> c.lookup && c.claim == Ok && Through(c, lines, bodyEnded) && id !in old(w.dedup)
      ensures reply.Fresh? ==>
                && (exists m :: Published(w.stream, id, sender, Content(lines), 0, m) && RangeOf(reply, m, c.tailAfter))
                && (c.tailAfter ==> if c.tail then |old(w.stream)| < reply.start else reply.start == 1)
                && Concluded(w, id, reply.end, c.finals)
      ensures c.lookup && id in old(w.dedup) ==> Replays(reply, old(w.dedup[id]))
      ensures reply.Replayed? || reply.AlreadyAborted? ==> c.lookup && id in w.dedup && Replays(reply, w.dedup[id])
      ensures reply.Conflict? ==> c.lookup && c.claim == Ok && id in w.claims
      ensures reply.Error? ==> !c.lookup || c.claim != Ok || (!Through(c, lines, bodyEnded) && CleanedAfter(w, id, c.cleanup))
      ensures !reply.Acked? && !reply.BeyondHead?
    {
      Arrive(k, id, sender, Streamed);
      ghost var arrived := trace;
      var admitted;
      reply, admitted := Admit(k, c.lookup, c.claim);
      Later(old(trace), arrived);
      if !admitted { return; }
      Others(k);
      reply := StreamAdmitted(k, lines, bodyEnded, c);
    }

    /** The streamed send once its claim is won. */
    method StreamAdmitted(k: Key, lines: seq<Line>, bodyEnded: bool, c: StreamCalls) returns (reply: Reply)
      requires Valid() && At(w, k, AtTail) && w.requests[k].text == "" && w.requests[k].kind.Streamed? && |c.accepted| == |lines|
      modifies this
      ensures Valid() && old(trace) <= trace && w.mode == old(w.mode) && k !in w.requests
      ensures var r := old(w.requests[k]);
              if Through(c, lines, bodyEnded) then
                && reply.Fresh?
                && (exists m :: Published(w.stream, r.id, r.sender, Content(lines), 0, m) && RangeOf(reply, m, c.tailAfter))
                && (c.tailAfter ==> reply.start == (if c.tail then |old(w.stream)| else 0) + 1)
                && Concluded(w, r.id, reply.end, c.finals)
              else reply == Error && CleanedAfter(w, r.id, c.cleanup)
    {
      var ok := StreamBody(k, lines, bodyEnded, c);
      Others(k);
      if ok { reply := Conclude(k, c.tailAfter, c.finals); } else { reply := GiveUp(k, c.cleanup); }
    }

    method GiveUp(k: Key, c: Cleanup) returns (reply: Reply)
      requires Valid() && At(w, k, AtAbort)
      modifies this
      ensures Valid() && old(trace) <= trace && w.mode == old(w.mode) && k !in w.requests
      ensures reply == Error && CleanedAfter(w, old(w.requests[k].id), c)
    {
      FinalizeAbort(k, c);
      reply := Error;
    }

    /** After a clean close: read the tail, record, reply. */
    method Conclude(k: Key, tailAfter: bool, finals: Finals) returns (reply: Reply)
      requires Valid() && k in w.requests && w.requests[k].pc.AtTailAfter? && w.requests[k].kind.Streamed?
      modifies this
      ensures Valid() && old(trace) <= trace && w.mode == old(w.mode) && k !in w.requests
      ensures reply == if tailAfter then Fresh(old(w.requests[k].pc.tail) + 1, |old(w.stream)|) else Fresh(0, 0)
      ensures var r := old(w.requests[k]);
              && (exists m :: Published(w.stream, r.id, r.sender, r.text, 0, m) && RangeOf(reply, m, tailAfter))
              && RowBecomes(old(w.dedup), w.dedup, r.id, Took(finals.record), CompleteRow(reply.start, reply.end))
              && Concluded(w, r.id, reply.end, finals)
    {
      ghost var m;
      reply, m := ReadRange(k, tailAfter);
      ghost var r, closed := w.requests[k], trace;
      Claimed(k);
      Others(k);
      Finalize(k, finals);
      PublishedLater(closed, trace, r, m);
    }

    /** The second tail reading, and the range made of both. */
    method ReadRange(k: Key, tailAfter: bool) returns (reply: Reply, ghost m: Message)
      requires Valid() && k in w.requests && w.requests[k].pc.AtTailAfter? && w.requests[k].kind.Streamed?
      modifies this
      ensures Valid() && old(trace) <= trace && w.(requests := old(w.requests)) == old(w)
      ensures reply == if tailAfter then Fresh(old(w.requests[k].pc.tail) + 1, |old(w.stream)|) else Fresh(0, 0)
      ensures k in w.requests && w.requests[k] == old(w.requests[k]).(pc := AtRecord(reply.start, reply.end))
      ensures var r := w.requests[k]; Published(w.stream, r.id, r.sender, r.text, 0, m) && RangeOf(reply, m, tailAfter)
    {
      var r := w.requests[k];
      InvRun(trace);
      assert RequestOk(w, r);
      m :| Published(w.stream, r.id, r.sender, r.text, r.pc.tail, m);
      SeqsInOrder(w.stream, m);
      Do(TailAfter(k, tailAfter));
      reply := Fresh(w.requests[k].pc.start, w.requests[k].pc.end);
    }

    /** POST /ack: the head is read in one call and the cursor raised in another.
        A 204 means that the stored cursor has reached seq; a refusal that seq is
        beyond the head; anything else that a call failed. */
    method AckCursor(k: Key, agent: Id, upTo: nat, read: bool, write: Outcome) returns (reply: Reply)
      requires Valid() && w.mode == Serving && k !in w.requests
      modifies this
      ensures Valid() && old(trace) <= trace && w.mode == Serving && k !in w.requests
      ensures reply == Acked || reply == BeyondHead || reply == Error
      ensures reply == Acked ==> read && write == Ok && upTo <= AckOf(w, agent) <= w.head
      ensures reply == BeyondHead ==> read && old(w.head) <= w.head < upTo
      ensures reply == Error ==> !read || (write != Ok && upTo <= w.head)
    {
      ghost var asked := trace;
      Do(Begin(k, 0, agent, Ack(upTo)));
      Others(k);
      RunRises(asked, trace, agent);
      reply := CheckHead(k, read);
      if reply != Acked { return; }
      ghost var checked := trace;
      Others(k);
      reply := WriteAck(k, write);
      RunRises(checked, trace, agent);
      InvRun(trace);
    }

    method CheckHead(k: Key, ok: bool) returns (reply: Reply)
      requires Valid() && At(w, k, AtAckRead) && w.requests[k].kind.Ack?
      modifies this
      ensures Valid() && old(trace) <= trace && w.(requests := old(w.requests)) == old(w)
      ensures reply == if !ok then Error else if old(w.requests[k].kind.upTo) <= w.head then Acked else BeyondHead
      ensures if reply == Acked then k in w.requests && w.requests[k] == old(w.requests[k]).(pc := AtAckWrite) else k !in w.requests
    {
      reply := if !ok then Error else if w.requests[k].kind.upTo > w.head then BeyondHead else Acked;
      Do(AckRead(k, ok));
    }

    method WriteAck(k: Key, o: Outcome) returns (reply: Reply)
      requires Valid() && At(w, k, AtAckWrite) && w.requests[k].kind.Ack?
      modifies this
      ensures Valid() && old(trace) <= trace && w.mode == old(w.mode) && k !in w.requests
      ensures reply == if o == Ok then Acked else Error
      ensures Took(o) ==> old(w.requests[k].kind.upTo) <= AckOf(w, old(w.requests[k].sender))
    {
      Do(AckWrite(k, o));
      reply := if o == Ok then Acked else Error;
    }

    /** A sender reads its own message back: if its head update took effect, an
        ack up to the end of the reply is not refused, whoever acks and whatever
        runs in between. */
    method AckOfSend(k: Key, id: Id, sender: Id, content: string, c: SendCalls, agent: Id, upTo: nat, read: bool, write: Outcome)
      returns (sent: Reply, acked: Reply)
      requires Valid() && w.mode == Serving && k !in w.requests && content != ""
      modifies this
      ensures Valid() && old(trace) <= trace
      ensures sent.Fresh? && Took(c.finals.head) && upTo <= sent.end && read && write == Ok ==>
                acked == Acked && upTo <= AckOf(w, agent)
    {
      sent := SendMessage(k, id, sender, content, c);
      acked := AckCursor(k, agent, upTo, read, write);
    }

    /** The same after a streamed send, unless its range is unknown. */
    method AckOfStream(k: Key, id: Id, sender: Id, lines: seq<Line>, bodyEnded: bool, c: StreamCalls,
                       agent: Id, upTo: nat, read: bool, write: Outcome)
      returns (sent: Reply, acked: Reply)
      requires Valid() && w.mode == Serving && k !in w.requests && |c.accepted| == |lines|
      modifies this
      ensures Valid() && old(trace) <= trace
      ensures sent.Fresh? && Took(c.finals.head) && upTo <= sent.end && read && write == Ok ==>
                acked == Acked && upTo <= AckOf(w, agent)
    {
      sent := StreamMessage(k, id, sender, lines, bodyEnded, c);
      acked := AckCursor(k, agent, upTo, read, write);
    }

    method AppendEvent(k: Key, o: Outcome) returns (ok: bool, at: nat)
      requires Valid() && At(w, k, AtNotice) && w.requests[k].kind.Notice?
      modifies this
      ensures Valid() && old(trace) <= trace && w.mode == old(w.mode) && (ok <==> o == Ok)
      ensures at == |old(w.stream)|
      ensures if ok then
                && k in w.requests && w.requests[k] == old(w.requests[k]).(pc := AtHead(at))
                && w.stream == old(w.stream) + [old(w.requests[k].kind.event)]
              else k !in w.requests
    {
      at := |w.stream|;
      Do(Announce(k, o));
      ok := o == Ok;
    }

    method NoticeHead(k: Key, o: Outcome)
      requires Valid() && k in w.requests && w.requests[k].pc.AtHead? && w.requests[k].kind.Notice?
      modifies this
      ensures Valid() && old(trace) <= trace && w.mode == old(w.mode) && k !in w.requests && w.stream == old(w.stream)
      ensures Took(o) ==> old(w.requests[k].pc.end) <= w.head
    {
      CursorsAfter(w, Head(k, o), 0);
      Do(Head(k, o));
    }

    /** The membership record of a create, an invite or a leave, and the head. */
    method AppendNotice(k: Key, event: Event, append: Outcome, head: Outcome) returns (ok: bool, at: nat)
      requires Valid() && w.mode == Serving && k !in w.requests && (event.AgentJoined? || event.AgentLeft?)
      modifies this
      ensures Valid() && old(trace) <= trace && w.mode == Serving && k !in w.requests
      ensures ok <==> append == Ok
      ensures ok ==> |old(w.stream)| <= at < |w.stream| && w.stream[at] == event && (Took(head) ==> at <= w.head)
    {
      Do(Begin(k, 0, 0, Notice(event)));
      Others(k);
      ok, at := AppendEvent(k, append);
      if ok {
        Others(k);
        NoticeHead(k, head);
      }
    }

    /** The sweep at startup, over the rows the claims table listed in whatever
        order. Only its own steps run: nothing is served yet. */
    method RecoverInProgressMessages(rows: seq<Id>, listed: bool, fates: seq<RowFate>) returns (recovered: nat, orphaned: nat)
      requires Valid() && w.mode == Down && Lists(rows, w.claims) && |fates| == |rows|
      requires forall i :: 0 <= i < |fates| ==> Tries(fates[i])
      modifies this
      ensures Valid() && old(trace) <= trace && w.mode == Serving
      ensures View(old(w.stream)).done <= View(w.stream).done && w.claims <= old(w.claims)
      ensures if listed then Swept(old(w), w, rows, fates) && recovered == Tally(fates, true) && orphaned == Tally(fates, false)
              else w == old(w).(mode := Serving) && recovered == orphaned == 0
    {
      if !listed {
        Do(List(rows, false));
        return 0, 0;
      }
      recovered, orphaned := SweepListed(rows, fates);
    }

    method SweepListed(rows: seq<Id>, fates: seq<RowFate>) returns (recovered: nat, orphaned: nat)
      requires Valid() && w.mode == Down && Lists(rows, w.claims) && |fates| == |rows|
      requires forall i :: 0 <= i < |fates| ==> Tries(fates[i])
      modifies this
      ensures Valid() && old(trace) <= trace && w.mode == Serving
      ensures View(old(w.stream)).done <= View(w.stream).done && w.claims <= old(w.claims)
      ensures Swept(old(w), w, rows, fates) && recovered == Tally(fates, true) && orphaned == Tally(fates, false)
    {
      ghost var before := w;
      Do(List(rows, true));
      ghost var listed := w;
      recovered, orphaned := SweepRows(rows, fates);
      ghost var swept := w;
      Do(SweepEnd);
      SweptBetween(before, listed, swept, w, rows, fates);
    }

    /** The loop over the rows. */
    method SweepRows(rows: seq<Id>, fates: seq<RowFate>) returns (recovered: nat, orphaned: nat)
      requires Valid() && w.mode == Sweeping(rows, SweepAbort) && Lists(rows, w.claims) && |fates| == |rows|
      requires forall i :: 0 <= i < |fates| ==> Tries(fates[i])
      modifies this
      ensures Valid() && old(trace) <= trace && w.mode == Sweeping([], SweepAbort)
      ensures View(old(w.stream)).done <= View(w.stream).done && w.claims <= old(w.claims)
      ensures Swept(old(w), w, rows, fates) && recovered == Tally(fates, true) && orphaned == Tally(fates, false)
    {
      recovered, orphaned := 0, 0;
      ghost var before := w;
      SweptNone(before, rows, fates);
      for i := 0 to |rows|
        invariant Valid() && old(trace) <= trace && w.mode == Sweeping(rows[i..], SweepAbort)
        invariant View(before.stream).done <= View(w.stream).done && w.claims <= before.claims
        invariant SweptUpTo(before, w, rows, fates, i)
        invariant recovered == Tally(fates[..i], true) && orphaned == Tally(fates[..i], false)
      {
        TallyNext(fates, i);
        ghost var previous := w;
        var settled := SweepRow(rows[i..], fates[i]);
        SweptOn(before, previous, w, rows, fates, i);
        if fates[i].abort == Ok {
          if settled { recovered := recovered + 1; } else { orphaned := orphaned + 1; }
        }
      }
      assert fates[..|rows|] == fates;
    }

    /** One row of the sweep. A failed abort append skips the row; a failed
        dedup insert is passed over. */
    method SweepRow(rows: seq<Id>, fate: RowFate) returns (settled: bool)
      requires Valid() && w.mode == Sweeping(rows, SweepAbort) && rows != [] && Tries(fate)
      modifies this
      ensures Valid() && old(trace) <= trace && w.mode == Sweeping(rows[1..], SweepAbort)
      ensures OneSwept(old(w), w, rows[0], fate)
      ensures settled <==> fate.abort == Ok && Succeeds(fate.deletes)
      ensures View(old(w.stream)).done <= View(w.stream).done
    {
      AbortRowOf(rows, fate.abort);
      settled := false;
      if fate.abort == Ok { settled := SettleRow(rows, fate); }
    }

    method AbortRowOf(rows: seq<Id>, o: Outcome)
      requires Valid() && w.mode == Sweeping(rows, SweepAbort) && rows != []
      modifies this
      ensures Valid() && old(trace) <= trace
      ensures w.mode == if o == Ok then Sweeping(rows, SweepRecord) else Sweeping(rows[1..], SweepAbort)
      ensures w.claims == old(w.claims) && w.dedup == old(w.dedup)
      ensures forall i :: IsOpen(w, i) <==> IsOpen(old(w), i) && !(i == rows[0] && Took(o))
      ensures View(old(w.stream)).done <= View(w.stream).done
    {
      AbortCloses(w.stream, rows[0]);
      Do(AbortRow(o));
    }

    /** The two metadata calls after a row's abort, with their retries. */
    method SettleRow(rows: seq<Id>, fate: RowFate) returns (settled: bool)
      requires Valid() && w.mode == Sweeping(rows, SweepRecord) && rows != [] && Tries(fate)
      modifies this
      ensures Valid() && old(trace) <= trace && w.mode == Sweeping(rows[1..], SweepAbort) && w.stream == old(w.stream)
      ensures settled <==> Succeeds(fate.deletes)
      ensures w.claims == if Takes(fate.deletes) then old(w.claims) - {rows[0]} else old(w.claims)
      ensures RowBecomes(old(w.dedup), w.dedup, rows[0], Takes(fate.inserts), AbortedRow)
      ensures forall id :: id != rows[0] ==> RowBecomes(old(w.dedup), w.dedup, id, false, AbortedRow)
    {
      InsertRowOf(rows, fate.inserts);
      settled := DeleteRowOf(rows, fate.deletes);
    }

    method InsertRowOf(rows: seq<Id>, tries: seq<(Outcome, bool)>)
      requires Valid() && w.mode == Sweeping(rows, SweepRecord) && rows != [] && |tries| == 3
      modifies this
      ensures Valid() && old(trace) <= trace && w.mode == Sweeping(rows, SweepDelete)
      ensures w.stream == old(w.stream) && w.claims == old(w.claims)
      ensures RowBecomes(old(w.dedup), w.dedup, rows[0], Takes(tries), AbortedRow)
      ensures forall id :: id != rows[0] ==> RowBecomes(old(w.dedup), w.dedup, id, false, AbortedRow)
    {
      var inserted, made := RetryMeta(tries);
      Do(RecordRow(inserted));
    }

    method DeleteRowOf(rows: seq<Id>, tries: seq<(Outcome, bool)>) returns (settled: bool)
      requires Valid() && w.mode == Sweeping(rows, SweepDelete) && rows != [] && |tries| == 3
      modifies this
      ensures Valid() && old(trace) <= trace && w.mode == Sweeping(rows[1..], SweepAbort)
      ensures w.stream == old(w.stream) && w.dedup == old(w.dedup) && (settled <==> Succeeds(tries))
      ensures w.claims == if Takes(tries) then old(w.claims) - {rows[0]} else old(w.claims)
    {
      var deleted, made := RetryMeta(tries);
      Do(DeleteRow(deleted));
      settled := deleted == Ok;
    }
  }

  /** After a request's append and close: its row is there if the insert took
      effect, the head has reached its end if the update did, and its claim is
      gone iff the delete took effect. */
  ghost predicate Concluded(w: World, id: Id, end: nat, c: Finals) {
    && (Took(c.record) ==> id in w.dedup)
    && (Took(c.head) ==> end <= w.head)
    && (id in w.claims <==> !Took(c.release))
  }

  /** After a cleanup: no message is open if the abort landed, a row is there if
      the insert took effect, and the claim is gone iff the delete did. */
  ghost predicate CleanedAfter(w: World, id: Id, c: Cleanup) {
    && (Took(c.abort) ==> !IsOpen(w, id))
    && (Took(c.record) ==> id in w.dedup)
    && (id in w.claims <==> !Took(c.release))
  }

  /** Why a request was not let in. */
  ghost predicate Refused(reply: Reply, before: World, w: World, id: Id, lookup: bool, claim: Outcome) {
    if !lookup then reply == Error
    else if id in before.dedup then id in w.dedup && Replays(reply, before.dedup[id]) && Replays(reply, w.dedup[id])
    else if claim != Ok then reply == Error
    else reply == Conflict && id in w.claims
  }

  /** The range a streamed send replies with, against the message's own. */
  ghost predicate RangeOf(reply: Reply, m: Message, tailAfter: bool)
    requires reply.Fresh?
  {
    if tailAfter then 0 < reply.start <= m.seqStart + 1 && m.seqEnd < reply.end
    else reply.start == 0 && reply.end == 0
  }

  lemma SeqsInOrder(stream: seq<Event>, m: Message)
    requires m in View(stream).done
    ensures m.seqStart < m.seqEnd
  {
    OrderlyRun(Log(stream));
  }

  // ------------------------------------------------------------------
  // What a sweep leaves
  // ------------------------------------------------------------------

  /** How the calls for one row end: the abort append, and the attempts at the
      insert and at the delete, each with whether the process is told to stop
      after it. */
  datatype RowFate = RowFate(abort: Outcome, inserts: seq<(Outcome, bool)>, deletes: seq<(Outcome, bool)>)

  predicate Tries(f: RowFate) { |f.inserts| == 3 && |f.deletes| == 3 }

  /** Some attempt is made that succeeds; some attempt is made that takes effect. */
  ghost predicate Succeeds(tries: seq<(Outcome, bool)>) {
    exists i :: 0 <= i < |tries| && tries[i].0 == Ok && Made(tries, i)
  }

  ghost predicate Takes(tries: seq<(Outcome, bool)>) {
    exists i :: 0 <= i < |tries| && Took(tries[i].0) && Made(tries, i)
  }

  /** Attempt i is made: none before it succeeded or was the last allowed. */
  ghost predicate Made(tries: seq<(Outcome, bool)>, i: nat) {
    forall j :: 0 <= j < i && j < |tries| ==> tries[j].0 != Ok && !tries[j].1
  }

  /** One row swept: its message is closed iff the abort took effect; after an
      abort known to be there, its row is inserted and its claim goes as those
      calls took effect; nothing else changes. */
  ghost predicate OneSwept(w: World, w': World, id: Id, f: RowFate) {
    && (forall i :: IsOpen(w', i) <==> IsOpen(w, i) && !(i == id && Took(f.abort)))
    && w'.claims == (if f.abort == Ok && Takes(f.deletes) then w.claims - {id} else w.claims)
    && RowBecomes(w.dedup, w'.dedup, id, f.abort == Ok && Takes(f.inserts), AbortedRow)
    && (forall i :: i != id ==> RowBecomes(w.dedup, w'.dedup, i, false, AbortedRow))
  }

  /** All rows swept. */
  ghost predicate Swept(w: World, w': World, rows: seq<Id>, fates: seq<RowFate>)
    requires |fates| == |rows|
  {
    SweptUpTo(w, w', rows, fates, |rows|)
  }

  /** The first n rows swept, the others as they were. */
  ghost predicate SweptUpTo(w: World, w': World, rows: seq<Id>, fates: seq<RowFate>, n: nat)
    requires n <= |fates| == |rows|
  {
    && (forall id :: IsOpen(w', id) <==> IsOpen(w, id) && !AbortTook(rows, fates, n, id))
    && (forall i :: 0 <= i < n ==> (rows[i] in w'.claims <==> !(fates[i].abort == Ok && Takes(fates[i].deletes))))
    && (forall i :: 0 <= i < n ==>
          RowBecomes(w.dedup, w'.dedup, rows[i], fates[i].abort == Ok && Takes(fates[i].inserts), AbortedRow))
    && (forall i :: n <= i < |rows| ==> rows[i] in w'.claims && RowBecomes(w.dedup, w'.dedup, rows[i], false, AbortedRow))
  }

  lemma SweptNone(w: World, rows: seq<Id>, fates: seq<RowFate>)
    requires |fates| == |rows| && Lists(rows, w.claims)
    ensures SweptUpTo(w, w, rows, fates, 0)
  {
    forall i | 0 <= i < |rows| ensures rows[i] in w.claims {
      assert rows[i] in set id | id in rows;
    }
  }

  ghost predicate AbortTook(rows: seq<Id>, fates: seq<RowFate>, n: nat, id: Id)
    requires n <= |fates| == |rows|
  {
    exists i :: 0 <= i < n && rows[i] == id && Took(fates[i].abort)
  }

  lemma AbortTookOn(rows: seq<Id>, fates: seq<RowFate>, n: nat, id: Id)
    requires n < |fates| == |rows|
    ensures AbortTook(rows, fates, n + 1, id) <==> AbortTook(rows, fates, n, id) || (rows[n] == id && Took(fates[n].abort))
  {
    if i :| 0 <= i < n && rows[i] == id && Took(fates[i].abort) { assert i < n + 1; }
  }

  lemma OpenOn(w: World, v: World, w': World, rows: seq<Id>, fates: seq<RowFate>, n: nat)
    requires n < |fates| == |rows|
    requires SweptUpTo(w, v, rows, fates, n) && OneSwept(v, w', rows[n], fates[n])
    ensures forall id :: IsOpen(w', id) <==> IsOpen(w, id) && !AbortTook(rows, fates, n + 1, id)
  {
    forall id ensures IsOpen(w', id) <==> IsOpen(w, id) && !AbortTook(rows, fates, n + 1, id) {
      AbortTookOn(rows, fates, n, id);
    }
  }

  lemma RowsOn(w: World, v: World, w': World, rows: seq<Id>, fates: seq<RowFate>, n: nat, i: nat)
    requires n < |fates| == |rows| && Distinct(rows) && i < |rows|
    requires SweptUpTo(w, v, rows, fates, n) && OneSwept(v, w', rows[n], fates[n])
    ensures i < n + 1 ==> (rows[i] in w'.claims <==> !(fates[i].abort == Ok && Takes(fates[i].deletes)))
    ensures i < n + 1 ==> RowBecomes(w.dedup, w'.dedup, rows[i], fates[i].abort == Ok && Takes(fates[i].inserts), AbortedRow)
    ensures i > n ==> rows[i] in w'.claims && RowBecomes(w.dedup, w'.dedup, rows[i], false, AbortedRow)
  {
    assert i != n ==> rows[i] != rows[n];
    assert RowBecomes(w.dedup, v.dedup, rows[i], i < n && fates[i].abort == Ok && Takes(fates[i].inserts), AbortedRow);
    if i != n { assert RowBecomes(v.dedup, w'.dedup, rows[i], false, AbortedRow); }
  }

  lemma SweptOn(w: World, v: World, w': World, rows: seq<Id>, fates: seq<RowFate>, n: nat)
    requires n < |fates| == |rows| && Distinct(rows)
    requires SweptUpTo(w, v, rows, fates, n) && OneSwept(v, w', rows[n], fates[n])
    ensures SweptUpTo(w, w', rows, fates, n + 1)
  {
    OpenOn(w, v, w', rows, fates, n);
    forall i | 0 <= i < |rows|
      ensures i < n + 1 ==> (rows[i] in w'.claims <==> !(fates[i].abort == Ok && Takes(fates[i].deletes)))
      ensures i < n + 1 ==> RowBecomes(w.dedup, w'.dedup, rows[i], fates[i].abort == Ok && Takes(fates[i].inserts), AbortedRow)
      ensures i > n ==> rows[i] in w'.claims && RowBecomes(w.dedup, w'.dedup, rows[i], false, AbortedRow)
    {
      RowsOn(w, v, w', rows, fates, n, i);
    }
  }

  /** Listing the rows and ending the sweep change nothing that it says. */
  lemma SweptBetween(w: World, v: World, x: World, w': World, rows: seq<Id>, fates: seq<RowFate>)
    requires |fates| == |rows| && Swept(v, x, rows, fates)
    requires v == w.(mode := v.mode) && w' == x.(mode := w'.mode)
    ensures Swept(w, w', rows, fates)
  {
    assert forall id :: (IsOpen(v, id) <==> IsOpen(w, id)) && (IsOpen(x, id) <==> IsOpen(w', id));
  }

  /** How many rows were aborted for sure and then released for sure, or not. */
  ghost function Tally(fates: seq<RowFate>, settled: bool): nat {
    if fates == [] then 0
    else
      var f := fates[|fates| - 1];
      Tally(fates[..|fates| - 1], settled) + if f.abort == Ok && Succeeds(f.deletes) == settled then 1 else 0
  }

  lemma TallyNext(fates: seq<RowFate>, i: nat)
    requires i < |fates|
    ensures forall settled ::
              Tally(fates[..i + 1], settled)
              == Tally(fates[..i], settled) + if fates[i].abort == Ok && Succeeds(fates[i].deletes) == settled then 1 else 0
  {
    assert fates[..i + 1][..i] == fates[..i];
  }

  lemma AbortCloses(stream: seq<Event>, id: Id)
    ensures var s := stream + [MessageAbort(id, "server_crash")];
            && View(stream).done <= View(s).done
            && (forall i :: i in View(s).pending <==> i in View(stream).pending && i != id)
  {
    ViewAppend(stream, MessageAbort(id, "server_crash"));
  }

  /** Up to three attempts, stopping at the first success or when told to stop.
      The call took effect iff one of the attempts made did, and succeeds iff
      the last attempt made did. */
  method RetryMeta(tries: seq<(Outcome, bool)>) returns (o: Outcome, made: nat)
    requires |tries| == 3
    ensures 1 <= made <= 3
    ensures o == Ok <==> tries[made - 1].0 == Ok
    ensures Took(o) <==> exists i :: 0 <= i < made && Took(tries[i].0)
    ensures (o == Ok <==> Succeeds(tries)) && (Took(o) <==> Takes(tries))
    ensures forall i :: 0 <= i < made - 1 ==> tries[i].0 != Ok && !tries[i].1
    ensures made < 3 ==> tries[made - 1].0 == Ok || tries[made - 1].1
  {
    o, made := Failed, 0;
    while made < 3
      invariant made <= 3 && o != Ok
      invariant Took(o) <==> exists i :: 0 <= i < made && Took(tries[i].0)
      invariant forall i :: 0 <= i < made ==> tries[i].0 != Ok && !tries[i].1
    {
      var (attempt, stop) := tries[made];
      made := made + 1;
      if Took(attempt) { o := attempt; }
      if attempt == Ok || stop { return; }
    }
  }
}
