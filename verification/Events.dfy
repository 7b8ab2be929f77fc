/** The event stream of a conversation and how messages are assembled from it. */
module Events {
  import opened Common

  /** Message and agent identifiers are opaque; only equality matters. */
  type Id = nat

  /** What one record of the stream says. Unreadable stands for a record whose
      payload does not parse or whose type is unknown: every reader skips it. */
  datatype Event =
    | MessageStart(id: Id, sender: Id)
    | MessageAppend(id: Id, content: string)
    | MessageEnd(id: Id)
    | MessageAbort(id: Id, reason: string)
    | AgentJoined(agent: Id)
    | AgentLeft(agent: Id)
    | Unreadable

  datatype SeqEvent = SeqEvent(at: nat, event: Event)

  datatype Status = Complete | Aborted | InProgress

  datatype Message = Message(id: Id, sender: Id, content: string, seqStart: nat, seqEnd: nat, status: Status)

  datatype Pending = Pending(sender: Id, content: string, seqStart: nat)

  /** State of an assembly: the messages still open and those already finished,
      in the order in which they finished. */
  datatype Assembly = Assembly(pending: map<Id, Pending>, done: seq<Message>)

  const EMPTY := Assembly(map[], [])

  /** The message an event is about. */
  predicate Concerns(e: Event, id: Id) {
    match e
    case MessageStart(i, _) => i == id
    case MessageAppend(i, _) => i == id
    case MessageEnd(i) => i == id
    case MessageAbort(i, _) => i == id
    case _ => false
  }

  /** Starts, ends and aborts delimit a message; appends do not. */
  predicate Delimits(e: Event, id: Id) {
    Concerns(e, id) && !e.MessageAppend?
  }

  function Finish(a: Assembly, id: Id, at: nat, status: Status): Assembly
    requires id in a.pending
  {
    var p := a.pending[id];
    Assembly(a.pending - {id}, a.done + [Message(id, p.sender, p.content, p.seqStart, at, status)])
  }

  function Fold(a: Assembly, e: SeqEvent): Assembly {
    match e.event
    case MessageStart(id, sender) => a.(pending := a.pending[id := Pending(sender, "", e.at)])
    case MessageAppend(id, content) =>
      if id !in a.pending then a
      else a.(pending := a.pending[id := a.pending[id].(content := a.pending[id].content + content)])
    case MessageEnd(id) => if id !in a.pending then a else Finish(a, id, e.at, Complete)
    case MessageAbort(id, _) => if id !in a.pending then a else Finish(a, id, e.at, Aborted)
    case _ => a
  }

  function Run(a: Assembly, es: seq<SeqEvent>): Assembly {
    if es == [] then a else Fold(Run(a, es[..|es| - 1]), es[|es| - 1])
  }

  function Unfinished(id: Id, p: Pending): Message {
    Message(id, p.sender, p.content, p.seqStart, 0, InProgress)
  }

  /** ms shows assembly a: its finished messages in order, then its open ones,
      each once, in some order. */
  ghost predicate Shows(ms: seq<Message>, a: Assembly) {
    && |ms| == |a.done| + |a.pending|
    && ms[..|a.done|] == a.done
    && (forall m :: m in ms[|a.done|..] ==> m.id in a.pending && m == Unfinished(m.id, a.pending[m.id]))
    && (forall id :: id in a.pending ==> Unfinished(id, a.pending[id]) in ms[|a.done|..])
  }

  /** AssembleMessages: one pass over the events with a table of open messages,
      then the open ones in whatever order the table yields them. */
  method AssembleMessages(events: seq<SeqEvent>) returns (messages: seq<Message>)
    ensures Shows(messages, Run(EMPTY, events))
    ensures forall m :: m in messages <==> Reported(events, m)
  {
    var pending: map<Id, Pending> := map[];
    messages := [];
    for i := 0 to |events|
      invariant Assembly(pending, messages) == Run(EMPTY, events[..i])
    {
      assert events[..i + 1][..i] == events[..i];
      var at := events[i].at;
      match events[i].event {
        case MessageStart(id, sender) =>
          pending := pending[id := Pending(sender, "", at)];
        case MessageAppend(id, content) =>
          if id in pending {
            pending := pending[id := pending[id].(content := pending[id].content + content)];
          }
        case MessageEnd(id) =>
          if id in pending {
            var p := pending[id];
            pending := pending - {id};
            messages := messages + [Message(id, p.sender, p.content, p.seqStart, at, Complete)];
          }
        case MessageAbort(id, _) =>
          if id in pending {
            var p := pending[id];
            pending := pending - {id};
            messages := messages + [Message(id, p.sender, p.content, p.seqStart, at, Aborted)];
          }
        case _ =>
      }
    }
    assert events[..|events|] == events;
    messages := ListOpen(messages, pending);
    forall m ensures m in messages <==> Reported(events, m) {
      ReportedIff(events, messages, m);
    }
  }

  /** The closing loop of AssembleMessages over the table of open messages. */
  method ListOpen(done: seq<Message>, pending: map<Id, Pending>) returns (messages: seq<Message>)
    ensures Shows(messages, Assembly(pending, done))
  {
    var open: seq<Message> := [];
    var left := pending.Keys;
    while left != {}
      invariant left <= pending.Keys
      invariant |open| == |pending.Keys - left|
      invariant forall m :: m in open ==> m.id in pending && m == Unfinished(m.id, pending[m.id])
      invariant forall id :: id in pending.Keys - left ==> Unfinished(id, pending[id]) in open
      decreases left
    {
      var id :| id in left;
      assert pending.Keys - (left - {id}) == (pending.Keys - left) + {id};
      open := open + [Message(id, pending[id].sender, pending[id].content, pending[id].seqStart, 0, InProgress)];
      left := left - {id};
    }
    assert pending.Keys - left == pending.Keys;
    messages := done + open;
  }

  lemma RunNext(a: Assembly, es: seq<SeqEvent>, e: SeqEvent)
    ensures Run(a, es + [e]) == Fold(Run(a, es), e)
  {
    assert (es + [e])[..|es|] == es;
  }

  lemma {:induction false} RunConcat(a: Assembly, x: seq<SeqEvent>, y: seq<SeqEvent>)
    ensures Run(a, x + y) == Run(Run(a, x), y)
  {
    if y == [] {
      assert x + y == x;
    } else {
      assert (x + y)[..|x + y| - 1] == x + y[..|y| - 1];
      RunConcat(a, x, y[..|y| - 1]);
    }
  }

  /** Nothing is ever taken back: a finished message stays exactly as it is
      whatever is appended later, an abort of it included. */
  lemma {:induction false} FinishedStays(a: Assembly, es: seq<SeqEvent>)
    ensures a.done <= Run(a, es).done
  {
    if es != [] {
      FinishedStays(a, es[..|es| - 1]);
    }
  }

  // ------------------------------------------------------------------
  // One message id at a time
  // ------------------------------------------------------------------

  function Only(es: seq<SeqEvent>, id: Id): seq<SeqEvent> {
    if es == [] then []
    else Only(es[..|es| - 1], id) + if Concerns(es[|es| - 1].event, id) then [es[|es| - 1]] else []
  }

  function OfId(ms: seq<Message>, id: Id): seq<Message> {
    if ms == [] then []
    else OfId(ms[..|ms| - 1], id) + if ms[|ms| - 1].id == id then [ms[|ms| - 1]] else []
  }

  function Keep(a: Assembly, id: Id): Assembly {
    Assembly(if id in a.pending then map[id := a.pending[id]] else map[], OfId(a.done, id))
  }

  lemma OfIdAppend(ms: seq<Message>, m: Message, id: Id)
    ensures OfId(ms + [m], id) == OfId(ms, id) + if m.id == id then [m] else []
  {
    assert (ms + [m])[..|ms|] == ms;
  }

  lemma KeepFinish(a: Assembly, i: Id, at: nat, status: Status, id: Id)
    requires i in a.pending
    ensures Keep(Finish(a, i, at, status), id)
            == if i == id then Finish(Keep(a, id), i, at, status) else Keep(a, id)
  {
    OfIdAppend(a.done, Finish(a, i, at, status).done[|a.done|], id);
  }

  lemma KeepFold(a: Assembly, e: SeqEvent, id: Id)
    ensures Keep(Fold(a, e), id) == if Concerns(e.event, id) then Fold(Keep(a, id), e) else Keep(a, id)
  {
    match e.event
    case MessageEnd(i) => if i in a.pending { KeepFinish(a, i, e.at, Complete, id); }
    case MessageAbort(i, _) => if i in a.pending { KeepFinish(a, i, e.at, Aborted, id); }
    case _ =>
  }

  /** Interleaving does not change messages: assembling everything and looking
      at one id is assembling the events of that id alone. */
  lemma {:induction false} ProjectionCommutes(es: seq<SeqEvent>, id: Id)
    ensures Keep(Run(EMPTY, es), id) == Run(EMPTY, Only(es, id))
  {
    if es != [] {
      var front, e := es[..|es| - 1], es[|es| - 1];
      ProjectionCommutes(front, id);
      KeepFold(Run(EMPTY, front), e, id);
      if Concerns(e.event, id) {
        assert Only(es, id)[..|Only(es, id)| - 1] == Only(front, id);
      } else {
        assert Only(es, id) == Only(front, id);
      }
    }
  }

  /** The records one writer submits: start, chunks, and end once it got there. */
  function Script(id: Id, sender: Id, chunks: seq<string>, ended: bool): seq<Event> {
    [MessageStart(id, sender)] + seq(|chunks|, i requires 0 <= i < |chunks| => MessageAppend(id, chunks[i]))
    + if ended then [MessageEnd(id)] else []
  }

  function Text(chunks: seq<string>): string {
    if chunks == [] then "" else Text(chunks[..|chunks| - 1]) + chunks[|chunks| - 1]
  }

  function Payloads(es: seq<SeqEvent>): seq<Event> {
    seq(|es|, i requires 0 <= i < |es| => es[i].event)
  }

  lemma {:induction false} OpenScript(es: seq<SeqEvent>, id: Id, sender: Id, chunks: seq<string>)
    requires Payloads(es) == Script(id, sender, chunks, false)
    ensures Run(EMPTY, es) == Assembly(map[id := Pending(sender, Text(chunks), es[0].at)], [])
  {
    assert |es| == |Payloads(es)| == 1 + |chunks|;
    assert forall i :: 0 <= i < |es| ==> es[i].event == Payloads(es)[i];
    var front, last := es[..|es| - 1], es[|es| - 1];
    if chunks == [] {
      assert front == [];
      assert Run(EMPTY, front) == EMPTY;
    } else {
      var shorter := chunks[..|chunks| - 1];
      assert Payloads(front) == Script(id, sender, shorter, false);
      OpenScript(front, id, sender, shorter);
    }
  }

  /** Whatever else is interleaved with it, a writer that got its whole script
      onto the stream is assembled into exactly one message: its sender, its
      chunks joined, and the seqs of its own first and last record. */
  lemma WriterIntact(es: seq<SeqEvent>, id: Id, sender: Id, chunks: seq<string>)
    requires Payloads(Only(es, id)) == Script(id, sender, chunks, true)
    ensures var mine := Only(es, id);
            && |mine| == |chunks| + 2
            && id !in Run(EMPTY, es).pending
            && OfId(Run(EMPTY, es).done, id)
               == [Message(id, sender, Text(chunks), mine[0].at, mine[|mine| - 1].at, Complete)]
  {
    var mine := Only(es, id);
    assert |Payloads(mine)| == |mine|;
    var front := mine[..|mine| - 1];
    assert forall i :: 0 <= i < |mine| ==> mine[i].event == Payloads(mine)[i];
    assert Payloads(front) == Script(id, sender, chunks, false);
    OpenScript(front, id, sender, chunks);
    ProjectionCommutes(es, id);
  }

  /** Until its end or abort lands, an interleaved writer is shown in progress
      with the chunks it got out so far. */
  lemma WriterSoFar(es: seq<SeqEvent>, id: Id, sender: Id, chunks: seq<string>)
    requires Payloads(Only(es, id)) == Script(id, sender, chunks, false)
    ensures var mine := Only(es, id);
            && |mine| == |chunks| + 1
            && OfId(Run(EMPTY, es).done, id) == []
            && id in Run(EMPTY, es).pending
            && Run(EMPTY, es).pending[id] == Pending(sender, Text(chunks), mine[0].at)
  {
    var mine := Only(es, id);
    assert |Payloads(mine)| == |mine|;
    OpenScript(mine, id, sender, chunks);
    ProjectionCommutes(es, id);
    assert id in Keep(Run(EMPTY, es), id).pending;
  }

  function NewCompleteMessageEvents(id: Id, sender: Id, content: string): (batch: seq<Event>)
    requires content != ""
    ensures batch == Script(id, sender, [content], true)
  {
    [MessageStart(id, sender), MessageAppend(id, content), MessageEnd(id)]
  }

  // ------------------------------------------------------------------
  // A reference definition of "the messages of a stream"
  // ------------------------------------------------------------------

  /** The text appended to id in es, all starts and ends ignored. */
  function Appended(es: seq<SeqEvent>, id: Id): string {
    if es == [] then ""
    else
      var e := es[|es| - 1].event;
      Appended(es[..|es| - 1], id) + if e.MessageAppend? && e.id == id then e.content else ""
  }

  /** Position i starts id and nothing delimits id after it. */
  ghost predicate OpensAt(es: seq<SeqEvent>, id: Id, i: nat, p: Pending) {
    && i < |es| && es[i].event == MessageStart(id, p.sender)
    && (forall k :: i < k < |es| ==> !Delimits(es[k].event, id))
    && p.content == Appended(es[i + 1..], id)
    && p.seqStart == es[i].at
  }

  /** Message m spans positions i to j of es. */
  ghost predicate Spans(es: seq<SeqEvent>, m: Message, i: nat, j: nat) {
    && i < j < |es|
    && OpensAt(es[..j], m.id, i, Pending(m.sender, m.content, m.seqStart))
    && m.seqEnd == es[j].at
    && ((es[j].event == MessageEnd(m.id) && m.status == Complete)
        || (es[j].event.MessageAbort? && es[j].event.id == m.id && m.status == Aborted))
  }

  lemma OpensAtNext(es: seq<SeqEvent>, e: SeqEvent, id: Id, i: nat, p: Pending, q: Pending)
    requires i < |es|
    requires p.sender == q.sender && p.seqStart == q.seqStart
    requires q.content == p.content + if e.event.MessageAppend? && e.event.id == id then e.event.content else ""
    requires !Delimits(e.event, id)
    ensures OpensAt(es, id, i, p) ==> OpensAt(es + [e], id, i, q)
  {
    assert (es + [e])[i + 1..] == es[i + 1..] + [e];
    assert (es[i + 1..] + [e])[..|es[i + 1..]|] == es[i + 1..];
  }

  lemma OpensAtPrevious(es: seq<SeqEvent>, e: SeqEvent, id: Id, i: nat, q: Pending) returns (p: Pending)
    requires OpensAt(es + [e], id, i, q) && i < |es|
    ensures OpensAt(es, id, i, p) && p.sender == q.sender && p.seqStart == q.seqStart
    ensures !Delimits(e.event, id)
    ensures q.content == p.content + if e.event.MessageAppend? && e.event.id == id then e.event.content else ""
  {
    p := q.(content := Appended(es[i + 1..], id));
    assert (es + [e])[i + 1..] == es[i + 1..] + [e];
    assert (es[i + 1..] + [e])[..|es[i + 1..]|] == es[i + 1..];
    assert (es + [e])[|es|] == e;
    forall k | i < k < |es| ensures !Delimits(es[k].event, id) {
      assert (es + [e])[k] == es[k];
    }
  }

  ghost predicate OpenSomewhere(es: seq<SeqEvent>, id: Id, p: Pending) {
    exists i :: OpensAt(es, id, i, p)
  }

  /** a has open for id what es says. */
  ghost predicate OpenAgrees(a: Assembly, es: seq<SeqEvent>, id: Id) {
    forall q :: (id in a.pending && a.pending[id] == q) <==> OpenSomewhere(es, id, q)
  }

  lemma OpenedHere(es: seq<SeqEvent>, e: SeqEvent, id: Id, p: Pending)
    requires e.event == MessageStart(id, p.sender) && p.content == "" && p.seqStart == e.at
    ensures OpenSomewhere(es + [e], id, p)
  {
    assert (es + [e])[|es|] == e && (es + [e])[|es| + 1..] == [];
    assert OpensAt(es + [e], id, |es|, p);
  }

  lemma OpenForward(a: Assembly, es: seq<SeqEvent>, e: SeqEvent, id: Id, p: Pending)
    requires OpenAgrees(a, es, id) && id in Fold(a, e).pending && Fold(a, e).pending[id] == p
    ensures OpenSomewhere(es + [e], id, p)
  {
    if e.event.MessageStart? && e.event.id == id {
      OpenedHere(es, e, id, p);
    } else {
      assert OpenSomewhere(es, id, a.pending[id]);
      var i :| OpensAt(es, id, i, a.pending[id]);
      OpensAtNext(es, e, id, i, a.pending[id], p);
      assert OpensAt(es + [e], id, i, p);
    }
  }

  lemma OpenBack(a: Assembly, es: seq<SeqEvent>, e: SeqEvent, id: Id, p: Pending)
    requires OpenAgrees(a, es, id) && OpenSomewhere(es + [e], id, p)
    ensures id in Fold(a, e).pending && Fold(a, e).pending[id] == p
  {
    var i :| OpensAt(es + [e], id, i, p);
    assert (es + [e])[|es|] == e;
    if i == |es| {
      assert (es + [e])[|es| + 1..] == [];
    } else {
      var q := OpensAtPrevious(es, e, id, i, p);
      assert OpenSomewhere(es, id, q);
    }
  }

  lemma OpenStep(a: Assembly, es: seq<SeqEvent>, e: SeqEvent, id: Id, p: Pending)
    requires OpenAgrees(a, es, id)
    ensures (id in Fold(a, e).pending && Fold(a, e).pending[id] == p) <==> OpenSomewhere(es + [e], id, p)
  {
    if id in Fold(a, e).pending && Fold(a, e).pending[id] == p { OpenForward(a, es, e, id, p); }
    if OpenSomewhere(es + [e], id, p) { OpenBack(a, es, e, id, p); }
  }

  /** The open messages are exactly those started and not delimited since. */
  lemma {:induction false} OpenMessages(es: seq<SeqEvent>, id: Id, p: Pending)
    ensures (id in Run(EMPTY, es).pending && Run(EMPTY, es).pending[id] == p) <==> OpenSomewhere(es, id, p)
  {
    if es != [] {
      var front, e := es[..|es| - 1], es[|es| - 1];
      forall q
        ensures (id in Run(EMPTY, front).pending && Run(EMPTY, front).pending[id] == q) <==> OpenSomewhere(front, id, q)
      {
        OpenMessages(front, id, q);
      }
      OpenStep(Run(EMPTY, front), front, e, id, p);
      assert front + [e] == es;
    }
  }

  lemma SpansPrefix(es: seq<SeqEvent>, more: seq<SeqEvent>, m: Message, i: nat, j: nat)
    requires j < |es|
    ensures Spans(es, m, i, j) <==> Spans(es + more, m, i, j)
  {
    assert (es + more)[..j] == es[..j];
  }

  /** AssembleMessages agrees with the reference definition, both ways: a
      message is reported finished iff it spans two positions of the stream. */
  lemma {:induction false} FinishedMessages(es: seq<SeqEvent>, m: Message)
    ensures m in Run(EMPTY, es).done <==> exists i, j :: Spans(es, m, i, j)
  {
    if es != [] {
      var n := |es| - 1;
      var front, e := es[..n], es[n];
      var p := Pending(m.sender, m.content, m.seqStart);
      FinishedMessages(front, m);
      OpenMessages(front, m.id, p);
      assert front + [e] == es;
      if m in Run(EMPTY, es).done {
        if m in Run(EMPTY, front).done {
          var i, j :| Spans(front, m, i, j);
          SpansPrefix(front, [e], m, i, j);
        } else {
          var i :| OpensAt(front, m.id, i, p);
          assert Spans(es, m, i, n);
        }
      }
      if i: nat, j: nat :| Spans(es, m, i, j) {
        if j < n {
          SpansPrefix(front, [e], m, i, j);
          assert Spans(front, m, i, j);
        } else {
          assert OpensAt(front, m.id, i, p);
        }
      }
    }
  }

  /** What AssembleMessages says of es, in terms of es alone: a finished message
      lies between two positions; one in progress was started and not delimited
      since, has the text appended since, and no end. */
  ghost predicate Reported(es: seq<SeqEvent>, m: Message) {
    if m.status == InProgress then m.seqEnd == 0 && OpenSomewhere(es, m.id, Pending(m.sender, m.content, m.seqStart))
    else exists i, j :: Spans(es, m, i, j)
  }

  lemma ShownMember(ms: seq<Message>, a: Assembly, m: Message)
    requires Shows(ms, a)
    ensures m in ms <==> m in a.done || (m.id in a.pending && m == Unfinished(m.id, a.pending[m.id]))
  {
    assert ms == ms[..|a.done|] + ms[|a.done|..];
  }

  lemma ReportedIff(es: seq<SeqEvent>, ms: seq<Message>, m: Message)
    requires Shows(ms, Run(EMPTY, es))
    ensures m in ms <==> Reported(es, m)
  {
    ShownMember(ms, Run(EMPTY, es), m);
    FinishedMessages(es, m);
    OpenMessages(es, m.id, Pending(m.sender, m.content, m.seqStart));
  }

  // ------------------------------------------------------------------
  // Reading only a window of the stream
  // ------------------------------------------------------------------

  function Since(ms: seq<Message>, bound: nat): seq<Message> {
    if ms == [] then []
    else Since(ms[..|ms| - 1], bound) + if ms[|ms| - 1].seqStart >= bound then [ms[|ms| - 1]] else []
  }

  ghost predicate Increasing(es: seq<SeqEvent>) {
    forall i, j :: 0 <= i < j < |es| ==> es[i].at < es[j].at
  }

  lemma SinceAppend(ms: seq<Message>, m: Message, bound: nat)
    ensures Since(ms + [m], bound) == Since(ms, bound) + if m.seqStart >= bound then [m] else []
  {
    assert (ms + [m])[..|ms|] == ms;
  }

  /** c is what assembly a looks like to a reader that joined at seq bound. */
  ghost predicate Joined(a: Assembly, c: Assembly, bound: nat) {
    && c.done == Since(a.done, bound)
    && (forall id :: id in c.pending <==> id in a.pending && a.pending[id].seqStart >= bound)
    && (forall id :: id in c.pending ==> c.pending[id] == a.pending[id])
  }

  lemma JoinedFinish(a: Assembly, c: Assembly, id: Id, at: nat, status: Status, bound: nat)
    requires Joined(a, c, bound) && id in a.pending
    ensures Joined(Finish(a, id, at, status), if id in c.pending then Finish(c, id, at, status) else c, bound)
  {
    var b := Finish(a, id, at, status);
    SinceAppend(a.done, b.done[|a.done|], bound);
  }

  lemma JoinedFold(a: Assembly, c: Assembly, e: SeqEvent, bound: nat)
    requires Joined(a, c, bound) && e.at >= bound
    ensures Joined(Fold(a, e), Fold(c, e), bound)
  {
    match e.event
    case MessageEnd(id) => if id in a.pending { JoinedFinish(a, c, id, e.at, Complete, bound); }
    case MessageAbort(id, _) => if id in a.pending { JoinedFinish(a, c, id, e.at, Aborted, bound); }
    case _ =>
  }

  lemma {:induction false} JoinedRun(a: Assembly, c: Assembly, es: seq<SeqEvent>, bound: nat)
    requires Joined(a, c, bound)
    requires forall i :: 0 <= i < |es| ==> es[i].at >= bound
    ensures Joined(Run(a, es), Run(c, es), bound)
  {
    if es != [] {
      JoinedRun(a, c, es[..|es| - 1], bound);
      JoinedFold(Run(a, es[..|es| - 1]), Run(c, es[..|es| - 1]), es[|es| - 1], bound);
    }
  }

  lemma {:induction false} EarlierIsOutside(es: seq<SeqEvent>, bound: nat)
    requires forall i :: 0 <= i < |es| ==> es[i].at < bound
    ensures Since(Run(EMPTY, es).done, bound) == []
    ensures forall id :: id in Run(EMPTY, es).pending ==> Run(EMPTY, es).pending[id].seqStart < bound
  {
    if es != [] {
      var front, e := es[..|es| - 1], es[|es| - 1];
      EarlierIsOutside(front, bound);
      var a := Run(EMPTY, front);
      if (e.event.MessageEnd? || e.event.MessageAbort?) && e.event.id in a.pending {
        SinceAppend(a.done, Run(EMPTY, es).done[|a.done|], bound);
      }
    }
  }

  /** A window read is exact: assembling from seq bound on gives precisely the
      finished messages of the whole stream that start at bound or later, in
      the same order with the same content and seqs, and likewise the open ones. */
  lemma WindowIsExact(before: seq<SeqEvent>, window: seq<SeqEvent>, bound: nat)
    requires forall i :: 0 <= i < |before| ==> before[i].at < bound
    requires forall i :: 0 <= i < |window| ==> window[i].at >= bound
    ensures Joined(Run(EMPTY, before + window), Run(EMPTY, window), bound)
  {
    RunConcat(EMPTY, before, window);
    EarlierIsOutside(before, bound);
    JoinedRun(Run(EMPTY, before), EMPTY, window, bound);
  }

  lemma {:induction false} SinceMember(ms: seq<Message>, bound: nat, m: Message)
    ensures m in Since(ms, bound) <==> m in ms && m.seqStart >= bound
  {
    if ms != [] {
      SinceMember(ms[..|ms| - 1], bound, m);
      assert ms == ms[..|ms| - 1] + [ms[|ms| - 1]];
    }
  }

  // ------------------------------------------------------------------
  // Order and uniqueness of seqs
  // ------------------------------------------------------------------

  /** Finished messages end in increasing seq order; no two messages, open or
      finished, start at the same seq; every seq in use is below bound. */
  ghost predicate Orderly(a: Assembly, bound: nat) {
    && (forall i, j :: 0 <= i < j < |a.done| ==> a.done[i].seqEnd < a.done[j].seqEnd)
    && (forall i, j :: 0 <= i < j < |a.done| ==> a.done[i].seqStart != a.done[j].seqStart)
    && (forall i :: 0 <= i < |a.done| ==> a.done[i].seqStart < a.done[i].seqEnd < bound)
    && (forall i :: 0 <= i < |a.done| ==> a.done[i].status != InProgress)
    && (forall id, i :: id in a.pending && 0 <= i < |a.done| ==> a.pending[id].seqStart != a.done[i].seqStart)
    && (forall id :: id in a.pending ==> a.pending[id].seqStart < bound)
    && (forall id, id' :: id in a.pending && id' in a.pending && id != id'
                          ==> a.pending[id].seqStart != a.pending[id'].seqStart)
  }

  lemma OrderlyFinish(a: Assembly, id: Id, at: nat, status: Status, bound: nat)
    requires Orderly(a, bound) && bound <= at && id in a.pending && status != InProgress
    ensures Orderly(Finish(a, id, at, status), at + 1)
  {
    var b := Finish(a, id, at, status);
    var n := |a.done|;
    assert b.done[n].seqStart == a.pending[id].seqStart;
    assert forall i :: 0 <= i < n ==> b.done[i] == a.done[i];
  }

  lemma OrderlyPending(a: Assembly, id: Id, p: Pending, bound: nat, at: nat)
    requires Orderly(a, bound) && bound <= at
    requires p.seqStart == at || (id in a.pending && p.seqStart == a.pending[id].seqStart)
    ensures Orderly(Assembly(a.pending[id := p], a.done), at + 1)
  {
  }

  lemma OrderlyLater(a: Assembly, bound: nat, later: nat)
    requires Orderly(a, bound) && bound <= later
    ensures Orderly(a, later)
  {
  }

  lemma OrderlyStart(a: Assembly, id: Id, sender: Id, bound: nat, at: nat)
    requires Orderly(a, bound) && bound <= at
    ensures Orderly(Fold(a, SeqEvent(at, MessageStart(id, sender))), at + 1)
  {
    OrderlyPending(a, id, Pending(sender, "", at), bound, at);
  }

  lemma OrderlyAppend(a: Assembly, id: Id, content: string, bound: nat, at: nat)
    requires Orderly(a, bound) && bound <= at
    ensures Orderly(Fold(a, SeqEvent(at, MessageAppend(id, content))), at + 1)
  {
    if id in a.pending {
      OrderlyPending(a, id, a.pending[id].(content := a.pending[id].content + content), bound, at);
    } else {
      OrderlyLater(a, bound, at + 1);
    }
  }

  lemma OrderlyClose(a: Assembly, id: Id, status: Status, e: SeqEvent, bound: nat)
    requires Orderly(a, bound) && bound <= e.at && status != InProgress
    requires Fold(a, e) == if id in a.pending then Finish(a, id, e.at, status) else a
    ensures Orderly(Fold(a, e), e.at + 1)
  {
    if id in a.pending { OrderlyFinish(a, id, e.at, status, bound); } else { OrderlyLater(a, bound, e.at + 1); }
  }

  lemma OrderlyIdle(a: Assembly, e: SeqEvent, bound: nat)
    requires Orderly(a, bound) && bound <= e.at && Fold(a, e) == a
    ensures Orderly(Fold(a, e), e.at + 1)
  {
    OrderlyLater(a, bound, e.at + 1);
  }

  lemma OrderlyFold(a: Assembly, e: SeqEvent, bound: nat)
    requires Orderly(a, bound) && bound <= e.at
    ensures Orderly(Fold(a, e), e.at + 1)
  {
    match e.event
    case MessageStart(id, sender) => OrderlyStart(a, id, sender, bound, e.at);
    case MessageAppend(id, content) => OrderlyAppend(a, id, content, bound, e.at);
    case MessageEnd(id) => OrderlyClose(a, id, Complete, e, bound);
    case MessageAbort(id, _) => OrderlyClose(a, id, Aborted, e, bound);
    case _ => OrderlyIdle(a, e, bound);
  }

  lemma {:induction false} OrderlyRun(es: seq<SeqEvent>)
    requires Increasing(es)
    ensures Orderly(Run(EMPTY, es), if es == [] then 0 else es[|es| - 1].at + 1)
  {
    if es != [] {
      var front := es[..|es| - 1];
      OrderlyRun(front);
      OrderlyFold(Run(EMPTY, front), es[|es| - 1], if front == [] then 0 else front[|front| - 1].at + 1);
    }
  }

  // ------------------------------------------------------------------
  // The stored stream: the seq of a record is its position
  // ------------------------------------------------------------------

  function Log(stream: seq<Event>): (es: seq<SeqEvent>)
    ensures |es| == |stream|
    ensures forall i :: 0 <= i < |es| ==> es[i] == SeqEvent(i, stream[i])
  {
    seq(|stream|, i requires 0 <= i < |stream| => SeqEvent(i, stream[i]))
  }

  function View(stream: seq<Event>): Assembly {
    Run(EMPTY, Log(stream))
  }

  lemma ViewAppend(stream: seq<Event>, e: Event)
    ensures View(stream + [e]) == Fold(View(stream), SeqEvent(|stream|, e))
  {
    assert Log(stream + [e])[..|stream|] == Log(stream);
  }

  lemma ViewGrows(stream: seq<Event>, more: seq<Event>)
    ensures View(stream).done <= View(stream + more).done
  {
    var rest := Log(stream + more)[|stream|..];
    assert Log(stream + more) == Log(stream) + rest;
    RunConcat(EMPTY, Log(stream), rest);
    FinishedStays(View(stream), rest);
  }

  // ------------------------------------------------------------------
  // What a tail of the stream forwards
  // ------------------------------------------------------------------

  /** Records from .. to but those whose payload cannot be forwarded. */
  function Forwarded(stream: seq<Event>, from: nat, to: nat, hidden: set<nat>): seq<SeqEvent>
    requires to <= |stream| || to <= from
  {
    if to <= from then []
    else Forwarded(stream, from, to - 1, hidden) + if to - 1 in hidden then [] else [SeqEvent(to - 1, stream[to - 1])]
  }

  lemma {:induction false} ForwardedGrows(stream: seq<Event>, more: seq<Event>, from: nat, to: nat, hidden: set<nat>)
    requires to <= |stream| || to <= from
    ensures Forwarded(stream + more, from, to, hidden) == Forwarded(stream, from, to, hidden)
  {
    if from < to { ForwardedGrows(stream, more, from, to - 1, hidden); }
  }

  /** It holds exactly the records of the range that are not hidden. */
  lemma {:induction false} ForwardedAre(stream: seq<Event>, from: nat, to: nat, hidden: set<nat>, d: SeqEvent)
    requires to <= |stream| || to <= from
    ensures d in Forwarded(stream, from, to, hidden)
            <==> from <= d.at < to && d.at !in hidden && d == SeqEvent(d.at, stream[d.at])
  {
    if from < to { ForwardedAre(stream, from, to - 1, hidden, d); }
  }

  lemma IncreasingMore(es: seq<SeqEvent>, e: SeqEvent)
    requires Increasing(es) && forall d :: d in es ==> d.at < e.at
    ensures Increasing(es + [e])
  {
  }

  lemma ForwardedNext(stream: seq<Event>, from: nat, to: nat, hidden: set<nat>)
    requires from < to <= |stream| && Increasing(Forwarded(stream, from, to - 1, hidden))
    ensures Increasing(Forwarded(stream, from, to, hidden))
  {
    var front := Forwarded(stream, from, to - 1, hidden);
    if to - 1 !in hidden {
      forall d | d in front ensures d.at < to - 1 { ForwardedAre(stream, from, to - 1, hidden, d); }
      IncreasingMore(front, SeqEvent(to - 1, stream[to - 1]));
    }
  }

  /** In seq order. */
  lemma {:induction false} ForwardedIncreasing(stream: seq<Event>, from: nat, to: nat, hidden: set<nat>)
    requires to <= |stream| || to <= from
    ensures Increasing(Forwarded(stream, from, to, hidden))
  {
    if from < to {
      ForwardedIncreasing(stream, from, to - 1, hidden);
      ForwardedNext(stream, from, to, hidden);
    }
  }

  /** Hidden records at the end add nothing. */
  lemma {:induction false} ForwardedSkip(stream: seq<Event>, from: nat, mid: nat, to: nat, hidden: set<nat>)
    requires from <= mid <= to <= |stream| && forall n :: mid <= n < to ==> n in hidden
    ensures Forwarded(stream, from, to, hidden) == Forwarded(stream, from, mid, hidden)
  {
    if mid < to { ForwardedSkip(stream, from, mid, to - 1, hidden); }
  }

  /** With nothing hidden, the first record can be taken off. */
  lemma {:induction false} ForwardedFirst(stream: seq<Event>, from: nat, to: nat)
    requires from < to <= |stream|
    ensures Forwarded(stream, from, to, {}) == [SeqEvent(from, stream[from])] + Forwarded(stream, from + 1, to, {})
  {
    if from + 1 < to {
      ForwardedFirst(stream, from, to - 1);
      Assoc([SeqEvent(from, stream[from])], Forwarded(stream, from + 1, to - 1, {}), [SeqEvent(to - 1, stream[to - 1])]);
    } else {
      assert Forwarded(stream, from, from, {}) == [];
    }
  }

  /** Only records that every reader skips are hidden. */
  ghost predicate Unread(stream: seq<Event>, hidden: set<nat>) {
    forall n :: n in hidden && n < |stream| ==> stream[n] == Unreadable
  }

  /** es without the hidden ones. */
  function Visible(es: seq<SeqEvent>, hidden: set<nat>): seq<SeqEvent> {
    if es == [] then []
    else Visible(es[..|es| - 1], hidden) + if es[|es| - 1].at in hidden then [] else [es[|es| - 1]]
  }

  lemma VisibleNext(es: seq<SeqEvent>, e: SeqEvent, hidden: set<nat>)
    ensures Visible(es + [e], hidden) == Visible(es, hidden) + if e.at in hidden then [] else [e]
  {
    assert (es + [e])[..|es|] == es;
  }

  lemma RunVisibleNext(front: seq<SeqEvent>, e: SeqEvent, hidden: set<nat>)
    requires Run(EMPTY, Visible(front, hidden)) == Run(EMPTY, front) && (e.at in hidden ==> e.event == Unreadable)
    ensures Run(EMPTY, Visible(front + [e], hidden)) == Run(EMPTY, front + [e])
  {
    VisibleNext(front, e, hidden);
    RunNext(EMPTY, front, e);
    if e.at in hidden {
      assert Visible(front, hidden) + [] == Visible(front, hidden);
    } else {
      RunNext(EMPTY, Visible(front, hidden), e);
    }
  }

  /** A reader that skips what is hidden assembles the same. */
  lemma {:induction false} RunVisible(es: seq<SeqEvent>, hidden: set<nat>)
    requires forall i :: 0 <= i < |es| && es[i].at in hidden ==> es[i].event == Unreadable
    ensures Run(EMPTY, Visible(es, hidden)) == Run(EMPTY, es)
  {
    if es != [] {
      var front, e := es[..|es| - 1], es[|es| - 1];
      RunVisible(front, hidden);
      RunVisibleNext(front, e, hidden);
      assert es == front + [e];
    }
  }

  lemma RangeNext(stream: seq<Event>, from: nat, to: nat)
    requires from <= to < |stream|
    ensures Log(stream)[from..to + 1] == Log(stream)[from..to] + [SeqEvent(to, stream[to])]
  {
  }

  lemma ForwardedLast(stream: seq<Event>, from: nat, to: nat, hidden: set<nat>)
    requires from < to <= |stream|
    ensures Forwarded(stream, from, to, hidden)
            == Forwarded(stream, from, to - 1, hidden) + if to - 1 in hidden then [] else [SeqEvent(to - 1, stream[to - 1])]
  {
  }

  lemma VisibleLast(stream: seq<Event>, from: nat, to: nat, hidden: set<nat>)
    requires from < to <= |stream|
    ensures Visible(Log(stream)[from..to], hidden)
            == Visible(Log(stream)[from..to - 1], hidden) + if to - 1 in hidden then [] else [SeqEvent(to - 1, stream[to - 1])]
  {
    RangeNext(stream, from, to - 1);
    VisibleNext(Log(stream)[from..to - 1], SeqEvent(to - 1, stream[to - 1]), hidden);
  }

  lemma ForwardedVisibleNext(stream: seq<Event>, from: nat, to: nat, hidden: set<nat>)
    requires from < to <= |stream| && Forwarded(stream, from, to - 1, hidden) == Visible(Log(stream)[from..to - 1], hidden)
    ensures Forwarded(stream, from, to, hidden) == Visible(Log(stream)[from..to], hidden)
  {
    ForwardedLast(stream, from, to, hidden);
    VisibleLast(stream, from, to, hidden);
  }

  lemma NothingForwarded(stream: seq<Event>, from: nat, to: nat, hidden: set<nat>)
    requires from == to <= |stream|
    ensures Forwarded(stream, from, to, hidden) == Visible(Log(stream)[from..to], hidden)
  {
  }

  lemma {:induction false} ForwardedVisible(stream: seq<Event>, from: nat, to: nat, hidden: set<nat>)
    requires from <= to <= |stream|
    ensures Forwarded(stream, from, to, hidden) == Visible(Log(stream)[from..to], hidden)
  {
    if from == to {
      NothingForwarded(stream, from, to, hidden);
    } else {
      ForwardedVisible(stream, from, to - 1, hidden);
      ForwardedVisibleNext(stream, from, to, hidden);
    }
  }

  /** So a reader of what is forwarded assembles what the whole range holds. */
  lemma RunForwarded(stream: seq<Event>, from: nat, to: nat, hidden: set<nat>)
    requires from <= to <= |stream| && Unread(stream, hidden)
    ensures Run(EMPTY, Forwarded(stream, from, to, hidden)) == Run(EMPTY, Log(stream)[from..to])
  {
    ForwardedVisible(stream, from, to, hidden);
    RunVisible(Log(stream)[from..to], hidden);
  }
}
