# A verified model of AgentMail

AgentMail keeps one append-only event stream per conversation next to a
Postgres metadata store. Handlers write both, a crash can fall between any two
writes, and a sweep at startup repairs what was left. Readers of several kinds
turn the events back into messages: a windowed history endpoint, a subscriber
that resumes after drops, a resident agent that reads incrementally, a browser
client that parses the event-stream text. This project models those parts in
Dafny and proves what they promise.

`dafny verify dfyconfig.toml` checks all of it.

| file | part |
|---|---|
| `Common.dfy` | an option type and two small functions |
| `Events.dfy` | the event types, message assembly, and a reference definition of "the messages of a stream" |
| `WriteProtocol.dfy` | the write, dedup, claim and recovery protocol as a machine: one step per store call, each able to fail with or without having taken effect, and a crash allowed at any moment; the invariant of every run |
| `WriteSafety.dfy` | what that gives: dedup rows, cursors, crash repair |
| `AtMostOnce.dfy` | how often one message id can be started |
| `Handlers.dfy` | the handlers and the sweep as methods, every store call a step of the machine, arbitrary other requests running between any two calls |
| `History.dfy` | the two history pages against whole-stream assembly |
| `Subscriber.dfy` | the tailing client: bounded duplicate filter, frames, reassembly, reconnects |
| `Resident.dfy` | the resident agent's listener: live assembly, one lazy seed, bounded history |
| `Delivery.dfy` | the two-tier delivery cursor, the choice of the start seq, a tail connection, and what a client gets over many |
| `Registry.dfy` | the registry of open tails and running writes, with the handlers around it |
| `Leave.dfy` | leaving a conversation against running writes and responses |
| `AppendSession.dfy` | the append session and its ack queue |
| `Membership.dfy` | member removal under row locks |
| `Prompt.dfy` | merging a history into alternating prompt turns |
| `SseWire.dfy` | printing and parsing of the event-stream text, in chunks |

## How the parts are modelled

The stream is a sequence with atomic appends; the seq of a record is its
position. Postgres is a set of claims, a map of dedup rows with
insert-if-absent, and cursors with guarded upserts. A store call that reports
an error may still have taken effect. Concurrency is a machine over atomic
steps (the write protocol, the registry, leaving, member removal) or a class
whose methods are the sections between which others may run (the cursor cache,
the append session). What clocks decide (a timeout, an entry going stale, a
retry) is left open: the caller or an arbitrary choice decides it, so every
statement holds for all such choices.

Where the code does less than one might wish, the model keeps the code's
behaviour, gives a run in which the stronger statement fails, and proves when
it holds:

- The dedup lookup and the claim are two calls. A request that looked up
  before another one finished the same id starts it a second time
  (`AtMostOnce.OvertakingStartsTwice`). What decides is the dedup row at the
  moment the claim is won, which a second look would show: with none, the start
  that follows is the only one; with a complete row it is always a second one
  (`AtMostOnce.ClaimDecides`, `AtMostOnce.GuardedStartsOnce`); an aborted row is
  found with a start on the stream and without one
  (`AtMostOnce.AbortedRowLeavesOpen`).
- A cleanup whose abort append fails still releases the claim. The message
  then stays in progress, out of every sweep's reach, exactly when it was open
  (`WriteSafety.FailedCleanupStrands`). What a sweep leaves in progress is
  exactly what was open without a claim, and for an id whose every abort append
  landed that found it open, that is nothing (`WriteSafety.CrashRepair`).
- The range stored for a streamed message is never the true one
  (`WriteSafety.StreamedRangeIsOff`): it is (0, 0) or ends after the message's
  last record, because the tail is the next seq and not the last one.
- The duplicate filter of the subscriber holds 10,000 seqs. No seq is handled
  twice exactly when every repeat is of one of the last 10,000 distinct seqs
  (`Subscriber.HandledOnceIff`).
- The last history window is clipped at seq 0 and then reaches into the one
  before it exactly when that one starts below the window size
  (`History.WalkOverlaps`). A message is collected more than once exactly when
  its start record lies in two windows and no later start of its id supersedes
  it in either (`History.RepeatedIff`), once for each such window
  (`History.CollectedCount`). One that ends beyond the last window is listed as
  finished by the one and as in progress by the other.
- A message across the edge of two windows is listed by the older one only, in
  progress and with its text up to the edge, although it is finished
  (`History.Straddling`).
- `RegisterWrite` replaces an entry still present under its key. As
  `DeregisterWrite` runs after the claim is released, that can happen; then the
  older handler's leaving closes the newer one's channel
  (`Registry.OverwrittenWriteIsLost`). A leave waits for a running write exactly
  when that write is alone with its entry as the leave looks
  (`Registry.AwaitsIff`), so for all writes of the pair exactly when each has its
  entry (`Registry.WaitsIff`), and exactly then none of them can land after
  `agent_left` (`Leave.AllSilencedIff`). Only replacing ends that, and it is so
  again once no write of the pair runs (`Registry.StaysRegistered`).
- A write that has its claim but is not registered yet when a leave looks lands
  after `agent_left` (`Leave.UnregisteredWriteLandsLate`).
- After a restart the hot cursor can be set below the Postgres value and is
  then the one read (`Delivery.CursorCache.LowAfterRestart`); events are then
  repeated, none is skipped.
- The resident agent drops the record at seq 0, since no seed yet counts as a
  seed up to 0. `Resident.Listener.NothingLostOrDoubled` is stated for messages
  from seq 1 on, or from where the listener began to read.
- The Python client sends its last seq as Last-Event-ID, and for
  `start_from = 0` that is -1 (`roundtable/client.py:540`, 629-630). It does not
  parse on the server (`internal/api/sse.go:60-75`), so the tail starts at the
  stored cursor and not at 0; `Subscriber.ResumeAt` follows the code.
- The browser client normalises line ends again with every chunk. Which frames
  it cuts out, and what text it has left over, is the same for every chunking of
  a text iff no carriage return in it directly precedes a CRLF
  (`SseWire.ChunkingIff`). That is about the frames before they are parsed:
  parsing normalises once more, so some texts with such a return still lead to
  the same events. Others do not: `SseWire.ChunkingMatters` has one that gives
  an event or none. The server never prints such a return.
- `parseFrame` drops `error` frames, so the branch that reports them is never
  taken (`SseWire.NoErrorFrames`). The Python client does not see them either:
  they carry no id.

Comments that the code does not follow: the one above `buildClaudeMessages`
speaks of prepending a placeholder turn, the code drops leading assistant
turns; the one above `LeaveConversation` has the member lock and the removal
share a transaction, but `LockMembersForUpdate` commits its own, and only the
lock inside `RemoveMember` protects the last-member check; the resident agent's
history is said to be seeded on the first message of another agent, the code
seeds on the first `message_end` of anyone.

## Model

| member | source | states |
|---|---|---|
| Events.AssembleMessages | internal/model/events.go:228-308 | the loop over a table of open messages yields the finished messages in the order they ended, then each open one once, in any order; what it yields is exactly what the events report: a finished message lies between two of their positions, one in progress was started and not delimited since and has the text appended since |
| Events.ListOpen | internal/model/events.go:296-305 | whatever order the table is walked in, every open message is listed exactly once |
| Events.FinishedMessages | internal/model/events.go:232-293 | reference definition, both ways: a message is reported finished iff two positions of the stream start it and end or abort it with no delimiter of its id between, its content being the appends between them |
| Events.OpenMessages | internal/model/events.go:296-305 | reference definition, both ways: a message is open iff some position starts it and nothing delimits it afterwards |
| Events.ReportedIff | internal/model/events.go:228-308 | so for every listing of an assembly: an entry is there iff the events themselves report it, finished or in progress, with its text and seqs |
| Events.FinishedStays | internal/model/events.go:250-293 | a finished message never changes, whatever is appended later, an abort of it included |
| Events.ProjectionCommutes | internal/model/events.go:228-308 | assembling everything and keeping one id is assembling the events of that id alone, so interleaving does not change messages |
| Events.WriterIntact | internal/api/streaming.go:157-229 | however interleaved, a writer whose script landed becomes exactly one message: its sender, its chunks joined, the seqs of its own first and last record |
| Events.WriterSoFar | internal/api/streaming.go:157-229 | until then it shows once, in progress, with the chunks it got out |
| Events.NewCompleteMessageEvents | internal/model/events.go:153-162 | the batch of a whole-message send is the script of a one-chunk writer, so it round-trips through assembly |
| Events.WindowIsExact | internal/api/history.go:52-69 | assembling from a seq on gives precisely the messages of the whole stream that start there or later, same order, content and seqs |
| Events.OrderlyRun | internal/model/events.go:228-308 | finished messages come in strictly increasing order of their ends and no two messages share a start |
| WriteProtocol.BatchStep | internal/api/messages.go:104-105 | the atomic batch adds exactly one complete message and closes whatever was open under its id |
| WriteProtocol.LandOk | internal/store/s2.go:190-242 | when the next submitted record of a stream becomes durable, its open message holds exactly the chunks landed so far; when it is the end, the message is finished with the whole text |
| WriteProtocol.InvStep | internal/api/messages.go:62-133 | every store call of every handler, failing in every way, and a crash at any point keep the protocol's invariant |
| WriteProtocol.InvRun | cmd/server/main.go:53-160 | so every reachable state has it, for any number of requests, crashes and sweeps |
| WriteSafety.OneLiveHolder | internal/store/db/in_progress.sql.go:14-19 | in every run no two live requests hold the claim on one id, and a held id has its row |
| WriteSafety.RowsNeverChange | internal/store/db/dedup.sql.go:43-47 | a dedup row, once written, is the same in every later state |
| WriteSafety.NoFalseComplete | internal/api/messages.go:104-133 | a complete row means the stream already held that id from start to end; without streaming its range is exactly the seqs of those two records; every later replay returns the same range |
| WriteSafety.StreamedRangeIsOff | internal/api/streaming.go:246-259 | the range stored for a streamed id is never the true one: unknown, or too far at its end and at most one too late at its start |
| WriteSafety.CursorsRise | internal/store/db/cursors.sql.go:14-20 | neither ack_seq nor head_seq goes down in any run |
| WriteSafety.CursorOrder | internal/api/ack.go:25-47 | in every interleaving of sends, joins, leaves, two-step acks and crashes, ack_seq <= head_seq <= tail |
| WriteSafety.HeadIsHighest | internal/store/db/conversations.sql.go:71-75 | over every run, head_seq is exactly the highest end any head update took effect with, 0 if there was none |
| WriteSafety.AckIsHighest | internal/store/db/cursors.sql.go:14-20 | and each agent's ack_seq the highest of its ack writes that took effect |
| WriteSafety.ClaimIsLock | internal/store/db/in_progress.sql.go:14-19 | while a request holds the claim on its id, no step of any other request touches the id's open message, its claim or its dedup row |
| WriteSafety.OpenIsClaimed | internal/api/messages.go:147-164 | at every moment of a run in which no abort append for an id failed to land while its message was open, that message has its claim row if assembly shows it in progress, whatever becomes of other ids |
| WriteSafety.SweepRepairs | cmd/server/main.go:190-219 | the sweep's loop closes every open message that has a claim as aborted with the content it had, and changes no other |
| WriteSafety.CrashRepair | cmd/server/main.go:179-225 | after any run of requests, failures, crashes and interrupted sweeps, a sweep whose calls succeed aborts every open message that has its claim and leaves every other as it was; in progress is then exactly what was open without a claim, and no id whose abort appends all landed or found its message not open |
| WriteSafety.FailedCleanupStrands | internal/api/streaming.go:310-322 | a failed abort append followed by the release leaves the message in progress and unclaimed iff it was open |
| AtMostOnce.AtMostOneStart | internal/api/messages.go:62-133 | at most one message_start for an id in every run in which the dedup inserts for it take effect and nobody finalizes it between another's lookup and claim: then every claim won on it is as GuardedStartsOnce asks |
| AtMostOnce.GuardedStartsOnce | internal/api/messages.go:90-105 | at most one message_start for an id in every run, overtaking and crashes included, in which the dedup inserts for it take effect and no claim on it is won with a dedup row of it present, whatever happens to other ids |
| AtMostOnce.ClaimDecides | internal/api/messages.go:90-105 | after any run whose dedup inserts for the id take effect: a claim won with no dedup row leaves exactly one start, one won with a complete row at least two; unless the row is an aborted one, at most one start iff there is no row |
| AtMostOnce.AbortedRowLeavesOpen | internal/api/messages.go:106-164 | an overtaken request can find an aborted row with the start on the stream and without it, as the failed append landed or not |
| AtMostOnce.OvertakingStartsTwice | internal/api/messages.go:62-100 | from any serving state, for any unused id, an overtaken lookup leads to two starts |
| Handlers.Later | internal/store/postgres.go:571-575 | what held at one moment of a run (finished messages, rows, head) still holds at every later one |
| Handlers.Server.Admit | internal/api/messages.go:61-100 | dedup gate and claim with others running in between: goes on exactly with no row, a claim call that succeeds and nobody else's claim there; otherwise the reply is the row's, an error or a conflict, whichever it was |
| Handlers.Server.SendMessage | internal/api/messages.go:31-142 | every reply pinned to what happened: a fresh one carries the true seqs of a complete message with that sender and content, with row, head and claim as its calls left them; a replay or 409 repeats the row; a conflict means somebody has the claim; an error that a call failed, and the cleanup did what its calls did |
| Handlers.Server.Publish | internal/api/messages.go:102-142 | the append, then finalization or cleanup by whether it succeeded, the dedup row, the head and the claim left exactly as those calls took effect |
| Handlers.Server.FinalizeAbort | internal/api/messages.go:147-164 | abort, aborted row, release, each passed over if it fails and each having exactly its own effect; the request is gone in every case |
| Handlers.Server.Pump | internal/api/streaming.go:166-201 | the body loop: empty lines and chunks are passed over, it gets through exactly if every line is good and taken, and the text submitted is then the chunks' contents in order; otherwise the abort path |
| Handlers.Server.CloseSession | internal/api/streaming.go:240-244 | it closes cleanly exactly if every ack comes, and then every submitted record is durable, the end included |
| Handlers.Server.StreamMessage | internal/api/streaming.go:47-277 | every reply pinned to what happened: a fresh one exactly if every call up to the close succeeds, one complete message with exactly the body's chunks being on the stream; its range starts past the first tail reading and ends past the message, or is unknown if the second reading failed |
| Handlers.Server.Conclude | internal/api/streaming.go:246-275 | the range is made of the two tail readings, which bracket the message as stated, whatever lands meanwhile; row, head and claim are left as the calls took effect |
| Handlers.Server.AckCursor | internal/api/ack.go:12-48 | a 204 means the stored ack has reached seq and is within the head; a refusal that seq is beyond the head when it is sent; an error that a call failed |
| Handlers.Server.AckOfSend | internal/api/messages.go:128 | after a whole-message send whose head update took effect, an ack up to the end of its reply is not refused, whoever acks and whatever runs in between |
| Handlers.Server.AckOfStream | internal/api/streaming.go:260-264 | the same after a streamed send |
| Handlers.Server.AppendNotice | internal/api/conversations.go:262-275 | reported appended iff the append succeeded; the record is then on the stream at the seq reported, and the head has reached it if its update took effect |
| Handlers.Server.RecoverInProgressMessages | cmd/server/main.go:179-225 | finished messages stay; a message is closed iff its abort took effect, a claim goes iff its row's abort succeeded and its delete took effect, an aborted row is written likewise; the two counters are exactly the rows released and not released for sure |
| Handlers.Server.SweepRow | cmd/server/main.go:191-218 | one row: its message is closed iff its abort took effect, its row and claim go as those calls did, and nothing else changes |
| Handlers.RetryMeta | cmd/server/main.go:230-249 | at most three attempts; it succeeds iff some attempt made succeeds, and took effect iff some attempt made did |
| History.SortedKeeps | internal/api/history.go:62-63 | the stable sort orders by seq_start and keeps exactly the messages, each as often as it came |
| History.WindowRefines | internal/api/history.go:96-107 | a finished entry of a window is a message of the whole stream, an open one was open where the window ended with what had been appended by then, and every message wholly inside is there |
| History.WindowExactly | internal/api/history.go:96-107 | exactly: an entry is in a window's list iff it starts in the window and assembling the stream up to the window's end reports it, finished or in progress |
| History.Straddling | internal/api/history.go:92-107 | a finished message that starts in a window and ends at or after its end is listed there in progress and not as finished; a window that starts after it does not list it |
| History.ListingsAgree | internal/model/events.go:296-305 | two walks of the table in different orders list the same messages at every start |
| History.PageIsDetermined | internal/api/history.go:115-121 | so the page does not depend on that order |
| History.GetHistoryBefore | internal/api/history.go:71-121 | the backward walk reads the windows it should, no more than needed, fails only if a read fails, and returns the first page of what they hold below the bound; every message that starts within a window of the bound and ended below it before the first read is on the page, unless later ones fill it |
| History.WalkCovers | internal/api/history.go:92-96 | the windows of a walk cover every seq from where it ended up to the bound |
| History.FirstWindow | internal/api/history.go:92-96 | the first window ends at the bound, and is shorter than a window only if the stream begins inside it |
| History.NewestOnPage | internal/api/history.go:84-121 | of the stream alone: a finished message that starts within a window of the bound and ends below it is on the page, or later ones fill it |
| History.OlderOnPage | internal/api/history.go:84-121 | for every seq a walk came back to, some window read has it, and what starts there and that window reports is on the page, or later ones fill it |
| History.GetHistoryFrom | internal/api/history.go:52-69 | the catch-up page is the first page of its one window, oldest first |
| History.PageIsSound | internal/api/history.go:84-121 | the descending page is in order; everything on it starts below the bound and is what some window read reports, in progress entries with their text at that window's end; finished ones are messages of the whole stream |
| History.PageCovers | internal/api/history.go:84-121 | whatever a window read reports below the bound is on the page, unless the page is full of later ones |
| History.CatchUpRefines | internal/api/history.go:52-69 | the same for the ascending page: exactly the entries of its window but for what earlier ones pushed out |
| History.NoRepeats | internal/api/history.go:90-113 | while windows do not overlap no start is collected twice |
| History.WalkOverlaps | internal/api/history.go:92-96 | windows overlap exactly when the last one is clipped at 0 and the one before starts below the window size |
| History.StartIsListed | internal/model/events.go:232-305 | a window lists an entry starting at a seq iff that record of the stream is a message_start in the window that no later start of its id there supersedes, and then exactly one |
| History.CollectedCount | internal/api/history.go:90-113 | below the bound a start is collected exactly once for every window read that has it, as finished or in progress; from the bound on never |
| History.RepeatedIff | internal/api/history.go:90-113 | a start is collected at least twice iff it is below the bound and two different windows have it |
| Subscriber.SeenIsRecent | roundtable/client.py:475-489 | the bounded ordered set holds exactly the seqs with fewer than cap distinct ones after them |
| Subscriber.HandledOnceIff | roundtable/client.py:645-652 | no seq is handled twice iff every repeat is among the last cap distinct seqs |
| Subscriber.ExactlyOnce | roundtable/client.py:627-676 | over any at-least-once tail, with records the server cannot forward passed over, the handled events are everything forwarded from the start to the last seq reached: each once, in order, no gap |
| Subscriber.ResumeKeepsTail | internal/api/sse.go:60-75 | whatever a server that starts one past everything received writes, redelivered recent seqs included, the tail stays at-least-once |
| Subscriber.ResumesAtNext | internal/api/sse.go:60-83 | the last seq handled makes the server start exactly one past the highest seq received; a negative or missing one at the stored cursor |
| Subscriber.ForwardingOffers | internal/api/sse.go:124-191 | a server that forwards every record it can, in order, is one of those the tail may meet, and passes over nothing else |
| Events.RunForwarded | internal/api/sse.go:180-185 | leaving out records that cannot be forwarded does not change what is assembled |
| Subscriber.CutDeliversPrefix | roundtable/client.py:640-676 | a connection cut after any line, mid-frame included, delivers a prefix of the events written, comments and error frames aside |
| Subscriber.BrokenDeliversPrefix | roundtable/client.py:640-676 | so does one cut in the middle of a line, whose rest is read as a line |
| Subscriber.FrameIsEvent | roundtable/client.py:641-676 | a frame with any number of data lines is one event: its own seq and type, its data lines joined by newlines |
| Subscriber.SSESubscriber.HandleEvent | roundtable/client.py:542-601 | one event moves the reassembly as whole-stream assembly would |
| Subscriber.SSESubscriber.Add | roundtable/client.py:482-489 | a seq counts as new iff it is not among the last 10,000 distinct ones |
| Subscriber.SSESubscriber.ReadOnce | roundtable/client.py:627-676 | a connection delivers exactly the complete frames it got through |
| Subscriber.SSESubscriber.Tail | roundtable/client.py:604-625 | connection after connection, exactly the complete frames each got through are delivered |
| Subscriber.SSESubscriber.TailReassembles | roundtable/client.py:604-676 | from a fresh subscriber, over any connections, each answered from the last seq the client has by then and dropping anywhere, in the middle of a frame or a line included: each forwarded record reached is handled exactly once and in order, the messages handed out are the finished part of AssembleMessages on that segment of the stream, and last seq is its end |
| Subscriber.SSESubscriber.Reconnect | roundtable/client.py:627-676 | one more connection keeps the tail at-least-once, never moves last seq back and only adds messages |
| Subscriber.SSESubscriber.Reassembles | roundtable/client.py:542-601 | the same at any moment of an at-least-once tail |
| Resident.SeedIsExact | internal/agent/history.go:39-79 | the window read, assembled and filtered is exactly the complete peer messages lying between the window's start and the trigger |
| Resident.GroundedStep | internal/agent/listener.go:192-283 | one event of the live path keeps partial messages and history true of the stream, and complete if nothing was swept |
| Resident.Listener.SeedHistory | internal/agent/history.go:33-112 | the seed is taken at most once, into an empty history, is the last 50 such messages, and marks everything before the trigger as folded |
| Resident.Listener.Listen | internal/agent/listener.go:148-174 | a session follows the cursor: every record that arrives is folded in order, moves the cursor and, if it is the first message_end, leads to the seed; every answer is added once; the new state is exactly what those steps make of the old |
| Resident.SessionTakes | internal/agent/listener.go:148-174 | if n records arrive and are there, a session reads exactly n from where it started and leaves the cursor at the last; the agent's answers are in the history once each, in order; without sweeps nothing is dropped |
| Resident.SeedAtFirstEnd | internal/agent/listener.go:192-205 | the first message_end to arrive is what the seed is taken before, if its read succeeds and the history is empty |
| Resident.StaleIsDropped | internal/agent/listener.go:294-303 | when a record is folded what has gone stale is open no more unless that record starts it anew, and nothing else is dropped |
| Resident.SessionsGood | internal/agent/listener.go:118-174 | over any sessions, with others appending and own responses finishing, partial messages and history stay true of the stream, and complete if nothing was swept |
| Resident.Listener.StartListening | internal/agent/listener.go:118-144 | any number of sessions, each from where the cursor is by then |
| Resident.Listener.HistoryIsTrue | internal/agent/listener.go:286-292 | at most 50 entries, each the agent's own or a complete message of another agent in the stream, none twice, in the order they ended |
| Resident.Listener.NothingLostOrDoubled | internal/agent/history.go:52-101 | without sweeps the peer messages collected are, each once and in order, the last 50 lying in the window before the trigger and then exactly the complete peer messages followed live: none lost, none counted by both; a response is triggered for each of the latter, once |
| Delivery.CursorCache.Update | internal/store/cursor_cache.go:54-64 | a hot value never goes down, and the tiers still agree |
| Delivery.CursorCache.BeginFlushAll | internal/store/cursor_cache.go:79-107 | the snapshot carries every dirty pair at its hot value and marks it clean; the tiers still agree |
| Delivery.CursorCache.BeginFlushOne | internal/store/cursor_cache.go:144-158 | a single flush carries its pair and remembers whether it was dirty |
| Delivery.CursorCache.EndFlush | internal/store/cursor_cache.go:129-171 | a flush that fails puts back exactly the marks it took; Postgres takes only larger values |
| Delivery.CursorCache.FlushAllAlone | internal/store/cursor_cache.go:129-139 | a lone flush that succeeds leaves Postgres at or above the hot value of every pair |
| Delivery.CursorCache.Interleave | internal/store/cursor_cache.go:54-171 | the tiers are what the ops make of them; under any interleaving a pair above Postgres is dirty or carried at exactly its hot value by a running flush; neither tier goes down within a process, and until a restart what is read is past everything confirmed |
| Delivery.CursorCache.StartSeq | internal/api/sse.go:50-83 | from wins, then Last-Event-ID, which also confirms; with neither a tail starts at the hot value, or else at the one in Postgres, at most one past the highest seq ever confirmed |
| Delivery.CursorCache.LowAfterRestart | internal/store/postgres.go:391-396 | after a restart a lower confirmation is what is read, below Postgres |
| Delivery.NothingUnconfirmedSkipped | internal/api/sse.go:60-200 | a tail that starts at most one past the highest confirmed seq writes, in order, every readable event after the confirmed ones as far as it got |
| Delivery.Connection.TailOne | internal/api/sse.go:124-142 | the reading loop moves the next record into a channel of at most 64; the connection is cut exactly if that is full and stays so |
| Delivery.Connection.WriteOne | internal/api/sse.go:168-199 | what is written is always exactly the readable events from the start seq up to the last one served, all that was taken out while the connection serves |
| Delivery.Resume | internal/api/sse.go:60-200 | with whatever the cache went through before, one tail by Last-Event-ID or from the stored cursor starts at most one past the highest confirmed seq and writes, in order, every readable event after the confirmed ones up to where it was served |
| Delivery.AllDelivered | internal/api/sse.go:60-200 | from its first visit on, over any visits of a client that confirms only what was written to it, across restarts, lost hot tiers and failed flushes and however each tail ends, what was written to it is exactly the readable records up to the furthest: none is skipped; once a tail is let to go on, that is all of them |
| Delivery.RoundsReach | internal/api/sse.go:124-199 | a tail that is let to go on writes the next n records in n rounds, as far as there are any and they can be forwarded |
| Registry.ConnRegistry.RegisterSSE | internal/api/conn_registry.go:71-86 | the new tail is the pair's entry and the one it replaced is cancelled |
| Registry.ConnRegistry.DeregisterSSE | internal/api/conn_registry.go:92-106 | unlinks itself or nobody, and closes its own channel |
| Registry.ConnRegistry.RegisterWrite | internal/api/conn_registry.go:119-129 | the write's entry, whatever was there before |
| Registry.ConnRegistry.DeregisterWrite | internal/api/conn_registry.go:133-154 | the entry under the key goes, whoever put it there, and its channel is closed |
| Registry.ConnRegistry.LookupAndCancel | internal/api/conn_registry.go:162-188 | cancels and collects every entry of the pair |
| Registry.InvRun | internal/api/conn_registry.go:71-188 | in every run a pair's current tail serves it, every other tail still linked is cancelled, and every entry belongs to a running handler whose channel is open |
| Registry.LastConnectionWins | internal/api/conn_registry.go:71-106 | once a tail has registered every older one of its pair is cancelled, and it stays the current one whoever leaves |
| Registry.ClosedOnce | internal/api/conn_registry.go:98-104 | in no run is a channel closed twice: what a handler closes is open; a tail closes its own, a write does iff it has its entry |
| Registry.CancelsOnly | internal/api/conn_registry.go:71-188 | exactly whom each step cancels: a new tail the one of its pair that has the entry, a look the handlers of its pair that have one, nothing else anybody |
| Registry.CancelledBy | internal/api/conn_registry.go:71-188 | so in every run whoever is cancelled was cancelled by a step of its own pair at which it had its entry |
| Registry.OtherPairs | internal/api/conn_registry.go:71-188 | a step of one pair leaves the entries, the handlers, the cancelled and the closed of every other pair as they were |
| Registry.WaitsForAll | internal/api/conn_registry.go:162-188 | everything collected is cancelled; when all channels collected are closed, the tail and every write that was alone with its entry have deregistered |
| Registry.AwaitsIff | internal/api/conn_registry.go:119-188 | in every reachable state, for every running write: however it goes on, the channels collected are closed only after it has deregistered, iff it is alone with its entry at the look |
| Registry.WaitsIff | internal/api/conn_registry.go:119-188 | so waiting covers all running writes of the pair iff each has its entry at the look |
| Registry.StaysRegistered | internal/api/conn_registry.go:119-154 | while each write of a pair has its entry, the only step that ends it is a registration over an entry still there; it holds whenever no write of the pair runs |
| Registry.OverwrittenWriteIsLost | internal/api/conn_registry.go:119-154 | registering a write over another, in whatever run, lets the older one's leaving close the newer one's channel while it runs |
| Leave.InvRun | internal/agent/listener.go:86-115 | over all interleavings of writers, listener, responses and the leave handler |
| Leave.LeftIsLast | internal/api/conversations.go:220-281 | after agent_left nothing of a response running when the leave told the resident agent is on the stream, unless that wait timed out; nothing of a write alone with its entry when the leave looked, unless that wait timed out |
| Leave.SilencedIff | internal/api/conversations.go:220-281 | in every state in which a leave can look, for every running write of the pair: nothing of it can follow agent_left without the wait timing out, iff it is alone with its entry |
| Leave.AllSilencedIff | internal/api/conversations.go:220-281 | so a leave silences all running writes of its pair iff each has its entry when it looks |
| Leave.AnsweredIff | internal/agent/listener.go:86-115 | for every response running when a leave tells the agent: nothing of it can follow agent_left without that wait timing out, iff the leaver is the resident agent |
| Leave.DrainEnds | internal/agent/listener.go:86-144 | and that wait can always end: the listener has been told to stop, and once its loop exits and the responses finish its channel closes |
| Leave.UnregisteredWriteLandsLate | internal/api/streaming.go:117-135 | from any state about to write agent_left, a write not registered before lands after it |
| AppendSession.Session.DrainOne | internal/store/s2.go:173-188 | acks are awaited in Submit order; a failed one is a failure, and the first sticks |
| AppendSession.Session.Submit | internal/store/s2.go:190-242 | the exact answer: a known failure, else what the record, the session, the ticket and the room in the queue come to; nil means queued for its ack; which failures stick |
| AppendSession.Session.Close | internal/store/s2.go:244-258 | nil means every event whose Submit returned nil was acked; otherwise the first failure, or how the session closed |
| AppendSession.WriteMessage | internal/api/streaming.go:157-244 | a writer that reports success had its start, its non-empty chunks and its end acked, in order and nothing else; if nothing fails it reports success |
| AppendSession.AfterFailure | internal/store/s2.go:162-193 | after the first failure every later Submit and Close returns it |
| Membership.Decide | internal/store/postgres.go:251-263 | the loop and the checks decide as the locked read says |
| Membership.NeverEmpty | internal/store/postgres.go:214-279 | under any interleaving of leaves, invites and rollbacks a conversation with a member always has one |
| Membership.LeaveRemovesOne | internal/store/postgres.go:236-279 | a leave that goes through removes its agent, a member until then, and nobody else |
| Membership.LeaveVerdict | internal/store/postgres.go:225-279 | exactly how a leave ends, whatever runs meanwhile: not a member iff its row of then is gone, last member iff it is the only one left of the members of then, otherwise it leaves |
| Prompt.BuildClaudeMessages | internal/agent/respond.go:414-466 | turns alternate, begin with user, are empty iff no message is another agent's, and joined by newlines are the rendered lines from the first such message on |
| Prompt.RenderedReads | internal/agent/respond.go:425-434 | who said what can be read off a line: own lines are the words, another's have the sender's name in brackets and then the words, as long as the name has no closing bracket |
| Prompt.CutJoins | internal/agent/respond.go:436-443 | merging runs loses and reorders nothing |
| Prompt.CutUnique | internal/agent/respond.go:436-443 | there is only one way to cut lines into alternating turns, so the prompt is determined |
| SseWire.ParseFrame | Agent-Stream-Chat/artifacts/agentmail-ui/src/lib/sse.ts:41-94 | the loop over lines yields the frame of the text |
| SseWire.NoErrorFrames | Agent-Stream-Chat/artifacts/agentmail-ui/src/lib/sse.ts:163-169 | whatever arrives, only the six known events are dispatched, an error frame never |
| SseWire.OpenConversationStream | Agent-Stream-Chat/artifacts/agentmail-ui/src/lib/sse.ts:150-173 | the buffer loop dispatches the frames of what has arrived |
| SseWire.ChunkingIsIrrelevant | Agent-Stream-Chat/artifacts/agentmail-ui/src/lib/sse.ts:150-161 | the frames cut out are those of the whole text, wherever it was cut, unless a carriage return directly precedes a CRLF |
| SseWire.ChunkingIff | Agent-Stream-Chat/artifacts/agentmail-ui/src/lib/sse.ts:150-161 | for every text: the frames cut out and the text left over are the same for all chunkings iff no carriage return directly precedes a CRLF |
| SseWire.ChunkingMatters | Agent-Stream-Chat/artifacts/agentmail-ui/src/lib/sse.ts:152-169 | with such a return the same text, cut in two ways, can lead to an event or to none |
| SseWire.DecimalValue | internal/api/sse.go:184 | a printed seq reads back as itself |
| SseWire.PrintParse | internal/api/sse.go:168-191 | whatever is printed and however it is cut, the client dispatches exactly the events, each with its own seq, type and data; of a text that breaks off, a prefix |

## Left out

- Late landing: a record of an append session that becomes durable only after
  its session was closed or its process died; the model takes such a record for
  lost.
- Repeated landing: the store has its client retry appends whatever the error
  (AppendRetryPolicyAll, `internal/store/s2.go:63-68`), so one append call may
  land twice. The model takes each call to land at most once;
  WriteProtocol.BatchStep, the AtMostOnce results and every count of records
  rest on that.
- Several conversations: the in-progress delete is keyed by the message id
  alone; one conversation is modelled, so ids are unique across conversations.
- The resident agent as a writer in the write protocol: its abort is appended
  before its session is closed and its close error is ignored, so a record of
  it may land after the abort. Its reader, its prompt and its part in a leave
  are modelled.
- HTTP decoding, membership checks, header parsing and status codes other than
  those named; request bodies arrive decoded.
- Real time: timeouts, backoff, heartbeats, expiry and read deadlines are
  choices, not clocks.
- Integer width: seqs are unbounded; a Last-Event-ID of 2^64 - 1 is not
  modelled as wrapping.
- SseWire.PrintParse: JSON.parse and Number on anything but decimal digits
  below 2^53 are parameters, and text is characters, not UTF-8 bytes.
- Resident.Listener.HistoryIsTrue: takes the delivery cursor to be moved by the
  listener alone; an HTTP client acking for the same agent could move it ahead.
- Subscriber.SSESubscriber.HandleEvent: a payload without its fields raises in
  the original and ends the thread; here every payload decodes to some event.
- Subscriber.SSESubscriber.TailReassembles: while nothing has been handled and
  no seq to start from is given, the stored cursor the server falls back on is
  taken to be the same at every connection; and a redelivered record is taken to
  be one of the last 10,000 distinct seqs, without which HandledOnceIff says it
  is handled again.
- Encoding: the client sets no response encoding and the server names no charset
  (`roundtable/client.py:627-676`, `internal/api/sse.go:110`), so what non-ASCII
  content turns into is up to the HTTP library. The subscriber is taken to read
  the text as the server wrote it.
- Delivery.AllDelivered: a client that passes `from` skips what it asks to skip;
  the visits here resume by Last-Event-ID or from the stored cursor, and a write
  that fails is taken not to have been received.
- Leave.LeftIsLast: follows one leave of one pair at a time; other leaves appear
  only as cancellations.
- Observer endpoints, listing endpoints, the membership cache under
  concurrency, the janitor that expires rows, shutdown order, and all user
  interface code.
