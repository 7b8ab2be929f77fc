/** The event-stream text the server prints and the browser client parses, cut
    into chunks anywhere (section 9.2.6 of the WHATWG HTML Living Standard). */
module SseWire {
  import opened Common

  // ------------------------------------------------------------------
  // What the server prints
  // ------------------------------------------------------------------

  function Digit(n: nat): char
    requires n < 10
  {
    ('0' as int + n) as char
  }

  function Decimal(n: nat): string {
    if n < 10 then [Digit(n)] else Decimal(n / 10) + [Digit(n % 10)]
  }

  datatype Item = Event(at: nat, etype: string, data: string) | Greeting | Heartbeat | Failure(body: string)

  function Print(item: Item): string {
    match item
    case Event(at, etype, data) => "id: " + Decimal(at) + "\nevent: " + etype + "\ndata: " + data + "\n\n"
    case Greeting => ":ok\n\n"
    case Heartbeat => ": heartbeat\n\n"
    case Failure(body) => "event: error\ndata: " + body + "\n\n"
  }

  function PrintAll(items: seq<Item>): string {
    if items == [] then "" else PrintAll(items[..|items| - 1]) + Print(items[|items| - 1])
  }

  // ------------------------------------------------------------------
  // What the client does with one frame
  // ------------------------------------------------------------------

  const VALID_EVENTS := {"message_start", "message_append", "message_end", "message_abort", "agent_joined", "agent_left"}

  const EXACT := 9_007_199_254_740_992   // 2^53

  /** The host's number and JSON parsers, as far as they are not spelled out. */
  datatype Host<J> = Host(number: string -> Option<nat>, json: string -> Option<J>)

  datatype Frame<J> = Frame(at: nat, event: string, data: J)

  datatype Fields = Fields(at: Option<nat>, event: Option<string>, data: seq<string>)

  predicate IsDigit(c: char) { '0' <= c <= '9' }

  predicate Digits(s: string) { s != "" && forall i :: 0 <= i < |s| ==> IsDigit(s[i]) }

  function Value(s: string): nat
    requires forall i :: 0 <= i < |s| ==> IsDigit(s[i])
  {
    if s == "" then 0
    else
      assert IsDigit(s[|s| - 1]);
      Value(s[..|s| - 1]) * 10 + (s[|s| - 1] as int - '0' as int)
  }

  /** Number(value): exact on decimal digits below 2^53. */
  function Number<J>(s: string, host: Host<J>): Option<nat> {
    if Digits(s) && Value(s) < EXACT then Some(Value(s)) else host.number(s)
  }

  /** Index of the first c in s, |s| if there is none. */
  function IndexOf(s: string, c: char): (i: nat)
    ensures i <= |s| && (i < |s| ==> s[i] == c) && forall j :: 0 <= j < i ==> s[j] != c
  {
    if s == "" || s[0] == c then 0 else 1 + IndexOf(s[1..], c)
  }

  function SplitLines(s: string): seq<string>
    decreases |s|
  {
    var i := IndexOf(s, '\n');
    if i == |s| then [s] else [s[..i]] + SplitLines(s[i + 1..])
  }

  /** replace(/\r\n/g, '\n') */
  function Norm(s: string): string
    decreases |s|
  {
    if s == "" then ""
    else if |s| >= 2 && s[0] == '\r' && s[1] == '\n' then "\n" + Norm(s[2..])
    else [s[0]] + Norm(s[1..])
  }

  function FieldName(line: string): string { line[..IndexOf(line, ':')] }

  /** What follows the colon, without one leading space. */
  function FieldValue(line: string): string {
    var colon := IndexOf(line, ':');
    var value := if colon == |line| then "" else line[colon + 1..];
    if value != "" && value[0] == ' ' then value[1..] else value
  }

  function Take<J>(f: Fields, line: string, host: Host<J>): Fields {
    if line == "" || line[0] == ':' then f
    else if FieldName(line) == "id" then
      var n := Number(FieldValue(line), host);
      if n.Some? then f.(at := n) else f
    else if FieldName(line) == "event" then f.(event := Some(FieldValue(line)))
    else if FieldName(line) == "data" then f.(data := f.data + [FieldValue(line)])
    else f
  }

  const BARE := Fields(None, None, [])

  function TakeAll<J>(lines: seq<string>, host: Host<J>): Fields {
    if lines == [] then BARE else Take(TakeAll(lines[..|lines| - 1], host), lines[|lines| - 1], host)
  }

  function Join(parts: seq<string>): string {
    if parts == [] then ""
    else if |parts| == 1 then parts[0]
    else parts[0] + "\n" + Join(parts[1..])
  }

  function Build<J>(f: Fields, host: Host<J>): Option<Frame<J>> {
    if f.data == [] || f.event.None? || f.event.value == "" || f.event.value !in VALID_EVENTS then None
    else
      var data := host.json(Join(f.data));
      if data.None? then None else Some(Frame(if f.at.Some? then f.at.value else 0, f.event.value, data.value))
  }

  function Parsed<J>(raw: string, host: Host<J>): Option<Frame<J>> {
    if raw == "" then None else Build(TakeAll(SplitLines(Norm(raw)), host), host)
  }

  /** parseFrame, line by line. */
  method ParseFrame<J>(raw: string, host: Host<J>) returns (frame: Option<Frame<J>>)
    ensures frame == Parsed(raw, host)
  {
    if raw == "" { return None; }
    var lines := SplitLines(Norm(raw));
    var at: Option<nat>, event: Option<string>, dataParts: seq<string> := None, None, [];
    for i := 0 to |lines|
      invariant Fields(at, event, dataParts) == TakeAll(lines[..i], host)
    {
      assert lines[..i + 1][..i] == lines[..i];
      var line := lines[i];
      if line == "" || line[0] == ':' { continue; }
      var colon := IndexOf(line, ':');
      var field, value := line, "";
      if colon < |line| {
        field, value := line[..colon], line[colon + 1..];
        if value != "" && value[0] == ' ' { value := value[1..]; }
      }
      assert field == FieldName(line) && value == FieldValue(line);
      if field == "id" {
        var n := Number(value, host);
        if n.Some? { at := n; }
      } else if field == "event" {
        event := Some(value);
      } else if field == "data" {
        dataParts := dataParts + [value];
      }
    }
    assert lines[..|lines|] == lines;
    if dataParts == [] { return None; }
    if event.None? || event.value == "" || event.value !in VALID_EVENTS { return None; }
    var data := host.json(Join(dataParts));
    if data.None? { return None; }
    frame := Some(Frame(if at.Some? then at.value else 0, event.value, data.value));
  }

  // ------------------------------------------------------------------
  // The buffer loop
  // ------------------------------------------------------------------

  predicate Blank(s: string, j: nat) { j + 1 < |s| && s[j] == '\n' && s[j + 1] == '\n' }

  /** Index of the first empty line's break, |s| if there is none. */
  function Gap(s: string): (i: nat)
    ensures i <= |s|
    ensures i < |s| ==> Blank(s, i)
    ensures forall j: nat :: j < i ==> !Blank(s, j)
  {
    if |s| < 2 then |s|
    else if Blank(s, 0) then 0
    else
      assert forall j: nat :: 0 < j ==> Blank(s, j) == Blank(s[1..], j - 1);
      1 + Gap(s[1..])
  }

  /** Raw frames found so far and the text after them. */
  datatype Reading = Reading(raws: seq<string>, buffer: string)

  /** Everything up to the last empty line, cut at the empty lines. */
  function Cut(s: string): Reading
    decreases |s|
  {
    var i := Gap(s);
    if i == |s| then Reading([], s)
    else var rest := Cut(s[i + 2..]); Reading([s[..i]] + rest.raws, rest.buffer)
  }

  function Next(r: Reading, chunk: string): Reading {
    var more := Cut(Norm(r.buffer + chunk));
    Reading(r.raws + more.raws, more.buffer)
  }

  /** What has been read when these chunks have arrived. */
  function Read(chunks: seq<string>): Reading {
    if chunks == [] then Reading([], "") else Next(Read(chunks[..|chunks| - 1]), chunks[|chunks| - 1])
  }

  function Flat(chunks: seq<string>): string {
    if chunks == [] then "" else Flat(chunks[..|chunks| - 1]) + chunks[|chunks| - 1]
  }

  function Frames<J>(raws: seq<string>, host: Host<J>): seq<Frame<J>> {
    if raws == [] then []
    else
      var f := Parsed(raws[|raws| - 1], host);
      Frames(raws[..|raws| - 1], host) + if f.Some? then [f.value] else []
  }

  lemma InvalidNames()
    ensures "" !in VALID_EVENTS && "error" !in VALID_EVENTS
  {
    assert |"message_start"| == 13 && |"message_append"| == 14 && |"message_end"| == 11;
    assert |"message_abort"| == 13 && |"agent_joined"| == 12 && |"agent_left"| == 10;
    assert |"error"| == 5;
  }

  /** Whatever arrives, only the six known events are passed on; so the branch
      that reports `error` frames is never taken. */
  lemma {:induction false} NoErrorFrames<J>(raws: seq<string>, host: Host<J>)
    ensures forall f :: f in Frames(raws, host) ==> f.event in VALID_EVENTS && f.event != "error"
  {
    InvalidNames();
    if raws != [] {
      NoErrorFrames(raws[..|raws| - 1], host);
    }
  }

  lemma {:induction false} FramesConcat<J>(x: seq<string>, y: seq<string>, host: Host<J>)
    ensures Frames(x + y, host) == Frames(x, host) + Frames(y, host)
  {
    if y == [] {
      assert x + y == x;
    } else {
      assert (x + y)[..|x + y| - 1] == x + y[..|y| - 1];
      FramesConcat(x, y[..|y| - 1], host);
    }
  }

  lemma Opened(s: string) returns (raw: string, rest: string)
    requires Gap(s) < |s|
    ensures raw == s[..Gap(s)] && rest == s[Gap(s) + 2..]
    ensures s == raw + "\n\n" + rest && |rest| < |s| && Gap(raw + "\n\n") == |raw|
    ensures Cut(s) == Reading([raw] + Cut(rest).raws, Cut(rest).buffer)
  {
    var i := Gap(s);
    raw, rest := s[..i], s[i + 2..];
    assert forall j: nat :: j <= i ==> Blank(raw + "\n\n", j) == Blank(s, j);
  }

  /** The inner loop: takes out every whole frame. */
  method Drain<J>(text: string, host: Host<J>) returns (frames: seq<Frame<J>>, buffer: string)
    ensures buffer == Cut(text).buffer && frames == Frames(Cut(text).raws, host)
  {
    buffer, frames := text, [];
    ghost var raws: seq<string> := [];
    while Gap(buffer) < |buffer|
      invariant Cut(text).raws == raws + Cut(buffer).raws && Cut(text).buffer == Cut(buffer).buffer
      invariant frames == Frames(raws, host)
      decreases |buffer|
    {
      var idx := Gap(buffer);
      var raw := buffer[..idx];
      ghost var _, rest := Opened(buffer);
      Assoc(raws, [raw], Cut(rest).raws);
      buffer := buffer[idx + 2..];
      var frame := ParseFrame(raw, host);
      FramesNext(raws, raw, host);
      raws := raws + [raw];
      if frame.Some? { frames := frames + [frame.value]; }
    }
    assert raws + [] == raws;
  }

  lemma FramesNext<J>(raws: seq<string>, raw: string, host: Host<J>)
    ensures Frames(raws + [raw], host)
            == Frames(raws, host) + if Parsed(raw, host).Some? then [Parsed(raw, host).value] else []
  {
    assert (raws + [raw])[..|raws|] == raws;
  }

  /** The reading loop of openConversationStream. */
  method OpenConversationStream<J>(chunks: seq<string>, host: Host<J>) returns (frames: seq<Frame<J>>)
    ensures frames == Frames(Read(chunks).raws, host)
  {
    var buffer := "";
    frames := [];
    for i := 0 to |chunks|
      invariant buffer == Read(chunks[..i]).buffer && frames == Frames(Read(chunks[..i]).raws, host)
    {
      assert chunks[..i + 1][..i] == chunks[..i];
      var more;
      buffer := Norm(buffer + chunks[i]);
      FramesConcat(Read(chunks[..i]).raws, Cut(buffer).raws, host);
      more, buffer := Drain(buffer, host);
      frames := frames + more;
    }
    assert chunks[..|chunks|] == chunks;
  }

  // ------------------------------------------------------------------
  // Chunk boundaries do not matter
  // ------------------------------------------------------------------

  predicate Pair(s: string, i: nat) { i + 1 < |s| && s[i] == '\r' && s[i + 1] == '\n' }

  /** No carriage return directly before a CRLF. */
  ghost predicate Plain(s: string) { forall i: nat :: Pair(s, i) && i > 0 ==> s[i - 1] != '\r' }

  ghost predicate NoPair(s: string) { forall i: nat :: !Pair(s, i) }

  lemma {:induction false} NormNoPair(s: string)
    requires NoPair(s)
    ensures Norm(s) == s
    decreases |s|
  {
    if s != "" {
      assert !Pair(s, 0);
      forall i: nat ensures !Pair(s[1..], i) { assert !Pair(s, i + 1); }
      NormNoPair(s[1..]);
    }
  }

  lemma NormPairFirst(x: string, y: string)
    requires Pair(x, 0)
    ensures Norm(x + y) == "\n" + Norm(x[2..] + y) && Norm(x) == "\n" + Norm(x[2..])
  {
    assert (x + y)[2..] == x[2..] + y;
  }

  lemma NormCharFirst(x: string, y: string)
    requires x != "" && !Pair(x + y, 0)
    ensures Norm(x + y) == [x[0]] + Norm(x[1..] + y)
  {
    assert (x + y)[1..] == x[1..] + y;
  }

  lemma {:induction false} NormConcat(x: string, y: string)
    requires x == "" || y == "" || x[|x| - 1] != '\r' || y[0] != '\n'
    ensures Norm(x + y) == Norm(x) + Norm(y)
    decreases |x|
  {
    if x == "" {
      assert x + y == y;
    } else if Pair(x, 0) {
      NormPairFirst(x, y);
      NormConcat(x[2..], y);
      Assoc("\n", Norm(x[2..]), Norm(y));
    } else {
      assert !Pair(x + y, 0);
      NormCharFirst(x, y);
      NormConcat(x[1..], y);
      Assoc([x[0]], Norm(x[1..]), Norm(y));
    }
  }

  lemma PlainPrefix(t: string, c: string)
    requires Plain(t + c)
    ensures Plain(t)
  {
    forall i: nat | Pair(t, i) && i > 0 ensures t[i - 1] != '\r' {
      assert Pair(t + c, i);
    }
  }

  lemma PlainRest(s: string, k: nat)
    requires Plain(s) && k <= |s|
    ensures Plain(s[k..])
  {
    forall i: nat | Pair(s[k..], i) && i > 0 ensures s[k..][i - 1] != '\r' {
      assert Pair(s, i + k);
    }
  }

  lemma NoPairFirst(c: char, n: string)
    requires NoPair(n) && (c == '\r' && n != "" ==> n[0] != '\n')
    ensures NoPair([c] + n)
  {
    forall i: nat ensures !Pair([c] + n, i) {
      if i > 0 { assert !Pair(n, i - 1); }
    }
  }

  /** Without doubled carriage returns one pass leaves no CRLF behind. */
  lemma {:induction false} NormClean(s: string)
    requires Plain(s)
    ensures NoPair(Norm(s))
    ensures s != "" ==> Norm(s) != "" && Norm(s)[|Norm(s)| - 1] == s[|s| - 1]
    ensures s != "" && !Pair(s, 0) ==> Norm(s)[0] == s[0]
    decreases |s|
  {
    if s != "" {
      var k := if Pair(s, 0) then 2 else 1;
      var rest := s[k..];
      PlainRest(s, k);
      NormClean(rest);
      assert k == 1 ==> Pair(rest, 0) == Pair(s, 1);
      NoPairFirst(if k == 2 then '\n' else s[0], Norm(rest));
    }
  }

  lemma CrLf(u: string, d: string)
    requires u != "" ==> u[|u| - 1] != '\r'
    ensures Norm((u + "\r") + ("\n" + d)) == Norm(u) + ("\n" + Norm(d))
  {
    assert (u + "\r") + ("\n" + d) == u + ("\r\n" + d);
    NormConcat(u, "\r\n" + d);
    assert ("\r\n" + d)[2..] == d;
  }

  /** A CRLF cut in two. */
  lemma NormSplit(u: string, d: string)
    requires Plain(u) && (u != "" ==> u[|u| - 1] != '\r')
    ensures Norm(Norm(u + "\r") + ("\n" + d)) == Norm((u + "\r") + ("\n" + d))
  {
    NormClean(u);
    NormNoPair(Norm(u));
    NormConcat(u, "\r");
    assert Norm("\r") == "\r";
    CrLf(u, d);
    CrLf(Norm(u), d);
  }

  /** Normalising what has arrived and then more gives what normalising all of
      it at once does. */
  lemma NormAgain(t: string, c: string)
    requires Plain(t + c)
    ensures Norm(Norm(t) + c) == Norm(t + c) && NoPair(Norm(t))
  {
    PlainPrefix(t, c);
    NormClean(t);
    if t == "" || c == "" || t[|t| - 1] != '\r' || c[0] != '\n' {
      NormJoined(t, c);
    } else {
      assert t == t[..|t| - 1] + "\r" && c == "\n" + c[1..];
      NormCut(t[..|t| - 1], c[1..]);
    }
  }

  lemma NormJoined(t: string, c: string)
    requires Plain(t) && (t == "" || c == "" || t[|t| - 1] != '\r' || c[0] != '\n')
    ensures Norm(Norm(t) + c) == Norm(t + c)
  {
    NormClean(t);
    if t == "" { assert Norm(t) == ""; }
    NormNoPair(Norm(t));
    NormConcat(t, c);
    NormConcat(Norm(t), c);
  }

  lemma NormCut(u: string, d: string)
    requires Plain((u + "\r") + ("\n" + d))
    ensures Norm(Norm(u + "\r") + ("\n" + d)) == Norm((u + "\r") + ("\n" + d))
  {
    assert Pair((u + "\r") + ("\n" + d), |u|);
    assert (u + "\r") + ("\n" + d) == u + ("\r\n" + d);
    PlainPrefix(u, "\r\n" + d);
    NormSplit(u, d);
  }

  lemma GapAt(raw: string, tail: string)
    requires Gap(raw + "\n\n") == |raw|
    ensures Gap(raw + "\n\n" + tail) == |raw|
  {
    var s, t := raw + "\n\n", raw + "\n\n" + tail;
    assert forall j: nat :: j + 1 < |s| ==> Blank(t, j) == Blank(s, j);
  }

  lemma CutHead(raw: string, tail: string)
    requires Gap(raw + "\n\n") == |raw|
    ensures Cut(raw + "\n\n" + tail) == Reading([raw] + Cut(tail).raws, Cut(tail).buffer)
  {
    GapAt(raw, tail);
    var t := raw + "\n\n" + tail;
    assert t[..|raw|] == raw && t[|raw| + 2..] == tail;
  }

  lemma LastOf(x: string, y: string)
    requires x != ""
    ensures x + y != "" && (x + y)[|x + y| - 1] == if y == "" then x[|x| - 1] else y[|y| - 1]
  {
  }

  /** Reading goes on where it stopped, one frame further back. */
  lemma Extend(raw: string, more: string, done: Reading, z: string)
    requires Gap(raw + "\n\n") == |raw| && Cut(more + z) == Reading(done.raws + Cut(z).raws, Cut(z).buffer)
    requires more != "" ==> more[|more| - 1] == '\n'
    ensures var used := raw + "\n\n" + more;
            && raw + "\n\n" + (more + done.buffer) == used + done.buffer
            && used[|used| - 1] == '\n'
            && Cut(used + z) == Reading(([raw] + done.raws) + Cut(z).raws, Cut(z).buffer)
  {
    Assoc(raw + "\n\n", more, done.buffer);
    Assoc(raw + "\n\n", more, z);
    CutHead(raw, more + z);
    LastOf(raw + "\n\n", more);
    assert ([raw] + done.raws) + Cut(z).raws == [raw] + (done.raws + Cut(z).raws);
  }

  /** Cutting continues where it stopped: used is the text the whole frames of s
      were taken from. */
  lemma {:induction false} CutContinues(s: string, z: string) returns (used: string)
    ensures s == used + Cut(s).buffer
    ensures used != "" ==> used[|used| - 1] == '\n'
    ensures Cut(used + z) == Reading(Cut(s).raws + Cut(z).raws, Cut(z).buffer)
    decreases |s|
  {
    if Gap(s) == |s| {
      used := "";
      assert used + z == z && [] + Cut(z).raws == Cut(z).raws;
    } else {
      var raw, rest := Opened(s);
      var more := CutContinues(rest, z);
      Extend(raw, more, Cut(rest), z);
      used := raw + "\n\n" + more;
    }
  }

  /** Text already cut off plays no part in normalising what follows. */
  lemma NormTail(used: string, b: string, c: string)
    requires NoPair(used + b) && (used != "" ==> used[|used| - 1] == '\n')
    ensures Norm((used + b) + c) == used + Norm(b + c)
  {
    assert (used + b) + c == used + (b + c);
    NormConcat(used, b + c);
    forall i: nat ensures !Pair(used, i) { assert !Pair(used + b, i); }
    NormNoPair(used);
  }

  lemma ReadNext(t: string, c: string)
    requires Plain(t + c)
    ensures Next(Cut(Norm(t)), c) == Cut(Norm(t + c))
  {
    NormAgain(t, c);
    var r := Cut(Norm(t));
    var used := CutContinues(Norm(t), Norm(r.buffer + c));
    NormTail(used, r.buffer, c);
  }

  /** Main result: unless a carriage return directly precedes a CRLF, the frames
      read are those of the whole text, wherever it was cut into chunks. */
  lemma {:induction false} ChunkingIsIrrelevant(chunks: seq<string>)
    requires Plain(Flat(chunks))
    ensures Read(chunks) == Cut(Norm(Flat(chunks)))
  {
    if chunks != [] {
      var front, c := chunks[..|chunks| - 1], chunks[|chunks| - 1];
      PlainPrefix(Flat(front), c);
      ChunkingIsIrrelevant(front);
      ReadNext(Flat(front), c);
    }
  }

  lemma OneChunk(chunk: string)
    ensures Flat([chunk]) == chunk && Read([chunk]) == Cut(Norm(chunk))
  {
    assert [chunk][..0] == [];
    assert "" + chunk == chunk;
    assert Read([chunk]) == Next(Reading([], ""), chunk);
    assert [] + Cut(Norm(chunk)).raws == Cut(Norm(chunk)).raws;
  }

  /** How much text a reading holds, the breaks after its frames included. */
  function Size(r: Reading): nat { Total(r.raws) + |r.buffer| }

  function Total(raws: seq<string>): nat {
    if raws == [] then 0 else |raws[0]| + 2 + Total(raws[1..])
  }

  lemma {:induction false} TotalConcat(x: seq<string>, y: seq<string>)
    ensures Total(x + y) == Total(x) + Total(y)
  {
    if x == [] {
      assert x + y == y;
    } else {
      assert (x + y)[1..] == x[1..] + y;
      TotalConcat(x[1..], y);
    }
  }

  lemma {:induction false} CutSize(s: string)
    ensures Size(Cut(s)) == |s|
    decreases |s|
  {
    if Gap(s) < |s| {
      var raw, rest := Opened(s);
      CutSize(rest);
      TotalConcat([raw], Cut(rest).raws);
      assert [raw][1..] == [];
    }
  }

  lemma PairInRest(s: string, raw: string, rest: string)
    requires s == raw + "\n\n" + rest && |s| >= 2 && Pair(s, |s| - 2)
    ensures |rest| >= 2 && Pair(rest, |rest| - 2)
  {
    var k := |raw| + 2;
    assert s[|raw|] == '\n' && s[|raw| + 1] == '\n' && s[k..] == rest;
    assert |rest| >= 2;
    assert rest[|rest| - 2] == s[|s| - 2] && rest[|rest| - 1] == s[|s| - 1];
  }

  lemma OpenedPair(s: string) returns (rest: string)
    requires Gap(s) < |s| && |s| >= 2 && Pair(s, |s| - 2)
    ensures 2 <= |rest| < |s| && Pair(rest, |rest| - 2) && Cut(s).buffer == Cut(rest).buffer
  {
    var raw: string;
    raw, rest := Opened(s);
    PairInRest(s, raw, rest);
  }

  lemma Unopened(s: string)
    requires Gap(s) >= |s|
    ensures Cut(s) == Reading([], s)
  {
  }

  /** A CRLF at the end of a text stays at the end of what is left of it. */
  lemma {:induction false} BufferEnds(s: string)
    requires |s| >= 2 && Pair(s, |s| - 2)
    ensures var b := Cut(s).buffer; |b| >= 2 && Pair(b, |b| - 2)
    decreases |s|
  {
    if Gap(s) < |s| {
      var rest := OpenedPair(s);
      BufferEnds(rest);
    } else {
      Unopened(s);
    }
  }

  lemma {:induction false} NormShrinks(s: string)
    ensures |Norm(s)| <= |s|
    decreases |s|
  {
    if s != "" { NormShrinks(s[if Pair(s, 0) then 2 else 1..]); }
  }

  /** Normalising again takes out a CRLF left over from the first time. */
  lemma SecondPassShrinks(b: string, v: string)
    requires |b| >= 2 && Pair(b, |b| - 2)
    ensures |Norm(b + v)| < |b| + |Norm(v)|
  {
    var c := b[..|b| - 2];
    assert b == c + "\r\n";
    NormConcat(b, v);
    NormConcat(c, "\r\n");
    assert "\r\n"[2..] == "";
    NormShrinks(c);
  }

  lemma DoubledReturn(u: string)
    ensures var s := Norm(u + "\r\r\n"); |s| >= 2 && Pair(s, |s| - 2)
  {
    NormConcat(u, "\r\r\n");
    assert "\r\r\n"[1..] == "\r\n" && "\r\n"[2..] == "";
    assert Norm("\r\r\n") == "\r" + "\n";
  }

  /** Cut right after a doubled carriage return and its line feed, the text is
      read as a shorter one. */
  lemma DoubledDiffers(u: string, v: string)
    ensures Flat([u + "\r\r\n"] + [v]) == (u + "\r\r\n") + v
    ensures Read([u + "\r\r\n"] + [v]) != Cut(Norm((u + "\r\r\n") + v))
  {
    var a := u + "\r\r\n";
    var r := Cut(Norm(a));
    OneChunk(a);
    assert ([a] + [v])[..1] == [a];
    DoubledReturn(u);
    BufferEnds(Norm(a));
    SecondPassShrinks(r.buffer, v);
    NormConcat(a, v);
    CutSize(Norm(a));
    CutSize(Norm(r.buffer + v));
    CutSize(Norm(a + v));
    TotalConcat(r.raws, Cut(Norm(r.buffer + v)).raws);
  }

  lemma NotPlain(t: string) returns (chunks: seq<string>)
    requires !Plain(t)
    ensures Flat(chunks) == t && Read(chunks) != Cut(Norm(t))
  {
    var i: nat :| Pair(t, i) && i > 0 && t[i - 1] == '\r';
    var u, v := t[..i - 1], t[i + 2..];
    assert t == (u + "\r\r\n") + v;
    DoubledDiffers(u, v);
    chunks := [u + "\r\r\n"] + [v];
  }

  /** Main result, exact: how a text is cut into chunks is irrelevant to the
      frames cut out of it and the text left over iff nowhere a carriage return
      directly precedes a CRLF. */
  lemma ChunkingIff(t: string)
    ensures Plain(t) <==> forall chunks: seq<string> :: Flat(chunks) == t ==> Read(chunks) == Cut(Norm(t))
  {
    forall chunks: seq<string> | Plain(t) && Flat(chunks) == t ensures Read(chunks) == Cut(Norm(t)) {
      ChunkingIsIrrelevant(chunks);
    }
    if !Plain(t) {
      var chunks := NotPlain(t);
    }
  }

  lemma NoGap(s: string)
    requires forall j: nat :: !Blank(s, j)
    ensures Cut(s) == Reading([], s)
  {
  }

  // ------------------------------------------------------------------
  // Printing and parsing undo each other
  // ------------------------------------------------------------------

  ghost predicate OneLine(s: string) { '\n' !in s && '\r' !in s }

  /** No line break in what is printed: JSON escapes them. */
  ghost predicate Lean(item: Item) {
    match item
    case Event(at, etype, data) => at < EXACT && OneLine(etype) && OneLine(data)
    case Failure(body) => OneLine(body)
    case _ => true
  }

  function LineOf(name: string, value: string): string { name + [':'] + (" " + value) }

  function LinesOf(item: Item): seq<string> {
    match item
    case Event(at, etype, data) => [LineOf("id", Decimal(at)), LineOf("event", etype), LineOf("data", data)]
    case Greeting => [":ok"]
    case Heartbeat => [": heartbeat"]
    case Failure(body) => [LineOf("event", "error"), LineOf("data", body)]
  }

  function Expected<J>(item: Item, host: Host<J>): seq<Frame<J>> {
    if item.Event? && item.etype in VALID_EVENTS && host.json(item.data).Some?
    then [Frame(item.at, item.etype, host.json(item.data).value)] else []
  }

  function AllExpected<J>(items: seq<Item>, host: Host<J>): seq<Frame<J>> {
    if items == [] then [] else AllExpected(items[..|items| - 1], host) + Expected(items[|items| - 1], host)
  }

  lemma {:induction false} DecimalValue(n: nat)
    ensures Digits(Decimal(n)) && Value(Decimal(n)) == n
  {
    if n < 10 {
      assert Decimal(n)[..0] == "";
    } else {
      DecimalValue(n / 10);
      assert Decimal(n)[..|Decimal(n)| - 1] == Decimal(n / 10);
    }
  }

  lemma IndexAt(x: string, c: char, y: string)
    requires c !in x
    ensures IndexOf(x, c) == |x| && IndexOf(x + [c] + y, c) == |x|
  {
    var s := x + [c] + y;
    assert s[|x|] == c;
    assert forall j :: 0 <= j < |x| ==> s[j] == x[j] && x[j] in x;
  }

  lemma FieldOf(name: string, value: string)
    requires ':' !in name && name != ""
    ensures var line := name + [':'] + (" " + value);
            line != "" && line[0] != ':' && FieldName(line) == name && FieldValue(line) == value
  {
    var line := name + [':'] + (" " + value);
    IndexAt(name, ':', " " + value);
    assert line[0] == name[0] && name[0] in name;
    assert line[|name| + 1..] == " " + value && (" " + value)[1..] == value;
  }

  lemma EventFields<J>(at: nat, etype: string, data: string, host: Host<J>)
    requires at < EXACT
    ensures TakeAll([LineOf("id", Decimal(at)), LineOf("event", etype), LineOf("data", data)], host)
            == Fields(Some(at), Some(etype), [data])
  {
    var a, b, c := LineOf("id", Decimal(at)), LineOf("event", etype), LineOf("data", data);
    DecimalValue(at);
    FieldOf("id", Decimal(at));
    FieldOf("event", etype);
    FieldOf("data", data);
    assert [a, b, c][..2] == [a, b] && [a, b][..1] == [a] && [a][..0] == [];
    assert TakeAll([a], host) == Take(BARE, a, host) == Fields(Some(at), None, []);
    assert TakeAll([a, b], host) == Take(TakeAll([a], host), b, host) == Fields(Some(at), Some(etype), []);
  }

  lemma FailureFields<J>(body: string, host: Host<J>)
    ensures TakeAll([LineOf("event", "error"), LineOf("data", body)], host) == Fields(None, Some("error"), [body])
  {
    var a, b := LineOf("event", "error"), LineOf("data", body);
    FieldOf("event", "error");
    FieldOf("data", body);
    assert [a, b][..1] == [a] && [a][..0] == [];
    assert TakeAll([a], host) == Take(BARE, a, host);
  }

  lemma CommentFields<J>(line: string, host: Host<J>)
    requires line != "" && line[0] == ':'
    ensures TakeAll([line], host) == BARE
  {
    assert [line][..0] == [];
  }

  /** A nonempty line without a break in it. */
  ghost predicate Solid(line: string) { line != "" && OneLine(line) }

  ghost predicate AllSolid(lines: seq<string>) { forall i :: 0 <= i < |lines| ==> Solid(lines[i]) }

  lemma DecimalLine(n: nat)
    ensures OneLine(Decimal(n))
  {
    DecimalValue(n);
    assert forall c :: c in Decimal(n) ==> IsDigit(c);
  }

  lemma LineSolid(name: string, value: string)
    requires OneLine(name) && OneLine(value)
    ensures Solid(LineOf(name, value))
  {
  }

  lemma LinesSolid(item: Item)
    requires Lean(item)
    ensures AllSolid(LinesOf(item)) && LinesOf(item) != []
  {
    match item
    case Event(at, etype, data) =>
      DecimalLine(at);
      LineSolid("id", Decimal(at));
      LineSolid("event", etype);
      LineSolid("data", data);
    case Failure(body) =>
      LineSolid("event", "error");
      LineSolid("data", body);
    case _ =>
  }

  /** Text without an empty line, neither beginning nor ending with a break. */
  ghost predicate Firm(s: string) {
    s != "" && s[0] != '\n' && s[|s| - 1] != '\n' && forall j: nat :: !Blank(s, j)
  }

  /** Lines joined by single breaks. */
  ghost predicate Body(s: string) { Firm(s) && '\r' !in s }

  lemma BodyConcat(x: string, y: string)
    requires Solid(x) && Body(y)
    ensures Body(x + "\n" + y)
  {
    var s := x + "\n" + y;
    forall j: nat ensures !Blank(s, j) {
      if j < |x| { assert s[j] == x[j] && x[j] in x; }
      if j == |x| { assert s[j + 1] == y[0]; }
      if j > |x| { assert Blank(s, j) == Blank(y, j - |x| - 1); }
    }
    assert s[0] == x[0] && x[0] in x && s[|s| - 1] == y[|y| - 1];
  }

  lemma {:induction false} JoinBody(lines: seq<string>)
    requires AllSolid(lines) && lines != []
    ensures Body(Join(lines))
  {
    assert Solid(lines[0]);
    if |lines| == 1 {
      assert forall j :: 0 <= j < |lines[0]| ==> lines[0][j] in lines[0];
    } else {
      assert forall i :: 0 <= i < |lines[1..]| ==> lines[1..][i] == lines[i + 1];
      JoinBody(lines[1..]);
      BodyConcat(lines[0], Join(lines[1..]));
    }
  }

  lemma SplitFirst(line: string, rest: string)
    requires '\n' !in line
    ensures SplitLines(line + ['\n'] + rest) == [line] + SplitLines(rest)
  {
    IndexAt(line, '\n', rest);
    var s := line + ['\n'] + rest;
    assert s[..|line|] == line && s[|line| + 1..] == rest;
  }

  lemma SplitLast(line: string)
    requires Solid(line)
    ensures SplitLines(line) == [line]
  {
    IndexAt(line, '\n', "");
  }

  lemma {:induction false} SplitJoin(lines: seq<string>)
    requires AllSolid(lines) && lines != []
    ensures SplitLines(Join(lines)) == lines
  {
    assert Solid(lines[0]);
    if |lines| == 1 {
      SplitLast(lines[0]);
      assert lines == [lines[0]];
    } else {
      assert forall i :: 0 <= i < |lines[1..]| ==> lines[1..][i] == lines[i + 1];
      SplitJoin(lines[1..]);
      SplitFirst(lines[0], Join(lines[1..]));
      assert lines == [lines[0]] + lines[1..];
    }
  }

  lemma Join2(a: string, b: string)
    ensures Join([a, b]) == a + "\n" + b
  {
    assert [a, b][1..] == [b];
  }

  lemma Join3(a: string, b: string, c: string)
    ensures Join([a, b, c]) == a + "\n" + (b + "\n" + c)
  {
    assert [a, b, c][1..] == [b, c];
    Join2(b, c);
  }

  lemma PrintFailure(body: string)
    ensures Print(Failure(body)) == Join(LinesOf(Failure(body))) + "\n\n"
  {
    var a, b := LineOf("event", "error"), LineOf("data", body);
    Join2(a, b);
    assert a == "event: error" && b == "data: " + body;
    assert "event: error\ndata: " == a + "\n" + "data: ";
    Assoc(a + "\n", "data: ", body);
  }

  lemma PrintEvent(at: nat, etype: string, data: string)
    ensures Print(Event(at, etype, data)) == Join(LinesOf(Event(at, etype, data))) + "\n\n"
  {
    var a, b, c := LineOf("id", Decimal(at)), LineOf("event", etype), LineOf("data", data);
    Join3(a, b, c);
    assert a == "id: " + Decimal(at) && b == "event: " + etype && c == "data: " + data;
    Pieces(a, etype, data);
  }

  lemma Pieces(a: string, etype: string, data: string)
    ensures a + "\nevent: " + etype + "\ndata: " + data == a + "\n" + (("event: " + etype) + "\n" + ("data: " + data))
  {
    var x, y := "event: " + etype, "data: " + data;
    calc {
      a + "\nevent: " + etype + "\ndata: " + data;
      { assert "\nevent: " == "\n" + "event: "; Assoc(a, "\n", "event: "); }
      ((a + "\n") + "event: ") + etype + "\ndata: " + data;
      { Assoc(a + "\n", "event: ", etype); }
      ((a + "\n") + x) + "\ndata: " + data;
      { assert "\ndata: " == "\n" + "data: "; Assoc((a + "\n") + x, "\n", "data: "); }
      ((((a + "\n") + x) + "\n") + "data: ") + data;
      { Assoc(((a + "\n") + x) + "\n", "data: ", data); }
      (((a + "\n") + x) + "\n") + y;
      { Assoc(a + "\n", x, "\n"); Assoc(a + "\n", x + "\n", y); }
      (a + "\n") + ((x + "\n") + y);
    }
  }

  lemma PrintIsLines(item: Item)
    ensures Print(item) == Join(LinesOf(item)) + "\n\n"
  {
    match item
    case Event(at, etype, data) => PrintEvent(at, etype, data);
    case Failure(body) => PrintFailure(body);
    case _ =>
  }

  lemma ParsedLines<J>(lines: seq<string>, host: Host<J>)
    requires AllSolid(lines) && lines != []
    ensures Parsed(Join(lines), host) == Build(TakeAll(lines, host), host)
  {
    JoinBody(lines);
    BodyIsNorm(Join(lines));
    SplitJoin(lines);
  }

  lemma FieldsOf<J>(item: Item, host: Host<J>)
    requires Lean(item)
    ensures TakeAll(LinesOf(item), host)
            == match item
               case Event(at, etype, data) => Fields(Some(at), Some(etype), [data])
               case Failure(body) => Fields(None, Some("error"), [body])
               case _ => BARE
  {
    match item
    case Event(at, etype, data) => EventFields(at, etype, data, host);
    case Failure(body) => FailureFields(body, host);
    case Greeting => CommentFields(":ok", host);
    case Heartbeat => CommentFields(": heartbeat", host);
  }

  lemma ParsedItem<J>(item: Item, host: Host<J>)
    requires Lean(item)
    ensures var f := Parsed(Join(LinesOf(item)), host); (if f.Some? then [f.value] else []) == Expected(item, host)
  {
    LinesSolid(item);
    ParsedLines(LinesOf(item), host);
    FieldsOf(item, host);
    InvalidNames();
  }

  lemma BodyIsNorm(s: string)
    requires '\r' !in s
    ensures Norm(s) == s && Plain(s)
  {
    NormNoPair(s);
  }

  lemma CutItem(item: Item, rest: string)
    requires Lean(item)
    ensures Cut(Print(item) + rest) == Reading([Join(LinesOf(item))] + Cut(rest).raws, Cut(rest).buffer)
    ensures '\r' !in Print(item)
  {
    LinesSolid(item);
    JoinBody(LinesOf(item));
    PrintIsLines(item);
    var body := Join(LinesOf(item));
    GapOfBody(body);
    CutHead(body, rest);
  }

  lemma GapOfBody(body: string)
    requires Firm(body)
    ensures Gap(body + "\n\n") == |body|
  {
    var s := body + "\n\n";
    assert Blank(s, |body|) && !Blank(s, |body| - 1);
    assert forall j: nat :: j + 1 < |body| ==> Blank(s, j) == Blank(body, j);
  }

  /** The frames the client should cut out of what is printed. */
  function Bodies(items: seq<Item>): seq<string> {
    if items == [] then [] else Bodies(items[..|items| - 1]) + [Join(LinesOf(items[|items| - 1]))]
  }

  lemma PrintNext(items: seq<Item>, rest: string)
    requires items != []
    ensures PrintAll(items) + rest == PrintAll(items[..|items| - 1]) + (Print(items[|items| - 1]) + rest)
  {
    Assoc(PrintAll(items[..|items| - 1]), Print(items[|items| - 1]), rest);
  }

  lemma NoneCut(items: seq<Item>, rest: string)
    requires items == []
    ensures Cut(PrintAll(items) + rest) == Reading(Bodies(items) + Cut(rest).raws, Cut(rest).buffer)
  {
    assert PrintAll(items) + rest == rest && [] + Cut(rest).raws == Cut(rest).raws;
  }

  lemma {:induction false} AllCut(items: seq<Item>, rest: string)
    requires forall i :: 0 <= i < |items| ==> Lean(items[i])
    ensures Cut(PrintAll(items) + rest) == Reading(Bodies(items) + Cut(rest).raws, Cut(rest).buffer)
  {
    if items == [] {
      NoneCut(items, rest);
    } else {
      var front, item := items[..|items| - 1], items[|items| - 1];
      AllCut(front, Print(item) + rest);
      PrintNext(items, rest);
      CutItem(item, rest);
      Assoc(Bodies(front), [Join(LinesOf(item))], Cut(rest).raws);
    }
  }

  lemma {:induction false} AllParsed<J>(items: seq<Item>, host: Host<J>)
    requires forall i :: 0 <= i < |items| ==> Lean(items[i])
    ensures Frames(Bodies(items), host) == AllExpected(items, host)
  {
    if items != [] {
      var front, item := items[..|items| - 1], items[|items| - 1];
      AllParsed(front, host);
      ParsedItem(item, host);
      FramesNext(Bodies(front), Join(LinesOf(item)), host);
    }
  }

  lemma {:induction false} NoReturns(items: seq<Item>)
    requires forall i :: 0 <= i < |items| ==> Lean(items[i])
    ensures '\r' !in PrintAll(items)
  {
    if items != [] {
      NoReturns(items[..|items| - 1]);
      CutItem(items[|items| - 1], "");
    }
  }

  lemma Prefix<J>(t: string, left: string, host: Host<J>)
    ensures Frames(Cut(t).raws, host) <= Frames(Cut(t + left).raws, host)
  {
    var z := Cut(t).buffer + left;
    var used := CutContinues(t, z);
    Assoc(used, Cut(t).buffer, left);
    FramesConcat(Cut(t).raws, Cut(z).raws, host);
  }

  /** Main result: whatever events, comments, heartbeats and error frames the
      server prints, and however the text is cut into chunks, the client
      dispatches exactly the events, in order, each with its own seq, type and
      parsed data; of a text that breaks off, a prefix of them. */
  lemma PrintParse<J>(items: seq<Item>, chunks: seq<string>, host: Host<J>)
    requires forall i :: 0 <= i < |items| ==> Lean(items[i])
    requires Flat(chunks) <= PrintAll(items)
    ensures Frames(Read(chunks).raws, host) <= AllExpected(items, host)
    ensures Flat(chunks) == PrintAll(items) ==>
              Frames(Read(chunks).raws, host) == AllExpected(items, host) && Read(chunks).buffer == ""
  {
    var left := ReadPrefix(items, chunks);
    Whole(items, host);
    Prefix(Flat(chunks), left, host);
  }

  lemma ReadPrefix(items: seq<Item>, chunks: seq<string>) returns (left: string)
    requires forall i :: 0 <= i < |items| ==> Lean(items[i])
    requires Flat(chunks) <= PrintAll(items)
    ensures Flat(chunks) + left == PrintAll(items) && Read(chunks) == Cut(Flat(chunks))
  {
    NoReturns(items);
    left := Remainder(Flat(chunks), PrintAll(items));
    NoReturnBefore(Flat(chunks), left);
    ReadWhole(chunks);
  }

  lemma Remainder(t: string, all: string) returns (left: string)
    requires t <= all
    ensures t + left == all
  {
    left := all[|t|..];
  }

  lemma NoReturnBefore(t: string, left: string)
    requires '\r' !in t + left
    ensures '\r' !in t
  {
    assert '\r' in t ==> '\r' in t + left;
  }

  lemma ReadWhole(chunks: seq<string>)
    requires '\r' !in Flat(chunks)
    ensures Read(chunks) == Cut(Flat(chunks))
  {
    BodyIsNorm(Flat(chunks));
    ChunkingIsIrrelevant(chunks);
  }

  lemma Whole<J>(items: seq<Item>, host: Host<J>)
    requires forall i :: 0 <= i < |items| ==> Lean(items[i])
    ensures Frames(Cut(PrintAll(items)).raws, host) == AllExpected(items, host) && Cut(PrintAll(items)).buffer == ""
  {
    AllCut(items, "");
    AllParsed(items, host);
    assert PrintAll(items) + "" == PrintAll(items) && Bodies(items) + [] == Bodies(items);
  }

  // ------------------------------------------------------------------
  // What the client sees of a doubled carriage return
  // ------------------------------------------------------------------

  /** The lines of a frame, and a line after the doubled return. */
  function Front(): string { Join([LineOf("event", "message_end"), LineOf("data", "1")]) }

  function Behind(): string { LineOf("data", "2") }

  lemma FrontBody()
    ensures Body(Front()) && SplitLines(Front()) == [LineOf("event", "message_end"), LineOf("data", "1")]
  {
    LineSolid("event", "message_end");
    LineSolid("data", "1");
    JoinBody([LineOf("event", "message_end"), LineOf("data", "1")]);
    SplitJoin([LineOf("event", "message_end"), LineOf("data", "1")]);
  }

  lemma BehindBody()
    ensures Body(Behind()) && SplitLines(Behind()) == [Behind()]
  {
    LineSolid("data", "2");
    JoinBody([Behind()]);
    SplitJoin([Behind()]);
  }

  lemma DoubledNorm()
    ensures Norm("\n\r\r\n") == "\n\r\n"
  {
    assert "\n\r\r\n"[1..] == "\r\r\n" && "\r\r\n"[1..] == "\r\n" && "\r\n"[2..] == "";
    assert Norm("\r\r\n") == "\r" + "\n";
  }

  lemma FirstNorm(f: string)
    requires Body(f)
    ensures Norm(f + "\n\r\r\n") == f + "\n\r\n"
  {
    BodyIsNorm(f);
    DoubledNorm();
    NormConcat(f, "\n\r\r\n");
  }

  /** A second pass turns the CRLF that is left into an empty line. */
  lemma SecondNorm(f: string, d: string)
    requires Body(f) && '\r' !in d
    ensures Norm((f + "\n\r\n") + d) == f + "\n\n" + d
  {
    var u := f + "\n";
    Regroup(f, d);
    CrLf(u, d);
    BodyIsNorm(u);
    BodyIsNorm(d);
  }

  lemma Regroup(f: string, d: string)
    ensures (f + "\n\r\n") + d == ((f + "\n") + "\r") + ("\n" + d)
    ensures (f + "\n") + ("\n" + d) == f + "\n\n" + d
  {
  }

  lemma FirmAround(x: string, y: string)
    requires Body(x) && Body(y)
    ensures Firm(x + "\n\r\n" + y) && forall j: nat :: !Blank(x + "\n\r\n", j)
  {
    var s, t := x + "\n\r\n" + y, x + "\n\r\n";
    forall j: nat ensures !Blank(s, j) && !Blank(t, j) {
      if j + 1 < |x| { assert Blank(s, j) == Blank(x, j) == Blank(t, j); }
      if j >= |x| + 3 { assert Blank(s, j) == Blank(y, j - |x| - 3); }
    }
  }

  lemma {:induction false} SplitAppend(lines: seq<string>, rest: string)
    requires AllSolid(lines) && lines != []
    ensures SplitLines(Join(lines) + "\n" + rest) == lines + SplitLines(rest)
  {
    assert Solid(lines[0]);
    if |lines| == 1 {
      SplitFirst(lines[0], rest);
      assert [lines[0]] + SplitLines(rest) == lines + SplitLines(rest);
    } else {
      assert forall i :: 0 <= i < |lines[1..]| ==> lines[1..][i] == lines[i + 1];
      SplitAppend(lines[1..], rest);
      SplitMore(lines[0], Join(lines[1..]), rest);
      HeadTail(lines, SplitLines(rest));
    }
  }

  lemma HeadTail(lines: seq<string>, more: seq<string>)
    requires lines != []
    ensures [lines[0]] + (lines[1..] + more) == lines + more
  {
  }

  lemma SplitMore(a: string, b: string, rest: string)
    requires '\n' !in a
    ensures SplitLines((a + "\n" + b) + "\n" + rest) == [a] + SplitLines(b + "\n" + rest)
  {
    JoinedMore(a, b, rest);
    SplitFirst(a, b + "\n" + rest);
  }

  lemma JoinedMore(a: string, b: string, rest: string)
    ensures (a + "\n" + b) + "\n" + rest == a + ['\n'] + (b + "\n" + rest)
  {
  }

  lemma FrontFields<J>(host: Host<J>)
    ensures TakeAll([LineOf("event", "message_end"), LineOf("data", "1")], host) == Fields(None, Some("message_end"), ["1"])
  {
    var a, b := LineOf("event", "message_end"), LineOf("data", "1");
    FieldOf("event", "message_end");
    FieldOf("data", "1");
    assert [a, b][..1] == [a] && [a][..0] == [];
    assert TakeAll([a], host) == Take(BARE, a, host);
  }

  lemma TakeNext<J>(lines: seq<string>, line: string, host: Host<J>)
    ensures TakeAll(lines + [line], host) == Take(TakeAll(lines, host), line, host)
  {
    assert (lines + [line])[..|lines|] == lines;
  }

  lemma TakeBehind<J>(host: Host<J>)
    ensures Take(Fields(None, Some("message_end"), ["1"]), Behind(), host) == Fields(None, Some("message_end"), ["1", "2"])
  {
    FieldOf("data", "2");
    assert ["1"] + ["2"] == ["1", "2"];
  }

  /** With the empty line in it, one frame has both data lines. */
  lemma BothFields<J>(host: Host<J>)
    ensures TakeAll([LineOf("event", "message_end"), LineOf("data", "1")] + ["", Behind()], host)
            == Fields(None, Some("message_end"), ["1", "2"])
  {
    var front := [LineOf("event", "message_end"), LineOf("data", "1")];
    FrontFields(host);
    TakeNext(front, "", host);
    TakeNext(front + [""], Behind(), host);
    TakeBehind(host);
    assert front + [""] + [Behind()] == front + ["", Behind()];
  }

  lemma SplitBlankFirst(b: string)
    requires Solid(b)
    ensures SplitLines("\n" + b) == [""] + [b]
  {
    SplitFirst("", b);
    assert "" + ['\n'] + b == "\n" + b;
    IndexAt(b, '\n', "");
  }

  lemma TwoBreaks(a: string, b: string)
    ensures a + "\n\n" + b == a + "\n" + ("\n" + b)
  {
  }

  lemma BothLines(lines: seq<string>, b: string)
    requires AllSolid(lines) && lines != [] && Solid(b)
    ensures SplitLines(Join(lines) + "\n\n" + b) == lines + ["", b]
  {
    TwoBreaks(Join(lines), b);
    SplitAppend(lines, "\n" + b);
    SplitBlankFirst(b);
    assert [""] + [b] == ["", b];
  }

  lemma ParsedAs<J>(raw: string, lines: seq<string>, f: Fields, host: Host<J>)
    requires raw != "" && SplitLines(Norm(raw)) == lines && TakeAll(lines, host) == f
    ensures Parsed(raw, host) == Build(f, host)
  {
  }

  lemma BothBuilt<J>(host: Host<J>)
    requires host.json("1\n2").None?
    ensures Build(Fields(None, Some("message_end"), ["1", "2"]), host).None?
  {
    Join2("1", "2");
    assert "1" + "\n" + "2" == "1\n2";
  }

  lemma BothSplit()
    ensures SplitLines(Norm(Front() + "\n\r\n" + Behind()))
            == [LineOf("event", "message_end"), LineOf("data", "1")] + ["", Behind()]
  {
    FrontBody();
    BehindBody();
    SecondNorm(Front(), Behind());
    LineSolid("event", "message_end");
    LineSolid("data", "1");
    LineSolid("data", "2");
    BothLines([LineOf("event", "message_end"), LineOf("data", "1")], Behind());
  }

  lemma BothParsed<J>(host: Host<J>)
    requires host.json("1\n2").None?
    ensures Parsed(Front() + "\n\r\n" + Behind(), host).None?
  {
    BothSplit();
    BothFields(host);
    BothBuilt(host);
    ParsedAs(Front() + "\n\r\n" + Behind(), [LineOf("event", "message_end"), LineOf("data", "1")] + ["", Behind()],
             Fields(None, Some("message_end"), ["1", "2"]), host);
  }

  lemma FrontParsed<J>(host: Host<J>)
    requires host.json("1").Some?
    ensures Parsed(Front(), host) == Some(Frame(0, "message_end", host.json("1").value))
  {
    FrontBody();
    BodyIsNorm(Front());
    FrontFields(host);
    ParsedAs(Front(), [LineOf("event", "message_end"), LineOf("data", "1")], Fields(None, Some("message_end"), ["1"]), host);
  }

  lemma BehindFields<J>(host: Host<J>)
    ensures TakeAll([Behind()], host) == Fields(None, None, ["2"])
  {
    FieldOf("data", "2");
    TakeNext([], Behind(), host);
    assert [] + [Behind()] == [Behind()] && [] + ["2"] == ["2"];
  }

  lemma BehindParsed<J>(host: Host<J>)
    ensures Parsed(Behind(), host).None?
  {
    BehindBody();
    BodyIsNorm(Behind());
    BehindFields(host);
    ParsedAs(Behind(), [Behind()], Fields(None, None, ["2"]), host);
  }

  lemma FrameOf<J>(raw: string, host: Host<J>)
    ensures Frames([raw], host) == if Parsed(raw, host).Some? then [Parsed(raw, host).value] else []
  {
    FramesNext([], raw, host);
    assert [] + [raw] == [raw];
  }

  lemma FramesJoin<J>(x: seq<string>, y: seq<string>, both: seq<string>, host: Host<J>)
    requires both == x + y
    ensures Frames(both, host) == Frames(x, host) + Frames(y, host)
  {
    FramesConcat(x, y, host);
  }

  lemma TwoFrames<J>(f: string, b: string, host: Host<J>)
    requires Parsed(f, host).Some? && Parsed(b, host).None?
    ensures Frames([f, b], host) == [Parsed(f, host).value]
  {
    FrameOf(f, host);
    FrameOf(b, host);
    FramesJoin([f], [b], [f, b], host);
  }

  lemma OneFrame<J>(raw: string, host: Host<J>)
    requires Parsed(raw, host).None?
    ensures Frames([raw], host) == []
  {
    FrameOf(raw, host);
  }

  lemma CutApart(f: string, b: string)
    requires Body(f) && Body(b)
    ensures Next(Cut(Norm(f + "\n\r\r\n")), b + "\n\n").raws == [f, b]
  {
    var d := b + "\n\n";
    FirstNorm(f);
    FirmAround(f, b);
    NoGap(f + "\n\r\n");
    SecondNorm(f, d);
    GapOfBody(f);
    CutHead(f, d);
    CutOnly(b);
  }

  lemma CutOnly(b: string)
    requires Firm(b)
    ensures Cut(b + "\n\n") == Reading([b], "")
  {
    GapOfBody(b);
    CutHead(b, "");
    assert b + "\n\n" + "" == b + "\n\n";
  }

  lemma CutTogether(f: string, b: string)
    requires Body(f) && Body(b)
    ensures Cut(Norm((f + "\n\r\r\n") + (b + "\n\n"))).raws == [f + "\n\r\n" + b]
  {
    FirstNorm(f);
    BodyIsNorm(b + "\n\n");
    NormConcat(f + "\n\r\r\n", b + "\n\n");
    FirmAround(f, b);
    CutOnly(f + "\n\r\n" + b);
    Assoc(f + "\n\r\n", b, "\n\n");
  }

  lemma TwoChunks(a: string, b: string)
    ensures Flat([a] + [b]) == Flat([a + b]) && Read([a] + [b]) == Next(Cut(Norm(a)), b)
  {
    OneChunk(a);
    OneChunk(a + b);
    assert ([a] + [b])[..1] == [a];
  }

  /** The same text, cut after the doubled carriage return and whole: the client
      dispatches an event in the one case and none in the other. */
  lemma ChunkingMatters<J>(host: Host<J>)
    requires host.json("1").Some? && host.json("1\n2").None?
    ensures var a, b := Front() + "\n\r\r\n", Behind() + "\n\n";
            && Flat([a] + [b]) == Flat([a + b])
            && Frames(Read([a] + [b]).raws, host) == [Frame(0, "message_end", host.json("1").value)]
            && Frames(Read([a + b]).raws, host) == []
  {
    var f, b := Front(), Behind();
    FrontBody();
    BehindBody();
    TwoChunks(f + "\n\r\r\n", b + "\n\n");
    OneChunk((f + "\n\r\r\n") + (b + "\n\n"));
    CutApart(f, b);
    CutTogether(f, b);
    FrontParsed(host);
    BehindParsed(host);
    TwoFrames(f, b, host);
    BothParsed(host);
    OneFrame(f + "\n\r\n" + b, host);
  }
}
