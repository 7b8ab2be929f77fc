/** Turning a message history into the alternating turns of a prompt. */
module Prompt {
  import opened Events
  import opened Resident

  datatype Role = User | Assistant

  datatype Line = Line(role: Role, text: string)

  datatype Turn = Turn(role: Role, content: string)

  /** One history entry as one line; name prints an agent id. */
  function Rendered(m: ConvMessage, self: Id, name: Id -> string): Line {
    if m.sender == self then Line(Assistant, m.content) else Line(User, "[" + name(m.sender) + "]: " + m.content)
  }

  /** Who said what can be read off a line: the agent's own lines are its words;
      another agent's line has the sender's name up to the first closing bracket
      and its words after the separator. */
  lemma RenderedReads(m: ConvMessage, self: Id, name: Id -> string)
    requires ']' !in name(m.sender)
    ensures var l := Rendered(m, self, name);
            && (l.role == Assistant <==> m.sender == self)
            && (l.role == Assistant ==> l.text == m.content)
            && (l.role == User ==>
                  exists i :: 0 < i && i + 3 <= |l.text| && l.text[0] == '[' && l.text[1..i] == name(m.sender)
                    && l.text[i..i + 3] == "]: " && ']' !in l.text[..i] && l.text[i + 3..] == m.content)
  {
    if m.sender != self {
      var n := name(m.sender);
      var text, i := Rendered(m, self, name).text, 1 + |n|;
      assert text == "[" + n + "]: " + m.content;
      assert text[..i] == "[" + n && text[1..i] == n && text[i..i + 3] == "]: " && text[i + 3..] == m.content;
    }
  }

  function Lines(history: seq<ConvMessage>, self: Id, name: Id -> string): (ls: seq<Line>)
    ensures |ls| == |history| && forall i :: 0 <= i < |ls| ==> ls[i] == Rendered(history[i], self, name)
  {
    seq(|history|, i requires 0 <= i < |history| => Rendered(history[i], self, name))
  }

  /** The position of the first message of another agent, |history| if none. */
  function FirstPeer(history: seq<ConvMessage>, self: Id): (k: nat)
    ensures k <= |history| && (k < |history| ==> history[k].sender != self)
    ensures forall i :: 0 <= i < k ==> history[i].sender == self
  {
    if history == [] || history[0].sender != self then 0
    else 1 + FirstPeer(history[1..], self)
  }

  function Joined(texts: seq<string>): string {
    if texts == [] then ""
    else if |texts| == 1 then texts[0]
    else Joined(texts[..|texts| - 1]) + "\n" + texts[|texts| - 1]
  }

  function Texts(lines: seq<Line>): seq<string> { seq(|lines|, i requires 0 <= i < |lines| => lines[i].text) }

  function Contents(turns: seq<Turn>): seq<string> { seq(|turns|, i requires 0 <= i < |turns| => turns[i].content) }

  ghost predicate SameRole(lines: seq<Line>, role: Role) { forall i :: 0 <= i < |lines| ==> lines[i].role == role }

  ghost predicate Alternate(turns: seq<Turn>) {
    forall i, j :: 0 <= i < j < |turns| && j == i + 1 ==> turns[i].role != turns[j].role
  }

  /** The last turn holds the lines from k on. */
  ghost predicate Holds(turn: Turn, lines: seq<Line>, k: nat) {
    k < |lines| && SameRole(lines[k..], turn.role) && turn.content == Joined(Texts(lines[k..]))
  }

  /** turns cut lines into consecutive runs, each of one role and each joined
      into one turn of that role. */
  ghost predicate Cut(turns: seq<Turn>, lines: seq<Line>) {
    if turns == [] then lines == []
    else exists k: nat :: Holds(turns[|turns| - 1], lines, k) && Cut(turns[..|turns| - 1], lines[..k])
  }

  lemma JoinedNext(texts: seq<string>, text: string)
    requires texts != []
    ensures Joined(texts + [text]) == Joined(texts) + "\n" + text
  {
    assert (texts + [text])[..|texts|] == texts;
  }

  lemma {:induction false} JoinedConcat(x: seq<string>, y: seq<string>)
    requires x != [] && y != []
    ensures Joined(x + y) == Joined(x) + "\n" + Joined(y)
  {
    var last := y[|y| - 1];
    if |y| == 1 {
      JoinedNext(x, last);
      assert x + y == x + [last];
    } else {
      JoinedConcat(x, y[..|y| - 1]);
      JoinedNext(x + y[..|y| - 1], last);
      assert x + y == x + y[..|y| - 1] + [last];
    }
  }

  /** A line of the other role opens a turn. */
  lemma CutNew(turns: seq<Turn>, lines: seq<Line>, line: Line)
    requires Cut(turns, lines)
    ensures Cut(turns + [Turn(line.role, line.text)], lines + [line])
  {
    var ts, ls := turns + [Turn(line.role, line.text)], lines + [line];
    assert ls[|lines|..] == [line] && Texts(ls[|lines|..]) == [line.text];
    assert ts[..|turns|] == turns && ls[..|lines|] == lines;
    assert Holds(ts[|turns|], ls, |lines|);
  }

  lemma HoldsMore(last: Turn, lines: seq<Line>, line: Line, k: nat)
    requires Holds(last, lines, k) && last.role == line.role
    ensures Holds(Turn(last.role, last.content + "\n" + line.text), lines + [line], k)
  {
    assert (lines + [line])[k..] == lines[k..] + [line];
    assert Texts(lines[k..] + [line]) == Texts(lines[k..]) + [line.text];
    JoinedNext(Texts(lines[k..]), line.text);
  }

  lemma CutBy(front: seq<Turn>, last: Turn, lines: seq<Line>, k: nat)
    requires Holds(last, lines, k) && Cut(front, lines[..k])
    ensures Cut(front + [last], lines)
  {
    assert (front + [last])[..|front|] == front;
  }

  lemma CutOf(front: seq<Turn>, last: Turn, lines: seq<Line>) returns (k: nat)
    requires Cut(front + [last], lines)
    ensures Holds(last, lines, k) && Cut(front, lines[..k])
  {
    assert (front + [last])[..|front|] == front;
    k :| Holds(last, lines, k) && Cut(front, lines[..k]);
  }

  /** A line of the same role is merged into the last turn. */
  lemma CutMerge(front: seq<Turn>, last: Turn, lines: seq<Line>, line: Line)
    requires Cut(front + [last], lines) && last.role == line.role
    ensures Cut(front + [Turn(last.role, last.content + "\n" + line.text)], lines + [line])
  {
    var k := CutOf(front, last, lines);
    HoldsMore(last, lines, line, k);
    assert (lines + [line])[..k] == lines[..k];
    CutBy(front, Turn(last.role, last.content + "\n" + line.text), lines + [line], k);
  }

  lemma CutDropFirst(turns: seq<Turn>, lines: seq<Line>, j: nat, k: nat)
    requires |turns| > 1 && 0 < k <= j && Holds(turns[|turns| - 1], lines, j)
    requires Cut(turns[..|turns| - 1][1..], lines[..j][k..])
    ensures Cut(turns[1..], lines[k..])
  {
    var rest, tail := turns[1..], lines[k..];
    assert rest[..|rest| - 1] == turns[..|turns| - 1][1..];
    assert tail[..j - k] == lines[..j][k..];
    assert tail[j - k..] == lines[j..];
    assert Holds(rest[|rest| - 1], tail, j - k);
  }

  /** The first turn holds the first lines: dropping it drops exactly those. */
  lemma {:induction false} CutFirst(turns: seq<Turn>, lines: seq<Line>) returns (k: nat)
    requires Cut(turns, lines) && turns != []
    ensures 0 < k <= |lines| && SameRole(lines[..k], turns[0].role) && Cut(turns[1..], lines[k..])
  {
    var front, last := turns[..|turns| - 1], turns[|turns| - 1];
    var j: nat :| Holds(last, lines, j) && Cut(front, lines[..j]);
    if front == [] {
      k := |lines|;
      assert lines[..k] == lines[j..];
    } else {
      k := CutFirst(front, lines[..j]);
      assert lines[..j][..k] == lines[..k];
      CutDropFirst(turns, lines, j, k);
    }
  }

  lemma JoinsMore(front: seq<Turn>, last: Turn, lines: seq<Line>, k: nat)
    requires Holds(last, lines, k) && (front == [] <==> k == 0)
    requires Joined(Contents(front)) == Joined(Texts(lines[..k]))
    ensures Joined(Contents(front + [last])) == Joined(Texts(lines))
  {
    assert Contents(front + [last]) == Contents(front) + [last.content];
    assert Texts(lines) == Texts(lines[..k]) + Texts(lines[k..]);
    if k == 0 {
      assert lines[k..] == lines;
    } else {
      JoinedNext(Contents(front), last.content);
      JoinedConcat(Texts(lines[..k]), Texts(lines[k..]));
    }
  }

  /** Merging loses and reorders nothing. */
  lemma {:induction false} CutJoins(turns: seq<Turn>, lines: seq<Line>)
    requires Cut(turns, lines)
    ensures Joined(Contents(turns)) == Joined(Texts(lines))
  {
    if turns != [] {
      var front, last := turns[..|turns| - 1], turns[|turns| - 1];
      assert turns == front + [last];
      var k := CutOf(front, last, lines);
      CutNonEmpty(front, lines[..k]);
      CutJoins(front, lines[..k]);
      JoinsMore(front, last, lines, k);
    }
  }

  lemma CutNonEmpty(turns: seq<Turn>, lines: seq<Line>)
    requires Cut(turns, lines)
    ensures turns == [] <==> lines == []
  {
  }

  lemma InRun(lines: seq<Line>, k: nat, i: int, role: Role)
    requires k <= i < |lines| && SameRole(lines[k..], role)
    ensures lines[i].role == role
  {
    assert lines[k..][i - k] == lines[i];
  }

  /** Where turns alternate, the line before the last run has the other role. */
  lemma LastRun(front: seq<Turn>, last: Turn, lines: seq<Line>, k: nat)
    requires Alternate(front + [last]) && Holds(last, lines, k) && Cut(front, lines[..k])
    ensures k > 0 ==> lines[k - 1].role != last.role
  {
    if k > 0 {
      CutNonEmpty(front, lines[..k]);
      var f, l := front[..|front| - 1], front[|front| - 1];
      assert front == f + [l];
      var j := CutOf(f, l, lines[..k]);
      InRun(lines[..k], j, k - 1, l.role);
      assert (front + [last])[|front| - 1] == l && (front + [last])[|front|] == last;
    }
  }

  lemma RunsAgree(f: seq<Turn>, x: Turn, g: seq<Turn>, y: Turn, lines: seq<Line>, i: nat, j: nat)
    requires Alternate(f + [x]) && Holds(x, lines, i) && Cut(f, lines[..i])
    requires Alternate(g + [y]) && Holds(y, lines, j) && Cut(g, lines[..j])
    ensures i == j && x == y
  {
    LastRun(f, x, lines, i);
    LastRun(g, y, lines, j);
    InRun(lines, i, |lines| - 1, x.role);
    InRun(lines, j, |lines| - 1, y.role);
    InRun(lines, i, if i < j then j - 1 else i, x.role);
    InRun(lines, j, if j < i then i - 1 else j, y.role);
  }

  lemma AlternatePrefix(front: seq<Turn>, last: Turn)
    requires Alternate(front + [last])
    ensures Alternate(front)
  {
    assert forall i :: 0 <= i < |front| ==> (front + [last])[i] == front[i];
  }

  /** The cut is the only one whose turns alternate, so the prompt is determined
      by the lines alone. */
  lemma {:induction false} CutUnique(x: seq<Turn>, y: seq<Turn>, lines: seq<Line>)
    requires Cut(x, lines) && Alternate(x) && Cut(y, lines) && Alternate(y)
    ensures x == y
  {
    CutNonEmpty(x, lines);
    CutNonEmpty(y, lines);
    if lines != [] {
      var f, a := x[..|x| - 1], x[|x| - 1];
      var g, b := y[..|y| - 1], y[|y| - 1];
      assert x == f + [a] && y == g + [b];
      var i := CutOf(f, a, lines);
      var j := CutOf(g, b, lines);
      RunsAgree(f, a, g, b, lines, i, j);
      AlternatePrefix(f, a);
      AlternatePrefix(g, b);
      CutUnique(f, g, lines[..i]);
    }
  }

  /** What remains starts at the first message of another agent. */
  lemma FirstLine(turns: seq<Turn>, dropped: seq<Line>, left: seq<Line>, history: seq<ConvMessage>, self: Id, name: Id -> string)
    requires Lines(history, self, name) == dropped + left && SameRole(dropped, Assistant)
    requires Cut(turns, left) && (turns != [] ==> turns[0].role == User)
    ensures |dropped| == FirstPeer(history, self) && left == Lines(history, self, name)[FirstPeer(history, self)..]
  {
    forall i | 0 <= i < |dropped| ensures history[i].sender == self {
      assert (dropped + left)[i] == dropped[i];
    }
    CutNonEmpty(turns, left);
    if left != [] {
      var j := CutFirst(turns, left);
      assert left[..j][0] == left[0] == (dropped + left)[|dropped|];
    }
  }

  /** One round of the merging loop. */
  method AddLine(turns: seq<Turn>, role: Role, line: string, ghost lines: seq<Line>) returns (more: seq<Turn>)
    requires Cut(turns, lines) && Alternate(turns)
    ensures Cut(more, lines + [Line(role, line)]) && Alternate(more)
  {
    if turns != [] && turns[|turns| - 1].role == role {
      assert turns == turns[..|turns| - 1] + [turns[|turns| - 1]];
      CutMerge(turns[..|turns| - 1], turns[|turns| - 1], lines, Line(role, line));
      more := turns[..|turns| - 1] + [Turn(role, turns[|turns| - 1].content + "\n" + line)];
    } else {
      CutNew(turns, lines, Line(role, line));
      more := turns + [Turn(role, line)];
    }
  }

  lemma SplitAgain(dropped: seq<Line>, left: seq<Line>, j: nat)
    requires j <= |left| && SameRole(dropped, Assistant) && SameRole(left[..j], Assistant)
    ensures dropped + left == dropped + left[..j] + left[j..] && SameRole(dropped + left[..j], Assistant)
  {
  }

  /** The loop that drops leading assistant turns, and their lines with them. */
  method DropLeading(turns: seq<Turn>, ghost lines: seq<Line>)
    returns (rest: seq<Turn>, ghost dropped: seq<Line>, ghost left: seq<Line>)
    requires Cut(turns, lines) && Alternate(turns)
    ensures lines == dropped + left && SameRole(dropped, Assistant) && Cut(rest, left)
    ensures Alternate(rest) && (rest != [] ==> rest[0].role == User)
  {
    rest, dropped, left := turns, [], lines;
    while rest != [] && rest[0].role != User
      invariant lines == dropped + left && SameRole(dropped, Assistant)
      invariant Cut(rest, left) && Alternate(rest)
      decreases |rest|
    {
      ghost var j := CutFirst(rest, left);
      SplitAgain(dropped, left, j);
      rest, dropped, left := rest[1..], dropped + left[..j], left[j..];
    }
  }

  /** The loop that merges runs of one role. */
  method Merge(history: seq<ConvMessage>, self: Id, name: Id -> string) returns (turns: seq<Turn>)
    ensures Cut(turns, Lines(history, self, name)) && Alternate(turns)
  {
    ghost var lines := Lines(history, self, name);
    turns := [];
    for i := 0 to |history|
      invariant Cut(turns, lines[..i]) && Alternate(turns)
    {
      assert lines[..i + 1] == lines[..i] + [lines[i]];
      var m := history[i];
      var role := if m.sender == self then Assistant else User;
      var line := if m.sender == self then m.content else "[" + name(m.sender) + "]: " + m.content;
      turns := AddLine(turns, role, line, lines[..i]);
    }
    assert lines[..|history|] == lines;
  }

  /** buildClaudeMessages. With CutUnique this determines the prompt: its turns
      alternate, begin with user, are empty exactly when there is no message of
      another agent, and hold the lines from the first such message on. */
  method BuildClaudeMessages(history: seq<ConvMessage>, self: Id, name: Id -> string) returns (turns: seq<Turn>)
    ensures Alternate(turns) && (turns != [] ==> turns[0].role == User)
    ensures turns == [] <==> forall i :: 0 <= i < |history| ==> history[i].sender == self
    ensures Cut(turns, Lines(history, self, name)[FirstPeer(history, self)..])
    ensures Joined(Contents(turns)) == Joined(Texts(Lines(history, self, name)[FirstPeer(history, self)..]))
  {
    ghost var dropped, left;
    turns := Merge(history, self, name);
    turns, dropped, left := DropLeading(turns, Lines(history, self, name));
    CutNonEmpty(turns, left);
    FirstLine(turns, dropped, left, history, self, name);
    CutJoins(turns, left);
  }
}
