/** Removing members under row locks: a conversation that has a member keeps one. */
module Membership {
  import opened Events

  /** One version of a row of the members table. */
  datatype Row = Row(agent: Id, version: nat)

  /** A RemoveMember transaction: the rows its locking read still has to visit,
      and those it has locked, in the order it returns them. */
  datatype Tx = Tx(leaver: Id, todo: set<Row>, locked: seq<Row>)

  /** rows: the committed rows of one conversation, at most one per agent. */
  datatype World = World(rows: map<Id, nat>, txs: map<nat, Tx>, nextVersion: nat)

  datatype Verdict = NotMember | LastMember | Removed

  datatype Action =
    | Begin(t: nat, leaver: Id)
    | Visit(t: nat, row: Row)
    | Finish(t: nat)
    | Rollback(t: nat)
    | Invite(agent: Id)

  predicate Present(w: World, r: Row) { r.agent in w.rows && w.rows[r.agent] == r.version }

  function Snapshot(w: World): set<Row> { set a | a in w.rows :: Row(a, w.rows[a]) }

  ghost predicate LockedByOther(w: World, t: nat, r: Row) {
    exists u :: u in w.txs && u != t && r in w.txs[u].locked
  }

  function Agents(rows: seq<Row>): seq<Id> { seq(|rows|, i requires 0 <= i < |rows| => rows[i].agent) }

  /** What RemoveMember decides from the locked read. */
  function Decision(members: seq<Id>, agent: Id): Verdict {
    if agent !in members then NotMember else if |members| == 1 then LastMember else Removed
  }

  /** The locking read takes the rows of its snapshot one by one, waiting while
      another transaction has the row locked and passing over a row that was
      removed meanwhile. Decision, delete and commit come under those locks. */
  ghost predicate Enabled(w: World, a: Action) {
    match a
    case Begin(t, _) => t !in w.txs
    case Visit(t, row) => t in w.txs && row in w.txs[t].todo && !LockedByOther(w, t, row)
    case Finish(t) => t in w.txs && w.txs[t].todo == {}
    case Rollback(t) => t in w.txs
    case Invite(_) => true
  }

  ghost function Apply(w: World, a: Action): World
    requires Enabled(w, a)
  {
    match a
    case Begin(t, leaver) => w.(txs := w.txs[t := Tx(leaver, Snapshot(w), [])])
    case Visit(t, row) =>
      var tx := w.txs[t];
      w.(txs := w.txs[t := Tx(tx.leaver, tx.todo - {row}, tx.locked + if Present(w, row) then [row] else [])])
    case Finish(t) =>
      var tx := w.txs[t];
      var done := w.(txs := w.txs - {t});
      if Decision(Agents(tx.locked), tx.leaver).Removed? then done.(rows := w.rows - {tx.leaver}) else done
    case Rollback(t) => w.(txs := w.txs - {t})
    case Invite(agent) =>
      if agent in w.rows then w
      else w.(rows := w.rows[agent := w.nextVersion], nextVersion := w.nextVersion + 1)
  }

  ghost predicate Legal(w: World, acts: seq<Action>)
    decreases |acts|, 0
  {
    acts == [] || (Legal(w, acts[..|acts| - 1]) && Enabled(Exec(w, acts[..|acts| - 1]), acts[|acts| - 1]))
  }

  ghost function Exec(w: World, acts: seq<Action>): World
    requires Legal(w, acts)
    decreases |acts|, 1
  {
    if acts == [] then w else Apply(Exec(w, acts[..|acts| - 1]), acts[|acts| - 1])
  }

  /** A locked row is there, and locked once. */
  ghost predicate TxOk(w: World, tx: Tx) {
    && (forall i :: 0 <= i < |tx.locked| ==> Present(w, tx.locked[i]) && tx.locked[i] !in tx.todo)
    && (forall i, j :: 0 <= i < j < |tx.locked| ==> tx.locked[i] != tx.locked[j])
  }

  ghost predicate Inv(w: World) {
    && w.rows != map[]
    && (forall t :: t in w.txs ==> TxOk(w, w.txs[t]))
    && (forall t, u, r :: t in w.txs && u in w.txs && t != u && r in w.txs[t].locked ==> r !in w.txs[u].locked)
  }

  /** A transaction that removes its leaver has someone else's row locked. */
  lemma OtherRow(w: World, tx: Tx) returns (r: Row)
    requires TxOk(w, tx) && Decision(Agents(tx.locked), tx.leaver).Removed?
    ensures Row(tx.leaver, if tx.leaver in w.rows then w.rows[tx.leaver] else 0) in tx.locked
    ensures r in tx.locked && Present(w, r) && r.agent != tx.leaver
  {
    var i :| 0 <= i < |tx.locked| && Agents(tx.locked)[i] == tx.leaver;
    var j := if i == 0 then 1 else 0;
    assert tx.locked[i] == Row(tx.leaver, w.rows[tx.leaver]);
    r := tx.locked[j];
  }

  lemma FinishStep(w: World, t: nat)
    requires Inv(w) && Enabled(w, Finish(t))
    ensures Inv(Apply(w, Finish(t)))
  {
    var tx, v := w.txs[t], Apply(w, Finish(t));
    if Decision(Agents(tx.locked), tx.leaver).Removed? {
      var r := OtherRow(w, tx);
      assert r.agent in v.rows;
      var gone := Row(tx.leaver, w.rows[tx.leaver]);
      forall u | u in v.txs ensures TxOk(v, v.txs[u]) {
        assert gone !in w.txs[u].locked;
      }
    }
  }

  lemma VisitStep(w: World, t: nat, row: Row)
    requires Inv(w) && Enabled(w, Visit(t, row))
    ensures Inv(Apply(w, Visit(t, row)))
  {
    var v := Apply(w, Visit(t, row));
    assert row !in w.txs[t].locked;
    forall u, x, r | u in v.txs && x in v.txs && u != x && r in v.txs[u].locked ensures r !in v.txs[x].locked {
      if r == row && (u == t || x == t) { assert !LockedByOther(w, t, row); }
    }
  }

  lemma OtherStep(w: World, a: Action)
    requires Inv(w) && Enabled(w, a) && !a.Finish? && !a.Visit?
    ensures Inv(Apply(w, a))
  {
    if a.Invite? && a.agent !in w.rows { assert a.agent in Apply(w, a).rows; }
  }

  lemma {:induction false} InvRun(w: World, acts: seq<Action>)
    requires Inv(w) && Legal(w, acts)
    ensures Inv(Exec(w, acts))
  {
    if acts != [] {
      InvRun(w, acts[..|acts| - 1]);
      var v, a := Exec(w, acts[..|acts| - 1]), acts[|acts| - 1];
      match a
      case Finish(t) => FinishStep(v, t);
      case Visit(t, row) => VisitStep(v, t, row);
      case _ => OtherStep(v, a);
    }
  }

  /** Main result: from any conversation with a member, whatever leaves, invites
      and rollbacks run concurrently, there is always a member. */
  lemma NeverEmpty(rows: map<Id, nat>, nextVersion: nat, acts: seq<Action>)
    requires rows != map[] && Legal(World(rows, map[], nextVersion), acts)
    ensures Exec(World(rows, map[], nextVersion), acts).rows != map[]
  {
    InvRun(World(rows, map[], nextVersion), acts);
  }

  /** And a leave that went through was of a member who stayed one until then;
      nobody else lost membership by it. */
  lemma LeaveRemovesOne(rows: map<Id, nat>, nextVersion: nat, acts: seq<Action>, t: nat)
    requires rows != map[] && Legal(World(rows, map[], nextVersion), acts)
    requires var w := Exec(World(rows, map[], nextVersion), acts);
             Enabled(w, Finish(t)) && Decision(Agents(w.txs[t].locked), w.txs[t].leaver).Removed?
    ensures var w := Exec(World(rows, map[], nextVersion), acts);
            && w.txs[t].leaver in w.rows
            && Apply(w, Finish(t)).rows.Keys == w.rows.Keys - {w.txs[t].leaver}
            && |w.rows| >= 2
  {
    var w := Exec(World(rows, map[], nextVersion), acts);
    InvRun(World(rows, map[], nextVersion), acts);
    var r := OtherRow(w, w.txs[t]);
    assert {r.agent, w.txs[t].leaver} <= w.rows.Keys;
    SubsetSize({r.agent, w.txs[t].leaver}, w.rows.Keys);
  }

  // ------------------------------------------------------------------
  // Exactly who may leave
  // ------------------------------------------------------------------

  predicate Versioned(w: World) { forall a | a in w.rows :: w.rows[a] < w.nextVersion }

  /** The row agent a had in w0 is there in w. */
  predicate Stays(w0: World, w: World, a: Id) { a in w0.rows && a in w.rows && w.rows[a] == w0.rows[a] }

  /** The transaction t, begun in w0, has each row of then locked, or still to
      visit, or it is gone. */
  ghost predicate Tracks(w0: World, w: World, t: nat, leaver: Id) {
    && Inv(w) && Versioned(w) && Versioned(w0) && w0.nextVersion <= w.nextVersion
    && t in w.txs && w.txs[t].leaver == leaver
    && (forall r :: r in w.txs[t].todo || r in w.txs[t].locked ==> Present(w0, r))
    && (forall a :: Stays(w0, w, a) ==> Row(a, w0.rows[a]) in w.txs[t].todo || Row(a, w0.rows[a]) in w.txs[t].locked)
  }

  /** The step is not the beginning or the end of transaction t. */
  predicate Meanwhile(a: Action, t: nat) {
    match a
    case Begin(u, _) => u != t
    case Finish(u) => u != t
    case Rollback(u) => u != t
    case _ => true
  }

  lemma TrackStep(w0: World, w: World, t: nat, leaver: Id, a: Action)
    requires Tracks(w0, w, t, leaver) && Enabled(w, a) && Meanwhile(a, t)
    ensures Tracks(w0, Apply(w, a), t, leaver)
  {
    StepInv(w, a);
    var v := Apply(w, a);
    forall x | Stays(w0, v, x) ensures Row(x, w0.rows[x]) in v.txs[t].todo || Row(x, w0.rows[x]) in v.txs[t].locked {
      assert Stays(w0, w, x);
    }
  }

  lemma StepInv(w: World, a: Action)
    requires Inv(w) && Enabled(w, a)
    ensures Inv(Apply(w, a))
  {
    match a
    case Finish(t) => FinishStep(w, t);
    case Visit(t, row) => VisitStep(w, t, row);
    case _ => OtherStep(w, a);
  }

  lemma {:induction false} TrackRun(w0: World, w: World, t: nat, leaver: Id, acts: seq<Action>)
    requires Tracks(w0, w, t, leaver) && Legal(w, acts) && forall i :: 0 <= i < |acts| ==> Meanwhile(acts[i], t)
    ensures Tracks(w0, Exec(w, acts), t, leaver)
  {
    if acts != [] {
      TrackRun(w0, w, t, leaver, acts[..|acts| - 1]);
      TrackStep(w0, Exec(w, acts[..|acts| - 1]), t, leaver, acts[|acts| - 1]);
    }
  }

  /** With everything visited, the locked rows are those that stayed. */
  lemma LockedAre(w0: World, w: World, t: nat, leaver: Id, a: Id)
    requires Tracks(w0, w, t, leaver) && w.txs[t].todo == {}
    ensures a in Agents(w.txs[t].locked) <==> Stays(w0, w, a)
  {
    var tx := w.txs[t];
    if a in Agents(tx.locked) {
      var i :| 0 <= i < |tx.locked| && Agents(tx.locked)[i] == a;
      assert Present(w, tx.locked[i]) && tx.locked[i] in tx.locked;
    }
    if Stays(w0, w, a) {
      var i :| 0 <= i < |tx.locked| && tx.locked[i] == Row(a, w0.rows[a]);
      assert Agents(tx.locked)[i] == a;
    }
  }

  /** Main result, exact: whatever runs meanwhile, a leave ends as follows. An
      agent that was no member when the leave began, or has been removed since,
      is told so; the only one left of the members of then is refused; any other
      member leaves, and nobody else. */
  lemma LeaveVerdict(w0: World, t: nat, leaver: Id, rest: seq<Action>)
    requires Inv(w0) && Versioned(w0) && t !in w0.txs
    requires Legal(Apply(w0, Begin(t, leaver)), rest) && forall i :: 0 <= i < |rest| ==> Meanwhile(rest[i], t)
    requires Enabled(Exec(Apply(w0, Begin(t, leaver)), rest), Finish(t))
    ensures var w := Exec(Apply(w0, Begin(t, leaver)), rest);
            var v := Decision(Agents(w.txs[t].locked), leaver);
            && (v == NotMember <==> !Stays(w0, w, leaver))
            && (v == Removed <==> Stays(w0, w, leaver) && exists a :: a != leaver && Stays(w0, w, a))
            && Apply(w, Finish(t)).rows == if v == Removed then w.rows - {leaver} else w.rows
  {
    var w1 := Apply(w0, Begin(t, leaver));
    OtherStep(w0, Begin(t, leaver));
    TrackRun(w0, w1, t, leaver, rest);
    var w := Exec(w1, rest);
    var tx := w.txs[t];
    LockedAre(w0, w, t, leaver, leaver);
    if Decision(Agents(tx.locked), leaver).Removed? {
      var r := OtherRow(w, tx);
      assert Stays(w0, w, r.agent);
    } else if a :| a != leaver && Stays(w0, w, a) {
      LockedAre(w0, w, t, leaver, a);
    }
  }

  lemma {:induction false} SubsetSize(a: set<Id>, b: set<Id>)
    requires a <= b
    ensures |a| <= |b|
  {
    if a != {} {
      var x :| x in a;
      SubsetSize(a - {x}, b - {x});
    }
  }

  /** The body of RemoveMember after the locked read. */
  method Decide(members: seq<Id>, agent: Id) returns (v: Verdict)
    ensures v == Decision(members, agent)
  {
    var present := false;
    for i := 0 to |members|
      invariant present <==> agent in members[..i]
    {
      if members[i] == agent {
        present := true;
        break;
      }
    }
    if !present { return NotMember; }
    if |members| == 1 { return LastMember; }
    v := Removed;
  }
}
