/** The registry of open tails and running writes: which handler is current,
    who has been told to stop, and what a leave waits for. */
module Registry {
  import opened Common
  import opened Events

  datatype Key = Key(agent: Id, conv: Id)

  /** An entry is known by its token, which stands for its cancel function and
      its done channel. Both states live in the sets of tokens below. */
  datatype State = State(
    sse: map<Key, nat>,
    write: map<Key, map<Id, nat>>,
    cancelled: set<nat>,
    closed: set<nat>,
    next: nat)

  const FRESH := State(map[], map[], {}, {}, 0)

  function Writes(s: State, key: Key): map<Id, nat> { if key in s.write then s.write[key] else map[] }

  function Put(s: State, key: Key, writes: map<Id, nat>): State {
    s.(write := if writes == map[] then s.write - {key} else s.write[key := writes])
  }

  function Tail(s: State, key: Key): set<nat> { if key in s.sse then {s.sse[key]} else {} }

  /** What LookupAndCancel waits for: every entry it finds for the pair. */
  function Entries(s: State, key: Key): set<nat> { Tail(s, key) + Writes(s, key).Values }

  function WithTail(s: State, key: Key): State {
    s.(sse := s.sse[key := s.next], cancelled := s.cancelled + Tail(s, key), next := s.next + 1)
  }

  function WithoutTail(s: State, key: Key, id: nat): State {
    if Tail(s, key) == {id} then s.(sse := s.sse - {key}) else s
  }

  function CloseDone(s: State, id: nat): State { s.(closed := s.closed + {id}) }

  function WithWrite(s: State, key: Key, msg: Id): State {
    Put(s, key, Writes(s, key)[msg := s.next]).(next := s.next + 1)
  }

  function WithoutWrite(s: State, key: Key, msg: Id): State {
    if msg in Writes(s, key) then CloseDone(Put(s, key, Writes(s, key) - {msg}), Writes(s, key)[msg]) else s
  }

  function AllCancelled(s: State, key: Key): State { s.(cancelled := s.cancelled + Entries(s, key)) }

  // ------------------------------------------------------------------
  // The methods, each holding the lock from start to end
  // ------------------------------------------------------------------

  datatype Handle = Handle(key: Key, id: nat)

  class ConnRegistry {
    var sse: map<Key, nat>
    var write: map<Key, map<Id, nat>>
    var cancelled: set<nat>
    var closed: set<nat>
    var nextSSE: nat

    function Now(): State
      reads this
    {
      State(sse, write, cancelled, closed, nextSSE)
    }

    constructor ()
      ensures Now() == FRESH
    {
      sse, write, cancelled, closed, nextSSE := map[], map[], {}, {}, 0;
    }

    method RegisterSSE(key: Key) returns (h: Handle, prior: Option<nat>)
      modifies this
      ensures Now() == WithTail(old(Now()), key) && h == Handle(key, old(nextSSE))
      ensures prior == if key in old(sse) then Some(old(sse)[key]) else None
    {
      var id := nextSSE;
      nextSSE := nextSSE + 1;
      prior := None;
      if key in sse {
        cancelled := cancelled + {sse[key]};
        prior := Some(sse[key]);
      }
      sse := sse[key := id];
      h := Handle(key, id);
    }

    /** The part of DeregisterSSE under the lock. */
    method UnlinkSSE(h: Handle)
      modifies this
      ensures Now() == WithoutTail(old(Now()), h.key, h.id)
    {
      if h.key in sse && sse[h.key] == h.id { sse := sse - {h.key}; }
    }

    /** The rest of it: done is closed whether the entry was current or not. */
    method CloseSSE(h: Handle)
      modifies this
      ensures Now() == CloseDone(old(Now()), h.id)
    {
      if h.id !in closed { closed := closed + {h.id}; }
    }

    /** Both parts with nothing in between. */
    method DeregisterSSE(h: Handle)
      modifies this
      ensures Now() == CloseDone(WithoutTail(old(Now()), h.key, h.id), h.id)
    {
      UnlinkSSE(h);
      CloseSSE(h);
    }

    method RegisterWrite(key: Key, msg: Id) returns (token: nat)
      modifies this
      ensures Now() == WithWrite(old(Now()), key, msg) && token == old(nextSSE)
    {
      token := nextSSE;
      nextSSE := nextSSE + 1;
      var m: map<Id, nat> := if key in write then write[key] else map[];
      write := write[key := m[msg := token]];
      assert msg in write[key];
    }

    method DeregisterWrite(key: Key, msg: Id)
      modifies this
      ensures Now() == WithoutWrite(old(Now()), key, msg)
    {
      if key !in write { return; }
      if msg !in write[key] { return; }
      var token := write[key][msg];
      var m := write[key] - {msg};
      write := if m == map[] then write - {key} else write[key := m];
      if token !in closed { closed := closed + {token}; }
    }

    method LookupAndCancel(key: Key) returns (waits: set<nat>)
      modifies this
      ensures Now() == AllCancelled(old(Now()), key) && waits == Entries(old(Now()), key)
    {
      waits := {};
      if key in sse {
        cancelled := cancelled + {sse[key]};
        waits := waits + {sse[key]};
      }
      if key in write {
        var m := write[key];
        ghost var before, tail := cancelled, waits;
        var left := m.Keys;
        while left != {}
          invariant left <= m.Keys
          invariant cancelled == before + (set k | k in m.Keys - left :: m[k])
          invariant waits == tail + (set k | k in m.Keys - left :: m[k])
          invariant Now() == old(Now()).(cancelled := cancelled)
          decreases left
        {
          var k :| k in left;
          cancelled := cancelled + {m[k]};
          waits := waits + {m[k]};
          left := left - {k};
        }
        assert m.Values == set k | k in m.Keys - left :: m[k];
      }
    }
  }

  // ------------------------------------------------------------------
  // Handlers around it
  // ------------------------------------------------------------------

  /** A handler between registering and being done: a tail serves, then has
      unlinked itself but not yet closed its channel; a writer runs. */
  datatype Handler = Serving(key: Key) | Unlinked(key: Key) | Writing(key: Key, msg: Id)

  datatype World = World(reg: State, handlers: map<nat, Handler>)

  const IDLE := World(FRESH, map[])

  datatype Action =
    | OpenTail(key: Key)
    | UnlinkTail(t: nat)
    | CloseTail(t: nat)
    | OpenWrite(key: Key, msg: Id)
    | CloseWrite(t: nat)
    | Lookup(key: Key)

  predicate Enabled(w: World, a: Action) {
    match a
    case UnlinkTail(t) => t in w.handlers && w.handlers[t].Serving?
    case CloseTail(t) => t in w.handlers && w.handlers[t].Unlinked?
    case CloseWrite(t) => t in w.handlers && w.handlers[t].Writing?
    case _ => true
  }

  function Apply(w: World, a: Action): World
    requires Enabled(w, a)
  {
    var s, hs := w.reg, w.handlers;
    match a
    case OpenTail(key) => World(WithTail(s, key), hs[s.next := Serving(key)])
    case UnlinkTail(t) => World(WithoutTail(s, hs[t].key, t), hs[t := Unlinked(hs[t].key)])
    case CloseTail(t) => World(CloseDone(s, t), hs - {t})
    case OpenWrite(key, msg) => World(WithWrite(s, key, msg), hs[s.next := Writing(key, msg)])
    case CloseWrite(t) => World(WithoutWrite(s, hs[t].key, hs[t].msg), hs - {t})
    case Lookup(key) => World(AllCancelled(s, key), hs)
  }

  ghost predicate Legal(w: World, acts: seq<Action>)
    decreases |acts|, 0
  {
    acts == [] || (Legal(w, acts[..|acts| - 1]) && Enabled(Exec(w, acts[..|acts| - 1]), acts[|acts| - 1]))
  }

  ghost function Exec(w: World, acts: seq<Action>): World
    requires Legal(w, acts)
    decreases |acts|, 1
  {
    if acts == [] then w else Apply(Exec(w, acts[..|acts| - 1]), acts[|acts| - 1])
  }

  /** Tokens are handed out once. */
  ghost predicate Known(w: World) {
    && (forall t :: t in w.handlers || t in w.reg.closed || t in w.reg.cancelled ==> t < w.reg.next)
    && (forall k :: k in w.reg.sse ==> w.reg.sse[k] < w.reg.next)
    && (forall k, m :: m in Writes(w.reg, k) ==> Writes(w.reg, k)[m] < w.reg.next)
  }

  /** The current tail of a pair serves it, and every other tail of the pair
      that has not unlinked itself has been told to stop. */
  ghost predicate OneTail(w: World) {
    && (forall k :: k in w.reg.sse ==> w.reg.sse[k] in w.handlers && w.handlers[w.reg.sse[k]] == Serving(k))
    && (forall t :: t in w.handlers && w.handlers[t].Serving? && Tail(w.reg, w.handlers[t].key) != {t} ==> t in w.reg.cancelled)
  }

  /** A tail's channel is open until it has deregistered. */
  ghost predicate TailsOpen(w: World) {
    forall t :: t in w.handlers && !w.handlers[t].Writing? ==> t !in w.reg.closed
  }

  /** An entry of the write table belongs to a running write of its key, and
      its channel is open. */
  ghost predicate EntriesOpen(w: World) {
    forall k, m :: m in Writes(w.reg, k) ==>
      var t := Writes(w.reg, k)[m];
      t in w.handlers && w.handlers[t] == Writing(k, m) && t !in w.reg.closed
  }

  /** Running write t has its entry. */
  predicate HasEntry(w: World, t: nat)
    requires t in w.handlers && w.handlers[t].Writing?
  {
    var h := w.handlers[t];
    h.msg in Writes(w.reg, h.key) && Writes(w.reg, h.key)[h.msg] == t
  }

  /** A running write of the pair. */
  predicate Writer(w: World, key: Key, t: nat) {
    t in w.handlers && w.handlers[t].Writing? && w.handlers[t].key == key
  }

  /** Every running write of the pair has its entry. */
  ghost predicate Registered(w: World, key: Key) {
    forall t :: Writer(w, key, t) ==> HasEntry(w, t)
  }

  ghost predicate Inv(w: World) {
    Known(w) && OneTail(w) && TailsOpen(w) && EntriesOpen(w)
  }

  /** Running write t has its entry, and no other running write shares it. */
  predicate Alone(w: World, t: nat)
    requires t in w.handlers && w.handlers[t].Writing?
  {
    HasEntry(w, t) && forall u | u in w.handlers :: w.handlers[u] == w.handlers[t] ==> u == t
  }

  /** While write t runs its channel is open, and as long as its entry is there
      no other running write shares it. */
  ghost predicate Sole(w: World, t: nat) {
    t in w.handlers ==> w.handlers[t].Writing? && t !in w.reg.closed && (HasEntry(w, t) ==> Alone(w, t))
  }

  lemma PutWrites(s: State, key: Key, writes: map<Id, nat>, k: Key)
    ensures Writes(Put(s, key, writes), k) == if k == key then writes else Writes(s, k)
  {
  }

  lemma RegisteredWrites(s: State, key: Key, msg: Id, k: Key)
    ensures Writes(WithWrite(s, key, msg), k) == if k == key then Writes(s, k)[msg := s.next] else Writes(s, k)
  {
    PutWrites(s, key, Writes(s, key)[msg := s.next], k);
  }

  lemma DeregisteredWrites(s: State, key: Key, msg: Id, k: Key)
    ensures Writes(WithoutWrite(s, key, msg), k) == if k == key then Writes(s, k) - {msg} else Writes(s, k)
  {
    PutWrites(s, key, Writes(s, key) - {msg}, k);
  }

  lemma InvOpenTail(w: World, key: Key)
    requires Inv(w)
    ensures Inv(Apply(w, OpenTail(key)))
  {
    assert forall k :: Writes(Apply(w, OpenTail(key)).reg, k) == Writes(w.reg, k);
  }

  lemma InvLeaveTail(w: World, a: Action)
    requires Inv(w) && Enabled(w, a) && (a.UnlinkTail? || a.CloseTail? || a.Lookup?)
    ensures Inv(Apply(w, a))
  {
    assert forall k :: Writes(Apply(w, a).reg, k) == Writes(w.reg, k);
  }

  lemma InvTail(w: World, a: Action)
    requires Inv(w) && Enabled(w, a) && !a.OpenWrite? && !a.CloseWrite?
    ensures Inv(Apply(w, a))
  {
    if a.OpenTail? { InvOpenTail(w, a.key); } else { InvLeaveTail(w, a); }
  }

  lemma InvOpenWrite(w: World, key: Key, msg: Id)
    requires Inv(w)
    ensures Inv(Apply(w, OpenWrite(key, msg)))
  {
    forall k ensures Writes(Apply(w, OpenWrite(key, msg)).reg, k)
                     == if k == key then Writes(w.reg, k)[msg := w.reg.next] else Writes(w.reg, k) {
      RegisteredWrites(w.reg, key, msg, k);
    }
  }

  lemma ClosedWrites(w: World, t: nat, k: Key)
    requires Enabled(w, CloseWrite(t))
    ensures var h := w.handlers[t];
            Writes(Apply(w, CloseWrite(t)).reg, k) == if k == h.key then Writes(w.reg, k) - {h.msg} else Writes(w.reg, k)
  {
    DeregisteredWrites(w.reg, w.handlers[t].key, w.handlers[t].msg, k);
  }

  lemma CloseWriteTails(w: World, t: nat)
    requires Inv(w) && Enabled(w, CloseWrite(t))
    ensures var v := Apply(w, CloseWrite(t)); Known(v) && OneTail(v) && TailsOpen(v)
  {
    forall k ensures Writes(Apply(w, CloseWrite(t)).reg, k).Keys <= Writes(w.reg, k).Keys
                     && forall m :: m in Writes(Apply(w, CloseWrite(t)).reg, k) ==>
                          Writes(Apply(w, CloseWrite(t)).reg, k)[m] == Writes(w.reg, k)[m] {
      ClosedWrites(w, t, k);
    }
  }

  lemma CloseWriteWriters(w: World, t: nat)
    requires Inv(w) && Enabled(w, CloseWrite(t))
    ensures var v := Apply(w, CloseWrite(t)); EntriesOpen(v)
  {
    var h := w.handlers[t];
    forall k ensures Writes(Apply(w, CloseWrite(t)).reg, k)
                     == if k == h.key then Writes(w.reg, k) - {h.msg} else Writes(w.reg, k) {
      ClosedWrites(w, t, k);
    }
  }

  lemma InvCloseWrite(w: World, t: nat)
    requires Inv(w) && Enabled(w, CloseWrite(t))
    ensures Inv(Apply(w, CloseWrite(t)))
  {
    CloseWriteTails(w, t);
    CloseWriteWriters(w, t);
  }

  lemma {:induction false} InvRun(w: World, acts: seq<Action>)
    requires Inv(w) && Legal(w, acts)
    ensures Inv(Exec(w, acts))
  {
    if acts != [] {
      InvRun(w, acts[..|acts| - 1]);
      var v, a := Exec(w, acts[..|acts| - 1]), acts[|acts| - 1];
      match a
      case OpenWrite(key, msg) => InvOpenWrite(v, key, msg);
      case CloseWrite(t) => InvCloseWrite(v, t);
      case _ => InvTail(v, a);
    }
  }

  lemma {:induction false} Monotone(w: World, acts: seq<Action>)
    requires Legal(w, acts)
    ensures var v := Exec(w, acts);
            w.reg.next <= v.reg.next && w.reg.closed <= v.reg.closed && w.reg.cancelled <= v.reg.cancelled
            && forall t :: t in v.handlers && t < w.reg.next ==> t in w.handlers
  {
    if acts != [] { Monotone(w, acts[..|acts| - 1]); }
  }

  /** A handler keeps its kind and its pair, and one that serves has all along. */
  lemma {:induction false} SameHandler(w: World, acts: seq<Action>, t: nat)
    requires Legal(w, acts) && t < w.reg.next && t in Exec(w, acts).handlers
    ensures t in w.handlers
    ensures var h, g := Exec(w, acts).handlers[t], w.handlers[t];
            && h.key == g.key && (h.Writing? <==> g.Writing?) && (h.Serving? ==> h == g) && (h.Writing? ==> h == g)
  {
    if acts != [] {
      Monotone(w, acts[..|acts| - 1]);
      SameHandler(w, acts[..|acts| - 1], t);
    }
  }

  lemma {:induction false} OldTailCancelled(w: World, rest: seq<Action>, key: Key, u: nat)
    requires Inv(w) && Legal(w, rest)
    requires u < w.reg.next && Tail(w.reg, key) != {u}
    requires u in Exec(w, rest).handlers && Exec(w, rest).handlers[u] == Serving(key)
    ensures u in Exec(w, rest).reg.cancelled
  {
    InvRun(w, rest);
    SameHandler(w, rest, u);
    Monotone(w, rest);
  }

  lemma {:induction false} StaysCurrent(w: World, rest: seq<Action>, key: Key, t: nat)
    requires Inv(w) && Legal(w, rest) && Tail(w.reg, key) == {t}
    requires var v := Exec(w, rest); t in v.handlers && v.handlers[t].Serving? && t !in v.reg.cancelled
    ensures Tail(Exec(w, rest).reg, key) == {t}
  {
    InvRun(w, rest);
    SameHandler(w, rest, t);
  }

  /** Main result for tails: whatever ran before and after, once tail t has
      registered for a pair, every older tail of the pair still serving is
      cancelled, and t is the current one for as long as it serves and nobody
      cancels it, whichever tails leave meanwhile. */
  lemma LastConnectionWins(acts: seq<Action>, key: Key, rest: seq<Action>)
    requires Legal(IDLE, acts) && Legal(Apply(Exec(IDLE, acts), OpenTail(key)), rest)
    ensures var t := Exec(IDLE, acts).reg.next;
            var w := Exec(Apply(Exec(IDLE, acts), OpenTail(key)), rest);
            && (forall u :: u < t && u in w.handlers && w.handlers[u] == Serving(key) ==> u in w.reg.cancelled)
            && (t in w.handlers && w.handlers[t].Serving? && t !in w.reg.cancelled ==> Tail(w.reg, key) == {t})
  {
    var v := Exec(IDLE, acts);
    var t, x := v.reg.next, Apply(v, OpenTail(key));
    InvRun(IDLE, acts);
    InvTail(v, OpenTail(key));
    var w := Exec(x, rest);
    forall u | u < t && u in w.handlers && w.handlers[u] == Serving(key) ensures u in w.reg.cancelled {
      OldTailCancelled(x, rest, key, u);
    }
    if t in w.handlers && w.handlers[t].Serving? && t !in w.reg.cancelled { StaysCurrent(x, rest, key, t); }
  }

  /** No done channel is closed twice, in any run: what a handler comes to close
      is still open. A tail closes its own channel; a write does so iff it has
      its entry, and without it at most the one its key leads to. */
  lemma ClosedOnce(acts: seq<Action>, t: nat)
    requires Legal(IDLE, acts)
    requires Enabled(Exec(IDLE, acts), CloseTail(t)) || Enabled(Exec(IDLE, acts), CloseWrite(t))
    ensures var w := Exec(IDLE, acts);
            var v := Apply(w, if w.handlers[t].Writing? then CloseWrite(t) else CloseTail(t));
            && (v.reg.closed == w.reg.closed || exists u :: u !in w.reg.closed && v.reg.closed == w.reg.closed + {u})
            && (w.handlers[t].Unlinked? ==> t !in w.reg.closed && v.reg.closed == w.reg.closed + {t})
            && (w.handlers[t].Writing? ==> (HasEntry(w, t) <==> t !in w.reg.closed && t in v.reg.closed))
            && (w.handlers[t].Writing? && HasEntry(w, t) ==> v.reg.closed == w.reg.closed + {t})
  {
    InvRun(IDLE, acts);
  }

  /** An entry belongs to the tail serving the pair or to a running write of it. */
  lemma EntryOwner(w: World, key: Key, t: nat)
    requires Inv(w) && t in Entries(w.reg, key)
    ensures t in w.handlers && w.handlers[t].key == key && (w.handlers[t].Writing? ==> HasEntry(w, t))
  {
    if t !in Tail(w.reg, key) {
      var m :| m in Writes(w.reg, key) && Writes(w.reg, key)[m] == t;
    }
  }

  /** A running write alone with its entry is collected. */
  lemma CollectedWriters(w: World, key: Key, t: nat)
    requires Inv(w) && Writer(w, key, t) && Alone(w, t)
    ensures t in Entries(w.reg, key) && Sole(w, t)
  {
    var h := w.handlers[t];
    assert Writes(w.reg, key)[h.msg] == t && h.msg in Writes(w.reg, key).Keys;
  }

  /** Where every running write has its entry, each has it alone. */
  lemma RegisteredAlone(w: World, key: Key)
    ensures Registered(w, key) <==>
            forall t :: Writer(w, key, t) ==> Alone(w, t)
  {
    if Registered(w, key) {
      forall t, u | Writer(w, key, t) && u in w.handlers && w.handlers[u] == w.handlers[t] ensures u == t {
        assert Writer(w, key, u) && HasEntry(w, u) && HasEntry(w, t);
      }
    }
  }

  lemma SoleOpen(w: World, key: Key, msg: Id, t: nat)
    requires Inv(w) && Sole(w, t) && t < w.reg.next
    ensures Sole(Apply(w, OpenWrite(key, msg)), t)
  {
    if t in w.handlers { RegisteredWrites(w.reg, key, msg, w.handlers[t].key); }
  }

  lemma SoleClose(w: World, u: nat, t: nat)
    requires Inv(w) && Sole(w, t) && Enabled(w, CloseWrite(u))
    ensures Sole(Apply(w, CloseWrite(u)), t)
  {
    if t in w.handlers && t != u { ClosedWrites(w, u, w.handlers[t].key); }
  }

  lemma SoleTail(w: World, a: Action, t: nat)
    requires Inv(w) && Sole(w, t) && t < w.reg.next && Enabled(w, a) && !a.OpenWrite? && !a.CloseWrite?
    ensures Sole(Apply(w, a), t)
  {
    assert forall k :: Writes(Apply(w, a).reg, k) == Writes(w.reg, k);
  }

  /** Once to itself, always: later overwriting of the same key does not matter. */
  lemma SoleStep(w: World, a: Action, t: nat)
    requires Inv(w) && Sole(w, t) && t < w.reg.next && Enabled(w, a)
    ensures Sole(Apply(w, a), t)
  {
    match a
    case OpenWrite(key, msg) => SoleOpen(w, key, msg, t);
    case CloseWrite(u) => SoleClose(w, u, t);
    case _ => SoleTail(w, a, t);
  }

  lemma {:induction false} SoleRun(w: World, acts: seq<Action>, t: nat)
    requires Inv(w) && Sole(w, t) && t < w.reg.next && Legal(w, acts)
    ensures Sole(Exec(w, acts), t)
  {
    if acts != [] {
      SoleRun(w, acts[..|acts| - 1], t);
      InvRun(w, acts[..|acts| - 1]);
      Monotone(w, acts[..|acts| - 1]);
      SoleStep(Exec(w, acts[..|acts| - 1]), acts[|acts| - 1], t);
    }
  }

  // ------------------------------------------------------------------
  // Who is told to stop
  // ------------------------------------------------------------------

  /** The pair a step is about. */
  function Of(w: World, a: Action): Key
    requires Enabled(w, a)
  {
    match a
    case OpenTail(key) => key
    case UnlinkTail(t) => w.handlers[t].key
    case CloseTail(t) => w.handlers[t].key
    case OpenWrite(key, _) => key
    case CloseWrite(t) => w.handlers[t].key
    case Lookup(key) => key
  }

  /** A running handler: a tail that still serves, or a write. */
  predicate Runs(w: World, t: nat) { t in w.handlers && !w.handlers[t].Unlinked? }

  /** Exactly whom a step cancels, of those not cancelled before: a new tail the
      tail of its pair that has the entry; a look every handler of its pair that
      has one; any other step nobody. */
  lemma CancelsOnly(w: World, a: Action, t: nat)
    requires Inv(w) && Enabled(w, a) && t !in w.reg.cancelled
    ensures t in Apply(w, a).reg.cancelled <==>
            && t in w.handlers && w.handlers[t].key == Of(w, a)
            && match a
               case OpenTail(key) => w.handlers[t].Serving? && key in w.reg.sse && w.reg.sse[key] == t
               case Lookup(key) => (w.handlers[t].Serving? && key in w.reg.sse && w.reg.sse[key] == t)
                                   || (w.handlers[t].Writing? && HasEntry(w, t))
               case _ => false
  {
    if a.Lookup? {
      if t in Entries(w.reg, a.key) { EntryOwner(w, a.key, t); }
      if t in w.handlers && w.handlers[t].Writing? && w.handlers[t].key == a.key && HasEntry(w, t) {
        assert w.handlers[t].msg in Writes(w.reg, a.key);
      }
    }
  }

  /** A step of one pair leaves everything of every other pair as it was: its
      entries, its handlers, who of them is cancelled and whose channel is
      closed. */
  lemma OtherPairs(w: World, a: Action, key: Key)
    requires Inv(w) && Enabled(w, a) && key != Of(w, a)
    ensures var v := Apply(w, a);
            && Tail(v.reg, key) == Tail(w.reg, key) && Writes(v.reg, key) == Writes(w.reg, key)
            && (forall t :: t in v.handlers && v.handlers[t].key == key <==> t in w.handlers && w.handlers[t].key == key)
            && (forall t :: t in w.handlers && w.handlers[t].key == key ==>
                  && v.handlers[t] == w.handlers[t]
                  && (t in v.reg.cancelled <==> t in w.reg.cancelled) && (t in v.reg.closed <==> t in w.reg.closed))
  {
    var v := Apply(w, a);
    if a.OpenWrite? { RegisteredWrites(w.reg, a.key, a.msg, key); }
    if a.CloseWrite? {
      ClosedWrites(w, a.t, key);
      var h := w.handlers[a.t];
      if h.msg in Writes(w.reg, h.key) { assert w.handlers[Writes(w.reg, h.key)[h.msg]] == h; }
    }
    forall t | t in w.handlers && w.handlers[t].key == key ensures t in v.reg.cancelled <==> t in w.reg.cancelled {
      if t !in w.reg.cancelled { CancelsOnly(w, a, t); }
    }
  }

  /** Main result: over any run, whoever is cancelled was cancelled by a step of
      its own pair at which it had its entry: a tail by the next tail or by a
      look, a write by a look. */
  lemma {:induction false} CancelledBy(acts: seq<Action>, t: nat) returns (i: nat)
    requires Legal(IDLE, acts) && t in Exec(IDLE, acts).reg.cancelled
    ensures i < |acts| && Legal(IDLE, acts[..i]) && Enabled(Exec(IDLE, acts[..i]), acts[i])
    ensures var w := Exec(IDLE, acts[..i]);
            && (acts[i].OpenTail? || acts[i].Lookup?)
            && t in w.handlers && w.handlers[t].key == acts[i].key
            && (if w.handlers[t].Writing? then acts[i].Lookup? && HasEntry(w, t)
                else w.handlers[t].Serving? && Tail(w.reg, acts[i].key) == {t})
  {
    var n := |acts| - 1;
    if t in Exec(IDLE, acts[..n]).reg.cancelled {
      i := CancelledBy(acts[..n], t);
      assert acts[..n][..i] == acts[..i];
    } else {
      InvRun(IDLE, acts[..n]);
      CancelsOnly(Exec(IDLE, acts[..n]), acts[n], t);
      i := n;
    }
  }

  // ------------------------------------------------------------------
  // What a leave waits for
  // ------------------------------------------------------------------

  /** A write alone with its entry when the pair was looked at has deregistered
      once the channels collected are closed, whatever ran since. */
  lemma WaitedFor(v: World, key: Key, rest: seq<Action>, t: nat)
    requires Inv(v) && Legal(Apply(v, Lookup(key)), rest)
    requires Entries(v.reg, key) <= Exec(Apply(v, Lookup(key)), rest).reg.closed
    requires Writer(v, key, t) && Alone(v, t)
    ensures t !in Exec(Apply(v, Lookup(key)), rest).handlers
  {
    CollectedWriters(v, key, t);
    InvTail(v, Lookup(key));
    SoleTail(v, Lookup(key), t);
    SoleRun(Apply(v, Lookup(key)), rest, t);
  }

  lemma ExecNext(w: World, acts: seq<Action>, a: Action)
    requires Legal(w, acts) && Enabled(Exec(w, acts), a)
    ensures Legal(w, acts + [a]) && Exec(w, acts + [a]) == Apply(Exec(w, acts), a)
  {
    assert (acts + [a])[..|acts|] == acts;
  }

  /** Draining a pair past write t: what was in its entries is closed or still
      there, and t runs on without an entry. */
  ghost predicate Drains(w: World, v: World, key: Key, t: nat) {
    && Entries(w.reg, key) <= v.reg.closed + Entries(v.reg, key)
    && Writer(w, key, t) && t in v.handlers && v.handlers[t] == w.handlers[t] && t !in Entries(v.reg, key)
  }

  lemma DrainsOn(w: World, v: World, x: World, key: Key, t: nat)
    requires Drains(w, v, key, t) && Drains(v, x, key, t) && v.reg.closed <= x.reg.closed
    ensures Drains(w, x, key, t)
  {
  }

  /** Another write of the pair finishes and takes the entry of its key out, be
      it its own or that of t. */
  lemma DrainOne(w: World, key: Key, u: nat, t: nat)
    requires Inv(w) && Writer(w, key, u) && w.handlers[u].msg in Writes(w.reg, key)
    requires Writer(w, key, t) && u != t && (t in Entries(w.reg, key) ==> w.handlers[u] == w.handlers[t])
    ensures var v := Apply(w, CloseWrite(u));
            Writes(v.reg, key) == Writes(w.reg, key) - {w.handlers[u].msg} && Drains(w, v, key, t)
  {
    var m := w.handlers[u].msg;
    ClosedWrites(w, u, key);
    var v := Apply(w, CloseWrite(u));
    assert Tail(v.reg, key) == Tail(w.reg, key);
    forall x | x in Writes(w.reg, key).Values ensures x in v.reg.closed + Writes(v.reg, key).Values {
      var n :| n in Writes(w.reg, key) && Writes(w.reg, key)[n] == x;
      if n != m { assert n in Writes(v.reg, key) && Writes(v.reg, key)[n] == x; }
    }
  }

  lemma {:induction false} DrainWrites(w: World, key: Key, t: nat, acts: seq<Action>) returns (more: seq<Action>)
    requires Inv(w) && Legal(w, acts) && Drains(w, Exec(w, acts), key, t)
    ensures Legal(w, more) && Drains(w, Exec(w, more), key, t) && Writes(Exec(w, more).reg, key) == map[]
    decreases |Writes(Exec(w, acts).reg, key)|
  {
    var v := Exec(w, acts);
    if Writes(v.reg, key) == map[] { return acts; }
    var m :| m in Writes(v.reg, key);
    var u := Writes(v.reg, key)[m];
    InvRun(w, acts);
    assert u in Entries(v.reg, key);
    DrainOne(v, key, u, t);
    DrainsOn(w, v, Apply(v, CloseWrite(u)), key, t);
    ExecNext(w, acts, CloseWrite(u));
    more := DrainWrites(w, key, t, acts + [CloseWrite(u)]);
  }

  /** Then the tail. */
  lemma DrainTail(w: World, key: Key, t: nat)
    requires Inv(w) && Writer(w, key, t) && Writes(w.reg, key) == map[] && key in w.reg.sse
    ensures var u := w.reg.sse[key];
            && Enabled(w, UnlinkTail(u)) && Enabled(Apply(w, UnlinkTail(u)), CloseTail(u))
            && var v := Apply(Apply(w, UnlinkTail(u)), CloseTail(u));
               Drains(w, v, key, t) && Entries(v.reg, key) == {}
  {
  }

  /** All of them finish but t. */
  lemma Drain(w: World, key: Key, t: nat, acts: seq<Action>) returns (rest: seq<Action>)
    requires Inv(w) && Legal(w, acts) && Drains(w, Exec(w, acts), key, t)
    ensures Legal(w, rest) && Drains(w, Exec(w, rest), key, t) && Entries(Exec(w, rest).reg, key) == {}
  {
    rest := DrainWrites(w, key, t, acts);
    var v := Exec(w, rest);
    InvRun(w, rest);
    if key in v.reg.sse {
      var u := v.reg.sse[key];
      DrainTail(v, key, t);
      ExecNext(w, rest, UnlinkTail(u));
      ExecNext(w, rest + [UnlinkTail(u)], CloseTail(u));
      rest := rest + [UnlinkTail(u)] + [CloseTail(u)];
      DrainsOn(w, v, Exec(w, rest), key, t);
    }
  }

  /** A write that is not alone with its entry may run on with all the channels
      collected closed. */
  lemma OutlivesWait(v: World, key: Key, t: nat) returns (rest: seq<Action>)
    requires Inv(v) && Writer(v, key, t) && !Alone(v, t)
    ensures var x := Apply(v, Lookup(key));
            && Legal(x, rest) && Entries(v.reg, key) <= Exec(x, rest).reg.closed
            && t in Exec(x, rest).handlers && Exec(x, rest).handlers[t] == v.handlers[t]
  {
    var x := Apply(v, Lookup(key));
    InvTail(v, Lookup(key));
    assert Writes(x.reg, key) == Writes(v.reg, key) && Entries(x.reg, key) == Entries(v.reg, key);
    if t in Entries(x.reg, key) {
      EntryOwner(x, key, t);
      var u :| u in x.handlers && x.handlers[u] == x.handlers[t] && u != t;
      DrainOne(x, key, u, t);
      assert Legal(x, []);
      ExecNext(x, [], CloseWrite(u));
      rest := Drain(x, key, t, [] + [CloseWrite(u)]);
    } else {
      rest := Drain(x, key, t, []);
    }
  }

  /** However it goes on after a look, once the channels collected are closed
      write t has gone. */
  ghost predicate Awaits(v: World, key: Key, t: nat) {
    forall rest: seq<Action> ::
      Legal(Apply(v, Lookup(key)), rest) && Entries(v.reg, key) <= Exec(Apply(v, Lookup(key)), rest).reg.closed ==>
        t !in Exec(Apply(v, Lookup(key)), rest).handlers
  }

  /** Exactly which writes a leave waits for: in every reachable state, those
      alone with their entry when it looks. */
  lemma AwaitsIff(acts: seq<Action>, key: Key, t: nat)
    requires Legal(IDLE, acts) && Writer(Exec(IDLE, acts), key, t)
    ensures Awaits(Exec(IDLE, acts), key, t) <==> Alone(Exec(IDLE, acts), t)
  {
    var v := Exec(IDLE, acts);
    InvRun(IDLE, acts);
    if Alone(v, t) {
      forall rest: seq<Action> | Legal(Apply(v, Lookup(key)), rest)
        && Entries(v.reg, key) <= Exec(Apply(v, Lookup(key)), rest).reg.closed
        ensures t !in Exec(Apply(v, Lookup(key)), rest).handlers
      {
        WaitedFor(v, key, rest, t);
      }
    } else {
      var rest := OutlivesWait(v, key, t);
    }
  }

  /** Main result for leaves, exact: waiting for the channels LookupAndCancel
      collects is waiting for every running write of the pair iff each of them
      has its entry when it looks. */
  lemma WaitsIff(acts: seq<Action>, key: Key)
    requires Legal(IDLE, acts)
    ensures var v := Exec(IDLE, acts);
            Registered(v, key) <==> forall t :: Writer(v, key, t) ==> Awaits(v, key, t)
  {
    var v := Exec(IDLE, acts);
    RegisteredAlone(v, key);
    forall t | Writer(v, key, t) ensures Awaits(v, key, t) <==> Alone(v, t) {
      AwaitsIff(acts, key, t);
    }
  }

  /** And for everything collected: it is cancelled, and once the channels are
      closed the tail and every write alone with its entry has deregistered,
      whatever ran meanwhile. */
  lemma WaitsForAll(acts: seq<Action>, key: Key, rest: seq<Action>)
    requires Legal(IDLE, acts) && Legal(Apply(Exec(IDLE, acts), Lookup(key)), rest)
    ensures var v := Exec(IDLE, acts);
            var w := Exec(Apply(v, Lookup(key)), rest);
            && Entries(v.reg, key) <= w.reg.cancelled
            && (Entries(v.reg, key) <= w.reg.closed ==>
                  && (forall t :: t in Tail(v.reg, key) ==> t !in w.handlers)
                  && (forall t :: Writer(v, key, t) && Alone(v, t) ==> t !in w.handlers))
  {
    var v := Exec(IDLE, acts);
    var x := Apply(v, Lookup(key));
    InvRun(IDLE, acts);
    InvTail(v, Lookup(key));
    InvRun(x, rest);
    Monotone(x, rest);
    var w := Exec(x, rest);
    if Entries(v.reg, key) <= w.reg.closed {
      forall t | t in Tail(v.reg, key) ensures t !in w.handlers {
        if t in w.handlers { SameHandler(x, rest, t); }
      }
      forall t | Writer(v, key, t) && Alone(v, t) ensures t !in w.handlers {
        WaitedFor(v, key, rest, t);
      }
    }
  }

  // ------------------------------------------------------------------
  // When a write is without its entry
  // ------------------------------------------------------------------

  /** No tail, no look and no other pair has to do with it. */
  lemma RegisteredElsewhere(w: World, a: Action, key: Key)
    requires Inv(w) && Enabled(w, a) && (a.OpenWrite? ==> a.key != key) && (a.CloseWrite? ==> w.handlers[a.t].key != key)
    ensures Registered(Apply(w, a), key) <==> Registered(w, key)
  {
    var v := Apply(w, a);
    if a.OpenWrite? { RegisteredWrites(w.reg, a.key, a.msg, key); }
    if a.CloseWrite? { ClosedWrites(w, a.t, key); }
    assert Writes(v.reg, key) == Writes(w.reg, key);
    assert forall t :: Writer(w, key, t) <==> Writer(v, key, t);
  }

  /** A registration takes the entry of a running write exactly if one is still
      there under its key. */
  lemma RegisteredOpen(w: World, key: Key, msg: Id)
    requires Inv(w)
    ensures Registered(Apply(w, OpenWrite(key, msg)), key) <==> Registered(w, key) && msg !in Writes(w.reg, key)
  {
    var v := Apply(w, OpenWrite(key, msg));
    RegisteredWrites(w.reg, key, msg, key);
    if msg in Writes(w.reg, key) {
      var u := Writes(w.reg, key)[msg];
      assert Writer(v, key, u) && !HasEntry(v, u);
    } else {
      assert Writer(v, key, w.reg.next) && HasEntry(v, w.reg.next);
      forall t | t != w.reg.next
        ensures Writer(w, key, t) <==> Writer(v, key, t)
        ensures Writer(w, key, t) ==> (HasEntry(w, t) <==> HasEntry(v, t))
      {
      }
    }
  }

  /** A write that deregisters with its entry leaves the others theirs. */
  lemma RegisteredClose(w: World, t: nat)
    requires Inv(w) && Enabled(w, CloseWrite(t)) && Registered(w, w.handlers[t].key)
    ensures Registered(Apply(w, CloseWrite(t)), w.handlers[t].key)
  {
    var key := w.handlers[t].key;
    ClosedWrites(w, t, key);
    assert Writer(w, key, t) && HasEntry(w, t);
    forall u | Writer(Apply(w, CloseWrite(t)), key, u) ensures HasEntry(Apply(w, CloseWrite(t)), u) {
      assert Writer(w, key, u) && HasEntry(w, u);
    }
  }

  /** While every write of a pair has its entry, the only step that ends it is
      a registration over an entry still there; and whenever no write of the pair
      runs, it is so again. */
  lemma StaysRegistered(acts: seq<Action>, a: Action, key: Key)
    requires Legal(IDLE, acts) && Enabled(Exec(IDLE, acts), a)
    ensures var w := Exec(IDLE, acts);
            && (Registered(w, key) ==>
                  (Registered(Apply(w, a), key) <==> !(a.OpenWrite? && a.key == key && a.msg in Writes(w.reg, key))))
            && ((forall t :: !Writer(w, key, t)) ==> Registered(w, key))
  {
    var w := Exec(IDLE, acts);
    InvRun(IDLE, acts);
    if a.OpenWrite? && a.key == key { RegisteredOpen(w, key, a.msg); }
    else if a.CloseWrite? && w.handlers[a.t].key == key {
      if Registered(w, key) { RegisteredClose(w, a.t); }
    }
    else { RegisteredElsewhere(w, a, key); }
  }

  /** Registering a write where one is still registered always goes wrong: the
      older handler's deregistration takes the newer entry out and closes its
      channel while the newer write runs on, and the older one's own channel is
      never closed by it. */
  lemma OverwrittenWriteIsLost(acts: seq<Action>, key: Key, msg: Id)
    requires Legal(IDLE, acts) && msg in Writes(Exec(IDLE, acts).reg, key)
    ensures var w := Exec(IDLE, acts);
            var u, t := Writes(w.reg, key)[msg], w.reg.next;
            && Enabled(Apply(w, OpenWrite(key, msg)), CloseWrite(u))
            && var v := Apply(Apply(w, OpenWrite(key, msg)), CloseWrite(u));
               && !Registered(v, key) && t in v.handlers && t in v.reg.closed && t !in Entries(v.reg, key)
               && u !in v.handlers && u !in v.reg.closed
  {
    var w := Exec(IDLE, acts);
    var u := Writes(w.reg, key)[msg];
    InvRun(IDLE, acts);
    RegisteredWrites(w.reg, key, msg, key);
    var x := Apply(w, OpenWrite(key, msg));
    DeregisteredWrites(x.reg, key, msg, key);
    InvOpenWrite(w, key, msg);
    InvCloseWrite(x, u);
    assert !HasEntry(Apply(x, CloseWrite(u)), w.reg.next);
  }
}
