/** The append session: records are submitted one after another, a background
    loop awaits their acks in that order, and Close settles the account. */
module AppendSession {
  import opened Common
  import opened Events

  datatype Error = SlowWriter | Canceled | SessionClosed | Encoding | Backend(code: nat)

  /** The answer to one awaited ack. */
  type Ack = Option<Error>

  /** What the S2 session makes of one submission: the record does not encode,
      the session refuses it, its ticket does not come, or it is accepted. In
      the last case the queue may still be full; giveUp is how the wait for a
      place in it ends then. */
  datatype Fate = Unencodable | Refused(e: Error) | NoTicket(e: Error) | Accepted(giveUp: Error)

  const QUEUE_DEPTH := 256

  /** Acks that fail with cancellation are not errors. */
  function Failures(acks: seq<Ack>): seq<Error> {
    if acks == [] then []
    else
      var a := acks[|acks| - 1];
      Failures(acks[..|acks| - 1]) + if a.Some? && a.value != Canceled then [a.value] else []
  }

  /** How much of the queue is drained while results come in. */
  function Drained(results: seq<Ack>, tickets: seq<Event>): nat { if |results| < |tickets| then |results| else |tickets| }

  function First(errors: seq<Error>): Option<Error> { if errors == [] then None else Some(errors[0]) }

  lemma FailuresNext(acks: seq<Ack>, a: Ack)
    ensures Failures(acks + [a]) == Failures(acks) + if a.Some? && a.value != Canceled then [a.value] else []
  {
    assert (acks + [a])[..|acks|] == acks;
  }

  lemma FailuresMore(acks: seq<Ack>, i: nat)
    requires i < |acks|
    ensures Failures(acks[..i + 1]) == Failures(acks[..i]) + Failures([acks[i]])
  {
    assert acks[..i + 1] == acks[..i] + [acks[i]];
    FailuresNext(acks[..i], acks[i]);
    FailuresOne(acks[i]);
  }

  lemma FailuresOne(a: Ack)
    ensures Failures([a]) == if a.Some? && a.value != Canceled then [a.value] else []
  {
    FailuresNext([], a);
    assert [] + [a] == [a];
  }

  lemma {:induction false} NoFailures(acks: seq<Ack>)
    requires Failures(acks) == []
    requires forall i :: 0 <= i < |acks| ==> acks[i] != Some(Canceled)
    ensures forall i :: 0 <= i < |acks| ==> acks[i] == None
  {
    if acks != [] {
      NoFailures(acks[..|acks| - 1]);
    }
  }

  class Session {
    var tickets: seq<Event>          // accepted, their acks not awaited yet
    var cachedErr: Option<Error>     // the first sticky failure
    var closedOnce: bool
    var closeErr: Option<Error>
    ghost var submitted: seq<Event>  // those whose Submit returned nil, in order
    ghost var acks: seq<Ack>         // how the acks awaited so far came back
    ghost var failed: seq<Error>     // everything that was given to storeErr, in order

    /** Acks are awaited in Submit order, and the cached error is the first. */
    ghost predicate Valid()
      reads this
    {
      && |acks| <= |submitted| && tickets == submitted[|acks|..] && |tickets| <= QUEUE_DEPTH
      && cachedErr == First(failed)
      && (failed == [] ==> Failures(acks) == [])
      && (forall i :: 0 <= i < |acks| ==> acks[i] != Some(Canceled))
      && (closedOnce ==> tickets == [])
    }

    constructor ()
      ensures Valid() && submitted == [] && acks == [] && failed == [] && !closedOnce
    {
      tickets, cachedErr, closedOnce, closeErr := [], None, false, None;
      submitted, acks, failed := [], [], [];
    }

    method StoreErr(e: Error)
      requires cachedErr == First(failed)
      modifies this`cachedErr, this`failed
      ensures failed == old(failed) + [e] && cachedErr == First(failed)
      ensures old(cachedErr).Some? ==> cachedErr == old(cachedErr)
    {
      if cachedErr == None { cachedErr := Some(e); }
      failed := failed + [e];
    }

    /** One round of the drain loop. Acks are awaited on the session's own
        context, which is cancelled only after the loop has ended. */
    method DrainOne(ack: Ack)
      requires Valid() && tickets != [] && ack != Some(Canceled)
      modifies this`tickets, this`cachedErr, this`acks, this`failed
      ensures Valid() && tickets == old(tickets)[1..] && acks == old(acks) + [ack]
      ensures failed == old(failed) + Failures([ack])
      ensures old(cachedErr).Some? ==> cachedErr == old(cachedErr)
      ensures ack.Some? ==> cachedErr.Some?
    {
      FailuresNext(acks, ack);
      FailuresOne(ack);
      tickets := tickets[1..];
      acks := acks + [ack];
      if ack.Some? && ack.value != Canceled { StoreErr(ack.value); }
    }

    /** The drain loop gets through some of the queue, as far as results goes. */
    method Drain(results: seq<Ack>)
      requires Valid() && forall i :: 0 <= i < |results| ==> results[i] != Some(Canceled)
      modifies this`tickets, this`cachedErr, this`acks, this`failed
      ensures Valid() && old(failed) <= failed
      ensures var n := Drained(results, old(tickets));
              && tickets == old(tickets)[n..] && acks == old(acks) + results[..n]
              && failed == old(failed) + Failures(results[..n])
      ensures old(cachedErr).Some? ==> cachedErr == old(cachedErr)
    {
      var i := 0;
      while i < |results| && tickets != []
        invariant Valid() && old(failed) <= failed && i <= |results|
        invariant i <= |old(tickets)| && tickets == old(tickets)[i..] && acks == old(acks) + results[..i]
        invariant failed == old(failed) + Failures(results[..i])
        invariant old(cachedErr).Some? ==> cachedErr == old(cachedErr)
      {
        FailuresMore(results, i);
        DrainOne(results[i]);
        i := i + 1;
      }
    }

    /** Submit, with the drain loop running while it waits. Nil means queued for
        its ack; a failure known beforehand comes back as it is. */
    method Submit(ev: Event, fate: Fate, results: seq<Ack>) returns (err: Option<Error>)
      requires Valid() && forall i :: 0 <= i < |results| ==> results[i] != Some(Canceled)
      modifies this`tickets, this`cachedErr, this`submitted, this`acks, this`failed
      ensures Valid() && old(failed) <= failed && old(acks) <= acks
      ensures old(cachedErr).Some? ==> err == old(cachedErr) == cachedErr && submitted == old(submitted)
      ensures submitted == old(submitted) + if err == None then [ev] else []
      ensures closedOnce ==> err.Some?
      ensures old(cachedErr).None? ==>
                err == if fate.Unencodable? then Some(Encoding)
                       else if closedOnce then Some(SessionClosed)
                       else match fate
                            case Refused(e) => Some(e)
                            case NoTicket(e) => Some(e)
                            case _ => if |old(tickets)| >= |results| + QUEUE_DEPTH then Some(fate.giveUp) else None
      ensures old(cachedErr).None? && !closedOnce ==>
                match fate
                case Unencodable => failed == old(failed)
                case Refused(e) => failed == old(failed) + if e == SessionClosed then [] else [e]
                case NoTicket(e) => failed == old(failed) + Failures(results[..Drained(results, old(tickets))])
                                              + if e == SlowWriter || e == Canceled then [] else [e]
                case Accepted(_) => failed == old(failed) + Failures(results[..Drained(results, old(tickets))])
    {
      if cachedErr != None { return cachedErr; }
      if fate.Unencodable? { return Some(Encoding); }
      if closedOnce { return Some(SessionClosed); }
      if fate.Refused? {
        if fate.e != SessionClosed { StoreErr(fate.e); }
        return Some(fate.e);
      }
      Drain(results);
      if fate.NoTicket? {
        if fate.e != SlowWriter && fate.e != Canceled { StoreErr(fate.e); }
        return Some(fate.e);
      }
      if |tickets| == QUEUE_DEPTH { return Some(fate.giveUp); }
      tickets := tickets + [ev];
      submitted := submitted + [ev];
      err := None;
    }

    /** Close: the first call waits for the queue to drain; every call reports
        the first failure. Nil means that every event whose Submit returned nil
        was acked. */
    method Close(results: seq<Ack>, sessionErr: Option<Error>) returns (err: Option<Error>)
      requires Valid() && |results| >= |tickets| && forall i :: 0 <= i < |results| ==> results[i] != Some(Canceled)
      modifies this`tickets, this`cachedErr, this`closedOnce, this`closeErr, this`acks, this`failed
      ensures Valid() && closedOnce && old(failed) <= failed
      ensures |acks| == |submitted| && submitted == old(submitted)
      ensures err == None ==> forall i :: 0 <= i < |submitted| ==> acks[i] == None
      ensures failed != [] ==> err == Some(failed[0])
      ensures failed == [] ==> err == if old(closedOnce) then old(closeErr) else sessionErr
      ensures !old(closedOnce) ==> failed == old(failed) + Failures(results[..|old(tickets)|])
      ensures old(cachedErr).Some? ==> err == old(cachedErr)
      ensures old(closedOnce) ==> acks == old(acks) && failed == old(failed)
    {
      if !closedOnce {
        Drain(results);
        closedOnce := true;
        closeErr := sessionErr;
      }
      if failed == [] { NoFailures(acks); }
      if cachedErr != None { return cachedErr; }
      err := closeErr;
    }
  }

  /** Everything the environment decides about one Submit. */
  datatype Turn = Turn(fate: Fate, results: seq<Ack>)

  ghost predicate Plausible(turns: nat -> Turn) {
    forall n: nat, i :: 0 <= i < |turns(n).results| ==> turns(n).results[i] != Some(Canceled)
  }

  function NonEmpty(chunks: seq<string>): seq<string> {
    if chunks == [] then []
    else NonEmpty(chunks[..|chunks| - 1]) + if chunks[|chunks| - 1] == "" then [] else [chunks[|chunks| - 1]]
  }

  lemma ScriptNext(id: Id, sender: Id, chunks: seq<string>, chunk: string)
    ensures Script(id, sender, chunks + [chunk], false) == Script(id, sender, chunks, false) + [MessageAppend(id, chunk)]
  {
  }

  /** The streaming writer on a fresh session, for a body that arrives whole. If
      it reports success, its start, its non-empty chunks and its end were all
      acked, in this order and nothing else. */
  method WriteMessage(s: Session, id: Id, sender: Id, chunks: seq<string>, turns: nat -> Turn,
                      last: seq<Ack>, sessionErr: Option<Error>)
    returns (ok: bool)
    requires s.Valid() && s.submitted == [] && !s.closedOnce && Plausible(turns)
    requires |last| >= QUEUE_DEPTH && forall i :: 0 <= i < |last| ==> last[i] != Some(Canceled)
    modifies s
    ensures s.Valid() && s.closedOnce
    ensures ok ==> s.submitted == Script(id, sender, NonEmpty(chunks), true)
    ensures ok ==> |s.acks| == |s.submitted| && forall i :: 0 <= i < |s.acks| ==> s.acks[i] == None
    ensures Smooth(turns) && old(s.failed) == [] && sessionErr == None && (forall i :: 0 <= i < |last| ==> last[i] == None) ==> ok
  {
    if Smooth(turns) {
      forall n: nat, k: nat | k <= |turns(n).results| ensures Failures(turns(n).results[..k]) == [] {
        NoneFail(turns(n).results[..k]);
      }
    }
    forall k: nat | (forall i :: 0 <= i < |last| ==> last[i] == None) && k <= |last| ensures Failures(last[..k]) == [] {
      NoneFail(last[..k]);
    }
    var err := s.Submit(MessageStart(id, sender), turns(0).fate, turns(0).results);
    var i := 0;
    while err == None && i < |chunks|
      invariant s.Valid() && !s.closedOnce && i <= |chunks|
      invariant err == None ==> s.submitted == Script(id, sender, NonEmpty(chunks[..i]), false)
      invariant Smooth(turns) && old(s.failed) == [] ==> err == None && s.failed == []
    {
      assert chunks[..i + 1][..i] == chunks[..i];
      if chunks[i] != "" {
        ScriptNext(id, sender, NonEmpty(chunks[..i]), chunks[i]);
        err := s.Submit(MessageAppend(id, chunks[i]), turns(i + 1).fate, turns(i + 1).results);
      }
      i := i + 1;
    }
    if err == None {
      assert chunks[..|chunks|] == chunks;
      err := s.Submit(MessageEnd(id), turns(i + 1).fate, turns(i + 1).results);
      assert err == None ==> s.submitted == Script(id, sender, NonEmpty(chunks), true);
    }
    var closeErr := s.Close(last, sessionErr);
    ok := err == None && closeErr == None;
  }

  /** Nothing fails: everything submitted is taken and acked, and the queue keeps up. */
  ghost predicate Smooth(turns: nat -> Turn) {
    forall n: nat :: turns(n).fate.Accepted? && |turns(n).results| >= QUEUE_DEPTH
                     && forall i :: 0 <= i < |turns(n).results| ==> turns(n).results[i] == None
  }

  lemma {:induction false} NoneFail(acks: seq<Ack>)
    requires forall i :: 0 <= i < |acks| ==> acks[i] == None
    ensures Failures(acks) == []
  {
    if acks != [] { NoneFail(acks[..|acks| - 1]); }
  }

  /** Once a failure is cached, everything after it says the same: every later
      Submit, nothing of which is queued, and Close. */
  method AfterFailure(s: Session, events: seq<Event>, turns: nat -> Turn, last: seq<Ack>, sessionErr: Option<Error>)
    returns (errs: seq<Option<Error>>, closeErr: Option<Error>)
    requires s.Valid() && s.cachedErr.Some? && Plausible(turns)
    requires |last| >= QUEUE_DEPTH && forall i :: 0 <= i < |last| ==> last[i] != Some(Canceled)
    modifies s
    ensures s.Valid() && s.submitted == old(s.submitted)
    ensures |errs| == |events| && forall i :: 0 <= i < |errs| ==> errs[i] == old(s.cachedErr)
    ensures closeErr == old(s.cachedErr)
  {
    errs := [];
    for i := 0 to |events|
      invariant s.Valid() && s.cachedErr == old(s.cachedErr) && s.submitted == old(s.submitted)
      invariant |errs| == i && forall j :: 0 <= j < i ==> errs[j] == old(s.cachedErr)
    {
      var err := s.Submit(events[i], turns(i).fate, turns(i).results);
      errs := errs + [err];
    }
    closeErr := s.Close(last, sessionErr);
  }
}
