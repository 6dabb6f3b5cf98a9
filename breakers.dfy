/** The gateway's per-service circuit breaker as a state machine on values. The
    gateway object (module Gateway) applies these transitions to its breaker table.
    Time is a whole number of seconds supplied by the caller. */
module Breakers {
  import opened Wrappers

  /** Failures in a row that open a breaker. */
  const MaxFailures: nat := 3
  /** Seconds an open breaker waits before it lets a call through again. */
  const CircuitTimeout: int := 60

  datatype Service = Hospital | Insurance | Rag

  /** `{"failures": ..., "last_failure": ..., "open": ...}` */
  datatype Breaker = Breaker(failures: nat, lastFailure: Option<int>, open: bool)

  /** The state every breaker starts in and every reset returns to. */
  const Closed := Breaker(0, None, false)

  /** An open breaker has seen at least `MaxFailures` failures and knows when the
      last one happened. */
  ghost predicate Inv(b: Breaker)
  {
    b.open ==> b.failures >= MaxFailures && b.lastFailure.Some?
  }

  /** The cooldown of an open breaker has run out at `now` (strictly more than
      `CircuitTimeout` seconds since the last failure). */
  predicate CooledDown(b: Breaker, now: int)
  {
    b.lastFailure.Some? && now - b.lastFailure.value > CircuitTimeout
  }

  /** Answer of `should_call_service`. */
  predicate Permits(b: Breaker, now: int)
  {
    !b.open || CooledDown(b, now)
  }

  /** State left by `should_call_service`: an open breaker whose cooldown has run
      out is closed again (the half-open probe); otherwise nothing changes. */
  function AfterPermits(b: Breaker, now: int): Breaker
  {
    if b.open && CooledDown(b, now) then Closed else b
  }

  /** State left by `record_service_failure`. */
  function AfterFailure(b: Breaker, now: int): Breaker
  {
    var failures := b.failures + 1;
    Breaker(failures, Some(now), if failures >= MaxFailures then true else b.open)
  }

  /** State left by `record_service_success`. */
  function AfterSuccess(b: Breaker): Breaker
  {
    if b.failures > 0 then Closed else b
  }

  /** A closed breaker lets the call through and stays as it was. */
  lemma PermitsWhenClosed(b: Breaker, now: int)
    requires !b.open
    ensures Permits(b, now) && AfterPermits(b, now) == b
  {
  }

  /** An open breaker lets a call through exactly when more than 60 seconds have
      passed since the last failure, and then it is reset to `Closed`; at 60
      seconds or less it refuses and stays as it was. */
  lemma CooldownReset(b: Breaker, now: int)
    requires b.open && b.lastFailure.Some?
    ensures Permits(b, now) <==> now - b.lastFailure.value > CircuitTimeout
    ensures Permits(b, now) ==> AfterPermits(b, now) == Closed
    ensures !Permits(b, now) ==> AfterPermits(b, now) == b
  {
  }

  /** A failure raises the count by exactly one, stamps `now`, opens the breaker
      once the count reaches three, and never closes it. */
  lemma FailureCounts(b: Breaker, now: int)
    ensures AfterFailure(b, now).failures == b.failures + 1
    ensures AfterFailure(b, now).lastFailure == Some(now)
    ensures AfterFailure(b, now).open <==> b.open || b.failures + 1 >= MaxFailures
  {
  }

  /** A success closes a breaker that had failures and leaves one without failures
      alone. */
  lemma SuccessResets(b: Breaker)
    ensures b.failures > 0 ==> AfterSuccess(b) == Closed
    ensures b.failures == 0 ==> AfterSuccess(b) == b
  {
  }

  /** Every transition keeps the invariant. */
  lemma TransitionsKeepInv(b: Breaker, now: int)
    requires Inv(b)
    ensures Inv(AfterPermits(b, now))
    ensures Inv(AfterFailure(b, now))
    ensures Inv(AfterSuccess(b))
    ensures Inv(Closed)
  {
  }

  /** A run of failures recorded one after the other at the given times. */
  function FailureRun(b: Breaker, times: seq<int>): Breaker
    decreases |times|
  {
    if times == [] then b else FailureRun(AfterFailure(b, times[0]), times[1..])
  }

  /** After a run of failures the count has grown by the run's length, the last
      time is stamped, and the breaker is open as soon as the count reached three. */
  lemma {:induction false} FailureRunState(b: Breaker, times: seq<int>)
    ensures FailureRun(b, times).failures == b.failures + |times|
    ensures times != [] ==> FailureRun(b, times).lastFailure == Some(times[|times| - 1])
    ensures times == [] ==> FailureRun(b, times) == b
    ensures FailureRun(b, times).open <==> b.open || (times != [] && b.failures + |times| >= MaxFailures)
    decreases |times|
  {
    if times != [] {
      FailureRunState(AfterFailure(b, times[0]), times[1..]);
    }
  }

  /** From a fresh breaker, three or more failures in a row make the breaker refuse
      every call until more than 60 seconds have passed since the last of them. */
  lemma ThreeFailuresRefuse(times: seq<int>, now: int)
    requires |times| >= MaxFailures
    requires now - times[|times| - 1] <= CircuitTimeout
    ensures FailureRun(Closed, times).open
    ensures !Permits(FailureRun(Closed, times), now)
  {
    FailureRunState(Closed, times);
  }

  /** Fewer than three failures from a fresh breaker never open it. */
  lemma FewFailuresStayClosed(times: seq<int>, now: int)
    requires |times| < MaxFailures
    ensures !FailureRun(Closed, times).open && Permits(FailureRun(Closed, times), now)
  {
    FailureRunState(Closed, times);
  }
}
