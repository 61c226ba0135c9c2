/** Circuit breaker, bulkhead and bounded retries (shared_kernel resilience.py). */
module Resilience {
  import opened Base

  datatype Health = Closed | Open | HalfOpen

  datatype Thresholds = Thresholds(failures: int, successes: int, recovery: Time) {
    predicate Valid() {
      failures >= 1 && successes >= 1 && recovery > 0
    }
  }

  datatype Breaker = Breaker(health: Health, failures: nat, successes: nat, openedAt: Option<Time>, trial: bool)

  const FRESH := Breaker(Closed, 0, 0, None, false)

  const CIRCUIT_OPEN := ServiceError("CIRCUIT_OPEN", 503)
  const BULKHEAD_REJECTED := ServiceError("BULKHEAD_REJECTED", 503)

  function Tripped(b: Breaker, now: Time): Breaker {
    b.(health := Open, openedAt := Some(now), trial := false)
  }

  function Succeeded(cfg: Thresholds, b: Breaker): Breaker {
    if b.health.HalfOpen? then
      var n := b.successes + 1;
      if n >= cfg.successes then Breaker(Closed, 0, 0, None, false)
      else b.(failures := 0, successes := n, trial := false)
    else b.(failures := 0, successes := 0)
  }

  function Failed(cfg: Thresholds, b: Breaker, now: Time): Breaker {
    var b1 := b.(successes := 0, trial := false);
    if b.health.HalfOpen? then Tripped(b1, now)
    else
      var b2 := b1.(failures := b.failures + 1);
      if b2.failures >= cfg.failures then Tripped(b2, now) else b2
  }

  /** The breaker after a call asks to pass, and whether it may. The first branch is the one for an open
      breaker without an opening time: it trips again and lets the call through. */
  function Asked(cfg: Thresholds, b: Breaker, now: Time): (Breaker, bool) {
    if b.health.Open? && b.openedAt.None? then (Tripped(b, now), true)
    else if b.health.Open? && now - b.openedAt.value < cfg.recovery then (b, false)
    else if b.health.Open? then (b.(health := HalfOpen, successes := 0, trial := true), true)
    else if b.health.HalfOpen? && b.trial then (b, false)
    else if b.health.HalfOpen? then (b.(trial := true), true)
    else (b, true)
  }

  class CircuitBreaker {
    const cfg: Thresholds
    var health: Health
    var failures: nat
    var successes: nat
    var openedAt: Option<Time>
    var trial: bool

    function State(): Breaker
      reads this
    {
      Breaker(health, failures, successes, openedAt, trial)
    }

    constructor (cfg: Thresholds)
      ensures this.cfg == cfg && State() == FRESH
    {
      this.cfg := cfg;
      health, failures, successes, openedAt, trial := Closed, 0, 0, None, false;
    }

    method RecordSuccess()
      modifies this
      ensures State() == Succeeded(cfg, old(State()))
    {
      failures := 0;
      if health == HalfOpen {
        successes := successes + 1;
        trial := false;
        if successes >= cfg.successes {
          health := Closed;
          successes := 0;
          openedAt := None;
        }
      } else {
        successes := 0;
      }
    }

    method RecordFailure(now: Time)
      modifies this
      ensures State() == Failed(cfg, old(State()), now)
    {
      successes := 0;
      trial := false;
      if health == HalfOpen {
        Trip(now);
        return;
      }
      failures := failures + 1;
      if failures >= cfg.failures {
        Trip(now);
      }
    }

    method AssertAvailable(now: Time) returns (r: Result<()>)
      modifies this
      ensures (State(), r.Ok?) == Asked(cfg, old(State()), now)
      ensures r.Err? ==> r.error == CIRCUIT_OPEN
    {
      if health == Open {
        if openedAt.None? {
          Trip(now);
        } else if now - openedAt.value >= cfg.recovery {
          health := HalfOpen;
          successes := 0;
          trial := false;
        } else {
          return Err(CIRCUIT_OPEN);
        }
      }
      if health == HalfOpen {
        if trial {
          return Err(CIRCUIT_OPEN);
        }
        trial := true;
      }
      r := Ok(());
    }

    method Trip(now: Time)
      modifies this
      ensures State() == Tripped(old(State()), now)
    {
      health := Open;
      openedAt := Some(now);
      trial := false;
    }
  }

  /** Construction with the checks of __post_init__; None stands for the ValueError. */
  method NewBreaker(failureThreshold: int, successThreshold: int, recovery: Time) returns (b: Option<CircuitBreaker>)
    ensures b.Some? <==> failureThreshold >= 1 && successThreshold >= 1 && recovery > 0
    ensures b.Some? <==> Thresholds(failureThreshold, successThreshold, recovery).Valid()
    ensures b.Some? ==> fresh(b.value) && b.value.State() == FRESH
    ensures b.Some? ==> b.value.cfg == Thresholds(failureThreshold, successThreshold, recovery)
  {
    if failureThreshold < 1 || successThreshold < 1 || recovery <= 0 {
      return None;
    }
    var breaker := new CircuitBreaker(Thresholds(failureThreshold, successThreshold, recovery));
    b := Some(breaker);
  }

  class Bulkhead {
    const maxConcurrency: nat
    var inFlight: nat

    constructor (maxConcurrency: nat)
      requires maxConcurrency >= 1
      ensures this.maxConcurrency == maxConcurrency && inFlight == 0
    {
      this.maxConcurrency := maxConcurrency;
      inFlight := 0;
    }

    /** The guarded part before the call. */
    method Enter() returns (r: Result<()>)
      modifies this
      ensures r == if old(inFlight) >= maxConcurrency then Err(BULKHEAD_REJECTED) else Ok(())
      ensures inFlight == if r.Ok? then old(inFlight) + 1 else old(inFlight)
    {
      if inFlight >= maxConcurrency {
        return Err(BULKHEAD_REJECTED);
      }
      inFlight := inFlight + 1;
      r := Ok(());
    }

    /** The guarded part of the finally clause. */
    method Leave()
      requires inFlight >= 1
      modifies this
      ensures inFlight == old(inFlight) - 1
    {
      inFlight := inFlight - 1;
    }
  }

  // ---- retries ----

  /** How one attempt ends; an exception that is not a service error carries no code. */
  datatype Attempt<T> = Returns(value: T) | RaisesService(error: ServiceError) | RaisesOther

  predicate IsRetryable<T>(a: Attempt<T>)
    requires !a.Returns?
  {
    match a
    case RaisesService(e) => e.code != CIRCUIT_OPEN.code && e.code != BULKHEAD_REJECTED.code && e.statusCode >= 500
    case RaisesOther => true
  }

  predicate Retried<T>(a: Attempt<T>) {
    !a.Returns? && IsRetryable(a)
  }

  /** with_retries over the attempts the dependency would make of it: stops at the first attempt that
      returns or must not be retried, and otherwise after the last one allowed, whose exception is raised.
      The first attempt is always made. */
  method WithRetries<T>(attempt: nat -> Attempt<T>, maxAttempts: int) returns (outcome: Attempt<T>, made: nat)
    ensures 1 <= made && (made <= maxAttempts || made == 1)
    ensures forall k | 0 <= k < made - 1 :: Retried(attempt(k))
    ensures outcome == attempt(made - 1)
    ensures Retried(outcome) ==> made >= maxAttempts
    ensures forall k: nat | k < made - 1 && attempt(k).RaisesService? ::
      attempt(k).error.code !in {"CIRCUIT_OPEN", "BULKHEAD_REJECTED"} && attempt(k).error.statusCode >= 500
    ensures forall k: nat | k < made - 1 :: !attempt(k).Returns?
    ensures made < maxAttempts ==> !outcome.RaisesOther?
    ensures made < maxAttempts && outcome.RaisesService? ==>
      (outcome.error.code in {"CIRCUIT_OPEN", "BULKHEAD_REJECTED"} || outcome.error.statusCode < 500)
  {
    made := 0;
    while true
      invariant made == 0 || made < maxAttempts
      invariant forall k | 0 <= k < made :: Retried(attempt(k))
      decreases maxAttempts - made
    {
      outcome := attempt(made);
      made := made + 1;
      if outcome.Returns? {
        return;
      }
      if !IsRetryable(outcome) || made >= maxAttempts {
        return;
      }
    }
  }
}
