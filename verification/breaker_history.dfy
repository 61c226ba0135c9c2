/** What the breaker's five fields mean, read off the history of calls it has seen. Calls admitted while
    the breaker was closed may complete at any later time, so completions occur in every state. */
module BreakerHistory {
  import opened Base
  import opened Resilience

  datatype Kind = Ask | Success | Failure

  datatype Event = Event(kind: Kind, at: Time)

  type History = seq<Event>

  function Step(cfg: Thresholds, b: Breaker, e: Event): Breaker {
    match e.kind
    case Ask => Asked(cfg, b, e.at).0
    case Success => Succeeded(cfg, b)
    case Failure => Failed(cfg, b, e.at)
  }

  /** The breaker after a history, starting fresh. */
  function Run(cfg: Thresholds, h: History): Breaker {
    if h == [] then FRESH else Step(cfg, Run(cfg, h[..|h| - 1]), h[|h| - 1])
  }

  function After(cfg: Thresholds, h: History, n: nat): Breaker
    requires n <= |h|
  {
    Run(cfg, h[..n])
  }

  lemma AfterStep(cfg: Thresholds, h: History, n: nat)
    requires n < |h|
    ensures After(cfg, h, n + 1) == Step(cfg, After(cfg, h, n), h[n])
  {
    assert h[..n + 1][..n] == h[..n];
  }

  /** The call asking at position i is let through. */
  predicate Admits(cfg: Thresholds, h: History, i: nat)
    requires i < |h|
  {
    h[i].kind.Ask? && Asked(cfg, After(cfg, h, i), h[i].at).1
  }

  /** The failure at position i opens the breaker, or extends the time it stays open. */
  predicate Trips(cfg: Thresholds, h: History, i: nat)
    requires i < |h|
  {
    && h[i].kind.Failure?
    && After(cfg, h, i + 1).health.Open?
    && After(cfg, h, i + 1).openedAt == Some(h[i].at)
  }

  ghost predicate Monotone(h: History) {
    forall i, j | 0 <= i < j < |h| :: h[i].at <= h[j].at
  }

  predicate WellFormed(cfg: Thresholds, b: Breaker) {
    match b.health
    case Closed => b.failures < cfg.failures && b.successes == 0 && b.openedAt.None? && !b.trial
    case Open => b.successes == 0 && b.openedAt.Some? && !b.trial
    case HalfOpen => b.successes < cfg.successes && b.openedAt.Some?
  }

  /** In every reachable state the counters stay below their thresholds and an open breaker has an opening
      time, so the branch for an open breaker without one is never taken. */
  lemma {:induction false} ReachableWellFormed(cfg: Thresholds, h: History)
    requires cfg.Valid()
    ensures WellFormed(cfg, Run(cfg, h))
  {
    if h != [] {
      ReachableWellFormed(cfg, h[..|h| - 1]);
    }
  }

  // ---- closed: trips exactly at the threshold ----

  /** Failures recorded since the last success. */
  function FailureRun(h: History): nat {
    if h == [] then 0
    else match h[|h| - 1].kind
      case Success => 0
      case Failure => 1 + FailureRun(h[..|h| - 1])
      case Ask => FailureRun(h[..|h| - 1])
  }

  lemma {:induction false} ClosedCountsFailures(cfg: Thresholds, h: History)
    requires cfg.Valid()
    ensures Run(cfg, h).health.Closed? ==> Run(cfg, h).failures == FailureRun(h)
  {
    if h != [] {
      ReachableWellFormed(cfg, h[..|h| - 1]);
      ClosedCountsFailures(cfg, h[..|h| - 1]);
    }
  }

  /** A closed breaker trips on the failure that makes the run since the last success or close reach the
      threshold, on no earlier one, and on nothing else. */
  lemma ClosedTripsExactly(cfg: Thresholds, h: History, e: Event)
    requires cfg.Valid() && Run(cfg, h).health.Closed?
    ensures !Run(cfg, h + [e]).health.Closed? <==> e.kind.Failure? && FailureRun(h + [e]) == cfg.failures
    ensures !Run(cfg, h + [e]).health.Closed? ==> Trips(cfg, h + [e], |h|)
  {
    ReachableWellFormed(cfg, h);
    ClosedCountsFailures(cfg, h);
    assert (h + [e])[..|h|] == h;
    assert (h + [e])[..|h| + 1] == h + [e];
  }

  // ---- open: no call before recovery ----

  /** A trip at i is still remembered after n events, or its recovery time has passed. */
  predicate Remembers(cfg: Thresholds, h: History, i: nat, n: nat)
    requires i < n <= |h|
  {
    var b := After(cfg, h, n);
    if b.health.Open? then b.openedAt.Some? && h[i].at <= b.openedAt.value
    else h[i].at + cfg.recovery <= h[n - 1].at
  }

  lemma {:induction false} TripRemembered(cfg: Thresholds, h: History, i: nat, n: nat)
    requires cfg.Valid() && Monotone(h) && i < n <= |h| && Trips(cfg, h, i)
    ensures Remembers(cfg, h, i, n)
  {
    if n > i + 1 {
      TripRemembered(cfg, h, i, n - 1);
      AfterStep(cfg, h, n - 1);
      assert h[i].at <= h[n - 1].at && h[n - 2].at <= h[n - 1].at;
    }
  }

  /** With a monotone clock no call is admitted from a trip until the recovery time has passed, whichever
      trip it is and whatever completes in between. */
  lemma NoCallBeforeRecovery(cfg: Thresholds, h: History, i: nat, j: nat)
    requires cfg.Valid() && Monotone(h) && i < j < |h|
    requires Trips(cfg, h, i) && Admits(cfg, h, j)
    ensures h[i].at + cfg.recovery <= h[j].at
  {
    TripRemembered(cfg, h, i, j);
    assert h[j - 1].at <= h[j].at;
  }

  // ---- half-open: closing and probing ----

  function Successes(h: History, lo: nat, hi: nat): nat
    requires lo <= hi <= |h|
    decreases hi - lo
  {
    if lo == hi then 0
    else Successes(h, lo, hi - 1) + if h[hi - 1].kind.Success? then 1 else 0
  }

  predicate NoFailure(h: History, lo: nat, hi: nat)
    requires lo <= hi <= |h|
  {
    forall k | lo <= k < hi :: !h[k].kind.Failure?
  }

  /** The call at j moved the breaker from open to half-open. */
  predicate EntersHalfOpen(cfg: Thresholds, h: History, j: nat)
    requires j < |h|
  {
    h[j].kind.Ask? && After(cfg, h, j).health.Open? && After(cfg, h, j + 1).health.HalfOpen?
  }

  /** After n events the breaker is half-open since the call at j: nothing failed since, and its success
      counter counts the successes since. */
  ghost predicate ProbingSince(cfg: Thresholds, h: History, j: nat, n: nat)
    requires n <= |h|
  {
    && j < n && EntersHalfOpen(cfg, h, j) && NoFailure(h, j + 1, n)
    && Successes(h, j + 1, n) == After(cfg, h, n).successes
  }

  lemma {:induction false} HalfOpenHasEntry(cfg: Thresholds, h: History, n: nat)
    requires cfg.Valid() && n <= |h| && After(cfg, h, n).health.HalfOpen?
    ensures exists j: nat :: ProbingSince(cfg, h, j, n)
  {
    assert h[..0] == [];
    AfterStep(cfg, h, n - 1);
    ReachableWellFormed(cfg, h[..n - 1]);
    if After(cfg, h, n - 1).health.HalfOpen? {
      HalfOpenHasEntry(cfg, h, n - 1);
      var j: nat :| ProbingSince(cfg, h, j, n - 1);
      assert ProbingSince(cfg, h, j, n);
    } else {
      assert ProbingSince(cfg, h, n - 1, n);
    }
  }

  /** The breaker closes only on a success, only from half-open, and only when the required number of
      successes was recorded since it entered half-open, with no failure in between. */
  lemma ClosesAfterProbes(cfg: Thresholds, h: History, n: nat)
    requires cfg.Valid() && n < |h|
    requires !After(cfg, h, n).health.Closed? && After(cfg, h, n + 1).health.Closed?
    ensures h[n].kind.Success?
    ensures exists j: nat :: j < n && EntersHalfOpen(cfg, h, j)
                          && NoFailure(h, j + 1, n + 1) && Successes(h, j + 1, n + 1) == cfg.successes
  {
    AfterStep(cfg, h, n);
    ReachableWellFormed(cfg, h[..n]);
    HalfOpenHasEntry(cfg, h, n);
    var j: nat :| ProbingSince(cfg, h, j, n);
    assert NoFailure(h, j + 1, n + 1) && Successes(h, j + 1, n + 1) == cfg.successes;
  }

  /** While the probe has not completed, asking changes nothing. */
  lemma {:induction false} ProbeHolds(cfg: Thresholds, h: History, i: nat, n: nat)
    requires i < n <= |h|
    requires After(cfg, h, i + 1).health.HalfOpen? && After(cfg, h, i + 1).trial
    requires forall k | i < k < n :: h[k].kind.Ask?
    ensures After(cfg, h, n) == After(cfg, h, i + 1)
  {
    if n > i + 1 {
      ProbeHolds(cfg, h, i, n - 1);
      AfterStep(cfg, h, n - 1);
    }
  }

  /** A half-open breaker admits at most one call between two recorded completions. */
  lemma OneProbeBetweenCompletions(cfg: Thresholds, h: History, i: nat, j: nat)
    requires cfg.Valid() && i < j < |h|
    requires Admits(cfg, h, i) && After(cfg, h, i + 1).health.HalfOpen?
    requires forall k | i < k < j :: h[k].kind.Ask?
    ensures !Admits(cfg, h, j)
  {
    ReachableWellFormed(cfg, h[..i]);
    AfterStep(cfg, h, i);
    ProbeHolds(cfg, h, i, j);
  }
}
