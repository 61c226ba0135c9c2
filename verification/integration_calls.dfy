/** Many tasks calling through one breaker and one bulkhead (shared_kernel messaging.py,
    _run_integration_call). A call is four steps that other tasks interleave with: ask the breaker, enter
    the bulkhead, leave it when the retried attempts are over, record the outcome. */
module IntegrationCalls {
  import opened Base
  import opened Resilience
  import opened BreakerHistory

  type TaskId = nat

  datatype Phase = Admitted | Running | Over(ok: bool)

  /** The shared pair and the calls that are past the breaker and not yet finished. */
  datatype State = State(breaker: Breaker, inFlight: nat, tasks: map<TaskId, Phase>)

  datatype Limits = Limits(cfg: Thresholds, max: nat) {
    predicate Valid() {
      cfg.Valid() && max >= 1
    }
  }

  const START := State(FRESH, 0, map[])

  datatype Label =
    | Begin(t: TaskId, now: Time)
    | Enter(t: TaskId)
    | Leave(t: TaskId, ok: bool)
    | Record(t: TaskId, now: Time)
    | Abandon(t: TaskId)

  predicate Enabled(s: State, l: Label) {
    match l
    case Begin(t, now) => t !in s.tasks
    case Enter(t) => t in s.tasks && s.tasks[t].Admitted?
    case Leave(t, ok) => t in s.tasks && s.tasks[t].Running? && s.inFlight >= 1
    case Record(t, now) => t in s.tasks && s.tasks[t].Over?
    case Abandon(t) => t in s.tasks && !s.tasks[t].Over? && (s.tasks[t].Running? ==> s.inFlight >= 1)
  }

  /** A rejected call, by breaker or bulkhead, records nothing. An abandoned one records nothing either:
      its task was cancelled, or the call itself raised one of the two rejection codes. */
  function Apply(p: Limits, s: State, l: Label): State
    requires Enabled(s, l)
  {
    match l
    case Begin(t, now) =>
      var (b, admitted) := Asked(p.cfg, s.breaker, now);
      s.(breaker := b, tasks := if admitted then s.tasks[t := Admitted] else s.tasks)
    case Enter(t) =>
      if s.inFlight >= p.max then s.(tasks := s.tasks - {t})
      else s.(inFlight := s.inFlight + 1, tasks := s.tasks[t := Running])
    case Leave(t, ok) => s.(inFlight := s.inFlight - 1, tasks := s.tasks[t := Over(ok)])
    case Record(t, now) =>
      s.(breaker := if s.tasks[t].ok then Succeeded(p.cfg, s.breaker) else Failed(p.cfg, s.breaker, now),
         tasks := s.tasks - {t})
    case Abandon(t) =>
      s.(inFlight := if s.tasks[t].Running? then s.inFlight - 1 else s.inFlight, tasks := s.tasks - {t})
  }

  function RunningTasks(s: State): set<TaskId> {
    set t | t in s.tasks && s.tasks[t].Running?
  }

  /** The trial flag is set and nobody is left to clear it. */
  predicate Wedged(s: State) {
    s.breaker.health.HalfOpen? && s.breaker.trial && s.tasks == map[]
  }

  /** The bulkhead counts the running calls, within its capacity. */
  predicate CountOk(p: Limits, s: State) {
    s.inFlight == |RunningTasks(s)| <= p.max
  }

  predicate Inv(p: Limits, s: State) {
    WellFormed(p.cfg, s.breaker) && CountOk(p, s) && !Wedged(s)
  }

  lemma CountKept(p: Limits, s: State, l: Label)
    requires p.Valid() && CountOk(p, s) && Enabled(s, l)
    ensures CountOk(p, Apply(p, s, l))
  {
    var s' := Apply(p, s, l);
    match l
    case Begin(t, now) => assert RunningTasks(s') == RunningTasks(s);
    case Enter(t) =>
      if s.inFlight >= p.max {
        assert RunningTasks(s') == RunningTasks(s);
      } else {
        assert RunningTasks(s') == RunningTasks(s) + {t};
      }
    case Leave(t, ok) => assert RunningTasks(s') == RunningTasks(s) - {t};
    case Record(t, now) => assert RunningTasks(s') == RunningTasks(s);
    case Abandon(t) => assert RunningTasks(s') == RunningTasks(s) - {t};
  }

  /** A probe turned away by a full bulkhead leaves running calls behind it. */
  lemma RejectionLeavesOthers(p: Limits, s: State, t: TaskId)
    requires p.Valid() && CountOk(p, s) && Enabled(s, Enter(t)) && s.inFlight >= p.max
    ensures Apply(p, s, Enter(t)).tasks != map[]
  {
    var r :| r in RunningTasks(s);
    assert r in Apply(p, s, Enter(t)).tasks;
  }

  lemma StepKeeps(p: Limits, s: State, l: Label)
    requires p.Valid() && Inv(p, s) && Enabled(s, l) && !l.Abandon?
    ensures Inv(p, Apply(p, s, l))
  {
    CountKept(p, s, l);
    var s' := Apply(p, s, l);
    match l
    case Begin(t, now) =>
      if s'.breaker != s.breaker {
        assert t in s'.tasks;
      }
    case Enter(t) =>
      if s.inFlight >= p.max {
        RejectionLeavesOthers(p, s, t);
      } else {
        assert t in s'.tasks;
      }
    case Leave(t, ok) => assert t in s'.tasks;
    case _ =>
  }

  predicate Legal(p: Limits, s: State, labels: seq<Label>)
    decreases |labels|
  {
    labels == [] || (Enabled(s, labels[0]) && Legal(p, Apply(p, s, labels[0]), labels[1..]))
  }

  function Exec(p: Limits, s: State, labels: seq<Label>): State
    requires Legal(p, s, labels)
    decreases |labels|
  {
    if labels == [] then s else Exec(p, Apply(p, s, labels[0]), labels[1..])
  }

  /** Without cancellation and nested rejection codes no interleaving wedges the breaker: a set trial flag
      always has a call behind it, and the bulkhead never miscounts or overfills. */
  lemma {:induction false} NeverWedged(p: Limits, s: State, labels: seq<Label>)
    requires p.Valid() && Inv(p, s) && Legal(p, s, labels)
    requires forall l | l in labels :: !l.Abandon?
    ensures Inv(p, Exec(p, s, labels))
    decreases |labels|
  {
    if labels != [] {
      StepKeeps(p, s, labels[0]);
      NeverWedged(p, Apply(p, s, labels[0]), labels[1..]);
    }
  }

  lemma StartsUnwedged(p: Limits)
    requires p.Valid()
    ensures Inv(p, START)
  {
    assert RunningTasks(START) == {};
  }

  /** An abandoned call wedges the breaker exactly when the trial flag is set in half-open and it was the
      last call there. */
  lemma AbandonWedgesIff(p: Limits, s: State, t: TaskId)
    requires p.Valid() && Inv(p, s) && Enabled(s, Abandon(t))
    ensures !Inv(p, Apply(p, s, Abandon(t))) <==>
      s.breaker.health.HalfOpen? && s.breaker.trial && s.tasks.Keys == {t}
  {
    CountKept(p, s, Abandon(t));
    var s' := Apply(p, s, Abandon(t));
    assert s'.tasks.Keys == s.tasks.Keys - {t};
    assert s'.tasks == map[] <==> s'.tasks.Keys == {};
    assert s.tasks.Keys == {t} <==> s.tasks.Keys - {t} == {};
  }

  /** A wedge is forever: every later call is rejected, whatever the clock says. */
  lemma {:induction false} WedgeIsForever(p: Limits, s: State, labels: seq<Label>, now: Time)
    requires Wedged(s) && Legal(p, s, labels)
    ensures Exec(p, s, labels) == s
    ensures !Asked(p.cfg, Exec(p, s, labels).breaker, now).1
    decreases |labels|
  {
    if labels != [] {
      WedgeIsForever(p, Apply(p, s, labels[0]), labels[1..], now);
    }
  }

  /** A cancelled probe does wedge it: one failure opens the breaker, the probe after the recovery time is
      cancelled, and the flag stays set. */
  lemma CancelledProbeWedges()
    ensures var p := Limits(Thresholds(1, 1, 15), 1);
      var labels := [Begin(0, 0), Enter(0), Leave(0, false), Record(0, 0), Begin(1, 15), Abandon(1)];
      p.Valid() && Legal(p, START, labels) && Wedged(Exec(p, START, labels))
  {
    var p := Limits(Thresholds(1, 1, 15), 1);
    var labels := [Begin(0, 0), Enter(0), Leave(0, false), Record(0, 0), Begin(1, 15), Abandon(1)];
    var s1 := State(FRESH, 0, map[0 := Admitted]);
    var s2 := State(FRESH, 1, map[0 := Running]);
    var s3 := State(FRESH, 0, map[0 := Over(false)]);
    var s4 := State(Breaker(Open, 1, 0, Some(0), false), 0, map[]);
    var s5 := State(Breaker(HalfOpen, 1, 0, Some(0), true), 0, map[1 := Admitted]);
    var s6 := State(Breaker(HalfOpen, 1, 0, Some(0), true), 0, map[]);
    assert Apply(p, START, labels[0]) == s1;
    assert Apply(p, s1, labels[1]) == s2;
    assert Apply(p, s2, labels[2]) == s3;
    assert Apply(p, s3, labels[3]) == s4;
    assert Apply(p, s4, labels[4]) == s5;
    assert Apply(p, s5, labels[5]) == s6;
    Chain(p, START, labels, [s1, s2, s3, s4, s5, s6]);
  }

  /** A chain of states is the run of its labels. */
  lemma {:induction false} Chain(p: Limits, s: State, labels: seq<Label>, states: seq<State>)
    requires |states| == |labels| >= 1
    requires Enabled(s, labels[0]) && Apply(p, s, labels[0]) == states[0]
    requires forall i | 1 <= i < |labels| :: Enabled(states[i - 1], labels[i]) && Apply(p, states[i - 1], labels[i]) == states[i]
    ensures Legal(p, s, labels) && Exec(p, s, labels) == states[|states| - 1]
    decreases |labels|
  {
    if |labels| > 1 {
      Chain(p, states[0], labels[1..], states[1..]);
    }
  }

  /** With no call in progress a new call is turned away only while the breaker is open and its recovery
      time has not passed, so it is always let through from some moment on. */
  lemma IdleRecovers(p: Limits, s: State, now: Time)
    requires p.Valid() && Inv(p, s) && s.tasks == map[]
    ensures s.breaker.health.Open? ==> s.breaker.openedAt.Some?
    ensures Asked(p.cfg, s.breaker, now).1 <==>
      (s.breaker.health.Open? ==> now >= s.breaker.openedAt.value + p.cfg.recovery)
  {
    assert !(s.breaker.health.HalfOpen? && s.breaker.trial);
  }

  // ---- one call, as the client runs it ----

  const BROKER_OPERATION_FAILED := ServiceError("BROKER_OPERATION_FAILED", 503)

  predicate IsRejection(e: ServiceError) {
    e.code == CIRCUIT_OPEN.code || e.code == BULKHEAD_REJECTED.code
  }

  /** The steps of one call that nobody interleaves with, given how its retried attempts end. */
  function CallSteps<T>(t: TaskId, outcome: Attempt<T>, asked: Time, done: Time): seq<Label> {
    if outcome.RaisesService? && IsRejection(outcome.error)
    then [Begin(t, asked), Enter(t), Abandon(t)]
    else [Begin(t, asked), Enter(t), Leave(t, outcome.Returns?), Record(t, done)]
  }

  function Ending<T>(outcome: Attempt<T>): Result<T> {
    match outcome
    case Returns(v) => Ok(v)
    case RaisesService(e) => Err(e)
    case RaisesOther => Err(BROKER_OPERATION_FAILED)
  }

  /** Breaker and bulkhead after the whole call, from a bulkhead with room. */
  lemma CallStepsEffect<T>(p: Limits, b: Breaker, inFlight: nat, t: TaskId, outcome: Attempt<T>, asked: Time, done: Time)
    requires inFlight < p.max && Asked(p.cfg, b, asked).1
    ensures var b1 := Asked(p.cfg, b, asked).0;
      var labels := CallSteps(t, outcome, asked, done);
      var s := State(b, inFlight, map[]);
      && Legal(p, s, labels)
      && Exec(p, s, labels) == State(Recorded(p.cfg, b1, outcome, done), inFlight, map[])
  {
    var b1 := Asked(p.cfg, b, asked).0;
    var s1 := State(b1, inFlight, map[t := Admitted]);
    var s2 := State(b1, inFlight + 1, map[t := Running]);
    var s3 := State(b1, inFlight, map[t := Over(outcome.Returns?)]);
    var s4 := State(Recorded(p.cfg, b1, outcome, done), inFlight, map[]);
    if outcome.RaisesService? && IsRejection(outcome.error) {
      Chain(p, State(b, inFlight, map[]), CallSteps(t, outcome, asked, done), [s1, s2, s4]);
    } else {
      Chain(p, State(b, inFlight, map[]), CallSteps(t, outcome, asked, done), [s1, s2, s3, s4]);
    }
  }

  /** What a finished call records. */
  function Recorded<T>(cfg: Thresholds, b: Breaker, outcome: Attempt<T>, done: Time): Breaker {
    match outcome
    case Returns(_) => Succeeded(cfg, b)
    case RaisesService(e) => if IsRejection(e) then b else Failed(cfg, b, done)
    case RaisesOther => Failed(cfg, b, done)
  }

  /** _run_integration_call for one task at a time. A rejection by breaker or bulkhead records nothing. */
  method RunIntegrationCall<T>(circuit: CircuitBreaker, bulkhead: Bulkhead, attempt: nat -> Attempt<T>,
                               maxAttempts: int, asked: Time, done: Time)
    returns (r: Result<T>, ghost outcome: Option<Attempt<T>>)
    modifies circuit, bulkhead
    ensures bulkhead.inFlight == old(bulkhead.inFlight)
    ensures !Asked(circuit.cfg, old(circuit.State()), asked).1 ==>
      r == Err(CIRCUIT_OPEN) && circuit.State() == Asked(circuit.cfg, old(circuit.State()), asked).0
    ensures Asked(circuit.cfg, old(circuit.State()), asked).1 && old(bulkhead.inFlight) >= bulkhead.maxConcurrency ==>
      r == Err(BULKHEAD_REJECTED) && circuit.State() == Asked(circuit.cfg, old(circuit.State()), asked).0
    ensures Asked(circuit.cfg, old(circuit.State()), asked).1 && old(bulkhead.inFlight) < bulkhead.maxConcurrency ==>
      && outcome.Some? && r == Ending(outcome.value)
      && circuit.State() == Recorded(circuit.cfg, Asked(circuit.cfg, old(circuit.State()), asked).0, outcome.value, done)
      && (exists k: nat :: outcome.value == attempt(k) && (forall i: nat | i < k :: Retried(attempt(i))))
    ensures outcome.Some? ==>
      var asking := Asked(circuit.cfg, old(circuit.State()), asked).0;
      match outcome.value
      case Returns(v) => r == Ok(v) && circuit.State() == Succeeded(circuit.cfg, asking)
      case RaisesService(e) =>
        && r == Err(e)
        && circuit.State() == (if e.code in {"CIRCUIT_OPEN", "BULKHEAD_REJECTED"} then asking else Failed(circuit.cfg, asking, done))
      case RaisesOther =>
        r.Err? && r.error.code == "BROKER_OPERATION_FAILED" && r.error.statusCode == 503 && circuit.State() == Failed(circuit.cfg, asking, done)
    ensures outcome.None? ==> r.Err? && r.error.code in {"CIRCUIT_OPEN", "BULKHEAD_REJECTED"} && r.error.statusCode == 503
  {
    outcome := None;
    var available := circuit.AssertAvailable(asked);
    if available.Err? {
      return Err(available.error), None;
    }
    var entered := bulkhead.Enter();
    if entered.Err? {
      return Err(entered.error), None;
    }
    var last, made := WithRetries(attempt, maxAttempts);
    bulkhead.Leave();
    outcome := Some(last);
    match last {
      case Returns(v) =>
        circuit.RecordSuccess();
        r := Ok(v);
      case RaisesService(e) =>
        if !IsRejection(e) {
          circuit.RecordFailure(done);
        }
        r := Err(e);
      case RaisesOther =>
        circuit.RecordFailure(done);
        r := Err(BROKER_OPERATION_FAILED);
    }
    assert last == attempt(made - 1);
  }
}
