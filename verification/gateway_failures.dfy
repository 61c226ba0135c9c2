/** Failed requests of the gateway: exactly which failures are stored, a run in which one is not and blocks its
    key, and a run in which the two bodies of one stored failure differ. */
module GatewayFailures {
  import opened Base
  import opened Json
  import opened Idempotency
  import opened GatewayRuns
  import EE = ErrorEnvelopes

  // ---- runs from a list of steps ----

  function Start(now: Time): State {
    State(map[], now, map[], [], [], [])
  }

  /** The state after a step, or the same when it is not enabled. */
  function After(s: State, l: Label, cfg: Config): State {
    if Enabled(s, l) then Apply(s, l, cfg) else s
  }

  /** The states a list of steps goes through. */
  function States(s: State, labels: seq<Label>, cfg: Config): (run: seq<State>)
    ensures |run| == |labels| + 1 && run[0] == s
    decreases |labels|
  {
    if labels == [] then [s]
    else [s] + States(After(s, labels[0], cfg), labels[1..], cfg)
  }

  lemma {:induction false} StatesStep(s: State, labels: seq<Label>, cfg: Config, i: nat)
    requires i < |labels|
    ensures var run := States(s, labels, cfg);
      run[i + 1] == After(run[i], labels[i], cfg)
    decreases |labels|
  {
    if i > 0 {
      StatesStep(After(s, labels[0], cfg), labels[1..], cfg, i - 1);
    }
  }

  lemma AllSteps(run: seq<State>, labels: seq<Label>, cfg: Config)
    requires |run| == |labels| + 1 && IsInit(run[0])
    requires forall i | 0 <= i < |labels| :: IsStep(run[i], labels[i], run[i + 1], cfg)
    ensures IsRun(run, cfg)
  {
    forall i | 0 <= i < |run| - 1 ensures StepAt(run, i, cfg) {
      assert IsStep(run[i], labels[i], run[i + 1], cfg);
    }
  }

  // ---- which failures are stored ----

  /** The request's trace id: its header's, or a generated one without a header or with an empty one. */
  function TraceOf(header: Option<string>, generated: string): string {
    if header.Some? && header.value != "" then header.value else generated
  }

  /** A request that arrives, executes and fails, and persists its failure when there is something to persist. */
  function Fails(caller: nat, key: string, endpoint: string, hash: string, trace: string, outer: string, x: EE.Thrown,
                 at: Time, toldAt: Time, elapsed: nat): seq<Label> {
    [Arrive(caller, key, endpoint, hash, trace), Evaluate(caller, Threw(x), at), Tick(elapsed), Persist(caller, true, outer, toldAt)]
  }

  lemma FailsStates(s: State, labels: seq<Label>, cfg: Config)
    requires |labels| == 4
    ensures var run := States(s, labels, cfg);
      && run[1] == After(run[0], labels[0], cfg) && run[2] == After(run[1], labels[1], cfg)
      && run[3] == After(run[2], labels[2], cfg) && run[4] == After(run[3], labels[3], cfg)
  {
    StatesStep(s, labels, cfg, 0);
    StatesStep(s, labels, cfg, 1);
    StatesStep(s, labels, cfg, 2);
    StatesStep(s, labels, cfg, 3);
  }

  /** The failure of a granted, undisturbed request is stored exactly when its trace id has eight characters and,
      for a ServiceError, the code has three and message and operation are there. For any other exception that is
      a condition on the request's header alone. Otherwise the key stays pending behind an unexpected error. */
  lemma FailureStoredIff(s: State, caller: nat, key: string, endpoint: string, hash: string, header: Option<string>,
                         generated: string, outer: string, x: EE.Thrown, at: Time, toldAt: Time, elapsed: nat, cfg: Config)
    requires caller !in s.callers && |generated| >= 8 && Reserved(s.rows, key, endpoint, hash, cfg, s.now).1 == Ok(Granted)
    ensures var trace := TraceOf(header, generated);
      var end := States(s, Fails(caller, key, endpoint, hash, trace, outer, x, at, toldAt, elapsed), cfg)[4];
      && key in end.rows && end.callers == s.callers
      && (end.rows[key].status.Failed? <==>
            |trace| >= 8 && (x.Typed? ==> |x.code| >= 3 && |x.message| >= 1 && |x.operation| >= 1))
      && (x.Untyped? ==> (end.rows[key].status.Failed? <==> header.None? || header.value == "" || |header.value| >= 8))
      && (!end.rows[key].status.Failed? ==>
            end.rows[key].status.Pending? && end.replies == s.replies + [Reply(key, hash, First(trace, at), Refused(EE.UNEXPECTED))])
  {
    var trace := TraceOf(header, generated);
    var labels := Fails(caller, key, endpoint, hash, trace, outer, x, at, toldAt, elapsed);
    var run := States(s, labels, cfg);
    FailsStates(s, labels, cfg);
    if EE.Storable(x, trace) {
      RequestIsSteps(s, caller, key, endpoint, hash, trace, outer, Threw(x), at, toldAt, elapsed, cfg);
    } else {
      GrantedIsPending(s, run[1], caller, key, endpoint, hash, trace, cfg);
      UnstoredStep(run[1], caller, x, at, cfg);
      assert run[1].callers - {caller} == s.callers;
    }
  }

  lemma UnstoredStep(s: State, caller: nat, x: EE.Thrown, at: Time, cfg: Config)
    requires caller in s.callers && s.callers[caller].outcome.None? && !EE.Storable(x, s.callers[caller].trace)
    ensures Enabled(s, Evaluate(caller, Threw(x), at))
    ensures var c := s.callers[caller];
      Apply(s, Evaluate(caller, Threw(x), at), cfg)
      == s.(callers := s.callers - {caller}, replies := s.replies + [Reply(c.key, c.hash, First(c.trace, at), Refused(EE.UNEXPECTED))])
  {
    EE.StorableIff(x, s.callers[caller].trace, at);
  }

  lemma GrantedIsPending(s: State, s': State, caller: nat, key: string, endpoint: string, hash: string, trace: string, cfg: Config)
    requires caller !in s.callers && Reserved(s.rows, key, endpoint, hash, cfg, s.now).1 == Ok(Granted)
    requires s' == Apply(s, Arrive(caller, key, endpoint, hash, trace), cfg)
    ensures key in s'.rows && s'.rows[key].status.Pending? && s'.replies == s.replies
    ensures s'.callers == s.callers[caller := Caller(key, hash, trace, None)]
  {
  }

  lemma StillPending(s: State, at: Time, key: string, endpoint: string, hash: string, cfg: Config)
    requires key in s.rows && s.rows[key] == NewRow(endpoint, hash, cfg, at) && at <= s.now < at + cfg.Window()
    ensures Reserved(s.rows, key, endpoint, hash, cfg, s.now) == (s.rows, Err(IN_PROGRESS))
  {
  }

  /** Whatever a request fails with, other than a ServiceError: under a trace header of one to seven characters
      there is a run in which its failure is not stored and the same request, sent again within the window, is
      refused as still in progress. */
  lemma ShortTraceBlocks(key: string, endpoint: string, hash: string, trace: string, text: string, at: Time, elapsed: nat,
                         cfg: Config) returns (run: seq<State>)
    requires 1 <= |trace| < 8 && elapsed < cfg.Window()
    ensures IsRun(run, cfg)
    ensures var s := run[|run| - 1];
      && s.replies == [Reply(key, hash, First(trace, at), Refused(EE.UNEXPECTED)), Reply(key, hash, Replayed, Refused(IN_PROGRESS))]
      && Open(s.rows, key) && s.callers == map[] && s.finals == []
  {
    var labels := [Arrive(0, key, endpoint, hash, trace), Evaluate(0, Threw(EE.Untyped(text)), at), Tick(elapsed),
                   Arrive(1, key, endpoint, hash, trace)];
    run := States(Start(0), labels, cfg);
    FailsStates(Start(0), labels, cfg);
    GrantedIsPending(run[0], run[1], 0, key, endpoint, hash, trace, cfg);
    UnstoredStep(run[1], 0, EE.Untyped(text), at, cfg);
    assert run[1].callers - {0} == map[];
    StillPending(run[3], run[0].now, key, endpoint, hash, cfg);
    assert Enabled(run[0], labels[0]) && Enabled(run[1], labels[1]) && Enabled(run[2], labels[2]) && Enabled(run[3], labels[3]);
    AllSteps(run, labels, cfg);
  }

  /** The same with everything given: a header of five characters, and the default window of two minutes. */
  lemma FiveCharactersBlock() returns (run: seq<State>)
    ensures IsRun(run, Config(300, 120)) && |run[|run| - 1].replies| == 2
    ensures run[|run| - 1].replies[0].answer == Refused(EE.UNEXPECTED) && run[|run| - 1].replies[1].answer == Refused(IN_PROGRESS)
  {
    run := ShortTraceBlocks("key", "/gateway/credit-evaluate", "hash", "short", "connection reset", 0, 60 * SECOND, Config(300, 120));
  }

  // ---- a run in which the two bodies of one ServiceError differ ----

  /** One request fails, and the next one with its key is answered from the row. */
  function FailThenReplay(key: string, endpoint: string, hash: string, trace: string, outer: string, x: Execution, at: Time,
                          toldAt: Time): seq<Label> {
    [Arrive(0, key, endpoint, hash, trace), Evaluate(0, x, at), Persist(0, true, outer, toldAt),
     Arrive(1, key, endpoint, hash, trace)]
  }

  /** An arrival with the stored request is answered from a failed row. */
  lemma ReplayStep(s: State, s': State, caller: nat, key: string, endpoint: string, hash: string, trace: string, o: Outcome,
                   cfg: Config)
    requires caller !in s.callers && s' == Apply(s, Arrive(caller, key, endpoint, hash, trace), cfg) && o.Failure?
    requires key in s.rows && s.rows[key].endpoint == endpoint && s.rows[key].requestHash == hash
    requires s.rows[key].status.Failed? && s.rows[key].error == Some(Obj(Stored(o))) && s.rows[key].errorCode == Some(EE.StatusOf(o.error))
    ensures s'.replies == s.replies + [Reply(key, hash, Replayed, LaterAnswer(o))]
  {
  }

  /** For every ServiceError and any two readings of the clock that differ: a run in which the first answer and
      the replay are different bodies. */
  lemma ServiceErrorBodiesDiffer(key: string, endpoint: string, hash: string, trace: string, outer: string, error: EE.Thrown,
                                 at: Time, toldAt: Time, cfg: Config) returns (run: seq<State>)
    requires error.Typed? && EE.PersistedEnvelope(error, trace, at).Valid() && at != toldAt
    ensures IsRun(run, cfg)
    ensures var s := run[|run| - 1];
      && SameKey(s, 0, 1) && s.replies[0].answer.Business? && s.replies[1].answer.Business?
      && s.replies[0].answer.payload != s.replies[1].answer.payload
      && EE.SameButTime(s.replies[0].answer.payload, s.replies[1].answer.payload)
  {
    var labels := FailThenReplay(key, endpoint, hash, trace, outer, Threw(error), at, toldAt);
    run := States(Start(0), labels, cfg);
    StatesStep(Start(0), labels, cfg, 0);
    StatesStep(Start(0), labels, cfg, 1);
    StatesStep(Start(0), labels, cfg, 2);
    StatesStep(Start(0), labels, cfg, 3);
    RequestIsSteps(run[0], 0, key, endpoint, hash, trace, outer, Threw(error), at, toldAt, 0, cfg);
    AllSteps(run, labels, cfg);
    var o := Failure(error, trace, at);
    ReplayStep(run[3], run[4], 1, key, endpoint, hash, trace, o, cfg);
    EE.ToldAndPersisted(error, trace, outer, at, toldAt);
  }
}
