/** Any number of callers of credit_evaluate (api_gateway routes.py) sharing keys: reserve, execute, persist,
    reply. A caller can vanish between any two steps, and a takeover leaves the earlier caller running. */
module GatewayRuns {
  import opened Base
  import opened Json
  import opened Idempotency
  import opened Evaluations
  import EE = ErrorEnvelopes

  /** How execution ends. */
  datatype Execution = Produced(evaluation: Evaluation) | Threw(error: EE.Thrown)

  /** What is to be persisted: the evaluation, or the error with the trace id and the time of its envelope. */
  datatype Outcome = Body(evaluation: Evaluation) | Failure(error: EE.Thrown, trace: string, at: Time)

  datatype Caller = Caller(key: string, hash: string, trace: string, outcome: Option<Outcome>)

  /** Where an answer comes from: the stored row, or the caller's own execution, whose error body is built once
      more when it is sent, perhaps under the trace id outside the request. */
  datatype Source = Replayed | First(outer: string, at: Time)

  /** What a caller was told. */
  datatype Reply = Reply(key: string, hash: string, source: Source, answer: Answer)

  datatype Answer = Response(evaluation: Evaluation) | Business(payload: Fields, code: int) | Refused(error: ServiceError)

  datatype Grant = Grant(key: string, at: Time)

  datatype Final = Final(key: string, outcome: Outcome)

  datatype State = State(
    rows: Keys,
    now: Time,
    callers: map<nat, Caller>,
    finals: seq<Final>,
    replies: seq<Reply>,
    grants: seq<Grant>)

  datatype Label =
    | Arrive(caller: nat, key: string, endpoint: string, hash: string, trace: string)
    | Evaluate(caller: nat, execution: Execution, at: Time)
    | Persist(caller: nat, heard: bool, outer: string, toldAt: Time)
    | Vanish(caller: nat)
    | Tick(elapsed: nat)

  predicate IsInit(s: State) {
    s.rows == map[] && s.callers == map[] && s.finals == [] && s.replies == [] && s.grants == []
  }

  /** What execution returns satisfies its schemas. A persist whose answer gets lost still commits. The times of
      the error bodies are readings of the service's own clock. */
  predicate Enabled(s: State, l: Label) {
    match l
    case Arrive(c, key, endpoint, hash, trace) => c !in s.callers
    case Evaluate(c, execution, at) =>
      c in s.callers && s.callers[c].outcome.None? && (execution.Produced? ==> EvaluationOk(execution.evaluation))
    case Persist(c, heard, outer, toldAt) => c in s.callers && s.callers[c].outcome.Some?
    case Vanish(c) => c in s.callers
    case Tick(elapsed) => true
  }

  /** The reply to a reservation that is not a grant. */
  function Told(r: Result<Reservation>): Answer
    requires r != Ok(Granted)
  {
    match r
    case Ok(ReplayPayload(payload)) =>
      (match Deserialize(payload)
       case Ok(e) => Response(e)
       case Err(error) => Refused(error))
    case Ok(ReplayError(payload, code)) => Business(payload, if code == 0 then 500 else code)
    case Err(error) => Refused(error)
  }

  /** What is persisted, unless the error's envelope fails its schema: then building it raises, nothing is
      persisted and the caller is told of an unexpected error. */
  function OutcomeOf(x: Execution, trace: string, at: Time): Option<Outcome> {
    match x
    case Produced(e) => Some(Body(e))
    case Threw(error) => if EE.PersistedEnvelope(error, trace, at).Valid() then Some(Failure(error, trace, at)) else None
  }

  predicate OutcomeOk(o: Outcome) {
    match o
    case Body(e) => EvaluationOk(e)
    case Failure(error, trace, at) => EE.PersistedEnvelope(error, trace, at).Valid()
  }

  /** The error body in the row. */
  function Stored(o: Outcome): Fields
    requires o.Failure?
  {
    EE.Dump(EE.PersistedEnvelope(o.error, o.trace, o.at))
  }

  function Finalized(r: KeyRow, o: Outcome, now: Time): KeyRow {
    match o
    case Body(e) => WithResponse(r, Serialize(e), 200, now)
    case Failure(error, _, _) => WithFailure(r, Stored(o), EE.StatusOf(error), now)
  }

  /** What the caller that finalized the key is told, and what every later one is. */
  function FirstAnswer(o: Outcome, outer: string, toldAt: Time): Answer {
    match o
    case Body(e) => Response(e)
    case Failure(error, trace, _) => Business(EE.Dump(EE.ToldEnvelope(error, trace, outer, toldAt)), EE.StatusOf(error))
  }

  function LaterAnswer(o: Outcome): Answer {
    match o
    case Body(e) => Response(e)
    case Failure(error, _, _) => Business(Stored(o), if EE.StatusOf(error) == 0 then 500 else EE.StatusOf(error))
  }

  function AnswerFrom(o: Outcome, source: Source): Answer {
    match source
    case Replayed => LaterAnswer(o)
    case First(outer, at) => FirstAnswer(o, outer, at)
  }

  function Arrived(s: State, l: Label, cfg: Config): State
    requires l.Arrive?
  {
    var (rows, r) := Reserved(s.rows, l.key, l.endpoint, l.hash, cfg, s.now);
    if r == Ok(Granted) then
      s.(rows := rows, callers := s.callers[l.caller := Caller(l.key, l.hash, l.trace, None)], grants := s.grants + [Grant(l.key, s.now)])
    else
      s.(rows := rows, replies := s.replies + [Reply(l.key, l.hash, Replayed, Told(r))])
  }

  /** The reply of a caller that executed. */
  function Own(c: Caller, outer: string, at: Time, answer: Answer): Reply {
    Reply(c.key, c.hash, First(outer, at), answer)
  }

  function Evaluated(s: State, l: Label): State
    requires l.Evaluate? && l.caller in s.callers
  {
    var c := s.callers[l.caller];
    var o := OutcomeOf(l.execution, c.trace, l.at);
    if o.Some? then s.(callers := s.callers[l.caller := c.(outcome := o)])
    else s.(callers := s.callers - {l.caller}, replies := s.replies + [Own(c, c.trace, l.at, Refused(EE.UNEXPECTED))])
  }

  function Persisted(s: State, l: Label): State
    requires l.Persist? && l.caller in s.callers && s.callers[l.caller].outcome.Some?
  {
    var c := s.callers[l.caller];
    var o := c.outcome.value;
    var done := s.(callers := s.callers - {l.caller});
    if !Open(s.rows, c.key) then done.(replies := s.replies + [Own(c, l.outer, l.toldAt, Refused(PERSIST_FAILED))])
    else
      done.(rows := s.rows[c.key := Finalized(s.rows[c.key], o, s.now)],
            finals := s.finals + [Final(c.key, o)],
            replies := if l.heard then s.replies + [Own(c, l.outer, l.toldAt, FirstAnswer(o, l.outer, l.toldAt))] else s.replies)
  }

  function Apply(s: State, l: Label, cfg: Config): State
    requires Enabled(s, l)
  {
    match l
    case Arrive(_, _, _, _, _) => Arrived(s, l, cfg)
    case Evaluate(_, _, _) => Evaluated(s, l)
    case Persist(_, _, _, _) => Persisted(s, l)
    case Vanish(c) => s.(callers := s.callers - {c})
    case Tick(elapsed) => s.(now := s.now + elapsed)
  }

  ghost predicate IsStep(s: State, l: Label, s': State, cfg: Config) {
    Enabled(s, l) && s' == Apply(s, l, cfg)
  }

  ghost predicate Next(s: State, s': State, cfg: Config) {
    exists l :: IsStep(s, l, s', cfg)
  }

  ghost predicate StepAt(run: seq<State>, i: nat, cfg: Config) {
    i + 1 < |run| && Next(run[i], run[i + 1], cfg)
  }

  ghost predicate IsRun(run: seq<State>, cfg: Config) {
    |run| >= 1 && IsInit(run[0]) && forall i | 0 <= i < |run| - 1 :: StepAt(run, i, cfg)
  }

  // ---- the invariant ----

  predicate FinalIs(finals: seq<Final>, key: string, o: Outcome) {
    Final(key, o) in finals
  }

  predicate NoFinal(finals: seq<Final>, key: string) {
    forall i | 0 <= i < |finals| :: finals[i].key != key
  }

  /** A row is pending until its only finalization, and then stores exactly that. */
  ghost predicate RowOk(r: KeyRow, key: string, finals: seq<Final>, cfg: Config) {
    match r.status
    case Pending =>
      NoFinal(finals, key) && r.lockedAt.Some? && r.expiresAt == Some(r.lockedAt.value + cfg.ttl * SECOND)
    case Completed =>
      exists o :: FinalIs(finals, key, o) && o.Body? && r.response == Some(Obj(Serialize(o.evaluation)))
    case Failed =>
      exists o :: FinalIs(finals, key, o) && o.Failure? && r.error == Some(Obj(Stored(o))) && r.errorCode == Some(EE.StatusOf(o.error))
  }

  ghost predicate RowsOk(s: State, cfg: Config) {
    && (forall key | key in s.rows :: RowOk(s.rows[key], key, s.finals, cfg))
    && (forall i | 0 <= i < |s.finals| :: s.finals[i].key in s.rows)
  }

  /** One finalization a key, of a valid body. */
  ghost predicate FinalsOk(finals: seq<Final>) {
    && (forall i, j | 0 <= i < j < |finals| :: finals[i].key != finals[j].key)
    && (forall i | 0 <= i < |finals| :: OutcomeOk(finals[i].outcome))
  }

  /** The caller holds the hash its key was first reserved with. */
  ghost predicate CallerOk(s: State, c: Caller) {
    && c.key in s.rows && s.rows[c.key].requestHash == c.hash
    && (c.outcome.Some? ==> OutcomeOk(c.outcome.value))
  }

  /** A reply that is not a refusal tells the key's finalization to a caller with the key's request. */
  ghost predicate ReplyOk(s: State, r: Reply) {
    r.answer.Refused? || (exists o :: Tells(s, r, o))
  }

  ghost predicate Tells(s: State, r: Reply, o: Outcome) {
    && FinalIs(s.finals, r.key, o) && r.answer == AnswerFrom(o, r.source)
    && r.key in s.rows && s.rows[r.key].requestHash == r.hash
  }

  /** Every grant is for a reserved key, and came a whole window before any later one for the same key. */
  ghost predicate GrantsOk(s: State, cfg: Config) {
    && (forall i | 0 <= i < |s.grants| :: GrantOk(s, s.grants[i]))
    && (forall i, j | 0 <= i < j < |s.grants| && s.grants[i].key == s.grants[j].key ::
          s.grants[i].at + cfg.Window() <= s.grants[j].at)
  }

  ghost predicate GrantOk(s: State, g: Grant) {
    && g.key in s.rows
    && (s.rows[g.key].status.Pending? ==> s.rows[g.key].lockedAt.Some? && g.at <= s.rows[g.key].lockedAt.value)
  }

  predicate IsFirst(r: Reply) {
    r.source.First? && !r.answer.Refused?
  }

  /** A key is answered at most once from its own execution. */
  ghost predicate FirstsOk(replies: seq<Reply>) {
    forall i, j | 0 <= i < j < |replies| && IsFirst(replies[i]) && IsFirst(replies[j]) :: replies[i].key != replies[j].key
  }

  ghost predicate Inv(s: State, cfg: Config) {
    && RowsOk(s, cfg) && FinalsOk(s.finals) && GrantsOk(s, cfg)
    && (forall c | c in s.callers :: CallerOk(s, s.callers[c]))
    && (forall i | 0 <= i < |s.replies| :: ReplyOk(s, s.replies[i]))
    && FirstsOk(s.replies)
  }

  // ---- arrivals ----

  /** What is stored for an outcome is read back as its later answer. */
  lemma StoredIsTold(r: KeyRow, key: string, endpoint: string, hash: string, finals: seq<Final>,
                     cfg: Config) returns (o: Outcome)
    requires RowOk(r, key, finals, cfg) && FinalsOk(finals) && !r.status.Pending?
    ensures FinalIs(finals, key, o)
    ensures var replay := Replay(r, endpoint, hash);
      && replay.Some? && replay.value != Ok(Granted)
      && (if r.endpoint == endpoint && r.requestHash == hash then Told(replay.value) == LaterAnswer(o)
          else Told(replay.value).Refused?)
  {
    if r.status.Completed? {
      o :| FinalIs(finals, key, o) && o.Body? && r.response == Some(Obj(Serialize(o.evaluation)));
      FinalIsValid(finals, key, o);
      DeserializeSerialize(o.evaluation);
    } else {
      o :| FinalIs(finals, key, o) && o.Failure? && r.error == Some(Obj(Stored(o))) && r.errorCode == Some(EE.StatusOf(o.error));
    }
  }

  lemma FinalIsValid(finals: seq<Final>, key: string, o: Outcome)
    requires FinalsOk(finals) && FinalIs(finals, key, o)
    ensures OutcomeOk(o)
  {
    var i :| 0 <= i < |finals| && finals[i] == Final(key, o);
    assert OutcomeOk(finals[i].outcome);
  }

  /** A finalized row answers a reservation and stays as it is. */
  lemma ReplayIsFinal(s: State, key: string, endpoint: string, hash: string, cfg: Config)
    requires RowsOk(s, cfg) && FinalsOk(s.finals) && key in s.rows && !s.rows[key].status.Pending?
    ensures var (rows, r) := Reserved(s.rows, key, endpoint, hash, cfg, s.now);
      rows == s.rows && r != Ok(Granted) && ReplyOk(s, Reply(key, hash, Replayed, Told(r)))
  {
    assert RowOk(s.rows[key], key, s.finals, cfg);
    var o := StoredIsTold(s.rows[key], key, endpoint, hash, s.finals, cfg);
    var answer := Told(Replay(s.rows[key], endpoint, hash).value);
    assert answer.Refused? || Tells(s, Reply(key, hash, Replayed, answer), o);
  }

  ghost predicate SameHash(rows: Keys, rows': Keys) {
    forall key | key in rows :: key in rows' && rows'[key].requestHash == rows[key].requestHash
  }

  lemma RepliesStay(s: State, s': State, r: Reply)
    requires ReplyOk(s, r) && s.finals <= s'.finals && SameHash(s.rows, s'.rows)
    ensures ReplyOk(s', r)
  {
    if !r.answer.Refused? {
      var o :| Tells(s, r, o);
      assert Tells(s', r, o);
    }
  }

  /** Pending for a whole window since its last grant. */
  ghost predicate RanOut(s: State, key: string, cfg: Config) {
    && Open(s.rows, key) && s.rows[key].lockedAt.Some?
    && s.rows[key].lockedAt.value + cfg.Window() <= s.now
  }

  lemma GrantTakes(s: State, key: string, endpoint: string, hash: string, cfg: Config)
    requires RowsOk(s, cfg) && FinalsOk(s.finals)
    requires Reserved(s.rows, key, endpoint, hash, cfg, s.now).1 == Ok(Granted)
    ensures key in s.rows ==> RanOut(s, key, cfg) && s.rows[key].requestHash == hash
    ensures var rows := Reserved(s.rows, key, endpoint, hash, cfg, s.now).0;
      && key in rows && rows == s.rows[key := rows[key]]
      && rows[key].status.Pending? && rows[key].requestHash == hash
      && rows[key].lockedAt == Some(s.now) && rows[key].expiresAt == Some(s.now + cfg.ttl * SECOND)
  {
    if key in s.rows {
      if !s.rows[key].status.Pending? {
        ReplayIsFinal(s, key, endpoint, hash, cfg);
      }
      assert RowOk(s.rows[key], key, s.finals, cfg);
    }
  }

  lemma GrantRows(s: State, s': State, key: string, cfg: Config)
    requires RowsOk(s, cfg) && s'.finals == s.finals && key in s'.rows && s'.rows == s.rows[key := s'.rows[key]]
    requires key in s.rows ==> s.rows[key].status.Pending?
    requires s'.rows[key].status.Pending? && s'.rows[key].lockedAt == Some(s.now)
    requires s'.rows[key].expiresAt == Some(s.now + cfg.ttl * SECOND)
    ensures RowsOk(s', cfg)
  {
    forall k | k in s'.rows ensures RowOk(s'.rows[k], k, s'.finals, cfg) {
      if k in s.rows {
        assert RowOk(s.rows[k], k, s.finals, cfg);
      }
    }
  }

  lemma GrantKeeps(s: State, l: Label, cfg: Config)
    requires Inv(s, cfg) && l.Arrive? && Enabled(s, l)
    requires Reserved(s.rows, l.key, l.endpoint, l.hash, cfg, s.now).1 == Ok(Granted)
    ensures Inv(Apply(s, l, cfg), cfg)
  {
    var s' := Apply(s, l, cfg);
    GrantTakes(s, l.key, l.endpoint, l.hash, cfg);
    GrantRows(s, s', l.key, cfg);
    forall i | 0 <= i < |s'.replies| ensures ReplyOk(s', s'.replies[i]) {
      RepliesStay(s, s', s.replies[i]);
    }
    GrantsGrow(s, s', l, cfg);
  }

  lemma GrantsGrow(s: State, s': State, l: Label, cfg: Config)
    requires GrantsOk(s, cfg) && l.Arrive?
    requires s'.grants == s.grants + [Grant(l.key, s.now)]
    requires l.key in s.rows ==> RanOut(s, l.key, cfg)
    requires l.key in s'.rows && s'.rows == s.rows[l.key := s'.rows[l.key]] && s'.rows[l.key].lockedAt == Some(s.now)
    ensures GrantsOk(s', cfg)
  {
    forall i | 0 <= i < |s'.grants| ensures GrantOk(s', s'.grants[i]) {
      if i < |s.grants| {
        assert GrantOk(s, s.grants[i]);
      }
    }
    forall i, j | 0 <= i < j < |s'.grants| && s'.grants[i].key == s'.grants[j].key
      ensures s'.grants[i].at + cfg.Window() <= s'.grants[j].at
    {
      if j == |s.grants| {
        assert GrantOk(s, s.grants[i]);
      }
    }
  }

  lemma RefusalKeeps(s: State, l: Label, cfg: Config)
    requires Inv(s, cfg) && l.Arrive? && Enabled(s, l)
    requires Reserved(s.rows, l.key, l.endpoint, l.hash, cfg, s.now).1 != Ok(Granted)
    ensures Inv(Apply(s, l, cfg), cfg)
  {
    var s' := Apply(s, l, cfg);
    var r := Reserved(s.rows, l.key, l.endpoint, l.hash, cfg, s.now).1;
    assert l.key in s.rows && s'.rows == s.rows;
    if !s.rows[l.key].status.Pending? {
      ReplayIsFinal(s, l.key, l.endpoint, l.hash, cfg);
    }
    assert ReplyOk(s, Reply(l.key, l.hash, Replayed, Told(r)));
    FirstsExtend(s.replies, Reply(l.key, l.hash, Replayed, Told(r)));
    forall i | 0 <= i < |s'.replies| ensures ReplyOk(s', s'.replies[i]) {
      if i < |s.replies| {
        RepliesStay(s, s', s.replies[i]);
      } else {
        RepliesStay(s, s', Reply(l.key, l.hash, Replayed, Told(r)));
      }
    }
  }

  // ---- finalizations ----

  lemma FinalizedRow(r: KeyRow, key: string, finals: seq<Final>, o: Outcome, now: Time, cfg: Config)
    ensures RowOk(Finalized(r, o, now), key, finals + [Final(key, o)], cfg)
  {
    assert (finals + [Final(key, o)])[|finals|] == Final(key, o);
    assert FinalIs(finals + [Final(key, o)], key, o);
  }

  lemma OtherRow(r: KeyRow, key: string, finals: seq<Final>, f: Final, cfg: Config)
    requires RowOk(r, key, finals, cfg) && key != f.key
    ensures RowOk(r, key, finals + [f], cfg)
  {
    forall o | FinalIs(finals, key, o) ensures FinalIs(finals + [f], key, o) {
    }
  }

  lemma FinalRows(s: State, s': State, key: string, o: Outcome, cfg: Config)
    requires RowsOk(s, cfg) && FinalsOk(s.finals) && Open(s.rows, key)
    requires OutcomeOk(o)
    requires s'.rows == s.rows[key := Finalized(s.rows[key], o, s.now)] && s'.finals == s.finals + [Final(key, o)]
    ensures RowsOk(s', cfg) && FinalsOk(s'.finals)
  {
    assert RowOk(s.rows[key], key, s.finals, cfg);
    forall k | k in s'.rows ensures RowOk(s'.rows[k], k, s'.finals, cfg) {
      if k == key {
        FinalizedRow(s.rows[key], key, s.finals, o, s.now, cfg);
      } else {
        assert RowOk(s.rows[k], k, s.finals, cfg);
        OtherRow(s.rows[k], k, s.finals, Final(key, o), cfg);
      }
    }
  }

  lemma FinalReply(s: State, key: string, hash: string, o: Outcome, outer: string, toldAt: Time)
    requires FinalIs(s.finals, key, o) && key in s.rows && s.rows[key].requestHash == hash
    ensures ReplyOk(s, Reply(key, hash, First(outer, toldAt), FirstAnswer(o, outer, toldAt)))
  {
    assert Tells(s, Reply(key, hash, First(outer, toldAt), FirstAnswer(o, outer, toldAt)), o);
  }

  lemma FirstsExtend(replies: seq<Reply>, r: Reply)
    requires FirstsOk(replies)
    requires IsFirst(r) ==> forall i | 0 <= i < |replies| && IsFirst(replies[i]) :: replies[i].key != r.key
    ensures FirstsOk(replies + [r])
  {
  }

  /** Before its finalization a key has no answer from an execution. */
  lemma NoFirstYet(s: State, key: string)
    requires NoFinal(s.finals, key) && forall i | 0 <= i < |s.replies| :: ReplyOk(s, s.replies[i])
    ensures forall i | 0 <= i < |s.replies| && IsFirst(s.replies[i]) :: s.replies[i].key != key
  {
    forall i | 0 <= i < |s.replies| && IsFirst(s.replies[i]) ensures s.replies[i].key != key {
      assert ReplyOk(s, s.replies[i]);
      var o :| Tells(s, s.replies[i], o);
      var k :| 0 <= k < |s.finals| && s.finals[k] == Final(s.replies[i].key, o);
    }
  }

  /** Callers, replies and grants keep what they rest on when rows keep their hashes and are finalized. */
  lemma OthersStay(s: State, s': State, cfg: Config)
    requires Inv(s, cfg) && s.finals <= s'.finals && SameHash(s.rows, s'.rows) && s'.grants == s.grants
    requires forall key | key in s'.rows && s'.rows[key].status.Pending? :: key in s.rows && s'.rows[key] == s.rows[key]
    ensures GrantsOk(s', cfg)
    ensures forall c | c in s.callers :: CallerOk(s', s.callers[c])
    ensures forall i | 0 <= i < |s.replies| :: ReplyOk(s', s.replies[i])
  {
    forall i | 0 <= i < |s.grants| ensures GrantOk(s', s.grants[i]) {
      assert GrantOk(s, s.grants[i]);
    }
    forall c | c in s.callers ensures CallerOk(s', s.callers[c]) {
      assert CallerOk(s, s.callers[c]);
    }
    forall i | 0 <= i < |s.replies| ensures ReplyOk(s', s.replies[i]) {
      RepliesStay(s, s', s.replies[i]);
    }
  }

  lemma PersistFirsts(s: State, l: Label)
    requires l.Persist? && Enabled(s, l) && FirstsOk(s.replies)
    requires Open(s.rows, s.callers[l.caller].key) ==>
      forall i | 0 <= i < |s.replies| && IsFirst(s.replies[i]) :: s.replies[i].key != s.callers[l.caller].key
    ensures FirstsOk(Persisted(s, l).replies)
  {
    var c := s.callers[l.caller];
    FirstsExtend(s.replies, Reply(c.key, c.hash, First(l.outer, l.toldAt), Refused(PERSIST_FAILED)));
    if Open(s.rows, c.key) {
      FirstsExtend(s.replies, Reply(c.key, c.hash, First(l.outer, l.toldAt), FirstAnswer(c.outcome.value, l.outer, l.toldAt)));
    }
  }

  lemma PersistKeeps(s: State, l: Label, cfg: Config)
    requires Inv(s, cfg) && l.Persist? && Enabled(s, l)
    ensures Inv(Apply(s, l, cfg), cfg)
  {
    var s' := Apply(s, l, cfg);
    var c := s.callers[l.caller];
    var o := c.outcome.value;
    assert CallerOk(s, c);
    OthersStay(s, s', cfg);
    if Open(s.rows, c.key) {
      FinalRows(s, s', c.key, o, cfg);
      assert s'.finals[|s.finals|] == Final(c.key, o);
      FinalReply(s', c.key, c.hash, o, l.outer, l.toldAt);
      assert RowOk(s.rows[c.key], c.key, s.finals, cfg);
      NoFirstYet(s, c.key);
    }
    PersistFirsts(s, l);
  }

  lemma OutcomeIsOk(x: Execution, trace: string, at: Time)
    requires x.Produced? ==> EvaluationOk(x.evaluation)
    ensures OutcomeOf(x, trace, at).Some? ==> OutcomeOk(OutcomeOf(x, trace, at).value)
  {
  }

  lemma EvaluateKeeps(s: State, l: Label, cfg: Config)
    requires Inv(s, cfg) && l.Evaluate? && Enabled(s, l)
    ensures Inv(Apply(s, l, cfg), cfg)
  {
    var s' := Apply(s, l, cfg);
    var c := s.callers[l.caller];
    assert CallerOk(s, c);
    OutcomeIsOk(l.execution, c.trace, l.at);
    OthersStay(s, s', cfg);
    var r := Reply(c.key, c.hash, First(c.trace, l.at), Refused(EE.UNEXPECTED));
    FirstsExtend(s.replies, r);
    assert ReplyOk(s', r);
  }

  lemma OtherKeeps(s: State, l: Label, cfg: Config)
    requires Inv(s, cfg) && (l.Vanish? || l.Tick?) && Enabled(s, l)
    ensures Inv(Apply(s, l, cfg), cfg)
  {
    var s' := Apply(s, l, cfg);
    forall k | k in s'.callers ensures CallerOk(s', s'.callers[k]) {
      assert CallerOk(s, s.callers[k]);
    }
    forall i | 0 <= i < |s.replies| ensures ReplyOk(s', s.replies[i]) {
      RepliesStay(s, s', s.replies[i]);
    }
    forall i | 0 <= i < |s'.grants| ensures GrantOk(s', s'.grants[i]) {
      assert GrantOk(s, s.grants[i]);
    }
  }

  lemma NextKeeps(s: State, s': State, cfg: Config)
    requires Inv(s, cfg) && Next(s, s', cfg)
    ensures Inv(s', cfg)
  {
    var l :| IsStep(s, l, s', cfg);
    match l
    case Arrive(_, key, endpoint, hash, _) =>
      if Reserved(s.rows, key, endpoint, hash, cfg, s.now).1 == Ok(Granted) {
        GrantKeeps(s, l, cfg);
      } else {
        RefusalKeeps(s, l, cfg);
      }
    case Persist(_, _, _, _) => PersistKeeps(s, l, cfg);
    case Evaluate(_, _, _) => EvaluateKeeps(s, l, cfg);
    case _ => OtherKeeps(s, l, cfg);
  }

  lemma {:induction false} RunKeeps(run: seq<State>, cfg: Config, i: nat)
    requires IsRun(run, cfg) && i < |run|
    ensures Inv(run[i], cfg)
  {
    if i > 0 {
      RunKeeps(run, cfg, i - 1);
      assert StepAt(run, i - 1, cfg);
      NextKeeps(run[i - 1], run[i], cfg);
    }
  }

  // ---- agreement ----

  predicate SameKey(s: State, i: nat, j: nat) {
    && i < |s.replies| && j < |s.replies| && s.replies[i].key == s.replies[j].key
    && !s.replies[i].answer.Refused? && !s.replies[j].answer.Refused?
  }

  /** All 200 replies for a key carry one evaluation and answer one request, and no key is answered both with a
      200 and with a failure. All replayed answers of a key are the same. At most one answer comes from the
      execution itself. */
  lemma RepliesAgree(run: seq<State>, cfg: Config, k: nat, i: nat, j: nat) returns (o: Outcome)
    requires IsRun(run, cfg) && k < |run| && SameKey(run[k], i, j)
    ensures FinalIs(run[k].finals, run[k].replies[i].key, o)
    ensures run[k].replies[i].answer == AnswerFrom(o, run[k].replies[i].source)
    ensures run[k].replies[j].answer == AnswerFrom(o, run[k].replies[j].source)
    ensures run[k].replies[i].hash == run[k].replies[j].hash
    ensures run[k].replies[i].answer.Response? == run[k].replies[j].answer.Response? == o.Body?
    ensures o.Body? || run[k].replies[i].source == run[k].replies[j].source ==> run[k].replies[i].answer == run[k].replies[j].answer
    ensures run[k].replies[i].source.First? && run[k].replies[j].source.First? ==> i == j
  {
    RunKeeps(run, cfg, k);
    var s := run[k];
    assert ReplyOk(s, s.replies[i]) && ReplyOk(s, s.replies[j]);
    o :| Tells(s, s.replies[i], o);
    var p :| Tells(s, s.replies[j], p);
    OneFinal(s.finals, s.replies[i].key, o, p);
    assert FirstsOk(s.replies);
    assert IsFirst(s.replies[i]) == s.replies[i].source.First? && IsFirst(s.replies[j]) == s.replies[j].source.First?;
  }

  /** The answer of a failed execution and any replay of it: the bodies agree but for the time exactly when the
      failure was a ServiceError, and wholly exactly when the two envelopes were also built at one reading of
      the clock. The first code is the error's own, 500 for anything but a ServiceError, and the replayed one the
      same, or 500 for an error whose code is zero. */
  lemma FirstAndReplay(run: seq<State>, cfg: Config, k: nat, i: nat, j: nat) returns (o: Outcome)
    requires IsRun(run, cfg) && k < |run| && SameKey(run[k], i, j) && run[k].replies[i].answer.Business?
    requires run[k].replies[i].source.First? && run[k].replies[j].source.Replayed?
    ensures FinalIs(run[k].finals, run[k].replies[i].key, o) && o.Failure? && run[k].replies[j].answer.Business?
    ensures var told, replay := run[k].replies[i].answer, run[k].replies[j].answer;
      && (EE.SameButTime(told.payload, replay.payload) <==> o.error.Typed?)
      && (told.payload == replay.payload <==> o.error.Typed? && run[k].replies[i].source.at == o.at)
      && told.code == (if o.error.Typed? then o.error.statusCode else 500)
      && replay.code == (if o.error.Typed? && o.error.statusCode != 0 then o.error.statusCode else 500)
  {
    o := RepliesAgree(run, cfg, k, i, j);
    var source := run[k].replies[i].source;
    EE.ToldAndPersisted(o.error, o.trace, source.outer, o.at, source.at);
  }

  lemma OneFinal(finals: seq<Final>, key: string, a: Outcome, b: Outcome)
    requires FinalsOk(finals) && FinalIs(finals, key, a) && FinalIs(finals, key, b)
    ensures a == b
  {
    var i :| 0 <= i < |finals| && finals[i] == Final(key, a);
    var j :| 0 <= j < |finals| && finals[j] == Final(key, b);
  }

  /** Finalizations only accumulate, and a finalized row never changes again. */
  ghost predicate Later(s: State, s': State) {
    && s.finals <= s'.finals && s.grants <= s'.grants && s.replies <= s'.replies && s.now <= s'.now
    && (forall key | key in s.rows :: key in s'.rows && (!s.rows[key].status.Pending? ==> s'.rows[key] == s.rows[key]))
  }

  lemma ArriveIsLater(s: State, l: Label, cfg: Config)
    requires Inv(s, cfg) && l.Arrive? && Enabled(s, l)
    ensures Later(s, Apply(s, l, cfg))
  {
    if l.key in s.rows && !s.rows[l.key].status.Pending? {
      ReplayIsFinal(s, l.key, l.endpoint, l.hash, cfg);
    }
  }

  lemma NextIsLater(s: State, s': State, cfg: Config)
    requires Inv(s, cfg) && Next(s, s', cfg)
    ensures Later(s, s')
  {
    var l :| IsStep(s, l, s', cfg);
    if l.Arrive? {
      ArriveIsLater(s, l, cfg);
    }
  }

  lemma {:induction false} RunIsLater(run: seq<State>, cfg: Config, i: nat, j: nat)
    requires IsRun(run, cfg) && i <= j < |run|
    ensures Later(run[i], run[j])
  {
    if i < j {
      RunIsLater(run, cfg, i, j - 1);
      RunKeeps(run, cfg, j - 1);
      assert StepAt(run, j - 1, cfg);
      NextIsLater(run[j - 1], run[j], cfg);
    }
  }

  /** At most one finalization of a key ever succeeds, and what it stored stays for good: later callers with
      the same request are answered with it. */
  lemma FirstFinalizerWins(run: seq<State>, cfg: Config, i: nat, j: nat, key: string, o: Outcome, endpoint: string,
                           hash: string)
    requires IsRun(run, cfg) && i <= j < |run| && FinalIs(run[i].finals, key, o)
    ensures forall p :: FinalIs(run[j].finals, key, p) <==> p == o
    ensures key in run[i].rows && key in run[j].rows && run[j].rows[key] == run[i].rows[key]
    ensures var (rows, r) := Reserved(run[j].rows, key, endpoint, hash, cfg, run[j].now);
      && rows == run[j].rows && r != Ok(Granted)
      && (run[j].rows[key].endpoint == endpoint && run[j].rows[key].requestHash == hash ==> Told(r) == LaterAnswer(o))
    ensures o.Body? ==> run[j].rows[key].status.Completed? && LaterAnswer(o) == Response(o.evaluation)
    ensures o.Failure? ==> run[j].rows[key].status.Failed?
    ensures o.Failure? ==> run[j].rows[key].errorCode == Some(if o.error.Typed? then o.error.statusCode else 500)
  {
    RunKeeps(run, cfg, i);
    RunKeeps(run, cfg, j);
    RunIsLater(run, cfg, i, j);
    FinalRow(run[i], key, o, cfg);
    FinalRow(run[j], key, o, cfg);
    forall p | FinalIs(run[j].finals, key, p) ensures p == o {
      OneFinal(run[j].finals, key, p, o);
    }
    assert RowOk(run[j].rows[key], key, run[j].finals, cfg);
    var p := StoredIsTold(run[j].rows[key], key, endpoint, hash, run[j].finals, cfg);
  }

  lemma FinalRow(s: State, key: string, o: Outcome, cfg: Config)
    requires RowsOk(s, cfg) && FinalIs(s.finals, key, o)
    ensures key in s.rows && !s.rows[key].status.Pending?
  {
    var i :| 0 <= i < |s.finals| && s.finals[i] == Final(key, o);
    assert RowOk(s.rows[key], key, s.finals, cfg);
  }

  // ---- how often a request executes ----

  function GrantsFor(grants: seq<Grant>, key: string): seq<Time> {
    if grants == [] then []
    else
      var rest := GrantsFor(grants[..|grants| - 1], key);
      var last := grants[|grants| - 1];
      if last.key == key then rest + [last.at] else rest
  }

  lemma {:induction false} GrantsForIn(grants: seq<Grant>, key: string, i: nat)
    requires i < |GrantsFor(grants, key)|
    ensures exists k :: 0 <= k < |grants| && grants[k] == Grant(key, GrantsFor(grants, key)[i])
    decreases |grants|
  {
    var init, last := grants[..|grants| - 1], grants[|grants| - 1];
    if i < |GrantsFor(init, key)| {
      GrantsForIn(init, key, i);
      var k :| 0 <= k < |init| && init[k] == Grant(key, GrantsFor(init, key)[i]);
      assert grants[k] == Grant(key, GrantsFor(grants, key)[i]);
    } else {
      assert grants[|grants| - 1] == last;
    }
  }

  /** Spaced grants: the n-th comes at least n windows after the first. */
  lemma {:induction false} SpacedGrants(grants: seq<Grant>, key: string, w: int, i: nat)
    requires forall a, b | 0 <= a < b < |grants| && grants[a].key == grants[b].key :: grants[a].at + w <= grants[b].at
    requires i < |GrantsFor(grants, key)|
    ensures GrantsFor(grants, key)[0] + i * w <= GrantsFor(grants, key)[i]
    decreases |grants|
  {
    var init, last := grants[..|grants| - 1], grants[|grants| - 1];
    var before := GrantsFor(init, key);
    if i < |before| {
      SpacedGrants(init, key, w, i);
    } else if i > 0 {
      SpacedGrants(init, key, w, i - 1);
      GrantsForIn(init, key, i - 1);
      var k :| 0 <= k < |init| && init[k] == Grant(key, before[i - 1]);
      assert grants[k].at + w <= grants[|grants| - 1].at;
      assert (i - 1) * w + w == i * w;
    }
  }

  /** Consecutive executions of one key are a window apart, so by any time there were at most one more than
      the windows since the first. */
  lemma GrantBound(run: seq<State>, cfg: Config, k: nat, key: string)
    requires IsRun(run, cfg) && k < |run| && GrantsFor(run[k].grants, key) != []
    ensures var at := GrantsFor(run[k].grants, key);
      (|at| - 1) * cfg.Window() <= at[|at| - 1] - at[0] <= run[k].now - at[0]
  {
    RunKeeps(run, cfg, k);
    var at := GrantsFor(run[k].grants, key);
    SpacedGrants(run[k].grants, key, cfg.Window(), |at| - 1);
    GrantsForIn(run[k].grants, key, |at| - 1);
    GrantsPast(run, cfg, k);
  }

  lemma {:induction false} GrantsPast(run: seq<State>, cfg: Config, k: nat)
    requires IsRun(run, cfg) && k < |run|
    ensures forall i | 0 <= i < |run[k].grants| :: run[k].grants[i].at <= run[k].now
  {
    if k > 0 {
      GrantsPast(run, cfg, k - 1);
      assert StepAt(run, k - 1, cfg);
    }
  }

  /** Whenever the key is pending, its lock is younger than the window. */
  ghost predicate InTime(s: State, cfg: Config, key: string) {
    Open(s.rows, key) ==> s.rows[key].lockedAt.Some? && s.now < s.rows[key].lockedAt.value + cfg.Window()
  }

  /** If the key is never left pending for a window, it is executed at most once. */
  lemma {:induction false} ExecutesOnce(run: seq<State>, cfg: Config, k: nat, key: string)
    requires IsRun(run, cfg) && k < |run|
    requires forall i | 0 <= i < k :: InTime(run[i], cfg, key)
    ensures |GrantsFor(run[k].grants, key)| <= 1
    ensures key !in run[k].rows ==> GrantsFor(run[k].grants, key) == []
  {
    if k > 0 {
      ExecutesOnce(run, cfg, k - 1, key);
      RunKeeps(run, cfg, k - 1);
      assert StepAt(run, k - 1, cfg) && InTime(run[k - 1], cfg, key);
      OneMoreGrant(run[k - 1], run[k], cfg, key);
    }
  }

  lemma GrantsForStep(s: State, l: Label, cfg: Config, key: string)
    requires Enabled(s, l)
    ensures var s' := Apply(s, l, cfg);
      GrantsFor(s'.grants, key) == GrantsFor(s.grants, key)
      || (l.Arrive? && l.key == key && Reserved(s.rows, key, l.endpoint, l.hash, cfg, s.now).1 == Ok(Granted)
          && key in s'.rows && |GrantsFor(s'.grants, key)| == |GrantsFor(s.grants, key)| + 1)
  {
    var s' := Apply(s, l, cfg);
    if s'.grants != s.grants {
      assert s'.grants[..|s'.grants| - 1] == s.grants;
    }
  }

  lemma InTimeRefuses(s: State, key: string, endpoint: string, hash: string, cfg: Config)
    requires RowsOk(s, cfg) && FinalsOk(s.finals) && key in s.rows && InTime(s, cfg, key)
    ensures Reserved(s.rows, key, endpoint, hash, cfg, s.now).1 != Ok(Granted)
  {
    if Reserved(s.rows, key, endpoint, hash, cfg, s.now).1 == Ok(Granted) {
      GrantTakes(s, key, endpoint, hash, cfg);
    }
  }

  lemma KeyStays(s: State, l: Label, cfg: Config, key: string)
    requires Enabled(s, l) && key in s.rows
    ensures key in Apply(s, l, cfg).rows
  {
  }

  lemma OneMoreGrant(s: State, s': State, cfg: Config, key: string)
    requires RowsOk(s, cfg) && FinalsOk(s.finals) && Next(s, s', cfg) && InTime(s, cfg, key)
    ensures key in s.rows ==> GrantsFor(s'.grants, key) == GrantsFor(s.grants, key) && key in s'.rows
    ensures key !in s.rows ==> |GrantsFor(s'.grants, key)| <= |GrantsFor(s.grants, key)| + 1
    ensures key !in s'.rows ==> GrantsFor(s'.grants, key) == GrantsFor(s.grants, key)
  {
    var l :| IsStep(s, l, s', cfg);
    GrantsForStep(s, l, cfg, key);
    if key in s.rows {
      KeyStays(s, l, cfg, key);
      if l.Arrive? {
        InTimeRefuses(s, key, l.endpoint, l.hash, cfg);
      }
    }
  }

  // ---- one whole request ----

  /** The answer and the stored row of a failed execution: the ServiceError's own status and members in both, or
      500 and the two bodies of an unexpected error. */
  predicate Answered(x: EE.Thrown, trace: string, outer: string, builtAt: Time, toldAt: Time, answer: Answer,
                     stored: Fields, storedCode: Option<int>)
    requires answer.Business?
  {
    match x
    case Typed(_, _, _, statusCode, _, _) =>
      && answer.code == statusCode && storedCode == Some(statusCode)
      && EE.Reports(answer.payload, x, trace, toldAt) && EE.Reports(stored, x, trace, builtAt)
    case Untyped(text) =>
      && answer.code == 500 && storedCode == Some(500)
      && EE.ReportsUnexpected(answer.payload, "unhandled_exception", Some(text), outer, toldAt)
      && EE.ReportsUnexpected(stored, "credit_evaluate", None, trace, builtAt)
  }

  /** The persisting half of credit_evaluate, once execution has ended: the evaluation is stored and answered, or
      the failure with the ServiceError's own status, 500 for anything else. When the envelope to persist fails
      its schema nothing is persisted, and a row that is no longer pending refuses. */
  method Settle(repo: GatewayIdempotencyRepository, key: string, trace: string, outer: string, execution: Execution,
                builtAt: Time, persistAt: Time, toldAt: Time) returns (answer: Answer)
    modifies repo
    ensures var o := OutcomeOf(execution, trace, builtAt);
      if o.None? then repo.rows == old(repo.rows) && answer == Refused(EE.UNEXPECTED)
      else if Open(old(repo.rows), key)
      then repo.rows == old(repo.rows)[key := Finalized(old(repo.rows)[key], o.value, persistAt)] && answer == FirstAnswer(o.value, outer, toldAt)
      else repo.rows == old(repo.rows) && answer == Refused(PERSIST_FAILED)
    ensures Open(old(repo.rows), key) ==> key in repo.rows
    ensures Open(old(repo.rows), key) ==> SettledAs(execution, trace, outer, builtAt, toldAt, answer, repo.rows[key])
  {
    match execution {
      case Threw(error) =>
        EE.StorableIff(error, trace, builtAt);
        EE.BodiesReport(error, trace, outer, builtAt);
        EE.BodiesReport(error, trace, outer, toldAt);
        var envelope := EE.PersistedEnvelope(error, trace, builtAt);
        if !envelope.Valid() {
          return Refused(EE.UNEXPECTED);
        }
        var persisted := repo.PersistFailure(key, EE.Dump(envelope), EE.StatusOf(error), persistAt);
        if persisted.Err? {
          return Refused(persisted.error);
        }
        return Business(EE.Dump(EE.ToldEnvelope(error, trace, outer, toldAt)), EE.StatusOf(error));
      case Produced(evaluation) =>
        var persisted := repo.PersistResponse(key, Serialize(evaluation), 200, persistAt);
        return if persisted.Err? then Refused(persisted.error) else Response(evaluation);
    }
  }

  /** The answer to the caller whose execution settles a pending key, and the row it leaves. */
  predicate SettledAs(execution: Execution, trace: string, outer: string, builtAt: Time, toldAt: Time, answer: Answer, row: KeyRow) {
    match execution
    case Produced(evaluation) =>
      && answer == Response(evaluation) && row.status.Completed? && row.responseCode == Some(200)
      && row.response == Some(Obj(Serialize(evaluation)))
    case Threw(x) =>
      if EE.Storable(x, trace) then
        && answer.Business? && row.status.Failed? && row.error.Some? && row.error.value.Obj?
        && Answered(x, trace, outer, builtAt, toldAt, answer, row.error.value.fields, row.errorCode)
      else row.status.Pending? && answer == Refused(EE.UNEXPECTED)
  }

  /** credit_evaluate, while others do to the table what they will during the execution: it is answered from
      the row, or executes and then either settles the row and answers with what execution came to, or
      finds the row no longer pending and is refused. */
  method CreditEvaluate(repo: GatewayIdempotencyRepository, key: string, endpoint: string, hash: string, trace: string,
                        outer: string, execution: Execution, others: Keys -> Keys, reserveAt: Time, builtAt: Time,
                        persistAt: Time, toldAt: Time) returns (answer: Answer)
    modifies repo
    ensures var (rows, r) := Reserved(old(repo.rows), key, endpoint, hash, repo.cfg, reserveAt);
      if r != Ok(Granted) then repo.rows == rows && answer == Told(r)
      else
        var interim, o := others(rows), OutcomeOf(execution, trace, builtAt);
        if o.None? then repo.rows == interim && answer == Refused(EE.UNEXPECTED)
        else if Open(interim, key)
        then repo.rows == interim[key := Finalized(interim[key], o.value, persistAt)] && answer == FirstAnswer(o.value, outer, toldAt)
        else repo.rows == interim && answer == Refused(PERSIST_FAILED)
    ensures var (rows, r) := Reserved(old(repo.rows), key, endpoint, hash, repo.cfg, reserveAt);
      r == Ok(Granted) && Open(others(rows), key) ==>
        key in repo.rows && SettledAs(execution, trace, outer, builtAt, toldAt, answer, repo.rows[key])
  {
    var reservation := repo.ReserveRequest(key, endpoint, hash, reserveAt);
    match reservation
    case Err(error) => return Refused(error);
    case Ok(ReplayPayload(payload)) =>
      var evaluation := Deserialize(payload);
      return if evaluation.Ok? then Response(evaluation.value) else Refused(evaluation.error);
    case Ok(ReplayError(payload, code)) =>
      return Business(payload, if code == 0 then 500 else code);
    case Ok(Granted) =>
      repo.rows := others(repo.rows);
      answer := Settle(repo, key, trace, outer, execution, builtAt, persistAt, toldAt);
  }

  /** With nobody else at the key, the same as steps of the protocol; a granted caller whose outcome can be
      stored then always finalizes. */
  lemma RequestIsSteps(s: State, caller: nat, key: string, endpoint: string, hash: string, trace: string, outer: string,
                       x: Execution, at: Time, toldAt: Time, elapsed: nat, cfg: Config)
    requires caller !in s.callers && (if x.Produced? then EvaluationOk(x.evaluation) else EE.Storable(x.error, trace))
    requires Reserved(s.rows, key, endpoint, hash, cfg, s.now).1 == Ok(Granted)
    ensures OutcomeOf(x, trace, at).Some?
    ensures var rows := Reserved(s.rows, key, endpoint, hash, cfg, s.now).0;
      var o := OutcomeOf(x, trace, at).value;
      var s1 := Apply(s, Arrive(caller, key, endpoint, hash, trace), cfg);
      && Enabled(s1, Evaluate(caller, x, at))
      && var s2 := Apply(Apply(s1, Evaluate(caller, x, at), cfg), Tick(elapsed), cfg);
      && Enabled(s2, Persist(caller, true, outer, toldAt))
      && var s' := Apply(s2, Persist(caller, true, outer, toldAt), cfg);
      && key in rows && s'.rows == rows[key := Finalized(rows[key], o, s.now + elapsed)]
      && s'.finals == s.finals + [Final(key, o)]
      && s'.replies == s.replies + [Reply(key, hash, First(outer, toldAt), FirstAnswer(o, outer, toldAt))]
      && s'.callers == s.callers && s'.now == s.now + elapsed
  {
    var s1 := Apply(s, Arrive(caller, key, endpoint, hash, trace), cfg);
    assert s1.callers - {caller} == s.callers;
  }

  /** An execution that fails with what cannot be stored, such as anything under a trace id of fewer than eight
      characters, leaves its key pending: until the window is over the same request is refused. */
  lemma UnpersistedFailureBlocks(s: State, caller: nat, x: EE.Thrown, at: Time, endpoint: string, later: nat, cfg: Config)
    requires Inv(s, cfg) && Enabled(s, Evaluate(caller, Threw(x), at)) && !EE.Storable(x, s.callers[caller].trace)
    requires Open(s.rows, s.callers[caller].key)
    ensures var s' := Apply(s, Evaluate(caller, Threw(x), at), cfg);
      var c := s.callers[caller];
      var row := s.rows[c.key];
      && s'.rows == s.rows && s'.replies == s.replies + [Reply(c.key, c.hash, First(c.trace, at), Refused(EE.UNEXPECTED))]
      && row.lockedAt.Some?
      && (row.endpoint == endpoint && later < row.lockedAt.value + cfg.Window() ==>
            Reserved(s'.rows, c.key, endpoint, c.hash, cfg, later) == (s.rows, Err(IN_PROGRESS)))
  {
    var c := s.callers[caller];
    assert CallerOk(s, c) && RowOk(s.rows[c.key], c.key, s.finals, cfg);
  }
}
