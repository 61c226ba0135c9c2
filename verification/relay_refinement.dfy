/** Each relay_once and each flush_outbox is a run of the lease protocol: alone on the table, and also when
    others claim, mark, crash and write between any two of its statements, claims lost to them included. */
module RelayRefinement {
  import opened Base
  import opened Envelopes
  import opened Outbox
  import opened OutboxRelay
  import opened LeaseProtocol

  ghost predicate IsPath(path: seq<State>, s: State, s': State, max: nat) {
    && |path| >= 1 && path[0] == s && path[|path| - 1] == s'
    && forall i | 0 <= i < |path| - 1 :: Next(path[i], path[i + 1], max)
  }

  ghost predicate Reaches(s: State, s': State, max: nat) {
    exists path :: IsPath(path, s, s', max)
  }

  lemma ReachesSelf(s: State, max: nat)
    ensures Reaches(s, s, max)
  {
    assert IsPath([s], s, s, max);
  }

  lemma ReachesAfter(s: State, l: Label, s': State, max: nat)
    requires Enabled(s, l) && Reaches(Apply(s, l, max), s', max)
    ensures Reaches(s, s', max)
  {
    var path :| IsPath(path, Apply(s, l, max), s', max);
    assert IsStep(s, l, path[0], max);
    assert IsPath([s] + path, s, s', max);
  }

  function ClaimOf(c: ClaimedEvent): Claim {
    Claim(c.event.eventId, c.claimToken)
  }

  /** The worker about to publish the k-th event of its batch still remembers the rest unpublished. */
  ghost predicate Working(s: State, batch: seq<ClaimedEvent>, k: nat, env: Env) {
    && k <= |batch| && Holding(s.table, batch, k)
    && (forall i | k <= i < |batch| :: ClaimOf(batch[i]) in s.held && s.held[ClaimOf(batch[i])].Unpublished?)
    && s.now <= env.now(k)
    && (forall i: nat :: env.now(i) <= env.now(i + 1))
  }

  /** The state after the k-th event was published and marked. */
  function AfterAccepted(s: State, batch: seq<ClaimedEvent>, k: nat, max: nat, env: Env): State
    requires k < |batch| && s.now <= env.now(k + 1) && ClaimOf(batch[k]) in s.held
  {
    var c := ClaimOf(batch[k]);
    var s1 := Apply(s, Tick(env.now(k + 1) - s.now), max);
    Apply(Apply(s1, Publish(c, true, true), max), Complete(c, env.wall(k + 1)), max)
  }

  lemma AcceptedStep(s: State, batch: seq<ClaimedEvent>, k: nat, max: nat, env: Env)
    requires Working(s, batch, k, env) && k < |batch|
    ensures s.now <= env.now(k + 1)
    ensures var s' := AfterAccepted(s, batch, k, max, env);
      && Working(s', batch, k + 1, env)
      && s'.table == MarkedPublished(s.table, batch[k].event.eventId, batch[k].claimToken, env.wall(k + 1), env.now(k + 1))
      && forall end :: Reaches(s', end, max) ==> Reaches(s, end, max)
  {
    var c := ClaimOf(batch[k]);
    assert env.now(k) <= env.now(k + 1);
    var s1 := Apply(s, Tick(env.now(k + 1) - s.now), max);
    var s2 := Apply(s1, Publish(c, true, true), max);
    var s' := Apply(s2, Complete(c, env.wall(k + 1)), max);
    forall end | Reaches(s', end, max) ensures Reaches(s, end, max) {
      ReachesAfter(s2, Complete(c, env.wall(k + 1)), end, max);
      ReachesAfter(s1, Publish(c, true, true), end, max);
      ReachesAfter(s, Tick(env.now(k + 1) - s.now), end, max);
    }
  }

  lemma RaisedSteps(s: State, batch: seq<ClaimedEvent>, k: nat, max: nat, env: Env) returns (s': State)
    requires Working(s, batch, k, env) && k < |batch| && !env.answer(k).Accepted?
    ensures Reaches(s, s', max)
    ensures s'.table == MarkedFailed(s.table, batch[k].event.eventId, batch[k].claimToken,
                                     Failure(env.answer(k)).0, max, env.now(k + 1))
  {
    var c, text := ClaimOf(batch[k]), Failure(env.answer(k)).0;
    assert env.now(k) <= env.now(k + 1);
    var s1 := Apply(s, Tick(env.now(k + 1) - s.now), max);
    var s2 := Apply(s1, Publish(c, false, false), max);
    s' := Apply(s2, Fail(c, text), max);
    ReachesSelf(s', max);
    ReachesAfter(s2, Fail(c, text), s', max);
    ReachesAfter(s1, Publish(c, false, false), s', max);
    ReachesAfter(s, Tick(env.now(k + 1) - s.now), s', max);
  }

  lemma {:induction false} LoopIsPath(s: State, batch: seq<ClaimedEvent>, k: nat, published: nat, max: nat, env: Env)
    returns (s': State)
    requires Working(s, batch, k, env)
    ensures Reaches(s, s', max)
    ensures s'.table == Relayed(s.table, batch, k, published, max, env).0
    decreases |batch| - k
  {
    if k == |batch| {
      s' := s;
      ReachesSelf(s, max);
    } else if env.answer(k).Accepted? {
      AcceptedStep(s, batch, k, max, env);
      s' := LoopIsPath(AfterAccepted(s, batch, k, max, env), batch, k + 1, published + 1, max, env);
    } else {
      s' := RaisedSteps(s, batch, k, max, env);
    }
  }

  lemma {:induction false} FlushIsPath(s: State, batch: seq<ClaimedEvent>, k: nat, published: nat, max: nat, env: Env)
    returns (s': State)
    requires Working(s, batch, k, env)
    ensures Reaches(s, s', max)
    ensures s'.table == Flushed(s.table, batch, k, published, env).0
    decreases |batch| - k
  {
    if k == |batch| || !env.answer(k).Accepted? {
      s' := s;
      ReachesSelf(s, max);
    } else {
      AcceptedStep(s, batch, k, max, env);
      s' := FlushIsPath(AfterAccepted(s, batch, k, max, env), batch, k + 1, published + 1, max, env);
    }
  }

  lemma BatchClaims(t: Table, chosen: set<Id>, token: Id, batch: seq<ClaimedEvent>)
    requires IsBatchOf(t, chosen, token, batch)
    ensures forall i | 0 <= i < |batch| :: ClaimOf(batch[i]).id in chosen && ClaimOf(batch[i]).token == token
  {
    forall i | 0 <= i < |batch| ensures ClaimOf(batch[i]).id in chosen && ClaimOf(batch[i]).token == token {
      assert IsDecodingOf(t, token, batch[i].event.eventId, batch[i]);
    }
  }

  /** The claim that opens either loop, as protocol steps. */
  function AfterClaim(s: State, l: Label, max: nat, now: Time): State
    requires s.now <= now && l.ClaimBatch?
  {
    Apply(Apply(s, Tick(now - s.now), max), l, max)
  }

  lemma ClaimPath(s: State, l: Label, s': State, max: nat, now: Time)
    requires s.now <= now && l.ClaimBatch? && l.token !in s.tokens && s' == AfterClaim(s, l, max, now)
    requires IsClaimBatch(s.table, l.chosen, l.limit, l.locked, now)
    ensures forall end :: Reaches(s', end, max) ==> Reaches(s, end, max)
    ensures s'.table == Claimed(s.table, l.chosen, l.token, l.lease, now)
  {
    var s1 := Apply(s, Tick(now - s.now), max);
    forall end | Reaches(s', end, max) ensures Reaches(s, end, max) {
      ReachesAfter(s1, l, end, max);
      ReachesAfter(s, Tick(now - s.now), end, max);
    }
  }

  lemma ClaimWorking(s: State, l: Label, s': State, batch: seq<ClaimedEvent>, max: nat, env: Env)
    requires s.now <= env.now(0) && (forall i: nat :: env.now(i) <= env.now(i + 1)) && l.ClaimBatch?
    requires s' == AfterClaim(s, l, max, env.now(0))
    requires IsClaimBatch(s.table, l.chosen, l.limit, l.locked, env.now(0))
    requires IsBatchOf(Claimed(s.table, l.chosen, l.token, l.lease, env.now(0)), l.chosen, l.token, batch)
    ensures Working(s', batch, 0, env)
  {
    var claimed := Claimed(s.table, l.chosen, l.token, l.lease, env.now(0));
    ClaimedIsHeld(s.table, l.chosen, l.limit, l.locked, batch, l.token, l.lease, env.now(0));
    BatchClaims(claimed, l.chosen, l.token, batch);
    HeldAfterClaim(s, l, batch, max, env);
  }

  lemma HeldAfterClaim(s: State, l: Label, batch: seq<ClaimedEvent>, max: nat, env: Env)
    requires s.now <= env.now(0) && (forall i: nat :: env.now(i) <= env.now(i + 1)) && l.ClaimBatch?
    requires forall i | 0 <= i < |batch| :: ClaimOf(batch[i]).id in l.chosen && ClaimOf(batch[i]).token == l.token
    requires Holding(Claimed(s.table, l.chosen, l.token, l.lease, env.now(0)), batch, 0)
    ensures Working(AfterClaim(s, l, max, env.now(0)), batch, 0, env)
  {
  }

  lemma ClaimSteps(s: State, l: Label, batch: seq<ClaimedEvent>, max: nat, env: Env) returns (s': State)
    requires s.now <= env.now(0) && (forall i: nat :: env.now(i) <= env.now(i + 1))
    requires l.ClaimBatch? && l.token !in s.tokens
    requires IsClaimBatch(s.table, l.chosen, l.limit, l.locked, env.now(0))
    requires IsBatchOf(Claimed(s.table, l.chosen, l.token, l.lease, env.now(0)), l.chosen, l.token, batch)
    ensures Working(s', batch, 0, env)
    ensures s'.table == Claimed(s.table, l.chosen, l.token, l.lease, env.now(0))
    ensures forall end :: Reaches(s', end, max) ==> Reaches(s, end, max)
  {
    s' := AfterClaim(s, l, max, env.now(0));
    ClaimPath(s, l, s', max, env.now(0));
    ClaimWorking(s, l, s', batch, max, env);
  }

  /** relay_once refines the protocol: its effect on the table is the effect of some run of steps. */
  lemma CycleIsRun(s: State, t': Table, end: End, chosen: set<Id>, batch: seq<ClaimedEvent>,
                   locked: set<Id>, token: Id, cfg: Config, env: Env) returns (s': State)
    requires s.now <= env.now(0) && token !in s.tokens && (forall i: nat :: env.now(i) <= env.now(i + 1))
    requires IsCycle(s.table, t', end, chosen, batch, locked, token, cfg, env)
    ensures Reaches(s, s', cfg.maxAttempts) && s'.table == t'
  {
    var l := ClaimBatch(chosen, cfg.batchSize, locked, token, cfg.leaseSeconds);
    var s1 := ClaimSteps(s, l, batch, cfg.maxAttempts, env);
    s' := LoopIsPath(s1, batch, 0, 0, cfg.maxAttempts, env);
  }

  /** flush_outbox refines the protocol too; where a publish raises, it ends as a crash would. */
  lemma FlushIsRun(s: State, t': Table, end: End, chosen: set<Id>, batch: seq<ClaimedEvent>,
                   locked: set<Id>, token: Id, lease: nat, max: nat, env: Env) returns (s': State)
    requires s.now <= env.now(0) && token !in s.tokens && (forall i: nat :: env.now(i) <= env.now(i + 1))
    requires IsFlush(s.table, t', end, chosen, batch, locked, token, lease, env)
    ensures Reaches(s, s', max) && s'.table == t'
  {
    var l := ClaimBatch(chosen, 100, locked, token, lease);
    var s1 := ClaimSteps(s, l, batch, max, env);
    s' := FlushIsPath(s1, batch, 0, 0, max, env);
  }

  // ---- with others at work between the statements ----

  /** A step of somebody else: it does not act for the claims of this token. */
  predicate Foreign(l: Label, token: Id) {
    match l
    case Publish(c, _, _) => c.token != token
    case Complete(c, _) => c.token != token
    case Fail(c, _) => c.token != token
    case Crash(lost) => forall c | c in lost :: c.token != token
    case _ => true
  }

  function Interfered(s: State, others: seq<Label>, max: nat): State
    decreases |others|
  {
    if others == [] then s else Interfered(Apply(s, others[0], max), others[1..], max)
  }

  ghost predicate OthersMay(s: State, others: seq<Label>, token: Id, max: nat)
    decreases |others|
  {
    others == []
    || (Enabled(s, others[0]) && Foreign(others[0], token) && OthersMay(Apply(s, others[0], max), others[1..], token, max))
  }

  /** What the worker of the token remembers is untouched, and the token stays used. */
  ghost predicate Untouched(s: State, s': State, token: Id) {
    && token in s.tokens && token in s'.tokens
    && forall c: Claim | c.token == token :: (c in s.held <==> c in s'.held) && (c in s.held ==> s'.held[c] == s.held[c])
  }

  lemma ForeignStep(s: State, l: Label, token: Id, max: nat)
    requires Enabled(s, l) && Foreign(l, token) && token in s.tokens
    ensures Untouched(s, Apply(s, l, max), token)
  {
  }

  lemma UntouchedTwice(a: State, b: State, c: State, token: Id)
    requires Untouched(a, b, token) && Untouched(b, c, token)
    ensures Untouched(a, c, token)
  {
  }

  lemma {:induction false} OthersPath(s: State, others: seq<Label>, token: Id, max: nat)
    requires OthersMay(s, others, token, max) && token in s.tokens
    ensures Untouched(s, Interfered(s, others, max), token)
    ensures forall end :: Reaches(Interfered(s, others, max), end, max) ==> Reaches(s, end, max)
    decreases |others|
  {
    if others != [] {
      var s1 := Apply(s, others[0], max);
      ForeignStep(s, others[0], token, max);
      OthersPath(s1, others[1..], token, max);
      UntouchedTwice(s, s1, Interfered(s, others, max), token);
      forall end | Reaches(Interfered(s, others, max), end, max) ensures Reaches(s, end, max) {
        ReachesAfter(s, others[0], end, max);
      }
    }
  }

  /** How one publish ends, by the kind of loop: relay_once marks the row failed, flush_outbox leaves it. */
  function AfterRaise(s: State, c: Claim, a: Answer, marks: bool, max: nat): (State, End)
    requires !a.Accepted?
  {
    if !marks then (s, Unhandled(a))
    else (Apply(s, Fail(c, Failure(a).0), max), Raised(if HoldsClaim(s.table, c.id, c.token) then Failure(a).1 else CLAIM_LOST))
  }

  /** The k-th publish, when the loop meets these answers; one that raises may have delivered. */
  function PublishOf(batch: seq<ClaimedEvent>, k: nat, env: Env, delivered: nat -> bool): Label
    requires k < |batch|
  {
    Publish(ClaimOf(batch[k]), env.answer(k).Accepted?, env.answer(k).Accepted? || delivered(k))
  }

  /** The state in which the k-th event is published, the one after the publish, and the one in which its row
      is marked: others(2k) happened before the publish and others(2k + 1) before the mark. */
  function BeforePublish(s: State, k: nat, max: nat, others: nat -> seq<Label>): State {
    Interfered(s, others(2 * k), max)
  }

  function BeforeMark(s: State, l: Label, k: nat, max: nat, others: nat -> seq<Label>): State {
    Interfered(Apply(BeforePublish(s, k, max, others), l, max), others(2 * k + 1), max)
  }

  /** The loop from position k on with others in between, and how it ends. */
  function Interleaved(s: State, batch: seq<ClaimedEvent>, k: nat, published: nat, marks: bool, max: nat, env: Env,
                       delivered: nat -> bool, others: nat -> seq<Label>): (State, End)
    requires k <= |batch|
    decreases |batch| - k
  {
    if k == |batch| then (s, Returned(published))
    else
      var c, a := ClaimOf(batch[k]), env.answer(k);
      var s1 := BeforeMark(s, PublishOf(batch, k, env, delivered), k, max, others);
      if !a.Accepted? then AfterRaise(s1, c, a, marks, max)
      else if !HoldsClaim(s1.table, c.id, c.token) then (Apply(s1, Complete(c, env.wall(k + 1)), max), Raised(CLAIM_LOST))
      else Interleaved(Apply(s1, Complete(c, env.wall(k + 1)), max), batch, k + 1, published + 1, marks, max, env, delivered, others)
  }

  /** Everything the others do is allowed when they do it. */
  ghost predicate Undisputed(s: State, batch: seq<ClaimedEvent>, k: nat, token: Id, max: nat, env: Env,
                             delivered: nat -> bool, others: nat -> seq<Label>)
    requires k <= |batch|
    decreases |batch| - k
  {
    k == |batch| ||
    var c, a, l := ClaimOf(batch[k]), env.answer(k), PublishOf(batch, k, env, delivered);
    && OthersMay(s, others(2 * k), token, max)
    && OthersMay(Apply(BeforePublish(s, k, max, others), l, max), others(2 * k + 1), token, max)
    && var s1 := BeforeMark(s, l, k, max, others);
       a.Accepted? && HoldsClaim(s1.table, c.id, c.token) ==>
         Undisputed(Apply(s1, Complete(c, env.wall(k + 1)), max), batch, k + 1, token, max, env, delivered, others)
  }

  /** The worker remembers the rest of its batch unpublished. */
  ghost predicate Remembers(s: State, batch: seq<ClaimedEvent>, k: nat, token: Id) {
    && token in s.tokens
    && (forall i | 0 <= i < |batch| :: batch[i].claimToken == token)
    && (forall i, j | 0 <= i < j < |batch| :: batch[i].event.eventId != batch[j].event.eventId)
    && (forall i | k <= i < |batch| :: ClaimOf(batch[i]) in s.held && s.held[ClaimOf(batch[i])].Unpublished?)
  }

  /** One publish and what others did around it are steps of the protocol. */
  lemma PublishPath(s: State, batch: seq<ClaimedEvent>, k: nat, token: Id, l: Label, max: nat, others: nat -> seq<Label>)
    requires k < |batch| && Remembers(s, batch, k, token) && OthersMay(s, others(2 * k), token, max)
    requires l.Publish? && l.c == ClaimOf(batch[k]) && (l.accepted ==> l.delivered)
    requires OthersMay(Apply(BeforePublish(s, k, max, others), l, max), others(2 * k + 1), token, max)
    ensures var s1 := BeforeMark(s, l, k, max, others);
      && Remembers(s1, batch, k + 1, token) && ClaimOf(batch[k]) in s1.held
      && s1.held[ClaimOf(batch[k])] == (if l.accepted then PublishReturned else PublishRaised)
      && forall end :: Reaches(s1, end, max) ==> Reaches(s, end, max)
  {
    var before := BeforePublish(s, k, max, others);
    OthersPath(s, others(2 * k), token, max);
    StillRemembers(s, before, batch, k, token);
    var after := Apply(before, l, max);
    assert Remembers(after, batch, k + 1, token);
    OthersPath(after, others(2 * k + 1), token, max);
    var s1 := BeforeMark(s, l, k, max, others);
    StillRemembers(after, s1, batch, k + 1, token);
    forall end | Reaches(s1, end, max) ensures Reaches(s, end, max) {
      ReachesAfter(before, l, end, max);
    }
  }

  lemma StillRemembers(s: State, s': State, batch: seq<ClaimedEvent>, k: nat, token: Id)
    requires Remembers(s, batch, k, token) && Untouched(s, s', token)
    ensures Remembers(s', batch, k, token)
  {
  }

  lemma MarkedStep(s: State, batch: seq<ClaimedEvent>, k: nat, token: Id, at: Time, max: nat)
    requires k < |batch| && Remembers(s, batch, k + 1, token)
    requires ClaimOf(batch[k]) in s.held && s.held[ClaimOf(batch[k])].PublishReturned?
    ensures var s' := Apply(s, Complete(ClaimOf(batch[k]), at), max);
      && Remembers(s', batch, k + 1, token)
      && s'.table == MarkedPublished(s.table, batch[k].event.eventId, batch[k].claimToken, at, s.now)
      && forall end :: Reaches(s', end, max) ==> Reaches(s, end, max)
  {
    var l := Complete(ClaimOf(batch[k]), at);
    forall end | Reaches(Apply(s, l, max), end, max) ensures Reaches(s, end, max) {
      ReachesAfter(s, l, end, max);
    }
  }

  lemma RaisePath(s: State, c: Claim, a: Answer, marks: bool, max: nat)
    requires !a.Accepted? && c in s.held && s.held[c].PublishRaised?
    ensures Reaches(s, AfterRaise(s, c, a, marks, max).0, max)
  {
    var s' := AfterRaise(s, c, a, marks, max).0;
    ReachesSelf(s', max);
    if marks {
      ReachesAfter(s, Fail(c, Failure(a).0), s', max);
    }
  }

  /** Whatever others do between its statements, the rest of a worker's loop is steps of the protocol, and so
      is all that happens meanwhile; a mark that finds its claim lost is one of them. */
  lemma {:induction false} InterleavedIsRun(s: State, batch: seq<ClaimedEvent>, k: nat, published: nat, token: Id,
                                            marks: bool, max: nat, env: Env, delivered: nat -> bool,
                                            others: nat -> seq<Label>)
    requires k <= |batch| && Remembers(s, batch, k, token) && Undisputed(s, batch, k, token, max, env, delivered, others)
    ensures Reaches(s, Interleaved(s, batch, k, published, marks, max, env, delivered, others).0, max)
    decreases |batch| - k
  {
    if k == |batch| {
      ReachesSelf(s, max);
    } else {
      var c, a, l := ClaimOf(batch[k]), env.answer(k), PublishOf(batch, k, env, delivered);
      PublishPath(s, batch, k, token, l, max, others);
      var s1 := BeforeMark(s, l, k, max, others);
      if !a.Accepted? {
        RaisePath(s1, c, a, marks, max);
      } else {
        MarkedStep(s1, batch, k, token, env.wall(k + 1), max);
        var s2 := Apply(s1, Complete(c, env.wall(k + 1)), max);
        if HoldsClaim(s1.table, c.id, c.token) {
          InterleavedIsRun(s2, batch, k + 1, published + 1, token, marks, max, env, delivered, others);
        } else {
          ReachesSelf(s2, max);
        }
      }
    }
  }

  lemma ClaimRemembers(s: State, l: Label, batch: seq<ClaimedEvent>, max: nat)
    requires l.ClaimBatch? && IsBatchOf(Claimed(s.table, l.chosen, l.token, l.lease, s.now), l.chosen, l.token, batch)
    ensures Remembers(Apply(s, l, max), batch, 0, l.token)
  {
    BatchClaims(Claimed(s.table, l.chosen, l.token, l.lease, s.now), l.chosen, l.token, batch);
    BatchRemembered(s, l, batch, max);
  }

  lemma BatchRemembered(s: State, l: Label, batch: seq<ClaimedEvent>, max: nat)
    requires l.ClaimBatch?
    requires forall i | 0 <= i < |batch| :: ClaimOf(batch[i]).id in l.chosen && ClaimOf(batch[i]).token == l.token
    requires forall i, j | 0 <= i < j < |batch| :: batch[i].event.eventId != batch[j].event.eventId
    ensures Remembers(Apply(s, l, max), batch, 0, l.token)
  {
  }

  /** A whole call with others at work from its claim on: both relay_once and flush_outbox. */
  lemma InterleavedCallIsRun(s: State, l: Label, s1: State, batch: seq<ClaimedEvent>, marks: bool, max: nat, env: Env,
                             delivered: nat -> bool, others: nat -> seq<Label>)
    requires l.ClaimBatch? && Enabled(s, l) && s1 == Apply(s, l, max)
    requires IsBatchOf(Claimed(s.table, l.chosen, l.token, l.lease, s.now), l.chosen, l.token, batch)
    requires Undisputed(s1, batch, 0, l.token, max, env, delivered, others)
    ensures Reaches(s, Interleaved(s1, batch, 0, 0, marks, max, env, delivered, others).0, max)
  {
    ClaimRemembers(s, l, batch, max);
    InterleavedIsRun(s1, batch, 0, 0, l.token, marks, max, env, delivered, others);
    ReachesAfter(s, l, Interleaved(s1, batch, 0, 0, marks, max, env, delivered, others).0, max);
  }

  /** Nobody else is at work but the clock, which moves before each mark. */
  ghost predicate Alone(env: Env, others: nat -> seq<Label>) {
    && (forall i: nat :: env.now(i) <= env.now(i + 1))
    && (forall i: nat :: others(2 * i) == [] && others(2 * i + 1) == [Tick(env.now(i + 1) - env.now(i))])
  }

  /** With nobody else at work the interleaved loop does to the table what relay_once does, or flush_outbox, and
      ends as it does, whatever its raising publishes delivered. */
  lemma {:induction false} AloneIsTheLoop(s: State, batch: seq<ClaimedEvent>, k: nat, published: nat, marks: bool, max: nat,
                                          env: Env, delivered: nat -> bool, others: nat -> seq<Label>)
    requires k <= |batch| && Holding(s.table, batch, k) && Alone(env, others) && s.now == env.now(k)
    ensures var (s', end) := Interleaved(s, batch, k, published, marks, max, env, delivered, others);
      (s'.table, end) == if marks then Relayed(s.table, batch, k, published, max, env) else Flushed(s.table, batch, k, published, env)
    decreases |batch| - k
  {
    if k < |batch| {
      var c, l := ClaimOf(batch[k]), PublishOf(batch, k, env, delivered);
      AloneBeforeMark(s, l, k, max, env, others);
      if env.answer(k).Accepted? {
        var s2 := Apply(BeforeMark(s, l, k, max, others), Complete(c, env.wall(k + 1)), max);
        assert Holding(s2.table, batch, k + 1);
        AloneIsTheLoop(s2, batch, k + 1, published + 1, marks, max, env, delivered, others);
      }
    }
  }

  lemma AloneBeforeMark(s: State, l: Label, k: nat, max: nat, env: Env, others: nat -> seq<Label>)
    requires l.Publish? && Alone(env, others) && s.now == env.now(k)
    ensures BeforeMark(s, l, k, max, others).table == s.table
    ensures BeforeMark(s, l, k, max, others).now == env.now(k + 1)
  {
    var after := Apply(BeforePublish(s, k, max, others), l, max);
    assert env.now(k) <= env.now(k + 1);
    assert others(2 * k) == [] && others(2 * k + 1) == [Tick(env.now(k + 1) - env.now(k))];
    var tick := Tick(env.now(k + 1) - env.now(k));
    assert [tick][1..] == [];
    assert Interfered(after, [tick], max) == Interfered(Apply(after, tick, max), [], max);
  }
}
