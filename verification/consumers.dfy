/** The consuming services' repositories: one transaction takes an event into the inbox, the history and the
    outbox, or leaves everything as it was; and what in-process retries of a handler come to. */
module Consumers {
  import opened Base
  import opened Json
  import opened Envelopes
  import opened Outbox
  import opened Tracing
  import opened Pipeline
  import PipelineProofs
  import opened Resilience
  import DL = DeadLetters

  type Fields = map<string, Json>

  /** What a service's own computation makes of an event's payload. */
  type Domain = Fields -> Attempt<Fields>

  /** The same node at a later time of its database's clock. */
  function At(n: Node, now: Time): Node {
    n.(relay := n.relay.(now := now))
  }

  function PayloadOf(a: Attempt<Fields>): Fields {
    if a.Returns? then a.value else map[]
  }

  /** The event is new to a service that emits, and so is the id of what it emits. */
  predicate FirstEmits(s: Service, n: Node, e: Envelope, newId: Id) {
    !s.Audit? && e.eventId !in n.inbox && Valid(e) && LongEnough(newId) && newId !in n.relay.table
  }

  class ConsumerRepository {
    const service: Service
    var inbox: map<Id, Envelope>
    var history: seq<HistoryRow>
    var outbox: OutboxTable

    constructor (service: Service)
      ensures this.service == service && inbox == map[] && history == []
      ensures fresh(outbox) && outbox.rows == map[]
    {
      this.service := service;
      inbox, history := map[], [];
      outbox := new OutboxTable();
    }

    /** The database holds what the node holds, at the node's clock. */
    ghost predicate Represents(n: Node)
      reads this, outbox
    {
      inbox == n.inbox && history == n.history && outbox.rows == n.relay.table
    }

    /** The outbox row under the new id reads as the service's event on e with this payload. */
    ghost predicate Emitted(e: Envelope, newId: Id, at: string, payload: Fields)
      reads this, outbox
    {
      && newId in outbox.rows
      && ReadsAs(outbox.rows[newId].payload,
                 Envelope(Emits(service), newId, e.traceId, e.correlationId,
                          if Blank(e.eventId.text) then None else Some(e.eventId), Producer(service), at, payload))
    }

    /** INSERT ... ON CONFLICT (event_id) DO NOTHING, and whether it inserted. */
    method RecordInboxEvent(e: Envelope) returns (firstSeen: bool)
      modifies this`inbox
      ensures firstSeen == (e.eventId !in old(inbox))
      ensures inbox == if firstSeen then old(inbox)[e.eventId := e] else old(inbox)
    {
      firstSeen := e.eventId !in inbox;
      if firstSeen {
        inbox := inbox[e.eventId := e];
      }
    }

    /** materialize_from_application and its namesakes: a history row, then the envelope in the outbox. The
        decision service passes no source id and takes the cause from its context. */
    method Materialize(payload: map<string, Json>, trace: Id, source: Option<Id>, origin: Origin, newId: Id,
                       at: string, now: Time, context: ContextVars)
      modifies this`history, outbox
      ensures history == old(history) + [HistoryRow(newId, origin)]
      ensures outbox.rows == Enqueued(old(outbox.rows),
        Derived(context.Current(), source, Emits(service), newId, trace, Producer(service), at, payload), now)
    {
      history := history + [HistoryRow(newId, origin)];
      var event := Derived(context.Current(), source, Emits(service), newId, trace, Producer(service), at, payload);
      outbox.Enqueue(event, now);
    }

    /** handle_submitted_event, handle_feature_event, handle_score_event, handle_decision_event and audit's
        handle_event, which the client calls inside the event's context: an event seen before changes nothing;
        when the computation raises, the transaction is rolled back. Audit computes nothing and emits nothing. */
    method HandleEvent(e: Envelope, domain: Domain, newId: Id, at: string, now: Time, context: ContextVars,
                       ghost n: Node, ghost max: nat) returns (r: Attempt<bool>)
      requires !service.Application?
      requires Represents(n) && context.Current() == EventContext(e)
      modifies this`inbox, this`history, outbox
      ensures r.Returns? <==> e.eventId in n.inbox || service.Audit? || domain(e.payload).Returns?
      ensures r.Returns? ==> r.value == (e.eventId !in n.inbox)
      ensures r.Returns? ==> Represents(Handled(service, At(n, now), e, newId, at, PayloadOf(domain(e.payload)), max))
      ensures !r.Returns? ==> Represents(n)
      ensures r.Returns? && FirstEmits(service, n, e, newId) ==>
        domain(e.payload).Returns? && Emitted(e, newId, at, domain(e.payload).value)
      ensures r.RaisesService? ==> domain(e.payload) == RaisesService(r.error)
      ensures r.RaisesOther? ==> domain(e.payload).RaisesOther?
    {
      if FirstEmits(service, n, e, newId) && domain(e.payload).Returns? {
        PipelineProofs.HandledEmits(service, At(n, now), e, newId, at, domain(e.payload).value, max);
      }
      var before := inbox;
      var firstSeen := RecordInboxEvent(e);
      if firstSeen && service.Audit? {
        history := history + [HistoryRow(e.eventId, Consumed(e.eventId))];
      } else if firstSeen {
        var made := domain(e.payload);
        if !made.Returns? {
          inbox := before;
          return if made.RaisesService? then RaisesService(made.error) else RaisesOther;
        }
        Materialize(made.value, e.traceId, if service.Decision? then None else Some(e.eventId),
                    Consumed(e.eventId), newId, at, now, context);
      }
      return Returns(firstSeen);
    }
  }

  // ---- consuming a message ----

  /** Whether a try of the handler runs to its end, or is cut off, by the timeout, a lost connection or any
      other error, after or before its transaction committed. */
  datatype Timing = InTime | Cut(committed: bool, error: Option<ServiceError>)

  function RaisedBy(t: Timing): Attempt<bool>
    requires t.Cut?
  {
    if t.error.Some? then RaisesService(t.error.value) else RaisesOther
  }

  /** One try of the handler, as the world makes it go. */
  datatype Plan = Plan(domain: Domain, newId: Id, at: string, now: Time, timing: Timing)

  /** The database after the k-th try was the first to commit: an event seen first has been answered with what
      that try computed of its payload. */
  ghost predicate ActedAt(repo: ConsumerRepository, n: Node, e: Envelope, plan: nat -> Plan, k: nat, max: nat)
    reads repo, repo.outbox
  {
    var p := plan(k);
    && repo.Represents(Handled(repo.service, At(n, p.now), e, p.newId, p.at, PayloadOf(p.domain(e.payload)), max))
    && (FirstEmits(repo.service, n, e, p.newId) ==>
          p.domain(e.payload).Returns? && repo.Emitted(e, p.newId, p.at, p.domain(e.payload).value))
  }

  /** What the tries so far came to: nothing, or the effect of one of them with the event taken in. */
  ghost predicate ActedOnce(repo: ConsumerRepository, n: Node, e: Envelope, plan: nat -> Plan, acted: Option<nat>,
                            max: nat)
    reads repo, repo.outbox
  {
    if acted.None? then repo.Represents(n) else ActedAt(repo, n, e, plan, acted.value, max) && e.eventId in repo.inbox
  }

  /** One try; what hides a commit from the caller may be any error. */
  method TryOnce(repo: ConsumerRepository, e: Envelope, context: ContextVars, plan: nat -> Plan, k: nat,
                 ghost n: Node, ghost acted: Option<nat>, ghost max: nat)
    returns (r: Attempt<bool>, ghost acted': Option<nat>)
    requires !repo.service.Application? && context.Current() == EventContext(e)
    requires ActedOnce(repo, n, e, plan, acted, max)
    modifies repo`inbox, repo`history, repo.outbox
    ensures ActedOnce(repo, n, e, plan, acted', max)
    ensures acted.Some? ==> acted' == acted
    ensures acted.None? && acted'.Some? ==> acted' == Some(k)
    ensures r.Returns? ==> e.eventId in repo.inbox && acted'.Some?
    ensures plan(k).timing.Cut? ==> r == RaisedBy(plan(k).timing)
    ensures plan(k).domain(e.payload).Returns? ==>
      (plan(k).timing.InTime? ==> r.Returns?) && (plan(k).timing.Cut? && plan(k).timing.committed ==> acted'.Some?)
    ensures plan(k).timing.InTime? && r.RaisesService? ==> plan(k).domain(e.payload) == RaisesService(r.error)
    ensures plan(k).timing.InTime? && r.RaisesOther? ==> plan(k).domain(e.payload).RaisesOther?
  {
    acted' := acted;
    var p := plan(k);
    if p.timing.Cut? && !p.timing.committed {
      return RaisedBy(p.timing), acted';
    }
    ghost var node := if acted.None? then n
      else
        var q := plan(acted.value);
        Handled(repo.service, At(n, q.now), e, q.newId, q.at, PayloadOf(q.domain(e.payload)), max);
    ghost var rows := repo.outbox.rows;
    r := repo.HandleEvent(e, p.domain, p.newId, p.at, p.now, context, node, max);
    assert acted.Some? ==> r.Returns? && repo.outbox.rows == rows;
    if r.Returns? && acted.None? {
      acted' := Some(k);
    }
    if p.timing.Cut? {
      r := RaisedBy(p.timing);
    }
  }

  /** with_retries around the handler: every try but the last raised what is tried again, and the last did so
      only when no more tries were allowed. */
  method TryHandler(repo: ConsumerRepository, e: Envelope, context: ContextVars, plan: nat -> Plan, maxAttempts: int,
                    ghost n: Node, ghost max: nat)
    returns (r: Attempt<bool>, ghost acted: Option<nat>, ghost tries: seq<Attempt<bool>>)
    requires !repo.service.Application? && context.Current() == EventContext(e)
    requires repo.Represents(n)
    modifies repo`inbox, repo`history, repo.outbox
    ensures ActedOnce(repo, n, e, plan, acted, max)
    ensures r.Returns? ==> e.eventId in repo.inbox && acted.Some?
    ensures |tries| >= 1 && r == tries[|tries| - 1] && (|tries| == 1 || |tries| <= maxAttempts)
    ensures forall i | 0 <= i < |tries| - 1 :: Retried(tries[i])
    ensures Retried(r) ==> |tries| >= maxAttempts
  {
    acted, tries := None, [];
    var made := 0;
    while true
      invariant made == 0 || made < maxAttempts
      invariant |tries| == made && forall i | 0 <= i < made :: Retried(tries[i])
      invariant ActedOnce(repo, n, e, plan, acted, max)
      decreases maxAttempts - made
    {
      r, acted := TryOnce(repo, e, context, plan, made, n, acted, max);
      made := made + 1;
      tries := tries + [r];
      if r.Returns? || !IsRetryable(r) || made >= maxAttempts {
        return;
      }
    }
  }

  /** The call under breaker and bulkhead: turned away by either, nothing is tried and nothing recorded; else a
      handler that returned is a success, one that raised a failure, unless it raised a rejection's code. */
  method Deliver(e: Envelope, repo: ConsumerRepository, context: ContextVars, circuit: CircuitBreaker, bulkhead: Bulkhead,
                 plan: nat -> Plan, maxAttempts: int, asked: Time, done: Time, ghost n: Node, ghost max: nat)
    returns (returned: bool, ghost acted: Option<nat>, ghost outcome: Option<Attempt<bool>>)
    requires !repo.service.Application? && context.Current() == EventContext(e) && repo.Represents(n)
    modifies repo`inbox, repo`history, repo.outbox, circuit, bulkhead
    ensures bulkhead.inFlight == old(bulkhead.inFlight)
    ensures ActedOnce(repo, n, e, plan, acted, max)
    ensures returned ==> e.eventId in repo.inbox && acted.Some?
    ensures returned <==> outcome.Some? && outcome.value.Returns?
    ensures outcome.Some? <==> Asked(circuit.cfg, old(circuit.State()), asked).1 && old(bulkhead.inFlight) < bulkhead.maxConcurrency
    ensures circuit.State() == Settled(circuit.cfg, Asked(circuit.cfg, old(circuit.State()), asked).0, outcome, done)
  {
    acted, outcome := None, None;
    var available := circuit.AssertAvailable(asked);
    if available.Err? {
      return false, acted, outcome;
    }
    var entered := bulkhead.Enter();
    if entered.Err? {
      return false, acted, outcome;
    }
    var r;
    ghost var tries;
    r, acted, tries := TryHandler(repo, e, context, plan, maxAttempts, n, max);
    bulkhead.Leave();
    outcome := Some(r);
    match r {
      case Returns(_) => circuit.RecordSuccess();
      case RaisesService(error) =>
        if error.code != CIRCUIT_OPEN.code && error.code != BULKHEAD_REJECTED.code {
          circuit.RecordFailure(done);
        }
      case RaisesOther => circuit.RecordFailure(done);
    }
    returned := r.Returns?;
  }

  /** The breaker once a delivery is over. */
  function Settled(cfg: Thresholds, b: Breaker, outcome: Option<Attempt<bool>>, done: Time): (b': Breaker)
    ensures outcome.None? ==> b' == b
    ensures outcome.Some? && outcome.value.Returns? ==> b' == Succeeded(cfg, b)
    ensures outcome.Some? && outcome.value.RaisesOther? ==> b' == Failed(cfg, b, done)
    ensures outcome.Some? && outcome.value.RaisesService? && outcome.value.error.code in {"CIRCUIT_OPEN", "BULKHEAD_REJECTED"} ==> b' == b
    ensures outcome.Some? && outcome.value.RaisesService? && outcome.value.error.code !in {"CIRCUIT_OPEN", "BULKHEAD_REJECTED"} ==>
      b' == Failed(cfg, b, done)
  {
    match outcome
    case None => b
    case Some(Returns(_)) => Succeeded(cfg, b)
    case Some(RaisesService(e)) => if e.code == CIRCUIT_OPEN.code || e.code == BULKHEAD_REJECTED.code then b else Failed(cfg, b, done)
    case Some(RaisesOther) => Failed(cfg, b, done)
  }

  /** The message callback of consume: decode, enter the event's context, pass breaker and bulkhead, try the
      handler, record the outcome. Whatever happens, the event acts at most once, and a message is acknowledged
      exactly when its handler returned, its event then taken in; otherwise it is rejected to the dead-letter
      queue. */
  method OnMessage(body: DL.Body, clock: string, repo: ConsumerRepository, context: ContextVars, circuit: CircuitBreaker,
                   bulkhead: Bulkhead, plan: nat -> Plan, maxAttempts: int, asked: Time, done: Time,
                   ghost n: Node, ghost max: nat)
    returns (acknowledged: bool, ghost acted: Option<nat>, ghost outcome: Option<Attempt<bool>>)
    requires !repo.service.Application? && repo.Represents(n)
    modifies repo`inbox, repo`history, repo.outbox, context, circuit, bulkhead
    ensures context.Current() == old(context.Current()) && bulkhead.inFlight == old(bulkhead.inFlight)
    ensures DL.DecodeBody(body, clock).Err? ==> !acknowledged && repo.Represents(n) && circuit.State() == old(circuit.State())
    ensures DL.DecodeBody(body, clock).Ok? ==> ActedOnce(repo, n, DL.DecodeBody(body, clock).value, plan, acted, max)
    ensures acknowledged ==> DL.DecodeBody(body, clock).Ok? && DL.DecodeBody(body, clock).value.eventId in repo.inbox && acted.Some?
    ensures acknowledged <==> outcome.Some? && outcome.value.Returns?
    ensures DL.DecodeBody(body, clock).Ok? ==>
      && (outcome.Some? <==> Asked(circuit.cfg, old(circuit.State()), asked).1 && old(bulkhead.inFlight) < bulkhead.maxConcurrency)
      && circuit.State() == Settled(circuit.cfg, Asked(circuit.cfg, old(circuit.State()), asked).0, outcome, done)
  {
    acted, outcome := None, None;
    var decoded := DL.DecodeBody(body, clock);
    if decoded.Err? {
      return false, acted, outcome;
    }
    var e := decoded.value;
    var saved := context.Enter(e.traceId, e.correlationId, Some(e.eventId));
    acknowledged, acted, outcome := Deliver(e, repo, context, circuit, bulkhead, plan, maxAttempts, asked, done, n, max);
    context.Exit(saved);
  }

  // ---- retries of a handler ----

  /** One try of a handler: its transaction rolled back, or committed under a new id. A try that commits and
      then raises is a committed one. */
  datatype Try = RolledBack | Committed(newId: Id, at: string, payload: map<string, Json>)

  /** The node after the tries of one event. */
  function AfterTries(s: Service, n: Node, e: Envelope, tries: seq<Try>, max: nat): Node
    decreases |tries|
  {
    if tries == [] then n
    else
      var n1 := if tries[0].RolledBack? then n else Handled(s, n, e, tries[0].newId, tries[0].at, tries[0].payload, max);
      AfterTries(s, n1, e, tries[1..], max)
  }

  lemma {:induction false} SeenStays(s: Service, n: Node, e: Envelope, tries: seq<Try>, max: nat)
    requires e.eventId in n.inbox
    ensures AfterTries(s, n, e, tries, max) == n
    decreases |tries|
  {
    if tries != [] {
      SeenStays(s, n, e, tries[1..], max);
    }
  }

  /** However often a handler is tried, its event acts once: the outcome is that of the first try that
      committed, or nothing if none did. */
  lemma {:induction false} TriesActOnce(s: Service, n: Node, e: Envelope, tries: seq<Try>, max: nat)
    ensures (forall t | t in tries :: t.RolledBack?) ==> AfterTries(s, n, e, tries, max) == n
    ensures forall k | 0 <= k < |tries| && tries[k].Committed? && (forall i | 0 <= i < k :: tries[i].RolledBack?) ::
      AfterTries(s, n, e, tries, max) == Handled(s, n, e, tries[k].newId, tries[k].at, tries[k].payload, max)
    decreases |tries|
  {
    if tries != [] && tries[0].RolledBack? {
      TriesActOnce(s, n, e, tries[1..], max);
      forall k | 0 <= k < |tries| && tries[k].Committed? && (forall i | 0 <= i < k :: tries[i].RolledBack?)
        ensures AfterTries(s, n, e, tries, max) == Handled(s, n, e, tries[k].newId, tries[k].at, tries[k].payload, max)
      {
        assert tries[1..][k - 1] == tries[k];
        assert forall i | 0 <= i < k - 1 :: tries[1..][i] == tries[i + 1];
      }
    } else if tries != [] {
      var n1 := Handled(s, n, e, tries[0].newId, tries[0].at, tries[0].payload, max);
      SeenStays(s, n1, e, tries[1..], max);
    }
  }
}
