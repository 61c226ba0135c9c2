/** What the pipeline's invariant gives over whole runs: effects happen effectively once and for good, each
    request leads to at most one event a stage with one lineage, and a consumer has exactly the events that were
    sent while its queue was bound. */
module PipelineGuarantees {
  import opened Base
  import opened Json
  import opened Envelopes
  import opened Outbox
  import opened Tracing
  import opened Pipeline
  import opened PipelineProofs
  import LP = LeaseProtocol

  // ---- effectively once ----

  /** Row i is the only history row of src, and the only outbox event it names carries src's lineage. */
  ghost predicate OnlyEffect(s: Service, n: Node, src: Id, i: nat) {
    && i < |n.history| && n.history[i].origin == Consumed(src)
    && (forall j | 0 <= j < |n.history| && n.history[j].origin == Consumed(src) :: j == i)
    && (forall j | 0 <= j < |n.history| && n.history[j].eventId == n.history[i].eventId :: j == i)
    && (s.Audit? || exists d :: Carries(s, n, n.history[i].eventId, src, d))
  }

  /** In every state of every run, each processed event has exactly one effect, every effect is of a
      processed event, every processed event is an upstream outbox event stored under its own id, and the
      outbox holds the events of the history and no others. */
  lemma EffectivelyOnce(run: seq<Net>, max: nat, k: nat, s: Service)
    requires IsRun(run, max) && k < |run|
    ensures var n := run[k].nodes[s];
      && (forall src | src in n.inbox :: exists i :: OnlyEffect(s, n, src, i))
      && (forall i | 0 <= i < |n.history| && n.history[i].origin.Consumed? :: n.history[i].origin.source in n.inbox)
      && (forall src | src in n.inbox :: n.inbox[src].eventId == src && Arrived(run[k], s, n.inbox[src]))
      && (s.Audit? || forall id :: id in Stored(n) <==> Listed(n.history, id))
  {
    RunKeeps(run, max, k);
    var net := run[k];
    var n := net.nodes[s];
    assert NodeOk(s, n) && InboxOk(n);
    forall src | src in n.inbox
      ensures exists i :: OnlyEffect(s, n, src, i)
      ensures Arrived(net, s, n.inbox[src])
    {
      ProcessedOnce(s, n, src);
      assert Has(n, n.inbox[src]);
    }
  }

  lemma ProcessedOnce(s: Service, n: Node, src: Id)
    requires NodeOk(s, n) && src in n.inbox
    ensures exists i :: OnlyEffect(s, n, src, i)
  {
    assert Processed(n.history, src);
    var i :| 0 <= i < |n.history| && n.history[i].origin == Consumed(src);
    if !s.Audit? {
      assert IsDerived(s, n, n.history[i]);
    }
    forall j | 0 <= j < |n.history| && (n.history[j].origin == Consumed(src) || n.history[j].eventId == n.history[i].eventId)
      ensures j == i
    {
    }
    assert OnlyEffect(s, n, src, i);
  }

  // ---- effects are permanent ----

  /** History is only appended to; inbox and outbox rows and bindings stay. */
  ghost predicate Later(n: Node, n': Node) {
    && n.history <= n'.history && (n.bound ==> n'.bound)
    && (forall src | src in n.inbox :: src in n'.inbox && n'.inbox[src] == n.inbox[src])
    && (forall id | id in Stored(n) :: id in Stored(n') && Stored(n')[id] == Stored(n)[id])
  }

  lemma HandledIsLater(s: Service, n: Node, e: Envelope, newId: Id, at: string, payload: map<string, Json>, max: nat)
    ensures Later(n, Handled(s, n, e, newId, at, payload, max))
  {
    if e.eventId !in n.inbox && !s.Audit? {
      EnqueuePayloads(n.relay.table, DerivedFrom(s, e, newId, at, payload), n.relay.now);
    }
  }

  lemma RequestIsLater(n: Node, d: Envelope, max: nat)
    ensures Later(n, Requested(n, d, max))
  {
    EnqueuePayloads(n.relay.table, d, n.relay.now);
  }

  lemma LocalIsLater(net: Net, l: Label, max: nat)
    requires OutboxOk(net) && Enabled(net, l)
    ensures Later(net.nodes[l.s], Local(net.nodes[l.s], l, max))
  {
    var n := net.nodes[l.s];
    match l
    case HttpRequest(s, d) => RequestIsLater(n, d, max);
    case Handle(s, e, newId, at, payload) => HandledIsLater(s, n, e, newId, at, payload, max);
    case _ => LocalMoves(net, l, max);
  }

  lemma OwnIsLater(net: Net, l: Label, max: nat)
    requires OutboxOk(net) && Enabled(net, l)
    ensures Later(net.nodes[l.s], NodeAfter(net, l, max, l.s))
  {
    LocalIsLater(net, l, max);
    LaterCopy(net.nodes[l.s], Local(net.nodes[l.s], l, max), NodeAfter(net, l, max, l.s));
  }

  lemma OtherIsLater(net: Net, l: Label, max: nat, x: Service)
    requires x != l.s
    ensures Later(net.nodes[x], NodeAfter(net, l, max, x))
  {
    LaterSelf(net.nodes[x]);
    LaterCopy(net.nodes[x], net.nodes[x], NodeAfter(net, l, max, x));
  }

  lemma NodeIsLater(net: Net, l: Label, max: nat, x: Service)
    requires OutboxOk(net) && Enabled(net, l)
    ensures Later(net.nodes[x], NodeAfter(net, l, max, x))
  {
    if x == l.s {
      OwnIsLater(net, l, max);
    } else {
      OtherIsLater(net, l, max, x);
    }
  }

  lemma NextIsLater(net: Net, net': Net, max: nat, x: Service)
    requires OutboxOk(net) && Next(net, net', max)
    ensures Later(net.nodes[x], net'.nodes[x])
  {
    var l :| IsStep(net, l, net', max);
    AfterAt(net, l, net', max, x);
    NodeIsLater(net, l, max, x);
  }

  lemma LaterCopy(a: Node, b: Node, c: Node)
    requires Later(a, b) && c == b.(queue := c.queue)
    ensures Later(a, c)
  {
  }

  lemma LaterSelf(n: Node)
    ensures Later(n, n)
  {
  }

  lemma LaterTwice(a: Node, b: Node, c: Node)
    requires Later(a, b) && Later(b, c)
    ensures Later(a, c)
  {
  }

  lemma RunStepIsLater(run: seq<Net>, max: nat, k: nat, x: Service)
    requires IsRun(run, max) && 1 <= k < |run|
    ensures Later(run[k - 1].nodes[x], run[k].nodes[x])
  {
    var before := k - 1;
    RunKeeps(run, max, before);
    assert StepAt(run, before, max);
    NextIsLater(run[before], run[k], max, x);
  }

  lemma {:induction false} RunIsLater(run: seq<Net>, max: nat, j: nat, k: nat, x: Service)
    requires IsRun(run, max) && j <= k < |run|
    ensures Later(run[j].nodes[x], run[k].nodes[x])
  {
    if j < k {
      RunIsLater(run, max, j, k - 1, x);
      RunStepIsLater(run, max, k, x);
      LaterTwice(run[j].nodes[x], run[k - 1].nodes[x], run[k].nodes[x]);
    } else {
      LaterSelf(run[j].nodes[x]);
    }
  }

  /** The effect of an event never changes and never happens again, however often it is redelivered,
      retried or replayed later. */
  lemma EffectIsPermanent(run: seq<Net>, max: nat, j: nat, k: nat, s: Service, src: Id, i: nat)
    requires IsRun(run, max) && j <= k < |run| && OnlyEffect(s, run[j].nodes[s], src, i)
    ensures OnlyEffect(s, run[k].nodes[s], src, i)
    ensures run[k].nodes[s].history[i] == run[j].nodes[s].history[i]
  {
    RunIsLater(run, max, j, k, s);
    RunKeeps(run, max, j);
    RunKeeps(run, max, k);
    var n, n' := run[j].nodes[s], run[k].nodes[s];
    assert NodeOk(s, n) && NodeOk(s, n');
    ProcessedOnce(s, n', src);
  }

  // ---- lineage ----

  /** A processed event sits in the outbox of the service just upstream. */
  lemma ProcessedIsUpstream(net: Net, s: Service, src: Id)
    requires MessagesOk(net) && !s.Audit? && src in net.nodes[s].inbox
    ensures var e := net.nodes[s].inbox[src];
      Upstream(s).Some? && InOutbox(net, Upstream(s).value, e) && e.eventId == src
  {
    var n := net.nodes[s];
    assert InboxOk(n);
    assert Has(n, n.inbox[src]);
    var u :| Feeds(u, s) && InOutbox(net, u, n.inbox[src]);
  }

  lemma SourceIsUpstream(net: Net, s: Service, i: nat)
    requires RowsOk(net) && MessagesOk(net) && !s.Audit?
    requires i < |net.nodes[s].history| && net.nodes[s].history[i].origin.Consumed?
    ensures var src := net.nodes[s].history[i].origin.source;
      && Upstream(s).Some?
      && src in net.nodes[s].inbox
      && InOutbox(net, Upstream(s).value, net.nodes[s].inbox[src])
      && net.nodes[s].inbox[src].eventId == src
  {
    assert NodeOk(s, net.nodes[s]);
    ProcessedIsUpstream(net, s, net.nodes[s].history[i].origin.source);
  }

  ghost predicate NamesRow(n: Node, id: Id, i: nat) {
    i < |n.history| && n.history[i].eventId == id
  }

  /** The source of an event by the history of the service that emitted it; a request's event has none. */
  ghost function Source(s: Service, n: Node, id: Id): (src: Option<Id>)
    ensures src.Some? ==> Upstream(s).Some?
  {
    if i: nat :| NamesRow(n, id, i) && n.history[i].origin.Consumed? && Upstream(s).Some?
      then Some(n.history[i].origin.source) else None
  }

  /** Following sources from an event back to the request it came from. */
  ghost function Root(net: Net, s: Service, id: Id): (Service, Id)
    decreases Rank(s)
  {
    var src := Source(s, net.nodes[s], id);
    if src.None? then (s, id) else Root(net, Upstream(s).value, src.value)
  }

  /** Every source is upstream, and no two events of a service have one source. */
  ghost predicate Linked(net: Net) {
    && (forall s, id | id in Stored(net.nodes[s]) && Source(s, net.nodes[s], id).Some? ::
          Source(s, net.nodes[s], id).value in Stored(net.nodes[Upstream(s).value]))
    && (forall s, a, b | Source(s, net.nodes[s], a).Some? && Source(s, net.nodes[s], a) == Source(s, net.nodes[s], b) :: a == b)
  }

  lemma SourceRow(s: Service, n: Node, id: Id) returns (i: nat)
    requires Source(s, n, id).Some?
    ensures NamesRow(n, id, i) && n.history[i].origin == Consumed(Source(s, n, id).value)
  {
    i :| NamesRow(n, id, i) && n.history[i].origin == Consumed(Source(s, n, id).value);
  }

  lemma OneSource(s: Service, n: Node, a: Id, b: Id)
    requires HistoryOk(n) && Source(s, n, a).Some? && Source(s, n, a) == Source(s, n, b)
    ensures a == b
  {
    var i := SourceRow(s, n, a);
    var j := SourceRow(s, n, b);
    assert n.history[i].origin == n.history[j].origin;
  }

  lemma InvLinked(net: Net)
    requires Inv(net)
    ensures Linked(net)
  {
    forall s, id | id in Stored(net.nodes[s]) && Source(s, net.nodes[s], id).Some?
      ensures Source(s, net.nodes[s], id).value in Stored(net.nodes[Upstream(s).value])
    {
      var i := SourceRow(s, net.nodes[s], id);
      SourceIsUpstream(net, s, i);
    }
    forall s, a, b | Source(s, net.nodes[s], a).Some? && Source(s, net.nodes[s], a) == Source(s, net.nodes[s], b) ensures a == b {
      assert NodeOk(s, net.nodes[s]);
      OneSource(s, net.nodes[s], a, b);
    }
  }

  /** The root has no source, and is at the same service only if it is the event itself. */
  lemma {:induction false} RootHasNoSource(net: Net, s: Service, id: Id)
    requires Linked(net) && id in Stored(net.nodes[s])
    ensures var (u, r) := Root(net, s, id);
      r in Stored(net.nodes[u]) && Source(u, net.nodes[u], r).None? && Rank(u) <= Rank(s) && (u == s ==> r == id)
    decreases Rank(s)
  {
    var src := Source(s, net.nodes[s], id);
    if src.Some? {
      SourceStored(net, s, id, src.value);
      RootHasNoSource(net, Upstream(s).value, src.value);
    }
  }

  /** An event has a source exactly when its root is elsewhere. */
  lemma SourceIffElsewhere(net: Net, s: Service, id: Id)
    requires Linked(net) && id in Stored(net.nodes[s])
    ensures Source(s, net.nodes[s], id).None? <==> Root(net, s, id).0 == s
  {
    var src := Source(s, net.nodes[s], id);
    if src.Some? {
      var up := Upstream(s).value;
      SourceStored(net, s, id, src.value);
      RootHasNoSource(net, up, src.value);
      assert Rank(up) < Rank(s);
    }
  }

  lemma SameSourceSameEvent(net: Net, s: Service, a: Id, b: Id)
    requires Linked(net) && Source(s, net.nodes[s], a).Some? && Source(s, net.nodes[s], a) == Source(s, net.nodes[s], b)
    ensures a == b
  {
  }

  lemma SourceStored(net: Net, s: Service, id: Id, src: Id)
    requires Linked(net) && id in Stored(net.nodes[s]) && Source(s, net.nodes[s], id) == Some(src)
    ensures src in Stored(net.nodes[Upstream(s).value]) && Root(net, s, id) == Root(net, Upstream(s).value, src)
  {
  }

  /** Each request leads to at most one event at each stage. */
  lemma {:induction false} OnePerStage(net: Net, s: Service, a: Id, b: Id)
    requires Linked(net) && a in Stored(net.nodes[s]) && b in Stored(net.nodes[s])
    requires Root(net, s, a) == Root(net, s, b)
    ensures a == b
    decreases Rank(s)
  {
    SourceIffElsewhere(net, s, a);
    SourceIffElsewhere(net, s, b);
    var x, y := Source(s, net.nodes[s], a), Source(s, net.nodes[s], b);
    if x.Some? {
      SourceStored(net, s, a, x.value);
      SourceStored(net, s, b, y.value);
      OnePerStage(net, Upstream(s).value, x.value, y.value);
      SameSourceSameEvent(net, s, a, b);
    }
  }

  /** The event's source, named as its cause, with the same trace and correlation ids. */
  ghost predicate IsCause(net: Net, s: Service, e: Envelope, cause: Envelope) {
    && Source(s, net.nodes[s], e.eventId) == Some(cause.eventId) == e.causationId
    && InOutbox(net, Upstream(s).value, cause)
    && e.traceId == cause.traceId && e.correlationId == cause.correlationId
  }

  ghost predicate Caused(net: Net) {
    forall s, e | InOutbox(net, s, e) && Source(s, net.nodes[s], e.eventId).Some? :: exists c :: IsCause(net, s, e, c)
  }

  lemma DerivedCarries(s: Service, n: Node, i: nat, e: Envelope)
    requires DerivedOk(s, n) && NamesRow(n, e.eventId, i) && n.history[i].origin.Consumed? && HasRow(s, n, e)
    ensures Carries(s, n, e.eventId, n.history[i].origin.source, e)
  {
    assert IsDerived(s, n, n.history[i]);
    var d :| Carries(s, n, e.eventId, n.history[i].origin.source, d);
    RowUnique(s, n, d, e);
  }

  lemma InvCaused(net: Net)
    requires Inv(net)
    ensures Caused(net)
  {
    forall s, e | InOutbox(net, s, e) && Source(s, net.nodes[s], e.eventId).Some? ensures exists c :: IsCause(net, s, e, c) {
      var n := net.nodes[s];
      var i := SourceRow(s, n, e.eventId);
      assert TableOk(s, n, net.ids) && NodeOk(s, n);
      SourceIsUpstream(net, s, i);
      DerivedCarries(s, n, i, e);
      assert IsCause(net, s, e, n.inbox[n.history[i].origin.source]);
    }
  }

  /** Every event has the trace and correlation ids of the event at its root. */
  lemma {:induction false} LineageIsConstant(net: Net, s: Service, e: Envelope) returns (request: Envelope)
    requires Caused(net) && InOutbox(net, s, e)
    ensures InOutbox(net, Root(net, s, e.eventId).0, request) && Root(net, s, e.eventId).1 == request.eventId
    ensures e.traceId == request.traceId && e.correlationId == request.correlationId
    decreases Rank(s)
  {
    if Source(s, net.nodes[s], e.eventId).None? {
      request := e;
    } else {
      var cause :| IsCause(net, s, e, cause);
      request := LineageIsConstant(net, Upstream(s).value, cause);
    }
  }

  /** In every state of every run, two events of one stage with the same root are one event, and each
      event has its root's trace and correlation ids. */
  lemma OneEventPerRequest(run: seq<Net>, max: nat, k: nat, s: Service, a: Envelope,
                           b: Envelope) returns (request: Envelope)
    requires IsRun(run, max) && k < |run| && InOutbox(run[k], s, a) && InOutbox(run[k], s, b)
    ensures Root(run[k], s, a.eventId) == Root(run[k], s, b.eventId) ==> a == b
    ensures InOutbox(run[k], Root(run[k], s, a.eventId).0, request) && request.eventId == Root(run[k], s, a.eventId).1
    ensures Source(Root(run[k], s, a.eventId).0, run[k].nodes[Root(run[k], s, a.eventId).0], request.eventId).None?
    ensures a.traceId == request.traceId && a.correlationId == request.correlationId
    ensures Linked(run[k]) && Caused(run[k])
  {
    RunKeeps(run, max, k);
    InvLinked(run[k]);
    RootHasNoSource(run[k], s, a.eventId);
    if Root(run[k], s, a.eventId) == Root(run[k], s, b.eventId) {
      OnePerStage(run[k], s, a.eventId, b.eventId);
      RowUnique(s, run[k].nodes[s], a, b);
    }
    InvCaused(run[k]);
    request := LineageIsConstant(run[k], s, a);
  }

  // ---- what a handled event leads to ----

  function Emission(l: Label): Envelope
    requires l.Handle?
  {
    Envelope(Emits(l.s), l.newId, l.e.traceId, l.e.correlationId, Some(l.e.eventId), Producer(l.s), l.at, l.payload)
  }

  lemma HandleStores(net: Net, l: Label, net': Net, max: nat)
    requires OutboxOk(net) && MessagesOk(net) && IsStep(net, l, net', max) && l.Handle? && !l.s.Audit?
    requires l.e.eventId !in net.nodes[l.s].inbox
    ensures Stores(net'.nodes[l.s], Emission(l))
  {
    var n := net.nodes[l.s];
    QueuedIsProper(net, l.s, l.e);
    NewIdIsNew(net, l.s, l.newId);
    HandledEmits(l.s, n, l.e, l.newId, l.at, l.payload, max);
    AfterAt(net, l, net', max, l.s);
  }

  lemma NewIdIsNew(net: Net, s: Service, id: Id)
    requires OutboxOk(net) && IsNewId(net, id)
    ensures id !in net.nodes[s].relay.table
  {
    assert TableOk(s, net.nodes[s], net.ids);
    assert id !in Stored(net.nodes[s]);
  }

  lemma StillStores(n: Node, n': Node, e: Envelope)
    requires Later(n, n') && Stores(n, e)
    ensures Stores(n', e)
  {
    assert e.eventId in Stored(n) && Stored(n)[e.eventId] == n.relay.table[e.eventId].payload;
  }

  /** Over every run: when a service handles an event it sees first, its outbox holds from then on, under the new
      id, the service's own event with the source's lineage and exactly the payload that was computed. */
  lemma HandledIsStored(run: seq<Net>, max: nat, i: nat, k: nat, l: Label)
    requires IsRun(run, max) && i < k < |run| && IsStep(run[i], l, run[i + 1], max) && l.Handle? && !l.s.Audit?
    requires l.e.eventId !in run[i].nodes[l.s].inbox
    ensures Stores(run[k].nodes[l.s], Emission(l))
  {
    HandledNext(run, max, i, l);
    StoredStays(run, max, i + 1, k, l.s, Emission(l));
  }

  lemma HandledNext(run: seq<Net>, max: nat, i: nat, l: Label)
    requires IsRun(run, max) && i + 1 < |run| && IsStep(run[i], l, run[i + 1], max) && l.Handle? && !l.s.Audit?
    requires l.e.eventId !in run[i].nodes[l.s].inbox
    ensures Stores(run[i + 1].nodes[l.s], Emission(l))
  {
    RunKeeps(run, max, i);
    HandleStores(run[i], l, run[i + 1], max);
  }

  lemma StoredStays(run: seq<Net>, max: nat, j: nat, k: nat, s: Service, e: Envelope)
    requires IsRun(run, max) && j <= k < |run| && Stores(run[j].nodes[s], e)
    ensures Stores(run[k].nodes[s], e)
  {
    RunIsLater(run, max, j, k, s);
    StillStores(run[j].nodes[s], run[k].nodes[s], e);
  }

  // ---- inside the pipeline each relay follows the lease protocol ----

  lemma LocalRelay(s: Service, n: Node, l: Label, max: nat)
    requires max >= 1 && s == l.s && LP.Inv(n.relay, max)
    requires l.HttpRequest? ==> Proper(l.d)
    requires l.Handle? ==> Proper(DerivedFrom(s, l.e, l.newId, l.at, l.payload)) || l.e.eventId in n.inbox || s.Audit?
    requires l.Relay? ==> LP.Enabled(n.relay, l.l)
    ensures LP.Inv(Local(n, l, max).relay, max)
  {
    match l
    case HttpRequest(_, d) => LP.EnqueueKeeps(n.relay, d, max);
    case Handle(_, e, newId, at, payload) =>
      if e.eventId !in n.inbox && !s.Audit? {
        LP.EnqueueKeeps(n.relay, DerivedFrom(s, e, newId, at, payload), max);
      }
    case Relay(_, rl, e) =>
      assert LP.IsStep(n.relay, rl, LP.Apply(n.relay, rl, max), max);
      LP.NextKeeps(n.relay, LP.Apply(n.relay, rl, max), max);
    case _ =>
  }

  lemma RelayFollowsProtocol(net: Net, net': Net, max: nat, x: Service)
    requires OutboxOk(net) && MessagesOk(net) && max >= 1 && Next(net, net', max) && LP.Inv(net.nodes[x].relay, max)
    ensures LP.Inv(net'.nodes[x].relay, max)
  {
    var l :| IsStep(net, l, net', max);
    AfterAt(net, l, net', max, x);
    if x == l.s {
      if l.Handle? && !x.Audit? {
        QueuedIsProper(net, x, l.e);
        DerivedIsRow(x, l.e, l.newId, l.at, l.payload);
      }
      LocalRelay(x, net.nodes[x], l, max);
    }
  }

  lemma {:induction false} RunProtocol(run: seq<Net>, max: nat, k: nat, x: Service)
    requires IsRun(run, max) && max >= 1 && k < |run|
    ensures LP.Inv(run[k].nodes[x].relay, max)
  {
    if k > 0 {
      var before := k - 1;
      RunProtocol(run, max, before, x);
      RunKeeps(run, max, before);
      assert StepAt(run, before, max);
      RelayFollowsProtocol(run[before], run[k], max, x);
    }
  }

  // ---- who gets what was published ----

  /** The step at j handed the event to the exchange, under some label. */
  ghost predicate SentAt(run: seq<Net>, j: nat, e: Envelope, max: nat) {
    j + 1 < |run| && exists l :: IsStep(run[j], l, run[j + 1], max) && Sent(l) == Some(e)
  }

  /** The event was sent at j while the consumer's queue was bound. */
  ghost predicate HeardAt(run: seq<Net>, j: nat, s: Service, e: Envelope, max: nat) {
    SentAt(run, j, e, max) && run[j].nodes[s].bound
  }

  lemma StepHeard(run: seq<Net>, max: nat, j: nat, s: Service, e: Envelope)
    requires IsRun(run, max) && j + 1 < |run| && s in Audience(e.eventName)
    ensures Has(run[j + 1].nodes[s], e) <==> Has(run[j].nodes[s], e) || HeardAt(run, j, s, e, max)
  {
    RunKeeps(run, max, j);
    assert StepAt(run, j, max);
    var l :| IsStep(run[j], l, run[j + 1], max);
    StepHas(run[j], l, run[j + 1], max, s, e);
    if HeardAt(run, j, s, e, max) {
      var sent :| IsStep(run[j], sent, run[j + 1], max) && Sent(sent) == Some(e);
      StepHas(run[j], sent, run[j + 1], max, s, e);
    }
  }

  lemma InitHasNothing(net: Net, s: Service, e: Envelope)
    requires IsInit(net)
    ensures !Has(net.nodes[s], e)
  {
  }

  ghost predicate Sometime(p: nat -> bool, k: nat) {
    k > 0 && (Sometime(p, k - 1) || p(k - 1))
  }

  lemma {:induction false} SometimeIff(p: nat -> bool, k: nat)
    ensures Sometime(p, k) <==> exists j: nat :: j < k && p(j)
  {
    if k > 0 {
      SometimeIff(p, k - 1);
    }
  }

  ghost function Hearing(run: seq<Net>, s: Service, e: Envelope, max: nat): nat -> bool {
    (j: nat) => HeardAt(run, j, s, e, max)
  }

  /** The event was sent before k at some moment when the consumer's queue was bound. */
  ghost predicate Heard(run: seq<Net>, k: nat, s: Service, e: Envelope, max: nat) {
    Sometime(Hearing(run, s, e, max), k)
  }

  lemma HeardBefore(run: seq<Net>, j: nat, k: nat, s: Service, e: Envelope, max: nat)
    requires j < k && HeardAt(run, j, s, e, max)
    ensures Heard(run, k, s, e, max)
  {
    SometimeIff(Hearing(run, s, e, max), k);
    assert Hearing(run, s, e, max)(j);
  }

  lemma HeardIff(run: seq<Net>, k: nat, s: Service, e: Envelope, max: nat)
    ensures Heard(run, k, s, e, max) <==> exists j: nat :: j < k && HeardAt(run, j, s, e, max)
  {
    var p := Hearing(run, s, e, max);
    SometimeIff(p, k);
    if Heard(run, k, s, e, max) {
      var j: nat :| j < k && p(j);
      assert HeardAt(run, j, s, e, max);
    }
    if j: nat :| j < k && HeardAt(run, j, s, e, max) {
      HeardBefore(run, j, k, s, e, max);
    }
  }

  /** A consumer has an event of a name it listens to, processed, queued, dead-lettered or dropped, exactly when
      the event was sent at some moment when the consumer's queue was bound. */
  lemma {:induction false} HasIffHeard(run: seq<Net>, max: nat, k: nat, s: Service, e: Envelope)
    requires IsRun(run, max) && k < |run| && s in Audience(e.eventName)
    ensures Has(run[k].nodes[s], e) <==> Heard(run, k, s, e, max)
  {
    if k == 0 {
      InitHasNothing(run[0], s, e);
    } else {
      HasIffHeard(run, max, k - 1, s, e);
      StepHeard(run, max, k - 1, s, e);
    }
  }

  /** The relay of u published the event at j and the publish returned. */
  ghost predicate PublishedAt(run: seq<Net>, j: nat, u: Service, e: Envelope, max: nat) {
    && j + 1 < |run| && InOutbox(run[j], u, e)
    && exists c :: IsStep(run[j], Relay(u, LP.Publish(c, true, true), e), run[j + 1], max)
  }

  lemma ConfirmStep(net: Net, net': Net, max: nat, u: Service, id: Id) returns (c: LP.Claim, e: Envelope)
    requires OutboxOk(net) && Next(net, net', max)
    requires id in net'.nodes[u].relay.confirmed && id !in net.nodes[u].relay.confirmed
    ensures e.eventId == id && InOutbox(net, u, e)
    ensures IsStep(net, Relay(u, LP.Publish(c, true, true), e), net', max)
  {
    var l :| IsStep(net, l, net', max);
    AfterAt(net, l, net', max, u);
    ConfirmIsPublish(net, l, max, u, id);
    c, e := l.l.c, l.e;
    assert l == Relay(u, LP.Publish(c, true, true), e);
  }

  lemma OnlyRelaysConfirm(n: Node, l: Label, max: nat)
    requires !l.Relay?
    ensures Local(n, l, max).relay.confirmed == n.relay.confirmed
  {
  }

  lemma RelayConfirms(s: Service, n: Node, ids: set<Id>, l: LP.Label, r': LP.State, max: nat, id: Id)
    requires TableOk(s, n, ids) && LP.Enabled(n.relay, l) && !l.Enqueue? && r' == LP.Apply(n.relay, l, max)
    requires id in r'.confirmed && id !in n.relay.confirmed
    ensures l.Publish? && l.accepted && l.delivered && l.c.id == id && id in n.relay.table
  {
    RelayStepMoves(s, n, ids, l, r', max);
  }

  lemma PublishedRow(net: Net, u: Service, l: LP.Label, e: Envelope)
    requires Enabled(net, Relay(u, l, e)) && l.Publish? && l.c.id in net.nodes[u].relay.table
    ensures InOutbox(net, u, e) && e.eventId == l.c.id
  {
  }

  lemma ConfirmIsPublish(net: Net, l: Label, max: nat, u: Service, id: Id)
    requires OutboxOk(net) && Enabled(net, l) && u == l.s
    requires id in Local(net.nodes[u], l, max).relay.confirmed && id !in net.nodes[u].relay.confirmed
    ensures l.Relay? && l.l.Publish? && l.l.accepted && l.l.delivered && l.l.c.id == id
    ensures InOutbox(net, u, l.e) && l.e.eventId == id
  {
    var n := net.nodes[u];
    if l.Relay? {
      RelayConfirms(u, n, net.ids, l.l, LP.Apply(n.relay, l.l, max), max, id);
      PublishedRow(net, u, l.l, l.e);
    } else {
      OnlyRelaysConfirm(n, l, max);
    }
  }

  lemma {:induction false} ConfirmedWasPublished(run: seq<Net>, max: nat, k: nat, u: Service, id: Id)
    returns (j: nat, e: Envelope)
    requires IsRun(run, max) && k < |run| && id in run[k].nodes[u].relay.confirmed
    ensures j < k && e.eventId == id && PublishedAt(run, j, u, e, max)
  {
    if k > 0 {
      j := k - 1;
      RunKeeps(run, max, j);
      assert StepAt(run, j, max);
      if id in run[j].nodes[u].relay.confirmed {
        j, e := ConfirmedWasPublished(run, max, j, u, id);
      } else {
        var c;
        c, e := ConfirmStep(run[j], run[k], max, u, id);
      }
    }
  }

  lemma PublishedIsConfirmed(r: LP.State, id: Id, max: nat)
    requires LP.Inv(r, max) && id in r.table && r.table[id].publishedAt.Some?
    ensures id in r.confirmed
  {
  }

  lemma SameRowLater(run: seq<Net>, max: nat, j: nat, k: nat, u: Service, d: Envelope, e: Envelope)
    requires IsRun(run, max) && j <= k < |run| && InOutbox(run[j], u, d) && InOutbox(run[k], u, e) && d.eventId == e.eventId
    ensures d == e
  {
    RunIsLater(run, max, j, k, u);
    RowUnique(u, run[k].nodes[u], d, e);
  }

  /** An event whose row is marked published was published by a publish that returned; whoever was bound then
      has it at every later time. */
  lemma PublishedReaches(run: seq<Net>, max: nat, k: nat, u: Service, e: Envelope) returns (j: nat)
    requires IsRun(run, max) && max >= 1 && k < |run| && InOutbox(run[k], u, e)
    requires run[k].nodes[u].relay.table[e.eventId].publishedAt.Some?
    ensures j < k && PublishedAt(run, j, u, e, max)
    ensures forall s | Feeds(u, s) && run[j].nodes[s].bound :: Has(run[k].nodes[s], e)
  {
    RunProtocol(run, max, k, u);
    RunKeeps(run, max, k);
    PublishedIsConfirmed(run[k].nodes[u].relay, e.eventId, max);
    var d;
    j, d := ConfirmedWasPublished(run, max, k, u, e.eventId);
    SameRowLater(run, max, j, k, u, d, e);
    PublishedIsSent(run, max, j, u, e);
    forall s | Feeds(u, s) && run[j].nodes[s].bound ensures Has(run[k].nodes[s], e) {
      BoundThenHas(run, max, j, k, u, s, e);
    }
  }

  lemma PublishedIsSent(run: seq<Net>, max: nat, j: nat, u: Service, e: Envelope)
    requires PublishedAt(run, j, u, e, max)
    ensures SentAt(run, j, e, max)
  {
    var c :| IsStep(run[j], Relay(u, LP.Publish(c, true, true), e), run[j + 1], max);
    assert Sent(Relay(u, LP.Publish(c, true, true), e)) == Some(e);
  }

  lemma BoundThenHas(run: seq<Net>, max: nat, j: nat, k: nat, u: Service, s: Service, e: Envelope)
    requires IsRun(run, max) && j < k < |run| && SentAt(run, j, e, max) && run[j].nodes[s].bound
    requires InOutbox(run[j], u, e) && Feeds(u, s)
    ensures Has(run[k].nodes[s], e)
  {
    RunKeeps(run, max, j);
    StoredAudience(run[j], u, e);
    HeardBefore(run, j, k, s, e, max);
    HasIffHeard(run, max, k, s, e);
  }

  /** The exact condition: an event is with a consumer of it exactly when the consumer's queue was bound at one
      of the moments the event was sent; when its row is marked published it was sent at least once. */
  lemma PublishedReachesIff(run: seq<Net>, max: nat, k: nat, u: Service, s: Service, e: Envelope)
    requires IsRun(run, max) && max >= 1 && k < |run| && Feeds(u, s) && InOutbox(run[k], u, e)
    ensures Has(run[k].nodes[s], e) <==> exists j: nat :: j < k && HeardAt(run, j, s, e, max)
    ensures run[k].nodes[u].relay.table[e.eventId].publishedAt.Some? ==> exists j: nat :: j < k && SentAt(run, j, e, max)
  {
    RunKeeps(run, max, k);
    StoredAudience(run[k], u, e);
    HasIffHeard(run, max, k, s, e);
    HeardIff(run, k, s, e, max);
    if run[k].nodes[u].relay.table[e.eventId].publishedAt.Some? {
      var j := PublishedReaches(run, max, k, u, e);
      PublishedIsSent(run, max, j, u, e);
    }
  }

  // ---- what a drop means ----

  ghost predicate ReplayRaised(net: Net, net': Net, s: Service, e: Envelope, max: nat) {
    exists delivered :: IsStep(net, Replay(s, e, false, delivered), net', max)
  }

  lemma DropIsReplay(net: Net, l: Label, net': Net, s: Service, e: Envelope, max: nat)
    requires net' == Apply(net, l, max) && e in net'.nodes[s].dropped && e !in net.nodes[s].dropped
    ensures l.Replay? && !l.accepted && l.s == s && l.e == e
  {
    AfterAt(net, l, net', max, s);
    LocalDrops(net.nodes[s], l, max);
  }

  lemma LocalDrops(n: Node, l: Label, max: nat)
    ensures Local(n, l, max).dropped == n.dropped
      || (l.Replay? && !l.accepted && Local(n, l, max).dropped == n.dropped + multiset{l.e})
  {
  }

  lemma DropAt(run: seq<Net>, max: nat, j: nat, s: Service, e: Envelope)
    requires IsRun(run, max) && j + 1 < |run|
    requires e in run[j + 1].nodes[s].dropped && e !in run[j].nodes[s].dropped
    ensures ReplayRaised(run[j], run[j + 1], s, e, max)
  {
    assert StepAt(run, j, max);
    var l :| IsStep(run[j], l, run[j + 1], max);
    DropIsReplay(run[j], l, run[j + 1], s, e, max);
    assert l == Replay(s, e, false, l.delivered);
  }

  predicate InDropped(run: seq<Net>, k: nat, s: Service, e: Envelope) {
    k < |run| && e in run[k].nodes[s].dropped
  }

  /** Every dropped event was dropped by a replay of it that raised. */
  lemma {:induction false} DroppedByReplay(run: seq<Net>, max: nat, k: nat, s: Service, e: Envelope) returns (j: nat)
    requires IsRun(run, max) && InDropped(run, k, s, e)
    ensures j < k && ReplayRaised(run[j], run[j + 1], s, e, max)
  {
    if k > 0 && InDropped(run, k - 1, s, e) {
      j := DroppedByReplay(run, max, k - 1, s, e);
    } else if k > 0 {
      j := k - 1;
      DropAt(run, max, j, s, e);
    }
  }
}
