/** The asynchronous chain of services: application, feature, scoring, decision and assistant, each with an
    outbox, an inbox and an append-only history, and the audit service that listens to all of them. The
    broker delivers at least once, handlers are retried, messages are dead-lettered and replayed. */
module Pipeline {
  import opened Base
  import opened Json
  import opened Envelopes
  import opened Outbox
  import opened Tracing
  import LP = LeaseProtocol

  datatype Service = Application | Feature | Scoring | Decision | Assistant | Audit

  function CreditEvent(what: string, done: string): string {
    "credit" + "." + (what + "." + (done + "." + "v1"))
  }

  /** The event name a service puts in its outbox; audit has none. */
  function Emits(s: Service): string {
    match s
    case Application => CreditEvent("application", "submitted")
    case Feature => CreditEvent("feature", "materialized")
    case Scoring => CreditEvent("scoring", "generated")
    case Decision => CreditEvent("decision", "made")
    case Assistant => CreditEvent("assistant", "summarized")
    case Audit => ""
  }

  function Producer(s: Service): string {
    match s
    case Application => "application-service"
    case Feature => "feature-service"
    case Scoring => "scoring-service"
    case Decision => "decision-service"
    case Assistant => "collab-assistant-service"
    case Audit => "observability-audit-service"
  }

  function Upstream(s: Service): Option<Service> {
    match s
    case Feature => Some(Application)
    case Scoring => Some(Feature)
    case Decision => Some(Scoring)
    case Assistant => Some(Decision)
    case _ => None
  }

  function Rank(s: Service): nat {
    match s
    case Application => 0
    case Feature => 1
    case Scoring => 2
    case Decision => 3
    case Assistant => 4
    case Audit => 5
  }

  /** The queue bindings: each consumer binds its upstream's event name, audit binds credit.#. */
  predicate Receives(s: Service, name: string) {
    if s.Audit? then |name| >= 7 && name[..7] == "credit."
    else Upstream(s).Some? && name == Emits(Upstream(s).value)
  }

  predicate Feeds(u: Service, s: Service) {
    !u.Audit? && (s.Audit? || Upstream(s) == Some(u))
  }

  lemma EmitsDistinct(u: Service, v: Service)
    requires Emits(u) == Emits(v)
    ensures u == v
  {
    if !u.Audit? && !v.Audit? {
      assert Emits(u)[7] == Emits(v)[7];
      assert Emits(u)[8] == Emits(v)[8];
    }
  }

  lemma FeedsIsReceives(u: Service, s: Service)
    requires !u.Audit?
    ensures Receives(s, Emits(u)) <==> Feeds(u, s)
  {
    if Upstream(s).Some? && Emits(u) == Emits(Upstream(s).value) {
      EmitsDistinct(u, Upstream(s).value);
    }
    assert Emits(u)[..7] == "credit.";
  }

  /** Where a history row came from. For feature, scoring and assistant this is the source_event_id column;
      the decision table does not store it. */
  datatype Origin = Http | Consumed(source: Id)

  datatype HistoryRow = HistoryRow(eventId: Id, origin: Origin)

  /** A service's tables and its queue. A queue is declared and bound when the service first consumes; from
      then on it is durable. */
  datatype Node = Node(
    bound: bool,
    relay: LP.State,
    inbox: map<Id, Envelope>,
    history: seq<HistoryRow>,
    queue: multiset<Envelope>,
    dlq: multiset<Envelope>,
    dropped: multiset<Envelope>)

  type Nodes = m: map<Service, Node> | forall s: Service :: s in m
    witness map s: Service | true :: EMPTY

  const EMPTY := Node(false, LP.State(map[], 0, {}, map[], map[], {}, {}), map[], [], multiset{}, multiset{}, multiset{})

  /** The whole system, with every identifier ever generated. */
  datatype Net = Net(nodes: Nodes, ids: set<Id>)

  datatype Label =
    | HttpRequest(s: Service, d: Envelope)
    | Bind(s: Service)
    | Handle(s: Service, e: Envelope, newId: Id, at: string, payload: map<string, Json>)
    | Ack(s: Service, e: Envelope)
    | Reject(s: Service, e: Envelope)
    | Redeliver(s: Service, e: Envelope)
    | Relay(s: Service, l: LP.Label, e: Envelope)
    | Replay(s: Service, e: Envelope, accepted: bool, delivered: bool)

  /** The stored row j under key id is the JSON form of e, an event the service emits. */
  ghost predicate RowOf(s: Service, id: Id, j: Json, e: Envelope) {
    Proper(e) && e.eventName == Emits(s) && e.eventId == id && j == Dump(e)
  }

  /** What a consuming service derives from an event. */
  function DerivedFrom(s: Service, e: Envelope, newId: Id, at: string, payload: map<string, Json>): Envelope {
    Derived(EventContext(e), if s.Decision? then None else Some(e.eventId), Emits(s), newId, e.traceId,
            Producer(s), at, payload)
  }

  predicate IsNewId(net: Net, id: Id) {
    id !in net.ids && LongEnough(id) && !Blank(id.text)
  }

  /** A handler transaction that rolls back is no step. An acknowledgement needs a handler that returned,
      so the event is in the inbox. The relay's own steps are those of the lease protocol, and what it
      publishes is the event stored in the claimed row. */
  ghost predicate Enabled(net: Net, l: Label) {
    match l
    case HttpRequest(s, d) =>
      !s.Audit? && Proper(d) && d.eventName == Emits(s) && IsNewId(net, d.eventId)
    case Bind(s) => !s.Application?
    case Handle(s, e, newId, at, payload) =>
      !s.Application? && e in net.nodes[s].queue && IsNewId(net, newId)
    case Ack(s, e) => e in net.nodes[s].queue && e.eventId in net.nodes[s].inbox
    case Reject(s, e) => e in net.nodes[s].queue
    case Redeliver(s, e) => e in net.nodes[s].queue
    case Relay(s, l, e) =>
      && !s.Audit? && !l.Enqueue? && LP.Enabled(net.nodes[s].relay, l)
      && (l.Publish? && l.c.id in net.nodes[s].relay.table ==>
            RowOf(s, l.c.id, net.nodes[s].relay.table[l.c.id].payload, e))
    case Replay(s, e, accepted, delivered) =>
      e in net.nodes[s].dlq && (accepted ==> delivered)
  }

  function Enqueue(r: LP.State, d: Envelope, max: nat): LP.State {
    LP.Apply(r, LP.Enqueue(d), max)
  }

  /** The consumer's transaction: inbox row, history row and outbox row together, or nothing for a duplicate. */
  function Handled(s: Service, n: Node, e: Envelope, newId: Id, at: string, payload: map<string, Json>, max: nat): Node {
    if e.eventId in n.inbox then n
    else if s.Audit? then
      n.(inbox := n.inbox[e.eventId := e], history := n.history + [HistoryRow(e.eventId, Consumed(e.eventId))])
    else
      n.(inbox := n.inbox[e.eventId := e],
         history := n.history + [HistoryRow(newId, Consumed(e.eventId))],
         relay := Enqueue(n.relay, DerivedFrom(s, e, newId, at, payload), max))
  }

  /** The intake transaction: a submission row and an outbox row; the same for the other services' own requests. */
  function Requested(n: Node, d: Envelope, max: nat): Node {
    n.(relay := Enqueue(n.relay, d, max), history := n.history + [HistoryRow(d.eventId, Http)])
  }

  /** The node once a dead letter is taken out; a replay that raised has dropped it. */
  function Taken(n: Node, e: Envelope, accepted: bool): Node {
    n.(dlq := n.dlq - multiset{e}, dropped := if accepted then n.dropped else n.dropped + multiset{e})
  }

  /** What a step does at its own service, apart from deliveries. */
  function Local(n: Node, l: Label, max: nat): Node {
    match l
    case HttpRequest(s, d) => Requested(n, d, max)
    case Bind(s) => n.(bound := true)
    case Handle(s, e, newId, at, payload) => Handled(s, n, e, newId, at, payload, max)
    case Ack(s, e) => n.(queue := n.queue - multiset{e})
    case Reject(s, e) => n.(queue := n.queue - multiset{e}, dlq := n.dlq + multiset{e})
    case Redeliver(s, e) => n.(queue := n.queue + multiset{e})
    case Relay(s, rl, e) => n.(relay := LP.Apply(n.relay, rl, max))
    case Replay(s, e, accepted, delivered) => Taken(n, e, accepted)
  }

  /** The event a step hands to the exchange. */
  function Sent(l: Label): Option<Envelope> {
    match l
    case Relay(_, rl, e) => if rl.Publish? && rl.delivered then Some(e) else None
    case Replay(_, e, _, delivered) => if delivered then Some(e) else None
    case _ => None
  }

  /** The services whose bindings match an event name, once they are bound. */
  function Audience(name: string): set<Service> {
    set s: Service | Receives(s, name)
  }

  /** The exchange copies an event into every queue that is bound to its name at that moment. */
  predicate Gets(net: Net, l: Label, s: Service) {
    Sent(l).Some? && net.nodes[s].bound && s in Audience(Sent(l).value.eventName)
  }

  function NodeAfter(net: Net, l: Label, max: nat, s: Service): Node {
    var n := if s == l.s then Local(net.nodes[s], l, max) else net.nodes[s];
    if Gets(net, l, s) then n.(queue := n.queue + multiset{Sent(l).value}) else n
  }

  function NewIds(l: Label): set<Id> {
    match l
    case HttpRequest(_, d) => {d.eventId}
    case Handle(_, _, newId, _, _) => {newId}
    case _ => {}
  }

  function Apply(net: Net, l: Label, max: nat): Net {
    Net(map s: Service | true :: NodeAfter(net, l, max, s), net.ids + NewIds(l))
  }

  ghost predicate IsStep(net: Net, l: Label, net': Net, max: nat) {
    Enabled(net, l) && net' == Apply(net, l, max)
  }

  ghost predicate Next(net: Net, net': Net, max: nat) {
    exists l :: IsStep(net, l, net', max)
  }

  ghost predicate IsInit(net: Net) {
    net.ids == {} && forall s :: LP.IsInit(net.nodes[s].relay) && net.nodes[s] == EMPTY.(relay := net.nodes[s].relay)
  }

  ghost predicate StepAt(run: seq<Net>, i: nat, max: nat) {
    i + 1 < |run| && Next(run[i], run[i + 1], max)
  }

  ghost predicate IsRun(run: seq<Net>, max: nat) {
    |run| >= 1 && IsInit(run[0]) && forall i | 0 <= i < |run| - 1 :: StepAt(run, i, max)
  }
}
