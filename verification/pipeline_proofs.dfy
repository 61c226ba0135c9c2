/** The pipeline's invariant: every step keeps it, whatever service takes it. */
module PipelineProofs {
  import opened Base
  import opened Json
  import opened Envelopes
  import opened Outbox
  import opened Tracing
  import opened Pipeline
  import LP = LeaseProtocol

  function Stored(n: Node): map<Id, Json> {
    Payloads(n.relay.table)
  }

  ghost predicate InOutbox(net: Net, u: Service, e: Envelope) {
    HasRow(u, net.nodes[u], e)
  }

  ghost predicate HasRow(u: Service, n: Node, e: Envelope) {
    e.eventId in Stored(n) && RowOf(u, e.eventId, Stored(n)[e.eventId], e)
  }

  /** The event sits in the outbox of a service the consumer listens to, and its queue is bound. */
  ghost predicate Arrived(net: Net, s: Service, e: Envelope) {
    net.nodes[s].bound && exists u :: Feeds(u, s) && InOutbox(net, u, e)
  }

  /** The consumer has the event: queued, dead-lettered, dropped by a failed replay, or processed. */
  predicate Has(n: Node, e: Envelope) {
    e in n.queue || e in n.dlq || e in n.dropped || (e.eventId in n.inbox && n.inbox[e.eventId] == e)
  }

  // ---- the parts of the invariant ----

  ghost predicate IsRow(s: Service, id: Id, j: Json) {
    exists e :: RowOf(s, id, j, e)
  }

  /** A node's rows hold events it emits, and its relay only works on them. */
  ghost predicate TableOk(s: Service, n: Node, ids: set<Id>) {
    && (forall id | id in Stored(n) :: id in ids && IsRow(s, id, Stored(n)[id]))
    && (forall c | c in n.relay.held :: c.id in Stored(n))
    && (forall id | id in n.relay.confirmed :: id in Stored(n))
    && (s.Audit? ==> Stored(n) == map[])
  }

  ghost predicate OutboxOk(net: Net) {
    && (forall s :: TableOk(s, net.nodes[s], net.ids))
    && (forall u, v, id | id in Stored(net.nodes[u]) && id in Stored(net.nodes[v]) :: u == v)
  }

  ghost predicate InboxOk(n: Node) {
    forall id | id in n.inbox :: n.inbox[id].eventId == id
  }

  ghost predicate MessagesOk(net: Net) {
    && (forall s, e | Has(net.nodes[s], e) :: Arrived(net, s, e))
    && (forall s :: InboxOk(net.nodes[s]))
  }

  ghost predicate Listed(history: seq<HistoryRow>, id: Id) {
    exists i :: 0 <= i < |history| && history[i].eventId == id
  }

  ghost predicate Processed(history: seq<HistoryRow>, src: Id) {
    exists i :: 0 <= i < |history| && history[i].origin == Consumed(src)
  }

  /** One history row for each inbox row, none for anything else, no event id twice. */
  ghost predicate HistoryOk(n: Node) {
    && (forall i | 0 <= i < |n.history| && n.history[i].origin.Consumed? :: n.history[i].origin.source in n.inbox)
    && (forall src | src in n.inbox :: Processed(n.history, src))
    && (forall i, j | 0 <= i < j < |n.history| && n.history[i].origin.Consumed? :: n.history[i].origin != n.history[j].origin)
    && (forall i, j | 0 <= i < j < |n.history| :: n.history[i].eventId != n.history[j].eventId)
  }

  /** The outbox row under id is the event derived from src. */
  ghost predicate Carries(s: Service, n: Node, id: Id, src: Id, d: Envelope) {
    && d.eventId == id && HasRow(s, n, d) && src in n.inbox
    && d.causationId == Some(src)
    && d.traceId == n.inbox[src].traceId
    && d.correlationId == n.inbox[src].correlationId
  }

  ghost predicate IsDerived(s: Service, n: Node, r: HistoryRow) {
    r.origin.Consumed? ==> exists d :: Carries(s, n, r.eventId, r.origin.source, d)
  }

  /** The outbox holds exactly the history's events; a consumed one carries its source's lineage. */
  ghost predicate DerivedOk(s: Service, n: Node) {
    && (forall i | 0 <= i < |n.history| :: n.history[i].eventId in Stored(n))
    && (forall id | id in Stored(n) :: Listed(n.history, id))
    && (forall i | 0 <= i < |n.history| :: IsDerived(s, n, n.history[i]))
  }

  ghost predicate AuditOk(n: Node) {
    forall i | 0 <= i < |n.history| :: n.history[i].origin == Consumed(n.history[i].eventId)
  }

  ghost predicate NodeOk(s: Service, n: Node) {
    HistoryOk(n) && (if s.Audit? then AuditOk(n) else DerivedOk(s, n))
  }

  ghost predicate RowsOk(net: Net) {
    forall s :: NodeOk(s, net.nodes[s])
  }

  ghost predicate Inv(net: Net) {
    OutboxOk(net) && MessagesOk(net) && RowsOk(net)
  }

  // ---- small facts ----

  lemma RowUnique(u: Service, n: Node, a: Envelope, b: Envelope)
    requires HasRow(u, n, a) && HasRow(u, n, b) && a.eventId == b.eventId
    ensures a == b
  {
    DumpInjective(a, b);
  }

  /** Two events of one consumer with one id are one event. */
  lemma ArrivedUnique(net: Net, s: Service, a: Envelope, b: Envelope)
    requires OutboxOk(net) && Arrived(net, s, a) && Arrived(net, s, b) && a.eventId == b.eventId
    ensures a == b
  {
    var u :| Feeds(u, s) && InOutbox(net, u, a);
    var v :| Feeds(v, s) && InOutbox(net, v, b);
    RowUnique(u, net.nodes[u], a, b);
  }

  /** What a relay step other than an enqueue does: the stored events stay, claims are only held on them,
      and nothing is confirmed but the event whose publish returned. */
  ghost predicate RelayMoved(r: LP.State, l: LP.Label, r': LP.State) {
    && Payloads(r'.table) == Payloads(r.table)
    && (forall c | c in r'.held :: c.id in r.table)
    && r'.confirmed == (if l.Publish? && l.accepted then r.confirmed + {l.c.id} else r.confirmed)
    && (l.Publish? ==> l.c.id in r.table)
  }

  lemma RelayStep(r: LP.State, l: LP.Label, r': LP.State, max: nat)
    requires LP.Enabled(r, l) && !l.Enqueue? && r' == LP.Apply(r, l, max)
    requires forall c | c in r.held :: c.id in r.table
    ensures RelayMoved(r, l, r')
  {
    match l
    case ClaimBatch(chosen, _, _, token, lease) =>
      CompletionsKeepPayloads(r.table, chosen, token, token, lease, "", max, 0, r.now);
    case Complete(c, at) => CompletionsKeepPayloads(r.table, {}, c.id, c.token, 0, "", max, at, r.now);
    case Fail(c, message) => CompletionsKeepPayloads(r.table, {}, c.id, c.token, 0, message, max, 0, r.now);
    case _ =>
  }

  lemma EnqueueStep(r: LP.State, d: Envelope, max: nat)
    requires d.eventId !in r.table
    ensures var r' := Enqueue(r, d, max);
      && Payloads(r'.table) == Payloads(r.table)[d.eventId := Dump(d)]
      && r'.held == r.held && r'.confirmed == r.confirmed
  {
    EnqueuePayloads(r.table, d, r.now);
  }

  // ---- what one step does to one node ----

  /** How a node may grow in one step: rows are added, never changed. */
  ghost predicate Grows(n: Node, n': Node) {
    && (forall id | id in Stored(n) :: id in Stored(n') && Stored(n')[id] == Stored(n)[id])
    && InboxOk(n') && (n.bound ==> n'.bound)
  }

  /** A good node that grew from the given one, its new rows under new identifiers. */
  ghost predicate GrownTo(s: Service, n: Node, n': Node, ids: set<Id>, newIds: set<Id>) {
    && Grows(n, n') && NodeOk(s, n') && TableOk(s, n', ids + newIds)
    && (forall id | id in Stored(n') :: id in Stored(n) || id in newIds)
  }

  // ---- steps that move messages only ----

  /** The same stored events, inbox and history; the relay still works only on stored events. */
  ghost predicate Moved(n: Node, n': Node) {
    && Stored(n') == Stored(n) && n'.inbox == n.inbox && n'.history == n.history && (n.bound ==> n'.bound)
    && (forall c | c in n'.relay.held :: c.id in Stored(n))
    && (forall id | id in n'.relay.confirmed :: id in Stored(n))
  }

  lemma NodeMoved(s: Service, n: Node, n': Node, ids: set<Id>)
    requires Moved(n, n') && NodeOk(s, n) && TableOk(s, n, ids) && InboxOk(n)
    ensures NodeOk(s, n') && TableOk(s, n', ids) && Grows(n, n')
  {
    if !s.Audit? {
      forall i | 0 <= i < |n'.history| ensures IsDerived(s, n', n'.history[i]) {
        DerivedMoved(s, n, n', n.history[i]);
      }
    }
  }

  lemma DerivedMoved(s: Service, n: Node, n': Node, r: HistoryRow)
    requires Moved(n, n') && IsDerived(s, n, r)
    ensures IsDerived(s, n', r)
  {
    if r.origin.Consumed? {
      var d :| Carries(s, n, r.eventId, r.origin.source, d);
      assert Carries(s, n', r.eventId, r.origin.source, d);
    }
  }

  /** What a relay step does to its own node. */
  lemma RelayStepMoves(s: Service, n: Node, ids: set<Id>, l: LP.Label, r': LP.State, max: nat)
    requires TableOk(s, n, ids) && LP.Enabled(n.relay, l) && !l.Enqueue? && r' == LP.Apply(n.relay, l, max)
    ensures RelayMoved(n.relay, l, r') && Moved(n, n.(relay := r'))
  {
    WorksOnRows(s, n, ids);
    RelayStep(n.relay, l, r', max);
    StaysMoved(s, n, ids, l, r');
  }

  lemma WorksOnRows(s: Service, n: Node, ids: set<Id>)
    requires TableOk(s, n, ids)
    ensures forall c | c in n.relay.held :: c.id in n.relay.table
  {
    forall c | c in n.relay.held ensures c.id in n.relay.table {
      assert c.id in Stored(n);
    }
  }

  lemma StaysMoved(s: Service, n: Node, ids: set<Id>, l: LP.Label, r': LP.State)
    requires TableOk(s, n, ids) && RelayMoved(n.relay, l, r')
    ensures Moved(n, n.(relay := r'))
  {
  }

  predicate AddsRows(l: Label) {
    l.HttpRequest? || l.Handle?
  }

  lemma MovedSelf(s: Service, n: Node, ids: set<Id>)
    requires TableOk(s, n, ids)
    ensures Moved(n, n)
  {
  }

  lemma QueuesMove(n: Node, l: Label, max: nat)
    requires Moved(n, n) && !AddsRows(l) && !l.Relay?
    ensures Moved(n, Local(n, l, max))
  {
  }

  lemma RelayEnabled(net: Net, l: Label)
    requires Enabled(net, l) && l.Relay?
    ensures LP.Enabled(net.nodes[l.s].relay, l.l) && !l.l.Enqueue?
  {
  }

  lemma LocalMoves(net: Net, l: Label, max: nat)
    requires OutboxOk(net) && Enabled(net, l) && !AddsRows(l)
    ensures Moved(net.nodes[l.s], Local(net.nodes[l.s], l, max))
  {
    var n := net.nodes[l.s];
    assert TableOk(l.s, n, net.ids);
    if l.Relay? {
      RelayEnabled(net, l);
      RelayStepMoves(l.s, n, net.ids, l.l, LP.Apply(n.relay, l.l, max), max);
    } else {
      MovedSelf(l.s, n, net.ids);
      QueuesMove(n, l, max);
    }
  }

  // ---- new rows ----

  lemma EmitsWellNamed(s: Service)
    requires !s.Audit?
    ensures EventNameOk(Emits(s))
  {
    match s
    case Application => WellNamed("credit", "application", "submitted");
    case Feature => WellNamed("credit", "feature", "materialized");
    case Scoring => WellNamed("credit", "scoring", "generated");
    case Decision => WellNamed("credit", "decision", "made");
    case Assistant => WellNamed("credit", "assistant", "summarized");
  }

  lemma DerivedIsRow(s: Service, e: Envelope, newId: Id, at: string, payload: map<string, Json>)
    requires Proper(e) && !s.Audit? && LongEnough(newId) && !Blank(newId.text)
    ensures var d := DerivedFrom(s, e, newId, at, payload);
      && Proper(d) && d.eventName == Emits(s) && d.eventId == newId
      && d.causationId == Some(e.eventId) && d.traceId == e.traceId && d.correlationId == e.correlationId
  {
    EmitsWellNamed(s);
    DerivedLineage(e, !s.Decision?, Emits(s), newId, Producer(s), at, payload);
  }

  /** The node gained one event d: an outbox row and a history row. */
  ghost predicate Gained(s: Service, n: Node, n': Node, d: Envelope, origin: Origin) {
    && !s.Audit? && Proper(d) && d.eventName == Emits(s) && d.eventId !in Stored(n)
    && Stored(n') == Stored(n)[d.eventId := Dump(d)]
    && n'.relay.held == n.relay.held && n'.relay.confirmed == n.relay.confirmed
    && n'.history == n.history + [HistoryRow(d.eventId, origin)]
  }

  lemma GainedTable(s: Service, n: Node, n': Node, d: Envelope, origin: Origin, ids: set<Id>)
    requires Gained(s, n, n', d, origin) && TableOk(s, n, ids)
    ensures TableOk(s, n', ids + {d.eventId})
    ensures HasRow(s, n', d)
    ensures forall id | id in Stored(n) :: id in Stored(n') && Stored(n')[id] == Stored(n)[id]
  {
    assert RowOf(s, d.eventId, Dump(d), d);
  }

  /** A history row whose cause is known stays right when rows and inbox entries are added. */
  lemma DerivedExtends(s: Service, n: Node, n': Node, r: HistoryRow)
    requires IsDerived(s, n, r)
    requires forall id | id in Stored(n) :: id in Stored(n') && Stored(n')[id] == Stored(n)[id]
    requires forall src | src in n.inbox :: src in n'.inbox && n'.inbox[src] == n.inbox[src]
    ensures IsDerived(s, n', r)
  {
    if r.origin.Consumed? {
      var d :| Carries(s, n, r.eventId, r.origin.source, d);
      assert Carries(s, n', r.eventId, r.origin.source, d);
    }
  }

  lemma ListedLonger(history: seq<HistoryRow>, r: HistoryRow, id: Id)
    requires id == r.eventId || Listed(history, id)
    ensures Listed(history + [r], id)
  {
    if id == r.eventId {
      assert (history + [r])[|history|].eventId == id;
    } else {
      var i :| 0 <= i < |history| && history[i].eventId == id;
      assert (history + [r])[i].eventId == id;
    }
  }

  lemma GainedDerived(s: Service, n: Node, n': Node, d: Envelope, origin: Origin)
    requires Gained(s, n, n', d, origin) && DerivedOk(s, n)
    requires forall src | src in n.inbox :: src in n'.inbox && n'.inbox[src] == n.inbox[src]
    requires origin.Consumed? ==> Carries(s, n', d.eventId, origin.source, d)
    ensures DerivedOk(s, n')
  {
    var r := HistoryRow(d.eventId, origin);
    forall i | 0 <= i < |n'.history| ensures n'.history[i].eventId in Stored(n') && IsDerived(s, n', n'.history[i]) {
      if i < |n.history| {
        assert n'.history[i] == n.history[i];
        DerivedExtends(s, n, n', n.history[i]);
      } else {
        assert n'.history[i] == r;
      }
    }
    forall id | id in Stored(n') ensures Listed(n'.history, id) {
      ListedLonger(n.history, r, id);
    }
  }

  lemma ProcessedLonger(history: seq<HistoryRow>, r: HistoryRow, src: Id)
    requires r.origin == Consumed(src) || Processed(history, src)
    ensures Processed(history + [r], src)
  {
    if r.origin == Consumed(src) {
      assert (history + [r])[|history|].origin == Consumed(src);
    } else {
      var i :| 0 <= i < |history| && history[i].origin == Consumed(src);
      assert (history + [r])[i].origin == Consumed(src);
    }
  }

  /** One more history row, under an id no row has, for an event that was not in the inbox. */
  lemma HistoryGains(n: Node, n': Node, id: Id, origin: Origin)
    requires HistoryOk(n) && n'.history == n.history + [HistoryRow(id, origin)]
    requires forall i | 0 <= i < |n.history| :: n.history[i].eventId != id
    requires n'.inbox.Keys == n.inbox.Keys + (if origin.Consumed? then {origin.source} else {})
    requires origin.Consumed? ==> origin.source !in n.inbox
    ensures HistoryOk(n')
  {
    forall src | src in n'.inbox ensures Processed(n'.history, src) {
      assert src in n'.inbox.Keys;
      ProcessedLonger(n.history, HistoryRow(id, origin), src);
    }
    forall i | 0 <= i < |n'.history| && n'.history[i].origin.Consumed? ensures n'.history[i].origin.source in n'.inbox {
      assert n'.history[i].origin.source in n'.inbox.Keys;
    }
  }

  lemma GainedNode(s: Service, n: Node, n': Node, d: Envelope, origin: Origin)
    requires Gained(s, n, n', d, origin) && NodeOk(s, n)
    requires n'.inbox.Keys == n.inbox.Keys + (if origin.Consumed? then {origin.source} else {})
    requires forall src | src in n.inbox :: src in n'.inbox && n'.inbox[src] == n.inbox[src]
    requires origin.Consumed? ==> origin.source !in n.inbox && Carries(s, n', d.eventId, origin.source, d)
    ensures NodeOk(s, n')
  {
    GainedDerived(s, n, n', d, origin);
    HistoryGains(n, n', d.eventId, origin);
  }

  // ---- the HTTP request ----

  lemma RequestNode(s: Service, n: Node, n': Node, d: Envelope, ids: set<Id>, max: nat)
    requires !s.Audit? && Proper(d) && d.eventName == Emits(s) && d.eventId !in ids
    requires NodeOk(s, n) && TableOk(s, n, ids) && InboxOk(n)
    requires n' == n.(relay := Enqueue(n.relay, d, max), history := n.history + [HistoryRow(d.eventId, Http)])
    ensures GrownTo(s, n, n', ids, {d.eventId})
  {
    assert d.eventId !in Stored(n);
    EnqueueStep(n.relay, d, max);
    RequestGained(s, n, n', d, ids);
  }

  lemma RequestGained(s: Service, n: Node, n': Node, d: Envelope, ids: set<Id>)
    requires Gained(s, n, n', d, Http) && NodeOk(s, n) && TableOk(s, n, ids) && InboxOk(n)
    requires n' == n.(relay := n'.relay, history := n'.history)
    ensures GrownTo(s, n, n', ids, {d.eventId})
  {
    GainedTable(s, n, n', d, Http, ids);
    SameInbox(n, n');
    GainedNode(s, n, n', d, Http);
  }

  lemma SameInbox(n: Node, n': Node)
    requires InboxOk(n) && n'.inbox == n.inbox && n'.queue == n.queue && n'.dlq == n.dlq && n'.dropped == n.dropped
    ensures InboxOk(n') && SameHas(n, n')
    ensures n'.inbox.Keys == n.inbox.Keys
    ensures forall src | src in n.inbox :: src in n'.inbox && n'.inbox[src] == n.inbox[src]
  {
  }

  // ---- the handler ----

  lemma InboxGains(n: Node, n': Node, e: Envelope)
    requires InboxOk(n) && e in n.queue && e.eventId !in n.inbox
    requires n'.inbox == n.inbox[e.eventId := e] && n'.queue == n.queue && n'.dlq == n.dlq && n'.dropped == n.dropped
    ensures InboxOk(n') && SameHas(n, n')
    ensures n'.inbox.Keys == n.inbox.Keys + {e.eventId}
    ensures forall src | src in n.inbox :: src in n'.inbox && n'.inbox[src] == n.inbox[src]
  {
  }

  lemma HandleConsumer(s: Service, n: Node, n': Node, e: Envelope, d: Envelope, ids: set<Id>, max: nat)
    requires !s.Audit? && Proper(d) && d.eventName == Emits(s) && d.eventId !in ids
    requires d.causationId == Some(e.eventId) && d.traceId == e.traceId && d.correlationId == e.correlationId
    requires e in n.queue && e.eventId !in n.inbox
    requires NodeOk(s, n) && TableOk(s, n, ids) && InboxOk(n)
    requires n' == n.(inbox := n.inbox[e.eventId := e], relay := Enqueue(n.relay, d, max),
                      history := n.history + [HistoryRow(d.eventId, Consumed(e.eventId))])
    ensures GrownTo(s, n, n', ids, {d.eventId})
  {
    assert d.eventId !in Stored(n);
    EnqueueStep(n.relay, d, max);
    GainedTable(s, n, n', d, Consumed(e.eventId), ids);
    InboxGains(n, n', e);
    assert Carries(s, n', d.eventId, e.eventId, d);
    GainedNode(s, n, n', d, Consumed(e.eventId));
  }

  lemma HandleAudit(n: Node, n': Node, e: Envelope, ids: set<Id>)
    requires e in n.queue && e.eventId !in n.inbox
    requires NodeOk(Audit, n) && TableOk(Audit, n, ids) && InboxOk(n)
    requires n' == n.(inbox := n.inbox[e.eventId := e], history := n.history + [HistoryRow(e.eventId, Consumed(e.eventId))])
    ensures Grows(n, n') && NodeOk(Audit, n') && TableOk(Audit, n', ids)
  {
    InboxGains(n, n', e);
    forall i | 0 <= i < |n.history| ensures n.history[i].eventId != e.eventId {
      assert n.history[i].origin.source in n.inbox;
    }
    HistoryGains(n, n', e.eventId, Consumed(e.eventId));
  }

  lemma HandleNode(s: Service, n: Node, n': Node, e: Envelope, newId: Id, at: string, payload: map<string, Json>,
                   ids: set<Id>, max: nat)
    requires !s.Application? && Proper(e) && e in n.queue && newId !in ids && LongEnough(newId) && !Blank(newId.text)
    requires NodeOk(s, n) && TableOk(s, n, ids) && InboxOk(n)
    requires n' == Handled(s, n, e, newId, at, payload, max)
    ensures GrownTo(s, n, n', ids, {newId})
  {
    if e.eventId in n.inbox {
      TableWidens(s, n, ids, ids + {newId});
    } else if s.Audit? {
      HandleAudit(n, n', e, ids);
      TableWidens(s, n', ids, ids + {newId});
    } else {
      DerivedIsRow(s, e, newId, at, payload);
      HandleConsumer(s, n, n', e, DerivedFrom(s, e, newId, at, payload), ids, max);
    }
  }

  lemma QueuedIsProper(net: Net, s: Service, e: Envelope)
    requires MessagesOk(net) && e in net.nodes[s].queue
    ensures Proper(e)
  {
    assert Has(net.nodes[s], e);
    var u :| Feeds(u, s) && InOutbox(net, u, e);
  }

  // ---- one step of the whole ----

  lemma AfterAt(net: Net, l: Label, net': Net, max: nat, x: Service)
    requires net' == Apply(net, l, max)
    ensures net'.nodes[x] == NodeAfter(net, l, max, x)
  {
  }

  lemma MovedGrows(s: Service, n: Node, n': Node, ids: set<Id>)
    requires NodeOk(s, n) && TableOk(s, n, ids) && InboxOk(n) && Moved(n, n')
    ensures GrownTo(s, n, n', ids, {})
  {
    NodeMoved(s, n, n', ids);
    assert ids + {} == ids;
  }

  lemma LocalGrows(net: Net, l: Label, max: nat)
    requires OutboxOk(net) && MessagesOk(net) && Enabled(net, l)
    requires NodeOk(l.s, net.nodes[l.s]) && TableOk(l.s, net.nodes[l.s], net.ids) && InboxOk(net.nodes[l.s])
    ensures GrownTo(l.s, net.nodes[l.s], Local(net.nodes[l.s], l, max), net.ids, NewIds(l))
  {
    var n := net.nodes[l.s];
    match l
    case HttpRequest(s, d) => RequestNode(s, n, Local(n, l, max), d, net.ids, max);
    case Handle(s, e, newId, at, payload) =>
      QueuedIsProper(net, s, e);
      HandleNode(s, n, Local(n, l, max), e, newId, at, payload, net.ids, max);
    case _ =>
      LocalMoves(net, l, max);
      MovedGrows(l.s, n, Local(n, l, max), net.ids);
  }

  lemma NodeGood(net: Net, s: Service)
    requires Inv(net)
    ensures NodeOk(s, net.nodes[s]) && TableOk(s, net.nodes[s], net.ids) && InboxOk(net.nodes[s])
  {
  }

  lemma Unmoved(s: Service, n: Node, ids: set<Id>)
    requires NodeOk(s, n) && TableOk(s, n, ids) && InboxOk(n)
    ensures GrownTo(s, n, n, ids, {})
  {
    MovedGrows(s, n, n, ids);
  }

  lemma OwnGrows(net: Net, l: Label, net': Net, max: nat)
    requires Inv(net) && Enabled(net, l) && net' == Apply(net, l, max)
    ensures GrownTo(l.s, net.nodes[l.s], net'.nodes[l.s], net.ids, NewIds(l))
  {
    NodeGood(net, l.s);
    LocalGrows(net, l, max);
    AfterAt(net, l, net', max, l.s);
    CopyGrows(l.s, net.nodes[l.s], Local(net.nodes[l.s], l, max), net'.nodes[l.s], net.ids, NewIds(l));
  }

  lemma OtherGrows(net: Net, l: Label, net': Net, max: nat, x: Service)
    requires Inv(net) && net' == Apply(net, l, max) && x != l.s
    ensures GrownTo(x, net.nodes[x], net'.nodes[x], net.ids, {})
  {
    NodeGood(net, x);
    Unmoved(x, net.nodes[x], net.ids);
    AfterAt(net, l, net', max, x);
    CopyGrows(x, net.nodes[x], net.nodes[x], net'.nodes[x], net.ids, {});
  }

  lemma NodeGrows(net: Net, l: Label, net': Net, max: nat, x: Service)
    requires Inv(net) && Enabled(net, l) && net' == Apply(net, l, max)
    ensures GrownTo(x, net.nodes[x], net'.nodes[x], net.ids, if x == l.s then NewIds(l) else {})
  {
    if x == l.s {
      OwnGrows(net, l, net', max);
    } else {
      OtherGrows(net, l, net', max, x);
    }
  }

  /** One more copy in the queue changes no row. */
  lemma CopyGrows(s: Service, n: Node, m: Node, n': Node, ids: set<Id>, newIds: set<Id>)
    requires GrownTo(s, n, m, ids, newIds) && n' == m.(queue := n'.queue)
    ensures GrownTo(s, n, n', ids, newIds)
  {
    NodeMoved(s, m, n', ids + newIds);
  }

  lemma TableWidens(s: Service, n: Node, ids: set<Id>, more: set<Id>)
    requires TableOk(s, n, ids) && ids <= more
    ensures TableOk(s, n, more)
  {
  }

  lemma TablesKept(net: Net, l: Label, net': Net, max: nat)
    requires Inv(net) && Enabled(net, l) && net' == Apply(net, l, max)
    ensures OutboxOk(net') && RowsOk(net')
  {
    forall x ensures TableOk(x, net'.nodes[x], net'.ids) && NodeOk(x, net'.nodes[x]) {
      NodeGrows(net, l, net', max, x);
      TableWidens(x, net'.nodes[x], net.ids + (if x == l.s then NewIds(l) else {}), net'.ids);
    }
    forall u, v, id | id in Stored(net'.nodes[u]) && id in Stored(net'.nodes[v]) ensures u == v {
      OwnsRow(net, l, net', max, u, id);
      OwnsRow(net, l, net', max, v, id);
    }
  }

  lemma NewIdsAreNew(net: Net, l: Label)
    requires Enabled(net, l)
    ensures NewIds(l) !! net.ids
  {
  }

  lemma OwnsRow(net: Net, l: Label, net': Net, max: nat, x: Service, id: Id)
    requires Inv(net) && Enabled(net, l) && net' == Apply(net, l, max) && id in Stored(net'.nodes[x])
    ensures if id in NewIds(l) then x == l.s else id in Stored(net.nodes[x])
  {
    NodeGrows(net, l, net', max, x);
    NewIdsAreNew(net, l);
    assert TableOk(x, net.nodes[x], net.ids);
  }

  // ---- who has what ----

  /** The queued event is the one the inbox holds under its id. */
  lemma QueuedIsKept(net: Net, s: Service, e: Envelope)
    requires OutboxOk(net) && MessagesOk(net) && e in net.nodes[s].queue && e.eventId in net.nodes[s].inbox
    ensures net.nodes[s].inbox[e.eventId] == e
  {
    var kept := net.nodes[s].inbox[e.eventId];
    assert InboxOk(net.nodes[s]);
    assert Has(net.nodes[s], e) && Has(net.nodes[s], kept);
    ArrivedUnique(net, s, e, kept);
  }

  ghost predicate SameHas(n: Node, n': Node) {
    forall e :: Has(n', e) <==> Has(n, e)
  }

  lemma HandledHas(s: Service, n: Node, e: Envelope, newId: Id, at: string, payload: map<string, Json>, max: nat)
    requires e in n.queue
    ensures SameHas(n, Handled(s, n, e, newId, at, payload, max))
  {
  }

  lemma AnsweredHas(n: Node, l: Label, max: nat)
    requires l.Reject? || l.Redeliver? || (l.Ack? && l.e.eventId in n.inbox && n.inbox[l.e.eventId] == l.e)
    requires l.e in n.queue
    ensures SameHas(n, Local(n, l, max))
  {
  }

  lemma LocalHas(net: Net, l: Label, max: nat)
    requires OutboxOk(net) && MessagesOk(net) && Enabled(net, l) && !l.Replay?
    ensures SameHas(net.nodes[l.s], Local(net.nodes[l.s], l, max))
  {
    var n := net.nodes[l.s];
    match l
    case Handle(s, e, newId, at, payload) => HandledHas(s, n, e, newId, at, payload, max);
    case Ack(s, e) =>
      QueuedIsKept(net, s, e);
      AnsweredHas(n, l, max);
    case Reject(_, _) => AnsweredHas(n, l, max);
    case Redeliver(_, _) => AnsweredHas(n, l, max);
    case _ =>
  }

  /** A published event matches the bindings of every consumer of the service that emitted it, and of nobody else. */
  lemma AudienceIs(u: Service, e: Envelope)
    requires !u.Audit? && e.eventName == Emits(u)
    ensures forall s: Service :: s in Audience(e.eventName) <==> Feeds(u, s)
  {
    forall s: Service ensures Receives(s, e.eventName) <==> Feeds(u, s) {
      FeedsIsReceives(u, s);
    }
  }

  lemma StoredAudience(net: Net, u: Service, e: Envelope)
    requires OutboxOk(net) && InOutbox(net, u, e)
    ensures forall s: Service :: s in Audience(e.eventName) <==> Feeds(u, s)
  {
    assert TableOk(u, net.nodes[u], net.ids);
    AudienceIs(u, e);
  }

  /** Whoever has an event is bound to its name. */
  lemma HolderListens(net: Net, s: Service, e: Envelope)
    requires OutboxOk(net) && MessagesOk(net) && Has(net.nodes[s], e)
    ensures net.nodes[s].bound && s in Audience(e.eventName)
  {
    var u :| Feeds(u, s) && InOutbox(net, u, e);
    StoredAudience(net, u, e);
  }

  lemma TakenHas(n: Node, e: Envelope, accepted: bool, x: Envelope)
    requires e in n.dlq
    ensures Has(Taken(n, e, accepted), x) ==> Has(n, x)
    ensures Has(n, x) ==> Has(Taken(n, e, accepted), x) || (x == e && accepted)
  {
  }

  lemma DeadLetterListens(net: Net, s: Service, e: Envelope)
    requires OutboxOk(net) && MessagesOk(net) && e in net.nodes[s].dlq
    ensures net.nodes[s].bound && s in Audience(e.eventName)
  {
    assert Has(net.nodes[s], e);
    HolderListens(net, s, e);
  }

  lemma StepIsLocal(net: Net, l: Label, net': Net, max: nat, x: Service, e: Envelope)
    requires net' == Apply(net, l, max)
    ensures var m := if x == l.s then Local(net.nodes[x], l, max) else net.nodes[x];
      Has(net'.nodes[x], e) <==> Has(m, e) || (Gets(net, l, x) && Sent(l) == Some(e))
  {
    AfterAt(net, l, net', max, x);
    CopyHas(if x == l.s then Local(net.nodes[x], l, max) else net.nodes[x], net'.nodes[x], Gets(net, l, x), Sent(l), e);
  }

  lemma ReplayHas(net: Net, l: Label, net': Net, max: nat, e: Envelope)
    requires OutboxOk(net) && MessagesOk(net) && l.Replay? && l.e in net.nodes[l.s].dlq && (l.accepted ==> l.delivered)
    requires net' == Apply(net, l, max)
    ensures Has(net'.nodes[l.s], e) <==> Has(net.nodes[l.s], e) || (Gets(net, l, l.s) && Sent(l) == Some(e))
  {
    DeadLetterListens(net, l.s, l.e);
    TakenHas(net.nodes[l.s], l.e, l.accepted, e);
    StepIsLocal(net, l, net', max, l.s, e);
  }

  /** A step leaves each consumer exactly what it had and the copy it gets; nothing is ever taken away. */
  lemma StepHas(net: Net, l: Label, net': Net, max: nat, x: Service, e: Envelope)
    requires OutboxOk(net) && MessagesOk(net) && Enabled(net, l) && net' == Apply(net, l, max)
    ensures Has(net'.nodes[x], e) <==> Has(net.nodes[x], e) || (Gets(net, l, x) && Sent(l) == Some(e))
  {
    if x == l.s && l.Replay? {
      ReplayHas(net, l, net', max, e);
    } else {
      StepIsLocal(net, l, net', max, x, e);
      if x == l.s {
        LocalHas(net, l, max);
      }
    }
  }

  lemma CopyHas(m: Node, n': Node, gets: bool, sent: Option<Envelope>, e: Envelope)
    requires gets ==> sent.Some?
    requires n' == if gets then m.(queue := m.queue + multiset{sent.value}) else m
    ensures Has(n', e) <==> Has(m, e) || (gets && sent == Some(e))
  {
  }

  /** What a step sends is in the outbox of a service whose consumers' bindings match it. */
  lemma SentIsStored(net: Net, l: Label, max: nat)
    requires OutboxOk(net) && MessagesOk(net) && Enabled(net, l) && Sent(l).Some?
    ensures exists u :: InOutbox(net, u, Sent(l).value)
  {
    if l.Replay? {
      assert Has(net.nodes[l.s], l.e);
      var u :| Feeds(u, l.s) && InOutbox(net, u, l.e);
    } else {
      WorksOnRows(l.s, net.nodes[l.s], net.ids);
      assert InOutbox(net, l.s, l.e);
    }
  }

  lemma SentArrives(net: Net, l: Label, max: nat, x: Service)
    requires OutboxOk(net) && MessagesOk(net) && Enabled(net, l) && Gets(net, l, x)
    ensures Arrived(net, x, Sent(l).value)
  {
    SentIsStored(net, l, max);
    var u :| InOutbox(net, u, Sent(l).value);
    StoredAudience(net, u, Sent(l).value);
  }

  lemma GrownRow(net: Net, net': Net, u: Service, e: Envelope)
    requires Grows(net.nodes[u], net'.nodes[u]) && InOutbox(net, u, e)
    ensures InOutbox(net', u, e)
  {
  }

  lemma ArrivedStays(net: Net, l: Label, net': Net, max: nat, x: Service, e: Envelope)
    requires Inv(net) && Enabled(net, l) && net' == Apply(net, l, max) && Arrived(net, x, e)
    ensures Arrived(net', x, e)
  {
    var u :| Feeds(u, x) && InOutbox(net, u, e);
    NodeGrows(net, l, net', max, u);
    NodeGrows(net, l, net', max, x);
    GrownRow(net, net', u, e);
  }

  lemma MessagesKept(net: Net, l: Label, net': Net, max: nat)
    requires Inv(net) && Enabled(net, l) && net' == Apply(net, l, max)
    ensures MessagesOk(net')
  {
    forall x, e | Has(net'.nodes[x], e) ensures Arrived(net', x, e) {
      StepHas(net, l, net', max, x, e);
      if !Has(net.nodes[x], e) {
        SentArrives(net, l, max, x);
      }
      ArrivedStays(net, l, net', max, x, e);
    }
    forall x ensures InboxOk(net'.nodes[x]) {
      NodeGrows(net, l, net', max, x);
    }
  }

  // ---- what the new rows hold ----

  /** The row under an id is the given event's JSON form, whatever clock it is read by. */
  ghost predicate Stores(n: Node, e: Envelope) {
    e.eventId in n.relay.table && ReadsAs(n.relay.table[e.eventId].payload, e)
  }

  /** An event seen first leaves one new outbox row: the service's own event under the new id, with the source's
      trace and correlation ids, the source as its cause unless its id is blank, and the payload computed. */
  lemma HandledEmits(s: Service, n: Node, e: Envelope, newId: Id, at: string, payload: map<string, Json>, max: nat)
    requires !s.Audit? && Valid(e) && LongEnough(newId) && e.eventId !in n.inbox && newId !in n.relay.table
    ensures var cause := if Blank(e.eventId.text) then None else Some(e.eventId);
      Stores(Handled(s, n, e, newId, at, payload, max),
             Envelope(Emits(s), newId, e.traceId, e.correlationId, cause, Producer(s), at, payload))
  {
    EmitsWellNamed(s);
    DerivedLineage(e, !s.Decision?, Emits(s), newId, Producer(s), at, payload);
    DumpReads(DerivedFrom(s, e, newId, at, payload));
  }

  /** A request leaves its own event in the outbox, member for member. */
  lemma RequestedStores(n: Node, d: Envelope, max: nat)
    requires Valid(d) && d.eventId !in n.relay.table
    ensures Stores(Requested(n, d, max), d)
  {
    DumpReads(d);
  }

  // ---- every run ----

  lemma InitInv(net: Net)
    requires IsInit(net)
    ensures Inv(net)
  {
    forall s ensures Stored(net.nodes[s]) == map[] && NodeOk(s, net.nodes[s]) && TableOk(s, net.nodes[s], net.ids) {
    }
  }

  lemma NextKeeps(net: Net, net': Net, max: nat)
    requires Inv(net) && Next(net, net', max)
    ensures Inv(net')
  {
    var l :| IsStep(net, l, net', max);
    TablesKept(net, l, net', max);
    MessagesKept(net, l, net', max);
  }

  lemma StepKeeps(run: seq<Net>, max: nat, i: nat)
    requires IsRun(run, max) && 1 <= i < |run| && Inv(run[i - 1])
    ensures Inv(run[i])
  {
    assert StepAt(run, i - 1, max);
    NextKeeps(run[i - 1], run[i], max);
  }

  lemma StartKeeps(run: seq<Net>, max: nat)
    requires IsRun(run, max)
    ensures Inv(run[0])
  {
    InitInv(run[0]);
  }

  lemma {:induction false} RunKeeps(run: seq<Net>, max: nat, i: nat)
    requires IsRun(run, max) && i < |run|
    ensures Inv(run[i])
  {
    if i == 0 {
      StartKeeps(run, max);
    } else {
      RunKeeps(run, max, i - 1);
      StepKeeps(run, max, i);
    }
  }
}
