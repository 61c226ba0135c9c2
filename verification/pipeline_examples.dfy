/** A run in which a published event never reaches a consumer. */
module PipelineExamples {
  import opened Base
  import opened Envelopes
  import opened Outbox
  import opened Tracing
  import opened Pipeline
  import opened PipelineProofs
  import LP = LeaseProtocol

  const START := Net(map s: Service | true :: EMPTY, {})

  lemma StartIsInit()
    ensures IsInit(START)
  {
    assert EMPTY.(relay := EMPTY.relay) == EMPTY;
  }

  /** A step of the application changes its own node only by what it does there, and leaves unbound ones alone. */
  lemma ApplicationStep(net: Net, l: Label, max: nat)
    requires l.s.Application? && !net.nodes[Feature].bound
    ensures Apply(net, l, max).nodes[Application] == Local(net.nodes[Application], l, max)
    ensures Apply(net, l, max).nodes[Feature] == net.nodes[Feature]
  {
  }

  /** The relay of the application once the event is submitted. */
  function Submitted(d: Envelope, max: nat): LP.State {
    Enqueue(EMPTY.relay, d, max)
  }

  function ClaimOf(d: Envelope, token: Id): LP.Label {
    LP.ClaimBatch({d.eventId}, 1, {}, token, 30)
  }

  function PublishOf(d: Envelope, token: Id): LP.Label {
    LP.Publish(LP.Claim(d.eventId, token), true, true)
  }

  function CompleteOf(d: Envelope, token: Id): LP.Label {
    LP.Complete(LP.Claim(d.eventId, token), 0)
  }

  lemma ClaimEnabled(d: Envelope, token: Id, max: nat)
    ensures LP.Enabled(Submitted(d, max), ClaimOf(d, token))
  {
    var r := Submitted(d, max);
    assert Available(r.table, {}, r.now) == {d.eventId};
  }

  lemma ClaimedState(d: Envelope, token: Id, max: nat)
    ensures var r := LP.Apply(Submitted(d, max), ClaimOf(d, token), max);
      && d.eventId in r.table && r.table[d.eventId].payload == Dump(d)
      && HoldsClaim(r.table, d.eventId, token)
      && LP.Claim(d.eventId, token) in r.held && r.held[LP.Claim(d.eventId, token)].Unpublished?
  {
  }

  /** The same relay once a worker has claimed the event and its publish has returned. */
  function AfterPublish(d: Envelope, token: Id, max: nat): LP.State {
    LP.Apply(LP.Apply(Submitted(d, max), ClaimOf(d, token), max), PublishOf(d, token), max)
  }

  lemma PublishedState(d: Envelope, token: Id, max: nat)
    ensures var r := AfterPublish(d, token, max);
      && LP.Enabled(r, CompleteOf(d, token))
      && var r' := LP.Apply(r, CompleteOf(d, token), max);
         d.eventId in r'.table && r'.table[d.eventId].publishedAt.Some? && r'.table[d.eventId].payload == Dump(d)
  {
    ClaimedState(d, token, max);
  }

  /** Submit, claim, publish, mark published, and only then the feature service starts to consume. */
  function LateBind(d: Envelope, token: Id): seq<Label> {
    [HttpRequest(Application, d), Relay(Application, ClaimOf(d, token), d), Relay(Application, PublishOf(d, token), d),
     Relay(Application, CompleteOf(d, token), d), Bind(Feature)]
  }

  /** The states a list of steps goes through. */
  function States(net: Net, labels: seq<Label>, max: nat): (run: seq<Net>)
    ensures |run| == |labels| + 1 && run[0] == net
    ensures forall i | 0 <= i < |labels| :: run[i + 1] == Apply(run[i], labels[i], max)
    decreases |labels|
  {
    if labels == [] then [net] else [net] + States(Apply(net, labels[0], max), labels[1..], max)
  }

  /** What the application's relay and the feature service's node are along the run. */
  lemma LateBindNodes(d: Envelope, token: Id, max: nat)
    ensures var run := States(START, LateBind(d, token), max);
      && run[0].nodes[Application].relay == EMPTY.relay && run[0].ids == {}
      && run[1].nodes[Application].relay == Submitted(d, max)
      && run[2].nodes[Application].relay == LP.Apply(Submitted(d, max), ClaimOf(d, token), max)
      && run[3].nodes[Application].relay == AfterPublish(d, token, max)
      && run[4].nodes[Application].relay == LP.Apply(AfterPublish(d, token, max), CompleteOf(d, token), max)
      && run[5].nodes[Application] == run[4].nodes[Application]
      && run[4].nodes[Feature] == EMPTY && run[5].nodes[Feature] == EMPTY.(bound := true)
  {
    var labels := LateBind(d, token);
    var run := States(START, labels, max);
    assert run[1] == Apply(run[0], labels[0], max) && run[2] == Apply(run[1], labels[1], max);
    assert run[3] == Apply(run[2], labels[2], max) && run[4] == Apply(run[3], labels[3], max);
    ApplicationStep(run[0], labels[0], max);
    ApplicationStep(run[1], labels[1], max);
    ApplicationStep(run[2], labels[2], max);
    ApplicationStep(run[3], labels[3], max);
    BindStep(run[4], max);
    assert run[5] == Apply(run[4], labels[4], max);
  }

  lemma BindStep(net: Net, max: nat)
    ensures Apply(net, Bind(Feature), max).nodes[Application] == net.nodes[Application]
    ensures Apply(net, Bind(Feature), max).nodes[Feature] == net.nodes[Feature].(bound := true)
  {
  }

  lemma RelayMay(net: Net, l: LP.Label, d: Envelope)
    requires LP.Enabled(net.nodes[Application].relay, l) && !l.Enqueue?
    requires l.Publish? ==> l.c.id == d.eventId && d.eventId in net.nodes[Application].relay.table
    requires l.Publish? ==> RowOf(Application, d.eventId, net.nodes[Application].relay.table[d.eventId].payload, d)
    ensures Enabled(net, Relay(Application, l, d))
  {
  }

  lemma StepOf(run: seq<Net>, i: nat, l: Label, max: nat)
    requires i + 1 < |run| && Enabled(run[i], l) && run[i + 1] == Apply(run[i], l, max)
    ensures StepAt(run, i, max)
  {
    assert IsStep(run[i], l, run[i + 1], max);
  }

  lemma RowStored(net: Net, d: Envelope, token: Id, max: nat)
    requires Proper(d) && d.eventName == Emits(Application)
    requires net.nodes[Application].relay == LP.Apply(Submitted(d, max), ClaimOf(d, token), max)
    ensures Enabled(net, Relay(Application, PublishOf(d, token), d))
  {
    ClaimedState(d, token, max);
    assert RowOf(Application, d.eventId, Dump(d), d);
    RelayMay(net, PublishOf(d, token), d);
  }

  lemma RequestEnabled(d: Envelope)
    requires Proper(d) && d.eventName == Emits(Application)
    ensures Enabled(START, HttpRequest(Application, d))
  {
  }

  lemma LateBindEnabled(d: Envelope, token: Id, max: nat, i: nat)
    requires Proper(d) && d.eventName == Emits(Application) && i < 5
    ensures Enabled(States(START, LateBind(d, token), max)[i], LateBind(d, token)[i])
  {
    var run := States(START, LateBind(d, token), max);
    LateBindNodes(d, token, max);
    match i
    case 0 => RequestEnabled(d);
    case 1 =>
      ClaimEnabled(d, token, max);
      RelayMay(run[1], ClaimOf(d, token), d);
    case 2 => RowStored(run[2], d, token, max);
    case 3 =>
      PublishedState(d, token, max);
      RelayMay(run[3], CompleteOf(d, token), d);
    case _ =>
  }

  lemma LateBindIsRun(d: Envelope, token: Id, max: nat)
    requires Proper(d) && d.eventName == Emits(Application)
    ensures IsRun(States(START, LateBind(d, token), max), max)
  {
    var labels := LateBind(d, token);
    var run := States(START, labels, max);
    StartIsInit();
    forall i: nat | i < |run| - 1 ensures StepAt(run, i, max) {
      LateBindEnabled(d, token, max, i);
      StepOf(run, i, labels[i], max);
    }
  }

  /** Whatever event the application emits, there is a run that confirms it and marks its row published, in
      which the feature service's queue is bound afterwards and the feature service never has the event. */
  lemma LateBindMisses(d: Envelope, token: Id, max: nat) returns (run: seq<Net>)
    requires Proper(d) && d.eventName == Emits(Application)
    ensures IsRun(run, max)
    ensures var last := run[|run| - 1];
      && InOutbox(last, Application, d) && last.nodes[Application].relay.table[d.eventId].publishedAt.Some?
      && Feeds(Application, Feature) && last.nodes[Feature].bound && !Has(last.nodes[Feature], d)
  {
    run := States(START, LateBind(d, token), max);
    LateBindIsRun(d, token, max);
    LateBindNodes(d, token, max);
    PublishedState(d, token, max);
    assert RowOf(Application, d.eventId, Dump(d), d);
  }
}
