/** Replaying a dead-letter queue into the exchange (shared_kernel messaging.py, replay_dead_letter_queue).
    The dead-letter queue itself has no dead-letter target, so a message rejected there is gone. */
module DeadLetters {
  import opened Base
  import opened Json
  import opened Envelopes

  /** A message body: JSON text, or bytes that are not. */
  datatype Body = Text(j: Json) | Garbage

  /** What decoding a body gives. */
  type Letter = Result<Envelope>

  const INVALID_JSON := ServiceError("BROKER_MESSAGE_INVALID_JSON", 400)
  const SCHEMA_INVALID := ServiceError("BROKER_MESSAGE_SCHEMA_INVALID", 400)

  function DecodeBody(b: Body, clock: string): Letter {
    if b.Garbage? then Err(INVALID_JSON)
    else
      var decoded := Decode(b.j, clock);
      if decoded.Err? then Err(SCHEMA_INVALID) else decoded
  }

  function Letters(bodies: seq<Body>, clock: string): (letters: seq<Letter>)
    ensures |letters| == |bodies|
  {
    if bodies == [] then [] else [DecodeBody(bodies[0], clock)] + Letters(bodies[1..], clock)
  }

  lemma {:induction false} LetterAt(bodies: seq<Body>, clock: string, k: nat)
    requires k < |bodies|
    ensures Letters(bodies, clock)[k] == DecodeBody(bodies[k], clock)
  {
    if k > 0 {
      LetterAt(bodies[1..], clock, k - 1);
    }
  }

  /** What publish_event does: it returns, or raises a service error when the message may have been delivered. */
  datatype Publish = Sent | Failed(error: ServiceError, delivered: bool)

  /** Whether the k-th fetch raises, and what the k-th publish does. */
  datatype Network = Network(fetch: nat -> Result<()>, publish: nat -> Publish)

  /** How a replay ends: by returning, by a fetch that raises, or by raising while a message is open. */
  datatype Stop = Done | FetchRaised(error: ServiceError) | MessageRaised(error: ServiceError)

  /** The first message still queued, and the ending. */
  datatype Outcome = Outcome(next: nat, stop: Stop) {
    function Dropped(): nat {
      if stop.MessageRaised? then 1 else 0
    }

    function Replayed(): int {
      next - Dropped()
    }

    function Answer(): Result<nat>
      requires stop.Done? ==> Replayed() >= 0
    {
      match stop
      case Done => Ok(Replayed())
      case FetchRaised(e) => Err(e)
      case MessageRaised(e) => Err(e)
    }
  }

  predicate GoesThrough(letters: seq<Letter>, k: nat, net: Network)
    requires k < |letters|
  {
    letters[k].Ok? && net.publish(k).Sent?
  }

  function MessageError(letters: seq<Letter>, k: nat, net: Network): ServiceError
    requires k < |letters| && !GoesThrough(letters, k, net)
  {
    if letters[k].Err? then letters[k].error else net.publish(k).error
  }

  /** The replay from the k-th message on. */
  function Replay(letters: seq<Letter>, k: nat, limit: int, net: Network): Outcome
    decreases limit - k
  {
    if k >= limit then Outcome(k, Done)
    else if net.fetch(k).Err? then Outcome(k, FetchRaised(net.fetch(k).error))
    else if k >= |letters| then Outcome(k, Done)
    else if !GoesThrough(letters, k, net) then Outcome(k + 1, MessageRaised(MessageError(letters, k, net)))
    else Replay(letters, k + 1, limit, net)
  }

  /** Conservation: each message is replayed, still queued, or the single one that was open when the call
      raised; the replayed ones are the front of the queue, they all went through, and the limit is kept. */
  lemma {:induction false} ReplayConserves(letters: seq<Letter>, k: nat, limit: int, net: Network)
    requires k <= |letters|
    ensures var o := Replay(letters, k, limit, net);
      && k <= o.Replayed() <= o.next <= |letters|
      && |letters| == o.Replayed() + o.Dropped() + |letters[o.next..]|
      && (o.Replayed() > k ==> o.Replayed() <= limit)
      && (forall i | k <= i < o.Replayed() :: GoesThrough(letters, i, net))
      && (o.stop.Done? ==> o.next >= limit || o.next == |letters|)
      && (o.stop.MessageRaised? ==> !GoesThrough(letters, o.Replayed(), net))
    decreases limit - k
  {
    if k < limit && net.fetch(k).Ok? && k < |letters| && GoesThrough(letters, k, net) {
      ReplayConserves(letters, k + 1, limit, net);
    }
  }

  /** The n-th message is the first the replay reaches, within its limit, that does not go through. */
  ghost predicate FirstFailing(letters: seq<Letter>, k: nat, limit: int, net: Network, n: nat) {
    && k <= n < limit && n < |letters| && !GoesThrough(letters, n, net)
    && (forall i: nat | k <= i <= n :: net.fetch(i).Ok?)
    && (forall i: nat | k <= i < n :: GoesThrough(letters, i, net))
  }

  /** A message is lost exactly when the replay reaches one that does not go through. */
  lemma {:induction false} ReplayLosesIff(letters: seq<Letter>, k: nat, limit: int, net: Network)
    requires k <= |letters|
    ensures Replay(letters, k, limit, net).Dropped() == 1 <==> exists n: nat :: FirstFailing(letters, k, limit, net, n)
    decreases limit - k
  {
    if k < limit && net.fetch(k).Ok? && k < |letters| {
      if GoesThrough(letters, k, net) {
        var after: nat := k + 1;
        ReplayLosesIff(letters, after, limit, net);
        if n: nat :| FirstFailing(letters, k, limit, net, n) {
          assert FirstFailing(letters, after, limit, net, n);
        }
        if n: nat :| FirstFailing(letters, after, limit, net, n) {
          assert FirstFailing(letters, k, limit, net, n);
        }
      } else {
        assert FirstFailing(letters, k, limit, net, k);
      }
    }
  }

  /** Whatever follows an event that is replayed and a body that is not JSON: the second is lost, and the rest
      stays queued. */
  lemma GarbageIsLost(e: Envelope, rest: seq<Body>, limit: int, clock: string)
    requires Valid(e) && limit >= 2
    ensures var bodies := [Text(Dump(e)), Garbage] + rest;
      var o := Replay(Letters(bodies, clock), 0, limit, Network(k => Ok(()), k => Sent));
      && o.Replayed() == 1 && o.Dropped() == 1 && bodies[o.next..] == rest
      && o.Answer() == Err(INVALID_JSON)
  {
    DecodeDump(e, clock);
    var bodies := [Text(Dump(e)), Garbage] + rest;
    var letters := Letters(bodies, clock);
    var net := Network(k => Ok(()), k => Sent);
    LetterAt(bodies, clock, 0);
    LetterAt(bodies, clock, 1);
    assert GoesThrough(letters, 0, net) && !GoesThrough(letters, 1, net);
    assert Replay(letters, 0, limit, net) == Replay(letters, 1, limit, net);
    assert bodies[2..] == rest;
  }

  /** The event a raising publish may have delivered all the same. */
  function AlsoDelivered(letters: seq<Letter>, o: Outcome, net: Network): seq<Envelope>
    requires 0 <= o.Replayed() && (o.stop.MessageRaised? ==> o.Replayed() < |letters|)
  {
    if o.stop.MessageRaised? && letters[o.Replayed()].Ok? && net.publish(o.Replayed()).Failed? && net.publish(o.Replayed()).delivered
    then [letters[o.Replayed()].value]
    else []
  }

  function Values(letters: seq<Letter>, n: nat): (values: seq<Envelope>)
    requires n <= |letters| && forall i | 0 <= i < n :: letters[i].Ok?
    ensures |values| == n && forall i | 0 <= i < n :: Ok(values[i]) == letters[i]
  {
    seq(n, i requires 0 <= i < n => letters[i].value)
  }

  lemma ValuesStep(letters: seq<Letter>, n: nat)
    requires n < |letters| && forall i | 0 <= i <= n :: letters[i].Ok?
    ensures Values(letters, n + 1) == Values(letters, n) + [letters[n].value]
  {
  }

  lemma Rest<T>(queue: seq<T>, n: nat)
    requires n < |queue|
    ensures queue[n..] != [] && queue[n..][0] == queue[n] && queue[n..][1..] == queue[n + 1..]
  {
  }

  /** The error of a fetch, or of the message that was open: of its body or of its publish. */
  predicate StoppedBy(bodies: seq<Body>, gone: nat, net: Network, clock: string, error: ServiceError)
    requires gone <= |bodies|
  {
    || net.fetch(gone) == Err(error)
    || (gone >= 1 && DecodeBody(bodies[gone - 1], clock) == Err(error))
    || (gone >= 1 && net.publish(gone - 1).Failed? && net.publish(gone - 1).error == error)
  }

  /** The error of a replay that stops early is that of what stopped it. */
  lemma {:induction false} StopHasCause(letters: seq<Letter>, k: nat, limit: int, net: Network)
    requires k <= |letters|
    ensures var o := Replay(letters, k, limit, net);
      && (o.stop.FetchRaised? ==> net.fetch(o.next) == Err(o.stop.error))
      && (o.stop.MessageRaised? ==> 1 <= o.next <= |letters|)
      && (o.stop.MessageRaised? && letters[o.next - 1] != Err(o.stop.error) ==>
            net.publish(o.next - 1).Failed? && net.publish(o.next - 1).error == o.stop.error)
    decreases limit - k
  {
    if k < limit && net.fetch(k).Ok? && k < |letters| && GoesThrough(letters, k, net) {
      StopHasCause(letters, k + 1, limit, net);
    }
  }

  class Broker {
    var deadLetters: seq<Body>
    var published: seq<Envelope>

    constructor (deadLetters: seq<Body>)
      ensures this.deadLetters == deadLetters && published == []
    {
      this.deadLetters := deadLetters;
      published := [];
    }

    /** What a replay leaves queued, has published and answers. */
    ghost predicate IsReplay(bodies: seq<Body>, before: seq<Envelope>, letters: seq<Letter>, net: Network, o: Outcome,
                             r: Result<nat>)
      reads this
    {
      && 0 <= o.Replayed() <= o.next <= |bodies| == |letters|
      && (forall i | 0 <= i < o.Replayed() :: letters[i].Ok?)
      && (o.stop.MessageRaised? ==> o.Replayed() < |letters|)
      && deadLetters == bodies[o.next..]
      && published == before + Values(letters, o.Replayed()) + AlsoDelivered(letters, o, net)
      && r == o.Answer()
    }

    /** A replay that returns answers with the number of messages gone from the queue, all of them published; it
        stops at its limit or with the queue empty. */
    method ReplayDeadLetterQueue(limit: int, net: Network, clock: string) returns (r: Result<nat>)
      modifies this
      ensures var letters := Letters(old(deadLetters), clock);
        IsReplay(old(deadLetters), old(published), letters, net, Replay(letters, 0, limit, net), r)
      ensures |deadLetters| <= |old(deadLetters)| && deadLetters == old(deadLetters)[|old(deadLetters)| - |deadLetters|..]
      ensures r.Ok? ==> r.value == |old(deadLetters)| - |deadLetters|
      ensures r.Ok? ==> |published| == |old(published)| + r.value && published[..|old(published)|] == old(published)
      ensures r.Ok? ==> forall i: nat | i < r.value :: DecodeBody(old(deadLetters)[i], clock) == Ok(published[|old(published)| + i])
      ensures r.Ok? ==> (r.value >= limit || deadLetters == []) && (limit >= 0 ==> r.value <= limit)
      ensures r.Err? ==> StoppedBy(old(deadLetters), |old(deadLetters)| - |deadLetters|, net, clock, r.error)
    {
      r := ReplayMessages(limit, net, clock);
      ghost var letters := Letters(old(deadLetters), clock);
      ReplayConserves(letters, 0, limit, net);
      StopHasCause(letters, 0, limit, net);
      forall i: nat | i < |letters| ensures letters[i] == DecodeBody(old(deadLetters)[i], clock) {
        LetterAt(old(deadLetters), clock, i);
      }
    }

    /** The loop: fetch, decode, publish, until the limit, an empty queue or an error. */
    method ReplayMessages(limit: int, net: Network, clock: string) returns (r: Result<nat>)
      modifies this
      ensures var letters := Letters(old(deadLetters), clock);
        IsReplay(old(deadLetters), old(published), letters, net, Replay(letters, 0, limit, net), r)
    {
      ghost var bodies, before := deadLetters, published;
      ghost var letters := Letters(deadLetters, clock);
      var replayed := 0;
      while replayed < limit
        invariant 0 <= replayed <= |letters| == |bodies|
        invariant deadLetters == bodies[replayed..]
        invariant forall i | 0 <= i < replayed :: letters[i].Ok?
        invariant published == before + Values(letters, replayed)
        invariant Replay(letters, 0, limit, net) == Replay(letters, replayed, limit, net)
      {
        var fetched := net.fetch(replayed);
        if fetched.Err? {
          assert Replay(letters, replayed, limit, net) == Outcome(replayed, FetchRaised(fetched.error));
          return Err(fetched.error);
        }
        if deadLetters == [] {
          break;
        }
        Rest(bodies, replayed);
        var message := deadLetters[0];
        deadLetters := deadLetters[1..];
        var envelope := DecodeBody(message, clock);
        LetterAt(bodies, clock, replayed);
        if envelope.Err? {
          assert Replay(letters, replayed, limit, net) == Outcome(replayed + 1, MessageRaised(envelope.error));
          return Err(envelope.error);
        }
        var answer := net.publish(replayed);
        if answer.Failed? {
          assert Replay(letters, replayed, limit, net) == Outcome(replayed + 1, MessageRaised(answer.error));
          if answer.delivered {
            published := published + [envelope.value];
          }
          return Err(answer.error);
        }
        published := published + [envelope.value];
        ValuesStep(letters, replayed);
        replayed := replayed + 1;
      }
      r := Ok(replayed);
    }
  }
}
