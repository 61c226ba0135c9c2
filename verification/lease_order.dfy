/** First in, first out: over every run of the lease protocol, and from the times at which its events were
    enqueued, no claim takes an event and leaves an available older one behind. */
module LeaseOrder {
  import opened Base
  import opened Envelopes
  import opened Outbox
  import opened LeaseProtocol

  /** The step at i stored the event. */
  ghost predicate EnqueuedAt(run: seq<State>, i: nat, e: Envelope, max: nat) {
    i + 1 < |run| && e.eventId !in run[i].table && IsStep(run[i], Enqueue(e), run[i + 1], max)
  }

  ghost predicate ClaimedAt(run: seq<State>, k: nat, l: Label, max: nat) {
    k + 1 < |run| && l.ClaimBatch? && IsStep(run[k], l, run[k + 1], max)
  }

  /** Rows stay, with the time they were created, and the clock does not go back. */
  ghost predicate Aged(s: State, s': State) {
    s.now <= s'.now && forall id | id in s.table :: id in s'.table && s'.table[id].createdAt == s.table[id].createdAt
  }

  lemma StepAges(s: State, l: Label, max: nat)
    ensures Aged(s, Apply(s, l, max))
  {
  }

  lemma {:induction false} RunAges(run: seq<State>, max: nat, i: nat, j: nat)
    requires IsRun(run, max) && i <= j < |run|
    ensures Aged(run[i], run[j])
  {
    if i < j {
      RunAges(run, max, i, j - 1);
      assert Next(run[j - 1], run[j], max);
      var l :| IsStep(run[j - 1], l, run[j], max);
      StepAges(run[j - 1], l, max);
    }
  }

  /** An event's row carries the time of the step that stored it, ever after. */
  lemma AgeIsEnqueueTime(run: seq<State>, max: nat, i: nat, k: nat, e: Envelope)
    requires IsRun(run, max) && i < k < |run| && EnqueuedAt(run, i, e, max)
    ensures e.eventId in run[k].table && run[k].table[e.eventId].createdAt == run[i].now
  {
    RunAges(run, max, i + 1, k);
  }

  /** The row can be taken: not finished, not locked, and under no lease that still runs. */
  predicate Waiting(s: State, id: Id, locked: set<Id>) {
    && id in s.table && id !in locked
    && s.table[id].publishedAt.None? && s.table[id].deadLetteredAt.None?
    && (s.table[id].claimExpiresAt.Some? ==> s.table[id].claimExpiresAt.value <= s.now)
  }

  lemma ClaimIsOldest(s: State, l: Label, a: Id, b: Id)
    requires l.ClaimBatch? && Enabled(s, l) && b in l.chosen && Waiting(s, a, l.locked)
    requires b in s.table ==> s.table[a].createdAt < s.table[b].createdAt
    ensures a in l.chosen && b in s.table
  {
    var left := Available(s.table, l.locked, s.now) - l.chosen;
    assert b in Available(s.table, l.locked, s.now) && a in Available(s.table, l.locked, s.now);
    assert a in l.chosen + left;
  }

  lemma TakenIsStored(s: State, l: Label, b: Id)
    requires l.ClaimBatch? && Enabled(s, l) && b in l.chosen
    ensures b in s.table
  {
    assert b in Available(s.table, l.locked, s.now);
  }

  /** If a was enqueued at an earlier time than b, a claim that takes b takes a too, if a is waiting. */
  lemma OldestFirst(run: seq<State>, max: nat, i: nat, j: nat, k: nat, a: Envelope, b: Envelope, l: Label)
    requires IsRun(run, max) && EnqueuedAt(run, i, a, max) && EnqueuedAt(run, j, b, max) && run[i].now < run[j].now
    requires ClaimedAt(run, k, l, max) && b.eventId in l.chosen && Waiting(run[k], a.eventId, l.locked)
    ensures a.eventId in l.chosen
  {
    TakenIsStored(run[k], l, b.eventId);
    if k <= j {
      RunAges(run, max, k, j);
    } else if j <= i {
      RunAges(run, max, j, i);
    } else {
      AgeIsEnqueueTime(run, max, i, k, a);
      AgeIsEnqueueTime(run, max, j, k, b);
      ClaimIsOldest(run[k], l, a.eventId, b.eventId);
    }
  }
}
