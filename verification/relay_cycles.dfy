/** Sequences of relay_once calls on a table nobody else writes: how many of them can claim anything, when a
    relay's loop ends, and when the table settles; and a flush that makes no progress. */
module RelayCycles {
  import opened Base
  import opened Envelopes
  import opened Outbox
  import opened OutboxRelay

  // ---- any sequence of calls ----

  function NonEmpty(cycles: seq<Cycle>): nat {
    if cycles == [] then 0 else (if cycles[0].chosen == {} then 0 else 1) + NonEmpty(cycles[1..])
  }

  lemma CycleDebt(t: Table, t': Table, c: Cycle, cfg: Config)
    requires IsCycleOf(t, t', c, cfg)
    ensures t'.Keys == t.Keys
    ensures NonEmpty([c]) + TableDebt(t', cfg.maxAttempts) <= TableDebt(t, cfg.maxAttempts)
    ensures c.chosen == {} ==> t' == t
  {
    RelayDrains(t, t', c.end, c.chosen, c.batch, c.locked, c.token, cfg, c.env);
  }

  lemma RestOfCycles(tables: seq<Table>, cycles: seq<Cycle>, cfg: Config)
    requires AreCycles(tables, cycles, cfg) && cycles != []
    ensures AreCycles(tables[1..], cycles[1..], cfg) && tables[1..][|cycles| - 1] == tables[|cycles|]
    ensures IsCycleOf(tables[0], tables[1], cycles[0], cfg)
  {
    forall i | 0 <= i < |cycles| - 1 ensures IsCycleOf(tables[1..][i], tables[1..][i + 1], cycles[1..][i], cfg) {
      assert IsCycleOf(tables[i + 1], tables[i + 2], cycles[i + 1], cfg);
    }
  }

  /** Late or not, returning or raising: no more calls claim anything than the table's debt at the start, and
      each one that does is paid for. */
  lemma {:induction false} CyclesBounded(tables: seq<Table>, cycles: seq<Cycle>, cfg: Config)
    requires AreCycles(tables, cycles, cfg)
    ensures NonEmpty(cycles) + TableDebt(tables[|cycles|], cfg.maxAttempts) <= TableDebt(tables[0], cfg.maxAttempts)
    ensures tables[|cycles|].Keys == tables[0].Keys
    decreases |cycles|
  {
    if cycles != [] {
      RestOfCycles(tables, cycles, cfg);
      CycleDebt(tables[0], tables[1], cycles[0], cfg);
      CyclesBounded(tables[1..], cycles[1..], cfg);
    }
  }

  // ---- one loop ----

  predicate AllAccepted(c: Cycle) {
    forall i | 0 <= i < |c.batch| :: c.env.answer(i).Accepted?
  }

  /** Whatever the call claimed is published, and no row was dead-lettered or failed. */
  ghost predicate PublishesAll(t: Table, t': Table, c: Cycle) {
    && t'.Keys == t.Keys && c.chosen <= t.Keys
    && (forall id | id in c.chosen :: t'[id].publishedAt.Some?)
    && (forall id | id in t :: t'[id].deadLetteredAt == t[id].deadLetteredAt)
  }

  lemma {:induction false} AcceptedDeadLettersNothing(t: Table, batch: seq<ClaimedEvent>, k: nat, published: nat, max: nat, env: Env)
    requires k <= |batch| && forall i | k <= i < |batch| :: env.answer(i).Accepted?
    ensures var t' := Relayed(t, batch, k, published, max, env).0;
      t'.Keys == t.Keys && forall id | id in t :: t'[id].deadLetteredAt == t[id].deadLetteredAt
    decreases |batch| - k
  {
    if k < |batch| {
      var t1 := MarkedPublished(t, batch[k].event.eventId, batch[k].claimToken, env.wall(k + 1), env.now(k + 1));
      AcceptedDeadLettersNothing(t1, batch, k + 1, published + 1, max, env);
    }
  }

  lemma CycleHolds(t: Table, t': Table, c: Cycle, cfg: Config)
    requires IsCycleOf(t, t', c, cfg)
    ensures Holding(Claimed(t, c.chosen, c.token, cfg.leaseSeconds, c.env.now(0)), c.batch, 0)
    ensures c.chosen <= t.Keys
    ensures forall id | id in c.chosen :: Ahead(c.batch, 0, id)
  {
    ClaimedIsHeld(t, c.chosen, cfg.batchSize, c.locked, c.batch, c.token, cfg.leaseSeconds, c.env.now(0));
    forall id | id in c.chosen ensures id in t && Ahead(c.batch, 0, id) {
      assert id in Available(t, c.locked, c.env.now(0));
    }
  }

  /** A call returns exactly when every publish was accepted. */
  lemma CycleReturnsIff(t: Table, t': Table, c: Cycle, cfg: Config)
    requires IsCycleOf(t, t', c, cfg)
    ensures c.end.Raised? <==> !AllAccepted(c)
    ensures c.end.Returned? <==> AllAccepted(c)
    ensures AllAccepted(c) ==> PublishesAll(t, t', c)
  {
    var claimed := Claimed(t, c.chosen, c.token, cfg.leaseSeconds, c.env.now(0));
    CycleHolds(t, t', c, cfg);
    RelayedPublishes(claimed, c.batch, 0, 0, cfg.maxAttempts, c.env);
    RelayedNeverEscapes(claimed, c.batch, 0, 0, cfg.maxAttempts, c.env);
    if AllAccepted(c) {
      CyclePublishes(t, t', c, cfg, claimed);
    }
  }

  lemma CyclePublishes(t: Table, t': Table, c: Cycle, cfg: Config, claimed: Table)
    requires claimed == Claimed(t, c.chosen, c.token, cfg.leaseSeconds, c.env.now(0)) && Holding(claimed, c.batch, 0)
    requires t' == Relayed(claimed, c.batch, 0, 0, cfg.maxAttempts, c.env).0 && AllAccepted(c)
    requires c.chosen <= t.Keys && forall id | id in c.chosen :: Ahead(c.batch, 0, id)
    ensures PublishesAll(t, t', c)
  {
    RelayedPublishes(claimed, c.batch, 0, 0, cfg.maxAttempts, c.env);
    AcceptedDeadLettersNothing(claimed, c.batch, 0, 0, cfg.maxAttempts, c.env);
    forall id | id in c.chosen ensures t'[id].publishedAt.Some? {
      assert Ahead(c.batch, 0, id);
      var i: nat :| i < |c.batch| && c.batch[i].event.eventId == id;
      assert IsPublished(t', c.batch, i, c.env);
    }
  }

  /** The loop of run_forever ends exactly at the first call in which some publish is not accepted. Every call
      before it published all it claimed and no row was dead-lettered, so one loop never fails a row twice:
      retries and dead-lettering need the relay to be started again. */
  lemma {:induction false} LoopEndsIff(tables: seq<Table>, cycles: seq<Cycle>, cfg: Config)
    requires AreCycles(tables, cycles, cfg) && OnlyLastRaises(cycles)
    ensures LastRaises(cycles) <==> exists i :: 0 <= i < |cycles| && !AllAccepted(cycles[i])
    ensures forall i | 0 <= i < |cycles| - 1 :: AllAccepted(cycles[i]) && PublishesAll(tables[i], tables[i + 1], cycles[i])
    ensures forall i, id | 0 <= i < |cycles| && id in tables[0] ::
      id in tables[i] && tables[i][id].deadLetteredAt == tables[0][id].deadLetteredAt
  {
    forall i | 0 <= i < |cycles|
      ensures cycles[i].end.Raised? <==> !AllAccepted(cycles[i])
      ensures cycles[i].end.Returned? <==> AllAccepted(cycles[i])
      ensures AllAccepted(cycles[i]) ==> PublishesAll(tables[i], tables[i + 1], cycles[i])
    {
      CycleReturnsIff(tables[i], tables[i + 1], cycles[i], cfg);
    }
    forall i, id | 0 <= i < |cycles| && id in tables[0]
      ensures id in tables[i] && tables[i][id].deadLetteredAt == tables[0][id].deadLetteredAt
    {
      DeadLettersStay(tables, cycles, i, id);
    }
  }

  lemma {:induction false} DeadLettersStay(tables: seq<Table>, cycles: seq<Cycle>, i: nat, id: Id)
    requires |tables| == |cycles| + 1 && i < |cycles| && id in tables[0]
    requires forall j | 0 <= j < i :: PublishesAll(tables[j], tables[j + 1], cycles[j])
    ensures id in tables[i] && tables[i][id].deadLetteredAt == tables[0][id].deadLetteredAt
  {
    if i > 0 {
      DeadLettersStay(tables, cycles, i - 1, id);
      assert PublishesAll(tables[i - 1], tables[i], cycles[i - 1]);
    }
  }

  // ---- when the table settles ----

  /** A call that looks at the whole table after every lease has run out. */
  predicate IsLate(t: Table, c: Cycle) {
    c.locked == {} && forall id | id in t && t[id].claimExpiresAt.Some? :: t[id].claimExpiresAt.value <= c.env.now(0)
  }

  predicate Settled(t: Table) {
    forall id | id in t :: !Pending(t[id])
  }

  /** Once the leases have run out, a claim is empty only when nothing is pending. */
  lemma LateClaimTakes(t: Table, chosen: set<Id>, limit: nat, now: Time)
    requires limit >= 1 && IsClaimBatch(t, chosen, limit, {}, now)
    requires forall id | id in t && t[id].claimExpiresAt.Some? :: t[id].claimExpiresAt.value <= now
    ensures chosen == {} <==> Settled(t)
  {
    var pool := Available(t, {}, now);
    assert forall id | id in t && Pending(t[id]) :: id in pool;
    assert chosen == {} <==> |chosen| == 0;
    assert pool == {} <==> |pool| == 0;
    assert forall id | id in pool :: Pending(t[id]);
  }

  lemma LateCycleDrains(t: Table, t': Table, c: Cycle, cfg: Config)
    requires cfg.batchSize >= 1 && IsCycleOf(t, t', c, cfg) && IsLate(t, c)
    ensures t'.Keys == t.Keys
    ensures !Settled(t) ==> TableDebt(t', cfg.maxAttempts) < TableDebt(t, cfg.maxAttempts)
    ensures Settled(t) ==> t' == t
  {
    CycleDebt(t, t', c, cfg);
    RelayDrains(t, t', c.end, c.chosen, c.batch, c.locked, c.token, cfg, c.env);
    LateClaimTakes(t, c.chosen, cfg.batchSize, c.env.now(0));
  }

  lemma SettledCycle(t: Table, t': Table, c: Cycle, cfg: Config)
    requires IsCycleOf(t, t', c, cfg) && Settled(t)
    ensures t' == t
  {
    CycleDebt(t, t', c, cfg);
    assert Available(t, c.locked, c.env.now(0)) == {};
  }

  function LateOnes(tables: seq<Table>, cycles: seq<Cycle>): nat
    requires |tables| == |cycles| + 1
    decreases |cycles|
  {
    if cycles == [] then 0 else (if IsLate(tables[0], cycles[0]) then 1 else 0) + LateOnes(tables[1..], cycles[1..])
  }

  lemma UnsettledHasDebt(t: Table, max: nat)
    requires !Settled(t)
    ensures TableDebt(t, max) >= 1
  {
    var id :| id in t && Pending(t[id]);
    DebtSplit(t, t.Keys, id, max);
  }

  lemma {:induction false} LateOnesPaid(tables: seq<Table>, cycles: seq<Cycle>, cfg: Config)
    requires cfg.batchSize >= 1 && AreCycles(tables, cycles, cfg)
    ensures tables[|cycles|].Keys == tables[0].Keys
    ensures Settled(tables[0]) ==> tables[|cycles|] == tables[0]
    ensures Settled(tables[|cycles|])
      || LateOnes(tables, cycles) + TableDebt(tables[|cycles|], cfg.maxAttempts) <= TableDebt(tables[0], cfg.maxAttempts)
    decreases |cycles|
  {
    if cycles != [] {
      RestOfCycles(tables, cycles, cfg);
      LateOnesPaid(tables[1..], cycles[1..], cfg);
      if Settled(tables[0]) {
        SettledCycle(tables[0], tables[1], cycles[0], cfg);
      } else {
        CycleDebt(tables[0], tables[1], cycles[0], cfg);
        if IsLate(tables[0], cycles[0]) {
          LateCycleDrains(tables[0], tables[1], cycles[0], cfg);
        }
      }
    }
  }

  /** Among any calls, by relays started again after each raise, as many late ones as the starting debt leave
      every row published or dead-lettered. */
  lemma TableSettles(tables: seq<Table>, cycles: seq<Cycle>, cfg: Config)
    requires cfg.batchSize >= 1 && AreCycles(tables, cycles, cfg)
    requires LateOnes(tables, cycles) >= TableDebt(tables[0], cfg.maxAttempts)
    ensures tables[|cycles|].Keys == tables[0].Keys && Settled(tables[|cycles|])
  {
    LateOnesPaid(tables, cycles, cfg);
    if !Settled(tables[|cycles|]) {
      UnsettledHasDebt(tables[|cycles|], cfg.maxAttempts);
    }
  }

  // ---- a flush that makes no progress ----

  /** A row whose attempts are used up and whose lease has run out. */
  function Spent(e: Envelope, max: nat, lapsed: Id): Row {
    Row(e.eventName, Dump(e), 0, None, None, Some(lapsed), Some(0), Some(0), max, None, 0)
  }

  /** For any event and any limit: a table and a broker with which flush_outbox raises and leaves the debt as
      it was, with the row pending and its attempts past the limit. */
  lemma FlushStalls(e: Envelope, max: nat, lapsed: Id, token: Id, error: ServiceError)
    returns (t: Table, t': Table, end: End, chosen: set<Id>, batch: seq<ClaimedEvent>, env: Env)
    requires Valid(e)
    ensures IsFlush(t, t', end, chosen, batch, {}, token, 30, env) && KeysMatchPayloads(t)
    ensures end == Raised(error) && chosen == t.Keys == {e.eventId}
    ensures e.eventId in t' && Pending(t'[e.eventId]) && t'[e.eventId].publishAttempts == max + 1
    ensures TableDebt(t', max) == TableDebt(t, max) == 1
  {
    t := map[e.eventId := Spent(e, max, lapsed)];
    env := Env(k => RaisedService(error), k => 0, k => 0);
    chosen, batch := {e.eventId}, [ClaimedEvent(e, token, max + 1)];
    t' := Claimed(t, chosen, token, 30, 0);
    end := Raised(error);
    assert Available(t, {}, 0) == {e.eventId};
    assert IsDumpOf(e.eventId, Dump(e), e);
    DebtSplit(t, t.Keys, e.eventId, max);
    DebtSplit(t', t'.Keys, e.eventId, max);
    assert t.Keys - {e.eventId} == {};
  }
}
