/** The relay worker's batch loop and the services' flush loop (shared_kernel outbox_relay.py and
    flush_outbox of each repository), and the measure that shows a table drains. */
module OutboxRelay {
  import opened Base
  import opened Envelopes
  import opened Outbox

  datatype Config = Config(batchSize: nat, leaseSeconds: nat, maxAttempts: nat)

  /** What the publisher does with one event. */
  datatype Answer = Accepted | RaisedService(error: ServiceError) | RaisedOther(text: string)

  /** The k-th publish, the database clock of the k-th statement, the worker's own clock. */
  datatype Env = Env(answer: nat -> Answer, now: nat -> Time, wall: nat -> Time)

  /** Escaped is an exception of the publisher that nobody translated. */
  datatype End = Returned(published: nat) | Raised(error: ServiceError) | Escaped(text: string)

  const SERVICE_ERROR_TEXT := "relay_publish_service_error"
  const PUBLISH_FAILED := ServiceError("OUTBOX_RELAY_PUBLISH_FAILED", 503)

  // ---- relay_once after its claim ----

  function Failure(a: Answer): (string, ServiceError)
    requires !a.Accepted?
  {
    if a.RaisedService? then (SERVICE_ERROR_TEXT, a.error) else (a.text, PUBLISH_FAILED)
  }

  /** The loop from position k on: publish, mark, and stop at the first failure. */
  function Relayed(t: Table, batch: seq<ClaimedEvent>, k: nat, published: nat, max: nat, env: Env): (Table, End)
    requires k <= |batch|
    decreases |batch| - k
  {
    if k == |batch| then (t, Returned(published))
    else
      var id, token := batch[k].event.eventId, batch[k].claimToken;
      if !HoldsClaim(t, id, token) then (t, Raised(CLAIM_LOST))
      else if env.answer(k).Accepted? then
        Relayed(MarkedPublished(t, id, token, env.wall(k + 1), env.now(k + 1)), batch, k + 1, published + 1, max, env)
      else
        var (text, error) := Failure(env.answer(k));
        (MarkedFailed(t, id, token, text, max, env.now(k + 1)), Raised(error))
  }

  /** flush_outbox has no handler: what the publisher raises is what the caller sees. */
  function Unhandled(a: Answer): End
    requires !a.Accepted?
  {
    if a.RaisedService? then Raised(a.error) else Escaped(a.text)
  }

  /** flush_outbox after its claim: the same loop without failure handling. */
  function Flushed(t: Table, batch: seq<ClaimedEvent>, k: nat, published: nat, env: Env): (Table, End)
    requires k <= |batch|
    decreases |batch| - k
  {
    if k == |batch| then (t, Returned(published))
    else
      var id, token := batch[k].event.eventId, batch[k].claimToken;
      if !env.answer(k).Accepted? then (t, Unhandled(env.answer(k)))
      else if !HoldsClaim(t, id, token) then (t, Raised(CLAIM_LOST))
      else Flushed(MarkedPublished(t, id, token, env.wall(k + 1), env.now(k + 1)), batch, k + 1, published + 1, env)
  }

  /** One whole relay_once on a table nobody else writes. */
  ghost predicate IsCycle(t: Table, t': Table, end: End, chosen: set<Id>, batch: seq<ClaimedEvent>,
                          locked: set<Id>, token: Id, cfg: Config, env: Env) {
    && IsClaimBatch(t, chosen, cfg.batchSize, locked, env.now(0))
    && var claimed := Claimed(t, chosen, token, cfg.leaseSeconds, env.now(0));
       && IsBatchOf(claimed, chosen, token, batch)
       && (t', end) == Relayed(claimed, batch, 0, 0, cfg.maxAttempts, env)
  }

  /** One whole flush_outbox; its batch is the default hundred. */
  ghost predicate IsFlush(t: Table, t': Table, end: End, chosen: set<Id>, batch: seq<ClaimedEvent>,
                          locked: set<Id>, token: Id, lease: nat, env: Env) {
    && IsClaimBatch(t, chosen, 100, locked, env.now(0))
    && var claimed := Claimed(t, chosen, token, lease, env.now(0));
       && IsBatchOf(claimed, chosen, token, batch)
       && (t', end) == Flushed(claimed, batch, 0, 0, env)
  }

  /** What one poll meets: rows locked elsewhere, its token, its clocks and the broker's answers. */
  datatype Poll = Poll(locked: set<Id>, token: Id, clock: string, env: Env)

  /** One relay_once that has ended. */
  datatype Cycle = Cycle(chosen: set<Id>, batch: seq<ClaimedEvent>, locked: set<Id>, token: Id, env: Env, end: End)

  ghost predicate IsCycleOf(t: Table, t': Table, c: Cycle, cfg: Config) {
    IsCycle(t, t', c.end, c.chosen, c.batch, c.locked, c.token, cfg, c.env)
  }

  /** Any sequence of relay_once calls, whether they return or raise. */
  ghost predicate AreCycles(tables: seq<Table>, cycles: seq<Cycle>, cfg: Config) {
    && |tables| == |cycles| + 1
    && forall i | 0 <= i < |cycles| :: IsCycleOf(tables[i], tables[i + 1], cycles[i], cfg)
  }

  /** The calls one loop makes: it polls again only after a call that returned. */
  ghost predicate OnlyLastRaises(cycles: seq<Cycle>) {
    forall i | 0 <= i < |cycles| - 1 :: cycles[i].end.Returned?
  }

  ghost predicate LastRaises(cycles: seq<Cycle>) {
    |cycles| > 0 && cycles[|cycles| - 1].end.Raised?
  }

  ghost predicate PolledBy(cycles: seq<Cycle>, polls: nat -> Poll) {
    forall i | 0 <= i < |cycles| :: cycles[i].locked == polls(i).locked && cycles[i].env == polls(i).env
  }

  lemma OneMore(tables: seq<Table>, cycles: seq<Cycle>, t: Table, c: Cycle, cfg: Config)
    requires AreCycles(tables, cycles, cfg) && IsCycleOf(tables[|cycles|], t, c, cfg)
    ensures AreCycles(tables + [t], cycles + [c], cfg)
  {
    var longer, more := tables + [t], cycles + [c];
    forall i | 0 <= i < |more| ensures IsCycleOf(longer[i], longer[i + 1], more[i], cfg) {
      if i < |cycles| {
        assert IsCycleOf(tables[i], tables[i + 1], cycles[i], cfg);
      }
    }
  }

  lemma {:induction false} RelayedNeverEscapes(t: Table, batch: seq<ClaimedEvent>, k: nat, published: nat, max: nat,
                                               env: Env)
    requires k <= |batch|
    ensures !Relayed(t, batch, k, published, max, env).1.Escaped?
    decreases |batch| - k
  {
    if k < |batch| && env.answer(k).Accepted? {
      var t1 := MarkedPublished(t, batch[k].event.eventId, batch[k].claimToken, env.wall(k + 1), env.now(k + 1));
      RelayedNeverEscapes(t1, batch, k + 1, published + 1, max, env);
    }
  }

  lemma {:induction false} RelayedKeepsPayloads(t: Table, batch: seq<ClaimedEvent>, k: nat, published: nat, max: nat,
                                                env: Env)
    requires k <= |batch|
    ensures Payloads(Relayed(t, batch, k, published, max, env).0) == Payloads(t)
    decreases |batch| - k
  {
    if k < |batch| && HoldsClaim(t, batch[k].event.eventId, batch[k].claimToken) {
      var id, token := batch[k].event.eventId, batch[k].claimToken;
      if env.answer(k).Accepted? {
        CompletionsKeepPayloads(t, {}, id, token, 0, "", 0, env.wall(k + 1), env.now(k + 1));
        RelayedKeepsPayloads(MarkedPublished(t, id, token, env.wall(k + 1), env.now(k + 1)), batch, k + 1, published + 1, max, env);
      } else {
        CompletionsKeepPayloads(t, {}, id, token, 0, Failure(env.answer(k)).0, max, 0, env.now(k + 1));
      }
    }
  }

  lemma CycleKeepsPayloads(t: Table, t': Table, c: Cycle, cfg: Config)
    requires IsCycleOf(t, t', c, cfg)
    ensures Payloads(t') == Payloads(t)
    ensures KeysMatchPayloads(t) ==> KeysMatchPayloads(t')
  {
    CompletionsKeepPayloads(t, c.chosen, c.token, c.token, cfg.leaseSeconds, "", 0, 0, c.env.now(0));
    RelayedKeepsPayloads(Claimed(t, c.chosen, c.token, cfg.leaseSeconds, c.env.now(0)), c.batch, 0, 0, cfg.maxAttempts, c.env);
  }

  class OutboxRelayWorker {
    const config: Config

    constructor (config: Config)
      ensures this.config == config
    {
      this.config := config;
    }

    /** A batch that does not decode raises with every claimed row left leased. */
    method RelayOnce(table: OutboxTable, locked: set<Id>, token: Id, clock: string, env: Env)
      returns (end: End, ghost chosen: set<Id>, ghost batch: seq<ClaimedEvent>)
      modifies table
      ensures IsClaimBatch(old(table.rows), chosen, config.batchSize, locked, env.now(0))
      ensures var claimed := Claimed(old(table.rows), chosen, token, config.leaseSeconds, env.now(0));
        if chosen <= old(table.rows).Keys && AllRead(old(table.rows), chosen, token, clock)
        then (table.rows, end) == Relayed(claimed, batch, 0, 0, config.maxAttempts, env)
        else table.rows == claimed && end.Raised?
      ensures KeysMatchPayloads(old(table.rows)) && !Blank(token.text) ==>
        IsCycle(old(table.rows), table.rows, end, chosen, batch, locked, token, config, env)
    {
      var fetched;
      chosen, fetched := table.FetchPending(config.batchSize, locked, token, config.leaseSeconds, env.now(0), clock);
      if fetched.Err? {
        return Raised(fetched.error), chosen, [];
      }
      var events := fetched.value;
      batch := events;
      ghost var claimed := table.rows;
      var published := 0;
      var k := 0;
      while k < |events|
        invariant k <= |events| && published == k
        invariant Relayed(claimed, events, 0, 0, config.maxAttempts, env)
               == Relayed(table.rows, events, k, published, config.maxAttempts, env)
      {
        var id, token' := events[k].event.eventId, events[k].claimToken;
        var answer := env.answer(k);
        if answer.RaisedService? {
          var marked := table.MarkFailed(id, token', SERVICE_ERROR_TEXT, config.maxAttempts, env.now(k + 1));
          return if marked.Err? then Raised(marked.error) else Raised(answer.error), chosen, batch;
        }
        if answer.RaisedOther? {
          var marked := table.MarkFailed(id, token', answer.text, config.maxAttempts, env.now(k + 1));
          return if marked.Err? then Raised(marked.error) else Raised(PUBLISH_FAILED), chosen, batch;
        }
        var marked := table.MarkPublished(id, token', env.wall(k + 1), env.now(k + 1));
        if marked.Err? {
          return Raised(marked.error), chosen, batch;
        }
        published := published + 1;
        k := k + 1;
      }
      end := Returned(published);
    }

    /** One poll of the loop; when the table's rows decode it is a cycle. */
    method PollOnce(table: OutboxTable, poll: Poll) returns (end: End, ghost cycle: Cycle)
      modifies table
      ensures cycle.end == end && cycle.locked == poll.locked && cycle.env == poll.env && !end.Escaped?
      ensures KeysMatchPayloads(old(table.rows)) && !Blank(poll.token.text) ==>
        IsCycleOf(old(table.rows), table.rows, cycle, config) && KeysMatchPayloads(table.rows)
    {
      ghost var chosen, batch;
      end, chosen, batch := RelayOnce(table, poll.locked, poll.token, poll.clock, poll.env);
      cycle := Cycle(chosen, batch, poll.locked, poll.token, poll.env, end);
      if KeysMatchPayloads(old(table.rows)) && !Blank(poll.token.text) {
        CycleKeepsPayloads(old(table.rows), table.rows, cycle, config);
      }
      RelayedNeverEscapes(Claimed(old(table.rows), chosen, poll.token, config.leaseSeconds, poll.env.now(0)), batch, 0, 0,
                          config.maxAttempts, poll.env);
    }

    /** run_forever, and run_relay's loop, up to the poll that finds the stop event set. There is no handler
        around relay_once: the first call that raises ends the loop, and nothing else does. */
    method RunForever(table: OutboxTable, polls: nat -> Poll, stopAfter: nat)
      returns (end: Option<ServiceError>, ghost tables: seq<Table>, ghost cycles: seq<Cycle>)
      modifies table
      ensures |tables| == |cycles| + 1 && tables[0] == old(table.rows) && tables[|cycles|] == table.rows
      ensures PolledBy(cycles, polls) && OnlyLastRaises(cycles) && (end.Some? <==> LastRaises(cycles))
      ensures end.Some? ==> cycles[|cycles| - 1].end == Raised(end.value)
      ensures if end.Some? then |cycles| <= stopAfter else |cycles| == stopAfter
      ensures KeysMatchPayloads(old(table.rows)) && (forall k :: !Blank(polls(k).token.text)) ==>
        AreCycles(tables, cycles, config)
    {
      tables, cycles := [table.rows], [];
      ghost var decodes := KeysMatchPayloads(table.rows) && forall k :: !Blank(polls(k).token.text);
      var k := 0;
      while k < stopAfter
        invariant k == |cycles| <= stopAfter && |tables| == k + 1 && tables[0] == old(table.rows) && tables[k] == table.rows
        invariant PolledBy(cycles, polls) && forall i | 0 <= i < k :: cycles[i].end.Returned?
        invariant decodes ==> AreCycles(tables, cycles, config) && KeysMatchPayloads(table.rows)
      {
        var polled;
        ghost var cycle;
        polled, cycle := PollOnce(table, polls(k));
        if decodes {
          OneMore(tables, cycles, table.rows, cycle, config);
        }
        tables, cycles := tables + [table.rows], cycles + [cycle];
        if polled.Raised? {
          return Some(polled.error), tables, cycles;
        }
        k := k + 1;
      }
      end := None;
    }
  }

  /** flush_outbox as every repository writes it. */
  method FlushOutbox(table: OutboxTable, locked: set<Id>, token: Id, lease: nat, clock: string, env: Env)
    returns (end: End, ghost chosen: set<Id>, ghost batch: seq<ClaimedEvent>)
    modifies table
    ensures IsClaimBatch(old(table.rows), chosen, 100, locked, env.now(0))
    ensures var claimed := Claimed(old(table.rows), chosen, token, lease, env.now(0));
      if chosen <= old(table.rows).Keys && AllRead(old(table.rows), chosen, token, clock)
      then (table.rows, end) == Flushed(claimed, batch, 0, 0, env)
      else table.rows == claimed && end.Raised?
    ensures KeysMatchPayloads(old(table.rows)) && !Blank(token.text) ==>
      IsFlush(old(table.rows), table.rows, end, chosen, batch, locked, token, lease, env)
  {
    var fetched;
    chosen, fetched := table.FetchPending(100, locked, token, lease, env.now(0), clock);
    if fetched.Err? {
      return Raised(fetched.error), chosen, [];
    }
    var events := fetched.value;
    batch := events;
    ghost var claimed := table.rows;
    var published := 0;
    var k := 0;
    while k < |events|
      invariant k <= |events| && published == k
      invariant Flushed(claimed, events, 0, 0, env) == Flushed(table.rows, events, k, published, env)
    {
      var answer := env.answer(k);
      if answer.RaisedService? {
        return Raised(answer.error), chosen, batch;
      }
      if answer.RaisedOther? {
        return Escaped(answer.text), chosen, batch;
      }
      var marked := table.MarkPublished(events[k].event.eventId, events[k].claimToken, env.wall(k + 1), env.now(k + 1));
      if marked.Err? {
        return Raised(marked.error), chosen, batch;
      }
      published := published + 1;
      k := k + 1;
    }
    end := Returned(published);
  }

  // ---- what one loop does to a row ----

  /** From position k on the batch still holds its claims, on distinct rows. */
  ghost predicate Holding(t: Table, batch: seq<ClaimedEvent>, k: nat) {
    && (forall i | k <= i < |batch| :: HoldsClaim(t, batch[i].event.eventId, batch[i].claimToken))
    && (forall i, j | 0 <= i < j < |batch| :: batch[i].event.eventId != batch[j].event.eventId)
  }

  ghost predicate Ahead(batch: seq<ClaimedEvent>, k: nat, id: Id) {
    exists i :: k <= i < |batch| && batch[i].event.eventId == id
  }

  lemma ClaimedIsHeld(t: Table, chosen: set<Id>, limit: nat, locked: set<Id>, batch: seq<ClaimedEvent>,
                      token: Id, lease: nat, now: Time)
    requires IsClaimBatch(t, chosen, limit, locked, now)
    requires IsBatchOf(Claimed(t, chosen, token, lease, now), chosen, token, batch)
    ensures Holding(Claimed(t, chosen, token, lease, now), batch, 0)
  {
    var claimed := Claimed(t, chosen, token, lease, now);
    forall i | 0 <= i < |batch| ensures HoldsClaim(claimed, batch[i].event.eventId, batch[i].claimToken) {
      assert IsDecodingOf(claimed, token, batch[i].event.eventId, batch[i]);
      assert batch[i].event.eventId in Available(t, locked, now);
    }
  }

  /** How many attempts a pending row may still cost, plus one for leaving the table. */
  function Debt(r: Row, max: nat): nat {
    if !Pending(r) then 0
    else if r.publishAttempts >= max then 1
    else 1 + max - r.publishAttempts
  }

  /** The loop only touches rows ahead of it, never raises a row's debt, and on the row at hand lowers it. */
  lemma {:induction false} RelayedEffect(t: Table, batch: seq<ClaimedEvent>, k: nat, published: nat, max: nat, env: Env)
    requires k <= |batch| && Holding(t, batch, k)
    ensures var (t', end) := Relayed(t, batch, k, published, max, env);
      && t'.Keys == t.Keys
      && (forall id | id in t :: Ahead(batch, k, id) || t'[id] == t[id])
      && (forall id | id in t :: Debt(t'[id], max) <= Debt(t[id], max))
      && (k < |batch| ==> var id := batch[k].event.eventId;
            id in t && (!Pending(t'[id]) || (t'[id].claimToken.None? && t[id].publishAttempts < max)))
      && (forall id | id in t :: t'[id].publishAttempts == t[id].publishAttempts)
      && (end.Raised? ==> end.error != CLAIM_LOST || (exists i :: k <= i < |batch| && env.answer(i) == RaisedService(CLAIM_LOST)))
    decreases |batch| - k
  {
    if k < |batch| {
      var id, token := batch[k].event.eventId, batch[k].claimToken;
      if env.answer(k).Accepted? {
        var t1 := MarkedPublished(t, id, token, env.wall(k + 1), env.now(k + 1));
        RelayedEffect(t1, batch, k + 1, published + 1, max, env);
        var t' := Relayed(t1, batch, k + 1, published + 1, max, env).0;
        assert !Ahead(batch, k + 1, id);
        assert t'[id] == t1[id];
        forall x | x in t && !Ahead(batch, k, x) ensures t'[x] == t[x] {
          assert x != id;
          assert !Ahead(batch, k + 1, x);
        }
      }
    }
  }

  // ---- the drain measure ----

  ghost function TotalDebt(t: Table, ids: set<Id>, max: nat): nat
    requires ids <= t.Keys
    decreases |ids|
  {
    if ids == {} then 0
    else
      var id :| id in ids;
      Debt(t[id], max) + TotalDebt(t, ids - {id}, max)
  }

  ghost function TableDebt(t: Table, max: nat): nat {
    TotalDebt(t, t.Keys, max)
  }

  lemma {:induction false} DebtSplit(t: Table, ids: set<Id>, id: Id, max: nat)
    requires id in ids && ids <= t.Keys
    ensures TotalDebt(t, ids, max) == Debt(t[id], max) + TotalDebt(t, ids - {id}, max)
    decreases |ids|
  {
    var x :| x in ids && TotalDebt(t, ids, max) == Debt(t[x], max) + TotalDebt(t, ids - {x}, max);
    if x != id {
      DebtSplit(t, ids - {x}, id, max);
      DebtSplit(t, ids - {id}, x, max);
      assert ids - {x} - {id} == ids - {id} - {x};
    }
  }

  lemma {:induction false} DebtMonotone(t: Table, t': Table, ids: set<Id>, max: nat)
    requires ids <= t.Keys && ids <= t'.Keys
    requires forall id | id in ids :: Debt(t'[id], max) <= Debt(t[id], max)
    ensures TotalDebt(t', ids, max) <= TotalDebt(t, ids, max)
    decreases |ids|
  {
    if ids != {} {
      var id :| id in ids;
      DebtSplit(t, ids, id, max);
      DebtSplit(t', ids, id, max);
      DebtMonotone(t, t', ids - {id}, max);
    }
  }

  lemma DebtStrict(t: Table, t': Table, id: Id, max: nat)
    requires t.Keys == t'.Keys && id in t
    requires forall x | x in t :: Debt(t'[x], max) <= Debt(t[x], max)
    requires Debt(t'[id], max) < Debt(t[id], max)
    ensures TableDebt(t', max) < TableDebt(t, max)
  {
    DebtSplit(t, t.Keys, id, max);
    DebtSplit(t', t.Keys, id, max);
    DebtMonotone(t, t', t.Keys - {id}, max);
  }

  /** A claim uses up one attempt of each row it takes and leaves every other row's debt alone. */
  lemma ClaimedDebt(t: Table, chosen: set<Id>, limit: nat, locked: set<Id>, token: Id, lease: nat, now: Time, max: nat)
    requires IsClaimBatch(t, chosen, limit, locked, now)
    ensures var c := Claimed(t, chosen, token, lease, now);
      && c.Keys == t.Keys && chosen <= t.Keys
      && (forall id | id in t :: Debt(c[id], max) <= Debt(t[id], max))
      && (forall id | id in chosen && t[id].publishAttempts < max :: Debt(c[id], max) < Debt(t[id], max))
      && (forall id | id in chosen :: Pending(t[id]) && Pending(c[id]) && c[id].publishAttempts == t[id].publishAttempts + 1)
      && (forall id | id in t && id !in chosen :: c[id] == t[id])
  {
    assert forall id | id in chosen :: id in Available(t, locked, now);
  }

  lemma BatchHead(claimed: Table, chosen: set<Id>, token: Id, batch: seq<ClaimedEvent>)
    requires IsBatchOf(claimed, chosen, token, batch)
    ensures batch == [] <==> chosen == {}
    ensures batch != [] ==> batch[0].event.eventId in chosen
  {
    var ids := set i | 0 <= i < |batch| :: batch[i].event.eventId;
    assert chosen == ids;
    assert batch != [] ==> batch[0].event.eventId in ids;
  }

  /** Every relay_once that claims anything lowers the table's debt, whatever the broker answers and
      whether the call returns or raises. */
  lemma RelayDrains(t: Table, t': Table, end: End, chosen: set<Id>, batch: seq<ClaimedEvent>,
                    locked: set<Id>, token: Id, cfg: Config, env: Env)
    requires IsCycle(t, t', end, chosen, batch, locked, token, cfg, env)
    ensures t'.Keys == t.Keys
    ensures chosen != {} ==> TableDebt(t', cfg.maxAttempts) < TableDebt(t, cfg.maxAttempts)
    ensures chosen == {} ==> t' == t && end == Returned(0)
  {
    var now := env.now(0);
    var claimed := Claimed(t, chosen, token, cfg.leaseSeconds, now);
    ClaimedIsHeld(t, chosen, cfg.batchSize, locked, batch, token, cfg.leaseSeconds, now);
    ClaimedDebt(t, chosen, cfg.batchSize, locked, token, cfg.leaseSeconds, now, cfg.maxAttempts);
    BatchHead(claimed, chosen, token, batch);
    RelayedEffect(claimed, batch, 0, 0, cfg.maxAttempts, env);
    if chosen == {} {
      assert claimed == t;
    } else {
      DebtStrict(t, t', batch[0].event.eventId, cfg.maxAttempts);
    }
  }

  /** A call that returns has published everything it claimed; nobody else writing, no claim is ever lost. */
  lemma {:induction false} RelayedPublishes(t: Table, batch: seq<ClaimedEvent>, k: nat, published: nat, max: nat,
                                            env: Env)
    requires k <= |batch| && Holding(t, batch, k)
    ensures var (t', end) := Relayed(t, batch, k, published, max, env);
      && (end.Returned? <==> forall i | k <= i < |batch| :: env.answer(i).Accepted?)
      && (end.Returned? ==> end.published == published + |batch| - k)
      && (end.Returned? ==> forall i: nat | k <= i < |batch| :: IsPublished(t', batch, i, env))
    decreases |batch| - k
  {
    if k < |batch| && env.answer(k).Accepted? {
      var id, token := batch[k].event.eventId, batch[k].claimToken;
      var t1 := MarkedPublished(t, id, token, env.wall(k + 1), env.now(k + 1));
      assert Holding(t1, batch, k + 1);
      RelayedPublishes(t1, batch, k + 1, published + 1, max, env);
      RelayedEffect(t1, batch, k + 1, published + 1, max, env);
      assert !Ahead(batch, k + 1, id);
    }
  }

  /** flush_outbox returns exactly when every publish is accepted, and then every claimed row is published. */
  lemma {:induction false} FlushedPublishes(t: Table, batch: seq<ClaimedEvent>, k: nat, published: nat, env: Env)
    requires k <= |batch| && Holding(t, batch, k)
    ensures var (t', end) := Flushed(t, batch, k, published, env);
      && (end.Returned? <==> forall i | k <= i < |batch| :: env.answer(i).Accepted?)
      && (end.Returned? ==> end.published == published + |batch| - k)
      && (end.Returned? ==> forall i: nat | k <= i < |batch| :: IsPublished(t', batch, i, env))
    decreases |batch| - k
  {
    if k < |batch| && env.answer(k).Accepted? {
      var id, token := batch[k].event.eventId, batch[k].claimToken;
      var t1 := MarkedPublished(t, id, token, env.wall(k + 1), env.now(k + 1));
      assert Holding(t1, batch, k + 1);
      FlushedPublishes(t1, batch, k + 1, published + 1, env);
      FlushLeavesPast(t1, batch, k + 1, published + 1, env, k);
    }
  }

  predicate FirstRefused(batch: seq<ClaimedEvent>, k: nat, f: nat, env: Env) {
    k <= f < |batch| && !env.answer(f).Accepted? && forall i: nat | k <= i < f :: env.answer(i).Accepted?
  }

  /** The row of the i-th event after its publish was accepted. */
  predicate IsPublished(t: Table, batch: seq<ClaimedEvent>, i: nat, env: Env)
    requires i < |batch|
  {
    var id := batch[i].event.eventId;
    id in t && t[id].publishedAt == Some(env.wall(i + 1)) && t[id].claimToken.None? && t[id].lastError.None?
  }

  /** The row of the i-th event after its publish raised and the worker marked it: released, with the error's
      text, and dead-lettered exactly when its attempts are used up. */
  predicate IsFailed(t: Table, t': Table, batch: seq<ClaimedEvent>, i: nat, max: nat, env: Env)
    requires i < |batch| && !env.answer(i).Accepted?
  {
    var id := batch[i].event.eventId;
    && id in t && id in t' && t'[id].publishedAt.None? && t'[id].claimToken.None? && t'[id].claimExpiresAt.None?
    && t'[id].lastError == Some(if env.answer(i).RaisedService? then "relay_publish_service_error" else env.answer(i).text)
    && t'[id].deadLetteredAt == (if t[id].publishAttempts >= max then Some(env.now(i + 1)) else t[id].deadLetteredAt)
  }

  /** At the first publish that is not accepted, relay_once has published the rows before it, fails its row,
      leaves the rest leased as they were, and raises the publisher's service error or its own. */
  lemma {:induction false} RelayedStops(t: Table, batch: seq<ClaimedEvent>, k: nat, published: nat, max: nat, env: Env, f: nat)
    requires Holding(t, batch, k) && FirstRefused(batch, k, f, env)
    ensures var (t', end) := Relayed(t, batch, k, published, max, env);
      && (forall i: nat | k <= i < f :: IsPublished(t', batch, i, env))
      && IsFailed(t, t', batch, f, max, env)
      && (forall i: nat | f < i < |batch| :: batch[i].event.eventId in t && batch[i].event.eventId in t'
            && t'[batch[i].event.eventId] == t[batch[i].event.eventId])
      && end.Raised?
      && (if env.answer(f).RaisedService? then end.error == env.answer(f).error
          else end.error.code == "OUTBOX_RELAY_PUBLISH_FAILED" && end.error.statusCode == 503)
    decreases |batch| - k
  {
    if k < f {
      var id, token := batch[k].event.eventId, batch[k].claimToken;
      var t1 := MarkedPublished(t, id, token, env.wall(k + 1), env.now(k + 1));
      RelayedStops(t1, batch, k + 1, published + 1, max, env, f);
      RelayedEffect(t1, batch, k + 1, published + 1, max, env);
      assert !Ahead(batch, k + 1, id);
    }
  }

  lemma FlushLeavesPast(t: Table, batch: seq<ClaimedEvent>, k: nat, published: nat, env: Env, i: nat)
    requires i < k <= |batch| && Holding(t, batch, k) && batch[i].event.eventId in t
    ensures var id, t' := batch[i].event.eventId, Flushed(t, batch, k, published, env).0; id in t' && t'[id] == t[id]
  {
    FlushAbandons(t, batch, k, published, env);
    assert !Ahead(batch, k, batch[i].event.eventId);
  }

  /** flush_outbox at its first publish that is not accepted: the rows before it are published, its row and the
      rest are left as they were, and the publisher's exception goes on. */
  lemma {:induction false} FlushedStops(t: Table, batch: seq<ClaimedEvent>, k: nat, published: nat, env: Env, f: nat)
    requires Holding(t, batch, k) && FirstRefused(batch, k, f, env)
    ensures var (t', end) := Flushed(t, batch, k, published, env);
      && (forall i: nat | k <= i < f :: IsPublished(t', batch, i, env))
      && (forall i: nat | f <= i < |batch| :: batch[i].event.eventId in t && batch[i].event.eventId in t'
            && t'[batch[i].event.eventId] == t[batch[i].event.eventId])
      && end == (if env.answer(f).RaisedService? then Raised(env.answer(f).error) else Escaped(env.answer(f).text))
    decreases |batch| - k
  {
    if k < f {
      var id, token := batch[k].event.eventId, batch[k].claimToken;
      var t1 := MarkedPublished(t, id, token, env.wall(k + 1), env.now(k + 1));
      FlushedStops(t1, batch, k + 1, published + 1, env, f);
      FlushLeavesPast(t1, batch, k + 1, published + 1, env, k);
    }
  }

  /** flush_outbox never releases or dead-letters a row whose publish raised: the row stays pending under its lease. */
  lemma {:induction false} FlushAbandons(t: Table, batch: seq<ClaimedEvent>, k: nat, published: nat, env: Env)
    requires k <= |batch| && Holding(t, batch, k)
    ensures var (t', end) := Flushed(t, batch, k, published, env);
      && t'.Keys == t.Keys
      && (forall id | id in t :: t'[id] == t[id] || (Ahead(batch, k, id) && t'[id].publishedAt.Some?))
      && (forall id | id in t :: t'[id].deadLetteredAt == t[id].deadLetteredAt)
      && (k < |batch| && !env.answer(k).Accepted? ==> t' == t)
      && (k < |batch| && env.answer(k).Accepted? ==>
            batch[k].event.eventId in t && t'[batch[k].event.eventId].publishedAt.Some?)
    decreases |batch| - k
  {
    if k < |batch| && env.answer(k).Accepted? {
      var id, token := batch[k].event.eventId, batch[k].claimToken;
      var t1 := MarkedPublished(t, id, token, env.wall(k + 1), env.now(k + 1));
      assert Holding(t1, batch, k + 1);
      FlushAbandons(t1, batch, k + 1, published + 1, env);
      assert !Ahead(batch, k + 1, id);
    }
  }

  lemma FlushedDebt(c: Table, t': Table, end: End, batch: seq<ClaimedEvent>, env: Env, max: nat)
    requires Holding(c, batch, 0) && (t', end) == Flushed(c, batch, 0, 0, env)
    ensures t'.Keys == c.Keys
    ensures forall id | id in c :: Debt(t'[id], max) <= Debt(c[id], max)
    ensures batch != [] && env.answer(0).Accepted? ==>
      batch[0].event.eventId in t' && Debt(t'[batch[0].event.eventId], max) == 0
    ensures batch == [] || !env.answer(0).Accepted? ==> t' == c
  {
    FlushAbandons(c, batch, 0, 0, env);
  }

  /** Draining by flush_outbox is not guaranteed: it happens exactly when the first publish is accepted
      or some claimed row had attempts left. */
  lemma FlushDrainsIff(t: Table, t': Table, end: End, chosen: set<Id>, batch: seq<ClaimedEvent>,
                       locked: set<Id>, token: Id, lease: nat, env: Env, max: nat)
    requires IsFlush(t, t', end, chosen, batch, locked, token, lease, env)
    ensures TableDebt(t', max) < TableDebt(t, max) <==>
      (batch != [] && env.answer(0).Accepted?) || (exists id :: id in chosen && t[id].publishAttempts < max)
  {
    var claimed := Claimed(t, chosen, token, lease, env.now(0));
    ClaimedIsHeld(t, chosen, 100, locked, batch, token, lease, env.now(0));
    ClaimedDebt(t, chosen, 100, locked, token, lease, env.now(0), max);
    BatchHead(claimed, chosen, token, batch);
    FlushedDebt(claimed, t', end, batch, env, max);
    FlushDrainCases(t, claimed, t', chosen, batch, env, max);
  }

  lemma FlushDrainCases(t: Table, c: Table, t': Table, chosen: set<Id>, batch: seq<ClaimedEvent>, env: Env, max: nat)
    requires t.Keys == c.Keys == t'.Keys && chosen <= t.Keys
    requires forall id | id in t :: Debt(t'[id], max) <= Debt(c[id], max) <= Debt(t[id], max)
    requires forall id | id in chosen && t[id].publishAttempts < max :: Debt(c[id], max) < Debt(t[id], max)
    requires forall id | id in chosen :: Pending(t[id]) && Pending(c[id]) && c[id].publishAttempts == t[id].publishAttempts + 1
    requires forall id | id in t && id !in chosen :: c[id] == t[id]
    requires batch != [] ==> batch[0].event.eventId in chosen
    requires batch != [] && env.answer(0).Accepted? ==> Debt(t'[batch[0].event.eventId], max) == 0
    requires batch == [] || !env.answer(0).Accepted? ==> t' == c
    ensures TableDebt(t', max) < TableDebt(t, max) <==>
      (batch != [] && env.answer(0).Accepted?) || (exists id :: id in chosen && t[id].publishAttempts < max)
  {
    if batch != [] && env.answer(0).Accepted? {
      DebtStrict(t, t', batch[0].event.eventId, max);
    } else if id :| id in chosen && t[id].publishAttempts < max {
      DebtStrict(t, t', id, max);
    } else {
      DebtMonotone(t', t, t.Keys, max);
    }
  }
}
