/** Any number of relay workers, flushers and writers on one outbox table, as a step system.
    Each database statement is one step; a worker can vanish between any two of them. What a worker
    remembers of a claimed event is its claim (row and token) and how far it got. The leases are the
    history of all claims ever made. */
module LeaseProtocol {
  import opened Base
  import opened Envelopes
  import opened Outbox

  datatype Claim = Claim(id: Id, token: Id)

  datatype Phase = Unpublished | PublishReturned | PublishRaised

  datatype Lease = Lease(start: Time, expires: Time, released: Option<Time>) {
    /** The earlier of expiry and release. */
    function End(): Time {
      if released.Some? && released.value < expires then released.value else expires
    }
  }

  datatype State = State(
    table: Table,
    now: Time,
    tokens: set<Id>,
    held: map<Claim, Phase>,
    leases: map<Claim, Lease>,
    confirmed: set<Id>,
    refused: set<Id>)

  datatype Label =
    | Enqueue(e: Envelope)
    | ClaimBatch(chosen: set<Id>, limit: nat, locked: set<Id>, token: Id, lease: nat)
    | Publish(c: Claim, accepted: bool, delivered: bool)
    | Complete(c: Claim, at: Time)
    | Fail(c: Claim, message: string)
    | Crash(lost: set<Claim>)
    | Tick(elapsed: nat)

  predicate IsInit(s: State) {
    && s.table == map[] && s.tokens == {} && s.held == map[] && s.leases == map[]
    && s.confirmed == {} && s.refused == {}
  }

  /** A publish that returns was delivered (publisher confirms); one that raises may have been.
      A worker marks a row published only after its publish returned, and failed only after it raised. */
  ghost predicate Enabled(s: State, l: Label) {
    match l
    case Enqueue(e) => Valid(e)
    case ClaimBatch(chosen, limit, locked, token, lease) =>
      token !in s.tokens && IsClaimBatch(s.table, chosen, limit, locked, s.now)
    case Publish(c, accepted, delivered) =>
      c in s.held && s.held[c].Unpublished? && (accepted ==> delivered)
    case Complete(c, at) => c in s.held && s.held[c].PublishReturned?
    case Fail(c, message) => c in s.held && s.held[c].PublishRaised?
    case Crash(lost) => true
    case Tick(elapsed) => true
  }

  /** The same entry for each claim of a batch. */
  function ForBatch<T>(chosen: set<Id>, token: Id, entry: T): (m: map<Claim, T>)
    ensures forall c :: c in m <==> c.token == token && c.id in chosen
    ensures forall c | c in m :: m[c] == entry
  {
    map id | id in chosen :: Claim(id, token) := entry
  }

  function Released(leases: map<Claim, Lease>, c: Claim, now: Time): map<Claim, Lease> {
    if c in leases && leases[c].released.None? then leases[c := leases[c].(released := Some(now))] else leases
  }

  function Apply(s: State, l: Label, max: nat): State {
    match l
    case Enqueue(e) => s.(table := Enqueued(s.table, e, s.now))
    case ClaimBatch(chosen, limit, locked, token, lease) =>
      s.(table := Claimed(s.table, chosen, token, lease, s.now),
         tokens := s.tokens + {token},
         held := s.held + ForBatch(chosen, token, Unpublished),
         leases := s.leases + ForBatch(chosen, token, Lease(s.now, s.now + lease * SECOND, None)))
    case Publish(c, accepted, delivered) =>
      if accepted then s.(held := s.held[c := PublishReturned], confirmed := s.confirmed + {c.id})
      else s.(held := s.held[c := PublishRaised], refused := s.refused + {c.id})
    case Complete(c, at) =>
      s.(table := MarkedPublished(s.table, c.id, c.token, at, s.now),
         held := s.held - {c},
         leases := if HoldsClaim(s.table, c.id, c.token) then Released(s.leases, c, s.now) else s.leases)
    case Fail(c, message) =>
      s.(table := MarkedFailed(s.table, c.id, c.token, message, max, s.now),
         held := s.held - {c},
         leases := if HoldsClaim(s.table, c.id, c.token) then Released(s.leases, c, s.now) else s.leases)
    case Crash(lost) => s.(held := s.held - lost)
    case Tick(elapsed) => s.(now := s.now + elapsed)
  }

  /** One step under some label; max is the relay's configured attempt limit. */
  ghost predicate Next(s: State, s': State, max: nat) {
    exists l :: IsStep(s, l, s', max)
  }

  ghost predicate IsStep(s: State, l: Label, s': State, max: nat) {
    Enabled(s, l) && s' == Apply(s, l, max)
  }

  ghost predicate IsRun(run: seq<State>, max: nat) {
    && |run| >= 1
    && IsInit(run[0])
    && forall i | 0 <= i < |run| - 1 :: Next(run[i], run[i + 1], max)
  }

  // ---- the invariant ----

  predicate Current(t: Table, c: Claim) {
    c.id in t && t[c.id].claimToken == Some(c.token)
  }

  /** Published and dead-lettered exclude each other and hold no claim; a row waiting without a claim
      has attempts left; claim columns are set and cleared together. */
  predicate RowOk(r: Row, max: nat) {
    && (r.publishedAt.Some? ==> r.deadLetteredAt.None?)
    && (!Pending(r) ==> r.claimToken.None?)
    && (r.claimToken.Some? <==> r.claimExpiresAt.Some?)
    && (r.claimToken.Some? <==> r.claimedAt.Some?)
    && (r.deadLetteredAt.Some? ==> r.publishAttempts >= max)
    && (Pending(r) && r.claimToken.None? ==> r.publishAttempts < max)
  }

  ghost predicate RowsOk(s: State, max: nat) {
    forall id | id in s.table ::
      && RowOk(s.table[id], max)
      && (s.table[id].publishedAt.Some? ==> id in s.confirmed)
      && (s.table[id].deadLetteredAt.Some? ==> id in s.refused)
  }

  ghost predicate HeldOk(s: State) {
    forall c | c in s.held ::
      && c in s.leases
      && (s.held[c].PublishReturned? ==> c.id in s.confirmed)
      && (s.held[c].PublishRaised? ==> c.id in s.refused)
  }

  /** The current claim of a row is an unreleased lease with the row's expiry; any other lease is over. */
  ghost predicate LeaseOk(s: State, c: Claim)
    requires c in s.leases
  {
    && c.token in s.tokens && c.id in s.table
    && s.leases[c].start <= s.now
    && (Current(s.table, c) ==>
          s.leases[c].released.None? && s.table[c.id].claimExpiresAt == Some(s.leases[c].expires))
    && (!Current(s.table, c) ==> s.leases[c].End() <= s.now)
  }

  ghost predicate LeasesOk(s: State) {
    && (forall c | c in s.leases :: LeaseOk(s, c))
    && (forall id | id in s.table && s.table[id].claimToken.Some? ::
          Claim(id, s.table[id].claimToken.value) in s.leases)
  }

  ghost predicate Apart(a: Lease, b: Lease) {
    a.End() <= b.start || b.End() <= a.start
  }

  /** The leases of one row never overlap. */
  ghost predicate Exclusive(s: State) {
    forall c, d | c in s.leases && d in s.leases && c != d && c.id == d.id :: Apart(s.leases[c], s.leases[d])
  }

  ghost predicate Inv(s: State, max: nat) {
    && RowsOk(s, max)
    && HeldOk(s)
    && LeasesOk(s)
    && Exclusive(s)
  }

  // ---- every step keeps it ----

  lemma EnqueueKeeps(s: State, e: Envelope, max: nat)
    requires Inv(s, max) && max >= 1
    ensures Inv(Apply(s, Enqueue(e), max), max)
  {
    var s' := Apply(s, Enqueue(e), max);
    assert forall c | c in s'.leases :: Current(s'.table, c) <==> Current(s.table, c);
  }

  /** A claimable row's earlier leases have all ended. */
  lemma ClaimableMeansOver(s: State, id: Id, max: nat)
    requires Inv(s, max) && id in s.table && Claimable(s.table[id], s.now)
    ensures forall c | c in s.leases && c.id == id :: s.leases[c].End() <= s.now
  {
    forall c | c in s.leases && c.id == id ensures s.leases[c].End() <= s.now {
      if Current(s.table, c) {
        assert s.table[id].claimExpiresAt == Some(s.leases[c].expires);
      }
    }
  }

  lemma ClaimKeeps(s: State, l: Label, max: nat)
    requires Inv(s, max) && l.ClaimBatch? && Enabled(s, l)
    ensures Inv(Apply(s, l, max), max)
  {
    forall id | id in l.chosen
      ensures id in s.table && Claimable(s.table[id], s.now)
      ensures forall c | c in s.leases && c.id == id :: s.leases[c].End() <= s.now
    {
      assert id in Available(s.table, l.locked, s.now);
      ClaimableMeansOver(s, id, max);
    }
    ClaimRows(s, l, max);
    ClaimHeld(s, l, max);
    ClaimLeases(s, l, max);
    ClaimExclusive(s, l, max);
  }

  /** The facts about a batch the parts of the claim step need. */
  ghost predicate OverFor(s: State, l: Label) {
    && l.ClaimBatch? && l.token !in s.tokens && l.chosen <= s.table.Keys
    && (forall c | c in s.leases :: c.token in s.tokens)
    && (forall c | c in s.leases && c.id in l.chosen :: s.leases[c].End() <= s.now)
  }

  lemma ClaimRows(s: State, l: Label, max: nat)
    requires RowsOk(s, max) && l.ClaimBatch? && l.chosen <= s.table.Keys
    requires forall id | id in l.chosen :: Claimable(s.table[id], s.now)
    ensures RowsOk(Apply(s, l, max), max)
  {
    var t' := Claimed(s.table, l.chosen, l.token, l.lease, s.now);
    forall id | id in t' ensures RowOk(t'[id], max) {
      assert RowOk(s.table[id], max);
    }
  }

  lemma ClaimHeld(s: State, l: Label, max: nat)
    requires HeldOk(s) && l.ClaimBatch?
    ensures HeldOk(Apply(s, l, max))
  {
  }

  lemma ClaimLeases(s: State, l: Label, max: nat)
    requires LeasesOk(s) && OverFor(s, l)
    ensures LeasesOk(Apply(s, l, max))
  {
    var s' := Apply(s, l, max);
    forall c | c in s'.leases ensures LeaseOk(s', c) {
      if c in s.leases {
        assert LeaseOk(s, c) && c.token != l.token;
        assert s'.leases[c] == s.leases[c];
      }
    }
    forall id | id in s'.table && s'.table[id].claimToken.Some?
      ensures Claim(id, s'.table[id].claimToken.value) in s'.leases
    {
      if id !in l.chosen {
        assert Claim(id, s.table[id].claimToken.value) in s.leases;
      }
    }
  }

  lemma ClaimExclusive(s: State, l: Label, max: nat)
    requires LeasesOk(s) && Exclusive(s) && OverFor(s, l)
    ensures Exclusive(Apply(s, l, max))
  {
    var s' := Apply(s, l, max);
    forall c, d | c in s'.leases && d in s'.leases && c != d && c.id == d.id
      ensures Apart(s'.leases[c], s'.leases[d])
    {
      if c in s.leases && d in s.leases {
        assert c.token != l.token && d.token != l.token;
      }
    }
  }

  lemma CompletionKeeps(s: State, l: Label, max: nat)
    requires Inv(s, max) && (l.Complete? || l.Fail?) && Enabled(s, l)
    ensures Inv(Apply(s, l, max), max)
  {
    if HoldsClaim(s.table, l.c.id, l.c.token) {
      CompletionRows(s, l, max);
      CompletionLeases(s, l, max);
      CompletionExclusive(s, l, max);
    }
  }

  lemma CompletionRows(s: State, l: Label, max: nat)
    requires RowsOk(s, max) && HeldOk(s) && (l.Complete? || l.Fail?) && Enabled(s, l)
    ensures RowsOk(Apply(s, l, max), max) && HeldOk(Apply(s, l, max))
  {
  }

  lemma CompletionLeases(s: State, l: Label, max: nat)
    requires LeasesOk(s) && (l.Complete? || l.Fail?) && HoldsClaim(s.table, l.c.id, l.c.token)
    ensures LeasesOk(Apply(s, l, max))
  {
    var s' := Apply(s, l, max);
    forall c | c in s.leases ensures Current(s'.table, c) <==> (Current(s.table, c) && c != l.c) {
    }
  }

  lemma CompletionExclusive(s: State, l: Label, max: nat)
    requires Exclusive(s) && (l.Complete? || l.Fail?)
    ensures Exclusive(Apply(s, l, max))
  {
    var s' := Apply(s, l, max);
    forall c | c in s'.leases
      ensures c in s.leases && s'.leases[c].start == s.leases[c].start && s'.leases[c].End() <= s.leases[c].End()
    {
    }
    forall c, d | c in s'.leases && d in s'.leases && c != d && c.id == d.id
      ensures Apart(s'.leases[c], s'.leases[d])
    {
      assert Apart(s.leases[c], s.leases[d]);
    }
  }

  lemma PublishKeeps(s: State, l: Label, max: nat)
    requires RowsOk(s, max) && HeldOk(s) && l.Publish? && Enabled(s, l)
    ensures RowsOk(Apply(s, l, max), max) && HeldOk(Apply(s, l, max))
  {
  }

  /** Time passing, with table, leases and tokens as they were, ends leases but starts none. */
  lemma LeasesFramed(s: State, s': State)
    requires LeasesOk(s)
    requires s'.table == s.table && s'.leases == s.leases && s'.tokens == s.tokens && s.now <= s'.now
    ensures LeasesOk(s')
  {
    forall c | c in s'.leases ensures LeaseOk(s', c) {
      assert LeaseOk(s, c);
    }
  }

  lemma CrashKeeps(s: State, l: Label, max: nat)
    requires RowsOk(s, max) && HeldOk(s) && (l.Crash? || l.Tick?)
    ensures RowsOk(Apply(s, l, max), max) && HeldOk(Apply(s, l, max))
  {
  }

  /** The steps that touch neither the table nor the leases. */
  lemma OtherKeeps(s: State, l: Label, max: nat)
    requires Inv(s, max) && (l.Publish? || l.Crash? || l.Tick?) && Enabled(s, l)
    ensures Inv(Apply(s, l, max), max)
  {
    LeasesFramed(s, Apply(s, l, max));
    if l.Publish? {
      PublishKeeps(s, l, max);
    } else {
      CrashKeeps(s, l, max);
    }
  }

  lemma NextKeeps(s: State, s': State, max: nat)
    requires Inv(s, max) && max >= 1 && Next(s, s', max)
    ensures Inv(s', max)
  {
    var l :| IsStep(s, l, s', max);
    match l
    case Enqueue(e) => EnqueueKeeps(s, e, max);
    case ClaimBatch(_, _, _, _, _) => ClaimKeeps(s, l, max);
    case Complete(_, _) => CompletionKeeps(s, l, max);
    case Fail(_, _) => CompletionKeeps(s, l, max);
    case _ => OtherKeeps(s, l, max);
  }

  lemma {:induction false} RunKeeps(run: seq<State>, max: nat, i: nat)
    requires max >= 1 && IsRun(run, max) && i < |run|
    ensures Inv(run[i], max)
  {
    if i > 0 {
      RunKeeps(run, max, i - 1);
      NextKeeps(run[i - 1], run[i], max);
    }
  }

  lemma StepStores(s: State, l: Label, max: nat)
    requires KeysMatchPayloads(s.table) && Enabled(s, l)
    ensures KeysMatchPayloads(Apply(s, l, max).table)
  {
    match l
    case Enqueue(e) => EnqueueStores(s.table, e, s.now);
    case ClaimBatch(chosen, _, _, token, lease) =>
      CompletionsKeepPayloads(s.table, chosen, token, token, lease, "", max, 0, s.now);
    case Complete(c, at) => CompletionsKeepPayloads(s.table, {}, c.id, c.token, 0, "", max, at, s.now);
    case Fail(c, message) => CompletionsKeepPayloads(s.table, {}, c.id, c.token, 0, message, max, 0, s.now);
    case _ =>
  }

  /** In every reachable state each row decodes to an envelope whose event id is the row's key, so a
      completion keyed by the payload's event id hits the row that was claimed. */
  lemma {:induction false} RunStores(run: seq<State>, max: nat, i: nat)
    requires IsRun(run, max) && i < |run|
    ensures KeysMatchPayloads(run[i].table)
  {
    if i > 0 {
      RunStores(run, max, i - 1);
      assert Next(run[i - 1], run[i], max);
      var l :| IsStep(run[i - 1], l, run[i], max);
      StepStores(run[i - 1], l, max);
    }
  }

  // ---- what holds over whole runs ----

  /** What no later step takes back: rows stay, finished rows stay as they are, a lease keeps its interval's
      start and expiry, and a claim that is over stays over. */
  ghost predicate Later(s: State, s': State) {
    && s.now <= s'.now
    && s.confirmed <= s'.confirmed && s.refused <= s'.refused
    && (forall id | id in s.table :: id in s'.table && s'.table[id].payload == s.table[id].payload)
    && (forall id | id in s.table && !Pending(s.table[id]) :: s'.table[id] == s.table[id])
    && (forall c | c in s.leases :: c in s'.leases
          && s'.leases[c].start == s.leases[c].start && s'.leases[c].expires == s.leases[c].expires)
    && (forall c | c in s.leases && !Current(s.table, c) :: !Current(s'.table, c) && s'.leases[c] == s.leases[c])
  }

  lemma NextIsLater(s: State, s': State, max: nat)
    requires Inv(s, max) && Next(s, s', max)
    ensures Later(s, s')
  {
    var l :| IsStep(s, l, s', max);
    match l
    case Enqueue(_) => EnqueueIsLater(s, l, max);
    case ClaimBatch(_, _, _, _, _) => ClaimIsLater(s, l, max);
    case Complete(_, _) => CompletionIsLater(s, l, max);
    case Fail(_, _) => CompletionIsLater(s, l, max);
    case _ =>
  }

  lemma EnqueueIsLater(s: State, l: Label, max: nat)
    requires Inv(s, max) && l.Enqueue?
    ensures Later(s, Apply(s, l, max))
  {
  }

  lemma CompletionIsLater(s: State, l: Label, max: nat)
    requires RowsOk(s, max) && (l.Complete? || l.Fail?)
    ensures Later(s, Apply(s, l, max))
  {
    if HoldsClaim(s.table, l.c.id, l.c.token) {
      var s' := Apply(s, l, max);
      assert RowOk(s.table[l.c.id], max);
      CompletionRow(s, l, max);
      forall c | c in s.leases && !Current(s.table, c) ensures !Current(s'.table, c) && s'.leases[c] == s.leases[c] {
        assert c != l.c;
        assert c.id in s'.table ==> c.id in s.table;
      }
    }
  }

  lemma CompletionRow(s: State, l: Label, max: nat)
    requires (l.Complete? || l.Fail?) && HoldsClaim(s.table, l.c.id, l.c.token)
    ensures var s' := Apply(s, l, max);
      && s'.table.Keys == s.table.Keys
      && (forall id | id in s.table && id != l.c.id :: s'.table[id] == s.table[id])
      && s'.table[l.c.id].payload == s.table[l.c.id].payload
      && s'.table[l.c.id].claimToken.None?
      && s'.now == s.now && s'.confirmed == s.confirmed && s'.refused == s.refused
      && s'.leases == Released(s.leases, l.c, s.now)
  {
  }

  lemma ClaimIsLater(s: State, l: Label, max: nat)
    requires Inv(s, max) && l.ClaimBatch? && Enabled(s, l)
    ensures Later(s, Apply(s, l, max))
  {
    var s' := Apply(s, l, max);
    forall c | c in s.leases
      ensures c in s'.leases && s'.leases[c] == s.leases[c]
      ensures !Current(s.table, c) ==> !Current(s'.table, c)
    {
      assert LeaseOk(s, c) && c.token != l.token;
    }
    forall id | id in s.table && !Pending(s.table[id]) ensures s'.table[id] == s.table[id] {
      assert id !in Available(s.table, l.locked, s.now);
    }
  }

  lemma {:induction false} RunIsLater(run: seq<State>, max: nat, i: nat, j: nat)
    requires max >= 1 && IsRun(run, max) && i <= j < |run|
    ensures Later(run[i], run[j])
  {
    if i < j {
      RunIsLater(run, max, i, j - 1);
      RunKeeps(run, max, j - 1);
      NextIsLater(run[j - 1], run[j], max);
    }
  }

  /** Two claims ever made on one row have disjoint intervals, each from its claim to the earlier of its
      expiry and its release. */
  lemma LeaseExclusivity(run: seq<State>, max: nat, i: nat, c: Claim, d: Claim)
    requires max >= 1 && IsRun(run, max) && i < |run|
    requires c in run[i].leases && d in run[i].leases && c != d && c.id == d.id
    ensures Apart(run[i].leases[c], run[i].leases[d])
  {
    RunKeeps(run, max, i);
  }

  /** Once another claim or a completion has replaced a claim, no completion under the old token ever
      changes the row again, however long the worker waits. */
  lemma LostClaimIsPowerless(run: seq<State>, max: nat, i: nat, j: nat, c: Claim, at: Time, message: string)
    requires max >= 1 && IsRun(run, max) && i <= j < |run|
    requires c in run[i].leases && !Current(run[i].table, c)
    ensures MarkedPublished(run[j].table, c.id, c.token, at, run[j].now) == run[j].table
    ensures MarkedFailed(run[j].table, c.id, c.token, message, max, run[j].now) == run[j].table
  {
    RunIsLater(run, max, i, j);
  }

  /** Published and dead-lettered rows exclude each other and never change again. */
  lemma FinishedIsForever(run: seq<State>, max: nat, i: nat, j: nat, id: Id)
    requires max >= 1 && IsRun(run, max) && i <= j < |run|
    requires id in run[i].table && !Pending(run[i].table[id])
    ensures id in run[j].table && run[j].table[id] == run[i].table[id]
    ensures run[i].table[id].publishedAt.Some? <==> run[i].table[id].deadLetteredAt.None?
  {
    RunIsLater(run, max, i, j);
    RunKeeps(run, max, i);
  }

  ghost predicate PublishedAt(run: seq<State>, k: nat, id: Id, accepted: bool, max: nat) {
    && k + 1 < |run|
    && exists c: Claim, delivered: bool :: c.id == id && IsStep(run[k], Publish(c, accepted, delivered), run[k + 1], max)
  }

  lemma {:induction false} ConfirmedHasPublish(run: seq<State>, max: nat, i: nat, id: Id)
    requires IsRun(run, max) && i < |run| && id in run[i].confirmed
    ensures exists k :: 0 <= k < i && PublishedAt(run, k, id, true, max)
  {
    if id in run[i - 1].confirmed {
      ConfirmedHasPublish(run, max, i - 1, id);
    } else {
      assert Next(run[i - 1], run[i], max);
      var l :| IsStep(run[i - 1], l, run[i], max);
      assert IsStep(run[i - 1], Publish(l.c, true, l.delivered), run[i], max);
      assert PublishedAt(run, i - 1, id, true, max);
    }
  }

  lemma {:induction false} RefusedHasPublish(run: seq<State>, max: nat, i: nat, id: Id)
    requires IsRun(run, max) && i < |run| && id in run[i].refused
    ensures exists k :: 0 <= k < i && PublishedAt(run, k, id, false, max)
  {
    if id in run[i - 1].refused {
      RefusedHasPublish(run, max, i - 1, id);
    } else {
      assert Next(run[i - 1], run[i], max);
      var l :| IsStep(run[i - 1], l, run[i], max);
      assert IsStep(run[i - 1], Publish(l.c, false, l.delivered), run[i], max);
      assert PublishedAt(run, i - 1, id, false, max);
    }
  }

  /** The life of a row: published only after a publish of that event returned; dead-lettered only after
      one raised and the attempts ran out; waiting without a claim only with attempts left; and a pending
      row becomes claimable no later than the end of its lease, so none is stranded. */
  lemma RowLifecycle(run: seq<State>, max: nat, i: nat, id: Id)
    requires max >= 1 && IsRun(run, max) && i < |run| && id in run[i].table
    ensures var r := run[i].table[id];
      && (r.publishedAt.Some? ==> exists k :: 0 <= k < i && PublishedAt(run, k, id, true, max))
      && (r.deadLetteredAt.Some? ==> r.publishAttempts >= max && exists k :: 0 <= k < i && PublishedAt(run, k, id, false, max))
      && (Pending(r) && r.claimToken.None? ==> r.publishAttempts < max && Claimable(r, run[i].now))
      && (Pending(r) && r.claimToken.Some? ==>
            r.claimExpiresAt.Some? && forall t: Time :: Claimable(r, t) <==> t >= r.claimExpiresAt.value)
  {
    RunKeeps(run, max, i);
    if run[i].table[id].publishedAt.Some? {
      ConfirmedHasPublish(run, max, i, id);
    }
    if run[i].table[id].deadLetteredAt.Some? {
      RefusedHasPublish(run, max, i, id);
    }
  }
}
