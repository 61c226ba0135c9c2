/** The transactional outbox table and the statements that change it (shared_kernel outbox.py).
    The six tables of the source differ in name only; this is the one they share. */
module Outbox {
  import opened Base
  import opened Json
  import opened Envelopes

  datatype Row = Row(
    eventName: string,
    payload: Json,
    createdAt: Time,
    publishedAt: Option<Time>,
    deadLetteredAt: Option<Time>,
    claimToken: Option<Id>,
    claimedAt: Option<Time>,
    claimExpiresAt: Option<Time>,
    publishAttempts: nat,
    lastError: Option<string>,
    updatedAt: Time)

  /** Rows by their primary key, the event_id column. */
  type Table = map<Id, Row>

  /** One row of the claim statement's RETURNING clause. */
  datatype ClaimRecord = ClaimRecord(eventId: Id, payload: Json, claimToken: Option<Id>, publishAttempts: nat)

  datatype ClaimedEvent = ClaimedEvent(event: Envelope, claimToken: Id, publishAttempts: nat)

  const CLAIM_INVALID := ServiceError("OUTBOX_CLAIM_INVALID", 500)
  const CLAIM_LOST := ServiceError("OUTBOX_CLAIM_LOST", 409)

  // ---- the statements, as functions from table to table ----

  /** INSERT ... ON CONFLICT (event_id) DO NOTHING. */
  function Enqueued(t: Table, e: Envelope, now: Time): Table {
    if e.eventId in t then t
    else t[e.eventId := Row(e.eventName, Dump(e), now, None, None, None, None, None, 0, None, now)]
  }

  predicate Pending(r: Row) {
    r.publishedAt.None? && r.deadLetteredAt.None?
  }

  predicate Claimable(r: Row, now: Time) {
    Pending(r) && (r.claimExpiresAt.None? || r.claimExpiresAt.value <= now)
  }

  /** The rows the SELECT may lock: claimable and not locked by another claimer. */
  function Available(t: Table, locked: set<Id>, now: Time): set<Id> {
    set id | id in t && id !in locked && Claimable(t[id], now)
  }

  /** A legal answer of SELECT ... ORDER BY created_at LIMIT n FOR UPDATE SKIP LOCKED; ties are free. */
  ghost predicate IsClaimBatch(t: Table, chosen: set<Id>, limit: nat, locked: set<Id>, now: Time) {
    && chosen <= Available(t, locked, now)
    && |chosen| == Min(limit, |Available(t, locked, now)|)
    && forall c, u | c in chosen && u in Available(t, locked, now) - chosen :: t[c].createdAt <= t[u].createdAt
  }

  function ClaimedRow(r: Row, token: Id, lease: nat, now: Time): Row {
    r.(claimToken := Some(token),
       claimedAt := Some(now),
       claimExpiresAt := Some(now + lease * SECOND),
       publishAttempts := r.publishAttempts + 1,
       updatedAt := now)
  }

  /** The UPDATE of the claim statement, for the rows its SELECT chose. */
  function Claimed(t: Table, chosen: set<Id>, token: Id, lease: nat, now: Time): Table {
    map id | id in t :: if id in chosen then ClaimedRow(t[id], token, lease, now) else t[id]
  }

  /** The WHERE clause both completions share. */
  predicate HoldsClaim(t: Table, eventId: Id, token: Id) {
    eventId in t && t[eventId].claimToken == Some(token) && t[eventId].publishedAt.None?
  }

  function ReleasedRow(r: Row, now: Time): Row {
    r.(claimToken := None, claimedAt := None, claimExpiresAt := None, updatedAt := now)
  }

  function MarkedPublished(t: Table, eventId: Id, token: Id, at: Time, now: Time): Table {
    if !HoldsClaim(t, eventId, token) then t
    else t[eventId := ReleasedRow(t[eventId], now).(publishedAt := Some(at), lastError := None)]
  }

  function MarkedFailed(t: Table, eventId: Id, token: Id, message: string, maxAttempts: int, now: Time): Table {
    if !HoldsClaim(t, eventId, token) then t
    else
      var r := t[eventId];
      t[eventId := ReleasedRow(r, now).(
        lastError := Some(message),
        deadLetteredAt := if r.publishAttempts >= maxAttempts then Some(now) else r.deadLetteredAt)]
  }

  // ---- what a row stores ----

  function Payloads(t: Table): map<Id, Json> {
    map id | id in t :: t[id].payload
  }

  /** The payload is the JSON form of a valid envelope whose event id is the row's key. */
  ghost predicate Holds(id: Id, j: Json) {
    exists e :: IsDumpOf(id, j, e)
  }

  ghost predicate IsDumpOf(id: Id, j: Json, e: Envelope) {
    Valid(e) && j == Dump(e) && e.eventId == id
  }

  ghost predicate KeysMatch(p: map<Id, Json>) {
    forall id | id in p :: Holds(id, p[id])
  }

  /** Every row decodes, and its key is the event id inside its payload. */
  ghost predicate KeysMatchPayloads(t: Table) {
    KeysMatch(Payloads(t))
  }

  lemma DecodeHeld(id: Id, j: Json, clock: string)
    requires Holds(id, j)
    ensures Decode(j, clock).Ok? && Decode(j, clock).value.eventId == id
    ensures j == Dump(Decode(j, clock).value)
    ensures Decode(j, clock) == Decode(j, "")
  {
    var e :| IsDumpOf(id, j, e);
    DecodeDump(e, clock);
    DecodeDump(e, "");
  }

  /** Enqueueing keeps the key equal to the stored event id, adds exactly the event it was given, and
      never touches a row that exists. */
  lemma EnqueueStores(t: Table, e: Envelope, now: Time)
    requires KeysMatchPayloads(t) && Valid(e)
    ensures KeysMatchPayloads(Enqueued(t, e, now))
    ensures Payloads(Enqueued(t, e, now)) == (if e.eventId in t then Payloads(t) else Payloads(t)[e.eventId := Dump(e)])
    ensures forall id | id in t :: id in Enqueued(t, e, now) && Enqueued(t, e, now)[id] == t[id]
  {
    EnqueuePayloads(t, e, now);
    assert IsDumpOf(e.eventId, Dump(e), e);
    KeysMatchExtended(Payloads(t), e.eventId, Dump(e));
  }

  lemma EnqueuePayloads(t: Table, e: Envelope, now: Time)
    ensures Payloads(Enqueued(t, e, now)) == (if e.eventId in t then Payloads(t) else Payloads(t)[e.eventId := Dump(e)])
  {
    var j := Dump(e);
    assert e.eventId !in t ==> Enqueued(t, e, now)[e.eventId].payload == j;
  }

  lemma KeysMatchExtended(p: map<Id, Json>, id: Id, j: Json)
    requires KeysMatch(p) && Holds(id, j)
    ensures KeysMatch(p[id := j])
  {
  }

  /** The other three statements never change what is stored. */
  lemma CompletionsKeepPayloads(t: Table, chosen: set<Id>, eventId: Id, token: Id, lease: nat,
                                message: string, maxAttempts: int, at: Time, now: Time)
    ensures Payloads(Claimed(t, chosen, token, lease, now)) == Payloads(t)
    ensures Payloads(MarkedPublished(t, eventId, token, at, now)) == Payloads(t)
    ensures Payloads(MarkedFailed(t, eventId, token, message, maxAttempts, now)) == Payloads(t)
  {
  }

  // ---- the claim batch ----

  predicate IsOldest(t: Table, pool: set<Id>, id: Id)
    requires pool <= t.Keys
  {
    id in pool && forall o | o in pool :: t[id].createdAt <= t[o].createdAt
  }

  lemma {:induction false} OldestExists(t: Table, pool: set<Id>)
    requires pool <= t.Keys && pool != {}
    ensures exists id :: IsOldest(t, pool, id)
    decreases |pool|
  {
    var x :| x in pool;
    var rest := pool - {x};
    if rest == {} {
      assert pool == {x};
      assert IsOldest(t, pool, x);
    } else {
      OldestExists(t, rest);
      var y :| IsOldest(t, rest, y);
      assert forall o | o in pool :: o == x || o in rest;
      assert IsOldest(t, pool, if t[x].createdAt <= t[y].createdAt then x else y);
    }
  }

  lemma SubsetSize(a: set<Id>, b: set<Id>)
    requires a <= b
    ensures |a| <= |b|
    ensures |a| == |b| ==> a == b
  {
    assert b == a + (b - a);
  }

  lemma Differ(a: set<Id>, b: set<Id>) returns (x: Id, y: Id)
    requires |a| == |b| && a != b
    ensures x in a - b && y in b - a
  {
    if a <= b {
      SubsetSize(a, b);
    } else if b <= a {
      SubsetSize(b, a);
    }
    x :| x in a && x !in b;
    y :| y in b && y !in a;
  }

  /** When no two available rows were created at the same time, the claimed set is determined. */
  lemma ClaimBatchUnique(t: Table, a: set<Id>, b: set<Id>, limit: nat, locked: set<Id>, now: Time)
    requires IsClaimBatch(t, a, limit, locked, now) && IsClaimBatch(t, b, limit, locked, now)
    requires forall x, y | x in Available(t, locked, now) && y in Available(t, locked, now) ::
      t[x].createdAt == t[y].createdAt ==> x == y
    ensures a == b
  {
    if a != b {
      var x, y := Differ(a, b);
      assert false;
    }
  }

  /** The claim takes the oldest rows: a claimed row is never younger than an available row left behind,
      nothing available is left behind below the limit, and every other row is untouched. */
  lemma ClaimTakesOldest(t: Table, chosen: set<Id>, limit: nat, locked: set<Id>, token: Id, lease: nat, now: Time)
    requires IsClaimBatch(t, chosen, limit, locked, now)
    ensures var t' := Claimed(t, chosen, token, lease, now);
      && t'.Keys == t.Keys
      && (forall id | id in t && t'[id] != t[id] :: id in chosen)
      && (forall id | id in chosen :: id in t && id !in locked && t[id].publishedAt.None? && t[id].deadLetteredAt.None?
            && (t[id].claimExpiresAt.Some? ==> t[id].claimExpiresAt.value <= now))
      && (forall id | id in chosen :: t'[id].claimToken == Some(token) && t'[id].claimedAt == Some(now)
            && t'[id].claimExpiresAt == Some(now + lease * 1_000_000) && t'[id].publishAttempts == t[id].publishAttempts + 1
            && t'[id].createdAt == t[id].createdAt && t'[id].eventName == t[id].eventName && t'[id].lastError == t[id].lastError
            && t'[id].publishedAt.None? && t'[id].deadLetteredAt.None? && t'[id].payload == t[id].payload)
      && |chosen| <= limit
      && (forall id | id in t && id !in chosen && id !in locked && Claimable(t[id], now) ::
            |chosen| == limit && forall c | c in chosen :: t[c].createdAt <= t[id].createdAt)
  {
    var pool := Available(t, locked, now);
    forall id | id in t && id !in chosen && id !in locked && Claimable(t[id], now)
      ensures |chosen| == limit
    {
      assert id in pool - chosen;
      SubsetSize(chosen, pool);
    }
  }

  // ---- the table as the services use it ----

  /** The SELECT of the claim statement. */
  method SelectOldest(t: Table, limit: nat, locked: set<Id>, now: Time) returns (chosen: set<Id>)
    ensures IsClaimBatch(t, chosen, limit, locked, now)
  {
    var pool := Available(t, locked, now);
    ghost var all := pool;
    chosen := {};
    while |chosen| < limit && pool != {}
      invariant pool <= all && chosen == all - pool && |all| == |pool| + |chosen|
      invariant |chosen| <= limit
      invariant forall c, u | c in chosen && u in pool :: t[c].createdAt <= t[u].createdAt
      decreases |pool|
    {
      OldestExists(t, pool);
      var id :| id in pool && IsOldest(t, pool, id);
      pool, chosen := pool - {id}, chosen + {id};
    }
    assert all - chosen == pool;
  }

  function RecordOf(t: Table, id: Id): ClaimRecord
    requires id in t
  {
    ClaimRecord(id, t[id].payload, t[id].claimToken, t[id].publishAttempts)
  }

  /** The records list each chosen row once, with its new token and attempt count. */
  ghost predicate IsReturning(t: Table, chosen: set<Id>, records: seq<ClaimRecord>) {
    && chosen <= t.Keys
    && (forall i | 0 <= i < |records| ::
          records[i].eventId in chosen && records[i] == RecordOf(t, records[i].eventId))
    && (forall i, j | 0 <= i < j < |records| :: records[i].eventId != records[j].eventId)
    && (forall id | id in chosen :: RecordOf(t, id) in records)
  }

  /** The RETURNING clause: one record for each chosen row, in an order of the database's choice. */
  method Returning(t: Table, chosen: set<Id>) returns (records: seq<ClaimRecord>)
    requires chosen <= t.Keys
    ensures IsReturning(t, chosen, records)
  {
    records := [];
    var left := chosen;
    while left != {}
      invariant left <= chosen
      invariant IsReturning(t, chosen - left, records)
      decreases |left|
    {
      var id :| id in left;
      records := records + [RecordOf(t, id)];
      left := left - {id};
    }
    assert chosen - left == chosen;
  }

  /** The event decoded from a record, with the record's token and attempt count. */
  ghost predicate IsDecodedFrom(r: ClaimRecord, c: ClaimedEvent, clock: string) {
    && Decode(r.payload, clock) == Ok(c.event)
    && r.claimToken == Some(c.claimToken)
    && r.publishAttempts == c.publishAttempts
  }

  ghost predicate Decodable(r: ClaimRecord) {
    Holds(r.eventId, r.payload) && r.claimToken.Some? && !Blank(r.claimToken.value.text)
  }

  /** A record the loop accepts: its payload decodes and it has a claim token. */
  predicate Reads(r: ClaimRecord, clock: string) {
    Decode(r.payload, clock).Ok? && r.claimToken.Some? && !Blank(r.claimToken.value.text)
  }

  /** The error of a record the loop does not accept. */
  predicate RefusedFor(r: ClaimRecord, clock: string, error: ServiceError) {
    if Decode(r.payload, clock).Err? then Decode(r.payload, clock) == Err(error)
    else !Reads(r, clock) && error.code == "OUTBOX_CLAIM_INVALID" && error.statusCode == 500
  }

  /** Record i is the first the loop does not accept, and this is its error. */
  predicate FirstRefusal(records: seq<ClaimRecord>, i: nat, clock: string, error: ServiceError) {
    && i < |records|
    && RefusedFor(records[i], clock, error)
    && forall k | 0 <= k < i :: Reads(records[k], clock)
  }

  /** The decoding loop: all records in order, or the first error. */
  method DecodeBatch(records: seq<ClaimRecord>, clock: string) returns (events: Result<seq<ClaimedEvent>>)
    ensures (forall r | r in records :: Decodable(r)) ==> events.Ok?
    ensures events.Ok? <==> forall i | 0 <= i < |records| :: Reads(records[i], clock)
    ensures events.Err? ==> exists i: nat :: FirstRefusal(records, i, clock, events.error)
    ensures events.Ok? ==>
      && |events.value| == |records|
      && forall k | 0 <= k < |records| :: IsDecodedFrom(records[k], events.value[k], clock)
  {
    var decoded: seq<ClaimedEvent> := [];
    var i := 0;
    while i < |records|
      invariant 0 <= i <= |records| && |decoded| == i
      invariant forall k | 0 <= k < i :: IsDecodedFrom(records[k], decoded[k], clock) && Reads(records[k], clock)
    {
      var record := records[i];
      var envelope := Decode(record.payload, clock);
      if envelope.Err? {
        assert FirstRefusal(records, i, clock, envelope.error);
        if Decodable(record) {
          DecodeHeld(record.eventId, record.payload, clock);
        }
        return Err(envelope.error);
      }
      if record.claimToken.None? || Blank(record.claimToken.value.text) {
        assert FirstRefusal(records, i, clock, CLAIM_INVALID);
        return Err(CLAIM_INVALID);
      }
      decoded := decoded + [ClaimedEvent(envelope.value, record.claimToken.value, record.publishAttempts)];
      i := i + 1;
    }
    return Ok(decoded);
  }

  ghost predicate IsDecodingOf(t: Table, token: Id, id: Id, c: ClaimedEvent) {
    && id in t
    && t[id].payload == Dump(c.event)
    && Valid(c.event)
    && c.event.eventId == id
    && c.claimToken == token
    && c.publishAttempts == t[id].publishAttempts
  }

  /** A decoded batch: one event for each chosen row, and the event's own id is the row's key. */
  ghost predicate IsBatchOf(t: Table, chosen: set<Id>, token: Id, batch: seq<ClaimedEvent>) {
    && (forall i | 0 <= i < |batch| ::
          batch[i].event.eventId in chosen && IsDecodingOf(t, token, batch[i].event.eventId, batch[i]))
    && (forall i, j | 0 <= i < j < |batch| :: batch[i].event.eventId != batch[j].event.eventId)
    && (forall id | id in chosen :: exists i :: 0 <= i < |batch| && batch[i].event.eventId == id)
  }

  lemma DecodedIsRow(t: Table, token: Id, r: ClaimRecord, c: ClaimedEvent, clock: string)
    requires r.eventId in t && r == RecordOf(t, r.eventId) && r.claimToken == Some(token)
    requires Holds(r.eventId, r.payload) && IsDecodedFrom(r, c, clock)
    ensures IsDecodingOf(t, token, r.eventId, c)
  {
    DecodeHeld(r.eventId, r.payload, clock);
  }

  lemma AllDecodable(t: Table, chosen: set<Id>, token: Id, records: seq<ClaimRecord>)
    requires IsReturning(t, chosen, records) && KeysMatchPayloads(t)
    requires forall id | id in chosen :: t[id].claimToken == Some(token)
    requires !Blank(token.text)
    ensures forall r | r in records :: Decodable(r)
  {
    forall r | r in records ensures Decodable(r) {
      assert Payloads(t)[r.eventId] == r.payload;
    }
  }

  lemma BatchFromRecords(t: Table, chosen: set<Id>, token: Id, records: seq<ClaimRecord>,
                         batch: seq<ClaimedEvent>, clock: string)
    requires IsReturning(t, chosen, records)
    requires forall id | id in chosen :: t[id].claimToken == Some(token)
    requires forall r | r in records :: Decodable(r)
    requires |batch| == |records| && forall k | 0 <= k < |records| :: IsDecodedFrom(records[k], batch[k], clock)
    ensures IsBatchOf(t, chosen, token, batch)
  {
    forall k | 0 <= k < |batch|
      ensures batch[k].event.eventId == records[k].eventId
      ensures IsDecodingOf(t, token, batch[k].event.eventId, batch[k])
    {
      assert Decodable(records[k]);
      DecodedIsRow(t, token, records[k], batch[k], clock);
    }
    forall id | id in chosen ensures exists i :: 0 <= i < |batch| && batch[i].event.eventId == id {
      var i :| 0 <= i < |records| && records[i] == RecordOf(t, id);
      assert batch[i].event.eventId == id;
    }
  }

  /** Every row of the batch decodes, and the token is not blank. */
  predicate AllRead(t: Table, chosen: set<Id>, token: Id, clock: string)
    requires chosen <= t.Keys
  {
    chosen == {} || (!Blank(token.text) && forall id | id in chosen :: Decode(t[id].payload, clock).Ok?)
  }

  lemma RecordsRead(t: Table, t': Table, chosen: set<Id>, token: Id, records: seq<ClaimRecord>, clock: string)
    requires chosen <= t.Keys && IsReturning(t', chosen, records)
    requires forall id | id in chosen :: t'[id].payload == t[id].payload && t'[id].claimToken == Some(token)
    ensures (forall i | 0 <= i < |records| :: Reads(records[i], clock)) <==> AllRead(t, chosen, token, clock)
  {
    if forall i | 0 <= i < |records| :: Reads(records[i], clock) {
      forall id | id in chosen ensures !Blank(token.text) && Decode(t[id].payload, clock).Ok? {
        var i :| 0 <= i < |records| && records[i] == RecordOf(t', id);
        assert Reads(records[i], clock);
      }
    }
    if AllRead(t, chosen, token, clock) {
      forall i | 0 <= i < |records| ensures Reads(records[i], clock) {
        assert records[i].eventId in chosen && records[i] == RecordOf(t', records[i].eventId);
      }
    }
  }

  class OutboxTable {
    var rows: Table

    constructor ()
      ensures rows == map[]
    {
      rows := map[];
    }

    method Enqueue(e: Envelope, now: Time)
      modifies this
      ensures rows == Enqueued(old(rows), e, now)
      ensures forall id | id in old(rows) :: id in rows && rows[id] == old(rows)[id]
      ensures rows.Keys == old(rows).Keys + {e.eventId}
      ensures e.eventId !in old(rows) ==> var r := rows[e.eventId];
        && r.eventName == e.eventName && r.payload == Dump(e) && r.createdAt == now && r.publishAttempts == 0
        && r.publishedAt == r.deadLetteredAt == r.claimedAt == r.claimExpiresAt == None && r.claimToken.None? && r.lastError.None?
    {
      if e.eventId !in rows {
        rows := rows[e.eventId := Row(e.eventName, Dump(e), now, None, None, None, None, None, 0, None, now)];
      }
    }

    /** The claim statement: lock the oldest rows, lease them under one token, return them in no set order. */
    method Claim(limit: nat, locked: set<Id>, token: Id, lease: nat, now: Time)
      returns (chosen: set<Id>, records: seq<ClaimRecord>)
      modifies this
      ensures IsClaimBatch(old(rows), chosen, limit, locked, now)
      ensures rows == Claimed(old(rows), chosen, token, lease, now)
      ensures IsReturning(rows, chosen, records)
    {
      chosen := SelectOldest(rows, limit, locked, now);
      rows := map id | id in rows :: if id in chosen then ClaimedRow(rows[id], token, lease, now) else rows[id];
      records := Returning(rows, chosen);
    }

    /** fetch_pending_outbox_events: claim a batch and decode it; a row that does not decode fails the
        whole batch and leaves it leased. */
    method FetchPending(limit: nat, locked: set<Id>, token: Id, lease: nat, now: Time, clock: string)
      returns (ghost chosen: set<Id>, events: Result<seq<ClaimedEvent>>)
      modifies this
      ensures IsClaimBatch(old(rows), chosen, limit, locked, now)
      ensures rows == Claimed(old(rows), chosen, token, lease, now)
      ensures KeysMatchPayloads(old(rows)) && !Blank(token.text) ==>
        events.Ok? && IsBatchOf(rows, chosen, token, events.value)
      ensures chosen <= old(rows).Keys && (events.Ok? <==> AllRead(old(rows), chosen, token, clock))
    {
      var picked, records := Claim(limit, locked, token, lease, now);
      chosen := picked;
      events := DecodeBatch(records, clock);
      RecordsRead(old(rows), rows, chosen, token, records, clock);
      if KeysMatchPayloads(old(rows)) && !Blank(token.text) {
        CompletionsKeepPayloads(old(rows), chosen, token, token, lease, "", 0, 0, now);
        AllDecodable(rows, chosen, token, records);
        BatchFromRecords(rows, chosen, token, records, events.value, clock);
      }
    }

    method MarkPublished(eventId: Id, token: Id, at: Time, now: Time) returns (r: Result<()>)
      modifies this
      ensures rows == MarkedPublished(old(rows), eventId, token, at, now)
      ensures r.Ok? <==> eventId in old(rows) && old(rows)[eventId].claimToken == Some(token) && old(rows)[eventId].publishedAt.None?
      ensures r.Err? ==> r.error == CLAIM_LOST && rows == old(rows)
      ensures r.Ok? ==> rows == old(rows)[eventId := rows[eventId]] && var row, was := rows[eventId], old(rows)[eventId];
        && row.publishedAt == Some(at) && row.claimToken.None? && row.claimedAt.None? && row.claimExpiresAt.None?
        && row.lastError.None? && row.deadLetteredAt == was.deadLetteredAt && row.payload == was.payload
        && row.eventName == was.eventName && row.createdAt == was.createdAt && row.publishAttempts == was.publishAttempts
    {
      if eventId in rows && rows[eventId].claimToken == Some(token) && rows[eventId].publishedAt.None? {
        rows := rows[eventId := rows[eventId].(
          publishedAt := Some(at), claimToken := None, claimedAt := None, claimExpiresAt := None,
          lastError := None, updatedAt := now)];
        r := Ok(());
      } else {
        r := Err(CLAIM_LOST);
      }
    }

    method MarkFailed(eventId: Id, token: Id, message: string, maxAttempts: int, now: Time) returns (r: Result<()>)
      modifies this
      ensures rows == MarkedFailed(old(rows), eventId, token, message, maxAttempts, now)
      ensures r.Ok? <==> eventId in old(rows) && old(rows)[eventId].claimToken == Some(token) && old(rows)[eventId].publishedAt.None?
      ensures r.Err? ==> r.error == CLAIM_LOST && rows == old(rows)
      ensures r.Ok? ==> rows == old(rows)[eventId := rows[eventId]] && var row, was := rows[eventId], old(rows)[eventId];
        && row.deadLetteredAt == (if was.publishAttempts >= maxAttempts then Some(now) else was.deadLetteredAt)
        && row.lastError == Some(message) && row.claimToken.None? && row.claimedAt.None? && row.claimExpiresAt.None?
        && row.publishedAt.None? && row.payload == was.payload && row.eventName == was.eventName
        && row.createdAt == was.createdAt && row.publishAttempts == was.publishAttempts
    {
      if eventId in rows && rows[eventId].claimToken == Some(token) && rows[eventId].publishedAt.None? {
        var row := rows[eventId];
        rows := rows[eventId := row.(
          lastError := Some(message),
          deadLetteredAt := if row.publishAttempts >= maxAttempts then Some(now) else row.deadLetteredAt,
          claimToken := None, claimedAt := None, claimExpiresAt := None, updatedAt := now)];
        r := Ok(());
      } else {
        r := Err(CLAIM_LOST);
      }
    }
  }
}
