/** The gateway's idempotency keys (api_gateway idempotency.py): one row a key, pending until its first
    finalization, taken over when it has expired or gone stale. */
module Idempotency {
  import opened Base
  import opened Json

  type Fields = map<string, Json>

  datatype Status = Pending | Completed | Failed

  /** One row; a payload column holds the JSON tree it stores, None for SQL NULL. */
  datatype KeyRow = KeyRow(
    endpoint: string,
    requestHash: string,
    status: Status,
    response: Option<Json>,
    responseCode: Option<int>,
    error: Option<Json>,
    errorCode: Option<int>,
    lockedAt: Option<Time>,
    expiresAt: Option<Time>,
    completedAt: Option<Time>)

  type Keys = map<string, KeyRow>

  datatype Reservation = Granted | ReplayPayload(payload: Fields) | ReplayError(payload: Fields, code: int)

  const ENDPOINT_MISMATCH := ServiceError("IDEMPOTENCY_ENDPOINT_MISMATCH", 409)
  const REQUEST_MISMATCH := ServiceError("IDEMPOTENCY_REQUEST_MISMATCH", 409)
  const PAYLOAD_INVALID := ServiceError("IDEMPOTENCY_PAYLOAD_INVALID", 500)
  const IN_PROGRESS := ServiceError("IDEMPOTENCY_IN_PROGRESS", 409)
  const PERSIST_FAILED := ServiceError("IDEMPOTENCY_PERSIST_FAILED", 500)

  datatype Config = Config(ttl: nat, staleAfter: nat) {
    /** How long a grant keeps every other caller out. */
    function Window(): nat {
      Min(ttl, staleAfter) * SECOND
    }
  }

  function Normalized(raw: Option<Json>): Result<Option<Fields>> {
    match raw
    case None => Ok(None)
    case Some(Obj(fields)) => Ok(Some(fields))
    case _ => Err(PAYLOAD_INVALID)
  }

  // ---- the statements ----

  function NewRow(endpoint: string, hash: string, cfg: Config, now: Time): KeyRow {
    KeyRow(endpoint, hash, Pending, None, None, None, None, Some(now), Some(now + cfg.ttl * SECOND), None)
  }

  /** The WHERE clause of the takeover; a comparison with NULL is not true. */
  predicate Takeable(r: KeyRow, cfg: Config, now: Time) {
    || r.status.Failed?
    || (r.expiresAt.Some? && r.expiresAt.value <= now)
    || (r.lockedAt.Some? && r.lockedAt.value <= now - cfg.staleAfter * SECOND)
  }

  function Refreshed(r: KeyRow, cfg: Config, now: Time): KeyRow {
    r.(status := Pending, lockedAt := Some(now), expiresAt := Some(now + cfg.ttl * SECOND),
       response := None, responseCode := None, error := None, errorCode := None)
  }

  /** What a stored row answers before any takeover is tried; None means it has no answer to replay. */
  function Replay(r: KeyRow, endpoint: string, hash: string): Option<Result<Reservation>> {
    if r.endpoint != endpoint then Some(Err(ENDPOINT_MISMATCH))
    else if r.requestHash != hash then Some(Err(REQUEST_MISMATCH))
    else if r.status.Completed? then
      match Normalized(r.response)
      case Ok(Some(payload)) => Some(Ok(ReplayPayload(payload)))
      case _ => Some(Err(PAYLOAD_INVALID))
    else if r.status.Failed? then
      match Normalized(r.error)
      case Ok(Some(payload)) => if r.errorCode.Some? then Some(Ok(ReplayError(payload, r.errorCode.value))) else None
      case Ok(None) => None
      case Err(e) => Some(Err(e))
    else None
  }

  /** The rows and the answer after a reservation. */
  function Reserved(rows: Keys, key: string, endpoint: string, hash: string, cfg: Config, now: Time): (Keys,
                    Result<Reservation>) {
    if key !in rows then (rows[key := NewRow(endpoint, hash, cfg, now)], Ok(Granted))
    else
      var replay := Replay(rows[key], endpoint, hash);
      if replay.Some? then (rows, replay.value)
      else if Takeable(rows[key], cfg, now) then (rows[key := Refreshed(rows[key], cfg, now)], Ok(Granted))
      else (rows, Err(IN_PROGRESS))
  }

  function WithResponse(r: KeyRow, payload: Fields, code: int, now: Time): KeyRow {
    r.(status := Completed, response := Some(Obj(payload)), responseCode := Some(code), lockedAt := None, completedAt := Some(now))
  }

  function WithFailure(r: KeyRow, payload: Fields, code: int, now: Time): KeyRow {
    r.(status := Failed, error := Some(Obj(payload)), errorCode := Some(code), lockedAt := None, completedAt := Some(now))
  }

  predicate Open(rows: Keys, key: string) {
    key in rows && rows[key].status.Pending?
  }

  /** What a key that is taken answers: the mismatches first, then what is stored, then whether the row has run out. */
  predicate AnswersFrom(row: KeyRow, endpoint: string, hash: string, cfg: Config, now: Time, r: Result<Reservation>) {
    if row.endpoint != endpoint then r.Err? && r.error.code == "IDEMPOTENCY_ENDPOINT_MISMATCH" && r.error.statusCode == 409
    else if row.requestHash != hash then r.Err? && r.error.code == "IDEMPOTENCY_REQUEST_MISMATCH" && r.error.statusCode == 409
    else
      match row.status
      case Completed =>
        if row.response.Some? && row.response.value.Obj? then r == Ok(ReplayPayload(row.response.value.fields))
        else r.Err? && r.error.code == "IDEMPOTENCY_PAYLOAD_INVALID"
      case Failed =>
        if row.error.Some? && !row.error.value.Obj? then r.Err? && r.error.code == "IDEMPOTENCY_PAYLOAD_INVALID"
        else if row.error.Some? && row.errorCode.Some? then r == Ok(ReplayError(row.error.value.fields, row.errorCode.value))
        else r == Ok(Granted)
      case Pending =>
        if (row.expiresAt.Some? && row.expiresAt.value <= now)
           || (row.lockedAt.Some? && row.lockedAt.value + cfg.staleAfter * 1_000_000 <= now)
        then r == Ok(Granted)
        else r.Err? && r.error.code == "IDEMPOTENCY_IN_PROGRESS" && r.error.statusCode == 409
  }

  class GatewayIdempotencyRepository {
    const cfg: Config
    var rows: Keys

    constructor (cfg: Config)
      ensures this.cfg == cfg && rows == map[]
    {
      this.cfg := cfg;
      rows := map[];
    }

    /** Insert, read back under lock, answer from what is stored, else try to take the row over. */
    method ReserveRequest(key: string, endpoint: string, hash: string, now: Time) returns (r: Result<Reservation>)
      modifies this
      ensures (rows, r) == Reserved(old(rows), key, endpoint, hash, cfg, now)
      ensures forall k | k in old(rows) && k != key :: k in rows && rows[k] == old(rows)[k]
      ensures rows.Keys == old(rows).Keys + {key}
      ensures r == Ok(Granted) ==> var row := rows[key];
        && row.endpoint == endpoint && row.requestHash == hash && row.status.Pending? && row.lockedAt == Some(now)
        && row.expiresAt == Some(now + cfg.ttl * 1_000_000) && row.response.None? && row.error.None?
        && row.responseCode.None? && row.errorCode.None?
      ensures r != Ok(Granted) ==> rows == old(rows)
      ensures key !in old(rows) ==> r == Ok(Granted)
      ensures key in old(rows) ==> AnswersFrom(old(rows)[key], endpoint, hash, cfg, now, r)
    {
      var inserted := key !in rows;
      if inserted {
        rows := rows[key := NewRow(endpoint, hash, cfg, now)];
      }
      var row := rows[key];
      if row.endpoint != endpoint {
        return Err(ENDPOINT_MISMATCH);
      }
      if row.requestHash != hash {
        return Err(REQUEST_MISMATCH);
      }
      if row.status.Completed? {
        var stored := Normalized(row.response);
        if stored.Err? || stored.value.None? {
          return Err(PAYLOAD_INVALID);
        }
        return Ok(ReplayPayload(stored.value.value));
      }
      if row.status.Failed? {
        var stored := Normalized(row.error);
        if stored.Err? {
          return Err(stored.error);
        }
        if stored.value.Some? && row.errorCode.Some? {
          return Ok(ReplayError(stored.value.value, row.errorCode.value));
        }
      }
      if inserted {
        return Ok(Granted);
      }
      if Takeable(row, cfg, now) {
        rows := rows[key := Refreshed(row, cfg, now)];
        return Ok(Granted);
      }
      return Err(IN_PROGRESS);
    }

    method PersistResponse(key: string, payload: Fields, code: int, now: Time) returns (r: Result<()>)
      modifies this
      ensures r == if Open(old(rows), key) then Ok(()) else Err(PERSIST_FAILED)
      ensures rows == if r.Ok? then old(rows)[key := WithResponse(old(rows)[key], payload, code, now)] else old(rows)
      ensures r.Ok? <==> key in old(rows) && old(rows)[key].status.Pending?
      ensures r.Ok? ==> var row, was := rows[key], old(rows)[key];
        && row.status.Completed? && row.response == Some(Obj(payload)) && row.responseCode == Some(code)
        && row.completedAt == Some(now) && row.lockedAt.None? && row.error == was.error && row.errorCode == was.errorCode
        && row.endpoint == was.endpoint && row.requestHash == was.requestHash && row.expiresAt == was.expiresAt
    {
      if key !in rows || rows[key].status != Pending {
        return Err(PERSIST_FAILED);
      }
      rows := rows[key := rows[key].(status := Completed, response := Some(Obj(payload)), responseCode := Some(code),
                                     lockedAt := None, completedAt := Some(now))];
      r := Ok(());
    }

    method PersistFailure(key: string, payload: Fields, code: int, now: Time) returns (r: Result<()>)
      modifies this
      ensures r == if Open(old(rows), key) then Ok(()) else Err(PERSIST_FAILED)
      ensures rows == if r.Ok? then old(rows)[key := WithFailure(old(rows)[key], payload, code, now)] else old(rows)
      ensures r.Ok? <==> key in old(rows) && old(rows)[key].status.Pending?
      ensures r.Ok? ==> var row, was := rows[key], old(rows)[key];
        && row.status.Failed? && row.error == Some(Obj(payload)) && row.errorCode == Some(code)
        && row.completedAt == Some(now) && row.lockedAt.None? && row.response == was.response && row.responseCode == was.responseCode
        && row.endpoint == was.endpoint && row.requestHash == was.requestHash && row.expiresAt == was.expiresAt
    {
      if key !in rows || rows[key].status != Pending {
        return Err(PERSIST_FAILED);
      }
      rows := rows[key := rows[key].(status := Failed, error := Some(Obj(payload)), errorCode := Some(code),
                                     lockedAt := None, completedAt := Some(now))];
      r := Ok(());
    }
  }

  /** Who may execute: nobody had the key, or its row has no answer to replay and has run out. */
  lemma GrantedIff(rows: Keys, key: string, endpoint: string, hash: string, cfg: Config, now: Time)
    requires key in rows && rows[key].status.Pending?
    requires rows[key].lockedAt.Some? && rows[key].expiresAt == Some(rows[key].lockedAt.value + cfg.ttl * SECOND)
    ensures Reserved(rows, key, endpoint, hash, cfg, now).1 == Ok(Granted) <==>
      rows[key].endpoint == endpoint && rows[key].requestHash == hash && rows[key].lockedAt.value + cfg.Window() <= now
  {
  }
}
