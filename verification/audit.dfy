/** The audit service's repository (observability_audit repositories.py): events redacted when written and
    again when read. */
module Audit {
  import opened Base
  import opened Json
  import opened Envelopes
  import opened Redaction

  datatype AuditRow = AuditRow(
    eventName: string, payload: Json, traceId: Option<Id>, correlationId: Option<Id>, causationId: Option<Id>, createdAt: Time)

  datatype AuditRecord = AuditRecord(
    eventId: Id, eventName: string, payload: map<string, Json>,
    traceId: Option<Id>, correlationId: Id, causationId: Option<Id>, createdAt: Time)

  const INVALID_CORRELATION := ServiceError("AUDIT_EVENT_INVALID_CORRELATION", 500)
  const AUDIT_PAYLOAD_INVALID := ServiceError("AUDIT_PAYLOAD_INVALID_TYPE", 500)

  function RowFor(e: Envelope, now: Time): AuditRow {
    AuditRow(e.eventName, Obj(Redacted(e.payload, MASK)), Some(e.traceId), e.correlationId, e.causationId, now)
  }

  /** The record of a stored row. */
  function RecordFor(id: Id, r: AuditRow): Result<AuditRecord> {
    if r.correlationId.None? then Err(INVALID_CORRELATION)
    else if !r.payload.Obj? then Err(AUDIT_PAYLOAD_INVALID)
    else Ok(AuditRecord(id, r.eventName, Redacted(r.payload.fields, MASK), r.traceId, r.correlationId.value, r.causationId, r.createdAt))
  }

  /** Reading back a written event gives the event with its payload redacted once. */
  lemma WrittenThenRead(e: Envelope, now: Time)
    requires Valid(e)
    ensures RecordFor(e.eventId, RowFor(e, now)) ==
      Ok(AuditRecord(e.eventId, e.eventName, Redacted(e.payload, MASK), Some(e.traceId), e.correlationId.value, e.causationId, now))
  {
    RedactedTwice(e.payload, MASK);
  }

  class AuditRepository {
    var inbox: set<Id>
    var events: map<Id, AuditRow>

    /** An event is stored exactly when it has been taken in. */
    ghost predicate Valid()
      reads this
    {
      events.Keys == inbox
    }

    constructor ()
      ensures Valid() && inbox == {} && events == map[]
    {
      inbox, events := {}, map[];
    }

    method HandleEvent(e: Envelope, now: Time) returns (firstSeen: bool)
      requires Valid()
      modifies this
      ensures Valid()
      ensures firstSeen == (e.eventId !in old(inbox))
      ensures inbox == old(inbox) + {e.eventId}
      ensures events == if firstSeen then old(events)[e.eventId := RowFor(e, now)] else old(events)
      ensures firstSeen ==> e.eventId in events && var row := events[e.eventId];
        && row.payload == Obj(Redacted(e.payload, "***REDACTED***")) && row.eventName == e.eventName && row.createdAt == now
        && row.traceId == Some(e.traceId) && row.correlationId == e.correlationId && row.causationId == e.causationId
    {
      if e.eventId in inbox {
        return false;
      }
      inbox := inbox + {e.eventId};
      var safe := RedactPii(e.payload, MASK);
      if e.eventId !in events {
        events := events[e.eventId := AuditRow(e.eventName, Obj(safe), Some(e.traceId), e.correlationId, e.causationId, now)];
      }
      return true;
    }

    method GetEvent(id: Id) returns (r: Option<Result<AuditRecord>>)
      ensures r == if id in events then Some(RecordFor(id, events[id])) else None
      ensures r.Some? && r.value.Ok? ==> var row, record := events[id], r.value.value;
        && row.payload.Obj? && record.payload == Redacted(row.payload.fields, "***REDACTED***")
        && record.eventId == id && record.eventName == row.eventName && record.createdAt == row.createdAt
        && record.traceId == row.traceId && row.correlationId == Some(record.correlationId) && record.causationId == row.causationId
    {
      if id !in events {
        return None;
      }
      var row := events[id];
      if row.correlationId.None? {
        return Some(Err(INVALID_CORRELATION));
      }
      if !row.payload.Obj? {
        return Some(Err(AUDIT_PAYLOAD_INVALID));
      }
      var payload := NormalizePayload(row.payload.fields);
      return Some(Ok(AuditRecord(id, row.eventName, payload, row.traceId, row.correlationId.value, row.causationId, row.createdAt)));
    }

    /** _normalize_payload: copy the members one by one, then redact. */
    method NormalizePayload(raw: map<string, Json>) returns (payload: map<string, Json>)
      ensures payload == Redacted(raw, MASK)
    {
      var copy: map<string, Json> := map[];
      var rest := raw.Keys;
      while rest != {}
        invariant rest <= raw.Keys && copy.Keys == raw.Keys - rest
        invariant forall key | key in copy :: copy[key] == raw[key]
        decreases |rest|
      {
        var key :| key in rest;
        copy := copy[key := raw[key]];
        rest := rest - {key};
      }
      assert copy == raw;
      payload := RedactPii(copy, MASK);
    }
  }
}
