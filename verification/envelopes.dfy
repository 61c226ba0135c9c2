/** The event envelope carried by every outbox row and broker message (packages/contracts events.py). */
module Envelopes {
  import opened Base
  import opened Json

  datatype Envelope = Envelope(
    eventName: string,
    eventId: Id,
    traceId: Id,
    correlationId: Option<Id>,
    causationId: Option<Id>,
    producer: string,
    occurredAt: string,
    payload: map<string, Json>)

  const FIELDS: set<string> := {
    "event_name", "event_id", "trace_id", "correlation_id",
    "causation_id", "producer", "occurred_at", "payload" }

  const PAYLOAD_INVALID_TYPE := ServiceError("OUTBOX_PAYLOAD_INVALID_TYPE", 500)
  const PAYLOAD_SCHEMA_INVALID := ServiceError("OUTBOX_PAYLOAD_SCHEMA_INVALID", 500)

  /** Reads an event name: a word, two words with underscores and a version, separated by dots. The part
      number and the length read of it so far are the scanner's state. */
  predicate Scan(s: string, part: nat, length: nat) {
    if s == "" then part == 3 && length >= 2
    else if part < 3 && s[0] == '.' then length >= 1 && Scan(s[1..], part + 1, 0)
    else if part < 3 then ('a' <= s[0] <= 'z' || (part > 0 && s[0] == '_')) && Scan(s[1..], part, length + 1)
    else (if length == 0 then s[0] == 'v' else '0' <= s[0] <= '9') && Scan(s[1..], part, length + 1)
  }

  predicate EventNameOk(s: string) {
    Scan(s, 0, 0)
  }

  predicate Lower(w: string) {
    forall i | 0 <= i < |w| :: 'a' <= w[i] <= 'z'
  }

  lemma {:induction false} ScanWord(w: string, rest: string, part: nat, length: nat)
    requires part < 3 && Lower(w) && length + |w| >= 1
    ensures Scan(w + "." + rest, part, length) <==> Scan(rest, part + 1, 0)
  {
    var s := w + "." + rest;
    if w == "" {
      assert s == "." + rest;
      assert s[1..] == rest;
    } else {
      assert s[0] == w[0];
      ScanWord(w[1..], rest, part, length + 1);
      assert s[1..] == w[1..] + "." + rest;
    }
  }

  /** Three words and a version make an event name. */
  lemma WellNamed(a: string, b: string, c: string)
    requires Lower(a) && Lower(b) && Lower(c) && a != "" && b != "" && c != ""
    ensures EventNameOk(a + "." + (b + "." + (c + "." + "v1")))
  {
    assert "v1"[1..] == "1" && "1"[1..] == "";
    assert Scan("v1", 3, 0);
    ScanWord(c, "v1", 2, 0);
    assert Scan(c + "." + "v1", 2, 0);
    ScanWord(b, c + "." + "v1", 1, 0);
    assert Scan(b + "." + (c + "." + "v1"), 1, 0);
    ScanWord(a, b + "." + (c + "." + "v1"), 0, 0);
  }

  predicate LongEnough(id: Id) {
    8 <= |id.text|
  }

  /** What holds of every envelope object once its validators have run. */
  predicate Valid(e: Envelope) {
    && EventNameOk(e.eventName)
    && LongEnough(e.eventId)
    && LongEnough(e.traceId)
    && e.correlationId.Some? && LongEnough(e.correlationId.value)
    && (e.causationId.Some? ==> LongEnough(e.causationId.value) && !Blank(e.causationId.value.text))
    && 1 <= |e.producer|
  }

  /** The after-validator: a missing correlation id becomes the trace id, a blank cause becomes none. */
  function Defaulted(e: Envelope): Envelope {
    e.(correlationId := if e.correlationId.None? then Some(e.traceId) else e.correlationId,
       causationId := if e.causationId.Some? && Blank(e.causationId.value.text) then None else e.causationId)
  }

  function DumpOptional(v: Option<Id>): Json {
    match v
    case None => Null
    case Some(id) => Str(id.text)
  }

  /** The JSON form of an envelope. */
  function Dump(e: Envelope): Json {
    Obj(map[
      "event_name" := Str(e.eventName),
      "event_id" := Str(e.eventId.text),
      "trace_id" := Str(e.traceId.text),
      "correlation_id" := DumpOptional(e.correlationId),
      "causation_id" := DumpOptional(e.causationId),
      "producer" := Str(e.producer),
      "occurred_at" := Str(e.occurredAt),
      "payload" := Obj(e.payload)])
  }

  predicate OptionalText(m: map<string, Json>, key: string) {
    key in m ==> m[key].Null? || (m[key].Str? && 8 <= |m[key].s|)
  }

  function ReadOptional(m: map<string, Json>, key: string): Option<Id> {
    if key in m && m[key].Str? then Some(Id(m[key].s)) else None
  }

  predicate HasText(m: map<string, Json>, key: string, length: nat) {
    key in m && m[key].Str? && length <= |m[key].s|
  }

  /** The field checks of the schema; unknown members are refused. */
  predicate SchemaOk(m: map<string, Json>) {
    && m.Keys <= FIELDS
    && HasText(m, "event_name", 0) && EventNameOk(m["event_name"].s)
    && HasText(m, "event_id", 8)
    && HasText(m, "trace_id", 8)
    && OptionalText(m, "correlation_id")
    && OptionalText(m, "causation_id")
    && HasText(m, "producer", 1)
    && ("occurred_at" in m ==> m["occurred_at"].Str?)
    && "payload" in m && m["payload"].Obj?
  }

  /** Reading a stored payload back; clock is the default for a missing occurrence time. */
  function Decode(j: Json, clock: string): (r: Result<Envelope>)
    ensures r.Ok? ==> Valid(r.value)
    ensures r.Ok? <==> j.Obj? && SchemaOk(j.fields)
  {
    if !j.Obj? then Err(PAYLOAD_INVALID_TYPE)
    else if !SchemaOk(j.fields) then Err(PAYLOAD_SCHEMA_INVALID)
    else
      var m := j.fields;
      Ok(Defaulted(Envelope(
        m["event_name"].s,
        Id(m["event_id"].s),
        Id(m["trace_id"].s),
        ReadOptional(m, "correlation_id"),
        ReadOptional(m, "causation_id"),
        m["producer"].s,
        if "occurred_at" in m then m["occurred_at"].s else clock,
        m["payload"].fields)))
  }

  /** Encoding an envelope and decoding it gives the same envelope, whatever the decoder's clock says. */
  lemma DecodeDump(e: Envelope, clock: string)
    requires Valid(e)
    ensures Decode(Dump(e), clock) == Ok(e)
  {
    var m := Dump(e).fields;
    assert m.Keys == FIELDS;
    assert SchemaOk(m);
  }

  /** A stored payload that is read as the envelope, whatever the reader's clock says. */
  ghost predicate ReadsAs(j: Json, e: Envelope) {
    forall clock :: Decode(j, clock) == Ok(e)
  }

  lemma DumpReads(e: Envelope)
    requires Valid(e)
    ensures ReadsAs(Dump(e), e)
  {
    forall clock ensures Decode(Dump(e), clock) == Ok(e) {
      DecodeDump(e, clock);
    }
  }

  /** What is written under each member name. */
  lemma DumpMembers(e: Envelope)
    ensures var m := Dump(e).fields;
      && m.Keys == {"event_name", "event_id", "trace_id", "correlation_id", "causation_id", "producer", "occurred_at", "payload"}
      && m["event_name"] == Str(e.eventName) && m["event_id"] == Str(e.eventId.text) && m["trace_id"] == Str(e.traceId.text)
      && m["correlation_id"] == (if e.correlationId.Some? then Str(e.correlationId.value.text) else Null)
      && m["causation_id"] == (if e.causationId.Some? then Str(e.causationId.value.text) else Null)
      && m["producer"] == Str(e.producer) && m["occurred_at"] == Str(e.occurredAt) && m["payload"] == Obj(e.payload)
  {
  }

  /** What is read from each member: a missing or null correlation id becomes the trace id, a missing, null or
      blank cause is none, and only a missing time is the reader's own. */
  lemma DecodeMembers(j: Json, clock: string)
    requires Decode(j, clock).Ok?
    ensures j.Obj? && {"event_name", "event_id", "trace_id", "producer", "payload"} <= j.fields.Keys
    ensures var m, e := j.fields, Decode(j, clock).value;
      && m["event_name"] == Str(e.eventName) && m["event_id"] == Str(e.eventId.text) && m["trace_id"] == Str(e.traceId.text)
      && m["producer"] == Str(e.producer) && m["payload"] == Obj(e.payload)
      && (if "occurred_at" in m then m["occurred_at"] == Str(e.occurredAt) else e.occurredAt == clock)
      && (if "correlation_id" in m && m["correlation_id"] != Null
          then e.correlationId.Some? && m["correlation_id"] == Str(e.correlationId.value.text)
          else e.correlationId == Some(e.traceId))
      && (if "causation_id" in m && m["causation_id"].Str? && !Blank(m["causation_id"].s)
          then e.causationId.Some? && m["causation_id"] == Str(e.causationId.value.text)
          else e.causationId.None?)
  {
  }

  /** Two valid envelopes with one JSON form are one envelope. */
  lemma DumpInjective(a: Envelope, b: Envelope)
    requires Valid(a) && Valid(b) && Dump(a) == Dump(b)
    ensures a == b
  {
    DecodeDump(a, "");
    DecodeDump(b, "");
  }
}
