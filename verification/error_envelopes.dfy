/** The error bodies the services answer with (contracts errors.py, shared_kernel errors.py and app_factory.py),
    and the one the gateway persists for a failed request. Every body is built anew, with the time it is built. */
module ErrorEnvelopes {
  import opened Base
  import opened Json

  type Fields = map<string, Json>

  datatype ErrorEnvelope = ErrorEnvelope(
    code: string, message: string, service: string, operation: string, trace: string,
    cause: Option<string>, hint: Option<string>, timestamp: Time)
  {
    /** The length checks of the schema. */
    predicate Valid() {
      |code| >= 3 && |message| >= 1 && |service| >= 1 && |operation| >= 1 && |trace| >= 8
    }
  }

  function OrNull(text: Option<string>): Json {
    if text.Some? then Str(text.value) else Null
  }

  /** model_dump(mode="json"); the timestamp is kept as a number. */
  function Dump(e: ErrorEnvelope): Fields {
    map["error_code" := Str(e.code), "message" := Str(e.message), "service" := Str(e.service),
        "operation" := Str(e.operation), "trace_id" := Str(e.trace), "cause" := OrNull(e.cause),
        "hint" := OrNull(e.hint), "timestamp" := Int(e.timestamp)]
  }

  /** What a request's execution may raise: a ServiceError with all its fields, or anything else with its text. */
  datatype Thrown =
    | Typed(code: string, message: string, operation: string, statusCode: int, cause: Option<string>, hint: Option<string>)
    | Untyped(text: string)

  const GATEWAY := "api-gateway"
  const UNEXPECTED := ServiceError("UNEXPECTED_ERROR", 500)
  const UNEXPECTED_MESSAGE := "Unexpected runtime failure"
  const EDGE_HINT := "Inspect structured logs with trace ID to identify the failing downstream edge"
  const DEPENDENCY_HINT := "Inspect structured logs with trace ID to identify failing dependency or code path"

  function StatusOf(x: Thrown): int {
    if x.Typed? then x.statusCode else UNEXPECTED.statusCode
  }

  /** ServiceError.to_envelope. */
  function ToEnvelope(x: Thrown, trace: string, at: Time): ErrorEnvelope
    requires x.Typed?
  {
    ErrorEnvelope(x.code, x.message, GATEWAY, x.operation, trace, x.cause, x.hint, at)
  }

  /** The body credit_evaluate persists. */
  function PersistedEnvelope(x: Thrown, trace: string, at: Time): ErrorEnvelope {
    if x.Typed? then ToEnvelope(x, trace, at)
    else
      ErrorEnvelope(UNEXPECTED.code, UNEXPECTED_MESSAGE, GATEWAY, "credit_evaluate", trace, None, Some(EDGE_HINT), at)
  }

  /** The body the exception handlers send: handle_service_error runs inside the request's context,
      handle_unexpected outside it and under a trace id of its own. */
  function ToldEnvelope(x: Thrown, trace: string, outer: string, at: Time): ErrorEnvelope {
    if x.Typed? then ToEnvelope(x, trace, at)
    else
      ErrorEnvelope(UNEXPECTED.code, UNEXPECTED_MESSAGE, GATEWAY, "unhandled_exception", outer, Some(x.text),
                    Some(DEPENDENCY_HINT), at)
  }

  /** What the schema asks of a failure to be persisted: a trace id of eight characters, and of a ServiceError
      a code of three, a message and an operation. */
  predicate Storable(x: Thrown, trace: string) {
    |trace| >= 8 && (x.Typed? ==> |x.code| >= 3 && |x.message| >= 1 && |x.operation| >= 1)
  }

  lemma StorableIff(x: Thrown, trace: string, at: Time)
    ensures PersistedEnvelope(x, trace, at).Valid() <==> Storable(x, trace)
  {
  }

  predicate Says(f: Fields, member: string, text: string) {
    member in f && f[member] == Str(text)
  }

  predicate SaysIfAny(f: Fields, member: string, text: Option<string>) {
    member in f && f[member] == if text.Some? then Str(text.value) else Null
  }

  /** The body names the error's code, message, operation, cause and hint, the gateway, the trace and the time. */
  predicate Reports(f: Fields, x: Thrown, trace: string, at: Time)
    requires x.Typed?
  {
    && Says(f, "error_code", x.code) && Says(f, "message", x.message) && Says(f, "operation", x.operation)
    && SaysIfAny(f, "cause", x.cause) && SaysIfAny(f, "hint", x.hint)
    && Says(f, "service", "api-gateway") && Says(f, "trace_id", trace) && "timestamp" in f && f["timestamp"] == Int(at)
  }

  /** The body of an unexpected error: stored, it names the edge's operation and no cause; sent, it names the
      handler's operation and the exception's text. */
  predicate ReportsUnexpected(f: Fields, operation: string, cause: Option<string>, trace: string, at: Time) {
    && Says(f, "error_code", "UNEXPECTED_ERROR") && Says(f, "message", "Unexpected runtime failure")
    && Says(f, "operation", operation) && SaysIfAny(f, "cause", cause)
    && Says(f, "service", "api-gateway") && Says(f, "trace_id", trace) && "timestamp" in f && f["timestamp"] == Int(at)
  }

  lemma BodiesReport(x: Thrown, trace: string, outer: string, at: Time)
    ensures var stored, told := Dump(PersistedEnvelope(x, trace, at)), Dump(ToldEnvelope(x, trace, outer, at));
      && (x.Typed? ==> Reports(stored, x, trace, at) && Reports(told, x, trace, at))
      && (x.Untyped? ==>
            && ReportsUnexpected(stored, "credit_evaluate", None, trace, at)
            && ReportsUnexpected(told, "unhandled_exception", Some(x.text), outer, at))
  {
  }

  /** The same body, whatever the time it was built. */
  predicate SameButTime(a: Fields, b: Fields) {
    a["timestamp" := Null] == b["timestamp" := Null]
  }

  lemma DumpedFields(e: ErrorEnvelope)
    ensures var f := Dump(e)["timestamp" := Null];
      && f["error_code"] == Str(e.code) && f["message"] == Str(e.message) && f["service"] == Str(e.service)
      && f["operation"] == Str(e.operation) && f["trace_id"] == Str(e.trace)
      && f["cause"] == OrNull(e.cause) && f["hint"] == OrNull(e.hint)
    ensures Dump(e)["timestamp"] == Int(e.timestamp)
  {
  }

  /** Two bodies are the same exactly when their envelopes are, and the same but for the time exactly when
      the envelopes are. */
  lemma DumpSeparates(a: ErrorEnvelope, b: ErrorEnvelope)
    ensures SameButTime(Dump(a), Dump(b)) <==> a.(timestamp := 0) == b.(timestamp := 0)
    ensures Dump(a) == Dump(b) <==> a == b
  {
    DumpedFields(a);
    DumpedFields(b);
    if Dump(a) == Dump(b) {
      assert SameButTime(Dump(a), Dump(b));
    }
    if a.(timestamp := 0) == b.(timestamp := 0) {
      assert Dump(a)["timestamp" := Null] == Dump(b)["timestamp" := Null];
    }
  }

  /** The body told first and the body persisted agree but for the time exactly for a ServiceError, and wholly
      exactly when they also carry one time. */
  lemma ToldAndPersisted(x: Thrown, trace: string, outer: string, at: Time, toldAt: Time)
    ensures var persisted, told := Dump(PersistedEnvelope(x, trace, at)), Dump(ToldEnvelope(x, trace, outer, toldAt));
      && (SameButTime(told, persisted) <==> x.Typed?)
      && (told == persisted <==> x.Typed? && at == toldAt)
  {
    DumpSeparates(ToldEnvelope(x, trace, outer, toldAt), PersistedEnvelope(x, trace, at));
    assert "credit_evaluate"[0] != "unhandled_exception"[0];
  }
}
