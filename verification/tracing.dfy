/** Request and event context (shared_kernel tracing.py), and the envelope a service builds under it. */
module Tracing {
  import opened Base
  import opened Json
  import opened Envelopes

  /** The three context variables; an empty text means unset. */
  datatype Context = Context(trace: Id, correlation: Id, causation: Id)

  const UNSET := Id("")

  predicate IsSet(id: Id) {
    |id.text| > 0
  }

  function OrElse(v: Option<Id>, default: Id): Id {
    if v.Some? && IsSet(v.value) then v.value else default
  }

  function Entered(trace: Id, correlation: Option<Id>, causation: Option<Id>): Context {
    Context(trace, OrElse(correlation, trace), OrElse(causation, UNSET))
  }

  /** The context in which an event is handled: its own id is the cause of what follows. */
  function EventContext(e: Envelope): Context {
    Entered(e.traceId, e.correlationId, Some(e.eventId))
  }

  function CausationId(c: Context): Option<Id> {
    if IsSet(c.causation) then Some(c.causation) else None
  }

  function CorrelationIdFor(c: Context, trace: Id): Id {
    if IsSet(c.correlation) then c.correlation else trace
  }

  /** The envelope every repository builds: the cause is the source event when one is passed, and the
      context's cause otherwise (the decision service never passes one). */
  function Derived(c: Context, source: Option<Id>, name: string, newId: Id, trace: Id, producer: string,
                   at: string, payload: map<string, Json>): Envelope {
    Defaulted(Envelope(name, newId, trace, Some(CorrelationIdFor(c, trace)),
                       if source.None? then CausationId(c) else source, producer, at, payload))
  }

  /** Blank identifiers are dropped by the envelope's validator. */
  predicate Proper(e: Envelope) {
    Valid(e) && !Blank(e.eventId.text)
  }

  /** An event built while handling another carries its trace and correlation ids, whether or not the
      source id is passed along, and names it as its cause exactly when its id is not blank. */
  lemma DerivedLineage(e: Envelope, passSource: bool, name: string, newId: Id, producer: string,
                       at: string, payload: map<string, Json>)
    requires Valid(e)
    ensures var d := Derived(EventContext(e), if passSource then Some(e.eventId) else None, name, newId, e.traceId, producer, at, payload);
      && d.causationId == (if Blank(e.eventId.text) then None else Some(e.eventId))
      && d.traceId == e.traceId
      && d.correlationId == e.correlationId
      && (EventNameOk(name) && LongEnough(newId) && |producer| >= 1 ==> Valid(d))
  {
  }

  /** An event the schema admits whose id is blank: whatever is built while handling it has no cause. */
  lemma BlankIdHasNoCause(passSource: bool, name: string, newId: Id, producer: string, at: string, payload: map<string, Json>)
    returns (e: Envelope)
    ensures Valid(e) && e.eventId == Id("        ")
    ensures Derived(EventContext(e), if passSource then Some(e.eventId) else None, name, newId, e.traceId, producer, at, payload).causationId == None
  {
    var name0 := "credit" + "." + ("application" + "." + ("submitted" + "." + "v1"));
    WellNamed("credit", "application", "submitted");
    e := Envelope(name0, Id("        "), Id("trace-01"), Some(Id("trace-01")), None, "p", "", map[]);
    assert Blank("        ") by {
      EightSpaces();
    }
    DerivedLineage(e, passSource, name, newId, producer, at, payload);
  }

  lemma EightSpaces()
    ensures Blank("        ")
  {
    assert "        "[1..] == "       " && "       "[1..] == "      " && "      "[1..] == "     " && "     "[1..] == "    ";
    assert "    "[1..] == "   " && "   "[1..] == "  " && "  "[1..] == " " && " "[1..] == "";
    assert Blank(" ") && Blank("  ") && Blank("   ") && Blank("    ");
    assert Blank("     ") && Blank("      ") && Blank("       ");
  }

  class ContextVars {
    var trace: Id
    var correlation: Id
    var causation: Id

    constructor ()
      ensures Current() == Context(UNSET, UNSET, UNSET)
    {
      trace, correlation, causation := UNSET, UNSET, UNSET;
    }

    function Current(): Context
      reads this
    {
      Context(trace, correlation, causation)
    }

    /** Entering observability_context; the result is what the reset tokens remember. */
    method Enter(trace: Id, correlation: Option<Id>, causation: Option<Id>) returns (saved: Context)
      modifies this
      ensures saved == old(Current())
      ensures Current() == Entered(trace, correlation, causation)
      ensures this.trace == trace
      ensures this.correlation == if correlation.Some? && correlation.value.text != "" then correlation.value else trace
      ensures this.causation == if causation.Some? && causation.value.text != "" then causation.value else Id("")
    {
      saved := Context(this.trace, this.correlation, this.causation);
      this.trace := trace;
      this.correlation := if correlation.Some? && IsSet(correlation.value) then correlation.value else trace;
      this.causation := if causation.Some? && IsSet(causation.value) then causation.value else UNSET;
    }

    method Exit(saved: Context)
      modifies this
      ensures Current() == saved
    {
      causation := saved.causation;
      correlation := saved.correlation;
      trace := saved.trace;
    }

    /** get_trace_id: an unset trace id is generated and kept. */
    method GetTraceId(generated: Id) returns (id: Id)
      modifies this
      ensures id == if IsSet(old(trace)) then old(trace) else generated
      ensures Current() == old(Current()).(trace := id)
    {
      if IsSet(trace) {
        return trace;
      }
      trace := generated;
      return generated;
    }

    /** get_correlation_id: an unset correlation id becomes the trace id, generated if need be. */
    method GetCorrelationId(generated: Id) returns (id: Id)
      modifies this
      ensures IsSet(old(correlation)) ==> id == old(correlation) && Current() == old(Current())
      ensures !IsSet(old(correlation)) ==>
        id == (if IsSet(old(trace)) then old(trace) else generated)
        && Current() == Context(id, id, old(causation))
    {
      if IsSet(correlation) {
        return correlation;
      }
      id := GetTraceId(generated);
      correlation := id;
    }

    /** Handling an event inside its context leaves the surrounding context as it was, whatever the
        getters set inside; the derived envelope carries the event's lineage. */
    method HandleEvent(e: Envelope, passSource: bool, name: string, newId: Id, generated: Id, producer: string,
                       at: string, payload: map<string, Json>) returns (d: Envelope)
      requires Valid(e)
      modifies this
      ensures Current() == old(Current())
      ensures d.causationId == if Blank(e.eventId.text) then None else Some(e.eventId)
      ensures d.traceId == e.traceId && d.correlationId == e.correlationId
      ensures d.eventId == newId && d.eventName == name && d.payload == payload && d.producer == producer && d.occurredAt == at
    {
      var saved := Enter(e.traceId, e.correlationId, Some(e.eventId));
      var _ := GetCorrelationId(generated);
      DerivedLineage(e, passSource, name, newId, producer, at, payload);
      d := Derived(Current(), if passSource then Some(e.eventId) else None, name, newId, e.traceId, producer, at, payload);
      Exit(saved);
    }
  }
}
