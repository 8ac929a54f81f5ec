/**
 * The span record and its mutators (`Span`, `SpanStatus`, `SpanKind`).
 *
 * Time is an integer clock reading passed in by the caller wherever the
 * Python code reads `time.time()`. Attribute values are a closed datatype in
 * place of Python's `Any`; a recorded exception is its type name and message.
 */
module Spans {
  import opened Wrappers
  import opened Identity

  datatype SpanStatus = Ok | Error | Unset

  datatype SpanKind = Internal | Server | Client | Producer | Consumer

  /** A primitive attribute value. */
  datatype Primitive = Str(s: string) | Int(i: int) | Real(r: real) | Bool(b: bool)

  /** An attribute value: one primitive or a sequence of them. */
  datatype AttrValue = Single(value: Primitive) | Many(values: seq<Primitive>)

  type Attributes = map<string, AttrValue>

  /** One entry of `Span.events`: `{"name", "timestamp", "attributes"}`. */
  datatype Event = Event(name: string, timestamp: int, attributes: Attributes)

  /** A raised exception as the span keeps it: `type(e).__name__` and `str(e)`. */
  datatype Failure = Failure(typeName: string, message: string)

  /** The event `record_exception` appends for `e` at clock reading `now`. */
  function ExceptionEvent(e: Failure, now: int): (ev: Event)
    ensures ev.name == "exception" && ev.timestamp == now
    ensures ev.attributes.Keys == {"exception.type", "exception.message"}
    ensures ev.attributes["exception.type"] == Single(Str(e.typeName))
    ensures ev.attributes["exception.message"] == Single(Str(e.message))
  {
    Event("exception", now, map["exception.type" := Single(Str(e.typeName)),
                                "exception.message" := Single(Str(e.message))])
  }

  /** The dictionary `Span.to_dict` returns, as a record. */
  datatype SpanRecord = SpanRecord(
    name: string,
    traceId: string,
    spanId: string,
    parentSpanId: Option<string>,
    kind: SpanKind,
    startTime: int,
    endTime: Option<int>,
    duration: int,
    attributes: Attributes,
    events: seq<Event>,
    status: SpanStatus,
    statusMessage: string,
    error: Option<string>)

  /**
   * One traced operation. The identifying fields never change after
   * construction; the mutators below change only the fields they name.
   */
  class Span {
    const name: string
    const context: SpanContext
    const parentContext: Option<SpanContext>
    const kind: SpanKind
    const startTime: int
    var endTime: Option<int>
    var attributes: Attributes
    var events: seq<Event>
    var status: SpanStatus
    var statusMessage: string
    var error: Option<Failure>

    /** The dataclass constructor with every mutable field at its default. */
    constructor (name: string, context: SpanContext, parentContext: Option<SpanContext>,
                 kind: SpanKind, startTime: int)
      ensures this.name == name && this.context == context
      ensures this.parentContext == parentContext && this.kind == kind
      ensures this.startTime == startTime && endTime == None
      ensures attributes == map[] && events == []
      ensures status == Unset && statusMessage == "" && error == None
    {
      this.name := name;
      this.context := context;
      this.parentContext := parentContext;
      this.kind := kind;
      this.startTime := startTime;
      endTime := None;
      attributes := map[];
      events := [];
      status := Unset;
      statusMessage := "";
      error := None;
    }

    /** `set_attribute`: binds `key` to `value`; every other key keeps its value. */
    method SetAttribute(key: string, value: AttrValue)
      modifies this`attributes
      ensures attributes == old(attributes)[key := value]
      ensures key in attributes && attributes[key] == value
      ensures forall k :: k != key ==> (k in attributes <==> k in old(attributes))
      ensures forall k :: k != key && k in attributes ==> attributes[k] == old(attributes)[k]
    {
      attributes := attributes[key := value];
    }

    /**
     * `add_event`: appends one event stamped `now`; a missing attribute map
     * becomes the empty one (`attributes or {}`). Earlier events are untouched.
     */
    method AddEvent(name: string, eventAttributes: Option<Attributes>, now: int)
      modifies this`events
      ensures |events| == |old(events)| + 1
      ensures events[..|old(events)|] == old(events)
      ensures events[|events| - 1] == Event(name, now, eventAttributes.GetOr(map[]))
    {
      events := events + [Event(name, now, eventAttributes.GetOr(map[]))];
    }

    /**
     * `record_exception`: keeps the failure and appends an "exception" event
     * carrying its type and message. The status is left as it was.
     */
    method RecordException(e: Failure, now: int)
      modifies this`error, this`events
      ensures error == Some(e)
      ensures events == old(events) + [ExceptionEvent(e, now)]
    {
      error := Some(e);
      AddEvent("exception", Some(ExceptionEvent(e, now).attributes), now);
    }

    /** `set_status`: overwrites the status and its message, last write wins. */
    method SetStatus(status: SpanStatus, message: string)
      modifies this`status, this`statusMessage
      ensures this.status == status && statusMessage == message
    {
      this.status := status;
      statusMessage := message;
    }

    /**
     * `end`: records `now` as the end time. The source overwrites it on every
     * call, so ending twice keeps the later reading.
     */
    method End(now: int)
      modifies this`endTime
      ensures endTime == Some(now)
      ensures now != 0 ==> Ended() && forall later :: Duration(later) == now - startTime
    {
      endTime := Some(now);
    }

    /**
     * Whether `duration` uses the recorded end time. The source tests
     * `if self.end_time:`, so a recorded reading of 0 counts as not ended.
     */
    predicate Ended()
      reads this
    {
      endTime.Some? && endTime.value != 0
    }

    /** `duration`: the fixed end minus start once ended, else `now` minus start. */
    function Duration(now: int): (d: int)
      reads this
      ensures Ended() ==> d + startTime == endTime.value
      ensures !Ended() ==> d + startTime == now
    {
      if Ended() then endTime.value - startTime else now - startTime
    }

    /** `to_dict`, with `now` the clock reading used by `duration`. */
    function ToDict(now: int): (r: SpanRecord)
      reads this
      ensures r.traceId == context.traceId && r.spanId == context.spanId
      ensures r.parentSpanId.Some? <==> parentContext.Some?
      ensures parentContext.Some? ==> r.parentSpanId == Some(parentContext.value.spanId)
      ensures r.duration == Duration(now)
      ensures r.error.Some? <==> error.Some?
      ensures error.Some? ==> r.error == Some(error.value.message)
    {
      SpanRecord(
        name, context.traceId, context.spanId,
        if parentContext.Some? then Some(parentContext.value.spanId) else None,
        kind, startTime, endTime, Duration(now), attributes, events,
        status, statusMessage,
        if error.Some? then Some(error.value.message) else None)
    }
  }

  /** While a span is open its duration grows with the clock. */
  lemma OpenDurationMonotonic(s: Span, now1: int, now2: int)
    requires !s.Ended() && now1 <= now2
    ensures s.Duration(now1) <= s.Duration(now2)
  {
  }

  /** Once ended, the duration no longer depends on the clock, and is non-negative if the clock did not run backwards. */
  lemma EndedDurationFixed(s: Span, now1: int, now2: int)
    requires s.Ended()
    ensures s.Duration(now1) == s.Duration(now2)
    ensures s.startTime <= s.endTime.value ==> s.Duration(now1) >= 0
  {
  }

  /** A child started under `parent`'s context reports `parent`'s span id as its parent span id. */
  lemma ChildReportsParent(parent: Span, child: Span, now: int)
    requires child.parentContext == Some(parent.context)
    ensures child.ToDict(now).parentSpanId == Some(parent.ToDict(now).spanId)
  {
  }
}
