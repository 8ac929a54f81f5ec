/**
 * `Tracer`, its scoped helper `start_as_current_span`, `TracerProvider`, and
 * the module-level `get_tracer` / `flush_traces`.
 *
 * The work run inside a scope is represented by how it ended (an `Outcome`);
 * the random draws behind a new span's identity and every clock reading are
 * parameters. The process-wide provider is passed to the module-level
 * operations explicitly.
 */
module Tracing {
  import opened Wrappers
  import opened Identity
  import opened Spans
  import opened Batching
  import opened Processor

  /**
   * How the work inside a scope ended: normally, by raising an `Exception`,
   * or by raising a `BaseException` that is not an `Exception`
   * (`KeyboardInterrupt`, `SystemExit`), which `except Exception` does not catch.
   */
  datatype Outcome = Completed | Raised(failure: Failure) | Interrupted(failure: Failure)

  class Tracer {
    const name: string
    const processor: BatchSpanProcessor

    constructor (name: string, processor: BatchSpanProcessor)
      ensures this.name == name && this.processor == processor
    {
      this.name := name;
      this.processor := processor;
    }

    /**
     * `start_span`: a new span with a generated context, the caller's parent
     * context kept verbatim, kind INTERNAL and start time `now`.
     */
    method StartSpan(spanName: string, parentContext: Option<SpanContext>,
                     traceDraw: nat, spanDraw: nat, now: int) returns (span: Span)
      requires traceDraw < UuidSpace && spanDraw < UuidSpace
      ensures fresh(span)
      ensures span.name == spanName && span.context == Generate(traceDraw, spanDraw)
      ensures WellFormed(span.context)
      ensures span.parentContext == parentContext && span.kind == Internal
      ensures span.startTime == now && span.endTime == None
      ensures span.attributes == map[] && span.events == []
      ensures span.status == Unset && span.statusMessage == "" && span.error == None
    {
      var context := Generate(traceDraw, spanDraw);
      span := new Span(spanName, context, parentContext, Internal, now);
    }

    /**
     * `end_span`: ends `span` at `now` and hands it to the processor. This is
     * the only way a span reaches the exporter.
     */
    method EndSpan(span: Span, now: int)
      requires processor.Valid()
      modifies span`endTime, processor, processor.exporter
      ensures span.endTime == Some(now)
      ensures processor.Valid()
      ensures processor.Pipe() == AfterAdd(old(processor.Pipe()), span, processor.maxBatchSize)
      ensures processor.history == old(processor.history) + [Add(span)]
    {
      span.End(now);
      processor.AddSpan(span);
    }

    /**
     * The exit of a `start_as_current_span` scope. An `Exception` is recorded
     * on the span (at clock reading `failAt`) and sets status ERROR with the
     * exception's message; then, on every path, the span is ended at `endAt`
     * and handed to the processor exactly once, and the outcome is passed on
     * unchanged: an exception is re-raised, normal completion stays normal.
     */
    method CloseScope(span: Span, outcome: Outcome, failAt: int, endAt: int) returns (r: Outcome)
      requires processor.Valid()
      modifies span`error, span`events, span`status, span`statusMessage, span`endTime
      modifies processor, processor.exporter
      ensures r == outcome
      ensures outcome.Raised? ==>
                span.error == Some(outcome.failure) &&
                span.events == old(span.events) + [ExceptionEvent(outcome.failure, failAt)] &&
                span.status == Error && span.statusMessage == outcome.failure.message
      ensures !outcome.Raised? ==>
                span.error == old(span.error) && span.events == old(span.events) &&
                span.status == old(span.status) && span.statusMessage == old(span.statusMessage)
      ensures span.endTime == Some(endAt)
      ensures processor.Valid()
      ensures processor.Pipe() == AfterAdd(old(processor.Pipe()), span, processor.maxBatchSize)
      ensures processor.history == old(processor.history) + [Add(span)]
    {
      if outcome.Raised? {
        span.RecordException(outcome.failure, failAt);
        span.SetStatus(Error, outcome.failure.message);
      }
      EndSpan(span, endAt);
      r := outcome;
    }

    /**
     * `start_as_current_span` around work that ends with `outcome`: opens a
     * span at `startAt`, then closes the scope as `CloseScope` does.
     */
    method StartAsCurrentSpan(spanName: string, parentContext: Option<SpanContext>,
                              traceDraw: nat, spanDraw: nat, startAt: int,
                              outcome: Outcome, failAt: int, endAt: int)
      returns (span: Span, r: Outcome)
      requires traceDraw < UuidSpace && spanDraw < UuidSpace
      requires processor.Valid()
      modifies processor, processor.exporter
      ensures fresh(span) && r == outcome
      ensures span.name == spanName && span.context == Generate(traceDraw, spanDraw)
      ensures span.parentContext == parentContext && span.startTime == startAt
      ensures span.attributes == map[] && span.endTime == Some(endAt)
      ensures outcome.Raised? ==>
                span.error == Some(outcome.failure) &&
                span.events == [ExceptionEvent(outcome.failure, failAt)] &&
                span.status == Error && span.statusMessage == outcome.failure.message
      ensures !outcome.Raised? ==>
                span.error == None && span.events == [] &&
                span.status == Unset && span.statusMessage == ""
      ensures processor.Valid()
      ensures processor.Pipe() == AfterAdd(old(processor.Pipe()), span, processor.maxBatchSize)
      ensures processor.history == old(processor.history) + [Add(span)]
    {
      span := StartSpan(spanName, parentContext, traceDraw, spanDraw, startAt);
      r := CloseScope(span, outcome, failAt, endAt);
    }
  }

  class TracerProvider {
    const processor: BatchSpanProcessor
    var tracers: map<string, Tracer>

    /** Every registered tracer is filed under its own name and shares the one processor. */
    ghost predicate Valid()
      reads this, processor, processor.exporter
    {
      processor.Valid() &&
      forall n :: n in tracers ==> tracers[n].name == n && tracers[n].processor == processor
    }

    /** A provider with a fresh exporter, a processor of batch size 10 and no tracers. */
    constructor ()
      ensures Valid()
      ensures fresh(processor) && fresh(processor.exporter)
      ensures processor.maxBatchSize == 10 && processor.spans == []
      ensures processor.exporter.batches == [] && processor.history == []
      ensures tracers == map[]
    {
      var exporter := new Exporter();
      processor := new BatchSpanProcessor(exporter, 10);
      tracers := map[];
    }

    /**
     * `get_tracer`: the tracer already registered under `name`, or a new one
     * bound to the shared processor, registered under `name`. Existing
     * entries are never removed or replaced.
     */
    method GetTracer(name: string) returns (t: Tracer)
      requires Valid()
      modifies this`tracers
      ensures Valid()
      ensures name in tracers && tracers[name] == t
      ensures t.name == name && t.processor == processor
      ensures name in old(tracers) ==> tracers == old(tracers) && t == old(tracers)[name]
      ensures name !in old(tracers) ==> fresh(t) && tracers == old(tracers)[name := t]
    {
      if name !in tracers {
        var created := new Tracer(name, processor);
        tracers := tracers[name := created];
      }
      t := tracers[name];
    }

    /** `flush`: flushes the shared processor. */
    method Flush()
      requires Valid()
      modifies processor, processor.exporter
      ensures Valid()
      ensures processor.Pipe() == AfterFlush(old(processor.Pipe()))
      ensures processor.history == old(processor.history) + [Op.Flush]
    {
      processor.Flush();
    }
  }

  /** Module-level `get_tracer`, on the process-wide provider `global`. */
  method GetTracer(global: TracerProvider, name: string) returns (t: Tracer)
    requires global.Valid()
    modifies global`tracers
    ensures global.Valid()
    ensures name in global.tracers && global.tracers[name] == t
    ensures t.name == name && t.processor == global.processor
    ensures name in old(global.tracers) ==> global.tracers == old(global.tracers)
    ensures name !in old(global.tracers) ==> fresh(t) && global.tracers == old(global.tracers)[name := t]
  {
    t := global.GetTracer(name);
  }

  /** Module-level `flush_traces`, on the process-wide provider `global`. */
  method FlushTraces(global: TracerProvider)
    requires global.Valid()
    modifies global.processor, global.processor.exporter
    ensures global.Valid()
    ensures global.processor.Pipe() == AfterFlush(old(global.processor.Pipe()))
  {
    global.Flush();
  }

  /** Asking twice for the same name yields the same tracer, bound to the provider's processor. */
  method SameNameSameTracer(provider: TracerProvider, name: string) returns (t1: Tracer, t2: Tracer)
    requires provider.Valid()
    modifies provider`tracers
    ensures t1 == t2 && t1.processor == provider.processor
    ensures old(provider.tracers).Keys <= provider.tracers.Keys
  {
    t1 := provider.GetTracer(name);
    t2 := provider.GetTracer(name);
  }

  /**
   * Work failing with "boom" inside a scope: the error is passed on, the span
   * carries status ERROR with message "boom" and an "exception" event with
   * that message, and the span is in the batch the next flush exports.
   */
  method FailingScope(tracer: Tracer, traceDraw: nat, spanDraw: nat)
    returns (span: Span, r: Outcome)
    requires traceDraw < UuidSpace && spanDraw < UuidSpace
    requires tracer.processor.Valid() && tracer.processor.spans == []
    requires tracer.processor.maxBatchSize == 10
    modifies tracer.processor, tracer.processor.exporter
    ensures r == Raised(Failure("ValueError", "boom"))
    ensures span.status == Error && span.statusMessage == "boom"
    ensures |span.events| == 1 && span.events[0].name == "exception"
    ensures "exception.message" in span.events[0].attributes
    ensures span.events[0].attributes["exception.message"] == Single(Str("boom"))
    ensures tracer.processor.exporter.batches == old(tracer.processor.exporter.batches) + [[span]]
  {
    var processor := tracer.processor;
    ghost var log := processor.exporter.batches;
    var boom := Failure("ValueError", "boom");
    span, r := tracer.StartAsCurrentSpan("error_operation", None, traceDraw, spanDraw, 1, Raised(boom), 2, 3);
    assert processor.Pipe() == Pipeline([span], log);
    processor.Flush();
    assert processor.Pipe() == Pipeline([], log + [[span]]);
  }
}
