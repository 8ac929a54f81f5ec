# A verified model of a minimal tracing SDK

This project models the in-process tracing SDK of `simplified_opentelemetry.py`:
span identity generation (`SpanContext.generate`), the `Span` record and its
mutators, the `BatchSpanProcessor` that buffers ended spans and exports them in
batches, the `Tracer` with its scoped helper `start_as_current_span`, and the
`TracerProvider` registry, together with the module-level `get_tracer` and
`flush_traces`.

Modules, leaf first:

- `Wrappers` (`wrappers.dfy`): `Option`, for Python's `Optional`.
- `Identity` (`identity.dfy`): lowercase hex rendering of a UUID value and
  `Generate`, which builds a `SpanContext` from two 128-bit draws. It proves
  the id lengths and alphabet, and that the trace id reads back as its draw
  and the span id as the high 64 bits of its draw.
- `Spans` (`spans.dfy`): status, kind, attribute values, events, failures,
  and `class Span` with `SetAttribute`, `AddEvent`, `RecordException`,
  `SetStatus`, `End`, `Duration` and `ToDict`.
- `Batching` (`batching.dfy`): the batching rule on values. A `Pipeline` is a
  buffer plus the log of exported batches. `AfterAdd` and `AfterFlush` are
  the two operations, and `Run` replays any sequence of them. The lemmas prove
  conservation, append-only export, non-empty and bounded batches, and the
  buffer staying below the threshold. The module also models `add_span` as
  written, with its lock, to exhibit the deadlock (see Findings).
- `Processor` (`processor.dfy`): `class Exporter`, which logs every batch it
  receives as a value, and `class BatchSpanProcessor`. The processor keeps the
  ghost history of its calls, and its invariant ties buffer and log to
  `Batching.Run` over that history.
- `Tracing` (`tracing.dfy`): the `Outcome` of the scoped work, `class Tracer`,
  `class TracerProvider`, and the module-level operations.

Clock readings (`time.time()`) are integer parameters. The two `uuid.uuid4()`
draws are natural-number parameters below 2^128. The process-wide
`_tracer_provider` is passed explicitly to `GetTracer` and `FlushTraces`.

The model follows the code as written, including where a reader might expect otherwise:

- `Span.end` overwrites `end_time` on every call, so ending twice keeps the
  later time. It is not idempotent.
- `Span.duration` tests `if self.end_time:`. A recorded end time of 0 is
  falsy in Python, so it counts as not ended (`Span.Ended`). A real
  `time.time()` never returns 0.
- `duration()` is not always non-negative: the clock may run backwards.
  `EndedDurationFixed` proves it non-negative only when the end time is at
  or after the start time.
- `add_span` is meant to append and export in one critical section. As
  written, it deadlocks; see Findings. `BatchSpanProcessor.AddSpan` models the
  intended behaviour.

## Model

| member | source | states |
|---|---|---|
| `Identity.Hex` | simplified_opentelemetry.py:42-43 | The rendering of a UUID value has exactly the requested number of characters, all lowercase hex digits |
| `Identity.HexRoundTrip` | simplified_opentelemetry.py:42 | A value below 16^width, rendered and then read back, gives the value itself |
| `Identity.HexPrefix` | simplified_opentelemetry.py:43 | The first n digits of a rendering are the rendering of the value's high-order part (`hex[:16]`) |
| `Identity.Generate` | simplified_opentelemetry.py:38-44 | A generated context has a 32-character hex trace id, a 16-character hex span id, flags 1 (sampled) and an empty trace state |
| `Identity.GenerateReadsBack` | simplified_opentelemetry.py:41-44 | The trace id denotes exactly its draw; the span id denotes the high 64 bits of its draw |
| `Spans.ExceptionEvent` | simplified_opentelemetry.py:77-80 | The exception event is named "exception" and has exactly two keys, `exception.type` and `exception.message`, holding the failure's type name and message |
| `Spans.Span.constructor` | simplified_opentelemetry.py:46-59 | A new span keeps its identity fields and starts with no end time, no attributes, no events, status UNSET, empty message and no error |
| `Spans.Span.SetAttribute` | simplified_opentelemetry.py:61-63 | The key is bound to the value; every other key keeps its presence and value; no other field changes |
| `Spans.Span.AddEvent` | simplified_opentelemetry.py:65-72 | Events grow by exactly one at the end, with the given name, the current time and the given attributes (or `{}` when none); earlier events are unchanged |
| `Spans.Span.RecordException` | simplified_opentelemetry.py:74-80 | Sets the error and appends exactly the exception event; status and status message are not in its frame and stay unchanged |
| `Spans.Span.SetStatus` | simplified_opentelemetry.py:82-85 | Overwrites exactly status and status message |
| `Spans.Span.End` | simplified_opentelemetry.py:87-89 | Sets the end time to now, overwriting any earlier one; after that, the duration at any later time is end minus start |
| `Spans.Span.Duration` | simplified_opentelemetry.py:91-95 | Once ended, start plus duration is the end time; before that, start plus duration is the current time |
| `Spans.Span.ToDict` | simplified_opentelemetry.py:97-113 | Reports the span's own ids, the parent's span id exactly when there is a parent, the current duration, and the error's message exactly when there is an error |
| `Spans.OpenDurationMonotonic` | simplified_opentelemetry.py:91-95 | While a span is open, its duration does not decrease as the clock advances |
| `Spans.EndedDurationFixed` | simplified_opentelemetry.py:87-95 | After end, the duration does not depend on the clock; it is non-negative when the end time is not before the start time |
| `Spans.ChildReportsParent` | simplified_opentelemetry.py:103 | A span whose parent context is A's context reports A's span id as its parent span id |
| `Batching.AfterAdd` | simplified_opentelemetry.py:154-159 | Adding appends the span to the flattened contents and keeps the buffer below the threshold; exactly when the threshold is reached, one batch is exported (the old buffer plus the span) and the buffer is emptied; otherwise nothing is exported |
| `Batching.AfterFlush` | simplified_opentelemetry.py:161-166 | Flushing leaves the buffer empty and the contents unchanged; an empty buffer exports nothing; a non-empty one is exported once as one batch |
| `Batching.RunConserves` | simplified_opentelemetry.py:154-166 | Over any sequence of add/flush calls, the exported batches concatenated and then the buffer equal what was there before followed by every added span in call order: none lost, duplicated or reordered |
| `Batching.RunKeepsLog` | simplified_opentelemetry.py:161-166 | Earlier exported batches are never changed or withdrawn |
| `Batching.RunBatchesBounded` | simplified_opentelemetry.py:154-166 | Starting below the threshold, every batch exported afterwards is non-empty and at most `max_batch_size` long (at most 1 when the threshold is below 1), and the buffer stays below the threshold |
| `Batching.ThresholdBatchIsFull` | simplified_opentelemetry.py:157-159 | Reaching the threshold from below exports exactly `max_batch_size` spans, in insertion order |
| `Batching.FlushIdempotent` | simplified_opentelemetry.py:164-166 | A second flush with nothing added in between exports nothing |
| `Batching.ThreeSpansFillOneBatch` | simplified_opentelemetry.py:154-159 | With `max_batch_size` 3, adding three spans exports one batch of exactly those three, in order, and leaves the buffer empty |
| `Batching.FlushExportsPartialBatchOnce` | simplified_opentelemetry.py:161-166 | With `max_batch_size` 10, four adds and a flush export exactly those four; a second flush exports nothing |
| `Batching.FlushAsWritten` | simplified_opentelemetry.py:161-166 | `flush` as written blocks forever exactly when the calling thread already holds the lock; otherwise it behaves as `AfterFlush` |
| `Batching.AddAsWritten` | simplified_opentelemetry.py:154-159 | `add_span` as written, when it returns, has appended the span and exported nothing |
| `Batching.AddAsWrittenDeadlocksAtThreshold` | simplified_opentelemetry.py:154-163 | As written, `add_span` deadlocks exactly when the buffer reaches the threshold, and agrees with `AfterAdd` below it |
| `Batching.TenthSpanDeadlocks` | simplified_opentelemetry.py:148-163 | With the default `max_batch_size` of 10, the tenth buffered span deadlocks the caller |
| `Processor.Exporter.Export` | simplified_opentelemetry.py:118 | The exporter's log gains exactly the batch it was given, as a value |
| `Processor.BatchSpanProcessor.constructor` | simplified_opentelemetry.py:148-152 | A new processor has an empty buffer, the given exporter and threshold, and its invariant holds |
| `Processor.BatchSpanProcessor.AddSpan` | simplified_opentelemetry.py:154-159 | Buffer and export log become `AfterAdd` of their old values (append; at the threshold, export once in order and clear); the invariant is kept |
| `Processor.BatchSpanProcessor.Flush` | simplified_opentelemetry.py:161-166 | Buffer and export log become `AfterFlush` of their old values (no export when empty); the invariant is kept |
| `Processor.Delivered` | simplified_opentelemetry.py:154-166 | For a processor in any reachable state: its exported batches, concatenated and followed by its buffer, are exactly the spans passed to `add_span`, in order; every batch it exported is non-empty and bounded; the buffer is below the threshold |
| `Tracing.Tracer.constructor` | simplified_opentelemetry.py:171-173 | A tracer keeps its name and its processor |
| `Tracing.Tracer.StartSpan` | simplified_opentelemetry.py:176-184 | A fresh span with a generated, well-formed context, the parent context stored as given, kind INTERNAL, start time now, and every other field at its default |
| `Tracing.Tracer.EndSpan` | simplified_opentelemetry.py:186-189 | Ends the span at now, then hands it to the processor exactly once (processor state becomes `AfterAdd` with this span) |
| `Tracing.Tracer.CloseScope` | simplified_opentelemetry.py:195-202 | On an `Exception`, records it and sets status ERROR with its message. On normal exit or a non-`Exception` error, status, message, events and error are untouched. On every path the span is ended and handed to the processor exactly once, and the same outcome is returned (re-raised) |
| `Tracing.Tracer.StartAsCurrentSpan` | simplified_opentelemetry.py:191-202 | The scoped helper returns the outcome unchanged. On failure the fresh span carries exactly one exception event, status ERROR and the failure's message; otherwise it stays UNSET with no events. It is ended and passed to the processor once on both paths |
| `Tracing.TracerProvider.constructor` | simplified_opentelemetry.py:207-209 | A provider starts with a fresh exporter, one processor of batch size 10 with an empty buffer, and no tracers |
| `Tracing.TracerProvider.GetTracer` | simplified_opentelemetry.py:211-215 | Returns the registered tracer when the name is known, leaving the registry unchanged. Otherwise it registers a fresh tracer under that name, leaving the other entries unchanged. The result always shares the provider's processor |
| `Tracing.TracerProvider.Flush` | simplified_opentelemetry.py:217-219 | The shared processor's buffer and log become `AfterFlush` of their old values |
| `Tracing.GetTracer` | simplified_opentelemetry.py:224-226 | Module-level `get_tracer` on the process-wide provider: same registry guarantees as `TracerProvider.GetTracer` |
| `Tracing.FlushTraces` | simplified_opentelemetry.py:228-230 | Module-level `flush_traces`: the shared processor is flushed |
| `Tracing.SameNameSameTracer` | simplified_opentelemetry.py:211-215 | Two calls of `get_tracer` with the same name return the same tracer, bound to the provider's processor, and no registered name disappears |
| `Tracing.FailingScope` | simplified_opentelemetry.py:191-202 | Work that raises "boom" inside a scope: the error reaches the caller, the span has status ERROR, message "boom" and one "exception" event carrying "boom", and the next flush exports exactly that span |

## Left out

- Console output of `ConsoleSpanExporter.export` and its JSON layout: console I/O. An exporter that logs every batch it receives takes its place.
- `threading.Lock` and concurrent callers: the model is sequential, and `AddSpan` and `Flush` are atomic method bodies. The lock appears only in `Batching.AddAsWritten` and in `Batching.FlushAsWritten` (through its `lockHeld` flag), to show the deadlock.
- The unused `threading.local` slot of `Tracer` is not modelled. Nothing reads or writes it.
- Randomness and uniqueness of `uuid.uuid4()`: each draw is a parameter, any value below 2^128. The fixed version and variant bits of a version-4 UUID are not modelled.
- Floating-point wall-clock seconds: every `time.time()` reading is an integer parameter.
- The live `Exception` object kept in `Span.error`: it is modelled as `Failure(type name, str(e))`, and `to_dict`'s `str(self.error)` as that message.
- Python's open `Any` attribute values: modelled as a closed datatype (string, integer, real, boolean, or a sequence of these).
- `Spans.Span`: `name`, `context`, `parent_context`, `kind` and `start_time` are constants. The core never reassigns them, though Python would allow it.
- `Tracing.Tracer.StartAsCurrentSpan`: the work inside the scope is given only by how it ended. Changes that work makes to the span are made by calling the `Span` methods between `StartSpan` and `CloseScope`.
- Exporter failures: the model's `Export` cannot fail, so a failed export leaving the buffer uncleared is not modelled.
- `Spans.Span.AddEvent`: Python's `attributes or {}` stores the caller's own dict whenever it is non-empty, so later changes the caller makes to that dict show up in the recorded event; and `to_dict` returns the live `attributes` dict and `events` list, so later mutations of the span show up in a dictionary returned earlier. The model's `Event` and `SpanRecord` hold values, so this aliasing is not captured.
- `Processor.BatchSpanProcessor`: each processor is assumed to own its exporter. Python lets two processors share one exporter; in the model the invariant ties a processor's history to the whole export log, so an export by another processor sharing the exporter is not accounted for.
- The exporter receives the live list `self.spans`, which `clear()` then empties. An exporter that kept that reference would see it emptied. The model records a value snapshot of each batch, as the console exporter (which prints before returning) effectively does.
- The process-wide `_tracer_provider` singleton: Dafny has no module-level mutable state, so it is a `TracerProvider` passed to `Tracing.GetTracer` and `Tracing.FlushTraces`.
- `demo_simple_tracing` and the `__main__` entry: a demo script with sleeps and prints.
- `03_flask_with_simplified_otel.py` and `01_real_opentelemetry_demo.py` are not part of this model. They are web-framework and real-SDK glue around this API.

## Findings

| source | as written | input that shows it | evidently intended | confidence | as-written member | corrected member |
|---|---|---|---|---|---|---|
| simplified_opentelemetry.py:154-166 | `add_span` holds the non-reentrant `threading.Lock` and calls `self.flush()`, which acquires the same lock again, so the caller blocks forever | a `BatchSpanProcessor` with the default `max_batch_size` of 10 and nine buffered spans; one more `add_span` | Append, threshold test, export and clear run as one critical section. The batch is exported once, in order, and the buffer is emptied | high (the lock is `threading.Lock`, not `RLock`); not executed | `Batching.AddAsWrittenDeadlocksAtThreshold` | `Batching.AfterAdd` |
