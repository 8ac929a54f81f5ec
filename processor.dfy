/**
 * The export pipeline: an exporter and `BatchSpanProcessor`.
 *
 * The exporter is the capability the processor hands batches to; the one here
 * keeps a log of every batch it receives, which stands in for the console
 * exporter's printing. The processor's buffer and that log together always
 * equal `Batching.Run` replayed over every call made so far.
 */
module Processor {
  import opened Spans
  import opened Batching

  /** An exporter that records each batch it is given, as a value. */
  class Exporter {
    var batches: seq<seq<Span>>

    constructor ()
      ensures batches == []
    {
      batches := [];
    }

    /** `export`: receives one batch. */
    method Export(batch: seq<Span>)
      modifies this
      ensures batches == old(batches) + [batch]
    {
      batches := batches + [batch];
    }
  }

  class BatchSpanProcessor {
    const exporter: Exporter
    const maxBatchSize: int
    var spans: seq<Span>
    /** The exporter's log when this processor was created. */
    ghost const origin: Pipeline<Span>
    /** Every `add_span` and `flush` call made so far, in order. */
    ghost var history: seq<Op<Span>>

    /** The buffer and the export log, as a value. */
    function Pipe(): Pipeline<Span>
      reads this, exporter
    {
      Pipeline(spans, exporter.batches)
    }

    ghost predicate Valid()
      reads this, exporter
    {
      origin.buffer == [] &&
      Pipe() == Run(origin, history, maxBatchSize)
    }

    /**
     * A processor with an empty buffer. It must be the only processor that
     * exports through `exporter`: `Valid` accounts for every batch in the
     * exporter's log after `origin` as one of this processor's own exports.
     */
    constructor (exporter: Exporter, maxBatchSize: int)
      ensures Valid()
      ensures this.exporter == exporter && this.maxBatchSize == maxBatchSize
      ensures spans == [] && history == [] && origin == Pipeline([], exporter.batches)
    {
      this.exporter := exporter;
      this.maxBatchSize := maxBatchSize;
      spans := [];
      origin := Pipeline([], exporter.batches);
      history := [];
    }

    /**
     * `add_span`: appends `span`; when the buffer has reached
     * `max_batch_size`, exports the whole buffer once, in insertion order, and
     * empties it.
     *
     * The source's `add_span` calls `self.flush()` while still holding
     * `self.lock`, and `flush` takes the same non-reentrant lock, so the first
     * threshold crossing deadlocks. This models the evident intent: append,
     * test and export in one critical section.
     */
    method AddSpan(span: Span)
      requires Valid()
      modifies this, exporter
      ensures Valid()
      ensures Pipe() == AfterAdd(old(Pipe()), span, maxBatchSize)
      ensures history == old(history) + [Add(span)]
    {
      RunSnoc(origin, history, Add(span), maxBatchSize);
      spans := spans + [span];
      if |spans| >= maxBatchSize {
        exporter.Export(spans);
        spans := [];
      }
      history := history + [Add(span)];
    }

    /** `flush`: exports a non-empty buffer once and empties it; an empty buffer exports nothing. */
    method Flush()
      requires Valid()
      modifies this, exporter
      ensures Valid()
      ensures Pipe() == AfterFlush(old(Pipe()))
      ensures history == old(history) + [Op.Flush]
    {
      RunSnoc(origin, history, Op.Flush, maxBatchSize);
      if spans != [] {
        exporter.Export(spans);
        spans := [];
      }
      history := history + [Op.Flush];
    }
  }

  /**
   * Exactly-once delivery: the batches this processor has exported, followed
   * by its buffer, are the spans handed to `add_span`, in call order; every
   * batch it exported is non-empty and at most `BatchLimit(max_batch_size)` long.
   */
  lemma Delivered(p: BatchSpanProcessor)
    requires p.Valid()
    ensures |p.origin.exported| <= |p.exporter.batches|
    ensures Flatten(p.exporter.batches[|p.origin.exported|..]) + p.spans == Added(p.history)
    ensures NewBatchesBounded(p.Pipe(), |p.origin.exported|, p.maxBatchSize)
    ensures p.spans == [] || |p.spans| < p.maxBatchSize
  {
    var o, log := p.origin, p.exporter.batches;
    RunConserves(o, p.history, p.maxBatchSize);
    RunKeepsLog(o, p.history, p.maxBatchSize);
    RunBatchesBounded(o, p.history, p.maxBatchSize);
    var since := log[|o.exported|..];
    assert log == o.exported + since;
    FlattenConcat(o.exported, since);
    var before := Flatten(o.exported);
    assert Contents(p.Pipe()) == Contents(o) + Added(p.history);
    assert Contents(o) == before;
    assert Contents(p.Pipe()) == Flatten(log) + p.spans;
    assert before + (Flatten(since) + p.spans) == before + Added(p.history);
    assert Flatten(since) + p.spans == (before + (Flatten(since) + p.spans))[|before|..];
  }
}
