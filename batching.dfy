/**
 * The batching rule of `BatchSpanProcessor`, on values.
 *
 * A pipeline is the processor's buffer together with the log of every batch
 * its exporter has received. `AfterAdd` and `AfterFlush` are the two
 * operations; `Run` replays a sequence of them. The lemmas state what the
 * rule guarantees over any such sequence: nothing added is lost or exported
 * twice, order is kept, no empty batch is exported, the buffer stays below the
 * threshold, and the export log only grows.
 */
module Batching {

  datatype Pipeline<T> = Pipeline(buffer: seq<T>, exported: seq<seq<T>>)

  /** One call on the processor: `add_span(item)` or `flush()`. */
  datatype Op<T> = Add(item: T) | Flush

  /** The concatenation of a sequence of batches, in order. */
  function Flatten<T>(batches: seq<seq<T>>): seq<T>
    decreases |batches|
  {
    if batches == [] then [] else Flatten(batches[..|batches| - 1]) + batches[|batches| - 1]
  }

  lemma FlattenSnoc<T>(batches: seq<seq<T>>, b: seq<T>)
    ensures Flatten(batches + [b]) == Flatten(batches) + b
  {
    assert (batches + [b])[..|batches|] == batches;
  }

  lemma {:induction false} FlattenConcat<T>(a: seq<seq<T>>, b: seq<seq<T>>)
    ensures Flatten(a + b) == Flatten(a) + Flatten(b)
    decreases |b|
  {
    if b != [] {
      var init, last := b[..|b| - 1], b[|b| - 1];
      assert a + b == (a + init) + [last];
      assert b == init + [last];
      FlattenConcat(a, init);
      FlattenSnoc(a + init, last);
      FlattenSnoc(init, last);
      calc {
        Flatten(a + b);
        Flatten(a + init) + last;
        (Flatten(a) + Flatten(init)) + last;
        Flatten(a) + (Flatten(init) + last);
        Flatten(a) + Flatten(b);
      }
    } else {
      assert a + b == a;
    }
  }

  /** Everything the pipeline has ever held: what was exported, then what is still buffered. */
  function Contents<T>(p: Pipeline<T>): seq<T> {
    Flatten(p.exported) + p.buffer
  }

  /** The buffer is empty or holds fewer items than the threshold. */
  predicate BelowThreshold<T>(p: Pipeline<T>, maxBatchSize: int) {
    p.buffer == [] || |p.buffer| < maxBatchSize
  }

  /** `add_span`: append, then export and clear once the threshold is reached. */
  function AfterAdd<T>(p: Pipeline<T>, item: T, maxBatchSize: int): (r: Pipeline<T>)
    ensures Contents(r) == Contents(p) + [item]
    ensures BelowThreshold(r, maxBatchSize)
    ensures |p.buffer| + 1 >= maxBatchSize <==> |r.exported| == |p.exported| + 1
    ensures |p.buffer| + 1 >= maxBatchSize ==>
              r.buffer == [] && r.exported == p.exported + [p.buffer + [item]]
    ensures |p.buffer| + 1 < maxBatchSize ==> r.exported == p.exported
  {
    var buffer := p.buffer + [item];
    FlattenSnoc(p.exported, buffer);
    if |buffer| >= maxBatchSize then Pipeline([], p.exported + [buffer])
    else Pipeline(buffer, p.exported)
  }

  /** `flush`: export a non-empty buffer as one batch and clear it; an empty buffer exports nothing. */
  function AfterFlush<T>(p: Pipeline<T>): (r: Pipeline<T>)
    ensures Contents(r) == Contents(p)
    ensures r.buffer == []
    ensures p.buffer == [] <==> r.exported == p.exported
    ensures p.buffer != [] ==> r.exported == p.exported + [p.buffer]
  {
    FlattenSnoc(p.exported, p.buffer);
    if p.buffer != [] then Pipeline([], p.exported + [p.buffer]) else p
  }

  /**
   * The result of a call under the source's locking: it returns with a new
   * pipeline, or blocks forever.
   */
  datatype Locked<T> = Returned(p: Pipeline<T>) | Deadlock

  /**
   * `flush` as written: `with self.lock:` on a `threading.Lock` the calling
   * thread already holds never returns, since the lock is not reentrant.
   */
  function FlushAsWritten<T>(p: Pipeline<T>, lockHeld: bool): (r: Locked<T>)
    ensures lockHeld <==> r.Deadlock?
    ensures !lockHeld ==> r == Returned(AfterFlush(p))
  {
    if lockHeld then Deadlock else Returned(AfterFlush(p))
  }

  /**
   * `add_span` as written: it takes the lock, appends, and at the threshold
   * calls `flush` while still holding the lock.
   */
  function AddAsWritten<T>(p: Pipeline<T>, item: T, maxBatchSize: int): (r: Locked<T>)
    ensures r.Returned? ==> Contents(r.p) == Contents(p) + [item] && r.p.exported == p.exported
  {
    var buffer := p.buffer + [item];
    assert Contents(Pipeline(buffer, p.exported)) == Contents(p) + [item];
    if |buffer| >= maxBatchSize then FlushAsWritten(Pipeline(buffer, p.exported), true)
    else Returned(Pipeline(buffer, p.exported))
  }

  /**
   * As written, `add_span` agrees with `AfterAdd` below the threshold and
   * deadlocks exactly when the threshold is reached, so no threshold export
   * ever happens.
   */
  lemma AddAsWrittenDeadlocksAtThreshold<T>(p: Pipeline<T>, item: T, maxBatchSize: int)
    ensures AddAsWritten(p, item, maxBatchSize).Deadlock? <==> |p.buffer| + 1 >= maxBatchSize
    ensures |p.buffer| + 1 < maxBatchSize ==>
              AddAsWritten(p, item, maxBatchSize) == Returned(AfterAdd(p, item, maxBatchSize))
  {
  }

  /** With the default `max_batch_size` of 10, the tenth span added deadlocks. */
  lemma TenthSpanDeadlocks<T>(p: Pipeline<T>, item: T)
    requires |p.buffer| == 9
    ensures AddAsWritten(p, item, 10) == Deadlock
  {
  }

  function Step<T>(p: Pipeline<T>, op: Op<T>, maxBatchSize: int): Pipeline<T> {
    match op
    case Add(item) => AfterAdd(p, item, maxBatchSize)
    case Flush => AfterFlush(p)
  }

  /** The pipeline after the calls `ops`, in order, starting from `p`. */
  function Run<T>(p: Pipeline<T>, ops: seq<Op<T>>, maxBatchSize: int): Pipeline<T>
    decreases |ops|
  {
    if ops == [] then p
    else Step(Run(p, ops[..|ops| - 1], maxBatchSize), ops[|ops| - 1], maxBatchSize)
  }

  /** The items passed to `add_span` among `ops`, in call order. */
  function Added<T>(ops: seq<Op<T>>): seq<T>
    decreases |ops|
  {
    if ops == [] then []
    else Added(ops[..|ops| - 1]) + (if ops[|ops| - 1].Add? then [ops[|ops| - 1].item] else [])
  }

  lemma RunSnoc<T>(p: Pipeline<T>, ops: seq<Op<T>>, op: Op<T>, maxBatchSize: int)
    ensures Run(p, ops + [op], maxBatchSize) == Step(Run(p, ops, maxBatchSize), op, maxBatchSize)
    ensures Added(ops + [op]) == Added(ops) + (if op.Add? then [op.item] else [])
  {
    assert (ops + [op])[..|ops|] == ops;
  }

  /**
   * Conservation: the exported batches, concatenated, followed by the buffer,
   * are exactly what was there before followed by every added item in call
   * order. No span is lost, duplicated or reordered.
   */
  lemma {:induction false} RunConserves<T>(p: Pipeline<T>, ops: seq<Op<T>>, maxBatchSize: int)
    ensures Contents(Run(p, ops, maxBatchSize)) == Contents(p) + Added(ops)
    decreases |ops|
  {
    if ops != [] {
      var init, last := ops[..|ops| - 1], ops[|ops| - 1];
      assert ops == init + [last];
      RunConserves(p, init, maxBatchSize);
      RunSnoc(p, init, last, maxBatchSize);
    }
  }

  /** The export log only grows: earlier batches are never changed or withdrawn. */
  lemma {:induction false} RunKeepsLog<T>(p: Pipeline<T>, ops: seq<Op<T>>, maxBatchSize: int)
    ensures |p.exported| <= |Run(p, ops, maxBatchSize).exported|
    ensures Run(p, ops, maxBatchSize).exported[..|p.exported|] == p.exported
    decreases |ops|
  {
    if ops != [] {
      var init, last := ops[..|ops| - 1], ops[|ops| - 1];
      RunKeepsLog(p, init, maxBatchSize);
      var q := Run(p, init, maxBatchSize);
      assert Run(p, ops, maxBatchSize) == Step(q, last, maxBatchSize);
      assert Step(q, last, maxBatchSize).exported[..|q.exported|] == q.exported;
    }
  }

  /** The largest batch the rule can export: the threshold, or one span when the threshold is below one. */
  function BatchLimit(maxBatchSize: int): (n: nat)
    ensures n >= 1 && n >= maxBatchSize
  {
    if maxBatchSize >= 1 then maxBatchSize else 1
  }

  /** Every batch exported from `start` onwards is non-empty and no larger than the limit. */
  predicate NewBatchesBounded<T>(p: Pipeline<T>, start: nat, maxBatchSize: int) {
    forall i :: start <= i < |p.exported| ==> 0 < |p.exported[i]| <= BatchLimit(maxBatchSize)
  }

  /**
   * Starting below the threshold, every batch the calls export is non-empty and
   * holds at most `max_batch_size` spans, and the buffer stays below the threshold.
   */
  lemma {:induction false} RunBatchesBounded<T>(p: Pipeline<T>, ops: seq<Op<T>>, maxBatchSize: int)
    requires BelowThreshold(p, maxBatchSize)
    ensures BelowThreshold(Run(p, ops, maxBatchSize), maxBatchSize)
    ensures |p.exported| <= |Run(p, ops, maxBatchSize).exported|
    ensures NewBatchesBounded(Run(p, ops, maxBatchSize), |p.exported|, maxBatchSize)
    decreases |ops|
  {
    if ops != [] {
      var init, last := ops[..|ops| - 1], ops[|ops| - 1];
      RunBatchesBounded(p, init, maxBatchSize);
      var q := Run(p, init, maxBatchSize);
      var r := Step(q, last, maxBatchSize);
      assert Run(p, ops, maxBatchSize) == r;
      assert NewBatchesBounded(r, |p.exported|, maxBatchSize) by {
        forall i | |p.exported| <= i < |r.exported|
          ensures 0 < |r.exported[i]| <= BatchLimit(maxBatchSize)
        {
          if i < |q.exported| {
            assert r.exported[i] == q.exported[i];
          }
        }
      }
    }
  }

  /**
   * Reaching the threshold from below exports a batch of exactly
   * `max_batch_size` spans: the buffer in insertion order plus the new span.
   */
  lemma ThresholdBatchIsFull<T>(p: Pipeline<T>, item: T, maxBatchSize: int)
    requires maxBatchSize >= 1 && BelowThreshold(p, maxBatchSize)
    requires |p.buffer| + 1 >= maxBatchSize
    ensures AfterAdd(p, item, maxBatchSize).exported == p.exported + [p.buffer + [item]]
    ensures |p.buffer + [item]| == maxBatchSize
  {
  }

  /** A second flush with nothing added in between exports nothing. */
  lemma FlushIdempotent<T>(p: Pipeline<T>)
    ensures AfterFlush(AfterFlush(p)) == AfterFlush(p)
  {
  }

  /** With `max_batch_size = 3`, three adds export one batch of exactly those spans, in order. */
  lemma ThreeSpansFillOneBatch<T>(a: T, b: T, c: T)
    ensures Run(Pipeline([], []), [Add(a), Add(b), Add(c)], 3) == Pipeline([], [[a, b, c]])
  {
    var p0: Pipeline<T> := Pipeline([], []);
    assert Run(p0, [Add(a)], 3) == Pipeline([a], []) by {
      RunSnoc(p0, [], Add(a), 3);
      assert [] + [Add(a)] == [Add(a)];
    }
    assert Run(p0, [Add(a), Add(b)], 3) == Pipeline([a, b], []) by {
      RunSnoc(p0, [Add(a)], Add(b), 3);
      assert [Add(a)] + [Add(b)] == [Add(a), Add(b)];
      assert [a] + [b] == [a, b];
    }
    RunSnoc(p0, [Add(a), Add(b)], Add(c), 3);
    assert [Add(a), Add(b)] + [Add(c)] == [Add(a), Add(b), Add(c)];
    assert AfterAdd(Pipeline([a, b], []), c, 3) == Pipeline([], [[a, b, c]]) by {
      assert [a, b] + [c] == [a, b, c];
    }
  }

  /**
   * With `max_batch_size = 10`, four adds and a flush export exactly those four
   * spans; a second flush exports nothing more.
   */
  lemma FlushExportsPartialBatchOnce<T>(a: T, b: T, c: T, d: T)
    ensures Run(Pipeline([], []), [Add(a), Add(b), Add(c), Add(d), Flush, Flush], 10)
         == Pipeline([], [[a, b, c, d]])
  {
    var p0: Pipeline<T> := Pipeline([], []);
    RunSnoc(p0, [], Add(a), 10);
    assert Run(p0, [Add(a)], 10) == Pipeline([a], []);
    RunSnoc(p0, [Add(a)], Add(b), 10);
    assert Run(p0, [Add(a), Add(b)], 10) == Pipeline([a, b], []);
    RunSnoc(p0, [Add(a), Add(b)], Add(c), 10);
    assert [Add(a), Add(b)] + [Add(c)] == [Add(a), Add(b), Add(c)];
    assert [a, b] + [c] == [a, b, c];
    RunSnoc(p0, [Add(a), Add(b), Add(c)], Add(d), 10);
    assert [Add(a), Add(b), Add(c)] + [Add(d)] == [Add(a), Add(b), Add(c), Add(d)];
    assert Run(p0, [Add(a), Add(b), Add(c)], 10) == Pipeline([a, b, c], []);
    assert [a, b, c] + [d] == [a, b, c, d];
    assert Run(p0, [Add(a), Add(b), Add(c), Add(d)], 10) == Pipeline([a, b, c, d], []);
    RunSnoc(p0, [Add(a), Add(b), Add(c), Add(d)], Flush, 10);
    assert [Add(a), Add(b), Add(c), Add(d)] + [Flush] == [Add(a), Add(b), Add(c), Add(d), Flush];
    assert Run(p0, [Add(a), Add(b), Add(c), Add(d), Flush], 10) == Pipeline([], [[a, b, c, d]]);
    RunSnoc(p0, [Add(a), Add(b), Add(c), Add(d), Flush], Flush, 10);
    assert [Add(a), Add(b), Add(c), Add(d), Flush] + [Flush] == [Add(a), Add(b), Add(c), Add(d), Flush, Flush];
  }
}
