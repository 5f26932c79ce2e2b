/**
 `RealTimeProcessor`: transactions are put on a FIFO queue and, whenever the queue
 holds at least `batchSize` items, a batch of at most `batchSize` items is taken
 from its front and analysed. With one consumer the asynchronous calls run in
 submission order, so the processor is a sequential state machine.
 */
module RealTime {

  datatype Processor<T> = Processor(queue: seq<T>, batchSize: nat)

  /** The processor as constructed: empty queue, batches of 1000. */
  function NewProcessor<T>(): Processor<T> {
    Processor([], 1000)
  }

  /** The part of `analyze_batch`'s result that the model determines. */
  datatype BatchAnalysis = BatchAnalysis(batchSize: nat)

  /** `process_batch`: take items from the front while the queue is non-empty and the batch is short. */
  method ProcessBatch<T>(p: Processor<T>) returns (next: Processor<T>, batch: seq<T>, analysis: BatchAnalysis)
    ensures |batch| == if |p.queue| < p.batchSize then |p.queue| else p.batchSize
    ensures batch + next.queue == p.queue
    ensures next.batchSize == p.batchSize
    ensures analysis.batchSize == |batch|
  {
    var queue := p.queue;
    batch := [];
    while queue != [] && |batch| < p.batchSize
      invariant batch + queue == p.queue
      invariant |batch| <= p.batchSize
      decreases |queue|
    {
      batch := batch + [queue[0]];
      queue := queue[1..];
    }
    next := p.(queue := queue);
    analysis := BatchAnalysis(|batch|);
  }

  /** Concatenation of emitted batches, in emission order. */
  function Flatten<T>(batches: seq<seq<T>>): seq<T> {
    if batches == [] then [] else Flatten(batches[..|batches| - 1]) + batches[|batches| - 1]
  }

  /** Batches of a common size `n` flatten to `n` items per batch. */
  lemma {:induction false} FlattenUniformLength<T>(batches: seq<seq<T>>, n: nat)
    requires forall i :: 0 <= i < |batches| ==> |batches[i]| == n
    ensures |Flatten(batches)| == |batches| * n
  {
    if batches != [] {
      var init := batches[..|batches| - 1];
      FlattenUniformLength(init, n);
      assert |Flatten(batches)| == |Flatten(init)| + n;
      assert (|batches| - 1) * n + n == |batches| * n;
    }
  }

  /** `process_transaction_stream` over a finite stream. */
  method ProcessTransactionStream<T>(p: Processor<T>, stream: seq<T>)
    returns (next: Processor<T>, batches: seq<seq<T>>, analyses: seq<BatchAnalysis>)
    ensures next.batchSize == p.batchSize
    ensures Flatten(batches) + next.queue == p.queue + stream
    ensures forall i :: 0 <= i < |batches| ==> |batches[i]| == p.batchSize
    ensures |analyses| == |batches|
    ensures forall i :: 0 <= i < |analyses| ==> analyses[i].batchSize == p.batchSize
    ensures |p.queue| < p.batchSize ==> |next.queue| < p.batchSize
    ensures |batches| * p.batchSize + |next.queue| == |p.queue| + |stream|
  {
    next := p;
    batches := [];
    analyses := [];
    var k := 0;
    while k < |stream|
      invariant k <= |stream|
      invariant next.batchSize == p.batchSize
      invariant Flatten(batches) + next.queue == p.queue + stream[..k]
      invariant forall i :: 0 <= i < |batches| ==> |batches[i]| == p.batchSize
      invariant |analyses| == |batches|
      invariant forall i :: 0 <= i < |analyses| ==> analyses[i].batchSize == p.batchSize
      invariant |p.queue| < p.batchSize ==> |next.queue| < p.batchSize
    {
      assert stream[..k + 1] == stream[..k] + [stream[k]];
      calc {
        Flatten(batches) + (next.queue + [stream[k]]);
        (Flatten(batches) + next.queue) + [stream[k]];
        (p.queue + stream[..k]) + [stream[k]];
        p.queue + (stream[..k] + [stream[k]]);
      }
      next := next.(queue := next.queue + [stream[k]]);
      if |next.queue| >= p.batchSize {
        var batch, analysis;
        ghost var before := next.queue;
        next, batch, analysis := ProcessBatch(next);
        assert Flatten(batches + [batch]) == Flatten(batches) + batch;
        assert before == batch + next.queue;
        assert Flatten(batches + [batch]) + next.queue == Flatten(batches) + before;
        batches := batches + [batch];
        analyses := analyses + [analysis];
      }
      k := k + 1;
    }
    assert stream[..k] == stream;
    FlattenUniformLength(batches, p.batchSize);
  }

  /** 1000 submissions to a new processor close exactly one full batch and leave the queue empty. */
  method ThousandTransactionsOneBatch<T>(stream: seq<T>) returns (next: Processor<T>, analyses: seq<BatchAnalysis>)
    requires |stream| == 1000
    ensures analyses == [BatchAnalysis(1000)]
    ensures next.queue == []
  {
    var batches;
    next, batches, analyses := ProcessTransactionStream(NewProcessor(), stream);
  }
}
