/** The batching shared by both record builders (XmlToRoomImporter.kt): the
    batch-size policy, and the accumulator that hands a full batch on as soon
    as it reaches the batch size and flushes the remainder at end of stream,
    reporting the cumulative count with every batch. */
module Batching {
  import opened Common

  // ---------------------------------------------------------------------------
  // getDynamicBatchSize
  // ---------------------------------------------------------------------------

  /** The step function over the maximum heap in MiB. */
  function BatchSizeForHeap(maxMemoryMB: int): (size: int)
    ensures size in {500, 1000, 2000, 4000, 8000, 16000}
    ensures maxMemoryMB < 64 <==> size == 500
    ensures maxMemoryMB >= 1024 <==> size == 16000
  {
    if maxMemoryMB >= 1024 then 16000
    else if maxMemoryMB >= 512 then 8000
    else if maxMemoryMB >= 256 then 4000
    else if maxMemoryMB >= 128 then 2000
    else if maxMemoryMB >= 64 then 1000
    else 500
  }

  /** `getDynamicBatchSize`: `Runtime.maxMemory()` (bytes, never negative) is
      the parameter; it is turned into whole MiB first. */
  function DynamicBatchSize(maxMemoryBytes: nat): (size: int)
    ensures 500 <= size <= 16000
  {
    BatchSizeForHeap(maxMemoryBytes / (1024 * 1024))
  }

  /** More heap never gives a smaller batch. */
  lemma BatchSizeMonotone(a: int, b: int)
    requires a <= b
    ensures BatchSizeForHeap(a) <= BatchSizeForHeap(b)
  {
  }

  /** Each tier of the policy doubles the batch of the tier below it. */
  lemma BatchSizeDoublesPerTier(mb: int)
    requires 64 <= mb < 1024
    ensures BatchSizeForHeap(2 * mb) == 2 * BatchSizeForHeap(mb)
  {
  }

  lemma DynamicBatchSizeMonotone(a: nat, b: nat)
    requires a <= b
    ensures DynamicBatchSize(a) <= DynamicBatchSize(b)
  {
    BatchSizeMonotone(a / (1024 * 1024), b / (1024 * 1024));
  }

  // ---------------------------------------------------------------------------
  // The batch shape
  // ---------------------------------------------------------------------------

  /** The loops emit once `entries.size >= batchSize`, so a batch size below 1
      behaves like 1. */
  function Capacity(batchSize: int): (c: nat)
    ensures c >= 1 && (batchSize >= 1 ==> c == batchSize)
  {
    if batchSize >= 1 then batchSize else 1
  }

  /** Every batch is non-empty, every batch but the last is full, and the last
      one holds at most a full batch. */
  ghost predicate WellBatched<T>(batches: seq<seq<T>>, batchSize: int)
  {
    && (forall k :: 0 <= k < |batches| ==> 1 <= |batches[k]| <= Capacity(batchSize))
    && (forall k :: 0 <= k < |batches| - 1 ==> |batches[k]| == Capacity(batchSize))
  }

  /** The progress value handed on with a batch: `current == total ==` the
      cumulative count parsed so far. */
  datatype Progress = Progress(current: int, total: int)

  /** The k-th report counts everything up to and including batch k, on top of
      the count the run started from. */
  ghost predicate Reported<T>(batches: seq<seq<T>>, reports: seq<Progress>, initialTotal: int)
    decreases |batches|
  {
    && |reports| == |batches|
    && (batches != [] ==>
        var n := initialTotal + |Flatten(batches)|;
        && reports[|reports| - 1] == Progress(n, n)
        && Reported(batches[..|batches| - 1], reports[..|reports| - 1], initialTotal))
  }

  lemma ReportedAppend<T>(batches: seq<seq<T>>, reports: seq<Progress>, initialTotal: int, b: seq<T>)
    requires Reported(batches, reports, initialTotal)
    ensures var n := initialTotal + |Flatten(batches)| + |b|;
      Reported(batches + [b], reports + [Progress(n, n)], initialTotal)
  {
    FlattenAppend(batches, b);
    assert (batches + [b])[..|batches|] == batches;
  }

  /** A reference definition of the batches: cut the sequence into consecutive
      pieces of `c`, the last piece taking what is left. */
  function Chunks<T>(items: seq<T>, c: nat): (r: seq<seq<T>>)
    requires c >= 1
    decreases |items|
  {
    if items == [] then []
    else if |items| <= c then [items]
    else [items[..c]] + Chunks(items[c..], c)
  }

  lemma FlattenCons<T>(s: seq<T>, ss: seq<seq<T>>)
    ensures Flatten([s] + ss) == s + Flatten(ss)
  {
    FlattenConcat([s], ss);
    assert Flatten([s]) == Flatten([]) + s;
  }

  /** The batch shape and the concatenation pin the batches down: they are the
      chunks of the items. So `batchSize + 1` items make exactly two batches,
      of `batchSize` and of one item. */
  lemma {:induction false} WellBatchedIsChunks<T>(batches: seq<seq<T>>, items: seq<T>, batchSize: int)
    requires WellBatched(batches, batchSize)
    requires Flatten(batches) == items
    ensures batches == Chunks(items, Capacity(batchSize))
    decreases |batches|
  {
    var c := Capacity(batchSize);
    if batches == [] {
    } else {
      var rest := batches[1..];
      assert batches == [batches[0]] + rest;
      FlattenCons(batches[0], rest);
      if rest == [] {
        assert items == batches[0];
      } else {
        assert |batches[0]| == c;
        FlattenCons(rest[0], rest[1..]);
        assert rest == [rest[0]] + rest[1..];
        assert |Flatten(rest)| >= 1;
        assert items[..c] == batches[0];
        assert items[c..] == Flatten(rest);
        assert WellBatched(rest, batchSize) by {
          forall k | 0 <= k < |rest| ensures 1 <= |rest[k]| <= c { assert rest[k] == batches[k + 1]; }
          forall k | 0 <= k < |rest| - 1 ensures |rest[k]| == c { assert rest[k] == batches[k + 1]; }
        }
        WellBatchedIsChunks(rest, items[c..], batchSize);
      }
    }
  }

  lemma ChunksExample()
    ensures Chunks([1, 2, 3], 2) == [[1, 2], [3]]
  {
    assert [1, 2, 3][..2] == [1, 2];
    assert [1, 2, 3][2..] == [3];
  }

  // ---------------------------------------------------------------------------
  // The accumulator: `entries`, `totalParsed` and the calls to `onBatchReady`
  // ---------------------------------------------------------------------------

  /** `entries` is `pending`; `totalParsed` is `total`; each call of
      `onBatchReady(batch, current, total)` appends to `batches` and `reports`.
      `items` is everything added so far. */
  class Batcher<T> {
    const batchSize: int
    ghost const initialTotal: int
    var pending: seq<T>
    var batches: seq<seq<T>>
    var reports: seq<Progress>
    var total: int
    ghost var items: seq<T>

    /** Between two additions every emitted batch is full and the pending list
        is short of a full batch. */
    ghost predicate Valid()
      reads this
    {
      && Flatten(batches) + pending == items
      && total == initialTotal + |items|
      && (forall k :: 0 <= k < |batches| ==> |batches[k]| == Capacity(batchSize))
      && |pending| < Capacity(batchSize)
      && Reported(batches, reports, initialTotal)
    }

    /** The accumulator of a run that starts from `total`: the loaded checkpoint
        for the word corpus, 0 for the kanji corpus. */
    constructor (batchSize: int, total: int)
      ensures Valid()
      ensures this.batchSize == batchSize && initialTotal == total && this.total == total
      ensures items == [] && pending == [] && batches == [] && reports == []
    {
      this.batchSize := batchSize;
      initialTotal := total;
      this.total := total;
      pending := [];
      batches := [];
      reports := [];
      items := [];
    }

    /** `entries.add(entry); totalParsed++; if (entries.size >= batchSize) { onBatchReady(...); entries.clear() }` */
    method Add(x: T)
      requires Valid()
      modifies this
      ensures Valid()
      ensures items == old(items) + [x]
      ensures batches == old(batches) || batches == old(batches) + [old(pending) + [x]]
    {
      pending := pending + [x];
      items := items + [x];
      total := total + 1;
      assert Flatten(batches) + pending == items;
      if |pending| >= batchSize {
        assert |pending| == Capacity(batchSize);
        FlattenAppend(batches, pending);
        ReportedAppend(batches, reports, initialTotal, pending);
        batches := batches + [pending];
        reports := reports + [Progress(total, total)];
        pending := [];
      }
    }

    /** `if (entries.isNotEmpty()) onBatchReady(...)` after the event loop: the
        remainder is flushed even when it holds a single item, and afterwards
        the batches are exactly the items, well batched and reported. */
    method Finish()
      requires Valid()
      modifies this
      ensures items == old(items)
      ensures pending == [] && total == old(total)
      ensures Flatten(batches) == items
      ensures WellBatched(batches, batchSize)
      ensures Reported(batches, reports, initialTotal)
    {
      if pending != [] {
        FlattenAppend(batches, pending);
        ReportedAppend(batches, reports, initialTotal, pending);
        batches := batches + [pending];
        reports := reports + [Progress(total, total)];
        pending := [];
      }
    }
  }
}
