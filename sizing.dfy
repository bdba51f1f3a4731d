/** Batch and queue sizing of the pull/update/push pipeline
    (`PullUpdatePush.__init__`, `_get_average_document_size`,
    `_get_optimal_batch_size`). Sizes are exact integers and rationals: the
    source's float divisions are computed exactly here. */
module Sizing {
  import opened Values

  /** 2**20: bytes per megabyte. */
  const MiB: nat := 1048576

  /** The number of records the push stage samples before it sizes itself. */
  const PushSampleSize: nat := 10

  /** The timeout, in seconds, used when none is given. */
  const DefaultTimeout: int := 30

  function Sum(sizes: seq<nat>): (total: nat) {
    if sizes == [] then 0 else sizes[0] + Sum(sizes[1..])
  }

  /** The measured size of each sampled record (`getsizeof` is the abstract `sizeOf`). */
  function Sizes(docs: seq<Doc>, sizeOf: Doc -> nat): (r: seq<nat>)
    ensures |r| == |docs|
    ensures forall i :: 0 <= i < |docs| ==> r[i] == sizeOf(docs[i])
  {
    seq(|docs|, i requires 0 <= i < |docs| => sizeOf(docs[i]))
  }

  /** Python's `int(x)` of the quotient `a / b`: truncation toward zero. */
  function TruncDiv(a: int, b: int): (q: int)
    requires b > 0
  {
    if a >= 0 then a / b else -((-a) / b)
  }

  lemma TruncDivBounds(a: int, b: int)
    requires b > 0
    ensures a >= 0 ==> 0 <= TruncDiv(a, b) && TruncDiv(a, b) * b <= a < (TruncDiv(a, b) + 1) * b
    ensures a < 0 ==> TruncDiv(a, b) <= 0 && (TruncDiv(a, b) - 1) * b < a <= TruncDiv(a, b) * b
  {
    if a < 0 {
      var q := (-a) / b;
      DivisionBounds(-a, b);
      NegatedProducts(q, b);
    } else {
      DivisionBounds(a, b);
      SuccessorProduct(a / b, b);
    }
  }

  /** Euclidean division of a non-negative dividend brackets it. */
  lemma DivisionBounds(m: nat, b: int)
    requires b > 0
    ensures (m / b) * b <= m < (m / b) * b + b
  {
  }

  lemma SuccessorProduct(q: int, b: int)
    ensures (q + 1) * b == q * b + b
  {
  }

  lemma NegatedProducts(q: int, b: int)
    ensures (-q) * b == -(q * b) && (-q - 1) * b == -(q * b) - b
  {
  }

  /** `_get_average_document_size`: total size over sample count; an empty
      sample divides by zero. */
  function AverageDocumentSize(sizes: seq<nat>): (r: Result<real>)
    ensures r.Ok? <==> |sizes| > 0
    ensures r.Err? ==> r.error == ZeroDivisionError
    ensures r.Ok? ==> r.value * (|sizes| as real) == Sum(sizes) as real
  {
    if |sizes| == 0 then Err(ZeroDivisionError)
    else Ok(Sum(sizes) as real / |sizes| as real)
  }

  lemma {:induction false} SumBounds(sizes: seq<nat>, lo: nat, hi: nat)
    requires forall i :: 0 <= i < |sizes| ==> lo <= sizes[i] <= hi
    ensures lo * |sizes| <= Sum(sizes) <= hi * |sizes|
  {
    if sizes != [] {
      var rest := sizes[1..];
      assert forall i :: 0 <= i < |rest| ==> rest[i] == sizes[i + 1];
      SumBounds(rest, lo, hi);
      MultipleOfSuccessor(lo, |rest|);
      MultipleOfSuccessor(hi, |rest|);
    }
  }

  lemma MultipleOfSuccessor(a: nat, n: nat)
    ensures a * (n + 1) == a + a * n
  {
  }

  lemma QuotientAtLeast(lo: nat, n: nat, total: nat)
    requires n > 0 && lo * n <= total
    ensures lo as real <= total as real / n as real
  {
    var q := total as real / n as real;
    assert q * n as real == total as real;
    assert (lo * n) as real == lo as real * n as real;
    if q < lo as real {
      assert q * n as real < lo as real * n as real;
    }
  }

  lemma QuotientAtMost(hi: nat, n: nat, total: nat)
    requires n > 0 && total <= hi * n
    ensures total as real / n as real <= hi as real
  {
    var q := total as real / n as real;
    assert q * n as real == total as real;
    assert (hi * n) as real == hi as real * n as real;
    if q > hi as real {
      assert q * n as real > hi as real * n as real;
    }
  }

  /** The average lies between the smallest and the largest sampled size. */
  lemma {:induction false} AverageWithinSample(sizes: seq<nat>, lo: nat, hi: nat)
    requires |sizes| > 0
    requires forall i :: 0 <= i < |sizes| ==> lo <= sizes[i] <= hi
    ensures AverageDocumentSize(sizes).Ok?
    ensures lo as real <= AverageDocumentSize(sizes).value <= hi as real
  {
    SumBounds(sizes, lo, hi);
    QuotientAtLeast(lo, |sizes|, Sum(sizes));
    QuotientAtMost(hi, |sizes|, Sum(sizes));
  }

  /** `_get_optimal_batch_size`: `int(target_chunk_mb / (average / 2**20))`
      capped at `max_chunk_size`. There is no lower bound. A sample that is
      empty or measures zero bytes divides by zero. */
  function OptimalBatchSize(sizes: seq<nat>, targetChunkMb: int, maxChunkSize: int): (r: Result<int>)
    ensures r.Ok? <==> |sizes| > 0 && Sum(sizes) > 0
    ensures r.Err? ==> r.error == ZeroDivisionError
    ensures r.Ok? ==> r.value <= maxChunkSize
    ensures r.Ok? && targetChunkMb >= 0 && maxChunkSize >= 0 ==> r.value >= 0
  {
    var avg := AverageDocumentSize(sizes);
    if avg.Err? || Sum(sizes) == 0 then Err(ZeroDivisionError)
    else
      // target / (avg / 2**20) == target * 2**20 * count / total, exactly
      var chunk := TruncDiv(targetChunkMb * MiB * |sizes|, Sum(sizes));
      Ok(if chunk < maxChunkSize then chunk else maxChunkSize)
  }

  /** Uncapped, the batch size is the largest number of average-size records
      whose total stays within the target number of megabytes. */
  lemma OptimalBatchSizeFits(sizes: seq<nat>, targetChunkMb: nat, maxChunkSize: int)
    requires OptimalBatchSize(sizes, targetChunkMb, maxChunkSize).Ok?
    ensures var b := OptimalBatchSize(sizes, targetChunkMb, maxChunkSize).value;
      b * Sum(sizes) <= targetChunkMb * MiB * |sizes| &&
      (b < maxChunkSize ==> targetChunkMb * MiB * |sizes| < (b + 1) * Sum(sizes))
  {
    var budget := targetChunkMb * MiB * |sizes|;
    var b := OptimalBatchSize(sizes, targetChunkMb, maxChunkSize).value;
    TruncDivBounds(budget, Sum(sizes));
    var chunk := TruncDiv(budget, Sum(sizes));
    assert b <= chunk;
    if b < chunk {
      if b < 0 {
        assert b * Sum(sizes) <= 0;
      } else {
        assert b * Sum(sizes) <= chunk * Sum(sizes);
      }
    }
  }

  /** Records larger on average than the target give a batch size of 0. */
  lemma OversizeRecordsGiveZeroBatch()
    ensures OptimalBatchSize([2 * MiB], 1, 100) == Ok(0)
  {
  }

  /** What `PullUpdatePush.__init__` fixes before the run starts. */
  datatype Settings = Settings(
    ndocs: int,
    pullBatchSize: int,
    updateBatchSize: int,
    pushBatchSize: Option<int>,
    updateAllAtOnce: bool,
    singleQueueSize: int,
    funcLock: bool,
    updateWorkers: int,
    pushWorkers: int,
    timeout: int)

  /** `int(ram_size * ram_ratio / min(average, 2**20))` for a non-empty,
      non-zero sample, with `ramBudget` standing for `ram_size * ram_ratio`. */
  function RamQueueSize(ramBudget: nat, sizes: seq<nat>): (n: nat)
    requires |sizes| > 0 && Sum(sizes) > 0
  {
    if Sum(sizes) <= MiB * |sizes| then ramBudget * |sizes| / Sum(sizes)
    else ramBudget / MiB
  }

  /** `PullUpdatePush.__init__`. `ndocs` is the store's document count,
      `sampleSizes` the sizes of the 10-record sample it draws, `ramBudget`
      the memory share given to the queues. `min(None, ndocs)` raises
      TypeError. */
  function InitSettings(
    ndocs: int,
    pullBatchSize: Option<int>,
    updateBatchSize: Option<int>,
    pushBatchSize: Option<int>,
    sampleSizes: seq<nat>,
    multithreadedUpdate: bool,
    updateWorkers: int,
    pushWorkers: int,
    bufferSize: int,
    ramBudget: nat,
    updateAllAtOnce: bool,
    timeout: Option<int>,
    targetChunkMb: int,
    maxChunkSize: int): (r: Result<Settings>)
    ensures r.Ok? <==> pullBatchSize.Some? && updateBatchSize.Some? && |sampleSizes| > 0 && Sum(sampleSizes) > 0
    ensures pullBatchSize.None? || updateBatchSize.None? ==> r == Err(TypeError)
    ensures r.Ok? ==> var s := r.value;
      && s.ndocs == ndocs
      // the cap `min(pull_batch_size, ndocs)` is overwritten by the sampled size
      && s.pullBatchSize == OptimalBatchSize(sampleSizes, targetChunkMb, maxChunkSize).value
      && (updateAllAtOnce ==> s.updateBatchSize == ndocs && s.singleQueueSize == ndocs)
      && (!updateAllAtOnce ==>
            && s.updateBatchSize <= ndocs && s.updateBatchSize <= updateBatchSize.value
            && (s.updateBatchSize == ndocs || s.updateBatchSize == updateBatchSize.value))
      && (!updateAllAtOnce && bufferSize > 0 ==> 2 * s.singleQueueSize <= bufferSize < 2 * s.singleQueueSize + 2)
      && (!updateAllAtOnce && bufferSize == 0 ==> s.singleQueueSize == RamQueueSize(ramBudget, sampleSizes) / 2)
      && s.pushBatchSize == pushBatchSize
      && s.funcLock == !multithreadedUpdate
      && s.updateWorkers == (if multithreadedUpdate then updateWorkers else 1)
      && s.pushWorkers == pushWorkers
      && s.timeout == (if timeout.Some? then timeout.value else DefaultTimeout)
  {
    if pullBatchSize.None? || updateBatchSize.None? then Err(TypeError)
    else
      var pullSize := OptimalBatchSize(sampleSizes, targetChunkMb, maxChunkSize);
      if pullSize.Err? then Err(pullSize.error)
      else
        var cappedUpdate := if updateBatchSize.value < ndocs then updateBatchSize.value else ndocs;
        var totalQueueSize := if bufferSize == 0 then RamQueueSize(ramBudget, sampleSizes) else bufferSize;
        Ok(Settings(
          ndocs := ndocs,
          pullBatchSize := pullSize.value,
          updateBatchSize := if updateAllAtOnce then ndocs else cappedUpdate,
          pushBatchSize := pushBatchSize,
          updateAllAtOnce := updateAllAtOnce,
          singleQueueSize := if updateAllAtOnce then ndocs else TruncDiv(totalQueueSize, 2),
          funcLock := !multithreadedUpdate,
          updateWorkers := if multithreadedUpdate then updateWorkers else 1,
          pushWorkers := pushWorkers,
          timeout := if timeout.Some? then timeout.value else DefaultTimeout))
  }
}
