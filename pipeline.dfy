/** The pull -> update -> push pipeline (`PullUpdatePush` in
    relevanceai/operations_new/ops_run.py), run one step at a time. The two
    `mp.Queue`s are sequences used first-in first-out; the progress bars are
    the three counters. */
module Pipeline {
  import opened Values
  import opened Sizing
  import opened Records
  import PushAccounting
  import OperationRun

  /** One answer of the store's paged `get_where`: the records of the page and
      the cursor to resume after it. */
  datatype Page = Page(documents: seq<Doc>, afterId: Option<string>)

  /** From page `n` on, the store eventually answers with an empty page. */
  predicate ExhaustsFrom(pages: seq<Page>, n: nat)
    decreases |pages| - n
  {
    n < |pages| && (pages[n].documents == [] || ExhaustsFrom(pages, n + 1))
  }

  predicate Exhausts(pages: seq<Page>) {
    ExhaustsFrom(pages, 0)
  }

  /** How many pages are requested from page `n` on: up to and including
      the first empty one. */
  function PagesReadFrom(pages: seq<Page>, n: nat): (k: nat)
    requires ExhaustsFrom(pages, n)
    ensures 1 <= k && n + k <= |pages|
    ensures pages[n + k - 1].documents == []
    ensures forall i :: n <= i < n + k - 1 ==> pages[i].documents != []
    decreases |pages| - n
  {
    if pages[n].documents == [] then 1 else 1 + PagesReadFrom(pages, n + 1)
  }

  /** How many pages `_pull` requests. */
  function PagesRead(pages: seq<Page>): (k: nat)
    requires Exhausts(pages)
    ensures 1 <= k <= |pages|
    ensures pages[k - 1].documents == []
    ensures forall i :: 0 <= i < k - 1 ==> pages[i].documents != []
  {
    PagesReadFrom(pages, 0)
  }

  /** The records of the pages from `n` on before the first empty one, in
      page order. */
  function PulledFrom(pages: seq<Page>, n: nat): (docs: seq<Doc>)
    requires ExhaustsFrom(pages, n)
    decreases |pages| - n
  {
    if pages[n].documents == [] then [] else pages[n].documents + PulledFrom(pages, n + 1)
  }

  /** The records `_pull` enqueues. */
  function Pulled(pages: seq<Page>): (docs: seq<Doc>)
    requires Exhausts(pages)
  {
    PulledFrom(pages, 0)
  }

  /** Reading one more page: a non-empty page contributes its records and
      the reading goes on; an empty page ends it. */
  lemma PagesFrom(pages: seq<Page>, n: nat)
    requires ExhaustsFrom(pages, n)
    ensures pages[n].documents == [] ==> PulledFrom(pages, n) == [] && PagesReadFrom(pages, n) == 1
    ensures pages[n].documents != [] ==>
      ExhaustsFrom(pages, n + 1) &&
      PulledFrom(pages, n) == pages[n].documents + PulledFrom(pages, n + 1) &&
      PagesReadFrom(pages, n) == 1 + PagesReadFrom(pages, n + 1)
  {
  }

  /** The loop of `_pull` reading page `n`: what has been enqueued so far,
      followed by what remains to be read, stays the whole pull. */
  lemma PullAdvance(pages: seq<Page>, n: nat, total: seq<Doc>, enqueued: seq<Doc>)
    requires ExhaustsFrom(pages, n) && Exhausts(pages)
    requires total == enqueued + PulledFrom(pages, n)
    requires PagesRead(pages) == n + PagesReadFrom(pages, n)
    ensures pages[n].documents == [] ==> total == enqueued + pages[n].documents && PagesRead(pages) == n + 1
    ensures pages[n].documents != [] ==>
      ExhaustsFrom(pages, n + 1) &&
      total == (enqueued + pages[n].documents) + PulledFrom(pages, n + 1) &&
      PagesRead(pages) == (n + 1) + PagesReadFrom(pages, n + 1)
  {
    PagesFrom(pages, n);
    if pages[n].documents != [] {
      assert enqueued + (pages[n].documents + PulledFrom(pages, n + 1)) ==
        (enqueued + pages[n].documents) + PulledFrom(pages, n + 1);
    }
  }

  class PullUpdatePush {
    /** `upload.target_chunk_mb` and `upload.max_chunk_size` of the config. */
    const targetChunkMb: int
    const maxChunkSize: int
    /** `getsizeof`, abstract. */
    const sizeOf: Doc -> nat

    const pullBatchSize: int
    const updateBatchSize: int
    const updateAllAtOnce: bool
    const singleQueueSize: int
    const funcLock: bool
    const updateWorkers: int
    const pushWorkers: int

    var pushBatchSize: Option<int>
    /** The expected total; it grows when pushes fail. */
    var ndocs: int
    /** The transform queue `tq` and the push queue `pq`; index 0 is the next `get`. */
    var tq: seq<Doc>
    var pq: seq<Doc>
    /** The `n` of the pull, update and push progress bars. */
    var pulledCount: int
    var updatedCount: int
    var pushedCount: int

    constructor (s: Settings, sizeOf: Doc -> nat, targetChunkMb: int, maxChunkSize: int)
      ensures this.sizeOf == sizeOf && this.targetChunkMb == targetChunkMb && this.maxChunkSize == maxChunkSize
      ensures ndocs == s.ndocs && pullBatchSize == s.pullBatchSize && updateBatchSize == s.updateBatchSize
      ensures pushBatchSize == s.pushBatchSize && updateAllAtOnce == s.updateAllAtOnce
      ensures singleQueueSize == s.singleQueueSize && funcLock == s.funcLock
      ensures updateWorkers == s.updateWorkers && pushWorkers == s.pushWorkers
      ensures tq == [] && pq == []
      ensures pulledCount == 0 && updatedCount == 0 && pushedCount == 0
    {
      this.sizeOf := sizeOf;
      this.targetChunkMb := targetChunkMb;
      this.maxChunkSize := maxChunkSize;
      ndocs := s.ndocs;
      pullBatchSize := s.pullBatchSize;
      updateBatchSize := s.updateBatchSize;
      pushBatchSize := s.pushBatchSize;
      updateAllAtOnce := s.updateAllAtOnce;
      singleQueueSize := s.singleQueueSize;
      funcLock := s.funcLock;
      updateWorkers := s.updateWorkers;
      pushWorkers := s.pushWorkers;
      tq, pq := [], [];
      pulledCount, updatedCount, pushedCount := 0, 0, 0;
    }

    /** The accounting view of the push stage. */
    function Tally(): (t: PushAccounting.Tally)
      reads this
    {
      PushAccounting.Tally(ndocs, pushedCount, |pq|)
    }

    /** `_pull`: request pages until one comes back empty, each request
        resuming at the previous page's cursor; enqueue every record. */
    method Pull(pages: seq<Page>) returns (cursors: seq<Option<string>>)
      requires Exhausts(pages)
      modifies this`tq, this`pulledCount
      ensures tq == old(tq) + Pulled(pages)
      ensures pulledCount == old(pulledCount) + |Pulled(pages)|
      ensures |cursors| == PagesRead(pages)
      ensures cursors[0] == None
      ensures forall i :: 0 < i < |cursors| ==> cursors[i] == pages[i - 1].afterId
    {
      var documents: seq<Doc> := [map["placeholder" := JStr("placeholder")]];
      var afterId: Option<string> := None;
      var n := 0;
      cursors := [];
      while documents != []
        invariant 0 <= n <= |pages| && |cursors| == n
        invariant documents != [] ==>
          ExhaustsFrom(pages, n) && old(tq) + Pulled(pages) == tq + PulledFrom(pages, n) &&
          PagesRead(pages) == n + PagesReadFrom(pages, n)
        invariant documents == [] ==> tq == old(tq) + Pulled(pages) && n == PagesRead(pages)
        invariant pulledCount - old(pulledCount) == |tq| - |old(tq)|
        invariant afterId == if n == 0 then None else pages[n - 1].afterId
        invariant forall i :: 0 <= i < n ==> cursors[i] == if i == 0 then None else pages[i - 1].afterId
        decreases |pages| - n
      {
        PullAdvance(pages, n, old(tq) + Pulled(pages), tq);
        cursors := cursors + [afterId];
        documents := pages[n].documents;
        afterId := pages[n].afterId;
        EnqueueAll(documents);
        pulledCount := pulledCount + |documents|;
        n := n + 1;
      }
    }

    /** `for document in documents: self.tq.put(document)`. */
    method EnqueueAll(documents: seq<Doc>)
      modifies this`tq
      ensures tq == old(tq) + documents
    {
      for j := 0 to |documents|
        invariant tq == old(tq) + documents[..j]
      {
        tq := tq + [documents[j]];
      }
      assert documents[..|documents|] == documents;
    }

    /** `_get_update_batch`: take records from the front of `tq` until the
        batch is full; outside all-at-once mode also stop when `tq` is
        empty. In all-at-once mode `get` waits without a timeout, so the
        records must be there. */
    method GetUpdateBatch() returns (batch: seq<Doc>)
      requires updateAllAtOnce ==> |tq| >= updateBatchSize
      modifies this`tq
      ensures old(tq) == batch + tq
      ensures |batch| <= Max(updateBatchSize, 0)
      ensures updateAllAtOnce ==> |batch| == Max(updateBatchSize, 0)
      ensures !updateAllAtOnce ==> |batch| == Min(Max(updateBatchSize, 0), |old(tq)|)
      ensures updateBatchSize > 0 && old(tq) != [] ==> OperationRun.IsChunkValid(Some(batch))
    {
      batch := [];
      while updateAllAtOnce || tq != []
        modifies this`tq
        invariant old(tq) == batch + tq
        invariant |batch| <= Max(updateBatchSize, 0)
        invariant updateAllAtOnce ==> |tq| >= updateBatchSize - |batch|
        decreases |tq|
      {
        if |batch| >= updateBatchSize {
          break;
        }
        batch := batch + [tq[0]];
        tq := tq[1..];
      }
    }

    /** `_get_push_batch`. Without a push batch size, ten records are taken
        first (a `get` that times out raises Empty), the size is computed
        from them, and they start the batch; then records are added from the
        front of `pq` until the batch is full or a `get` times out. */
    method GetPushBatch() returns (r: Result<seq<Doc>>)
      modifies this`pq, this`pushBatchSize
      ensures r.Ok? ==> old(pq) == r.value + pq
      ensures old(pushBatchSize).Some? ==>
        r.Ok? && pushBatchSize == old(pushBatchSize) &&
        |r.value| == Min(Max(old(pushBatchSize).value, 0), |old(pq)|)
      ensures old(pushBatchSize).None? && |old(pq)| < PushSampleSize ==>
        r == Err(QueueEmpty) && pq == [] && pushBatchSize == None
      ensures old(pushBatchSize).None? && |old(pq)| >= PushSampleSize ==>
        var sized := OptimalBatchSize(Sizes(old(pq)[..PushSampleSize], sizeOf), targetChunkMb, maxChunkSize);
        (sized.Err? ==> r == Err(sized.error) && pq == old(pq)[PushSampleSize..] && pushBatchSize == None) &&
        (sized.Ok? ==>
          r.Ok? && pushBatchSize == Some(sized.value) &&
          |r.value| == Max(PushSampleSize, Min(sized.value, |old(pq)|)))
    {
      var batch: seq<Doc> := [];
      if pushBatchSize.None? {
        // [queue.get(timeout=1) for _ in range(10)]: a timeout raises Empty
        var sample := TakePush(PushSampleSize);
        if |sample| < PushSampleSize {
          return Err(QueueEmpty);
        }
        var sized := OptimalBatchSize(Sizes(sample, sizeOf), targetChunkMb, maxChunkSize);
        if sized.Err? {
          return Err(sized.error);
        }
        pushBatchSize := Some(sized.value);
        batch := sample;
      }
      var more := TakePush(pushBatchSize.value - |batch|);
      r := Ok(batch + more);
    }

    /** Records taken from the front of `pq` until `limit` are taken or a
        `get` times out on the empty queue. */
    method TakePush(limit: int) returns (taken: seq<Doc>)
      modifies this`pq
      ensures old(pq) == taken + pq
      ensures |taken| == Min(Max(limit, 0), |old(pq)|)
    {
      taken := [];
      while |taken| < limit
        invariant old(pq) == taken + pq
        invariant |taken| <= Max(limit, 0)
        decreases limit - |taken|
      {
        if pq == [] {
          break;
        }
        taken := taken + [pq[0]];
        pq := pq[1..];
      }
    }

    /** One iteration of `_update`: drain a batch, note each record's field
        names, apply the transform, strip the fields that were already there
        (keeping `_id`), enqueue the result and advance the update counter.
        The transform keeps the batch length. */
    method UpdateStep(func: seq<Doc> -> seq<Doc>) returns (batch: seq<Doc>, written: seq<Doc>)
      requires forall b :: |func(b)| == |b|
      requires updateAllAtOnce ==> |tq| >= updateBatchSize
      modifies this`tq, this`pq, this`updatedCount
      ensures old(tq) == batch + tq
      ensures updateAllAtOnce ==> |batch| == Max(updateBatchSize, 0)
      ensures !updateAllAtOnce ==> |batch| == Min(Max(updateBatchSize, 0), |old(tq)|)
      ensures Postprocess(func(batch), KeysOf(batch)) == Ok(written)
      ensures pq == old(pq) + written
      ensures updatedCount == old(updatedCount) + |batch|
      ensures !old(UpdateStalled()) ==> 0 < |batch| <= updateBatchSize
    {
      batch := GetUpdateBatch();
      var oldKeys := KeysOf(batch);
      var newBatch := func(batch);
      var processed := Postprocess(newBatch, oldKeys);
      written := processed.value;
      ghost var before := pq;
      for i := 0 to |written|
        modifies this`pq
        invariant pq == before + written[..i]
      {
        pq := pq + [written[i]];
      }
      assert written[..|written|] == written;
      updatedCount := updatedCount + |written|;
    }

    /** One round of `Update`'s loop on a schedule that is not stalled: a
        non-empty batch leaves the head of `tq` and its postprocessed records
        join `pq`. */
    method UpdateRound(func: seq<Doc> -> seq<Doc>) returns (batch: seq<Doc>)
      requires forall b :: |func(b)| == |b|
      requires !UpdateStalled()
      modifies this`tq, this`pq, this`updatedCount
      ensures old(tq) == batch + tq
      ensures pq == old(pq) + Postprocess(func(batch), KeysOf(batch)).value
      ensures updatedCount == old(updatedCount) + |batch|
      ensures 0 < |batch| <= updateBatchSize
      ensures updateAllAtOnce ==> |batch| == updateBatchSize
    {
      var written;
      batch, written := UpdateStep(func);
    }

    /** The single sequential schedule cannot feed another update batch: the
        source would wait on an empty `get` forever (all-at-once mode) or
        spin on empty batches. */
    predicate UpdateStalled()
      reads this
    {
      updateBatchSize <= 0 || (if updateAllAtOnce then |tq| < updateBatchSize else tq == [])
    }

    /** `_update`: run update iterations while the update counter is below
        `ndocs`, stopping where this schedule has no more records to give.
        `batches` are the batches drained, in order. */
    method Update(func: seq<Doc> -> seq<Doc>) returns (batches: seq<seq<Doc>>)
      requires forall b :: |func(b)| == |b|
      modifies this`tq, this`pq, this`updatedCount
      ensures old(tq) == Concat(batches) + tq
      ensures pq == old(pq) + Updated(func, batches)
      ensures updatedCount == old(updatedCount) + |Concat(batches)|
      ensures forall j :: 0 <= j < |batches| ==> 0 < |batches[j]| <= updateBatchSize
      ensures updatedCount >= ndocs || UpdateStalled()
      ensures updateAllAtOnce && old(updatedCount) == 0 && 0 < updateBatchSize == ndocs <= |old(tq)| ==>
        batches == [old(tq)[..ndocs]]
      // A fresh update stage over exactly the expected records drains them all.
      ensures old(updatedCount) == 0 && 0 < updateBatchSize && |old(tq)| == ndocs
              && (updateAllAtOnce ==> updateBatchSize == ndocs) ==>
        tq == [] && updatedCount == ndocs && Concat(batches) == old(tq)
    {
      batches := [];
      ghost var whole := updateAllAtOnce && old(updatedCount) == 0 && 0 < updateBatchSize == ndocs <= |old(tq)|;
      while updatedCount < ndocs
        invariant old(tq) == Concat(batches) + tq
        invariant pq == old(pq) + Updated(func, batches)
        invariant updatedCount == old(updatedCount) + |Concat(batches)|
        invariant forall j :: 0 <= j < |batches| ==> 0 < |batches[j]| <= updateBatchSize
        invariant whole ==> (batches == [] && tq == old(tq)) || (batches == [old(tq)[..ndocs]] && updatedCount == ndocs)
        decreases |tq|
      {
        if UpdateStalled() {
          break;
        }
        ghost var before, pqBefore := tq, pq;
        var batch := UpdateRound(func);
        if whole {
          assert [] + [batch] == [batch];
          assert batch == old(tq)[..ndocs];
        }
        Drained(old(tq), batches, before, batch, tq);
        UpdatedAppend(func, batches, batch);
        Appended(old(pq), Updated(func, batches), Postprocess(func(batch), KeysOf(batch)).value, pqBefore, pq);
        batches := batches + [batch];
      }
    }

    /** `_handle_failed_documents`: with failures reported, grow `ndocs` by
        their number, pick the batch records whose `_id` was reported (a
        record without `_id` raises KeyError), and put them back in `pq`. */
    method HandleFailedDocuments(reported: seq<Json>, batch: seq<Doc>) returns (r: Result<seq<Doc>>)
      modifies this`pq, this`ndocs
      ensures reported == [] ==> r == Ok([]) && pq == old(pq) && ndocs == old(ndocs)
      ensures reported != [] ==> ndocs == old(ndocs) + |reported|
      ensures reported != [] && !AllIdentified(batch) ==> r == Err(KeyError) && pq == old(pq)
      ensures reported != [] && AllIdentified(batch) ==>
        r == Ok(Failed(batch, Ids(reported))) && pq == old(pq) + r.value
    {
      if reported == [] {
        return Ok([]);
      }
      ndocs := ndocs + |reported|;
      var failedIds := Ids(reported);
      if !AllIdentified(batch) {
        return Err(KeyError);
      }
      var failed := Failed(batch, failedIds);
      ghost var before := pq;
      for i := 0 to |failed|
        modifies this`pq
        invariant pq == before + failed[..i]
      {
        pq := pq + [failed[i]];
      }
      assert failed[..|failed|] == failed;
      r := Ok(failed);
    }

    /** One iteration of `_push`: drain a batch, send it, re-queue the records
        the store reports as failed, and advance the push counter by the
        records not re-queued. The accounting is `StepAsWritten`. */
    method PushStep(reported: seq<Json>) returns (r: Result<seq<Doc>>, failed: seq<Doc>)
      modifies this`pq, this`pushBatchSize, this`ndocs, this`pushedCount
      ensures r.Ok? ==> r.value <= old(pq) && pq == old(pq)[|r.value|..] + failed
      ensures r.Ok? && reported == [] ==> failed == [] && ndocs == old(ndocs)
      ensures r.Ok? && reported != [] ==>
        AllIdentified(r.value) && failed == Failed(r.value, Ids(reported)) &&
        ndocs == old(ndocs) + |reported|
      ensures r.Ok? ==> |failed| <= |r.value| && pushedCount == old(pushedCount) + |r.value| - |failed|
      ensures r.Ok? ==> Tally() == PushAccounting.StepAsWritten(old(Tally()), PushAccounting.Round(|r.value|, |reported|, |failed|))
      ensures old(pushBatchSize).Some? ==>
        pushBatchSize == old(pushBatchSize) && (reported == [] ==> r.Ok?) &&
        (r.Ok? ==> |r.value| == Min(Max(old(pushBatchSize).value, 0), |old(pq)|))
      ensures old(pushBatchSize).None? && r.Ok? ==>
        |old(pq)| >= PushSampleSize &&
        var sized := OptimalBatchSize(Sizes(old(pq)[..PushSampleSize], sizeOf), targetChunkMb, maxChunkSize);
        sized.Ok? && pushBatchSize == Some(sized.value)
      ensures r.Err? ==> pushedCount == old(pushedCount)
    {
      failed := [];
      var batch := GetPushBatch();
      if batch.Err? {
        return batch, [];
      }
      assert batch.value <= old(pq) && pq == old(pq)[|batch.value|..];
      ghost var sizeAfterGet := pushBatchSize;
      var handled := HandleFailedDocuments(reported, batch.value);
      if handled.Err? {
        return Err(handled.error), [];
      }
      failed := handled.value;
      if reported != [] {
        FailedPartition(batch.value, Ids(reported));
      }
      pushedCount := pushedCount + |batch.value| - |failed|;
      assert |pq| == |old(pq)| - |batch.value| + |failed| && ndocs == old(ndocs) + |reported|;
      assert pushBatchSize == sizeAfterGet;
      assert old(Tally()) == PushAccounting.Tally(old(ndocs), old(pushedCount), |old(pq)|);
      r := batch;
    }

    /** What the push loop knows after `i` rounds that sent the batches
        `sent` and put back `requeued`, starting from the queue `start`,
        the total `ndocs0` and the counter `pushed0`. */
    ghost predicate PushedSoFar(start: seq<Doc>, ndocs0: int, pushed0: int, responses: seq<seq<Json>>,
                                i: nat, sent: seq<seq<Doc>>, requeued: seq<seq<Doc>>)
      reads this
    {
      && i <= |responses|
      && start + Concat(requeued) == Concat(sent) + pq
      && RequeuesAll(responses[..i], sent, requeued)
      && ndocs == ndocs0 + TotalLength(responses[..i])
      && pushedCount == pushed0 + |Concat(sent)| - |Concat(requeued)|
    }

    /** Round `i` of the push loop: `PushStep` on the i-th response, which
        carries the loop's record of the rounds one round forward. */
    method PushRound(responses: seq<seq<Json>>, i: nat, sent: seq<seq<Doc>>, requeued: seq<seq<Doc>>,
                     ghost start: seq<Doc>, ghost ndocs0: int, ghost pushed0: int)
      returns (r: Result<seq<Doc>>, failed: seq<Doc>)
      requires i < |responses|
      requires PushedSoFar(start, ndocs0, pushed0, responses, i, sent, requeued)
      modifies this`pq, this`pushBatchSize, this`ndocs, this`pushedCount
      ensures r.Ok? ==> PushedSoFar(start, ndocs0, pushed0, responses, i + 1, sent + [r.value], requeued + [failed])
      ensures r.Ok? ==> Requeues(responses[i], r.value, failed)
      ensures r.Ok? ==> Concat(requeued + [failed]) == Concat(requeued) + failed
      ensures r.Ok? ==> ndocs == old(ndocs) + |responses[i]| && pushedCount == old(pushedCount) + |r.value| - |failed|
      ensures old(pushBatchSize).Some? ==> pushBatchSize == old(pushBatchSize)
      ensures old(pushBatchSize).Some? && old(pushBatchSize).value > 0 && responses[i] == [] && old(pq) != [] ==>
        r.Ok? && |r.value| > 0
    {
      ghost var out, back := Concat(sent), Concat(requeued);
      r, failed := PushStep(responses[i]);
      if r.Ok? {
        assert old(pq) == r.value + old(pq)[|r.value|..];
        QueueBalance(start, back, out, old(pq), failed, r.value, pq);
        ConcatAppend(sent, r.value);
        ConcatAppend(requeued, failed);
        RequeuesNext(responses, sent, requeued, r.value, failed, i);
        TotalLengthNext(responses, i);
      }
    }

    /** `_push`: run push iterations while the push counter is below `ndocs`.
        `responses[i]` is the failures the store reports for the i-th bulk
        update; the model stops when they run out. `sent` are the batches
        sent and `requeued` the records put back after each. */
    method Push(responses: seq<seq<Json>>) returns (r: Result<nat>, sent: seq<seq<Doc>>, requeued: seq<seq<Doc>>)
      modifies this`pq, this`pushBatchSize, this`ndocs, this`pushedCount
      ensures r.Ok? ==> r.value <= |responses| && (pushedCount >= ndocs || r.value == |responses|)
      ensures r.Ok? ==> |sent| == |requeued| == r.value
      ensures r.Ok? ==> old(pq) + Concat(requeued) == Concat(sent) + pq
      ensures r.Ok? ==> RequeuesAll(responses[..r.value], sent, requeued)
      ensures r.Ok? ==> ndocs == old(ndocs) + TotalLength(responses[..r.value])
      ensures r.Ok? ==> pushedCount == old(pushedCount) + |Concat(sent)| - |Concat(requeued)|
      ensures r.Ok? ==>
        PushAccounting.Backlog(Tally()) == PushAccounting.Backlog(old(Tally())) + TotalLength(responses[..r.value])
      ensures old(pushBatchSize).Some? ==> pushBatchSize == old(pushBatchSize)
      // No reported failures, a positive push batch size, the expected
      // records all queued and enough bulk updates: everything queued is
      // sent, in order, and the counter reaches the total.
      ensures (old(pushBatchSize).Some? && old(pushBatchSize).value > 0
               && old(pushedCount) + |old(pq)| == old(ndocs) && |responses| >= |old(pq)|
               && forall j :: 0 <= j < |responses| ==> responses[j] == [])
              ==> r.Ok? && pushedCount == ndocs == old(ndocs) && pq == [] && Concat(sent) == old(pq)
    {
      var i := 0;
      sent, requeued := [], [];
      ghost var clean := old(pushBatchSize).Some? && old(pushBatchSize).value > 0
        && old(pushedCount) + |old(pq)| == old(ndocs) && |responses| >= |old(pq)|
        && forall j :: 0 <= j < |responses| ==> responses[j] == [];
      assert responses[..0] == [];
      while pushedCount < ndocs && i < |responses|
        invariant PushedSoFar(old(pq), old(ndocs), old(pushedCount), responses, i, sent, requeued)
        invariant old(pushBatchSize).Some? ==> pushBatchSize == old(pushBatchSize)
        invariant clean ==> Concat(requeued) == [] && ndocs == old(ndocs) && pushedCount >= old(pushedCount) + i
        decreases |responses| - i
      {
        assert clean ==> responses[i] == [] && pq != [];
        var batch, failed := PushRound(responses, i, sent, requeued, old(pq), old(ndocs), old(pushedCount));
        if batch.Err? {
          return Err(batch.error), sent, requeued;
        }
        sent, requeued := sent + [batch.value], requeued + [failed];
        i := i + 1;
      }
      assert |old(pq)| + |Concat(requeued)| == |Concat(sent)| + |pq|;
      if clean {
        assert old(pq) == Concat(sent) + pq;
        assert pushedCount >= ndocs && |pq| == 0;
      }
      r := Ok(i);
    }

    /** `run`: nothing happens unless records are expected. Then, in this
        sequential schedule, the puller runs to the end and the update and
        push stages follow once `tq` holds a record (the source polls for
        that forever otherwise). `batches` are the update batches and `sent`
        the push batches. */
    method Run(pages: seq<Page>, func: seq<Doc> -> seq<Doc>, responses: seq<seq<Json>>)
      returns (completed: bool, batches: seq<seq<Doc>>, sent: seq<seq<Doc>>)
      requires Exhausts(pages)
      requires forall b :: |func(b)| == |b|
      modifies this`tq, this`pq, this`pushBatchSize, this`ndocs, this`pulledCount, this`updatedCount, this`pushedCount
      ensures old(ndocs) <= 0 ==> !completed && unchanged(this)
      ensures old(ndocs) > 0 ==> pulledCount == old(pulledCount) + |Pulled(pages)|
      ensures completed ==> pushedCount >= ndocs
      // A fresh pipeline over N > 0 records, positive batch sizes and no
      // reported failures: every record is pulled, updated and written
      // once, in order, and all three counters reach N.
      ensures (old(tq) == [] && old(pq) == [] && old(pulledCount) == 0 && old(updatedCount) == 0
               && old(pushedCount) == 0 && |Pulled(pages)| == old(ndocs) > 0
               && updateBatchSize > 0 && (updateAllAtOnce ==> updateBatchSize == old(ndocs))
               && old(pushBatchSize).Some? && old(pushBatchSize).value > 0
               && |responses| >= old(ndocs) && forall j :: 0 <= j < |responses| ==> responses[j] == [])
              ==> && completed && ndocs == old(ndocs)
                  && pulledCount == updatedCount == pushedCount == ndocs
                  && tq == [] && pq == []
                  && Concat(batches) == Pulled(pages)
                  && Concat(sent) == Updated(func, batches)
    {
      batches, sent := [], [];
      if ndocs <= 0 {
        return false, batches, sent;
      }
      var cursors := Pull(pages);
      if tq == [] {
        return false, batches, sent;
      }
      completed, batches, sent := UpdateAndPush(func, responses);
    }

    /** The stages of `run` after the pull: the updaters, then, once `pq`
        holds a record, the pushers. */
    method UpdateAndPush(func: seq<Doc> -> seq<Doc>, responses: seq<seq<Json>>)
      returns (completed: bool, batches: seq<seq<Doc>>, sent: seq<seq<Doc>>)
      requires forall b :: |func(b)| == |b|
      modifies this`tq, this`pq, this`pushBatchSize, this`ndocs, this`updatedCount, this`pushedCount
      ensures completed ==> pushedCount >= ndocs
      ensures (old(pq) == [] && old(updatedCount) == 0 && old(pushedCount) == 0 && |old(tq)| == old(ndocs) > 0
               && updateBatchSize > 0 && (updateAllAtOnce ==> updateBatchSize == old(ndocs))
               && old(pushBatchSize).Some? && old(pushBatchSize).value > 0
               && |responses| >= old(ndocs) && forall j :: 0 <= j < |responses| ==> responses[j] == [])
              ==> && completed && ndocs == old(ndocs)
                  && updatedCount == pushedCount == ndocs
                  && tq == [] && pq == []
                  && Concat(batches) == old(tq)
                  && Concat(sent) == Updated(func, batches)
    {
      sent := [];
      batches := Update(func);
      UpdatedLength(func, batches);
      if pq == [] {
        return false, batches, sent;
      }
      var pushed, requeued;
      pushed, sent, requeued := Push(responses);
      completed := pushed.Ok? && pushedCount >= ndocs;
    }
  }

  /** The transform of `ScoreScenario`: every record gains field `f`. */
  function AddField(b: seq<Doc>, f: string, score: Doc -> Json): (r: seq<Doc>)
    ensures |r| == |b|
    ensures forall i :: 0 <= i < |b| ==> r[i] == b[i][f := score(b[i])]
  {
    seq(|b|, i requires 0 <= i < |b| => b[i][f := score(b[i])])
  }

  /** Pages of 10, 10 and 5 records, then the empty page. */
  function ScenarioPages(docs: seq<Doc>): (pages: seq<Page>)
    requires |docs| == 25
  {
    [Page(docs[..10], Some("10")), Page(docs[10..20], Some("20")), Page(docs[20..], Some("25")), Page([], None)]
  }

  lemma ScenarioPagesRead(docs: seq<Doc>)
    requires |docs| == 25
    ensures Exhausts(ScenarioPages(docs)) && Pulled(ScenarioPages(docs)) == docs
    ensures PagesRead(ScenarioPages(docs)) == 4
  {
    var pages := ScenarioPages(docs);
    assert ExhaustsFrom(pages, 3) && ExhaustsFrom(pages, 2) && ExhaustsFrom(pages, 1) && ExhaustsFrom(pages, 0);
    assert PulledFrom(pages, 2) == docs[20..];
    assert PulledFrom(pages, 1) == docs[10..20] + docs[20..];
    assert PulledFrom(pages, 0) == docs[..10] + (docs[10..20] + docs[20..]);
    assert docs == docs[..10] + (docs[10..20] + docs[20..]);
  }

  /** Twenty-five records pulled in pages of 10, 10 and 5, updated and
      pushed in batches of 10 by a transform that adds `score` to every
      record, with no write failures: all three counters reach 25 and the
      payload written for each record, in pull order, holds only its `_id`
      and `score`. */
  method ScoreScenario(docs: seq<Doc>, sizeOf: Doc -> nat, score: Doc -> Json) returns (p: PullUpdatePush, written: seq<Doc>)
    requires |docs| == 25
    requires forall i :: 0 <= i < |docs| ==> IdField in docs[i] && "score" !in docs[i]
    ensures p.pulledCount == p.updatedCount == p.pushedCount == p.ndocs == 25
    ensures p.tq == [] && p.pq == []
    ensures |written| == 25
    ensures forall i :: 0 <= i < 25 ==> written[i] == map[IdField := docs[i][IdField], "score" := score(docs[i])]
  {
    var settings := Settings(25, 10, 10, Some(10), false, 50, true, 1, 1, 30);
    p := new PullUpdatePush(settings, sizeOf, 100, 10000);
    ScenarioPagesRead(docs);
    var func := (b: seq<Doc>) => AddField(b, "score", score);
    var responses: seq<seq<Json>> := seq(25, _ => []);
    var completed, batches, sent := p.Run(ScenarioPages(docs), func, responses);
    assert Lacks(docs, "score");
    UpdatedAddsField(func, batches, "score", score);
    written := Concat(sent);
  }

  /** The batches one after another. */
  function Concat(batches: seq<seq<Doc>>): (docs: seq<Doc>) {
    if batches == [] then [] else Concat(batches[..|batches| - 1]) + batches[|batches| - 1]
  }

  lemma ConcatAppend(batches: seq<seq<Doc>>, batch: seq<Doc>)
    ensures Concat(batches + [batch]) == Concat(batches) + batch
  {
    assert (batches + [batch])[..|batches|] == batches;
  }

  /** One more batch drained from the front of a queue. */
  lemma Drained(start: seq<Doc>, batches: seq<seq<Doc>>, before: seq<Doc>, batch: seq<Doc>, after: seq<Doc>)
    requires start == Concat(batches) + before
    requires before == batch + after
    ensures start == Concat(batches + [batch]) + after
    ensures |Concat(batches + [batch])| == |Concat(batches)| + |batch|
  {
    ConcatAppend(batches, batch);
    assert Concat(batches) + (batch + after) == (Concat(batches) + batch) + after;
  }

  /** Records appended to a queue that already held `pq0 + done`. */
  lemma Appended(pq0: seq<Doc>, done: seq<Doc>, more: seq<Doc>, before: seq<Doc>, after: seq<Doc>)
    requires before == pq0 + done
    requires after == before + more
    ensures after == pq0 + (done + more)
  {
  }

  /** What the update stage writes to `pq` for the given batches: each
      batch transformed, then stripped against its own field names. */
  function Updated(func: seq<Doc> -> seq<Doc>, batches: seq<seq<Doc>>): (docs: seq<Doc>)
    requires forall b :: |func(b)| == |b|
  {
    if batches == [] then []
    else
      var b := batches[|batches| - 1];
      Updated(func, batches[..|batches| - 1]) + Postprocess(func(b), KeysOf(b)).value
  }

  lemma {:induction false} UpdatedLength(func: seq<Doc> -> seq<Doc>, batches: seq<seq<Doc>>)
    requires forall b :: |func(b)| == |b|
    ensures |Updated(func, batches)| == |Concat(batches)|
    decreases |batches|
  {
    if batches != [] {
      UpdatedLength(func, batches[..|batches| - 1]);
    }
  }

  /** `dst` has one record per record of `src`, in the same order, and
      carries the `_id` of every record of `src` that has one. */
  predicate KeepsIds(src: seq<Doc>, dst: seq<Doc>) {
    |dst| == |src| &&
    forall i :: 0 <= i < |src| && IdField in src[i] ==> IdField in dst[i] && dst[i][IdField] == src[i][IdField]
  }

  lemma KeepsIdsAppend(src: seq<Doc>, dst: seq<Doc>, more: seq<Doc>, moreDst: seq<Doc>)
    requires KeepsIds(src, dst) && KeepsIds(more, moreDst)
    ensures KeepsIds(src + more, dst + moreDst)
  {
    forall i | 0 <= i < |src + more| && IdField in (src + more)[i]
      ensures IdField in (dst + moreDst)[i] && (dst + moreDst)[i][IdField] == (src + more)[i][IdField]
    {
      if i >= |src| {
        assert (src + more)[i] == more[i - |src|] && (dst + moreDst)[i] == moreDst[i - |src|];
      }
    }
  }

  /** `_postprocess` after a transform that keeps `_id` keeps it too. */
  lemma BatchKeepsIds(func: seq<Doc> -> seq<Doc>, b: seq<Doc>)
    requires forall b :: |func(b)| == |b|
    requires KeepsIds(b, func(b))
    ensures KeepsIds(b, Postprocess(func(b), KeysOf(b)).value)
  {
  }

  /** A transform that keeps each record's `_id` at its position: the
      update stage writes one record per drained record, in the same order,
      carrying the same `_id`. */
  lemma {:induction false} UpdatedKeepsIds(func: seq<Doc> -> seq<Doc>, batches: seq<seq<Doc>>)
    requires forall b :: |func(b)| == |b|
    requires forall b :: KeepsIds(b, func(b))
    ensures KeepsIds(Concat(batches), Updated(func, batches))
    decreases |batches|
  {
    if batches != [] {
      var init, b := batches[..|batches| - 1], batches[|batches| - 1];
      assert batches == init + [b];
      ConcatAppend(init, b);
      UpdatedAppend(func, init, b);
      UpdatedKeepsIds(func, init);
      BatchKeepsIds(func, b);
      KeepsIdsAppend(Concat(init), Updated(func, init), b, Postprocess(func(b), KeysOf(b)).value);
    }
  }

  /** A record with `f` added, as `_postprocess` leaves it: only `_id` (when
      the record had one) and `f`. */
  function Scored(d: Doc, f: string, score: Doc -> Json): (r: Doc) {
    if IdField in d then map[IdField := d[IdField], f := score(d)] else map[f := score(d)]
  }

  function ScoredAll(docs: seq<Doc>, f: string, score: Doc -> Json): (r: seq<Doc>)
    ensures |r| == |docs|
    ensures forall i :: 0 <= i < |docs| ==> r[i] == Scored(docs[i], f, score)
  {
    seq(|docs|, i requires 0 <= i < |docs| => Scored(docs[i], f, score))
  }

  lemma ScoredAllAppend(a: seq<Doc>, b: seq<Doc>, f: string, score: Doc -> Json)
    ensures ScoredAll(a + b, f, score) == ScoredAll(a, f, score) + ScoredAll(b, f, score)
  {
  }

  /** The ids a bulk update reports as failed. */
  function Ids(reported: seq<Json>): (ids: set<Json>)
    ensures forall x :: x in ids <==> x in reported
  {
    set x | x in reported
  }

  /** What one push round re-queues: nothing when no failure is reported,
      otherwise the records of the sent batch whose `_id` was reported. */
  predicate Requeues(reported: seq<Json>, batch: seq<Doc>, failed: seq<Doc>) {
    if reported == [] then failed == []
    else AllIdentified(batch) && failed == Failed(batch, Ids(reported))
  }

  /** Round by round, `requeued[j]` is what round j re-queued after
      sending `sent[j]` and hearing `responses[j]`. */
  predicate RequeuesAll(responses: seq<seq<Json>>, sent: seq<seq<Doc>>, requeued: seq<seq<Doc>>)
    decreases |responses|
  {
    |sent| == |requeued| == |responses| &&
    (responses == [] ||
     var n := |responses| - 1;
     RequeuesAll(responses[..n], sent[..n], requeued[..n]) && Requeues(responses[n], sent[n], requeued[n]))
  }

  lemma RequeuesNext(responses: seq<seq<Json>>, sent: seq<seq<Doc>>, requeued: seq<seq<Doc>>,
                     batch: seq<Doc>, failed: seq<Doc>, i: nat)
    requires i < |responses|
    requires RequeuesAll(responses[..i], sent, requeued)
    requires Requeues(responses[i], batch, failed)
    ensures RequeuesAll(responses[..i + 1], sent + [batch], requeued + [failed])
  {
    assert responses[..i + 1][..i] == responses[..i];
    assert (sent + [batch])[..i] == sent && (requeued + [failed])[..i] == requeued;
  }

  /** Round j of the rounds `RequeuesAll` describes. */
  lemma {:induction false} RequeuesAllAt(responses: seq<seq<Json>>, sent: seq<seq<Doc>>, requeued: seq<seq<Doc>>, j: nat)
    requires RequeuesAll(responses, sent, requeued)
    requires j < |responses|
    ensures Requeues(responses[j], sent[j], requeued[j])
    decreases |responses|
  {
    var n := |responses| - 1;
    if j < n {
      RequeuesAllAt(responses[..n], sent[..n], requeued[..n], j);
    }
  }

  /** No record has field `f`. */
  predicate Lacks(docs: seq<Doc>, f: string) {
    forall i :: 0 <= i < |docs| ==> f !in docs[i]
  }

  /** A transform that adds a new field `f` to every record: the update
      stage writes, for each drained record in order, only its `_id` and
      `f`. */
  lemma {:induction false} UpdatedAddsField(func: seq<Doc> -> seq<Doc>, batches: seq<seq<Doc>>, f: string,
                                            score: Doc -> Json)
    requires forall b :: |func(b)| == |b|
    requires forall b :: func(b) == AddField(b, f, score)
    requires f != IdField && Lacks(Concat(batches), f)
    ensures Updated(func, batches) == ScoredAll(Concat(batches), f, score)
    decreases |batches|
  {
    if batches != [] {
      var init, b := batches[..|batches| - 1], batches[|batches| - 1];
      assert batches == init + [b];
      ConcatAppend(init, b);
      UpdatedAppend(func, init, b);
      assert Lacks(Concat(init), f) && Lacks(b, f) by {
        assert forall i :: 0 <= i < |Concat(init)| ==> Concat(init)[i] == Concat(batches)[i];
        assert forall k :: 0 <= k < |b| ==> b[k] == Concat(batches)[|Concat(init)| + k];
      }
      UpdatedAddsField(func, init, f, score);
      BatchAddsField(func, b, f, score);
      ScoredAllAppend(Concat(init), b, f, score);
    }
  }

  /** One batch of `UpdatedAddsField`. */
  lemma BatchAddsField(func: seq<Doc> -> seq<Doc>, b: seq<Doc>, f: string, score: Doc -> Json)
    requires forall b :: |func(b)| == |b|
    requires forall b :: func(b) == AddField(b, f, score)
    requires f != IdField && Lacks(b, f)
    ensures Postprocess(func(b), KeysOf(b)).value == ScoredAll(b, f, score)
  {
    var p := Postprocess(func(b), KeysOf(b)).value;
    forall k | 0 <= k < |b|
      ensures p[k] == Scored(b[k], f, score)
    {
      assert p[k] == Strip(func(b)[k], b[k].Keys);
      StripAddedField(b[k], f, score(b[k]));
    }
  }

  lemma UpdatedAppend(func: seq<Doc> -> seq<Doc>, batches: seq<seq<Doc>>, batch: seq<Doc>)
    requires forall b :: |func(b)| == |b|
    ensures Updated(func, batches + [batch]) == Updated(func, batches) + Postprocess(func(batch), KeysOf(batch)).value
  {
    assert (batches + [batch])[..|batches|] == batches;
  }

  /** One push round keeps the balance between what entered and what left
      the push queue. */
  lemma QueueBalance(start: seq<Doc>, requeued: seq<Doc>, sent: seq<Doc>, before: seq<Doc>,
                     failed: seq<Doc>, batch: seq<Doc>, after: seq<Doc>)
    requires start + requeued == sent + before
    requires before + failed == batch + after
    ensures start + (requeued + failed) == (sent + batch) + after
  {
    calc {
      start + (requeued + failed);
      (start + requeued) + failed;
      (sent + before) + failed;
      sent + (before + failed);
      sent + (batch + after);
    }
  }

  /** The reported failures of one more bulk update. */
  lemma TotalLengthNext(responses: seq<seq<Json>>, i: nat)
    requires i < |responses|
    ensures TotalLength(responses[..i + 1]) == TotalLength(responses[..i]) + |responses[i]|
  {
    assert responses[..i + 1] == responses[..i] + [responses[i]];
    TotalLengthAppend(responses[..i], responses[i]);
  }

  function TotalLength(s: seq<seq<Json>>): (n: nat) {
    if s == [] then 0 else |s[0]| + TotalLength(s[1..])
  }

  lemma {:induction false} TotalLengthAppend(s: seq<seq<Json>>, x: seq<Json>)
    ensures TotalLength(s + [x]) == TotalLength(s) + |x|
  {
    if s != [] {
      TotalLengthAppend(s[1..], x);
      assert (s + [x])[1..] == s[1..] + [x];
    }
  }
}
