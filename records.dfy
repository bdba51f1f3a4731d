/** Pure record operations of the pipeline: stripping already-present fields
    after the transform (`PullUpdatePush._postprocess`) and picking the failed
    records out of a pushed batch (`_handle_failed_documents`). */
module Records {
  import opened Values

  /** The field names each record had before the transform (`old_keys`). */
  function KeysOf(batch: seq<Doc>): (keys: seq<set<string>>)
    ensures |keys| == |batch|
    ensures forall i :: 0 <= i < |batch| ==> keys[i] == batch[i].Keys
  {
    seq(|batch|, i requires 0 <= i < |batch| => batch[i].Keys)
  }

  /** One record of `_postprocess`: keep the fields whose name was not there
      before, and `_id`. */
  function Strip(d: Doc, oldKeys: set<string>): (r: Doc)
    ensures forall k :: k in r <==> k in d && (k !in oldKeys || k == IdField)
    ensures forall k :: k in r ==> r[k] == d[k]
  {
    map k | k in d && (k !in oldKeys || k == IdField) :: d[k]
  }

  /** `_postprocess(new_batch, old_keys)`. Record i is filtered against
      `old_keys[i]`; a record beyond the end of `old_keys` raises IndexError
      as soon as one of its fields is tested, so only an empty one gets
      through. */
  function Postprocess(newBatch: seq<Doc>, oldKeys: seq<set<string>>): (r: Result<seq<Doc>>)
    ensures r.Ok? <==> forall i :: |oldKeys| <= i < |newBatch| ==> newBatch[i] == map[]
    ensures r.Err? ==> r.error == IndexError
    ensures r.Ok? ==> |r.value| == |newBatch|
    ensures r.Ok? ==> forall i, k :: 0 <= i < |newBatch| ==>
      (k in r.value[i] <==> k in newBatch[i] && (i >= |oldKeys| || k !in oldKeys[i] || k == IdField))
    ensures r.Ok? ==> forall i, k :: 0 <= i < |newBatch| && k in r.value[i] ==> r.value[i][k] == newBatch[i][k]
  {
    if exists i :: |oldKeys| <= i < |newBatch| && newBatch[i] != map[] then Err(IndexError)
    else Ok(seq(|newBatch|, i requires 0 <= i < |newBatch| =>
                if i < |oldKeys| then Strip(newBatch[i], oldKeys[i]) else newBatch[i]))
  }

  /** Stripping again against the same key sets changes nothing. */
  lemma PostprocessIdempotent(newBatch: seq<Doc>, oldKeys: seq<set<string>>)
    requires Postprocess(newBatch, oldKeys).Ok?
    ensures Postprocess(Postprocess(newBatch, oldKeys).value, oldKeys) == Postprocess(newBatch, oldKeys)
  {
    var once := Postprocess(newBatch, oldKeys).value;
    var twice := Postprocess(once, oldKeys);
    assert twice.Ok?;
    forall i | 0 <= i < |once|
      ensures twice.value[i] == once[i]
    {
      assert twice.value[i].Keys == once[i].Keys;
    }
    assert twice.value == once;
  }

  /** `_postprocess` of one record that gained the new field `f`. */
  lemma StripAddedField(d: Doc, f: string, v: Json)
    requires f != IdField && f !in d
    ensures Strip(d[f := v], d.Keys) == (if IdField in d then map[IdField := d[IdField], f := v] else map[f := v])
  {
    var expected := if IdField in d then map[IdField := d[IdField], f := v] else map[f := v];
    assert Strip(d[f := v], d.Keys).Keys == expected.Keys;
  }

  /** A transform that only adds field `f` to a record leaves exactly `f`
      and the record's `_id` in the written payload. */
  lemma PostprocessKeepsOnlyNewField(before: Doc, f: string, v: Json)
    requires f !in before
    ensures var r := Postprocess([before[f := v]], KeysOf([before]));
      r.Ok? && r.value[0] == (if IdField in before then map[IdField := before[IdField], f := v] else map[f := v])
  {
    var r := Postprocess([before[f := v]], KeysOf([before]));
    assert r.Ok? && r.value[0] == Strip(before[f := v], before.Keys);
    if f != IdField {
      StripAddedField(before, f, v);
    }
  }

  /** Every record of the batch has an `_id` field. */
  predicate AllIdentified(batch: seq<Doc>) {
    forall i :: 0 <= i < |batch| ==> IdField in batch[i]
  }

  /** `[d for d in batch if d["_id"] in failed_ids]`. */
  function Failed(batch: seq<Doc>, ids: set<Json>): (failed: seq<Doc>)
    requires AllIdentified(batch)
  {
    if batch == [] then []
    else if batch[0][IdField] in ids then [batch[0]] + Failed(batch[1..], ids)
    else Failed(batch[1..], ids)
  }

  /** The records of the batch whose `_id` was not reported. */
  function Succeeded(batch: seq<Doc>, ids: set<Json>): (succeeded: seq<Doc>)
    requires AllIdentified(batch)
  {
    if batch == [] then []
    else if batch[0][IdField] in ids then Succeeded(batch[1..], ids)
    else [batch[0]] + Succeeded(batch[1..], ids)
  }

  /** The failed records are exactly the batch records with a reported id. */
  lemma {:induction false} FailedMembers(batch: seq<Doc>, ids: set<Json>, d: Doc)
    requires AllIdentified(batch)
    ensures d in Failed(batch, ids) <==> d in batch && d[IdField] in ids
  {
    if batch != [] {
      FailedMembers(batch[1..], ids, d);
      assert batch == [batch[0]] + batch[1..];
    }
  }

  /** Failed and succeeded records split the batch: together they are a
      permutation of it, and the failed ones never outnumber it. */
  lemma {:induction false} FailedPartition(batch: seq<Doc>, ids: set<Json>)
    requires AllIdentified(batch)
    ensures multiset(Failed(batch, ids)) + multiset(Succeeded(batch, ids)) == multiset(batch)
    ensures |Failed(batch, ids)| + |Succeeded(batch, ids)| == |batch|
  {
    if batch != [] {
      FailedPartition(batch[1..], ids);
      assert batch == [batch[0]] + batch[1..];
    }
  }

  /** The failed records keep their batch order: they are the batch with the
      succeeded records taken out, a subsequence of it. */
  lemma {:induction false} FailedInBatchOrder(batch: seq<Doc>, ids: set<Json>)
    requires AllIdentified(batch)
    ensures IsSubsequence(Failed(batch, ids), batch)
  {
    if batch != [] {
      FailedInBatchOrder(batch[1..], ids);
      var rest := Failed(batch[1..], ids);
      if batch[0][IdField] !in ids && rest != [] {
        FailedMembers(batch[1..], ids, rest[0]);
        assert rest[0] != batch[0];
      }
    }
  }
}
