/** `OperationRun` (relevanceai/operations_new/ops_run.py): the chunk check
    and the filters `run` builds before handing over to the pipeline. */
module OperationRun {
  import opened Values
  import opened Records

  /** `is_chunk_valid`: a chunk that is present and not empty. */
  predicate IsChunkValid(chunk: Option<seq<Doc>>) {
    chunk.Some? && |chunk.value| > 0
  }

  /** A length-preserving transform followed by `_postprocess` never fails,
      and its result is a valid chunk exactly when the batch it came from
      is one. */
  lemma TransformedChunkValid(batch: seq<Doc>, newBatch: seq<Doc>)
    requires |newBatch| == |batch|
    ensures Postprocess(newBatch, KeysOf(batch)).Ok?
    ensures IsChunkValid(Some(Postprocess(newBatch, KeysOf(batch)).value)) <==> IsChunkValid(Some(batch))
  {
  }

  /** A `{"field": f, "filter_type": "exists", "condition": "==", ...}` per field. */
  function ExistsFilters(fields: seq<string>): (r: seq<Filter>)
    ensures |r| == |fields|
    ensures forall i :: 0 <= i < |fields| ==> r[i] == Condition(fields[i], "exists", "==", " ")
  {
    seq(|fields|, i requires 0 <= i < |fields| => Condition(fields[i], "exists", "==", " "))
  }

  /** The filter list `run` builds: the caller's filters, then one "or"
      filter requiring any selected field to exist, then, unless refreshing,
      a filter requiring the first output field to be absent. */
  method RunFilters(filters: Option<seq<Filter>>, selectFields: Option<seq<string>>,
                    outputFields: Option<seq<string>>, refresh: bool) returns (result: seq<Filter>)
    ensures var base := if filters.Some? then filters.value else [];
      var fields := if selectFields.Some? then selectFields.value else [];
      var skipDone := !refresh && outputFields.Some? && |outputFields.value| > 0;
      && |result| == |base| + (if skipDone then 2 else 1)
      && result[..|base|] == base
      && result[|base|] == AnyOf(ExistsFilters(fields))
      && (skipDone ==> result[|base| + 1] == Condition(outputFields.value[0], "exists", "!=", " "))
  {
    result := if filters.None? then [] else filters.value;
    var fields := if selectFields.None? then [] else selectFields.value;
    result := result + [AnyOf(ExistsFilters(fields))];
    if !refresh && outputFields.Some? && |outputFields.value| > 0 {
      result := result + [Condition(outputFields.value[0], "exists", "!=", " ")];
    }
  }
}
