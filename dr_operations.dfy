/** Dimensionality-reduction bookkeeping (`ReduceDimensionsOps` in
    relevanceai/operations/dr/operations.py): the model choice, the name of
    the reduced vector field, the `_dr_` metadata entry and the checks `fit`
    makes before any work. The reduction itself is not modelled. */
module ReduceDimensions {
  import opened Values
  import opened Strings

  const VectorSuffix: string := "_vector_"
  const DrVectorSuffix: string := "_dr_vector_"
  const DrMetadataField: string := "_dr_"

  /** The reduction models: the four built in by name, or an object passed in. */
  datatype DrModel = PCA | TSNE | UMAP | Ivis | Supplied(name: string)

  /** The `model` argument: a name, or a model object. */
  datatype ModelArg = ByName(name: string) | ModelObject(name: string)

  /** The model dispatch of `__init__`: names are matched after `upper()`;
      an unknown name raises ValueError. */
  function ResolveModel(model: ModelArg): (r: Result<DrModel>)
    ensures model.ByName? ==> (r.Ok? <==> Upper(model.name) in {"PCA", "TSNE", "UMAP", "IVIS"})
    ensures model.ByName? && r.Err? ==> r.error == ValueError
    ensures model.ModelObject? ==> r == Ok(Supplied(model.name))
  {
    match model
    case ModelObject(name) => Ok(Supplied(name))
    case ByName(name) =>
      var algorithm := Upper(name);
      if algorithm == "PCA" then Ok(PCA)
      else if algorithm == "TSNE" then Ok(TSNE)
      else if algorithm == "UMAP" then Ok(UMAP)
      else if algorithm == "IVIS" then Ok(Ivis)
      else Err(ValueError)
  }

  /** Names are matched without regard to letter case. */
  lemma ResolveModelIgnoresCase(name: string)
    ensures ResolveModel(ByName(name)) == ResolveModel(ByName(Upper(name)))
  {
    UpperIdempotent(name);
  }

  /** Each field with every `_vector_` removed. */
  function Cleaned(fields: seq<string>): (r: seq<string>)
    ensures |r| == |fields|
    ensures forall i :: 0 <= i < |fields| ==> r[i] == RemoveAll(fields[i], VectorSuffix)
  {
    seq(|fields|, i requires 0 <= i < |fields| => RemoveAll(fields[i], VectorSuffix))
  }

  /** `_create_vector_name`. Its `len == 1` branch comes after `len > 0`
      and is never taken, so it is left out here. */
  function CreateVectorName(fields: seq<string>): (name: string)
    ensures EndsWith(name, DrVectorSuffix) && EndsWith(name, VectorSuffix)
    ensures fields == [] ==> name == DrVectorSuffix
  {
    var name := if |fields| > 0 then Join("-", Cleaned(fields)) + DrVectorSuffix else DrVectorSuffix;
    EndsWithAppend(if |fields| > 0 then Join("-", Cleaned(fields)) else "", DrVectorSuffix);
    assert name[|name| - |VectorSuffix|..] == VectorSuffix;
    name
  }

  /** Fields that hold no `_vector_` are joined as they are. */
  lemma {:induction false} CleanFieldsJoinAsGiven(fields: seq<string>)
    requires |fields| > 0
    requires forall i :: 0 <= i < |fields| ==> !Contains(fields[i], VectorSuffix)
    ensures CreateVectorName(fields) == Join("-", fields) + DrVectorSuffix
  {
    forall i | 0 <= i < |fields|
      ensures Cleaned(fields)[i] == fields[i]
    {
      RemoveAllUnchangedIff(fields[i], VectorSuffix);
    }
    assert Cleaned(fields) == fields;
  }

  /** A single field goes through the general branch: the name is the field
      with `_vector_` removed, which differs from the field itself exactly
      when the field contains `_vector_`. */
  lemma SingleFieldName(f: string)
    ensures CreateVectorName([f]) == RemoveAll(f, VectorSuffix) + DrVectorSuffix
    ensures CreateVectorName([f]) == f + DrVectorSuffix <==> !Contains(f, VectorSuffix)
  {
    RemoveAllUnchangedIff(f, VectorSuffix);
    assert Cleaned([f]) == [RemoveAll(f, VectorSuffix)];
    if CreateVectorName([f]) == f + DrVectorSuffix {
      assert RemoveAll(f, VectorSuffix) == (f + DrVectorSuffix)[..|f|];
    }
  }

  /** An explicit alias keeps a `_vector_` ending and gets `_dr_vector_` otherwise. */
  function NormaliseAlias(alias: string): (r: string)
    ensures EndsWith(r, VectorSuffix)
    ensures r == alias <==> EndsWith(alias, VectorSuffix)
  {
    if EndsWith(alias, VectorSuffix) then alias
    else
      var r := alias + DrVectorSuffix;
      assert r[|r| - |VectorSuffix|..] == VectorSuffix;
      r
  }

  lemma NormaliseAliasIdempotent(alias: string)
    ensures NormaliseAlias(NormaliseAlias(alias)) == NormaliseAlias(alias)
  {
  }

  /** What `__init__` stores. */
  datatype Ops = Ops(
    model: DrModel,
    drField: string,
    verbose: bool,
    nComponents: int,
    datasetId: Option<string>,
    vectorFields: Option<seq<string>>,
    alias: string)

  /** `ReduceDimensionsOps.__init__`. */
  function Init(nComponents: int, model: ModelArg, drField: string, verbose: bool,
                datasetId: Option<string>, vectorFields: Option<seq<string>>, alias: Option<string>): (r: Result<Ops>)
    ensures r.Ok? <==> ResolveModel(model).Ok?
    ensures r.Err? ==> r.error == ValueError
    ensures r.Ok? ==>
      && r.value.model == ResolveModel(model).value
      && r.value.nComponents == nComponents && r.value.drField == drField && r.value.verbose == verbose
      && r.value.datasetId == datasetId && r.value.vectorFields == vectorFields
      && EndsWith(r.value.alias, VectorSuffix)
      && (alias.Some? ==> r.value.alias == NormaliseAlias(alias.value))
      && (alias.None? && vectorFields.Some? ==> r.value.alias == CreateVectorName(vectorFields.value))
      && (alias.None? && vectorFields.None? ==> r.value.alias == DrVectorSuffix)
  {
    var resolved := ResolveModel(model);
    if resolved.Err? then Err(resolved.error)
    else
      var a := if alias.Some? then NormaliseAlias(alias.value)
               else if vectorFields.Some? then CreateVectorName(vectorFields.value)
               else CreateVectorName([]);
      Ok(Ops(resolved.value, drField, verbose, nComponents, datasetId, vectorFields, a))
  }

  function FieldsJson(fields: seq<string>): (r: seq<Json>)
    ensures |r| == |fields|
    ensures forall i :: 0 <= i < |fields| ==> r[i] == JStr(fields[i])
  {
    seq(|fields|, i requires 0 <= i < |fields| => JStr(fields[i]))
  }

  /** The `{alias, vector_fields, n_components}` record stored per alias. */
  function MetadataEntry(alias: string, vectorFields: Option<seq<string>>, nComponents: int): (entry: Json) {
    JObj(map[
      "alias" := JStr(alias),
      "vector_fields" := if vectorFields.Some? then JArr(FieldsJson(vectorFields.value)) else JNull,
      "n_components" := JInt(nComponents)])
  }

  /** `_insert_metadata`. Arguments left as None fall back to the stored
      ones; with no dataset id nothing is posted (`Ok(None)`). `stored` is
      the metadata the store returns for the dataset; the result is what is
      posted back. A `_dr_` value that is not an object cannot take an item
      assignment (TypeError). */
  function InsertMetadata(ops: Ops, datasetId: Option<string>, alias: Option<string>,
                          vectorFields: Option<seq<string>>, stored: map<string, Json>): (r: Result<Option<map<string, Json>>>)
    ensures var id := if datasetId.Some? then datasetId else ops.datasetId;
      id.None? ==> r == Ok(None)
    ensures var id := if datasetId.Some? then datasetId else ops.datasetId;
      id.Some? && DrMetadataField in stored && !stored[DrMetadataField].JObj? ==> r == Err(TypeError)
    ensures r.Err? ==> r.error == TypeError
    ensures r.Ok? && r.value.Some? ==>
      var a := if alias.Some? then alias.value else ops.alias;
      var fields := if vectorFields.Some? then vectorFields else ops.vectorFields;
      var before := if DrMetadataField in stored then stored[DrMetadataField].fields else map[];
      var posted := r.value.value;
      && posted.Keys == stored.Keys + {DrMetadataField}
      && (forall k :: k in stored && k != DrMetadataField ==> posted[k] == stored[k])
      && posted[DrMetadataField].JObj?
      && posted[DrMetadataField].fields.Keys == before.Keys + {a}
      && posted[DrMetadataField].fields[a] == MetadataEntry(a, fields, ops.nComponents)
      && (forall k :: k in before && k != a ==> posted[DrMetadataField].fields[k] == before[k])
  {
    var id := if datasetId.Some? then datasetId else ops.datasetId;
    var a := if alias.Some? then alias.value else ops.alias;
    var fields := if vectorFields.Some? then vectorFields else ops.vectorFields;
    if id.None? then Ok(None)
    else if DrMetadataField in stored && !stored[DrMetadataField].JObj? then Err(TypeError)
    else
      var before := if DrMetadataField in stored then stored[DrMetadataField].fields else map[];
      Ok(Some(stored[DrMetadataField := JObj(before[a := MetadataEntry(a, fields, ops.nComponents)])]))
  }

  /** What `fit` settles before fetching documents. */
  datatype FitPlan = FitPlan(datasetId: Option<string>, vectorFields: seq<string>, alias: string, filters: seq<Filter>)

  /** The defaulting and validation at the top of `fit`, and the `exists`
      filter it appends per vector field. No vector fields, or an alias equal
      to one of them, raise ValueError. */
  method PlanFit(ops: Ops, datasetId: Option<string>, vectorFields: Option<seq<string>>,
                 alias: Option<string>, filters: Option<seq<Filter>>) returns (r: Result<FitPlan>)
    ensures var fields := if vectorFields.Some? then vectorFields else ops.vectorFields;
      var a := if alias.Some? then alias.value else ops.alias;
      r.Err? <==> fields.None? || fields.value == [] || a in fields.value
    ensures r.Err? ==> r.error == ValueError
    ensures r.Ok? ==>
      var base := if filters.Some? then filters.value else [];
      && r.value.datasetId == (if datasetId.Some? then datasetId else ops.datasetId)
      && Some(r.value.vectorFields) == (if vectorFields.Some? then vectorFields else ops.vectorFields)
      && r.value.alias == (if alias.Some? then alias.value else ops.alias)
      && |r.value.filters| == |base| + |r.value.vectorFields|
      && r.value.filters[..|base|] == base
      && (forall i :: 0 <= i < |r.value.vectorFields| ==>
            r.value.filters[|base| + i] == Built("exists", [], r.value.vectorFields[i]))
  {
    var fs := if filters.None? then [] else filters.value;
    var id := if datasetId.None? then ops.datasetId else datasetId;
    var fields := if vectorFields.None? then ops.vectorFields else vectorFields;
    var a := if alias.None? then ops.alias else alias.value;
    if fields.None? || fields.value == [] {
      return Err(ValueError);
    }
    var vfs := fields.value;
    for i := 0 to |vfs|
      invariant a !in vfs[..i]
    {
      if a == vfs[i] {
        return Err(ValueError);
      }
    }
    assert vfs[..|vfs|] == vfs;
    ghost var base := fs;
    for i := 0 to |vfs|
      invariant |fs| == |base| + i && fs[..|base|] == base
      invariant forall j :: 0 <= j < i ==> fs[|base| + j] == Built("exists", [], vfs[j])
    {
      fs := fs + [Built("exists", [], vfs[i])];
    }
    r := Ok(FitPlan(id, vfs, a, fs));
  }
}
