/** The schema tallies, the schema cache and the argument handling of
    `sample` and `filter` in relevanceai/dataset_api/dataset_read.py. The
    store is represented by the values it returns (schema, document count,
    column names). */
module DatasetRead {
  import opened Values
  import opened Strings

  /** A schema value: a type name, a nested object (its keys, in order) or
      anything else. */
  datatype SchemaValue = SType(name: string) | SObject(keys: seq<string>) | SOther

  /** A schema: field names with their values, in the dictionary's order. */
  type Schema = seq<(string, SchemaValue)>

  const VectorDtype: string := "vector_"

  function ValuesOf(schema: Schema): (vs: seq<SchemaValue>)
    ensures |vs| == |schema|
    ensures forall i :: 0 <= i < |schema| ==> vs[i] == schema[i].1
  {
    seq(|schema|, i requires 0 <= i < |schema| => schema[i].1)
  }

  /** The dtype a schema value contributes: a type name as it is, `vector_`
      for an object whose first key is `vector`. */
  function DtypeOf(v: SchemaValue): (dtype: Option<string>)
    requires v != SObject([])
  {
    match v
    case SType(name) => Some(name)
    case SObject(keys) => if keys[0] == "vector" then Some(VectorDtype) else None
    case SOther => None
  }

  predicate NoEmptyObject(vs: seq<SchemaValue>) {
    forall i :: 0 <= i < |vs| ==> vs[i] != SObject([])
  }

  /** The dtypes of the values, in order. */
  function PossibleDtypesOf(vs: seq<SchemaValue>): (r: seq<string>)
    requires NoEmptyObject(vs)
    ensures |r| <= |vs|
  {
    if vs == [] then []
    else
      var init := PossibleDtypesOf(vs[..|vs| - 1]);
      match DtypeOf(vs[|vs| - 1])
      case Some(d) => init + [d]
      case None => init
  }

  /** A dtype is possible exactly when some schema value contributes it. */
  lemma {:induction false} PossibleDtypesMembers(vs: seq<SchemaValue>, d: string)
    requires NoEmptyObject(vs)
    ensures d in PossibleDtypesOf(vs) <==> exists i :: 0 <= i < |vs| && DtypeOf(vs[i]) == Some(d)
  {
    if vs != [] {
      var init := vs[..|vs| - 1];
      PossibleDtypesMembers(init, d);
      if exists i :: 0 <= i < |vs| && DtypeOf(vs[i]) == Some(d) {
        var i :| 0 <= i < |vs| && DtypeOf(vs[i]) == Some(d);
        if i < |vs| - 1 {
          assert DtypeOf(init[i]) == Some(d);
        }
      }
      if exists i :: 0 <= i < |init| && DtypeOf(init[i]) == Some(d) {
        var i :| 0 <= i < |init| && DtypeOf(init[i]) == Some(d);
        assert DtypeOf(vs[i]) == Some(d);
      }
    }
  }

  /** `info`'s tally: for each possible dtype, how many schema values equal
      it (Python's `list.count`). */
  function DtypeCountOf(vs: seq<SchemaValue>): (counts: map<string, nat>)
    requires NoEmptyObject(vs)
  {
    map d | d in PossibleDtypesOf(vs) :: multiset(vs)[SType(d)]
  }

  /** The tally has exactly the possible dtypes as keys. A nested `vector`
      object is never equal to the string `vector_`, so that key counts 0
      unless the schema literally holds the type name `vector_`. */
  lemma DtypeCountKeys(vs: seq<SchemaValue>, d: string)
    requires NoEmptyObject(vs)
    ensures d in DtypeCountOf(vs) <==> exists i :: 0 <= i < |vs| && DtypeOf(vs[i]) == Some(d)
    ensures d in DtypeCountOf(vs) && SType(d) !in vs ==> DtypeCountOf(vs)[d] == 0
    ensures d in DtypeCountOf(vs) && SType(d) in vs ==> DtypeCountOf(vs)[d] > 0
  {
    PossibleDtypesMembers(vs, d);
  }

  /** A schema whose only vector field is a nested object reports
      `vector_` with a count of zero. */
  lemma NestedVectorCountsZero()
    ensures DtypeCountOf([SType("text"), SObject(["vector"])]) == map["text" := 1, VectorDtype := 0]
  {
    var vs := [SType("text"), SObject(["vector"])];
    assert PossibleDtypesOf(vs[1..]) == [VectorDtype];
    assert PossibleDtypesOf(vs) == ["text", VectorDtype];
    assert multiset(vs)[SType(VectorDtype)] == 0;
  }

  /** The `get_where` request `sample` makes. */
  datatype SampleRequest = SampleRequest(pageSize: int, selectFields: seq<string>)

  /** `frac` is truthy: given and not zero. */
  predicate FracGiven(frac: Option<real>) {
    frac.Some? && frac.value != 0.0
  }

  /** `math.ceil`. */
  function Ceil(x: real): (c: int)
    ensures (c - 1) as real < x <= c as real
  {
    -((-x).Floor)
  }

  /** A fraction in [0, 1] of a count, rounded up, stays within the count. */
  lemma FractionOfCount(count: nat, f: real)
    requires 0.0 <= f <= 1.0
    ensures 0 <= Ceil(count as real * f) <= count
  {
    assert count as real * f <= count as real * 1.0;
  }

  /** A string argument is truthy: given and not empty. */
  predicate Truthy(s: Option<string>) {
    s.Some? && s.value != ""
  }

  /** The `axis` argument, a number or a name; `filter` overrides it. */
  datatype Axis = AxisNumber(n: int) | AxisName(name: string)

  /** The `get_all_documents` request `filter` makes. */
  datatype Query = Query(selectFields: seq<string>, filters: seq<Filter>)

  /** The row filter on `index` for whichever of `items`, `like`, `regex`
      comes first. */
  function RowFilter(index: string, items: Option<seq<string>>, like: Option<string>, regex: Option<string>): (f: Filter) {
    if items.Some? then Built("exact_match", items.value, index)
    else if Truthy(like) then Built("contains", [like.value], index)
    else if regex.Some? then Built("regexp", [regex.value], index)
    else Built("regexp", [], index)
  }

  /** The columns satisfying `p`, in order. */
  function Select(columns: seq<string>, p: string -> bool): (r: seq<string>)
    ensures IsSubsequence(r, columns)
    ensures forall c :: c in r <==> c in columns && p(c)
  {
    if columns == [] then []
    else if p(columns[0]) then [columns[0]] + Select(columns[1..], p)
    else
      var rest := Select(columns[1..], p);
      assert rest == [] || rest[0] in columns[1..];
      rest
  }

  /** The `axis` argument has no effect. */
  lemma FilterIgnoresAxis(r: Read, index: Option<string>, items: Option<seq<string>>, like: Option<string>,
                          regex: Option<string>, a1: Axis, a2: Axis, columns: seq<string>,
                          regexMatch: (string, string) -> bool)
    ensures r.Filter(index, items, like, regex, a1, columns, regexMatch)
         == r.Filter(index, items, like, regex, a2, columns, regexMatch)
  {
  }

  /** `n` defaults to 1, so giving only a non-zero `frac` is refused. */
  lemma FracAloneRefused(r: Read, f: real, selectFields: seq<string>, count: nat)
    requires f != 0.0
    ensures r.Sample(1, Some(f), selectFields, count) == Err(ValueError)
  {
  }

  /** A dataset's read interface: its stored field list, and the schema
      cached after the first fetch. */
  class Read {
    const datasetId: string
    const fields: seq<string>
    var schemaCache: Option<Schema>
    var schemaFetches: nat

    /** The schema is fetched at most once. */
    predicate Valid()
      reads this
    {
      schemaFetches == if schemaCache.Some? then 1 else 0
    }

    constructor(datasetId: string, fields: seq<string>)
      ensures this.datasetId == datasetId && this.fields == fields
      ensures schemaCache == None && Valid()
    {
      this.datasetId := datasetId;
      this.fields := fields;
      schemaCache := None;
      schemaFetches := 0;
    }

    /** `_get_schema`: `remote` is what the store would return. */
    method GetSchema(remote: Schema) returns (s: Schema)
      requires Valid()
      modifies this
      ensures Valid()
      ensures old(schemaCache).Some? ==> s == old(schemaCache).value && schemaCache == old(schemaCache)
      ensures old(schemaCache).None? ==> s == remote && schemaCache == Some(remote)
    {
      if schemaCache.Some? {
        return schemaCache.value;
      }
      schemaCache := Some(remote);
      schemaFetches := schemaFetches + 1;
      return remote;
    }

    /** `_get_possible_dtypes`: an object with no keys has no first key
        (IndexError). */
    method PossibleDtypes(schema: Schema) returns (r: Result<seq<string>>)
      ensures r.Err? <==> !NoEmptyObject(ValuesOf(schema))
      ensures r.Err? ==> r.error == IndexError
      ensures r.Ok? ==> r.value == PossibleDtypesOf(ValuesOf(schema))
    {
      var vs := ValuesOf(schema);
      var possible: seq<string> := [];
      for i := 0 to |vs|
        invariant NoEmptyObject(vs[..i])
        invariant possible == PossibleDtypesOf(vs[..i])
      {
        assert vs[..i + 1][..i] == vs[..i];
        if vs[i] == SObject([]) {
          return Err(IndexError);
        }
        match vs[i]
        case SType(name) =>
          possible := possible + [name];
        case SObject(keys) =>
          if keys[0] == "vector" {
            possible := possible + [VectorDtype];
          }
        case SOther =>
      }
      assert vs[..|vs|] == vs;
      return Ok(possible);
    }

    /** `_get_dtype_count`. */
    method DtypeCount(schema: Schema) returns (r: Result<map<string, nat>>)
      ensures r.Err? <==> !NoEmptyObject(ValuesOf(schema))
      ensures r.Err? ==> r.error == IndexError
      ensures r.Ok? ==> r.value == DtypeCountOf(ValuesOf(schema))
    {
      var possible := PossibleDtypes(schema);
      if possible.Err? {
        return Err(possible.error);
      }
      var vs := ValuesOf(schema);
      return Ok(map d | d in possible.value :: multiset(vs)[SType(d)]);
    }
  

    /** The validation at the top of `sample` and the `get_where` request it
        leads to. `count` is the number of matching documents the store
        reports. A `frac` of 0.0 is falsy, and so is an `n` of 0; since `n`
        defaults to 1, a `frac` alone is refused. */
    function Sample(n: int, frac: Option<real>, selectFields: seq<string>, count: nat): (r: Result<SampleRequest>)
      ensures r.Err? <==> FracGiven(frac) && (n != 0 || frac.value > 1.0 || frac.value < 0.0)
      ensures r.Err? ==> r.error == ValueError
      ensures r.Ok? ==> r.value.selectFields == if selectFields == [] then fields else selectFields
      ensures r.Ok? && !FracGiven(frac) ==> r.value.pageSize == n
      ensures r.Ok? && FracGiven(frac) ==>
        && 0 <= r.value.pageSize <= count
        && (r.value.pageSize - 1) as real < count as real * frac.value <= r.value.pageSize as real
    {
      var select := if selectFields == [] && fields != [] then fields else selectFields;
      if FracGiven(frac) && n != 0 then Err(ValueError)
      else if FracGiven(frac) then
        var f := frac.value;
        if f > 1.0 || f < 0.0 then Err(ValueError)
        else
          FractionOfCount(count, f);
          Ok(SampleRequest(Ceil(count as real * f), select))
      else Ok(SampleRequest(n, select))
    }

    /** `filter`: which fields to select and which row filters to apply.
        `columns` are the schema's field names, and `regexMatch(regex, c)`
        is the regular-expression match. */
    function Filter(index: Option<string>, items: Option<seq<string>>, like: Option<string>, regex: Option<string>,
                    axis: Axis, columns: seq<string>, regexMatch: (string, string) -> bool): (r: Result<Query>)
      ensures r.Err? <==> items.None? && !Truthy(like) && !Truthy(regex)
      ensures r.Err? ==> r.error == TypeError
      ensures r.Ok? ==> |r.value.filters| == 1 && r.value.filters[0].AnyOf?
      ensures r.Ok? && Truthy(index) ==>
        && r.value.selectFields == []
        && r.value.filters[0].conditions == [RowFilter(index.value, items, like, regex)]
      ensures r.Ok? && !Truthy(index) ==>
        && r.value.filters[0].conditions == []
        && (items.Some? ==> r.value.selectFields == items.value)
        && (items.None? && Truthy(like) ==>
              IsSubsequence(r.value.selectFields, columns)
              && forall c :: c in r.value.selectFields <==> c in columns && Contains(c, like.value))
        && (items.None? && !Truthy(like) ==>
              IsSubsequence(r.value.selectFields, columns)
              && forall c :: c in r.value.selectFields <==> c in columns && regexMatch(regex.value, c))
    {
      var rows := Truthy(index);
      var idx := if rows then index.value else IdField;
      if items.None? && !Truthy(like) && !Truthy(regex) then Err(TypeError)
      else if rows then Ok(Query([], [AnyOf([RowFilter(idx, items, like, regex)])]))
      else
        var fields :=
          if items.Some? then items.value
          else if Truthy(like) then Select(columns, c => Contains(c, like.value))
          else Select(columns, c => regexMatch(regex.value, c));
        Ok(Query(fields, [AnyOf([])]))
    }
  }

}
