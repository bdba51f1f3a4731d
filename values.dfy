/** Values shared by every part of the model: JSON documents as the remote
    store returns them, the Python exceptions the modelled code raises, and
    the filter objects the store accepts. */
module Values {

  /** A JSON value. Objects are maps: the model does not keep the insertion
      order of Python dictionaries. */
  datatype Json =
    | JNull
    | JBool(b: bool)
    | JInt(i: int)
    | JFloat(f: real)
    | JStr(s: string)
    | JArr(items: seq<Json>)
    | JObj(fields: map<string, Json>)

  /** A record of the document store: field name to value; `_id` identifies it. */
  type Doc = map<string, Json>

  const IdField: string := "_id"

  /** Python's `d.get(key)`: the value, or None (JSON null) when absent. */
  function Get(d: Doc, key: string): (v: Json)
    ensures key in d ==> v == d[key]
    ensures key !in d ==> v == JNull
  {
    if key in d then d[key] else JNull
  }

  function Min(a: int, b: int): (m: int) {
    if a <= b then a else b
  }

  function Max(a: int, b: int): (m: int) {
    if a >= b then a else b
  }

  /** The exceptions the modelled code raises, by Python class. */
  datatype Error =
    | ValueError
    | TypeError
    | KeyError
    | IndexError
    | AttributeError
    | ZeroDivisionError
    | NotImplementedError
    | QueueEmpty

  datatype Option<+T> = None | Some(value: T)

  datatype Result<+T> = Ok(value: T) | Err(error: Error)

  /** A filter object sent to the store. `Condition` and `AnyOf` are built by
      the modelled code itself; `Built` stands for the list a helper that is
      not part of this model (`create_filter`, `_build_filters`) returns for a
      filter type, its values and the field it applies to. */
  datatype Filter =
    | Condition(field: string, filterType: string, condition: string, conditionValue: string)
    | AnyOf(conditions: seq<Filter>)
    | Built(filterType: string, values: seq<string>, field: string)

  /** `sub` is `s` with some elements dropped, the rest kept in order. */
  predicate IsSubsequence<T(==)>(sub: seq<T>, s: seq<T>) {
    if sub == [] then true
    else if s == [] then false
    else if sub[0] == s[0] then IsSubsequence(sub[1..], s[1..])
    else IsSubsequence(sub, s[1..])
  }
}
