/** JSON values, and the reducers that fold writes into state channels.

    Absent, `nil` and `null` values are one value, `Null`, as the fold treats them. */
module Values {

  datatype Option<+T> = None | Some(value: T)

  datatype Json =
    | Null
    | Bool(b: bool)
    | Num(n: real)
    | Str(s: string)
    | Arr(elems: seq<Json>)
    | Obj(fields: map<string, Json>)

  datatype Reducer = Replace | Append | Merge | Sum | UnknownReducer(name: string)

  /** Folds delta into cur; None is the reducer's error. */
  function Reduce(r: Reducer, cur: Json, delta: Json): (v: Option<Json>)
    ensures v.Some? && Fits(r, cur) ==> Fits(r, v.value)
    ensures Fits(r, cur) ==> (v.Some? <==> Accepts(r, delta))
  {
    match r
    case Replace => Some(delta)
    case Append => ReduceAppend(cur, delta)
    case Merge => ReduceMerge(cur, delta)
    case Sum => ReduceSum(cur, delta)
    case UnknownReducer(_) => None
  }

  function ReduceAppend(cur: Json, delta: Json): Option<Json> {
    if !cur.Null? && !cur.Arr? then None
    else
      var list := if cur.Null? then [] else cur.elems;
      var items := if delta.Arr? then delta.elems else if delta.Null? then [] else [delta];
      Some(Arr(list + items))
  }

  function ReduceMerge(cur: Json, delta: Json): Option<Json> {
    if !cur.Null? && !cur.Obj? then None
    else if !delta.Obj? then None
    else
      var obj := if cur.Null? then map[] else cur.fields;
      Some(Obj(obj + delta.fields))
  }

  /** The merge as a loop over the fields of the delta, in any order. */
  method MergeFields(obj: map<string, Json>, delta: map<string, Json>) returns (merged: map<string, Json>)
    ensures ReduceMerge(Obj(obj), Obj(delta)) == Some(Obj(merged))
  {
    merged := obj;
    var rest := delta.Keys;
    while rest != {}
      invariant rest <= delta.Keys
      invariant merged == obj + (map k | k in delta && k !in rest :: delta[k])
    {
      var k :| k in rest;
      merged := merged[k := delta[k]];
      rest := rest - {k};
    }
    assert (map k | k in delta && k !in rest :: delta[k]) == delta;
  }

  /** A null delta decodes as the number 0. */
  function ReduceSum(cur: Json, delta: Json): Option<Json> {
    if !cur.Null? && !cur.Num? then None
    else if !delta.Null? && !delta.Num? then None
    else
      var a := if cur.Null? then 0.0 else cur.n;
      var b := if delta.Null? then 0.0 else delta.n;
      Some(Num(a + b))
  }

  /** The values a channel of reducer r holds: its type, or nothing written yet. */
  predicate Fits(r: Reducer, v: Json) {
    match r
    case Replace => true
    case Append => v.Null? || v.Arr?
    case Merge => v.Null? || v.Obj?
    case Sum => v.Null? || v.Num?
    case UnknownReducer(_) => false
  }

  /** The deltas reducer r takes, whatever the channel holds. */
  predicate Accepts(r: Reducer, delta: Json) {
    match r
    case Replace => true
    case Append => true
    case Merge => delta.Obj?
    case Sum => delta.Null? || delta.Num?
    case UnknownReducer(_) => false
  }

  function Get<K, V>(m: map<K, V>, k: K, default: V): V {
    if k in m then m[k] else default
  }
}
