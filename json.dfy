/** JavaScript values as they travel in tool results and data-stream parts, with JavaScript truthiness. */
module Json {
  import opened Wrappers

  datatype JsonValue =
    | JNull
    | JBool(b: bool)
    | JNumber(n: int)
    | JString(s: string)
    | JArray(items: seq<JsonValue>)
    | JObject(fields: seq<(string, JsonValue)>)

  /** `!!v`: null, false, 0 and "" are falsy; arrays and objects are truthy. */
  predicate Truthy(v: JsonValue) {
    match v
    case JNull => false
    case JBool(b) => b
    case JNumber(n) => n != 0
    case JString(s) => s != ""
    case JArray(_) => true
    case JObject(_) => true
  }

  /** `v?.[key]`: the first field of an object with that key; `undefined` for anything else. */
  function Get(v: JsonValue, key: string): (r: Option<JsonValue>)
    ensures r.Some? ==> v.JObject? && exists i :: 0 <= i < |v.fields| && v.fields[i] == (key, r.value)
    ensures r.None? ==> !v.JObject? || forall i :: 0 <= i < |v.fields| ==> v.fields[i].0 != key
  {
    if !v.JObject? then None else FieldOf(v.fields, key)
  }

  function FieldOf(fields: seq<(string, JsonValue)>, key: string): (r: Option<JsonValue>)
    ensures r.Some? ==> exists i :: 0 <= i < |fields| && fields[i] == (key, r.value)
    ensures r.None? ==> forall i :: 0 <= i < |fields| ==> fields[i].0 != key
  {
    if |fields| == 0 then None
    else if fields[0].0 == key then Some(fields[0].1)
    else FieldOf(fields[1..], key)
  }

  /** What `flatMap` contributes for one callback value: an array's elements, or the value itself. */
  function Spread(v: JsonValue): (r: seq<JsonValue>)
    ensures v.JArray? ==> r == v.items
    ensures !v.JArray? ==> r == [v]
  {
    if v.JArray? then v.items else [v]
  }

  /** `xs.flatMap(f)` where each callback value has already been spread into a list. */
  function FlatMap<T, U>(xs: seq<T>, f: T -> seq<U>): (r: seq<U>)
    ensures |xs| == 0 ==> r == []
  {
    if |xs| == 0 then []
    else FlatMap(xs[..|xs| - 1], f) + f(xs[|xs| - 1])
  }

  /** An element of the result comes from some element's contribution, and every contribution is kept. */
  lemma {:induction false} FlatMapMembers<T, U>(xs: seq<T>, f: T -> seq<U>, v: U)
    ensures v in FlatMap(xs, f) <==> exists i :: 0 <= i < |xs| && v in f(xs[i])
  {
    if |xs| > 0 {
      var init := xs[..|xs| - 1];
      FlatMapMembers(init, f, v);
      if v in FlatMap(init, f) {
        var i :| 0 <= i < |init| && v in f(init[i]);
        assert xs[i] == init[i];
      }
      if exists i :: 0 <= i < |xs| && v in f(xs[i]) {
        var i :| 0 <= i < |xs| && v in f(xs[i]);
        if i < |init| {
          assert init[i] == xs[i];
        }
      }
    }
  }
}
