/**
 * Decoded JSON values and the Python operations that core/vk_client.py applies
 * to them: truthiness, `key in x`, `x[key]`, `dict.get` and iteration. An
 * operation that raises in Python gives None here.
 */
module PyJson {
  import opened Wrappers

  /** A decoded JSON value; an object keeps its keys in insertion order. */
  datatype Json =
    | JNull
    | JBool(b: bool)
    | JInt(i: int)
    | JFloat(f: real)
    | JStr(s: string)
    | JArray(elems: seq<Json>)
    | JObject(fields: seq<(string, Json)>)

  /** Python truthiness: null, false, zero and empty containers are false. */
  predicate Truthy(j: Json) {
    match j
    case JNull => false
    case JBool(b) => b
    case JInt(i) => i != 0
    case JFloat(f) => f != 0.0
    case JStr(s) => s != []
    case JArray(e) => e != []
    case JObject(fs) => fs != []
  }

  /** The value of the first field named `key`, if any. */
  function Lookup(fields: seq<(string, Json)>, key: string): (r: Option<Json>)
    ensures r.None? <==> forall k :: 0 <= k < |fields| ==> fields[k].0 != key
    ensures r.Some? ==> exists k :: 0 <= k < |fields| && fields[k] == (key, r.value)
  {
    if |fields| == 0 then None
    else if fields[0].0 == key then Some(fields[0].1)
    else Lookup(fields[1..], key)
  }

  /** `t` occurs in `s` as a contiguous run. */
  predicate IsSubstring(t: string, s: string)
    decreases |s|
  {
    t <= s || (|s| > 0 && IsSubstring(t, s[1..]))
  }

  /** Python `key in container` for a string key; None when Python raises TypeError. */
  function In(key: string, container: Json): (r: Option<bool>)
    ensures container.JObject? ==> r == Some(Lookup(container.fields, key).Some?)
    ensures container.JArray? ==> r == Some(JStr(key) in container.elems)
    ensures container.JStr? ==> r == Some(IsSubstring(key, container.s))
    ensures r.None? <==> !(container.JObject? || container.JArray? || container.JStr?)
  {
    match container
    case JObject(fs) => Some(Lookup(fs, key).Some?)
    case JArray(es) => Some(JStr(key) in es)
    case JStr(s) => Some(IsSubstring(key, s))
    case _ => None
  }

  /** Python `container[key]` for a string key; None on KeyError or TypeError. */
  function Subscript(container: Json, key: string): (r: Option<Json>)
    ensures r.Some? ==> container.JObject? && Lookup(container.fields, key) == r
    ensures container.JObject? ==> r == Lookup(container.fields, key)
  {
    match container
    case JObject(fs) => Lookup(fs, key)
    case _ => None
  }

  /** Python `container.get(key, default)`; None on AttributeError (not a dict). */
  function Get(container: Json, key: string, default: Json): (r: Option<Json>)
    ensures r.Some? <==> container.JObject?
    ensures container.JObject? && Lookup(container.fields, key).None? ==> r == Some(default)
    ensures container.JObject? && Lookup(container.fields, key).Some? ==> r == Lookup(container.fields, key)
  {
    match container
    case JObject(fs) =>
      (match Lookup(fs, key)
       case Some(v) => Some(v)
       case None => Some(default))
    case _ => None
  }

  /** The keys of an object, as a `for` loop yields them. */
  function Keys(fields: seq<(string, Json)>): (r: seq<Json>)
    ensures |r| == |fields| && forall k :: 0 <= k < |fields| ==> r[k] == JStr(fields[k].0)
  {
    seq(|fields|, k requires 0 <= k < |fields| => JStr(fields[k].0))
  }

  /** The one-character strings of a string, as a `for` loop yields them. */
  function Chars(s: string): (r: seq<Json>)
    ensures |r| == |s| && forall k :: 0 <= k < |s| ==> r[k] == JStr([s[k]])
  {
    seq(|s|, k requires 0 <= k < |s| => JStr([s[k]]))
  }

  /** What `for x in j` visits; None when Python raises TypeError (not iterable). */
  function Iter(j: Json): (r: Option<seq<Json>>)
    ensures j.JArray? ==> r == Some(j.elems)
    ensures j.JObject? ==> r == Some(Keys(j.fields))
    ensures j.JStr? ==> r == Some(Chars(j.s))
    ensures r.None? <==> !(j.JObject? || j.JArray? || j.JStr?)
  {
    match j
    case JArray(es) => Some(es)
    case JObject(fs) => Some(Keys(fs))
    case JStr(s) => Some(Chars(s))
    case _ => None
  }
}
