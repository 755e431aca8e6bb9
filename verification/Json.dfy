/** JSON-like values as `json.load` and `yaml.safe_load` hand them to the
    modelled code, with Python's dict subscript and subscript-assignment. */
module Json {
  import opened Wrappers

  /** A Python dict keeps its keys in insertion order, so an object is an
      ordered sequence of members. */
  datatype Json =
    | JNull
    | JBool(b: bool)
    | JInt(i: int)
    | JReal(r: real)
    | JStr(s: string)
    | JArray(items: seq<Json>)
    | JObject(members: seq<Member>)

  datatype Member = Member(key: string, value: Json)

  function Keys(ms: seq<Member>): (ks: seq<string>)
    ensures |ks| == |ms|
    decreases ms
  {
    if ms == [] then [] else [ms[0].key] + Keys(ms[1..])
  }

  /** `d.get(k)`: the value stored under `k`, if any. */
  function Get(ms: seq<Member>, k: string): (r: Option<Json>)
    ensures r.None? <==> k !in Keys(ms)
    ensures r.Some? ==> Member(k, r.value) in ms
    decreases ms
  {
    if ms == [] then None
    else if ms[0].key == k then Some(ms[0].value)
    else Get(ms[1..], k)
  }

  /** `d[k] = v`: an existing key keeps its place and gets the new value; a new
      key is appended. No other key's value changes. */
  function Put(ms: seq<Member>, k: string, v: Json): (r: seq<Member>)
    ensures Get(r, k) == Some(v)
    ensures forall k' :: k' != k ==> Get(r, k') == Get(ms, k')
    ensures k in Keys(ms) ==> Keys(r) == Keys(ms)
    ensures k !in Keys(ms) ==> Keys(r) == Keys(ms) + [k]
    decreases ms
  {
    if ms == [] then [Member(k, v)]
    else if ms[0].key == k then
      var r := [Member(k, v)] + ms[1..];
      assert r[1..] == ms[1..];
      r
    else
      var rest := Put(ms[1..], k, v);
      var r := [ms[0]] + rest;
      assert r[1..] == rest;
      assert Keys(r) == [ms[0].key] + Keys(rest);
      assert Keys(ms) == [ms[0].key] + Keys(ms[1..]);
      r
  }

  /** `j[k]` with a string key: a dict yields the stored value or raises
      KeyError; anything else raises TypeError. */
  function Subscript(j: Json, k: string): (r: Result<Json>)
    ensures r.Ok? <==> j.JObject? && k in Keys(j.members)
    ensures r.Ok? ==> Get(j.members, k) == Some(r.value)
    ensures j.JObject? && k !in Keys(j.members) ==> r == Err(KeyError(k))
  {
    if !j.JObject? then Err(TypeError("string indices on a non-dict value"))
    else match Get(j.members, k)
      case Some(v) => Ok(v)
      case None => Err(KeyError(k))
  }
}
