/** Decoded JSON values and the Python `dict` operations the bot applies to them.
    A dict is an insertion-ordered sequence of key/value pairs. */
module Json {
  import opened Wrappers

  /** A value produced by `json.loads` (JSON numbers with a fraction are not modelled). */
  datatype Json =
    | JNull
    | JBool(b: bool)
    | JInt(i: int)
    | JStr(s: string)
    | JArray(items: seq<Json>)
    | JObject(fields: seq<(string, Json)>)

  /** Python `k in d` for a dict. */
  predicate HasKey<V>(d: seq<(string, V)>, k: string) {
    exists i :: 0 <= i < |d| && d[i].0 == k
  }

  /** The keys of a dict, in order. */
  function Keys<V>(d: seq<(string, V)>): (ks: seq<string>)
    ensures |ks| == |d| && forall i :: 0 <= i < |d| ==> ks[i] == d[i].0
  {
    if d == [] then [] else Keys(d[..|d| - 1]) + [d[|d| - 1].0]
  }

  /** A key is present iff it is among the keys. */
  lemma KeysHasKey<V>(d: seq<(string, V)>, k: string)
    ensures k in Keys(d) <==> HasKey(d, k)
  {
    var ks := Keys(d);
    if k in ks {
      var i :| 0 <= i < |ks| && ks[i] == k;
      assert d[i].0 == k;
    }
    if HasKey(d, k) {
      var i :| 0 <= i < |d| && d[i].0 == k;
      assert ks[i] == k;
    }
  }

  /** Python `d.get(k)`: the value stored under `k`; the last pair wins, as in `json.loads`. */
  function Get<V>(d: seq<(string, V)>, k: string): (r: Option<V>)
    ensures r.Some? <==> HasKey(d, k)
    ensures r.Some? ==> exists i :: 0 <= i < |d| && d[i] == (k, r.value)
  {
    if d == [] then None
    else if d[|d| - 1].0 == k then Some(d[|d| - 1].1)
    else
      var r := Get(d[..|d| - 1], k);
      assert HasKey(d, k) ==> HasKey(d[..|d| - 1], k) by {
        if HasKey(d, k) {
          var i :| 0 <= i < |d| && d[i].0 == k;
          assert d[..|d| - 1][i].0 == k;
        }
      }
      r
  }

  /** Looking a key up past a last pair with another key. */
  lemma GetSkipLast<V>(d: seq<(string, V)>, k: string)
    requires d != []
    ensures Get(d, k) == if d[|d| - 1].0 == k then Some(d[|d| - 1].1) else Get(d[..|d| - 1], k)
  {
  }

  /** Every value stored under `k` replaced by `v`. */
  function Replace<V>(d: seq<(string, V)>, k: string, v: V): (r: seq<(string, V)>)
    ensures |r| == |d|
    ensures forall i :: 0 <= i < |d| ==> r[i] == if d[i].0 == k then (k, v) else d[i]
  {
    if d == [] then [] else Replace(d[..|d| - 1], k, v) + [if d[|d| - 1].0 == k then (k, v) else d[|d| - 1]]
  }

  lemma {:induction false} GetReplace<V>(d: seq<(string, V)>, k: string, v: V, k2: string)
    ensures Get(Replace(d, k, v), k2) == if k2 == k && HasKey(d, k) then Some(v) else Get(d, k2)
  {
    if d != [] {
      var r := Replace(d, k, v);
      assert r[..|r| - 1] == Replace(d[..|d| - 1], k, v);
      GetReplace(d[..|d| - 1], k, v, k2);
      if d[|d| - 1].0 != k && k2 == k && HasKey(d, k) {
        var i :| 0 <= i < |d| && d[i].0 == k;
        assert d[..|d| - 1][i].0 == k;
      }
    }
  }

  /** Python `d[k] = v`: replaces the value in place when `k` is present, appends otherwise. */
  function Put<V>(d: seq<(string, V)>, k: string, v: V): (r: seq<(string, V)>)
    ensures Get(r, k) == Some(v)
    ensures forall k2 :: k2 != k ==> Get(r, k2) == Get(d, k2)
    ensures Keys(r) == if HasKey(d, k) then Keys(d) else Keys(d) + [k]
  {
    if HasKey(d, k) then
      var r := Replace(d, k, v);
      GetReplace(d, k, v, k);
      forall k2 | k2 != k ensures Get(r, k2) == Get(d, k2) {
        GetReplace(d, k, v, k2);
      }
      r
    else
      var r := d + [(k, v)];
      assert r[..|r| - 1] == d;
      r
  }

  /** Python truthiness of a decoded JSON value. */
  predicate Truthy(j: Json) {
    match j
    case JNull => false
    case JBool(b) => b
    case JInt(i) => i != 0
    case JStr(s) => s != []
    case JArray(items) => items != []
    case JObject(fields) => fields != []
  }

  /** Python `c.get(key)`: `None` (the Option) when `c` is not a dict and `.get` raises;
      `Some(JNull)` for a missing key. */
  function PyGet(c: Json, key: string): Option<Json> {
    if c.JObject? then Some(Get(c.fields, key).GetOr(JNull)) else None
  }

  /** Python `c.get(key, default)`. */
  function PyGetOr(c: Json, key: string, default: Json): Option<Json> {
    if c.JObject? then Some(Get(c.fields, key).GetOr(default)) else None
  }

  /** Python `c[key]` with a string key; `None` when Python raises. */
  function PyKey(c: Json, key: string): Option<Json> {
    if c.JObject? then Get(c.fields, key) else None
  }

  /** Python `key in c` with a string key; `None` when Python raises `TypeError`. */
  function PyIn(key: string, c: Json): Option<bool> {
    match c
    case JObject(fields) => Some(HasKey(fields, key))
    case JArray(items) => Some(JStr(key) in items)
    case JStr(s) => Some(ContainsText(s, key))
    case _ => None
  }

  /** Python `c[0]`; `None` when Python raises. */
  function PyFirst(c: Json): Option<Json> {
    match c
    case JArray(items) => if items != [] then Some(items[0]) else None
    case JStr(s) => if s != [] then Some(JStr([s[0]])) else None
    case _ => None
  }

  /** Python `sub in s` for strings. */
  predicate ContainsText(s: string, sub: string)
    decreases |s|
  {
    (|sub| <= |s| && s[..|sub|] == sub) || (s != [] && ContainsText(s[1..], sub))
  }
}
