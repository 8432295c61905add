/** Turning the LLM's role categorisation (category -> role names) into category -> role
    ids: names are resolved case-insensitively and every role left over goes to `Other`. */
module LlmCategorize {
  import opened Wrappers
  import opened Text
  import opened Json
  import opened Guild
  import opened LlmGuidance
  import opened LlmResponses

  /** One role sent for categorisation. */
  datatype RoleData = RoleData(id: int, name: string)

  /** Category -> role ids, in insertion order. */
  type Categories = seq<(string, seq<int>)>

  /** The function the categorisation call asks for. */
  const CATEGORIZE_FUNCTION := "categorize_server_roles"

  /** The ids of the roles sent. */
  function RoleIdSet(roles: seq<RoleData>): set<int> {
    set r | r in roles :: r.id
  }

  /** One line per role, `- name (ID: id)`. */
  function RoleListLines(roles: seq<RoleData>): (lines: seq<string>)
    ensures |lines| == |roles|
  {
    seq(|roles|, i requires 0 <= i < |roles| => "- " + roles[i].name + " (ID: " + IntToString(roles[i].id) + ")")
  }

  /** The system prompt: the admin's prompt, then the role list. */
  function CategorizationPrompt(prompt: string, roles: seq<RoleData>): (r: string)
    ensures StartsWith(r, prompt)
  {
    var r := prompt + "\n\nHere is the list " + "of roles to categorize:\n" + Join(RoleListLines(roles), "\n");
    assert r[..|prompt|] == prompt;
    r
  }

  /** `{role['name'].lower(): role['id'] for role in roles}`: a later role wins a shared name. */
  function NameToId(roles: seq<RoleData>): (m: map<string, int>)
    ensures forall n :: n in m <==> exists i :: 0 <= i < |roles| && Lower(roles[i].name) == n
    ensures forall n :: n in m ==> m[n] in RoleIdSet(roles)
    ensures roles != [] ==> m[Lower(roles[|roles| - 1].name)] == roles[|roles| - 1].id
  {
    if roles == [] then map[]
    else
      var prev := NameToId(roles[..|roles| - 1]);
      var last := roles[|roles| - 1];
      assert forall i :: 0 <= i < |roles| - 1 ==> roles[..|roles| - 1][i] == roles[i];
      assert RoleIdSet(roles[..|roles| - 1]) <= RoleIdSet(roles) by {
        forall r | r in roles[..|roles| - 1] ensures r in roles { }
      }
      prev[Lower(last.name) := last.id]
  }

  /** The ids the names of one category resolve to, in order: names that are not strings,
      that match no role or that map to id 0 (falsy) are skipped. */
  function ResolvedIds(names: seq<Json>, m: map<string, int>): (ids: seq<int>)
    ensures forall x :: x in ids ==> x != 0 && x in m.Values
    ensures forall j :: 0 <= j < |names| && names[j].JStr? && Lower(names[j].s) in m && m[Lower(names[j].s)] != 0
                        ==> m[Lower(names[j].s)] in ids
  {
    if names == [] then []
    else
      var prev := ResolvedIds(names[..|names| - 1], m);
      var last := names[|names| - 1];
      assert forall j :: 0 <= j < |names| - 1 ==> names[..|names| - 1][j] == names[j];
      if last.JStr? && Lower(last.s) in m && m[Lower(last.s)] != 0 then prev + [m[Lower(last.s)]] else prev
  }

  /** The ids one category value resolves to; a value that is not a list gives none. */
  function Resolution(v: Json, m: map<string, int>): seq<int> {
    if v.JArray? then ResolvedIds(v.items, m) else []
  }

  /** The ids of category `k` as parsed (a repeated key keeps its last value, as `json.loads` does). */
  function ResolutionOf(fields: seq<(string, Json)>, k: string, m: map<string, int>): seq<int> {
    Resolution(Get(fields, k).GetOr(JNull), m)
  }

  predicate KeyBefore(fields: seq<(string, Json)>, k: string, n: nat) {
    exists j :: 0 <= j < n && j < |fields| && fields[j].0 == k
  }

  /** The categories after the first `n` parsed entries: a category is stored only when it
      resolves to at least one id. */
  function ResolvedPrefix(fields: seq<(string, Json)>, m: map<string, int>, n: nat): Categories
    requires n <= |fields|
  {
    if n == 0 then []
    else
      var key := fields[n - 1].0;
      Store(ResolvedPrefix(fields, m, n - 1), key, ResolutionOf(fields, key, m))
  }

  /** `categorized_role_ids[category] = ids` when there are ids. */
  function Store(c: Categories, key: string, ids: seq<int>): Categories {
    if ids != [] then Put(c, key, ids) else c
  }

  lemma StoreKeepsUniqueKeys(c: Categories, key: string, ids: seq<int>)
    requires UniqueKeys(c)
    ensures UniqueKeys(Store(c, key, ids))
  {
    if ids != [] {
      PutKeepsUniqueKeys(c, key, ids);
    }
  }

  lemma StoreIds(c: Categories, key: string, ids: seq<int>, values: set<int>)
    requires AllIds(c) <= values && Elems(ids) <= values
    ensures AllIds(Store(c, key, ids)) <= values
  {
    if ids != [] {
      AllIdsPut(c, key, ids);
    }
  }

  /** A key is present iff some parsed entry has it and resolves to ids, which it then holds. */
  lemma {:induction false} ResolvedPrefixGet(fields: seq<(string, Json)>, m: map<string, int>, n: nat, k: string)
    requires n <= |fields|
    ensures Get(ResolvedPrefix(fields, m, n), k)
         == if KeyBefore(fields, k, n) && ResolutionOf(fields, k, m) != [] then Some(ResolutionOf(fields, k, m)) else None
  {
    if n > 0 {
      ResolvedPrefixGet(fields, m, n - 1, k);
      if fields[n - 1].0 == k {
        assert KeyBefore(fields, k, n);
      } else if KeyBefore(fields, k, n) {
        var j :| 0 <= j < n && j < |fields| && fields[j].0 == k;
        assert j < n - 1;
        assert KeyBefore(fields, k, n - 1);
      }
    }
  }

  /** The keys are pairwise distinct, as in any Python dict. */
  predicate UniqueKeys<V>(d: seq<(string, V)>) {
    forall i, j :: 0 <= i < j < |d| ==> d[i].0 != d[j].0
  }

  lemma PutKeepsUniqueKeys<V>(d: seq<(string, V)>, k: string, v: V)
    requires UniqueKeys(d)
    ensures UniqueKeys(Put(d, k, v))
  {
    var r := Put(d, k, v);
    assert forall i :: 0 <= i < |r| ==> r[i].0 == Keys(r)[i];
    assert forall i :: 0 <= i < |d| ==> d[i].0 == Keys(d)[i];
    if !HasKey(d, k) {
      assert forall i :: 0 <= i < |d| ==> d[i].0 != k;
    }
  }

  /** The values of a sequence, as a set. */
  function Elems(s: seq<int>): (r: set<int>)
    ensures forall x :: x in r <==> x in s
  {
    set i | 0 <= i < |s| :: s[i]
  }

  /** Every role id held in some category. */
  function AllIds(c: Categories): set<int> {
    if c == [] then {} else AllIds(c[..|c| - 1]) + Elems(c[|c| - 1].1)
  }

  lemma {:induction false} AllIdsReplace(d: Categories, k: string, v: seq<int>)
    ensures AllIds(Replace(d, k, v)) <= AllIds(d) + Elems(v)
  {
    if d != [] {
      var r := Replace(d, k, v);
      assert r[..|r| - 1] == Replace(d[..|d| - 1], k, v);
      AllIdsReplace(d[..|d| - 1], k, v);
    }
  }

  lemma AllIdsPut(d: Categories, k: string, v: seq<int>)
    ensures AllIds(Put(d, k, v)) <= AllIds(d) + Elems(v)
  {
    if HasKey(d, k) {
      AllIdsReplace(d, k, v);
    } else {
      assert Put(d, k, v)[..|d|] == d;
    }
  }

  lemma {:induction false} ReplaceAbsent(d: Categories, k: string, v: seq<int>)
    requires !HasKey(d, k)
    ensures Replace(d, k, v) == d
  {
    if d != [] {
      assert !HasKey(d[..|d| - 1], k);
      ReplaceAbsent(d[..|d| - 1], k, v);
      assert d == d[..|d| - 1] + [d[|d| - 1]];
    }
  }

  /** With distinct keys, extending the ids of one category adds exactly the new ids. */
  lemma AllIdsExtend(d: Categories, k: string, extra: seq<int>)
    requires UniqueKeys(d)
    ensures AllIds(Put(d, k, Get(d, k).GetOr([]) + extra)) == AllIds(d) + Elems(extra)
  {
    if HasKey(d, k) {
      AllIdsReplaceExtend(d, k, extra, Get(d, k).value + extra);
    } else {
      var v := [] + extra;
      assert v == extra;
      assert Put(d, k, v)[..|d|] == d;
    }
  }

  lemma {:induction false} AllIdsReplaceExtend(d: Categories, k: string, extra: seq<int>, v: seq<int>)
    requires UniqueKeys(d) && HasKey(d, k) && v == Get(d, k).value + extra
    ensures AllIds(Replace(d, k, v)) == AllIds(d) + Elems(extra)
  {
    var init := d[..|d| - 1];
    var r := Replace(d, k, v);
    assert r[..|r| - 1] == Replace(init, k, v);
    assert UniqueKeys(init);
    if d[|d| - 1].0 == k {
      assert !HasKey(init, k);
      ReplaceAbsent(init, k, v);
      assert Elems(v) == Elems(d[|d| - 1].1) + Elems(extra);
    } else {
      assert Get(d, k) == Get(init, k);
      AllIdsReplaceExtend(init, k, extra, v);
    }
  }

  /** The resolved categories have distinct keys. */
  lemma {:induction false} ResolvedPrefixUnique(fields: seq<(string, Json)>, m: map<string, int>, n: nat)
    requires n <= |fields|
    ensures UniqueKeys(ResolvedPrefix(fields, m, n))
  {
    if n > 0 {
      ResolvedPrefixUnique(fields, m, n - 1);
      var key := fields[n - 1].0;
      StoreKeepsUniqueKeys(ResolvedPrefix(fields, m, n - 1), key, ResolutionOf(fields, key, m));
    }
  }

  /** The resolved categories hold only ids some role name maps to. */
  lemma {:induction false} ResolvedPrefixIds(fields: seq<(string, Json)>, m: map<string, int>, n: nat)
    requires n <= |fields|
    ensures AllIds(ResolvedPrefix(fields, m, n)) <= m.Values
  {
    if n > 0 {
      ResolvedPrefixIds(fields, m, n - 1);
      var key := fields[n - 1].0;
      StoreIds(ResolvedPrefix(fields, m, n - 1), key, ResolutionOf(fields, key, m), m.Values);
    }
  }

  /** The inner loop over one category's names. */
  method ResolveNames(names: seq<Json>, m: map<string, int>) returns (ids: seq<int>)
    ensures ids == ResolvedIds(names, m)
  {
    ids := [];
    var i := 0;
    while i < |names|
      invariant 0 <= i <= |names|
      invariant ids == ResolvedIds(names[..i], m)
    {
      var name := names[i];
      assert names[..i + 1][..i] == names[..i];
      if name.JStr? {
        var key := Lower(name.s);
        if key in m && m[key] != 0 {
          ids := ids + [m[key]];
        }
      }
      i := i + 1;
    }
    assert names[..|names|] == names;
  }

  /** The outer loop over the parsed categories. */
  method ResolveCategories(fields: seq<(string, Json)>, m: map<string, int>) returns (r: Categories)
    ensures r == ResolvedPrefix(fields, m, |fields|)
  {
    r := [];
    var i := 0;
    while i < |fields|
      invariant 0 <= i <= |fields|
      invariant r == ResolvedPrefix(fields, m, i)
    {
      var category := fields[i].0;
      // the dict `json.loads` builds keeps the last value of a repeated key
      var roleNames := Get(fields, category).GetOr(JNull);
      if roleNames.JArray? {
        var ids := ResolveNames(roleNames.items, m);
        if ids != [] {
          r := Put(r, category, ids);
        }
      }
      i := i + 1;
    }
  }

  predicate StrictlyIncreasing(s: seq<int>) {
    forall i, j :: 0 <= i < j < |s| ==> s[i] < s[j]
  }

  /** `x` put in its place in a strictly increasing sequence, unless already there. */
  function Insert(x: int, s: seq<int>): (r: seq<int>)
    requires StrictlyIncreasing(s)
    ensures StrictlyIncreasing(r)
    ensures forall y :: y in r <==> y == x || y in s
  {
    if s == [] then [x]
    else if x < s[0] then [x] + s
    else if x == s[0] then s
    else
      var rest := Insert(x, s[1..]);
      assert forall y :: y in s[1..] ==> s[0] < y;
      ConsIncreasing(s[0], rest);
      [s[0]] + rest
  }

  lemma ConsIncreasing(a: int, rest: seq<int>)
    requires StrictlyIncreasing(rest) && forall y :: y in rest ==> a < y
    ensures StrictlyIncreasing([a] + rest)
  {
    var s := [a] + rest;
    forall i, j | 0 <= i < j < |s| ensures s[i] < s[j] {
      assert s[j] == rest[j - 1] && rest[j - 1] in rest;
      if i > 0 {
        assert s[i] == rest[i - 1];
      }
    }
  }

  /** `sorted(set(xs))`: the distinct values of `xs` in ascending order. */
  function SortedDistinct(xs: seq<int>): (r: seq<int>)
    ensures StrictlyIncreasing(r)
    ensures forall y :: y in r <==> y in xs
  {
    if xs == [] then []
    else
      var prev := SortedDistinct(xs[..|xs| - 1]);
      assert xs == xs[..|xs| - 1] + [xs[|xs| - 1]];
      Insert(xs[|xs| - 1], prev)
  }

  /** The ids of the roles not yet placed to a category, ascending. */
  function Unassigned(roles: seq<RoleData>, placed: set<int>): (r: seq<int>)
    ensures StrictlyIncreasing(r)
    ensures forall y :: y in r <==> y in RoleIdSet(roles) && y !in placed
  {
    SortedDistinct(UnplacedIds(roles, placed))
  }

  function UnplacedIds(roles: seq<RoleData>, placed: set<int>): (r: seq<int>)
    ensures forall y :: y in r <==> y in RoleIdSet(roles) && y !in placed
  {
    if roles == [] then []
    else
      var last := roles[|roles| - 1];
      assert roles == roles[..|roles| - 1] + [last];
      assert RoleIdSet(roles) == RoleIdSet(roles[..|roles| - 1]) + {last.id};
      UnplacedIds(roles[..|roles| - 1], placed) + (if last.id in placed then [] else [last.id])
  }

  /** The categories with the unassigned roles appended to `Other` (created if absent). */
  function WithOther(c: Categories, roles: seq<RoleData>): Categories {
    var unassigned := Unassigned(roles, AllIds(c));
    if unassigned == [] then c else Put(c, "Other", Get(c, "Other").GetOr([]) + unassigned)
  }

  /** Every role sent ends up in some category, and no other id does; the other
      categories are untouched and `Other` gains the leftover ids in ascending order. */
  lemma WithOtherCovers(c: Categories, roles: seq<RoleData>)
    requires UniqueKeys(c) && AllIds(c) <= RoleIdSet(roles)
    ensures AllIds(WithOther(c, roles)) == RoleIdSet(roles)
    ensures forall k :: k != "Other" ==> Get(WithOther(c, roles), k) == Get(c, k)
    ensures var u := Unassigned(roles, AllIds(c));
      u != [] ==> Get(WithOther(c, roles), "Other") == Some(Get(c, "Other").GetOr([]) + u)
  {
    var u := Unassigned(roles, AllIds(c));
    if u != [] {
      AllIdsExtend(c, "Other", u);
    }
  }

  lemma PutPut<V>(d: seq<(string, V)>, k: string, a: V, b: V)
    ensures Put(Put(d, k, a), k, b) == Put(d, k, b)
  {
    var d1 := Put(d, k, a);
    if HasKey(d, k) {
      var l := Replace(d1, k, b);
      var r := Replace(d, k, b);
      assert |l| == |r|;
      forall i | 0 <= i < |l| ensures l[i] == r[i] { }
    } else {
      assert d1[|d|].0 == k;
      ReplaceTail(d, k, a, b);
    }
  }

  lemma ReplaceTail<V>(d: seq<(string, V)>, k: string, a: V, b: V)
    requires !HasKey(d, k)
    ensures Replace(d + [(k, a)], k, b) == d + [(k, b)]
  {
    var l := Replace(d + [(k, a)], k, b);
    forall i | 0 <= i < |d| ensures l[i] == d[i] {
      assert d[i].0 != k;
      assert (d + [(k, a)])[i] == d[i];
    }
  }

  /** Collecting the placed ids and appending the leftover ones to `Other`, one by one. */
  method AddOther(c: Categories, roles: seq<RoleData>) returns (r: Categories)
    ensures r == WithOther(c, roles)
  {
    var placed: set<int> := {};
    var i := 0;
    while i < |c|
      invariant 0 <= i <= |c|
      invariant placed == AllIds(c[..i])
    {
      assert c[..i + 1][..i] == c[..i];
      placed := placed + Elems(c[i].1);
      i := i + 1;
    }
    assert c[..|c|] == c;
    var unassigned := Unassigned(roles, placed);
    r := c;
    if unassigned != [] {
      r := AppendToOther(c, unassigned);
    }
  }

  /** One more id appended to the "Other" list of `Put(c, "Other", base + ids[..j])`. */
  lemma AppendOneToOther(c: Categories, base: seq<int>, ids: seq<int>, j: int)
    requires 0 <= j < |ids|
    ensures var r := Put(c, "Other", base + ids[..j]);
      Put(r, "Other", Get(r, "Other").GetOr([]) + [ids[j]]) == Put(c, "Other", base + ids[..j + 1])
  {
    assert ids[..j + 1] == ids[..j] + [ids[j]];
    assert (base + ids[..j]) + [ids[j]] == base + ids[..j + 1];
    PutPut(c, "Other", base + ids[..j], base + ids[..j + 1]);
  }

  /** `setdefault('Other', [])`, then one append per id. */
  method AppendToOther(c: Categories, ids: seq<int>) returns (r: Categories)
    ensures r == Put(c, "Other", Get(c, "Other").GetOr([]) + ids)
  {
    var base := Get(c, "Other").GetOr([]);
    r := Put(c, "Other", base);
    var j := 0;
    assert base + ids[..0] == base;
    while j < |ids|
      invariant 0 <= j <= |ids|
      invariant r == Put(c, "Other", base + ids[..j])
    {
      AppendOneToOther(c, base, ids, j);
      r := Put(r, "Other", Get(r, "Other").GetOr([]) + [ids[j]]);
      j := j + 1;
    }
    assert ids[..|ids|] == ids;
  }

  /** `r` is the categorisation read from a response (`None` when there is no response):
      the function call's arguments must decode to a dict, whose categories are resolved by
      role name; every role sent and not placed is appended to `Other` in ascending order.
      Anything else gives no categories. */
  ghost predicate CategoriesFor(data: Option<Json>, roles: seq<RoleData>, parse: string -> Option<Json>, r: Categories) {
    var args := if data.Some? && Truthy(data.value) then NamedCallArguments(data.value, CATEGORIZE_FUNCTION) else None;
    if args.Some? && parse(args.value).Some? && parse(args.value).value.JObject? then
      var fields := parse(args.value).value.fields;
      && AllIds(r) == RoleIdSet(roles)
      && (forall k :: k != "Other" ==>
            Get(r, k) == if HasKey(fields, k) && ResolutionOf(fields, k, NameToId(roles)) != [] then Some(ResolutionOf(fields, k, NameToId(roles))) else None)
      && r == WithOther(ResolvedPrefix(fields, NameToId(roles), |fields|), roles)
      && var listed := if HasKey(fields, "Other") then ResolutionOf(fields, "Other", NameToId(roles)) else [];
         var u := Unassigned(roles, AllIds(ResolvedPrefix(fields, NameToId(roles), |fields|)));
         Get(r, "Other") == if u != [] then Some(listed + u) else if listed != [] then Some(listed) else None
    else r == []
  }

  /** The categorisation read from a response. */
  method CategoriesFromResponse(data: Option<Json>, roles: seq<RoleData>, parse: string -> Option<Json>)
    returns (r: Categories)
    ensures CategoriesFor(data, roles, parse, r)
  {
    r := [];
    if data.None? || !Truthy(data.value) {
      return;
    }
    var args := NamedCallArguments(data.value, CATEGORIZE_FUNCTION);
    if args.None? {
      return;
    }
    var parsed := parse(args.value);
    if parsed.None? || !parsed.value.JObject? {
      return;
    }
    var fields := parsed.value.fields;
    var m := NameToId(roles);
    var resolved := ResolveCategories(fields, m);
    ResolvedPrefixUnique(fields, m, |fields|);
    ResolvedPrefixIds(fields, m, |fields|);
    r := AddOther(resolved, roles);
    WithOtherCovers(resolved, roles);
    forall k | k != "Other"
      ensures Get(r, k) == if HasKey(fields, k) && ResolutionOf(fields, k, m) != [] then Some(ResolutionOf(fields, k, m)) else None
    {
      ResolvedPrefixGet(fields, m, |fields|, k);
      assert KeyBefore(fields, k, |fields|) <==> HasKey(fields, k);
    }
    ResolvedPrefixGet(fields, m, |fields|, "Other");
    assert KeyBefore(fields, "Other", |fields|) <==> HasKey(fields, "Other");
  }

  /** The categories as the stored taxonomy holds them: lists of JSON integers. */
  function AsTaxonomy(c: Categories): (t: Taxonomy)
    ensures |t| == |c|
    ensures forall i :: 0 <= i < |c| ==> t[i].0 == c[i].0 && CategoryIds(t[i].1) == c[i].1
  {
    if c == [] then []
    else
      IntItemsOfInts(c[|c| - 1].1);
      AsTaxonomy(c[..|c| - 1]) + [(c[|c| - 1].0, JArray(AsJsonInts(c[|c| - 1].1)))]
  }

  lemma {:induction false} IntItemsOfInts(ids: seq<int>)
    ensures IntItems(AsJsonInts(ids)) == ids
  {
    if ids != [] {
      var items := AsJsonInts(ids);
      IntItemsOfInts(ids[..|ids| - 1]);
      assert items[..|items| - 1] == AsJsonInts(ids[..|ids| - 1]);
      assert ids == ids[..|ids| - 1] + [ids[|ids| - 1]];
    }
  }
}
