/** The verification-guidance contract: the available-roles text put into the prompt,
    and how the LLM's `propose_user_roles` arguments are accepted and coerced. */
module LlmGuidance {
  import opened Wrappers
  import opened Text
  import opened Json
  import opened Guild

  /** The roles text when no category lists a known role. */
  const NO_ROLES_TEXT := "No " + "specific skill/experience/OS roles are currently defined for classification."

  /** The ids of `ids`, in order, that the roles map knows. */
  function MappedIds(ids: seq<int>, m: map<int, string>): (r: seq<int>)
    ensures |r| <= |ids|
    ensures forall i :: i in r <==> i in ids && i in m
  {
    if ids == [] then []
    else (if ids[0] in m then [ids[0]] else []) + MappedIds(ids[1..], m)
  }

  /** `'name' (ID: id)`. */
  function RoleLabel(rid: int, m: map<int, string>): string
    requires rid in m
  {
    "'" + m[rid] + "' (ID: " + IntToString(rid) + ")"
  }

  function RoleLabels(ids: seq<int>, m: map<int, string>): (r: seq<string>)
    requires forall i :: i in ids ==> i in m
    ensures |r| == |ids|
  {
    seq(|ids|, k requires 0 <= k < |ids| => RoleLabel(ids[k], m))
  }

  /** `- category: label, label`. */
  function CategoryLine(category: string, ids: seq<int>, m: map<int, string>): string
    requires forall i :: i in ids ==> i in m
  {
    "- " + category + ": " + Join(RoleLabels(ids, m), ", ")
  }

  /** One line per category that lists at least one known role, in taxonomy order. */
  function RoleLines(t: Taxonomy, m: map<int, string>): (lines: seq<string>)
    ensures |lines| <= |t|
  {
    if t == [] then []
    else
      var ids := MappedIds(CategoryIds(t[0].1), m);
      var rest := RoleLines(t[1..], m);
      if ids == [] then rest else [CategoryLine(t[0].0, ids, m)] + rest
  }

  /** Every line starts with `- `. */
  lemma {:induction false} RoleLinesAreItems(t: Taxonomy, m: map<int, string>)
    ensures forall k :: 0 <= k < |RoleLines(t, m)| ==> |RoleLines(t, m)[k]| >= 2 && RoleLines(t, m)[k][..2] == "- "
  {
    if t != [] {
      RoleLinesAreItems(t[1..], m);
    }
  }

  /** There are no lines exactly when no category lists a known role. */
  lemma {:induction false} RoleLinesEmpty(t: Taxonomy, m: map<int, string>)
    ensures RoleLines(t, m) == [] <==> forall k :: 0 <= k < |t| ==> MappedIds(CategoryIds(t[k].1), m) == []
  {
    if t != [] {
      RoleLinesEmpty(t[1..], m);
      var rest := t[1..];
      if RoleLines(t, m) == [] {
        forall k | 0 <= k < |t| ensures MappedIds(CategoryIds(t[k].1), m) == [] {
          if k > 0 {
            assert t[k] == rest[k - 1];
          }
        }
      }
      if forall k :: 0 <= k < |t| ==> MappedIds(CategoryIds(t[k].1), m) == [] {
        forall k | 0 <= k < |rest| ensures MappedIds(CategoryIds(rest[k].1), m) == [] {
          assert rest[k] == t[k + 1];
        }
      }
    }
  }

  /** The text substituted for `$available_roles_text_list`. */
  function RolesText(t: Taxonomy, m: map<int, string>): (r: string)
    ensures r != []
  {
    var lines := RoleLines(t, m);
    if lines == [] then NO_ROLES_TEXT
    else
      assert |Join(lines, "\n")| >= |lines[0]| >= 2 by {
        JoinStartsWithFirst(lines, "\n");
        RoleLinesAreItems(t, m);
      }
      Join(lines, "\n")
  }

  lemma JoinStartsWithFirst(parts: seq<string>, sep: string)
    requires |parts| >= 1
    ensures |Join(parts, sep)| >= |parts[0]| && Join(parts, sep)[..|parts[0]|] == parts[0]
  {
  }

  /** The fixed sentence appears exactly when no category lists a role the map knows. */
  lemma RolesTextFallback(t: Taxonomy, m: map<int, string>)
    ensures RolesText(t, m) == NO_ROLES_TEXT
        <==> forall k :: 0 <= k < |t| ==> forall i :: i in CategoryIds(t[k].1) ==> i !in m
  {
    RoleLinesEmpty(t, m);
    if RoleLines(t, m) != [] {
      LinesAreNotTheSentence(RoleLines(t, m), t, m);
      var k :| 0 <= k < |t| && MappedIds(CategoryIds(t[k].1), m) != [];
      var i := MappedIds(CategoryIds(t[k].1), m)[0];
      assert i in CategoryIds(t[k].1) && i in m;
    } else {
      forall k, i | 0 <= k < |t| && i in CategoryIds(t[k].1) ensures i !in m {
        assert MappedIds(CategoryIds(t[k].1), m) == [];
      }
    }
  }

  lemma LinesAreNotTheSentence(lines: seq<string>, t: Taxonomy, m: map<int, string>)
    requires lines == RoleLines(t, m) && lines != []
    ensures Join(lines, "\n") != NO_ROLES_TEXT
  {
    RoleLinesAreItems(t, m);
    JoinStartsWithFirst(lines, "\n");
    assert lines[0][..2] == "- ";
    assert lines[0][0] == lines[0][..2][0] == '-';
    assert Join(lines, "\n")[0] == Join(lines, "\n")[..|lines[0]|][0] == lines[0][0];
    NoRolesTextInitial();
  }

  lemma NoRolesTextInitial()
    ensures NO_ROLES_TEXT[0] == 'N'
  {
  }

  /** Python `int(s)` for a string: surrounding whitespace, an optional sign and decimal digits. */
  function ParseIntText(s: string): (r: Option<int>)
    ensures r.Some? ==> Strip(s) != []
  {
    var t := Strip(s);
    if t != [] && (t[0] == '+' || t[0] == '-') then
      if IsDecimal(t[1..]) then
        var value: int := DecimalValue(t[1..]);
        Some(if t[0] == '-' then -value else value)
      else None
    else if IsDecimal(t) then Some(DecimalValue(t))
    else None
  }

  /** Python `int(rid)` for a decoded JSON value; `None` when it raises. */
  function ToPyInt(j: Json): Option<int> {
    match j
    case JInt(i) => Some(i)
    case JBool(b) => Some(if b then 1 else 0)
    case JStr(s) => ParseIntText(s)
    case _ => None
  }

  /** `[int(rid) for rid in items if rid is not None]`; `None` when a conversion raises. */
  function IntsOf(items: seq<Json>): (r: Option<seq<int>>)
    ensures r.Some? ==> |r.value| <= |items|
  {
    if items == [] then Some([])
    else
      var rest := IntsOf(items[1..]);
      if items[0].JNull? then rest
      else match ToPyInt(items[0])
        case None => None
        case Some(i) => if rest.Some? then Some([i] + rest.value) else None
  }

  /** A list of integers, the shape every category has after coercion. */
  predicate IsIntList(v: Json) {
    v.JArray? && forall k :: 0 <= k < |v.items| ==> v.items[k].JInt?
  }

  function AsJsonInts(ids: seq<int>): (r: seq<Json>)
    ensures |r| == |ids| && forall k :: 0 <= k < |ids| ==> r[k] == JInt(ids[k])
  {
    seq(|ids|, k requires 0 <= k < |ids| => JInt(ids[k]))
  }

  /** One category value after coercion: a list keeps its converted non-`None` entries,
      a failed conversion or a value that is not a list becomes `[]`. */
  function CoerceCategory(v: Json): (r: Json)
    ensures IsIntList(r)
  {
    if v.JArray? then
      match IntsOf(v.items)
      case None => JArray([])
      case Some(ids) => JArray(AsJsonInts(ids))
    else JArray([])
  }

  lemma {:induction false} IntsOfInts(items: seq<Json>)
    requires forall k :: 0 <= k < |items| ==> items[k].JInt?
    ensures IntsOf(items).Some? && AsJsonInts(IntsOf(items).value) == items
  {
    if items != [] {
      IntsOfInts(items[1..]);
      assert items == [items[0]] + items[1..];
    }
  }

  /** A category that already is a list of integers is left as it is. */
  lemma CoerceKeepsIntLists(v: Json)
    requires IsIntList(v)
    ensures CoerceCategory(v) == v
  {
    IntsOfInts(v.items);
  }

  /** Coercing twice is coercing once. */
  lemma CoerceCategoryIdempotent(v: Json)
    ensures CoerceCategory(CoerceCategory(v)) == CoerceCategory(v)
  {
    CoerceKeepsIntLists(CoerceCategory(v));
  }

  /** A `None` entry is dropped, and one entry that `int()` rejects empties the category. */
  lemma CoerceDropsNoneAndRejectsBadEntries(rest: seq<Json>)
    ensures CoerceCategory(JArray([JNull] + rest)) == CoerceCategory(JArray(rest))
    ensures CoerceCategory(JArray([JStr("abc")] + rest)) == JArray([])
  {
    assert ([JNull] + rest)[1..] == rest;
    assert ([JStr("abc")] + rest)[1..] == rest;
    assert ParseIntText("abc") == None by {
      assert Lstrip("abc") == "abc";
      assert Rstrip("abc") == "abc";
      assert !IsDecimal("abc") by { assert !IsDecimalDigit('a'); }
    }
  }

  /** What the loop leaves under `k`: the coercion of the value stored there, if any. */
  function CoercedValue(cls: seq<(string, Json)>, k: string): Option<Json> {
    match Get(cls, k)
    case None => None
    case Some(v) => Some(CoerceCategory(v))
  }

  /** The loop over the classification's keys, rewriting each category in place. Every
      category ends up holding the coercion of what it held; the keys and their order stay. */
  method CoerceCategories(cls: seq<(string, Json)>) returns (r: seq<(string, Json)>)
    ensures SameKeys(r, cls)
    ensures forall k :: Get(r, k) == CoercedValue(cls, k)
  {
    r := cls;
    var keys := Keys(cls);
    ghost var done: seq<string> := [];
    var i := 0;
    while i < |keys|
      invariant 0 <= i <= |keys| && done == keys[..i]
      invariant forall k :: k in keys ==> HasKey(r, k)
      invariant SameKeys(r, cls)
      invariant CoercedUpTo(cls, r, done)
    {
      var key := keys[i];
      var v := Get(r, key).value;
      CoerceLoopStep(cls, r, keys, done, key);
      r := Put(r, key, CoerceCategory(v));
      TakeOneMore(keys, i);
      done := done + [key];
      i := i + 1;
    }
    assert done == keys;
    NothingPending(cls, r, done);
  }

  /** The same keys at the same positions. */
  predicate SameKeys(a: seq<(string, Json)>, b: seq<(string, Json)>) {
    |a| == |b| && forall i :: 0 <= i < |a| ==> a[i].0 == b[i].0
  }

  lemma SameKeysKeys(a: seq<(string, Json)>, b: seq<(string, Json)>)
    requires SameKeys(a, b)
    ensures Keys(a) == Keys(b)
  {
  }

  lemma PutPresentKeepsKeys(r: seq<(string, Json)>, cls: seq<(string, Json)>, key: string, v: Json)
    requires HasKey(r, key) && SameKeys(r, cls)
    ensures SameKeys(Put(r, key, v), cls)
    ensures forall k :: HasKey(r, k) ==> HasKey(Put(r, key, v), k)
  {
  }

  /** The keys in `done` hold their coerced value, the others their original one. */
  ghost predicate CoercedUpTo(cls: seq<(string, Json)>, r: seq<(string, Json)>, done: seq<string>) {
    && (forall k :: k in done ==> Get(r, k) == CoercedValue(cls, k))
    && (forall k :: k !in done ==> Get(r, k) == Get(cls, k))
  }

  /** Once every key is done, the loop's invariant is the postcondition. */
  lemma NothingPending(cls: seq<(string, Json)>, r: seq<(string, Json)>, done: seq<string>)
    requires done == Keys(cls)
    requires CoercedUpTo(cls, r, done)
    ensures forall k :: Get(r, k) == CoercedValue(cls, k)
  {
    forall k ensures Get(r, k) == CoercedValue(cls, k) {
      KeysHasKey(cls, k);
    }
  }

  /** One turn of the loop keeps its invariant, also when a key comes round again. */
  lemma CoerceStep(cls: seq<(string, Json)>, r: seq<(string, Json)>, done: seq<string>, key: string)
    requires HasKey(r, key) && key in Keys(cls)
    requires CoercedUpTo(cls, r, done)
    ensures CoercedUpTo(cls, Put(r, key, CoerceCategory(Get(r, key).value)), done + [key])
  {
    KeysHasKey(cls, key);
    var v := Get(cls, key).value;
    var r' := Put(r, key, CoerceCategory(Get(r, key).value));
    if key in done {
      CoerceCategoryIdempotent(v);
    }
    assert Get(r', key) == CoercedValue(cls, key);
    PutKeepsDone(cls, r, done, key, CoerceCategory(Get(r, key).value));
    PutKeepsPending(cls, r, done, key, CoerceCategory(Get(r, key).value));
    forall k | k in done + [key] ensures Get(r', k) == CoercedValue(cls, k) {
      if k != key {
        assert k in done;
      }
    }
  }

  lemma TakeOneMore<T>(s: seq<T>, i: nat)
    requires i < |s|
    ensures s[..i + 1] == s[..i] + [s[i]]
  {
  }

  /** One turn of the coercion loop keeps all three of its invariants. */
  lemma CoerceLoopStep(cls: seq<(string, Json)>, r: seq<(string, Json)>, keys: seq<string>,
                       done: seq<string>, key: string)
    requires keys == Keys(cls) && key in keys
    requires forall k :: k in keys ==> HasKey(r, k)
    requires SameKeys(r, cls) && CoercedUpTo(cls, r, done)
    ensures var r' := Put(r, key, CoerceCategory(Get(r, key).value));
      && (forall k :: k in keys ==> HasKey(r', k))
      && SameKeys(r', cls)
      && CoercedUpTo(cls, r', done + [key])
  {
    CoerceStep(cls, r, done, key);
    PutPresentKeepsKeys(r, cls, key, CoerceCategory(Get(r, key).value));
  }

  lemma PutKeepsDone(cls: seq<(string, Json)>, r: seq<(string, Json)>, done: seq<string>, key: string, v: Json)
    requires forall k :: k in done ==> Get(r, k) == CoercedValue(cls, k)
    ensures forall k :: k in done && k != key ==> Get(Put(r, key, v), k) == CoercedValue(cls, k)
  {
  }

  lemma PutKeepsPending(cls: seq<(string, Json)>, r: seq<(string, Json)>, done: seq<string>, key: string, v: Json)
    requires forall k :: k !in done ==> Get(r, k) == Get(cls, k)
    ensures forall k :: k !in done + [key] ==> Get(Put(r, key, v), k) == Get(cls, k)
  {
    forall k | k !in done + [key] ensures Get(Put(r, key, v), k) == Get(cls, k) {
      assert k != key;
      assert k !in done;
    }
  }

  /** The five guidance keys, with `message` as the message to the user and everything
      else unset or false. */
  function GuidanceFields(message: string): (f: seq<(string, Json)>)
    ensures Get(f, "user_has_confirmed") == Some(JBool(false))
    ensures Get(f, "classification") == Some(JNull)
    ensures Get(f, "message_to_user") == Some(JStr(message))
    ensures Get(f, "is_complete") == Some(JBool(false))
  {
    var f := [("classification", JNull), ("message_to_user", JStr(message)), ("is_complete", JBool(false)),
              ("user_has_confirmed", JBool(false)), ("unassignable_skills", JNull)];
    GetSkipLast(f, "user_has_confirmed");
    GetSkipLast(f[..4], "is_complete");
    GetSkipLast(f[..4], "message_to_user");
    GetSkipLast(f[..3], "message_to_user");
    GetSkipLast(f[..2], "classification");
    GetSkipLast(f[..3], "classification");
    GetSkipLast(f[..4], "classification");
    GetSkipLast(f, "classification");
    GetSkipLast(f, "message_to_user");
    GetSkipLast(f, "is_complete");
    assert f[..4][..3] == f[..3] && f[..3][..2] == f[..2];
    f
  }

  /** A dict holding the five guidance keys. */
  function GuidanceDict(message: string): (g: Json)
    ensures g.JObject? && Get(g.fields, "user_has_confirmed") == Some(JBool(false))
    ensures Get(g.fields, "classification") == Some(JNull)
    ensures Get(g.fields, "message_to_user") == Some(JStr(message))
    ensures HasKey(g.fields, "message_to_user") && HasKey(g.fields, "is_complete")
    ensures IsAcceptable(g)
  {
    JObject(GuidanceFields(message))
  }

  /** The answer used whenever the LLM's reply cannot be used. */
  function Fallback(): Json {
    GuidanceDict("I'm currently having trouble processing information. Please try again in a few moments.")
  }

  /** The answers to a template that names an unknown key and to a malformed template. */
  function PromptErrorGuidance(): Json {
    GuidanceDict("Prompt error.")
  }

  function PromptSyntaxErrorGuidance(): Json {
    GuidanceDict("Prompt syntax error.")
  }

  /** The parsed arguments are used only when they are a dict with `message_to_user` and
      `is_complete` and a boolean `user_has_confirmed`. */
  predicate IsAcceptable(p: Json) {
    && p.JObject?
    && HasKey(p.fields, "message_to_user")
    && HasKey(p.fields, "is_complete")
    && var c := Get(p.fields, "user_has_confirmed"); c.Some? && c.value.JBool?
  }

  /** `r` is `fields` after the `classification` rewrite: absent or `None` stays, a dict
      has each category coerced, anything else becomes `None`. Every other key is untouched. */
  ghost predicate ClassificationCoerced(fields: seq<(string, Json)>, r: seq<(string, Json)>) {
    && SameKeys(r, fields)
    && (forall k :: k != "classification" ==> Get(r, k) == Get(fields, k))
    && var c := Get(fields, "classification");
       && (c.None? || c.value.JNull? ==> r == fields)
       && (c.Some? && !c.value.JNull? && !c.value.JObject? ==> Get(r, "classification") == Some(JNull))
       && (c.Some? && c.value.JObject? ==>
             var rc := Get(r, "classification");
             && rc.Some? && rc.value.JObject?
             && SameKeys(rc.value.fields, c.value.fields)
             && forall k :: Get(rc.value.fields, k) == CoercedValue(c.value.fields, k))
  }

  /** The `classification` rewrite of parsed guidance fields. */
  method CoerceClassification(fields: seq<(string, Json)>) returns (r: seq<(string, Json)>)
    ensures ClassificationCoerced(fields, r)
  {
    var c := Get(fields, "classification");
    if c.None? || c.value.JNull? {
      r := fields;
    } else if !c.value.JObject? {
      PutPresentKeepsKeys(fields, fields, "classification", JNull);
      r := Put(fields, "classification", JNull);
    } else {
      var coerced := CoerceCategories(c.value.fields);
      PutPresentKeepsKeys(fields, fields, "classification", JObject(coerced));
      r := Put(fields, "classification", JObject(coerced));
    }
  }

  /** `g` is the guidance for parsed `propose_user_roles` arguments `p`: the fallback unless
      `p` is acceptable, and otherwise `p` with its classification coerced. */
  ghost predicate GuidanceFor(p: Json, g: Json) {
    && (!IsAcceptable(p) ==> g == Fallback())
    && (IsAcceptable(p) ==> p.JObject? && g.JObject? && ClassificationCoerced(p.fields, g.fields))
  }

  /** The guidance for parsed `propose_user_roles` arguments. */
  method GuidanceFromParsed(p: Json) returns (g: Json)
    ensures GuidanceFor(p, g)
    ensures g.JObject? && IsAcceptable(g)
  {
    if IsAcceptable(p) {
      var fields := CoerceClassification(p.fields);
      g := JObject(fields);
      assert Get(fields, "user_has_confirmed") == Get(p.fields, "user_has_confirmed");
      KeysHasKey(fields, "message_to_user");
      KeysHasKey(p.fields, "message_to_user");
      KeysHasKey(fields, "is_complete");
      KeysHasKey(p.fields, "is_complete");
    } else {
      g := Fallback();
      assert HasKey(g.fields, "message_to_user") by { assert g.fields[1].0 == "message_to_user"; }
      assert HasKey(g.fields, "is_complete") by { assert g.fields[2].0 == "is_complete"; }
    }
  }
}
