/** Python's `string.Template`: `$name`, `${name}` and `$$`, with identifiers made of
    ASCII letters, digits and `_` that do not start with a digit. */
module Templates {

  /** The outcome of `Template(t).substitute(mapping)`. */
  datatype Substitution = Substituted(text: string) | MissingKey(key: string) | BadTemplate

  predicate IsIdStart(c: char) {
    ('a' <= c <= 'z') || ('A' <= c <= 'Z') || c == '_'
  }

  predicate IsIdChar(c: char) {
    IsIdStart(c) || ('0' <= c <= '9')
  }

  /** Length of the longest identifier at the start of `s` (0 when there is none). */
  function IdLength(s: string): (n: nat)
    ensures n <= |s|
    ensures n > 0 ==> IsIdStart(s[0]) && forall i :: 0 <= i < n ==> IsIdChar(s[i])
    ensures n < |s| && n > 0 ==> !IsIdChar(s[n])
    ensures n == 0 ==> s == [] || !IsIdStart(s[0])
  {
    if s == [] || !IsIdStart(s[0]) then 0 else 1 + IdTail(s[1..])
  }

  function IdTail(s: string): (n: nat)
    ensures n <= |s|
    ensures forall i :: 0 <= i < n ==> IsIdChar(s[i])
    ensures n < |s| ==> !IsIdChar(s[n])
  {
    if s == [] || !IsIdChar(s[0]) then 0 else 1 + IdTail(s[1..])
  }

  /** Length of a `{name}` at the start of `s`, braces included (0 when there is none). */
  function BracedLength(s: string): (n: nat)
    ensures n <= |s|
    ensures n > 0 ==> n >= 3 && s[0] == '{' && s[n - 1] == '}' && IdLength(s[1..]) == n - 2
  {
    if s != [] && s[0] == '{' then
      var k := IdLength(s[1..]);
      if k > 0 && k + 1 < |s| && s[k + 1] == '}' then k + 2 else 0
    else 0
  }

  function Prepend(p: string, r: Substitution): (r': Substitution)
    ensures r'.Substituted? <==> r.Substituted?
  {
    if r.Substituted? then Substituted(p + r.text) else r
  }

  /** `substitute`: every placeholder must name a key (`MissingKey` otherwise) and every
      `$` must start a placeholder or `$$` (`BadTemplate` otherwise); the first problem
      from the left decides. */
  function Substitute(t: string, m: map<string, string>): Substitution
    decreases |t|
  {
    if t == [] then Substituted("")
    else if t[0] != '$' then Prepend([t[0]], Substitute(t[1..], m))
    else
      var rest := t[1..];
      if rest != [] && rest[0] == '$' then Prepend("$", Substitute(rest[1..], m))
      else if IdLength(rest) > 0 then
        var name := rest[..IdLength(rest)];
        if name in m then Prepend(m[name], Substitute(rest[IdLength(rest)..], m)) else MissingKey(name)
      else if BracedLength(rest) > 0 then
        var name := rest[1..BracedLength(rest) - 1];
        if name in m then Prepend(m[name], Substitute(rest[BracedLength(rest)..], m)) else MissingKey(name)
      else BadTemplate
  }

  /** `safe_substitute`: unknown placeholders and stray `$` are kept as written. */
  function SafeSubstitute(t: string, m: map<string, string>): string
    decreases |t|
  {
    if t == [] then ""
    else if t[0] != '$' then [t[0]] + SafeSubstitute(t[1..], m)
    else
      var rest := t[1..];
      if rest != [] && rest[0] == '$' then "$" + SafeSubstitute(rest[1..], m)
      else if IdLength(rest) > 0 then
        var name := rest[..IdLength(rest)];
        (if name in m then m[name] else "$" + name) + SafeSubstitute(rest[IdLength(rest)..], m)
      else if BracedLength(rest) > 0 then
        var name := rest[1..BracedLength(rest) - 1];
        (if name in m then m[name] else t[..BracedLength(rest) + 1]) + SafeSubstitute(rest[BracedLength(rest)..], m)
      else "$" + SafeSubstitute(rest, m)
  }

  /** Text without `$` is its own substitution, under either method. */
  lemma {:induction false} NoPlaceholders(t: string, m: map<string, string>)
    requires '$' !in t
    ensures Substitute(t, m) == Substituted(t)
    ensures SafeSubstitute(t, m) == t
  {
    if t != [] {
      assert '$' !in t[1..];
      NoPlaceholders(t[1..], m);
      assert t == [t[0]] + t[1..];
    }
  }

  /** Where `substitute` succeeds, `safe_substitute` gives the same text. */
  lemma {:induction false} SafeAgreesWithSubstitute(t: string, m: map<string, string>)
    requires Substitute(t, m).Substituted?
    ensures SafeSubstitute(t, m) == Substitute(t, m).text
    decreases |t|
  {
    if t != [] {
      if t[0] != '$' {
        SafeAgreesWithSubstitute(t[1..], m);
      } else {
        var rest := t[1..];
        if rest != [] && rest[0] == '$' {
          SafeAgreesWithSubstitute(rest[1..], m);
        } else if IdLength(rest) > 0 {
          SafeAgreesWithSubstitute(rest[IdLength(rest)..], m);
        } else if BracedLength(rest) > 0 {
          SafeAgreesWithSubstitute(rest[BracedLength(rest)..], m);
        }
      }
    }
  }

  /** A placeholder whose name is not a key makes `substitute` fail. */
  lemma MissingPlaceholder(name: string, m: map<string, string>)
    requires IdLength(name) == |name| > 0 && name !in m
    ensures Substitute("$" + name, m) == MissingKey(name)
  {
    var t := "$" + name;
    assert t[1..] == name;
    assert name[..IdLength(name)] == name;
  }
}
