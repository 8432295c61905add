/** How the LLM client shapes prompts and token budgets: the head-and-tail trim of the
    welcome prompt, whitespace normalisation, the Spanish instruction and the budgets. */
module LlmPrompts {
  import opened Wrappers
  import opened Text
  import opened Templates
  import opened Guild

  /** Put between the kept head and tail of a trimmed prompt. */
  const TRIM_MARKER := "\n\n...[truncated " + "to avoid exceeding " + "token limit]...\n\n"

  lemma TrimMarkerLength()
    ensures |TRIM_MARKER| == 52
  {
  }

  /** The head's share of a trimmed prompt: 60% of what the marker leaves. */
  function HeadChars(maxChars: int): int {
    (3 * (maxChars - |TRIM_MARKER|)) / 5
  }

  /** `_smart_trim`: text that fits is kept; a small limit keeps a prefix; otherwise the
      head and the tail are kept around the marker, with the whitespace at the cut removed. */
  function SmartTrim(text: string, maxChars: int): (r: string)
    ensures |text| <= maxChars ==> r == text
    ensures maxChars >= 0 ==> |r| <= maxChars
    ensures |text| > maxChars && maxChars <= |TRIM_MARKER| + 20 ==>
      |r| <= |text| && r == text[..|r|] && (maxChars >= 0 ==> |r| == maxChars)
  {
    if text == [] || |text| <= maxChars then text
    else if maxChars <= |TRIM_MARKER| + 20 then SliceTo(text, maxChars)
    else TrimHead(text, maxChars) + TRIM_MARKER + TrimTail(text, maxChars)
  }

  /** The kept head: the first `HeadChars` characters, trailing whitespace removed. */
  function TrimHead(text: string, maxChars: int): (head: string)
    requires |text| > maxChars > |TRIM_MARKER| + 20
    ensures |head| <= HeadChars(maxChars) && head == text[..|head|]
  {
    RstripPrefix(text[..HeadChars(maxChars)]);
    Rstrip(text[..HeadChars(maxChars)])
  }

  /** The kept tail: the rest of the budget taken from the end, leading whitespace removed. */
  function TrimTail(text: string, maxChars: int): (tail: string)
    requires |text| > maxChars > |TRIM_MARKER| + 20
    ensures |tail| <= maxChars - |TRIM_MARKER| - HeadChars(maxChars)
    ensures |tail| <= |text| && tail == text[|text| - |tail|..]
  {
    LstripSuffix(text[|text| - (maxChars - |TRIM_MARKER| - HeadChars(maxChars))..]);
    Lstrip(text[|text| - (maxChars - |TRIM_MARKER| - HeadChars(maxChars))..])
  }

  /** A long text under a roomy limit keeps a prefix of at most the head share, then the
      marker, then a suffix of at most the rest. */
  lemma SmartTrimKeepsHeadAndTail(text: string, maxChars: int)
    requires |text| > maxChars > |TRIM_MARKER| + 20
    ensures var r := SmartTrim(text, maxChars);
      var k := |TrimHead(text, maxChars)|;
      var tailLength := |r| - k - |TRIM_MARKER|;
      && k <= HeadChars(maxChars) && 0 <= tailLength <= maxChars - |TRIM_MARKER| - HeadChars(maxChars)
      && r[..k] == text[..k]
      && r[k..k + |TRIM_MARKER|] == TRIM_MARKER
      && r[k + |TRIM_MARKER|..] == text[|text| - tailLength..]
  {
    ConcatSlices(TrimHead(text, maxChars), TRIM_MARKER, TrimTail(text, maxChars));
  }

  lemma ConcatSlices(a: string, m: string, b: string)
    ensures var r := a + m + b;
      r[..|a|] == a && r[|a|..|a| + |m|] == m && r[|a| + |m|..] == b
  {
  }

  /** `re.sub(r"\s+", " ", s)`: every run of whitespace becomes one space. */
  function CollapseSpaces(s: string): (r: string)
    ensures |r| <= |s|
    decreases |s|
  {
    if s == [] then []
    else if IsSpace(s[0]) then
      var rest := Lstrip(s);
      " " + CollapseSpaces(rest)
    else [s[0]] + CollapseSpaces(s[1..])
  }

  /** The only whitespace left is a single space, never two in a row, and text starting
      with a non-space still does. */
  lemma {:induction false} CollapsedSpacing(s: string)
    ensures var r := CollapseSpaces(s);
      && (forall i :: 0 <= i < |r| && IsSpace(r[i]) ==> r[i] == ' ')
      && (forall i :: 0 <= i < |r| - 1 ==> !(IsSpace(r[i]) && IsSpace(r[i + 1])))
      && (s != [] ==> r != [] && (IsSpace(r[0]) <==> IsSpace(s[0])))
    decreases |s|
  {
    if s != [] {
      if IsSpace(s[0]) {
        var rest := Lstrip(s);
        CollapsedSpacing(rest);
        var r := CollapseSpaces(s);
        assert r == " " + CollapseSpaces(rest);
        forall i | 0 <= i < |r| - 1 ensures !(IsSpace(r[i]) && IsSpace(r[i + 1])) {
          if i > 0 {
            assert r[i] == CollapseSpaces(rest)[i - 1] && r[i + 1] == CollapseSpaces(rest)[i];
          }
        }
      } else {
        CollapsedSpacing(s[1..]);
        var r := CollapseSpaces(s);
        assert r == [s[0]] + CollapseSpaces(s[1..]);
        forall i | 0 <= i < |r| - 1 ensures !(IsSpace(r[i]) && IsSpace(r[i + 1])) {
          if i > 0 {
            assert r[i] == CollapseSpaces(s[1..])[i - 1] && r[i + 1] == CollapseSpaces(s[1..])[i];
          }
        }
      }
    }
  }

  /** The normalised system prompt: runs of whitespace collapsed, then stripped. */
  function NormalizeSpaces(s: string): string {
    Strip(CollapseSpaces(s))
  }

  /** Put in front of a welcome prompt that does not mention Spanish. */
  const SPANISH_WORD := "español"
  const SPANISH_PREFIX := "Responde en " + SPANISH_WORD + ".\n\n"

  /** Whether the prompt already asks for Spanish. */
  predicate MentionsSpanish(prompt: string) {
    Contains(Lower(prompt), SPANISH_WORD) || Contains(Lower(prompt), "spanish")
  }

  function WithSpanish(prompt: string): string {
    if MentionsSpanish(prompt) then prompt else SPANISH_PREFIX + prompt
  }

  lemma LowerAppend(a: string, b: string)
    ensures Lower(a + b) == Lower(a) + Lower(b)
  {
  }

  /** An occurrence at offset `k` is an occurrence. */
  lemma {:induction false} ContainsAt(s: string, sub: string, k: int)
    requires 0 <= k <= |s| && StartsWith(s[k..], sub)
    ensures Contains(s, sub)
    decreases k
  {
    if k > 0 {
      assert s[1..][k - 1..] == s[k..];
      ContainsAt(s[1..], sub, k - 1);
    }
  }

  lemma {:induction false} ContainsAppend(a: string, b: string, sub: string)
    requires Contains(a, sub)
    ensures Contains(a + b, sub)
    decreases |a|
  {
    if !StartsWith(a, sub) {
      ContainsAppend(a[1..], b, sub);
      assert (a + b)[1..] == a[1..] + b;
    } else {
      assert (a + b)[..|sub|] == a[..|sub|];
    }
  }

  /** A string holding `sub` between two others contains it. */
  lemma ContainsMiddle(a: string, sub: string, b: string)
    ensures Contains(a + sub + b, sub)
  {
    var s := a + sub + b;
    assert s[|a|..][..|sub|] == sub;
    ContainsAt(s, sub, |a|);
  }

  /** After the check every welcome prompt asks for Spanish. */
  lemma WelcomePromptAsksForSpanish(prompt: string)
    ensures MentionsSpanish(WithSpanish(prompt))
  {
    if !MentionsSpanish(prompt) {
      var word := SPANISH_WORD;
      assert Lower(word) == word;
      LowerAppend("Responde en ", word);
      LowerAppend("Responde en " + word, ".\n\n");
      LowerAppend(SPANISH_PREFIX, prompt);
      ContainsMiddle(Lower("Responde en "), word, Lower(".\n\n") + Lower(prompt));
      assert Lower(SPANISH_PREFIX + prompt)
          == Lower("Responde en ") + word + (Lower(".\n\n") + Lower(prompt));
    }
  }

  /** The system prompt of a welcome request. */
  function WelcomeSystemPrompt(template: string, serverName: string, memberName: string, memberId: int,
                               maxPromptChars: int): (r: string)
    ensures maxPromptChars >= 0 ==> |r| <= maxPromptChars || |r| <= |NormalizeSpaces(WithSpanish(
              SafeSubstitute(template, WelcomeFields(serverName, memberName, memberId))))|
  {
    var prompt := SafeSubstitute(template, WelcomeFields(serverName, memberName, memberId));
    var normalized := NormalizeSpaces(WithSpanish(prompt));
    if |normalized| > maxPromptChars then SmartTrim(normalized, maxPromptChars) else normalized
  }

  function WelcomeFields(serverName: string, memberName: string, memberId: int): map<string, string> {
    map["server_name" := serverName, "member_name" := memberName, "member_id" := IntToString(memberId)]
  }

  /** A welcome system prompt never exceeds a non-negative limit. */
  lemma WelcomeSystemPromptFits(template: string, serverName: string, memberName: string, memberId: int,
                                maxPromptChars: int)
    requires maxPromptChars >= 0
    ensures |WelcomeSystemPrompt(template, serverName, memberName, memberId, maxPromptChars)| <= maxPromptChars
  {
  }

  /** The user turn of a welcome request, capped at 800 characters. */
  method WelcomeUserMessage(memberName: string, memberId: int) returns (r: string)
    ensures |r| <= 800
  {
    r := SliceTo("Un nuevo usuario llamado '" + memberName + "' se ha unido al servidor. Genera un mensaje de "
      + "bienvenida breve y amistoso mencionándolo con " + Mention(memberId) + ". Incluye una instrucción breve "
      + "en Markdown que diga: ejecuta `/assign-roles` para verificar tu cuenta y recibir roles. Responde solo "
      + "con el mensaje, puedes usar Markdown ligero pero no bloques de código.", 800);
  }

  /** The welcome text used when the LLM gives nothing usable (or when hard-coded). */
  function WelcomeFallback(hardcodeMessage: string, serverName: string, memberId: int): (r: string)
    ensures r != []
    ensures hardcodeMessage != [] ==> r == hardcodeMessage
  {
    if hardcodeMessage != [] then hardcodeMessage
    else
      "Bienvenido a " + serverName + ", " + Mention(memberId) + "! Estamos encantados de tenerte aquí. "
      + "Es posible que recibas un DM para ayudarte a asignar algunos roles iniciales."
  }

  /** The summary's `max_tokens`: the request (800 when none is given), capped by the default. */
  function SummaryBudget(given: Option<int>, defaultMaxTokens: int): (b: int)
    ensures b <= defaultMaxTokens
    ensures given.None? ==> b == if 800 <= defaultMaxTokens then 800 else defaultMaxTokens
    ensures given.Some? && given.value <= defaultMaxTokens ==> b == given.value
  {
    var requested := given.GetOr(800);
    if requested <= defaultMaxTokens then requested else defaultMaxTokens
  }

  /** The suspicion check's `max_tokens`: the request (200 when none is given), capped by the default. */
  function SuspicionBudget(given: Option<int>, defaultMaxTokens: int): (b: int)
    ensures b <= defaultMaxTokens
    ensures given.None? ==> b == if 200 <= defaultMaxTokens then 200 else defaultMaxTokens
    ensures given.Some? && given.value <= defaultMaxTokens ==> b == given.value
  {
    var requested := given.GetOr(200);
    if requested <= defaultMaxTokens then requested else defaultMaxTokens
  }

  /** The budget of the one welcome retry: three times the first budget, or 400 more if
      that is larger, capped by the default. */
  function WelcomeRetryBudget(firstBudget: int, defaultMaxTokens: int): (b: int)
    ensures b <= defaultMaxTokens
  {
    var grown := if 3 * firstBudget >= firstBudget + 400 then 3 * firstBudget else firstBudget + 400;
    if grown <= defaultMaxTokens then grown else defaultMaxTokens
  }

  /** The retry is made exactly when the default leaves room above the first budget. */
  lemma WelcomeRetryAllowed(firstBudget: int, defaultMaxTokens: int)
    ensures WelcomeRetryBudget(firstBudget, defaultMaxTokens) > firstBudget <==> defaultMaxTokens > firstBudget
    ensures WelcomeRetryBudget(firstBudget, defaultMaxTokens) > firstBudget ==>
      WelcomeRetryBudget(firstBudget, defaultMaxTokens) >= firstBudget + 1
  {
  }
}
