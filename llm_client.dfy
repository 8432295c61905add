/** The LLM client: its tunables, its call metrics, the request with its two POST
    attempts and the five operations the bot uses. The HTTP outcomes, the schema files
    and `json.loads`/`json.dumps` are parameters. */
module LlmClient {
  import opened Wrappers
  import opened Text
  import opened Json
  import opened Chat
  import opened Guild
  import opened Templates
  import opened LlmTransport
  import opened LlmGuidance
  import opened LlmPrompts
  import opened LlmResponses
  import opened LlmCategorize

  /** An integer tunable read from the environment: its default when unset or when
      `int()` rejects the text. */
  function EnvInt(value: Option<string>, default: int): (r: int)
    ensures value.None? ==> r == default
    ensures value.Some? && ParseIntText(value.value).Some? ==> r == ParseIntText(value.value).value
    ensures value.Some? && ParseIntText(value.value).None? ==> r == default
  {
    match value
    case None => default
    case Some(text) => ParseIntText(text).GetOr(default)
  }

  /** `WELCOME_HARDCODE` switches the hard-coded welcome on with `1`, `true` or `yes`, in any case. */
  predicate HardcodeFlag(value: Option<string>) {
    var text := Lower(value.GetOr("false"));
    text == "1" || text == "true" || text == "yes"
  }

  /** `{"name": name}`, the `function_call` of a request. */
  function CallNamed(name: string): Json {
    JObject([("name", JStr(name))])
  }

  const PROPOSE_FUNCTION := "propose_user_roles"
  const CLASSIFY_FUNCTION := "classify_user"

  /** The text of the suspicion check's system prompt. */
  function SuspicionSystemPrompt(template: string): string {
    if ContainsText(template, "{messages}") then template
    else SafeSubstitute(template, map["messages" := "{messages}"])
  }

  /** The `propose_user_roles` arguments of a truthy response. */
  function ProposalArguments(data: Option<Json>): Option<string> {
    if data.Some? && Truthy(data.value) then NamedCallArguments(data.value, PROPOSE_FUNCTION) else None
  }

  /** `g` is the guidance a response to the guidance request yields: the fallback when
      there is no `propose_user_roles` call or its arguments do not parse, otherwise the
      guidance for the parsed arguments. */
  ghost predicate ResponseGuidance(data: Option<Json>, parse: string -> Option<Json>, g: Json) {
    var args := ProposalArguments(data);
    if args.None? || parse(args.value).None? then g == Fallback()
    else GuidanceFor(parse(args.value).value, g)
  }

  /** The guidance read from a response to the guidance request. */
  method GuidanceFromResponse(data: Option<Json>, parse: string -> Option<Json>) returns (g: Json)
    ensures IsAcceptable(g)
    ensures ResponseGuidance(data, parse, g)
  {
    var args := ProposalArguments(data);
    if args.None? || parse(args.value).None? {
      g := Fallback();
    } else {
      g := GuidanceFromParsed(parse(args.value).value);
    }
  }

  /** Arguments that parse but are not acceptable guidance give the fallback. */
  lemma UnacceptableArgumentsFallBack(data: Option<Json>, parse: string -> Option<Json>, g: Json)
    requires ResponseGuidance(data, parse, g)
    requires ProposalArguments(data).Some? && parse(ProposalArguments(data).value).Some?
    requires !IsAcceptable(parse(ProposalArguments(data).value).value)
    ensures g == Fallback()
  {
  }

  /** Acceptable arguments are kept: the message, the confirmation flag and the completion
      flag are the LLM's, and a reply without a classification is used exactly as parsed. */
  lemma AcceptedReplyKept(data: Option<Json>, parse: string -> Option<Json>, g: Json)
    requires ResponseGuidance(data, parse, g)
    requires ProposalArguments(data).Some? && parse(ProposalArguments(data).value).Some?
    requires IsAcceptable(parse(ProposalArguments(data).value).value)
    ensures var p := parse(ProposalArguments(data).value).value;
      && g.JObject?
      && Get(g.fields, "message_to_user") == Get(p.fields, "message_to_user")
      && Get(g.fields, "user_has_confirmed") == Get(p.fields, "user_has_confirmed")
      && Get(g.fields, "is_complete") == Get(p.fields, "is_complete")
      && (Get(p.fields, "classification").None? ==> g == p)
  {
  }

  class LlmClient {
    const modelName: string
    const defaultMaxTokens: int
    /** The two function schemas, `None` when their file could not be read. */
    const userVerificationSchema: Option<Json>
    const roleCategorizationSchema: Option<Json>
    const welcomeTemperature: real
    const welcomeHardcode: bool
    const welcomeHardcodeMessage: string
    const welcomeMaxPromptChars: int
    const welcomeMaxResponseTokens: int

    /** The call metrics. */
    var calls: nat
    var truncatedResponses: nat
    var totalEstimatedPromptTokens: nat
    var totalCharsSent: nat

    /** A client configured from the environment variables' values (`None` when unset). */
    constructor(modelName: string, userVerificationSchema: Option<Json>, roleCategorizationSchema: Option<Json>,
                envDefaultMaxTokens: Option<string>, welcomeTemperature: real, envWelcomeHardcode: Option<string>,
                envWelcomeHardcodeMessage: Option<string>, envWelcomeMaxPromptChars: Option<string>,
                envWelcomeMaxResponseTokens: Option<string>)
      ensures this.modelName == modelName
      ensures this.userVerificationSchema == userVerificationSchema
      ensures this.roleCategorizationSchema == roleCategorizationSchema
      ensures defaultMaxTokens == EnvInt(envDefaultMaxTokens, 4096)
      ensures this.welcomeTemperature == welcomeTemperature
      ensures welcomeHardcode == HardcodeFlag(envWelcomeHardcode)
      ensures welcomeHardcodeMessage == envWelcomeHardcodeMessage.GetOr("")
      ensures welcomeMaxPromptChars == EnvInt(envWelcomeMaxPromptChars, 800)
      ensures welcomeMaxResponseTokens == EnvInt(envWelcomeMaxResponseTokens, 1024)
      ensures calls == 0 && truncatedResponses == 0 && totalEstimatedPromptTokens == 0 && totalCharsSent == 0
    {
      this.modelName := modelName;
      this.userVerificationSchema := userVerificationSchema;
      this.roleCategorizationSchema := roleCategorizationSchema;
      defaultMaxTokens := EnvInt(envDefaultMaxTokens, 4096);
      this.welcomeTemperature := welcomeTemperature;
      welcomeHardcode := HardcodeFlag(envWelcomeHardcode);
      welcomeHardcodeMessage := envWelcomeHardcodeMessage.GetOr("");
      welcomeMaxPromptChars := EnvInt(envWelcomeMaxPromptChars, 800);
      welcomeMaxResponseTokens := EnvInt(envWelcomeMaxResponseTokens, 1024);
      calls := 0;
      truncatedResponses := 0;
      totalEstimatedPromptTokens := 0;
      totalCharsSent := 0;
    }

    /** One request: the payload, the metrics, up to two POSTs (`first`, and `second` only
        after a timeout) and the response handed back. `posts` is the number of POSTs made. */
    method MakeLlmRequest(messages: seq<Entry>, temperature: real, maxTokens: Option<int>,
                          functions: seq<Json>, functionCall: Option<Json>,
                          first: PostOutcome, second: PostOutcome)
      returns (payload: Payload, posts: nat, data: Option<Json>)
      modifies this
      ensures payload == BuildPayload(modelName, defaultMaxTokens, messages, temperature, maxTokens, functions, functionCall)
      ensures 1 <= posts <= MAX_ATTEMPTS && (posts == 2 <==> IsTimeout(first))
      ensures data == RequestData(first, second)
      ensures data.Some? ==> data.value.JObject?
      ensures calls == old(calls) + 1
      ensures totalCharsSent == old(totalCharsSent) + PromptChars(messages)
      ensures totalEstimatedPromptTokens == old(totalEstimatedPromptTokens) + EstimatedTokens(PromptChars(messages))
      ensures truncatedResponses == old(truncatedResponses) + if CountsTruncated(first, second) then 1 else 0
    {
      payload := BuildPayload(modelName, defaultMaxTokens, messages, temperature, maxTokens, functions, functionCall);
      var chars := PromptChars(messages);
      calls := calls + 1;
      totalEstimatedPromptTokens := totalEstimatedPromptTokens + EstimatedTokens(chars);
      totalCharsSent := totalCharsSent + chars;

      var attempts := [first, second];
      var outcome := first;
      posts := 1;
      while IsTimeout(outcome) && posts < MAX_ATTEMPTS
        invariant 1 <= posts <= MAX_ATTEMPTS && outcome == attempts[posts - 1]
        invariant posts == 2 ==> IsTimeout(first)
        decreases MAX_ATTEMPTS - posts
      {
        posts := posts + 1;
        outcome := attempts[posts - 1];
      }
      assert outcome == FinalOutcome(first, second);

      var body := Delivered(outcome);
      if body.Some? && IsTruncated(body.value) {
        truncatedResponses := truncatedResponses + 1;
      }
      data := if body.Some? && HasContentStructure(body.value) == Some(true) then body else None;
      RequestDataIsObject(first, second);
    }

    /** The summary of a finished verification: an error text for a bad template, otherwise
        the stripped content of the response (`None` when there is none). */
    method GenerateNewUserSummary(historyText: string, rolesText: string, template: string, language: string,
                                  maxResponseTokens: Option<int>, first: PostOutcome, second: PostOutcome)
      returns (r: Option<string>)
      modifies this
      ensures var fields := map["language" := language, "conversation_history" := historyText,
                                "assigned_roles_names_list" := rolesText];
        match Substitute(template, fields)
        case MissingKey(_) => r == Some("Error: Could not generate summary due to a prompt formatting issue.")
        case BadTemplate => r == Some("Error: Could not generate summary due to an unexpected prompt issue.")
        case Substituted(_) => r == SummaryFromResponse(RequestData(first, second))
    {
      var fields := map["language" := language, "conversation_history" := historyText,
                        "assigned_roles_names_list" := rolesText];
      match Substitute(template, fields)
      case MissingKey(_) =>
        r := Some("Error: Could not generate summary due to a prompt formatting issue.");
      case BadTemplate =>
        r := Some("Error: Could not generate summary due to an unexpected prompt issue.");
      case Substituted(prompt) =>
        var budget := SummaryBudget(maxResponseTokens, defaultMaxTokens);
        var _, _, data := MakeLlmRequest([Entry(System, JStr(prompt))], 0.6, Some(budget), [], None, first, second);
        r := SummaryFromResponse(data);
    }

    /** The suspicion verdict for a member's messages; `None` for an empty template, no
        response or an unusable one. `classificationSchema` is the function schema file's
        contents, if it could be read. */
    method ClassifyUserForSuspicion(userMessages: string, template: string, maxResponseTokens: Option<int>,
                                    classificationSchema: Option<Json>, first: PostOutcome, second: PostOutcome,
                                    parse: string -> Option<Json>)
      returns (payload: Option<Payload>, r: Option<Json>)
      modifies this
      ensures template == [] ==> payload.None? && r.None? && calls == old(calls)
      ensures template != [] ==> r == SuspicionFromResponse(RequestData(first, second), parse)
      ensures template != [] ==>
        && payload.Some?
        && payload.value.messages == [Entry(System, JStr(SuspicionSystemPrompt(template))), Entry(User, JStr(userMessages))]
        && payload.value.maxTokens == (var b := SuspicionBudget(maxResponseTokens, defaultMaxTokens); if b != 0 then b else defaultMaxTokens)
        && (payload.value.functions.Some? <==> classificationSchema.Some?)
      ensures r.Some? ==> r.value.JObject?
    {
      if template == [] {
        return None, None;
      }
      var messages := [Entry(System, JStr(SuspicionSystemPrompt(template))), Entry(User, JStr(userMessages))];
      var budget := SuspicionBudget(maxResponseTokens, defaultMaxTokens);
      var p, posts, data;
      if classificationSchema.Some? {
        p, posts, data := MakeLlmRequest(messages, 0.0, Some(budget), [classificationSchema.value],
                                     Some(CallNamed(CLASSIFY_FUNCTION)), first, second);
      } else {
        p, posts, data := MakeLlmRequest(messages, 0.0, Some(budget), [], None, first, second);
      }
      payload := Some(p);
      r := SuspicionFromResponse(data, parse);
    }

    /** The categorisation of the candidate roles; no categories when the schema is missing
        or the response is unusable. */
    method CategorizeServerRoles(roles: seq<RoleData>, prompt: string, first: PostOutcome, second: PostOutcome,
                                 parse: string -> Option<Json>)
      returns (r: Categories)
      modifies this
      ensures roleCategorizationSchema.None? || !Truthy(roleCategorizationSchema.value) ==> r == [] && calls == old(calls)
      ensures r != [] ==> AllIds(r) == RoleIdSet(roles)
      ensures roleCategorizationSchema.Some? && Truthy(roleCategorizationSchema.value) ==>
        CategoriesFor(RequestData(first, second), roles, parse, r)
    {
      if roleCategorizationSchema.None? || !Truthy(roleCategorizationSchema.value) {
        return [];
      }
      var messages := [Entry(System, JStr(CategorizationPrompt(prompt, roles)))];
      var _, _, data := MakeLlmRequest(messages, 0.1, Some(defaultMaxTokens), [roleCategorizationSchema.value],
                                       Some(CallNamed(CATEGORIZE_FUNCTION)), first, second);
      r := CategoriesFromResponse(data, roles, parse);
    }

    /** The next step of a verification dialogue: error guidance for a bad template, `None`
        when the schema is missing, otherwise the LLM's acceptable guidance or the fallback. */
    method GetVerificationGuidance(userMessage: string, history: seq<Entry>, taxonomy: Taxonomy,
                                   availableRoles: map<int, string>, template: string, maxResponseTokens: Option<int>,
                                   first: PostOutcome, second: PostOutcome, parse: string -> Option<Json>)
      returns (payload: Option<Payload>, g: Option<Json>)
      modifies this
      ensures var s := Substitute(template, map["available_roles_text_list" := RolesText(taxonomy, availableRoles)]);
        && (s.MissingKey? ==> g == Some(PromptErrorGuidance()) && payload.None?)
        && (s.BadTemplate? ==> g == Some(PromptSyntaxErrorGuidance()) && payload.None?)
        && (s.Substituted? && (userVerificationSchema.None? || !Truthy(userVerificationSchema.value)) ==> g.None? && payload.None?)
        && (s.Substituted? && userVerificationSchema.Some? && Truthy(userVerificationSchema.value) ==>
              && g.Some? && IsAcceptable(g.value)
              && ResponseGuidance(RequestData(first, second), parse, g.value)
              && payload.Some?
              && payload.value.messages == [Entry(System, JStr(s.text))] + history + [Entry(User, JStr(userMessage))]
              && payload.value.functionCall == Some(CallNamed(PROPOSE_FUNCTION)))
      ensures payload.None? ==> calls == old(calls)
    {
      var rolesText := RolesText(taxonomy, availableRoles);
      match Substitute(template, map["available_roles_text_list" := rolesText])
      case MissingKey(_) =>
        return None, Some(PromptErrorGuidance());
      case BadTemplate =>
        return None, Some(PromptSyntaxErrorGuidance());
      case Substituted(systemPrompt) =>
        var messages := [Entry(System, JStr(systemPrompt))] + history + [Entry(User, JStr(userMessage))];
        if userVerificationSchema.None? || !Truthy(userVerificationSchema.value) {
          return None, None;
        }
        var budget := if maxResponseTokens.Some? && maxResponseTokens.value != 0 then maxResponseTokens.value else defaultMaxTokens;
        var p, posts, data := MakeLlmRequest(messages, 0.3, Some(budget), [userVerificationSchema.value],
                                         Some(CallNamed(PROPOSE_FUNCTION)), first, second);
        assert Truthy(CallNamed(PROPOSE_FUNCTION));
        var guidance := GuidanceFromResponse(data, parse);
        payload, g := Some(p), Some(guidance);
    }

    /** The welcome message for a new member: the hard-coded or default text when configured
        or when the LLM gives nothing usable. A cut-off empty answer is retried once with a
        larger budget (`retryFirst`, `retrySecond`) when the default allows one. */
    method GenerateWelcomeMessage(memberName: string, serverName: string, memberId: int, template: string,
                                  first: PostOutcome, second: PostOutcome, retryFirst: PostOutcome, retrySecond: PostOutcome,
                                  parse: string -> Option<Json>, dumps: Json -> string)
      returns (requests: nat, text: string)
      modifies this
      ensures text != []
      ensures welcomeHardcode ==> text == WelcomeFallback(welcomeHardcodeMessage, serverName, memberId)
      ensures requests == (if WelcomeNeedsRetry(RequestData(first, second))
                              && WelcomeRetryBudget(welcomeMaxResponseTokens, defaultMaxTokens) > welcomeMaxResponseTokens
                           then 2 else 1)
      ensures calls == old(calls) + requests
      ensures requests == 1 && !welcomeHardcode ==>
        var generated := WelcomeFromResponse(RequestData(first, second), parse, dumps);
        text == if generated.Some? then generated.value else WelcomeFallback(welcomeHardcodeMessage, serverName, memberId)
      ensures requests == 2 && !welcomeHardcode ==>
        var retried := RequestData(retryFirst, retrySecond);
        var data := if retried.Some? && Truthy(retried.value) then retried else RequestData(first, second);
        var generated := WelcomeFromResponse(data, parse, dumps);
        text == if generated.Some? then generated.value else WelcomeFallback(welcomeHardcodeMessage, serverName, memberId)
    {
      var system := WelcomeSystemPrompt(template, serverName, memberName, memberId, welcomeMaxPromptChars);
      var ask := WelcomeUserMessage(memberName, memberId);
      var messages := [Entry(System, JStr(system)), Entry(User, JStr(ask))];
      var _, _, data := MakeLlmRequest(messages, welcomeTemperature, Some(welcomeMaxResponseTokens), [], None, first, second);
      requests := 1;
      if WelcomeNeedsRetry(data) {
        var retryTokens := WelcomeRetryBudget(welcomeMaxResponseTokens, defaultMaxTokens);
        if retryTokens > welcomeMaxResponseTokens {
          var _, _, retried := MakeLlmRequest(messages, welcomeTemperature, Some(retryTokens), [], None, retryFirst, retrySecond);
          requests := 2;
          if retried.Some? && Truthy(retried.value) {
            data := retried;
          }
        }
      }
      var fallback := WelcomeFallback(welcomeHardcodeMessage, serverName, memberId);
      if welcomeHardcode {
        return requests, fallback;
      }
      var generated := WelcomeFromResponse(data, parse, dumps);
      if generated.Some? {
        text := generated.value;
      } else {
        text := fallback;
      }
    }
  }
}
