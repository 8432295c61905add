/** How the LLM client reads a response: the first choice, its function call, the
    message content, and what the summary, suspicion and welcome calls make of them. */
module LlmResponses {
  import opened Wrappers
  import opened Text
  import opened Json

  /** `d.get("choices", [{}])[0]`; `None` when Python raises. */
  function FirstChoice(d: Json): Option<Json> {
    match PyGetOr(d, "choices", JArray([JObject([])]))
    case None => None
    case Some(choices) => PyFirst(choices)
  }

  /** The outcome of `choice.get("message", {}).get("function_call")`. */
  datatype CallLookup = Raised | NoCall | Call(fc: Json)

  function ChoiceFunctionCall(choice: Json): CallLookup {
    match PyGetOr(choice, "message", JObject([]))
    case None => Raised
    case Some(message) =>
      match PyGet(message, "function_call")
      case None => Raised
      case Some(fc) => if Truthy(fc) then Call(fc) else NoCall
  }

  /** The `arguments` string of the first choice's call to `name`, as the guidance and the
      categorisation read it; `None` whenever they give up (no call, another name, arguments
      that are not a string, or an exception on the way). */
  function NamedCallArguments(d: Json, name: string): Option<string> {
    match FirstChoice(d)
    case None => None
    case Some(choice) =>
      if !choice.JObject? then None
      else match ChoiceFunctionCall(choice)
        case Call(fc) =>
          if fc.JObject? && Get(fc.fields, "name") == Some(JStr(name)) then
            match Get(fc.fields, "arguments").GetOr(JStr("{}"))
            case JStr(arguments) => Some(arguments)
            case _ => None
          else None
        case _ => None
  }

  /** A response whose first choice calls `name` with string arguments yields them. */
  lemma NamedCallFound(name: string, arguments: string)
    ensures var call := JObject([("name", JStr(name)), ("arguments", JStr(arguments))]);
      var d := JObject([("choices", JArray([JObject([("message", JObject([("function_call", call)]))])]))]);
      NamedCallArguments(d, name) == Some(arguments)
  {
    var call := JObject([("name", JStr(name)), ("arguments", JStr(arguments))]);
    GetSkipLast(call.fields, "name");
    assert call.fields[..1] == [("name", JStr(name))];
  }

  /** A call to another function is ignored. */
  lemma OtherCallIgnored(d: Json, name: string, other: string)
    requires FirstChoice(d).Some? && FirstChoice(d).value.JObject?
    requires var c := ChoiceFunctionCall(FirstChoice(d).value);
      c.Call? && c.fc.JObject? && Get(c.fc.fields, "name") == Some(JStr(other))
    requires other != name
    ensures NamedCallArguments(d, name).None?
  {
  }

  /** The message content, from `message.content` or else `choices[0].message.content`
      (`None` when neither is there); only dicts are looked into. */
  function ContentOf(d: Json): Option<Json> {
    if !d.JObject? then None
    else
      var message := Get(d.fields, "message");
      if message.Some? && message.value.JObject? && HasKey(message.value.fields, "content") then
        Get(message.value.fields, "content")
      else
        var choices := Get(d.fields, "choices");
        if choices.Some? && choices.value.JArray? && |choices.value.items| > 0 && choices.value.items[0].JObject? then
          var choiceMessage := Get(choices.value.items[0].fields, "message");
          if choiceMessage.Some? && choiceMessage.value.JObject? && HasKey(choiceMessage.value.fields, "content") then
            Get(choiceMessage.value.fields, "content")
          else None
        else None
  }

  /** The summary text of a response: a string content, stripped; anything else gives nothing. */
  function SummaryFromResponse(data: Option<Json>): (r: Option<string>)
    ensures r.Some? ==> Strip(r.value) == r.value
    ensures r.Some? <==> data.Some? && Truthy(data.value) && ContentOf(data.value).Some? && ContentOf(data.value).value.JStr?
  {
    if data.Some? && Truthy(data.value) then
      match ContentOf(data.value)
      case Some(JStr(s)) => StripIdempotent(s); Some(Strip(s))
      case _ => None
    else None
  }

  /** The verdict dict the suspicion check builds itself. */
  function Verdict(isSuspicious: bool, reason: string): Json {
    JObject([("is_suspicious", JBool(isSuspicious)), ("reason", JStr(reason))])
  }

  /** The keyword heuristic over lower-cased text. */
  predicate HasSuspiciousKeyword(text: string) {
    var lower := Lower(text);
    Contains(lower, "spam") || Contains(lower, "bot") || Contains(lower, "nonsense")
    || Contains(lower, "scam") || Contains(lower, "phishing") || Contains(lower, "malicious")
  }

  /** The heuristic verdict: suspicious iff a keyword occurs; the reason is the first 800 characters. */
  function HeuristicVerdict(text: string): Json {
    Verdict(HasSuspiciousKeyword(text), SliceTo(text, 800))
  }

  /** The verdict for a response to the suspicion check; `None` where Python raises or
      there is no response. A function call's arguments are parsed (a non-dict result
      raises); undecodable arguments become a non-suspicious verdict quoting them.
      Otherwise the content is parsed, falling back to the keyword heuristic. */
  function SuspicionFromResponse(data: Option<Json>, parse: string -> Option<Json>): (r: Option<Json>)
    ensures r.Some? ==> r.value.JObject?
  {
    if data.None? || !Truthy(data.value) then None
    else
      var d := data.value;
      match FirstChoice(d)
      case None => None
      case Some(choice) =>
        match PyGetOr(choice, "message", JObject([]))
        case None => None
        case Some(message) =>
          match PyGet(message, "function_call")
          case None => None
          case Some(fc) =>
            if Truthy(fc) then
              match PyGetOr(fc, "arguments", JStr("{}"))
              case Some(JStr(arguments)) =>
                (match parse(arguments)
                 case None => Some(Verdict(false, SliceTo(arguments, 800)))
                 case Some(p) => if p.JObject? then Some(p) else None)
              case _ => None
            else SuspicionFromContent(SuspicionContent(d, message), parse)
  }

  /** The content the suspicion check reads: `message.content` when present, else a
      truthy `choices[0].message.content`, else the empty string. */
  function SuspicionContent(d: Json, message: Json): Json
    requires message.JObject?
  {
    var direct := if d.JObject? then Get(d.fields, "message") else None;
    if direct.Some? && direct.value.JObject? && HasKey(direct.value.fields, "content") then
      Get(direct.value.fields, "content").value
    else
      var content := Get(message.fields, "content").GetOr(JNull);
      if Truthy(content) then content else JStr("")
  }

  function SuspicionFromContent(content: Json, parse: string -> Option<Json>): (r: Option<Json>)
    ensures r.Some? ==> r.value.JObject?
  {
    if Truthy(content) && !content.JStr? && !content.JArray? then None
    else if content.JStr? && parse(content.s).Some? && parse(content.s).value.JObject? then parse(content.s)
    else if Truthy(content) && !content.JStr? then None
    else Some(HeuristicVerdict(if content.JStr? then content.s else ""))
  }

  /** Content that is not a JSON dict is judged by the keywords, both ways. */
  lemma HeuristicDecides(text: string, parse: string -> Option<Json>)
    requires parse(text).None? || !parse(text).value.JObject?
    ensures SuspicionFromContent(JStr(text), parse) == Some(HeuristicVerdict(text))
    ensures var v := HeuristicVerdict(text);
      Get(v.fields, "is_suspicious") == Some(JBool(HasSuspiciousKeyword(text)))
      && Get(v.fields, "reason") == Some(JStr(SliceTo(text, 800)))
  {
    var v := HeuristicVerdict(text);
    GetSkipLast(v.fields, "is_suspicious");
    assert v.fields[..1] == [("is_suspicious", JBool(HasSuspiciousKeyword(text)))];
  }

  /** Function-call arguments that do not decode give a non-suspicious verdict quoting them. */
  lemma UndecodableArgumentsNotSuspicious(arguments: string, parse: string -> Option<Json>)
    requires parse(arguments).None?
    ensures var call := JObject([("arguments", JStr(arguments))]);
      var d := JObject([("choices", JArray([JObject([("message", JObject([("function_call", call)]))])]))]);
      SuspicionFromResponse(Some(d), parse) == Some(Verdict(false, SliceTo(arguments, 800)))
  {
  }

  /** The first of the `welcome_message`, `message`, `content` and `text` fields that is a string. */
  function FirstTextField(fields: seq<(string, Json)>): (r: Option<string>)
    ensures r.Some? ==> exists k :: k in ["welcome_message", "message", "content", "text"] && Get(fields, k) == Some(JStr(r.value))
  {
    if Get(fields, "welcome_message").Some? && Get(fields, "welcome_message").value.JStr? then Some(Get(fields, "welcome_message").value.s)
    else if Get(fields, "message").Some? && Get(fields, "message").value.JStr? then Some(Get(fields, "message").value.s)
    else if Get(fields, "content").Some? && Get(fields, "content").value.JStr? then Some(Get(fields, "content").value.s)
    else if Get(fields, "text").Some? && Get(fields, "text").value.JStr? then Some(Get(fields, "text").value.s)
    else None
  }

  /** The welcome text after the function-call fallback, given the content found so far
      (`JNull` standing for Python's `None`). Failures inside this step keep `current`. */
  function WelcomeFromCall(d: Json, current: Json, parse: string -> Option<Json>, dumps: Json -> string): Json
    requires d.JObject?
  {
    var choices := Get(d.fields, "choices");
    if !(choices.Some? && choices.value.JArray? && |choices.value.items| > 0) then current
    else
      var choice := choices.value.items[0];
      if !choice.JObject? then current
      else
        var message := Get(choice.fields, "message");
        var func := if message.Some? && message.value.JObject? then Get(message.value.fields, "function_call").GetOr(JNull) else JNull;
        if !Truthy(func) || PyIn("arguments", func) != Some(true) || !func.JObject? then current
        else
          match Get(func.fields, "arguments").GetOr(JStr(""))
          case JStr(arguments) =>
            (match parse(arguments)
             case None => JStr(arguments)
             case Some(p) =>
               if p.JObject? then
                 match FirstTextField(p.fields)
                 case Some(text) => JStr(text)
                 case None => if current.JNull? then JStr(dumps(p)) else current
               else if p.JStr? then p
               else current)
          case _ => current
  }

  /** The welcome message a response yields, if any: the content (or, when that is falsy,
      what the function call carries), stripped and non-empty. */
  function WelcomeFromResponse(data: Option<Json>, parse: string -> Option<Json>, dumps: Json -> string): (r: Option<string>)
    ensures r.Some? ==> r.value != [] && Strip(r.value) == r.value
  {
    if data.None? || !Truthy(data.value) || !data.value.JObject? then None
    else
      var d := data.value;
      var content := ContentOf(d).GetOr(JNull);
      var text := if Truthy(content) then content else WelcomeFromCall(d, content, parse, dumps);
      if text.JStr? && Strip(text.s) != [] then
        StripIdempotent(text.s);
        Some(Strip(text.s))
      else None
  }

  /** The welcome retry is wanted when the first choice was cut off (`finish_reason ==
      'length'`) with no content. */
  predicate WelcomeNeedsRetry(data: Option<Json>) {
    && data.Some? && Truthy(data.value) && data.value.JObject?
    && var choices := Get(data.value.fields, "choices");
    && choices.Some? && choices.value.JArray? && |choices.value.items| > 0
    && var choice := choices.value.items[0];
    && choice.JObject?
    && Get(choice.fields, "finish_reason") == Some(JStr("length"))
    && var message := Get(choice.fields, "message");
    && !(message.Some? && message.value.JObject? && Truthy(Get(message.value.fields, "content").GetOr(JNull)))
  }

  /** A message content with text always wins over a function call. */
  lemma WelcomePrefersContent(data: Option<Json>, parse: string -> Option<Json>, dumps: Json -> string, s: string)
    requires data.Some? && data.value.JObject? && Truthy(data.value)
    requires ContentOf(data.value) == Some(JStr(s)) && Strip(s) != []
    ensures WelcomeFromResponse(data, parse, dumps) == Some(Strip(s))
  {
  }
}
