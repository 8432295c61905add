/** The request rules of the LLM client: the payload it posts, the two POST attempts,
    which responses it hands back and when it counts a truncated response. */
module LlmTransport {
  import opened Wrappers
  import opened Text
  import opened Json
  import opened Chat

  /** The number of POST attempts. */
  const MAX_ATTEMPTS: nat := 2

  /** What one POST ends in: one of the two kinds of timeout, another transport error,
      or an HTTP response whose body `json()` decodes (`None` when it does not). */
  datatype PostOutcome =
    | ReadTimeout
    | OtherTimeout
    | TransportError
    | Response(status: int, body: Option<Json>)

  predicate IsTimeout(o: PostOutcome) {
    o.ReadTimeout? || o.OtherTimeout?
  }

  /** The JSON body posted to the chat-completions endpoint; an absent optional field is `None`. */
  datatype Payload = Payload(
    model: string,
    messages: seq<Entry>,
    temperature: real,
    maxTokens: int,
    functions: Option<seq<Json>>,
    functionCall: Option<Json>)

  /** Models whose name contains `gpt-5` only accept temperature 1.0. */
  predicate IsGpt5(model: string) {
    Contains(Lower(model), "gpt-5")
  }

  /** The payload for one request; `maxTokens` of `None` or 0 falls back to the default. */
  function BuildPayload(model: string, defaultMaxTokens: int, messages: seq<Entry>, temperature: real,
                        maxTokens: Option<int>, functions: seq<Json>, functionCall: Option<Json>): (p: Payload)
    ensures p.model == model && p.messages == messages
    ensures p.temperature == if IsGpt5(model) then 1.0 else temperature
    ensures p.maxTokens == if maxTokens.Some? && maxTokens.value != 0 then maxTokens.value else defaultMaxTokens
    ensures p.functions.Some? <==> functions != []
    ensures p.functions.Some? ==> p.functions.value == functions
    ensures p.functionCall.Some? <==> functionCall.Some? && Truthy(functionCall.value)
    ensures p.functionCall.Some? ==> p.functionCall == functionCall
  {
    Payload(
      model,
      messages,
      if IsGpt5(model) then 1.0 else temperature,
      if maxTokens.Some? && maxTokens.value != 0 then maxTokens.value else defaultMaxTokens,
      if functions != [] then Some(functions) else None,
      if functionCall.Some? && Truthy(functionCall.value) then functionCall else None)
  }

  /** The text whose length the client records: the message contents joined by newlines,
      or nothing when a content is not a string (the join raises). */
  function PromptText(messages: seq<Entry>): string {
    if forall k :: 0 <= k < |messages| ==> messages[k].content.JStr? then
      Join(seq(|messages|, k requires 0 <= k < |messages| && messages[k].content.JStr? => messages[k].content.s), "\n")
    else ""
  }

  /** The number of characters the client records for a request. */
  function PromptChars(messages: seq<Entry>): nat {
    |PromptText(messages)|
  }

  /** With every content a string, the count is the contents' lengths plus one per separator. */
  lemma PromptCharsOfStrings(messages: seq<Entry>, contents: seq<string>)
    requires |messages| >= 1 && |contents| == |messages|
    requires forall k :: 0 <= k < |messages| ==> messages[k].content == JStr(contents[k])
    ensures PromptChars(messages) == TotalLength(contents) + |messages| - 1
  {
    assert forall k :: 0 <= k < |messages| ==> messages[k].content.JStr?;
    var texts := seq(|messages|, k requires 0 <= k < |messages| && messages[k].content.JStr? => messages[k].content.s);
    assert PromptText(messages) == Join(texts, "\n");
    assert texts == contents by {
      forall k | 0 <= k < |messages| ensures texts[k] == contents[k] {
        assert messages[k].content == JStr(contents[k]);
      }
    }
    JoinLength(contents, "\n");
  }

  /** The rough token estimate: a quarter of the characters, at least one. */
  function EstimatedTokens(chars: nat): (t: nat)
    ensures t >= 1
    ensures chars >= 4 ==> 4 * t <= chars < 4 * t + 4
    ensures chars < 4 ==> t == 1
  {
    if chars / 4 >= 1 then chars / 4 else 1
  }

  /** The outcome the client acts on: the second attempt is made only after a timeout. */
  function FinalOutcome(first: PostOutcome, second: PostOutcome): PostOutcome {
    if IsTimeout(first) then second else first
  }

  /** `raise_for_status` lets only 2xx statuses through. */
  predicate IsSuccess(status: int) {
    200 <= status < 300
  }

  /** The decoded body of a successful response, before the shape check. */
  function Delivered(o: PostOutcome): Option<Json> {
    if o.Response? && IsSuccess(o.status) then o.body else None
  }

  /** The first choice of a response ended with `finish_reason == 'length'`. */
  predicate IsTruncated(d: Json) {
    && d.JObject?
    && var choices := Get(d.fields, "choices");
    && choices.Some? && choices.value.JArray? && |choices.value.items| > 0
    && choices.value.items[0].JObject?
    && Get(choices.value.items[0].fields, "finish_reason") == Some(JStr("length"))
  }

  /** The shape check: a `message` with a `content`, or a truthy `choices` whose first
      entry has a `message` with a `content` or a `function_call`. `None` when a
      membership test or an index raises. */
  function HasContentStructure(d: Json): Option<bool> {
    match PyIn("message", d)
    case None => None
    case Some(hasMessage) =>
      var direct :=
        if !hasMessage then Some(false)
        else match PyKey(d, "message")
          case None => None
          case Some(m) => PyIn("content", m);
      match direct
      case None => None
      case Some(true) => Some(true)
      case Some(false) => HasChoiceStructure(d)
  }

  function HasChoiceStructure(d: Json): Option<bool> {
    match PyIn("choices", d)
    case None => None
    case Some(false) => Some(false)
    case Some(true) =>
      match PyKey(d, "choices")
      case None => None
      case Some(choices) =>
        if !Truthy(choices) then Some(false)
        else match PyFirst(choices)
          case None => None
          case Some(c0) =>
            match PyIn("message", c0)
            case None => None
            case Some(false) => Some(false)
            case Some(true) =>
              match PyKey(c0, "message")
              case None => None
              case Some(m) =>
                match PyIn("content", m)
                case None => None
                case Some(true) => Some(true)
                case Some(false) => PyIn("function_call", m)
  }

  /** What the request hands back: a successful, decoded response of the right shape. */
  function RequestData(first: PostOutcome, second: PostOutcome): Option<Json> {
    var body := Delivered(FinalOutcome(first, second));
    if body.Some? && HasContentStructure(body.value) == Some(true) then body else None
  }

  /** Whether the request adds one to the truncated-responses counter. */
  predicate CountsTruncated(first: PostOutcome, second: PostOutcome) {
    var body := Delivered(FinalOutcome(first, second));
    body.Some? && IsTruncated(body.value)
  }

  /** Every response the client hands back is a JSON object. */
  lemma RequestDataIsObject(first: PostOutcome, second: PostOutcome)
    ensures RequestData(first, second).Some? ==> RequestData(first, second).value.JObject?
  {
    var body := Delivered(FinalOutcome(first, second));
    if body.Some? && !body.value.JObject? {
      NonObjectHasNoStructure(body.value);
    }
  }

  lemma NonObjectHasNoStructure(d: Json)
    requires !d.JObject?
    ensures HasContentStructure(d) != Some(true)
  {
    assert PyKey(d, "message") == None && PyKey(d, "choices") == None;
  }

  /** The answer does not depend on the second attempt unless the first timed out. */
  lemma SecondAttemptOnlyAfterTimeout(first: PostOutcome, second: PostOutcome, other: PostOutcome)
    requires !IsTimeout(first)
    ensures RequestData(first, second) == RequestData(first, other)
    ensures CountsTruncated(first, second) == CountsTruncated(first, other)
  {
  }

  /** Two timeouts, a transport error, a non-2xx status or an undecodable body give nothing. */
  lemma FailuresGiveNothing(first: PostOutcome, second: PostOutcome)
    requires var o := FinalOutcome(first, second);
      IsTimeout(o) || o.TransportError? || (o.Response? && (!IsSuccess(o.status) || o.body.None?))
    ensures RequestData(first, second).None? && !CountsTruncated(first, second)
  {
  }

  /** A response that only has a message content is handed back as it is. */
  lemma DirectContentAccepted(status: int, fields: seq<(string, Json)>, m: seq<(string, Json)>)
    requires IsSuccess(status)
    requires Get(fields, "message") == Some(JObject(m)) && HasKey(m, "content")
    ensures RequestData(Response(status, Some(JObject(fields))), TransportError) == Some(JObject(fields))
  {
  }

  /** A choice whose message carries only a function call passes the shape check. */
  lemma FunctionCallAccepted(status: int, fields: seq<(string, Json)>, c0: seq<(string, Json)>, m: seq<(string, Json)>)
    requires IsSuccess(status) && !HasKey(fields, "message")
    requires Get(fields, "choices") == Some(JArray([JObject(c0)]))
    requires Get(c0, "message") == Some(JObject(m)) && HasKey(m, "function_call")
    ensures RequestData(Response(status, Some(JObject(fields))), TransportError) == Some(JObject(fields))
  {
    var d := JObject(fields);
    var choices := JArray([JObject(c0)]);
    assert PyIn("message", d) == Some(false);
    assert HasContentStructure(d) == HasChoiceStructure(d);
    assert PyKey(d, "choices") == Some(choices) && Truthy(choices);
    assert PyFirst(choices) == Some(JObject(c0));
    assert PyIn("message", JObject(c0)) == Some(true);
    assert HasChoiceStructure(d) == Some(true);
  }

  /** A truncated answer is counted even when the shape check then rejects it. */
  lemma TruncationCountedBeforeShapeCheck()
    ensures var body := JObject([("choices", JArray([JObject([("finish_reason", JStr("length"))])]))]);
      CountsTruncated(Response(200, Some(body)), TransportError)
      && RequestData(Response(200, Some(body)), TransportError).None?
  {
    var c0 := JObject([("finish_reason", JStr("length"))]);
    var body := JObject([("choices", JArray([c0]))]);
    assert !HasKey(c0.fields, "message");
    assert !HasKey(body.fields, "message");
  }
}
