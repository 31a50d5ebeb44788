/**
 * The request-independent logic of `AIService` (Services/AIService.swift and
 * its older copy AIService.swift, which differ only in the `parseText`
 * prompt): the prompts, the choice of provider, key, endpoint and model, the
 * key check that precedes any request, the status check, the walk down the
 * fixed reply shape, and the cleaning of a reply before it is decoded.
 *
 * The network is the `send` function of an `Env`: it receives the one
 * request a call makes and returns the reply (its status and the reply body
 * already read as JSON, or a transport failure).  `UserDefaults`, `URL(string:)`
 * and `JSONDecoder` are the other fields of `Env`.
 */
module AIService {
  import opened Common
  import opened Localization

  /** `ParsedBill`: what the model extracts from a sentence (`type` is `kind`). */
  datatype ParsedBill = ParsedBill(amount: real, category: string, kind: string, note: string, channel: string)

  /** The `URLError` codes the service throws, plus the errors it passes through. */
  datatype AIError =
    | UserAuthenticationRequired
    | BadServerResponse
    | CannotDecodeContentData
    | BadURL
    | TransportFailed
    | DecodingFailed

  /** A JSON value as `JSONSerialization` delivers it. */
  datatype Json =
    | JNull
    | JBool(b: bool)
    | JNumber(n: real)
    | JString(s: string)
    | JArray(items: seq<Json>)
    | JObject(fields: map<string, Json>)

  /** A POST request: its URL, its `Authorization` header if any, and its JSON body. */
  datatype Request = Request(url: string, authorization: Option<string>, body: Json)

  /** What `URLSession` hands back: a failure, or a status (absent for a non-HTTP reply) and the body read as JSON (absent when it is not JSON). */
  datatype Response = Failed | Received(status: Option<int>, json: Option<Json>)

  /** The outside world: stored settings, URL validity, the network, and the `ParsedBill` decoder. */
  datatype Env = Env(
    setting: string -> Option<string>,
    urlValid: string -> bool,
    send: Request -> Response,
    decode: string -> Option<ParsedBill>)

  /** The result of a call together with the requests it sent, in order. */
  datatype Outcome<T> = Outcome(result: Result<T, AIError>, sent: seq<Request>)

  // ---------------------------------------------------------------------------
  // Prompts

  const AnalysisHeadZh: string := "作为理财顾问，分析：\n"
  const AnalysisTailZh: string := "\n给出：1.消费评价 2.异常预警 3.省钱建议。简洁中文分点。"
  const AnalysisHeadEn: string := "As a financial advisor, analyze: \n"
  const AnalysisTailEn: string := "\nProvide: 1. Spending Evaluation 2. Abnormal Alerts 3. Saving Tips. Concise English bullet points."

  /** `analyzeFinancialData`'s prompt: Chinese for zh-Hans, English otherwise, the summary between head and tail. */
  function AnalysisPrompt(lang: Language, summary: string): (r: string)
    ensures Contains(r, summary)
  {
    if lang == ZhHans then
      EmbedsVerbatim(AnalysisHeadZh, summary, AnalysisTailZh);
      AnalysisHeadZh + summary + AnalysisTailZh
    else
      EmbedsVerbatim(AnalysisHeadEn, summary, AnalysisTailEn);
      AnalysisHeadEn + summary + AnalysisTailEn
  }

  /** A text put between two others occurs in the result. */
  lemma EmbedsVerbatim(a: string, x: string, b: string)
    ensures Contains(a + x + b, x)
  {
    var s := a + x + b;
    assert s[|a|..][..|x|] == x;
    ContainsInSuffix(s, |a|, x);
  }

  /**
   * The prompt holds the summary verbatim, different summaries give different
   * prompts, and the two languages never give the same prompt.
   */
  lemma AnalysisPromptSpec(lang: Language, summary: string, lang': Language, summary': string)
    ensures Contains(AnalysisPrompt(lang, summary), summary)
    ensures AnalysisPrompt(lang, summary) == AnalysisPrompt(lang', summary') ==> lang == lang' && summary == summary'
  {
    if lang == ZhHans {
      EmbedsVerbatim(AnalysisHeadZh, summary, AnalysisTailZh);
    } else {
      EmbedsVerbatim(AnalysisHeadEn, summary, AnalysisTailEn);
    }
    var p, p' := AnalysisPrompt(lang, summary), AnalysisPrompt(lang', summary');
    if p == p' {
      assert p[0] == p'[0];
      if lang == ZhHans {
        AffixCancel(AnalysisHeadZh, summary, summary', AnalysisTailZh);
      } else {
        AffixCancel(AnalysisHeadEn, summary, summary', AnalysisTailEn);
      }
    }
  }

  /** Equal texts with the same head and tail have the same middle. */
  lemma AffixCancel(a: string, x: string, y: string, b: string)
    requires a + x + b == a + y + b
    ensures x == y
  {
    assert |x| == |y|;
    assert x == (a + x + b)[|a|..|a| + |x|];
    assert y == (a + y + b)[|a|..|a| + |y|];
  }

  /** The older `parseText` prompt (AIService.swift). */
  const LegacyParseHead: string := "从文本中提取账单：\""
  const LegacyRulesBefore: string := "\"\n严格返回纯JSON，不要Markdown。"
  const LegacyDefaultChannel: string := "默认渠道\"微信\""
  const LegacyRulesAfter: string := "。\n字段: amount(数字), category(字符串), type(收入/支出), note(备注), channel(字符串)。"

  function LegacyParsePrompt(text: string): string {
    LegacyParseHead + text + LegacyRulesBefore + LegacyDefaultChannel + LegacyRulesAfter
  }

  /** The current `parseText` prompt (Services/AIService.swift), with the whitelist and synonym rules. */
  const ParseHead: string := "任务：从自然语言文本中提取记账数据。\n文本：\""
  const ParseRulesBefore: string :=
    "\"\n" +
    "\n" +
    "请严格遵循以下规则返回纯 JSON（不要 Markdown）：\n" +
    "\n" +
    "1. **amount** (Double): 金额 (纯数字)。\n" +
    "2. **type** (String): 只能是 \"支出\" 或 \"收入\"。\n" +
    "\n" +
    "3. **channel** (String): 必须归类为以下【5个标准选项】之一：\n" +
    "    - 标准选项：[\"微信\", \"支付宝\", \"银行卡\", \"现金\", \"其他\"]\n" +
    "    - 映射规则：\n" +
    "        - 提到 \"信用卡\"、\"借记卡\"、\"贷记卡\"、\"招行\"、\"建行\" 等 -> 归类为 \"银行卡\"\n" +
    "        - 提到 \"人民币\"、\"纸币\"、\"硬币\"、\"Cash\" -> 归类为 \"现金\"\n" +
    "        - 提到 \"花呗\"、\"余额宝\" -> 归类为 \"支付宝\"\n" +
    "        - 如果文本完全未提及支付方式 -> "
  const DefaultChannelRule: string := "默认为 \"微信\""
  const ParseRulesAfter: string :=
    "\n" +
    "        - 如果提到其他不属于上述含义的渠道 -> 归类为 \"其他\"\n" +
    "        \n" +
    "4. **category** (String): 必须归类为以下【10个标准选项】之一：\n" +
    "    - 标准选项：[\"交通\", \"饮食\", \"房租\", \"水电\", \"娱乐\", \"工作\", \"通讯\", \"医疗\", \"日常\", \"其他\"]\n" +
    "    - 映射规则：根据语义归类。\n" +
    "        - 例：打车/加油/地铁 -> \"交通\"\n" +
    "        - 例：吃饭/买菜/零食 -> \"饮食\"\n" +
    "        - 例：话费/宽带/流量 -> \"通讯\"\n" +
    "        - 例：买药/挂号 -> \"医疗\"\n" +
    "        - 例：超市购物/日用品 -> \"日常\"\n" +
    "        - 无法归类的内容 -> \"其他\"\n" +
    "\n" +
    "5. **note** (String): 备注 (保留原始描述，如\"打车去机场\")。\n" +
    "\n" +
    "JSON 示例: {\"amount\": 28.5, \"category\": \"交通\", \"type\": \"支出\", \"channel\": \"银行卡\", \"note\": \"滴滴打车 (信用卡支付)\"}"

  function ParsePrompt(text: string): string {
    ParseHead + text + ParseRulesBefore + DefaultChannelRule + ParseRulesAfter
  }

  /** Both `parseText` prompts quote the sentence verbatim and name WeChat ("微信") as the default channel. */
  lemma ParsePromptsSpec(text: string)
    ensures Contains(LegacyParsePrompt(text), text) && Contains(ParsePrompt(text), text)
    ensures Contains(LegacyParsePrompt(text), LegacyDefaultChannel) && LegacyDefaultChannel == "默认渠道\"微信\""
    ensures Contains(ParsePrompt(text), DefaultChannelRule) && DefaultChannelRule == "默认为 \"微信\""
  {
    EmbedsTwo(LegacyParseHead, text, LegacyRulesBefore, LegacyDefaultChannel, LegacyRulesAfter);
    EmbedsTwo(ParseHead, text, ParseRulesBefore, DefaultChannelRule, ParseRulesAfter);
  }

  /** A text built from five pieces contains its second and its fourth. */
  lemma EmbedsTwo(head: string, x: string, middle: string, y: string, tail: string)
    ensures Contains(head + x + middle + y + tail, x) && Contains(head + x + middle + y + tail, y)
  {
    assert head + x + middle + y + tail == head + x + (middle + y + tail);
    EmbedsVerbatim(head, x, middle + y + tail);
    EmbedsVerbatim(head + x + middle, y, tail);
  }

  // ---------------------------------------------------------------------------
  // Routing and configuration

  datatype Route = Gemini | OpenAICompatible

  /** `switch provider { case "Gemini": ... default: ... }`, and the same test in `parseAndClean`. */
  function RouteFor(provider: string): (r: Route)
    ensures r == Gemini <==> provider == "Gemini"
  {
    if provider == "Gemini" then Gemini else OpenAICompatible
  }

  const DeepSeekKey: string := "deepseek_key"
  const OpenAIKey: string := "openai_key"
  const GeminiKey: string := "gemini_key"
  const DeepSeekEndpoint: string := "https://api.deepseek.com/chat/completions"
  const OpenAIEndpoint: string := "https://api.openai.com/v1/chat/completions"
  const GeminiBase: string := "https://generativelanguage.googleapis.com/v1beta/models/gemini-2.5-flash:generateContent?key="

  /** The settings key of the OpenAI-compatible call: DeepSeek's for "DeepSeek", OpenAI's for any other name. */
  function KeyName(provider: string): string {
    if provider == "DeepSeek" then DeepSeekKey else OpenAIKey
  }

  function Endpoint(provider: string): string {
    if provider == "DeepSeek" then DeepSeekEndpoint else OpenAIEndpoint
  }

  function ModelName(provider: string): string {
    if provider == "DeepSeek" then "deepseek-chat" else "gpt-5.2"
  }

  /** Key, endpoint and model always belong to the same service: DeepSeek exactly for "DeepSeek". */
  lemma ConfigurationConsistent(provider: string)
    ensures KeyName(provider) == DeepSeekKey <==> provider == "DeepSeek"
    ensures Endpoint(provider) == DeepSeekEndpoint <==> provider == "DeepSeek"
    ensures ModelName(provider) == "deepseek-chat" <==> provider == "DeepSeek"
    ensures KeyName(provider) != GeminiKey
  {
    assert OpenAIKey != DeepSeekKey by { assert OpenAIKey[0] != DeepSeekKey[0]; }
    assert OpenAIEndpoint != DeepSeekEndpoint by { assert OpenAIEndpoint[12] != DeepSeekEndpoint[12]; }
    assert "gpt-5.2" != "deepseek-chat";
    assert OpenAIKey != GeminiKey && DeepSeekKey != GeminiKey by {
      assert OpenAIKey[0] != GeminiKey[0] && DeepSeekKey[0] != GeminiKey[0];
    }
  }

  /** The Gemini URL carries the key verbatim at its end. */
  function GeminiUrl(key: string): (r: string)
    ensures StartsWith(r, GeminiBase) && r[|GeminiBase|..] == key
  {
    GeminiBase + key
  }

  /** The stored key, trimmed; a missing key reads as "". */
  function StoredKey(env: Env, name: string): string {
    Trim(env.setting(name).GetOr(""), WhitespacesAndNewlines)
  }

  // ---------------------------------------------------------------------------
  // The two calls

  function OpenAIBody(model: string, prompt: string): Json {
    JObject(map[
      "model" := JString(model),
      "messages" := JArray([
        JObject(map["role" := JString("system"), "content" := JString("You are a helpful financial assistant.")]),
        JObject(map["role" := JString("user"), "content" := JString(prompt)])]),
      "stream" := JBool(false),
      "temperature" := JNumber(0.7)])
  }

  function GeminiBody(prompt: string): Json {
    JObject(map["contents" := JArray([JObject(map["parts" := JArray([JObject(map["text" := JString(prompt)])])])])])
  }

  /** `dict[key] as? [String: Any]` and friends: a field of an object. */
  function Field(j: Json, key: string): Option<Json> {
    if j.JObject? && key in j.fields then Some(j.fields[key]) else None
  }

  /** `as? [[String: Any]]`, then `.first`: the first element of an array all of whose elements are objects. */
  function FirstObject(j: Option<Json>): (r: Option<Json>)
    ensures r.Some? ==> r.value.JObject?
  {
    if j.Some? && j.value.JArray? && |j.value.items| > 0 && (forall i :: 0 <= i < |j.value.items| ==> j.value.items[i].JObject?)
    then Some(j.value.items[0])
    else None
  }

  function AsObject(j: Option<Json>): Option<Json> {
    if j.Some? && j.value.JObject? then j else None
  }

  function AsString(j: Option<Json>): Option<string> {
    if j.Some? && j.value.JString? then Some(j.value.s) else None
  }

  /** `json["choices"][0]["message"]["content"]`, when every step has the expected type. */
  function OpenAIContent(json: Json): Option<string> {
    if !json.JObject? then None
    else
      var choice := FirstObject(Field(json, "choices"));
      if choice.None? then None
      else
        var message := AsObject(Field(choice.value, "message"));
        if message.None? then None
        else AsString(Field(message.value, "content"))
  }

  /** `json["candidates"][0]["content"]["parts"][0]["text"]`, when every step has the expected type. */
  function GeminiText(json: Json): Option<string> {
    if !json.JObject? then None
    else
      var candidate := FirstObject(Field(json, "candidates"));
      if candidate.None? then None
      else
        var content := AsObject(Field(candidate.value, "content"));
        if content.None? then None
        else
          var part := FirstObject(Field(content.value, "parts"));
          if part.None? then None
          else AsString(Field(part.value, "text"))
  }

  /** A reply the app accepts: no status (not HTTP) or status 200. */
  predicate StatusOk(status: Option<int>) {
    status.None? || status.value == 200
  }

  /**
   * Sending one request and reading the reply: a transport failure is passed
   * on, a status other than 200 is `badServerResponse`, and otherwise the text
   * `extract` finds in the JSON reply is the result, `shapeError` when it finds none.
   */
  function Exchange(request: Request, env: Env, extract: Json -> Option<string>, shapeError: AIError): (o: Outcome<string>)
    ensures o.sent == [request]
    ensures env.send(request).Failed? ==> o.result == Err(TransportFailed)
    ensures env.send(request).Received? ==>
      var reply := env.send(request);
      && (!StatusOk(reply.status) ==> o.result == Err(BadServerResponse))
      && (StatusOk(reply.status) ==>
            if reply.json.Some? && extract(reply.json.value).Some? then o.result == Ok(extract(reply.json.value).value)
            else o.result == Err(shapeError))
  {
    match env.send(request)
    case Failed => Outcome(Err(TransportFailed), [request])
    case Received(status, json) =>
      if !StatusOk(status) then Outcome(Err(BadServerResponse), [request])
      else if json.Some? && extract(json.value).Some? then Outcome(Ok(extract(json.value).value), [request])
      else Outcome(Err(shapeError), [request])
  }

  /** `callOpenAICompatible(prompt:provider:)`. */
  function CallOpenAICompatible(prompt: string, provider: string, env: Env): Outcome<string> {
    var key := StoredKey(env, KeyName(provider));
    if key == "" then Outcome(Err(UserAuthenticationRequired), [])
    else if !env.urlValid(Endpoint(provider)) then Outcome(Err(BadURL), [])
    else
      var request := Request(Endpoint(provider), Some("Bearer " + key), OpenAIBody(ModelName(provider), prompt));
      Exchange(request, env, OpenAIContent, CannotDecodeContentData)
  }

  /** `callGemini(prompt:)`. */
  function CallGemini(prompt: string, env: Env): Outcome<string> {
    var key := StoredKey(env, GeminiKey);
    if key == "" then Outcome(Err(UserAuthenticationRequired), [])
    else if !env.urlValid(GeminiUrl(key)) then Outcome(Err(BadURL), [])
    else
      var request := Request(GeminiUrl(key), None, GeminiBody(prompt));
      Exchange(request, env, GeminiText, BadServerResponse)
  }

  /** One call to the service the provider names. */
  function Call(prompt: string, provider: string, env: Env): Outcome<string> {
    match RouteFor(provider)
    case Gemini => CallGemini(prompt, env)
    case OpenAICompatible => CallOpenAICompatible(prompt, provider, env)
  }

  /** The settings key whose value a call needs. */
  function KeyFor(provider: string): string {
    if RouteFor(provider) == Gemini then GeminiKey else KeyName(provider)
  }

  /**
   * The OpenAI-compatible call sends at most one request, and none without a
   * key; the request goes to the provider's endpoint with the key as bearer
   * token and the provider's model.
   */
  lemma OpenAICallSpec(prompt: string, provider: string, env: Env)
    ensures var o := CallOpenAICompatible(prompt, provider, env); var key := StoredKey(env, KeyName(provider));
      && |o.sent| <= 1
      && (key == "" ==> o == Outcome(Err(UserAuthenticationRequired), []))
      && (o.sent != [] ==>
            && key != ""
            && o.sent[0] == Request(Endpoint(provider), Some("Bearer " + key), OpenAIBody(ModelName(provider), prompt)))
  {
  }

  /** The Gemini call sends at most one request, and none without a key; the request goes to the URL holding the key. */
  lemma GeminiCallSpec(prompt: string, env: Env)
    ensures var o := CallGemini(prompt, env); var key := StoredKey(env, GeminiKey);
      && |o.sent| <= 1
      && (key == "" ==> o == Outcome(Err(UserAuthenticationRequired), []))
      && (o.sent != [] ==> key != "" && o.sent[0] == Request(GeminiUrl(key), None, GeminiBody(prompt)))
  {
  }

  /** The OpenAI-compatible body names the model and carries the prompt as the user message. */
  lemma OpenAIBodySpec(model: string, prompt: string)
    ensures Field(OpenAIBody(model, prompt), "model") == Some(JString(model))
    ensures var messages := Field(OpenAIBody(model, prompt), "messages");
      messages.Some? && messages.value.JArray? && |messages.value.items| == 2 &&
      Field(messages.value.items[1], "content") == Some(JString(prompt))
  {
  }

  /** A call sends at most one request, and never one without a key: an empty key fails at once. */
  lemma KeyCheckedBeforeRequest(prompt: string, provider: string, env: Env)
    ensures |Call(prompt, provider, env).sent| <= 1
    ensures StoredKey(env, KeyFor(provider)) == "" ==>
      Call(prompt, provider, env) == Outcome(Err(UserAuthenticationRequired), [])
    ensures Call(prompt, provider, env).sent != [] ==> StoredKey(env, KeyFor(provider)) != ""
  {
    if provider == "Gemini" {
      GeminiCallSpec(prompt, env);
    } else {
      OpenAICallSpec(prompt, provider, env);
    }
  }

  /**
   * The request goes where the provider says: the Gemini URL with the key for
   * "Gemini"; otherwise the provider's endpoint, with the key as bearer token
   * and the provider's model, carrying the prompt.
   */
  lemma RequestRouted(prompt: string, provider: string, env: Env)
    ensures var o := Call(prompt, provider, env); var key := StoredKey(env, KeyFor(provider));
      o.sent != [] ==>
        if provider == "Gemini" then
          o.sent[0] == Request(GeminiUrl(key), None, GeminiBody(prompt))
        else
          && o.sent[0].url == Endpoint(provider)
          && o.sent[0].authorization == Some("Bearer " + key)
          && Field(o.sent[0].body, "model") == Some(JString(ModelName(provider)))
  {
    if provider == "Gemini" {
      GeminiCallSpec(prompt, env);
    } else {
      OpenAICallSpec(prompt, provider, env);
      OpenAIBodySpec(ModelName(provider), prompt);
    }
  }

  /** Any status other than 200 fails a call; with 200 it succeeds exactly when the reply has the expected shape. */
  lemma StatusChecked(prompt: string, provider: string, env: Env)
    requires var o := Call(prompt, provider, env); o.sent != [] && env.send(o.sent[0]).Received?
    ensures var o := Call(prompt, provider, env); var reply := env.send(o.sent[0]);
      var extract := if provider == "Gemini" then GeminiText else OpenAIContent;
      && (!StatusOk(reply.status) ==> o.result == Err(BadServerResponse))
      && (StatusOk(reply.status) ==> (o.result.Ok? <==> reply.json.Some? && extract(reply.json.value).Some?))
      && (StatusOk(reply.status) && o.result.Ok? ==> o.result.value == extract(reply.json.value).value)
      && (StatusOk(reply.status) && o.result.Err? ==>
            o.result.error == if provider == "Gemini" then BadServerResponse else CannotDecodeContentData)
  {
    if provider == "Gemini" {
      GeminiCallSpec(prompt, env);
    } else {
      OpenAICallSpec(prompt, provider, env);
    }
  }

  /** Sanity check on concrete replies: the shape the OpenAI-compatible call accepts, and ones it refuses. */
  lemma OpenAIShapeExamples()
    ensures OpenAIContent(JObject(map["choices" := JArray([JObject(map["message" := JObject(map["content" := JString("hi")])])])])) == Some("hi")
    ensures OpenAIContent(JObject(map["choices" := JArray([])])) == None
    ensures OpenAIContent(JObject(map["choices" := JArray([JObject(map["message" := JObject(map["content" := JString("hi")])]), JNull])])) == None
  {
    var m := JObject(map["message" := JObject(map["content" := JString("hi")])]);
    var j := JObject(map["choices" := JArray([m])]);
    assert Field(j, "choices") == Some(JArray([m]));
    assert FirstObject(Field(j, "choices")) == Some(m);
    assert Field(m, "message") == Some(JObject(map["content" := JString("hi")]));
    var bad := JObject(map["choices" := JArray([m, JNull])]);
    assert Field(bad, "choices") == Some(JArray([m, JNull]));
    assert !JArray([m, JNull]).items[1].JObject?;
  }

  /** Sanity check on a concrete reply: the shape the Gemini call accepts. */
  lemma GeminiShapeExample()
    ensures GeminiText(JObject(map["candidates" := JArray([JObject(map["content" := JObject(map["parts" := JArray([JObject(map["text" := JString("ok")])])])])])])) == Some("ok")
  {
    var part := JObject(map["text" := JString("ok")]);
    var content := JObject(map["parts" := JArray([part])]);
    var candidate := JObject(map["content" := content]);
    var j := JObject(map["candidates" := JArray([candidate])]);
    assert Field(j, "candidates") == Some(JArray([candidate]));
    assert FirstObject(Field(j, "candidates")) == Some(candidate);
    assert Field(candidate, "content") == Some(content);
    assert Field(content, "parts") == Some(JArray([part]));
    assert FirstObject(Field(content, "parts")) == Some(part);
    assert Field(part, "text") == Some(JString("ok"));
  }

  // ---------------------------------------------------------------------------
  // Cleaning the reply

  const Fence: string := "```"
  const JsonFence: string := "```json"

  /** Every "```json" removed, then every "```", then surrounding whitespace and newlines trimmed. */
  function Clean(reply: string): (r: string)
    ensures !Contains(r, Fence)
  {
    var unfenced := ReplaceAll(ReplaceAll(reply, JsonFence, ""), Fence, "");
    FenceRemovalLeavesNone(ReplaceAll(reply, JsonFence, ""));
    TrimKeepsAbsence(unfenced, WhitespacesAndNewlines, Fence);
    Trim(unfenced, WhitespacesAndNewlines)
  }

  lemma KeptHead(t: string)
    requires t != [] && t[0] != '`'
    ensures ReplaceAll(t, Fence, "") == [t[0]] + ReplaceAll(t[1..], Fence, "")
  {
    assert !StartsWith(t, Fence);
  }

  /** Removing every "```" leaves none: what is left of a run of backticks is shorter than three. */
  lemma {:induction false} FenceRemovalLeavesNone(s: string)
    ensures !Contains(ReplaceAll(s, Fence, ""), Fence)
    decreases |s|
  {
    var r := ReplaceAll(s, Fence, "");
    if s == [] {
    } else if StartsWith(s, Fence) {
      FenceRemovalLeavesNone(s[3..]);
      assert r == ReplaceAll(s[3..], Fence, "");
    } else {
      var rest := ReplaceAll(s[1..], Fence, "");
      FenceRemovalLeavesNone(s[1..]);
      assert r == [s[0]] + rest;
      assert r[1..] == rest;
      if s[0] == '`' && |s| >= 2 {
        if s[1] != '`' {
          KeptHead(s[1..]);
        } else if |s| >= 3 {
          assert s[2] != '`';
          assert !StartsWith(s[1..], Fence);
          assert s[1..][1..] == s[2..];
          KeptHead(s[2..]);
          assert rest == [s[1]] + ReplaceAll(s[2..], Fence, "");
        } else {
          assert rest == [s[1]];
        }
      }
      assert !StartsWith(r, Fence);
    }
  }

  /** The cleaned reply has no code fence and no surrounding whitespace, and cleaning it again changes nothing. */
  lemma CleanSpec(reply: string)
    ensures !Contains(Clean(reply), Fence)
    ensures var c := Clean(reply); c == [] || (c[0] !in WhitespacesAndNewlines && c[|c| - 1] !in WhitespacesAndNewlines)
    ensures Clean(Clean(reply)) == Clean(reply)
  {
    var unfenced := ReplaceAll(ReplaceAll(reply, JsonFence, ""), Fence, "");
    var c := Clean(reply);
    FenceRemovalLeavesNone(ReplaceAll(reply, JsonFence, ""));
    TrimKeepsAbsence(unfenced, WhitespacesAndNewlines, Fence);
    TrimShape(unfenced, WhitespacesAndNewlines);
    if Contains(c, JsonFence) {
      ContainsPrefixOfPattern(c, JsonFence, Fence);
    }
    ReplaceAllAbsent(c, JsonFence, "");
    ReplaceAllAbsent(c, Fence, "");
    TrimIdempotent(unfenced, WhitespacesAndNewlines);
  }

  // ---------------------------------------------------------------------------
  // The public operations

  /**
   * The text a screen shows when a call fails: a localized headline, a
   * full-width colon, then the error's description.
   */
  function FailureNote(lang: Language, headline: string, detail: string): (r: string)
    ensures StartsWith(r, T(lang, headline) + "：")
    ensures r[|T(lang, headline) + "："|..] == detail
  {
    T(lang, headline) + "：" + detail
  }

  /** `parseAndClean(prompt:provider:)`: call, clean the reply, decode it. */
  function ParseAndClean(prompt: string, provider: string, env: Env): (o: Outcome<ParsedBill>)
    ensures o.sent == Call(prompt, provider, env).sent
    ensures o.result.Ok? <==>
      Call(prompt, provider, env).result.Ok? && env.decode(Clean(Call(prompt, provider, env).result.value)).Some?
    ensures o.result.Ok? ==> Some(o.result.value) == env.decode(Clean(Call(prompt, provider, env).result.value))
    ensures Call(prompt, provider, env).result.Err? ==> o.result == Err(Call(prompt, provider, env).result.error)
  {
    var raw := Call(prompt, provider, env);
    match raw.result
    case Err(e) => Outcome(Err(e), raw.sent)
    case Ok(reply) =>
      match env.decode(Clean(reply))
      case Some(bill) => Outcome(Ok(bill), raw.sent)
      case None => Outcome(Err(DecodingFailed), raw.sent)
  }

  /** `parseText(_:provider:)` of Services/AIService.swift. */
  function ParseText(text: string, provider: string, env: Env): Outcome<ParsedBill> {
    ParseAndClean(ParsePrompt(text), provider, env)
  }

  /** `parseText(_:provider:)` of the older AIService.swift. */
  function LegacyParseText(text: string, provider: string, env: Env): Outcome<ParsedBill> {
    ParseAndClean(LegacyParsePrompt(text), provider, env)
  }

  /** `analyzeFinancialData(summary:provider:language:)`. */
  function AnalyzeFinancialData(summary: string, provider: string, lang: Language, env: Env): (o: Outcome<string>)
    ensures o == Call(AnalysisPrompt(lang, summary), provider, env)
  {
    match RouteFor(provider)
    case Gemini => CallGemini(AnalysisPrompt(lang, summary), env)
    case OpenAICompatible => CallOpenAICompatible(AnalysisPrompt(lang, summary), provider, env)
  }

  /** The advice request carries the prompt of the chosen language, in the body format of the chosen service. */
  lemma AnalysisRequestCarriesPrompt(summary: string, provider: string, lang: Language, env: Env)
    requires AnalyzeFinancialData(summary, provider, lang, env).sent != []
    ensures var body := AnalyzeFinancialData(summary, provider, lang, env).sent[0].body;
      var prompt := AnalysisPrompt(lang, summary);
      && (provider == "Gemini" ==> body == GeminiBody(prompt))
      && (provider != "Gemini" ==> body == OpenAIBody(ModelName(provider), prompt))
      && StartsWith(prompt, if lang == ZhHans then AnalysisHeadZh else AnalysisHeadEn)
  {
    var prompt := AnalysisPrompt(lang, summary);
    AnalysisPromptHead(lang, summary);
    if provider == "Gemini" {
      GeminiCallSpec(prompt, env);
    } else {
      OpenAICallSpec(prompt, provider, env);
    }
  }

  /** The advisor prompt opens with the head of its language. */
  lemma AnalysisPromptHead(lang: Language, summary: string)
    ensures StartsWith(AnalysisPrompt(lang, summary), if lang == ZhHans then AnalysisHeadZh else AnalysisHeadEn)
  {
    var head := if lang == ZhHans then AnalysisHeadZh else AnalysisHeadEn;
    var tail := if lang == ZhHans then AnalysisTailZh else AnalysisTailEn;
    HeadOfThree(head, summary, tail);
  }

  lemma HeadOfThree(a: string, x: string, b: string)
    ensures StartsWith(a + x + b, a)
  {
    assert (a + x + b)[..|a|] == a;
  }
}
