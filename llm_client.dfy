/** The chat-completion client: configuration, request shaping, the
    per-call state machine with its single retry, error formatting, the
    duplicate-reply check and the deterministic offline substitute reply.

    The remote endpoint is a function from the request sent to the outcome
    observed (`net`); JSON decoding and `str()` of floats and containers are
    the opaque routines of a `JsonLib`. */
module LlmClient {

  import opened Wrappers
  import opened Text
  import opened PyJson
  import opened Drivers

  /** `{"role": ..., "content": ...}` */
  datatype Message = Message(role: string, content: string)

  // =====================================================================
  // Configuration
  // =====================================================================

  /** The three settings the client keeps after reading its environment */
  datatype Settings = Settings(baseUrl: string, apiKey: string, model: string)

  /** LLM_BASE_URL without its trailing '/' characters, then without one
      trailing "/v1" */
  function NormalizeBaseUrl(raw: string): (url: string)
    ensures StartsWith(raw, url)
    ensures url == RStripChar(raw, '/') || url + "/v1" == RStripChar(raw, '/')
  {
    var trimmed := RStripChar(raw, '/');
    if EndsWith(trimmed, "/v1") then trimmed[..|trimmed| - 3] else trimmed
  }

  function Slashes(n: nat): (s: string)
    ensures |s| == n && forall j :: 0 <= j < n ==> s[j] == '/'
  {
    if n == 0 then "" else Slashes(n - 1) + "/"
  }

  lemma {:induction false} RStripSlashes(u: string, n: nat)
    requires u == [] || u[|u| - 1] != '/'
    ensures RStripChar(u + Slashes(n), '/') == u
  {
    var s := u + Slashes(n);
    if n == 0 {
      assert s == u;
    } else {
      assert s[|s| - 1] == '/';
      assert s[..|s| - 1] == u + Slashes(n - 1);
      RStripSlashes(u, n - 1);
    }
  }

  /** Whatever trailing "/v1" and slashes an endpoint is configured with,
      the client keeps the bare base; a base made only of them is empty. */
  lemma {:induction false} NormalizeBaseUrlDropsVersion(u: string, n: nat)
    ensures NormalizeBaseUrl(u + "/v1" + Slashes(n)) == u
  {
    var v := u + "/v1";
    assert v + Slashes(n) == u + "/v1" + Slashes(n);
    RStripSlashes(v, n);
    assert EndsWith(v, "/v1");
    assert v[..|v| - 3] == u;
  }

  /** A base without a trailing '/' or "/v1" is kept as configured. */
  lemma NormalizeBaseUrlKeepsBareBase(u: string, n: nat)
    requires u == [] || u[|u| - 1] != '/'
    requires !EndsWith(u, "/v1")
    ensures NormalizeBaseUrl(u + Slashes(n)) == u
  {
    RStripSlashes(u, n);
  }

  /** `LLMClient.__init__` applied to the raw LLM_BASE_URL, LLM_API_KEY and
      LLM_MODEL (empty when unset) */
  function Configure(rawBaseUrl: string, rawApiKey: string, rawModel: string): Settings {
    Settings(NormalizeBaseUrl(rawBaseUrl), rawApiKey, Strip(rawModel))
  }

  /** `enabled()` */
  predicate IsEnabled(c: Settings) {
    c.baseUrl != "" && c.apiKey != "" && c.model != ""
  }

  /** The names of the unset settings, in the fixed order of the source */
  function MissingVariables(c: Settings): (names: seq<string>)
    ensures "LLM_BASE_URL" in names <==> c.baseUrl == ""
    ensures "LLM_API_KEY" in names <==> c.apiKey == ""
    ensures "LLM_MODEL" in names <==> c.model == ""
    ensures names == [] <==> IsEnabled(c)
    ensures forall n :: n in names ==> n == "LLM_BASE_URL" || n == "LLM_API_KEY" || n == "LLM_MODEL"
    ensures forall i, j :: 0 <= i < j < |names| ==> VariableRank(names[i]) < VariableRank(names[j])
  {
    (if c.baseUrl == "" then ["LLM_BASE_URL"] else [])
    + (if c.apiKey == "" then ["LLM_API_KEY"] else [])
    + (if c.model == "" then ["LLM_MODEL"] else [])
  }

  /** Position of a setting in the order LLM_BASE_URL, LLM_API_KEY, LLM_MODEL */
  function VariableRank(name: string): nat {
    if name == "LLM_BASE_URL" then 0 else if name == "LLM_API_KEY" then 1 else 2
  }

  function MissingMessage(names: seq<string>): string {
    "缺少环境变量: " + Join(", ", names)
  }

  // =====================================================================
  // Requests and outcomes
  // =====================================================================

  /** One POST to the completion endpoint: URL, Authorization header, and
      the JSON payload's model, messages, temperature and response_format
      type (absent when `None`) */
  datatype Request = Request(
    url: string,
    authorization: string,
    model: string,
    messages: seq<Message>,
    temperature: real,
    responseFormat: Option<string>)

  /** What a call of `_call_chat` ends in: the reply content, an
      `HTTPError` (status, reason, body; the body is `None` when it could not
      be read or decoded), a `URLError`, or a success body without the
      expected fields or not JSON at all (`KeyError`, `JSONDecodeError`);
      the last two carry `str(e)`. Exceptions that `chat` does not catch
      (a read timeout, a dropped connection, a body that is not UTF-8) have
      no outcome here. */
  datatype Outcome =
    | Completed(content: string)
    | HttpFailure(code: int, reason: string, body: Option<string>)
    | TransportFailure(text: string)
    | MalformedBody(text: string)

  /** `str(e)` of a failed call */
  function FailureText(o: Outcome): string
    requires !o.Completed?
  {
    match o
    case HttpFailure(code, reason, _) => "HTTP Error " + IntToString(code) + ": " + reason
    case TransportFailure(text) => text
    case MalformedBody(text) => text
  }

  const JsonOnlyInstruction := Message("system", "Return ONLY valid JSON, no markdown or code fences.")

  /** The request `_call_chat` sends */
  function BuildRequest(c: Settings, messages: seq<Message>, temperature: real,
                        forceJson: bool, responseFormatEnabled: bool): (r: Request)
    ensures r.url == c.baseUrl + "/v1/chat/completions"
    ensures r.authorization == "Bearer " + c.apiKey && r.model == c.model && r.temperature == temperature
    ensures r.responseFormat.Some? <==> forceJson && responseFormatEnabled
    ensures r.responseFormat.Some? ==> r.responseFormat.value == "json_object"
    ensures forceJson && !responseFormatEnabled ==> |r.messages| == |messages| + 1 && r.messages[0] == JsonOnlyInstruction
    ensures !(forceJson && !responseFormatEnabled) ==> |r.messages| == |messages|
    ensures r.messages[|r.messages| - |messages|..] == messages
  {
    var payload := if forceJson && !responseFormatEnabled then [JsonOnlyInstruction] + messages else messages;
    Request(c.baseUrl + "/v1/chat/completions", "Bearer " + c.apiKey, c.model, payload, temperature,
            if forceJson && responseFormatEnabled then Some("json_object") else None)
  }

  /** `_should_retry_without_response_format` */
  predicate ShouldRetryWithoutResponseFormat(code: int, body: Option<string>) {
    || code == 400 || code == 404 || code == 422
    || (body.Some? && body.value != ""
        && (Contains(Lower(body.value), "response_format") || Contains(Lower(body.value), "json_object")))
  }

  // =====================================================================
  // HTTP error text
  // =====================================================================

  function StatusLine(code: int): string {
    "HTTP " + IntToString(code) + (if code == 402 then " Payment Required" else "")
  }

  /** `error.message`, else `error.type`, of a JSON error body, when truthy */
  function ErrorDetail(body: string, lib: JsonLib): Option<string> {
    match lib.loads(body)
    case Some(JObj(top)) =>
      (match GetOr(top, "error", JObj(map[]))
       case JObj(err) =>
         if "message" in err && Truthy(err["message"]) then Some(PyStr(err["message"], lib))
         else if "type" in err && Truthy(err["type"]) then Some(PyStr(err["type"], lib))
         else None
       case _ => None)
    case _ => None
  }

  /** `_format_http_error` */
  function FormatHttpError(code: int, body: Option<string>, lib: JsonLib): (text: string)
    ensures StartsWith(text, StatusLine(code))
    ensures body.None? || body.value == "" ==> text == StatusLine(code)
    ensures body.Some? && body.value != "" ==>
              exists detail :: text == StatusLine(code) + ": " + detail
                               && (detail == Take(body.value, 200) || Some(detail) == ErrorDetail(body.value, lib))
  {
    var head := StatusLine(code);
    if body.None? || body.value == "" then head
    else
      var detail := match ErrorDetail(body.value, lib)
                    case Some(d) => d
                    case None => Take(body.value, 200);
      assert (head + ": " + detail)[..|head|] == head;
      head + ": " + detail
  }

  // =====================================================================
  // Transcript views
  // =====================================================================

  /** The contents of the messages with the given role, in order */
  function ContentsOf(messages: seq<Message>, role: string): (texts: seq<string>)
    ensures |texts| <= |messages|
  {
    if messages == [] then []
    else
      var last := messages[|messages| - 1];
      ContentsOf(messages[..|messages| - 1], role) + (if last.role == role then [last.content] else [])
  }

  lemma ContentsOfAppend(messages: seq<Message>, m: Message, role: string)
    ensures ContentsOf(messages + [m], role)
         == ContentsOf(messages, role) + (if m.role == role then [m.content] else [])
  {
    assert (messages + [m])[..|messages|] == messages;
  }

  /** The newline-joined user contents */
  function UserText(messages: seq<Message>): string {
    Join("\n", ContentsOf(messages, "user"))
  }

  /** Some text of the list contains `k` */
  predicate AnyContains(texts: seq<string>, k: string) {
    exists i :: 0 <= i < |texts| && Contains(texts[i], k)
  }

  /** Some keyword of the list occurs in `text` */
  predicate MentionsAny(text: string, keywords: seq<string>) {
    exists i :: 0 <= i < |keywords| && Contains(text, keywords[i])
  }

  // =====================================================================
  // Offline substitute (`_mock_chat`)
  // =====================================================================

  const JobLossKeywords := ["裁员", "失业", "岗位消失", "取代", "替代", "失去工作"]
  const ValueThreatKeywords := ["不重要", "没价值", "无用", "没人需要", "被边缘"]
  const SkillErosionKeywords := ["依赖", "退化", "变笨", "不用脑", "思考能力下降"]

  /** `driver_of`: job loss first, then value threat, then skill erosion,
      value threat when nothing matches */
  function DriverOf(text: string): (d: Driver)
    ensures d == JobLoss <==> MentionsAny(text, JobLossKeywords)
    ensures d == SkillErosion <==> !MentionsAny(text, JobLossKeywords) && !MentionsAny(text, ValueThreatKeywords)
                                    && MentionsAny(text, SkillErosionKeywords)
  {
    if MentionsAny(text, JobLossKeywords) then JobLoss
    else if MentionsAny(text, ValueThreatKeywords) then ValueThreat
    else if MentionsAny(text, SkillErosionKeywords) then SkillErosion
    else ValueThreat
  }

  const WorstOutcomeMarker := "最害怕的结果是什么"
  const DriverQuestionMarker := "更像哪一种"
  const DriverChoicesMarker := "岗位消失/不重要/退化"

  const MockModePrefix := "（Mock 模式）"
  const FailureBannerOpen := "（LLM调用失败："
  const FailureBannerClose := "）"

  /** The banner that shows a failure in the reply text */
  function FailureBanner(error: string): string {
    FailureBannerOpen + Take(error, 80) + FailureBannerClose
  }

  /** The prefix `_mock_chat` puts before its reply (an empty error is falsy) */
  function MockPrefix(error: Option<string>, showPrefix: bool): string {
    (if showPrefix then MockModePrefix else "")
    + (if error.Some? && error.value != "" then FailureBanner(error.value) else "")
  }

  // Stage 1: the grounding question.
  const GroundingLine1 := "我听到你在担心 AI 会影响你的工作，这种不安很真实。\n"
  const GroundingLine2a := "我们先把担忧落到一个具体问题上：你"
  const GroundingLine2b := "？（例如：失业、收入下降、价值感受损、能力退化）"
  const GroundingQuestion := GroundingLine1 + GroundingLine2a + WorstOutcomeMarker + GroundingLine2b

  // Stage 2: the A/B/C driver prompt.
  const ChoiceLine1 := "我明白了，你描述的“最坏结果”已经很具体了。\n"
  const ChoiceLine2 := "为了更精准地帮你，我们把它归到一种主导类型里（选一个最像的）：\n"
  const ChoiceLine3 := "A 岗位消失（job_loss）\n"
  const ChoiceLine4 := "B 变得不重要/不被需要（value_threat）\n"
  const ChoiceLine5 := "C 依赖 AI 导致能力退化（skill_erosion）\n"
  const ChoiceLine6 := "你觉得更像 A/B/C？"
  const DriverChoicePrompt := ChoiceLine1 + ChoiceLine2 + ChoiceLine3 + ChoiceLine4 + ChoiceLine5 + ChoiceLine6

  // Stage 3: one ten-minute script per driver.
  const JobLossScript :=
    "你现在面对的是“不确定性→灾难化想象”的自然反应，不代表结局已定。\n"
    + "我们不做预测，先做一件能恢复控制感的小事（10 分钟）：\n"
    + "1) 写下你工作流程中 3 个关键环节\n"
    + "2) 标注每个环节 AI 可替代程度（低/中/高）\n"
    + "3) 选 1 个“低可替代”环节写一句：‘这个环节的价值在于____’\n"
    + "你愿意从哪 3 个环节开始写？"
  const SkillErosionScript :=
    "你担心“依赖→退化”，这非常合理。关键不是不用 AI，而是设定协作边界。\n"
    + "10 分钟微行动：\n"
    + "1) 选一个小问题，你先写 3 条推理要点\n"
    + "2) 让 AI 扩写成完整论证\n"
    + "3) 你删 1 句不同意的、补 1 句你认为关键的\n"
    + "你想用哪个小问题来做这次练习？"
  const ValueThreatScript :=
    "你更像是“价值感被威胁”的担忧：担心自己变得不重要。\n"
    + "10 分钟微行动：\n"
    + "1) 写下最近一次别人需要你‘判断/沟通/取舍’的具体事件（各 1 句）\n"
    + "2) 写一句：‘AI 可以帮我____，但这类价值仍需要我来____’\n"
    + "你愿意写哪个事件？"

  function Script(d: Driver): string {
    match d
    case JobLoss => JobLossScript
    case SkillErosion => SkillErosionScript
    case ValueThreat => ValueThreatScript
  }

  /** Some earlier assistant turn asked for the worst outcome */
  predicate AskedWorst(messages: seq<Message>) {
    AnyContains(ContentsOf(messages, "assistant"), WorstOutcomeMarker)
  }

  /** Some earlier assistant turn asked which driver fits */
  predicate AskedDriver(messages: seq<Message>) {
    var said := ContentsOf(messages, "assistant");
    AnyContains(said, DriverQuestionMarker) || AnyContains(said, DriverChoicesMarker)
  }

  /** Which of the three replies the offline substitute gives */
  function MockStage(messages: seq<Message>): (stage: nat)
    ensures 1 <= stage <= 3
  {
    if !AskedWorst(messages) then 1 else if !AskedDriver(messages) then 2 else 3
  }

  /** The offline reply without its prefix */
  function MockBody(messages: seq<Message>): string {
    match MockStage(messages)
    case 1 => GroundingQuestion
    case 2 => DriverChoicePrompt
    case _ => Script(DriverOf(UserText(messages)))
  }

  /** `_mock_chat(messages, error, show_prefix)` */
  function MockChat(messages: seq<Message>, error: Option<string>, showPrefix: bool): string {
    MockPrefix(error, showPrefix) + MockBody(messages)
  }

  // =====================================================================
  // Duplicate-reply check (`_dedupe_or_fallback`)
  // =====================================================================

  /** Index of the most recent assistant message, or -1 */
  function LastAssistantIndex(messages: seq<Message>): (k: int)
    ensures -1 <= k < |messages|
    ensures 0 <= k ==> messages[k].role == "assistant"
    ensures forall j :: k < j < |messages| ==> messages[j].role != "assistant"
  {
    if messages == [] then -1
    else if messages[|messages| - 1].role == "assistant" then |messages| - 1
    else LastAssistantIndex(messages[..|messages| - 1])
  }

  /** Content of the most recent assistant message, "" when there is none */
  function LastAssistantContent(messages: seq<Message>): string {
    var k := LastAssistantIndex(messages);
    if k < 0 then "" else messages[k].content
  }

  const DuplicateError := "LLM重复回复"

  /** The reply repeats the most recent (non-empty) assistant message */
  predicate IsDuplicate(messages: seq<Message>, reply: string) {
    var last := LastAssistantContent(messages);
    last != "" && Strip(reply) == Strip(last)
  }

  function Deduped(messages: seq<Message>, reply: string): string {
    if IsDuplicate(messages, reply) then MockChat(messages, Some(DuplicateError), true) else reply
  }

  // =====================================================================
  // One call of `chat`
  // =====================================================================

  /** The reply text, the `last_error` left behind, and the requests sent */
  datatype ChatReply = ChatReply(text: string, error: Option<string>, sent: seq<Request>)

  /** `chat(messages, temperature, force_json)` on a client with settings `c` */
  function Respond(c: Settings, messages: seq<Message>, temperature: real, forceJson: bool,
                   net: Request -> Outcome, lib: JsonLib): (r: ChatReply)
    ensures |r.sent| <= 2
    ensures r.sent == [] <==> !IsEnabled(c)
    ensures r.sent != [] ==> r.sent[0] == BuildRequest(c, messages, temperature, forceJson, true)
    ensures |r.sent| == 2 <==>
              && r.sent != [] && forceJson
              && net(r.sent[0]).HttpFailure?
              && ShouldRetryWithoutResponseFormat(net(r.sent[0]).code, net(r.sent[0]).body)
    ensures |r.sent| == 2 ==> r.sent[1] == BuildRequest(c, messages, temperature, true, false)
  {
    if !IsEnabled(c) then
      var missing := MissingVariables(c);
      if missing != [] && (c.baseUrl != "" || c.apiKey != "" || c.model != "") then
        var e := MissingMessage(missing);
        ChatReply(MockChat(messages, Some(e), false), Some(e), [])
      else
        ChatReply(MockChat(messages, None, true), None, [])
    else
      var first := BuildRequest(c, messages, temperature, forceJson, true);
      match net(first)
      case Completed(content) => ChatReply(Deduped(messages, content), None, [first])
      case HttpFailure(code, reason, body) =>
        var errText := FormatHttpError(code, body, lib);
        if forceJson && ShouldRetryWithoutResponseFormat(code, body) then
          var second := BuildRequest(c, messages, temperature, true, false);
          var retried := net(second);
          if retried.Completed? then
            ChatReply(Deduped(messages, retried.content), Some(errText), [first, second])
          else
            var e := FailureText(retried);
            ChatReply(MockChat(messages, Some(e), false), Some(e), [first, second])
        else
          ChatReply(MockChat(messages, Some(errText), false), Some(errText), [first])
      case _ =>
        var e := FailureText(net(first));
        ChatReply(MockChat(messages, Some(e), false), Some(e), [first])
  }

  // =====================================================================
  // What one call promises
  // =====================================================================

  /** With no setting at all, the reply is the offline substitute under the
      Mock prefix, no error is recorded and nothing is sent. */
  lemma UnconfiguredReply(messages: seq<Message>, temperature: real, forceJson: bool,
                          net: Request -> Outcome, lib: JsonLib)
    ensures var r := Respond(Settings("", "", ""), messages, temperature, forceJson, net, lib);
            && r == ChatReply(MockChat(messages, None, true), None, [])
            && StartsWith(r.text, MockModePrefix)
  {
    var text := MockChat(messages, None, true);
    assert text[..|MockModePrefix|] == MockModePrefix;
  }

  /** With some but not all settings, the error names exactly the missing
      ones and the reply shows that error without the Mock prefix. */
  lemma PartialConfigReply(c: Settings, messages: seq<Message>, temperature: real, forceJson: bool,
                           net: Request -> Outcome, lib: JsonLib)
    requires !IsEnabled(c) && (c.baseUrl != "" || c.apiKey != "" || c.model != "")
    ensures var r := Respond(c, messages, temperature, forceJson, net, lib);
            && r.error == Some(MissingMessage(MissingVariables(c)))
            && r.sent == []
            && StartsWith(r.text, FailureBanner(r.error.value))
            && !StartsWith(r.text, MockModePrefix)
  {
    var e := MissingMessage(MissingVariables(c));
    assert e[0] == '缺';
    var banner := FailureBanner(e);
    assert MockPrefix(Some(e), false) == banner;
    BannerIsNotMockPrefix(e, MockBody(messages));
  }

  lemma BannerIsNotMockPrefix(e: string, body: string)
    ensures StartsWith(FailureBanner(e) + body, FailureBanner(e))
    ensures !StartsWith(FailureBanner(e) + body, MockModePrefix)
  {
    var banner := FailureBanner(e);
    var text := banner + body;
    assert text[..|banner|] == banner;
    assert banner[1] == 'L';
    assert text[1] == 'L';
    assert MockModePrefix[1] == 'M';
  }

  /** No error is recorded exactly when nothing at all is configured or the
      first request completes; every other path reports one. */
  lemma ErrorRecordedUnlessCompleted(c: Settings, messages: seq<Message>, temperature: real, forceJson: bool,
                                     net: Request -> Outcome, lib: JsonLib)
    ensures var r := Respond(c, messages, temperature, forceJson, net, lib);
            r.error.None? <==>
              (c == Settings("", "", "")
               || (IsEnabled(c) && net(BuildRequest(c, messages, temperature, forceJson, true)).Completed?))
  {
  }

  /** A completed first request is answered by its content unless it repeats
      the latest assistant turn; then the substitute answers, with both
      prefixes, and still no error is recorded. */
  lemma CompletedReply(c: Settings, messages: seq<Message>, temperature: real, forceJson: bool,
                       net: Request -> Outcome, lib: JsonLib)
    requires IsEnabled(c)
    requires net(BuildRequest(c, messages, temperature, forceJson, true)).Completed?
    ensures var content := net(BuildRequest(c, messages, temperature, forceJson, true)).content;
            var r := Respond(c, messages, temperature, forceJson, net, lib);
            && r.error == None && |r.sent| == 1
            && (!IsDuplicate(messages, content) ==> r.text == content)
            && (IsDuplicate(messages, content) ==>
                  r.text == MockChat(messages, Some(DuplicateError), true)
                  && StartsWith(r.text, MockModePrefix + FailureBanner(DuplicateError)))
  {
    var content := net(BuildRequest(c, messages, temperature, forceJson, true)).content;
    if IsDuplicate(messages, content) {
      var text := MockChat(messages, Some(DuplicateError), true);
      var head := MockModePrefix + FailureBanner(DuplicateError);
      assert text == head + MockBody(messages);
      assert text[..|head|] == head;
    }
  }

  /** A rejected structured-output request is retried once without
      response_format. A successful retry answers, yet the first HTTP error
      stays recorded; a failed one records its own error text. */
  lemma RetryReply(c: Settings, messages: seq<Message>, temperature: real,
                   net: Request -> Outcome, lib: JsonLib)
    requires IsEnabled(c)
    requires net(BuildRequest(c, messages, temperature, true, true)).HttpFailure?
    requires ShouldRetryWithoutResponseFormat(net(BuildRequest(c, messages, temperature, true, true)).code,
                                              net(BuildRequest(c, messages, temperature, true, true)).body)
    ensures var first := net(BuildRequest(c, messages, temperature, true, true));
            var second := net(BuildRequest(c, messages, temperature, true, false));
            var r := Respond(c, messages, temperature, true, net, lib);
            && |r.sent| == 2 && r.sent[1].responseFormat.None?
            && (second.Completed? ==>
                  r.error == Some(FormatHttpError(first.code, first.body, lib))
                  && r.text == Deduped(messages, second.content))
            && (!second.Completed? ==>
                  r.error == Some(FailureText(second))
                  && r.text == MockChat(messages, r.error, false))
  {
  }

  /** An HTTP error that is not retried (JSON not forced, or a status and
      body the retry test rejects) is answered by the substitute showing the
      formatted error. */
  lemma HttpFailureNotRetried(c: Settings, messages: seq<Message>, temperature: real, forceJson: bool,
                              net: Request -> Outcome, lib: JsonLib)
    requires IsEnabled(c)
    requires net(BuildRequest(c, messages, temperature, forceJson, true)).HttpFailure?
    requires !forceJson || !ShouldRetryWithoutResponseFormat(net(BuildRequest(c, messages, temperature, forceJson, true)).code,
                                                             net(BuildRequest(c, messages, temperature, forceJson, true)).body)
    ensures var first := net(BuildRequest(c, messages, temperature, forceJson, true));
            var r := Respond(c, messages, temperature, forceJson, net, lib);
            && |r.sent| == 1
            && r.error == Some(FormatHttpError(first.code, first.body, lib))
            && r.text == MockChat(messages, r.error, false)
  {
  }

  /** A transport failure or a malformed success body is answered by the
      substitute showing `str(e)`, which is also recorded; nothing is
      retried. */
  lemma TransportFailureReply(c: Settings, messages: seq<Message>, temperature: real, forceJson: bool,
                              net: Request -> Outcome, lib: JsonLib)
    requires IsEnabled(c)
    requires var o := net(BuildRequest(c, messages, temperature, forceJson, true));
             o.TransportFailure? || o.MalformedBody?
    ensures var o := net(BuildRequest(c, messages, temperature, forceJson, true));
            var r := Respond(c, messages, temperature, forceJson, net, lib);
            && |r.sent| == 1
            && r.error == Some(FailureText(o))
            && r.text == MockChat(messages, r.error, false)
  {
  }

  /** Without a body, or with an empty one, only the three statuses lead
      to a retry. */
  lemma RetryWithoutBody(code: int)
    ensures ShouldRetryWithoutResponseFormat(code, None) <==> code in {400, 404, 422}
    ensures ShouldRetryWithoutResponseFormat(code, Some("")) <==> code in {400, 404, 422}
  {
  }

  /** The latest assistant turn is the one the duplicate check reads, also
      when a user turn follows it. */
  lemma LatestAssistantContent(messages: seq<Message>, latest: string, text: string)
    ensures LastAssistantContent(messages + [Message("assistant", latest)]) == latest
    ensures LastAssistantContent(messages + [Message("assistant", latest), Message("user", text)]) == latest
  {
    var m1 := messages + [Message("assistant", latest)];
    var m2 := messages + [Message("assistant", latest), Message("user", text)];
    assert m2[..|m2| - 1] == m1;
    assert LastAssistantIndex(m1) == |m1| - 1;
  }

  /** Only the latest assistant turn is compared: a reply repeating an older
      one is not a duplicate. */
  lemma DuplicateMeansLatest(messages: seq<Message>, latest: string, reply: string)
    ensures IsDuplicate(messages + [Message("assistant", latest)], reply)
        <==> latest != "" && Strip(reply) == Strip(latest)
    ensures IsDuplicate(messages + [Message("assistant", latest), Message("user", reply)], reply)
        <==> latest != "" && Strip(reply) == Strip(latest)
  {
    LatestAssistantContent(messages, latest, reply);
  }

  /** A JSON body whose "error" object has a truthy "message" shows that
      message after the status line. */
  lemma HttpErrorMessage(code: int, body: string, lib: JsonLib, top: map<string, Json>, err: map<string, Json>)
    requires body != "" && lib.loads(body) == Some(JObj(top))
    requires "error" in top && top["error"] == JObj(err)
    requires "message" in err && Truthy(err["message"])
    ensures FormatHttpError(code, Some(body), lib) == StatusLine(code) + ": " + PyStr(err["message"], lib)
  {
  }

  /** Without a truthy "message", a truthy "type" of the "error" object is
      shown instead. */
  lemma HttpErrorType(code: int, body: string, lib: JsonLib, top: map<string, Json>, err: map<string, Json>)
    requires body != "" && lib.loads(body) == Some(JObj(top))
    requires "error" in top && top["error"] == JObj(err)
    requires !("message" in err && Truthy(err["message"]))
    requires "type" in err && Truthy(err["type"])
    ensures FormatHttpError(code, Some(body), lib) == StatusLine(code) + ": " + PyStr(err["type"], lib)
  {
  }

  /** A body that is not a JSON object is shown raw, cut to 200 characters. */
  lemma HttpErrorUnreadableBody(code: int, body: string, lib: JsonLib)
    requires body != ""
    requires lib.loads(body).None? || !lib.loads(body).value.JObj?
    ensures FormatHttpError(code, Some(body), lib) == StatusLine(code) + ": " + Take(body, 200)
  {
  }

  /** So is a JSON object without a usable detail: no "error", a falsy one,
      one that is not an object, or one with neither a truthy "message" nor
      a truthy "type". */
  lemma HttpErrorWithoutDetail(code: int, body: string, lib: JsonLib, top: map<string, Json>)
    requires body != "" && lib.loads(body) == Some(JObj(top))
    requires || "error" !in top || !Truthy(top["error"]) || !top["error"].JObj?
             || (&& !("message" in top["error"].fields && Truthy(top["error"].fields["message"]))
                 && !("type" in top["error"].fields && Truthy(top["error"].fields["type"])))
    ensures FormatHttpError(code, Some(body), lib) == StatusLine(code) + ": " + Take(body, 200)
  {
  }

  /** Only 402 is spelled out, as "Payment Required". */
  lemma PaymentRequiredStatus()
    ensures StatusLine(402) == "HTTP 402 Payment Required"
  {
    assert IntToString(402) == "402" by {
      assert NatToString(402) == NatToString(40) + "2";
      assert NatToString(40) == NatToString(4) + "0";
    }
  }

  // =====================================================================
  // How the offline substitute progresses
  // =====================================================================

  lemma AnyContainsAppend(texts: seq<string>, t: string, k: string)
    ensures AnyContains(texts + [t], k) <==> AnyContains(texts, k) || Contains(t, k)
  {
    if AnyContains(texts, k) {
      var i :| 0 <= i < |texts| && Contains(texts[i], k);
      assert (texts + [t])[i] == texts[i];
    }
    if Contains(t, k) {
      assert (texts + [t])[|texts|] == t;
    }
  }

  /** The grounding question is itself the "worst outcome" question. */
  lemma GroundingQuestionAsksWorst()
    ensures Contains(GroundingQuestion, WorstOutcomeMarker)
  {
    ContainsInfix(GroundingLine1 + GroundingLine2a, WorstOutcomeMarker, GroundingLine2b);
  }

  predicate IsDriverMarker(k: string) {
    k == DriverQuestionMarker || k == DriverChoicesMarker
  }

  /** A character each driver marker has and the fixed texts lack */
  function MarkerChar(k: string): char {
    if k == DriverQuestionMarker then '哪' else '岗'
  }

  lemma NotContainsJoined(a: string, b: string, k: string)
    requires a != [] && a[|a| - 1] == '\n' && '\n' !in k
    requires !Contains(a, k) && !Contains(b, k)
    ensures !Contains(a + b, k)
  {
    ContainsAcross(a, b, k);
  }

  lemma GroundingLinesLackMarkerChars(c: char)
    requires c == '哪' || c == '岗'
    ensures c !in GroundingLine1 && c !in GroundingLine2a
    ensures c !in WorstOutcomeMarker && c !in GroundingLine2b
  {
  }

  lemma GroundingLacksDriverMarkers()
    ensures !Contains(GroundingQuestion, DriverQuestionMarker)
    ensures !Contains(GroundingQuestion, DriverChoicesMarker)
  {
    forall c | c == '哪' || c == '岗'
      ensures c !in GroundingQuestion
    {
      GroundingLinesLackMarkerChars(c);
      NotInConcat(c, GroundingLine1, GroundingLine2a);
      NotInConcat(c, GroundingLine1 + GroundingLine2a, WorstOutcomeMarker);
      NotInConcat(c, GroundingLine1 + GroundingLine2a + WorstOutcomeMarker, GroundingLine2b);
    }
    NotContainsWithoutChar(GroundingQuestion, DriverQuestionMarker, '哪');
    NotContainsWithoutChar(GroundingQuestion, DriverChoicesMarker, '岗');
  }

  lemma ChoiceLinesLackQuestionChar()
    ensures '哪' !in ChoiceLine1 && '哪' !in ChoiceLine2 && '哪' !in ChoiceLine3
    ensures '哪' !in ChoiceLine4 && '哪' !in ChoiceLine5 && '哪' !in ChoiceLine6
  {
    ChoiceLinesLackChar('哪');
  }

  lemma ChoiceLinesLackChar(c: char)
    requires c == '哪' || c == '岗'
    ensures c !in ChoiceLine1 && c !in ChoiceLine2 && c !in ChoiceLine4
    ensures c !in ChoiceLine5 && c !in ChoiceLine6
  {
    ChoiceHeadLacksChar(c);
    ChoiceTailLacksChar(c);
  }

  lemma ChoiceHeadLacksChar(c: char)
    requires c == '哪' || c == '岗'
    ensures c !in ChoiceLine1 && c !in ChoiceLine2
  {
  }

  lemma ChoiceTailLacksChar(c: char)
    requires c == '哪' || c == '岗'
    ensures c !in ChoiceLine4 && c !in ChoiceLine5 && c !in ChoiceLine6
  {
  }

  lemma ChoicePromptLacksQuestionMarker()
    ensures !Contains(DriverChoicePrompt, DriverQuestionMarker)
  {
    ChoiceLinesLackQuestionChar();
    var p2 := ChoiceLine1 + ChoiceLine2;
    NotInConcat('哪', ChoiceLine1, ChoiceLine2);
    var p3 := p2 + ChoiceLine3;
    NotInConcat('哪', p2, ChoiceLine3);
    var p4 := p3 + ChoiceLine4;
    NotInConcat('哪', p3, ChoiceLine4);
    var p5 := p4 + ChoiceLine5;
    NotInConcat('哪', p4, ChoiceLine5);
    NotInConcat('哪', p5, ChoiceLine6);
    NotContainsWithoutChar(DriverChoicePrompt, DriverQuestionMarker, '哪');
  }

  lemma ChoiceLinesLackMarker()
    ensures !Contains(ChoiceLine1, DriverChoicesMarker) && !Contains(ChoiceLine2, DriverChoicesMarker)
    ensures !Contains(ChoiceLine3, DriverChoicesMarker) && !Contains(ChoiceLine4, DriverChoicesMarker)
    ensures !Contains(ChoiceLine5, DriverChoicesMarker) && !Contains(ChoiceLine6, DriverChoicesMarker)
  {
    var k := DriverChoicesMarker;
    assert '岗' in k && '/' in k;
    ChoiceLinesLackChar('岗');
    assert '/' !in ChoiceLine3;
    NotContainsWithoutChar(ChoiceLine1, k, '岗');
    NotContainsWithoutChar(ChoiceLine2, k, '岗');
    NotContainsWithoutChar(ChoiceLine3, k, '/');
    NotContainsWithoutChar(ChoiceLine4, k, '岗');
    NotContainsWithoutChar(ChoiceLine5, k, '岗');
    NotContainsWithoutChar(ChoiceLine6, k, '岗');
  }

  /** The options of the A/B/C prompt sit on separate lines, so the prompt
      does not contain "岗位消失/不重要/退化". */
  lemma ChoicePromptLacksChoicesMarker()
    ensures !Contains(DriverChoicePrompt, DriverChoicesMarker)
  {
    var k := DriverChoicesMarker;
    assert '\n' !in k;
    ChoiceLinesLackMarker();
    var p2 := ChoiceLine1 + ChoiceLine2;
    NotContainsJoined(ChoiceLine1, ChoiceLine2, k);
    var p3 := p2 + ChoiceLine3;
    NotContainsJoined(p2, ChoiceLine3, k);
    var p4 := p3 + ChoiceLine4;
    NotContainsJoined(p3, ChoiceLine4, k);
    var p5 := p4 + ChoiceLine5;
    NotContainsJoined(p4, ChoiceLine5, k);
    NotContainsJoined(p5, ChoiceLine6, k);
  }

  /** Neither the grounding question nor the A/B/C prompt contains a marker
      of an asked driver question: "更像 A/B/C" is not "更像哪一种". */
  lemma StageRepliesLackDriverMarkers(k: string)
    requires IsDriverMarker(k)
    ensures !Contains(GroundingQuestion, k)
    ensures !Contains(DriverChoicePrompt, k)
  {
    GroundingLacksDriverMarkers();
    ChoicePromptLacksQuestionMarker();
    ChoicePromptLacksChoicesMarker();
  }

  /** The prefix ends with a full-width closing parenthesis, or is empty. */
  lemma MockPrefixEnd(error: Option<string>, showPrefix: bool)
    ensures var p := MockPrefix(error, showPrefix); p == [] || p[|p| - 1] == '）'
  {
  }

  /** A driver marker in the prefix can only come from the shown error. */
  lemma MockPrefixMarkers(error: Option<string>, showPrefix: bool, k: string)
    requires IsDriverMarker(k)
    requires error.Some? ==> !Contains(Take(error.value, 80), k)
    ensures !Contains(MockPrefix(error, showPrefix), k)
  {
    var c := MarkerChar(k);
    assert c in k && '）' !in k && '：' !in k;
    var p1 := if showPrefix then MockModePrefix else "";
    assert c !in MockModePrefix;
    NotContainsWithoutChar(p1, k, c);
    var p2 := if error.Some? && error.value != "" then FailureBanner(error.value) else "";
    if p2 != [] {
      var x := Take(error.value, 80);
      assert c !in FailureBannerOpen && c !in FailureBannerClose;
      NotContainsWithoutChar(FailureBannerOpen, k, c);
      NotContainsWithoutChar(FailureBannerClose, k, c);
      ContainsAcross(x, FailureBannerClose, k);
      ContainsAcross(FailureBannerOpen, x + FailureBannerClose, k);
      assert p2 == FailureBannerOpen + (x + FailureBannerClose);
    }
    if p1 == [] {
      assert MockPrefix(error, showPrefix) == p2;
    } else {
      ContainsAcross(p1, p2, k);
    }
  }

  /** While no driver question has been asked, the substitute's reply asks
      none either (unless the shown error text contains one). */
  lemma MockReplyLacksDriverMarkers(messages: seq<Message>, error: Option<string>, showPrefix: bool, k: string)
    requires IsDriverMarker(k) && !AskedDriver(messages)
    requires error.Some? ==> !Contains(Take(error.value, 80), k)
    ensures !Contains(MockChat(messages, error, showPrefix), k)
  {
    StageRepliesLackDriverMarkers(k);
    MockPrefixMarkers(error, showPrefix, k);
    MockPrefixEnd(error, showPrefix);
    var p := MockPrefix(error, showPrefix);
    if p == [] {
      assert MockChat(messages, error, showPrefix) == MockBody(messages);
    } else {
      assert '）' !in k;
      ContainsAcross(p, MockBody(messages), k);
    }
  }

  /** The stage-1 reply asks for the worst outcome, whatever its prefix. */
  lemma GroundingReplyAsksWorst(prefix: string)
    ensures Contains(prefix + GroundingQuestion, WorstOutcomeMarker)
  {
    var reply := prefix + GroundingQuestion;
    var before := prefix + GroundingLine1 + GroundingLine2a;
    assert reply == before + WorstOutcomeMarker + GroundingLine2b;
    ContainsInfix(before, WorstOutcomeMarker, GroundingLine2b);
  }

  /** A transcript the substitute alone has answered never reaches the
      driver scripts: after the grounding question (stage 1) comes the A/B/C
      prompt (stage 2), and the A/B/C prompt is followed by itself. */
  lemma MockReplyStaysBeforeScripts(messages: seq<Message>, error: Option<string>, showPrefix: bool)
    requires !AskedDriver(messages)
    requires error.Some? ==> !Contains(Take(error.value, 80), DriverQuestionMarker)
                             && !Contains(Take(error.value, 80), DriverChoicesMarker)
    ensures var next := messages + [Message("assistant", MockChat(messages, error, showPrefix))];
            !AskedDriver(next) && MockStage(next) == 2
  {
    var reply := MockChat(messages, error, showPrefix);
    var next := messages + [Message("assistant", reply)];
    var said := ContentsOf(messages, "assistant");
    ContentsOfAppend(messages, Message("assistant", reply), "assistant");
    assert ContentsOf(next, "assistant") == said + [reply];
    MockReplyLacksDriverMarkers(messages, error, showPrefix, DriverQuestionMarker);
    MockReplyLacksDriverMarkers(messages, error, showPrefix, DriverChoicesMarker);
    AnyContainsAppend(said, reply, DriverQuestionMarker);
    AnyContainsAppend(said, reply, DriverChoicesMarker);
    assert !AskedDriver(next);
    AnyContainsAppend(said, reply, WorstOutcomeMarker);
    if MockStage(messages) == 1 {
      GroundingReplyAsksWorst(MockPrefix(error, showPrefix));
    }
    assert AskedWorst(next);
  }

  /** A user turn does not move the substitute along. */
  lemma UserTurnKeepsStage(messages: seq<Message>, text: string)
    ensures AskedDriver(messages + [Message("user", text)]) == AskedDriver(messages)
    ensures MockStage(messages + [Message("user", text)]) == MockStage(messages)
  {
    var next := messages + [Message("user", text)];
    ContentsOfAppend(messages, Message("user", text), "assistant");
    assert ContentsOf(next, "assistant") == ContentsOf(messages, "assistant");
  }

  /** The transcript after each user turn is answered by the unconfigured
      client's substitute */
  function OfflineConversation(history: seq<Message>, turns: seq<string>): seq<Message>
    decreases |turns|
  {
    if turns == [] then history
    else
      var asked := history + [Message("user", turns[0])];
      OfflineConversation(asked + [Message("assistant", MockChat(asked, None, true))], turns[1..])
  }

  /** However long the user talks to the unconfigured client, its substitute
      never gets past the A/B/C prompt to a driver script. */
  lemma {:induction false} OfflineNeverReachesScripts(history: seq<Message>, turns: seq<string>)
    requires !AskedDriver(history)
    ensures !AskedDriver(OfflineConversation(history, turns))
    ensures turns != [] ==> MockStage(OfflineConversation(history, turns)) == 2
    decreases |turns|
  {
    if turns != [] {
      var asked := history + [Message("user", turns[0])];
      UserTurnKeepsStage(history, turns[0]);
      MockReplyStaysBeforeScripts(asked, None, true);
      OfflineNeverReachesScripts(asked + [Message("assistant", MockChat(asked, None, true))], turns[1..]);
    }
  }

  // =====================================================================
  // The client object
  // =====================================================================

  /** `LLMClient`: settings fixed at construction, `last_error` updated by
      every call of `Chat` */
  class Client {
    const baseUrl: string
    const apiKey: string
    const model: string
    var lastError: Option<string>

    constructor (rawBaseUrl: string, rawApiKey: string, rawModel: string)
      ensures Settings(baseUrl, apiKey, model) == Configure(rawBaseUrl, rawApiKey, rawModel)
      ensures lastError == None
    {
      baseUrl := NormalizeBaseUrl(rawBaseUrl);
      apiKey := rawApiKey;
      model := Strip(rawModel);
      lastError := None;
    }

    function Config(): Settings {
      Settings(baseUrl, apiKey, model)
    }

    predicate Enabled() {
      IsEnabled(Config())
    }

    /** `_dedupe_or_fallback`: scans the transcript from the end for the most
        recent assistant message. */
    method DedupeOrFallback(messages: seq<Message>, reply: string) returns (r: string)
      ensures r == Deduped(messages, reply)
    {
      var lastAssistant := "";
      var i := |messages|;
      while i > 0
        invariant 0 <= i <= |messages|
        invariant forall j :: i <= j < |messages| ==> messages[j].role != "assistant"
        invariant lastAssistant == ""
      {
        i := i - 1;
        if messages[i].role == "assistant" {
          lastAssistant := messages[i].content;
          break;
        }
      }
      assert lastAssistant == LastAssistantContent(messages);
      if lastAssistant != "" && Strip(reply) == Strip(lastAssistant) {
        r := MockChat(messages, Some(DuplicateError), true);
      } else {
        r := reply;
      }
    }

    /** `chat`: answers with text and records the failure, if any, in
        `lastError`, for every outcome the model covers. */
    method Chat(messages: seq<Message>, temperature: real, forceJson: bool,
                net: Request -> Outcome, lib: JsonLib) returns (reply: string)
      modifies this
      ensures reply == Respond(Config(), messages, temperature, forceJson, net, lib).text
      ensures lastError == Respond(Config(), messages, temperature, forceJson, net, lib).error
    {
      if !Enabled() {
        var missing := MissingVariables(Config());
        if missing != [] && (baseUrl != "" || apiKey != "" || model != "") {
          lastError := Some(MissingMessage(missing));
          reply := MockChat(messages, lastError, false);
          return;
        }
        lastError := None;
        reply := MockChat(messages, None, true);
        return;
      }
      lastError := None;
      var outcome := net(BuildRequest(Config(), messages, temperature, forceJson, true));
      if outcome.Completed? {
        reply := DedupeOrFallback(messages, outcome.content);
      } else if outcome.HttpFailure? {
        var errText := FormatHttpError(outcome.code, outcome.body, lib);
        lastError := Some(errText);
        if forceJson && ShouldRetryWithoutResponseFormat(outcome.code, outcome.body) {
          var retried := net(BuildRequest(Config(), messages, temperature, true, false));
          if retried.Completed? {
            reply := DedupeOrFallback(messages, retried.content);
            return;
          }
          lastError := Some(FailureText(retried));
          reply := MockChat(messages, lastError, false);
          return;
        }
        reply := MockChat(messages, Some(errText), false);
      } else {
        lastError := Some(FailureText(outcome));
        reply := MockChat(messages, lastError, false);
      }
    }
  }
}
