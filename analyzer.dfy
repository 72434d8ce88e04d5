/** The transcript analyzer: turns a chat transcript into a summary record,
    either through the completion client (free model text coerced into the
    record) or, without a configured client, through a keyword heuristic. */
module Analyzer {

  import opened Wrappers
  import opened Text
  import opened PyJson
  import opened Drivers
  import opened Scale
  import opened Sequences
  import LlmClient

  // =====================================================================
  // Keyword heuristic (`_heuristic_driver`)
  // =====================================================================

  /** The analyzer's own lists; its job-loss list has no "失去工作". */
  const JobLossKeywords := ["裁员", "失业", "岗位消失", "取代", "替代"]
  const ValueThreatKeywords := ["不重要", "没价值", "无用", "没人需要", "被边缘"]
  const SkillErosionKeywords := ["依赖", "退化", "变笨", "不用脑", "思考能力下降"]

  predicate Caseless(keywords: seq<string>) {
    forall i, j :: 0 <= i < |keywords| && 0 <= j < |keywords[i]| ==> !IsAsciiLetter(keywords[i][j])
  }

  /** Lower-casing the text cannot change whether a keyword without ASCII
      letters occurs in it. */
  lemma MentionsAnyLower(text: string, keywords: seq<string>)
    requires Caseless(keywords)
    ensures LlmClient.MentionsAny(Lower(text), keywords) <==> LlmClient.MentionsAny(text, keywords)
  {
    forall i | 0 <= i < |keywords|
      ensures Contains(Lower(text), keywords[i]) <==> Contains(text, keywords[i])
    {
      LowerKeepsCaselessOccurrence(text, keywords[i]);
    }
    if LlmClient.MentionsAny(Lower(text), keywords) {
      var i :| 0 <= i < |keywords| && Contains(Lower(text), keywords[i]);
      assert Contains(text, keywords[i]);
    }
    if LlmClient.MentionsAny(text, keywords) {
      var i :| 0 <= i < |keywords| && Contains(text, keywords[i]);
      assert Contains(Lower(text), keywords[i]);
    }
  }

  lemma KeywordListsCaseless()
    ensures Caseless(JobLossKeywords) && Caseless(ValueThreatKeywords) && Caseless(SkillErosionKeywords)
  {
  }

  /** `_heuristic_driver(text)`: job loss first, then value threat, then skill
      erosion, value threat when nothing matches; case does not matter. */
  function HeuristicDriver(text: string): (d: Driver)
    ensures d == JobLoss <==> LlmClient.MentionsAny(text, JobLossKeywords)
    ensures d == SkillErosion <==> && !LlmClient.MentionsAny(text, JobLossKeywords)
                                   && !LlmClient.MentionsAny(text, ValueThreatKeywords)
                                   && LlmClient.MentionsAny(text, SkillErosionKeywords)
  {
    var t := Lower(text);
    KeywordListsCaseless();
    MentionsAnyLower(text, JobLossKeywords);
    MentionsAnyLower(text, ValueThreatKeywords);
    MentionsAnyLower(text, SkillErosionKeywords);
    if LlmClient.MentionsAny(t, JobLossKeywords) then JobLoss
    else if LlmClient.MentionsAny(t, ValueThreatKeywords) then ValueThreat
    else if LlmClient.MentionsAny(t, SkillErosionKeywords) then SkillErosion
    else ValueThreat
  }

  lemma MentionsAnyAppend(text: string, keywords: seq<string>, k: string)
    ensures LlmClient.MentionsAny(text, keywords + [k])
        <==> LlmClient.MentionsAny(text, keywords) || Contains(text, k)
  {
    var ks := keywords + [k];
    if LlmClient.MentionsAny(text, keywords) {
      var i :| 0 <= i < |keywords| && Contains(text, keywords[i]);
      assert ks[i] == keywords[i];
    }
    if Contains(text, k) {
      assert ks[|keywords|] == k;
    }
    if LlmClient.MentionsAny(text, ks) {
      var i :| 0 <= i < |ks| && Contains(text, ks[i]);
      if i < |keywords| {
        assert ks[i] == keywords[i];
      }
    }
  }

  /** The analyzer's heuristic and the client's `driver_of` disagree exactly
      on texts that mention "失去工作" and none of the analyzer's job-loss
      keywords. */
  lemma ClassifiersAgree(text: string)
    ensures HeuristicDriver(text) == LlmClient.DriverOf(text)
        <==> !(Contains(text, "失去工作") && !LlmClient.MentionsAny(text, JobLossKeywords))
  {
    assert LlmClient.JobLossKeywords == JobLossKeywords + ["失去工作"];
    MentionsAnyAppend(text, JobLossKeywords, "失去工作");
    assert LlmClient.ValueThreatKeywords == ValueThreatKeywords;
    assert LlmClient.SkillErosionKeywords == SkillErosionKeywords;
  }

  const LostJobPhrase := "失去工作"

  lemma PhraseLacksJobLossKeywords()
    ensures !LlmClient.MentionsAny(LostJobPhrase, JobLossKeywords)
  {
    var t := LostJobPhrase;
    NotContainsWithoutChar(t, "裁员", '裁');
    NotContainsWithoutChar(t, "失业", '业');
    NotContainsWithoutChar(t, "岗位消失", '岗');
    NotContainsWithoutChar(t, "取代", '取');
    NotContainsWithoutChar(t, "替代", '替');
  }

  lemma PhraseLacksValueThreatKeywords()
    ensures !LlmClient.MentionsAny(LostJobPhrase, ValueThreatKeywords)
  {
    var t := LostJobPhrase;
    NotContainsWithoutChar(t, "不重要", '不');
    NotContainsWithoutChar(t, "没价值", '没');
    NotContainsWithoutChar(t, "无用", '无');
    NotContainsWithoutChar(t, "没人需要", '没');
    NotContainsWithoutChar(t, "被边缘", '被');
  }

  lemma PhraseLacksSkillErosionKeywords()
    ensures !LlmClient.MentionsAny(LostJobPhrase, SkillErosionKeywords)
  {
    var t := LostJobPhrase;
    NotContainsWithoutChar(t, "依赖", '依');
    NotContainsWithoutChar(t, "退化", '退');
    NotContainsWithoutChar(t, "变笨", '变');
    NotContainsWithoutChar(t, "不用脑", '不');
    NotContainsWithoutChar(t, "思考能力下降", '思');
  }

  /** "失去工作" alone is job loss to the client and value threat to the
      analyzer. */
  lemma ClassifiersDiverge()
    ensures LlmClient.DriverOf(LostJobPhrase) == JobLoss
    ensures HeuristicDriver(LostJobPhrase) == ValueThreat
  {
    var t := LostJobPhrase;
    assert Contains(t, t) by {
      assert t[0..|t|] == t;
      assert OccursAt(t, t, 0);
    }
    assert LlmClient.JobLossKeywords[5] == t;
    PhraseLacksJobLossKeywords();
    PhraseLacksValueThreatKeywords();
    PhraseLacksSkillErosionKeywords();
  }

  // =====================================================================
  // The summary record
  // =====================================================================

  /** The dict `analyze_chat` returns: driver, intensity_guess_0_10,
      unhelpful_thoughts, reframe, suggested_actions and _llm_error */
  datatype Summary = Summary(
    driver: Driver,
    intensity: int,
    unhelpfulThoughts: seq<Json>,
    reframe: Json,
    suggestedActions: seq<Json>,
    llmError: Option<string>)

  const MockThoughts := [JStr("灾难化想象：把不确定当成必然"), JStr("全或无：要么被取代要么毫无价值")]
  const MockReframe := JStr("你现在面对的是不确定性带来的压力，而不是一个已确定的结局。与其预测未来，不如把注意力放到你能控制的协作方式与价值环节上。我们用一次小行动来恢复掌控感。")
  const MockActions := [JStr("写下你工作中3个关键环节，并标注AI可替代程度（10分钟）"), JStr("做一次三段协作：我先写要点→AI扩写→我复核删改（10分钟）")]

  /** The fixed analysis given without a configured client */
  function MockSummary(userText: string): Summary {
    Summary(HeuristicDriver(userText), 6, MockThoughts, MockReframe, MockActions, None)
  }

  const ParseFailureThought := "模型输出未能解析为JSON，已使用降级策略"

  /** The summary given when the reply cannot be read as a JSON object */
  function ParseFailure(raw: string, userText: string, llmError: Option<string>): Summary {
    Summary(HeuristicDriver(userText), 6, [JStr(ParseFailureThought)], JStr(Take(raw, 800)), [], llmError)
  }

  // =====================================================================
  // Locating the JSON in the reply (`_extract_json`)
  // =====================================================================

  /** A line that is a code fence once trimmed */
  predicate IsFenceLine(line: string) {
    StartsWith(Strip(line), "```")
  }

  /** The lines that are not fences, in order */
  function NonFenceLines(lines: seq<string>): (r: seq<string>)
    ensures |r| <= |lines|
  {
    if lines == [] then []
    else
      var rest := NonFenceLines(lines[1..]);
      if IsFenceLine(lines[0]) then rest else [lines[0]] + rest
  }

  /** A line is kept exactly when it occurs in the input and is not a fence. */
  lemma {:induction false} NonFenceLinesSpec(lines: seq<string>)
    ensures forall l :: l in NonFenceLines(lines) <==> l in lines && !IsFenceLine(l)
    decreases |lines|
  {
    if lines != [] {
      NonFenceLinesSpec(lines[1..]);
      assert lines == [lines[0]] + lines[1..];
    }
  }

  /** The kept lines are in their original order. */
  lemma {:induction false} NonFenceLinesInOrder(lines: seq<string>)
    ensures IsSubsequence(NonFenceLines(lines), lines)
    decreases |lines|
  {
    if lines != [] {
      NonFenceLinesInOrder(lines[1..]);
      var rest := NonFenceLines(lines[1..]);
      if !IsFenceLine(lines[0]) {
        assert ([lines[0]] + rest)[1..] == rest;
      }
    }
  }

  /** Each non-fence line is kept as many times as it occurs; no fence line is kept. */
  lemma {:induction false} NonFenceLinesCounts(lines: seq<string>)
    ensures forall l :: multiset(NonFenceLines(lines))[l]
                        == if IsFenceLine(l) then 0 else multiset(lines)[l]
    decreases |lines|
  {
    if lines != [] {
      NonFenceLinesCounts(lines[1..]);
      assert lines == [lines[0]] + lines[1..];
    }
  }

  /** The trimmed reply, its fence lines dropped when it opens with a fence */
  function Unfenced(raw: string): (text: string)
    ensures !StartsWith(Strip(raw), "```") ==> text == Strip(raw)
    ensures StartsWith(Strip(raw), "```") ==>
              text == Strip(Join("\n", NonFenceLines(SplitLines(Strip(raw)))))
  {
    var t := Strip(raw);
    if StartsWith(t, "```") then Strip(Join("\n", NonFenceLines(SplitLines(t)))) else t
  }

  /** Some "{" comes before some "}" */
  predicate HasBracePair(text: string) {
    exists i, j :: 0 <= i < j < |text| && text[i] == '{' && text[j] == '}'
  }

  /** `c` runs from the first "{" of `text` to its last "}" */
  predicate IsOuterBraceSpan(text: string, c: string) {
    && 2 <= |c| && c[0] == '{' && c[|c| - 1] == '}'
    && exists i :: 0 <= i <= |text| - |c| && text[i..i + |c|] == c
                   && '{' !in text[..i] && '}' !in text[i + |c|..]
  }

  /** The span from the first "{" to the last "}" when there is one, the
      whole text otherwise */
  function OuterBraceSpan(text: string): (c: string)
    ensures HasBracePair(text) ==> IsOuterBraceSpan(text, c)
    ensures !HasBracePair(text) ==> c == text
  {
    var start := Find(text, '{');
    var end := RFind(text, '}');
    if start != -1 && end != -1 && end > start then
      var c := text[start..end + 1];
      assert text[start..start + |c|] == c;
      assert HasBracePair(text) by {
        assert text[start] == '{' && text[end] == '}';
      }
      c
    else
      text
  }

  /** The text `_extract_json` hands to `json.loads` */
  function JsonCandidate(raw: string): string {
    OuterBraceSpan(Unfenced(raw))
  }

  lemma OpeningFenceLine()
    ensures IsFenceLine("```json")
  {
    var s := "```json";
    StripUnchanged(s);
    assert Strip(s) == s;
    assert s[..3] == "```";
  }

  lemma ClosingFenceLine()
    ensures IsFenceLine("```")
  {
    StripUnchanged("```");
  }

  /** A JSON object alone on its line is not a fence and is its own strip. */
  lemma ObjectLine(j: string)
    requires 2 <= |j| && j[0] == '{' && j[|j| - 1] == '}'
    ensures !IsFenceLine(j) && Strip(j) == j
  {
    StripUnchanged(j);
  }

  /** The fenced reply splits into its three lines. */
  lemma FencedLines(j: string)
    requires NoLineBreak(j) && j != []
    ensures SplitLines("```json\n" + j + "\n```") == ["```json", j, "```"]
  {
    var lines := ["```json", j, "```"];
    assert lines[1..] == [j, "```"];
    assert lines[1..][1..] == ["```"];
    assert Join("\n", ["```"]) == "```";
    assert Join("\n", [j, "```"]) == j + "\n" + "```";
    assert Join("\n", lines) == "```json" + "\n" + (j + "\n" + "```");
    assert "```json" + "\n" + (j + "\n" + "```") == "```json\n" + j + "\n```";
    assert NoLineBreak("```json") && NoLineBreak("```");
    SplitLinesJoin(lines);
  }

  /** Of the three lines only the object is kept. */
  lemma FencedNonFenceLines(j: string)
    requires 2 <= |j| && j[0] == '{' && j[|j| - 1] == '}'
    ensures NonFenceLines(["```json", j, "```"]) == [j]
  {
    var lines := ["```json", j, "```"];
    OpeningFenceLine();
    ClosingFenceLine();
    ObjectLine(j);
    assert lines[1..] == [j, "```"];
    assert lines[1..][1..] == ["```"];
    assert ["```"][1..] == [];
    assert NonFenceLines(["```"]) == [];
    assert NonFenceLines([j, "```"]) == [j];
  }

  /** The fenced reply has nothing to trim and opens with a fence. */
  lemma FencedReplyTrimmed(j: string)
    ensures var raw := "```json\n" + j + "\n```"; Strip(raw) == raw && StartsWith(raw, "```")
  {
    var raw := "```json\n" + j + "\n```";
    assert raw[0] == '`' && raw[|raw| - 1] == '`';
    assert raw[..3] == "```";
    BacktickEndsTrimmed(raw);
  }

  lemma BacktickEndsTrimmed(raw: string)
    requires raw != [] && raw[0] == '`' && raw[|raw| - 1] == '`'
    ensures Strip(raw) == raw
  {
    StripUnchanged(raw);
  }

  /** Fence removal leaves exactly the object line between the fences. */
  lemma UnfencedObject(j: string)
    requires 2 <= |j| && j[0] == '{' && j[|j| - 1] == '}' && NoLineBreak(j)
    ensures Unfenced("```json\n" + j + "\n```") == j
  {
    var raw := "```json\n" + j + "\n```";
    FencedReplyTrimmed(j);
    FencedLines(j);
    FencedNonFenceLines(j);
    assert Join("\n", [j]) == j;
    ObjectLine(j);
  }

  /** A text that is one object from brace to brace is its own span. */
  lemma OuterBraceSpanOfObject(j: string)
    requires 2 <= |j| && j[0] == '{' && j[|j| - 1] == '}'
    ensures OuterBraceSpan(j) == j
  {
    assert HasBracePair(j) by {
      assert j[0] == '{' && j[|j| - 1] == '}';
    }
    var c := OuterBraceSpan(j);
    var i :| 0 <= i <= |j| - |c| && j[i..i + |c|] == c && '{' !in j[..i] && '}' !in j[i + |c|..];
    assert j[0..|j|] == j;
  }

  /** A single-line object in a ```json fence is handed to `json.loads`
      exactly. */
  lemma FencedObjectCandidate(j: string)
    requires 2 <= |j| && j[0] == '{' && j[|j| - 1] == '}' && NoLineBreak(j)
    ensures JsonCandidate("```json\n" + j + "\n```") == j
  {
    UnfencedObject(j);
    OuterBraceSpanOfObject(j);
  }

  // =====================================================================
  // Field coercion (`_normalize`)
  // =====================================================================

  /** `obj.get(key) or []`, wrapped as `[str(x)]` when it is not a list */
  function ListField(d: map<string, Json>, key: string, lib: JsonLib): (r: seq<Json>)
    ensures key in d && d[key].JArr? ==> r == d[key].items
    ensures !(key in d && Truthy(d[key])) ==> r == []
    ensures key in d && Truthy(d[key]) && !d[key].JArr? ==> r == [JStr(PyStr(d[key], lib))]
  {
    var v := GetOr(d, key, JArr([]));
    if v.JArr? then v.items else [JStr(PyStr(v, lib))]
  }

  /** The driver kept from the object when it names one, else the heuristic */
  function DriverField(d: map<string, Json>, userText: string): (r: Driver)
    ensures forall x: Driver :: Get(d, "driver") == Some(JStr(Name(x))) ==> r == x
    ensures (forall x: Driver :: Get(d, "driver") != Some(JStr(Name(x)))) ==> r == HeuristicDriver(userText)
  {
    match Get(d, "driver")
    case Some(JStr(s)) =>
      (match Parse(s)
       case Some(x) => x
       case None => HeuristicDriver(userText))
    case _ => HeuristicDriver(userText)
  }

  /** `int(obj.get("intensity_guess_0_10", 6))` */
  function IntensityField(d: map<string, Json>): IntCoercion {
    if "intensity_guess_0_10" in d then PyInt(d["intensity_guess_0_10"]) else Converted(6)
  }

  /** `_normalize(obj)`; `None` where it raises past its own handler (an
      object that is not a dict, an infinite intensity), which sends
      `analyze_chat` to the parse-failure summary. */
  function Normalize(obj: Json, userText: string, llmError: Option<string>, lib: JsonLib): (r: Option<Summary>)
    ensures r.None? <==> !obj.JObj? || IntensityField(obj.fields).Overflow?
    ensures r.Some? ==> 0 <= r.value.intensity <= 10 && r.value.llmError == llmError
    ensures r.Some? && IntensityField(obj.fields).Rejected? ==> r.value.intensity == 6
    ensures r.Some? && IntensityField(obj.fields).Converted? ==>
              r.value.intensity == Clamp(0, 10, IntensityField(obj.fields).n)
    ensures r.Some? ==> && r.value.driver == DriverField(obj.fields, userText)
                        && r.value.unhelpfulThoughts == ListField(obj.fields, "unhelpful_thoughts", lib)
                        && r.value.reframe == GetOr(obj.fields, "reframe", JStr(""))
                        && r.value.suggestedActions == ListField(obj.fields, "suggested_actions", lib)
  {
    if !obj.JObj? then None
    else
      var d := obj.fields;
      var driver := DriverField(d, userText);
      match IntensityField(d)
      case Overflow => None
      case Rejected =>
        Some(Summary(driver, 6, ListField(d, "unhelpful_thoughts", lib), GetOr(d, "reframe", JStr("")),
                     ListField(d, "suggested_actions", lib), llmError))
      case Converted(n) =>
        Some(Summary(driver, Clamp(0, 10, n), ListField(d, "unhelpful_thoughts", lib), GetOr(d, "reframe", JStr("")),
                     ListField(d, "suggested_actions", lib), llmError))
  }

  /** The summary as the model is asked to write it */
  function Encode(s: Summary): Json {
    JObj(map[
      "driver" := JStr(Name(s.driver)),
      "intensity_guess_0_10" := JInt(s.intensity),
      "unhelpful_thoughts" := JArr(s.unhelpfulThoughts),
      "reframe" := s.reframe,
      "suggested_actions" := JArr(s.suggestedActions)])
  }

  /** A summary `_normalize` can give back unchanged */
  predicate WellFormed(s: Summary) {
    0 <= s.intensity <= 10 && (Truthy(s.reframe) || s.reframe == JStr(""))
  }

  /** A model that writes a well-formed summary gets it back unchanged. */
  lemma NormalizeEncode(s: Summary, userText: string, lib: JsonLib)
    requires WellFormed(s)
    ensures Normalize(Encode(s), userText, s.llmError, lib) == Some(s)
  {
    var d := Encode(s).fields;
    ParseName(s.driver);
    assert DriverField(d, userText) == s.driver;
  }

  /** An empty object takes every default. */
  lemma NormalizeDefaults(userText: string, llmError: Option<string>, lib: JsonLib)
    ensures Normalize(JObj(map[]), userText, llmError, lib)
         == Some(Summary(HeuristicDriver(userText), 6, [], JStr(""), [], llmError))
  {
  }

  /** The intensity is read from the one key it is written under. */
  lemma IntensityOfField(v: Json)
    ensures IntensityField(map["intensity_guess_0_10" := v]) == PyInt(v)
  {
  }

  /** Integers outside 0..10 are clamped to the nearest end. */
  lemma IntensityClamped(userText: string, llmError: Option<string>, lib: JsonLib)
    ensures Normalize(JObj(map["intensity_guess_0_10" := JInt(42)]), userText, llmError, lib).value.intensity == 10
    ensures Normalize(JObj(map["intensity_guess_0_10" := JInt(-3)]), userText, llmError, lib).value.intensity == 0
  {
    IntensityOfField(JInt(42));
    IntensityOfField(JInt(-3));
  }

  /** A float is truncated toward zero. */
  lemma IntensityTruncated(userText: string, llmError: Option<string>, lib: JsonLib)
    ensures Normalize(JObj(map["intensity_guess_0_10" := JFloat(Finite(7.9))]), userText, llmError, lib).value.intensity == 7
  {
    IntensityOfField(JFloat(Finite(7.9)));
  }

  lemma SevenParsed()
    ensures PyInt(JStr("7")) == Converted(7)
  {
    PyIntOfRenderedInt(7);
    assert IntToString(7) == "7";
  }

  /** A numeric string is parsed. */
  lemma IntensityParsed(userText: string, llmError: Option<string>, lib: JsonLib)
    ensures Normalize(JObj(map["intensity_guess_0_10" := JStr("7")]), userText, llmError, lib).value.intensity == 7
  {
    IntensityOfField(JStr("7"));
    SevenParsed();
  }

  /** What `int()` refuses (`None`, NaN) becomes 6; infinity makes the
      normalisation fail. */
  lemma IntensityRefused(userText: string, llmError: Option<string>, lib: JsonLib)
    ensures Normalize(JObj(map["intensity_guess_0_10" := JNull]), userText, llmError, lib).value.intensity == 6
    ensures Normalize(JObj(map["intensity_guess_0_10" := JFloat(NaN)]), userText, llmError, lib).value.intensity == 6
    ensures Normalize(JObj(map["intensity_guess_0_10" := JFloat(Infinity(false))]), userText, llmError, lib).None?
  {
    IntensityOfField(JNull);
    IntensityOfField(JFloat(NaN));
    IntensityOfField(JFloat(Infinity(false)));
  }

  // =====================================================================
  // The analysis
  // =====================================================================

  /** The summary built from the client's reply: the normalised object, or
      the parse-failure summary when no object can be read */
  function SummaryOfReply(raw: string, userText: string, llmError: Option<string>, lib: JsonLib): (s: Summary)
    ensures s.llmError == llmError && 0 <= s.intensity <= 10
    ensures lib.loads(JsonCandidate(raw)).None? ==> s == ParseFailure(raw, userText, llmError)
    ensures lib.loads(JsonCandidate(raw)).Some? && !lib.loads(JsonCandidate(raw)).value.JObj? ==>
              s == ParseFailure(raw, userText, llmError)
    ensures lib.loads(JsonCandidate(raw)).Some? ==>
              var n := Normalize(lib.loads(JsonCandidate(raw)).value, userText, llmError, lib);
              && (n.Some? ==> s == n.value)
              && (n.None? ==> s == ParseFailure(raw, userText, llmError))
  {
    match lib.loads(JsonCandidate(raw))
    case None => ParseFailure(raw, userText, llmError)
    case Some(obj) =>
      match Normalize(obj, userText, llmError, lib)
      case Some(s) => s
      case None => ParseFailure(raw, userText, llmError)
  }

  /** A well-formed summary written as a single-line JSON object in a
      ```json fence is read back unchanged. */
  lemma FencedSummaryRoundTrip(s: Summary, j: string, userText: string, lib: JsonLib)
    requires WellFormed(s)
    requires 2 <= |j| && j[0] == '{' && j[|j| - 1] == '}' && NoLineBreak(j)
    requires lib.loads(j) == Some(Encode(s))
    ensures SummaryOfReply("```json\n" + j + "\n```", userText, s.llmError, lib) == s
  {
    FencedObjectCandidate(j);
    NormalizeEncode(s, userText, lib);
  }

  /** The transcript as the list of role/content dicts `json.dumps` gets */
  function TranscriptJson(messages: seq<LlmClient.Message>): Json {
    JArr(seq(|messages|, i requires 0 <= i < |messages| =>
      JObj(map["role" := JStr(messages[i].role), "content" := JStr(messages[i].content)])))
  }

  /** The two messages sent to the client; the analyzer's system prompt and
      schema hint are given as text. */
  function AnalyzerPrompt(messages: seq<LlmClient.Message>, systemAnalyzer: string, schemaHint: string,
                          lib: JsonLib): seq<LlmClient.Message> {
    [LlmClient.Message("system", systemAnalyzer + "\n" + schemaHint),
     LlmClient.Message("user", "CHAT TRANSCRIPT:\n" + lib.dumps(TranscriptJson(messages)))]
  }

  /** `analyze_chat(messages)`, with the client's settings, prompts, network
      and JSON routines given */
  function Analysis(rawBaseUrl: string, rawApiKey: string, rawModel: string,
                    messages: seq<LlmClient.Message>, systemAnalyzer: string, schemaHint: string,
                    net: LlmClient.Request -> LlmClient.Outcome, lib: JsonLib): (s: Summary)
    ensures 0 <= s.intensity <= 10
  {
    var userText := LlmClient.UserText(messages);
    var c := LlmClient.Configure(rawBaseUrl, rawApiKey, rawModel);
    if !LlmClient.IsEnabled(c) then MockSummary(userText)
    else
      var reply := LlmClient.Respond(c, AnalyzerPrompt(messages, systemAnalyzer, schemaHint, lib), 0.2, true, net, lib);
      SummaryOfReply(reply.text, userText, reply.error, lib)
  }

  /** `analyze_chat`: builds a client, asks it for JSON and reads its
      `last_error` after the call. */
  method AnalyzeChat(rawBaseUrl: string, rawApiKey: string, rawModel: string,
                     messages: seq<LlmClient.Message>, systemAnalyzer: string, schemaHint: string,
                     net: LlmClient.Request -> LlmClient.Outcome, lib: JsonLib) returns (s: Summary)
    ensures s == Analysis(rawBaseUrl, rawApiKey, rawModel, messages, systemAnalyzer, schemaHint, net, lib)
  {
    var userText := LlmClient.UserText(messages);
    var client := new LlmClient.Client(rawBaseUrl, rawApiKey, rawModel);
    if !client.Enabled() {
      return MockSummary(userText);
    }
    var prompt := AnalyzerPrompt(messages, systemAnalyzer, schemaHint, lib);
    var raw := client.Chat(prompt, 0.2, true, net, lib);
    var llmError := client.lastError;
    s := SummaryOfReply(raw, userText, llmError, lib);
  }

  /** Without a full configuration the fixed analysis is returned, with the
      heuristic driver of the user turns and no error. */
  lemma UnconfiguredAnalysis(rawBaseUrl: string, rawApiKey: string, rawModel: string,
                             messages: seq<LlmClient.Message>, systemAnalyzer: string, schemaHint: string,
                             net: LlmClient.Request -> LlmClient.Outcome, lib: JsonLib)
    requires !LlmClient.IsEnabled(LlmClient.Configure(rawBaseUrl, rawApiKey, rawModel))
    ensures var s := Analysis(rawBaseUrl, rawApiKey, rawModel, messages, systemAnalyzer, schemaHint, net, lib);
            && s == MockSummary(LlmClient.UserText(messages))
            && s.driver == HeuristicDriver(LlmClient.UserText(messages))
            && s.intensity == 6 && s.llmError == None
  {
  }

  /** With a full configuration the first request asks for a JSON object,
      and the summary carries the error the client recorded. */
  lemma ConfiguredAnalysis(rawBaseUrl: string, rawApiKey: string, rawModel: string,
                           messages: seq<LlmClient.Message>, systemAnalyzer: string, schemaHint: string,
                           net: LlmClient.Request -> LlmClient.Outcome, lib: JsonLib)
    requires LlmClient.IsEnabled(LlmClient.Configure(rawBaseUrl, rawApiKey, rawModel))
    ensures var c := LlmClient.Configure(rawBaseUrl, rawApiKey, rawModel);
            var reply := LlmClient.Respond(c, AnalyzerPrompt(messages, systemAnalyzer, schemaHint, lib), 0.2, true, net, lib);
            && reply.sent != [] && reply.sent[0].responseFormat == Some("json_object")
            && reply.sent[0].temperature == 0.2
            && Analysis(rawBaseUrl, rawApiKey, rawModel, messages, systemAnalyzer, schemaHint, net, lib).llmError
               == reply.error
  {
  }
}
