# AI-anxiety screening core in Dafny

This project models the core of a small screening app for people worried about AI and their jobs:

- **Questionnaire scorers.**
  - `score_neuroticism`: six Likert items give a total and a low/mid/high band.
  - `score_job_anxiety`: four items give a total and a 0..10 intensity.
  - `score_dimension`: any number of items give a total and a 0..10 intensity.
- **Intervention catalog.** The key check of `load_interventions` and `filter_interventions`.
- **Router.** `route` picks at most two intervention cards for a worry driver and a band, with its two fallbacks.
- **Chat-completion client** (`LLMClient`):
  - the settings it reads;
  - the request it sends;
  - one retry without `response_format`;
  - the error text it records in `last_error`;
  - the duplicate-reply check;
  - the deterministic offline substitute reply (`_mock_chat`), which asks for the worst outcome, then for the driver, then gives a ten-minute script.
- **Transcript analyzer** (`analyze_chat`):
  - the keyword heuristic;
  - the fixed analysis used without a configured client;
  - locating a JSON object in free model text (code fences, outermost braces);
  - coercing that object into the summary record;
  - the fallback summary when that fails.

Modules, one per file:

- `Wrappers`: `Option`, `Result`.
- `Text`: the Python string built-ins the code relies on:
  - `strip`, `rstrip(c)`, `lower`, `find`/`rfind`;
  - `join`, `splitlines`;
  - `str(int)`, `int(str)`.
- `PyJson`:
  - the values `json.loads` yields;
  - truthiness, `dict.get(k) or d`, `str()`, `int()`.
- `Drivers`: the three worry drivers.
- `Scale`: Likert items, sums, Python's half-to-even `round` on exact fractions, the clamp.
- `Neuroticism`, `JobAnxiety`, `AiAnxiety`: the three scorers.
- `Interventions`: the catalog.
- `Personalize`: the router.
- `Sequences`: order-keeping selection (subsequences), shared by the two list filters.
- `LlmClient`: the client. `Respond` is the whole of one `chat` call as a function. The class `Client` holds the settings and the mutable `lastError`. Its `Chat` method is proved equal to `Respond`. `DedupeOrFallback` keeps the source's backwards scan with `break` as a loop.
- `Analyzer`: the analyzer. `AnalyzeChat` builds a `Client`, calls `Chat` and reads `lastError`. It is proved equal to the function `Analysis`.

A raised `ValueError` becomes an `Err` carrying the same message. The parts the code reaches through the environment are parameters:

- the network, as `net: Request -> Outcome`;
- the three environment variables;
- the prompt texts;
- `json.loads`, `json.dumps` and `str()` of floats and containers, as a `JsonLib` of functions.

## Model

| member | source | states |
|---|---|---|
| Scale.SumBounds | src/assessment/neuroticism.py:20 | n accepted Likert items sum to between n and 5n |
| Scale.RoundHalfEven | src/assessment/job_anxiety.py:21 | the result is a nearest integer to a/b, the even one at a tie (Python's `round`) |
| Scale.RoundHalfEvenUnique | src/assessment/job_anxiety.py:21 | only one integer rounds a/b half to even, so the specification pins `round` down |
| Scale.RoundHalfEvenMonotone | src/assessment/job_anxiety.py:21 | rounding never reverses the order of two fractions |
| Scale.RoundHalfEvenScale | src/assessment/ai_anxiety.py:25 | scaling numerator and denominator by the same positive factor keeps the rounded value |
| Scale.Clamp | src/assessment/job_anxiety.py:22 | `max(lo, min(hi, x))` lies in lo..hi, is x inside the range and the nearer end outside it |
| Neuroticism.BandOf | src/assessment/neuroticism.py:22-27 | low iff total <= 14, mid iff 15..22, high iff >= 23 |
| Neuroticism.ScoreNeuroticism | src/assessment/neuroticism.py:11-29 | the length error for other than 6 items, then the range error; a result iff 6 items in 1..5; total is the sum, in 6..30; band is the threshold band of the total |
| Neuroticism.BandMonotone | src/assessment/neuroticism.py:22-27 | a higher total never gives a lower band |
| Neuroticism.BandExtremes | src/assessment/neuroticism.py:15-29 | all 1s score (6, low); all 5s score (30, high) |
| JobAnxiety.IntensityOfTotal | src/assessment/job_anxiety.py:20-22 | for totals 4..20 the clamp never bites: intensity is the half-to-even rounding of 5(total-4)/8 |
| JobAnxiety.ScoreJobAnxiety | src/assessment/job_anxiety.py:9-23 | the length error, then the range error; a result iff 4 items in 1..5; total is the sum in 4..20; intensity in 0..10 rounds (total-4)/16*10 half to even |
| JobAnxiety.WorkedIntensities | src/assessment/job_anxiety.py:21-22 | totals 4, 8, 12, 16, 20 give 0, 2, 5, 8, 10 (the ties 2.5 and 7.5 go to the even neighbour) |
| JobAnxiety.IntensityMonotone | src/assessment/job_anxiety.py:21-22 | a higher total never gives a lower intensity |
| AiAnxiety.DimensionIntensityOfTotal | src/assessment/ai_anxiety.py:23-26 | for totals n..5n the clamp never bites and the intensity rounds (total-n)/(4n)*10 half to even |
| AiAnxiety.ScoreDimension | src/assessment/ai_anxiety.py:12-27 | the empty error, then the range error; a result iff non-empty and all in 1..5; count is n, total is the sum in n..5n, intensity in 0..10 is the rounded fraction |
| AiAnxiety.ExtremeIntensities | src/assessment/ai_anxiety.py:23-26 | any number of 1s gives intensity 0; any number of 5s gives 10 |
| AiAnxiety.FourItemsAgreeWithJobAnxiety | src/assessment/ai_anxiety.py:25 | on four items a dimension scores exactly like the job-anxiety scale |
| Interventions.LoadInterventions | src/interventions/loader.py:10-12 | the library is accepted unchanged iff it has the "interventions" key, else the fixed error message |
| Interventions.Matching | src/interventions/loader.py:16 | the result holds exactly the cards of the list whose driver and band both match |
| Interventions.MatchingCounts | src/interventions/loader.py:16 | each matching card is kept as many times as the catalog holds it, and no other card is kept |
| Interventions.FilterInterventions | src/interventions/loader.py:14-16 | a library without the key filters to nothing; every returned card matches |
| Interventions.MatchingIsSubsequence | src/interventions/loader.py:16 | filtering keeps the catalog order (the result is a subsequence) |
| Interventions.MatchingIdempotent | src/interventions/loader.py:16 | filtering a filtered list changes nothing |
| Interventions.MatchingAppend | src/interventions/loader.py:16 | filtering distributes over concatenated catalogs |
| Drivers.Parse | src/ai/analyzer.py:62 | a driver is read back iff the text is one of the three names, and then it is the one named |
| Drivers.ParseName | src/routing/personalize.py:19 | every driver's own name is accepted as that driver |
| Personalize.PickTwo | src/routing/personalize.py:5-7 | the result is the prefix of length min(2, n) |
| Personalize.Route | src/routing/personalize.py:9-36 | the invalid-driver error, then the invalid-band error; a result iff both are valid; at most two cards; empty iff the catalog is empty |
| Personalize.RouteExact | src/routing/personalize.py:26-36 | with exact matches, the first two of them are returned, all matching driver and band |
| Personalize.RouteMidFallback | src/routing/personalize.py:28-30 | without exact matches outside the mid band, the same driver's mid cards are picked |
| Personalize.RouteAnyFallback | src/routing/personalize.py:32-36 | with neither tier, the head of the whole catalog is picked |
| Personalize.RouteNonEmpty | src/routing/personalize.py:9-36 | a non-empty catalog always yields one or two cards |
| Personalize.RouteAcceptsScoredInputs | src/routing/personalize.py:19-22 | a model driver name with a scorer band name is never rejected |
| Text.StripSpec | src/ai/llm_client.py:139 | `strip` keeps the middle of the text; everything removed at either end is whitespace, and what is kept has none at its ends |
| Text.RStripChar | src/ai/llm_client.py:11 | `rstrip("/")` removes exactly the trailing run of the character |
| Text.LowerKeepsCaselessOccurrence | src/ai/analyzer.py:9-10 | lower-casing cannot create or destroy an occurrence of a keyword without ASCII letters |
| Text.Find | src/ai/analyzer.py:55 | the first index of the character, -1 iff it is absent |
| Text.RFind | src/ai/analyzer.py:56 | the last index of the character, -1 iff it is absent |
| Text.SplitLinesJoin | src/ai/analyzer.py:53-54 | `splitlines` of a "\n"-join gives the lines back when no line holds a boundary and the last is not empty |
| Text.ParseIntOfIntToString | src/ai/analyzer.py:64 | `int(str(n)) == n` for every integer |
| PyJson.GetOr | src/ai/analyzer.py:71 | `d.get(k) or default` is the stored value when truthy, else the default |
| PyJson.PyInt | src/ai/analyzer.py:64 | `int(v)` of a decoded JSON value; no contract of its own: PyJson.Truncate, PyJson.PyIntOfRenderedInt and the Analyzer.Intensity* lemmas state what it gives |
| PyJson.Truncate | src/ai/analyzer.py:64 | `int()` of a finite float truncates toward zero |
| PyJson.PyIntOfRenderedInt | src/ai/analyzer.py:64 | `int()` of a decimal string reads it back |
| LlmClient.NormalizeBaseUrl | src/ai/llm_client.py:11-13 | the base is a prefix of the raw value: its trailing slashes stripped, then one "/v1" removed if present |
| LlmClient.NormalizeBaseUrlDropsVersion | src/ai/llm_client.py:11-13 | any endpoint ending in "/v1" and slashes keeps only the bare base |
| LlmClient.NormalizeBaseUrlKeepsBareBase | src/ai/llm_client.py:11-13 | a base without "/v1" keeps everything but its trailing slashes |
| LlmClient.Client.constructor | src/ai/llm_client.py:9-17 | the settings are the normalised base, the key and the stripped model; no error is recorded |
| LlmClient.IsEnabled | src/ai/llm_client.py:19-20 | `enabled()`; no contract of its own: LlmClient.MissingVariables (none missing iff enabled), LlmClient.UnconfiguredReply and LlmClient.Respond (nothing is sent iff not enabled) state it |
| LlmClient.MissingVariables | src/ai/llm_client.py:33-39 | exactly the empty settings are named, in the fixed order; none iff the client is enabled |
| LlmClient.BuildRequest | src/ai/llm_client.py:74-90 | URL, bearer header, model and temperature; response_format "json_object" iff forced and enabled; the JSON-only system message prepended iff forced without it; the caller's messages kept at the end |
| LlmClient.ShouldRetryWithoutResponseFormat | src/ai/llm_client.py:97-103 | `_should_retry_without_response_format`; no contract of its own: LlmClient.RetryWithoutBody, LlmClient.RetryReply and LlmClient.HttpFailureNotRetried state when it holds and what follows |
| LlmClient.RetryWithoutBody | src/ai/llm_client.py:97-103 | without a body, or with an empty one, only 400, 404 and 422 lead to the retry |
| LlmClient.FormatHttpError | src/ai/llm_client.py:115-131 | the text opens with the status line; an empty body gives only that; otherwise ": " and the JSON error detail or the first 200 characters of the body follow |
| LlmClient.ErrorDetail | src/ai/llm_client.py:118-128 | the JSON error detail of `_format_http_error`; no contract of its own: the four LlmClient.HttpError* lemmas state it for every body shape |
| LlmClient.HttpErrorMessage | src/ai/llm_client.py:121-128 | a JSON object body whose "error" is an object with a truthy "message" shows `str()` of that message after the status line |
| LlmClient.HttpErrorType | src/ai/llm_client.py:121-128 | without a truthy "message", a truthy "type" of that object is shown instead |
| LlmClient.HttpErrorUnreadableBody | src/ai/llm_client.py:121-131 | a body that does not decode to a JSON object is shown raw, cut to its first 200 characters |
| LlmClient.HttpErrorWithoutDetail | src/ai/llm_client.py:123-131 | so is an object body whose "error" is missing, falsy or not an object, or has neither a truthy "message" nor a truthy "type" |
| LlmClient.PaymentRequiredStatus | src/ai/llm_client.py:116-118 | status 402 reads "HTTP 402 Payment Required" |
| LlmClient.MockChat | src/ai/llm_client.py:143-208 | `_mock_chat`; no contract of its own: LlmClient.MockPrefixEnd, LlmClient.MockPrefixMarkers, LlmClient.GroundingQuestionAsksWorst, LlmClient.MockReplyStaysBeforeScripts and LlmClient.OfflineNeverReachesScripts state its stages and prefix |
| LlmClient.DriverOf | src/ai/llm_client.py:156-163 | job loss iff a job-loss keyword occurs; skill erosion iff only a skill-erosion keyword does; value threat otherwise |
| LlmClient.LastAssistantIndex | src/ai/llm_client.py:134-138 | the index of the most recent assistant message (-1 if none): no assistant message follows it |
| LlmClient.Deduped | src/ai/llm_client.py:133-141 | the value `_dedupe_or_fallback` returns; no contract of its own: LlmClient.Client.DedupeOrFallback is proved equal to it, and LlmClient.DuplicateMeansLatest and LlmClient.CompletedReply state when it replaces the reply |
| LlmClient.Client.DedupeOrFallback | src/ai/llm_client.py:133-141 | the backwards scan finds the latest assistant content; a reply repeating it (after strip) is replaced by the substitute with the duplicate error |
| LlmClient.LatestAssistantContent | src/ai/llm_client.py:134-138 | the latest assistant turn is the one compared, also when a user turn follows it |
| LlmClient.DuplicateMeansLatest | src/ai/llm_client.py:139-141 | a reply is a duplicate iff the latest assistant turn is non-empty and equal to it after strip |
| LlmClient.Respond | src/ai/llm_client.py:32-65 | nothing is sent iff the client is not enabled; the first request asks for response_format when JSON is forced; a second one, without it, is sent iff JSON is forced and the first fails with a retryable HTTP error |
| LlmClient.Client.Chat | src/ai/llm_client.py:22-65 | the reply and the new `lastError` are those of `Respond` for the client's settings |
| LlmClient.UnconfiguredReply | src/ai/llm_client.py:43-44 | with no setting at all, the substitute answers under the Mock prefix, no error is recorded, nothing is sent |
| LlmClient.PartialConfigReply | src/ai/llm_client.py:33-42 | with some settings missing, the error names exactly those; the reply opens with that failure banner and not with the Mock prefix |
| LlmClient.ErrorRecordedUnlessCompleted | src/ai/llm_client.py:32-65 | no error is recorded iff nothing is configured, or the client is enabled and the first request completes |
| LlmClient.CompletedReply | src/ai/llm_client.py:46-49 | a completed reply is returned unless it is a duplicate; then the substitute answers with both prefixes; no error either way |
| LlmClient.RetryReply | src/ai/llm_client.py:50-60 | two requests, the second without response_format; a successful retry answers but the first HTTP error stays recorded; a failed one records its own error |
| LlmClient.HttpFailureNotRetried | src/ai/llm_client.py:50-61 | an HTTP error is not retried when JSON is not forced or the retry test rejects it; one request is sent, the formatted error is recorded and the substitute shows it |
| LlmClient.TransportFailureReply | src/ai/llm_client.py:62-65 | a `URLError` or a malformed success body records `str(e)` after one request, and the substitute shows it without the Mock prefix |
| LlmClient.MockPrefixEnd | src/ai/llm_client.py:145-147 | the prefix is empty or ends in a full-width closing parenthesis |
| LlmClient.BannerIsNotMockPrefix | src/ai/llm_client.py:145-147 | a reply under a failure banner does not open with the Mock prefix |
| LlmClient.MockPrefixMarkers | src/ai/llm_client.py:145-147 | a driver-question marker can reach the prefix only through the shown error text |
| LlmClient.GroundingQuestionAsksWorst | src/ai/llm_client.py:167-172 | the first-stage reply contains the worst-outcome marker |
| LlmClient.StageRepliesLackDriverMarkers | src/ai/llm_client.py:153-182 | neither the grounding question nor the A/B/C prompt contains a driver-question marker |
| LlmClient.MockReplyLacksDriverMarkers | src/ai/llm_client.py:143-182 | before any driver question, the substitute's reply asks none either |
| LlmClient.MockReplyStaysBeforeScripts | src/ai/llm_client.py:149-182 | after the substitute's reply the worst outcome counts as asked, the driver question does not, and the next reply is the A/B/C prompt |
| LlmClient.UserTurnKeepsStage | src/ai/llm_client.py:150-154 | a user turn does not change which reply the substitute gives |
| LlmClient.OfflineNeverReachesScripts | src/ai/llm_client.py:143-208 | however long a user talks to the unconfigured client, it never gets past the A/B/C prompt to a driver script |
| Analyzer.MentionsAnyLower | src/ai/analyzer.py:9-15 | keyword lists without ASCII letters match the lower-cased text iff they match the text |
| Analyzer.HeuristicDriver | src/ai/analyzer.py:8-16 | job loss iff a job-loss keyword occurs; skill erosion iff only a skill-erosion keyword does; value threat otherwise; case does not matter |
| Analyzer.ClassifiersAgree | src/ai/analyzer.py:10 | the analyzer's heuristic and the client's `driver_of` disagree exactly on texts with "失去工作" and no other job-loss keyword |
| Analyzer.ClassifiersDiverge | src/ai/analyzer.py:10 | "失去工作" alone is job loss to the client and value threat to the analyzer |
| Analyzer.NonFenceLinesSpec | src/ai/analyzer.py:53 | a line is kept iff it is in the input and is not a fence once stripped |
| Analyzer.NonFenceLinesInOrder | src/ai/analyzer.py:53 | the kept lines are a subsequence of the input lines |
| Analyzer.NonFenceLinesCounts | src/ai/analyzer.py:53 | each non-fence line is kept as many times as it occurs, and no fence line is kept |
| Analyzer.Unfenced | src/ai/analyzer.py:51-54 | a reply not opening with a fence is only stripped; a fenced one is split into lines, its fence lines dropped, rejoined and stripped |
| Analyzer.OuterBraceSpan | src/ai/analyzer.py:55-59 | with some "{" before some "}", the span runs from the first "{" to the last "}"; otherwise the whole text |
| Analyzer.JsonCandidate | src/ai/analyzer.py:50-59 | the text `_extract_json` hands to `json.loads`; no contract of its own: Analyzer.Unfenced and Analyzer.OuterBraceSpan state its two steps, Analyzer.FencedObjectCandidate and Analyzer.FencedSummaryRoundTrip what it gives for a fenced object |
| Analyzer.FencedLines | src/ai/analyzer.py:53 | a fenced one-line object splits into its three lines |
| Analyzer.FencedNonFenceLines | src/ai/analyzer.py:53 | of those lines only the object is kept |
| Analyzer.UnfencedObject | src/ai/analyzer.py:51-54 | fence removal leaves exactly the object line |
| Analyzer.OuterBraceSpanOfObject | src/ai/analyzer.py:55-58 | a text that is one object from brace to brace is its own span |
| Analyzer.FencedObjectCandidate | src/ai/analyzer.py:50-58 | a one-line object in a ```json fence is handed to `json.loads` exactly |
| Analyzer.ListField | src/ai/analyzer.py:68-74 | a list is kept, a falsy or missing value gives [], anything else becomes [str(value)] |
| Analyzer.DriverField | src/ai/analyzer.py:62 | a valid driver name is kept, anything else gives the heuristic driver of the user text |
| Analyzer.IntensityField | src/ai/analyzer.py:64 | `int(obj.get("intensity_guess_0_10", 6))`; no contract of its own: Analyzer.Normalize (overflow fails, a refused value gives 6) and the Analyzer.Intensity* lemmas state it |
| Analyzer.Normalize | src/ai/analyzer.py:61-82 | fails iff the object is not a dict or the intensity is infinite; otherwise intensity is `int()` clamped to 0..10, or 6 when `int()` refuses; the driver, the two lists and the reframe are the coerced fields; the error is carried |
| Analyzer.NormalizeEncode | src/ai/analyzer.py:61-82 | a well-formed summary written as the requested object is read back unchanged |
| Analyzer.NormalizeDefaults | src/ai/analyzer.py:61-82 | an empty object takes every default |
| Analyzer.IntensityClamped | src/ai/analyzer.py:64-67 | 42 gives 10 and -3 gives 0 |
| Analyzer.IntensityTruncated | src/ai/analyzer.py:64-67 | 7.9 gives 7 |
| Analyzer.IntensityParsed | src/ai/analyzer.py:64-67 | "7" gives 7 |
| Analyzer.IntensityRefused | src/ai/analyzer.py:63-66 | null and NaN give 6; infinity makes normalisation fail |
| Analyzer.SummaryOfReply | src/ai/analyzer.py:84-97 | the normalised object when the candidate text decodes to one that normalises; otherwise (no JSON, not an object, infinite intensity) the parse-failure summary; the error is carried and the intensity is in 0..10 |
| Analyzer.FencedSummaryRoundTrip | src/ai/analyzer.py:50-87 | a well-formed summary written as one fenced JSON line is read back unchanged |
| Analyzer.Analysis | src/ai/analyzer.py:18-97 | every analysis has an intensity in 0..10 |
| Analyzer.AnalyzeChat | src/ai/analyzer.py:18-97 | building the client, calling it and reading `lastError` gives `Analysis` |
| Analyzer.UnconfiguredAnalysis | src/ai/analyzer.py:26-40 | without a full configuration the fixed analysis is returned: the heuristic driver, intensity 6, the two fixed thoughts, the fixed reframe, the two fixed actions, no error |
| Analyzer.ConfiguredAnalysis | src/ai/analyzer.py:42-48 | with one, the first request asks for a JSON object at temperature 0.2, and the summary carries the client's recorded error |

## Left out

- Network I/O is a parameter `net` from request to outcome. Its outcomes are the ones `chat` catches: a completed reply, an `HTTPError` (its body read by `_read_http_error_body`, or `None`), a `URLError`, and a `KeyError` or `JSONDecodeError` from the success body.
- LlmClient.Respond: exceptions that escape `chat` have no outcome. Examples are a `TimeoutError` or `RemoteDisconnected` from `getresponse()`, a timeout inside `resp.read()`, and a `UnicodeDecodeError` from `.decode("utf-8")`. On these the source raises out of `chat`, and out of `analyze_chat`, whose call sits outside its `try`. The model answers every outcome it has, so it does not capture these raises.
- `LLM_TIMEOUT` and its `int()` in the constructor, which can raise, are not modelled. The other environment variables are constructor parameters.
- `_call_chat` can raise `IndexError` or `TypeError`. This happens on a success body whose `choices` list is empty or whose fields have the wrong types, and `chat` does not catch it. Only the caught `KeyError` and `JSONDecodeError` are modelled, as a malformed body. Reply content is assumed to be a string.
- Messages are pairs of role and content strings. Dicts missing either key, or holding other values, are not modelled.
- `json.loads`, `json.dumps` and `str()` of floats, lists and dicts are opaque functions, so exact JSON syntax is not modelled. A float is an exact rational, an infinity or NaN.
- The prompt texts `SYSTEM_ANALYZER` and `ANALYZER_SCHEMA_HINT` are parameters, because that module is not part of this model.
- Text.Lower: only ASCII letters are lower-cased. Every use in the core searches for keywords that have no cased letter at all (the Chinese ideographs), or whose letters are plain ASCII with no `i` or `k`. No non-ASCII character lowers to any of those characters, so the search result is the same.
- Text.ParseInt: only ASCII digits are accepted. Python's `int()` also reads other Unicode decimal digits. The model also has no limit on the number of digits: CPython 3.11 and later (and its security backports) raise `ValueError` for a decimal string of more than 4300 digits, so an `intensity_guess_0_10` string such as 5000 zeros followed by `7` falls back to 6 there (src/ai/analyzer.py:63-66) but reads as 7 in the model.
- AiAnxiety.ScoreDimension: `(total - n) / (4 * n) * 10` is computed on exact fractions, not in binary floating point. A tie needs `(total - n) / (4 * n)` to be an odd multiple of 1/20. The model does not prove that Python's float result rounds the same way at those points.
- `load_interventions` reads a file and parses JSON; both are left out. So are its `FileNotFoundError` and the behaviour on a library whose "interventions" value is not a list of objects. The model starts from the parsed library.
- The web front end and the rest of the repository are not part of this model.
