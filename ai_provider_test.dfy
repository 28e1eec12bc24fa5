/** scripts/test-ai-providers.ts: checks each language-model provider
    with a fixed prompt, and names the first that answers with usable
    recommendations as the one the app will use.

    The services are replies passed in (the prompts are fixed, so each
    reply is a value); `JSON.parse` is an oracle that yields the parsed
    value or the message it throws. */
module ProviderCheck {
  import opened Wrappers
  import opened Text
  import opened Extract

  datatype Provider = GoogleAIStudio | OpenRouter
  datatype Status = Succeeded | Failed | NotConfigured

  /** A result line; `sample` is the start of an answer without JSON. The
      response time and the echoed first recommendation are not modelled. */
  datatype TestResult = TestResult(provider: Provider, status: Status, message: string, sample: Option<string>)

  /** What `JSON.parse` can yield here: an array (of some length) or any
      other value. */
  datatype Json = JsonArray(length: nat) | JsonOther

  /** `candidates[0].content.parts[0].text`, or the message of the error
      reading it throws. */
  datatype Content = Content(text: Result<string, string>)
  datatype Candidate = Candidate(content: Option<Content>)

  datatype GoogleReply = GoogleThrew(message: string) | GoogleNotOk(status: int, statusText: string) | GoogleOk(candidates: Option<seq<Candidate>>)

  /** `choices[0].message.content`, or the message of the error reading
      or matching it throws. */
  datatype OpenRouterReply = OpenRouterThrew(message: string) | OpenRouterNotOk(status: int, statusText: string) | OpenRouterOk(content: Result<string, string>)

  const GooglePlaceholder: string := "your_google_ai_studio_api_key_here"
  const NotConfiguredMessage: string := "API key not configured in .env file"
  const InvalidStructureMessage: string := "Invalid response structure from API"
  const NoJsonMessage: string := "No valid JSON found in response"
  const NoRecommendationsMessage: string := "No recommendations returned"

  /** The Google key counts only when present, non-empty and not the
      template's placeholder. */
  predicate GoogleConfigured(key: Option<string>) {
    key.Some? && key.value != "" && key.value != GooglePlaceholder
  }

  /** The OpenRouter key counts whenever present and non-empty. */
  predicate OpenRouterConfigured(key: Option<string>) {
    key.Some? && key.value != ""
  }

  function ApiErrorMessage(status: int, statusText: string): string {
    "API Error: " + IntToString(status) + " " + statusText
  }

  function SuccessMessage(count: string): string {
    "✅ Successfully generated " + count + " recommendations"
  }

  /** The content of a Google reply, when `candidates[0].content` exists. */
  function GoogleContent(candidates: Option<seq<Candidate>>): (r: Option<Content>)
    ensures r.Some? <==> candidates.Some? && |candidates.value| > 0 && candidates.value[0].content.Some?
    ensures r.Some? ==> r == candidates.value[0].content
  {
    if candidates.Some? && |candidates.value| > 0 then candidates.value[0].content else None
  }

  /** `testGoogleAIStudio`. */
  function TestGoogle(key: Option<string>, reply: GoogleReply, parse: string -> Result<Json, string>): (r: TestResult)
    ensures r.provider == GoogleAIStudio
    ensures r.status == NotConfigured <==> !GoogleConfigured(key)
    ensures !GoogleConfigured(key) ==> r.message == NotConfiguredMessage
    ensures GoogleConfigured(key) && reply.GoogleNotOk? ==> r.status == Failed && r.message == ApiErrorMessage(reply.status, reply.statusText)
    ensures GoogleConfigured(key) && reply.GoogleOk? && GoogleContent(reply.candidates).None? ==>
      r.status == Failed && r.message == InvalidStructureMessage
    ensures r.status == Succeeded <==>
      && GoogleConfigured(key) && reply.GoogleOk? && GoogleContent(reply.candidates).Some?
      && GoogleContent(reply.candidates).value.text.Success?
      && var text := GoogleContent(reply.candidates).value.text.value;
         ExtractJsonArray(text).Some? && parse(ExtractJsonArray(text).value).Success?
         && parse(ExtractJsonArray(text).value).value.JsonArray? && parse(ExtractJsonArray(text).value).value.length > 0
  {
    if !GoogleConfigured(key) then TestResult(GoogleAIStudio, NotConfigured, NotConfiguredMessage, None)
    else
      match reply
      case GoogleThrew(message) => TestResult(GoogleAIStudio, Failed, "Exception: " + message, None)
      case GoogleNotOk(status, statusText) => TestResult(GoogleAIStudio, Failed, ApiErrorMessage(status, statusText), None)
      case GoogleOk(candidates) =>
        match GoogleContent(candidates)
        case None => TestResult(GoogleAIStudio, Failed, InvalidStructureMessage, None)
        case Some(Content(Failure(message))) => TestResult(GoogleAIStudio, Failed, "Exception: " + message, None)
        case Some(Content(Success(text))) =>
          match ExtractJsonArray(text)
          case None => TestResult(GoogleAIStudio, Failed, NoJsonMessage, Some(Prefix(text, 200)))
          case Some(json) =>
            match parse(json)
            case Failure(message) => TestResult(GoogleAIStudio, Failed, "Exception: " + message, None)
            case Success(JsonArray(n)) =>
              if n == 0 then TestResult(GoogleAIStudio, Failed, NoRecommendationsMessage, None)
              else TestResult(GoogleAIStudio, Succeeded, SuccessMessage(IntToString(n)), None)
            case Success(JsonOther) => TestResult(GoogleAIStudio, Failed, NoRecommendationsMessage, None)
  }

  /** `testOpenRouter`: only the greedy bracket span is tried, and any
      value that parses counts as success, even an empty array. */
  function TestOpenRouter(key: Option<string>, reply: OpenRouterReply, parse: string -> Result<Json, string>): (r: TestResult)
    ensures r.provider == OpenRouter
    ensures r.status == NotConfigured <==> !OpenRouterConfigured(key)
    ensures !OpenRouterConfigured(key) ==> r.message == NotConfiguredMessage
    ensures OpenRouterConfigured(key) && reply.OpenRouterNotOk? ==> r.status == Failed && r.message == ApiErrorMessage(reply.status, reply.statusText)
    ensures r.status == Succeeded <==>
      && OpenRouterConfigured(key) && reply.OpenRouterOk? && reply.content.Success?
      && GreedySpan(reply.content.value, '[', ']').Some? && parse(GreedySpan(reply.content.value, '[', ']').value).Success?
  {
    if !OpenRouterConfigured(key) then TestResult(OpenRouter, NotConfigured, NotConfiguredMessage, None)
    else
      match reply
      case OpenRouterThrew(message) => TestResult(OpenRouter, Failed, "Exception: " + message, None)
      case OpenRouterNotOk(status, statusText) => TestResult(OpenRouter, Failed, ApiErrorMessage(status, statusText), None)
      case OpenRouterOk(Failure(message)) => TestResult(OpenRouter, Failed, "Exception: " + message, None)
      case OpenRouterOk(Success(content)) =>
        match GreedySpan(content, '[', ']')
        case None => TestResult(OpenRouter, Failed, NoJsonMessage, Some(Prefix(content, 200)))
        case Some(json) =>
          match parse(json)
          case Failure(message) => TestResult(OpenRouter, Failed, "Exception: " + message, None)
          case Success(JsonArray(n)) => TestResult(OpenRouter, Succeeded, SuccessMessage(IntToString(n)), None)
          case Success(JsonOther) => TestResult(OpenRouter, Succeeded, SuccessMessage("undefined"), None)
  }

  /** Without a configured key the reply plays no part: nothing is sent. */
  lemma UnconfiguredSendsNothing(googleKey: Option<string>, openRouterKey: Option<string>,
                                 g1: GoogleReply, g2: GoogleReply, o1: OpenRouterReply, o2: OpenRouterReply,
                                 parse: string -> Result<Json, string>)
    ensures !GoogleConfigured(googleKey) ==> TestGoogle(googleKey, g1, parse) == TestGoogle(googleKey, g2, parse)
    ensures !OpenRouterConfigured(openRouterKey) ==> TestOpenRouter(openRouterKey, o1, parse) == TestOpenRouter(openRouterKey, o2, parse)
  {
  }

  /** The two checks differ on an empty array: Google fails it, OpenRouter
      accepts it. */
  lemma EmptyArrayVerdicts(key: string, text: string, parse: string -> Result<Json, string>)
    requires key != "" && key != GooglePlaceholder
    requires FencedArray(text).None? && GreedySpan(text, '[', ']').Some?
    requires parse(GreedySpan(text, '[', ']').value) == Success(JsonArray(0))
    ensures TestGoogle(Some(key), GoogleOk(Some([Candidate(Some(Content(Success(text))))])), parse).status == Failed
    ensures TestOpenRouter(Some(key), OpenRouterOk(Success(text)), parse).status == Succeeded
  {
  }

  /** `results.find(r => r.status === 'success')`. */
  function FirstSuccess(results: seq<TestResult>): (r: Option<TestResult>)
    ensures r.None? <==> forall i :: 0 <= i < |results| ==> results[i].status != Succeeded
    ensures r.Some? ==> exists i :: FirstSucceededAt(results, i) && results[i] == r.value
  {
    if results == [] then None
    else if results[0].status == Succeeded then
      assert FirstSucceededAt(results, 0);
      Some(results[0])
    else
      var r := FirstSuccess(results[1..]);
      assert forall i :: 0 < i < |results| ==> results[i] == results[1..][i - 1];
      assert forall i :: FirstSucceededAt(results[1..], i) ==> FirstSucceededAt(results, i + 1);
      r
  }

  /** Result `i` succeeded and none before it did. */
  predicate FirstSucceededAt(results: seq<TestResult>, i: int) {
    0 <= i < |results| && results[i].status == Succeeded
    && forall j :: 0 <= j < i ==> results[j].status != Succeeded
  }

  /** `runTests`: both providers are checked, Google first; the provider
      the app will use is the first that succeeded, or none (the catalog
      fallback). */
  function PrimaryProvider(googleKey: Option<string>, openRouterKey: Option<string>,
                           googleReply: GoogleReply, openRouterReply: OpenRouterReply,
                           parse: string -> Result<Json, string>): Option<Provider>
  {
    var results := [TestGoogle(googleKey, googleReply, parse), TestOpenRouter(openRouterKey, openRouterReply, parse)];
    match FirstSuccess(results)
    case Some(r) => Some(r.provider)
    case None => None
  }

  /** Google is used whenever its check succeeds; OpenRouter only when
      Google's does not and its own does; otherwise neither. */
  lemma PrimaryIsFirstSuccess(googleKey: Option<string>, openRouterKey: Option<string>,
                              googleReply: GoogleReply, openRouterReply: OpenRouterReply,
                              parse: string -> Result<Json, string>)
    ensures var google := TestGoogle(googleKey, googleReply, parse);
      var openRouter := TestOpenRouter(openRouterKey, openRouterReply, parse);
      var primary := PrimaryProvider(googleKey, openRouterKey, googleReply, openRouterReply, parse);
      && (google.status == Succeeded ==> primary == Some(GoogleAIStudio))
      && (google.status != Succeeded && openRouter.status == Succeeded ==> primary == Some(OpenRouter))
      && (google.status != Succeeded && openRouter.status != Succeeded ==> primary == None)
  {
    var google := TestGoogle(googleKey, googleReply, parse);
    var openRouter := TestOpenRouter(openRouterKey, openRouterReply, parse);
    var results := [google, openRouter];
    assert results[1..] == [openRouter];
    if google.status != Succeeded && openRouter.status == Succeeded {
      assert FirstSuccess([openRouter]) == Some(openRouter);
      assert FirstSuccess(results) == Some(openRouter);
    }
  }

  /** The template's placeholder key never makes Google the provider. */
  lemma PlaceholderNeverPrimary(openRouterKey: Option<string>, googleReply: GoogleReply, openRouterReply: OpenRouterReply,
                                parse: string -> Result<Json, string>)
    ensures PrimaryProvider(Some(GooglePlaceholder), openRouterKey, googleReply, openRouterReply, parse) != Some(GoogleAIStudio)
  {
    PrimaryIsFirstSuccess(Some(GooglePlaceholder), openRouterKey, googleReply, openRouterReply, parse);
  }
}
