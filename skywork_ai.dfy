/** lib/skywork-ai.ts: the writing-tool assistants. A prompt is built
    from the author's fields (blank ones shown as placeholders), sent to
    the model, and the JSON in its answer is located by a greedy bracket
    span; an answer without one is wrapped in a fixed fallback. */
module SkyworkAi {
  import opened Wrappers
  import opened Text
  import opened Js
  import opened Extract

  datatype CharacterSuggestion = CharacterSuggestion(category: string, suggestions: seq<string>)
  datatype PlotSuggestion = PlotSuggestion(chapterNumber: int, title: string, description: string, keyEvents: seq<string>)
  datatype SettingSuggestion = SettingSuggestion(aspect: string, details: seq<string>)
  datatype PlotPlan = PlotPlan(chapters: seq<PlotSuggestion>, plotTwists: seq<string>, settings: seq<SettingSuggestion>)

  /** Why a suggestion call failed: no key, a failed request, or an answer
      whose located JSON does not parse. Each is thrown to the caller. */
  datatype AIError = KeyNotConfigured | RequestFailed | NotOk | ParseError

  /** The reply of the generateContent request; `text` is
      `candidates[0].content.parts[0].text`, missing when any step is. */
  datatype GeminiReply = GeminiNetworkError | GeminiNotOk | GeminiOk(text: Option<string>)

  /** `callAIAPI`: an empty key fails before any request is made; an ok
      reply gives its text, or "" when the text is missing or empty. */
  function CallAIAPI(apiKey: string, reply: GeminiReply): (r: Result<string, AIError>)
    ensures apiKey == "" ==> r == Failure(KeyNotConfigured)
    ensures apiKey != "" && reply.GeminiOk? ==> r == Success(StrOr(reply.text, ""))
    ensures apiKey != "" && reply.GeminiOk? && reply.text.None? ==> r == Success("")
    ensures apiKey != "" && !reply.GeminiOk? ==> r.Failure? && r.error != KeyNotConfigured
  {
    if apiKey == "" then Failure(KeyNotConfigured)
    else
      match reply
      case GeminiNetworkError => Failure(RequestFailed)
      case GeminiNotOk => Failure(NotOk)
      case GeminiOk(text) => Success(StrOr(text, ""))
  }

  /** Without a key the reply plays no part: nothing was sent. */
  lemma NoKeyNoRequest(reply1: GeminiReply, reply2: GeminiReply)
    ensures CallAIAPI("", reply1) == CallAIAPI("", reply2) == Failure(KeyNotConfigured)
  {
  }

  /** One `- Label: value` line of a prompt, the value defaulting when empty. */
  function Field(key: string, value: string, placeholder: string): string {
    "- " + key + ": " + (if value == "" then placeholder else value) + "\n"
  }

  const CharacterHeader: string :=
    "You are a creative writing assistant specializing in character development.\n\nGiven this character information:\n"

  const CharacterFooter: string :=
    "\nProvide 3-5 specific, actionable suggestions for developing this character further. Format your response as a JSON array with this structure:\n"
    + "[\n  {\n    \"category\": \"Personality Depth\",\n    \"suggestions\": [\"suggestion 1\", \"suggestion 2\"]\n  },\n"
    + "  {\n    \"category\": \"Conflict & Growth\",\n    \"suggestions\": [\"suggestion 1\", \"suggestion 2\"]\n  }\n]\n\n"
    + "Focus on: personality traits, internal conflicts, character arcs, relationship dynamics, and unique quirks."

  function CharacterFields(name: string, description: string, motivations: string, relationships: string, backstory: string): seq<string> {
    [ Field("Name", name, "Not specified"),
      Field("Description", description, "Not specified"),
      Field("Motivations", motivations, "Not specified"),
      Field("Relationships", relationships, "Not specified"),
      Field("Backstory", backstory, "Not specified") ]
  }

  /** The character prompt: a line for each field, an empty field shown as
      "Not specified". */
  function CharacterPrompt(name: string, description: string, motivations: string, relationships: string, backstory: string): (r: string)
    ensures Contains(r, "- Name: " + (if name == "" then "Not specified" else name) + "\n")
    ensures forall i :: 0 <= i < 5 ==> Contains(r, CharacterFields(name, description, motivations, relationships, backstory)[i])
  {
    var fields := CharacterFields(name, description, motivations, relationships, backstory);
    forall i | 0 <= i < 5 ensures Contains(CharacterHeader + (Concat(fields) + CharacterFooter), fields[i]) {
      ConcatContains(fields, i);
      ContainsBefore(Concat(fields), CharacterFooter, fields[i]);
      ContainsAfter(CharacterHeader, Concat(fields) + CharacterFooter, fields[i]);
    }
    assert "- " + "Name" + ": " == "- Name: ";
    CharacterHeader + (Concat(fields) + CharacterFooter)
  }

  const PlotHeader: string :=
    "You are a Plot Architect AI, specializing in story structure and narrative development.\n\nStory Details:\n"

  const PlotFooter: string :=
    "\nCreate a structured plot plan with:\n"
    + "1. Chapter ideas (3-5 chapters) with titles, descriptions, and key events\n"
    + "2. Plot twists (2-3 compelling twists)\n"
    + "3. Setting details (3-4 setting aspects to develop)\n\n"
    + "Format as JSON:\n{\n  \"chapters\": [\n    {\n      \"chapterNumber\": 1,\n      \"title\": \"Chapter Title\",\n"
    + "      \"description\": \"What happens in this chapter\",\n      \"keyEvents\": [\"event 1\", \"event 2\"]\n    }\n  ],\n"
    + "  \"plotTwists\": [\"twist 1\", \"twist 2\"],\n  \"settings\": [\n    {\n      \"aspect\": \"Visual Atmosphere\",\n"
    + "      \"details\": [\"detail 1\", \"detail 2\"]\n    }\n  ]\n}"

  function PlotFields(title: string, outline: string, mood: string, pacing: string, genre: string, setting: string): seq<string> {
    [ Field("Title", title, "Untitled"),
      Field("Outline", outline, "Not specified"),
      Field("Mood", mood, "Not specified"),
      Field("Pacing", pacing, "Not specified"),
      Field("Genre", genre, "Not specified"),
      Field("Setting", setting, "Not specified") ]
  }

  /** The plot prompt: a line for each field, an empty title shown as
      "Untitled" and any other empty field as "Not specified". */
  function PlotPrompt(title: string, outline: string, mood: string, pacing: string, genre: string, setting: string): (r: string)
    ensures Contains(r, "- Title: " + (if title == "" then "Untitled" else title) + "\n")
    ensures forall i :: 0 <= i < 6 ==> Contains(r, PlotFields(title, outline, mood, pacing, genre, setting)[i])
  {
    var fields := PlotFields(title, outline, mood, pacing, genre, setting);
    forall i | 0 <= i < 6 ensures Contains(PlotHeader + (Concat(fields) + PlotFooter), fields[i]) {
      ConcatContains(fields, i);
      ContainsBefore(Concat(fields), PlotFooter, fields[i]);
      ContainsAfter(PlotHeader, Concat(fields) + PlotFooter, fields[i]);
    }
    assert "- " + "Title" + ": " == "- Title: ";
    PlotHeader + (Concat(fields) + PlotFooter)
  }

  /** The answer turned into character suggestions: the parsed greedy
      `[`..`]` span when there is one, otherwise a single "General
      Development" entry holding the answer's first 200 characters. */
  function CharacterSuggestions(response: string, parse: string -> Option<seq<CharacterSuggestion>>): (r: Result<seq<CharacterSuggestion>, AIError>)
    ensures GreedySpan(response, '[', ']').None? ==>
      r.Success? && |r.value| == 1 && r.value[0].category == "General Development"
      && |r.value[0].suggestions| == 1 && StartsWith(response, r.value[0].suggestions[0])
      && |r.value[0].suggestions[0]| == if |response| < 200 then |response| else 200
    ensures GreedySpan(response, '[', ']').Some? ==>
      var parsed := parse(GreedySpan(response, '[', ']').value);
      (parsed.Some? ==> r == Success(parsed.value)) && (parsed.None? ==> r == Failure(ParseError))
  {
    match GreedySpan(response, '[', ']')
    case Some(span) =>
      (match parse(span)
       case Some(v) => Success(v)
       case None => Failure(ParseError))
    case None => Success([CharacterSuggestion("General Development", [Prefix(response, 200)])])
  }

  /** The answer turned into a plot plan: the parsed greedy `{`..`}` span
      when there is one, otherwise no chapters, no settings, and one plot
      twist holding the answer's first 150 characters. */
  function PlotSuggestions(response: string, parse: string -> Option<PlotPlan>): (r: Result<PlotPlan, AIError>)
    ensures GreedySpan(response, '{', '}').None? ==>
      r.Success? && r.value.chapters == [] && r.value.settings == []
      && |r.value.plotTwists| == 1 && StartsWith(response, r.value.plotTwists[0])
      && |r.value.plotTwists[0]| == if |response| < 150 then |response| else 150
    ensures GreedySpan(response, '{', '}').Some? ==>
      var parsed := parse(GreedySpan(response, '{', '}').value);
      (parsed.Some? ==> r == Success(parsed.value)) && (parsed.None? ==> r == Failure(ParseError))
  {
    match GreedySpan(response, '{', '}')
    case Some(span) =>
      (match parse(span)
       case Some(v) => Success(v)
       case None => Failure(ParseError))
    case None => Success(PlotPlan([], [Prefix(response, 150)], []))
  }

  /** `getCharacterDevelopmentSuggestions`: the character prompt is sent
      (`reply` is the service's answer to a prompt); a failed call is
      rethrown, otherwise the answer is turned into suggestions. */
  function GetCharacterDevelopmentSuggestions(
    name: string, description: string, motivations: string, relationships: string, backstory: string,
    apiKey: string, reply: string -> GeminiReply, parse: string -> Option<seq<CharacterSuggestion>>): (r: Result<seq<CharacterSuggestion>, AIError>)
    ensures apiKey == "" ==> r == Failure(KeyNotConfigured)
    ensures var answer := CallAIAPI(apiKey, reply(CharacterPrompt(name, description, motivations, relationships, backstory)));
      (answer.Failure? ==> r == Failure(answer.error))
      && (answer.Success? ==> r == CharacterSuggestions(answer.value, parse))
  {
    var prompt := CharacterPrompt(name, description, motivations, relationships, backstory);
    match CallAIAPI(apiKey, reply(prompt))
    case Failure(e) => Failure(e)
    case Success(text) => CharacterSuggestions(text, parse)
  }

  /** `getPlotArchitectSuggestions`: the plot prompt is sent; a failed call
      is rethrown, otherwise the answer is turned into a plot plan. */
  function GetPlotArchitectSuggestions(
    title: string, outline: string, mood: string, pacing: string, genre: string, setting: string,
    apiKey: string, reply: string -> GeminiReply, parse: string -> Option<PlotPlan>): (r: Result<PlotPlan, AIError>)
    ensures apiKey == "" ==> r == Failure(KeyNotConfigured)
    ensures var answer := CallAIAPI(apiKey, reply(PlotPrompt(title, outline, mood, pacing, genre, setting)));
      (answer.Failure? ==> r == Failure(answer.error))
      && (answer.Success? ==> r == PlotSuggestions(answer.value, parse))
  {
    var prompt := PlotPrompt(title, outline, mood, pacing, genre, setting);
    match CallAIAPI(apiKey, reply(prompt))
    case Failure(e) => Failure(e)
    case Success(text) => PlotSuggestions(text, parse)
  }
}
