/** lib/claude-ai.ts: turning quiz answers into a prompt, and the
    recommendation call that falls back to a fixed list of five books
    whenever the model is not configured or its answer is unusable. */
module ClaudeAi {
  import opened Wrappers
  import opened Text
  import opened Db
  import opened Extract

  datatype Length = Short | Medium | Long

  datatype QuizPreferences = QuizPreferences(
    genres: seq<string>,
    moodHappySad: int,
    moodHopefulBleak: int,
    pacing: Pacing,
    length: Length,
    focus: int)

  datatype AIBookRecommendation = AIBookRecommendation(
    title: string,
    author: string,
    description: string,
    matchScore: int,
    matchExplanation: string,
    analytics: AIAnalytics)

  function PacingText(p: Pacing): string {
    match p
    case Slow => "slow"
    case Medium => "medium"
    case Fast => "fast"
  }

  function LengthText(l: Length): string {
    match l
    case Short => "short"
    case Medium => "medium"
    case Long => "long"
  }

  /** The adjective a mood slider contributes, if any: below 40 the low
      word, above 60 the high word, and nothing from 40 to 60 inclusive. */
  function SliderWord(value: int, low: string, high: string): (r: seq<string>)
  {
    if value < 40 then [low] else if value > 60 then [high] else []
  }

  /** The mood line: the happy/sad adjective, then the hopeful/bleak one,
      joined by " and ", or "balanced" when neither slider leans. */
  function MoodDescription(happySad: int, hopefulBleak: int): (r: string)
    ensures happySad < 40 && hopefulBleak < 40 ==> r == "melancholic and bleak"
    ensures happySad < 40 && 40 <= hopefulBleak <= 60 ==> r == "melancholic"
    ensures happySad < 40 && hopefulBleak > 60 ==> r == "melancholic and hopeful"
    ensures 40 <= happySad <= 60 && hopefulBleak < 40 ==> r == "bleak"
    ensures 40 <= happySad <= 60 && 40 <= hopefulBleak <= 60 ==> r == "balanced"
    ensures 40 <= happySad <= 60 && hopefulBleak > 60 ==> r == "hopeful"
    ensures happySad > 60 && hopefulBleak < 40 ==> r == "uplifting and bleak"
    ensures happySad > 60 && 40 <= hopefulBleak <= 60 ==> r == "uplifting"
    ensures happySad > 60 && hopefulBleak > 60 ==> r == "uplifting and hopeful"
  {
    var first := SliderWord(happySad, "melancholic", "uplifting");
    var second := SliderWord(hopefulBleak, "bleak", "hopeful");
    var parts := first + second;
    JoinSmall("melancholic", "bleak", " and ");
    JoinSmall("melancholic", "hopeful", " and ");
    JoinSmall("uplifting", "bleak", " and ");
    JoinSmall("uplifting", "hopeful", " and ");
    assert first == [] ==> parts == second;
    assert second == [] ==> parts == first;
    if |parts| > 0 then Join(parts, " and ") else "balanced"
  }

  /** `getMoodDescription`: pushes at most one adjective per slider into a
      list, then joins it. */
  method GetMoodDescription(happySad: int, hopefulBleak: int) returns (r: string)
    ensures r == MoodDescription(happySad, hopefulBleak)
  {
    var moodParts: seq<string> := [];
    if happySad < 40 {
      moodParts := moodParts + ["melancholic"];
    } else if happySad > 60 {
      moodParts := moodParts + ["uplifting"];
    }
    if hopefulBleak < 40 {
      moodParts := moodParts + ["bleak"];
    } else if hopefulBleak > 60 {
      moodParts := moodParts + ["hopeful"];
    }
    r := if |moodParts| > 0 then Join(moodParts, " and ") else "balanced";
  }

  /** The focus slider binarised: strictly above 50 is plot-driven, so 50
      itself is character-driven. */
  function FocusDescription(focus: int): (r: string)
    ensures r == "plot-driven" <==> focus > 50
    ensures r == "character-driven" <==> focus <= 50
  {
    if focus > 50 then "plot-driven" else "character-driven"
  }

  const PromptHeader: string := "You are a book recommendation expert. User preferences:\n"

  const PromptFooter: string :=
    "\nReturn ONLY valid JSON array with 5 books. Do not include any other text:\n"
    + "[{\n"
    + "  \"title\": \"Book Title\",\n"
    + "  \"author\": \"Author Name\",\n"
    + "  \"description\": \"Two engaging sentences\",\n"
    + "  \"matchScore\": 92,\n"
    + "  \"matchExplanation\": \"Why this matches the preferences\",\n"
    + "  \"analytics\": {\n"
    + "    \"pageCount\": 310,\n"
    + "    \"pacing\": \"fast\",\n"
    + "    \"moods\": [\"dark\", \"tense\", \"mysterious\"],\n"
    + "    \"themes\": [\"family\", \"identity\"]\n"
    + "  }\n"
    + "}]"

  function GenresLine(p: QuizPreferences): string { "- Genres: " + Join(p.genres, ", ") + "\n" }
  function MoodLine(p: QuizPreferences): string { "- Mood: " + MoodDescription(p.moodHappySad, p.moodHopefulBleak) + "\n" }
  function PacingLine(p: QuizPreferences): string { "- Pacing: " + PacingText(p.pacing) + "\n" }
  function LengthLine(p: QuizPreferences): string { "- Length: " + LengthText(p.length) + "\n" }
  function FocusLine(p: QuizPreferences): string { "- Focus: " + FocusDescription(p.focus) + "\n" }

  /** `buildPrompt`: the fixed header, one line per preference (the genres
      joined by ", " in the order they were chosen), then the fixed
      instructions. */
  function BuildPrompt(p: QuizPreferences): (r: string)
    ensures StartsWith(r, PromptHeader)
    ensures Contains(r, GenresLine(p)) && Contains(r, MoodLine(p)) && Contains(r, PacingLine(p))
    ensures Contains(r, LengthLine(p)) && Contains(r, FocusLine(p))
  {
    var g, m, pa, l, f := GenresLine(p), MoodLine(p), PacingLine(p), LengthLine(p), FocusLine(p);
    PromptLayout(PromptHeader, g, m, pa, l, f, PromptFooter);
    PromptHeader + (g + (m + (pa + (l + (f + PromptFooter)))))
  }

  /** A header, five lines and a footer written one after the other: the
      text starts with the header and contains each line. */
  lemma PromptLayout(h: string, g: string, m: string, pa: string, l: string, f: string, foot: string)
    ensures var s := h + (g + (m + (pa + (l + (f + foot)))));
      StartsWith(s, h) && Contains(s, g) && Contains(s, m) && Contains(s, pa) && Contains(s, l) && Contains(s, f)
  {
    var fs := f + foot;
    var ls := l + fs;
    var ps := pa + ls;
    var ms := m + ps;
    var gs := g + ms;
    StartsWithHead(f, foot);
    StartsWithHead(l, fs);
    StartsWithHead(pa, ls);
    StartsWithHead(m, ps);
    StartsWithHead(g, ms);
    ContainsAfter(l, fs, f);
    ContainsAfter(pa, ls, f);
    ContainsAfter(pa, ls, l);
    ContainsAfter(m, ps, f);
    ContainsAfter(m, ps, l);
    ContainsAfter(m, ps, pa);
    ContainsAfter(g, ms, f);
    ContainsAfter(g, ms, l);
    ContainsAfter(g, ms, pa);
    ContainsAfter(g, ms, m);
    ContainsAfter(h, gs, f);
    ContainsAfter(h, gs, l);
    ContainsAfter(h, gs, pa);
    ContainsAfter(h, gs, m);
    ContainsAfter(h, gs, g);
    StartsWithHead(h, gs);
  }

  const MidnightLibraryBlurb: string :=
    "Between life and death, there is a library with infinite books and infinite lives. A thought-provoking journey through choices and possibilities."

  /** The first mock book: its explanation quotes the chosen genres and pacing. */
  function MidnightLibrary(p: QuizPreferences): AIBookRecommendation {
    AIBookRecommendation(
      "The Midnight Library", "Matt Haig", MidnightLibraryBlurb, 95,
      "Perfect match for your " + Join(p.genres, ", ") + " preferences with uplifting themes and " + PacingText(p.pacing) + " pacing.",
      AIAnalytics(304, Pacing.Medium, ["uplifting", "thought-provoking", "hopeful"], ["choices", "identity", "second chances"]))
  }

  const ProjectHailMary: AIBookRecommendation := AIBookRecommendation(
    "Project Hail Mary", "Andy Weir",
    "A lone astronaut must save the earth from disaster in this propulsive, cinematic science thriller. Fast-paced and deeply engaging.",
    88,
    "Matches your preference for plot-driven stories with thrilling pacing.",
    AIAnalytics(496, Fast, ["tense", "hopeful", "adventurous"], ["survival", "science", "humanity"]))

  const CeruleanSea: AIBookRecommendation := AIBookRecommendation(
    "The House in the Cerulean Sea", "TJ Klune",
    "A magical island, a dangerous task, a burning secret. A story about the profound experience of discovering an unlikely family.",
    92,
    "Character-driven with uplifting themes that match your mood preferences.",
    AIAnalytics(394, Pacing.Medium, ["uplifting", "lighthearted", "emotional"], ["family", "acceptance", "magic"]))

  const SilentPatient: AIBookRecommendation := AIBookRecommendation(
    "The Silent Patient", "Alex Michaelides",
    "A woman shoots her husband and then never speaks another word. A criminal psychotherapist becomes obsessed with uncovering her motive.",
    85,
    "Fast-paced psychological thriller with dark, mysterious elements.",
    AIAnalytics(325, Fast, ["suspenseful", "dark", "mysterious"], ["psychology", "secrets", "obsession"]))

  const CrawdadsSing: AIBookRecommendation := AIBookRecommendation(
    "Where the Crawdads Sing", "Delia Owens",
    "A coming-of-age story about a young girl who raises herself in the marshes of North Carolina while becoming a suspect in a murder investigation.",
    90,
    "Beautiful character study with mystery elements at your preferred pacing.",
    AIAnalytics(384, Pacing.Medium, ["emotional", "mysterious", "atmospheric"], ["nature", "isolation", "resilience"]))

  /** The five fixed books, in their fixed order, before rescoring. */
  function MockBooks(p: QuizPreferences): (r: seq<AIBookRecommendation>)
  {
    [MidnightLibrary(p), ProjectHailMary, CeruleanSea, SilentPatient, CrawdadsSing]
  }

  function Max(a: int, b: int): int { if a >= b then a else b }

  /** A random draw `Math.floor(Math.random() * 10)`. */
  predicate IsDraw(d: int) { 0 <= d <= 9 }

  /** One draw per mock book. */
  predicate Draws(draws: seq<int>) { |draws| == 5 && forall i :: 0 <= i < 5 ==> IsDraw(draws[i]) }

  /** Each book keeps every field but its score, which becomes
      `max(75, score - d)` for its draw `d` in [0, 9]: never below 75, at
      most 9 below the old score (or 75), and never above an old score of
      75 or more. */
  function Rescore(books: seq<AIBookRecommendation>, draws: seq<int>): (r: seq<AIBookRecommendation>)
    requires |books| == 5 && Draws(draws)
    ensures |r| == 5
    ensures forall i :: 0 <= i < 5 ==> r[i].(matchScore := 0) == books[i].(matchScore := 0)
    ensures forall i :: 0 <= i < 5 ==> r[i].matchScore == Max(75, books[i].matchScore - draws[i])
    ensures forall i :: 0 <= i < 5 ==> 75 <= r[i].matchScore
    ensures forall i :: 0 <= i < 5 ==> Max(75, books[i].matchScore - 9) <= r[i].matchScore
    ensures forall i :: 0 <= i < 5 && 75 <= books[i].matchScore ==> r[i].matchScore <= books[i].matchScore
  {
    var r := seq(5, i requires 0 <= i < 5 => books[i].(matchScore := Max(75, books[i].matchScore - draws[i])));
    assert forall i :: 0 <= i < 5 ==> IsDraw(draws[i]) && r[i].matchScore == Max(75, books[i].matchScore - draws[i]);
    r
  }

  /** Every mock book starts at a score of 75 or more. */
  lemma MockScoresAtLeast75(p: QuizPreferences)
    ensures forall i :: 0 <= i < 5 ==> 75 <= MockBooks(p)[i].matchScore
  {
    var books := MockBooks(p);
    assert books[0].matchScore == 95 && books[1].matchScore == 88 && books[2].matchScore == 92;
    assert books[3].matchScore == 85 && books[4].matchScore == 90;
  }

  /** `getMockRecommendations`: the five fixed books rescored, so each
      score never rises, drops by at most 9, and never falls below 75. */
  function MockRecommendations(p: QuizPreferences, draws: seq<int>): (r: seq<AIBookRecommendation>)
    requires Draws(draws)
    ensures |r| == 5
    ensures forall i :: 0 <= i < 5 ==> r[i].(matchScore := 0) == MockBooks(p)[i].(matchScore := 0)
    ensures forall i :: 0 <= i < 5 ==> r[i].matchScore == Max(75, MockBooks(p)[i].matchScore - draws[i])
    ensures forall i :: 0 <= i < 5 ==> 75 <= r[i].matchScore
    ensures forall i :: 0 <= i < 5 ==> Max(75, MockBooks(p)[i].matchScore - 9) <= r[i].matchScore
    ensures forall i :: 0 <= i < 5 ==> r[i].matchScore <= MockBooks(p)[i].matchScore
  {
    MockScoresAtLeast75(p);
    Rescore(MockBooks(p), draws)
  }

  /** The reply of the chat-completions request: a network failure, a
      non-ok status, or an ok reply whose `choices[0].message.content`
      may be missing. */
  datatype ChatReply = ChatNetworkError | ChatNotOk | ChatOk(content: Option<string>)

  /** The recommendations and the prompt sent, if a request was made. */
  datatype Recommendations = Recommendations(books: seq<AIBookRecommendation>, request: Option<string>)

  /** `getAIRecommendations`. `reply` is what the request would return
      and `parse` stands for `JSON.parse` (None when it throws). Without a
      key nothing is sent and the mock list is returned; with one, the
      prompt is sent and the parsed greedy `[`..`]` span of the answer is
      returned, and every failure on the way gives the mock list. */
  function GetAIRecommendations(p: QuizPreferences, apiKey: Option<string>, reply: ChatReply,
                                parse: string -> Option<seq<AIBookRecommendation>>, draws: seq<int>): (r: Recommendations)
    requires Draws(draws)
    ensures apiKey.None? || apiKey.value == "" ==> r == Recommendations(MockRecommendations(p, draws), None)
    ensures apiKey.Some? && apiKey.value != "" ==> r.request == Some(BuildPrompt(p))
    ensures r.books == MockRecommendations(p, draws) || exists span :: parse(span) == Some(r.books)
    ensures apiKey.Some? && apiKey.value != "" && reply.ChatOk? && reply.content.Some?
      && GreedySpan(reply.content.value, '[', ']').Some?
      && parse(GreedySpan(reply.content.value, '[', ']').value).Some?
      ==> r.books == parse(GreedySpan(reply.content.value, '[', ']').value).value
    ensures apiKey.Some? && apiKey.value != "" && !(reply.ChatOk? && reply.content.Some?) ==> r.books == MockRecommendations(p, draws)
    ensures apiKey.Some? && apiKey.value != "" && reply.ChatOk? && reply.content.Some?
      && GreedySpan(reply.content.value, '[', ']').None?
      ==> r.books == MockRecommendations(p, draws)
    ensures apiKey.Some? && apiKey.value != "" && reply.ChatOk? && reply.content.Some?
      && GreedySpan(reply.content.value, '[', ']').Some?
      && parse(GreedySpan(reply.content.value, '[', ']').value).None?
      ==> r.books == MockRecommendations(p, draws)
  {
    var mock := MockRecommendations(p, draws);
    if apiKey.None? || apiKey.value == "" then Recommendations(mock, None)
    else
      var sent := Some(BuildPrompt(p));
      match reply
      case ChatOk(Some(content)) =>
        (match GreedySpan(content, '[', ']')
         case Some(span) =>
           (match parse(span)
            case Some(books) => Recommendations(books, sent)
            case None => Recommendations(mock, sent))
         case None => Recommendations(mock, sent))
      case _ => Recommendations(mock, sent)
  }

  /** Without a key the answer does not depend on the reply: no request is made. */
  lemma NoKeyNoRequest(p: QuizPreferences, reply1: ChatReply, reply2: ChatReply,
                       parse: string -> Option<seq<AIBookRecommendation>>, draws: seq<int>)
    requires Draws(draws)
    ensures GetAIRecommendations(p, None, reply1, parse, draws) == GetAIRecommendations(p, None, reply2, parse, draws)
    ensures GetAIRecommendations(p, None, reply1, parse, draws).request.None?
  {
  }
}
