# VibeReader in Dafny

VibeReader is a reading app. A reader takes a five-question mood quiz, and an AI
service (or a built-in mock list) turns the answers into five book recommendations.
The reader can add a recommendation, or any Google Books search hit, to a personal
library. The library has three shelves: want to read, currently reading and
finished. Book metadata comes from Google Books and Open Library. A Supabase edge
function serves ISBN and title/author lookups through a 15-minute cache. Two
scripts seed the database and check which AI provider is reachable.

This project models that core:
- The library logic and the database rows it reads and writes.
- The recommendation pipeline: the prompt, the mock fallback and the JSON
  extraction from free-form AI replies.
- The two book-metadata clients and the merge that combines them.
- The edge function's routing and cache.
- The `.env` loaders, the seeding script and the provider checker.

How the model is built:
- Supabase tables are sequences of rows held by a `Db.Database` object. Queries are
  filters over those rows, and inserts append a row with the next id.
- Remote services are parameters: reply datatypes or functions from request to
  reply. So are the clock, the random draws and `JSON.parse`. Each fetch is thus
  one fixed, stated outcome, and every branch of the original's error handling
  is reachable.
- Components whose React state changes step by step are classes with `modifies`
  clauses:
  - `QuizFlow.Quiz`
  - `LibraryPage.Library`
  - `RecommendationCard.Card`
  - `AddBookModal.Modal`
  - `EnvFile.ProcessEnv`
  - `GoogleBooksFunction.BookCache`
- Pure helpers are functions, and lemmas relate them.

Modules:
- `Wrappers`, `Text`, `Seqs` and `Js`: shared vocabulary. This covers JavaScript's
  `||` defaults, `trim`, `split`, `join`, `indexOf` and `toLowerCase` on ASCII
  letters, and filtering with subsequence facts.
- `Db`: the row types from `lib/db.ts` and the query semantics the app relies on:
  - `eq` filters;
  - `maybeSingle` (0 rows, 1 row or an error);
  - update and delete by id.
- `Extract`: the two regular expressions used to pull a JSON array out of AI text:
  - the greedy span from the first `[` to the last `]`;
  - the leftmost fenced `` ```json `` block.
- One module per core source file:
  - `ClaudeAi`, `SkyworkAi`, `GoogleBooks`, `OpenLibrary` and `BookSearch`;
  - `GoogleBooksFunction`;
  - `QuizFlow`, `BookCard`, `LibraryPage`, `RecommendationCard` and `AddBookModal`;
  - `EnvFile` (both scripts' `.env` loaders), `ProviderCheck` and `SeedData`.

## Model

| member | source | states |
|---|---|---|
| `Db.MaybeSingle` | components/AddBookModal.tsx:71-80 | no rows gives no row, exactly one row gives that row, and more than one gives the error result |
| `Db.UpdateWhere` | app/library/page.tsx:79-93 | an update by id patches exactly the rows with that id, keeps every other row and keeps the row count |
| `Db.DeleteWhere` | app/library/page.tsx:105-108 | a delete by id removes every row with that id and keeps all other rows in order |
| `Db.Tables.AddBook` | components/AddBookModal.tsx:82-99 | an insert appends one book row with the next id and keeps the table invariant |
| `Db.Tables.AddUserBook` | components/AddBookModal.tsx:114-133 | an insert appends one user-book row with progress 0 and the next id, and keeps the invariant |
| `Db.Database.InsertBook` | components/AddBookModal.tsx:82-99 | the stored tables become the old tables with the book appended, and the returned id is the new row's id |
| `Db.Database.InsertUserBook` | components/RecommendationCard.tsx:99-106 | the stored tables become the old tables with the user-book row appended |
| `Db.Database.UpdateUserBook` | app/library/page.tsx:79-93 | only the user-book rows with the given id change, by the patch |
| `Db.Database.DeleteUserBook` | app/library/page.tsx:105-108 | only the user-book rows with the given id are removed |
| `Db.BooksByTitleAuthor` | components/RecommendationCard.tsx:55-63 | the title/author query returns exactly the book rows with that title and author |
| `Db.BooksByGoogleId` | components/AddBookModal.tsx:71-80 | the Google id query returns exactly the book rows with that Google Books id |
| `Db.Links` | components/AddBookModal.tsx:102-112 | the link query returns exactly the user-book rows joining that user and that book |
| `Db.BooksByTitleAuthorSnoc` | components/RecommendationCard.tsx:55-86 | after one insert, the title/author query gains the new row exactly when it matches |
| `Db.BooksByGoogleIdSnoc` | components/AddBookModal.tsx:71-99 | after one insert, the Google id query gains the new row exactly when it matches |
| `Db.LinksSnoc` | components/AddBookModal.tsx:102-133 | after one insert, the link query gains the new row exactly when it links that user and that book |
| `Extract.GreedySpan` | lib/claude-ai.ts:63-68 | a span exists iff some `[` precedes some `]`; it runs from the first opener to the last closer |
| `Extract.GreedySpanDelimited` | lib/skywork-ai.ts:97-100 | an extracted span starts with the opener and ends with the closer |
| `Extract.FencedArray` | scripts/test-ai-providers.ts:118-132 | finds no block iff no position matches the fenced pattern; otherwise returns the array at the leftmost match |
| `Extract.ExtractJsonArray` | scripts/test-ai-providers.ts:118-132 | the fenced block wins when present; otherwise the greedy bracket span is used |
| `Extract.FencedRoundTrip` | scripts/test-ai-providers.ts:118-132 | an array wrapped in a json fence, with any fence-free text around it, is extracted unchanged, and so is a bare array |
| `Extract.FencedLayoutExtract` | scripts/test-ai-providers.ts:118-126 | a well-formed fenced layout at position p yields the bracketed text inside it |
| `Extract.NoFence` | scripts/test-ai-providers.ts:118-126 | text without a backtick never matches the fenced pattern |
| `ClaudeAi.MoodDescription` | lib/claude-ai.ts:105-115 | the mood phrase for each of the nine slider regions split at 40 and 60 |
| `ClaudeAi.GetMoodDescription` | lib/claude-ai.ts:105-115 | the list-building procedure computes the same phrase as `MoodDescription` |
| `ClaudeAi.FocusDescription` | lib/claude-ai.ts:80 | plot-driven iff focus exceeds 50, otherwise character-driven |
| `ClaudeAi.BuildPrompt` | lib/claude-ai.ts:75-103 | the prompt starts with the expert header and contains the genres, mood, pacing, length and focus lines |
| `ClaudeAi.MockRecommendations` | lib/claude-ai.ts:117-195 | five books equal to the mock list except for the score; each score is at least 75 and at most its base score, and at least the base minus 9 |
| `ClaudeAi.MockBooks` | lib/claude-ai.ts:118-189 | the five fixed books of the fallback list, in order, with their base scores 95, 88, 92, 85 and 90 (proved in `MockScoresAtLeast75` to be at least 75) |
| `ClaudeAi.Rescore` | lib/claude-ai.ts:191-194 | each book keeps every field but its score; the new score is never below 75, never below the old score minus 9, and never above an old score of 75 or more |
| `ClaudeAi.GetAIRecommendations` | lib/claude-ai.ts:26-73 | no key gives the mock list without a request; with a key the request is the built prompt; a failed call or a missing array gives the mock list; otherwise the result is the parse of the greedy span |
| `ClaudeAi.NoKeyNoRequest` | lib/claude-ai.ts:29-31 | without a key the result does not depend on the service reply and sends nothing |
| `SkyworkAi.CallAIAPI` | lib/skywork-ai.ts:21-62 | an empty key fails with the configuration error; an ok reply gives its text or ""; a failed reply gives a different error |
| `SkyworkAi.NoKeyNoRequest` | lib/skywork-ai.ts:22-24 | without a key every reply gives the same configuration error |
| `SkyworkAi.CharacterPrompt` | lib/skywork-ai.ts:71-92 | the prompt contains each of the five character fields, with "Not specified" for an empty field |
| `SkyworkAi.PlotPrompt` | lib/skywork-ai.ts:126-158 | the prompt contains each of the six story fields, with "Untitled" for an empty title |
| `SkyworkAi.CharacterSuggestions` | lib/skywork-ai.ts:97-107 | an array span is parsed; without one, the single fallback suggestion holds the first 200 characters |
| `SkyworkAi.PlotSuggestions` | lib/skywork-ai.ts:163-172 | an object span is parsed; without one, the fallback plan has one twist holding the first 150 characters |
| `SkyworkAi.GetCharacterDevelopmentSuggestions` | lib/skywork-ai.ts:64-112 | no key gives the configuration error; otherwise the call's error propagates or its text is turned into suggestions |
| `SkyworkAi.GetPlotArchitectSuggestions` | lib/skywork-ai.ts:114-177 | no key gives the configuration error; otherwise the call's error propagates or its text is turned into a plot plan |
| `GoogleBooks.KeyParam` | lib/google-books.ts:20-25 | the key is sent iff it is set, non-empty and not the placeholder |
| `GoogleBooks.SearchBooks` | lib/google-books.ts:6-68 | a blank query sends no request and gives no books; otherwise it sends the query with the result limit and key, and returns the items on success or no books on failure |
| `GoogleBooks.BlankQueryNoRequest` | lib/google-books.ts:7-10 | for a blank query the result does not depend on the service |
| `GoogleBooks.GetBookDetails` | lib/google-books.ts:70-100 | the volume on success, no book on any failure |
| `GoogleBooks.SecureThumbnail` | lib/google-books.ts:109 | the cover link with its first `http:` made `https:`, or "" without a thumbnail; its properties are proved in `SecureThumbnailRewrites` |
| `GoogleBooks.SecureThumbnailRewrites` | lib/google-books.ts:109 | the first `http:` of the thumbnail becomes `https:`; no thumbnail gives "" |
| `GoogleBooks.FormatGoogleBook` | lib/google-books.ts:102-113 | the database fields come from the volume, with the documented defaults |
| `GoogleBooks.FormatGoogleBookDefaults` | lib/google-books.ts:107-108 | the title and author are never empty; the title is "Unknown Title" exactly when it is missing, empty or already that text |
| `OpenLibrary.CoverUrl` | lib/open-library.ts:93-96 | the URL is empty iff there is no cover id or it is 0 |
| `OpenLibrary.CoverUrlRoundTrip` | lib/open-library.ts:94-96 | a positive cover id can be read back from its URL |
| `OpenLibrary.Categories` | lib/open-library.ts:103 | the first three subjects (all of them when fewer), or ["General"] when the subject field is missing; an empty list stays empty |
| `OpenLibrary.ConvertToGoogleBookFormat` | lib/open-library.ts:91-113 | each Google-shaped field comes from the search document with its default, tagged with the Open Library source |
| `OpenLibrary.ConvertAll` | lib/open-library.ts:59 | one converted book per document, in order |
| `OpenLibrary.SearchOpenLibrary` | lib/open-library.ts:27-64 | a blank query sends no request; otherwise it sends the query with the limit and returns the converted documents or nothing on failure |
| `OpenLibrary.SearchResultsAreOpenLibrary` | lib/open-library.ts:111 | every search result carries the Open Library source tag |
| `OpenLibrary.GetOpenLibraryBookDetails` | lib/open-library.ts:66-89 | details iff the work request succeeds, and then exactly the returned details |
| `OpenLibrary.DescriptionOf` | lib/open-library.ts:119-124 | a string description as is, the value of an object description, and "" when there is none |
| `OpenLibrary.EnrichWithOpenLibraryDetails` | lib/open-library.ts:115-146 | no book iff no details; otherwise a book with the work id, the source tag and fields from the details |
| `OpenLibrary.EnrichedCover` | lib/open-library.ts:126-129 | the cover URL is built from the first cover id |
| `BookSearch.DedupKey` | lib/book-search.ts:20-22 | the merge key: lower-cased title, "-", lower-cased first author, a missing part counting as "" |
| `BookSearch.Dedup` | lib/book-search.ts:18-27 | the records the key map holds after the combined list is visited in order: a record is kept when no kept record has its key; proved equal to `FirstOccurrences` |
| `BookSearch.FirstOccurrences` | lib/book-search.ts:18-27 | the independent reference: the records that are the first of their key in the list, in list order |
| `BookSearch.DedupKeySet` | lib/book-search.ts:18-27 | deduplication keeps every title-author key |
| `BookSearch.DedupUnique` | lib/book-search.ts:18-27 | after deduplication no two books share a key |
| `BookSearch.DedupIsFirstOccurrences` | lib/book-search.ts:18-27 | deduplication keeps exactly the first book for each key, in order |
| `BookSearch.Slice` | lib/book-search.ts:29 | the result is the prefix of length min(end, n) for a non-negative end, and of length max(0, n + end) for a negative one |
| `BookSearch.DedupSize` | lib/book-search.ts:18-27 | the merge keeps one record per distinct key of the combined list |
| `BookSearch.MergeBounds` | lib/book-search.ts:16-29 | the merged results have exactly maxResults books when the two lists hold that many distinct keys (every key otherwise), all with distinct keys, all drawn from the two sources |
| `BookSearch.MergeUnique` | lib/book-search.ts:18-27 | the map-filling loop computes `Dedup` of the combined list |
| `BookSearch.SearchAllBooks` | lib/book-search.ts:5-33 | each source is asked for half the limit (rounded down); the result is the deduplicated merge cut to the limit |
| `BookSearch.GetBookDetailsFromAnySource` | lib/book-search.ts:35-44 | an Open Library source or a `/works/` id goes to Open Library, everything else to Google Books |
| `BookSearch.OpenLibraryRecordsRouteBack` | lib/book-search.ts:36 | a converted Open Library record is routed back to Open Library |
| `BookSearch.FormatBookForDatabase` | lib/book-search.ts:46-61 | the id goes to the Open Library column or the Google column by source, and every other field gets its default |
| `BookSearch.StoredIdRoutesBack` | lib/book-search.ts:46-52 | exactly one id column is set; with the record's source tag an Open Library id routes back to Open Library, and a Google id routes to Google exactly when it does not start with "/works/" |
| `GoogleBooksFunction.FindKind` | supabase/functions/google-books/index.ts:64-65 | the first identifier of the kind, or none iff there is none |
| `GoogleBooksFunction.Isbn` | supabase/functions/google-books/index.ts:61-67 | the ISBN-13 identifier, else the ISBN-10 one, else "", and "" without identifiers; its cases are proved in the three `Isbn*` lemmas |
| `GoogleBooksFunction.IsbnPrefersThirteen` | supabase/functions/google-books/index.ts:62-67 | a non-empty first ISBN-13 is chosen |
| `GoogleBooksFunction.IsbnFallsBackToTen` | supabase/functions/google-books/index.ts:62-67 | without an ISBN-13, the first ISBN-10 is chosen |
| `GoogleBooksFunction.IsbnNone` | supabase/functions/google-books/index.ts:62-67 | without either kind the ISBN is "" |
| `GoogleBooksFunction.Cover` | supabase/functions/google-books/index.ts:77 | the thumbnail, else the small thumbnail, else "" |
| `GoogleBooksFunction.ParseBookData` | supabase/functions/google-books/index.ts:58-80 | each result field comes from the volume with its default |
| `GoogleBooksFunction.CachedAt` | supabase/functions/google-books/index.ts:45-52 | a hit iff the key is present and younger than 15 minutes, and then exactly the stored data |
| `GoogleBooksFunction.Fetched` | supabase/functions/google-books/index.ts:181-226 | after a cache miss: a thrown fetch gives 500, a non-ok status is passed on, no items give 404, and only a found book is stored with the time it came in |
| `GoogleBooksFunction.Looked` | supabase/functions/google-books/index.ts:118-128 | a fresh cached book is answered as cached (the search route checks the cache the same way); otherwise the key is dropped and the service asked, as in `Fetched` |
| `GoogleBooksFunction.Handle` | supabase/functions/google-books/index.ts:82-228 | the whole handler: preflight, missing key, bad route, or the lookup; the cache lemmas `NonLookupKeepsCache`, `NotFoundIsNotCached` and `RepeatIsCached` are stated about it |
| `GoogleBooksFunction.AfterLookup` | supabase/functions/google-books/index.ts:45-52 | a miss deletes the key and keeps every other entry; a hit changes nothing |
| `GoogleBooksFunction.StoreThenLookup` | supabase/functions/google-books/index.ts:45-56 | a stored entry is found until it expires, and storing one key never changes the lookup of another |
| `GoogleBooksFunction.FreshEarlier` | supabase/functions/google-books/index.ts:47 | an entry fresh now was fresh at every earlier time |
| `GoogleBooksFunction.PathParts` | supabase/functions/google-books/index.ts:104 | the path segments are non-empty and contain no slash |
| `GoogleBooksFunction.IndexIn` | supabase/functions/google-books/index.ts:107 | the first index of the segment, or -1 iff it is absent |
| `GoogleBooksFunction.ActualPath` | supabase/functions/google-books/index.ts:107-108 | the segments after the first `google-books`, or all of them when it is absent |
| `GoogleBooksFunction.SearchQuery` | supabase/functions/google-books/index.ts:147-150 | the `intitle:` and `inauthor:` parts, present as given and joined by `+` |
| `GoogleBooksFunction.RouteOf` | supabase/functions/google-books/index.ts:113-179 | an `isbn` route with a value, else a `search` route (400 without title and author), else an invalid endpoint |
| `GoogleBooksFunction.PlanOf` | supabase/functions/google-books/index.ts:82-101 | OPTIONS is answered first, then a missing key gives the 500, then the route decides |
| `GoogleBooksFunction.NonLookupKeepsCache` | supabase/functions/google-books/index.ts:82-179 | requests that never reach the fetch leave the cache unchanged and answer 200, 400 or 500 |
| `GoogleBooksFunction.NotFoundIsNotCached` | supabase/functions/google-books/index.ts:182-204 | an answer without a book never adds a cache entry; no items gives the 404 |
| `GoogleBooksFunction.RepeatIsCached` | supabase/functions/google-books/index.ts:206-217 | a fetched book is served from the cache by a repeat request within 15 minutes |
| `GoogleBooksFunction.BookCache.GetCached` | supabase/functions/google-books/index.ts:45-52 | returns `CachedAt` and leaves the cache as `AfterLookup` |
| `GoogleBooksFunction.BookCache.SetCache` | supabase/functions/google-books/index.ts:54-56 | stores the entry with the current time |
| `GoogleBooksFunction.BookCache.ServeLookup` | supabase/functions/google-books/index.ts:119-217 | the response and new cache are those of the `Looked` specification |
| `GoogleBooksFunction.BookCache.Serve` | supabase/functions/google-books/index.ts:82-228 | the response and new cache are those of the `Handle` specification |
| `QuizFlow.Toggle` | components/QuizFlow.tsx:44-50 | an absent genre is appended; a present one is removed with every other genre kept in order |
| `QuizFlow.ToggleTwice` | components/QuizFlow.tsx:44-50 | toggling an absent genre twice gives the original list |
| `QuizFlow.Quiz.constructor` | components/QuizFlow.tsx:34-42 | step 1 with the default answers |
| `QuizFlow.Quiz.CanProceed` | components/QuizFlow.tsx:66-69 | proceeding is blocked only on step 1 with no genre chosen |
| `QuizFlow.Quiz.HandleGenreToggle` | components/QuizFlow.tsx:44-50 | only the genre list changes, by `Toggle` |
| `QuizFlow.Quiz.HandleNext` | components/QuizFlow.tsx:52-58 | before step 5 the step advances; on step 5 the answers are submitted |
| `QuizFlow.Quiz.HandleBack` | components/QuizFlow.tsx:60-64 | the step goes back by one, never below 1 |
| `QuizFlow.Quiz.SetAnswer` | components/QuizFlow.tsx:130-300 | the slider and choice answers are replaced and the genres kept |
| `QuizFlow.Quiz.ClickNext` | components/QuizFlow.tsx:316-320 | a disabled Next button (loading, or cannot proceed) does nothing; otherwise it acts as `HandleNext`; the step stays in 1..5 |
| `QuizFlow.Quiz.ClickBack` | components/QuizFlow.tsx:308-311 | a disabled Back button (step 1 or loading) does nothing; otherwise the step goes back by one |
| `QuizFlow.Quiz.ClickGenre` | components/QuizFlow.tsx:107-129 | genre buttons act only on step 1 |
| `QuizFlow.Quiz.ClickAnswer` | components/QuizFlow.tsx:130-300 | the five answers become the clicked values; the genres, the step and the submissions are kept, and the quiz stays valid |
| `BookCard.StatusLabel` | components/BookCard.tsx:43-47 | every status has a non-empty label |
| `BookCard.StatusLabelsDistinct` | components/BookCard.tsx:43-47 | different statuses have different labels |
| `BookCard.OtherStatuses` | components/BookCard.tsx:49-50 | every status except the current one, in shelf order |
| `BookCard.OtherStatusesTwo` | components/BookCard.tsx:49-50 | there are exactly two move targets |
| `BookCard.ClampProgress` | components/BookCard.tsx:184 | the entered progress is clamped into 0..100, and unparsable input gives 0 |
| `BookCard.MoveItems` | components/BookCard.tsx:82-87 | one move item per target, and nothing else |
| `BookCard.Menu` | components/BookCard.tsx:81-102 | move items for the other statuses; Update Progress iff currently reading with a handler; Remove last |
| `BookCard.ShowsProgressBar` | components/BookCard.tsx:111 | the progress bar shows exactly for a book being read with progress above 0 |
| `BookCard.ShownMoods` | components/BookCard.tsx:126-134 | the first two moods at most, and none without analytics |
| `LibraryPage.InsertNewest` | app/library/page.tsx:50-51 | inserting into a newest-first list keeps it newest-first and adds exactly that row |
| `LibraryPage.SortNewestFirst` | app/library/page.tsx:50-51 | the rows ordered by creation time, newest first, as a permutation |
| `LibraryPage.BookOf` | app/library/page.tsx:44-68 | the joined book row with that id, or none iff no row has it |
| `LibraryPage.Loaded` | app/library/page.tsx:39-75 | the user's rows, newest first, joined with their books; its properties are proved in `LoadedIsUsersRowsNewestFirst` |
| `LibraryPage.Join` | app/library/page.tsx:44-68 | each user-book row paired with its joined book |
| `LibraryPage.LoadedIsUsersRowsNewestFirst` | app/library/page.tsx:39-75 | the loaded list holds each of the user's rows as often as the table does and no other row, newest first, each paired with the `books` row it points at |
| `LibraryPage.MovePatch` | app/library/page.tsx:79-93 | the columns a move writes: the status, plus the finish time for finished |
| `LibraryPage.ProgressPatch` | app/library/page.tsx:122-142 | the columns a progress update writes: the progress, plus the finished status and time at 100 or more |
| `LibraryPage.MoveEffect` | app/library/page.tsx:79-93 | a move sets the status, keeps the progress, and stamps the finish time only when moving to finished |
| `LibraryPage.ProgressEffect` | app/library/page.tsx:122-142 | progress of 100 or more also marks the book finished with the finish time |
| `LibraryPage.Shelf` | app/library/page.tsx:151-157 | exactly the books with that status |
| `LibraryPage.ShelvesPartition` | app/library/page.tsx:151-157 | the three shelves together hold every book exactly once |
| `LibraryPage.Library.LoadBooks` | app/library/page.tsx:39-75 | a signed-in user's list becomes the loaded rows; with no user nothing changes |
| `LibraryPage.Library.MoveBook` | app/library/page.tsx:77-101 | the row is patched by the move and the list reloaded |
| `LibraryPage.Library.DeleteBook` | app/library/page.tsx:103-118 | the row is deleted and the list reloaded |
| `LibraryPage.Library.UpdateProgress` | app/library/page.tsx:120-149 | the row is patched by the progress update and the list reloaded |
| `LibraryPage.Library.GetBooksByStatus` | app/library/page.tsx:151-157 | the shelf of that status |
| `RecommendationCard.NewBookFields` | components/RecommendationCard.tsx:65-86 | the recommendation's own fields, plus the first search hit's Google id and secure cover when there is one |
| `RecommendationCard.FindOrInsertBook` | components/RecommendationCard.tsx:55-86 | exactly one title/author match is reused; otherwise a new book is inserted; either way the result names a book with that title and author |
| `RecommendationCard.LinkBook` | components/RecommendationCard.tsx:88-116 | an existing single link changes nothing; otherwise a want-to-read link with the analytics is added; afterwards exactly one link exists |
| `RecommendationCard.AddToLibraryEffect` | components/RecommendationCard.tsx:41-116 | adding resolves the book, then links it |
| `RecommendationCard.AddToLibrary` | components/RecommendationCard.tsx:41-116 | a signed-in add: find or insert the book, then link it; its effect is proved in `AddToLibraryEffect` |
| `RecommendationCard.AddTwiceIsAddOnce` | components/RecommendationCard.tsx:55-116 | adding the same recommendation twice leaves the tables as one add does |
| `RecommendationCard.DuplicateTitlesInsertAgain` | components/RecommendationCard.tsx:55-63 | with two or more title/author matches the check errors, and one more copy of the book is inserted |
| `RecommendationCard.MatchColor` | components/RecommendationCard.tsx:126-131 | one of the four bands, chosen by the thresholds 90, 80 and 70 |
| `RecommendationCard.MatchColorMonotone` | components/RecommendationCard.tsx:126-131 | a higher score never gets a lower band |
| `RecommendationCard.RoundTwentieths` | components/RecommendationCard.tsx:165 | rounding score/20 half up, as an interval |
| `RecommendationCard.FilledStars` | components/RecommendationCard.tsx:161-170 | star i is filled iff i is below the rounded score, and at most five are filled |
| `RecommendationCard.StarsAtTheEnds` | components/RecommendationCard.tsx:161-170 | scores from 90 fill all five stars; scores below 10 fill none |
| `RecommendationCard.Card.constructor` | components/RecommendationCard.tsx:18-20 | not adding, not added, nothing pending |
| `RecommendationCard.Card.HandleAddToLibrary` | components/RecommendationCard.tsx:22-124 | without a user the recommendation is stashed and the tables are untouched; otherwise the tables become `AddToLibrary`, the card shows added and stops adding |
| `AddBookModal.FormattedFields` | components/AddBookModal.tsx:67-99 | the formatted Google book's fields, with the Google id and no Open Library id |
| `AddBookModal.AddToShelf` | components/AddBookModal.tsx:49-150 | an auth error or no user changes nothing and reports it; several Google id matches abort; a single match is reused and no match inserts the formatted book, and then `LinkStep` links it with the chosen status |
| `AddBookModal.LinkStep` | components/AddBookModal.tsx:102-133 | several links abort, one link changes nothing, and no link adds one with the chosen status |
| `AddBookModal.AddSucceeds` | components/AddBookModal.tsx:49-138 | after a successful add, exactly one book has that Google id and exactly one link joins it to the user, carrying the chosen status when it is new |
| `AddBookModal.AddTwiceIsAddOnce` | components/AddBookModal.tsx:49-138 | adding the same book again succeeds and changes nothing |
| `AddBookModal.Modal.constructor` | components/AddBookModal.tsx:20-24 | empty query and results, not adding |
| `AddBookModal.Modal.SetQuery` | components/AddBookModal.tsx:163 | only the query changes |
| `AddBookModal.Modal.HandleSearch` | components/AddBookModal.tsx:26-47 | a blank query changes nothing; otherwise the results are the Google search for it |
| `AddBookModal.Modal.HandleAddBook` | components/AddBookModal.tsx:49-150 | the tables and error are `AddToShelf`'s; success clears the query and results and closes; adding always ends |
| `EnvFile.KeyEnd` | scripts/test-ai-providers.ts:9 | the first character that cannot be part of a key, or -1 |
| `EnvFile.MatchEnvLine` | scripts/test-ai-providers.ts:9-12 | a match implies the line has the key/value shape at the key end |
| `EnvFile.MatchAt` | scripts/test-ai-providers.ts:9-12 | an entry exactly when the key part is non-empty, ends at an "=" and nothing after it ends the line |
| `EnvFile.MatchAtKeyEnd` | scripts/test-ai-providers.ts:9-12 | where the expression matches, its "=" is the end of the key part and the entry is the trimmed groups around it |
| `EnvFile.MatchEnvLineIsRegex` | scripts/test-ai-providers.ts:9-12 | the line matches iff the regular expression does, and the entry is the trimmed key and value groups |
| `EnvFile.EnvLineRoundTrip` | scripts/test-ai-providers.ts:9-12 | a written `KEY=value` line reads back as that key and value |
| `EnvFile.CarriageReturnLineIgnored` | scripts/test-ai-providers.ts:8-9 | a line that still ends in a carriage return never matches |
| `EnvFile.CommentIgnored` | scripts/test-ai-providers.ts:9 | lines starting with `#` or `=` are skipped |
| `EnvFile.Overwritten` | scripts/test-ai-providers.ts:8-14 | the variables after each matched line, in order, sets its key |
| `EnvFile.Kept` | scripts/seed-data.ts:9-18 | the variables after each matched line, in order, sets its key only when it is unset or empty |
| `EnvFile.Parsed` | scripts/test-ai-providers.ts:8-9 | one parse result per line |
| `EnvFile.LastValue` | scripts/test-ai-providers.ts:8-15 | none iff no line sets the key; otherwise the value of the last line that does |
| `EnvFile.LastLineWins` | scripts/test-ai-providers.ts:13 | the overwriting loader ends with the last value set in the file, or the earlier value when no line sets it |
| `EnvFile.SetVariablesKept` | scripts/seed-data.ts:15-17 | the keeping loader never drops a variable and never changes a non-empty one |
| `EnvFile.FirstLineWins` | scripts/seed-data.ts:15-17 | for a variable unset or empty before loading, the first non-empty value in the file wins, whatever empty values lines before it gave |
| `EnvFile.NotSetBefore` | scripts/seed-data.ts:15-17 | a variable neither set nor in the file stays unset |
| `EnvFile.ProcessEnv.constructor` | scripts/test-ai-providers.ts:4 | the environment starts as given |
| `EnvFile.ProcessEnv.LoadOverwriting` | scripts/test-ai-providers.ts:4-17 | no file changes nothing; otherwise the environment is the overwriting fold of the parsed lines |
| `EnvFile.ProcessEnv.LoadKeepingExisting` | scripts/seed-data.ts:5-21 | no file changes nothing; otherwise the environment is the keeping fold of the parsed lines |
| `ProviderCheck.GoogleContent` | scripts/test-ai-providers.ts:106-115 | the first candidate's content, or none iff there is no such content |
| `ProviderCheck.TestGoogle` | scripts/test-ai-providers.ts:33-161 | not configured iff the key is missing or the placeholder; an error status fails with its message; success iff the extracted text parses to a non-empty array |
| `ProviderCheck.TestOpenRouter` | scripts/test-ai-providers.ts:164-260 | not configured iff the key is missing; an error status fails with its message; success iff the greedy span parses at all |
| `ProviderCheck.UnconfiguredSendsNothing` | scripts/test-ai-providers.ts:33-39 | an unconfigured provider's verdict does not depend on any reply |
| `ProviderCheck.EmptyArrayVerdicts` | scripts/test-ai-providers.ts:134-143 | an empty array fails the Google check but passes the OpenRouter check |
| `ProviderCheck.PrimaryProvider` | scripts/test-ai-providers.ts:301-307 | the provider of the first successful test, Google's checked first, or none |
| `ProviderCheck.FirstSuccess` | scripts/test-ai-providers.ts:301-307 | none iff no test succeeded; otherwise the first success |
| `ProviderCheck.PrimaryIsFirstSuccess` | scripts/test-ai-providers.ts:262-307 | the primary provider is Google when its test succeeds, else OpenRouter when its test succeeds, else none |
| `ProviderCheck.PlaceholderNeverPrimary` | scripts/test-ai-providers.ts:33-39 | a placeholder Google key never makes Google the primary provider |
| `SeedData.BooksToInsert` | scripts/seed-data.ts:122-130 | exactly the samples whose titles are not yet stored, in sample order |
| `SeedData.InsertAll` | scripts/seed-data.ts:133-141 | the books are appended in order with their sample fields, and the table invariant is kept |
| `SeedData.SeedDatabase` | scripts/seed-data.ts:25-150 | missing configuration changes nothing; otherwise the new samples are inserted, reporting nothing new or the inserted count |
| `SeedData.SeedCoversSamples` | scripts/seed-data.ts:122-141 | after seeding, every sample title is stored |
| `SeedData.SeedTwiceIsSeedOnce` | scripts/seed-data.ts:122-141 | a second seeding inserts nothing |
| `SeedData.SampleTitlesDistinct` | scripts/seed-data.ts:35-116 | the ten samples have distinct titles |

## Left out

- Network transport, HTTP headers, CORS headers and request timing. Each remote call is one stated reply.
- Supabase insert, update and delete errors. The in-memory tables never fail a write, so the error toasts after a write are not modelled. Query errors from `maybeSingle` are modelled.
- `JSON.parse`, `response.json()` and `JSON.stringify`. They are oracle parameters; response bodies are datatypes, not JSON text.
- Strings are sequences of Unicode scalar values, not UTF-16 code units. `toLowerCase` folds ASCII letters only. `substring(0, n)` is a prefix of at most n characters.
- Postgres ordering among rows with equal `created_at` values. The model sorts stably on insertion order.
- `Promise.all` concurrency in `searchAllBooks`. Both searches are independent parameters.
- `Date.now`, `new Date().toISOString()`, `Math.random` and `parseInt` are parameters: a time value, random draws 0..9 and an optional integer.
- Search options `printType` and `langRestrict`, and the Open Library `fields` list. These affect only the remote reply.
- Slider ranges and step sizes in the quiz. The model accepts any integers.
- React rendering, image load errors, dialogs, toasts, navigation, `sessionStorage` redirects, `window.location.reload` and console logging.
- The `catch` around the search in `RecommendationCard.Card.HandleAddToLibrary`. It cannot be reached, because the Google Books client catches its own failures and returns no books.
- SeedData.SeedDatabase: a failed titles query makes the script treat every sample as new. The model has no failing read.
- ProviderCheck.TestGoogle: the response-time field and the raw sample text stored with each result are not modelled.
- scripts/check-gemini-models.ts and the `google-books-debug` edge function are not part of this model.
- Pages outside the library (home, recommendations, reading, writing tools) and the character and story planner components are not part of this model. They only call the modelled functions.
