/** components/RecommendationCard.tsx: one AI recommendation, with its
    match-score colour, its stars, and "Add to Library", which finds or
    inserts the book and then finds or inserts the reader's link to it. */
module RecommendationCard {
  import opened Wrappers
  import opened Js
  import opened Db
  import ClaudeAi
  import GoogleBooks

  /** The catalog search the card runs: title and author, the default
      page size of 20. */
  function Hits(rec: ClaudeAi.AIBookRecommendation, apiKey: Option<string>, reply: GoogleBooks.SearchRequest -> GoogleBooks.SearchReply): seq<GoogleBook> {
    GoogleBooks.SearchBooks(rec.title + " " + rec.author, 20, apiKey, reply).books
  }

  /** The `books` row inserted for a recommendation not yet in the table:
      Google id and secured cover from the first hit (none and "" without
      a hit), the first theme as genre ("General" without one), the page
      count as length. */
  function NewBookFields(rec: ClaudeAi.AIBookRecommendation, hits: seq<GoogleBook>): (f: BookFields)
    ensures f.title == rec.title && f.author == Some(rec.author)
    ensures hits == [] ==> f.googleBooksId.None? && f.coverUrl == Some("")
    ensures hits != [] ==>
      f.googleBooksId == Some(hits[0].id)
      && f.coverUrl == Some(GoogleBooks.SecureThumbnail(hits[0].volumeInfo.imageLinks))
    ensures |rec.analytics.themes| > 0 && rec.analytics.themes[0] != "" ==> f.genre == Some(rec.analytics.themes[0])
    ensures |rec.analytics.themes| == 0 || rec.analytics.themes[0] == "" ==> f.genre == Some("General")
    ensures f.length == Some(rec.analytics.pageCount) && f.moodTags == Some(rec.analytics.moods)
    ensures f.description == Some(rec.description)
  {
    var googleBooksId := if hits == [] then None else Some(hits[0].id);
    var coverUrl := if hits == [] then None else NonEmpty(Some(GoogleBooks.SecureThumbnail(hits[0].volumeInfo.imageLinks)));
    BookFields(
      googleBooksId, None, rec.title, Some(rec.author),
      Some(StrOr(FirstOf(Some(rec.analytics.themes)), "General")),
      Some(ListOr(Some(rec.analytics.moods), [])),
      Some(IntOr(Some(rec.analytics.pageCount), 0)),
      None,
      Some(StrOr(coverUrl, "")),
      Some(StrOr(Some(rec.description), "")))
  }

  /** Row `i` of `books` has this id, title and author. */
  predicate BookAt(books: seq<BookRow>, i: int, id: Id, title: string, author: string) {
    0 <= i < |books| && books[i].id == id && books[i].fields.title == title && books[i].fields.author == Some(author)
  }

  /** The book the recommendation resolves to: the single row with its
      title and author, or else (none, or several, whose lookup error the
      card ignores) a newly inserted row. */
  function FindOrInsertBook(t: Tables, rec: ClaudeAi.AIBookRecommendation, hits: seq<GoogleBook>): (r: (Tables, Id))
    ensures r.0.userBooks == t.userBooks
    ensures |BooksByTitleAuthor(t.books, rec.title, rec.author)| == 1 ==>
      r.0 == t && r.1 == BooksByTitleAuthor(t.books, rec.title, rec.author)[0].id
    ensures |BooksByTitleAuthor(t.books, rec.title, rec.author)| != 1 ==>
      r.0 == t.AddBook(NewBookFields(rec, hits)) && r.1 == t.nextId
    ensures exists i :: BookAt(r.0.books, i, r.1, rec.title, rec.author)
  {
    match MaybeSingle(BooksByTitleAuthor(t.books, rec.title, rec.author))
    case OneRow(row) =>
      var i :| 0 <= i < |t.books| && t.books[i] == row;
      assert BookAt(t.books, i, row.id, rec.title, rec.author);
      (t, row.id)
    case _ =>
      var t' := t.AddBook(NewBookFields(rec, hits));
      assert BookAt(t'.books, |t.books|, t.nextId, rec.title, rec.author);
      (t', t.nextId)
  }

  /** The reader's link to the book: kept when exactly one exists,
      otherwise (none, or several, whose lookup error is ignored) a
      want-to-read row carrying the analytics is inserted. */
  function LinkBook(t: Tables, userId: string, bookId: Id, analytics: AIAnalytics, now: Time): (r: Tables)
    ensures r.books == t.books
    ensures |Links(t.userBooks, userId, bookId)| == 1 ==> r == t
    ensures |Links(t.userBooks, userId, bookId)| != 1 ==>
      r == t.AddUserBook(userId, bookId, WantToRead, Some(analytics), now)
    ensures |Links(t.userBooks, userId, bookId)| <= 1 ==> |Links(r.userBooks, userId, bookId)| == 1
  {
    match MaybeSingle(Links(t.userBooks, userId, bookId))
    case OneRow(_) => t
    case _ =>
      var u := UserBookRow(t.nextId, userId, bookId, WantToRead, 0, Some(analytics), None, now);
      LinksSnoc(t.userBooks, u, userId, bookId);
      t.AddUserBook(userId, bookId, WantToRead, Some(analytics), now)
  }

  /** The tables after a signed-in reader's "Add to Library". */
  function AddToLibrary(t: Tables, rec: ClaudeAi.AIBookRecommendation, userId: string, hits: seq<GoogleBook>, now: Time): Tables {
    var (t1, bookId) := FindOrInsertBook(t, rec, hits);
    LinkBook(t1, userId, bookId, rec.analytics, now)
  }

  /** Adding keeps every row that was there, adds at most one book and one
      link, and leaves the reader linked to a book of that title and
      author; with at most one link before, there is exactly one after. */
  lemma AddToLibraryEffect(t: Tables, rec: ClaudeAi.AIBookRecommendation, userId: string, hits: seq<GoogleBook>, now: Time)
    ensures var r := AddToLibrary(t, rec, userId, hits, now);
      && r.books[..|t.books|] == t.books && |r.books| <= |t.books| + 1
      && r.userBooks[..|t.userBooks|] == t.userBooks && |r.userBooks| <= |t.userBooks| + 1
      && (t.Valid() ==> r.Valid())
    ensures var (t1, bookId) := FindOrInsertBook(t, rec, hits);
      |Links(t1.userBooks, userId, bookId)| <= 1 ==>
      |Links(AddToLibrary(t, rec, userId, hits, now).userBooks, userId, bookId)| == 1
  {
    var (t1, bookId) := FindOrInsertBook(t, rec, hits);
    var r := LinkBook(t1, userId, bookId, rec.analytics, now);
    assert r == AddToLibrary(t, rec, userId, hits, now);
    if |BooksByTitleAuthor(t.books, rec.title, rec.author)| == 1 {
      assert t1 == t;
    } else {
      assert t1.books == t.books + [BookRow(t.nextId, NewBookFields(rec, hits))];
      assert t1.books[..|t.books|] == t.books;
    }
    if |Links(t1.userBooks, userId, bookId)| == 1 {
      assert r == t1;
    } else {
      assert r.userBooks == t1.userBooks + [UserBookRow(t1.nextId, userId, bookId, WantToRead, 0, Some(rec.analytics), None, now)];
      assert r.userBooks[..|t1.userBooks|] == t1.userBooks;
    }
  }

  /** A second add of the same recommendation changes nothing, whatever the
      search returns then and whenever it happens, as long as the first
      left a single book of that title and author and a single link. */
  lemma {:induction false} AddTwiceIsAddOnce(t: Tables, rec: ClaudeAi.AIBookRecommendation, userId: string,
                                            hits1: seq<GoogleBook>, hits2: seq<GoogleBook>, now1: Time, now2: Time)
    requires |BooksByTitleAuthor(t.books, rec.title, rec.author)| <= 1
    requires |Links(t.userBooks, userId, FindOrInsertBook(t, rec, hits1).1)| <= 1
    ensures var once := AddToLibrary(t, rec, userId, hits1, now1);
      AddToLibrary(once, rec, userId, hits2, now2) == once
  {
    var (t1, bookId) := FindOrInsertBook(t, rec, hits1);
    var once := AddToLibrary(t, rec, userId, hits1, now1);
    if |BooksByTitleAuthor(t.books, rec.title, rec.author)| == 0 {
      var b := BookRow(t.nextId, NewBookFields(rec, hits1));
      BooksByTitleAuthorSnoc(t.books, b, rec.title, rec.author);
      assert BooksByTitleAuthor(t1.books, rec.title, rec.author) == [b];
    }
    assert once.books == t1.books;
    assert BooksByTitleAuthor(once.books, rec.title, rec.author) == BooksByTitleAuthor(t1.books, rec.title, rec.author);
    assert |BooksByTitleAuthor(t1.books, rec.title, rec.author)| == 1;
    assert BooksByTitleAuthor(t1.books, rec.title, rec.author)[0].id == bookId;
    assert FindOrInsertBook(once, rec, hits2) == (once, bookId);
  }

  /** With two rows of that title and author already present, every add
      inserts yet another copy: the lookup's error is not looked at. */
  lemma DuplicateTitlesInsertAgain(t: Tables, rec: ClaudeAi.AIBookRecommendation, userId: string, hits: seq<GoogleBook>, now: Time)
    requires |BooksByTitleAuthor(t.books, rec.title, rec.author)| >= 2
    ensures |AddToLibrary(t, rec, userId, hits, now).books| == |t.books| + 1
    ensures |BooksByTitleAuthor(AddToLibrary(t, rec, userId, hits, now).books, rec.title, rec.author)|
         == |BooksByTitleAuthor(t.books, rec.title, rec.author)| + 1
  {
    var b := BookRow(t.nextId, NewBookFields(rec, hits));
    BooksByTitleAuthorSnoc(t.books, b, rec.title, rec.author);
  }

  const GreenBand := "from-green-500 to-emerald-600"
  const BlueBand := "from-blue-500 to-cyan-600"
  const PurpleBand := "from-purple-500 to-pink-600"
  const OrangeBand := "from-orange-500 to-amber-600"

  /** The colour bands from lowest to highest score. */
  const Bands: seq<string> := [OrangeBand, PurpleBand, BlueBand, GreenBand]

  /** The band's place in `Bands`. */
  function BandRank(band: string): nat {
    if band == GreenBand then 3 else if band == BlueBand then 2 else if band == PurpleBand then 1 else 0
  }

  /** `getMatchColor`: 90 and up green, 80 blue, 70 purple, below orange. */
  function MatchColor(score: int): (r: string)
    ensures r in Bands
    ensures BandRank(r) == (if score >= 90 then 3 else if score >= 80 then 2 else if score >= 70 then 1 else 0)
  {
    if score >= 90 then GreenBand
    else if score >= 80 then BlueBand
    else if score >= 70 then PurpleBand
    else OrangeBand
  }

  /** A higher score never gets a lower band. */
  lemma MatchColorMonotone(a: int, b: int)
    requires a <= b
    ensures BandRank(MatchColor(a)) <= BandRank(MatchColor(b))
  {
  }

  /** `Math.round(score / 20)`: the nearest whole number, halves rounded up. */
  function RoundTwentieths(score: int): (r: int)
    ensures 20 * r - 10 <= score < 20 * r + 10
  {
    (score + 10) / 20
  }

  /** Star `i` is drawn filled: `i < Math.round(score / 20)`. */
  predicate StarFilled(i: int, score: int) {
    i < RoundTwentieths(score)
  }

  /** The stars drawn filled: star `i` of five is filled when `i` is below
      the rounded score. */
  function FilledStars(score: int): (r: nat)
    ensures r <= 5
    ensures forall i :: 0 <= i < 5 ==> (i < r <==> StarFilled(i, score))
  {
    var k := RoundTwentieths(score);
    if k < 0 then 0 else if k > 5 then 5 else k
  }

  /** A score of 90 or more fills all five stars; below 10 none. */
  lemma StarsAtTheEnds(score: int)
    ensures score >= 90 ==> FilledStars(score) == 5
    ensures score < 10 ==> FilledStars(score) == 0
  {
  }

  /** The card's state: the hosted tables, its two flags, and the
      recommendation stashed for after sign-in. */
  class Card {
    const recommendation: ClaudeAi.AIBookRecommendation
    const db: Database
    var adding: bool
    var added: bool
    var pending: Option<ClaudeAi.AIBookRecommendation>

    constructor (recommendation: ClaudeAi.AIBookRecommendation, db: Database)
      ensures this.recommendation == recommendation && this.db == db
      ensures !adding && !added && pending.None?
    {
      this.recommendation := recommendation;
      this.db := db;
      adding := false;
      added := false;
      pending := None;
    }

    /** `handleAddToLibrary`. Signed out, the recommendation is stashed and
        nothing is written; signed in, the book and the link are found or
        inserted and the card shows "added". */
    method HandleAddToLibrary(user: Option<string>, apiKey: Option<string>,
                              reply: GoogleBooks.SearchRequest -> GoogleBooks.SearchReply, now: Time)
      modifies this, db
      ensures user.None? ==>
        db.tables == old(db.tables) && pending == Some(recommendation)
        && added == old(added) && adding == old(adding)
      ensures user.Some? ==>
        db.tables == AddToLibrary(old(db.tables), recommendation, user.value, Hits(recommendation, apiKey, reply), now)
        && added && !adding && pending == old(pending)
    {
      if user.None? {
        pending := Some(recommendation);
        return;
      }
      adding := true;
      var hits := GoogleBooks.SearchBooks(recommendation.title + " " + recommendation.author, 20, apiKey, reply).books;
      var bookId: Id;
      match MaybeSingle(BooksByTitleAuthor(db.tables.books, recommendation.title, recommendation.author)) {
        case OneRow(row) => bookId := row.id;
        case _ => bookId := db.InsertBook(NewBookFields(recommendation, hits));
      }
      match MaybeSingle(Links(db.tables.userBooks, user.value, bookId)) {
        case OneRow(_) =>
        case _ => db.InsertUserBook(user.value, bookId, WantToRead, Some(recommendation.analytics), now);
      }
      added := true;
      adding := false;
    }
  }
}
