/** scripts/seed-data.ts: adds the sample books whose titles are not yet
    in the `books` table, in one insert, and none when all are there. */
module SeedData {
  import opened Wrappers
  import opened Seqs
  import opened Db

  datatype SampleBook = SampleBook(title: string, author: string, genre: string, moodTags: seq<string>, length: int, description: string)

  const SampleBooks: seq<SampleBook> := [
    SampleBook("The Midnight Library", "Matt Haig", "Fiction",
      ["uplifting", "thought-provoking", "emotional"], 304,
      "Between life and death, there is a library with infinite books and infinite lives. What if you could try out all your life choices and see how different they might be?"),
    SampleBook("Atomic Habits", "James Clear", "Self-Help",
      ["inspiring", "thought-provoking"], 320,
      "An easy and proven way to build good habits and break bad ones. Transform your life with tiny changes that deliver remarkable results."),
    SampleBook("The Silent Patient", "Alex Michaelides", "Thriller",
      ["suspenseful", "dark", "mysterious"], 325,
      "A woman shoots her husband and then never speaks another word. A criminal psychotherapist becomes obsessed with uncovering her motive."),
    SampleBook("Where the Crawdads Sing", "Delia Owens", "Mystery",
      ["emotional", "romantic", "mysterious"], 384,
      "A coming-of-age story about a young girl who raises herself in the marshes of North Carolina while becoming a suspect in a murder investigation."),
    SampleBook("Project Hail Mary", "Andy Weir", "Science Fiction",
      ["adventurous", "thought-provoking", "uplifting"], 496,
      "A lone astronaut must save the earth from disaster in this propulsive, cinematic science thriller from the author of The Martian."),
    SampleBook("The Seven Husbands of Evelyn Hugo", "Taylor Jenkins Reid", "Romance",
      ["emotional", "romantic", "thought-provoking"], 400,
      "Aging Hollywood icon Evelyn Hugo finally tells the truth about her glamorous and scandalous life, revealing shocking secrets."),
    SampleBook("Educated", "Tara Westover", "Biography",
      ["inspiring", "thought-provoking", "emotional"], 334,
      "A memoir about a young woman who leaves her survivalist family and goes on to earn a PhD from Cambridge University."),
    SampleBook("The House in the Cerulean Sea", "TJ Klune", "Fantasy",
      ["uplifting", "lighthearted", "emotional"], 394,
      "A magical island, a dangerous task, a burning secret. A story about the profound experience of discovering an unlikely family."),
    SampleBook("Sapiens", "Yuval Noah Harari", "History",
      ["thought-provoking", "inspiring"], 443,
      "A brief history of humankind from the Stone Age to the modern age, exploring how Homo sapiens came to dominate the world."),
    SampleBook("The Thursday Murder Club", "Richard Osman", "Mystery",
      ["lighthearted", "mysterious", "uplifting"], 368,
      "Four unlikely friends meet weekly to investigate unsolved murders, but when a real killer strikes, the game is on.")
  ]

  /** The columns a sample book sets. */
  function SampleFields(b: SampleBook): BookFields {
    BookFields(None, None, b.title, Some(b.author), Some(b.genre), Some(b.moodTags), Some(b.length), None, None, Some(b.description))
  }

  /** The titles in the `books` table. */
  function Titles(books: seq<BookRow>): set<string> {
    set i | 0 <= i < |books| :: books[i].fields.title
  }

  /** `sampleBooks.filter(book => !existingTitles.has(book.title))`. */
  function BooksToInsert(samples: seq<SampleBook>, existing: set<string>): (r: seq<SampleBook>)
    ensures forall i :: 0 <= i < |r| ==> r[i] in samples && r[i].title !in existing
    ensures forall i :: 0 <= i < |samples| && samples[i].title !in existing ==> samples[i] in r
    ensures IsSubsequence(r, samples)
  {
    FilterIsSubsequence(samples, (b: SampleBook) => b.title !in existing);
    Filter(samples, (b: SampleBook) => b.title !in existing)
  }

  /** `.insert(books)`: the rows are appended in order, each with a added id. */
  function InsertAll(t: Tables, books: seq<SampleBook>): (r: Tables)
    ensures r.userBooks == t.userBooks
    ensures |r.books| == |t.books| + |books| && r.books[..|t.books|] == t.books
    ensures forall i :: 0 <= i < |books| ==> r.books[|t.books| + i].fields == SampleFields(books[i])
    ensures t.Valid() ==> r.Valid()
    decreases |books|
  {
    if books == [] then t
    else
      var r := InsertAll(t.AddBook(SampleFields(books[0])), books[1..]);
      assert r.books[..|t.books| + 1][..|t.books|] == r.books[..|t.books|];
      assert forall i :: 1 <= i < |books| ==> books[i] == books[1..][i - 1];
      r
  }

  /** How the seed ended: stopped for a missing connection setting, found
      nothing new, or inserted some books. */
  datatype SeedOutcome = MissingConfig | NothingNew | Inserted(count: nat)

  const UrlVariable := "NEXT_PUBLIC_SUPABASE_URL"
  const AnonKeyVariable := "NEXT_PUBLIC_SUPABASE_ANON_KEY"

  /** Both connection settings are present and non-empty. */
  predicate Configured(env: map<string, string>) {
    UrlVariable in env && env[UrlVariable] != "" && AnonKeyVariable in env && env[AnonKeyVariable] != ""
  }

  /** The script: a missing setting stops it before any query; otherwise
      the new sample books among `samples` (the script's own list,
      `SampleBooks`) are inserted, unless there are none. */
  method SeedDatabase(samples: seq<SampleBook>, env: map<string, string>, db: Database) returns (outcome: SeedOutcome)
    modifies db
    ensures !Configured(env) ==> outcome == MissingConfig && db.tables == old(db.tables)
    ensures Configured(env) ==> outcome != MissingConfig
    ensures Configured(env) ==> db.tables == InsertAll(old(db.tables), BooksToInsert(samples, Titles(old(db.tables).books)))
    ensures outcome == NothingNew <==> Configured(env) && BooksToInsert(samples, Titles(old(db.tables).books)) == []
    ensures outcome.Inserted? ==> outcome.count == |BooksToInsert(samples, Titles(old(db.tables).books))|
  {
    if !(UrlVariable in env && env[UrlVariable] != "" && AnonKeyVariable in env && env[AnonKeyVariable] != "") {
      return MissingConfig;
    }
    var existingTitles := Titles(db.tables.books);
    var booksToInsert := BooksToInsert(samples, existingTitles);
    if |booksToInsert| == 0 {
      return NothingNew;
    }
    db.tables := InsertAll(db.tables, booksToInsert);
    outcome := Inserted(|booksToInsert|);
  }

  /** After an insert every sample title is in the table, and no inserted
      row repeats a title that was there before. */
  lemma SeedCoversSamples(samples: seq<SampleBook>, t: Tables)
    ensures var after := InsertAll(t, BooksToInsert(samples, Titles(t.books)));
      && (forall i :: 0 <= i < |samples| ==> samples[i].title in Titles(after.books))
      && (forall i :: |t.books| <= i < |after.books| ==> after.books[i].fields.title !in Titles(t.books))
  {
    var added := BooksToInsert(samples, Titles(t.books));
    var after := InsertAll(t, added);
    forall i | 0 <= i < |samples| ensures samples[i].title in Titles(after.books) {
      SamplePresentAfterSeed(samples, t, i);
    }
    forall i | |t.books| <= i < |after.books| ensures after.books[i].fields.title !in Titles(t.books) {
      InsertedTitleNew(samples, t, i - |t.books|);
    }
  }

  /** The `k`-th inserted row carries a title the table did not have. */
  lemma InsertedTitleNew(samples: seq<SampleBook>, t: Tables, k: int)
    requires 0 <= k < |BooksToInsert(samples, Titles(t.books))|
    ensures InsertAll(t, BooksToInsert(samples, Titles(t.books))).books[|t.books| + k].fields.title !in Titles(t.books)
  {
    var existing := Titles(t.books);
    var added := BooksToInsert(samples, existing);
    InsertedRowTitle(t, added, k);
    SelectedTitleNew(samples, existing, k);
  }

  /** The `k`-th inserted row has the `k`-th book's title. */
  lemma InsertedRowTitle(t: Tables, added: seq<SampleBook>, k: int)
    requires 0 <= k < |added|
    ensures |t.books| + k < |InsertAll(t, added).books|
    ensures InsertAll(t, added).books[|t.books| + k].fields.title == added[k].title
  {
  }

  /** A book chosen for insertion has a title not in `existing`. */
  lemma SelectedTitleNew(samples: seq<SampleBook>, existing: set<string>, k: int)
    requires 0 <= k < |BooksToInsert(samples, existing)|
    ensures BooksToInsert(samples, existing)[k].title !in existing
  {
  }

  /** Sample `i` has its title in the table after the insert: either it
      was there already or it was among the inserted books. */
  lemma SamplePresentAfterSeed(samples: seq<SampleBook>, t: Tables, i: int)
    requires 0 <= i < |samples|
    ensures samples[i].title in Titles(InsertAll(t, BooksToInsert(samples, Titles(t.books))).books)
  {
    var added := BooksToInsert(samples, Titles(t.books));
    var b := samples[i];
    if b.title in Titles(t.books) {
      var k :| 0 <= k < |t.books| && t.books[k].fields.title == b.title;
      OldTitleKept(t, added, k);
    } else {
      assert b in added;
      var k :| 0 <= k < |added| && added[k] == b;
      AddedTitlePresent(t, added, k);
    }
  }

  /** A row already in the table keeps its title there after the insert. */
  lemma OldTitleKept(t: Tables, added: seq<SampleBook>, k: int)
    requires 0 <= k < |t.books|
    ensures t.books[k].fields.title in Titles(InsertAll(t, added).books)
  {
    var after := InsertAll(t, added);
    assert after.books[k] == after.books[..|t.books|][k];
    TitleIn(after.books, k);
  }

  /** An inserted book's title is in the table after the insert. */
  lemma AddedTitlePresent(t: Tables, added: seq<SampleBook>, k: int)
    requires 0 <= k < |added|
    ensures added[k].title in Titles(InsertAll(t, added).books)
  {
    var after := InsertAll(t, added);
    assert after.books[|t.books| + k].fields == SampleFields(added[k]);
    TitleIn(after.books, |t.books| + k);
  }

  /** Every row's title is among the table's titles. */
  lemma TitleIn(books: seq<BookRow>, k: int)
    requires 0 <= k < |books|
    ensures books[k].fields.title in Titles(books)
  {
  }

  /** Seeding a second time finds nothing new and writes nothing. */
  lemma SeedTwiceIsSeedOnce(samples: seq<SampleBook>, t: Tables)
    ensures var after := InsertAll(t, BooksToInsert(samples, Titles(t.books)));
      BooksToInsert(samples, Titles(after.books)) == []
  {
    SeedCoversSamples(samples, t);
  }

  /** The script's list holds ten books with distinct titles, so seeding
      an empty table adds one row per title. */
  lemma SampleTitlesDistinct()
    ensures |SampleBooks| == 10
    ensures forall i, j :: 0 <= i < j < |SampleBooks| ==> SampleBooks[i].title != SampleBooks[j].title
  {
  }
}
