/** The record shapes of lib/db.ts and lib/database.types.ts, and the two
    hosted tables the components write, `books` and `user_books`, kept in
    memory.

    Row ids, which the hosted database generates as UUIDs, are natural
    numbers drawn from one counter; timestamps are clock readings passed
    in by the caller. */
module Db {
  import opened Wrappers
  import opened Seqs

  datatype BookStatus = WantToRead | CurrentlyReading | Finished

  /** The shelves in the order the app lists them. */
  const AllStatuses: seq<BookStatus> := [WantToRead, CurrentlyReading, Finished]

  datatype Pacing = Slow | Medium | Fast

  datatype AIAnalytics = AIAnalytics(pageCount: int, pacing: Pacing, moods: seq<string>, themes: seq<string>)

  datatype ImageLinks = ImageLinks(thumbnail: Option<string>, smallThumbnail: Option<string>)

  /** `volumeInfo` of a catalog record; any part may be absent in a
      record the service returns. Open Library records also carry
      `publishedDate`. */
  datatype VolumeInfo = VolumeInfo(
    title: Option<string>,
    authors: Option<seq<string>>,
    description: Option<string>,
    categories: Option<seq<string>>,
    imageLinks: Option<ImageLinks>,
    pageCount: Option<int>,
    publishedDate: Option<string>)

  /** A catalog record in Google's shape; Open Library records carry
      `source: "openlibrary"` as an extra property. */
  datatype GoogleBook = GoogleBook(id: string, volumeInfo: VolumeInfo, source: Option<string>)

  type Id = nat
  type Time = nat

  /** The columns an insert into `books` may set; absent ones stay null. */
  datatype BookFields = BookFields(
    googleBooksId: Option<string>,
    openLibraryId: Option<string>,
    title: string,
    author: Option<string>,
    genre: Option<string>,
    moodTags: Option<seq<string>>,
    length: Option<int>,
    pageCount: Option<int>,
    coverUrl: Option<string>,
    description: Option<string>)

  datatype BookRow = BookRow(id: Id, fields: BookFields)

  datatype UserBookRow = UserBookRow(
    id: Id,
    userId: string,
    bookId: Id,
    status: BookStatus,
    progressPercent: int,
    aiAnalytics: Option<AIAnalytics>,
    finishedAt: Option<Time>,
    createdAt: Time)

  /** The columns an `.update(...)` on `user_books` sets; absent ones are kept. */
  datatype Patch = Patch(status: Option<BookStatus>, progressPercent: Option<int>, finishedAt: Option<Time>)

  function ApplyPatch(r: UserBookRow, p: Patch): UserBookRow {
    r.(status := p.status.GetOr(r.status),
       progressPercent := p.progressPercent.GetOr(r.progressPercent),
       finishedAt := if p.finishedAt.Some? then p.finishedAt else r.finishedAt)
  }

  /** `.update(p).eq('id', id)`: patches the rows with that id, in place. */
  function UpdateWhere(rows: seq<UserBookRow>, id: Id, p: Patch): (r: seq<UserBookRow>)
    ensures |r| == |rows|
    ensures forall i :: 0 <= i < |rows| && rows[i].id == id ==> r[i] == ApplyPatch(rows[i], p)
    ensures forall i :: 0 <= i < |rows| && rows[i].id != id ==> r[i] == rows[i]
  {
    if rows == [] then []
    else [if rows[0].id == id then ApplyPatch(rows[0], p) else rows[0]] + UpdateWhere(rows[1..], id, p)
  }

  /** `.delete().eq('id', id)`. */
  function DeleteWhere(rows: seq<UserBookRow>, id: Id): (r: seq<UserBookRow>)
    ensures IsSubsequence(r, rows)
    ensures forall i :: 0 <= i < |r| ==> r[i].id != id
    ensures forall i :: 0 <= i < |rows| && rows[i].id != id ==> rows[i] in r
  {
    FilterIsSubsequence(rows, (u: UserBookRow) => u.id != id);
    Filter(rows, (u: UserBookRow) => u.id != id)
  }

  /** What `.maybeSingle()` gives: no row (data null), the one row, or an
      error with data null when more than one row matches. */
  datatype Single<T> = NoRow | OneRow(row: T) | ManyRows

  function MaybeSingle<T>(rows: seq<T>): (r: Single<T>)
    ensures r.NoRow? <==> |rows| == 0
    ensures r.OneRow? <==> |rows| == 1
    ensures r.OneRow? ==> r.row == rows[0]
  {
    if |rows| == 0 then NoRow else if |rows| == 1 then OneRow(rows[0]) else ManyRows
  }

  /** The contents of the two tables and the id counter. */
  datatype Tables = Tables(books: seq<BookRow>, userBooks: seq<UserBookRow>, nextId: Id) {

    /** Every id was drawn from the counter, and none is used twice. */
    ghost predicate Valid() {
      && (forall i :: 0 <= i < |books| ==> books[i].id < nextId)
      && (forall i :: 0 <= i < |userBooks| ==> userBooks[i].id < nextId)
      && (forall i, j :: 0 <= i < j < |books| ==> books[i].id != books[j].id)
      && (forall i, j :: 0 <= i < j < |userBooks| ==> userBooks[i].id != userBooks[j].id)
    }

    /** An insert into `books` returning the new row's id. */
    function AddBook(f: BookFields): (t: Tables)
      ensures t.books == books + [BookRow(nextId, f)]
      ensures t.userBooks == userBooks && t.nextId == nextId + 1
      ensures Valid() ==> t.Valid()
    {
      Tables(books + [BookRow(nextId, f)], userBooks, nextId + 1)
    }

    /** An insert into `user_books`; the unset columns take their defaults
        (progress 0, no finish time, created now). */
    function AddUserBook(userId: string, bookId: Id, status: BookStatus, analytics: Option<AIAnalytics>, now: Time): (t: Tables)
      ensures t.userBooks == userBooks + [UserBookRow(nextId, userId, bookId, status, 0, analytics, None, now)]
      ensures t.books == books && t.nextId == nextId + 1
      ensures Valid() ==> t.Valid()
    {
      Tables(books, userBooks + [UserBookRow(nextId, userId, bookId, status, 0, analytics, None, now)], nextId + 1)
    }
  }

  /** The hosted database as the components see it. */
  class Database {
    var tables: Tables

    constructor (t: Tables)
      ensures tables == t
    {
      tables := t;
    }

    /** `.from('books').insert([f]).select('id').single()`. */
    method InsertBook(f: BookFields) returns (id: Id)
      modifies this
      ensures tables == old(tables).AddBook(f)
      ensures id == old(tables).nextId
    {
      id := tables.nextId;
      tables := tables.AddBook(f);
    }

    /** `.from('user_books').insert([{ user_id, book_id, status, ai_analytics }])`. */
    method InsertUserBook(userId: string, bookId: Id, status: BookStatus, analytics: Option<AIAnalytics>, now: Time)
      modifies this
      ensures tables == old(tables).AddUserBook(userId, bookId, status, analytics, now)
    {
      tables := tables.AddUserBook(userId, bookId, status, analytics, now);
    }

    /** `.from('user_books').update(p).eq('id', id)`. */
    method UpdateUserBook(id: Id, p: Patch)
      modifies this
      ensures tables == old(tables).(userBooks := UpdateWhere(old(tables).userBooks, id, p))
    {
      tables := tables.(userBooks := UpdateWhere(tables.userBooks, id, p));
    }

    /** `.from('user_books').delete().eq('id', id)`. */
    method DeleteUserBook(id: Id)
      modifies this
      ensures tables == old(tables).(userBooks := DeleteWhere(old(tables).userBooks, id))
    {
      tables := tables.(userBooks := DeleteWhere(tables.userBooks, id));
    }
  }

  /** `books` rows with this title and author (the RecommendationCard lookup). */
  function BooksByTitleAuthor(books: seq<BookRow>, title: string, author: string): (r: seq<BookRow>)
    ensures forall i :: 0 <= i < |r| ==> r[i] in books && r[i].fields.title == title && r[i].fields.author == Some(author)
    ensures forall i :: 0 <= i < |books| && books[i].fields.title == title && books[i].fields.author == Some(author) ==> books[i] in r
  {
    Filter(books, (b: BookRow) => b.fields.title == title && b.fields.author == Some(author))
  }

  /** `books` rows with this Google Books id (the AddBookModal lookup). */
  function BooksByGoogleId(books: seq<BookRow>, gid: string): (r: seq<BookRow>)
    ensures forall i :: 0 <= i < |r| ==> r[i] in books && r[i].fields.googleBooksId == Some(gid)
    ensures forall i :: 0 <= i < |books| && books[i].fields.googleBooksId == Some(gid) ==> books[i] in r
  {
    Filter(books, (b: BookRow) => b.fields.googleBooksId == Some(gid))
  }

  /** `user_books` rows linking this user to this book. */
  function Links(rows: seq<UserBookRow>, userId: string, bookId: Id): (r: seq<UserBookRow>)
    ensures forall i :: 0 <= i < |r| ==> r[i] in rows && r[i].userId == userId && r[i].bookId == bookId
    ensures forall i :: 0 <= i < |rows| && rows[i].userId == userId && rows[i].bookId == bookId ==> rows[i] in r
  {
    Filter(rows, (u: UserBookRow) => u.userId == userId && u.bookId == bookId)
  }
  /** An appended book joins the title/author lookup exactly when it matches. */
  lemma BooksByTitleAuthorSnoc(books: seq<BookRow>, b: BookRow, title: string, author: string)
    ensures BooksByTitleAuthor(books + [b], title, author)
      == BooksByTitleAuthor(books, title, author) + (if b.fields.title == title && b.fields.author == Some(author) then [b] else [])
  {
    FilterAppend(books, b, (x: BookRow) => x.fields.title == title && x.fields.author == Some(author));
  }

  /** An appended book joins the Google-id lookup exactly when it matches. */
  lemma BooksByGoogleIdSnoc(books: seq<BookRow>, b: BookRow, gid: string)
    ensures BooksByGoogleId(books + [b], gid) == BooksByGoogleId(books, gid) + (if b.fields.googleBooksId == Some(gid) then [b] else [])
  {
    FilterAppend(books, b, (x: BookRow) => x.fields.googleBooksId == Some(gid));
  }

  /** An appended row joins the link lookup exactly when it links the pair. */
  lemma LinksSnoc(rows: seq<UserBookRow>, u: UserBookRow, userId: string, bookId: Id)
    ensures Links(rows + [u], userId, bookId) == Links(rows, userId, bookId) + (if u.userId == userId && u.bookId == bookId then [u] else [])
  {
    FilterAppend(rows, u, (x: UserBookRow) => x.userId == userId && x.bookId == bookId);
  }
}
