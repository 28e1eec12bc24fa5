/** app/library/page.tsx: the reader's library. The page holds the list
    of the signed-in user's books; each handler writes `user_books` and
    then reloads the list. */
module LibraryPage {
  import opened Wrappers
  import opened Seqs
  import opened Db

  /** A user_books row with its joined `books` row (`book:books(*)`). */
  datatype Shelved = Shelved(book: Option<BookRow>, userBook: UserBookRow)

  /** Newest first: no row is older than the one after it. */
  ghost predicate NewestFirst(rows: seq<UserBookRow>) {
    forall i, j :: 0 <= i < j < |rows| ==> rows[i].createdAt >= rows[j].createdAt
  }

  /** A row no older than the head of a newest-first list can go in front. */
  lemma ConsNewestFirst(h: UserBookRow, rows: seq<UserBookRow>)
    requires NewestFirst(rows)
    requires rows == [] || h.createdAt >= rows[0].createdAt
    ensures NewestFirst([h] + rows)
  {
    var r := [h] + rows;
    forall i, j | 0 <= i < j < |r| ensures r[i].createdAt >= r[j].createdAt {
      if i == 0 && j > 1 {
        assert rows[0].createdAt >= rows[j - 1].createdAt;
      }
    }
  }

  /** Dropping the newest row leaves a newest-first list. */
  lemma TailNewestFirst(rows: seq<UserBookRow>)
    requires NewestFirst(rows) && rows != []
    ensures NewestFirst(rows[1..])
  {
    var tail := rows[1..];
    forall i, j | 0 <= i < j < |tail| ensures tail[i].createdAt >= tail[j].createdAt {
      assert tail[i] == rows[i + 1] && tail[j] == rows[j + 1];
    }
  }

  /** Puts a row before the first row that is not newer than it. */
  function InsertNewest(x: UserBookRow, rows: seq<UserBookRow>): (r: seq<UserBookRow>)
    requires NewestFirst(rows)
    ensures NewestFirst(r)
    ensures multiset(r) == multiset(rows) + multiset{x}
    ensures |r| == |rows| + 1
    ensures r[0] == x || (rows != [] && r[0] == rows[0])
  {
    if rows == [] || x.createdAt >= rows[0].createdAt then
      ConsNewestFirst(x, rows);
      [x] + rows
    else
      var tail := rows[1..];
      TailNewestFirst(rows);
      var rest := InsertNewest(x, tail);
      assert tail != [] ==> rows[0].createdAt >= tail[0].createdAt;
      ConsNewestFirst(rows[0], rest);
      assert rows == [rows[0]] + tail;
      [rows[0]] + rest
  }

  /** `.order('created_at', { ascending: false })`: the rows newest
      first, rows of equal age kept in the order they came. */
  function SortNewestFirst(rows: seq<UserBookRow>): (r: seq<UserBookRow>)
    ensures NewestFirst(r)
    ensures multiset(r) == multiset(rows)
  {
    if rows == [] then []
    else
      assert rows == [rows[0]] + rows[1..];
      InsertNewest(rows[0], SortNewestFirst(rows[1..]))
  }

  /** The `books` row a user_books row points at. */
  function BookOf(books: seq<BookRow>, id: Id): (r: Option<BookRow>)
    ensures r.Some? ==> r.value in books && r.value.id == id
    ensures r.None? ==> forall i :: 0 <= i < |books| ==> books[i].id != id
  {
    if books == [] then None
    else if books[0].id == id then Some(books[0])
    else BookOf(books[1..], id)
  }

  function Join(books: seq<BookRow>, rows: seq<UserBookRow>): (r: seq<Shelved>)
    ensures |r| == |rows|
    ensures forall i :: 0 <= i < |rows| ==> r[i] == Shelved(BookOf(books, rows[i].bookId), rows[i])
  {
    if rows == [] then [] else [Shelved(BookOf(books, rows[0].bookId), rows[0])] + Join(books, rows[1..])
  }

  /** The user's rows of the table. */
  function RowsOf(t: Tables, userId: string): seq<UserBookRow> {
    Filter(t.userBooks, (u: UserBookRow) => u.userId == userId)
  }

  /** What `loadBooks` shows: the user's rows, newest first, with their books. */
  function Loaded(t: Tables, userId: string): seq<Shelved> {
    Join(t.books, SortNewestFirst(RowsOf(t, userId)))
  }

  /** Sorting keeps exactly the rows it was given. */
  lemma SortedHasSameRows(rows: seq<UserBookRow>)
    ensures forall i :: 0 <= i < |SortNewestFirst(rows)| ==> SortNewestFirst(rows)[i] in rows
    ensures forall u :: u in rows ==> u in SortNewestFirst(rows)
  {
    var sorted := SortNewestFirst(rows);
    forall i | 0 <= i < |sorted| ensures sorted[i] in rows {
      assert sorted[i] in multiset(rows);
    }
    forall u | u in rows ensures u in sorted {
      assert u in multiset(sorted);
    }
  }

  /** The list holds exactly the user's rows, each once, newest first. */
  lemma LoadedIsUsersRowsNewestFirst(t: Tables, userId: string)
    ensures var shown := Loaded(t, userId);
      && (forall i :: 0 <= i < |shown| ==> shown[i].userBook in t.userBooks && shown[i].userBook.userId == userId)
      && (forall i, j :: 0 <= i < j < |shown| ==> shown[i].userBook.createdAt >= shown[j].userBook.createdAt)
      && (forall u :: u in t.userBooks && u.userId == userId ==> exists i :: 0 <= i < |shown| && shown[i].userBook == u)
      && (forall u: UserBookRow :: multiset(UserBooksOf(shown))[u] == if u.userId == userId then multiset(t.userBooks)[u] else 0)
      && (forall i :: 0 <= i < |shown| ==> shown[i].book == BookOf(t.books, shown[i].userBook.bookId))
  {
    LoadedRowsAreUsers(t, userId);
    LoadedOrder(t, userId);
    LoadedCoversUser(t, userId);
    LoadedCounts(t, userId);
    LoadedBooks(t, userId);
  }

  /** The user_books rows of a list, in its order. */
  function UserBooksOf(shown: seq<Shelved>): (r: seq<UserBookRow>)
    ensures |r| == |shown| && forall i :: 0 <= i < |shown| ==> r[i] == shown[i].userBook
  {
    seq(|shown|, i requires 0 <= i < |shown| => shown[i].userBook)
  }

  /** Each of the user's rows is listed as often as it is stored, and no
      other row is listed. */
  lemma LoadedCounts(t: Tables, userId: string)
    ensures forall u: UserBookRow :: multiset(UserBooksOf(Loaded(t, userId)))[u] == if u.userId == userId then multiset(t.userBooks)[u] else 0
  {
    var rows := RowsOf(t, userId);
    var sorted := SortNewestFirst(rows);
    var shown := Join(t.books, sorted);
    assert shown == Loaded(t, userId);
    assert UserBooksOf(shown) == sorted;
    forall u: UserBookRow ensures multiset(sorted)[u] == if u.userId == userId then multiset(t.userBooks)[u] else 0 {
      FilterMultiset(t.userBooks, (v: UserBookRow) => v.userId == userId, u);
    }
  }

  /** Every listed row carries the `books` row it points at. */
  lemma LoadedBooks(t: Tables, userId: string)
    ensures var shown := Loaded(t, userId);
      forall i :: 0 <= i < |shown| ==> shown[i].book == BookOf(t.books, shown[i].userBook.bookId)
  {
    var shown := Join(t.books, SortNewestFirst(RowsOf(t, userId)));
    assert shown == Loaded(t, userId);
  }

  /** Every listed row is one of the user's rows of the table. */
  lemma LoadedRowsAreUsers(t: Tables, userId: string)
    ensures var shown := Loaded(t, userId);
      forall i :: 0 <= i < |shown| ==> shown[i].userBook in t.userBooks && shown[i].userBook.userId == userId
  {
    var rows := RowsOf(t, userId);
    var sorted := SortNewestFirst(rows);
    SortedHasSameRows(rows);
    var shown := Join(t.books, sorted);
    assert shown == Loaded(t, userId);
    forall i | 0 <= i < |shown| ensures shown[i].userBook in t.userBooks && shown[i].userBook.userId == userId {
      assert shown[i].userBook == sorted[i];
      assert sorted[i] in rows;
      var k :| 0 <= k < |rows| && rows[k] == sorted[i];
    }
  }

  /** The list is newest first. */
  lemma LoadedOrder(t: Tables, userId: string)
    ensures var shown := Loaded(t, userId);
      forall i, j :: 0 <= i < j < |shown| ==> shown[i].userBook.createdAt >= shown[j].userBook.createdAt
  {
    var sorted := SortNewestFirst(RowsOf(t, userId));
    var shown := Join(t.books, sorted);
    assert shown == Loaded(t, userId);
    forall i, j | 0 <= i < j < |shown| ensures shown[i].userBook.createdAt >= shown[j].userBook.createdAt {
      assert shown[i].userBook == sorted[i] && shown[j].userBook == sorted[j];
    }
  }

  /** Every one of the user's rows is listed. */
  lemma LoadedCoversUser(t: Tables, userId: string)
    ensures var shown := Loaded(t, userId);
      forall u :: u in t.userBooks && u.userId == userId ==> exists i :: 0 <= i < |shown| && shown[i].userBook == u
  {
    forall u | u in t.userBooks && u.userId == userId
      ensures exists i :: 0 <= i < |Loaded(t, userId)| && Loaded(t, userId)[i].userBook == u
    {
      var k :| 0 <= k < |t.userBooks| && t.userBooks[k] == u;
      LoadedHas(t, userId, k);
    }
  }

  /** The user's `k`-th row of the table is listed. */
  lemma LoadedHas(t: Tables, userId: string, k: int)
    requires 0 <= k < |t.userBooks| && t.userBooks[k].userId == userId
    ensures exists i :: 0 <= i < |Loaded(t, userId)| && Loaded(t, userId)[i].userBook == t.userBooks[k]
  {
    var u := t.userBooks[k];
    var rows := RowsOf(t, userId);
    assert u in rows;
    var sorted := SortNewestFirst(rows);
    SortedHasSameRows(rows);
    var i :| 0 <= i < |sorted| && sorted[i] == u;
    var shown := Join(t.books, sorted);
    assert shown == Loaded(t, userId);
    assert shown[i].userBook == u;
  }

  /** The columns "Move to" writes: finishing also stamps the time. */
  function MovePatch(newStatus: BookStatus, now: Time): Patch {
    if newStatus == Finished then Patch(Some(newStatus), None, Some(now)) else Patch(Some(newStatus), None, None)
  }

  /** The columns a progress update writes: 100 or more finishes the book. */
  function ProgressPatch(progress: int, now: Time): Patch {
    if progress >= 100 then Patch(Some(Finished), Some(progress), Some(now)) else Patch(None, Some(progress), None)
  }

  /** A move changes the shelf; a move to finished also stamps the finish
      time, any other move keeps the old one; progress is untouched. */
  lemma MoveEffect(r: UserBookRow, newStatus: BookStatus, now: Time)
    ensures ApplyPatch(r, MovePatch(newStatus, now)).status == newStatus
    ensures ApplyPatch(r, MovePatch(newStatus, now)).progressPercent == r.progressPercent
    ensures newStatus == Finished ==> ApplyPatch(r, MovePatch(newStatus, now)).finishedAt == Some(now)
    ensures newStatus != Finished ==> ApplyPatch(r, MovePatch(newStatus, now)) == r.(status := newStatus)
  {
  }

  /** Progress of 100 or more finishes the book at `now`; less changes
      only the progress. */
  lemma ProgressEffect(r: UserBookRow, progress: int, now: Time)
    ensures progress >= 100 ==>
      ApplyPatch(r, ProgressPatch(progress, now)) == r.(progressPercent := progress, status := Finished, finishedAt := Some(now))
    ensures progress < 100 ==> ApplyPatch(r, ProgressPatch(progress, now)) == r.(progressPercent := progress)
  {
  }

  /** `getBooksByStatus`: the shelf, in list order. */
  function Shelf(books: seq<Shelved>, status: BookStatus): (r: seq<Shelved>)
    ensures forall i :: 0 <= i < |r| ==> r[i] in books && r[i].userBook.status == status
    ensures forall i :: 0 <= i < |books| && books[i].userBook.status == status ==> books[i] in r
  {
    Filter(books, (b: Shelved) => b.userBook.status == status)
  }

  /** The three shelves split the list: each book is on exactly the shelf
      of its status, so the shelf sizes add up to the list's. */
  lemma {:induction false} ShelvesPartition(books: seq<Shelved>)
    ensures |Shelf(books, WantToRead)| + |Shelf(books, CurrentlyReading)| + |Shelf(books, Finished)| == |books|
    ensures forall b :: b in books ==> b in Shelf(books, b.userBook.status)
  {
    if books != [] {
      ShelvesPartition(books[1..]);
      assert books == [books[0]] + books[1..];
    }
  }

  /** The library page: the shown list, over the hosted tables. */
  class Library {
    var books: seq<Shelved>
    const db: Database

    constructor (db: Database)
      ensures this.db == db && books == []
    {
      this.db := db;
      books := [];
    }

    /** `loadBooks`: without a signed-in user the list is left as it is. */
    method LoadBooks(user: Option<string>)
      modifies this
      ensures user.Some? ==> books == Loaded(db.tables, user.value)
      ensures user.None? ==> books == old(books)
    {
      if user.Some? {
        var rows := Filter(db.tables.userBooks, (u: UserBookRow) => u.userId == user.value);
        books := Join(db.tables.books, SortNewestFirst(rows));
      }
    }

    /** `handleMoveBook`, then the reload. */
    method MoveBook(user: Option<string>, userBookId: Id, newStatus: BookStatus, now: Time)
      modifies this, db
      ensures db.tables == old(db.tables).(userBooks := UpdateWhere(old(db.tables).userBooks, userBookId, MovePatch(newStatus, now)))
      ensures user.Some? ==> books == Loaded(db.tables, user.value)
      ensures user.None? ==> books == old(books)
    {
      if newStatus == Finished {
        db.UpdateUserBook(userBookId, Patch(Some(newStatus), None, Some(now)));
      } else {
        db.UpdateUserBook(userBookId, Patch(Some(newStatus), None, None));
      }
      LoadBooks(user);
    }

    /** `handleDeleteBook`, then the reload. */
    method DeleteBook(user: Option<string>, userBookId: Id)
      modifies this, db
      ensures db.tables == old(db.tables).(userBooks := DeleteWhere(old(db.tables).userBooks, userBookId))
      ensures user.Some? ==> books == Loaded(db.tables, user.value)
      ensures user.None? ==> books == old(books)
    {
      db.DeleteUserBook(userBookId);
      LoadBooks(user);
    }

    /** `handleUpdateProgress`, then the reload. */
    method UpdateProgress(user: Option<string>, userBookId: Id, progress: int, now: Time)
      modifies this, db
      ensures db.tables == old(db.tables).(userBooks := UpdateWhere(old(db.tables).userBooks, userBookId, ProgressPatch(progress, now)))
      ensures user.Some? ==> books == Loaded(db.tables, user.value)
      ensures user.None? ==> books == old(books)
    {
      if progress >= 100 {
        db.UpdateUserBook(userBookId, Patch(Some(Finished), Some(progress), Some(now)));
      } else {
        db.UpdateUserBook(userBookId, Patch(None, Some(progress), None));
      }
      LoadBooks(user);
    }

    /** `getBooksByStatus`. */
    function GetBooksByStatus(status: BookStatus): (r: seq<Shelved>)
      reads this
      ensures r == Shelf(books, status)
    {
      Filter(books, (b: Shelved) => b.userBook.status == status)
    }
  }
}
