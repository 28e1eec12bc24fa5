/** components/AddBookModal.tsx: the dialog that searches the catalog and
    adds a chosen result to the reader's shelves. Unlike the
    recommendation card it matches books by Google id and stops at the
    first lookup error. */
module AddBookModal {
  import opened Wrappers
  import opened Text
  import opened Db
  import GoogleBooks

  /** What `supabase.auth.getUser()` answers. */
  datatype Auth = AuthError(message: string) | SignedOut | SignedIn(userId: string)

  /** Why an add stopped: the thrown error. A lookup matching several rows
      is the error `maybeSingle` reports. */
  datatype AddError = AuthFailed(message: string) | NotAuthenticated | BookCheckFailed | UserBookCheckFailed

  /** The `books` row `formatGoogleBook` yields for a catalog record. */
  function FormattedFields(g: GoogleBook): (f: BookFields)
    ensures f.googleBooksId == Some(g.id) && f.openLibraryId.None?
    ensures var b := GoogleBooks.FormatGoogleBook(g);
      f.title == b.title && f.author == Some(b.author) && f.coverUrl == Some(b.coverUrl)
      && f.description == Some(b.description) && f.pageCount == Some(b.pageCount)
  {
    var b := GoogleBooks.FormatGoogleBook(g);
    BookFields(Some(b.googleBooksId), None, b.title, Some(b.author), None, None, None, Some(b.pageCount), Some(b.coverUrl), Some(b.description))
  }

  /** The tables after `handleAddBook`, and the error it stopped with.
      A book found by its Google id is reused, else the formatted book is
      inserted; the link with the chosen status is inserted only when
      there is none. An error leaves the writes made before it. */
  function AddToShelf(t: Tables, g: GoogleBook, status: BookStatus, auth: Auth, now: Time): (r: (Tables, Option<AddError>))
    ensures !auth.SignedIn? ==> r.0 == t && r.1.Some?
    ensures auth.AuthError? ==> r.1 == Some(AuthFailed("Authentication error: " + auth.message))
    ensures auth.SignedOut? ==> r.1 == Some(NotAuthenticated)
    ensures auth.SignedIn? && |BooksByGoogleId(t.books, g.id)| > 1 ==> r == (t, Some(BookCheckFailed))
    ensures auth.SignedIn? && |BooksByGoogleId(t.books, g.id)| == 1
      ==> r == LinkStep(t, auth.userId, BooksByGoogleId(t.books, g.id)[0].id, status, now)
    ensures auth.SignedIn? && |BooksByGoogleId(t.books, g.id)| == 0
      ==> r == LinkStep(t.AddBook(FormattedFields(g)), auth.userId, t.nextId, status, now)
    ensures r.0.books == t.books || r.0.books == t.books + [BookRow(t.nextId, FormattedFields(g))]
    ensures |t.userBooks| <= |r.0.userBooks| <= |t.userBooks| + 1
    ensures r.0.userBooks[..|t.userBooks|] == t.userBooks
  {
    match auth
    case AuthError(message) => (t, Some(AuthFailed("Authentication error: " + message)))
    case SignedOut => (t, Some(NotAuthenticated))
    case SignedIn(userId) =>
      match MaybeSingle(BooksByGoogleId(t.books, g.id))
      case ManyRows => (t, Some(BookCheckFailed))
      case OneRow(row) => LinkStep(t, userId, row.id, status, now)
      case NoRow => LinkStep(t.AddBook(FormattedFields(g)), userId, t.nextId, status, now)
  }

  /** The link half of an add: the link lookup's error stops it, an
      existing link is kept, and a missing one is inserted. */
  function LinkStep(t: Tables, userId: string, bookId: Id, status: BookStatus, now: Time): (r: (Tables, Option<AddError>))
    ensures r.0.books == t.books
    ensures |Links(t.userBooks, userId, bookId)| > 1 <==> r.1 == Some(UserBookCheckFailed)
    ensures |Links(t.userBooks, userId, bookId)| == 1 ==> r == (t, None)
    ensures |Links(t.userBooks, userId, bookId)| == 0 ==> r == (t.AddUserBook(userId, bookId, status, None, now), None)
  {
    match MaybeSingle(Links(t.userBooks, userId, bookId))
    case ManyRows => (t, Some(UserBookCheckFailed))
    case OneRow(_) => (t, None)
    case NoRow => (t.AddUserBook(userId, bookId, status, None, now), None)
  }

  /** The book an add resolves to when the Google-id lookup succeeds. */
  function ResolvedBook(t: Tables, g: GoogleBook): Id {
    match MaybeSingle(BooksByGoogleId(t.books, g.id))
    case OneRow(row) => row.id
    case _ => t.nextId
  }

  /** A successful add leaves exactly one book with that Google id and
      exactly one link from the reader to it, with the chosen status when
      the link is new. */
  lemma {:induction false} AddSucceeds(t: Tables, g: GoogleBook, status: BookStatus, userId: string, now: Time)
    requires AddToShelf(t, g, status, SignedIn(userId), now).1.None?
    ensures var t' := AddToShelf(t, g, status, SignedIn(userId), now).0;
      && |BooksByGoogleId(t'.books, g.id)| == 1
      && BooksByGoogleId(t'.books, g.id)[0].id == ResolvedBook(t, g)
      && |Links(t'.userBooks, userId, ResolvedBook(t, g))| == 1
      && (|Links(t.userBooks, userId, ResolvedBook(t, g))| == 0 ==> Links(t'.userBooks, userId, ResolvedBook(t, g))[0].status == status)
  {
    var t' := AddToShelf(t, g, status, SignedIn(userId), now).0;
    var bookId := ResolvedBook(t, g);
    var t1 := if |BooksByGoogleId(t.books, g.id)| == 1 then t else t.AddBook(FormattedFields(g));
    if |BooksByGoogleId(t.books, g.id)| == 0 {
      BooksByGoogleIdSnoc(t.books, BookRow(t.nextId, FormattedFields(g)), g.id);
    }
    assert t'.books == t1.books;
    if |Links(t1.userBooks, userId, bookId)| == 0 {
      LinksSnoc(t1.userBooks, UserBookRow(t1.nextId, userId, bookId, status, 0, None, None, now), userId, bookId);
    }
  }

  /** Adding the same record a second time, with any status and at any
      time, writes nothing and succeeds: the first add made the book and
      the link unique. */
  lemma AddTwiceIsAddOnce(t: Tables, g: GoogleBook, status1: BookStatus, status2: BookStatus, userId: string, now1: Time, now2: Time)
    requires AddToShelf(t, g, status1, SignedIn(userId), now1).1.None?
    ensures var once := AddToShelf(t, g, status1, SignedIn(userId), now1).0;
      AddToShelf(once, g, status2, SignedIn(userId), now2) == (once, None)
  {
    AddSucceeds(t, g, status1, userId, now1);
  }

  /** The dialog's state over the hosted tables. */
  class Modal {
    const db: Database
    var open: bool
    var searchQuery: string
    var searchResults: seq<GoogleBook>
    var adding: Option<string>

    constructor (db: Database, open: bool)
      ensures this.db == db && this.open == open
      ensures searchQuery == "" && searchResults == [] && adding.None?
    {
      this.db := db;
      this.open := open;
      searchQuery := "";
      searchResults := [];
      adding := None;
    }

    /** Typing into the search box. */
    method SetQuery(q: string)
      modifies this
      ensures searchQuery == q
      ensures open == old(open) && searchResults == old(searchResults) && adding == old(adding)
    {
      searchQuery := q;
    }

    /** `handleSearch`: a blank query does nothing; otherwise the results
        are replaced by the catalog's answer (empty when it failed). */
    method HandleSearch(apiKey: Option<string>, reply: GoogleBooks.SearchRequest -> GoogleBooks.SearchReply)
      modifies this
      ensures AllSpace(old(searchQuery)) ==> searchResults == old(searchResults)
      ensures !AllSpace(old(searchQuery)) ==> searchResults == GoogleBooks.SearchBooks(old(searchQuery), 20, apiKey, reply).books
      ensures searchQuery == old(searchQuery) && open == old(open) && adding == old(adding)
    {
      var query := searchQuery;
      TrimEmptyIffAllSpace(query);
      if Trim(query) == "" {
        assert AllSpace(query);
        return;
      }
      assert !AllSpace(query);
      var found := GoogleBooks.SearchBooks(query, 20, apiKey, reply);
      searchResults := found.books;
    }

    /** `handleAddBook`. On success the query and results are cleared and
        the dialog closes; on an error they stay as they were. */
    method HandleAddBook(g: GoogleBook, status: BookStatus, auth: Auth, now: Time) returns (error: Option<AddError>)
      modifies this, db
      ensures (db.tables, error) == AddToShelf(old(db.tables), g, status, auth, now)
      ensures error.None? ==> searchQuery == "" && searchResults == [] && !open
      ensures error.Some? ==> searchQuery == old(searchQuery) && searchResults == old(searchResults) && open == old(open)
      ensures adding.None?
    {
      adding := Some(g.id);
      error := None;
      match auth {
        case AuthError(message) =>
          error := Some(AuthFailed("Authentication error: " + message));
        case SignedOut =>
          error := Some(NotAuthenticated);
        case SignedIn(userId) =>
          var found := MaybeSingle(BooksByGoogleId(db.tables.books, g.id));
          if found.ManyRows? {
            error := Some(BookCheckFailed);
          } else {
            var bookId: Id;
            if found.OneRow? {
              bookId := found.row.id;
            } else {
              bookId := db.InsertBook(FormattedFields(g));
            }
            var linked := MaybeSingle(Links(db.tables.userBooks, userId, bookId));
            if linked.ManyRows? {
              error := Some(UserBookCheckFailed);
            } else if linked.NoRow? {
              db.InsertUserBook(userId, bookId, status, None, now);
            }
          }
      }
      if error.None? {
        searchQuery := "";
        searchResults := [];
        open := false;
      }
      adding := None;
    }
  }
}
