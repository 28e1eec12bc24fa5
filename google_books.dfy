/** lib/google-books.ts: catalog search and lookup against the Google
    Books volumes service, and the row shape a catalog record is stored as.
    The service is the `reply` oracle, asked with the request the app
    would send. */
module GoogleBooks {
  import opened Wrappers
  import opened Text
  import opened Js
  import opened Db

  /** The placeholder the sample environment file carries instead of a key. */
  const KeyPlaceholder: string := "your_google_books_api_key_here"

  /** The `key` parameter of a request: the configured key, unless it is
      unset, empty or still the placeholder. */
  function KeyParam(apiKey: Option<string>): (r: Option<string>)
    ensures r.Some? <==> apiKey.Some? && apiKey.value != "" && apiKey.value != KeyPlaceholder
    ensures r.Some? ==> r == apiKey
  {
    if apiKey.Some? && apiKey.value != "" && apiKey.value != KeyPlaceholder then apiKey else None
  }

  /** The parameters of `GET /volumes`; `printType=books` and
      `langRestrict=en` are always sent as well. */
  datatype SearchRequest = SearchRequest(q: string, maxResults: int, key: Option<string>)

  /** The answer to a request: a failed fetch, a non-ok status, or a body
      whose `items` may be missing. */
  datatype SearchReply = SearchFailed | SearchNotOk | SearchOk(items: Option<seq<GoogleBook>>)

  /** What `searchBooks` did: the request it sent, if any, and its result. */
  datatype Search = Search(request: Option<SearchRequest>, books: seq<GoogleBook>)

  /** `searchBooks`: a blank query gives [] without a request; otherwise
      the items of an ok answer, and [] on any failure or missing `items`. */
  function SearchBooks(query: string, maxResults: int, apiKey: Option<string>, reply: SearchRequest -> SearchReply): (r: Search)
    ensures r.request.None? <==> AllSpace(query)
    ensures r.request.None? ==> r.books == []
    ensures r.request.Some? ==> r.request.value == SearchRequest(query, maxResults, KeyParam(apiKey))
    ensures r.request.Some? ==>
      var answer := reply(r.request.value);
      r.books == (if answer.SearchOk? && answer.items.Some? then answer.items.value else [])
  {
    TrimEmptyIffAllSpace(query);
    if Trim(query) == "" then Search(None, [])
    else
      var request := SearchRequest(query, maxResults, KeyParam(apiKey));
      match reply(request)
      case SearchOk(items) => Search(Some(request), ListOr(items, []))
      case _ => Search(Some(request), [])
  }

  /** A blank query never reaches the service: the answer plays no part. */
  lemma BlankQueryNoRequest(query: string, maxResults: int, apiKey: Option<string>, reply1: SearchRequest -> SearchReply, reply2: SearchRequest -> SearchReply)
    requires AllSpace(query)
    ensures SearchBooks(query, maxResults, apiKey, reply1) == SearchBooks(query, maxResults, apiKey, reply2) == Search(None, [])
  {
  }

  /** The parameters of `GET /volumes/<id>`. */
  datatype DetailsRequest = DetailsRequest(id: string, key: Option<string>)

  datatype DetailsReply = DetailsFailed | DetailsNotOk | DetailsOk(book: GoogleBook)

  /** `getBookDetails`: the record of an ok answer, null on any failure. */
  function GetBookDetails(googleBooksId: string, apiKey: Option<string>, reply: DetailsRequest -> DetailsReply): (r: Option<GoogleBook>)
    ensures var answer := reply(DetailsRequest(googleBooksId, KeyParam(apiKey)));
      (r.Some? <==> answer.DetailsOk?) && (r.Some? ==> r.value == answer.book)
  {
    match reply(DetailsRequest(googleBooksId, KeyParam(apiKey)))
    case DetailsOk(book) => Some(book)
    case _ => None
  }

  /** `imageLinks?.thumbnail?.replace('http:', 'https:') || ''`. */
  function SecureThumbnail(links: Option<ImageLinks>): string {
    if links.Some? && links.value.thumbnail.Some? then ReplaceFirst(links.value.thumbnail.value, "http:", "https:")
    else ""
  }

  /** A cover link starting with `http:` is served over `https:` with the
      rest of the link unchanged; a link without `http:` is kept, and a
      missing one becomes "". */
  lemma SecureThumbnailRewrites(links: Option<ImageLinks>)
    ensures links.None? || links.value.thumbnail.None? ==> SecureThumbnail(links) == ""
    ensures links.Some? && links.value.thumbnail.Some? && StartsWith(links.value.thumbnail.value, "http:") ==>
      var t := links.value.thumbnail.value;
      SecureThumbnail(links) == "https:" + t[5..]
    ensures links.Some? && links.value.thumbnail.Some? && !Contains(links.value.thumbnail.value, "http:") ==>
      SecureThumbnail(links) == links.value.thumbnail.value
  {
    if links.Some? && links.value.thumbnail.Some? {
      var t := links.value.thumbnail.value;
      if StartsWith(t, "http:") {
        assert Occurs(t, "http:", 0);
        assert FindSub(t, "http:") == 0;
      }
    }
  }

  /** The row `formatGoogleBook` builds from a catalog record. */
  datatype FormattedBook = FormattedBook(
    googleBooksId: string, title: string, author: string, coverUrl: string, description: string, pageCount: int)

  /** `formatGoogleBook`. */
  function FormatGoogleBook(b: GoogleBook): (r: FormattedBook)
    ensures r.googleBooksId == b.id
    ensures r.title == StrOr(b.volumeInfo.title, "Unknown Title")
    ensures r.author == StrOr(FirstOf(b.volumeInfo.authors), "Unknown Author")
    ensures r.coverUrl == SecureThumbnail(b.volumeInfo.imageLinks)
    ensures r.description == StrOr(b.volumeInfo.description, "")
    ensures r.pageCount == IntOr(b.volumeInfo.pageCount, 0)
  {
    var v := b.volumeInfo;
    FormattedBook(
      b.id,
      StrOr(v.title, "Unknown Title"),
      StrOr(FirstOf(v.authors), "Unknown Author"),
      SecureThumbnail(v.imageLinks),
      StrOr(v.description, ""),
      IntOr(v.pageCount, 0))
  }

  /** The formatted row is never missing a title or an author: a record
      without one shows the placeholder, one with one keeps it. */
  lemma FormatGoogleBookDefaults(b: GoogleBook)
    ensures FormatGoogleBook(b).title != "" && FormatGoogleBook(b).author != ""
    ensures FormatGoogleBook(b).title == "Unknown Title" <==> b.volumeInfo.title.None? || b.volumeInfo.title.value in {"", "Unknown Title"}
    ensures b.volumeInfo.authors.Some? && |b.volumeInfo.authors.value| > 0 && b.volumeInfo.authors.value[0] != "" ==>
      FormatGoogleBook(b).author == b.volumeInfo.authors.value[0]
    ensures b.volumeInfo.authors.None? || b.volumeInfo.authors.value == [] ==> FormatGoogleBook(b).author == "Unknown Author"
  {
  }
}
