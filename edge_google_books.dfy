/** supabase/functions/google-books/index.ts: the edge function that
    looks a book up by ISBN or by title and author, answering from a
    cache whose entries live for fifteen minutes.

    The cache is the module-level map of the edge function, here the `entries`
    field of a `BookCache`; the clock, the environment key and the Google
    Books service are parameters. */
module GoogleBooksFunction {
  import opened Wrappers
  import opened Text
  import opened Js
  import opened Seqs
  import opened Db

  datatype IndustryIdentifier = IndustryIdentifier(kind: string, identifier: string)

  /** `volumeInfo` of a volume as the function reads it. */
  datatype VolumeData = VolumeData(
    title: Option<string>,
    authors: Option<seq<string>>,
    publisher: Option<string>,
    publishedDate: Option<string>,
    description: Option<string>,
    pageCount: Option<int>,
    categories: Option<seq<string>>,
    imageLinks: Option<ImageLinks>,
    industryIdentifiers: Option<seq<IndustryIdentifier>>)

  /** The book the function answers with. */
  datatype BookResult = BookResult(
    title: string,
    authors: seq<string>,
    publisher: string,
    publishedDate: string,
    description: string,
    pageCount: int,
    categories: seq<string>,
    cover: string,
    isbn: string)

  /** `ids[i]` is the first identifier of this kind. */
  predicate FirstOfKindAt(ids: seq<IndustryIdentifier>, kind: string, i: int) {
    0 <= i < |ids| && ids[i].kind == kind && forall k :: 0 <= k < i ==> ids[k].kind != kind
  }

  /** `ids.find(id => id.type === kind)`. */
  function FindKind(ids: seq<IndustryIdentifier>, kind: string): (r: Option<IndustryIdentifier>)
    ensures r.None? <==> forall i :: 0 <= i < |ids| ==> ids[i].kind != kind
    ensures r.Some? ==> exists i :: FirstOfKindAt(ids, kind, i) && ids[i] == r.value
  {
    if ids == [] then None
    else if ids[0].kind == kind then Some(ids[0])
    else
      var r := FindKind(ids[1..], kind);
      assert r.Some? ==> exists i :: FirstOfKindAt(ids, kind, i) && ids[i] == r.value by {
        if r.Some? {
          var j :| FirstOfKindAt(ids[1..], kind, j) && ids[1..][j] == r.value;
          assert ids[j + 1] == r.value;
          forall k | 0 <= k < j + 1 ensures ids[k].kind != kind {
            if k > 0 { assert ids[k] == ids[1..][k - 1]; }
          }
          assert FirstOfKindAt(ids, kind, j + 1);
        }
      }
      r
  }

  /** `isbn13?.identifier || isbn10?.identifier || ''`, or "" without a
      list of identifiers. */
  function Isbn(ids: Option<seq<IndustryIdentifier>>): string {
    if ids.None? then ""
    else
      var isbn13 := FindKind(ids.value, "ISBN_13");
      var isbn10 := FindKind(ids.value, "ISBN_10");
      StrOr(if isbn13.Some? then Some(isbn13.value.identifier) else None,
            StrOr(if isbn10.Some? then Some(isbn10.value.identifier) else None, ""))
  }

  /** The ISBN is the first ISBN-13 identifier; without a (non-empty) one,
      the first ISBN-10 identifier; otherwise "". */
  lemma IsbnPrefersThirteen(ids: seq<IndustryIdentifier>, i: int)
    requires 0 <= i < |ids| && ids[i].kind == "ISBN_13" && ids[i].identifier != ""
    requires forall k :: 0 <= k < i ==> ids[k].kind != "ISBN_13"
    ensures Isbn(Some(ids)) == ids[i].identifier
  {
    var r := FindKind(ids, "ISBN_13");
    var j :| FirstOfKindAt(ids, "ISBN_13", j) && ids[j] == r.value;
    assert j == i;
  }

  /** Without an ISBN-13 identifier, the first ISBN-10 one is used. */
  lemma IsbnFallsBackToTen(ids: seq<IndustryIdentifier>, i: int)
    requires forall k :: 0 <= k < |ids| ==> ids[k].kind != "ISBN_13"
    requires 0 <= i < |ids| && ids[i].kind == "ISBN_10"
    requires forall k :: 0 <= k < i ==> ids[k].kind != "ISBN_10"
    ensures Isbn(Some(ids)) == ids[i].identifier
  {
    var r := FindKind(ids, "ISBN_10");
    var j :| FirstOfKindAt(ids, "ISBN_10", j) && ids[j] == r.value;
    assert j == i;
  }

  /** With neither kind of ISBN the result has none. */
  lemma IsbnNone(ids: Option<seq<IndustryIdentifier>>)
    requires ids.Some? ==> forall k :: 0 <= k < |ids.value| ==> ids.value[k].kind !in {"ISBN_13", "ISBN_10"}
    ensures Isbn(ids) == ""
  {
  }

  /** `thumbnail || smallThumbnail || ''`. */
  function Cover(links: Option<ImageLinks>): (r: string)
    ensures links.Some? && links.value.thumbnail.Some? && links.value.thumbnail.value != "" ==> r == links.value.thumbnail.value
    ensures links.Some? && StrOr(links.value.thumbnail, "") == "" ==> r == StrOr(links.value.smallThumbnail, "")
    ensures links.None? ==> r == ""
  {
    if links.None? then "" else StrOr(links.value.thumbnail, StrOr(links.value.smallThumbnail, ""))
  }

  /** `parseBookData`: every missing part of the volume becomes "", [] or 0. */
  function ParseBookData(v: VolumeData): (r: BookResult)
    ensures r.title == StrOr(v.title, "") && r.publisher == StrOr(v.publisher, "")
    ensures r.publishedDate == StrOr(v.publishedDate, "") && r.description == StrOr(v.description, "")
    ensures r.authors == ListOr(v.authors, []) && r.categories == ListOr(v.categories, [])
    ensures r.pageCount == IntOr(v.pageCount, 0)
    ensures r.cover == Cover(v.imageLinks) && r.isbn == Isbn(v.industryIdentifiers)
  {
    BookResult(
      StrOr(v.title, ""), ListOr(v.authors, []), StrOr(v.publisher, ""), StrOr(v.publishedDate, ""),
      StrOr(v.description, ""), IntOr(v.pageCount, 0), ListOr(v.categories, []),
      Cover(v.imageLinks), Isbn(v.industryIdentifiers))
  }

  /** Fifteen minutes, in milliseconds. */
  const CacheDuration: int := 15 * 60 * 1000

  datatype CacheEntry = CacheEntry(data: BookResult, timestamp: int)

  /** An entry is served while less than the cache duration has passed. */
  predicate Fresh(e: CacheEntry, now: int) {
    now - e.timestamp < CacheDuration
  }

  /** What `getCached(key)` returns at time `now`. */
  function CachedAt(entries: map<string, CacheEntry>, key: string, now: int): (r: Option<BookResult>)
    ensures r.Some? <==> key in entries && Fresh(entries[key], now)
    ensures r.Some? ==> r.value == entries[key].data
  {
    if key in entries && Fresh(entries[key], now) then Some(entries[key].data) else None
  }

  /** The cache after `getCached(key)` at `now`: a miss deletes the key. */
  function AfterLookup(entries: map<string, CacheEntry>, key: string, now: int): (r: map<string, CacheEntry>)
    ensures CachedAt(entries, key, now).Some? ==> r == entries
    ensures CachedAt(entries, key, now).None? ==> key !in r && forall k :: k in entries && k != key ==> k in r && r[k] == entries[k]
    ensures r.Keys <= entries.Keys
  {
    if CachedAt(entries, key, now).Some? then entries else entries - {key}
  }

  /** What was stored at `t` is served until, and not at, `t` plus the
      cache duration, and storing leaves the other keys' answers alone. */
  lemma StoreThenLookup(entries: map<string, CacheEntry>, key: string, data: BookResult, t: int, now: int, other: string)
    requires other != key
    ensures CachedAt(entries[key := CacheEntry(data, t)], key, now) == (if now < t + CacheDuration then Some(data) else None)
    ensures CachedAt(entries[key := CacheEntry(data, t)], other, now) == CachedAt(entries, other, now)
  {
  }

  /** An entry served at some time was also served at every earlier time. */
  lemma FreshEarlier(entries: map<string, CacheEntry>, key: string, earlier: int, now: int)
    requires earlier <= now && CachedAt(entries, key, now).Some?
    ensures CachedAt(entries, key, earlier) == CachedAt(entries, key, now)
  {
  }

  /** How a request is answered, before the cache or the service is asked. */
  datatype Plan =
    | Preflight
    | KeyMissing
    | SearchParamMissing
    | InvalidEndpoint
    | Lookup(cacheKey: string, query: string)

  /** `pathname.split('/').filter(Boolean)`. */
  function PathParts(pathname: string): (r: seq<string>)
    ensures forall i :: 0 <= i < |r| ==> r[i] != "" && '/' !in r[i]
  {
    Filter(Split(pathname, '/'), (s: string) => s != "")
  }

  /** `parts.indexOf(x)`. */
  function IndexIn(parts: seq<string>, x: string): (r: int)
    ensures -1 <= r < |parts|
    ensures r >= 0 ==> parts[r] == x && forall k :: 0 <= k < r ==> parts[k] != x
    ensures r == -1 ==> x !in parts
  {
    if parts == [] then -1
    else if parts[0] == x then 0
    else
      var k := IndexIn(parts[1..], x);
      if k < 0 then -1 else k + 1
  }

  /** `parts[k]` is the first "google-books" segment. */
  predicate FirstSegmentAt(parts: seq<string>, k: int) {
    0 <= k < |parts| && parts[k] == "google-books" && "google-books" !in parts[..k]
  }

  /** The segments after the first "google-books", or all of them. */
  function ActualPath(parts: seq<string>): (r: seq<string>)
    ensures "google-books" !in parts ==> r == parts
    ensures "google-books" in parts ==> exists k :: FirstSegmentAt(parts, k) && r == parts[k + 1..]
  {
    var k := IndexIn(parts, "google-books");
    if k >= 0 then
      assert "google-books" !in parts[..k] by {
        forall j | 0 <= j < k ensures parts[..k][j] != "google-books" { }
      }
      assert FirstSegmentAt(parts, k);
      parts[k + 1..]
    else parts
  }

  /** The `q` of a title and author search: the non-empty ones, as
      `intitle:` and `inauthor:` terms joined by "+". */
  function SearchQuery(title: Option<string>, author: Option<string>): (r: string)
    ensures var t := StrOr(title, ""); var a := StrOr(author, "");
      && (t != "" && a != "" ==> r == "intitle:" + t + "+" + "inauthor:" + a)
      && (t != "" && a == "" ==> r == "intitle:" + t)
      && (t == "" && a != "" ==> r == "inauthor:" + a)
  {
    var t := StrOr(title, "");
    var a := StrOr(author, "");
    var parts := (if t != "" then ["intitle:" + t] else []) + (if a != "" then ["inauthor:" + a] else []);
    JoinSmall("intitle:" + t, "inauthor:" + a, "+");
    Join(parts, "+")
  }

  /** The request line and parameters the handler reads. */
  datatype Request = Request(httpMethod: string, pathname: string, title: Option<string>, author: Option<string>)

  /** The route of a path and its parameters: `isbn/<x>` looks up
      "isbn:<x>"; `search` needs a title or an author and looks up
      "search:<query>"; anything else is invalid. */
  function RouteOf(path: seq<string>, title: Option<string>, author: Option<string>): (r: Plan)
    ensures |path| >= 2 && path[0] == "isbn" && path[1] != "" ==> r == Lookup("isbn:" + path[1], "isbn:" + path[1])
    ensures !(|path| >= 2 && path[0] == "isbn" && path[1] != "") && |path| >= 1 && path[0] == "search" ==>
      if StrOr(title, "") == "" && StrOr(author, "") == "" then r == SearchParamMissing
      else r == Lookup("search:" + SearchQuery(title, author), SearchQuery(title, author))
    ensures r == InvalidEndpoint <==> !(|path| >= 2 && path[0] == "isbn" && path[1] != "") && !(|path| >= 1 && path[0] == "search")
  {
    if |path| >= 2 && path[0] == "isbn" && path[1] != "" then
      Lookup("isbn:" + path[1], "isbn:" + path[1])
    else if |path| >= 1 && path[0] == "search" then
      if StrOr(title, "") == "" && StrOr(author, "") == "" then SearchParamMissing
      else
        var query := SearchQuery(title, author);
        Lookup("search:" + query, query)
    else InvalidEndpoint
  }

  /** The route taken: preflight first, then the key check, then the path. */
  function PlanOf(req: Request, apiKey: Option<string>): (r: Plan)
    ensures req.httpMethod == "OPTIONS" ==> r == Preflight
    ensures req.httpMethod != "OPTIONS" && StrOr(apiKey, "") == "" ==> r == KeyMissing
    ensures req.httpMethod != "OPTIONS" && StrOr(apiKey, "") != "" ==>
      r == RouteOf(ActualPath(PathParts(req.pathname)), req.title, req.author)
  {
    if req.httpMethod == "OPTIONS" then Preflight
    else if StrOr(apiKey, "") == "" then KeyMissing
    else RouteOf(ActualPath(PathParts(req.pathname)), req.title, req.author)
  }

  /** The service's answer to `volumes?q=<query>`: a thrown error with
      its message, a non-ok status, or a body whose `items` may be missing. */
  datatype FetchReply = FetchThrew(message: string) | FetchNotOk(status: int) | FetchOk(items: Option<seq<VolumeData>>)

  /** The response: a status, and for a found book whether it came from
      the cache. */
  datatype Response = Response(status: int, book: Option<BookResult>, cached: bool, error: Option<string>)

  const KeyMissingError: string := "Google Books API key not configured"
  const SearchParamError: string := "Either title or author parameter is required"
  const InvalidEndpointError: string := "Invalid endpoint. Use /isbn/{isbn} or /search?title=...&author=..."
  const FetchFailedError: string := "Failed to fetch from Google Books API"
  const NotFoundError: string := "No books found"

  /** The answer and the cache afterwards when the cache does not hold the
      key: the service is asked, and only a found book is stored, at the
      time `storedAt` the answer came in. */
  function Fetched(entries: map<string, CacheEntry>, cacheKey: string, answer: FetchReply, storedAt: int): (Response, map<string, CacheEntry>) {
    match answer
    case FetchThrew(message) => (Response(500, None, false, Some(StrOr(Some(message), "Internal server error"))), entries)
    case FetchNotOk(status) => (Response(status, None, false, Some(FetchFailedError)), entries)
    case FetchOk(items) =>
      if items.None? || items.value == [] then (Response(404, None, false, Some(NotFoundError)), entries)
      else
        var book := ParseBookData(items.value[0]);
        (Response(200, Some(book), false, None), entries[cacheKey := CacheEntry(book, storedAt)])
  }

  /** The whole handler as a function of the cache before the request:
      the response and the cache after it. `now` is the clock when the
      cache is read, `storedAt` when a fetched book is stored. */
  function Handle(entries: map<string, CacheEntry>, req: Request, apiKey: Option<string>, now: int, storedAt: int, fetch: string -> FetchReply): (Response, map<string, CacheEntry>) {
    match PlanOf(req, apiKey)
    case Preflight => (Response(200, None, false, None), entries)
    case KeyMissing => (Response(500, None, false, Some(KeyMissingError)), entries)
    case SearchParamMissing => (Response(400, None, false, Some(SearchParamError)), entries)
    case InvalidEndpoint => (Response(400, None, false, Some(InvalidEndpointError)), entries)
    case Lookup(cacheKey, query) => Looked(entries, cacheKey, query, now, storedAt, fetch)
  }

  /** A lookup: a fresh cached book is answered as it is; otherwise the
      key is dropped and the service is asked. */
  function Looked(entries: map<string, CacheEntry>, cacheKey: string, query: string, now: int, storedAt: int, fetch: string -> FetchReply): (Response, map<string, CacheEntry>) {
    var hit := CachedAt(entries, cacheKey, now);
    if hit.Some? then (Response(200, hit, true, None), entries)
    else Fetched(AfterLookup(entries, cacheKey, now), cacheKey, fetch(query), storedAt)
  }

  /** A request that is not a lookup leaves the cache as it was. */
  lemma NonLookupKeepsCache(entries: map<string, CacheEntry>, req: Request, apiKey: Option<string>, now: int, storedAt: int, fetch: string -> FetchReply)
    requires !PlanOf(req, apiKey).Lookup?
    ensures Handle(entries, req, apiKey, now, storedAt, fetch).1 == entries
    ensures Handle(entries, req, apiKey, now, storedAt, fetch).0.status in {200, 400, 500}
  {
  }

  /** A lookup that brings no book (a 404 "No books found", a failed
      fetch or a thrown error) leaves its key out of the cache and every
      other entry as it was. */
  lemma NotFoundIsNotCached(entries: map<string, CacheEntry>, key: string, query: string, now: int, storedAt: int, fetch: string -> FetchReply)
    requires Looked(entries, key, query, now, storedAt, fetch).0.book.None?
    ensures Looked(entries, key, query, now, storedAt, fetch).1 == entries - {key}
    ensures fetch(query) == FetchOk(Some([])) ==> Looked(entries, key, query, now, storedAt, fetch).0 == Response(404, None, false, Some(NotFoundError))
  {
    assert CachedAt(entries, key, now).None?;
  }

  /** A book fetched from the service is stored under the lookup's key;
      asking again while it is fresh gives the same book from the cache,
      without asking the service, and changes nothing. */
  lemma RepeatIsCached(entries: map<string, CacheEntry>, key: string, query: string, now: int, storedAt: int,
                       fetch: string -> FetchReply, later: int, laterStored: int, fetch2: string -> FetchReply)
    requires Looked(entries, key, query, now, storedAt, fetch).0.book.Some?
    requires !Looked(entries, key, query, now, storedAt, fetch).0.cached
    requires later - storedAt < CacheDuration
    ensures var (first, after) := Looked(entries, key, query, now, storedAt, fetch);
      var (second, after2) := Looked(after, key, query, later, laterStored, fetch2);
      && after[key] == CacheEntry(first.book.value, storedAt)
      && second == first.(cached := true) && after2 == after
  {
    assert CachedAt(entries, key, now).None?;
    var answer := fetch(query);
    assert answer.FetchOk? && answer.items.Some? && answer.items.value != [];
    var book := ParseBookData(answer.items.value[0]);
    var after := AfterLookup(entries, key, now)[key := CacheEntry(book, storedAt)];
    assert Looked(entries, key, query, now, storedAt, fetch) == (Response(200, Some(book), false, None), after);
    assert CachedAt(after, key, later) == Some(book);
  }

  /** The edge function's cache. */
  class BookCache {
    var entries: map<string, CacheEntry>

    constructor ()
      ensures entries == map[]
    {
      entries := map[];
    }

    /** `getCached`: the fresh entry's data; otherwise the key is deleted. */
    method GetCached(key: string, now: int) returns (r: Option<BookResult>)
      modifies this
      ensures r == CachedAt(old(entries), key, now)
      ensures entries == AfterLookup(old(entries), key, now)
    {
      if key in entries && now - entries[key].timestamp < CacheDuration {
        r := Some(entries[key].data);
      } else {
        entries := entries - {key};
        r := None;
      }
    }

    /** `setCache`: the entry is stored, or replaced, with the time. */
    method SetCache(key: string, data: BookResult, now: int)
      modifies this
      ensures entries == old(entries)[key := CacheEntry(data, now)]
    {
      entries := entries[key := CacheEntry(data, now)];
    }

    /** The cache read, and on a miss the service call, of a lookup. */
    method ServeLookup(cacheKey: string, query: string, now: int, storedAt: int, fetch: string -> FetchReply) returns (resp: Response)
      modifies this
      ensures (resp, entries) == Looked(old(entries), cacheKey, query, now, storedAt, fetch)
    {
      var cached := GetCached(cacheKey, now);
      if cached.Some? {
        resp := Response(200, cached, true, None);
      } else {
        match fetch(query) {
          case FetchThrew(message) =>
            resp := Response(500, None, false, Some(StrOr(Some(message), "Internal server error")));
          case FetchNotOk(status) =>
            resp := Response(status, None, false, Some(FetchFailedError));
          case FetchOk(items) =>
            if items.None? || items.value == [] {
              resp := Response(404, None, false, Some(NotFoundError));
            } else {
              var book := ParseBookData(items.value[0]);
              SetCache(cacheKey, book, storedAt);
              resp := Response(200, Some(book), false, None);
            }
        }
      }
    }

    /** The `Deno.serve` handler. */
    method Serve(req: Request, apiKey: Option<string>, now: int, storedAt: int, fetch: string -> FetchReply) returns (resp: Response)
      modifies this
      ensures (resp, entries) == Handle(old(entries), req, apiKey, now, storedAt, fetch)
    {
      var plan := PlanOf(req, apiKey);
      match plan {
        case Preflight => resp := Response(200, None, false, None);
        case KeyMissing => resp := Response(500, None, false, Some(KeyMissingError));
        case SearchParamMissing => resp := Response(400, None, false, Some(SearchParamError));
        case InvalidEndpoint => resp := Response(400, None, false, Some(InvalidEndpointError));
        case Lookup(cacheKey, query) => resp := ServeLookup(cacheKey, query, now, storedAt, fetch);
      }
    }
  }
}
