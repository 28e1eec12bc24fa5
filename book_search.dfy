/** lib/book-search.ts: one search over both catalogs, merged and
    deduplicated; details fetched from whichever catalog an id belongs
    to; and the `books` row a catalog record is stored as. */
module BookSearch {
  import opened Wrappers
  import opened Text
  import opened Js
  import opened Db
  import GoogleBooks
  import OpenLibrary

  /** The merge key: lower-cased title, "-", lower-cased first author,
      a missing part counting as "". */
  function DedupKey(b: GoogleBook): string {
    Lower(b.volumeInfo.title.GetOr("")) + "-" + Lower(FirstOf(b.volumeInfo.authors).GetOr(""))
  }

  function KeySet(xs: seq<GoogleBook>): set<string> {
    set i | 0 <= i < |xs| :: DedupKey(xs[i])
  }

  lemma KeySetSnoc(xs: seq<GoogleBook>, x: GoogleBook)
    ensures KeySet(xs + [x]) == KeySet(xs) + {DedupKey(x)}
  {
    assert (xs + [x])[|xs|] == x;
    forall k | k in KeySet(xs) ensures k in KeySet(xs + [x]) {
      var i :| 0 <= i < |xs| && DedupKey(xs[i]) == k;
      assert (xs + [x])[i] == xs[i];
    }
  }

  /** What the `uniqueBooks` map holds after the records are visited in
      order: a record is kept when no earlier kept record has its key. */
  function Dedup(xs: seq<GoogleBook>): seq<GoogleBook> {
    if xs == [] then []
    else
      var d := Dedup(xs[..|xs| - 1]);
      if DedupKey(xs[|xs| - 1]) in KeySet(d) then d else d + [xs[|xs| - 1]]
  }

  /** `xs[i]` is the first record of `xs` with its key. */
  predicate FirstOfKey(xs: seq<GoogleBook>, i: int)
    requires 0 <= i < |xs|
  {
    forall k :: 0 <= k < i ==> DedupKey(xs[k]) != DedupKey(xs[i])
  }

  /** The first record of each key, in the order the keys first appear. */
  function FirstOccurrences(xs: seq<GoogleBook>): (r: seq<GoogleBook>)
    ensures forall j :: 0 <= j < |r| ==> r[j] in xs
  {
    if xs == [] then []
    else
      var n := |xs| - 1;
      FirstOccurrences(xs[..n]) + (if FirstOfKey(xs, n) then [xs[n]] else [])
  }

  /** Merging loses no key. */
  lemma {:induction false} DedupKeySet(xs: seq<GoogleBook>)
    ensures KeySet(Dedup(xs)) == KeySet(xs)
  {
    if xs != [] {
      var n := |xs| - 1;
      assert xs == xs[..n] + [xs[n]];
      DedupKeySet(xs[..n]);
      KeySetSnoc(xs[..n], xs[n]);
      KeySetSnoc(Dedup(xs[..n]), xs[n]);
    }
  }

  /** The merge holds one record per distinct key. */
  lemma {:induction false} DedupSize(xs: seq<GoogleBook>)
    ensures |Dedup(xs)| == |KeySet(xs)|
  {
    if xs != [] {
      var n := |xs| - 1;
      assert xs == xs[..n] + [xs[n]];
      DedupSize(xs[..n]);
      DedupKeySet(xs[..n]);
      KeySetSnoc(xs[..n], xs[n]);
      var d, k := Dedup(xs[..n]), DedupKey(xs[n]);
      if k in KeySet(d) {
        assert KeySet(xs) == KeySet(xs[..n]);
      } else {
        assert Dedup(xs) == d + [xs[n]];
        assert KeySet(xs) == KeySet(xs[..n]) + {k} && k !in KeySet(xs[..n]);
      }
    }
  }

  /** No two records of `r` share a key. */
  predicate UniqueKeys(r: seq<GoogleBook>) {
    forall i, j :: 0 <= i < j < |r| ==> DedupKey(r[i]) != DedupKey(r[j])
  }

  /** No two merged records share a key. */
  lemma {:induction false} DedupUnique(xs: seq<GoogleBook>)
    ensures UniqueKeys(Dedup(xs))
  {
    if xs != [] {
      var n := |xs| - 1;
      DedupUnique(xs[..n]);
      var d := Dedup(xs[..n]);
      if DedupKey(xs[n]) !in KeySet(d) {
        var r := d + [xs[n]];
        assert Dedup(xs) == r;
        forall i, j | 0 <= i < j < |r| ensures DedupKey(r[i]) != DedupKey(r[j]) {
          assert r[i] == d[i];
          if j == |d| {
            assert r[j] == xs[n];
            assert DedupKey(d[i]) in KeySet(d);
          } else {
            assert r[j] == d[j];
          }
        }
      }
    }
  }

  /** The first record of a key wins, and the merged order is the order in
      which keys first appear: merging is taking first occurrences. */
  lemma {:induction false} DedupIsFirstOccurrences(xs: seq<GoogleBook>)
    ensures Dedup(xs) == FirstOccurrences(xs)
  {
    if xs != [] {
      var n := |xs| - 1;
      var p := xs[..n];
      DedupIsFirstOccurrences(p);
      DedupKeySet(p);
      if FirstOfKey(xs, n) {
        forall i | 0 <= i < n ensures DedupKey(p[i]) != DedupKey(xs[n]) {
          assert p[i] == xs[i];
        }
      } else {
        var k :| 0 <= k < n && DedupKey(xs[k]) == DedupKey(xs[n]);
        assert p[k] == xs[k];
      }
    }
  }

  /** `slice(0, end)`: a negative end counts back from the length. */
  function Slice(xs: seq<GoogleBook>, end: int): (r: seq<GoogleBook>)
    ensures |r| == if end >= 0 then (if end < |xs| then end else |xs|) else (if |xs| + end >= 0 then |xs| + end else 0)
    ensures r == xs[..|r|]
  {
    if end >= 0 then Prefix(xs, end)
    else if |xs| + end >= 0 then xs[..|xs| + end]
    else []
  }

  /** The merged result of the two lists: no key twice, exactly
      `maxResults` records when the lists hold that many keys (all of the
      keys otherwise), each a record of one of the lists. */
  lemma MergeBounds(googleResults: seq<GoogleBook>, openLibraryResults: seq<GoogleBook>, maxResults: int)
    ensures var r := Slice(Dedup(googleResults + openLibraryResults), maxResults);
      && (0 <= maxResults ==> |r| == if maxResults <= |KeySet(googleResults + openLibraryResults)| then maxResults
                                     else |KeySet(googleResults + openLibraryResults)|)
      && UniqueKeys(r)
      && (forall i :: 0 <= i < |r| ==> r[i] in googleResults || r[i] in openLibraryResults)
  {
    var combined := googleResults + openLibraryResults;
    var d := Dedup(combined);
    var r := Slice(d, maxResults);
    DedupUnique(combined);
    DedupSize(combined);
    DedupIsFirstOccurrences(combined);
    forall i | 0 <= i < |r| ensures r[i] in googleResults || r[i] in openLibraryResults {
      assert r[i] == d[i];
      assert d[i] in combined;
    }
  }

  /** The `forEach` over the combined records: a record is put in the
      map, after the records already there, when its key is not yet
      present. */
  method MergeUnique(combined: seq<GoogleBook>) returns (unique: seq<GoogleBook>)
    ensures unique == Dedup(combined)
  {
    var seen: set<string> := {};
    unique := [];
    for i := 0 to |combined|
      invariant unique == Dedup(combined[..i])
      invariant seen == KeySet(unique)
    {
      var book := combined[i];
      assert combined[..i + 1][..i] == combined[..i];
      var key := DedupKey(book);
      if key !in seen {
        KeySetSnoc(unique, book);
        unique := unique + [book];
        seen := seen + {key};
      }
    }
    assert combined[..|combined|] == combined;
  }

  /** `searchAllBooks`: both catalogs are asked for half of `maxResults`
      (rounded down), the Google records come first, and the records are
      merged by key and cut to `maxResults`. The two searches run
      concurrently by the app; only their results matter here. */
  method SearchAllBooks(
    query: string, maxResults: int, apiKey: Option<string>,
    googleReply: GoogleBooks.SearchRequest -> GoogleBooks.SearchReply,
    openLibraryReply: OpenLibrary.SearchRequest -> OpenLibrary.SearchReply)
    returns (results: seq<GoogleBook>)
    ensures var half := maxResults / 2;
      results == Slice(Dedup(GoogleBooks.SearchBooks(query, half, apiKey, googleReply).books
                             + OpenLibrary.SearchOpenLibrary(query, half, openLibraryReply).books), maxResults)
  {
    var half := maxResults / 2;
    var googleResults := GoogleBooks.SearchBooks(query, half, apiKey, googleReply).books;
    var openLibraryResults := OpenLibrary.SearchOpenLibrary(query, half, openLibraryReply).books;
    var unique := MergeUnique(googleResults + openLibraryResults);
    results := Slice(unique, maxResults);
  }

  /** An id is looked up in Open Library when its record says so or it is
      an Open Library work key. */
  predicate RoutesToOpenLibrary(bookId: string, source: Option<string>) {
    source == Some(OpenLibrary.OpenLibrarySource) || StartsWith(bookId, "/works/")
  }

  /** `getBookDetailsFromAnySource`. */
  function GetBookDetailsFromAnySource(
    bookId: string, source: Option<string>, apiKey: Option<string>,
    googleReply: GoogleBooks.DetailsRequest -> GoogleBooks.DetailsReply,
    workReply: string -> OpenLibrary.WorkReply): (r: Option<GoogleBook>)
    ensures RoutesToOpenLibrary(bookId, source) ==> r == OpenLibrary.EnrichWithOpenLibraryDetails(bookId, workReply)
    ensures !RoutesToOpenLibrary(bookId, source) ==> r == GoogleBooks.GetBookDetails(bookId, apiKey, googleReply)
  {
    if source == Some(OpenLibrary.OpenLibrarySource) || StartsWith(bookId, "/works/") then
      OpenLibrary.EnrichWithOpenLibraryDetails(bookId, workReply)
    else
      GoogleBooks.GetBookDetails(bookId, apiKey, googleReply)
  }

  /** A record found by an Open Library search is looked up in Open
      Library again, under its own id, whatever its key looks like. */
  lemma OpenLibraryRecordsRouteBack(doc: OpenLibrary.SearchDoc)
    ensures var b := OpenLibrary.ConvertToGoogleBookFormat(doc);
      RoutesToOpenLibrary(b.id, b.source)
  {
  }

  /** `formatBookForDatabase`: the `books` row of a catalog record. */
  function FormatBookForDatabase(b: GoogleBook): (r: BookFields)
    ensures b.source == Some(OpenLibrary.OpenLibrarySource) ==> r.openLibraryId == Some(b.id) && r.googleBooksId.None?
    ensures b.source != Some(OpenLibrary.OpenLibrarySource) ==> r.googleBooksId == Some(b.id) && r.openLibraryId.None?
    ensures r.title == StrOr(b.volumeInfo.title, "Unknown Title")
    ensures r.author == Some(StrOr(FirstOf(b.volumeInfo.authors), "Unknown Author"))
    ensures r.genre == Some(StrOr(FirstOf(b.volumeInfo.categories), "General"))
    ensures r.moodTags == Some(ListOr(b.volumeInfo.categories, []))
    ensures r.length == Some(IntOr(b.volumeInfo.pageCount, 0)) && r.pageCount.None?
    ensures r.coverUrl == Some(GoogleBooks.SecureThumbnail(b.volumeInfo.imageLinks))
    ensures r.description == Some(StrOr(b.volumeInfo.description, ""))
  {
    var v := b.volumeInfo;
    var isOpenLibrary := b.source == Some(OpenLibrary.OpenLibrarySource);
    BookFields(
      if isOpenLibrary then None else Some(b.id),
      if isOpenLibrary then Some(b.id) else None,
      StrOr(v.title, "Unknown Title"),
      Some(StrOr(FirstOf(v.authors), "Unknown Author")),
      Some(StrOr(FirstOf(v.categories), "General")),
      Some(ListOr(v.categories, [])),
      Some(IntOr(v.pageCount, 0)),
      None,
      Some(GoogleBooks.SecureThumbnail(v.imageLinks)),
      Some(StrOr(v.description, "")))
  }

  /** A stored row names its catalog record by exactly one id. Looked up
      again with the record's source tag, an Open Library id goes back to
      Open Library, and a Google id goes back to Google unless it happens
      to start with "/works/". */
  lemma StoredIdRoutesBack(b: GoogleBook)
    ensures var r := FormatBookForDatabase(b);
      (r.googleBooksId.Some? != r.openLibraryId.Some?)
      && (r.openLibraryId.Some? ==> RoutesToOpenLibrary(r.openLibraryId.value, b.source))
      && (r.googleBooksId.Some? ==> (RoutesToOpenLibrary(r.googleBooksId.value, b.source) <==> StartsWith(b.id, "/works/")))
  {
  }
}
