/** lib/open-library.ts: catalog search and lookup against Open Library,
    with its records converted to the Google shape the rest of the
    application reads. The service is the `reply` oracle. */
module OpenLibrary {
  import opened Wrappers
  import opened Text
  import opened Js
  import opened Db

  const CoverPrefix: string := "https://covers.openlibrary.org/b/id/"
  const CoverSuffix: string := "-L.jpg"

  /** One document of a `search.json` answer. */
  datatype SearchDoc = SearchDoc(
    key: string,
    title: Option<string>,
    authorName: Option<seq<string>>,
    firstPublishYear: Option<int>,
    coverI: Option<int>,
    subject: Option<seq<string>>,
    numberOfPagesMedian: Option<int>)

  /** The large cover image of a cover id, or "" when the id is missing or 0. */
  function CoverUrl(coverId: Option<int>): (r: string)
    ensures coverId.None? || coverId.value == 0 <==> r == ""
  {
    if coverId.Some? && coverId.value != 0 then CoverPrefix + IntToString(coverId.value) + CoverSuffix else ""
  }

  /** A positive cover id can be read back from its cover link. */
  lemma CoverUrlRoundTrip(id: nat)
    requires id > 0
    ensures var url := CoverUrl(Some(id));
      |url| > |CoverPrefix| + |CoverSuffix|
      && url[..|CoverPrefix|] == CoverPrefix
      && url[|url| - |CoverSuffix|..] == CoverSuffix
      && (forall i :: |CoverPrefix| <= i < |url| - |CoverSuffix| ==> '0' <= url[i] <= '9')
      && DecimalValue(url[|CoverPrefix|..|url| - |CoverSuffix|]) == id
  {
    var digits := NatToString(id);
    var url := CoverPrefix + digits + CoverSuffix;
    assert CoverUrl(Some(id)) == url;
    assert url[|CoverPrefix|..|url| - |CoverSuffix|] == digits;
    DecimalRoundTrip(id);
  }

  /** `subjects?.slice(0, 3) || ['General']`: an empty list is kept. */
  function Categories(subjects: Option<seq<string>>): (r: seq<string>)
    ensures subjects.None? ==> r == ["General"]
    ensures subjects.Some? ==> |r| == if |subjects.value| < 3 then |subjects.value| else 3
    ensures subjects.Some? ==> r == subjects.value[..|r|]
  {
    if subjects.Some? then Prefix(subjects.value, 3) else ["General"]
  }

  const OpenLibrarySource: string := "openlibrary"

  /** `convertToGoogleBookFormat`. */
  function ConvertToGoogleBookFormat(doc: SearchDoc): (r: GoogleBook)
    ensures r.id == doc.key && r.source == Some(OpenLibrarySource)
    ensures r.volumeInfo.title == Some(StrOr(doc.title, "Unknown Title"))
    ensures r.volumeInfo.authors == Some(ListOr(doc.authorName, ["Unknown Author"]))
    ensures r.volumeInfo.categories == Some(Categories(doc.subject))
    ensures r.volumeInfo.pageCount == Some(IntOr(doc.numberOfPagesMedian, 0))
    ensures r.volumeInfo.imageLinks == Some(ImageLinks(Some(CoverUrl(doc.coverI)), None))
    ensures r.volumeInfo.description == Some("")
    ensures r.volumeInfo.publishedDate == Some(if doc.firstPublishYear.Some? then IntToString(doc.firstPublishYear.value) else "")
  {
    GoogleBook(
      doc.key,
      VolumeInfo(
        Some(StrOr(doc.title, "Unknown Title")),
        Some(ListOr(doc.authorName, ["Unknown Author"])),
        Some(""),
        Some(Categories(doc.subject)),
        Some(ImageLinks(Some(CoverUrl(doc.coverI)), None)),
        Some(IntOr(doc.numberOfPagesMedian, 0)),
        Some(if doc.firstPublishYear.Some? then IntToString(doc.firstPublishYear.value) else "")),
      Some(OpenLibrarySource))
  }

  /** `docs.map(convertToGoogleBookFormat)`. */
  function ConvertAll(docs: seq<SearchDoc>): (r: seq<GoogleBook>)
    ensures |r| == |docs|
    ensures forall i :: 0 <= i < |docs| ==> r[i] == ConvertToGoogleBookFormat(docs[i])
  {
    seq(|docs|, i requires 0 <= i < |docs| => ConvertToGoogleBookFormat(docs[i]))
  }

  /** The parameters of `GET /search.json`; the `fields` list is fixed. */
  datatype SearchRequest = SearchRequest(q: string, limit: int)

  /** A failed fetch, a non-ok status, or a body whose `docs` may be
      missing (reading it then throws, and the error is caught). */
  datatype SearchReply = SearchFailed | SearchNotOk | SearchOk(docs: Option<seq<SearchDoc>>)

  datatype Search = Search(request: Option<SearchRequest>, books: seq<GoogleBook>)

  /** `searchOpenLibrary`: a blank query gives [] without a request; an
      ok answer gives every document converted, in order; any failure []. */
  function SearchOpenLibrary(query: string, limit: int, reply: SearchRequest -> SearchReply): (r: Search)
    ensures r.request.None? <==> AllSpace(query)
    ensures r.request.None? ==> r.books == []
    ensures r.request.Some? ==> r.request.value == SearchRequest(query, limit)
    ensures r.request.Some? ==>
      var answer := reply(r.request.value);
      r.books == if answer.SearchOk? && answer.docs.Some? then ConvertAll(answer.docs.value) else []
  {
    TrimEmptyIffAllSpace(query);
    if Trim(query) == "" then Search(None, [])
    else
      var request := SearchRequest(query, limit);
      match reply(request)
      case SearchOk(Some(docs)) =>
        Search(Some(request), ConvertAll(docs))
      case _ => Search(Some(request), [])
  }

  /** Every record a search returns is marked as an Open Library record. */
  lemma SearchResultsAreOpenLibrary(query: string, limit: int, reply: SearchRequest -> SearchReply)
    ensures forall b :: b in SearchOpenLibrary(query, limit, reply).books ==> b.source == Some(OpenLibrarySource)
  {
  }

  /** A work's `description`: plain text, or an object with a `value`. */
  datatype Description = DescriptionText(text: string) | DescriptionObject(value: Option<string>)

  /** The body of `GET <workId>.json`. */
  datatype WorkDetails = WorkDetails(
    title: Option<string>,
    authorNames: Option<seq<string>>,
    subjects: Option<seq<string>>,
    description: Option<Description>,
    covers: Option<seq<int>>,
    numberOfPages: Option<int>,
    firstPublishDate: Option<string>)

  datatype WorkReply = WorkFailed | WorkNotOk | WorkOk(details: WorkDetails)

  /** `getOpenLibraryBookDetails`: the details of an ok answer, null on any
      failure. The request is the work id. */
  function GetOpenLibraryBookDetails(workId: string, reply: string -> WorkReply): (r: Option<WorkDetails>)
    ensures (r.Some? <==> reply(workId).WorkOk?) && (r.Some? ==> r.value == reply(workId).details)
  {
    match reply(workId)
    case WorkOk(details) => Some(details)
    case _ => None
  }

  /** The description `enrichWithOpenLibraryDetails` keeps: a text as it
      is, an object's `value` (missing when the object has none), and ""
      when the description is missing or the empty text. */
  function DescriptionOf(d: Option<Description>): (r: Option<string>)
    ensures d.None? ==> r == Some("")
    ensures d.Some? && d.value.DescriptionText? ==> r == Some(d.value.text)
    ensures d.Some? && d.value.DescriptionObject? ==> r == d.value.value
  {
    match d
    case None => Some("")
    case Some(DescriptionText(text)) => if text == "" then Some("") else Some(text)
    case Some(DescriptionObject(value)) => value
  }

  /** `enrichWithOpenLibraryDetails`: null when the details cannot be had;
      otherwise a record in the Google shape under the asked-for id. */
  function EnrichWithOpenLibraryDetails(workId: string, reply: string -> WorkReply): (r: Option<GoogleBook>)
    ensures r.None? <==> GetOpenLibraryBookDetails(workId, reply).None?
    ensures r.Some? ==> r.value.id == workId && r.value.source == Some(OpenLibrarySource)
    ensures r.Some? ==>
      var d := GetOpenLibraryBookDetails(workId, reply).value;
      && r.value.volumeInfo.title == Some(StrOr(d.title, "Unknown Title"))
      && r.value.volumeInfo.authors == Some(ListOr(d.authorNames, ["Unknown Author"]))
      && r.value.volumeInfo.categories == Some(Categories(d.subjects))
      && r.value.volumeInfo.pageCount == Some(IntOr(d.numberOfPages, 0))
      && r.value.volumeInfo.description == DescriptionOf(d.description)
      && r.value.volumeInfo.imageLinks == Some(ImageLinks(Some(CoverUrl(FirstOf(d.covers))), None))
      && r.value.volumeInfo.publishedDate == Some(StrOr(d.firstPublishDate, ""))
  {
    match GetOpenLibraryBookDetails(workId, reply)
    case None => None
    case Some(d) =>
      Some(GoogleBook(
        workId,
        VolumeInfo(
          Some(StrOr(d.title, "Unknown Title")),
          Some(ListOr(d.authorNames, ["Unknown Author"])),
          DescriptionOf(d.description),
          Some(Categories(d.subjects)),
          Some(ImageLinks(Some(CoverUrl(FirstOf(d.covers))), None)),
          Some(IntOr(d.numberOfPages, 0)),
          Some(StrOr(d.firstPublishDate, ""))),
        Some(OpenLibrarySource)))
  }

  /** The enriched cover is the first cover id's image, or "" when the work
      lists no covers (or a first id of 0). */
  lemma EnrichedCover(workId: string, reply: string -> WorkReply)
    requires reply(workId).WorkOk?
    ensures var covers := reply(workId).details.covers;
      var cover := EnrichWithOpenLibraryDetails(workId, reply).value.volumeInfo.imageLinks.value.thumbnail.value;
      (covers.Some? && |covers.value| > 0 && covers.value[0] != 0 ==>
         cover == CoverPrefix + IntToString(covers.value[0]) + CoverSuffix)
      && (covers.None? || covers.value == [] ==> cover == "")
  {
  }
}
