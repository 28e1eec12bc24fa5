/** components/BookCard.tsx: what a shelf card offers for one of the
    user's books — the move menu, the progress entry and the badges. */
module BookCard {
  import opened Wrappers
  import opened Seqs
  import opened Db

  /** `statusLabels`. */
  function StatusLabel(s: BookStatus): (r: string)
    ensures r != ""
  {
    match s
    case WantToRead => "Want to Read"
    case CurrentlyReading => "Currently Reading"
    case Finished => "Finished"
  }

  /** Different shelves carry different labels. */
  lemma StatusLabelsDistinct(s: BookStatus, t: BookStatus)
    requires s != t
    ensures StatusLabel(s) != StatusLabel(t)
  {
  }

  /** `otherStatuses`: the shelves a book can move to, in the fixed order. */
  function OtherStatuses(current: BookStatus): (r: seq<BookStatus>)
    ensures current !in r
    ensures forall t :: t != current ==> t in r
    ensures IsSubsequence(r, AllStatuses)
  {
    FilterIsSubsequence(AllStatuses, (s: BookStatus) => s != current);
    assert forall t :: t in AllStatuses;
    Filter(AllStatuses, (s: BookStatus) => s != current)
  }

  /** The menu always offers exactly two moves. */
  lemma OtherStatusesTwo(current: BookStatus)
    ensures |OtherStatuses(current)| == 2
  {
    var r := OtherStatuses(current);
    assert |r| <= 3;
    match current
    case WantToRead =>
      assert r == [CurrentlyReading, Finished];
    case CurrentlyReading =>
      assert r == [WantToRead, Finished];
    case Finished =>
      assert r == [WantToRead, CurrentlyReading];
  }

  /** The progress sent from the dialog: the parsed number (0 when the
      input does not parse) held to 0..100. */
  function ClampProgress(parsed: Option<int>): (r: int)
    ensures 0 <= r <= 100
    ensures parsed.Some? && 0 <= parsed.value <= 100 ==> r == parsed.value
    ensures parsed.Some? && parsed.value > 100 ==> r == 100
    ensures parsed.None? || parsed.value < 0 ==> r == 0
  {
    var v := if parsed.Some? then parsed.value else 0;
    var capped := if v < 100 then v else 100;
    if capped > 0 then capped else 0
  }

  datatype MenuItem = MoveTo(status: BookStatus) | UpdateProgress | Remove

  /** One "Move to" item per shelf, in order. */
  function MoveItems(targets: seq<BookStatus>): (r: seq<MenuItem>)
    ensures forall t :: MoveTo(t) in r <==> t in targets
    ensures UpdateProgress !in r && Remove !in r
  {
    if targets == [] then [] else [MoveTo(targets[0])] + MoveItems(targets[1..])
  }

  /** The card menu: the moves, "Update Progress" for a book being read
      when the shelf handles progress, and "Remove" last. */
  function Menu(status: BookStatus, handlesProgress: bool): (r: seq<MenuItem>)
    ensures UpdateProgress in r <==> status == CurrentlyReading && handlesProgress
    ensures |r| > 0 && r[|r| - 1] == Remove
    ensures forall t :: MoveTo(t) in r <==> t != status
  {
    MoveItems(OtherStatuses(status)) + (if status == CurrentlyReading && handlesProgress then [UpdateProgress] else []) + [Remove]
  }

  /** The progress bar shows for a book being read with some progress. */
  predicate ShowsProgressBar(ub: UserBookRow) {
    ub.status == CurrentlyReading && ub.progressPercent > 0
  }

  /** The mood badges: at most the first two moods of the analytics. */
  function ShownMoods(analytics: Option<AIAnalytics>): (r: seq<string>)
    ensures |r| <= 2
    ensures analytics.Some? ==> |r| <= |analytics.value.moods|
    ensures analytics.None? ==> r == []
    ensures analytics.Some? ==> r == analytics.value.moods[..|r|]
    ensures analytics.Some? && |analytics.value.moods| >= 2 ==> |r| == 2
  {
    if analytics.None? then []
    else if |analytics.value.moods| <= 2 then analytics.value.moods
    else analytics.value.moods[..2]
  }
}
