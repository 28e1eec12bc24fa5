/** Locating JSON inside the free text a language model returns.

    Two regular expressions of the script are modelled exactly:
    - `/\[[\s\S]*\]/` (and `/\{[\s\S]*\}/`): greedy, so the match runs from
      the FIRST opening bracket to the LAST closing bracket, and it exists
      only when some closing bracket follows the first opening one;
    - `/```json\s*(\[[\s\S]*?\])\s*```/`: the leftmost "```json" fence whose
      optional white space is followed by `[`, with the LAZY group ending
      at the first `]` that is followed by optional white space and "```".
    Parsing the located text is left to an oracle by the callers. */
module Extract {
  import opened Wrappers
  import opened Text

  /** `s[i..j + 1]` is the greedy bracket match: `i` is the first `open`,
      `j` the last `close`, and `j` comes after `i`. */
  predicate GreedySpanAt(s: string, open: char, close: char, i: int, j: int) {
    && 0 <= i < j < |s| && s[i] == open && s[j] == close
    && (forall k :: 0 <= k < i ==> s[k] != open)
    && (forall k :: j < k < |s| ==> s[k] != close)
  }

  /** The text matched by `/\[[\s\S]*\]/` (with `open`/`close` for the brackets). */
  function GreedySpan(s: string, open: char, close: char): (r: Option<string>)
    ensures r.Some? <==> exists i, j :: 0 <= i < j < |s| && s[i] == open && s[j] == close
    ensures r.Some? ==> exists i, j :: GreedySpanAt(s, open, close, i, j) && r.value == s[i..j + 1]
  {
    var i := IndexOf(s, open);
    var j := LastIndexOf(s, close);
    if 0 <= i < j then
      assert GreedySpanAt(s, open, close, i, j);
      Some(s[i..j + 1])
    else
      assert forall a, b :: 0 <= a < b < |s| && s[a] == open && s[b] == close ==> i <= a && b <= j;
      None
  }

  /** The greedy span starts with the opening and ends with the closing bracket. */
  lemma GreedySpanDelimited(s: string, open: char, close: char)
    requires GreedySpan(s, open, close).Some?
    ensures var v := GreedySpan(s, open, close).value;
      |v| >= 2 && v[0] == open && v[|v| - 1] == close
  {
    var i, j :| GreedySpanAt(s, open, close, i, j) && GreedySpan(s, open, close).value == s[i..j + 1];
  }

  const FenceOpen: string := "```json"
  const Fence: string := "```"

  /** The end of the run of white space that starts at `k` (what `\s*` consumes). */
  function SkipSpace(s: string, k: nat): (r: nat)
    requires k <= |s|
    ensures k <= r <= |s|
    ensures forall m :: k <= m < r ==> IsSpace(s[m])
    ensures r == |s| || !IsSpace(s[r])
    decreases |s| - k
  {
    if k < |s| && IsSpace(s[k]) then SkipSpace(s, k + 1) else k
  }

  /** A `]` at `e` followed by optional white space and a closing fence. */
  predicate ClosesFence(s: string, e: int) {
    0 <= e < |s| && s[e] == ']' && Occurs(s, Fence, SkipSpace(s, e + 1))
  }

  /** The first position at or after `k` where the lazy group can end. */
  function LazyClose(s: string, k: nat): (r: Option<nat>)
    requires k <= |s|
    ensures r.Some? ==> k <= r.value < |s| && ClosesFence(s, r.value)
    ensures r.Some? ==> forall m :: k <= m < r.value ==> !ClosesFence(s, m)
    ensures r.None? ==> forall m :: k <= m < |s| ==> !ClosesFence(s, m)
    decreases |s| - k
  {
    if k == |s| then None
    else if ClosesFence(s, k) then Some(k)
    else LazyClose(s, k + 1)
  }

  /** The fenced expression matches with its fence at `p`: "```json",
      white space, a `[` where the white space ends, and after it a `]`
      followed by white space and "```" (the group ends at the first such
      `]`, which LazyClose finds). */
  predicate MatchesAt(s: string, p: int) {
    && Occurs(s, FenceOpen, p)
    && var b := SkipSpace(s, p + |FenceOpen|);
    && b < |s| && s[b] == '['
    && LazyClose(s, b + 1).Some?
  }

  /** Group 1 of the match that starts at `p`: from the `[` to the first
      `]` after it that a closing fence follows. */
  function GroupAt(s: string, p: int): (r: string)
    requires MatchesAt(s, p)
    ensures |r| >= 2 && r[0] == '[' && r[|r| - 1] == ']'
  {
    var b := SkipSpace(s, p + |FenceOpen|);
    s[b..LazyClose(s, b + 1).value + 1]
  }

  /** The leftmost match at or after `p`. */
  function FencedFrom(s: string, p: nat): (r: Option<string>)
    requires p <= |s|
    ensures r.None? ==> forall q :: p <= q <= |s| ==> !MatchesAt(s, q)
    ensures r.Some? ==> exists q :: (p <= q <= |s| && MatchesAt(s, q) && r.value == GroupAt(s, q)
      && forall q' :: p <= q' < q ==> !MatchesAt(s, q'))
    decreases |s| - p
  {
    if MatchesAt(s, p) then Some(GroupAt(s, p))
    else if p == |s| then None
    else
      var r := FencedFrom(s, p + 1);
      if r.Some? then
        var q :| p + 1 <= q <= |s| && MatchesAt(s, q) && r.value == GroupAt(s, q)
          && forall q' :: p + 1 <= q' < q ==> !MatchesAt(s, q');
        assert forall q' :: p <= q' < q ==> !MatchesAt(s, q');
        r
      else
        r
  }

  /** The regular expression matches first at `p`. */
  predicate LeftmostMatch(s: string, p: int) {
    MatchesAt(s, p) && forall q :: 0 <= q < p ==> !MatchesAt(s, q)
  }

  /** Group 1 of `/```json\s*(\[[\s\S]*?\])\s*```/`: there is one exactly
      when the expression matches somewhere, and it is the group of the
      leftmost match. */
  function FencedArray(s: string): (r: Option<string>)
    ensures r.None? <==> forall p :: !MatchesAt(s, p)
    ensures forall p :: LeftmostMatch(s, p) ==> r == Some(GroupAt(s, p))
  {
    var r := FencedFrom(s, 0);
    if r.Some? then
      var q :| 0 <= q <= |s| && MatchesAt(s, q) && r.value == GroupAt(s, q)
        && forall q' :: 0 <= q' < q ==> !MatchesAt(s, q');
      assert forall p :: LeftmostMatch(s, p) ==> p == q;
      r
    else
      r
  }

  /** What the provider check extracts: the fenced array when there is one,
      otherwise the greedy bracket span, otherwise nothing. */
  function ExtractJsonArray(s: string): (r: Option<string>)
    ensures FencedArray(s).Some? ==> r == FencedArray(s)
    ensures FencedArray(s).None? ==> r == GreedySpan(s, '[', ']')
  {
    match FencedArray(s)
    case Some(g) => Some(g)
    case None => GreedySpan(s, '[', ']')
  }

  /** The layout of a fenced array, stated on positions: `pre` fills
      `[0, p)`, "```json\n[" follows, then the `n` characters of the
      array's body, then "]\n```". */
  predicate FencedLayout(s: string, p: int, n: int) {
    && 0 <= p && 0 <= n && p + 14 + n <= |s|
    && (forall i :: 0 <= i < p ==> s[i] != '`')
    && s[p..p + 7] == FenceOpen && s[p + 7] == '\n' && s[p + 8] == '['
    && (forall i :: p + 9 <= i < p + 9 + n ==> s[i] != '`')
    && s[p + 9 + n] == ']' && s[p + 10 + n] == '\n'
    && s[p + 11 + n..p + 14 + n] == Fence
  }

  /** The white space runs of the layout: one newline after each fence half. */
  lemma LayoutSpaces(s: string, p: int, n: int)
    requires FencedLayout(s, p, n)
    ensures SkipSpace(s, p + 7) == p + 8
    ensures SkipSpace(s, p + 10 + n) == p + 11 + n
  {
    assert SkipSpace(s, p + 8) == p + 8;
    assert s[p + 11 + n] == '`';
    assert SkipSpace(s, p + 11 + n) == p + 11 + n;
  }

  /** The lazy group of the layout closes at the `]` after the body: no `]`
      inside the body is followed by a fence, as the body has no backquote. */
  lemma {:induction false} LayoutCloses(s: string, p: int, n: int)
    requires FencedLayout(s, p, n)
    ensures LazyClose(s, p + 9) == Some(p + 9 + n)
  {
    var e := p + 9 + n;
    LayoutSpaces(s, p, n);
    assert ClosesFence(s, e);
    forall m | p + 8 < m < e ensures !ClosesFence(s, m) {
      var t := SkipSpace(s, m + 1);
      if t < e { assert s[t] != '`'; }
    }
  }

  /** No fence opens at a position that does not hold a backquote. */
  lemma NoFenceOpenAt(s: string, q: int)
    requires 0 <= q < |s| && s[q] != '`'
    ensures !MatchesAt(s, q)
  {
  }

  /** The fence at `p` of the layout matches, and its group is the array. */
  lemma LayoutMatchesAt(s: string, p: int, n: int)
    requires FencedLayout(s, p, n)
    ensures MatchesAt(s, p) && GroupAt(s, p) == s[p + 8..p + 10 + n]
  {
    LayoutSpaces(s, p, n);
    LayoutCloses(s, p, n);
  }

  /** In such a layout the match is the fence at `p`, and its group closes
      at the `]` after the body. */
  lemma {:induction false} FencedLayoutMatch(s: string, p: int, n: int)
    requires FencedLayout(s, p, n)
    ensures LeftmostMatch(s, p) && FencedArray(s) == Some(s[p + 8..p + 10 + n])
  {
    LayoutMatchesAt(s, p, n);
    forall q | 0 <= q < p ensures !MatchesAt(s, q) {
      NoFenceOpenAt(s, q);
    }
    assert LeftmostMatch(s, p);
  }

  lemma FencedLayoutExtract(s: string, p: int, n: int)
    requires FencedLayout(s, p, n)
    ensures ExtractJsonArray(s) == Some(s[p + 8..p + 10 + n])
  {
    FencedLayoutMatch(s, p, n);
  }

  /** Where the pieces of a fenced array land in the text. */
  lemma FencedTextLayout(pre: string, inner: string, post: string, s: string)
    requires forall i :: 0 <= i < |pre| ==> pre[i] != '`'
    requires forall i :: 0 <= i < |inner| ==> inner[i] != '`'
    requires s == pre + FenceOpen + "\n[" + inner + "]\n" + Fence + post
    ensures FencedLayout(s, |pre|, |inner|)
    ensures s[|pre| + 8..|pre| + 10 + |inner|] == "[" + inner + "]"
  {
    var p := |pre|;
    var n := |inner|;
    assert forall i :: 0 <= i < p ==> s[i] == pre[i];
    assert forall i :: p + 9 <= i < p + 9 + n ==> s[i] == inner[i - p - 9];
    assert s[p..p + 7] == FenceOpen;
    assert s[p + 11 + n..p + 14 + n] == Fence;
  }

  lemma NoMatchAt(s: string, p: int)
    requires forall k :: 0 <= k < |s| ==> s[k] != '`'
    ensures !MatchesAt(s, p)
  {
  }

  /** Text without a backquote holds no fence. */
  lemma NoFence(s: string)
    requires forall k :: 0 <= k < |s| ==> s[k] != '`'
    ensures FencedArray(s) == None
  {
    forall p ensures !MatchesAt(s, p) {
      NoMatchAt(s, p);
    }
  }

  /** A bare array and the same array inside a ```json fence, with any
      text before the fence, are extracted alike, provided neither the text
      before nor the array holds a backquote. */
  lemma FencedRoundTrip(pre: string, inner: string, post: string)
    requires forall i :: 0 <= i < |pre| ==> pre[i] != '`'
    requires forall i :: 0 <= i < |inner| ==> inner[i] != '`'
    ensures ExtractJsonArray(pre + FenceOpen + "\n[" + inner + "]\n" + Fence + post) == Some("[" + inner + "]")
    ensures ExtractJsonArray("[" + inner + "]") == Some("[" + inner + "]")
  {
    FencedInText(pre, inner, post);
    BareArray(inner);
  }

  /** The fenced half of FencedRoundTrip. */
  lemma FencedInText(pre: string, inner: string, post: string)
    requires forall i :: 0 <= i < |pre| ==> pre[i] != '`'
    requires forall i :: 0 <= i < |inner| ==> inner[i] != '`'
    ensures ExtractJsonArray(pre + FenceOpen + "\n[" + inner + "]\n" + Fence + post) == Some("[" + inner + "]")
  {
    var s := pre + FenceOpen + "\n[" + inner + "]\n" + Fence + post;
    var p, n := |pre|, |inner|;
    FencedTextLayout(pre, inner, post, s);
    var arr := s[p + 8..p + 10 + n];
    assert arr == "[" + inner + "]";
    FencedLayoutExtract(s, p, n);
    assert ExtractJsonArray(s) == Some(arr);
  }

  /** A bare array without backquotes holds no fence, so what is extracted
      is the greedy span, which is the whole array. */
  lemma BareArray(inner: string)
    requires forall i :: 0 <= i < |inner| ==> inner[i] != '`'
    ensures ExtractJsonArray("[" + inner + "]") == Some("[" + inner + "]")
  {
    var arr := "[" + inner + "]";
    assert forall k :: 0 <= k < |arr| ==> arr[k] != '`' by {
      forall k | 0 <= k < |arr| ensures arr[k] != '`' {
        if 0 < k < |arr| - 1 { assert arr[k] == inner[k - 1]; }
      }
    }
    NoFence(arr);
    var g := GreedySpan(arr, '[', ']');
    assert arr[0] == '[' && arr[|arr| - 1] == ']';
    assert g.Some?;
    var i, j :| GreedySpanAt(arr, '[', ']', i, j) && g.value == arr[i..j + 1];
    assert i == 0 && j == |arr| - 1;
    assert arr[0..|arr|] == arr;
  }
}
