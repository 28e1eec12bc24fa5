/** String helpers with the semantics of the JavaScript built-ins the
    source uses: `trim`, `toLowerCase`, `join`, `split`, `indexOf`,
    `lastIndexOf`, `replace` with a string pattern, `startsWith`,
    `substring(0, n)` and number-to-string conversion. */
module Text {

  /** The characters JavaScript's `\s` matches and `String.prototype.trim`
      removes: the WhiteSpace and LineTerminator code points of ECMAScript. */
  predicate IsSpace(c: char) {
    || c == ' ' || c == '\t' || c == '\n' || c == '\r'
    || c == '\U{000B}' || c == '\U{000C}' || c == '\U{00A0}' || c == '\U{1680}'
    || ('\U{2000}' <= c <= '\U{200A}')
    || c == '\U{2028}' || c == '\U{2029}' || c == '\U{202F}' || c == '\U{205F}'
    || c == '\U{3000}' || c == '\U{FEFF}'
  }

  /** The characters that `.` in a JavaScript regular expression does not match. */
  predicate IsLineTerminator(c: char) {
    c == '\n' || c == '\r' || c == '\U{2028}' || c == '\U{2029}'
  }

  predicate AllSpace(s: string) {
    forall i :: 0 <= i < |s| ==> IsSpace(s[i])
  }

  /** Drops leading white space: the result is a suffix of `s`, what was
      dropped is all white space, and the result does not start with any. */
  function TrimStart(s: string): (r: string)
    ensures |r| <= |s| && r == s[|s| - |r|..]
    ensures forall i :: 0 <= i < |s| - |r| ==> IsSpace(s[i])
    ensures r == [] || !IsSpace(r[0])
  {
    if s != [] && IsSpace(s[0]) then
      var r := TrimStart(s[1..]);
      assert s[1..][|s| - 1 - |r|..] == s[|s| - |r|..];
      r
    else s
  }

  /** Drops trailing white space: the result is a prefix of `s`, what was
      dropped is all white space, and the result does not end with any. */
  function TrimEnd(s: string): (r: string)
    ensures |r| <= |s| && r == s[..|r|]
    ensures forall i :: |r| <= i < |s| ==> IsSpace(s[i])
    ensures r == [] || !IsSpace(r[|r| - 1])
  {
    if s != [] && IsSpace(s[|s| - 1]) then
      var r := TrimEnd(s[..|s| - 1]);
      r
    else s
  }

  /** `String.prototype.trim`: the result is the middle of `s` between a
      run of white space on either side, and it neither starts nor ends
      with white space. */
  function Trim(s: string): (r: string)
    ensures exists k :: TrimmedAt(s, r, k)
    ensures r == [] || (!IsSpace(r[0]) && !IsSpace(r[|r| - 1]))
  {
    var a := TrimStart(s);
    var r := TrimEnd(a);
    var k := |s| - |a|;
    assert r == s[k..k + |r|];
    forall i | 0 <= i < |s| && (i < k || k + |r| <= i) ensures IsSpace(s[i]) {
      if k + |r| <= i {
        assert s[i] == a[i - k];
      }
    }
    assert TrimmedAt(s, r, k);
    r
  }

  /** `r` is `s` with a run of white space removed from either end,
      the run at the front being `k` characters long. */
  predicate TrimmedAt(s: string, r: string, k: int) {
    0 <= k <= |s| - |r| && r == s[k..k + |r|] && Untrimmed(s, k, k + |r|)
  }

  /** Every character of `s` outside `[lo, hi)` is white space. */
  predicate Untrimmed(s: string, lo: int, hi: int) {
    forall i :: 0 <= i < |s| && (i < lo || hi <= i) ==> IsSpace(s[i])
  }

  /** A string is blank after trimming exactly when it is all white space. */
  lemma TrimEmptyIffAllSpace(s: string)
    ensures Trim(s) == [] <==> AllSpace(s)
  {
    var r := Trim(s);
    var k :| TrimmedAt(s, r, k);
    if r != [] {
      assert s[k] == r[0];
    }
  }

  /** Text with no white space at either end is its own trim. */
  lemma TrimKeeps(s: string)
    requires s == [] || (!IsSpace(s[0]) && !IsSpace(s[|s| - 1]))
    ensures Trim(s) == s
  {
    var r := Trim(s);
    var k :| TrimmedAt(s, r, k);
  }

  /** ASCII `toLowerCase`. */
  function LowerChar(c: char): char {
    if 'A' <= c <= 'Z' then (c as int + 32) as char else c
  }

  function Lower(s: string): string {
    seq(|s|, i requires 0 <= i < |s| => LowerChar(s[i]))
  }

  /** `Array.prototype.join`. */
  function Join(parts: seq<string>, sep: string): string {
    if |parts| == 0 then ""
    else if |parts| == 1 then parts[0]
    else parts[0] + sep + Join(parts[1..], sep)
  }

  /** Appending a part appends the separator and that part, so the parts
      appear in the joined text in their input order. */
  lemma {:induction false} JoinSnoc(parts: seq<string>, x: string, sep: string)
    requires |parts| > 0
    ensures Join(parts + [x], sep) == Join(parts, sep) + sep + x
  {
    if |parts| > 1 {
      assert (parts + [x])[1..] == parts[1..] + [x];
      JoinSnoc(parts[1..], x, sep);
    }
  }

  /** Joining one part gives that part; joining two puts the separator between them. */
  lemma JoinSmall(a: string, b: string, sep: string)
    ensures Join([a], sep) == a
    ensures Join([a] + [b], sep) == a + sep + b
  {
    assert ([a] + [b])[1..] == [b];
  }

  /** `s.indexOf(c)`: the first position of `c`, or -1. */
  function IndexOf(s: string, c: char): (r: int)
    ensures -1 <= r < |s|
    ensures r >= 0 ==> s[r] == c && forall k :: 0 <= k < r ==> s[k] != c
    ensures r == -1 <==> c !in s
  {
    if s == [] then -1
    else if s[0] == c then 0
    else
      var k := IndexOf(s[1..], c);
      if k < 0 then -1 else k + 1
  }

  /** `s.lastIndexOf(c)`: the last position of `c`, or -1. */
  function LastIndexOf(s: string, c: char): (r: int)
    ensures -1 <= r < |s|
    ensures r >= 0 ==> s[r] == c && forall k :: r < k < |s| ==> s[k] != c
    ensures r == -1 <==> c !in s
  {
    if s == [] then -1
    else if s[|s| - 1] == c then |s| - 1
    else
      assert forall k :: 0 <= k < |s| - 1 ==> s[..|s| - 1][k] == s[k];
      LastIndexOf(s[..|s| - 1], c)
  }

  predicate Occurs(s: string, pat: string, i: int) {
    0 <= i <= |s| - |pat| && s[i..i + |pat|] == pat
  }

  /** The position of the first occurrence of `pat` in `s`, or -1. */
  function FindSub(s: string, pat: string): (r: int)
    ensures -1 <= r <= |s|
    ensures r >= 0 ==> Occurs(s, pat, r) && forall k :: 0 <= k < r ==> !Occurs(s, pat, k)
    ensures r == -1 ==> forall k :: !Occurs(s, pat, k)
  {
    if |s| < |pat| then -1
    else if s[..|pat|] == pat then 0
    else
      var k := FindSub(s[1..], pat);
      assert forall j :: 1 <= j ==> (Occurs(s, pat, j) <==> Occurs(s[1..], pat, j - 1)) by {
        forall j | 1 <= j ensures Occurs(s, pat, j) <==> Occurs(s[1..], pat, j - 1) {
          OccursShift(s, pat, j);
        }
      }
      assert !Occurs(s, pat, 0);
      if k < 0 then -1 else k + 1
  }

  lemma OccursShift(s: string, pat: string, j: int)
    requires 1 <= j && s != []
    ensures Occurs(s, pat, j) <==> Occurs(s[1..], pat, j - 1)
  {
    if j <= |s| - |pat| {
      var a, b := s[j..j + |pat|], s[1..][j - 1..j - 1 + |pat|];
      assert |a| == |b|;
      forall t | 0 <= t < |a| ensures a[t] == b[t] {
        assert a[t] == s[j + t];
      }
      assert a == b;
    }
  }

  /** `s.replace(pat, rep)` with a string pattern: only the first
      occurrence is replaced, and a string without one is returned as is. */
  function ReplaceFirst(s: string, pat: string, rep: string): (r: string)
    ensures FindSub(s, pat) < 0 ==> r == s
    ensures FindSub(s, pat) >= 0 ==>
      var i := FindSub(s, pat); r == s[..i] + rep + s[i + |pat|..]
  {
    var i := FindSub(s, pat);
    if i < 0 then s else s[..i] + rep + s[i + |pat|..]
  }

  predicate StartsWith(s: string, prefix: string) {
    |prefix| <= |s| && s[..|prefix|] == prefix
  }

  predicate Contains(s: string, sub: string) {
    exists i :: 0 <= i <= |s| - |sub| && Occurs(s, sub, i)
  }

  /** A text starts with its first part... */
  lemma StartsWithHead(x: string, b: string)
    ensures StartsWith(x + b, x) && Contains(x + b, x)
  {
    assert (x + b)[..|x|] == x;
    assert (x + b)[0..|x|] == x;
    assert Occurs(x + b, x, 0);
  }

  /** ...and contains whatever its last part contains. */
  lemma ContainsAfter(a: string, b: string, x: string)
    requires Contains(b, x)
    ensures Contains(a + b, x)
  {
    var i :| 0 <= i <= |b| - |x| && Occurs(b, x, i);
    assert (a + b)[|a| + i..|a| + i + |x|] == b[i..i + |x|];
    assert Occurs(a + b, x, |a| + i);
  }

  /** ...and whatever its first part contains. */
  lemma ContainsBefore(a: string, b: string, x: string)
    requires Contains(a, x)
    ensures Contains(a + b, x)
  {
    var i :| 0 <= i <= |a| - |x| && Occurs(a, x, i);
    assert (a + b)[i..i + |x|] == a[i..i + |x|];
    assert Occurs(a + b, x, i);
  }

  /** The parts written one after another, as a template literal does. */
  function Concat(parts: seq<string>): string {
    if parts == [] then "" else parts[0] + Concat(parts[1..])
  }

  /** Every part occurs in the concatenation. */
  lemma {:induction false} ConcatContains(parts: seq<string>, i: int)
    requires 0 <= i < |parts|
    ensures Contains(Concat(parts), parts[i])
  {
    if i == 0 {
      StartsWithHead(parts[0], Concat(parts[1..]));
    } else {
      ConcatContains(parts[1..], i - 1);
      ContainsAfter(parts[0], Concat(parts[1..]), parts[i]);
    }
  }

  /** `s.substring(0, n)` for a non-negative `n`. */
  function Prefix<T>(s: seq<T>, n: nat): (r: seq<T>)
    ensures |r| == if n < |s| then n else |s|
    ensures r == s[..|r|]
  {
    if n < |s| then s[..n] else s
  }

  /** `Array.prototype.split` on a one-character separator. */
  function Split(s: string, sep: char): (r: seq<string>)
    ensures |r| >= 1
    ensures forall i :: 0 <= i < |r| ==> sep !in r[i]
    decreases |s|
  {
    var k := IndexOf(s, sep);
    if k < 0 then [s]
    else
      assert sep !in s[..k] by {
        forall j | 0 <= j < k ensures s[..k][j] != sep { }
      }
      [s[..k]] + Split(s[k + 1..], sep)
  }

  /** Splitting loses nothing: joining the pieces with the separator gives
      back the text. */
  lemma {:induction false} JoinSplit(s: string, sep: char)
    ensures Join(Split(s, sep), [sep]) == s
    decreases |s|
  {
    var k := IndexOf(s, sep);
    var parts := Split(s, sep);
    if k < 0 {
      assert parts == [s];
    } else {
      var tail := s[k + 1..];
      var rest := Split(tail, sep);
      assert parts == [s[..k]] + rest;
      assert parts[0] == s[..k] && parts[1..] == rest && |parts| > 1;
      assert Join(parts, [sep]) == s[..k] + [sep] + Join(rest, [sep]);
      JoinSplit(tail, sep);
      assert s[k] == sep;
      assert s == s[..k] + [s[k]] + tail;
    }
  }

  function DigitChar(d: nat): char
    requires d < 10
  {
    ('0' as int + d) as char
  }

  /** Decimal text of a natural number, as `Number.prototype.toString`. */
  function NatToString(n: nat): (r: string)
    ensures |r| >= 1
    ensures forall i :: 0 <= i < |r| ==> '0' <= r[i] <= '9'
  {
    if n < 10 then [DigitChar(n)] else NatToString(n / 10) + [DigitChar(n % 10)]
  }

  function IntToString(n: int): string {
    if n < 0 then "-" + NatToString(-n) else NatToString(n)
  }

  /** The value of a string of decimal digits (the partner of NatToString). */
  function DecimalValue(s: string): nat
    requires forall i :: 0 <= i < |s| ==> '0' <= s[i] <= '9'
  {
    if s == [] then 0 else DecimalValue(s[..|s| - 1]) * 10 + (s[|s| - 1] as int - '0' as int)
  }

  /** Reading back the decimal text of `n` gives `n`. */
  lemma {:induction false} DecimalRoundTrip(n: nat)
    ensures DecimalValue(NatToString(n)) == n
  {
    if n >= 10 {
      var t := NatToString(n);
      assert t[..|t| - 1] == NatToString(n / 10);
      DecimalRoundTrip(n / 10);
    }
  }
}
