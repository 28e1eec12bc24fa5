/** The JavaScript defaulting idioms VibeReader leans on.

    `x || d` yields `d` when `x` is falsy; for the values met here the
    falsy ones are `undefined`/`null` (None), the empty string and the
    number 0. An array is never falsy, even an empty one. `xs?.[0]` is
    the first element, or `undefined` when the array is missing or empty. */
module Js {
  import opened Wrappers

  /** `s || d` on an optional string. */
  function StrOr(s: Option<string>, d: string): (r: string)
    ensures s.Some? && s.value != "" ==> r == s.value
    ensures s.None? || s.value == "" ==> r == d
  {
    if s.Some? && s.value != "" then s.value else d
  }

  /** `n || d` on an optional number. */
  function IntOr(n: Option<int>, d: int): (r: int)
    ensures n.Some? && n.value != 0 ==> r == n.value
    ensures n.None? || n.value == 0 ==> r == d
  {
    if n.Some? && n.value != 0 then n.value else d
  }

  /** `xs || d` on an optional array: an empty array is kept. */
  function ListOr<T>(xs: Option<seq<T>>, d: seq<T>): (r: seq<T>)
    ensures xs.Some? ==> r == xs.value
    ensures xs.None? ==> r == d
  {
    if xs.Some? then xs.value else d
  }

  /** `xs?.[0]`. */
  function FirstOf<T>(xs: Option<seq<T>>): (r: Option<T>)
    ensures r.Some? <==> xs.Some? && |xs.value| > 0
    ensures r.Some? ==> r.value == xs.value[0]
  {
    if xs.Some? && |xs.value| > 0 then Some(xs.value[0]) else None
  }

  /** `s || null` on an optional string: the empty string becomes null. */
  function NonEmpty(s: Option<string>): (r: Option<string>)
    ensures r.Some? <==> s.Some? && s.value != ""
    ensures r.Some? ==> r == s
  {
    if s.Some? && s.value != "" then s else None
  }
}
