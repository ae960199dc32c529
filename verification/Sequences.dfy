/** Sequences taken apart at their end, the way the program's loops build them. */
module Sequences {
  function Init<T>(s: seq<T>): seq<T>
    requires |s| > 0
  {
    s[..|s| - 1]
  }

  function Last<T>(s: seq<T>): T
    requires |s| > 0
  {
    s[|s| - 1]
  }

  lemma Split<T>(s: seq<T>)
    requires |s| > 0
    ensures s == Init(s) + [Last(s)]
  {
  }

  lemma InitSnoc<T>(p: seq<T>, x: T)
    ensures Init(p + [x]) == p && Last(p + [x]) == x && p + [] == p
  {
  }
}
