/** Python's `str.strip` and the bounding of long texts. */
module Texts {
  import opened Sequences

  /** The characters that Python's `str.strip` removes. */
  predicate IsSpace(c: char) {
    || '\t' <= c <= '\r' || '\U{1C}' <= c <= ' ' || c == '\U{85}' || c == '\U{A0}'
    || c == '\U{1680}' || '\U{2000}' <= c <= '\U{200A}' || c == '\U{2028}' || c == '\U{2029}'
    || c == '\U{202F}' || c == '\U{205F}' || c == '\U{3000}'
  }

  function TrimLeft(s: string): string {
    if s != "" && IsSpace(s[0]) then TrimLeft(s[1..]) else s
  }

  function TrimRight(s: string): string {
    if s != "" && IsSpace(Last(s)) then TrimRight(Init(s)) else s
  }

  function Strip(s: string): string {
    TrimRight(TrimLeft(s))
  }

  /** `text[:limit] + ("..." if len(text) > limit else "")`, with one character for the dots. */
  function Bounded(s: string, limit: nat): string {
    if |s| > limit then s[..limit] + "\U{2026}" else s
  }

  predicate AllSpaces(s: string) {
    forall i :: 0 <= i < |s| ==> IsSpace(s[i])
  }

  lemma {:induction false} TrimLeftDrops(s: string) returns (k: nat)
    ensures k <= |s| && TrimLeft(s) == s[k..] && AllSpaces(s[..k])
    ensures TrimLeft(s) != "" ==> !IsSpace(TrimLeft(s)[0])
  {
    if s != "" && IsSpace(s[0]) {
      var j := TrimLeftDrops(s[1..]);
      k := j + 1;
      assert s[1..][j..] == s[k..];
      assert forall i :: 0 < i < k ==> s[..k][i] == s[1..][..j][i - 1];
    } else {
      k := 0;
      assert s[0..] == s;
    }
  }

  lemma {:induction false} TrimRightDrops(s: string) returns (k: nat)
    ensures k <= |s| && TrimRight(s) == s[..k] && AllSpaces(s[k..])
    ensures TrimRight(s) != "" ==> !IsSpace(Last(TrimRight(s)))
  {
    if s != "" && IsSpace(Last(s)) {
      k := TrimRightDrops(Init(s));
      assert Init(s)[..k] == s[..k];
      assert forall i :: 0 <= i < |s| - k - 1 ==> s[k..][i] == Init(s)[k..][i];
      assert s[k..][|s| - k - 1] == Last(s);
    } else {
      k := |s|;
      assert s[..|s|] == s;
    }
  }

  /** Stripping cuts spaces off both ends, all of them, and nothing else. */
  lemma {:induction false} StripCutsTheEnds(s: string) returns (i: nat, j: nat)
    ensures i <= j <= |s| && Strip(s) == s[i..j] && AllSpaces(s[..i]) && AllSpaces(s[j..])
    ensures i < j ==> !IsSpace(s[i]) && !IsSpace(s[j - 1])
  {
    i := TrimLeftDrops(s);
    var k := TrimRightDrops(s[i..]);
    j := i + k;
    assert s[i..][..k] == s[i..j] && s[i..][k..] == s[j..];
    if i < j {
      assert Last(s[i..j]) == s[j - 1];
      assert TrimLeft(s)[0] == s[i];
    }
  }

  /** The spaces, by their numbers. */
  lemma {:induction false} SpacesAre(c: char)
    ensures IsSpace(c) <==>
      var n := c as int;
      || 9 <= n <= 13 || 28 <= n <= 32 || n in {133, 160, 5760} || 8192 <= n <= 8202
      || n in {8232, 8233, 8239, 8287, 12288}
  {
  }
}
