/** The JavaScript string operations the UI relies on, restricted to what the
    components use: `trim`, ASCII `toLowerCase`, `startsWith`, `includes`,
    `slice(0, n)` and the segment after the last `.` of a file name. */
module Text {

  /** ECMAScript WhiteSpace and LineTerminator code points: what `String.prototype.trim` removes. */
  const JsSpaces: set<char> := {
    '\t', '\n', '\U{000B}', '\U{000C}', '\r', ' ', '\U{00A0}', '\U{1680}',
    '\U{2000}', '\U{2001}', '\U{2002}', '\U{2003}', '\U{2004}', '\U{2005}',
    '\U{2006}', '\U{2007}', '\U{2008}', '\U{2009}', '\U{200A}',
    '\U{2028}', '\U{2029}', '\U{202F}', '\U{205F}', '\U{3000}', '\U{FEFF}'
  }

  predicate IsJsSpace(c: char) {
    c in JsSpaces
  }

  /** The first position at or after `k` that holds no white space (`|s|` when there is none). */
  function SkipSpace(s: string, k: nat): (n: nat)
    requires k <= |s|
    ensures k <= n <= |s|
    ensures forall j :: k <= j < n ==> IsJsSpace(s[j])
    ensures n == |s| || !IsJsSpace(s[n])
    decreases |s| - k
  {
    if k < |s| && IsJsSpace(s[k]) then SkipSpace(s, k + 1) else k
  }

  /** The end of `s[lo..e]` once its trailing white space is cut off. */
  function SkipSpaceBack(s: string, lo: nat, e: nat): (n: nat)
    requires lo <= e <= |s|
    ensures lo <= n <= e
    ensures forall j :: n <= j < e ==> IsJsSpace(s[j])
    ensures n == lo || !IsJsSpace(s[n - 1])
    decreases e
  {
    if lo < e && IsJsSpace(s[e - 1]) then SkipSpaceBack(s, lo, e - 1) else e
  }

  /** `s.trim()`: the piece of `s` after its leading white space, with no white space at
      either end; everything cut away on either side is white space. */
  function Trim(s: string): (r: string)
    ensures |r| <= |s|
    ensures r == [] || (!IsJsSpace(r[0]) && !IsJsSpace(r[|r| - 1]))
    ensures var i := SkipSpace(s, 0);
      && i + |r| <= |s| && r == s[i..i + |r|]
      && (forall j :: 0 <= j < i ==> IsJsSpace(s[j]))
      && (forall j :: i + |r| <= j < |s| ==> IsJsSpace(s[j]))
  {
    var i := SkipSpace(s, 0);
    var e := SkipSpaceBack(s, i, |s|);
    s[i..e]
  }

  /** ASCII-only `toLowerCase` of one character. */
  function LowerChar(c: char): (r: char)
    ensures 'A' <= c <= 'Z' ==> 'a' <= r <= 'z' && r as int - c as int == 32
    ensures !('A' <= c <= 'Z') ==> r == c
  {
    if 'A' <= c <= 'Z' then (c as int + 32) as char else c
  }

  /** ASCII-only `toLowerCase`. */
  function Lower(s: string): (r: string)
    ensures |r| == |s|
    ensures forall i :: 0 <= i < |s| ==> r[i] == LowerChar(s[i])
  {
    if s == [] then []
    else
      var rest := Lower(s[1..]);
      var r := [LowerChar(s[0])] + rest;
      assert forall i :: 1 <= i < |s| ==> r[i] == rest[i - 1] && s[1..][i - 1] == s[i];
      r
  }

  predicate IsLower(s: string) {
    forall i :: 0 <= i < |s| ==> !('A' <= s[i] <= 'Z')
  }

  /** Lower-casing yields a lower-case string and leaves lower-case strings as they are;
      hence it is idempotent. */
  lemma LowerNormalises(s: string)
    ensures IsLower(Lower(s))
    ensures IsLower(s) ==> Lower(s) == s
    ensures Lower(Lower(s)) == Lower(s)
  {
    var l := Lower(s);
    forall i | 0 <= i < |l| ensures LowerChar(l[i]) == l[i] && !('A' <= l[i] <= 'Z') {
    }
    assert Lower(l) == l;
  }

  /** `s.startsWith(p)`. */
  predicate StartsWith(s: string, p: string) {
    |p| <= |s| && s[..|p|] == p
  }

  /** `s.slice(0, n)`. */
  function Take(s: string, n: nat): (r: string)
    ensures |r| == if |s| <= n then |s| else n
    ensures r == s[..|r|]
  {
    if |s| <= n then s else s[..n]
  }

  /** The index of the last `.` before position `n`, or -1 when there is none. */
  function LastDotBefore(s: string, n: nat): (k: int)
    requires n <= |s|
    ensures -1 <= k < n
    ensures k >= 0 ==> s[k] == '.'
    ensures forall j :: k < j < n ==> s[j] != '.'
    decreases n
  {
    if n == 0 then -1
    else if s[n - 1] == '.' then n - 1
    else LastDotBefore(s, n - 1)
  }

  /** The text after the last `.` (the whole string when there is no `.`):
      `s.split('.').pop()`. */
  function AfterLastDot(s: string): (r: string)
    ensures |r| <= |s| && r == s[|s| - |r|..]
    ensures '.' !in r
    ensures |r| < |s| ==> s[|s| - |r| - 1] == '.'
    ensures |r| == |s| <==> '.' !in s
  {
    var k := LastDotBefore(s, |s|);
    SuffixAfterLastDot(s, k);
    s[k + 1..]
  }

  lemma SuffixAfterLastDot(s: string, k: int)
    requires -1 <= k < |s| && (k >= 0 ==> s[k] == '.')
    requires forall j :: k < j < |s| ==> s[j] != '.'
    ensures var r := s[k + 1..];
      && |r| <= |s| && r == s[|s| - |r|..]
      && '.' !in r
      && (|r| < |s| ==> s[|s| - |r| - 1] == '.')
      && (|r| == |s| <==> '.' !in s)
  {
    var r := s[k + 1..];
    assert |s| - |r| == k + 1;
    forall j | 0 <= j < |r|
      ensures r[j] != '.'
    {
      assert r[j] == s[k + 1 + j];
    }
    if k >= 0 {
      assert '.' in s;
    } else {
      assert r == s;
    }
  }
}
