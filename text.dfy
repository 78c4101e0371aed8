/** String operations the create handler applies to each submitted field:
    JavaScript's String.prototype.trim and String.prototype.slice(0, n).
 */
module Text {

  /** The characters ECMAScript's trim removes: the WhiteSpace production
      (TAB, VT, FF, ZWNBSP and every space separator of Unicode category Zs)
      and the LineTerminator production (LF, CR, LS, PS). */
  predicate IsWhitespace(c: char) {
    c == '\U{0009}' || c == '\U{000B}' || c == '\U{000C}' || c == '\U{FEFF}' ||
    c == ' ' || c == '\U{00A0}' || c == '\U{1680}' ||
    ('\U{2000}' <= c <= '\U{200A}') ||
    c == '\U{202F}' || c == '\U{205F}' || c == '\U{3000}' ||
    c == '\U{000A}' || c == '\U{000D}' || c == '\U{2028}' || c == '\U{2029}'
  }

  predicate AllWhitespace(s: string) {
    forall i :: 0 <= i < |s| ==> IsWhitespace(s[i])
  }

  /** Neither starts nor ends with whitespace. */
  predicate IsTrimmed(s: string) {
    s == [] || (!IsWhitespace(s[0]) && !IsWhitespace(s[|s| - 1]))
  }

  /** Drops the leading whitespace: the result is a suffix of `s`, everything
      dropped is whitespace, and what is kept does not start with whitespace. */
  function TrimStart(s: string): (r: string)
    ensures |r| <= |s| && r == s[|s| - |r|..]
    ensures AllWhitespace(s[..|s| - |r|])
    ensures r == [] || !IsWhitespace(r[0])
    decreases |s|
  {
    if |s| > 0 && IsWhitespace(s[0]) then
      var r := TrimStart(s[1..]);
      assert s[..|s| - |r|] == [s[0]] + s[1..][..|s| - 1 - |r|];
      r
    else
      s
  }

  /** Drops the trailing whitespace: the result is a prefix of `s`, everything
      dropped is whitespace, and what is kept does not end with whitespace. */
  function TrimEnd(s: string): (r: string)
    ensures |r| <= |s| && r == s[..|r|]
    ensures AllWhitespace(s[|r|..])
    ensures r == [] || !IsWhitespace(r[|r| - 1])
    decreases |s|
  {
    if |s| > 0 && IsWhitespace(s[|s| - 1]) then
      var r := TrimEnd(s[..|s| - 1]);
      assert s[|r|..] == s[..|s| - 1][|r|..] + [s[|s| - 1]];
      r
    else
      s
  }

  /** String.prototype.trim: whitespace removed from both ends. */
  function Trim(s: string): (r: string)
    ensures |r| <= |s|
    ensures r == [] || (!IsWhitespace(r[0]) && !IsWhitespace(r[|r| - 1]))
  {
    TrimEnd(TrimStart(s))
  }

  /** String.prototype.slice(0, n) for n >= 0: the first min(n, |s|)
      characters of `s`. */
  function Take(s: string, n: nat): (r: string)
    ensures |r| <= n && |r| <= |s|
    ensures |s| <= n ==> r == s
    ensures n <= |s| ==> |r| == n
    ensures r == s[..|r|]
  {
    if |s| <= n then s else s[..n]
  }

  lemma {:induction false} TrimStartAt(s: string, lo: nat)
    requires lo <= |s| && AllWhitespace(s[..lo])
    requires lo == |s| || !IsWhitespace(s[lo])
    ensures TrimStart(s) == s[lo..]
    decreases lo
  {
    if lo > 0 {
      assert s[..lo][0] == s[0];
      assert s[1..][..lo - 1] == s[..lo][1..];
      TrimStartAt(s[1..], lo - 1);
      assert s[1..][lo - 1..] == s[lo..];
    }
  }

  lemma {:induction false} TrimEndAt(s: string, hi: nat)
    requires hi <= |s| && AllWhitespace(s[hi..])
    requires hi == 0 || !IsWhitespace(s[hi - 1])
    ensures TrimEnd(s) == s[..hi]
    decreases |s| - hi
  {
    if hi < |s| {
      assert s[hi..][|s| - 1 - hi] == s[|s| - 1];
      var p := s[..|s| - 1];
      assert p[hi..] == s[hi..][..|s| - 1 - hi];
      TrimEndAt(p, hi);
      assert p[..hi] == s[..hi];
    }
  }

  lemma TrimAllWhitespace(s: string)
    requires AllWhitespace(s)
    ensures Trim(s) == []
  {
    assert s[..|s|] == s;
    TrimStartAt(s, |s|);
  }

  /** Reference characterisation of trim: whenever `s` splits into a
      whitespace prefix, a middle that is empty or starts and ends with a
      non-whitespace character, and a whitespace suffix, trim returns exactly
      that middle. */
  lemma TrimIsMiddle(s: string, lo: nat, hi: nat)
    requires lo <= hi <= |s|
    requires AllWhitespace(s[..lo]) && AllWhitespace(s[hi..])
    requires lo == hi || (!IsWhitespace(s[lo]) && !IsWhitespace(s[hi - 1]))
    ensures Trim(s) == s[lo..hi]
  {
    if lo == hi {
      WhitespaceConcat(s, lo);
      TrimAllWhitespace(s);
    } else {
      TrimStartAt(s, lo);
      TrimEndOfSuffix(s, lo, hi);
    }
  }

  lemma WhitespaceConcat(s: string, k: nat)
    requires k <= |s| && AllWhitespace(s[..k]) && AllWhitespace(s[k..])
    ensures AllWhitespace(s)
  {
    forall i | 0 <= i < |s| ensures IsWhitespace(s[i]) {
      if i < k { assert s[..k][i] == s[i]; } else { assert s[k..][i - k] == s[i]; }
    }
  }

  lemma TrimEndOfSuffix(s: string, lo: nat, hi: nat)
    requires lo < hi <= |s| && AllWhitespace(s[hi..]) && !IsWhitespace(s[hi - 1])
    ensures TrimEnd(s[lo..]) == s[lo..hi]
  {
    var t := s[lo..];
    assert t[hi - lo..] == s[hi..];
    assert t[hi - lo - 1] == s[hi - 1];
    TrimEndAt(t, hi - lo);
  }

  /** Trim yields the empty string exactly when every character is whitespace. */
  lemma TrimEmptyIff(s: string)
    ensures Trim(s) == [] <==> AllWhitespace(s)
  {
    if AllWhitespace(s) {
      assert s[..0] == [] && s[0..] == s;
      TrimIsMiddle(s, 0, 0);
    }
    if Trim(s) == [] {
      var t := TrimStart(s);
      assert t[0..] == t;
      assert s == s[..|s| - |t|] + t;
    }
  }

  /** Trimming twice is the same as trimming once. */
  lemma TrimIdempotent(s: string)
    ensures Trim(Trim(s)) == Trim(s)
  {
    var r := Trim(s);
    assert r[..0] == [] && r[|r|..] == [] && r[0..|r|] == r;
    TrimIsMiddle(r, 0, |r|);
  }

  /** A string that neither starts nor ends with whitespace is left alone by trim. */
  lemma TrimOfTrimmed(s: string)
    requires IsTrimmed(s)
    ensures Trim(s) == s
  {
    assert s[..0] == [] && s[|s|..] == [] && s[0..|s|] == s;
    TrimIsMiddle(s, 0, |s|);
  }
}
