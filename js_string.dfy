/**
 * The JavaScript string operations the page relies on: `trim`, `startsWith`,
 * the case-insensitive test `/^https?:\/\//i` and `replace(/\/$/, "")`.
 * Strings are sequences of code points.
 */
module JsString {

  /** ECMAScript WhiteSpace and LineTerminator code points, which `trim` removes. */
  predicate IsWhiteSpace(c: char)
  {
    var n := c as int;
    n == 0x09 || n == 0x0A || n == 0x0B || n == 0x0C || n == 0x0D || n == 0x20
    || n == 0xA0 || n == 0x1680 || (0x2000 <= n <= 0x200A) || n == 0x2028 || n == 0x2029
    || n == 0x202F || n == 0x205F || n == 0x3000 || n == 0xFEFF
  }

  predicate AllWhiteSpace(s: string)
  {
    forall k :: 0 <= k < |s| ==> IsWhiteSpace(s[k])
  }

  /** Neither the first nor the last code point of `t` is white space. */
  predicate NoEdgeSpace(t: string)
  {
    t != [] ==> !IsWhiteSpace(t[0]) && !IsWhiteSpace(t[|t| - 1])
  }

  /** `t` is `s` with only white space cut from its two ends, starting at `i`. */
  predicate CutAt(t: string, s: string, i: int)
  {
    0 <= i <= |s| - |t| && s[i..i + |t|] == t
    && AllWhiteSpace(s[..i]) && AllWhiteSpace(s[i + |t|..])
  }

  /** Length of the white-space run at the start of `s`. */
  function LeadingSpace(s: string): (n: nat)
    ensures n <= |s|
    ensures forall k :: 0 <= k < n ==> IsWhiteSpace(s[k])
    ensures n < |s| ==> !IsWhiteSpace(s[n])
  {
    if |s| > 0 && IsWhiteSpace(s[0]) then 1 + LeadingSpace(s[1..]) else 0
  }

  /** Length of the white-space run at the end of `s`. */
  function TrailingSpace(s: string): (n: nat)
    ensures n <= |s|
    ensures forall k :: |s| - n <= k < |s| ==> IsWhiteSpace(s[k])
    ensures n < |s| ==> !IsWhiteSpace(s[|s| - 1 - n])
  {
    if |s| > 0 && IsWhiteSpace(s[|s| - 1]) then 1 + TrailingSpace(s[..|s| - 1]) else 0
  }

  /** `String.prototype.trim`. */
  function Trim(s: string): (t: string)
    ensures |t| <= |s|
    ensures NoEdgeSpace(t)
    ensures CutAt(t, s, LeadingSpace(s))
  {
    var u := s[LeadingSpace(s)..];
    var t := u[..|u| - TrailingSpace(u)];
    assert s[LeadingSpace(s)..LeadingSpace(s) + |t|] == t;
    t
  }

  /** Any white-space cut of `s` without white space at its edges is `Trim(s)`. */
  lemma TrimUnique(t: string, s: string, i: int)
    requires CutAt(t, s, i) && NoEdgeSpace(t)
    ensures t == Trim(s)
  {
  }

  /** Trimming twice is trimming once. */
  lemma TrimIdempotent(s: string)
    ensures Trim(Trim(s)) == Trim(s)
  {
  }

  /** White space around a value does not change what `trim` returns. */
  lemma TrimIgnoresPadding(pre: string, s: string, post: string)
    requires AllWhiteSpace(pre) && AllWhiteSpace(post)
    ensures Trim(pre + s + post) == Trim(s)
  {
    var t, i := Trim(s), LeadingSpace(s);
    var j, w := i + |t|, pre + s + post;
    AllWhiteSpaceConcat(pre, s[..i]);
    AllWhiteSpaceConcat(s[j..], post);
    assert w[|pre| + i..|pre| + j] == t;
    assert w[..|pre| + i] == pre + s[..i];
    assert w[|pre| + j..] == s[j..] + post;
    TrimUnique(t, w, |pre| + i);
  }

  lemma AllWhiteSpaceConcat(a: string, b: string)
    requires AllWhiteSpace(a) && AllWhiteSpace(b)
    ensures AllWhiteSpace(a + b)
  {
  }

  /** A string with no white space at its edges is its own trim. */
  lemma TrimKeeps(s: string)
    requires NoEdgeSpace(s)
    ensures Trim(s) == s
  {
  }

  /** `String.prototype.startsWith`: case-sensitive prefix test. */
  predicate StartsWith(s: string, prefix: string): (r: bool)
    ensures r <==> |prefix| <= |s| && forall k :: 0 <= k < |prefix| ==> s[k] == prefix[k]
  {
    |prefix| <= |s| && s[..|prefix|] == prefix
  }

  /** A string starts with whatever is put in front of it. */
  lemma StartsWithConcat(p: string, rest: string)
    ensures StartsWith(p + rest, p)
  {
    assert (p + rest)[..|p|] == p;
  }

  /**
   * Case folding of the `i` regex flag without `u`, as far as an all-ASCII pattern
   * can see it: a non-ASCII character never folds to an ASCII letter, so only
   * ASCII letters can match a pattern letter of the other case.
   */
  function AsciiLower(c: char): (d: char)
    ensures 'A' <= c <= 'Z' ==> d as int == c as int + 32
    ensures !('A' <= c <= 'Z') ==> d == c
  {
    if 'A' <= c <= 'Z' then (c as int + 32) as char else c
  }

  /** `s` starts with `prefix`, letters compared without regard to ASCII case. */
  predicate StartsWithIgnoreCase(s: string, prefix: string)
  {
    |prefix| <= |s| && forall k :: 0 <= k < |prefix| ==> AsciiLower(s[k]) == AsciiLower(prefix[k])
  }

  /** One regex atom `x` under the `i` flag, matched at position `k`. */
  predicate AtomAt(s: string, k: nat, x: char)
  {
    k < |s| && AsciiLower(s[k]) == AsciiLower(x)
  }

  /**
   * `/^https?:\/\//i.test(s)`: `http`, then the optional `s` tried taken and
   * then skipped (backtracking), then `://`.
   */
  predicate MatchesHttpScheme(s: string): (r: bool)
    // the regex accepts exactly the `http://` and `https://` prefixes in any letter case
    ensures r <==> StartsWithIgnoreCase(s, "http://") || StartsWithIgnoreCase(s, "https://")
  {
    && AtomAt(s, 0, 'h') && AtomAt(s, 1, 't') && AtomAt(s, 2, 't') && AtomAt(s, 3, 'p')
    && ((AtomAt(s, 4, 's') && AtomAt(s, 5, ':') && AtomAt(s, 6, '/') && AtomAt(s, 7, '/'))
        || (AtomAt(s, 4, ':') && AtomAt(s, 5, '/') && AtomAt(s, 6, '/')))
  }

  /** `s.replace(/\/$/, "")`: drops one `/` at the very end, if there is one. */
  function StripTrailingSlash(s: string): (r: string)
    ensures StartsWith(s, r)
    ensures s != [] && s[|s| - 1] == '/' ==> r + "/" == s
    ensures s == [] || s[|s| - 1] != '/' ==> r == s
  {
    if s != [] && s[|s| - 1] == '/' then s[..|s| - 1] else s
  }
}
