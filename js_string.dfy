/** The string built-ins of the JavaScript runtime that the blog and the
    worker call: `trim`, `toLowerCase`, `indexOf`/`includes`, `startsWith`
    and `replace` with a string pattern. */
module JsString {

  /** ECMAScript WhiteSpace and LineTerminator code points: what `trim` strips. */
  predicate IsWhiteSpace(c: char) {
    || c == '\t' || c == '\U{B}' || c == '\U{C}' || c == ' '
    || c == '\U{A0}' || c == '\U{FEFF}' || c == '\U{1680}'
    || ('\U{2000}' <= c <= '\U{200A}') || c == '\U{202F}' || c == '\U{205F}' || c == '\U{3000}'
    || c == '\n' || c == '\r' || c == '\U{2028}' || c == '\U{2029}'
  }

  /** Number of leading white-space characters of `s`. */
  function LeadingSpace(s: string): (n: nat)
    ensures n <= |s|
    ensures forall k :: 0 <= k < n ==> IsWhiteSpace(s[k])
    ensures n < |s| ==> !IsWhiteSpace(s[n])
  {
    if |s| > 0 && IsWhiteSpace(s[0]) then 1 + LeadingSpace(s[1..]) else 0
  }

  /** Length of `s` once its trailing white space is removed. */
  function WithoutTrailingSpace(s: string): (n: nat)
    ensures n <= |s|
    ensures forall k :: n <= k < |s| ==> IsWhiteSpace(s[k])
    ensures n > 0 ==> !IsWhiteSpace(s[n - 1])
  {
    if |s| > 0 && IsWhiteSpace(s[|s| - 1]) then WithoutTrailingSpace(s[..|s| - 1]) else |s|
  }

  /** `s` is `r` surrounded by white space, `r` starting at index `i`. */
  ghost predicate PaddedAt(s: string, r: string, i: nat) {
    && i + |r| <= |s|
    && s[i..i + |r|] == r
    && (forall k :: 0 <= k < i ==> IsWhiteSpace(s[k]))
    && (forall k :: i + |r| <= k < |s| ==> IsWhiteSpace(s[k]))
  }

  /** Neither end of `s` is white space. */
  predicate Trimmed(s: string) {
    s != [] ==> !IsWhiteSpace(s[0]) && !IsWhiteSpace(s[|s| - 1])
  }

  /** `String.prototype.trim`. */
  function Trim(s: string): (r: string)
    ensures Trimmed(r)
  {
    var a := LeadingSpace(s);
    var b := WithoutTrailingSpace(s[a..]);
    s[a..a + b]
  }

  /** `trim` removes white space and nothing else, from the two ends only. */
  lemma TrimDropsOnlyPadding(s: string)
    ensures exists i: nat :: PaddedAt(s, Trim(s), i)
  {
    var a := LeadingSpace(s);
    var b := WithoutTrailingSpace(s[a..]);
    assert Trim(s) == s[a..a + b];
    assert PaddedAt(s, s[a..a + b], a);
  }

  /** `trim` leaves a string without white space at its ends as it is. */
  lemma TrimTrimmed(t: string)
    requires Trimmed(t)
    ensures Trim(t) == t
  {
    assert LeadingSpace(t) == 0;
    assert t[0..] == t;
    assert WithoutTrailingSpace(t) == |t|;
  }

  /** Trimming twice is trimming once. */
  lemma TrimIdempotent(s: string)
    ensures Trim(Trim(s)) == Trim(s)
  {
    TrimTrimmed(Trim(s));
  }

  /** A string made only of white space trims to the empty string. */
  lemma TrimBlank(s: string)
    requires forall k :: 0 <= k < |s| ==> IsWhiteSpace(s[k])
    ensures Trim(s) == ""
  {
  }

  predicate IsUpper(c: char) {
    'A' <= c <= 'Z'
  }

  /** Lower-case mapping of one character (ASCII letters only). */
  function LowerChar(c: char): (d: char)
    ensures !IsUpper(d)
    ensures IsUpper(c) ==> d as int == c as int + 32
    ensures !IsUpper(c) ==> d == c
  {
    if IsUpper(c) then (c as int + 32) as char else c
  }

  /** `String.prototype.toLowerCase`, restricted to ASCII letters. */
  function ToLower(s: string): (r: string)
    ensures |r| == |s|
    ensures forall k :: 0 <= k < |s| ==> r[k] == LowerChar(s[k])
  {
    seq(|s|, k requires 0 <= k < |s| => LowerChar(s[k]))
  }

  /** Lower-casing leaves no upper-case letter behind, so it is idempotent. */
  lemma ToLowerIdempotent(s: string)
    ensures forall k :: 0 <= k < |s| ==> !IsUpper(ToLower(s)[k])
    ensures ToLower(ToLower(s)) == ToLower(s)
  {
  }

  /** Lower-casing never turns white space into something else, or back. */
  lemma LowerCharKeepsSpace(c: char)
    ensures IsWhiteSpace(LowerChar(c)) <==> IsWhiteSpace(c)
  {
  }

  /** Lower-casing a trimmed string leaves it trimmed. */
  lemma ToLowerKeepsTrimmed(t: string)
    requires Trimmed(t)
    ensures Trimmed(ToLower(t))
  {
    if t != [] {
      LowerCharKeepsSpace(t[0]);
      LowerCharKeepsSpace(t[|t| - 1]);
    }
  }

  /** Lower-casing a string that is `r` padded with white space gives the
      lower-cased `r`, padded at the same place. */
  lemma ToLowerKeepsPadding(s: string, r: string, i: nat)
    requires PaddedAt(s, r, i)
    ensures PaddedAt(ToLower(s), ToLower(r), i)
  {
    var lowered := ToLower(s);
    forall k | 0 <= k < |r|
      ensures lowered[i..i + |r|][k] == ToLower(r)[k]
    {
      assert r[k] == s[i + k];
    }
    assert lowered[i..i + |r|] == ToLower(r);
    forall k | 0 <= k < |s| && (k < i || i + |r| <= k)
      ensures IsWhiteSpace(lowered[k])
    {
      LowerCharKeepsSpace(s[k]);
    }
  }

  /** `needle` occurs in `hay` at index `i`. */
  ghost predicate OccursAt(hay: string, needle: string, i: nat) {
    i + |needle| <= |hay| && hay[i..i + |needle|] == needle
  }

  /** `hay.indexOf(needle, from)`: the first index at or after `from` where
      `needle` occurs, or -1. */
  function IndexOfFrom(hay: string, needle: string, from: nat): (r: int)
    decreases |hay| - from
    ensures r == -1 || (from <= r && OccursAt(hay, needle, r))
    ensures forall i: nat :: from <= i && (r == -1 || i < r) ==> !OccursAt(hay, needle, i)
  {
    if from + |needle| > |hay| then -1
    else if hay[from..from + |needle|] == needle then from
    else IndexOfFrom(hay, needle, from + 1)
  }

  /** `hay.indexOf(needle)`. */
  function IndexOf(hay: string, needle: string): (r: int)
    ensures r == -1 || (r >= 0 && OccursAt(hay, needle, r))
    ensures forall i: nat :: (r == -1 || i < r) ==> !OccursAt(hay, needle, i)
  {
    IndexOfFrom(hay, needle, 0)
  }

  /** `hay.includes(needle)`: substring test; the empty needle is in every string. */
  predicate Includes(hay: string, needle: string)
    ensures Includes(hay, needle) <==> exists i: nat :: OccursAt(hay, needle, i)
  {
    IndexOf(hay, needle) >= 0
  }

  /** `s.startsWith(prefix)`. */
  predicate StartsWith(s: string, prefix: string)
    ensures StartsWith(s, prefix) <==> exists rest: string :: s == prefix + rest
    ensures StartsWith(s, prefix) <==> OccursAt(s, prefix, 0)
  {
    assert |prefix| <= |s| ==> s == s[..|prefix|] + s[|prefix|..];
    |prefix| <= |s| && s[..|prefix|] == prefix
  }

  /** `s.replace(pattern, replacement)` with a string pattern and a replacement
      without `$` patterns: only the first occurrence is replaced. */
  function ReplaceFirst(s: string, pattern: string, replacement: string): (r: string)
    ensures (forall i: nat :: !OccursAt(s, pattern, i)) ==> r == s
    ensures forall i: nat :: OccursAt(s, pattern, i) && (forall j: nat :: j < i ==> !OccursAt(s, pattern, j))
              ==> r == s[..i] + replacement + s[i + |pattern|..]
  {
    var i := IndexOf(s, pattern);
    if i < 0 then s else s[..i] + replacement + s[i + |pattern|..]
  }

  /** Replacing a prefix of `s` by nothing drops exactly that prefix, even when
      the pattern occurs again further on. */
  lemma ReplacePrefix(s: string, prefix: string)
    requires StartsWith(s, prefix)
    ensures ReplaceFirst(s, prefix, "") == s[|prefix|..]
    ensures prefix + ReplaceFirst(s, prefix, "") == s
  {
    assert OccursAt(s, prefix, 0);
    assert IndexOf(s, prefix) == 0;
  }
}
