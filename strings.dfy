/**
 * JavaScript string primitives used across the system: `String.prototype.trim`,
 * the regular-expression class `\s`, ASCII case folding as done by a regular
 * expression with the `i` flag (and no `u` flag), `includes`, `split` on a
 * one-character separator, and the two ways lengths are counted: UTF-16 units
 * (`length`) and the length validator's count.
 */
module Strings {

  /** ECMAScript WhiteSpace and LineTerminator code points: the set `trim()` strips and `\s` matches. */
  predicate IsJsWhitespace(c: char) {
    || c == '\t' || c == '\n' || c == '\U{000B}' || c == '\U{000C}' || c == '\r' || c == ' '
    || c == '\U{00A0}' || c == '\U{1680}' || ('\U{2000}' <= c <= '\U{200A}')
    || c == '\U{2028}' || c == '\U{2029}' || c == '\U{202F}' || c == '\U{205F}'
    || c == '\U{3000}' || c == '\U{FEFF}'
  }

  /** ECMAScript LineTerminator: the code points that `.` in a regular expression does not match. */
  predicate IsLineTerminator(c: char) {
    c == '\n' || c == '\r' || c == '\U{2028}' || c == '\U{2029}'
  }

  predicate AllWhitespace(s: string) {
    forall i :: 0 <= i < |s| ==> IsJsWhitespace(s[i])
  }

  /** Number of whitespace code points at the start of `s`. */
  function LeadingWs(s: string): (n: nat)
    ensures n <= |s|
    ensures forall i :: 0 <= i < n ==> IsJsWhitespace(s[i])
    ensures n < |s| ==> !IsJsWhitespace(s[n])
  {
    if s == [] || !IsJsWhitespace(s[0]) then 0 else 1 + LeadingWs(s[1..])
  }

  /** Number of whitespace code points at the end of `s`. */
  function TrailingWs(s: string): (n: nat)
    ensures n <= |s|
    ensures forall i :: |s| - n <= i < |s| ==> IsJsWhitespace(s[i])
    ensures n < |s| ==> !IsJsWhitespace(s[|s| - 1 - n])
  {
    if s == [] || !IsJsWhitespace(s[|s| - 1]) then 0 else 1 + TrailingWs(s[..|s| - 1])
  }

  /** `String.prototype.trim`: the longest slice of `s` that neither starts nor ends with whitespace. */
  function Trim(s: string): (r: string)
    ensures LeadingWs(s) + |r| <= |s|
    ensures r == s[LeadingWs(s)..LeadingWs(s) + |r|]
    ensures r != [] ==> !IsJsWhitespace(r[0]) && !IsJsWhitespace(r[|r| - 1])
    ensures r == [] <==> AllWhitespace(s)
    ensures (s == [] || (!IsJsWhitespace(s[0]) && !IsJsWhitespace(s[|s| - 1]))) ==> r == s
  {
    var t := s[LeadingWs(s)..];
    var r := t[..|t| - TrailingWs(t)];
    assert r == s[LeadingWs(s)..LeadingWs(s) + |r|];
    r
  }

  /** Lower-cases ASCII letters and leaves every other code point alone. */
  function ToLowerAscii(c: char): (r: char)
    ensures ('A' <= c <= 'Z') ==> 'a' <= r <= 'z'
    ensures !('A' <= c <= 'Z') ==> r == c
  {
    if 'A' <= c <= 'Z' then (c as int + 32) as char else c
  }

  function LowerAscii(s: string): (r: string)
    ensures |r| == |s|
    ensures forall i :: 0 <= i < |s| ==> r[i] == ToLowerAscii(s[i])
  {
    seq(|s|, i requires 0 <= i < |s| => ToLowerAscii(s[i]))
  }

  predicate IsAsciiLower(c: char) { 'a' <= c <= 'z' }
  predicate IsAsciiUpper(c: char) { 'A' <= c <= 'Z' }
  predicate IsAsciiLetter(c: char) { IsAsciiLower(c) || IsAsciiUpper(c) }
  /** `\d` in a JavaScript regular expression: ASCII digits only. */
  predicate IsDigit(c: char) { '0' <= c <= '9' }
  /** `[a-f\d]` */
  predicate IsLowerHexDigit(c: char) { IsDigit(c) || ('a' <= c <= 'f') }
  /** `[0-9a-fA-F]` */
  predicate IsHexDigit(c: char) { IsLowerHexDigit(c) || ('A' <= c <= 'F') }

  /** `p` occurs in `s` starting at index `i`. */
  predicate OccursAt(s: string, p: string, i: int) {
    0 <= i && i + |p| <= |s| && s[i..i + |p|] == p
  }

  /** `String.prototype.includes`. */
  predicate Contains(s: string, p: string) {
    exists i :: 0 <= i <= |s| - |p| && OccursAt(s, p, i)
  }

  /** `p` is a prefix of `s`, ignoring ASCII case. */
  predicate StartsWithIgnoreCase(s: string, p: string)
    decreases |p|
  {
    |p| <= |s| && (p == [] || (ToLowerAscii(s[0]) == ToLowerAscii(p[0]) && StartsWithIgnoreCase(s[1..], p[1..])))
  }

  /** The prefix test compares code point by code point. */
  lemma {:induction false} StartsWithIgnoreCasePointwise(s: string, p: string)
    ensures StartsWithIgnoreCase(s, p) <==>
      |p| <= |s| && forall j :: 0 <= j < |p| ==> ToLowerAscii(s[j]) == ToLowerAscii(p[j])
    decreases |p|
  {
    if p != [] && |p| <= |s| {
      StartsWithIgnoreCasePointwise(s[1..], p[1..]);
      assert forall j :: 1 <= j < |p| ==> s[1..][j - 1] == s[j] && p[1..][j - 1] == p[j];
    }
  }

  /** A difference ignoring case at offset `k` rules out a match at the start. */
  lemma MismatchAt(s: string, p: string, k: nat)
    requires k < |p| && (k < |s| ==> ToLowerAscii(s[k]) != ToLowerAscii(p[k]))
    ensures !StartsWithIgnoreCase(s, p)
  {
    StartsWithIgnoreCasePointwise(s, p);
  }

  /** A literal prefix matches. */
  lemma PrefixMatches(s: string, p: string)
    requires |p| <= |s| && s[..|p|] == p
    ensures StartsWithIgnoreCase(s, p)
  {
    StartsWithIgnoreCasePointwise(s, p);
    assert forall j :: 0 <= j < |p| ==> s[j] == s[..|p|][j];
  }

  /** A regular expression made of the literal `p` with the `i` flag matches somewhere in `s`. */
  predicate ContainsIgnoreCase(s: string, p: string) {
    exists i :: 0 <= i <= |s| - |p| && StartsWithIgnoreCase(s[i..], p)
  }

  /** A code point that UTF-16 writes as a surrogate pair. */
  predicate IsAstral(c: char) {
    c > '\U{FFFF}'
  }

  /** `String.prototype.length`: UTF-16 code units, two for each code point above U+FFFF. */
  function Utf16Length(s: string): (n: nat)
    ensures |s| <= n <= 2 * |s|
  {
    if s == [] then 0 else (if IsAstral(s[0]) then 2 else 1) + Utf16Length(s[1..])
  }

  /** Without code points above U+FFFF, UTF-16 length and code-point length agree. */
  lemma {:induction false} Utf16LengthBmp(s: string)
    requires forall i :: 0 <= i < |s| ==> !IsAstral(s[i])
    ensures Utf16Length(s) == |s|
  {
    if s != [] {
      assert forall i :: 0 <= i < |s[1..]| ==> s[1..][i] == s[i + 1];
      Utf16LengthBmp(s[1..]);
    }
  }

  lemma {:induction false} Utf16LengthAppend(x: string, y: string)
    ensures Utf16Length(x + y) == Utf16Length(x) + Utf16Length(y)
  {
    if x == [] {
      assert x + y == y;
    } else {
      assert (x + y)[0] == x[0];
      assert (x + y)[1..] == x[1..] + y;
      Utf16LengthAppend(x[1..], y);
    }
  }

  /** U+FE0E and U+FE0F, the variation selectors validator's `isLength` leaves uncounted. */
  predicate IsPresentationSelector(c: char) {
    c == '\U{FE0E}' || c == '\U{FE0F}'
  }

  /**
   * The length validator's `isLength` measures: UTF-16 units, less one per
   * surrogate pair and one per presentation selector, that is, the code points
   * other than U+FE0E and U+FE0F.
   */
  function IsLengthCount(s: string): (n: nat)
    ensures n <= |s|
  {
    if s == [] then 0 else (if IsPresentationSelector(s[0]) then 0 else 1) + IsLengthCount(s[1..])
  }

  /** Without presentation selectors, `isLength` counts code points. */
  lemma {:induction false} IsLengthCountPlain(s: string)
    requires forall i :: 0 <= i < |s| ==> !IsPresentationSelector(s[i])
    ensures IsLengthCount(s) == |s|
  {
    if s != [] {
      assert forall i :: 0 <= i < |s[1..]| ==> s[1..][i] == s[i + 1];
      IsLengthCountPlain(s[1..]);
    }
  }

  lemma {:induction false} IsLengthCountAppend(x: string, y: string)
    ensures IsLengthCount(x + y) == IsLengthCount(x) + IsLengthCount(y)
  {
    if x == [] {
      assert x + y == y;
    } else {
      assert (x + y)[0] == x[0];
      assert (x + y)[1..] == x[1..] + y;
      IsLengthCountAppend(x[1..], y);
    }
  }

  /** Code points above U+FFFF count two UTF-16 units each and one for `isLength`. */
  lemma {:induction false} AstralLengths(s: string)
    requires forall i :: 0 <= i < |s| ==> IsAstral(s[i])
    ensures Utf16Length(s) == 2 * |s| && IsLengthCount(s) == |s|
  {
    if s != [] {
      assert forall i :: 0 <= i < |s[1..]| ==> s[1..][i] == s[i + 1];
      AstralLengths(s[1..]);
    }
  }

  /** Number of occurrences of `c` in `s`. */
  function CountChar(s: string, c: char): nat
  {
    if s == [] then 0 else (if s[0] == c then 1 else 0) + CountChar(s[1..], c)
  }

  lemma {:induction false} CountCharAppend(x: string, y: string, c: char)
    ensures CountChar(x + y, c) == CountChar(x, c) + CountChar(y, c)
  {
    if x == [] {
      assert x + y == y;
    } else {
      assert (x + y)[0] == x[0];
      assert (x + y)[1..] == x[1..] + y;
      CountCharAppend(x[1..], y, c);
    }
  }

  lemma {:induction false} CountCharZero(s: string, c: char)
    requires CountChar(s, c) == 0
    ensures c !in s
  {
    if s != [] {
      CountCharZero(s[1..], c);
      assert s == [s[0]] + s[1..];
    }
  }

  /** Index of the first `c` in `s`, or `|s|` when there is none. */
  function IndexOf(s: string, c: char): (i: nat)
    ensures i <= |s|
    ensures i < |s| ==> s[i] == c
    ensures forall j :: 0 <= j < i ==> s[j] != c
  {
    if s == [] then 0 else if s[0] == c then 0 else 1 + IndexOf(s[1..], c)
  }

  /** `s.split(sep)` for a one-character separator. */
  function Split(s: string, sep: char): (parts: seq<string>)
    ensures |parts| == CountChar(s, sep) + 1
    ensures forall k :: 0 <= k < |parts| ==> sep !in parts[k]
    decreases |s|
  {
    var i := IndexOf(s, sep);
    if i == |s| then
      NoSepCount(s, sep);
      [s]
    else
      CountSplit(s, sep, i);
      [s[..i]] + Split(s[i + 1..], sep)
  }

  lemma {:induction false} NoSepCount(s: string, sep: char)
    requires sep !in s
    ensures CountChar(s, sep) == 0
  {
    if s != [] {
      assert sep !in s[1..];
      NoSepCount(s[1..], sep);
    }
  }

  lemma {:induction false} CountSplit(s: string, sep: char, i: nat)
    requires i < |s| && s[i] == sep && sep !in s[..i]
    ensures CountChar(s, sep) == 1 + CountChar(s[i + 1..], sep)
  {
    if i > 0 {
      assert s[1..][..i - 1] == s[1..i];
      assert sep !in s[1..][..i - 1];
      assert s[1..][i..] == s[i + 1..];
      CountSplit(s[1..], sep, i - 1);
    } else {
      assert s[1..] == s[i + 1..];
    }
  }

  /**
   * `s.split(sep)` has exactly two parts iff `sep` occurs once, and then the parts
   * are the text before and after it.
   */
  lemma SplitTwoParts(s: string, sep: char)
    ensures |Split(s, sep)| == 2 <==> CountChar(s, sep) == 1
    ensures |Split(s, sep)| == 2 ==>
      var i := IndexOf(s, sep);
      i < |s| && Split(s, sep) == [s[..i], s[i + 1..]]
  {
    var i := IndexOf(s, sep);
    if |Split(s, sep)| == 2 {
      if i < |s| {
        var rest := Split(s[i + 1..], sep);
        assert |rest| == 1;
        assert rest == [s[i + 1..]];
      }
    }
  }

  /** Joining two separator-free strings with the separator and splitting again gives them back. */
  lemma SplitJoin(x: string, y: string, sep: char)
    requires sep !in x && sep !in y
    ensures Split(x + [sep] + y, sep) == [x, y]
  {
    var s := x + [sep] + y;
    assert forall j :: 0 <= j < |x| ==> s[j] == x[j];
    assert s[|x|] == sep;
    assert IndexOf(s, sep) == |x|;
    assert s[..|x|] == x;
    assert s[|x| + 1..] == y;
    assert IndexOf(y, sep) == |y|;
  }
}
