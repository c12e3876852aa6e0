/** String primitives that stand for the Python `str` methods and the small regular-expression
    atoms (`\s`, `\d`, `[A-Za-z]`, `\s{2,}`, ...) that the parser is built from.
    Whitespace is Python's; digits, letters and case are the ASCII ones (see README). */
module Text {

  /** Python's `str.isspace`, which is also what `\s` matches in a `str` pattern: the ASCII
      controls from tab to carriage return, the separators U+001C to U+001F, the space, U+0085,
      and the Unicode space separators and line and paragraph separators. */
  predicate IsSpace(c: char) {
    || c == ' ' || '\t' <= c <= '\r' || '\U{001C}' <= c <= '\U{001F}'
    || ('\U{0085}' <= c && WideSpace(c))
  }

  /** The whitespace characters above U+007F. */
  predicate WideSpace(c: char) {
    || c == '\U{0085}' || c == '\U{00A0}' || c == '\U{1680}' || '\U{2000}' <= c <= '\U{200A}'
    || c == '\U{2028}' || c == '\U{2029}' || c == '\U{202F}' || c == '\U{205F}' || c == '\U{3000}'
  }

  /** `\d`, restricted to ASCII. */
  predicate IsDigit(c: char) { '0' <= c <= '9' }

  /** `[A-Za-z]`. */
  predicate IsAsciiLetter(c: char) { 'a' <= c <= 'z' || 'A' <= c <= 'Z' }

  /** `[A-Za-z0-9]`. */
  predicate IsAlnum(c: char) { IsAsciiLetter(c) || IsDigit(c) }

  /** `\w` (a word character, as the word boundary `\b` sees it). */
  predicate IsWordChar(c: char) { IsAlnum(c) || c == '_' }

  function DigitValue(c: char): (d: nat)
    requires IsDigit(c)
    ensures d < 10
  {
    (c as int - '0' as int) as nat
  }

  function DigitChar(d: nat): (c: char)
    requires d < 10
    ensures IsDigit(c) && DigitValue(c) == d
  {
    ('0' as int + d) as char
  }

  // ---------------------------------------------------------------------------------------
  // Runs of characters of one class

  /** The length of the longest prefix of `s` whose characters all satisfy `p`. */
  function RunLen(s: string, p: char -> bool): (r: nat)
    ensures r <= |s|
    ensures forall i :: 0 <= i < r ==> p(s[i])
    ensures r < |s| ==> !p(s[r])
  {
    if |s| > 0 && p(s[0]) then 1 + RunLen(s[1..], p) else 0
  }

  /** The run length is the only index that has the two defining properties. */
  lemma {:induction false} RunLenUnique(s: string, p: char -> bool, k: nat)
    requires k <= |s|
    requires forall i :: 0 <= i < k ==> p(s[i])
    requires k < |s| ==> !p(s[k])
    ensures RunLen(s, p) == k
  {
    if k > 0 {
      RunLenUnique(s[1..], p, k - 1);
    }
  }

  function SpaceRunLen(s: string): (r: nat)
    ensures r <= |s|
    ensures forall i :: 0 <= i < r ==> IsSpace(s[i])
    ensures r < |s| ==> !IsSpace(s[r])
  {
    RunLen(s, IsSpace)
  }

  function DigitRunLen(s: string): (r: nat)
    ensures r <= |s|
    ensures forall i :: 0 <= i < r ==> IsDigit(s[i])
    ensures r < |s| ==> !IsDigit(s[r])
  {
    RunLen(s, IsDigit)
  }

  predicate AllSpaces(s: string) { forall i :: 0 <= i < |s| ==> IsSpace(s[i]) }

  predicate AllDigits(s: string) { forall i :: 0 <= i < |s| ==> IsDigit(s[i]) }

  /** The regex `\s*` consumed greedily at the start of `s`. */
  function SkipSpaces(s: string): (r: string)
    ensures |r| <= |s| && r == s[|s| - |r|..]
    ensures r == [] || !IsSpace(r[0])
  {
    s[SpaceRunLen(s)..]
  }

  /** Skipping the leading whitespace of a concatenation. */
  lemma SkipSpacesAppend(s: string, t: string)
    ensures SpaceRunLen(s) < |s| ==> SkipSpaces(s + t) == SkipSpaces(s) + t
    ensures SpaceRunLen(s) == |s| ==> SkipSpaces(s + t) == SkipSpaces(t)
  {
    var u := s + t;
    var k := SpaceRunLen(s);
    if k < |s| {
      assert u[k] == s[k];
      RunLenUnique(u, IsSpace, k);
      assert u[k..] == s[k..] + t;
    } else {
      var j := SpaceRunLen(t);
      forall i | 0 <= i < k + j ensures IsSpace(u[i]) {
        if i >= k { assert u[i] == t[i - k]; }
      }
      if k + j < |u| { assert u[k + j] == t[j]; }
      RunLenUnique(u, IsSpace, k + j);
      assert u[k + j..] == t[j..];
    }
  }

  /** Text that does not open with a blank loses nothing to `\s*`. */
  lemma NoLeadingBlank(s: string)
    requires s == [] || !IsSpace(s[0])
    ensures SpaceRunLen(s) == 0 && SkipSpaces(s) == s
  {
    assert s[0..] == s;
  }

  /** Blanks in front of text that does not open with one are all that `\s*` consumes. */
  lemma SkipBlanks(g: string, a: string)
    requires AllSpaces(g) && (a == [] || !IsSpace(a[0]))
    ensures SpaceRunLen(g + a) == |g| && SkipSpaces(g + a) == a
  {
    var u := g + a;
    assert forall i :: 0 <= i < |g| ==> u[i] == g[i];
    if |g| < |u| { assert u[|g|] == a[0]; }
    RunLenUnique(u, IsSpace, |g|);
    assert u[|g|..] == a;
  }

  /** The length of a decimal token `\d+(?:\.\d+)?` at the start of `s` (0 if there is none),
      taken greedily: the fraction is part of the token only if a digit follows the point. */
  function DecimalLen(s: string): (r: nat)
    ensures r <= |s|
    ensures r > 0 ==> IsDigit(s[0]) && IsDigit(s[r - 1])
  {
    var k := DigitRunLen(s);
    if k > 0 && k < |s| && s[k] == '.' && DigitRunLen(s[k + 1..]) > 0
    then k + 1 + DigitRunLen(s[k + 1..])
    else k
  }

  // ---------------------------------------------------------------------------------------
  // str.strip, str.rstrip, str.lower, str.startswith, str.endswith

  /** `str.rstrip()`. */
  function RStrip(s: string): (r: string)
    ensures |r| <= |s| && r == s[..|r|]
    ensures AllSpaces(s[|r|..])
    ensures r == [] || !IsSpace(r[|r| - 1])
  {
    if |s| > 0 && IsSpace(s[|s| - 1]) then
      var t := s[..|s| - 1];
      var r := RStrip(t);
      assert s[|r|..] == t[|r|..] + [s[|s| - 1]];
      r
    else s
  }

  /** `str.strip()`: the slice of `s` left once the whitespace at both ends is removed. */
  function Strip(s: string): (r: string)
    ensures r == [] || (!IsSpace(r[0]) && !IsSpace(r[|r| - 1]))
  {
    RStrip(SkipSpaces(s))
  }

  /** What `strip` returns is a slice of `s`, and what it removes at either end is whitespace. */
  lemma StripSlice(s: string)
    ensures var k, r := SpaceRunLen(s), Strip(s);
      && k + |r| <= |s| && r == s[k..k + |r|]
      && AllSpaces(s[..k]) && AllSpaces(s[k + |r|..])
  {
    var t := SkipSpaces(s);
    assert t == s[SpaceRunLen(s)..];
    var r := RStrip(t);
    assert t[|r|..] == s[SpaceRunLen(s) + |r|..];
  }

  function LowerChar(c: char): char {
    if 'A' <= c <= 'Z' then (c as int - 'A' as int + 'a' as int) as char else c
  }

  /** `str.lower()` on ASCII letters. */
  function Lower(s: string): (r: string)
    ensures |r| == |s|
    ensures forall i :: 0 <= i < |s| ==> r[i] == LowerChar(s[i])
  {
    if s == [] then [] else [LowerChar(s[0])] + Lower(s[1..])
  }

  /** Lower-casing a slice is slicing the lower-cased string. */
  lemma LowerSlice(s: string, i: nat, j: nat)
    requires i <= j <= |s|
    ensures Lower(s[i..j]) == Lower(s)[i..j]
  {
    var a, b := Lower(s[i..j]), Lower(s)[i..j];
    forall n | 0 <= n < j - i ensures a[n] == b[n] {
      assert s[i..j][n] == s[i + n];
    }
  }

  /** Lower-casing a prefix is taking the prefix of the lower-cased string. */
  lemma LowerPrefix(s: string, j: nat)
    requires j <= |s|
    ensures Lower(s[..j]) == Lower(s)[..j]
  {
    var a, b := Lower(s[..j]), Lower(s)[..j];
    forall n | 0 <= n < j ensures a[n] == b[n] {
      assert s[..j][n] == s[n];
    }
  }

  /** Lower-casing twice is lower-casing once. */
  lemma LowerIdempotent(s: string)
    ensures Lower(Lower(s)) == Lower(s)
  {
    var l := Lower(s);
    forall i | 0 <= i < |s| ensures Lower(l)[i] == l[i] {
      assert l[i] == LowerChar(s[i]);
    }
  }

  /** `rstrip` and `lower` commute. */
  lemma {:induction false} RStripLower(s: string)
    ensures RStrip(Lower(s)) == Lower(RStrip(s))
    decreases |s|
  {
    var l := Lower(s);
    if |s| > 0 {
      assert l[|s| - 1] == LowerChar(s[|s| - 1]);
      if IsSpace(s[|s| - 1]) {
        var t := s[..|s| - 1];
        LowerPrefix(s, |s| - 1);
        assert RStrip(l) == RStrip(Lower(t));
        RStripLower(t);
      }
    }
  }

  /** `strip` and `lower` commute. */
  lemma StripLower(s: string)
    ensures Strip(Lower(s)) == Lower(Strip(s))
  {
    var l := Lower(s);
    var k := SpaceRunLen(s);
    assert forall i :: 0 <= i < k ==> IsSpace(l[i]) by {
      forall i | 0 <= i < k ensures IsSpace(l[i]) { assert l[i] == LowerChar(s[i]); }
    }
    if k < |s| { assert l[k] == LowerChar(s[k]); }
    RunLenUnique(l, IsSpace, k);
    LowerSlice(s, k, |s|);
    assert s[k..|s|] == s[k..] && l[k..|s|] == l[k..];
    RStripLower(s[k..]);
  }

  /** Whitespace appended at the end is what `rstrip` removes. */
  lemma {:induction false} RStripSpaces(s: string, q: string)
    requires AllSpaces(q)
    ensures RStrip(s + q) == RStrip(s)
    decreases |q|
  {
    if q == [] {
      assert s + q == s;
    } else {
      var u := s + q;
      assert u[|u| - 1] == q[|q| - 1];
      assert u[..|u| - 1] == s + q[..|q| - 1];
      RStripSpaces(s, q[..|q| - 1]);
    }
  }

  /** Whitespace added at either end does not change what `strip` returns. */
  lemma StripPadded(p: string, s: string, q: string)
    requires AllSpaces(p) && AllSpaces(q)
    ensures Strip(p + s + q) == Strip(s)
  {
    RunLenUnique(p, IsSpace, |p|);
    assert p + s + q == p + (s + q);
    SkipSpacesAppend(p, s + q);
    SkipSpacesAppend(s, q);
    if SpaceRunLen(s) < |s| {
      RStripSpaces(SkipSpaces(s), q);
    } else {
      RunLenUnique(q, IsSpace, |q|);
    }
  }

  /** Three pieces joined left to right are the same pieces joined right to left. */
  lemma RegroupThree(a: string, b: string, c: string)
    ensures a + b + c == a + (b + c)
  {
  }

  /** Four pieces joined left to right are the same pieces joined right to left. */
  lemma RegroupFour(a: string, b: string, c: string, d: string)
    ensures a + b + c + d == a + (b + (c + d))
  {
  }

  predicate StartsWith(s: string, prefix: string) {
    |prefix| <= |s| && s[..|prefix|] == prefix
  }

  predicate EndsWith(s: string, suffix: string) {
    |suffix| <= |s| && s[|s| - |suffix|..] == suffix
  }

  /** `s` starts with the lower-case word `word`, compared as `re.IGNORECASE` does. */
  predicate StartsWithCI(s: string, word: string) {
    |word| <= |s| && Lower(s[..|word|]) == word
  }

  /** `s` starts with `s` or `S` (the optional plural letter of `reps?`). */
  predicate StartsWithS(s: string) { |s| > 0 && (s[0] == 's' || s[0] == 'S') }

  /** Drops the optional plural `s` of `reps?`. Wherever the parser's patterns use `reps?`,
      what follows it never starts with a letter, so when the `s` is there only the variant
      that takes it can succeed. */
  function DropPluralS(s: string): (r: string)
    ensures r == s || (|s| > 0 && r == s[1..])
  {
    if StartsWithS(s) then s[1..] else s
  }

  // ---------------------------------------------------------------------------------------
  // Numbers written in decimal digits

  /** The value of a string of decimal digits. */
  function DigitsValue(s: string): nat
    requires AllDigits(s)
  {
    if s == [] then 0 else DigitsValue(s[..|s| - 1]) * 10 + DigitValue(s[|s| - 1])
  }

  /** The decimal spelling of `n`, without leading zeros. */
  function NatToDigits(n: nat): (s: string)
    ensures |s| > 0 && AllDigits(s)
  {
    if n < 10 then [DigitChar(n)] else NatToDigits(n / 10) + [DigitChar(n % 10)]
  }

  lemma {:induction false} DigitsRoundTrip(n: nat)
    ensures DigitsValue(NatToDigits(n)) == n
  {
    var s := NatToDigits(n);
    if n >= 10 {
      DigitsRoundTrip(n / 10);
      assert s[..|s| - 1] == NatToDigits(n / 10);
    }
  }

  function Pow10(k: nat): (p: nat)
    ensures p >= 1
  {
    if k == 0 then 1 else 10 * Pow10(k - 1)
  }

  lemma {:induction false} DigitsBelowPow10(s: string)
    requires AllDigits(s)
    ensures DigitsValue(s) < Pow10(|s|)
  {
    if s != [] {
      DigitsBelowPow10(s[..|s| - 1]);
    }
  }

  // ---------------------------------------------------------------------------------------
  // Whitespace collapsing

  /** The characters of `s` that are not whitespace, in order. */
  function NonSpace(s: string): string
  {
    if s == [] then [] else (if IsSpace(s[0]) then [] else [s[0]]) + NonSpace(s[1..])
  }

  /** Dropping leading whitespace leaves the non-whitespace characters as they were. */
  lemma {:induction false} NonSpaceSkip(s: string, k: nat)
    requires k <= |s| && AllSpaces(s[..k])
    ensures NonSpace(s[k..]) == NonSpace(s)
  {
    if k > 0 {
      assert s[0] == s[..k][0];
      assert s[1..][..k - 1] == s[1..k];
      NonSpaceSkip(s[1..], k - 1);
      assert s[1..][k - 1..] == s[k..];
    }
  }

  /** The text of a concatenation is the text of its parts. */
  lemma {:induction false} NonSpaceAppend(a: string, b: string)
    ensures NonSpace(a + b) == NonSpace(a) + NonSpace(b)
  {
    if a != [] {
      assert (a + b)[0] == a[0];
      assert (a + b)[1..] == a[1..] + b;
      NonSpaceAppend(a[1..], b);
    } else {
      assert a + b == b;
    }
  }

  /** Whitespace has no text. */
  lemma {:induction false} NonSpaceOfSpaces(s: string)
    requires AllSpaces(s)
    ensures NonSpace(s) == []
  {
    if s != [] {
      assert IsSpace(s[0]);
      NonSpaceOfSpaces(s[1..]);
    }
  }

  /** `strip` keeps every character that is not whitespace, in order. */
  lemma StripKeepsText(s: string)
    ensures NonSpace(Strip(s)) == NonSpace(s)
  {
    var k := SpaceRunLen(s);
    NonSpaceSkip(s, k);
    var t := SkipSpaces(s);
    var r := RStrip(t);
    assert t == r + t[|r|..];
    NonSpaceAppend(r, t[|r|..]);
    NonSpaceOfSpaces(t[|r|..]);
  }

  /** `re.sub(r"\s{2,}", " ", s)`: every run of two or more whitespace characters becomes one
      space; a single whitespace character is kept as it is. */
  function CollapseLongRuns(s: string): (r: string)
    ensures |r| <= |s|
    ensures (r == []) == (s == [])
    ensures r != [] ==> r[0] == s[0] || (IsSpace(r[0]) && IsSpace(s[0]))
    ensures r != [] ==> (IsSpace(r[|r| - 1]) <==> IsSpace(s[|s| - 1]))
    ensures forall i :: 0 <= i < |r| - 1 ==> !(IsSpace(r[i]) && IsSpace(r[i + 1]))
    decreases |s|
  {
    if s == [] then []
    else
      var k := SpaceRunLen(s);
      if k >= 2 then " " + CollapseLongRuns(s[k..]) else [s[0]] + CollapseLongRuns(s[1..])
  }

  /** The folding keeps every character that is not whitespace, in order. */
  lemma {:induction false} CollapseLongRunsKeepsText(s: string)
    ensures NonSpace(CollapseLongRuns(s)) == NonSpace(s)
    decreases |s|
  {
    if s != [] {
      var k := SpaceRunLen(s);
      if k >= 2 {
        NonSpaceSkip(s, k);
        CollapseLongRunsKeepsText(s[k..]);
        var r := " " + CollapseLongRuns(s[k..]);
        assert r[1..] == CollapseLongRuns(s[k..]);
      } else {
        CollapseLongRunsKeepsText(s[1..]);
        var r := [s[0]] + CollapseLongRuns(s[1..]);
        assert r[1..] == CollapseLongRuns(s[1..]);
      }
    }
  }

  /** `re.sub(r"\s+", " ", s)`: every run of whitespace becomes one space. */
  function CollapseRuns(s: string): (r: string)
    ensures |r| <= |s|
    ensures forall i :: 0 <= i < |r| && IsSpace(r[i]) ==> r[i] == ' '
    ensures forall i :: 0 <= i < |r| - 1 ==> !(IsSpace(r[i]) && IsSpace(r[i + 1]))
    ensures (r == []) == (s == [])
    ensures r != [] ==> (IsSpace(r[0]) <==> IsSpace(s[0]))
    ensures r != [] ==> (IsSpace(r[|r| - 1]) <==> IsSpace(s[|s| - 1]))
    decreases |s|
  {
    if s == [] then []
    else
      var k := SpaceRunLen(s);
      if k >= 1 then " " + CollapseRuns(s[k..]) else [s[0]] + CollapseRuns(s[1..])
  }

  /** The folding keeps every character that is not whitespace, in order. */
  lemma {:induction false} CollapseRunsKeepsText(s: string)
    ensures NonSpace(CollapseRuns(s)) == NonSpace(s)
    decreases |s|
  {
    if s != [] {
      var k := SpaceRunLen(s);
      if k >= 1 {
        NonSpaceSkip(s, k);
        CollapseRunsKeepsText(s[k..]);
        var r := " " + CollapseRuns(s[k..]);
        assert r[1..] == CollapseRuns(s[k..]);
      } else {
        CollapseRunsKeepsText(s[1..]);
        var r := [s[0]] + CollapseRuns(s[1..]);
        assert r[1..] == CollapseRuns(s[1..]);
      }
    }
  }

  // ---------------------------------------------------------------------------------------
  // Splitting

  /** The index of the first occurrence of `c` in `s`, or `|s|` when there is none. */
  function IndexOf(s: string, c: char): (k: nat)
    ensures k <= |s|
    ensures k < |s| ==> s[k] == c
    ensures forall i :: 0 <= i < k ==> s[i] != c
  {
    if s == [] then 0 else if s[0] == c then 0 else 1 + IndexOf(s[1..], c)
  }

  /** `s.split(c)` for a one-character separator. */
  function SplitOn(s: string, c: char): (parts: seq<string>)
    ensures |parts| >= 1
    ensures forall i :: 0 <= i < |parts| ==> c !in parts[i]
    decreases |s|
  {
    var k := IndexOf(s, c);
    if k == |s| then [s] else [s[..k]] + SplitOn(s[k + 1..], c)
  }

  /** `c.join(parts)`. */
  function JoinOn(parts: seq<string>, c: char): string
  {
    if |parts| == 0 then [] else if |parts| == 1 then parts[0] else parts[0] + [c] + JoinOn(parts[1..], c)
  }

  /** Splitting undoes joining, when no part contains the separator. */
  lemma {:induction false} SplitJoin(parts: seq<string>, c: char)
    requires |parts| >= 1
    requires forall i :: 0 <= i < |parts| ==> c !in parts[i]
    ensures SplitOn(JoinOn(parts, c), c) == parts
  {
    if |parts| == 1 {
      IndexOfAbsent(parts[0], c);
    } else {
      var head, tail := parts[0], JoinOn(parts[1..], c);
      var s := head + ([c] + tail);
      assert JoinOn(parts, c) == s;
      IndexOfAbsent(head, c);
      IndexOfPast(head, [c] + tail, c);
      assert IndexOf(s, c) == |head|;
      assert s[..|head|] == head;
      assert s[|head| + 1..] == tail;
      SplitJoin(parts[1..], c);
      assert SplitOn(s, c) == [head] + SplitOn(tail, c);
      assert parts == [head] + parts[1..];
    }
  }

  lemma IndexOfAbsent(s: string, c: char)
    requires c !in s
    ensures IndexOf(s, c) == |s|
  {
  }

  lemma {:induction false} IndexOfPast(a: string, b: string, c: char)
    requires c !in a
    ensures IndexOf(a + b, c) == |a| + IndexOf(b, c)
  {
    if a != [] {
      assert (a + b)[1..] == a[1..] + b;
      IndexOfPast(a[1..], b, c);
    } else {
      assert a + b == b;
    }
  }

  /** A line boundary of Python's `str.splitlines`. */
  predicate IsLineBreak(c: char) {
    c == '\n' || c == '\r' || c == '\U{000B}' || c == '\U{000C}' || c == '\U{001C}' || c == '\U{001D}'
    || c == '\U{001E}' || c == '\U{0085}' || c == '\U{2028}' || c == '\U{2029}'
  }

  /** The index of the first line boundary in `s`, or `|s|`. */
  function LineBreakIndex(s: string): (k: nat)
    ensures k <= |s|
    ensures k < |s| ==> IsLineBreak(s[k])
    ensures forall i :: 0 <= i < k ==> !IsLineBreak(s[i])
  {
    if s == [] then 0 else if IsLineBreak(s[0]) then 0 else 1 + LineBreakIndex(s[1..])
  }

  /** `str.splitlines()`: `\r\n` is one boundary, and a final boundary does not start a line. */
  function SplitLines(s: string): (lines: seq<string>)
    ensures forall j, i :: 0 <= j < |lines| && 0 <= i < |lines[j]| ==> !IsLineBreak(lines[j][i])
    ensures s == [] <==> lines == []
    decreases |s|
  {
    if s == [] then []
    else
      var k := LineBreakIndex(s);
      if k == |s| then [s]
      else
        var width := if s[k] == '\r' && k + 1 < |s| && s[k + 1] == '\n' then 2 else 1;
        [s[..k]] + SplitLines(s[k + width..])
  }

  /** The first line boundary is at `k` when `s[k]` is one and no character before it is. */
  lemma {:induction false} LineBreakIndexAt(s: string, k: nat)
    requires k < |s| && IsLineBreak(s[k])
    requires forall i :: 0 <= i < k ==> !IsLineBreak(s[i])
    ensures LineBreakIndex(s) == k
  {
    if k > 0 {
      assert !IsLineBreak(s[0]);
      LineBreakIndexAt(s[1..], k - 1);
    }
  }

  /** A line followed by a `\n`, a `\r\n` or a lone `\r` is the first line of the text, and the
      rest is split on its own. */
  lemma SplitLinesFirst(a: string, sep: string, b: string)
    requires forall i :: 0 <= i < |a| ==> !IsLineBreak(a[i])
    requires sep == "\n" || sep == "\r\n" || (sep == "\r" && (b == [] || b[0] != '\n'))
    ensures SplitLines(a + sep + b) == [a] + SplitLines(b)
  {
    var s := a + sep + b;
    assert s[|a|] == sep[0];
    LineBreakIndexAt(s, |a|);
    assert s[..|a|] == a;
    if sep == "\r\n" {
      assert s[|a| + 1] == '\n';
      assert s[|a| + 2..] == b;
    } else {
      assert s[|a| + 1..] == b;
      if sep == "\r" && |a| + 1 < |s| {
        assert s[|a| + 1] == b[0];
      }
    }
  }
}
