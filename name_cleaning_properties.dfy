/** What the name cleaner of the v1 parser (src/parsers/v1_parser.py, lines 203-249 and
    285-330) does to an ordinary exercise name: it keeps it as it is, unless it is one of the
    excluded phrases. */
module NameCleaningProperties {
  import opened Wrappers
  import opened Text
  import opened Fields
  import opened NameCleaning
  import opened NameCleaningSteps

  /** An ordinary name: letters, single blanks and hyphens, opening and closing with a
      letter. */
  predicate IsPlainName(s: string) {
    && s != [] && IsAsciiLetter(s[0]) && IsAsciiLetter(s[|s| - 1])
    && (forall i :: 0 <= i < |s| ==> IsAsciiLetter(s[i]) || s[i] == ' ' || s[i] == '-')
    && (forall i :: 0 <= i < |s| - 1 ==> !(s[i] == ' ' && s[i + 1] == ' '))
  }

  /** Without digits there is no number-and-full-stop to remove. */
  lemma {:induction false} NoDigitsNoNumberDots(s: string)
    requires forall i :: 0 <= i < |s| ==> !IsDigit(s[i])
    ensures DropNumberDots(s) == s
    decreases |s|
  {
    if s != [] {
      var a := SpaceRunLen(s);
      if a < |s| {
        assert s[a..][0] == s[a];
      }
      assert DigitRunLen(s[a..]) == 0;
      assert NumberDotLen(s) == 0;
      NoDigitsNoNumberDots(s[1..]);
    }
  }

  /** No two blanks in a row. */
  predicate NoTwoBlanks(s: string) {
    forall i :: 0 <= i < |s| - 1 ==> !(IsSpace(s[i]) && IsSpace(s[i + 1]))
  }

  /** Without two blanks in a row there is no long run to collapse. */
  lemma {:induction false} NoDoubleBlanksKept(s: string)
    requires NoTwoBlanks(s)
    ensures CollapseLongRuns(s) == s
    decreases |s|
  {
    if s != [] {
      ShortRunKept(s);
      NoTwoBlanksTail(s);
      NoDoubleBlanksKept(s[1..]);
      assert [s[0]] + s[1..] == s;
    }
  }

  /** Dropping the first character keeps that property. */
  lemma NoTwoBlanksTail(s: string)
    requires s != [] && NoTwoBlanks(s)
    ensures NoTwoBlanks(s[1..])
  {
    var t := s[1..];
    forall i | 0 <= i < |t| - 1
      ensures !(IsSpace(t[i]) && IsSpace(t[i + 1]))
    {
      assert t[i] == s[i + 1] && t[i + 1] == s[i + 2];
    }
  }

  /** A leading run of fewer than two blanks is kept as it is. */
  lemma ShortRunKept(s: string)
    requires s != [] && NoTwoBlanks(s)
    ensures CollapseLongRuns(s) == [s[0]] + CollapseLongRuns(s[1..])
  {
    if |s| >= 2 {
      assert !(IsSpace(s[0]) && IsSpace(s[1]));
    }
    assert SpaceRunLen(s) < 2;
  }

  /** Without an opening bracket there is no bracketed note to remove. */
  lemma {:induction false} NoOpenerKept(s: string)
    requires forall i :: 0 <= i < |s| ==> !IsOpener(s[i])
    ensures RemoveBracketed(s) == s
    decreases |s|
  {
    if s != [] {
      NoOpenerKept(s[1..]);
    }
  }

  /** A tail pattern that matches no suffix cuts nothing. */
  lemma CutNothing(s: string, p: string -> bool)
    requires forall i :: 0 <= i <= |s| ==> !p(s[i..])
    ensures CutFirstTail(s, p) == s
  {
  }

  /** The parenthesised rep annotation needs an opening bracket. */
  lemma NoParenTail(x: string)
    requires forall i :: 0 <= i < |x| ==> x[i] != '('
    ensures !IsParenRepTail(x)
  {
    var t := SkipSpaces(x);
    if |t| > 0 {
      assert t[0] == x[|x| - |t|];
    }
  }

  /** The trailing range needs a digit. */
  lemma NoRangeTail(x: string)
    requires forall i :: 0 <= i < |x| ==> !IsDigit(x[i])
    ensures !IsRangeRepTail(x)
  {
    var t := SkipSpaces(x);
    if |t| > 0 {
      assert t[0] == x[|x| - |t|];
    }
    assert DigitRunLen(t) == 0;
  }

  /** Text without an opening bracket has no parenthesised rep annotation to cut. */
  lemma NoParenCut(s: string)
    requires forall i :: 0 <= i < |s| ==> s[i] != '('
    ensures CutFirstTail(s, IsParenRepTail) == s
  {
    forall i | 0 <= i <= |s|
      ensures !IsParenRepTail(s[i..])
    {
      NoParenTail(s[i..]);
    }
    CutNothing(s, IsParenRepTail);
  }

  /** Text without digits has no trailing range to cut. */
  lemma NoRangeCut(s: string)
    requires forall i :: 0 <= i < |s| ==> !IsDigit(s[i])
    ensures CutFirstTail(s, IsRangeRepTail) == s
  {
    forall i | 0 <= i <= |s|
      ensures !IsRangeRepTail(s[i..])
    {
      NoRangeTail(s[i..]);
    }
    CutNothing(s, IsRangeRepTail);
  }

  /** The character facts about an ordinary name that the cleaning steps rely on. */
  lemma PlainNameChars(s: string)
    requires IsPlainName(s)
    ensures forall i :: 0 <= i < |s| ==> s[i] != '(' && !IsDigit(s[i]) && !IsOpener(s[i])
    ensures forall i :: 0 <= i < |s| - 1 ==> !(IsSpace(s[i]) && IsSpace(s[i + 1]))
    ensures !IsSpace(s[0]) && !IsSpace(s[|s| - 1]) && s[0] != '-' && s[0] != '•'
    ensures s[|s| - 1] != ':'
  {
  }

  /** Text without brackets, digits or long blank runs, and with no blank at either end, is
      left as it is by the cutting steps. */
  lemma TidyKeeps(s: string)
    requires forall i :: 0 <= i < |s| ==> s[i] != '(' && !IsDigit(s[i]) && !IsOpener(s[i])
    requires forall i :: 0 <= i < |s| - 1 ==> !(IsSpace(s[i]) && IsSpace(s[i + 1]))
    requires s != [] && !IsSpace(s[0]) && !IsSpace(s[|s| - 1])
    ensures TidyName(s) == s
  {
    NoParenCut(s);
    NoRangeCut(s);
    NoOpenerKept(s);
    StripUnchanged(s);
    NoDoubleBlanksKept(s);
  }

  /** Such text has no list marker or number to remove and nothing to strip or collapse. */
  lemma PrefixKeeps(s: string)
    requires forall i :: 0 <= i < |s| ==> !IsDigit(s[i])
    requires forall i :: 0 <= i < |s| - 1 ==> !(IsSpace(s[i]) && IsSpace(s[i + 1]))
    requires s != [] && !IsSpace(s[0]) && !IsSpace(s[|s| - 1]) && s[0] != '-' && s[0] != '•'
    ensures CollapseLongRuns(Strip(CleanPrefix(s))) == s
  {
    assert SpaceRunLen(s) == 0;
    assert BulletLen(s) == 0;
    NoDigitsNoNumberDots(s);
    StripUnchanged(s);
    NoDoubleBlanksKept(s);
  }

  /** Text that opens with a character other than a digit or a bracket and ends in one other
      than a colon passes the guards that keep the current exercise. */
  lemma GuardsPass(s: string)
    requires s != [] && !IsDigit(s[0]) && s[0] != '(' && s[|s| - 1] != ':'
    ensures !EndsWith(s, ":") && !StartsWith(s, "(")
    ensures !LooksLikeSetExpr(s) && !IsBareCount(s)
  {
    assert s[|s| - 1..] == [s[|s| - 1]];
    assert s[..1] == [s[0]];
    assert DigitRunLen(s) == 0;
  }

  /** The cleaner's decision for text that the prefix and the cutting steps leave alone and
      that passes its guards. */
  lemma CleanOutcome(s: string)
    requires CollapseLongRuns(Strip(CleanPrefix(s))) == s
    requires s != [] && !EndsWith(s, ":") && !StartsWith(s, "(")
    requires !LooksLikeSetExpr(s) && !IsBareCount(s)
    requires TidyName(s) == s
    ensures CleanName(s) == if Lower(s) in ExcludePhrases then ClearExercise else SetExercise(s)
  {
  }

  /** What becomes of an ordinary name: it is kept as written unless it is an excluded phrase. */
  function PlainOutcome(s: string): NameOutcome {
    if Lower(s) in ExcludePhrases then ClearExercise else SetExercise(s)
  }

  /** An ordinary name becomes the exercise as it is written, and an excluded phrase clears
      the exercise: the outcome turns on the exclusion list alone. */
  lemma PlainNameKept(s: string)
    requires IsPlainName(s)
    ensures CleanName(s) == PlainOutcome(s)
  {
    assert CollapseLongRuns(Strip(CleanPrefix(s))) == s by {
      PlainNameChars(s);
      PrefixKeeps(s);
    }
    assert !EndsWith(s, ":") && !StartsWith(s, "(") && !LooksLikeSetExpr(s) && !IsBareCount(s) by {
      PlainNameChars(s);
      GuardsPass(s);
    }
    assert TidyName(s) == s by {
      PlainNameChars(s);
      TidyKeeps(s);
    }
    CleanOutcome(s);
  }

  // ---------------------------------------------------------------------------------------
  // Ordinary names behind a list marker or followed by rep annotations and notes

  /** The cleaner sees its input only through `clean_prefix.sub`: two texts that lose their
      prefixes to the same text are cleaned alike. */
  lemma SamePrefixSameOutcome(a: string, b: string)
    requires CleanPrefix(a) == CleanPrefix(b)
    ensures CleanName(a) == CleanName(b)
  {
  }

  /** An ordinary name has no prefix to lose. */
  lemma PlainNamePrefix(n: string)
    requires IsPlainName(n)
    ensures CleanPrefix(n) == n
  {
    PlainNameChars(n);
    assert SpaceRunLen(n) == 0;
    assert BulletLen(n) == 0;
    NoDigitsNoNumberDots(n);
  }

  /** `- <name>`: the bullet is removed and the name is kept as written, unless excluded. */
  lemma BulletedNameKept(n: string)
    requires IsPlainName(n)
    ensures CleanName("- " + n) == PlainOutcome(n)
  {
    BulletPrefix(n);
    PlainNamePrefix(n);
    SamePrefixSameOutcome("- " + n, n);
    PlainNameKept(n);
  }

  lemma BulletPrefix(n: string)
    requires IsPlainName(n)
    ensures CleanPrefix("- " + n) == n
  {
    var s := "- " + n;
    assert s[0] == '-' && s[1..] == " " + n && s[2..] == n;
    NoLeadingBlank(s);
    SkipBlanks(" ", n);
    PlainNamePrefix(n);
    assert SpaceRunLen(n) == 0;
  }

  /** `<digits>. <name>`: the list number is removed and the name is kept as written, unless
      excluded. */
  lemma NumberedNameKept(d: string, n: string)
    requires |d| > 0 && AllDigits(d) && IsPlainName(n)
    ensures CleanName(d + ". " + n) == PlainOutcome(n)
  {
    NumberedPrefix(d, n);
    PlainNamePrefix(n);
    SamePrefixSameOutcome(d + ". " + n, n);
    PlainNameKept(n);
  }

  lemma NumberedPrefix(d: string, n: string)
    requires |d| > 0 && AllDigits(d) && IsPlainName(n)
    ensures CleanPrefix(d + ". " + n) == n
  {
    var s := d + ". " + n;
    NumberedShape(d, n);
    NoBulletBeforeDigit(s);
    DropNumberDotsSkip(s);
    PlainNamePrefix(n);
    assert BulletLen(n) == 0;
  }

  /** `<digits>. <name>` opens with a number-and-full-stop that reaches the name. */
  lemma NumberedShape(d: string, n: string)
    requires |d| > 0 && AllDigits(d) && IsPlainName(n)
    ensures var s := d + ". " + n; NumberDotLen(s) == |d| + 2 && s[|d| + 2..] == n && s[0] == d[0]
  {
    var s := d + ". " + n;
    assert s == d + ['.'] + (" " + n);
    NumberDotOpening(d, " " + n);
    SkipBlanks(" ", n);
  }

  /** Text that opens with a digit has no bullet prefix. */
  lemma NoBulletBeforeDigit(s: string)
    requires s != [] && IsDigit(s[0])
    ensures BulletLen(s) == 0
  {
    NoLeadingBlank(s);
  }

  /** A number-and-full-stop at the front is dropped whole. */
  lemma DropNumberDotsSkip(s: string)
    requires NumberDotLen(s) > 0
    ensures DropNumberDots(s) == DropNumberDots(s[NumberDotLen(s)..])
  {
  }

  /** Joining two such texts keeps the property unless both sides of the join are blank. */
  lemma NoTwoBlanksJoin(a: string, b: string)
    requires NoTwoBlanks(a) && NoTwoBlanks(b)
    requires a == [] || b == [] || !IsSpace(a[|a| - 1]) || !IsSpace(b[0])
    ensures NoTwoBlanks(a + b)
  {
    var s := a + b;
    forall i | 0 <= i < |s| - 1
      ensures !(IsSpace(s[i]) && IsSpace(s[i + 1]))
    {
      if i + 1 < |a| {
        assert s[i] == a[i] && s[i + 1] == a[i + 1];
      } else if i >= |a| {
        assert s[i] == b[i - |a|] && s[i + 1] == b[i + 1 - |a|];
      } else {
        assert s[i] == a[|a| - 1] && s[i + 1] == b[0];
      }
    }
  }

  /** Text with no full stop. */
  predicate NoDot(s: string) { forall i :: 0 <= i < |s| ==> s[i] != '.' }

  lemma NoDotJoin(a: string, b: string)
    requires NoDot(a) && NoDot(b)
    ensures NoDot(a + b)
  {
    var s := a + b;
    forall i | 0 <= i < |s| ensures s[i] != '.' {
      if i < |a| { assert s[i] == a[i]; } else { assert s[i] == b[i - |a|]; }
    }
  }

  /** The character facts about a rep annotation's pieces: its numbers have no blanks and no
      full stops. */
  lemma DigitsSolid(d: string)
    requires AllDigits(d)
    ensures NoTwoBlanks(d) && NoDot(d) && (d == [] || !IsSpace(d[|d| - 1]))
  {
  }

  /** A name cut from the text that follows it, when the cleaner's first steps leave the
      whole text alone and its guards let it through, decides the outcome. */
  lemma CutOutcome(s: string, n: string)
    requires CollapseLongRuns(Strip(CleanPrefix(s))) == s
    requires s != [] && !IsDigit(s[0]) && s[0] != '(' && s[|s| - 1] != ':'
    requires TidyName(s) == n && n != []
    ensures CleanName(s) == PlainOutcome(n)
  {
    GuardsPass(s);
  }

  /** Text that opens like an ordinary name, has no full stop, no two blanks in a row, and no
      blank at its end is left alone by the cleaner's first steps. */
  lemma NamedTextKept(s: string)
    requires s != [] && IsAsciiLetter(s[0]) && !IsSpace(s[|s| - 1])
    requires NoDot(s) && NoTwoBlanks(s)
    ensures CollapseLongRuns(Strip(CleanPrefix(s))) == s
  {
    assert SpaceRunLen(s) == 0;
    assert BulletLen(s) == 0;
    NoDotKept(s);
    StripUnchanged(s);
    NoDoubleBlanksKept(s);
  }

  /** Inside an ordinary name, the first character after blanks is a letter or a hyphen,
      whatever follows the name. */
  lemma FirstNonBlankInName(n: string, tail: string, i: nat)
    requires IsPlainName(n) && i < |n|
    ensures var t := SkipSpaces((n + tail)[i..]); t != [] && (IsAsciiLetter(t[0]) || t[0] == '-')
  {
    var x := n[i..];
    assert (n + tail)[i..] == x + tail;
    var k := SpaceRunLen(x);
    assert x[|x| - 1] == n[|n| - 1];
    assert k < |x|;
    SkipSpacesAppend(x, tail);
    assert SkipSpaces(x + tail)[0] == x[k] == n[i + k];
  }

  /** No rep annotation starts inside an ordinary name. */
  lemma NoTailInName(n: string, tail: string, i: nat)
    requires IsPlainName(n) && i < |n|
    ensures !IsParenRepTail((n + tail)[i..]) && !IsRangeRepTail((n + tail)[i..])
  {
    FirstNonBlankInName(n, tail, i);
    var t := SkipSpaces((n + tail)[i..]);
    assert DigitRunLen(t) == 0;
  }

  /** A `$`-anchored pattern that matches where the name ends, and nowhere before, cuts the
      text back to the name. */
  lemma {:induction false} CutAtName(s: string, p: string -> bool, k: nat)
    requires k <= |s| && p(s[k..]) && forall i :: 0 <= i < k ==> !p(s[i..])
    ensures CutFirstTail(s, p) == s[..k]
    decreases k
  {
    if k == 0 {
      assert s[0..] == s;
    } else {
      assert s[0..] == s && s != [];
      var t := s[1..];
      assert t[k - 1..] == s[k..];
      assert forall i :: 0 <= i < k - 1 ==> t[i..] == s[i + 1..];
      CutAtName(t, p, k - 1);
      assert s[..k] == [s[0]] + t[..k - 1];
    }
  }

  /** The parenthesised rep annotation, step by step. */
  lemma ParenTailSteps(s: string, u: string, a: nat, v: string, rest: string, w: string)
    requires SkipSpaces(s) == "(" + u
    requires ShortNumberLen(SkipSpaces(u)) == a > 0 && SkipSpaces(u) == u && SkipSpaces(u[a..]) == v
    requires RangeEnd(v) == Some(rest) && SkipSpaces(rest) == w && SkipRepWord(w) == ")"
    ensures IsParenRepTail(s)
  {
    var t := SkipSpaces(s);
    assert t[0] == '(' && t[1..] == u;
    var x := SkipRepWord(w);
    assert |x| == 1 && x[0] == ')';
  }

  /** The trailing rep range, step by step. */
  lemma RangeTailSteps(s: string, a: nat, v: string, rest: string, w: string)
    requires ShortNumberLen(SkipSpaces(s)) == a > 0 && SkipSpaces(SkipSpaces(s)[a..]) == v
    requires RangeEnd(v) == Some(rest) && SkipSpaces(rest) == w && SkipRepWord(w) == []
    ensures IsRangeRepTail(s)
  {
  }

  /** `<d>-<e><rest>`, where `rest` does not open with a digit: the first number is `d`, and
      the range end after it leaves `rest`. */
  lemma RangeFrom(d: string, e: string, rest: string)
    requires 1 <= |d| <= 3 && AllDigits(d) && 1 <= |e| <= 3 && AllDigits(e)
    requires rest != [] && !IsDigit(rest[0])
    ensures var u := d + "-" + e + rest;
      && SkipSpaces(u) == u && ShortNumberLen(u) == |d|
      && SkipSpaces(u[|d|..]) == "-" + e + rest && RangeEnd("-" + e + rest) == Some(rest)
  {
    var v := "-" + e + rest;
    DashDigits('-', e, rest);
    assert d + "-" + e + rest == d + v;
    NumberThen(d, v);
    NoLeadingBlank(v);
  }

  /** One to three digits in front of text that opens with neither a digit nor a blank. */
  lemma NumberThen(d: string, v: string)
    requires 1 <= |d| <= 3 && AllDigits(d) && v != [] && !IsDigit(v[0])
    ensures SkipSpaces(d + v) == d + v && ShortNumberLen(d + v) == |d| && (d + v)[|d|..] == v
  {
    assert (d + v)[0] == d[0];
    NoLeadingBlank(d + v);
    DigitRunAfter(d, v);
  }

  /** The words that close the two annotations. */
  lemma RepsWords()
    ensures SkipSpaces(" reps)") == "reps)" && SkipRepWord("reps)") == ")"
    ensures SkipSpaces(" reps") == "reps" && SkipRepWord("reps") == []
  {
    assert "reps" + ")" == "reps)" && " " + "reps)" == " reps)";
    assert "reps" + [] == "reps" && " " + "reps" == " reps";
    BlankThenReps(")");
    BlankThenReps([]);
  }

  lemma BlankThenReps(x: string)
    requires x == [] || !IsSpace(x[0])
    ensures SkipSpaces(" " + ("reps" + x)) == "reps" + x && SkipRepWord("reps" + x) == x
  {
    SkipBlanks(" ", "reps" + x);
    RepWordBefore(x);
  }

  /** `reps` followed by text that does not open with a blank leaves that text. */
  lemma RepWordBefore(x: string)
    requires x == [] || !IsSpace(x[0])
    ensures SkipRepWord("reps" + x) == x
  {
    var w := "reps" + x;
    assert w[..3] == "rep" && w[3..] == ['s'] + x;
    assert DropPluralS(w[3..]) == x;
    NoLeadingBlank(x);
  }

  /** ` (<d>-<e> reps)` is a parenthesised rep annotation. */
  lemma ParenRepTailOf(d: string, e: string)
    requires 1 <= |d| <= 3 && AllDigits(d) && 1 <= |e| <= 3 && AllDigits(e)
    ensures IsParenRepTail(" (" + d + "-" + e + " reps)")
  {
    var u := d + "-" + e + " reps)";
    assert " (" + d + "-" + e + " reps)" == " " + ("(" + u);
    SkipBlanks(" ", "(" + u);
    RangeFrom(d, e, " reps)");
    RepsWords();
    ParenTailSteps(" " + ("(" + u), u, |d|, "-" + e + " reps)", " reps)", "reps)");
  }

  /** ` <d>-<e> reps` is a trailing rep range. */
  lemma RangeRepTailOf(d: string, e: string)
    requires 1 <= |d| <= 3 && AllDigits(d) && 1 <= |e| <= 3 && AllDigits(e)
    ensures IsRangeRepTail(" " + d + "-" + e + " reps")
  {
    var u := d + "-" + e + " reps";
    assert " " + d + "-" + e + " reps" == " " + u;
    assert u[0] == d[0];
    SkipBlanks(" ", u);
    RangeFrom(d, e, " reps");
    RepsWords();
    RangeTailSteps(" " + u, |d|, "-" + e + " reps", " reps", "reps");
  }

  /** The cutting steps, one by one. */
  lemma TidySteps(s: string, a: string, b: string, c: string, d: string)
    requires CutFirstTail(s, IsParenRepTail) == a && CutFirstTail(a, IsRangeRepTail) == b
    requires RemoveBracketed(b) == c && CutFirstTail(c, IsRangeRepTail) == d
    ensures TidyName(s) == CollapseLongRuns(Strip(d))
  {
  }

  /** An ordinary name is left alone by each cutting step. */
  lemma PlainNameUncut(n: string)
    requires IsPlainName(n)
    ensures CutFirstTail(n, IsParenRepTail) == n && CutFirstTail(n, IsRangeRepTail) == n
    ensures RemoveBracketed(n) == n && CollapseLongRuns(Strip(n)) == n
  {
    PlainNameChars(n);
    NoParenCut(n);
    NoRangeCut(n);
    NoOpenerKept(n);
    StripUnchanged(n);
    NoDoubleBlanksKept(n);
  }

  /** Once the first cut leaves an ordinary name, the later steps keep it. */
  lemma TidyAfterCut(s: string, n: string)
    requires IsPlainName(n) && CutFirstTail(s, IsParenRepTail) == n
    ensures TidyName(s) == n
  {
    PlainNameUncut(n);
    TidySteps(s, n, n, n, n);
  }

  /** Once the second cut leaves an ordinary name, the later steps keep it. */
  lemma TidyAfterRangeCut(s: string, n: string)
    requires IsPlainName(n)
    requires CutFirstTail(s, IsParenRepTail) == s && CutFirstTail(s, IsRangeRepTail) == n
    ensures TidyName(s) == n
  {
    PlainNameUncut(n);
    TidySteps(s, s, n, n, n);
  }

  /** Once the bracketed note is removed, leaving an ordinary name and a blank, the later
      steps give the name. */
  lemma TidyAfterNote(s: string, n: string)
    requires IsPlainName(n)
    requires CutFirstTail(s, IsParenRepTail) == s && CutFirstTail(s, IsRangeRepTail) == s
    requires RemoveBracketed(s) == n + " "
    ensures TidyName(s) == n
  {
    NameBlankUncut(n);
    TidySteps(s, s, s, n + " ", n + " ");
  }

  /** An ordinary name and a blank: no range to cut, and stripping gives the name. */
  lemma NameBlankUncut(n: string)
    requires IsPlainName(n)
    ensures CutFirstTail(n + " ", IsRangeRepTail) == n + " "
    ensures CollapseLongRuns(Strip(n + " ")) == n
  {
    PlainNameChars(n);
    assert forall i :: 0 <= i < |n| + 1 ==> !IsDigit((n + " ")[i]) by {
      forall i | 0 <= i < |n| + 1 ensures !IsDigit((n + " ")[i]) {
        if i < |n| { assert (n + " ")[i] == n[i]; }
      }
    }
    NoRangeCut(n + " ");
    NameBlankStrip(n);
    NoDoubleBlanksKept(n);
  }

  /** Stripping an ordinary name and a blank gives the name. */
  lemma NameBlankStrip(n: string)
    requires IsPlainName(n)
    ensures Strip(n + " ") == n
  {
    assert (n + " ")[0] == n[0];
    NoLeadingBlank(n + " ");
    NoLeadingBlank(n);
    RStripSpaces(n, " ");
    StripUnchanged(n);
  }

  /** An ordinary name followed by text with no full stop, no two blanks in a row and no
      blank or colon at its end passes the cleaner's first steps and guards, and what the
      cutting steps leave decides the outcome. */
  lemma NameWithTail(n: string, tail: string, m: string)
    requires IsPlainName(n) && NoDot(tail) && NoTwoBlanks(tail)
    requires tail != [] && !IsSpace(tail[|tail| - 1]) && tail[|tail| - 1] != ':'
    requires TidyName(n + tail) == m && m != []
    ensures CleanName(n + tail) == PlainOutcome(m)
  {
    var s := n + tail;
    PlainNameChars(n);
    NoTwoBlanksJoin(n, tail);
    NoDotJoin(n, tail);
    assert s[0] == n[0] && s[|s| - 1] == tail[|tail| - 1];
    NamedTextKept(s);
    CutOutcome(s, m);
  }

  /** A tail pattern that matches the text after an ordinary name cuts the text back to the
      name. */
  lemma CutAfterName(n: string, tail: string, p: string -> bool)
    requires IsPlainName(n) && p(tail)
    requires forall x :: !IsParenRepTail(x) && !IsRangeRepTail(x) ==> !p(x)
    ensures CutFirstTail(n + tail, p) == n
  {
    var s := n + tail;
    assert s[|n|..] == tail && s[..|n|] == n;
    forall i | 0 <= i < |n| ensures !p(s[i..]) {
      NoTailInName(n, tail, i);
    }
    CutAtName(s, p, |n|);
  }

  /** The characters of ` (<d>-<e> reps)`. */
  lemma ParenTailChars(d: string, e: string)
    requires AllDigits(d) && |e| > 0 && AllDigits(e)
    ensures var tail := " (" + d + "-" + e + " reps)";
      NoDot(tail) && NoTwoBlanks(tail) && tail[|tail| - 1] == ')'
  {
    DigitsSolid(d);
    DigitsSolid(e);
    NoTwoBlanksJoin(" (", d);
    NoTwoBlanksJoin(" (" + d, "-");
    NoTwoBlanksJoin(" (" + d + "-", e);
    NoTwoBlanksJoin(" (" + d + "-" + e, " reps)");
    NoDotJoin(" (", d);
    NoDotJoin(" (" + d, "-");
    NoDotJoin(" (" + d + "-", e);
    NoDotJoin(" (" + d + "-" + e, " reps)");
  }

  /** The characters of ` <d>-<e> reps`. */
  lemma RangeTailChars(d: string, e: string)
    requires |d| > 0 && AllDigits(d) && |e| > 0 && AllDigits(e)
    ensures var tail := " " + d + "-" + e + " reps";
      && NoDot(tail) && NoTwoBlanks(tail) && tail[|tail| - 1] == 's'
      && forall i :: 0 <= i < |tail| ==> tail[i] != '('
  {
    DigitsSolid(d);
    DigitsSolid(e);
    NoTwoBlanksJoin(" ", d);
    NoTwoBlanksJoin(" " + d, "-");
    NoTwoBlanksJoin(" " + d + "-", e);
    NoTwoBlanksJoin(" " + d + "-" + e, " reps");
    NoDotJoin(" ", d);
    NoDotJoin(" " + d, "-");
    NoDotJoin(" " + d + "-", e);
    NoDotJoin(" " + d + "-" + e, " reps");
  }

  /** `<name> (<d>-<e> reps)`: the parenthesised range is cut and the name is kept as written,
      unless excluded. */
  lemma ParenRangeNameKept(n: string, d: string, e: string)
    requires IsPlainName(n)
    requires 1 <= |d| <= 3 && AllDigits(d) && 1 <= |e| <= 3 && AllDigits(e)
    ensures CleanName(n + " (" + d + "-" + e + " reps)") == PlainOutcome(n)
  {
    var tail := " (" + d + "-" + e + " reps)";
    assert n + " (" + d + "-" + e + " reps)" == n + tail;
    ParenTailChars(d, e);
    ParenRepTailOf(d, e);
    CutAfterName(n, tail, IsParenRepTail);
    TidyAfterCut(n + tail, n);
    NameWithTail(n, tail, n);
  }

  /** `<name> <d>-<e> reps`: the trailing range is cut and the name is kept as written, unless
      excluded. */
  lemma TrailingRangeNameKept(n: string, d: string, e: string)
    requires IsPlainName(n)
    requires 1 <= |d| <= 3 && AllDigits(d) && 1 <= |e| <= 3 && AllDigits(e)
    ensures CleanName(n + " " + d + "-" + e + " reps") == PlainOutcome(n)
  {
    var tail := " " + d + "-" + e + " reps";
    assert n + " " + d + "-" + e + " reps" == n + tail;
    RangeTailChars(d, e);
    RangeRepTailOf(d, e);
    RangeTailTidy(n, tail);
    NameWithTail(n, tail, n);
  }

  /** A trailing range with no opening parenthesis after an ordinary name is cut back to the
      name by the second step, and the later steps keep the name. */
  lemma RangeTailTidy(n: string, tail: string)
    requires IsPlainName(n) && IsRangeRepTail(tail)
    requires forall i :: 0 <= i < |tail| ==> tail[i] != '('
    ensures TidyName(n + tail) == n
  {
    NameTailUncut(n, tail);
    CutAfterName(n, tail, IsRangeRepTail);
    TidyAfterRangeCut(n + tail, n);
  }

  /** No parenthesised annotation to cut when neither part has an opening parenthesis. */
  lemma NameTailUncut(n: string, tail: string)
    requires IsPlainName(n) && forall i :: 0 <= i < |tail| ==> tail[i] != '('
    ensures CutFirstTail(n + tail, IsParenRepTail) == n + tail
  {
    PlainNameChars(n);
    NoParenJoin(n, tail);
    NoParenCut(n + tail);
  }

  lemma NoParenJoin(a: string, b: string)
    requires forall i :: 0 <= i < |a| ==> a[i] != '('
    requires forall i :: 0 <= i < |b| ==> b[i] != '('
    ensures forall i :: 0 <= i < |a + b| ==> (a + b)[i] != '('
  {
    forall i | 0 <= i < |a + b| ensures (a + b)[i] != '(' {
      if i < |a| { assert (a + b)[i] == a[i]; } else { assert (a + b)[i] == b[i - |a|]; }
    }
  }

  /** The characters of ` [<note>]`. */
  lemma NoteTailChars(t: string)
    requires NoDot(t) && NoTwoBlanks(t) && forall i :: 0 <= i < |t| ==> !IsDigit(t[i])
    ensures var tail := " [" + t + "]";
      && NoDot(tail) && NoTwoBlanks(tail) && tail[|tail| - 1] == ']'
      && forall i :: 0 <= i < |tail| ==> !IsDigit(tail[i])
  {
    var tail := " [" + t + "]";
    NoTwoBlanksJoin(" [", t);
    NoTwoBlanksJoin(" [" + t, "]");
    NoDotJoin(" [", t);
    NoDotJoin(" [" + t, "]");
    forall i | 0 <= i < |tail| ensures !IsDigit(tail[i]) {
      if 2 <= i < |tail| - 1 { assert tail[i] == t[i - 2]; }
    }
  }

  /** `<name> [<note>]`, where the note holds no closing bracket, digit, full stop or two
      blanks in a row: the note is removed and the name is kept as written, unless excluded. */
  lemma BracketNoteNameKept(n: string, t: string)
    requires IsPlainName(n)
    requires NoCloser(t) && NoDot(t) && NoTwoBlanks(t)
    requires forall i :: 0 <= i < |t| ==> !IsDigit(t[i])
    ensures CleanName(n + " [" + t + "]") == PlainOutcome(n)
  {
    var tail := " [" + t + "]";
    var s := n + tail;
    assert n + " [" + t + "]" == s;
    NoteTailChars(t);
    assert forall i :: 0 <= i < |s| ==> !IsDigit(s[i]) by {
      PlainNameChars(n);
      forall i | 0 <= i < |s| ensures !IsDigit(s[i]) {
        if i < |n| { assert s[i] == n[i]; } else { assert s[i] == tail[i - |n|]; }
      }
    }
    NoDigitCuts(s);
    NoteRemoved(n, t);
    TidyAfterNote(s, n);
    NameWithTail(n, tail, n);
  }

  lemma NoteRemoved(n: string, t: string)
    requires IsPlainName(n) && NoCloser(t)
    ensures RemoveBracketed(n + " [" + t + "]") == n + " "
  {
    assert n + " [" + t + "]" == (n + " ") + ['['] + t + [']'] + [];
    PlainNameChars(n);
    assert NoOpener(n + " ") by {
      forall i | 0 <= i < |n| + 1 ensures !IsOpener((n + " ")[i]) {
        if i < |n| { assert (n + " ")[i] == n[i]; }
      }
    }
    RemoveBracketedNote(n + " ", '[', t, ']', []);
    assert (n + " ") + RemoveBracketed([]) == n + " ";
  }

  /** Without digits neither rep annotation can be cut. */
  lemma NoDigitCuts(s: string)
    requires forall i :: 0 <= i < |s| ==> !IsDigit(s[i])
    ensures CutFirstTail(s, IsParenRepTail) == s && CutFirstTail(s, IsRangeRepTail) == s
  {
    forall i | 0 <= i <= |s|
      ensures !IsParenRepTail(s[i..])
    {
      var t := SkipSpaces(s[i..]);
      if |t| > 1 {
        var u := SkipSpaces(t[1..]);
        if |u| > 0 {
          assert u[0] == s[|s| - |u|];
        }
        assert DigitRunLen(u) == 0;
      }
    }
    CutNothing(s, IsParenRepTail);
    NoRangeCut(s);
  }
}
