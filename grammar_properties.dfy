/** Which kind of line the v1 parser sees in the usual shapes of a log
    (src/parsers/v1_parser.py, lines 8-38 and the order of the tests on lines 113-250). */
module GrammarProperties {
  import opened Wrappers
  import opened Text
  import opened Fields
  import opened Grammar

  /** A run of digits followed by text that does not continue the number. */
  lemma DigitsThen(d: string, s: string)
    requires |d| > 0 && AllDigits(d)
    requires s == [] || !IsDigit(s[0])
    ensures DigitRunLen(d + s) == |d|
    ensures (s == [] || s[0] != '.') ==> DecimalLen(d + s) == |d|
  {
    var u := d + s;
    assert forall i :: 0 <= i < |d| ==> u[i] == d[i];
    if |d| < |u| {
      assert u[|d|] == s[0];
    }
    RunLenUnique(u, IsDigit, |d|);
  }

  /** One blank, then text that starts with something else. */
  lemma OneSpaceThen(s: string)
    requires s == [] || !IsSpace(s[0])
    ensures SkipSpaces(" " + s) == s
  {
    SkipSpacesAppend(" ", s);
    assert SpaceRunLen(s) == 0;
  }

  /** What exercise_pattern captures: a letter, name characters, and a letter or digit at the
      end, at least three characters in all. */
  predicate IsNameShape(g: string) {
    && |g| >= 3 && IsAsciiLetter(g[0]) && IsAlnum(g[|g| - 1])
    && (forall i :: 0 <= i < |g| ==> IsNameChar(g[i]))
  }

  // ---------------------------------------------------------------------------------------
  // Exercise names and section headers

  /** Every name character is a section character, so a name line without a list marker
      also matches section_pattern: the section test, which comes first, takes it. */
  lemma BareNameIsSection(line: string)
    requires MatchExercise(line).Some? && MarkerLen(line) == 0
    ensures MatchesSectionPattern(line)
  {
    assert line[0..] == line;
    var t := SkipSpaces(line);
    var g := MatchExercise(line).value;
    assert g == RStrip(t);
    assert t[0] == g[0];
    forall i | 1 <= i < |t|
      ensures IsSectionChar(t[i])
    {
      if i < |g| {
        assert t[i] == g[i] && IsNameChar(g[i]);
      } else {
        assert t[|g|..][i - |g|] == t[i];
      }
    }
    RunLenUnique(t[1..], IsSectionChar, |t| - 1);
  }

  /** Hence every line the parser reads as an exercise name opens with a dash, a bullet or a
      number and a full stop. */
  lemma ExerciseLineHasMarker(line: string)
    requires Classify(line).ExerciseLine?
    ensures MarkerLen(line) > 0
  {
    if MarkerLen(line) == 0 {
      BareNameIsSection(line);
      assert false;
    }
  }

  /** A line that opens with anything but a digit is not a date header. */
  lemma NoLeadingDigit(line: string)
    requires line != [] && !IsDigit(line[0])
    ensures MatchDate(line).None?
  {
    assert DigitRunLen(line) == 0;
  }

  /** A name with nothing around it is captured whole, with no list marker. */
  lemma NameShapeCaptured(name: string)
    requires IsNameShape(name)
    ensures MarkerLen(name) == 0 && MatchExercise(name) == Some(name)
  {
    LetterNoMarker(name);
    NameShapeEnds(name);
    MatchExerciseAt(name, 0, name);
  }

  /** A line that opens with a letter has no list marker. */
  lemma LetterNoMarker(line: string)
    requires line != [] && IsAsciiLetter(line[0])
    ensures MarkerLen(line) == 0
  {
    assert DigitRunLen(line) == 0;
  }

  /** A name of the right shape has no blank to skip or strip at either end. */
  lemma NameShapeEnds(name: string)
    requires IsNameShape(name)
    ensures RStrip(SkipSpaces(name[0..])) == name
  {
    assert name[0..] == name;
    assert SpaceRunLen(name) == 0;
    assert RStrip(name) == name;
  }

  /** exercise_pattern on a line whose marker and name are known. */
  lemma MatchExerciseAt(line: string, k: nat, g: string)
    requires MarkerLen(line) == k && RStrip(SkipSpaces(line[k..])) == g && IsNameShape(g)
    ensures MatchExercise(line) == Some(g)
  {
  }

  /** A name alone on its line is a section header. */
  lemma BareNameLine(name: string)
    requires IsNameShape(name)
    ensures Classify(name) == SectionLine
  {
    NoLeadingDigit(name);
    NameShapeCaptured(name);
    BareNameIsSection(name);
  }

  /** The classifier's verdict when only the exercise pattern matches. */
  lemma OnlyExerciseMatches(line: string, name: string)
    requires MatchDate(line).None? && !IsSectionHeader(line) && MatchSet(line).None?
    requires MatchExercise(line) == Some(name)
    ensures Classify(line) == ExerciseLine(name)
  {
  }

  /** A line that opens with `- ` and ends in a non-blank is neither a section header nor a
      set line. */
  lemma DashLineNotSectionOrSet(line: string)
    requires |line| >= 2 && line[0] == '-' && line[1] == ' ' && !IsSpace(line[|line| - 1])
    ensures !IsSectionHeader(line) && MatchSet(line).None?
  {
    assert SpaceRunLen(line) == 0;
    assert SkipSpaces(line) == line;
    StripUnchanged(line);
    if |line| >= 3 {
      assert line[..3][1] == ' ';
    }
    assert SetNoLen(line) == 0;
  }

  /** After `- `, the exercise pattern captures a name of the right shape whole. */
  lemma DashedNameCaptured(name: string)
    requires IsNameShape(name)
    ensures MatchExercise("- " + name) == Some(name)
  {
    var line := "- " + name;
    assert MarkerLen(line) == 1;
    assert line[1..] == " " + name;
    OneSpaceThen(name);
    assert RStrip(name) == name;
    MatchExerciseAt(line, 1, name);
  }

  /** A name after a dash and a blank is an exercise line that captures the name. */
  lemma DashedName(name: string)
    requires IsNameShape(name)
    ensures Classify("- " + name) == ExerciseLine(name)
  {
    var line := "- " + name;
    assert line[0] == '-' && line[1] == ' ' && line[|line| - 1] == name[|name| - 1];
    NoLeadingDigit(line);
    DashLineNotSectionOrSet(line);
    DashedNameCaptured(name);
    OnlyExerciseMatches(line, name);
  }

  // ---------------------------------------------------------------------------------------
  // Set lines

  /** What section_pattern sees of a line that opens with `S<n>:`: no leading blank, and a
      run of section characters that stops at the colon. */
  lemma SetPrefixShape(n: nat, rest: string)
    ensures var ds := NatToDigits(n); var line := "S" + ds + ":" + rest;
      && SkipSpaces(line) == line
      && RunLen(line[1..], IsSectionChar) == |ds|
      && line[|ds| + 1] == ':' && line[|ds| + 2..] == rest
  {
    SetPrefixShapeOf(NatToDigits(n), rest);
  }

  lemma SetPrefixShapeOf(ds: string, rest: string)
    requires AllDigits(ds)
    ensures var line := "S" + ds + ":" + rest;
      && SkipSpaces(line) == line
      && RunLen(line[1..], IsSectionChar) == |ds|
      && line[|ds| + 1] == ':' && line[|ds| + 2..] == rest
  {
    var line := "S" + ds + ":" + rest;
    assert SkipSpaces(line) == line by {
      assert line[0] == 'S';
      NoLeadingBlank(line);
    }
    assert line[1..] == ds + ":" + rest;
    DigitsColonRun(ds, rest);
    assert line[|ds| + 2..] == rest;
  }

  /** The section characters of digits then a colon stop at the colon. */
  lemma DigitsColonRun(ds: string, rest: string)
    requires AllDigits(ds)
    ensures RunLen(ds + ":" + rest, IsSectionChar) == |ds|
  {
    var tail := ds + ":" + rest;
    assert forall i :: 0 <= i < |ds| ==> tail[i] == ds[i];
    assert tail[|ds|] == ':';
    RunLenUnique(tail, IsSectionChar, |ds|);
  }

  /** What set_pattern sees of a line that opens with `S<n>:`: the digits and the value `n`. */
  lemma SetPrefixNumber(n: nat, rest: string)
    ensures var ds := NatToDigits(n); var line := "S" + ds + ":" + rest;
      && SetNoLen(line) == |ds| && DigitsValue(line[1..|ds| + 1]) == n
      && line[|ds| + 2..] == rest
  {
    var ds := NatToDigits(n);
    var line := "S" + ds + ":" + rest;
    assert line[1..] == ds + (":" + rest);
    DigitsThen(ds, ":" + rest);
    assert line[1..|ds| + 1] == ds;
    assert line[|ds| + 2..] == rest;
    DigitsRoundTrip(n);
  }

  /** section_pattern fails when the run of section characters stops at a character that
      is not a colon followed by blanks only. */
  lemma SectionRunStops(line: string, k: nat)
    requires SkipSpaces(line) == line && 2 <= k < |line|
    requires RunLen(line[1..], IsSectionChar) == k - 1
    requires line[k] == ':' ==> k + 2 < |line| && !IsSpace(line[k + 2])
    ensures !MatchesSectionPattern(line)
  {
    if line[k] == ':' {
      assert line[k + 1..][1] == line[k + 2];
    }
  }

  /** A line that opens with a character other than a blank or a dash is not a `---` rule. */
  lemma NotRule(line: string)
    requires line != [] && !IsSpace(line[0]) && line[0] != '-'
    ensures !StartsWith(Strip(line), "---")
  {
    assert SpaceRunLen(line) == 0;
    assert SkipSpaces(line) == line;
    var r := RStrip(line);
    if |r| > 0 {
      assert r[0] == line[0];
    }
  }

  /** `: ` is a colon and then a blank. */
  lemma ColonSpaceRegroup(a: string, body: string)
    ensures a + ": " + body == a + ":" + (" " + body)
  {
    RegroupThree(a, ": ", body);
    RegroupThree(a, ":", " " + body);
    assert ": " + body == ":" + (" " + body);
  }

  /** section_pattern on a set line with a body: the run stops at the colon, and more than
      blanks follows it. */
  lemma SetLineNotSection(n: nat, body: string)
    requires body != [] && !IsSpace(body[0])
    ensures !MatchesSectionPattern("S" + NatToDigits(n) + ": " + body)
  {
    var ds := NatToDigits(n);
    var line := "S" + ds + ": " + body;
    ColonSpaceRegroup("S" + ds, body);
    SetPrefixShape(n, " " + body);
    assert line[|ds| + 3] == body[0];
    SectionRunStops(line, |ds| + 1);
  }

  /** A set line with a body is neither a date header nor a section header. */
  lemma SetLineNotHeader(n: nat, body: string)
    requires body != [] && !IsSpace(body[0])
    ensures var line := "S" + NatToDigits(n) + ": " + body;
      MatchDate(line).None? && !IsSectionHeader(line)
  {
    var line := "S" + NatToDigits(n) + ": " + body;
    NoLeadingDigit(line);
    SetLineNotSection(n, body);
    NotRule(line);
  }

  /** The parts of `S<n>: <body>` that set_pattern reads. */
  lemma SetLineParts(n: nat, body: string)
    requires body == [] || !IsSpace(body[0])
    ensures var ds := NatToDigits(n); var line := "S" + ds + ": " + body;
      && SetNoLen(line) == |ds| && DigitsValue(line[1..|ds| + 1]) == n
      && SkipSpaces(line[|ds| + 2..]) == body
  {
    var ds := NatToDigits(n);
    var line := "S" + ds + ": " + body;
    ColonSpaceRegroup("S" + ds, body);
    SetPrefixNumber(n, " " + body);
    OneSpaceThen(body);
  }

  /** set_pattern on a line whose `S<n>:` prefix and body are known. */
  lemma MatchSetAt(line: string, d: nat, n: nat, body: string)
    requires SetNoLen(line) == d > 0 && DigitsValue(line[1..d + 1]) == n
    requires SkipSpaces(line[d + 2..]) == body
    ensures MatchSet(line) == Some(SetMatch(n, MatchSetBody(body).0, MatchSetBody(body).1))
  {
  }

  /** set_pattern on `S<n>: <body>`: set number `n` and the body's alternative. */
  lemma SetLineMatch(n: nat, body: string)
    requires body == [] || !IsSpace(body[0])
    ensures MatchSet("S" + NatToDigits(n) + ": " + body)
         == Some(SetMatch(n, MatchSetBody(body).0, MatchSetBody(body).1))
  {
    SetLineParts(n, body);
    MatchSetAt("S" + NatToDigits(n) + ": " + body, |NatToDigits(n)|, n, body);
  }

  /** `S<n>:`, a blank and a body that opens with something other than a blank is a set
      line: set number `n` and the body's alternative. */
  lemma SetLineClassified(n: nat, body: string)
    requires body != [] && !IsSpace(body[0])
    ensures Classify("S" + NatToDigits(n) + ": " + body)
         == SetLine(SetMatch(n, MatchSetBody(body).0, MatchSetBody(body).1))
  {
    SetLineNotHeader(n, body);
    SetLineMatch(n, body);
  }

  /** `S<n>:` with nothing after it matches set_pattern with no body, but it also matches
      section_pattern (the `S`, the digits, the optional colon), which is tested first: such
      a line clears the exercise instead of recording a set. */
  lemma EmptySetLineIsSection(n: nat)
    ensures MatchSet("S" + NatToDigits(n) + ":") == Some(SetMatch(n, NoBody, None))
    ensures Classify("S" + NatToDigits(n) + ":") == SectionLine
  {
    var ds := NatToDigits(n);
    var line := "S" + ds + ":";
    assert line == "S" + ds + ":" + [];
    NoLeadingDigit(line);
    SetPrefixShape(n, []);
    SetPrefixNumber(n, []);
    assert line[0] == 'S' && |line| == |ds| + 2;
    EmptySetLineAt(line, |ds|, n);
  }

  /** A line that is `S`, a run of `d` digits reading `n`, and a colon, from the facts about
      its parts. */
  lemma EmptySetLineAt(line: string, d: nat, n: nat)
    requires SkipSpaces(line) == line && |line| == d + 2 && line[0] == 'S'
    requires RunLen(line[1..], IsSectionChar) == d && line[d + 1] == ':'
    requires SetNoLen(line) == d > 0 && DigitsValue(line[1..d + 1]) == n
    requires MatchDate(line).None?
    ensures MatchSet(line) == Some(SetMatch(n, NoBody, None))
    ensures Classify(line) == SectionLine
  {
    assert MatchesSectionPattern(line);
    MatchSetAt(line, d, n, []);
  }

  /** `kg x ` in front of text that opens with a digit: the unit and the sign are taken. */
  lemma KgTimes(t: string)
    requires t != [] && IsDigit(t[0])
    ensures UnitThenTimes("kg x " + t) == Some(" " + t)
  {
    var a := "kg x " + t;
    assert SpaceRunLen(a) == 0;
    assert a[..2] == "kg";
    assert StartsWithCI(a, "kg");
    assert a[2..] == " " + ("x " + t);
    OneSpaceThen("x " + t);
    assert ("x " + t)[1..] == " " + t;
  }

  /** Blanks, a multiplication sign, then anything: the sign is taken without a unit. */
  lemma SignTimes(g: string, c: char, t: string)
    requires AllSpaces(g) && IsTimesSign(c)
    ensures UnitThenTimes(g + [c] + t) == Some(t)
  {
    var a := [c] + t;
    assert g + [c] + t == g + a;
    SkipBlanks(g, a);
    assert !StartsWithCI(a, "kg") by {
      if |a| >= 2 { assert Lower(a[..2])[0] == LowerChar(a[0]); }
    }
    assert a[1..] == t;
  }

  /** `set_noprefix_re` anchored on `<w> x <r>`: two digit strings joined by blanks and a
      multiplication sign, followed by text that does not continue the second number, are
      matched as the weight and the reps. */
  lemma WeightRepsAtOf(dw: string, g1: string, c: char, g2: string, dr: string, rest: string)
    requires |dw| > 0 && AllDigits(dw) && |dr| > 0 && AllDigits(dr)
    requires AllSpaces(g1) && IsTimesSign(c) && AllSpaces(g2)
    requires rest == [] || (!IsDigit(rest[0]) && rest[0] != '.')
    ensures WeightRepsAt(dw + g1 + [c] + g2 + dr + rest) == Some((dw, dr))
  {
    var r := dr + rest;
    var t := g2 + r;
    var u := g1 + [c] + t;
    var s := dw + u;
    assert dw + g1 + [c] + g2 + dr + rest == s;
    assert DecimalLen(s) == |dw| by {
      assert u[0] == if g1 == [] then c else g1[0];
      DigitsThen(dw, u);
    }
    assert UnitThenTimes(s[|dw|..]) == Some(t) by {
      assert s[|dw|..] == u;
      SignTimes(g1, c, t);
    }
    assert SkipSpaces(t) == r by {
      assert r[0] == dr[0];
      SkipBlanks(g2, r);
    }
    assert DecimalLen(r) == |dr| by {
      assert rest == [] || r[|dr|] == rest[0];
      DigitsThen(dr, rest);
    }
    assert s[..|dw|] == dw && r[..|dr|] == dr;
    WeightRepsAtAt(s, |dw|, t, r, |dr|);
  }

  /** The anchored pattern, step by step: the weight token, the unit and sign, the reps token. */
  lemma WeightRepsAtAt(s: string, w: nat, t: string, r: string, n: nat)
    requires DecimalLen(s) == w > 0 && UnitThenTimes(s[w..]) == Some(t)
    requires SkipSpaces(t) == r && DecimalLen(r) == n > 0
    ensures WeightRepsAt(s) == Some((s[..w], r[..n]))
  {
  }

  /** The word `reps` ends a body: `rep`, the plural `s`, and nothing after it. */
  lemma RepsWordEnds()
    ensures StartsWithCI("reps", "rep") && DropPluralS("reps"[3..]) == []
  {
    assert "reps"[..3] == "rep";
  }

  /** `<r> reps` after the sign: the reps group is the number, then the word `reps`. */
  lemma RepsWord(dr: string)
    requires |dr| > 0 && AllDigits(dr)
    ensures var r0 := dr + " reps";
      && RepsPairLen(r0) == |dr| && r0[..|dr|] == dr
      && var after := SkipSpaces(r0[|dr|..]);
      && StartsWithCI(after, "rep") && DropPluralS(after[3..]) == []
  {
    var r0 := dr + " reps";
    DigitsThen(dr, " reps");
    assert r0[|dr|..] == " reps" && r0[..|dr|] == dr;
    OneSpaceThen("reps");
    assert DigitRunLen("reps") == 0;
    RepsWordEnds();
  }

  /** The weight-times-reps alternative, step by step: the weight token, the unit and sign,
      the reps group, and a `reps` word that ends the body. */
  lemma BranchWeightRepsAt(body: string, w: nat, s: string, n: nat)
    requires DecimalLen(body) == w > 0 && UnitThenTimes(body[w..]) == Some(s)
    requires RepsPairLen(SkipSpaces(s)) == n > 0
    requires var after := SkipSpaces(SkipSpaces(s)[n..]);
      StartsWithCI(after, "rep") && DropPluralS(after[3..]) == []
    ensures BranchWeightReps(body) == Some((WeightReps(body[..w], SkipSpaces(s)[..n]), None))
  {
  }

  /** A digit string, then `kg x ` and text that opens with a digit: the weight token is the
      digits, and the unit and the sign leave the blank and that text. */
  lemma WeightUnitTimesAt(dw: string, t: string)
    requires |dw| > 0 && AllDigits(dw) && t != [] && IsDigit(t[0])
    ensures var body := dw + ("kg x " + t);
      && DecimalLen(body) == |dw| && body[..|dw|] == dw
      && UnitThenTimes(body[|dw|..]) == Some(" " + t)
  {
    var a := "kg x " + t;
    DigitsThen(dw, a);
    assert (dw + a)[|dw|..] == a && (dw + a)[..|dw|] == dw;
    KgTimes(t);
  }

  /** The weight token of `<w>kg x <r> reps`, then the unit and the sign. */
  lemma WeightUnitTimes(w: nat, r: nat)
    ensures var body := NatToDigits(w) + "kg x " + NatToDigits(r) + " reps";
      DecimalLen(body) == |NatToDigits(w)| && body[..|NatToDigits(w)|] == NatToDigits(w)
    ensures var body := NatToDigits(w) + "kg x " + NatToDigits(r) + " reps";
      UnitThenTimes(body[|NatToDigits(w)|..]) == Some(" " + (NatToDigits(r) + " reps"))
  {
    var dw, dr := NatToDigits(w), NatToDigits(r);
    RegroupFour(dw, "kg x ", dr, " reps");
    assert (dr + " reps")[0] == dr[0];
    WeightUnitTimesAt(dw, dr + " reps");
  }

  /** The weight-times-reps alternative on `<w>kg x <r> reps`: the two numbers, no notes. */
  lemma WeightRepsBranch(w: nat, r: nat)
    ensures BranchWeightReps(NatToDigits(w) + "kg x " + NatToDigits(r) + " reps")
         == Some((WeightReps(NatToDigits(w), NatToDigits(r)), None))
  {
    var dw, dr := NatToDigits(w), NatToDigits(r);
    WeightUnitTimes(w, r);
    OneSpaceThen(dr + " reps");
    RepsWord(dr);
    BranchWeightRepsAt(dw + "kg x " + dr + " reps", |dw|, " " + (dr + " reps"), |dr|);
  }

  /** The body `<w>kg x <r> reps` takes the weight-times-reps alternative, the first one
      tried, with the two numbers as its groups and no notes. */
  lemma WeightRepsBody(w: nat, r: nat)
    ensures MatchSetBody(NatToDigits(w) + "kg x " + NatToDigits(r) + " reps")
         == (WeightReps(NatToDigits(w), NatToDigits(r)), None)
  {
    WeightRepsBranch(w, r);
  }

  // ---------------------------------------------------------------------------------------
  // Date headers

  /** Digits, a separator that is not a digit, then anything. */
  lemma DigitsThenSep(d: string, sep: char, t: string)
    requires |d| > 0 && AllDigits(d) && !IsDigit(sep)
    ensures var u := d + [sep] + t;
      DigitRunLen(u) == |d| && u[|d|] == sep && u[|d| + 1..] == t
  {
    assert d + [sep] + t == d + ([sep] + t);
    DigitsThen(d, [sep] + t);
    assert (d + [sep] + t)[|d| + 1..] == t;
  }

  /** The date literal, read from the facts about its three digit runs. */
  lemma DateLiteralAt(line: string, a: nat, b: nat, c: nat)
    requires 1 <= a <= 2 && 1 <= b <= 2 && 2 <= c <= 4
    requires DigitRunLen(line) == a && a < |line| && line[a] == '-'
    requires DigitRunLen(line[a + 1..]) == b && a + 1 + b < |line| && line[a + 1 + b] == '-'
    requires DigitRunLen(line[a + 1 + b + 1..]) == c
    ensures DateLiteralLen(line) == a + b + c + 2
  {
    assert line[a + 1..][b] == line[a + 1 + b];
    assert line[a + 1..][b + 1..] == line[a + 1 + b + 1..];
  }

  /** The three digit runs of `<d>-<m>-<y>` in front of text that does not continue them. */
  lemma DateRuns(a: string, b: string, c: string, rest: string)
    requires |a| > 0 && |b| > 0 && |c| > 0
    requires AllDigits(a) && AllDigits(b) && AllDigits(c)
    requires rest == [] || !IsDigit(rest[0])
    ensures var line := a + "-" + b + "-" + c + rest;
      && DigitRunLen(line) == |a| && line[|a|] == '-'
      && DigitRunLen(line[|a| + 1..]) == |b| && line[|a| + 1 + |b|] == '-'
      && DigitRunLen(line[|a| + 1 + |b| + 1..]) == |c|
  {
    var s2 := c + rest;
    var s1 := b + "-" + s2;
    var line := a + "-" + s1;
    assert a + "-" + b + "-" + c + rest == line;
    DigitsThenSep(a, '-', s1);
    DigitsThenSep(b, '-', s2);
    assert line[|a| + 1 + |b| + 1..] == s2;
    DigitsThen(c, rest);
  }

  /** The date literal `<d>-<m>-<y>` with digit runs of the allowed lengths, in front of
      text that does not continue it. */
  lemma DateLiteral(a: string, b: string, c: string, rest: string)
    requires 1 <= |a| <= 2 && 1 <= |b| <= 2 && 2 <= |c| <= 4
    requires AllDigits(a) && AllDigits(b) && AllDigits(c)
    requires rest == [] || !IsDigit(rest[0])
    ensures DateLiteralLen(a + "-" + b + "-" + c + rest) == |a| + |b| + |c| + 2
  {
    DateRuns(a, b, c, rest);
    DateLiteralAt(a + "-" + b + "-" + c + rest, |a|, |b|, |c|);
  }

  /** date_pattern on a line whose date literal is known and is followed by one blank. */
  lemma MatchDateAt(line: string, n: nat, rest: string)
    requires DateLiteralLen(line) == n > 0 && line[n..] == " " + rest
    requires rest != [] && !IsSpace(rest[0])
    ensures MatchDate(line) == Some(DateMatch(line[..n], rest))
  {
    OneSpaceThen(rest);
    assert SpaceRunLen(" " + rest) == 1;
  }

  /** date_pattern on `<d>-<m>-<y> <rest>`: the date literal and the rest of the line. */
  lemma DateHeaderMatch(a: string, b: string, c: string, rest: string)
    requires 1 <= |a| <= 2 && 1 <= |b| <= 2 && 2 <= |c| <= 4
    requires AllDigits(a) && AllDigits(b) && AllDigits(c)
    requires rest != [] && !IsSpace(rest[0])
    ensures MatchDate(a + "-" + b + "-" + c + " " + rest)
         == Some(DateMatch(a + "-" + b + "-" + c, rest))
  {
    var line := a + "-" + b + "-" + c + " " + rest;
    assert line == a + "-" + b + "-" + c + (" " + rest);
    DateLiteral(a, b, c, " " + rest);
    var n := |a| + |b| + |c| + 2;
    assert line[n..] == " " + rest;
    assert line[..n] == a + "-" + b + "-" + c;
    MatchDateAt(line, n, rest);
  }

  /** Such a line is a date header: the date test comes first. */
  lemma DateHeaderClassified(a: string, b: string, c: string, rest: string)
    requires 1 <= |a| <= 2 && 1 <= |b| <= 2 && 2 <= |c| <= 4
    requires AllDigits(a) && AllDigits(b) && AllDigits(c)
    requires rest != [] && !IsSpace(rest[0])
    ensures Classify(a + "-" + b + "-" + c + " " + rest)
         == DateLine(DateMatch(a + "-" + b + "-" + c, rest))
  {
    DateHeaderMatch(a, b, c, rest);
  }
}
