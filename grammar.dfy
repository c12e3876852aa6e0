/** The line recognisers of the v1 parser (src/parsers/v1_parser.py, lines 8-38): the date
    header, the section header, the structured `S<n>:` set line, the loose exercise-name line
    and the prefix-less `weight x reps` search used by the classifier fallback.

    Each regular expression is recognised by hand. Its tokens are taken greedily, which gives
    the same captures as the regex engine's backtracking: at every point where a token could
    give characters back, the character it would give back (a digit, a space, a letter of a
    unit) cannot start what follows it. A line never holds a line break (lines come from
    splitting on them), so `.` in a pattern stands for any character. */
module Grammar {
  import opened Wrappers
  import opened Text
  import opened Fields

  // ---------------------------------------------------------------------------------------
  // Shared atoms

  /** `[×xX\*]`, the multiplication sign between a weight and a count. */
  predicate IsTimesSign(c: char) { c == '×' || c == 'x' || c == 'X' || c == '*' }

  /** The regex word boundary `\b` after a word character: the next character is not one. */
  predicate BoundaryAfterWord(s: string) { s == [] || !IsWordChar(s[0]) }

  /** `\s*(?:kg|kgs)?\s*[×xX\*]` at the start of `s`, case-insensitive: what follows the
      sign, when the unit and sign are there. */
  function UnitThenTimes(s: string): (r: Option<string>)
  {
    var s1 := SkipSpaces(s);
    if StartsWithCI(s1, "kg") then
      var s2 := SkipSpaces(s1[2..]);
      if |s2| > 0 && IsTimesSign(s2[0]) then Some(s2[1..])
      else if StartsWithCI(s1, "kgs") then
        var s3 := SkipSpaces(s1[3..]);
        if |s3| > 0 && IsTimesSign(s3[0]) then Some(s3[1..]) else None
      else None
    else if |s1| > 0 && IsTimesSign(s1[0]) then Some(s1[1..])
    else None
  }

  /** A token that opens a suffix of a suffix of `s` sits in `s` where that suffix starts. */
  lemma TokenAfterSign(s: string, u: string, t: string, r: string, n: nat)
    requires |u| <= |s| && u == s[|s| - |u|..]
    requires |t| < |u| && t == u[|u| - |t|..]
    requires |r| <= |t| && r == t[|t| - |r|..]
    requires 0 < n == DecimalLen(r)
    ensures |s| - |r| > |s| - |u| && TokenAt(s, |s| - |r|, r[..n])
  {
    var j := |s| - |r|;
    assert r == s[j..];
    assert r[..n] == s[j..j + n];
  }

  /** What follows the sign is the end of the text. */
  lemma UnitThenTimesSuffix(s: string)
    ensures var r := UnitThenTimes(s); r.Some? ==> |r.value| < |s| && r.value == s[|s| - |r.value|..]
  {
    var s1 := SkipSpaces(s);
    if StartsWithCI(s1, "kg") {
      var s2 := SkipSpaces(s1[2..]);
      assert s1[2..] == s[|s| - |s1| + 2..];
      if StartsWithCI(s1, "kgs") {
        assert s1[3..] == s[|s| - |s1| + 3..];
      }
    }
  }

  // ---------------------------------------------------------------------------------------
  // date_pattern: ^(\d{1,2}[\-_/]\d{1,2}[\-_/]\d{2,4})\s+(.+)$

  predicate IsDateSep(c: char) { c == '-' || c == '_' || c == '/' }

  /** The date literal and everything after the whitespace that follows it. */
  datatype DateMatch = DateMatch(rawDate: string, rest: string)

  /** The length of the date literal at the start of `s`, or 0 when there is none: two runs of
      one or two digits and a run of two to four digits, joined by separators. A digit run that
      is longer than allowed makes the whole pattern fail, since the digit it leaves over
      cannot be a separator or whitespace. */
  function DateLiteralLen(s: string): (n: nat)
    ensures n <= |s|
    ensures n > 0 ==> 6 <= n <= 10 && IsDigit(s[0]) && IsDigit(s[n - 1])
    ensures n > 0 ==> n == |s| || !IsDigit(s[n])
  {
    var a := DigitRunLen(s);
    if !(1 <= a <= 2 && a < |s| && IsDateSep(s[a])) then 0
    else
      var s1 := s[a + 1..];
      var b := DigitRunLen(s1);
      if !(1 <= b <= 2 && b < |s1| && IsDateSep(s1[b])) then 0
      else
        var s2 := s1[b + 1..];
        var c := DigitRunLen(s2);
        if 2 <= c <= 4 then
          assert s[a + 1 + b + 1 + c - 1] == s2[c - 1];
          assert a + 1 + b + 1 + c < |s| ==> s[a + 1 + b + 1 + c] == s2[c];
          a + 1 + b + 1 + c
        else 0
  }

  /** `\s+(.+)$` on the text after the date literal: the captured rest. When the whitespace
      runs to the end, `(.+)` takes its last character back from `\s+`. */
  function SpacedRest(after: string): (r: Option<string>)
    ensures r.Some? ==> var n := |after| - |r.value|;
      r.value != [] && 0 < n && after[n..] == r.value && AllSpaces(after[..n])
  {
    var k := SpaceRunLen(after);
    if k == 0 then None
    else if k < |after| then Some(after[k..])
    else if k >= 2 then Some(after[k - 1..])
    else None
  }

  /** date_pattern.match(line): the date literal, whitespace, and a non-empty rest. */
  function MatchDate(line: string): (m: Option<DateMatch>)
    ensures m.Some? ==> var d := m.value.rawDate; var r := m.value.rest;
      && DateLiteralLen(line) == |d| > 0 && line[..|d|] == d
      && r != [] && |d| < |line| - |r| && line[|line| - |r|..] == r
      && AllSpaces(line[|d|..|line| - |r|])
    ensures DateLiteralLen(line) == 0 ==> m.None?
  {
    var n := DateLiteralLen(line);
    if n == 0 then None
    else
      match SpacedRest(line[n..])
      case None => None
      case Some(r) =>
        assert line[n..][..|line| - n - |r|] == line[n..|line| - |r|];
        Some(DateMatch(line[..n], r))
  }

  // ---------------------------------------------------------------------------------------
  // section_pattern: ^\s*([A-Za-z][A-Za-z0-9\s\-\&\(\)]+):?\s*$

  /** `[A-Za-z0-9\s\-\&\(\)]`. */
  predicate IsSectionChar(c: char) {
    IsAlnum(c) || IsSpace(c) || c == '-' || c == '&' || c == '(' || c == ')'
  }

  /** section_pattern.match(line). The run of section characters is taken whole (it includes
      whitespace, so it takes any trailing blanks too); after it only an optional colon and
      whitespace may remain. */
  predicate MatchesSectionPattern(line: string) {
    var t := SkipSpaces(line);
    && |t| >= 2 && IsAsciiLetter(t[0])
    && var k := 1 + RunLen(t[1..], IsSectionChar);
    && k >= 2
    && (k == |t| || (t[k] == ':' && AllSpaces(t[k + 1..])))
  }

  /** The section test of the parser: the pattern, or a line whose stripped text starts with
      `---`. */
  predicate IsSectionHeader(line: string) {
    MatchesSectionPattern(line) || StartsWith(Strip(line), "---")
  }

  // ---------------------------------------------------------------------------------------
  // exercise_pattern: ^(?:[-•]|\d+\.)?\s*([A-Za-z][A-Za-z0-9\s\-\(\)]+[A-Za-z0-9])\s*$

  /** `[A-Za-z0-9\s\-\(\)]`. */
  predicate IsNameChar(c: char) { IsAlnum(c) || IsSpace(c) || c == '-' || c == '(' || c == ')' }

  /** The length of the optional list marker: a dash, a bullet, or digits and a full stop. */
  function MarkerLen(line: string): (n: nat)
    ensures n <= |line|
  {
    if |line| > 0 && (line[0] == '-' || line[0] == '•') then 1
    else
      var d := DigitRunLen(line);
      if 0 < d < |line| && line[d] == '.' then d + 1 else 0
  }

  /** exercise_pattern.match(line), giving the captured name: after the marker and blanks, a
      letter, then name characters, ending in a letter or digit, at least three characters,
      and nothing but blanks after it. */
  function MatchExercise(line: string): (m: Option<string>)
    ensures m.Some? ==> var g := m.value;
      && |g| >= 3 && IsAsciiLetter(g[0]) && IsAlnum(g[|g| - 1])
      && (forall i :: 0 <= i < |g| ==> IsNameChar(g[i]))
  {
    var g := RStrip(SkipSpaces(line[MarkerLen(line)..]));
    if && |g| >= 3 && IsAsciiLetter(g[0]) && IsAlnum(g[|g| - 1])
       && (forall i :: 0 <= i < |g| ==> IsNameChar(g[i]))
    then Some(g)
    else None
  }

  // ---------------------------------------------------------------------------------------
  // set_pattern (IGNORECASE):
  //   ^S(?P<setno>\d+):\s*(?: weight x reps | weight x sec | sec only | reps only | catch-all )?
  //   (?:\s*\((?P<notes>.*?)\))?$

  /** Which alternative of the set line's body matched, with its captured groups. */
  datatype SetBody =
    | WeightReps(weight: string, reps: string)
    | WeightSec(weight: string, time: string)
    | SecOnly(time: string)
    | RepsOnly(reps: string)
    | Catch(text: string)
    | NoBody

  datatype SetMatch = SetMatch(setNo: nat, body: SetBody, notes: Option<string>)

  /** `(?:\s*\((?P<notes>.*?)\))?$` on what is left after the body: nothing at all (no notes),
      or blanks and a parenthesised text that closes at the very end (its inside is the
      notes). `None` when neither. */
  function NotesTail(r: string): (n: Option<Option<string>>)
    ensures r == [] ==> n == Some(None)
    ensures n == Some(None) ==> r == []
    ensures n.Some? && n.value.Some? ==>
      var k := |r| - |n.value.value| - 2;
      k >= 0 && AllSpaces(r[..k]) && r[k..] == "(" + n.value.value + ")"
    ensures n.None? ==> r != [] && var t := SkipSpaces(r); !(|t| >= 2 && t[0] == '(' && t[|t| - 1] == ')')
  {
    if r == [] then Some(None)
    else
      var t := SkipSpaces(r);
      if |t| >= 2 && t[0] == '(' && t[|t| - 1] == ')' then
        var k := SpaceRunLen(r);
        assert t == r[k..] && r[..k] == r[..k];
        assert t == "(" + t[1..|t| - 1] + ")";
        Some(Some(t[1..|t| - 1]))
      else None
  }

  /** Blanks, then a parenthesised text at the very end, is read as that text. */
  lemma NotesTailOf(pad: string, notes: string)
    requires AllSpaces(pad)
    ensures NotesTail(pad + "(" + notes + ")") == Some(Some(notes))
  {
    var t := "(" + notes + ")";
    RunLenUnique(pad, IsSpace, |pad|);
    assert pad + "(" + notes + ")" == pad + t;
    SkipSpacesAppend(pad, t);
    assert SpaceRunLen(t) == 0 by { assert !IsSpace(t[0]); }
    assert SkipSpaces(t) == t;
    assert t[1..|t| - 1] == notes;
  }

  /** The length of `\d+(?:\.\d+)?(?:\s*\d+(?:\.\d+)?)?`: a number, optionally followed by a
      second one after blanks (the reps group of the weight-times-reps branch). */
  function RepsPairLen(s: string): (n: nat)
    ensures n <= |s|
    ensures DecimalLen(s) > 0 ==> n >= DecimalLen(s)
  {
    var a := DecimalLen(s);
    if a == 0 then 0
    else
      var r := SkipSpaces(s[a..]);
      var b := DecimalLen(r);
      if b > 0 then |s| - |r| + b else a
  }

  /** Alternative 1: `weight [kg] x reps rep[s]`, then the notes tail. */
  function BranchWeightReps(body: string): Option<(SetBody, Option<string>)>
  {
    var w := DecimalLen(body);
    if w == 0 then None
    else
      match UnitThenTimes(body[w..])
      case None => None
      case Some(s) =>
        var r0 := SkipSpaces(s);
        var n := RepsPairLen(r0);
        if n == 0 then None
        else
          var after := SkipSpaces(r0[n..]);
          if !StartsWithCI(after, "rep") then None
          else
            match NotesTail(DropPluralS(after[3..]))
            case None => None
            case Some(notes) => Some((WeightReps(body[..w], r0[..n]), notes))
  }

  /** Alternative 2: `weight [kg] x time sec`, a word boundary, then the notes tail. */
  function BranchWeightSec(body: string): Option<(SetBody, Option<string>)>
  {
    var w := DecimalLen(body);
    if w == 0 then None
    else
      match UnitThenTimes(body[w..])
      case None => None
      case Some(s) =>
        var r0 := SkipSpaces(s);
        var n := DecimalLen(r0);
        if n == 0 then None
        else
          var after := SkipSpaces(r0[n..]);
          if !StartsWithCI(after, "sec") || !BoundaryAfterWord(after[3..]) then None
          else
            match NotesTail(after[3..])
            case None => None
            case Some(notes) => Some((WeightSec(body[..w], r0[..n]), notes))
  }

  /** Alternative 3: `time sec`, a word boundary, then the notes tail. */
  function BranchSecOnly(body: string): Option<(SetBody, Option<string>)>
  {
    var n := DecimalLen(body);
    if n == 0 then None
    else
      var after := SkipSpaces(body[n..]);
      if !StartsWithCI(after, "sec") || !BoundaryAfterWord(after[3..]) then None
      else
        match NotesTail(after[3..])
        case None => None
        case Some(notes) => Some((SecOnly(body[..n]), notes))
  }

  /** The length of `\d+(?:\.\d+)?(?:\s*[\+\-]\s*\d+(?:\.\d+)?)?`: a number, optionally
      followed by `+` or `-` and a second number (the reps-only group). */
  function RepsExprLen(s: string): (n: nat)
    ensures n <= |s|
    ensures DecimalLen(s) > 0 ==> n >= DecimalLen(s)
  {
    var a := DecimalLen(s);
    if a == 0 then 0
    else
      var r := SkipSpaces(s[a..]);
      if |r| > 0 && (r[0] == '+' || r[0] == '-') then
        var r2 := SkipSpaces(r[1..]);
        var b := DecimalLen(r2);
        if b > 0 then |s| - |r2| + b else a
      else a
  }

  /** Alternative 4: `reps rep[s]`, a word boundary, then the notes tail. */
  function BranchRepsOnly(body: string): Option<(SetBody, Option<string>)>
  {
    var n := RepsExprLen(body);
    if n == 0 then None
    else
      var after := SkipSpaces(body[n..]);
      if !StartsWithCI(after, "rep") then None
      else
        var rest := DropPluralS(after[3..]);
        if !BoundaryAfterWord(rest) then None
        else
          match NotesTail(rest)
          case None => None
          case Some(notes) => Some((RepsOnly(body[..n]), notes))
  }

  /** The lazy catch-all `.+?`: the shortest non-empty prefix of `body`, from `k` on, after
      which the notes tail matches. The whole body always qualifies. */
  function CatchLen(body: string, k: nat): (n: nat)
    requires 1 <= k <= |body|
    ensures k <= n <= |body| && NotesTail(body[n..]).Some?
    ensures forall j :: k <= j < n ==> NotesTail(body[j..]).None?
    decreases |body| - k
  {
    if NotesTail(body[k..]).Some? then k
    else
      assert body[|body|..] == [];
      CatchLen(body, k + 1)
  }

  /** The body alternatives of set_pattern, tried in order on the text after `S<n>:` and its
      blanks. The body group is optional, but the catch-all accepts any non-empty body, so
      the body is absent only when nothing follows the colon. */
  function MatchSetBody(body: string): (r: (SetBody, Option<string>))
    ensures r.0.NoBody? <==> body == []
    ensures r.0.NoBody? ==> r.1.None?
    ensures r.0.Catch? ==> r.0.text != [] && StartsWith(body, r.0.text)
    ensures body != [] && BranchWeightReps(body).Some? ==> r == BranchWeightReps(body).value
    ensures r.0.WeightSec? ==> BranchWeightReps(body).None? && BranchWeightSec(body) == Some(r)
    ensures r.0.SecOnly? ==>
      BranchWeightReps(body).None? && BranchWeightSec(body).None? && BranchSecOnly(body) == Some(r)
    ensures r.0.RepsOnly? ==>
      && BranchWeightReps(body).None? && BranchWeightSec(body).None? && BranchSecOnly(body).None?
      && BranchRepsOnly(body) == Some(r)
    ensures r.0.Catch? ==>
      && BranchWeightReps(body).None? && BranchWeightSec(body).None? && BranchSecOnly(body).None?
      && BranchRepsOnly(body).None?
      && r == (Catch(body[..CatchLen(body, 1)]), NotesTail(body[CatchLen(body, 1)..]).value)
  {
    if body == [] then (NoBody, None)
    else if BranchWeightReps(body).Some? then BranchWeightReps(body).value
    else if BranchWeightSec(body).Some? then BranchWeightSec(body).value
    else if BranchSecOnly(body).Some? then BranchSecOnly(body).value
    else if BranchRepsOnly(body).Some? then BranchRepsOnly(body).value
    else
      var n := CatchLen(body, 1);
      (Catch(body[..n]), NotesTail(body[n..]).value)
  }

  /** The `S<n>:` prefix (with `S` in either case): the length of the digits, or 0. */
  function SetNoLen(line: string): (d: nat)
    ensures d > 0 ==> d + 2 <= |line| && AllDigits(line[1..d + 1]) && line[d + 1] == ':'
  {
    if !StartsWithS(line) then 0
    else
      var d := DigitRunLen(line[1..]);
      if d > 0 && d + 1 < |line| && line[d + 1] == ':' then d else 0
  }

  /** set_pattern.match(line). It succeeds exactly when the line opens with `S<n>:`. */
  function MatchSet(line: string): (m: Option<SetMatch>)
    ensures m.Some? <==> SetNoLen(line) > 0
    ensures m.Some? ==> m.value.setNo == DigitsValue(line[1..SetNoLen(line) + 1])
  {
    var d := SetNoLen(line);
    if d == 0 then None
    else
      var r := MatchSetBody(SkipSpaces(line[d + 2..]));
      Some(SetMatch(DigitsValue(line[1..d + 1]), r.0, r.1))
  }

  // ---------------------------------------------------------------------------------------
  // set_noprefix_re (IGNORECASE): (?P<weight>\d+(?:\.\d+)?)\s*(?:kg|kgs)?\s*[×xX\*]\s*(?P<reps>\d+(?:\.\d+)?)

  /** `tok` is the greedy decimal token that starts at index `j` of `s`. */
  predicate TokenAt(s: string, j: nat, tok: string) {
    j + |tok| <= |s| && s[j..j + |tok|] == tok && DecimalLen(s[j..]) == |tok|
  }

  /** The prefix-less pattern anchored at the start of `s`: the weight token that opens `s`,
      and the reps token, a whole greedy token further on. */
  function WeightRepsAt(s: string): (m: Option<(string, string)>)
    ensures m.Some? ==> IsDecimalToken(m.value.0) && IsDecimalToken(m.value.1)
    ensures m.Some? ==> StartsWith(s, m.value.0)
  {
    var w := DecimalLen(s);
    if w == 0 then None
    else
      match UnitThenTimes(s[w..])
      case None => None
      case Some(t) =>
        var r := SkipSpaces(t);
        var n := DecimalLen(r);
        if n == 0 then None
        else
          DecimalPrefixIsToken(s);
          DecimalPrefixIsToken(r);
          Some((s[..w], r[..n]))
  }

  /** Where the two tokens sit: the weight is the whole number that opens `s`, and the reps
      token is a whole number further on. */
  lemma WeightRepsAtTokens(s: string)
    ensures var m := WeightRepsAt(s);
      m.Some? ==> m.value.0 == s[..DecimalLen(s)] && exists j :: |m.value.0| < j <= |s| && TokenAt(s, j, m.value.1)
  {
    var w := DecimalLen(s);
    var u := s[w..];
    if w > 0 && UnitThenTimes(u).Some? {
      var t := UnitThenTimes(u).value;
      var r := SkipSpaces(t);
      var n := DecimalLen(r);
      if n > 0 {
        UnitThenTimesSuffix(u);
        assert |u| <= |s| && u == s[|s| - |u|..];
        assert |t| < |u| && t == u[|u| - |t|..];
        assert |r| <= |t| && r == t[|t| - |r|..];
        TokenAfterSign(s, u, t, r, n);
        assert WeightRepsAt(s) == Some((s[..w], r[..n]));
      }
    }
  }

  /** set_noprefix_re.search(line): the match at the leftmost position where there is one. */
  function SearchWeightReps(line: string): (m: Option<(string, string)>)
    ensures m.Some? ==> IsDecimalToken(m.value.0) && IsDecimalToken(m.value.1)
    ensures WeightRepsAt(line).Some? ==> m == WeightRepsAt(line)
  {
    if WeightRepsAt(line).Some? then WeightRepsAt(line)
    else if line == [] then None
    else SearchWeightReps(line[1..])
  }

  /** The search finds a match exactly when the anchored pattern matches at some position, and
      what it finds is the match at the leftmost such position. */
  lemma {:induction false} SearchWeightRepsLeftmost(line: string)
    ensures SearchWeightReps(line).Some? <==> exists j :: 0 <= j <= |line| && WeightRepsAt(line[j..]).Some?
    ensures SearchWeightReps(line).Some? ==>
      exists j :: 0 <= j <= |line| && SearchWeightReps(line) == WeightRepsAt(line[j..])
        && forall i :: 0 <= i < j ==> WeightRepsAt(line[i..]).None?
    decreases |line|
  {
    assert line[0..] == line;
    if WeightRepsAt(line).None? {
      if line == [] {
        forall j | 0 <= j <= |line| ensures WeightRepsAt(line[j..]).None? {
          assert line[j..] == line;
        }
      } else {
        var tail := line[1..];
        SearchWeightRepsLeftmost(tail);
        forall j | 1 <= j <= |line| ensures line[j..] == tail[j - 1..] {
        }
        if SearchWeightReps(tail).Some? {
          var k :| 0 <= k <= |tail| && SearchWeightReps(tail) == WeightRepsAt(tail[k..])
            && forall i :: 0 <= i < k ==> WeightRepsAt(tail[i..]).None?;
          forall i | 0 <= i < k + 1 ensures WeightRepsAt(line[i..]).None? {
            if i > 0 { assert line[i..] == tail[i - 1..]; }
          }
          assert SearchWeightReps(line) == WeightRepsAt(line[k + 1..]);
        } else {
          forall j | 0 <= j <= |line| ensures WeightRepsAt(line[j..]).None? {
            if j > 0 { assert line[j..] == tail[j - 1..]; }
          }
        }
      }
    }
  }

  // ---------------------------------------------------------------------------------------
  // The order in which the parser tries the patterns

  datatype LineKind =
    | DateLine(date: DateMatch)
    | SectionLine
    | SetLine(setMatch: SetMatch)
    | ExerciseLine(rawName: string)
    | Unmatched

  /** The first pattern that matches a (stripped) line, in the parser's order: date header,
      section header, set line, exercise name. */
  function Classify(line: string): (k: LineKind)
    ensures k.DateLine? ==> MatchDate(line) == Some(k.date)
    ensures k.SectionLine? ==> IsSectionHeader(line)
    ensures k.SetLine? ==> MatchSet(line) == Some(k.setMatch)
    ensures k.ExerciseLine? ==> MatchExercise(line) == Some(k.rawName)
  {
    if MatchDate(line).Some? then DateLine(MatchDate(line).value)
    else if IsSectionHeader(line) then SectionLine
    else if MatchSet(line).Some? then SetLine(MatchSet(line).value)
    else if MatchExercise(line).Some? then ExerciseLine(MatchExercise(line).value)
    else Unmatched
  }

  /** The order of the tests: every recogniser tried before the one that matched failed, and
      a line is unmatched exactly when all four fail. */
  lemma ClassifyOrder(line: string)
    ensures var k := Classify(line);
      && (!k.DateLine? ==> MatchDate(line).None?)
      && ((k.SetLine? || k.ExerciseLine? || k.Unmatched?) ==> !IsSectionHeader(line))
      && ((k.ExerciseLine? || k.Unmatched?) ==> MatchSet(line).None?)
      && (k.Unmatched? <==>
            MatchDate(line).None? && !IsSectionHeader(line) && MatchSet(line).None?
            && MatchExercise(line).None?)
  {
  }
}
