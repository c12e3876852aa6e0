/** The exercise-name cleaning of the v1 parser, shared by the exercise-line branch
    (src/parsers/v1_parser.py, lines 203-249) and the classifier's EXERCISE branch (lines
    285-330), which run the same steps: strip list markers, collapse blanks, skip text that is
    not a name, cut rep annotations and bracketed notes, and test the exclusion list. */
module NameCleaning {
  import opened Wrappers
  import opened Text

  // ---------------------------------------------------------------------------------------
  // clean_prefix = ^\s*[-•]\s*|\s*\d+\.\s*   (removed wherever it matches)

  /** The length of `\s*[-•]\s*` at the start of `s`, or 0. */
  function BulletLen(s: string): (n: nat)
    ensures n <= |s|
  {
    var a := SpaceRunLen(s);
    if a < |s| && (s[a] == '-' || s[a] == '•') then a + 1 + SpaceRunLen(s[a + 1..]) else 0
  }

  /** The length of `\s*\d+\.\s*` at the start of `s`, or 0. */
  function NumberDotLen(s: string): (n: nat)
    ensures n <= |s|
    ensures n > 0 ==> '.' in s
  {
    var a := SpaceRunLen(s);
    var d := DigitRunLen(s[a..]);
    if d > 0 && a + d < |s| && s[a + d] == '.' then a + d + 1 + SpaceRunLen(s[a + d + 1..])
    else 0
  }

  /** The scan of `re.sub` for the second alternative: every `\s*\d+\.\s*` is removed, left to
      right, where a match may start anywhere. */
  function DropNumberDots(s: string): (r: string)
    ensures |r| <= |s|
    decreases |s|
  {
    if s == [] then []
    else
      var n := NumberDotLen(s);
      if n > 0 then DropNumberDots(s[n..]) else [s[0]] + DropNumberDots(s[1..])
  }

  /** clean_prefix.sub("", s): a leading bullet (the first alternative is anchored at the
      start), then every number-and-full-stop. */
  function CleanPrefix(s: string): (r: string)
    ensures |r| <= |s|
  {
    var b := BulletLen(s);
    if b > 0 then DropNumberDots(s[b..]) else DropNumberDots(s)
  }

  // ---------------------------------------------------------------------------------------
  // The guards that make the cleaner leave the current exercise alone

  /** re.match(r"^\d+(\s*kg)?\s*[×xX]\s*\d+", s): text that reads as a set. */
  predicate LooksLikeSetExpr(s: string) {
    var d := DigitRunLen(s);
    && d > 0
    && var s1 := SkipSpaces(s[d..]);
    && var s2 := if StartsWith(s1, "kg") then SkipSpaces(s1[2..]) else s1;
    && |s2| > 0 && (s2[0] == '×' || s2[0] == 'x' || s2[0] == 'X')
    && var s3 := SkipSpaces(s2[1..]);
    && |s3| > 0 && IsDigit(s3[0])
  }

  /** re.match(r"^\d+(\s*reps?)?$", s, re.IGNORECASE): a bare count. */
  predicate IsBareCount(s: string) {
    var d := DigitRunLen(s);
    && d > 0
    && (d == |s| || (var t := SkipSpaces(s[d..]); StartsWithCI(t, "rep") && DropPluralS(t[3..]) == []))
  }

  // ---------------------------------------------------------------------------------------
  // The trailing rep annotations that are cut from a name

  /** `[-–—]`. */
  predicate IsDash(c: char) { c == '-' || c == '–' || c == '—' }

  /** `\d{1,3}` where the digits cannot be followed by another digit: the length of the digit
      run when it has one to three digits, else 0. */
  function ShortNumberLen(s: string): (n: nat)
    ensures n <= 3 && n <= |s|
    ensures n > 0 ==> n == DigitRunLen(s)
  {
    var d := DigitRunLen(s);
    if 1 <= d <= 3 then d else 0
  }

  /** `(?:reps?|rep)?` followed by `\s*`, on text that starts after blanks. */
  function SkipRepWord(s: string): string {
    if StartsWithCI(s, "rep") then SkipSpaces(DropPluralS(s[3..])) else s
  }

  /** The second half of a range, `[-–—]\s*\d{1,3}`, at the start of `v`: the text after it. */
  function RangeEnd(v: string): (r: Option<string>)
    ensures r.Some? ==> |r.value| < |v|
  {
    if |v| > 0 && IsDash(v[0]) then
      var u := SkipSpaces(v[1..]);
      var b := ShortNumberLen(u);
      if b > 0 then Some(u[b..]) else None
    else None
  }

  /** `\s*\(\s*\d{1,3}\s*(?:[-–—]\s*\d{1,3})?\s*(?:reps?|rep)?\s*\)\s*$` (case-insensitive)
      matched at the start of `s` and reaching its end. */
  predicate IsParenRepTail(s: string) {
    var t := SkipSpaces(s);
    && |t| > 0 && t[0] == '('
    && var u := SkipSpaces(t[1..]);
    && var a := ShortNumberLen(u);
    && a > 0
    && var v := SkipSpaces(u[a..]);
    && var w := match RangeEnd(v) case Some(rest) => SkipSpaces(rest) case None => v;
    && var x := SkipRepWord(w);
    && |x| > 0 && x[0] == ')' && AllSpaces(x[1..])
  }

  /** `\s*\d{1,3}\s*(?:[-–—]\s*\d{1,3})\s*(?:reps?|rep)?\s*$` (case-insensitive) matched at
      the start of `s` and reaching its end. */
  predicate IsRangeRepTail(s: string) {
    var t := SkipSpaces(s);
    && var a := ShortNumberLen(t);
    && a > 0
    && var v := SkipSpaces(t[a..]);
    && match RangeEnd(v)
       case None => false
       case Some(rest) => AllSpaces(SkipRepWord(SkipSpaces(rest)))
  }

  /** `re.sub(p, "", s)` for a pattern `p` that ends in `$` and cannot match the empty string:
      the leftmost suffix that `p` matches is cut off, or `s` is left as it is. */
  function CutFirstTail(s: string, p: string -> bool): (r: string)
    ensures |r| <= |s| && r == s[..|r|]
    ensures r == s || p(s[|r|..])
    ensures forall i :: 0 <= i < |r| ==> !p(s[i..])
    decreases |s|
  {
    if p(s) then []
    else if s == [] then []
    else
      var rest := CutFirstTail(s[1..], p);
      assert s[1..][|rest|..] == s[1 + |rest|..];
      assert forall i :: 1 <= i <= |rest| ==> s[1..][i - 1..] == s[i..];
      [s[0]] + rest
  }

  // ---------------------------------------------------------------------------------------
  // Bracketed notes: [\(\[\{][^\)\]\}]*[\)\]\}]   (removed wherever it matches)

  predicate IsOpener(c: char) { c == '(' || c == '[' || c == '{' }

  predicate IsCloser(c: char) { c == ')' || c == ']' || c == '}' }

  predicate IsNotCloser(c: char) { !IsCloser(c) }

  /** Every bracket that opens and is later closed (by the first closing bracket of any kind)
      is removed with what it holds; an opener with no closer after it stays. */
  function RemoveBracketed(s: string): (r: string)
    ensures |r| <= |s|
    decreases |s|
  {
    if s == [] then []
    else
      var j := RunLen(s[1..], IsNotCloser);
      if IsOpener(s[0]) && j < |s| - 1 then RemoveBracketed(s[j + 2..])
      else [s[0]] + RemoveBracketed(s[1..])
  }

  // ---------------------------------------------------------------------------------------
  // The cleaner

  /** exclude_phrases: names that are warm-ups, stretches or totals rather than exercises.
      The source lower-cases each phrase of its list; every phrase is written in lower case,
      so the set holds the phrases as written. */
  const ExcludePhrases: set<string> := {
    "arm circles", "leg swings", "band pull-aparts", "thoracic rotations",
    "stretch", "cool-down", "warm-up",
    "superset 1", "superset 2", "superset 3",
    "dead hangs", "v - bar", "scapular pull-ups",
    "cat-cow stretch", "total weight", "total weight including bar"
  }

  /** What a name line does to the current exercise. */
  datatype NameOutcome = KeepExercise | ClearExercise | SetExercise(name: string)

  /** The cutting steps: a parenthesised rep annotation at the end, a trailing range, every
      bracketed note, a trailing range once more, then strip and collapse long blank runs. */
  function TidyName(s: string): (r: string)
    ensures r == [] || (!IsSpace(r[0]) && !IsSpace(r[|r| - 1]))
    ensures forall i :: 0 <= i < |r| - 1 ==> !(IsSpace(r[i]) && IsSpace(r[i + 1]))
  {
    var a := CutFirstTail(s, IsParenRepTail);
    var b := CutFirstTail(a, IsRangeRepTail);
    var c := RemoveBracketed(b);
    var d := CutFirstTail(c, IsRangeRepTail);
    CollapseLongRuns(Strip(d))
  }

  /** The shared cleaning pipeline, applied to the captured name or to a whole line. Text that
      is empty, ends in a colon, is wholly parenthesised, reads as a set or as a bare count
      leaves the exercise alone, as does a name that tidies away to nothing; an excluded
      phrase clears the exercise; anything else becomes the exercise. */
  function CleanName(text: string): (r: NameOutcome)
    ensures r.SetExercise? ==> var n := r.name;
      && n != [] && Lower(n) !in ExcludePhrases
      && !IsSpace(n[0]) && !IsSpace(n[|n| - 1])
      && (forall i :: 0 <= i < |n| - 1 ==> !(IsSpace(n[i]) && IsSpace(n[i + 1])))
  {
    var cleaned := CollapseLongRuns(Strip(CleanPrefix(text)));
    if cleaned == [] || EndsWith(cleaned, ":") then KeepExercise
    else if StartsWith(cleaned, "(") && EndsWith(cleaned, ")") then KeepExercise
    else if LooksLikeSetExpr(cleaned) then KeepExercise
    else if IsBareCount(cleaned) then KeepExercise
    else
      var name := TidyName(cleaned);
      if name == [] then KeepExercise
      else if Lower(name) in ExcludePhrases then ClearExercise
      else SetExercise(name)
  }
}
