/** Illustrations of the v1 parser's loop (src/parsers/v1_parser.py, lines 95-346) one line
    at a time: what a date header, a section header and a structured set line of one fixed
    shape do to the state. The general rules are those of `ParserProperties`; these lemmas
    show them on the line shapes a log typically holds. */
module ParserScenarios {
  import opened Wrappers
  import opened Text
  import opened Fields
  import opened Grammar
  import opened NameCleaning
  import opened V1Parser
  import opened GrammarProperties
  import opened NameCleaningProperties

  /** `S<n>: <w>kg x <r> reps`. */
  function SetText(n: nat, w: nat, r: nat): string {
    "S" + NatToDigits(n) + ": " + NatToDigits(w) + "kg x " + NatToDigits(r) + " reps"
  }

  /** `<d>-<m>-<y> <program>`. */
  function DateText(a: string, b: string, c: string, program: string): string {
    a + "-" + b + "-" + c + " " + program
  }

  /** The shape of a date literal that date_pattern accepts, with `-` as both separators. */
  predicate IsDateParts(a: string, b: string, c: string) {
    && 1 <= |a| <= 2 && 1 <= |b| <= 2 && 2 <= |c| <= 4
    && AllDigits(a) && AllDigits(b) && AllDigits(c)
  }

  /** `- <name>`: an exercise name behind a dash. */
  function DashedText(name: string): string { "- " + name }

  /** A program name with no blank at either end. */
  predicate IsTrimmed(s: string) { s != [] && !IsSpace(s[0]) && !IsSpace(s[|s| - 1]) }

  // ---------------------------------------------------------------------------------------
  // One line at a time

  /** A step is the classified line applied to the state. */
  lemma StepIs(env: Env, st: ParseState, raw: string, line: string, kind: LineKind, i: nat)
    requires Strip(raw) == line && Classify(line) == kind
    ensures Step(env, st, raw, i) == Apply(env, st, line, kind, i)
  {
  }

  /** A date header sets the date (normalised when the normaliser gives a non-empty answer)
      and the program, and clears the exercise. */
  lemma DateStepAt(env: Env, st: ParseState, line: string, d: DateMatch, i: nat)
    requires Strip(line) == line && Classify(line) == DateLine(d) && Strip(d.rest) == d.rest
    ensures Step(env, st, line, i)
         == st.(date := Some(DateValue(env, d.rawDate)), program := Some(d.rest), exercise := None)
  {
    StepIs(env, st, line, line, DateLine(d), i);
  }

  /** `<d>-<m>-<y> <program>` has nothing to strip. */
  lemma DateTextStrip(a: string, b: string, c: string, program: string)
    requires IsDateParts(a, b, c) && IsTrimmed(program)
    ensures Strip(DateText(a, b, c, program)) == DateText(a, b, c, program)
    ensures Strip(program) == program
  {
    var line := DateText(a, b, c, program);
    assert line[0] == a[0] && line[|line| - 1] == program[|program| - 1];
    StripUnchanged(line);
    StripUnchanged(program);
  }

  /** `<d>-<m>-<y> <program>` is a date header and has nothing to strip. */
  lemma DateTextShape(a: string, b: string, c: string, program: string)
    requires IsDateParts(a, b, c) && IsTrimmed(program)
    ensures Strip(DateText(a, b, c, program)) == DateText(a, b, c, program)
    ensures Classify(DateText(a, b, c, program)) == DateLine(DateMatch(a + "-" + b + "-" + c, program))
    ensures Strip(program) == program
  {
    DateTextStrip(a, b, c, program);
    DateHeaderClassified(a, b, c, program);
  }

  /** The step of a date header line `<d>-<m>-<y> <program>`. */
  lemma DateHeaderStep(env: Env, st: ParseState, a: string, b: string, c: string, program: string, i: nat)
    requires IsDateParts(a, b, c) && IsTrimmed(program)
    ensures Step(env, st, DateText(a, b, c, program), i)
         == st.(date := Some(DateValue(env, a + "-" + b + "-" + c)), program := Some(program),
                exercise := None)
  {
    DateTextShape(a, b, c, program);
    DateStepAt(env, st, DateText(a, b, c, program), DateMatch(a + "-" + b + "-" + c, program), i);
  }

  /** An exercise line applies the cleaner's outcome for its captured name. */
  lemma NameStepAt(env: Env, st: ParseState, line: string, name: string, o: NameOutcome, i: nat)
    requires Strip(line) == line && Classify(line) == ExerciseLine(name) && CleanName(name) == o
    ensures Step(env, st, line, i) == ApplyName(st, o)
  {
    StepIs(env, st, line, line, ExerciseLine(name), i);
  }

  /** `- <name>` has nothing to strip when the name ends in a non-blank. */
  lemma DashedTextStrip(name: string)
    requires name != [] && !IsSpace(name[|name| - 1])
    ensures Strip("- " + name) == "- " + name
  {
    var line := "- " + name;
    assert line[|line| - 1] == name[|name| - 1];
    StripUnchanged(line);
  }

  /** An ordinary name has the shape exercise_pattern captures. */
  lemma PlainNameShape(name: string)
    requires IsPlainName(name) && |name| >= 3
    ensures IsNameShape(name)
  {
  }

  /** `- <name>` is an exercise line capturing the name, and has nothing to strip. */
  lemma DashedTextShape(name: string)
    requires IsNameShape(name)
    ensures Strip("- " + name) == "- " + name
    ensures Classify("- " + name) == ExerciseLine(name)
  {
    DashedTextStrip(name);
    DashedName(name);
  }

  /** `- <name>` hands the name to the cleaner and applies its outcome. */
  lemma DashedNameCleaned(env: Env, st: ParseState, name: string, o: NameOutcome, i: nat)
    requires IsNameShape(name) && CleanName(name) == o
    ensures Step(env, st, DashedText(name), i) == ApplyName(st, o)
  {
    DashedTextShape(name);
    NameStepAt(env, st, "- " + name, name, o, i);
  }

  /** A section header clears the exercise. */
  lemma SectionStepAt(env: Env, st: ParseState, line: string, i: nat)
    requires Strip(line) == line && Classify(line) == SectionLine
    ensures Step(env, st, line, i) == st.(exercise := None)
  {
    StepIs(env, st, line, line, SectionLine, i);
  }

  /** A name with no list marker is a section header: it clears the exercise. */
  lemma BareNameStep(env: Env, st: ParseState, name: string, i: nat)
    requires IsPlainName(name) && |name| >= 3
    ensures Step(env, st, name, i) == st.(exercise := None)
  {
    PlainNameShape(name);
    StripUnchanged(name);
    BareNameLine(name);
    SectionStepAt(env, st, name, i);
  }

  /** The values of `<w>kg x <r> reps`: weight `w`, `r` repetitions, nothing else. */
  lemma WeightRepsValues(n: nat, w: nat, r: nat)
    ensures SetValuesOf(SetMatch(n, WeightReps(NatToDigits(w), NatToDigits(r)), None))
         == SetValues(Some(w as real), Some(r), None, None, None)
  {
    DigitsAreToken(w);
    DigitsAreToken(r);
    WeightPlain(NatToDigits(w));
    DigitsParse(w);
    RepsPlain(NatToDigits(r));
  }

  /** The text of a set line: `S<n>: ` and a body that opens with a digit. */
  lemma SetTextParts(n: nat, w: nat, r: nat)
    ensures var body := NatToDigits(w) + "kg x " + NatToDigits(r) + " reps";
      && SetText(n, w, r) == "S" + NatToDigits(n) + ": " + body
      && body != [] && !IsSpace(body[0])
  {
    var body := NatToDigits(w) + "kg x " + NatToDigits(r) + " reps";
    assert body[0] == NatToDigits(w)[0];
  }

  /** A set line has nothing to strip. */
  lemma SetTextStrip(n: nat, w: nat, r: nat)
    ensures Strip(SetText(n, w, r)) == SetText(n, w, r)
  {
    var line := SetText(n, w, r);
    assert line[0] == 'S' && line[|line| - 1] == 's';
    StripUnchanged(line);
  }

  /** `S<n>: <w>kg x <r> reps` is a set line with those numbers and has nothing to strip. */
  lemma SetTextShape(n: nat, w: nat, r: nat)
    ensures Strip(SetText(n, w, r)) == SetText(n, w, r)
    ensures Classify(SetText(n, w, r))
         == SetLine(SetMatch(n, WeightReps(NatToDigits(w), NatToDigits(r)), None))
  {
    SetTextParts(n, w, r);
    SetTextStrip(n, w, r);
    SetLineClassified(n, NatToDigits(w) + "kg x " + NatToDigits(r) + " reps");
    WeightRepsBody(w, r);
  }

  /** A set line with known values under a date and an exercise appends its row. */
  lemma ApplySetRecorded(env: Env, st: ParseState, line: string, m: SetMatch, v: SetValues, i: nat)
    requires SetValuesOf(m) == v && Truthy(st.date) && Truthy(st.exercise) && v.reps.Some?
    ensures Apply(env, st, line, SetLine(m), i) == st.(rows := st.rows + [SetRow(st, m.setNo, v)])
  {
  }

  /** A set line without a current exercise leaves the state as it is. */
  lemma ApplySetSkipped(env: Env, st: ParseState, line: string, m: SetMatch, i: nat)
    requires st.exercise.None?
    ensures Apply(env, st, line, SetLine(m), i) == st
  {
  }

  /** The step of a set line with known values under a date and an exercise. */
  lemma SetStepAt(env: Env, st: ParseState, line: string, m: SetMatch, v: SetValues, i: nat)
    requires Strip(line) == line && Classify(line) == SetLine(m) && SetValuesOf(m) == v
    requires Truthy(st.date) && Truthy(st.exercise) && v.reps.Some?
    ensures Step(env, st, line, i) == st.(rows := st.rows + [SetRow(st, m.setNo, v)])
  {
    StepIs(env, st, line, line, SetLine(m), i);
    ApplySetRecorded(env, st, line, m, v, i);
  }

  /** A set line with no current exercise records nothing. */
  lemma SetStepNoExercise(env: Env, st: ParseState, line: string, m: SetMatch, i: nat)
    requires Strip(line) == line && Classify(line) == SetLine(m) && st.exercise.None?
    ensures Step(env, st, line, i) == st
  {
    StepIs(env, st, line, line, SetLine(m), i);
    ApplySetSkipped(env, st, line, m, i);
  }

  /** The row of `<w>kg x <r> reps`: volume `w * r`. */
  lemma WeightRepsRow(st: ParseState, n: nat, w: nat, r: nat)
    requires st.date.Some? && st.exercise.Some?
    ensures SetRow(st, n, SetValues(Some(w as real), Some(r), None, None, None))
         == SetRecord(st.date.value, st.program, st.exercise.value, Some(n),
              Some(w as real), Some(r), None, None, Some((w * r) as real), None)
  {
    assert (w as real) * (r as real) == (w * r) as real;
  }

  /** `S<n>: <w>kg x <r> reps` under a date and an exercise appends one row: set `n`, weight
      `w`, `r` repetitions and volume `w * r`, in the current context. */
  lemma SetStep(env: Env, st: ParseState, n: nat, w: nat, r: nat, i: nat)
    requires Truthy(st.date) && Truthy(st.exercise)
    ensures Step(env, st, SetText(n, w, r), i)
         == st.(rows := st.rows + [SetRecord(st.date.value, st.program, st.exercise.value, Some(n),
                  Some(w as real), Some(r), None, None, Some((w * r) as real), None)])
  {
    var m := SetMatch(n, WeightReps(NatToDigits(w), NatToDigits(r)), None);
    var v := SetValues(Some(w as real), Some(r), None, None, None);
    SetTextShape(n, w, r);
    WeightRepsValues(n, w, r);
    SetStepAt(env, st, SetText(n, w, r), m, v, i);
    WeightRepsRow(st, n, w, r);
  }
}
