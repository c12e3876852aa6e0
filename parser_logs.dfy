/** Illustrations: short logs of fixed shapes run through the v1 parser's loop
    (src/parsers/v1_parser.py, lines 95-346), showing what a date header, an exercise line
    and a structured set line do one after the other. The general rules are those of
    `ParserProperties`. */
module ParserLogs {
  import opened Wrappers
  import opened Text
  import opened Fields
  import opened Grammar
  import opened NameCleaning
  import opened V1Parser
  import opened GrammarProperties
  import opened NameCleaningProperties
  import opened ParserScenarios

  /** Applying the outcome for an ordinary name. */
  lemma PlainOutcomeApplied(st: ParseState, name: string)
    ensures ApplyName(st, PlainOutcome(name))
         == st.(exercise := if Lower(name) in ExcludePhrases then None else Some(name))
  {
  }

  /** `- <name>` applies the outcome for an ordinary name. */
  lemma DashedPlainName(env: Env, st: ParseState, name: string, i: nat)
    requires IsPlainName(name) && |name| >= 3
    ensures Step(env, st, DashedText(name), i) == ApplyName(st, PlainOutcome(name))
  {
    PlainNameShape(name);
    PlainNameKept(name);
    DashedNameCleaned(env, st, name, PlainOutcome(name), i);
  }

  /** `- <name>` makes an ordinary name the exercise, or clears the exercise when the name is
      an excluded phrase; nothing else changes. */
  lemma DashedNameStep(env: Env, st: ParseState, name: string, i: nat)
    requires IsPlainName(name) && |name| >= 3
    ensures Step(env, st, DashedText(name), i)
         == st.(exercise := if Lower(name) in ExcludePhrases then None else Some(name))
  {
    DashedPlainName(env, st, name, i);
    PlainOutcomeApplied(st, name);
  }

  // ---------------------------------------------------------------------------------------
  // A short log, one line at a time

  /** A log whose last line takes the state of the lines before it to `t` ends in `t`. */
  lemma RunLastStep(env: Env, lines: seq<string>, s: ParseState, t: ParseState)
    requires lines != [] && Run(env, lines[..|lines| - 1]) == s
    requires Step(env, s, lines[|lines| - 1], |lines|) == t
    ensures Run(env, lines) == t
  {
  }

  /** A two-line log: the first line's state, then the second line's step. */
  lemma RunTwo(env: Env, l1: string, l2: string, s: ParseState, t: ParseState)
    requires Run(env, [l1]) == s && Step(env, s, l2, 2) == t
    ensures Run(env, [l1, l2]) == t
  {
    var lines := [l1, l2];
    assert |lines| == 2 && lines[1] == l2 && lines[..1] == [l1];
    RunLastStep(env, lines, s, t);
  }

  /** A three-line log: the first two lines' state, then the third line's step. */
  lemma RunThree(env: Env, l1: string, l2: string, l3: string, s: ParseState, t: ParseState)
    requires Run(env, [l1, l2]) == s && Step(env, s, l3, 3) == t
    ensures Run(env, [l1, l2, l3]) == t
  {
    var lines := [l1, l2, l3];
    assert |lines| == 3 && lines[2] == l3 && lines[..2] == [l1, l2];
    RunLastStep(env, lines, s, t);
  }

  /** The state after a date header `<d>-<m>-<y> <program>` as the first line. */
  function AfterDate(env: Env, a: string, b: string, c: string, program: string): ParseState {
    Initial.(date := Some(DateValue(env, a + "-" + b + "-" + c)), program := Some(program))
  }

  /** A log holding only a date header has that date and program and nothing else. */
  lemma DateOnlyLog(env: Env, a: string, b: string, c: string, program: string)
    requires IsDateParts(a, b, c) && IsTrimmed(program)
    ensures Run(env, [DateText(a, b, c, program)]) == AfterDate(env, a, b, c, program)
  {
    DateHeaderStep(env, Initial, a, b, c, program, 1);
    assert [DateText(a, b, c, program)][..0] == [];
    RunLastStep(env, [DateText(a, b, c, program)], Initial, AfterDate(env, a, b, c, program));
  }

  /** A date header followed by `- <name>` has the cleaner's outcome for that name applied
      to the date header's state. */
  lemma DateAndNameLog(env: Env, a: string, b: string, c: string, program: string, name: string)
    requires IsDateParts(a, b, c) && IsTrimmed(program)
    requires IsPlainName(name) && |name| >= 3
    ensures Run(env, [DateText(a, b, c, program), DashedText(name)])
         == ApplyName(AfterDate(env, a, b, c, program), PlainOutcome(name))
  {
    var s1 := AfterDate(env, a, b, c, program);
    DateOnlyLog(env, a, b, c, program);
    DashedPlainName(env, s1, name, 2);
    RunTwo(env, DateText(a, b, c, program), DashedText(name), s1, ApplyName(s1, PlainOutcome(name)));
  }

  /** A date header followed by `- <name>`, for a name that is not an excluded phrase, has
      that name as the current exercise. */
  lemma DateAndKeptNameLog(env: Env, a: string, b: string, c: string, program: string,
                           name: string)
    requires IsDateParts(a, b, c) && IsTrimmed(program)
    requires IsPlainName(name) && |name| >= 3 && Lower(name) !in ExcludePhrases
    ensures Run(env, [DateText(a, b, c, program), DashedText(name)])
         == AfterDate(env, a, b, c, program).(exercise := Some(name))
  {
    DateAndNameLog(env, a, b, c, program, name);
    PlainOutcomeApplied(AfterDate(env, a, b, c, program), name);
  }

  /** The three-line log `<date> <program>`, `- <name>`, `S<n>: <w>kg x <r> reps` gives one
      row, with the date, program, name and numbers of its lines, and no review entry. */
  lemma OneLoggedSet(env: Env, a: string, b: string, c: string, program: string, name: string,
                     n: nat, w: nat, r: nat)
    requires IsDateParts(a, b, c) && IsTrimmed(program)
    requires IsPlainName(name) && |name| >= 3 && Lower(name) !in ExcludePhrases
    ensures var log := Run(env, [DateText(a, b, c, program), DashedText(name), SetText(n, w, r)]);
      && log.rows == [SetRecord(DateValue(env, a + "-" + b + "-" + c), Some(program), name, Some(n),
                       Some(w as real), Some(r), None, None, Some((w * r) as real), None)]
      && log.reviews == []
  {
    var s2 := AfterDate(env, a, b, c, program).(exercise := Some(name));
    DateAndKeptNameLog(env, a, b, c, program, name);
    assert Truthy(s2.date) by {
      assert DateValue(env, a + "-" + b + "-" + c) != [];
    }
    SetStep(env, s2, n, w, r, 3);
    RunThree(env, DateText(a, b, c, program), DashedText(name), SetText(n, w, r), s2, s2.(rows := s2.rows + [SetRecord(s2.date.value, s2.program,
      s2.exercise.value, Some(n), Some(w as real), Some(r), None, None, Some((w * r) as real), None)]));
  }

  /** A name without a dash after a date header is a section header: the exercise stays
      unset. */
  lemma DateAndBareNameLog(env: Env, a: string, b: string, c: string, program: string,
                           name: string)
    requires IsDateParts(a, b, c) && IsTrimmed(program)
    requires IsPlainName(name) && |name| >= 3
    ensures Run(env, [DateText(a, b, c, program), name]) == AfterDate(env, a, b, c, program)
  {
    var s1 := AfterDate(env, a, b, c, program);
    DateOnlyLog(env, a, b, c, program);
    BareNameStep(env, s1, name, 2);
    RunTwo(env, DateText(a, b, c, program), name, s1, s1);
  }

  /** The same log with the name written without a dash gives no row: the name line is a
      section header, so the set line finds no current exercise. */
  lemma BareNameLogsNothing(env: Env, a: string, b: string, c: string, program: string,
                            name: string, n: nat, w: nat, r: nat)
    requires IsDateParts(a, b, c) && IsTrimmed(program)
    requires IsPlainName(name) && |name| >= 3
    ensures Run(env, [DateText(a, b, c, program), name, SetText(n, w, r)]).rows == []
  {
    var s1 := AfterDate(env, a, b, c, program);
    DateAndBareNameLog(env, a, b, c, program, name);
    SetTextShape(n, w, r);
    SetStepNoExercise(env, s1, SetText(n, w, r),
      SetMatch(n, WeightReps(NatToDigits(w), NatToDigits(r)), None), 3);
    RunThree(env, DateText(a, b, c, program), name, SetText(n, w, r), s1, s1);
  }
}
