/** parse_log_content (src/parsers/v1_parser.py, lines 95-346): the line-by-line state
    machine that turns a workout log into set records.

    The step function `Step` says what one line does to the parser's state and `Run` folds it
    over the lines; the method `ParseLogContent` is the loop of the source, with the context
    variables and the row list as mutable locals, and is proved to compute `Run`.

    The injected capabilities are values of `Env`: the date normaliser (which wraps dateutil
    in the source) and the line classifier are functions, and the review sink is modelled by
    the list of review entries it would receive. */
module V1Parser {
  import opened Wrappers
  import opened Text
  import opened Fields
  import opened Grammar
  import opened NameCleaning

  // ---------------------------------------------------------------------------------------
  // Data

  /** What the classifier says about a line: a tag (`"SET"`, `"EXERCISE"`, `"NOTE"`, or
      anything else) and a confidence. */
  datatype Classification = Classification(tag: string, confidence: real)

  /** One call of the review sink: `(line, conf, source, line_no)`. */
  datatype ReviewEntry = ReviewEntry(line: string, confidence: real, sourceFile: string, lineNo: nat)

  /** One output row. */
  datatype SetRecord = SetRecord(
    date: string,
    program: Option<string>,
    exercise: string,
    setNo: Option<nat>,
    weightKg: Option<real>,
    reps: Option<int>,
    timeSec: Option<real>,
    isoLoad: Option<real>,
    volume: Option<real>,
    notes: Option<string>)

  /** The keyword arguments of parse_log_content. `classifier` is `ml_label_fn` (absent when
      `None`), `reviewSink` says whether `save_review_fn` was supplied, and `normalizeDate`
      stands for `normalize_date`, which returns `None` when dateutil fails. */
  datatype Env = Env(
    sourceFile: Option<string>,
    classifier: Option<string -> Classification>,
    reviewSink: bool,
    confThreshold: real,
    normalizeDate: string -> Option<string>)

  /** The default threshold of `conf_threshold`. */
  const DefaultConfThreshold: real := 0.60

  /** The loop's state: the three context variables, the rows, and the review entries. */
  datatype ParseState = ParseState(
    date: Option<string>,
    program: Option<string>,
    exercise: Option<string>,
    rows: seq<SetRecord>,
    reviews: seq<ReviewEntry>)

  const Initial: ParseState := ParseState(None, None, None, [], [])

  /** Python truthiness of an optional string: present and non-empty. */
  predicate Truthy(s: Option<string>) { s.Some? && s.value != [] }

  // ---------------------------------------------------------------------------------------
  // Input filtering

  /** The lines of the log after `rstrip`, without blank and comment lines. */
  function FilterLines(lines: seq<string>): (r: seq<string>)
    ensures |r| <= |lines|
    ensures forall i :: 0 <= i < |r| ==> r[i] != [] && !StartsWith(Strip(r[i]), "#")
    ensures forall i :: 0 <= i < |r| ==> r[i] == RStrip(r[i])
  {
    if lines == [] then []
    else
      var rest := FilterLines(lines[1..]);
      var ln := RStrip(lines[0]);
      if ln != [] && !StartsWith(Strip(ln), "#") then
        RStripIdempotent(lines[0]);
        KeptLinesCons(ln, rest);
        [ln] + rest
      else rest
  }

  /** Filtering a concatenation filters each part. */
  lemma {:induction false} FilterLinesAppend(a: seq<string>, b: seq<string>)
    ensures FilterLines(a + b) == FilterLines(a) + FilterLines(b)
  {
    if a == [] {
      assert a + b == b;
    } else {
      assert (a + b)[0] == a[0];
      assert (a + b)[1..] == a[1..] + b;
      FilterLinesAppend(a[1..], b);
    }
  }

  /** One line is kept, right-stripped, exactly when it is neither blank nor a `#` comment. */
  lemma FilterLinesOne(line: string)
    ensures var ln := RStrip(line);
      FilterLines([line]) == if ln != [] && !StartsWith(Strip(ln), "#") then [ln] else []
  {
    assert [line][1..] == [];
  }

  /** A kept line in front of kept lines. */
  lemma KeptLinesCons(ln: string, rest: seq<string>)
    requires ln != [] && !StartsWith(Strip(ln), "#") && ln == RStrip(ln)
    requires forall i :: 0 <= i < |rest| ==> rest[i] != [] && !StartsWith(Strip(rest[i]), "#")
    requires forall i :: 0 <= i < |rest| ==> rest[i] == RStrip(rest[i])
    ensures var r := [ln] + rest;
      && (forall i :: 0 <= i < |r| ==> r[i] != [] && !StartsWith(Strip(r[i]), "#"))
      && (forall i :: 0 <= i < |r| ==> r[i] == RStrip(r[i]))
  {
    var r := [ln] + rest;
    forall i | 0 <= i < |r|
      ensures r[i] != [] && !StartsWith(Strip(r[i]), "#") && r[i] == RStrip(r[i])
    {
      if i > 0 {
        assert r[i] == rest[i - 1];
      }
    }
  }

  lemma RStripIdempotent(s: string)
    ensures RStrip(RStrip(s)) == RStrip(s)
  {
    var r := RStrip(s);
    if r != [] {
      assert !IsSpace(r[|r| - 1]);
    }
  }

  /** Lines 101-102 of the source. */
  function Preprocess(raw: string): seq<string> {
    FilterLines(SplitLines(raw))
  }

  /** The raw text is read line by line: a first line ended by `\n`, `\r\n` or `\r` is
      filtered on its own, ahead of the lines of the rest of the text. */
  lemma PreprocessLine(a: string, sep: string, b: string)
    requires forall i :: 0 <= i < |a| ==> !IsLineBreak(a[i])
    requires sep == "\n" || sep == "\r\n" || (sep == "\r" && (b == [] || b[0] != '\n'))
    ensures var ln := RStrip(a);
      Preprocess(a + sep + b)
        == (if ln != [] && !StartsWith(Strip(ln), "#") then [ln] else []) + Preprocess(b)
  {
    SplitLinesFirst(a, sep, b);
    FilterLinesAppend([a], SplitLines(b));
    FilterLinesOne(a);
  }

  // ---------------------------------------------------------------------------------------
  // The values that one set line carries

  /** The fields a set line yields before the context is attached. */
  datatype SetValues = SetValues(
    weight: Option<real>,
    reps: Option<int>,
    time: Option<real>,
    iso: Option<real>,
    note: Option<string>)

  /** The notes group as the source reads it: stripped when non-empty, otherwise absent. */
  function NoteOf(notes: Option<string>): (r: Option<string>)
    ensures r.Some? <==> Truthy(notes)
    ensures r.Some? ==> r.value == Strip(notes.value)
  {
    if Truthy(notes) then Some(Strip(notes.value)) else None
  }

  /** Lines 131-176: the values of each body alternative. Only a weight-times-seconds line
      has an isometric load. */
  function SetValuesOf(m: SetMatch): (v: SetValues)
    ensures !m.body.WeightSec? ==> v.iso.None?
    ensures m.body.WeightSec? ==> v.reps.None? && v.iso == IsoLoad(v.weight, v.time)
    ensures !m.body.Catch? ==> v.note == NoteOf(m.notes)
    ensures m.body.WeightReps? ==>
      v.weight == ParseWeightField(m.body.weight) && v.reps == ParseRepsField(m.body.reps)
      && v.time.None?
    ensures m.body.WeightSec? ==>
      v.weight == ParseWeightField(m.body.weight) && v.time == ParseFloat(m.body.time)
    ensures m.body.SecOnly? ==> v.time == ParseFloat(m.body.time) && v.weight.None? && v.reps.None?
    ensures m.body.RepsOnly? ==> v.reps == ParseRepsField(m.body.reps) && v.weight.None? && v.time.None?
    ensures m.body.Catch? ==> v == CatchValues(m.body.text, NoteOf(m.notes))
    ensures m.body.NoBody? ==> v.weight.None? && v.reps.None? && v.time.None?
  {
    var note := NoteOf(m.notes);
    match m.body
    case WeightReps(w, r) => SetValues(ParseWeightField(w), ParseRepsField(r), None, None, note)
    case WeightSec(w, t) => WeightSecValues(w, t, note)
    case SecOnly(t) => SetValues(None, None, ParseFloat(t), None, note)
    case RepsOnly(r) => SetValues(None, ParseRepsField(r), None, None, note)
    case Catch(c) => CatchValues(c, note)
    case NoBody => SetValues(None, None, None, None, note)
  }

  /** Line 153: the isometric load, weight times seconds, present exactly when both are. */
  function IsoLoad(weight: Option<real>, time: Option<real>): (r: Option<real>)
    ensures r.Some? <==> weight.Some? && time.Some?
    ensures r.Some? ==> r.value == weight.value * time.value
  {
    if weight.Some? && time.Some? then Some(weight.value * time.value) else None
  }

  /** Lines 144-154: a held weight for a time, with its isometric load and no repetition
      count. */
  function WeightSecValues(w: string, t: string, note: Option<string>): (v: SetValues)
    ensures v.reps.None? && v.note == note
    ensures v.weight == ParseWeightField(w) && v.time == ParseFloat(t)
    ensures v.iso == IsoLoad(v.weight, v.time)
  {
    var weight := ParseWeightField(w);
    var time := ParseFloat(t);
    SetValues(weight, None, time, IsoLoad(weight, time), note)
  }

  /** Lines 170-176: the catch-all body gives the first run of digits as the repetition count;
      without digits it becomes the note unless the notes group already gave one. */
  function CatchValues(c: string, note: Option<string>): (v: SetValues)
    ensures v.weight.None? && v.time.None? && v.iso.None?
    ensures v.reps.Some? <==> exists j :: 0 <= j < |Strip(c)| && IsDigit(Strip(c)[j])
    ensures v.reps.None? ==> v.note == (if Truthy(note) then note else Some(Strip(c)))
    ensures v.reps.Some? ==> v.note == note
    ensures v.reps.Some? ==> var t := Strip(c); v.reps.value == RunValue(t[FirstDigitIndex(t)..])
  {
    var text := Strip(c);
    var p := FirstDigitIndex(text);
    if p < |text| then
      SetValues(None, Some(RunValue(text[p..])), None, None, note)
    else if Truthy(note) then SetValues(None, None, None, None, note)
    else SetValues(None, None, None, None, Some(text))
  }

  /** Line 184: a set line is recorded when an exercise and a date are current and it carries
      a number or a note. */
  predicate Recordable(st: ParseState, v: SetValues) {
    && Truthy(st.exercise) && Truthy(st.date)
    && (v.reps.Some? || v.weight.Some? || v.time.Some? || v.iso.Some? || Truthy(v.note))
  }

  /** The row of a structured set line, lines 185-196. */
  function SetRow(st: ParseState, setNo: nat, v: SetValues): SetRecord
    requires st.date.Some? && st.exercise.Some?
  {
    SetRecord(st.date.value, st.program, st.exercise.value, Some(setNo),
      v.weight, v.reps, v.time, v.iso, ComputeVolume(v.weight, v.reps), v.note)
  }

  /** The row of a prefix-less `weight x reps` line, lines 264-279. */
  function LooseRow(st: ParseState, w: string, r: string): SetRecord
    requires st.date.Some? && st.exercise.Some?
  {
    var weight := ParseWeightField(w);
    var reps := ParseRepsField(r);
    SetRecord(st.date.value, st.program, st.exercise.value, None,
      weight, reps, None, None, ComputeVolume(weight, reps), None)
  }

  // ---------------------------------------------------------------------------------------
  // One step

  /** `normalize_date(raw) or raw`. */
  function DateValue(env: Env, raw: string): (d: string)
    ensures d == raw || env.normalizeDate(raw) == Some(d)
  {
    var n := env.normalizeDate(raw);
    if Truthy(n) then n.value else raw
  }

  /** `source_file or "<unknown>"`. */
  function SourceName(env: Env): string {
    if Truthy(env.sourceFile) then env.sourceFile.value else "<unknown>"
  }

  /** The effect of a cleaned name on the current exercise. */
  function ApplyName(st: ParseState, o: NameOutcome): ParseState {
    match o
    case KeepExercise => st
    case ClearExercise => st.(exercise := None)
    case SetExercise(n) => st.(exercise := Some(n))
  }

  /** Line 340: the text that the last row's notes become when a NOTE line is merged. */
  function MergedNote(prev: Option<string>, line: string): string {
    if Truthy(prev) then prev.value + " ; " + line else line
  }

  /** Lines 336-341: a NOTE line extends the notes of the last row, if there is one. */
  function MergeNote(st: ParseState, line: string): ParseState {
    if st.rows == [] then st
    else
      var k := |st.rows| - 1;
      st.(rows := st.rows[k := st.rows[k].(notes := Some(MergedNote(st.rows[k].notes, line)))])
  }

  /** Lines 261-344: what the classifier's label makes of a line after the review: SET tries
      the prefix-less `weight x reps` pattern, EXERCISE runs the name cleaner on the whole
      line, NOTE merges the line into the last row's notes, and any other label does
      nothing. */
  function Reinterpret(st: ParseState, line: string, tag: string): ParseState {
    if tag == "SET" then
      match SearchWeightReps(line)
      case Some(wr) =>
        if Truthy(st.exercise) && Truthy(st.date)
        then st.(rows := st.rows + [LooseRow(st, wr.0, wr.1)])
        else st
      case None => st
    else if tag == "EXERCISE" then ApplyName(st, CleanName(line))
    else if tag == "NOTE" then MergeNote(st, line)
    else st
  }

  /** Lines 254-344: the classifier fallback for a line no pattern matched. The line goes to
      the review sink when the confidence is low, then is reinterpreted by its label. */
  function Fallback(env: Env, st: ParseState, line: string, i: nat): ParseState {
    match env.classifier
    case None => st
    case Some(f) =>
      var c := f(line);
      var st1 := if c.confidence < env.confThreshold && env.reviewSink
        then st.(reviews := st.reviews + [ReviewEntry(line, c.confidence, SourceName(env), i)])
        else st;
      Reinterpret(st1, line, c.tag)
  }

  /** What a line of the given kind does to the state (the body of the loop after the
      patterns have been tried). */
  function Apply(env: Env, st: ParseState, line: string, kind: LineKind, i: nat): ParseState {
    match kind
    case DateLine(d) =>
      st.(date := Some(DateValue(env, d.rawDate)), program := Some(Strip(d.rest)), exercise := None)
    case SectionLine => st.(exercise := None)
    case SetLine(m) =>
      var v := SetValuesOf(m);
      if Recordable(st, v) then st.(rows := st.rows + [SetRow(st, m.setNo, v)]) else st
    case ExerciseLine(raw) => ApplyName(st, CleanName(raw))
    case Unmatched => Fallback(env, st, line, i)
  }

  /** One iteration of the loop, for the `i`-th kept line (counting from 1): the stripped
      line is classified by the first pattern that matches it, then applied. */
  function Step(env: Env, st: ParseState, rawLine: string, i: nat): ParseState {
    var line := Strip(rawLine);
    Apply(env, st, line, Classify(line), i)
  }

  /** The state after the given (already filtered) lines. */
  function Run(env: Env, lines: seq<string>): ParseState
    decreases |lines|
  {
    if lines == [] then Initial
    else Step(env, Run(env, lines[..|lines| - 1]), lines[|lines| - 1], |lines|)
  }

  /** The rows parse_log_content returns. */
  function ParseLog(env: Env, raw: string): seq<SetRecord> {
    Run(env, Preprocess(raw)).rows
  }

  // ---------------------------------------------------------------------------------------
  // The loop

  /** Running one more line is one more step. */
  lemma RunSnoc(env: Env, lines: seq<string>, i: nat)
    requires i < |lines|
    ensures Run(env, lines[..i + 1]) == Step(env, Run(env, lines[..i]), lines[i], i + 1)
  {
    assert lines[..i + 1][..i] == lines[..i];
  }

  /** Lines 254-344: the classifier's verdict on a line no pattern matched, applied to the
      context and the rows. */
  method ClassifierFallback(env: Env, st: ParseState, line: string, i: nat) returns (next: ParseState)
    ensures next == Fallback(env, st, line, i)
  {
    next := st;
    if env.classifier.Some? {
      var c := env.classifier.value(line);
      if c.confidence < env.confThreshold && env.reviewSink {
        next := next.(reviews := next.reviews + [ReviewEntry(line, c.confidence, SourceName(env), i)]);
      }
      if c.tag == "SET" {
        var found := SearchWeightReps(line);
        if found.Some? && Truthy(next.exercise) && Truthy(next.date) {
          next := next.(rows := next.rows + [LooseRow(next, found.value.0, found.value.1)]);
        }
      } else if c.tag == "EXERCISE" {
        next := ApplyName(next, CleanName(line));
      } else if c.tag == "NOTE" {
        if |next.rows| > 0 {
          var k := |next.rows| - 1;
          next := next.(rows := next.rows[k := next.rows[k].(notes := Some(MergedNote(next.rows[k].notes, line)))]);
        }
      }
    }
  }

  /** One pass of the loop body of parse_log_content over the `i`-th kept line: strip it, try
      the patterns in order, and act on the first that matches. */
  method ProcessLine(env: Env, st: ParseState, rawLine: string, i: nat) returns (next: ParseState)
    ensures next == Step(env, st, rawLine, i)
  {
    var line := Strip(rawLine);
    var kind := Classify(line);
    next := ApplyLine(env, st, line, kind, i);
  }

  /** The branch of the loop body for the kind of line found. */
  method ApplyLine(env: Env, st: ParseState, line: string, kind: LineKind, i: nat) returns (next: ParseState)
    ensures next == Apply(env, st, line, kind, i)
  {
    match kind {
      case DateLine(d) =>
        next := st.(date := Some(DateValue(env, d.rawDate)), program := Some(Strip(d.rest)), exercise := None);
      case SectionLine =>
        next := st.(exercise := None);
      case SetLine(m) =>
        var v := SetValuesOf(m);
        next := st;
        if Recordable(st, v) {
          next := st.(rows := st.rows + [SetRow(st, m.setNo, v)]);
        }
      case ExerciseLine(rawName) =>
        next := ApplyName(st, CleanName(rawName));
      case Unmatched =>
        next := ClassifierFallback(env, st, line, i);
    }
  }

  /** parse_log_content, with the calls of the review sink returned as `reviews`. */
  method ParseLogContent(env: Env, raw: string) returns (rows: seq<SetRecord>, reviews: seq<ReviewEntry>)
    ensures rows == ParseLog(env, raw)
    ensures reviews == Run(env, Preprocess(raw)).reviews
  {
    var lines := Preprocess(raw);
    var date: Option<string> := None;
    var program: Option<string> := None;
    var exercise: Option<string> := None;
    rows := [];
    reviews := [];
    var i := 0;
    while i < |lines|
      invariant 0 <= i <= |lines|
      invariant ParseState(date, program, exercise, rows, reviews) == Run(env, lines[..i])
    {
      RunSnoc(env, lines, i);
      var next := ProcessLine(env, ParseState(date, program, exercise, rows, reviews), lines[i], i + 1);
      date, program, exercise, rows, reviews := next.date, next.program, next.exercise, next.rows, next.reviews;
      i := i + 1;
    }
    assert lines[..|lines|] == lines;
  }
}
