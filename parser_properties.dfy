/** What parse_log_content promises, stated about the step function `Step` and the fold
    `Run` of module V1Parser (and so, through ParseLogContent's contract, about the loop). */
module ParserProperties {
  import opened Wrappers
  import opened Text
  import opened Fields
  import opened Grammar
  import opened NameCleaning
  import opened V1Parser

  // ---------------------------------------------------------------------------------------
  // What each kind of line does (lines 113-197)

  /** A date header sets the date to the normalised literal, or to the literal itself when
      normalisation gives nothing; sets the program to the trimmed remainder; clears the
      exercise; and neither records a set nor reports to the review sink. */
  lemma DateLineEffect(env: Env, st: ParseState, line: string, d: DateMatch, i: nat)
    ensures var n := env.normalizeDate(d.rawDate);
      var next := Apply(env, st, line, DateLine(d), i);
      && next.date == Some(if n.Some? && n.value != [] then n.value else d.rawDate)
      && next.program == Some(Strip(d.rest))
      && next.exercise.None?
      && next.rows == st.rows && next.reviews == st.reviews
  {
  }

  /** A section header (or a `---` rule) clears the exercise and nothing else. */
  lemma SectionLineEffect(env: Env, st: ParseState, line: string, i: nat)
    ensures Apply(env, st, line, SectionLine, i) == st.(exercise := None)
  {
  }

  /** An `S<n>:` line leaves the context alone and appends at most one row: exactly when an
      exercise and a date are current and the line carries a number or a note. The row has
      set number `n`, the current context, and the line's values. */
  lemma SetLineEffect(env: Env, st: ParseState, line: string, m: SetMatch, i: nat)
    ensures var v := SetValuesOf(m);
      var next := Apply(env, st, line, SetLine(m), i);
      && next.date == st.date && next.program == st.program && next.exercise == st.exercise
      && next.reviews == st.reviews
      && (if Truthy(st.exercise) && Truthy(st.date)
            && (v.reps.Some? || v.weight.Some? || v.time.Some? || v.iso.Some? || Truthy(v.note))
          then
            && |next.rows| == |st.rows| + 1 && next.rows[..|st.rows|] == st.rows
            && var row := next.rows[|st.rows|];
            && row.setNo == Some(m.setNo) && row.date == st.date.value
            && row.exercise == st.exercise.value && row.program == st.program
            && row.weightKg == v.weight && row.reps == v.reps && row.timeSec == v.time
            && row.isoLoad == v.iso && row.notes == v.note
            && row.volume == ComputeVolume(v.weight, v.reps)
          else next.rows == st.rows)
  {
    var v := SetValuesOf(m);
    if Recordable(st, v) {
      var next := Apply(env, st, line, SetLine(m), i);
      assert next.rows == st.rows + [SetRow(st, m.setNo, v)];
      assert next.rows[..|st.rows|] == st.rows;
    }
  }

  /** An exercise-name line changes only the current exercise, as the cleaner decides. */
  lemma ExerciseLineEffect(env: Env, st: ParseState, line: string, rawName: string, i: nat)
    ensures var next := Apply(env, st, line, ExerciseLine(rawName), i);
      && next.date == st.date && next.program == st.program
      && next.rows == st.rows && next.reviews == st.reviews
      && match CleanName(rawName)
         case KeepExercise => next.exercise == st.exercise
         case ClearExercise => next.exercise.None?
         case SetExercise(n) => next.exercise == Some(n)
  {
  }

  /** Without a classifier a line that no pattern matches is skipped. */
  lemma UnmatchedWithoutClassifier(env: Env, st: ParseState, line: string, i: nat)
    requires env.classifier.None?
    ensures Apply(env, st, line, Unmatched, i) == st
  {
  }

  // ---------------------------------------------------------------------------------------
  // The classifier fallback (lines 254-344)

  /** The label's reinterpretation never touches the review list. */
  lemma ReinterpretKeepsReviews(st: ParseState, line: string, tag: string)
    ensures Reinterpret(st, line, tag).reviews == st.reviews
  {
    if tag == "EXERCISE" {
      NameKeepsRows(st, CleanName(line));
    }
  }

  /** The review sink receives the line at most once, whatever the label: exactly when the
      confidence is below the threshold and a sink is supplied. */
  lemma FallbackReview(env: Env, st: ParseState, line: string, i: nat)
    requires env.classifier.Some?
    ensures var c := env.classifier.value(line);
      Fallback(env, st, line, i).reviews
        == if c.confidence < env.confThreshold && env.reviewSink
           then st.reviews + [ReviewEntry(line, c.confidence, SourceName(env), i)]
           else st.reviews
  {
    var c := env.classifier.value(line);
    var st1 := if c.confidence < env.confThreshold && env.reviewSink
      then st.(reviews := st.reviews + [ReviewEntry(line, c.confidence, SourceName(env), i)])
      else st;
    ReinterpretKeepsReviews(st1, line, c.tag);
  }

  /** A line labelled SET that holds `weight x reps` somewhere records a row without a set
      number, time, load or note, whose weight, reps and volume are all present: the weight
      is the number as written and the reps its whole part. With no such text, or without
      exercise and date, the rows stay as they are. The context never changes. */
  lemma ReinterpretSet(st: ParseState, line: string)
    ensures var next := Reinterpret(st, line, "SET");
      && next.date == st.date && next.program == st.program && next.exercise == st.exercise
      && match SearchWeightReps(line)
         case Some(wr) =>
           if Truthy(st.exercise) && Truthy(st.date) then
             && |next.rows| == |st.rows| + 1 && next.rows[..|st.rows|] == st.rows
             && var row := next.rows[|st.rows|];
             && row.setNo.None? && row.timeSec.None? && row.isoLoad.None? && row.notes.None?
             && row.date == st.date.value && row.exercise == st.exercise.value
             && row.program == st.program
             && row.weightKg == ParseFloat(wr.0) && row.weightKg.Some?
             && row.reps == Some(WholePart(wr.1) as int)
             && row.volume.Some?
           else next.rows == st.rows
         case None => next.rows == st.rows
  {
    match SearchWeightReps(line)
    case Some(wr) =>
      WeightPlain(wr.0);
      RepsPlain(wr.1);
      if Truthy(st.exercise) && Truthy(st.date) {
        var next := Reinterpret(st, line, "SET");
        assert next.rows == st.rows + [LooseRow(st, wr.0, wr.1)];
        assert next.rows[..|st.rows|] == st.rows;
      }
    case None =>
  }

  /** A line labelled EXERCISE goes through the same cleaner as an exercise-name line, on
      the whole line; only the exercise can change. */
  lemma ReinterpretExercise(st: ParseState, line: string)
    ensures var next := Reinterpret(st, line, "EXERCISE");
      && next.date == st.date && next.program == st.program && next.rows == st.rows
      && match CleanName(line)
         case KeepExercise => next.exercise == st.exercise
         case ClearExercise => next.exercise.None?
         case SetExercise(n) => next.exercise == Some(n)
  {
  }

  /** Merging a note with no row yet does nothing; otherwise it changes the notes of the last
      row and nothing else: they become the line when they were empty, and gain ` ; ` and
      the line when they were not. */
  lemma MergeNoteEffect(st: ParseState, line: string)
    ensures var next := MergeNote(st, line);
      && next.date == st.date && next.program == st.program && next.exercise == st.exercise
      && |next.rows| == |st.rows|
      && (st.rows == [] ==> next.rows == [])
      && (st.rows != [] ==>
            var k := |st.rows| - 1;
            && next.rows[..k] == st.rows[..k]
            && next.rows[k] == st.rows[k].(notes := next.rows[k].notes)
            && next.rows[k].notes == Some(
                 if Truthy(st.rows[k].notes) then st.rows[k].notes.value + " ; " + line else line))
  {
    if st.rows != [] {
      var k := |st.rows| - 1;
      var next := MergeNote(st, line);
      assert next.rows[..k] == st.rows[..k];
    }
  }

  /** A line labelled NOTE is merged into the last row's notes. */
  lemma ReinterpretNote(st: ParseState, line: string)
    ensures Reinterpret(st, line, "NOTE") == MergeNote(st, line)
  {
  }

  /** Any other label changes nothing. */
  lemma ReinterpretOther(st: ParseState, line: string, tag: string)
    requires tag != "SET" && tag != "EXERCISE" && tag != "NOTE"
    ensures Reinterpret(st, line, tag) == st
  {
  }

  // ---------------------------------------------------------------------------------------
  // Rows are only appended, and only the last one's notes are ever rewritten

  /** Two rows that agree on everything but their notes. */
  predicate SameButNotes(a: SetRecord, b: SetRecord) {
    a.(notes := None) == b.(notes := None)
  }

  /** The rows `b` are the rows `a`, perhaps with new notes on the last one and one more row
      after it. */
  predicate RowsExtend(a: seq<SetRecord>, b: seq<SetRecord>) {
    && |a| <= |b| <= |a| + 1
    && (forall k :: 0 <= k < |a| - 1 ==> b[k] == a[k])
    && (a != [] ==> SameButNotes(b[|a| - 1], a[|a| - 1]))
  }

  lemma ReinterpretKeepsRows(st: ParseState, line: string, tag: string)
    ensures RowsExtend(st.rows, Reinterpret(st, line, tag).rows)
  {
    if tag == "SET" {
      ReinterpretSet(st, line);
    } else if tag == "EXERCISE" {
      ReinterpretExercise(st, line);
    } else if tag == "NOTE" {
      MergeNoteEffect(st, line);
    }
  }

  /** One line keeps every row but the last as it was, keeps the last one but for its
      notes, and adds at most one row. */
  lemma ApplyKeepsRows(env: Env, st: ParseState, line: string, kind: LineKind, i: nat)
    ensures RowsExtend(st.rows, Apply(env, st, line, kind, i).rows)
  {
    match kind
    case SetLine(m) => SetLineEffect(env, st, line, m, i);
    case Unmatched => FallbackKeepsRows(env, st, line, i);
    case ExerciseLine(raw) => NameKeepsRows(st, CleanName(raw));
    case _ =>
  }

  /** The cleaner's outcome only ever changes the exercise, never the rows or reviews. */
  lemma NameKeepsRows(st: ParseState, o: NameOutcome)
    ensures ApplyName(st, o).rows == st.rows && ApplyName(st, o).reviews == st.reviews
    ensures RowsExtend(st.rows, st.rows)
  {
  }

  /** The classifier's fallback keeps the rows in the same way. */
  lemma FallbackKeepsRows(env: Env, st: ParseState, line: string, i: nat)
    ensures RowsExtend(st.rows, Fallback(env, st, line, i).rows)
  {
    if env.classifier.Some? {
      var c := env.classifier.value(line);
      var st1 := if c.confidence < env.confThreshold && env.reviewSink
        then st.(reviews := st.reviews + [ReviewEntry(line, c.confidence, SourceName(env), i)])
        else st;
      ReinterpretKeepsRows(st1, line, c.tag);
    }
  }

  /** The last line of a run, as `Run` applies it. */
  lemma RunLast(env: Env, lines: seq<string>)
    requires lines != []
    ensures var line := Strip(lines[|lines| - 1]);
      Run(env, lines) == Apply(env, Run(env, lines[..|lines| - 1]), line, Classify(line), |lines|)
  {
  }

  /** The rows `b` keep the rows `a` in order, all as they were except that the last one
      may have gained notes. */
  predicate KeepsRows(a: seq<SetRecord>, b: seq<SetRecord>) {
    && |a| <= |b|
    && (forall k :: 0 <= k < |a| - 1 ==> b[k] == a[k])
    && (a != [] ==> SameButNotes(b[|a| - 1], a[|a| - 1]))
  }

  lemma KeepsRowsTrans(a: seq<SetRecord>, b: seq<SetRecord>, c: seq<SetRecord>)
    requires KeepsRows(a, b) && RowsExtend(b, c)
    ensures KeepsRows(a, c)
  {
    if a != [] {
      var j := |a| - 1;
      if j < |b| - 1 {
        assert c[j] == b[j];
      }
    }
  }

  lemma KeepsRowsRefl(a: seq<SetRecord>)
    ensures KeepsRows(a, a)
  {
  }

  /** One more line extends the rows. */
  lemma RunExtends(env: Env, lines: seq<string>)
    requires lines != []
    ensures RowsExtend(Run(env, lines[..|lines| - 1]).rows, Run(env, lines).rows)
  {
    var line := Strip(lines[|lines| - 1]);
    RunLast(env, lines);
    ApplyKeepsRows(env, Run(env, lines[..|lines| - 1]), line, Classify(line), |lines|);
  }

  /** Over any run, the rows present after a prefix of the lines stay, in order, after the
      whole: all of them as they were except that the last one may have gained notes. */
  lemma {:induction false} RunKeepsRows(env: Env, lines: seq<string>, n: nat)
    requires n <= |lines|
    ensures KeepsRows(Run(env, lines[..n]).rows, Run(env, lines).rows)
  {
    if n < |lines| {
      var init := lines[..|lines| - 1];
      assert init[..n] == lines[..n];
      RunKeepsRows(env, init, n);
      RunExtends(env, lines);
      KeepsRowsTrans(Run(env, lines[..n]).rows, Run(env, init).rows, Run(env, lines).rows);
    } else {
      assert lines[..n] == lines;
      KeepsRowsRefl(Run(env, lines).rows);
    }
  }

  // ---------------------------------------------------------------------------------------
  // What every recorded row satisfies

  /** A name that the cleaner can make current: non-empty, trimmed, blanks collapsed, and not
      an excluded phrase. */
  predicate NameOk(n: string) {
    && n != [] && !IsSpace(n[0]) && !IsSpace(n[|n| - 1])
    && (forall i :: 0 <= i < |n| - 1 ==> !(IsSpace(n[i]) && IsSpace(n[i + 1])))
    && Lower(n) !in ExcludePhrases
  }

  /** A row as the parser builds it: a non-empty date, a cleaned exercise name, a volume
      exactly when weight and reps are both present (their product), and an isometric load
      only on a row without reps. */
  predicate RowOk(r: SetRecord) {
    && r.date != [] && NameOk(r.exercise)
    && r.volume == ComputeVolume(r.weightKg, r.reps)
    && (r.isoLoad.Some? ==> r.reps.None? && r.isoLoad == IsoLoad(r.weightKg, r.timeSec))
  }

  predicate StateOk(st: ParseState) {
    && (st.exercise.Some? ==> NameOk(st.exercise.value))
    && forall k :: 0 <= k < |st.rows| ==> RowOk(st.rows[k])
  }

  /** Volume and isometric load are never both set, and each is the product it stands for. */
  lemma RowMeasures(r: SetRecord)
    requires RowOk(r)
    ensures !(r.volume.Some? && r.isoLoad.Some?)
    ensures r.volume.Some? <==> r.weightKg.Some? && r.reps.Some?
    ensures r.volume.Some? ==> r.volume.value == r.weightKg.value * r.reps.value as real
    ensures r.isoLoad.Some? ==>
      r.weightKg.Some? && r.timeSec.Some? && r.isoLoad.value == r.weightKg.value * r.timeSec.value
  {
    assert r.volume == ComputeVolume(r.weightKg, r.reps);
    if r.isoLoad.Some? {
      assert r.reps.None? && r.isoLoad == IsoLoad(r.weightKg, r.timeSec);
    }
  }

  lemma ApplyNameKeepsOk(st: ParseState, o: NameOutcome)
    requires StateOk(st)
    requires o.SetExercise? ==> NameOk(o.name)
    ensures StateOk(ApplyName(st, o))
  {
  }

  lemma CleanNameKeepsOk(st: ParseState, text: string)
    requires StateOk(st)
    ensures StateOk(ApplyName(st, CleanName(text)))
  {
    ApplyNameKeepsOk(st, CleanName(text));
  }

  lemma SetRowOk(st: ParseState, m: SetMatch)
    requires StateOk(st)
    requires Recordable(st, SetValuesOf(m))
    ensures RowOk(SetRow(st, m.setNo, SetValuesOf(m)))
  {
  }

  lemma LooseRowOk(st: ParseState, w: string, r: string)
    requires StateOk(st) && Truthy(st.exercise) && Truthy(st.date)
    ensures RowOk(LooseRow(st, w, r))
  {
  }

  lemma AppendKeepsOk(st: ParseState, row: SetRecord)
    requires StateOk(st) && RowOk(row)
    ensures StateOk(st.(rows := st.rows + [row]))
  {
    var rows := st.rows + [row];
    forall k | 0 <= k < |rows| ensures RowOk(rows[k]) {
      if k < |st.rows| {
        assert rows[k] == st.rows[k];
      }
    }
  }

  lemma MergeNoteKeepsOk(st: ParseState, line: string)
    requires StateOk(st)
    ensures StateOk(MergeNote(st, line))
  {
    if st.rows != [] {
      var k := |st.rows| - 1;
      var next := MergeNote(st, line);
      assert RowOk(next.rows[k]) by { assert RowOk(st.rows[k]); }
      assert forall j :: 0 <= j < k ==> next.rows[j] == st.rows[j];
    }
  }

  lemma ReinterpretKeepsOk(st: ParseState, line: string, tag: string)
    requires StateOk(st)
    ensures StateOk(Reinterpret(st, line, tag))
  {
    if tag == "SET" {
      match SearchWeightReps(line)
      case Some(wr) =>
        if Truthy(st.exercise) && Truthy(st.date) {
          LooseRowOk(st, wr.0, wr.1);
          AppendKeepsOk(st, LooseRow(st, wr.0, wr.1));
        }
      case None =>
    } else if tag == "EXERCISE" {
      CleanNameKeepsOk(st, line);
    } else if tag == "NOTE" {
      MergeNoteKeepsOk(st, line);
    }
  }

  lemma ApplyKeepsOk(env: Env, st: ParseState, line: string, kind: LineKind, i: nat)
    requires StateOk(st)
    ensures StateOk(Apply(env, st, line, kind, i))
  {
    match kind
    case DateLine(d) =>
    case SectionLine =>
    case SetLine(m) =>
      if Recordable(st, SetValuesOf(m)) {
        SetRowOk(st, m);
        AppendKeepsOk(st, SetRow(st, m.setNo, SetValuesOf(m)));
      }
    case ExerciseLine(rawName) =>
      CleanNameKeepsOk(st, rawName);
    case Unmatched =>
      if env.classifier.Some? {
        var c := env.classifier.value(line);
        var st1 := if c.confidence < env.confThreshold && env.reviewSink
          then st.(reviews := st.reviews + [ReviewEntry(line, c.confidence, SourceName(env), i)])
          else st;
        ReinterpretKeepsOk(st1, line, c.tag);
      }
  }

  /** Every row of every run is well formed, and so is the current exercise. */
  lemma {:induction false} RunOk(env: Env, lines: seq<string>)
    ensures StateOk(Run(env, lines))
  {
    if lines != [] {
      RunOk(env, lines[..|lines| - 1]);
      var line := Strip(lines[|lines| - 1]);
      RunLast(env, lines);
      ApplyKeepsOk(env, Run(env, lines[..|lines| - 1]), line, Classify(line), |lines|);
    }
  }

  /** The rows parse_log_content returns are all well formed. */
  lemma ParsedRowsOk(env: Env, raw: string)
    ensures forall k :: 0 <= k < |ParseLog(env, raw)| ==> RowOk(ParseLog(env, raw)[k])
  {
    RunOk(env, Preprocess(raw));
  }

  // ---------------------------------------------------------------------------------------
  // The review sink

  /** The review entry that a line of the given kind produces, if any: it depends on the
      line alone, not on the context or on what the classifier's label makes of the line. */
  function LineReview(env: Env, line: string, kind: LineKind, i: nat): seq<ReviewEntry> {
    if && kind.Unmatched? && env.classifier.Some? && env.reviewSink
       && env.classifier.value(line).confidence < env.confThreshold
    then [ReviewEntry(line, env.classifier.value(line).confidence, SourceName(env), i)]
    else []
  }

  /** The review entries of a list of lines, one line after another. */
  function ReviewsOf(env: Env, lines: seq<string>): seq<ReviewEntry>
    decreases |lines|
  {
    if lines == [] then []
    else
      var line := Strip(lines[|lines| - 1]);
      ReviewsOf(env, lines[..|lines| - 1]) + LineReview(env, line, Classify(line), |lines|)
  }

  lemma ApplyReviews(env: Env, st: ParseState, line: string, kind: LineKind, i: nat)
    ensures Apply(env, st, line, kind, i).reviews == st.reviews + LineReview(env, line, kind, i)
  {
    if kind.Unmatched? && env.classifier.Some? {
      FallbackReview(env, st, line, i);
    }
  }

  /** The review sink sees the same calls whatever the lines did to the parser's state. */
  lemma {:induction false} RunReviews(env: Env, lines: seq<string>)
    ensures Run(env, lines).reviews == ReviewsOf(env, lines)
  {
    if lines != [] {
      RunReviews(env, lines[..|lines| - 1]);
      var line := Strip(lines[|lines| - 1]);
      RunLast(env, lines);
      ApplyReviews(env, Run(env, lines[..|lines| - 1]), line, Classify(line), |lines|);
    }
  }

  /** A review entry for one of the lines: its position (from 1), its stripped text, the
      confidence the classifier gave it, below the threshold, and the source name. */
  predicate ReviewOfLine(env: Env, lines: seq<string>, e: ReviewEntry) {
    && 1 <= e.lineNo <= |lines|
    && e.line == Strip(lines[e.lineNo - 1])
    && env.reviewSink && env.classifier.Some?
    && e.confidence == env.classifier.value(e.line).confidence
    && e.confidence < env.confThreshold
    && e.sourceFile == SourceName(env)
  }

  lemma ReviewOfLonger(env: Env, lines: seq<string>, e: ReviewEntry)
    requires lines != [] && ReviewOfLine(env, lines[..|lines| - 1], e)
    ensures ReviewOfLine(env, lines, e)
  {
    assert lines[..|lines| - 1][e.lineNo - 1] == lines[e.lineNo - 1];
  }

  lemma ReviewsOfLast(env: Env, lines: seq<string>)
    requires lines != []
    ensures var line := Strip(lines[|lines| - 1]);
      ReviewsOf(env, lines) == ReviewsOf(env, lines[..|lines| - 1]) + LineReview(env, line, Classify(line), |lines|)
  {
  }

  lemma LastReviewOk(env: Env, lines: seq<string>)
    requires lines != []
    ensures var line := Strip(lines[|lines| - 1]);
      var x := LineReview(env, line, Classify(line), |lines|);
      |x| <= 1 && (x != [] ==> ReviewOfLine(env, lines, x[0]) && x[0].lineNo == |lines|)
  {
  }

  /** Each review entry names a line by its (1-based) position among the kept lines, with
      its stripped text, the confidence that was below the threshold, and the source
      name. */
  lemma {:induction false} ReviewsPointAtLines(env: Env, lines: seq<string>)
    ensures forall k :: 0 <= k < |ReviewsOf(env, lines)| ==> ReviewOfLine(env, lines, ReviewsOf(env, lines)[k])
  {
    if lines != [] {
      var init := lines[..|lines| - 1];
      ReviewsPointAtLines(env, init);
      ReviewsOfLast(env, lines);
      LastReviewOk(env, lines);
      var rs0 := ReviewsOf(env, init);
      var rs := ReviewsOf(env, lines);
      forall k | 0 <= k < |rs|
        ensures ReviewOfLine(env, lines, rs[k])
      {
        if k < |rs0| {
          assert rs[k] == rs0[k];
          ReviewOfLonger(env, lines, rs0[k]);
        }
      }
    }
  }

  /** Only lines that no pattern matched are reported. */
  lemma {:induction false} ReviewedLinesUnmatched(env: Env, lines: seq<string>, k: nat)
    requires k < |ReviewsOf(env, lines)|
    ensures Classify(ReviewsOf(env, lines)[k].line).Unmatched?
  {
    var init := lines[..|lines| - 1];
    ReviewsOfLast(env, lines);
    var rs0 := ReviewsOf(env, init);
    if k < |rs0| {
      ReviewedLinesUnmatched(env, init, k);
      assert ReviewsOf(env, lines)[k] == rs0[k];
    } else {
      var line := Strip(lines[|lines| - 1]);
      assert ReviewsOf(env, lines)[k] == LineReview(env, line, Classify(line), |lines|)[0];
    }
  }

  /** The reported positions strictly increase, so no line is reported twice. */
  lemma {:induction false} ReviewLinesIncrease(env: Env, lines: seq<string>)
    ensures forall j, k :: 0 <= j < k < |ReviewsOf(env, lines)| ==>
      ReviewsOf(env, lines)[j].lineNo < ReviewsOf(env, lines)[k].lineNo
  {
    if lines != [] {
      var init := lines[..|lines| - 1];
      ReviewLinesIncrease(env, init);
      ReviewsBelow(env, init);
      ReviewsOfLast(env, lines);
      LastReviewOk(env, lines);
      var line := Strip(lines[|lines| - 1]);
      AppendIncreasing(ReviewsOf(env, init), LineReview(env, line, Classify(line), |lines|), |lines|);
    }
  }

  /** The entries of a list of lines all point before the line after it. */
  lemma ReviewsBelow(env: Env, lines: seq<string>)
    ensures forall k :: 0 <= k < |ReviewsOf(env, lines)| ==> ReviewsOf(env, lines)[k].lineNo < |lines| + 1
  {
    ReviewsPointAtLines(env, lines);
  }

  /** Appending at most one entry past every earlier position keeps the positions increasing. */
  lemma AppendIncreasing(rs0: seq<ReviewEntry>, x: seq<ReviewEntry>, bound: nat)
    requires forall j, k :: 0 <= j < k < |rs0| ==> rs0[j].lineNo < rs0[k].lineNo
    requires forall k :: 0 <= k < |rs0| ==> rs0[k].lineNo < bound
    requires |x| <= 1 && (x != [] ==> x[0].lineNo == bound)
    ensures forall j, k :: 0 <= j < k < |rs0 + x| ==> (rs0 + x)[j].lineNo < (rs0 + x)[k].lineNo
  {
    var rs := rs0 + x;
    forall j, k | 0 <= j < k < |rs|
      ensures rs[j].lineNo < rs[k].lineNo
    {
      assert rs[j] == rs0[j];
      if k < |rs0| {
        assert rs[k] == rs0[k];
      } else {
        assert rs[k] == x[0];
      }
    }
  }

  /** Conversely, every unmatched line whose confidence is below the threshold is reported
      when a sink is supplied. */
  lemma {:induction false} ReviewedLinesReported(env: Env, lines: seq<string>, j: nat)
    requires j < |lines| && env.reviewSink && env.classifier.Some?
    requires Classify(Strip(lines[j])).Unmatched?
    requires env.classifier.value(Strip(lines[j])).confidence < env.confThreshold
    ensures exists k :: 0 <= k < |ReviewsOf(env, lines)| && ReviewsOf(env, lines)[k].lineNo == j + 1
  {
    var m := |lines| - 1;
    var init := lines[..m];
    if j == m {
      LastLineReported(env, lines);
      assert ReviewsOf(env, lines)[|ReviewsOf(env, init)|].lineNo == j + 1;
    } else {
      assert init[j] == lines[j];
      ReviewedLinesReported(env, init, j);
      var k :| 0 <= k < |ReviewsOf(env, init)| && ReviewsOf(env, init)[k].lineNo == j + 1;
      EarlierReviewKept(env, lines, k);
    }
  }

  /** A reported last line is the entry after those of the earlier lines. */
  lemma LastLineReported(env: Env, lines: seq<string>)
    requires lines != [] && env.reviewSink && env.classifier.Some?
    requires Classify(Strip(lines[|lines| - 1])).Unmatched?
    requires env.classifier.value(Strip(lines[|lines| - 1])).confidence < env.confThreshold
    ensures var rs0 := ReviewsOf(env, lines[..|lines| - 1]);
      |rs0| < |ReviewsOf(env, lines)| && ReviewsOf(env, lines)[|rs0|].lineNo == |lines|
  {
    ReviewsOfLast(env, lines);
  }

  /** One more line keeps the entries of the earlier lines where they were. */
  lemma EarlierReviewKept(env: Env, lines: seq<string>, k: nat)
    requires lines != [] && k < |ReviewsOf(env, lines[..|lines| - 1])|
    ensures k < |ReviewsOf(env, lines)|
    ensures ReviewsOf(env, lines)[k] == ReviewsOf(env, lines[..|lines| - 1])[k]
  {
    ReviewsOfLast(env, lines);
  }

  // ---------------------------------------------------------------------------------------
  // The review sink does not steer the parse

  lemma ApplyNameIgnoresReviews(a: ParseState, b: ParseState, o: NameOutcome)
    requires a.(reviews := []) == b.(reviews := [])
    ensures ApplyName(a, o).(reviews := []) == ApplyName(b, o).(reviews := [])
  {
  }

  lemma MergeNoteIgnoresReviews(a: ParseState, b: ParseState, line: string)
    requires a.(reviews := []) == b.(reviews := [])
    ensures MergeNote(a, line).(reviews := []) == MergeNote(b, line).(reviews := [])
  {
    assert a.rows == b.rows;
  }

  lemma ReinterpretIgnoresReviews(a: ParseState, b: ParseState, line: string, tag: string)
    requires a.(reviews := []) == b.(reviews := [])
    ensures Reinterpret(a, line, tag).(reviews := []) == Reinterpret(b, line, tag).(reviews := [])
  {
    assert a.date == b.date && a.program == b.program && a.exercise == b.exercise && a.rows == b.rows;
    if tag == "SET" {
      match SearchWeightReps(line)
      case Some(wr) =>
        if Truthy(a.exercise) && Truthy(a.date) {
          assert LooseRow(a, wr.0, wr.1) == LooseRow(b, wr.0, wr.1);
        }
      case None =>
    } else if tag == "EXERCISE" {
      ApplyNameIgnoresReviews(a, b, CleanName(line));
    } else if tag == "NOTE" {
      MergeNoteIgnoresReviews(a, b, line);
    }
  }

  /** A line's effect on the context and rows depends only on the context and rows. */
  lemma ApplyIgnoresReviews(e1: Env, e2: Env, a: ParseState, b: ParseState, line: string, kind: LineKind, i: nat)
    requires e1.classifier == e2.classifier && e1.normalizeDate == e2.normalizeDate
    requires a.(reviews := []) == b.(reviews := [])
    ensures Apply(e1, a, line, kind, i).(reviews := []) == Apply(e2, b, line, kind, i).(reviews := [])
  {
    assert a.date == b.date && a.program == b.program && a.exercise == b.exercise && a.rows == b.rows;
    match kind
    case SetLine(m) =>
      var v := SetValuesOf(m);
      if Recordable(a, v) {
        assert SetRow(a, m.setNo, v) == SetRow(b, m.setNo, v);
      }
    case ExerciseLine(rawName) =>
      ApplyNameIgnoresReviews(a, b, CleanName(rawName));
    case Unmatched =>
      if e1.classifier.Some? {
        var c := e1.classifier.value(line);
        var a1 := if c.confidence < e1.confThreshold && e1.reviewSink
          then a.(reviews := a.reviews + [ReviewEntry(line, c.confidence, SourceName(e1), i)]) else a;
        var b1 := if c.confidence < e2.confThreshold && e2.reviewSink
          then b.(reviews := b.reviews + [ReviewEntry(line, c.confidence, SourceName(e2), i)]) else b;
        assert a1.(reviews := []) == b1.(reviews := []);
        ReinterpretIgnoresReviews(a1, b1, line, c.tag);
      }
    case _ =>
  }

  /** Whether a review sink is supplied changes nothing about the rows or the context. */
  lemma {:induction false} SinkDoesNotChangeRows(env: Env, lines: seq<string>)
    ensures Run(env.(reviewSink := true), lines).(reviews := [])
         == Run(env.(reviewSink := false), lines).(reviews := [])
  {
    if lines != [] {
      var init := lines[..|lines| - 1];
      SinkDoesNotChangeRows(env, init);
      var e1 := env.(reviewSink := true);
      var e2 := env.(reviewSink := false);
      var line := Strip(lines[|lines| - 1]);
      RunLast(e1, lines);
      RunLast(e2, lines);
      ApplyIgnoresReviews(e1, e2, Run(e1, init), Run(e2, init), line, Classify(line), |lines|);
    }
  }
}
