/** The exercise-name normaliser: a name is reduced to a lookup key (lower-cased, stripped,
    whitespace runs folded to one space) and replaced by the canonical display name that the
    synonym table gives for that key; a name the table does not know is returned unchanged. */
module Normalize {
  import opened Text

  /** A string that is already in key form: no upper-case letter, no whitespace other than single
      spaces, and no space at either end. */
  predicate IsCanonical(k: string) {
    && NoUpper(k)
    && (forall i :: 0 <= i < |k| ==> IsSpace(k[i]) ==> k[i] == ' ')
    && (forall i :: 0 <= i < |k| - 1 ==> !(k[i] == ' ' && k[i + 1] == ' '))
    && (k == [] || (k[0] != ' ' && k[|k| - 1] != ' '))
  }

  /** The lookup key of a name: strip, lower-case, then every whitespace run becomes one space.
      The key is in key form, and it is empty exactly when the name is blank. */
  function CanonicalKey(name: string): (k: string)
    ensures IsCanonical(k)
    ensures (k == []) == AllSpaces(name)
  {
    var s := Strip(name);
    var l := Lower(s);
    LowerKeepsSpaces(s);
    StripEmpty(name);
    CollapseOfStrippedLower(l);
    CollapseRuns(l)
  }

  /** Lower-casing leaves whitespace where it was and leaves no upper-case letter. */
  lemma LowerKeepsSpaces(s: string)
    ensures forall i :: 0 <= i < |s| ==> (IsSpace(Lower(s)[i]) <==> IsSpace(s[i]))
    ensures NoUpper(Lower(s))
  {
    var l := Lower(s);
    forall i | 0 <= i < |s| ensures (IsSpace(l[i]) <==> IsSpace(s[i])) && !('A' <= l[i] <= 'Z') {
      assert l[i] == LowerChar(s[i]);
    }
  }

  lemma StripEmpty(s: string)
    ensures (Strip(s) == []) == AllSpaces(s)
  {
    var t := SkipSpaces(s);
    var k := SpaceRunLen(s);
    assert t == s[k..];
    if Strip(s) == [] {
      assert t[0..] == t;
      assert |t| == 0;
    } else {
      assert k < |s|;
    }
  }

  /** Collapsing a string with no upper-case letters and no whitespace at its ends gives a
      string in key form. */
  lemma CollapseOfStrippedLower(l: string)
    requires NoUpper(l)
    requires l == [] || (!IsSpace(l[0]) && !IsSpace(l[|l| - 1]))
    ensures IsCanonical(CollapseRuns(l))
  {
    var r := CollapseRuns(l);
    CollapseKeepsLowerCase(l);
    assert forall i :: 0 <= i < |r| ==> IsSpace(r[i]) ==> r[i] == ' ';
    assert forall i :: 0 <= i < |r| - 1 ==> !(r[i] == ' ' && r[i + 1] == ' ');
    assert r == [] || (r[0] != ' ' && r[|r| - 1] != ' ');
  }

  predicate NoUpper(s: string) { forall i :: 0 <= i < |s| ==> !('A' <= s[i] <= 'Z') }

  lemma {:induction false} CollapseKeepsLowerCase(l: string)
    requires NoUpper(l)
    ensures NoUpper(CollapseRuns(l))
    decreases |l|
  {
    if l != [] {
      var k := SpaceRunLen(l);
      if k >= 1 {
        CollapseKeepsLowerCase(l[k..]);
      } else {
        CollapseKeepsLowerCase(l[1..]);
      }
    }
  }

  /** A string in key form is its own key. */
  lemma {:induction false} CanonicalFixed(k: string)
    requires IsCanonical(k)
    ensures CanonicalKey(k) == k
  {
    assert SpaceRunLen(k) == 0 by {
      if k != [] { assert !IsSpace(k[0]); }
    }
    assert SkipSpaces(k) == k;
    assert Strip(k) == k by {
      if k != [] { assert !IsSpace(k[|k| - 1]); }
    }
    assert Lower(k) == k;
    CollapseSingleSpaces(k);
  }

  /** Folding whitespace runs changes nothing when every whitespace character is a lone space. */
  lemma {:induction false} CollapseSingleSpaces(s: string)
    requires forall i :: 0 <= i < |s| ==> IsSpace(s[i]) ==> s[i] == ' '
    requires forall i :: 0 <= i < |s| - 1 ==> !(s[i] == ' ' && s[i + 1] == ' ')
    ensures CollapseRuns(s) == s
    decreases |s|
  {
    if s != [] {
      CollapseSingleSpaces(s[1..]);
      if IsSpace(s[0]) {
        assert |s| > 1 ==> !IsSpace(s[1]);
        RunLenUnique(s, IsSpace, 1);
      } else {
        RunLenUnique(s, IsSpace, 0);
      }
    }
  }

  /** Taking the key twice is taking it once. */
  lemma KeyIdempotent(name: string)
    ensures CanonicalKey(CanonicalKey(name)) == CanonicalKey(name)
  {
    CanonicalFixed(CanonicalKey(name));
  }

  /** The key does not depend on the case of the name. */
  lemma KeyIgnoresCase(name: string)
    ensures CanonicalKey(Lower(name)) == CanonicalKey(name)
  {
    StripLower(name);
    LowerIdempotent(Strip(name));
  }

  /** The key does not depend on whitespace around the name. */
  lemma KeyIgnoresPadding(p: string, name: string, q: string)
    requires AllSpaces(p) && AllSpaces(q)
    ensures CanonicalKey(p + name + q) == CanonicalKey(name)
  {
    StripPadded(p, name, q);
  }

  /** The key keeps every character of the lower-cased name that is not whitespace, in
      order: only whitespace is dropped or folded. */
  lemma KeyKeepsText(name: string)
    ensures NonSpace(CanonicalKey(name)) == NonSpace(Lower(name))
  {
    var l := Lower(Strip(name));
    CollapseRunsKeepsText(l);
    StripLower(name);
    StripKeepsText(Lower(name));
  }

  /** `normalize_exercise` with the synonym table as a parameter. An empty name is
      returned as it is; otherwise the result is the table's display name for the key, or the
      name unchanged when the key is not in the table. */
  function NormalizeWith(table: map<string, string>, name: string): (r: string)
    ensures r == name || r in table.Values
    ensures r != name ==> name != [] && CanonicalKey(name) in table
  {
    if name == [] then name
    else
      var key := CanonicalKey(name);
      if key in table then table[key] else name
  }

  /** The normaliser with the repository's own table. */
  function NormalizeExercise(name: string): (r: string)
    ensures r == name || r in Synonyms.Values
  {
    NormalizeWith(Synonyms, name)
  }

  /** Two non-empty names with the same known key normalise to the same display name: case,
      surrounding whitespace and the width of inner whitespace do not matter. */
  lemma SameKeySameName(table: map<string, string>, a: string, b: string)
    requires a != [] && b != []
    requires CanonicalKey(a) == CanonicalKey(b) && CanonicalKey(a) in table
    ensures NormalizeWith(table, a) == NormalizeWith(table, b) == table[CanonicalKey(a)]
  {
  }

  /** A table is closed when every display name it produces is mapped back to itself (or is not
      a key at all). */
  predicate Closed(table: map<string, string>) {
    forall k :: k in table ==>
      var v := table[k];
      v == [] || CanonicalKey(v) !in table || table[CanonicalKey(v)] == v
  }

  /** Over a closed table normalising twice is normalising once. */
  lemma NormalizeIdempotent(table: map<string, string>, name: string)
    requires Closed(table)
    ensures NormalizeWith(table, NormalizeWith(table, name)) == NormalizeWith(table, name)
  {
    if name != [] && CanonicalKey(name) in table {
      var v := table[CanonicalKey(name)];
      assert v == [] || CanonicalKey(v) !in table || table[CanonicalKey(v)] == v;
    }
  }

  /** A name already in key form that the table knows is replaced by its display name. */
  lemma KnownKey(name: string)
    requires name != [] && IsCanonical(name) && name in Synonyms
    ensures NormalizeExercise(name) == Synonyms[name]
  {
    CanonicalFixed(name);
  }

  /** A known key maps to its display name. */
  lemma BarbellSquats()
    ensures NormalizeExercise("barbell squats") == "Barbell Back Squats"
  {
    KnownKey("barbell squats");
  }

  /** The three shrug spellings collapse onto one display name. */
  lemma ShrugAliases(name: string)
    requires name == "barbell shrugs" || name == "db shrugs" || name == "trap-bar shrugs"
    ensures NormalizeExercise(name) == "Shrugs"
  {
    if name == "barbell shrugs" {
      BarbellShrugsEntry(name);
    } else if name == "db shrugs" {
      DumbbellShrugsEntry(name);
    } else {
      TrapBarShrugsEntry(name);
    }
    KnownKey(name);
  }

  lemma BarbellShrugsEntry(name: string)
    requires name == "barbell shrugs"
    ensures name in Synonyms && Synonyms[name] == "Shrugs" && IsCanonical(name)
  {
  }

  lemma DumbbellShrugsEntry(name: string)
    requires name == "db shrugs"
    ensures name in Synonyms && Synonyms[name] == "Shrugs" && IsCanonical(name)
  {
  }

  lemma TrapBarShrugsEntry(name: string)
    requires name == "trap-bar shrugs"
    ensures name in Synonyms && Synonyms[name] == "Shrugs" && IsCanonical(name)
  {
  }

  /** A name whose key the table knows is replaced by the display name for that key. */
  lemma KeyLookup(name: string, key: string)
    requires name != [] && CanonicalKey(name) == key && key in Synonyms
    ensures NormalizeExercise(name) == Synonyms[key]
  {
  }

  /** Case, padding and inner spacing do not change the lookup. */
  lemma MessyBenchPress()
    ensures NormalizeExercise("  Bench   PRESS ") == "Barbell Bench Press"
  {
    var name := "  Bench   PRESS ";
    MessyStrip(name);
    MessyLower("Bench   PRESS");
    MessyCollapse("bench   press");
    BenchPressEntry("bench press");
    KeyLookup(name, "bench press");
  }

  lemma MessyStrip(name: string)
    requires name == "  Bench   PRESS "
    ensures Strip(name) == "Bench   PRESS"
  {
    RunLenUnique(name, IsSpace, 2);
    var t := SkipSpaces(name);
    assert t == "Bench   PRESS ";
    assert RStrip(t) == RStrip(t[..13]);
    assert t[..13] == "Bench   PRESS";
    assert Strip(name) == RStrip(t);
  }

  lemma MessyLower(s: string)
    requires s == "Bench   PRESS"
    ensures Lower(s) == "bench   press"
  {
    var t := "bench   press";
    forall i | 0 <= i < |s| ensures Lower(s)[i] == t[i] {
      assert Lower(s)[i] == LowerChar(s[i]);
    }
  }

  lemma MessyCollapse(s: string)
    requires s == "bench   press"
    ensures CollapseRuns(s) == "bench press"
  {
    assert s == "bench" + "   " + "press";
    CollapseWordGap("bench", "   ", "press");
  }

  /** Folding whitespace in a word, a gap of whitespace and a word gives the two words with one
      space between them. */
  lemma CollapseWordGap(a: string, gap: string, b: string)
    requires forall i :: 0 <= i < |a| ==> !IsSpace(a[i])
    requires forall i :: 0 <= i < |b| ==> !IsSpace(b[i])
    requires gap != [] && AllSpaces(gap)
    ensures CollapseRuns(a + gap + b) == a + " " + b
  {
    CollapseWordPrefix(a, gap + b);
    RegroupThree(a, gap, b);
    CollapseGapWord(gap, b);
    RegroupThree(a, " ", b);
  }

  lemma CollapseGapWord(gap: string, b: string)
    requires forall i :: 0 <= i < |b| ==> !IsSpace(b[i])
    requires gap != [] && AllSpaces(gap)
    ensures CollapseRuns(gap + b) == " " + b
  {
    var u := gap + b;
    if |gap| < |u| { assert u[|gap|] == b[0]; }
    RunLenUnique(u, IsSpace, |gap|);
    assert u[|gap|..] == b;
    CollapseSingleSpaces(b);
  }

  /** Folding whitespace keeps a leading character that is not whitespace. */
  lemma CollapseFromLetter(u: string)
    requires u != [] && !IsSpace(u[0])
    ensures CollapseRuns(u) == [u[0]] + CollapseRuns(u[1..])
  {
    RunLenUnique(u, IsSpace, 0);
  }

  /** Folding whitespace passes over a prefix that has none. */
  lemma {:induction false} CollapseWordPrefix(a: string, rest: string)
    requires forall i :: 0 <= i < |a| ==> !IsSpace(a[i])
    ensures CollapseRuns(a + rest) == a + CollapseRuns(rest)
    decreases |a|
  {
    if a != [] {
      var u := a + rest;
      assert u[0] == a[0];
      CollapseFromLetter(u);
      assert u[1..] == a[1..] + rest;
      CollapseWordPrefix(a[1..], rest);
      RegroupThree([a[0]], a[1..], CollapseRuns(rest));
      assert [a[0]] + a[1..] == a;
    } else {
      assert a + rest == rest;
    }
  }

  lemma BenchPressEntry(key: string)
    requires key == "bench press"
    ensures key in Synonyms && Synonyms[key] == "Barbell Bench Press"
  {
  }

  /** The synonym table, entry for entry: each lower-case key (a spelling or abbreviation of
      an exercise) maps to that exercise's display name. The groups appear from the last one
      of the source table to the first; every key that the source writes twice carries the
      same display name both times, so the order does not change the map. */
  const Synonyms: map<string, string> :=
    map[
      // Lunges
      "lunges" := "Lunges",
      // Leg Compression Lift
      "leg compression lifts" := "Leg Compression Lifts",
      // Dead Hang
      "dead hang" := "Dead Hangs",
      // Triceps Dip (Weighted)
      "triceps dips" := "Weighted Triceps Dips",
      "weighted dips" := "Weighted Triceps Dips",
      "weighted triceps dips" := "Weighted Triceps Dips",
      // T-Bar Row
      "t-bar rows" := "T-Bar Rows",
      // Straight-Arm Cable Pullover
      "stright arm cable pull over" := "Straight-Arm Cable Pullover",
      // Seated Calf Raise
      "seated calf raises" := "Seated Calf Raises",
      "seated calf raise" := "Seated Calf Raises",
      "standing calf raises" := "Standing Calf Raises",
      // Reverse Wrist Curl
      "db reverse wrist curls" := "Reverse Wrist Curls",
      "reverse wrist curls" := "Reverse Wrist Curls",
      "reverse wrist curls" := "Reverse Wrist Curls",
      // Reverse Curl
      "reverse curls" := "Reverse Curls",
      "reverse curls cable" := "Reverse Cable Curls",
      "reverse ez bar curls" := "Reverse EZ Bar Curls",
      // Push-Up
      "push ups" := "Push-Ups",
      // Pull-Up / Chin-Up (Weighted)
      "pull-ups" := "Weighted Pull-Ups",
      "pull-ups" := "Weighted Pull-Ups",
      "pullups" := "Weighted Pull-Ups",
      "weighted chinups" := "Weighted Chin-Ups",
      "chinups" := "Weighted Chin-Ups",
      "chinups" := "Weighted Chin-Ups",
      "weighted pull-ups" := "Weighted Pull-Ups",
      // Plank
      "plank" := "Plank",
      "side planks" := "Side Plank",
      // Overhead Cable Tricep Extension
      "over head cable tricep extensions" := "Overhead Cable Tricep Extension",
      "overhead cable extensions" := "Overhead Cable Tricep Extension",
      "overhead cable triceps extensions" := "Overhead Cable Tricep Extension",
      "overhead cable extension" := "Overhead Cable Tricep Extension",
      "overhead extension cable" := "Overhead Cable Tricep Extension",
      "overhead triceps extensions" := "Overhead Cable Tricep Extension",
      // Lying Hamstring Curl
      "lying hamstring curls" := "Lying Hamstring Curls",
      // Leg Press
      "leg press" := "Leg Press",
      // Leg Extension
      "leg extension" := "Leg Extension",
      "seated leg extension" := "Leg Extension",
      "seated leg extension" := "Leg Extension",
      // Lat Pulldown
      "lat pulldown" := "Lat Pulldown",
      "lat pulldown" := "Lat Pulldown",
      // L-Sit
      "l sit" := "L-Sit",
      // Incline Dumbbell Reverse Fly
      "incline db reverse flys" := "Incline Dumbbell Reverse Fly",
      "incline reverse db flies" := "Incline Dumbbell Reverse Fly",
      "seated db reverse flys" := "Seated Dumbbell Reverse Fly",
      "seated reverse flys" := "Seated Dumbbell Reverse Fly",
      // Incline Barbell Bench Press
      "incline barbell bench press" := "Incline Barbell Bench Press",
      "incline barbell press" := "Incline Barbell Bench Press",
      "incline bench press" := "Incline Barbell Bench Press",
      "inclined barbell press" := "Incline Barbell Bench Press",
      "incline smith bench press" := "Incline Smith Bench Press",
      // Hanging Knee/Leg Raise
      "hanging knee raises" := "Hanging Knee Raises",
      "hanging knee rises" := "Hanging Knee Raises",
      "hanging kneeraises" := "Hanging Knee Raises",
      "hanging knee raises" := "Hanging Knee Raises",
      "hanging knee raises" := "Hanging Knee Raises",
      "hanging leg rises" := "Hanging Leg Raises",
      // Hack Squat
      "hack squats" := "Hack Squat",
      // Front Wrist Curl
      "db front wrist curls" := "Front Wrist Curls",
      "front wrist curl" := "Front Wrist Curls",
      "front wrist curls" := "Front Wrist Curls",
      "wrist curls" := "Front Wrist Curls",
      // Front Squat
      "front squats" := "Front Barbell Squats",
      "goblet squats" := "Front Dumbbell Squats",
      // Finger Push-Up
      "finger push ups" := "Finger Push-Ups",
      // Farmer Carry
      "farmer carry db" := "Farmer Carry",
      // Face Pull
      "face pulls" := "Face Pulls",
      // Elbow-Supported Leg Raise
      "elbow supported leg raises" := "Elbow-Supported Leg Raises",
      "elbow supported leg rises" := "Elbow-Supported Leg Raises",
      "elbow supported leg raises" := "Elbow-Supported Leg Raises",
      // EZ Bar Skull Crusher
      "ez skull crusher" := "EZ Bar Skull Crushers",
      "ez skull crushers" := "EZ Bar Skull Crushers",
      // EZ Bar Bicep Curl
      "ez bar curls" := "EZ Bar Bicep Curls",
      "ez bar spider curls" := "EZ Bar Spider Curls",
      // Decline Crunch
      "declined crunches" := "Decline Crunches",
      // Deadlift
      "deadlift" := "Deadlifts",
      "deadlifts" := "Deadlifts",
      // Dumbbell Preacher Curl
      "db preacher curls" := "Dumbbell Preacher Curls",
      "preacher curls" := "Dumbbell Preacher Curls",
      // Dumbbell Hammer Curl
      "db hammer curls" := "Dumbbell Hammer Curls",
      "hammer curls" := "Dumbbell Hammer Curls",
      "rope hammer curls" := "Cable Hammer Curls",
      // Dumbbell Bench Press
      "db bench press" := "Dumbbell Bench Press",
      "incline db press" := "Incline Dumbbell Press",
      // Chest Supported DB Row
      "chest supported db row" := "Chest Supported DB Rows",
      // Chest Pec Fly / Pec Dec
      "chest pec dec" := "Chest Pec Deck",
      "reverse pec dec" := "Reverse Pec Deck",
      "single arm reverse pec dec" := "1-Arm Reverse Pec Deck",
      // Cable Seated Row
      "cable seated rows" := "Seated Cable Rows",
      "seated cable row" := "Seated Cable Rows",
      "seated cable rows" := "Seated Cable Rows",
      "seated row" := "Seated Cable Rows",
      // Cable Tricep Pushdown
      "cable pushdowns" := "Cable Tricep Pushdowns",
      "cable triceps pushdown" := "Cable Tricep Pushdowns",
      "triceps cable push down" := "Cable Tricep Pushdowns",
      "triceps pushdown" := "Cable Tricep Pushdowns",
      // Cable Lateral Raise
      "cable lateral raises" := "Cable Lateral Raises",
      "cable lateral raises" := "Cable Lateral Raises",
      "db lateral raises" := "Dumbbell Lateral Raises",
      "db lateral raises" := "Dumbbell Lateral Raises",
      "incline db lateral raises" := "Incline DB Lateral Raises",
      // Cable Tricep Kickback
      "cable kickback" := "Cable Tricep Kickbacks",
      "cable triceps kickback" := "Cable Tricep Kickbacks",
      "cable tricep kickback" := "Cable Tricep Kickbacks",
      // Cable Bicep Curl
      "cable curls" := "Cable Bicep Curls",
      // Cable Crunch
      "cable crunches" := "Cable Crunches",
      // Bulgarian Split Squat
      "bulgarian split squats" := "Bulgarian Split Squats",
      // Normalised Shrugs
      "barbell shrugs" := "Shrugs",
      "db shrugs" := "Shrugs",
      "trap-bar shrugs" := "Shrugs",
      // Normalised Romanian Deadlift
      "barbell rdl" := "Barbell RDLs",
      "db rdl" := "Dumbbell RDLs",
      // Normalised Overhead Press
      "barbell overhead press" := "Barbell Overhead Press",
      "seated barbell ohp" := "Seated Barbell Press",
      "overhead press" := "Barbell Overhead Press",
      "over head press" := "Barbell Overhead Press",
      "standing overhead press" := "Barbell Overhead Press",
      "seated db shoulder press" := "Seated Dumbbell Press",
      "seated db press" := "Seated Dumbbell Press",
      // Normalised Hammer Curl (Barbell)
      "barbell hammer curl" := "Barbell Hammer Curls",
      // Normalised Good Morning
      "barbell good mornings" := "Barbell Good Mornings",
      "good mornings" := "Barbell Good Mornings",
      // Normalised Bicep Curl (Barbell)
      "barbell curls" := "Barbell Bicep Curls",
      // Normalised Bent Over Row
      "barbell bent-over rows" := "Barbell Bent Over Rows",
      "barbell rows" := "Barbell Bent Over Rows",
      // Normalised Bench Press
      "barbell bench press" := "Barbell Bench Press",
      "bench press" := "Barbell Bench Press",
      // Normalised Squats
      "barbell back squats" := "Barbell Back Squats",
      "barbell squats" := "Barbell Back Squats"
    ]
}
