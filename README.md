# Workout log parser (v1) and exercise-name normaliser, in Dafny

This project models the core of the workout-log analyzer. The core is the line-by-line
parser `parse_log_content` of `src/parsers/v1_parser.py` with its field helpers, plus the
exercise-name normaliser `normalize_exercise` of `src/parsers/normalize.py`.

A log is split into lines. Each line is right-stripped, and blank and `#` comment lines
are dropped. The parser then walks the remaining lines and keeps three pieces of context:
the current date, the current program and the current exercise. For each line, the first
of four recognisers that matches decides what happens:

- a date header sets the date and the program and clears the exercise;
- a section header or a `---` rule clears the exercise;
- an `S<n>:` set line appends a set record when a date and an exercise are current;
- an exercise-name line runs the name through a cleaning pipeline, which keeps, clears or
  sets the current exercise.

A line that no recogniser matches goes to an injected classifier. If the classifier's
confidence is below the threshold, the line is reported to a review sink. The line is then
reinterpreted by the classifier's label:

- SET: a loose `weight x reps` search;
- EXERCISE: the same name cleaning, applied to the whole line;
- NOTE: the line is merged into the notes of the last record.

Modules, in dependency order:

| module | file | what it holds |
|---|---|---|
| `Wrappers` | wrappers.dfy | `Option` |
| `Text` | text.dfy | the `str` methods and regex atoms the parser uses: `strip`, `rstrip`, `lower`, `split`, `splitlines`, `\s*` and whitespace collapsing |
| `Fields` | fields.dfy | `float()` on decimal numerals, `int()` truncation, `parse_reps_field`, `parse_weight_field`, `compute_volume` |
| `Grammar` | grammar.dfy | the four recognisers `date_pattern`, `section_pattern`, `set_pattern` and `exercise_pattern`, the prefix-less `set_noprefix_re`, and the line classification in the parser's order |
| `NameCleaning` | name_cleaning.dfy | the name-cleaning pipeline and `exclude_phrases`. The code writes the pipeline out twice, on lines 203-249 and 285-330; both copies are the same, so it is modelled once and shared |
| `V1Parser` | parser.dfy | the parser state, the step function `Step`, the fold `Run`, and the imperative loop `ParseLogContent` proved to compute `Run` |
| `NameCleaningSteps` | name_cleaning_steps.dfy | what each cleaning step takes off: the bullet, the numbers with full stops, the second half of a range, the bracketed notes |
| `Normalize` | normalize.dfy | the key `strip().lower()` plus whitespace folding, the synonym table, and `normalize_exercise` |
| `GrammarProperties`, `NameCleaningProperties` | grammar_properties.dfy, name_cleaning_properties.dfy | which kind of line the usual log shapes are, and what cleaning does to an ordinary name |
| `ParserProperties` | parser_properties.dfy | what each kind of line does to the state, the invariants of a run (rows are only extended, every row is well formed) and the review-sink guarantees |
| `ParserScenarios`, `ParserLogs` | parser_scenarios.dfy, parser_logs.dfy | illustrations: concrete line shapes and short logs run through the parser |

How the injected pieces are modelled:

- **Env.** The keyword arguments of `parse_log_content` are the fields of `V1Parser.Env`.
- **Classifier.** `ml_label_fn` is an optional function giving a label and a confidence.
- **Review sink.** `save_review_fn` is a flag saying whether a sink is supplied. The calls
  it would receive are returned as a list of `ReviewEntry` values.
- **Date normaliser.** `normalize_date` is a function `string -> Option<string>`. The
  dateutil parsing inside it is not modelled; only the fallback to the raw literal is.

Behaviours of the code a reader may not expect:

- **A bare name is a section header.** `section_pattern` accepts letters, digits, blanks,
  `-`, `&` and brackets. It is tried before `exercise_pattern`, so a name alone on its line
  (`Bench Press`) is taken as a section header and clears the exercise. Only a name behind
  a list marker is an exercise line:
  - a `-`,
  - a bullet,
  - or digits and a full stop.

  `GrammarProperties.BareNameLine` and `GrammarProperties.ExerciseLineHasMarker` prove
  this. `ParserLogs.BareNameLogsNothing` proves that a log written with bare names
  records no sets.
- **An empty set line is a section header.** `S<n>:` with nothing after it matches
  `section_pattern` as well, so it clears the exercise and is not a set line
  (`GrammarProperties.EmptySetLineIsSection`).
- **Review line numbers count kept lines.** The `line_no` passed to the review sink is the
  position among the kept lines (after blank and comment lines are dropped), not the
  position in the file.
- **An empty normalised date falls back.** `normalize_date(raw) or raw` uses the raw
  literal when the normaliser gives an empty string as well as when it fails.

## Model

| member | source | states |
|---|---|---|
| Text.RStrip | src/parsers/v1_parser.py:101 | `rstrip()` returns a prefix of its input that does not end in whitespace; everything it removed is whitespace |
| Text.Strip | src/parsers/v1_parser.py:109 | `strip()` leaves no whitespace at either end |
| Text.StripSlice | src/parsers/v1_parser.py:109 | `strip()` returns the slice of its input that starts after the leading whitespace, and everything it removed at either end is whitespace |
| Text.StripPadded | src/parsers/v1_parser.py:109 | whitespace added at either end does not change what `strip()` returns |
| Text.StripKeepsText | src/parsers/v1_parser.py:109 | `strip()` keeps every non-whitespace character, in order |
| Text.StripLower | src/parsers/normalize.py:9 | `strip()` and `lower()` commute |
| Text.LowerIdempotent | src/parsers/normalize.py:9 | lower-casing twice is lower-casing once |
| Text.Lower | src/parsers/v1_parser.py:246 | `lower()` keeps the length and lower-cases character by character |
| Text.SplitOn | src/parsers/v1_parser.py:63 | `split` on one character gives at least one part, and no part contains the separator |
| Text.SplitJoin | src/parsers/v1_parser.py:63 | splitting a joined list of parts that hold no separator gives the parts back |
| Text.SplitLines | src/parsers/v1_parser.py:101 | `splitlines()` gives lines holding no line break, and no lines exactly for the empty text |
| Text.SplitLinesFirst | src/parsers/v1_parser.py:101 | text made of a break-free line, a `\n`, `\r\n` or lone `\r`, and more text splits into that line followed by the lines of the rest |
| Text.CollapseLongRuns | src/parsers/v1_parser.py:206 | `re.sub(r"\s{2,}", " ", s)`: the result has no two whitespace characters in a row, is empty exactly when the input is, and keeps whitespace at the ends where the input had it |
| Text.CollapseLongRunsKeepsText | src/parsers/v1_parser.py:206 | the collapse keeps every non-whitespace character, in order |
| Text.CollapseRuns | src/parsers/normalize.py:9 | `re.sub(r'\s+', " ", s)`: every whitespace character left is a single space, with no two in a row |
| Text.CollapseRunsKeepsText | src/parsers/normalize.py:9 | the collapse keeps every non-whitespace character, in order |
| Text.NonSpaceAppend | src/parsers/normalize.py:9 | the non-whitespace text of a concatenation is that of its parts, one after the other |
| Text.DecimalLen | src/parsers/v1_parser.py:15 | the token `\d+(?:\.\d+)?` taken greedily starts and ends with a digit |
| Text.DigitsRoundTrip | src/parsers/v1_parser.py:132 | reading the decimal spelling of `n` back as digits gives `n` |
| Fields.Trunc | src/parsers/v1_parser.py:65 | `int()` of a float truncates toward zero: below `x` for positive `x`, above it for negative `x`, by less than one |
| Fields.ParseWeightField | src/parsers/v1_parser.py:80-88 | the weight is `float(raw)` when that parses; with no float and no embedded number it is `None` |
| Fields.WeightFallback | src/parsers/v1_parser.py:80-88 | when `float(raw)` fails and `raw` holds a digit, the weight is `float` of the leftmost decimal token, and is present, between that token's integer part and one more |
| Fields.FirstDecimalIsToken | src/parsers/v1_parser.py:85 | the number the search finds is a whole `\d+(?:\.\d+)?` token |
| Fields.ParseFloat | src/parsers/v1_parser.py:65-88 | `float()` on decimal numerals; stated by `Fields.DecimalTokenValue`, `Fields.AllDigitsParse`, `Fields.DigitsParse`, `Fields.EmptyIsNoFloat` and `Fields.FloatIgnoresPadding` |
| Fields.FloatIgnoresPadding | src/parsers/v1_parser.py:63-65 | `float` ignores blanks around its argument, so the blanks that `\s*\+\s*` would remove around a `+` do not change any part's value |
| Fields.ParseRepsField | src/parsers/v1_parser.py:58-78 | `parse_reps_field`; its three branches are stated by `Fields.RepsBranches`, and their values by `Fields.RepsCompoundRule`, `Fields.RepsCompound`, `Fields.RepsRange`, `Fields.RepsPlain` and `Fields.RepsDanglingPlus` |
| Fields.RepsBranches | src/parsers/v1_parser.py:58-78 | after `strip()`, a `+` makes the count the truncated sum of the parts, else a `-` makes it the truncated first part, else it is the whole text truncated |
| Fields.EmptyIsNoFloat | src/parsers/v1_parser.py:65 | `float("")` fails |
| Fields.ComputeVolume | src/parsers/v1_parser.py:90-93 | the volume is present exactly when weight and reps both are, and is their product |
| Fields.FirstDecimal | src/parsers/v1_parser.py:85 | `re.search(r"(\d+(?:\.\d+)?)")` finds nothing exactly when the text has no digit; otherwise it finds the greedy token that starts at the first digit |
| Fields.DecimalTokenValue | src/parsers/v1_parser.py:65 | `float` of a decimal token lies between its integer part and one more |
| Fields.DecimalTokenTrunc | src/parsers/v1_parser.py:65 | `int(float(p))` of a decimal token is its integer part |
| Fields.SumTruncatedOfTokens | src/parsers/v1_parser.py:65 | the sum over decimal tokens is present and is the sum of their integer parts |
| Fields.SumAllWholeParts | src/parsers/v1_parser.py:65 | a sum of present truncated values is present and is the sum of the integer parts |
| Fields.SumAll | src/parsers/v1_parser.py:65 | a sum of optional integers is `None` exactly when one of them is missing |
| Fields.SumTruncated | src/parsers/v1_parser.py:64-67 | the sum of the truncated parts is `None` (the `except`) exactly when some part fails `float` |
| Fields.SumTruncatedValue | src/parsers/v1_parser.py:65 | when every part parses, the sum is present and equals `Fields.TruncTotal`, the parts' truncated values added up independently, last part first |
| Fields.SumAllSome | src/parsers/v1_parser.py:65 | optional integers that are all present sum to their plain sum |
| Fields.RepsCompoundRule | src/parsers/v1_parser.py:62-67 | for a field with a `+`, for any parts (signed, fractional, padded): the count is `None` exactly when some part fails `float`, and otherwise is the total of the parts, each truncated toward zero |
| Fields.RepsPlusBranch | src/parsers/v1_parser.py:62-67 | a field with a `+` after stripping is the sum of its `+` parts |
| Fields.RepsSpacedCompound | src/parsers/v1_parser.py:58 | `8 + 2`, with blanks around the `+`, counts 10 |
| Fields.PaddedToken | src/parsers/v1_parser.py:63-65 | a decimal token with blanks around it parses, and truncates to its integer part |
| Fields.RepsCompound | src/parsers/v1_parser.py:62-67 | a `+` compound of decimal tokens counts the sum of the parts, each truncated (`8.5+2.5` is 10) |
| Fields.RepsCompoundExample | src/parsers/v1_parser.py:58 | `8+2` counts 10 |
| Fields.RepsDanglingPlus | src/parsers/v1_parser.py:62-67 | a compound whose last part is missing (`...+`) gives `None`, for any text before the `+` |
| Fields.SumTruncatedFailsOnEmptyLast | src/parsers/v1_parser.py:64-67 | an empty last part, the text after a trailing `+`, makes the whole sum `None` |
| Fields.RepsRange | src/parsers/v1_parser.py:68-73 | with a `-` and no `+`, the count is the first bound truncated, whatever follows the `-` |
| Fields.RangeOfDigit | src/parsers/v1_parser.py:58 | `8-10` counts 8: a range whose first bound is one digit counts that digit |
| Fields.RepsPlain | src/parsers/v1_parser.py:74-78 | a plain decimal token counts its integer part (`8.7` is 8) |
| Fields.WeightWithUnit | src/parsers/v1_parser.py:80-87 | a number followed by a unit (`60kg`) fails `float` and is recovered by the embedded-number search |
| Fields.WeightPlain | src/parsers/v1_parser.py:81-82 | a plain decimal token is its own weight |
| Fields.DigitsParse | src/parsers/v1_parser.py:82 | `float` of the decimal spelling of `n` is `n` |
| Fields.AllDigitsParse | src/parsers/v1_parser.py:82 | `float` of a run of digits is the value of the digits |
| Fields.UnitSuffixShape | src/parsers/v1_parser.py:81-87 | digits followed by a letter fail `float`, and the first decimal token found is the digits |
| Grammar.DateLiteralLen | src/parsers/v1_parser.py:8 | a date literal is 6 to 10 characters, starts and ends with a digit, and is not followed by another digit |
| Grammar.SpacedRest | src/parsers/v1_parser.py:8 | `\s+(.+)$`: the captured rest is non-empty and is preceded by at least one whitespace character and nothing else |
| Grammar.MatchDate | src/parsers/v1_parser.py:8 | a date-header match is the date literal at the start, whitespace, and a non-empty rest that ends the line |
| Grammar.MarkerLen | src/parsers/v1_parser.py:37 | the optional list marker fits in the line |
| Grammar.MatchExercise | src/parsers/v1_parser.py:36-38 | a captured name has at least three characters, opens with a letter, ends with a letter or digit, and holds only name characters |
| Grammar.NotesTail | src/parsers/v1_parser.py:25 | the notes tail is "no notes" exactly when nothing is left after the body; notes found are the text inside the parentheses that end the line, after blanks only; the tail fails only on a non-empty rest that is not blanks then `(...)` |
| Grammar.NotesTailOf | src/parsers/v1_parser.py:25 | blanks then `(<notes>)` at the end gives exactly those notes |
| Grammar.RepsPairLen | src/parsers/v1_parser.py:15 | the reps group takes at least the first number |
| Grammar.RepsExprLen | src/parsers/v1_parser.py:21 | the reps-only group takes at least the first number |
| Grammar.CatchLen | src/parsers/v1_parser.py:23 | the lazy catch-all stops at the first place where the notes tail matches |
| Grammar.MatchSetBody | src/parsers/v1_parser.py:14-24 | the body is absent exactly when nothing follows the colon, and then there are no notes; the alternatives are tried in the source's order and the first that matches wins: each result names its alternative, and every alternative before it failed; a catch-all capture is the shortest non-empty prefix after which the notes tail matches |
| Grammar.BranchWeightReps | src/parsers/v1_parser.py:15 | the weight-times-reps alternative; stated for `<w>kg x <r> reps` by `GrammarProperties.WeightRepsBranch` |
| Grammar.BranchWeightSec | src/parsers/v1_parser.py:17 | the weight-times-seconds alternative; its values are stated by `V1Parser.WeightSecValues` |
| Grammar.BranchSecOnly | src/parsers/v1_parser.py:19 | the seconds-only alternative; its value is stated by `V1Parser.SetValuesOf` |
| Grammar.BranchRepsOnly | src/parsers/v1_parser.py:21 | the reps-only alternative; its value is stated by `V1Parser.SetValuesOf` |
| Grammar.SetNoLen | src/parsers/v1_parser.py:13 | the `S<n>:` prefix is `S`, digits and a colon |
| Grammar.MatchSet | src/parsers/v1_parser.py:12-27 | `set_pattern` matches exactly when the line opens with `S<n>:`, and the set number is the value of the digits |
| Grammar.WeightRepsAt | src/parsers/v1_parser.py:29-32 | the prefix-less pattern at a position captures two decimal tokens, the weight first |
| Grammar.WeightRepsAtTokens | src/parsers/v1_parser.py:29-32 | the weight is the greedy decimal token that opens the text, and the reps are a decimal token that starts further on |
| Grammar.SearchWeightReps | src/parsers/v1_parser.py:262 | `search` captures two decimal tokens and takes the match at the start of the line when there is one |
| Grammar.SearchWeightRepsLeftmost | src/parsers/v1_parser.py:262 | the search finds a match exactly when the pattern matches at some position, and then returns the match at the leftmost such position |
| Grammar.Classify | src/parsers/v1_parser.py:113-201 | each kind of line is the match of its own recogniser |
| Grammar.ClassifyOrder | src/parsers/v1_parser.py:113-254 | the recognisers are tried in the source's order: every one before the chosen one failed, and a line is unmatched exactly when all four fail |
| Grammar.IsSectionHeader | src/parsers/v1_parser.py:123 | the test of line 123: `section_pattern` (line 10) or a `---` rule; stated by `GrammarProperties.BareNameIsSection`, `GrammarProperties.SetLineNotSection` and `GrammarProperties.EmptySetLineIsSection` |
| GrammarProperties.BareNameIsSection | src/parsers/v1_parser.py:10 | a name line without a list marker also matches `section_pattern` |
| GrammarProperties.ExerciseLineHasMarker | src/parsers/v1_parser.py:123-201 | every line classified as an exercise line has a list marker |
| GrammarProperties.NoLeadingDigit | src/parsers/v1_parser.py:8 | a line not opening with a digit is no date header |
| GrammarProperties.NameShapeCaptured | src/parsers/v1_parser.py:37 | a name alone is captured whole, without a marker |
| GrammarProperties.BareNameLine | src/parsers/v1_parser.py:123-125 | a name alone on its line is a section header |
| GrammarProperties.DashLineNotSectionOrSet | src/parsers/v1_parser.py:10-13 | a line opening with `- ` and ending in a non-blank is neither a section header nor a set line |
| GrammarProperties.DashedName | src/parsers/v1_parser.py:201-203 | `- <name>` is an exercise line capturing the name |
| GrammarProperties.SetLineNotSection | src/parsers/v1_parser.py:10 | `S<n>: <body>` with a body does not match `section_pattern` |
| GrammarProperties.SetLineNotHeader | src/parsers/v1_parser.py:113-123 | `S<n>: <body>` is neither a date header nor a section header |
| GrammarProperties.SetLineMatch | src/parsers/v1_parser.py:12-27 | `set_pattern` on `S<n>: <body>` gives set number `n` and the body's alternative |
| GrammarProperties.SetLineClassified | src/parsers/v1_parser.py:129-132 | `S<n>: <body>` is a set line with set number `n` |
| GrammarProperties.EmptySetLineIsSection | src/parsers/v1_parser.py:10-27 | `S<n>:` alone matches `set_pattern` with no body, but it is classified as a section header |
| GrammarProperties.KgTimes | src/parsers/v1_parser.py:15 | `kg x` in front of a number is taken as the unit and the sign |
| GrammarProperties.WeightRepsBranch | src/parsers/v1_parser.py:15 | the weight-times-reps alternative on `<w>kg x <r> reps` captures the two numbers, with no notes |
| GrammarProperties.WeightRepsBody | src/parsers/v1_parser.py:14-24 | the body `<w>kg x <r> reps` takes the first alternative, with the two numbers as its groups |
| GrammarProperties.DateLiteral | src/parsers/v1_parser.py:8 | `<d>-<m>-<y>` with runs of the allowed lengths is a date literal of that length |
| GrammarProperties.DateHeaderMatch | src/parsers/v1_parser.py:8 | `date_pattern` on `<d>-<m>-<y> <rest>` gives the literal and the rest |
| GrammarProperties.DateHeaderClassified | src/parsers/v1_parser.py:113 | such a line is a date header |
| NameCleaning.BulletLen | src/parsers/v1_parser.py:34 | the leading bullet fits in the text |
| NameCleaningSteps.BulletLenShape | src/parsers/v1_parser.py:34 | what is measured is blanks, one bullet and the blanks after it, and nothing when the text does not open that way |
| NameCleaningSteps.BulletLenOf | src/parsers/v1_parser.py:34 | blanks, a bullet and blanks in front of a non-blank are measured exactly |
| NameCleaning.NumberDotLen | src/parsers/v1_parser.py:34 | a number-and-full-stop contains a full stop |
| NameCleaningSteps.NumberDotLenShape | src/parsers/v1_parser.py:34 | what is measured is blanks, digits, a full stop and the blanks after it, and nothing when the text does not open that way |
| NameCleaningSteps.NumberDotLenOf | src/parsers/v1_parser.py:34 | blanks, digits, a full stop and blanks in front of a non-blank are measured exactly |
| NameCleaning.DropNumberDots | src/parsers/v1_parser.py:204 | removing the number-and-full-stop matches never lengthens the text |
| NameCleaningSteps.DropNumberDotsKeepsWords | src/parsers/v1_parser.py:204 | removing the numbers with full stops removes only blanks, digits and full stops: every other character stays, in order |
| NameCleaning.CleanPrefix | src/parsers/v1_parser.py:204 | `clean_prefix.sub("")` never lengthens the text |
| NameCleaningSteps.CleanPrefixKeepsWords | src/parsers/v1_parser.py:204 | after the leading bullet, `clean_prefix.sub` keeps every character other than blanks, digits and full stops, in order |
| NameCleaning.ShortNumberLen | src/parsers/v1_parser.py:219 | `\d{1,3}` not followed by a digit takes the whole digit run, of at most three digits |
| NameCleaning.RangeEnd | src/parsers/v1_parser.py:219 | the second half of a range consumes something |
| NameCleaningSteps.RangeEndShape | src/parsers/v1_parser.py:219 | the second half of a range is a dash, blanks and one to three digits that the rest does not continue |
| NameCleaningSteps.RangeEndOf | src/parsers/v1_parser.py:219 | a dash, blanks and one to three digits are taken exactly, leaving what follows |
| NameCleaning.CutFirstTail | src/parsers/v1_parser.py:218-230 | `re.sub` of a `$`-anchored pattern cuts the leftmost matching suffix, or changes nothing when no suffix matches |
| NameCleaning.RemoveBracketed | src/parsers/v1_parser.py:232 | removing bracketed notes never lengthens the text |
| NameCleaningSteps.NoClosedBracketLeft | src/parsers/v1_parser.py:232 | in what is left, no opening bracket has a closing bracket after it |
| NameCleaningSteps.RemoveBracketedNote | src/parsers/v1_parser.py:232 | a bracketed note without a closer inside it is removed whole from between the text around it |
| NameCleaning.TidyName | src/parsers/v1_parser.py:217-243 | the cut name has no blank at either end and no two blanks in a row |
| NameCleaning.CleanName | src/parsers/v1_parser.py:203-249 | a name that becomes the exercise is non-empty, trimmed, has no two blanks in a row, and is not an excluded phrase |
| NameCleaning.LooksLikeSetExpr | src/parsers/v1_parser.py:211 | the `<n>[kg] x <n>` guard; the text it rejects keeps the exercise, stated by `NameCleaningProperties.GuardsPass` |
| NameCleaning.IsBareCount | src/parsers/v1_parser.py:213 | the `<n>[ rep(s)]` guard; stated by `NameCleaningProperties.GuardsPass` |
| NameCleaning.IsParenRepTail | src/parsers/v1_parser.py:219 | the parenthesised rep annotation; stated by `NameCleaningProperties.ParenRepTailOf` and `NameCleaningProperties.ParenRangeNameKept` |
| NameCleaning.IsRangeRepTail | src/parsers/v1_parser.py:226 | the trailing range; stated by `NameCleaningProperties.RangeRepTailOf` and `NameCleaningProperties.TrailingRangeNameKept` |
| NameCleaningProperties.NoDigitsNoNumberDots | src/parsers/v1_parser.py:204 | text without digits loses nothing to the number-and-full-stop removal |
| NameCleaningProperties.NoDoubleBlanksKept | src/parsers/v1_parser.py:206 | text without two blanks in a row is left alone by the long-run collapse |
| NameCleaningProperties.NoOpenerKept | src/parsers/v1_parser.py:232 | text without an opening bracket keeps all its characters |
| NameCleaningProperties.NoParenCut | src/parsers/v1_parser.py:218-223 | text without `(` has no parenthesised rep annotation to cut |
| NameCleaningProperties.NoRangeCut | src/parsers/v1_parser.py:225-230 | text without digits has no trailing range to cut |
| NameCleaningProperties.TidyKeeps | src/parsers/v1_parser.py:217-243 | trimmed text without brackets, digits or long blank runs is left as it is by the cutting steps |
| NameCleaningProperties.PrefixKeeps | src/parsers/v1_parser.py:204-206 | such text has no marker or number to remove and nothing to strip or collapse |
| NameCleaningProperties.GuardsPass | src/parsers/v1_parser.py:207-214 | text opening with neither a digit nor `(` and not ending in `:` passes the three guards |
| NameCleaningProperties.CleanOutcome | src/parsers/v1_parser.py:245-249 | text the cleaning leaves alone becomes the exercise unless its lower-case form is an excluded phrase, which clears the exercise |
| NameCleaningProperties.PlainNameKept | src/parsers/v1_parser.py:203-249 | an ordinary name (letters, single blanks, hyphens) is kept as written, unless it is an excluded phrase |
| NameCleaningProperties.BulletedNameKept | src/parsers/v1_parser.py:204-249 | `- <name>` (the whole line of an EXERCISE label) loses the bullet, and the name is kept as written unless excluded |
| NameCleaningProperties.NumberedNameKept | src/parsers/v1_parser.py:204-249 | `<digits>. <name>` loses the list number, and the name is kept as written unless excluded |
| NameCleaningProperties.ParenRangeNameKept | src/parsers/v1_parser.py:217-249 | `<name> (<d>-<e> reps)` loses the parenthesised range, and the name is kept as written unless excluded |
| NameCleaningProperties.TrailingRangeNameKept | src/parsers/v1_parser.py:224-249 | `<name> <d>-<e> reps` loses the trailing range, and the name is kept as written unless excluded |
| NameCleaningProperties.BracketNoteNameKept | src/parsers/v1_parser.py:231-249 | `<name> [<note>]` loses the note, and the name is kept as written unless excluded |
| NameCleaningProperties.ParenRepTailOf | src/parsers/v1_parser.py:219 | ` (<d>-<e> reps)` is a parenthesised rep annotation |
| NameCleaningProperties.RangeRepTailOf | src/parsers/v1_parser.py:226 | ` <d>-<e> reps` is a trailing range |
| Normalize.CanonicalKey | src/parsers/normalize.py:9 | the key has no upper-case letter, no whitespace but single inner spaces, and is empty exactly when the name is blank |
| Normalize.CanonicalFixed | src/parsers/normalize.py:9 | a string already in key form is its own key |
| Normalize.KeyIdempotent | src/parsers/normalize.py:9 | taking the key twice is taking it once |
| Normalize.KeyIgnoresCase | src/parsers/normalize.py:9 | the key of a name does not depend on its case |
| Normalize.KeyIgnoresPadding | src/parsers/normalize.py:9 | the key does not depend on whitespace around the name |
| Normalize.KeyKeepsText | src/parsers/normalize.py:9 | the key keeps every non-whitespace character of the lower-cased name, in order |
| Normalize.NormalizeWith | src/parsers/normalize.py:3-248 | the result is the name itself or a value of the table; it differs from the name only for a non-empty name whose key is in the table |
| Normalize.NormalizeExercise | src/parsers/normalize.py:3-248 | the result is the name itself or one of the table's display names |
| Normalize.SameKeySameName | src/parsers/normalize.py:9-248 | two non-empty names with the same known key give the same display name, the table's value for that key |
| Normalize.NormalizeIdempotent | src/parsers/normalize.py:11-248 | over a table whose display names map to themselves (or are not keys), normalising twice is normalising once |
| Normalize.KnownKey | src/parsers/normalize.py:248 | a name in key form that the table knows gives its display name |
| Normalize.KeyLookup | src/parsers/normalize.py:9-248 | a name whose key the table knows gives the display name for that key |
| Normalize.BarbellSquats | src/parsers/normalize.py:14 | `barbell squats` gives `Barbell Back Squats` |
| Normalize.ShrugAliases | src/parsers/normalize.py:48-50 | `barbell shrugs`, `db shrugs` and `trap-bar shrugs` all give `Shrugs` |
| Normalize.MessyBenchPress | src/parsers/normalize.py:9-18 | `  Bench   PRESS ` gives what `bench press` gives, `Barbell Bench Press` |
| Normalize.CollapseWordGap | src/parsers/normalize.py:9 | a word, a whitespace gap and a word fold to the two words with one space |
| V1Parser.FilterLines | src/parsers/v1_parser.py:101-102 | every kept line is non-empty, right-stripped and not a `#` comment |
| V1Parser.FilterLinesAppend | src/parsers/v1_parser.py:101-102 | filtering a concatenation filters each part |
| V1Parser.FilterLinesOne | src/parsers/v1_parser.py:101-102 | one line is kept, right-stripped, exactly when it is neither blank nor a `#` comment |
| V1Parser.PreprocessLine | src/parsers/v1_parser.py:101-102 | the first line of the raw text, up to `\n`, `\r\n` or `\r`, is kept or dropped on its own, ahead of the kept lines of the rest |
| V1Parser.Preprocess | src/parsers/v1_parser.py:101-102 | the kept lines of the raw text; stated by `V1Parser.PreprocessLine` |
| V1Parser.NoteOf | src/parsers/v1_parser.py:137 | a note is present exactly when the notes group is present and non-empty, and is that group stripped |
| V1Parser.SetValuesOf | src/parsers/v1_parser.py:131-176 | each body alternative gives its own values: weight by `parse_weight_field` and reps by `parse_reps_field`; a weight held for a time, with the isometric load and no reps; seconds only by `float`; reps only; the catch-all's values; nothing for no body. Only the held weight has a load, and the note is the notes group except on the catch-all |
| V1Parser.IsoLoad | src/parsers/v1_parser.py:153-155 | the isometric load is present exactly when weight and time are, and is their product |
| V1Parser.Recordable | src/parsers/v1_parser.py:184 | when a set line is recorded; stated by `ParserProperties.SetLineEffect` |
| V1Parser.SetRow | src/parsers/v1_parser.py:185-196 | the row of a set line; stated by `ParserProperties.SetLineEffect` and `ParserProperties.SetRowOk` |
| V1Parser.LooseRow | src/parsers/v1_parser.py:264-279 | the row of a prefix-less set; stated by `ParserProperties.ReinterpretSet` |
| V1Parser.MergeNote | src/parsers/v1_parser.py:336-341 | the NOTE merge; stated by `ParserProperties.MergeNoteEffect` |
| V1Parser.Reinterpret | src/parsers/v1_parser.py:260-344 | the label's reinterpretation; stated by `ParserProperties.ReinterpretSet`, `ReinterpretExercise`, `ReinterpretNote` and `ReinterpretOther` |
| V1Parser.Fallback | src/parsers/v1_parser.py:254-344 | the classifier path; stated by `ParserProperties.FallbackReview` and `ParserProperties.UnmatchedWithoutClassifier` |
| V1Parser.Apply | src/parsers/v1_parser.py:113-344 | one kind of line's effect; stated by the `ParserProperties.*LineEffect` lemmas |
| V1Parser.Step | src/parsers/v1_parser.py:108-344 | one line, stripped, classified and applied; stated by `V1Parser.ProcessLine` |
| V1Parser.Run | src/parsers/v1_parser.py:108-344 | the loop over the kept lines; stated by `V1Parser.RunSnoc` and `V1Parser.ParseLogContent` |
| V1Parser.ParseLog | src/parsers/v1_parser.py:95-346 | the rows of a whole log; stated by `ParserProperties.ParsedRowsOk` and `ParserProperties.SinkDoesNotChangeRows` |
| V1Parser.WeightSecValues | src/parsers/v1_parser.py:146-155 | a weight held for a time has no reps, its weight by `parse_weight_field`, its time by `float`, and the isometric load of the two |
| V1Parser.CatchValues | src/parsers/v1_parser.py:169-176 | the catch-all gives reps exactly when its stripped text holds a digit, and they are the value of the first run of digits; without one, the text becomes the note unless there already is one |
| V1Parser.DateValue | src/parsers/v1_parser.py:116 | the date is the raw literal or the normaliser's answer |
| V1Parser.RunSnoc | src/parsers/v1_parser.py:108 | running one more line is one more step |
| V1Parser.ClassifierFallback | src/parsers/v1_parser.py:254-344 | the imperative fallback computes `Fallback` |
| V1Parser.ProcessLine | src/parsers/v1_parser.py:108-344 | the imperative loop body computes `Step` |
| V1Parser.ApplyLine | src/parsers/v1_parser.py:113-344 | the imperative branch for the kind of line found computes `Apply` |
| V1Parser.ParseLogContent | src/parsers/v1_parser.py:95-346 | the loop returns the rows of `Run` over the kept lines, and the review entries of the same run |
| ParserProperties.DateLineEffect | src/parsers/v1_parser.py:113-119 | a date header sets the date to the normalised literal (or the literal when the normaliser fails or gives empty), sets the program to the stripped rest, clears the exercise, and appends no row and no review |
| ParserProperties.SectionLineEffect | src/parsers/v1_parser.py:123-125 | a section header or `---` rule clears the exercise and changes nothing else |
| ParserProperties.SetLineEffect | src/parsers/v1_parser.py:129-197 | a set line keeps the context and the reviews, and appends exactly one row when an exercise and a date are current and the line has a number or a note: set number `n`, the context, the line's values and their volume; otherwise the rows stay as they were |
| ParserProperties.ExerciseLineEffect | src/parsers/v1_parser.py:201-250 | an exercise line changes only the exercise: kept, cleared or set as the cleaner decides |
| ParserProperties.UnmatchedWithoutClassifier | src/parsers/v1_parser.py:254 | without a classifier an unmatched line changes nothing |
| ParserProperties.FallbackReview | src/parsers/v1_parser.py:254-258 | the fallback adds exactly one review entry `(line, conf, source_file or "<unknown>", i)` when the confidence is below the threshold and a sink is supplied, whatever the label, and none otherwise |
| ParserProperties.ReinterpretKeepsReviews | src/parsers/v1_parser.py:260-344 | the label's reinterpretation never touches the review entries |
| ParserProperties.ReinterpretSet | src/parsers/v1_parser.py:261-280 | a SET-labelled line with `weight x reps` somewhere appends one row without set number, time, load or notes, with that weight, the reps truncated and a volume, when an exercise and a date are current; the context never changes |
| ParserProperties.ReinterpretExercise | src/parsers/v1_parser.py:284-332 | an EXERCISE-labelled line goes through the same cleaner on the whole line, and only the exercise can change |
| ParserProperties.MergeNoteEffect | src/parsers/v1_parser.py:336-341 | a NOTE line does nothing with no rows; otherwise it changes only the last row's notes, to the line or to `old ; line`, and leaves every earlier row and the context as they were |
| ParserProperties.ReinterpretNote | src/parsers/v1_parser.py:336-341 | a NOTE label merges the line into the last row's notes |
| ParserProperties.ReinterpretOther | src/parsers/v1_parser.py:344 | any other label changes nothing |
| ParserProperties.ReinterpretKeepsRows | src/parsers/v1_parser.py:260-344 | the reinterpretation keeps the rows, except new notes on the last and at most one more row |
| ParserProperties.ApplyKeepsRows | src/parsers/v1_parser.py:108-344 | every line keeps the rows, except new notes on the last and at most one more row |
| ParserProperties.RunExtends | src/parsers/v1_parser.py:108 | one more line extends the rows in that way |
| ParserProperties.RunKeepsRows | src/parsers/v1_parser.py:108-346 | the rows after any prefix of the lines are still there, in order, after the whole log; only the last one may have gained notes |
| ParserProperties.RowMeasures | src/parsers/v1_parser.py:146-180 | in a well-formed row, volume and isometric load are never both set; volume is present exactly when weight and reps are, as their product; the load is weight times seconds |
| ParserProperties.ApplyKeepsOk | src/parsers/v1_parser.py:108-344 | every line keeps every row well formed and the current exercise a clean name |
| ParserProperties.RunOk | src/parsers/v1_parser.py:95-346 | after any run, every row is well formed and the exercise is a clean name |
| ParserProperties.ParsedRowsOk | src/parsers/v1_parser.py:95-346 | every row the parser returns has a non-empty date, a clean exercise name that is not excluded, the volume of its weight and reps, and an isometric load only without reps |
| ParserProperties.ApplyReviews | src/parsers/v1_parser.py:254-258 | a line adds exactly the review entry that it alone determines |
| ParserProperties.RunReviews | src/parsers/v1_parser.py:254-258 | the review entries of a run are those of its lines one after another, whatever the lines did to the state |
| ParserProperties.ReviewsPointAtLines | src/parsers/v1_parser.py:108-258 | each review entry names a kept line by its position from 1, with that line's stripped text, a confidence below the threshold and the source name |
| ParserProperties.ReviewedLinesUnmatched | src/parsers/v1_parser.py:254-258 | only lines that no recogniser matched are reported |
| ParserProperties.ReviewLinesIncrease | src/parsers/v1_parser.py:108-258 | the reported positions strictly increase, so no line is reported twice |
| ParserProperties.ReviewedLinesReported | src/parsers/v1_parser.py:254-258 | conversely, every unmatched line with a confidence below the threshold is reported when there is a sink |
| ParserProperties.ApplyIgnoresReviews | src/parsers/v1_parser.py:108-344 | a line's effect on the context and the rows does not depend on the review entries or the sink |
| ParserProperties.SinkDoesNotChangeRows | src/parsers/v1_parser.py:95-346 | supplying a review sink or not changes nothing about the rows or the context |
| ParserScenarios.DateHeaderStep | src/parsers/v1_parser.py:113-119 | `<d>-<m>-<y> <program>` sets that date (normalised) and program and clears the exercise |
| ParserScenarios.BareNameStep | src/parsers/v1_parser.py:123-125 | an ordinary name without a marker clears the exercise |
| ParserScenarios.DashedNameCleaned | src/parsers/v1_parser.py:201-250 | `- <name>` applies the cleaner's outcome for the name |
| ParserScenarios.WeightRepsValues | src/parsers/v1_parser.py:140-142 | `<w>kg x <r> reps` gives weight `w`, `r` reps and nothing else |
| ParserScenarios.SetTextShape | src/parsers/v1_parser.py:129-132 | `S<n>: <w>kg x <r> reps` is a set line with those numbers |
| ParserScenarios.SetStepNoExercise | src/parsers/v1_parser.py:184 | a set line with no current exercise records nothing |
| ParserScenarios.SetStep | src/parsers/v1_parser.py:129-197 | `S<n>: <w>kg x <r> reps` under a date and an exercise appends one row with set `n`, weight `w`, `r` reps and volume `w * r` |
| ParserLogs.DashedNameStep | src/parsers/v1_parser.py:201-250 | `- <name>` makes an ordinary name the exercise, or clears it for an excluded phrase |
| ParserLogs.DateOnlyLog | src/parsers/v1_parser.py:95-119 | a log of one date header has that date and program and nothing else |
| ParserLogs.DateAndNameLog | src/parsers/v1_parser.py:95-250 | a date header then `- <name>` applies the name's outcome to the date header's state |
| ParserLogs.DateAndKeptNameLog | src/parsers/v1_parser.py:95-250 | for a name that is not excluded, that name is the current exercise |
| ParserLogs.OneLoggedSet | src/parsers/v1_parser.py:95-346 | the log `<date> <program>`, `- <name>`, `S<n>: <w>kg x <r> reps` gives exactly one row, with the date, program, name and numbers of its lines, and no review entry |
| ParserLogs.DateAndBareNameLog | src/parsers/v1_parser.py:95-125 | a name without a dash after a date header leaves the exercise unset |
| ParserLogs.BareNameLogsNothing | src/parsers/v1_parser.py:95-346 | the same log with the name written without a dash gives no row |

## Left out

- Regular expressions are modelled as hand-written recognisers of the branches each pattern
  means, not as Python's backtracking engine. For each pattern the greedy reading gives the
  same captures, because the characters a token takes cannot start what follows it.
- Whitespace (`\s`, `str.isspace`, `str.strip`, `str.rstrip`) is Python's full set of
  whitespace characters, which `\s` and `str.isspace` share for `str` patterns.
  `\d`, `[A-Za-z]` and `str.lower` act on ASCII characters only: other Unicode digits and
  case pairs are not modelled. `×`, `•`,
  `–` and `—` are modelled where the patterns name them.
- `float()` is modelled on decimal numerals with an optional sign and surrounding
  whitespace. Exponents, `inf`, `nan` and underscores are not modelled. Floats are exact
  reals, so binary rounding in `weight * reps` and `weight * time_sec` is not modelled.
- The date parsing in `normalize_date` (dateutil) is a parameter, `Env.normalizeDate`.
  Only the fallback to the raw literal is modelled.
- The classifier's own behaviour is a parameter. So is the caller's fallback to
  `("OTHER", 0.0)` when the classifier raises (src/parsers/hybrid_parse_all.py). A
  classifier that raises is not modelled.
- The review sink's side effects (a database write in the caller) are not modelled: the
  calls it would receive are returned as a list.
- `normalize_exercise` is not called by `parse_log_content`; the caller applies it to the
  exercise column. The model keeps the two separate.
- `pd.isna(name)`: a Dafny string cannot be `None` or NaN, so only the empty-name case of
  the first guard is modelled.
- `exclude_phrases` lower-cases its phrase list when the module loads. The model writes the
  set out with the phrases as the list spells them, all of which are lower case already; that
  the lower-casing changes none of them is not proved.
- The rows are dictionaries in the code. The model uses a record datatype held in a
  sequence, so the in-place edit of `rows[-1]["notes"]` is a replacement of the last
  element. Aliasing of that dictionary by the caller is not modelled.
- The Streamlit UI, the classifier training, feature engineering, SQLite persistence and
  the CSV and ETL scripts are outside the core.
- NameCleaning.CleanName: its contract states only what a name that becomes the exercise
  looks like. The full outcome is proved for ordinary names, alone or with a bullet, a list
  number, a parenthesised or trailing range or a bracketed note, by the
  `NameCleaningProperties.*NameKept` lemmas.
- Grammar.Classify: its own contract states what the chosen recogniser matched; the order
  in which they are tried is stated separately by `Grammar.ClassifyOrder`.
