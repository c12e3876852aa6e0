/** Field derivation of the v1 parser (src/parsers/v1_parser.py, lines 58-93): the numeric
    parsing of weights, repetition counts and times, and the derived volume.
    Python's `float(...)` is modelled on the decimal forms it accepts, with exact reals. */
module Fields {
  import opened Wrappers
  import opened Text

  // ---------------------------------------------------------------------------------------
  // float() and int()

  /** The value of the digit string `f` read as the digits after a decimal point. */
  function FractionValue(f: string): (v: real)
    requires AllDigits(f)
    ensures 0.0 <= v < 1.0
  {
    DigitsBelowPow10(f);
    QuotientBelowOne(DigitsValue(f) as real, Pow10(|f|) as real);
    DigitsValue(f) as real / Pow10(|f|) as real
  }

  lemma QuotientBelowOne(n: real, d: real)
    requires 0.0 <= n < d
    ensures 0.0 <= n / d < 1.0
  {
    var q := n / d;
    assert q * d == n;
  }

  /** An unsigned decimal numeral: `12`, `12.5`, `12.` or `.5`. */
  function UnsignedDecimal(s: string): Option<real>
  {
    var k := DigitRunLen(s);
    if k == |s| then
      if k > 0 then Some(DigitsValue(s) as real) else None
    else if s[k] != '.' then None
    else
      var f := s[k + 1..];
      if !AllDigits(f) || (k == 0 && f == []) then None
      else Some(DigitsValue(s[..k]) as real + FractionValue(f))
  }

  /** Python's `float(raw)` on decimal numerals: surrounding whitespace is ignored, a sign is
      allowed, and anything else is a failure (`None` here, a `ValueError` in Python). */
  function ParseFloat(raw: string): Option<real>
  {
    SignedDecimal(Strip(raw))
  }

  /** A decimal numeral with an optional leading sign, already stripped of whitespace. */
  function SignedDecimal(t: string): Option<real>
  {
    var signed := |t| > 0 && (t[0] == '+' || t[0] == '-');
    var body := if signed then t[1..] else t;
    match UnsignedDecimal(body)
    case None => None
    case Some(v) =>
      if signed && t[0] == '-' then Some(-v) else Some(v)
  }

  /** Python's `int(x)` on a float: truncation toward zero. */
  function Trunc(x: real): (r: int)
    ensures x >= 0.0 ==> r >= 0 && r as real <= x < r as real + 1.0
    ensures x < 0.0 ==> r <= 0 && r as real - 1.0 < x <= r as real
  {
    if x >= 0.0 then x.Floor else -((-x).Floor)
  }

  // ---------------------------------------------------------------------------------------
  // The three field helpers

  /** The sum of optional integers, `None` as soon as one of them is missing. */
  function SumAll(vs: seq<Option<int>>): (r: Option<int>)
    ensures r.None? <==> exists i :: 0 <= i < |vs| && vs[i].None?
  {
    if vs == [] then Some(0)
    else
      match vs[0]
      case None => None
      case Some(v) =>
        match SumAll(vs[1..])
        case None => None
        case Some(rest) => Some(v + rest)
  }

  /** `sum(int(float(p)) for p in parts)`, where a part that does not parse makes the whole
      result `None` (the `except` of the source). */
  function SumTruncated(parts: seq<string>): (r: Option<int>)
    ensures r.None? <==> exists i :: 0 <= i < |parts| && ParseFloat(parts[i]).None?
  {
    var vs := TruncParts(parts);
    assert forall i :: 0 <= i < |parts| ==> (vs[i].None? <==> ParseFloat(parts[i]).None?) by {
      forall i | 0 <= i < |parts| ensures vs[i].None? <==> ParseFloat(parts[i]).None? {
        TruncPartsAt(parts, i);
      }
    }
    SumAll(vs)
  }

  /** The sum of the truncated parts, added up from the last part back: an independent
      reading of `sum(int(float(p)) for p in parts)`, meaningful when every part parses. */
  function TruncTotal(parts: seq<string>): int
  {
    IntSum(seq(|parts|, i requires 0 <= i < |parts| => TruncValue(parts[i])))
  }

  /** `int(float(p))` of a part that parses (0 for one that does not; `TruncTotal` is only
      read when every part parses). */
  function TruncValue(p: string): int
  {
    match ParseFloat(p)
    case None => 0
    case Some(v) => Trunc(v)
  }

  /** The sum of a sequence of integers, last element first. */
  function IntSum(ns: seq<int>): int
  {
    if ns == [] then 0 else IntSum(ns[..|ns| - 1]) + ns[|ns| - 1]
  }

  /** Adding up from the front gives the same sum. */
  lemma {:induction false} IntSumCons(n: int, ns: seq<int>)
    ensures IntSum([n] + ns) == n + IntSum(ns)
    decreases |ns|
  {
    var s := [n] + ns;
    if ns == [] {
      assert s[..0] == [];
    } else {
      var front := ns[..|ns| - 1];
      assert s[..|s| - 1] == [n] + front;
      assert s[|s| - 1] == ns[|ns| - 1];
      IntSumCons(n, front);
    }
  }

  /** When every part parses, the sum is present and is the total of the truncated parts. */
  lemma SumTruncatedValue(parts: seq<string>)
    requires forall i :: 0 <= i < |parts| ==> ParseFloat(parts[i]).Some?
    ensures SumTruncated(parts) == Some(TruncTotal(parts))
  {
    var vs := TruncParts(parts);
    var ns := seq(|parts|, i requires 0 <= i < |parts| => TruncValue(parts[i]));
    forall i | 0 <= i < |parts| ensures vs[i] == Some(ns[i]) {
      TruncPartsAt(parts, i);
    }
    SumAllSome(vs, ns);
  }

  /** A sum of optional integers that are all present is present, and is their plain sum. */
  lemma {:induction false} SumAllSome(vs: seq<Option<int>>, ns: seq<int>)
    requires |vs| == |ns|
    requires forall i :: 0 <= i < |vs| ==> vs[i] == Some(ns[i])
    ensures SumAll(vs) == Some(IntSum(ns))
    decreases |vs|
  {
    if vs != [] {
      SumAllSome(vs[1..], ns[1..]);
      assert ns == [ns[0]] + ns[1..];
      IntSumCons(ns[0], ns[1..]);
    }
  }

  /** `int(float(p))` of every part, in order. */
  function TruncParts(parts: seq<string>): (vs: seq<Option<int>>)
    ensures |vs| == |parts|
  {
    if parts == [] then [] else [TruncOf(ParseFloat(parts[0]))] + TruncParts(parts[1..])
  }

  lemma {:induction false} TruncPartsAt(parts: seq<string>, i: nat)
    requires i < |parts|
    ensures TruncParts(parts)[i] == TruncOf(ParseFloat(parts[i]))
  {
    if i > 0 {
      TruncPartsAt(parts[1..], i - 1);
    }
  }

  /** `int(float(x))` guarded by `try`: `None` where the source catches the error. */
  function TruncOf(x: Option<real>): Option<int>
  {
    match x
    case None => None
    case Some(v) => Some(Trunc(v))
  }

  /** parse_reps_field: a `+` compound is the sum of its truncated parts, a `-` range is its
      truncated first bound, anything else is one truncated number; failure is `None`.
      Splitting on `\s*\+\s*` and `\s*-\s*` is splitting on the character: the whitespace
      around a separator is ignored by `float` in any case. */
  function ParseRepsField(raw: string): Option<int>
  {
    var t := Strip(raw);
    if '+' in t then SumTruncated(SplitOn(t, '+'))
    else if '-' in t then TruncOf(ParseFloat(SplitOn(t, '-')[0]))
    else TruncOf(ParseFloat(t))
  }

  /** A `+` compound is `None` exactly when some part fails `float`; otherwise it counts the
      total of the parts, each truncated toward zero. */
  lemma RepsCompoundRule(raw: string)
    requires '+' in Strip(raw)
    ensures var parts := SplitOn(Strip(raw), '+');
      && (ParseRepsField(raw).None? <==> exists i :: 0 <= i < |parts| && ParseFloat(parts[i]).None?)
      && ((forall i :: 0 <= i < |parts| ==> ParseFloat(parts[i]).Some?) ==>
            ParseRepsField(raw) == Some(TruncTotal(parts)))
  {
    var parts := SplitOn(Strip(raw), '+');
    RepsPlusBranch(raw);
    if forall i :: 0 <= i < |parts| ==> ParseFloat(parts[i]).Some? {
      SumTruncatedValue(parts);
    }
  }

  /** Blanks around the `+` do not matter: `8 + 2` counts 10. */
  lemma RepsSpacedCompound()
    ensures ParseRepsField("8 + 2") == Some(10)
  {
    var t := "8 + 2";
    StripUnchanged(t);
    assert '+' in t by { assert t[2] == '+'; }
    RepsPlusBranch(t);
    SplitSpacedPlus();
    SpacedSum();
  }

  /** With a `+` in the stripped field, the field is the sum of its `+` parts. */
  lemma RepsPlusBranch(raw: string)
    requires '+' in Strip(raw)
    ensures ParseRepsField(raw) == SumTruncated(SplitOn(Strip(raw), '+'))
  {
  }

  lemma SpacedSum()
    ensures SumTruncated(["8 ", " 2"]) == Some(10)
  {
    var parts := ["8 ", " 2"];
    PaddedEight();
    PaddedTwo();
    assert forall i :: 0 <= i < |parts| ==> ParseFloat(parts[i]).Some? by {
      forall i | 0 <= i < |parts| ensures ParseFloat(parts[i]).Some? {
        if i == 0 { assert parts[i] == "8 "; } else { assert parts[i] == " 2"; }
      }
    }
    TotalOfTwo("8 ", " 2");
    SumTruncatedValue(parts);
  }

  lemma PaddedEight()
    ensures ParseFloat("8 ").Some? && TruncValue("8 ") == 8
  {
    assert "8 " == "" + "8" + " ";
    PaddedToken("", "8", " ");
  }

  lemma PaddedTwo()
    ensures ParseFloat(" 2").Some? && TruncValue(" 2") == 2
  {
    assert " 2" == " " + "2" + "";
    PaddedToken(" ", "2", "");
  }

  lemma TotalOfTwo(a: string, b: string)
    ensures TruncTotal([a, b]) == TruncValue(a) + TruncValue(b)
  {
    var x, y := TruncValue(a), TruncValue(b);
    var ns := seq(2, i requires 0 <= i < 2 => TruncValue([a, b][i]));
    assert ns == [x, y] by {
      assert ns[0] == x && ns[1] == y;
    }
    IntSumCons(x, [y]);
    IntSumCons(y, []);
    assert [y] + [] == [y] && [x] + [y] == [x, y];
  }

  lemma SplitSpacedPlus()
    ensures SplitOn("8 + 2", '+') == ["8 ", " 2"]
  {
    var t := "8 + 2";
    assert IndexOf(t, '+') == 2;
    assert t[..2] == "8 " && t[3..] == " 2";
    assert IndexOf(" 2", '+') == 2;
  }

  /** A decimal token with blanks around it reads as the token: its integer part. */
  lemma PaddedToken(p: string, d: string, q: string)
    requires AllSpaces(p) && AllSpaces(q) && IsDecimalToken(d)
    ensures ParseFloat(p + d + q).Some? && TruncValue(p + d + q) == WholePart(d) as int
  {
    FloatIgnoresPadding(p, d, q);
    DecimalTokenTrunc(d);
  }

  /** `float` ignores whitespace around its argument, so a part of a compound may be padded:
      `8 + 2` splits into `8 ` and ` 2`, which read as `8` and `2`. */
  lemma FloatIgnoresPadding(p: string, x: string, q: string)
    requires AllSpaces(p) && AllSpaces(q)
    ensures ParseFloat(p + x + q) == ParseFloat(x)
  {
    StripPadded(p, x, q);
    FloatOfStrip(p + x + q, x);
  }

  /** `ParseFloat` sees its argument only through `Strip`. */
  lemma FloatOfStrip(a: string, b: string)
    requires Strip(a) == Strip(b)
    ensures ParseFloat(a) == ParseFloat(b)
  {
  }

  lemma RepsBranches(raw: string)
    ensures var t := Strip(raw);
      ParseRepsField(raw) ==
        if '+' in t then SumTruncated(SplitOn(t, '+'))
        else if '-' in t then TruncOf(ParseFloat(SplitOn(t, '-')[0]))
        else TruncOf(ParseFloat(t))
  {
  }

  /** The index of the first digit of `s`, or `|s|`. */
  function FirstDigitIndex(s: string): (k: nat)
    ensures k <= |s|
    ensures k < |s| ==> IsDigit(s[k])
    ensures forall i :: 0 <= i < k ==> !IsDigit(s[i])
  {
    if s == [] then 0 else if IsDigit(s[0]) then 0 else 1 + FirstDigitIndex(s[1..])
  }

  /** The value of the run of digits at the start of `s` (0 for none). */
  function RunValue(s: string): nat
  {
    DigitsValue(s[..DigitRunLen(s)])
  }

  /** The first decimal token of `s`, as `re.search(r"(\d+(?:\.\d+)?)", s)` finds it: absent
      exactly when `s` has no digit, and otherwise the greedy token that starts at the first
      digit. */
  function FirstDecimal(s: string): (r: Option<string>)
    ensures r.None? <==> forall i :: 0 <= i < |s| ==> !IsDigit(s[i])
    ensures r.Some? ==> |r.value| > 0 && IsDigit(r.value[0])
    ensures r.Some? ==> var p := FirstDigitIndex(s);
      p + |r.value| <= |s| && r.value == s[p..p + |r.value|] && |r.value| == DecimalLen(s[p..])
  {
    var p := FirstDigitIndex(s);
    if p == |s| then None else Some(s[p..p + DecimalLen(s[p..])])
  }

  /** parse_weight_field: `float(raw)`, or else the first number embedded in `raw` (so that
      stray unit text such as `kg` is tolerated), or else `None`. */
  function ParseWeightField(raw: string): (r: Option<real>)
    ensures ParseFloat(raw).Some? ==> r == ParseFloat(raw)
    ensures ParseFloat(raw).None? && FirstDecimal(raw).None? ==> r.None?
  {
    match ParseFloat(raw)
    case Some(v) => Some(v)
    case None =>
      match FirstDecimal(raw)
      case None => None
      case Some(token) => ParseFloat(token)
  }

  /** compute_volume: weight times repetitions, present exactly when both are present. */
  function ComputeVolume(weight: Option<real>, reps: Option<int>): (v: Option<real>)
    ensures v.Some? <==> weight.Some? && reps.Some?
    ensures v.Some? ==> v.value == weight.value * reps.value as real
  {
    if weight.None? || reps.None? then None else Some(weight.value * reps.value as real)
  }

  // ---------------------------------------------------------------------------------------
  // Decimal tokens, as the parser's regular expressions capture them

  /** A whole string that is one `\d+(?:\.\d+)?` token. */
  predicate IsDecimalToken(p: string) { |p| > 0 && DecimalLen(p) == |p| }

  /** The integer part of a decimal token, which is what `int(float(p))` keeps. */
  function WholePart(p: string): nat
    requires IsDecimalToken(p)
  {
    DigitsValue(p[..DigitRunLen(p)])
  }

  lemma StripUnchanged(s: string)
    requires s == [] || (!IsSpace(s[0]) && !IsSpace(s[|s| - 1]))
    ensures Strip(s) == s
  {
    if s != [] {
      assert SpaceRunLen(s) == 0;
      assert SkipSpaces(s) == s;
    }
  }

  /** `float` reads a decimal token as its value: the integer part plus a fraction below one. */
  lemma DecimalTokenValue(p: string)
    requires IsDecimalToken(p)
    ensures ParseFloat(p).Some?
    ensures WholePart(p) as real <= ParseFloat(p).value < WholePart(p) as real + 1.0
  {
    StripUnchanged(p);
    var k := DigitRunLen(p);
    assert k > 0;
    if k < |p| {
      assert p[k] == '.';
      var f := p[k + 1..];
      assert AllDigits(f) by {
        assert DigitRunLen(f) == |p| - k - 1;
      }
    } else {
      assert p[..k] == p;
    }
  }

  /** `int(float(p))` of a decimal token is its integer part. */
  lemma DecimalTokenTrunc(p: string)
    requires IsDecimalToken(p)
    ensures TruncOf(ParseFloat(p)) == Some(WholePart(p) as int)
  {
    DecimalTokenValue(p);
    TruncBetween(ParseFloat(p).value, WholePart(p));
  }

  lemma TruncBetween(v: real, w: nat)
    requires w as real <= v < w as real + 1.0
    ensures Trunc(v) == w
  {
  }

  lemma DigitsAreToken(n: nat)
    ensures IsDecimalToken(NatToDigits(n))
    ensures WholePart(NatToDigits(n)) == n
  {
    var s := NatToDigits(n);
    RunLenUnique(s, IsDigit, |s|);
    assert s[..|s|] == s;
    DigitsRoundTrip(n);
  }

  // ---------------------------------------------------------------------------------------
  // Properties of parse_reps_field

  function SumWholeParts(parts: seq<string>): nat
    requires forall i :: 0 <= i < |parts| ==> IsDecimalToken(parts[i])
  {
    if parts == [] then 0 else WholePart(parts[0]) + SumWholeParts(parts[1..])
  }

  /** A sum of present values is present, and is the sum of the whole parts. */
  lemma {:induction false} SumAllWholeParts(vs: seq<Option<int>>, parts: seq<string>)
    requires |vs| == |parts|
    requires forall i :: 0 <= i < |parts| ==> IsDecimalToken(parts[i])
    requires forall i :: 0 <= i < |vs| ==> vs[i] == Some(WholePart(parts[i]) as int)
    ensures SumAll(vs) == Some(SumWholeParts(parts) as int)
  {
    if vs != [] {
      SumAllWholeParts(vs[1..], parts[1..]);
    }
  }

  lemma SumTruncatedOfTokens(parts: seq<string>)
    requires forall i :: 0 <= i < |parts| ==> IsDecimalToken(parts[i])
    ensures SumTruncated(parts) == Some(SumWholeParts(parts) as int)
  {
    var vs := TruncParts(parts);
    forall i | 0 <= i < |parts|
      ensures vs[i] == Some(WholePart(parts[i]) as int)
    {
      TruncPartsAt(parts, i);
      DecimalTokenTrunc(parts[i]);
    }
    SumAllWholeParts(vs, parts);
  }

  /** A decimal token consists of digits and at most one point. */
  lemma TokenChars(p: string)
    requires IsDecimalToken(p)
    ensures forall i :: 0 <= i < |p| ==> IsDigit(p[i]) || p[i] == '.'
  {
    var k := DigitRunLen(p);
    if k < |p| {
      var f := p[k + 1..];
      assert DigitRunLen(f) == |f|;
      forall i | k < i < |p| ensures IsDigit(p[i]) {
        assert p[i] == f[i - k - 1];
      }
    }
  }

  lemma TokenHasNo(p: string, c: char)
    requires IsDecimalToken(p)
    requires !IsDigit(c) && c != '.'
    ensures c !in p
  {
    TokenChars(p);
  }

  lemma {:induction false} JoinedTokensHaveNoSpaceEdges(parts: seq<string>, c: char)
    requires |parts| >= 1
    requires forall i :: 0 <= i < |parts| ==> IsDecimalToken(parts[i])
    ensures var s := JoinOn(parts, c); |s| > 0 && IsDigit(s[0]) && IsDigit(s[|s| - 1])
  {
    if |parts| > 1 {
      JoinedTokensHaveNoSpaceEdges(parts[1..], c);
    }
  }

  /** A compound `a+b+...` of decimal tokens counts the sum of the parts' integer parts:
      `8+2` is 10 and `8.5+2.5` is 10 too. */
  lemma RepsCompound(parts: seq<string>)
    requires |parts| >= 2
    requires forall i :: 0 <= i < |parts| ==> IsDecimalToken(parts[i])
    ensures ParseRepsField(JoinOn(parts, '+')) == Some(SumWholeParts(parts) as int)
  {
    var s := JoinOn(parts, '+');
    JoinedTokensHaveNoSpaceEdges(parts, '+');
    StripUnchanged(s);
    forall i | 0 <= i < |parts| ensures '+' !in parts[i] {
      TokenHasNo(parts[i], '+');
    }
    SplitJoin(parts, '+');
    assert '+' in s by {
      assert s == parts[0] + ['+'] + JoinOn(parts[1..], '+');
      assert s[|parts[0]|] == '+';
    }
    SumTruncatedOfTokens(parts);
  }

  /** A `-` range counts its first bound: `8-10` is 8. */
  lemma RepsRange(low: string, rest: string)
    requires IsDecimalToken(low)
    requires '+' !in rest
    requires rest == [] || !IsSpace(rest[|rest| - 1])
    ensures ParseRepsField(low + "-" + rest) == Some(WholePart(low) as int)
  {
    var s := low + "-" + rest;
    RangeShape(low, rest);
    RepsBranches(s);
    DecimalTokenTrunc(low);
  }

  lemma RangeShape(low: string, rest: string)
    requires IsDecimalToken(low)
    requires '+' !in rest
    requires rest == [] || !IsSpace(rest[|rest| - 1])
    ensures var s := low + "-" + rest;
      Strip(s) == s && '+' !in s && '-' in s && SplitOn(s, '-')[0] == low
  {
    var s := low + "-" + rest;
    assert Strip(s) == s by {
      assert s[0] == low[0];
      assert s[|s| - 1] == if rest == [] then '-' else rest[|rest| - 1];
      StripUnchanged(s);
    }
    assert '+' !in s by { TokenHasNo(low, '+'); }
    assert '-' in s by { assert s[|low|] == '-'; }
    TokenHasNo(low, '-');
    FirstSplitPart(low, rest, '-');
  }

  lemma FirstSplitPart(a: string, b: string, c: char)
    requires c !in a
    ensures SplitOn(a + [c] + b, c)[0] == a
  {
    var s := a + [c] + b;
    assert s == a + ([c] + b);
    IndexOfPast(a, [c] + b, c);
    assert IndexOf(s, c) == |a|;
    assert s[..|a|] == a;
  }

  /** A plain decimal token counts its integer part: `8` is 8 and `8.7` is 8. */
  lemma RepsPlain(p: string)
    requires IsDecimalToken(p)
    ensures ParseRepsField(p) == Some(WholePart(p) as int)
  {
    StripUnchanged(p);
    TokenHasNo(p, '+');
    TokenHasNo(p, '-');
    DecimalTokenTrunc(p);
  }

  lemma {:induction false} SplitOnTrailingSeparator(s: string, c: char)
    ensures var parts := SplitOn(s + [c], c); parts[|parts| - 1] == []
    decreases |s|
  {
    var t := s + [c];
    var k := IndexOf(t, c);
    if k < |s| {
      assert t[k + 1..] == s[k + 1..] + [c];
      SplitOnTrailingSeparator(s[k + 1..], c);
    } else {
      assert t[|s|] == c;
      assert k == |s|;
      assert t[k + 1..] == [];
    }
  }

  /** An empty last part (the text after a trailing `+`) makes the whole sum `None`. */
  lemma SumTruncatedFailsOnEmptyLast(parts: seq<string>)
    requires |parts| >= 1 && parts[|parts| - 1] == []
    ensures SumTruncated(parts) == None
  {
    EmptyIsNoFloat(parts[|parts| - 1]);
  }

  /** `float("")` fails. */
  lemma EmptyIsNoFloat(s: string)
    requires |s| == 0
    ensures ParseFloat(s) == None
  {
  }

  /** `s+` stripped still ends in the `+`. */
  lemma StripDanglingPlus(s: string)
    ensures var t := Strip(s + "+"); |t| > 0 && t[|t| - 1] == '+'
  {
    SkipThenPlus(s);
    var v := SkipSpaces(s + "+");
    assert RStrip(v) == v;
  }

  /** `s+` without its leading whitespace still ends in the `+`. */
  lemma SkipThenPlus(s: string)
    ensures var v := SkipSpaces(s + "+"); v != [] && v[|v| - 1] == '+'
  {
    SkipSpacesAppend(s, "+");
    if SpaceRunLen(s) == |s| {
      assert SpaceRunLen("+") == 0;
    }
  }

  /** Text ending in a `+` splits into parts whose last one is empty, so it sums to `None`. */
  lemma PlusTailSumFails(t: string)
    requires |t| > 0 && t[|t| - 1] == '+'
    ensures '+' in t && SumTruncated(SplitOn(t, '+')) == None
  {
    PlusTailSplit(t);
    SplitSumFailsOnEmptyLast(t);
  }

  /** When the last `+` part is empty, the sum of the parts is `None`. */
  lemma SplitSumFailsOnEmptyLast(t: string)
    requires SplitOn(t, '+')[|SplitOn(t, '+')| - 1] == []
    ensures SumTruncated(SplitOn(t, '+')) == None
  {
    var parts := SplitOn(t, '+');
    SumTruncatedFailsOnEmptyLast(parts);
  }

  /** Text ending in a `+` splits into parts whose last one is empty. */
  lemma PlusTailSplit(t: string)
    requires |t| > 0 && t[|t| - 1] == '+'
    ensures '+' in t && SplitOn(t, '+')[|SplitOn(t, '+')| - 1] == []
  {
    var u := t[..|t| - 1];
    assert t == u + ['+'];
    SplitOnTrailingSeparator(u, '+');
  }

  /** A compound with a missing last part (`8+`) does not parse: the result is `None`,
      not an error. */
  lemma RepsDanglingPlus(s: string)
    ensures ParseRepsField(s + "+") == None
  {
    StripDanglingPlus(s);
    PlusTailSumFails(Strip(s + "+"));
    RepsBranches(s + "+");
  }

  lemma SmallDigits(n: nat)
    requires n < 10
    ensures NatToDigits(n) == [DigitChar(n)]
    ensures IsDecimalToken([DigitChar(n)]) && WholePart([DigitChar(n)]) == n
  {
    DigitsAreToken(n);
  }

  /** The compound example of the parser's own comment: `8+2` counts 10. */
  lemma RepsCompoundExample()
    ensures ParseRepsField("8+2") == Some(10)
  {
    SmallDigits(8);
    SmallDigits(2);
    assert DigitChar(8) == '8' && DigitChar(2) == '2';
    var parts := ["8", "2"];
    assert parts[1..] == ["2"] && parts[1..][1..] == [];
    assert SumWholeParts(parts) == 10 by {
      assert SumWholeParts(parts) == WholePart("8") + SumWholeParts(["2"]);
      assert SumWholeParts(["2"]) == WholePart("2") + SumWholeParts([]);
    }
    assert JoinOn(parts, '+') == "8+2" by {
      assert JoinOn(parts, '+') == "8" + ['+'] + JoinOn(["2"], '+');
    }
    RepsCompound(parts);
  }

  /** A range whose first bound is a single digit counts that digit: `8-10` counts 8, the
      example of the parser's own comment. */
  lemma RangeOfDigit(n: nat, rest: string)
    requires n < 10 && '+' !in rest
    requires rest == [] || !IsSpace(rest[|rest| - 1])
    ensures ParseRepsField([DigitChar(n)] + "-" + rest) == Some(n)
  {
    SmallDigits(n);
    RepsRange([DigitChar(n)], rest);
  }

  // ---------------------------------------------------------------------------------------
  // Properties of parse_weight_field

  /** A weight written with a unit directly after the number (`60kg`) does not parse as a
      float, and the fallback search recovers the number. */
  lemma WeightWithUnit(n: nat, unit: string)
    requires |unit| > 0 && IsAsciiLetter(unit[0]) && !IsSpace(unit[|unit| - 1])
    ensures ParseWeightField(NatToDigits(n) + unit) == Some(n as real)
  {
    var d := NatToDigits(n);
    var s := d + unit;
    UnitSuffixShape(d, unit);
    DigitsParse(n);
  }

  /** The decimal spelling of a whole number reads back as that number. */
  lemma DigitsParse(n: nat)
    ensures ParseFloat(NatToDigits(n)) == Some(n as real)
  {
    DigitsRoundTrip(n);
    AllDigitsParse(NatToDigits(n));
  }

  /** `float` reads a plain run of digits as its value. */
  lemma AllDigitsParse(d: string)
    requires |d| > 0 && AllDigits(d)
    ensures ParseFloat(d) == Some(DigitsValue(d) as real)
  {
    StripUnchanged(d);
    UnsignedParse(d);
    DigitsUnsigned(d);
  }

  /** Text with nothing to strip and no sign is read as an unsigned numeral. */
  lemma UnsignedParse(t: string)
    requires Strip(t) == t && t != [] && t[0] != '+' && t[0] != '-'
    ensures ParseFloat(t) == UnsignedDecimal(t)
  {
  }

  /** A plain run of digits is an unsigned numeral with the digits' value. */
  lemma DigitsUnsigned(d: string)
    requires |d| > 0 && AllDigits(d)
    ensures UnsignedDecimal(d) == Some(DigitsValue(d) as real)
  {
    RunLenUnique(d, IsDigit, |d|);
  }

  lemma UnitSuffixShape(d: string, unit: string)
    requires |d| > 0 && AllDigits(d)
    requires |unit| > 0 && IsAsciiLetter(unit[0]) && !IsSpace(unit[|unit| - 1])
    ensures ParseFloat(d + unit).None? && FirstDecimal(d + unit) == Some(d)
  {
    var s := d + unit;
    assert s[|d|] == unit[0] && s[0] == d[0] && s[|s| - 1] == unit[|unit| - 1];
    RunLenUnique(s, IsDigit, |d|);
    StripUnchanged(s);
    UnitSuffixNotFloat(s, |d|);
    UnitSuffixDecimal(s, |d|);
    assert s[..|d|] == d;
  }

  /** Digits followed by a letter are not a float. */
  lemma UnitSuffixNotFloat(s: string, n: nat)
    requires 0 < n < |s| && DigitRunLen(s) == n && IsAsciiLetter(s[n]) && Strip(s) == s
    ensures ParseFloat(s).None?
  {
    assert s[0] != '+' && s[0] != '-';
    UnsignedParse(s);
  }

  /** The first decimal token of digits followed by a letter is the digits. */
  lemma UnitSuffixDecimal(s: string, n: nat)
    requires 0 < n < |s| && DigitRunLen(s) == n && IsAsciiLetter(s[n])
    ensures FirstDecimal(s) == Some(s[..n])
  {
    assert FirstDigitIndex(s) == 0;
    assert DecimalLen(s) == n;
    assert s[0..n] == s[..n];
  }

  /** A plain decimal token is its own weight. */
  lemma WeightPlain(p: string)
    requires IsDecimalToken(p)
    ensures ParseWeightField(p) == ParseFloat(p)
    ensures ParseWeightField(p).Some?
  {
    DecimalTokenValue(p);
  }

  /** The greedy decimal token at the start of a string is a decimal token on its own. */
  lemma DecimalPrefixIsToken(s: string)
    requires DecimalLen(s) > 0
    ensures IsDecimalToken(s[..DecimalLen(s)])
  {
    var n := DecimalLen(s);
    var p := s[..n];
    var k := DigitRunLen(s);
    RunLenUnique(p, IsDigit, k);
    if n > k {
      var f := s[k + 1..];
      var fp := p[k + 1..];
      assert fp == f[..DigitRunLen(f)];
      RunLenUnique(fp, IsDigit, |fp|);
    }
  }

  /** The first decimal embedded in a string is a decimal token on its own. */
  lemma FirstDecimalIsToken(raw: string)
    requires FirstDecimal(raw).Some?
    ensures IsDecimalToken(FirstDecimal(raw).value)
  {
    var p := FirstDigitIndex(raw);
    var t := raw[p..];
    assert t[0] == raw[p];
    DecimalPrefixIsToken(t);
    assert t[..DecimalLen(t)] == FirstDecimal(raw).value;
  }

  /** When `float(raw)` fails but `raw` holds a digit, the weight is `float` of the leftmost
      decimal token in `raw` (`FirstDecimal`): a value between that token's integer part and
      one more. */
  lemma WeightFallback(raw: string)
    requires ParseFloat(raw).None?
    requires exists i :: 0 <= i < |raw| && IsDigit(raw[i])
    ensures FirstDecimal(raw).Some? && IsDecimalToken(FirstDecimal(raw).value)
    ensures ParseWeightField(raw) == ParseFloat(FirstDecimal(raw).value)
    ensures ParseWeightField(raw).Some?
    ensures var tok := FirstDecimal(raw).value;
      WholePart(tok) as real <= ParseWeightField(raw).value < WholePart(tok) as real + 1.0
  {
    FirstDecimalIsToken(raw);
    DecimalTokenValue(FirstDecimal(raw).value);
  }
}


