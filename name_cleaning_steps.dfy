/** What each step of the v1 parser's name cleaner (src/parsers/v1_parser.py, lines 34 and
    203-243) measures, removes and keeps: the bullet and number-and-full-stop prefixes of
    `clean_prefix`, the second half of a rep range, and the bracketed notes. */
module NameCleaningSteps {
  import opened Wrappers
  import opened Text
  import opened Fields
  import opened NameCleaning

  // ---------------------------------------------------------------------------------------
  // ^\s*[-•]\s*

  /** `[-•]`. */
  predicate IsBullet(c: char) { c == '-' || c == '•' }

  /** Blanks, a bullet and blanks in front of text that does not open with a blank: the
      bullet prefix is exactly those three parts. */
  lemma BulletLenOf(g1: string, c: char, g2: string, t: string)
    requires AllSpaces(g1) && IsBullet(c) && AllSpaces(g2) && (t == [] || !IsSpace(t[0]))
    ensures BulletLen(g1 + [c] + g2 + t) == |g1| + 1 + |g2|
  {
    var u := g2 + t;
    var s := g1 + ([c] + u);
    assert g1 + [c] + g2 + t == s;
    assert SpaceRunLen(s) == |g1| by {
      SkipBlanks(g1, [c] + u);
    }
    assert s[|g1|] == c && s[|g1| + 1..] == u;
    assert SpaceRunLen(u) == |g2| by {
      SkipBlanks(g2, t);
    }
    BulletLenAt(s, |g1|, |g2|);
  }

  lemma BulletLenAt(s: string, a: nat, k: nat)
    requires SpaceRunLen(s) == a < |s| && IsBullet(s[a]) && SpaceRunLen(s[a + 1..]) == k
    ensures BulletLen(s) == a + 1 + k
  {
  }

  /** The bullet prefix the function measures is blanks, a bullet, then blanks up to the first
      other character; there is none when the first character after the leading blanks is not
      a bullet. */
  lemma BulletLenShape(s: string)
    ensures var n, a := BulletLen(s), SpaceRunLen(s);
      && (n > 0 ==>
            && a < n && AllSpaces(s[..a]) && IsBullet(s[a]) && AllSpaces(s[a + 1..n])
            && (n == |s| || !IsSpace(s[n])))
      && (n == 0 ==> !(a < |s| && IsBullet(s[a])))
  {
    var n, a := BulletLen(s), SpaceRunLen(s);
    if n > 0 {
      var t := s[a + 1..];
      var k := SpaceRunLen(t);
      assert forall i :: a + 1 <= i < n ==> s[i] == t[i - a - 1];
      if n < |s| { assert s[n] == t[k]; }
    }
  }

  // ---------------------------------------------------------------------------------------
  // \s*\d+\.\s*

  /** Blanks, digits, a full stop and blanks in front of text that does not open with a
      blank: the number-and-full-stop is exactly those four parts. */
  lemma NumberDotLenOf(g1: string, d: string, g2: string, t: string)
    requires AllSpaces(g1) && |d| > 0 && AllDigits(d) && AllSpaces(g2)
    requires t == [] || !IsSpace(t[0])
    ensures NumberDotLen(g1 + d + "." + g2 + t) == |g1| + |d| + 1 + |g2|
  {
    var u := g2 + t;
    var e := d + ['.'] + u;
    assert g1 + d + "." + g2 + t == g1 + e;
    assert e[0] == d[0];
    NumberDotOpening(d, u);
    NumberDotAfterBlanks(g1, e);
    SkipBlanks(g2, t);
  }

  /** Leading blanks are part of the number-and-full-stop when one follows them. */
  lemma NumberDotAfterBlanks(g: string, e: string)
    requires AllSpaces(g) && e != [] && !IsSpace(e[0]) && NumberDotLen(e) > 0
    ensures NumberDotLen(g + e) == |g| + NumberDotLen(e)
  {
    SkipBlanks(g, e);
    assert (g + e)[|g|..] == e;
    NumberDotShift(g + e, |g|, e);
  }

  lemma NumberDotShift(s: string, a: nat, e: string)
    requires SpaceRunLen(s) == a <= |s| && s[a..] == e && e != [] && !IsSpace(e[0])
    requires NumberDotLen(e) > 0
    ensures NumberDotLen(s) == a + NumberDotLen(e)
  {
    var d := DigitRunLen(e);
    assert SpaceRunLen(e) == 0 && e[0..] == e;
    assert DigitRunLen(s[a..]) == d;
    var k := SpaceRunLen(e[d + 1..]);
    assert s[a + d] == e[d] && s[a + d + 1..] == e[d + 1..];
  }

  lemma NumberDotLenAt(s: string, a: nat, d: nat, k: nat)
    requires SpaceRunLen(s) == a && DigitRunLen(s[a..]) == d > 0
    requires a + d < |s| && s[a + d] == '.' && SpaceRunLen(s[a + d + 1..]) == k
    ensures NumberDotLen(s) == a + d + 1 + k
  {
  }

  /** Digits, a full stop, then anything: the full stop and the blanks after it are taken. */
  lemma NumberDotOpening(d: string, u: string)
    requires |d| > 0 && AllDigits(d)
    ensures NumberDotLen(d + ['.'] + u) == |d| + 1 + SpaceRunLen(u)
  {
    var e := d + ['.'] + u;
    assert e == d + (['.'] + u);
    assert SpaceRunLen(e) == 0 && e[0..] == e by {
      assert e[0] == d[0];
    }
    DigitRunAfter(d, ['.'] + u);
    assert e[|d|] == '.' && e[|d| + 1..] == u;
  }

  /** A run of digits ends where the digits stop. */
  lemma DigitRunAfter(d: string, t: string)
    requires AllDigits(d) && (t == [] || !IsDigit(t[0]))
    ensures DigitRunLen(d + t) == |d|
  {
    var u := d + t;
    assert forall i :: 0 <= i < |d| ==> u[i] == d[i];
    if |d| < |u| { assert u[|d|] == t[0]; }
    RunLenUnique(u, IsDigit, |d|);
  }

  /** What the function measures is blanks, digits, a full stop and blanks up to the first
      other character; there is none when the digits after the leading blanks are missing or
      are not followed by a full stop. */
  lemma NumberDotLenShape(s: string)
    ensures var n, a := NumberDotLen(s), SpaceRunLen(s); var d := DigitRunLen(s[a..]);
      && (n > 0 ==>
            && 0 < d && a + d < n && AllSpaces(s[..a]) && AllDigits(s[a..a + d])
            && s[a + d] == '.' && AllSpaces(s[a + d + 1..n]) && (n == |s| || !IsSpace(s[n])))
      && (n == 0 ==> d == 0 || a + d == |s| || s[a + d] != '.')
  {
    var n, a := NumberDotLen(s), SpaceRunLen(s);
    var d := DigitRunLen(s[a..]);
    if n > 0 {
      NumberDotTaken(s, a, d, SpaceRunLen(s[a + d + 1..]));
    }
  }

  lemma NumberDotTaken(s: string, a: nat, d: nat, k: nat)
    requires SpaceRunLen(s) == a && DigitRunLen(s[a..]) == d > 0
    requires a + d < |s| && s[a + d] == '.' && SpaceRunLen(s[a + d + 1..]) == k
    ensures AllSpaces(s[..a]) && AllDigits(s[a..a + d]) && AllSpaces(s[a + d + 1..a + d + 1 + k])
    ensures a + d + 1 + k == |s| || !IsSpace(s[a + d + 1 + k])
  {
    assert s[a..a + d] == s[a..][..d];
    var t := s[a + d + 1..];
    assert s[a + d + 1..a + d + 1 + k] == t[..k];
    if a + d + 1 + k < |s| { assert s[a + d + 1 + k] == t[k]; }
  }

  // ---------------------------------------------------------------------------------------
  // What the removal of prefixes keeps

  /** The characters a number-and-full-stop is made of. */
  predicate IsNumberDotChar(c: char) { IsSpace(c) || IsDigit(c) || c == '.' }

  /** `s` with every blank, digit and full stop left out. */
  function WordChars(s: string): (r: string)
    ensures |r| <= |s|
    ensures forall i :: 0 <= i < |r| ==> !IsNumberDotChar(r[i])
  {
    if s == [] then []
    else (if IsNumberDotChar(s[0]) then [] else [s[0]]) + WordChars(s[1..])
  }

  lemma {:induction false} WordCharsAppend(a: string, b: string)
    ensures WordChars(a + b) == WordChars(a) + WordChars(b)
    decreases |a|
  {
    if a != [] {
      assert (a + b)[0] == a[0];
      assert (a + b)[1..] == a[1..] + b;
      WordCharsAppend(a[1..], b);
    } else {
      assert a + b == b;
    }
  }

  lemma {:induction false} WordCharsNone(s: string)
    requires forall i :: 0 <= i < |s| ==> IsNumberDotChar(s[i])
    ensures WordChars(s) == []
    decreases |s|
  {
    if s != [] {
      WordCharsNone(s[1..]);
    }
  }

  /** A number-and-full-stop at the front is made of blanks, digits and a full stop only. */
  lemma NumberDotChars(s: string)
    ensures forall i :: 0 <= i < NumberDotLen(s) ==> IsNumberDotChar(s[i])
  {
    NumberDotLenShape(s);
  }

  /** Removing every number-and-full-stop keeps all the other characters, in order: only
      blanks, digits and full stops are taken out. */
  lemma {:induction false} DropNumberDotsKeepsWords(s: string)
    ensures WordChars(DropNumberDots(s)) == WordChars(s)
    decreases |s|
  {
    if s != [] {
      var n := NumberDotLen(s);
      if n > 0 {
        assert DropNumberDots(s) == DropNumberDots(s[n..]);
        DropNumberDotsKeepsWords(s[n..]);
        assert WordChars(s) == WordChars(s[n..]) by {
          assert s == s[..n] + s[n..];
          WordCharsAppend(s[..n], s[n..]);
          NumberDotChars(s);
          WordCharsNone(s[..n]);
        }
      } else {
        var rest := DropNumberDots(s[1..]);
        assert DropNumberDots(s) == [s[0]] + rest;
        DropNumberDotsKeepsWords(s[1..]);
        WordCharsAppend([s[0]], rest);
        assert WordChars(s) == WordChars([s[0]]) + WordChars(s[1..]) by {
          assert s == [s[0]] + s[1..];
          WordCharsAppend([s[0]], s[1..]);
        }
      }
    }
  }

  /** Without a full stop there is no number-and-full-stop to remove. */
  lemma {:induction false} NoDotKept(s: string)
    requires forall i :: 0 <= i < |s| ==> s[i] != '.'
    ensures DropNumberDots(s) == s
    decreases |s|
  {
    if s != [] {
      assert NumberDotLen(s) == 0;
      NoDotKept(s[1..]);
    }
  }

  /** `clean_prefix.sub` takes off the bullet prefix and then keeps every character of the rest
      other than blanks, digits and full stops, in order. */
  lemma CleanPrefixKeepsWords(s: string)
    ensures WordChars(CleanPrefix(s)) == WordChars(s[BulletLen(s)..])
  {
    DropNumberDotsKeepsWords(s[BulletLen(s)..]);
  }

  // ---------------------------------------------------------------------------------------
  // [-–—]\s*\d{1,3}

  /** A dash, blanks and one to three digits in front of text that does not continue the
      number: the range end is taken and the text after it is returned. */
  lemma RangeEndOf(c: char, g: string, d: string, t: string)
    requires IsDash(c) && AllSpaces(g) && 1 <= |d| <= 3 && AllDigits(d)
    requires t == [] || !IsDigit(t[0])
    ensures RangeEnd([c] + g + d + t) == Some(t)
  {
    var v := [c] + g + d + t;
    assert v[1..] == g + (d + t);
    assert SkipSpaces(v[1..]) == d + t by {
      assert (d + t)[0] == d[0];
      SkipBlanks(g, d + t);
    }
    DigitRunAfter(d, t);
    assert (d + t)[|d|..] == t;
  }

  /** A dash right before one to three digits that the text after them does not continue. */
  lemma DashDigits(c: char, d: string, t: string)
    requires IsDash(c) && 1 <= |d| <= 3 && AllDigits(d)
    requires t == [] || !IsDigit(t[0])
    ensures RangeEnd([c] + d + t) == Some(t)
  {
    var v := [c] + d + t;
    assert v[1..] == d + t && (d + t)[0] == d[0];
    NoLeadingBlank(d + t);
    DigitRunAfter(d, t);
    assert (d + t)[|d|..] == t;
  }

  /** What the range end takes is a dash, blanks, and one to three digits that the remaining
      text does not continue; there is none when `v` does not open that way. */
  lemma RangeEndShape(v: string)
    ensures var r := RangeEnd(v);
      && (r.Some? ==>
            var k, g := |v| - |r.value|, SpaceRunLen(v[1..]);
            && IsDash(v[0]) && r.value == v[k..] && AllSpaces(v[1..1 + g])
            && 1 <= k - 1 - g <= 3 && AllDigits(v[1 + g..k])
            && (r.value == [] || !IsDigit(r.value[0])))
      && (r.None? ==> v == [] || !IsDash(v[0]) || !(1 <= DigitRunLen(SkipSpaces(v[1..])) <= 3))
  {
    var r := RangeEnd(v);
    if r.Some? {
      RangeEndTaken(v, SpaceRunLen(v[1..]), ShortNumberLen(SkipSpaces(v[1..])));
    }
  }

  lemma RangeEndTaken(v: string, g: nat, b: nat)
    requires v != [] && IsDash(v[0]) && g == SpaceRunLen(v[1..])
    requires b == ShortNumberLen(SkipSpaces(v[1..])) > 0
    ensures RangeEnd(v) == Some(v[1 + g + b..])
    ensures AllSpaces(v[1..1 + g]) && AllDigits(v[1 + g..1 + g + b])
    ensures 1 + g + b == |v| || !IsDigit(v[1 + g + b])
  {
    var w := v[1..];
    var u := SkipSpaces(w);
    assert u == w[g..];
    assert v[1..1 + g] == w[..g];
    assert v[1 + g..1 + g + b] == u[..b];
    assert u[b..] == v[1 + g + b..];
    if 1 + g + b < |v| { assert v[1 + g + b] == u[b]; }
  }

  // ---------------------------------------------------------------------------------------
  // [\(\[\{][^\)\]\}]*[\)\]\}]

  predicate NoCloser(s: string) { forall i :: 0 <= i < |s| ==> !IsCloser(s[i]) }

  predicate NoOpener(s: string) { forall i :: 0 <= i < |s| ==> !IsOpener(s[i]) }

  /** An opening bracket with a closing one after it: the note up to the first closer goes. */
  lemma RemoveBracketedDrops(s: string, j: nat)
    requires s != [] && IsOpener(s[0]) && RunLen(s[1..], IsNotCloser) == j < |s| - 1
    ensures RemoveBracketed(s) == RemoveBracketed(s[j + 2..])
  {
  }

  /** Any other first character is kept. */
  lemma RemoveBracketedKeeps(s: string)
    requires s != [] && !(IsOpener(s[0]) && RunLen(s[1..], IsNotCloser) < |s| - 1)
    ensures RemoveBracketed(s) == [s[0]] + RemoveBracketed(s[1..])
  {
  }

  /** Without a closing bracket nothing is removed. */
  lemma {:induction false} NoCloserKept(s: string)
    requires NoCloser(s)
    ensures RemoveBracketed(s) == s
    decreases |s|
  {
    if s != [] {
      var j := RunLen(s[1..], IsNotCloser);
      RunLenUnique(s[1..], IsNotCloser, |s| - 1);
      NoCloserKept(s[1..]);
    }
  }

  /** In what is left, no opening bracket has a closing one after it: every note that could
      be removed was. */
  lemma {:induction false} NoClosedBracketLeft(s: string)
    ensures var r := RemoveBracketed(s);
      forall i, j :: 0 <= i < j < |r| && IsOpener(r[i]) ==> !IsCloser(r[j])
    decreases |s|
  {
    if s != [] {
      var j := RunLen(s[1..], IsNotCloser);
      if IsOpener(s[0]) && j < |s| - 1 {
        RemoveBracketedDrops(s, j);
        NoClosedBracketLeft(s[j + 2..]);
      } else {
        var rest := RemoveBracketed(s[1..]);
        NoClosedBracketLeft(s[1..]);
        var r := [s[0]] + rest;
        RemoveBracketedKeeps(s);
        if IsOpener(s[0]) {
          assert NoCloser(s[1..]) by {
            assert forall i :: 0 <= i < |s| - 1 ==> IsNotCloser(s[1..][i]);
          }
          NoCloserKept(s[1..]);
        }
        forall i, k | 0 <= i < k < |r| && IsOpener(r[i])
          ensures !IsCloser(r[k])
        {
          assert r[k] == rest[k - 1];
          if i == 0 {
            assert rest == s[1..];
          } else {
            assert r[i] == rest[i - 1];
            assert 0 <= i - 1 < k - 1 < |rest| && IsOpener(rest[i - 1]);
          }
        }
      }
    }
  }

  /** Text without opening brackets in front is kept as it is, whatever follows it. */
  lemma {:induction false} NoOpenerPrefixKept(a: string, x: string)
    requires NoOpener(a)
    ensures RemoveBracketed(a + x) == a + RemoveBracketed(x)
    decreases |a|
  {
    if a == [] {
      assert a + x == x;
    } else {
      var s := a + x;
      assert s[0] == a[0] && s[1..] == a[1..] + x;
      RemoveBracketedKeeps(s);
      NoOpenerPrefixKept(a[1..], x);
      assert [a[0]] + (a[1..] + RemoveBracketed(x)) == a + RemoveBracketed(x);
    }
  }

  /** A note that opens the text, up to the first closing bracket, is removed whole. */
  lemma NoteDropped(o: char, m: string, c: char, b: string)
    requires IsOpener(o) && NoCloser(m) && IsCloser(c)
    ensures RemoveBracketed([o] + m + [c] + b) == RemoveBracketed(b)
  {
    var s := [o] + m + [c] + b;
    var t := s[1..];
    assert RunLen(t, IsNotCloser) == |m| by {
      assert t == m + [c] + b;
      assert forall i :: 0 <= i < |m| ==> t[i] == m[i];
      assert t[|m|] == c;
      RunLenUnique(t, IsNotCloser, |m|);
    }
    assert s[0] == o && s[|m| + 2..] == b;
    RemoveBracketedDrops(s, |m|);
  }

  /** A note, from an opening bracket to the first closing one, in text that opens without
      brackets, is removed whole, and the text before it is kept. */
  lemma RemoveBracketedNote(a: string, o: char, m: string, c: char, b: string)
    requires NoOpener(a) && IsOpener(o) && NoCloser(m) && IsCloser(c)
    ensures RemoveBracketed(a + [o] + m + [c] + b) == a + RemoveBracketed(b)
  {
    var x := [o] + m + [c] + b;
    assert a + [o] + m + [c] + b == a + x;
    NoOpenerPrefixKept(a, x);
    NoteDropped(o, m, c, b);
  }
}
