/** The scanner against the grammar: it reads exactly the strings the grammar writes, and reads each
    as the instant it denotes. */
module Timestamps {
  import opened Wrappers
  import opened Time
  import opened Calendar
  import opened Rfc3339

  /******* Digit groups *******/

  lemma NumberOfTwo(n: nat)
    requires n < 100
    ensures AllDigits(Two(n)) && Number(Two(n)) == n
  {
    var s := Two(n);
    assert s[..1] == [s[0]] && s[..1][..0] == [];
    assert Number(s[..1]) == n / 10;
  }

  lemma NumberOfFour(n: nat)
    requires n < 10_000
    ensures AllDigits(Four(n)) && Number(Four(n)) == n
  {
    var s := Four(n);
    NumberOfTwo(n / 100);
    assert s[..3][..2] == s[..2] == Two(n / 100);
    assert Number(s[..3]) == 10 * Number(s[..2]) + n % 100 / 10;
  }

  // Two digits are the digits of their number.
  lemma TwoOfNumber(s: seq<Byte>)
    requires |s| == 2 && AllDigits(s)
    ensures Number(s) < 100 && s == Two(Number(s))
  {
    var n := (s[0] - ZERO) * 10 + (s[1] - ZERO);
    assert s == Two(n);
    NumberOfTwo(n);
  }

  lemma FourOfNumber(s: seq<Byte>)
    requires |s| == 4 && AllDigits(s)
    ensures Number(s) < 10_000 && s == Four(Number(s))
  {
    TwoOfNumber(s[0..2]);
    TwoOfNumber(s[2..4]);
    var a, b := Number(s[0..2]), Number(s[2..4]);
    var n := 100 * a + b;
    assert n / 100 == a && n % 100 == b;
    assert s == s[0..2] + s[2..4] == Four(n);
    NumberOfFour(n);
  }

  lemma ReadsTwo(s: seq<Byte>, lo: nat, n: nat)
    requires lo + 2 <= |s| && n < 100 && s[lo..lo + 2] == Two(n) && IsCharBoundary(s, lo + 2)
    ensures Digits(s, lo, lo + 2) == Some(n)
  {
    NumberOfTwo(n);
    assert s[lo] == s[lo..lo + 2][0];
  }

  lemma ReadsFour(s: seq<Byte>, n: nat)
    requires 4 <= |s| && n < 10_000 && s[0..4] == Four(n) && IsCharBoundary(s, 4)
    ensures Digits(s, 0, 4) == Some(n)
  {
    NumberOfFour(n);
  }

  /******* Fractions *******/

  // The first `k` digits of a fraction, zeros standing in for missing ones.
  function Padded(frac: seq<nat>, k: nat): (s: seq<Byte>)
    requires forall i :: 0 <= i < |frac| ==> frac[i] < 10
    ensures |s| == k && AllDigits(s)
    ensures forall i :: 0 <= i < k ==> s[i] == if i < |frac| then Digit(frac[i]) else ZERO
  {
    if k == 0 then [] else Padded(frac, k - 1) + [if k <= |frac| then Digit(frac[k - 1]) else ZERO]
  }

  lemma {:induction false} PaddedNumber(frac: seq<nat>, k: nat)
    requires forall i :: 0 <= i < |frac| ==> frac[i] < 10
    ensures Number(Padded(frac, k)) == Units(frac, k)
  {
    if k == 0 {
    } else {
      PaddedNumber(frac, k - 1);
      assert Padded(frac, k)[..k - 1] == Padded(frac, k - 1);
    }
  }

  function Pow10(k: nat): (p: nat)
    ensures p > 0
  {
    if k == 0 then 1 else 10 * Pow10(k - 1)
  }

  lemma MultiplesAreFar(d: int, b: nat)
    ensures (d >= 1 ==> d * b >= b) && (d <= -1 ==> d * b + b <= 0)
  {
  }

  lemma QuotientIs(v: nat, b: nat, q: nat, r: nat)
    requires b > 0 && r < b && v == q * b + r
    ensures v / b == q
  {
    var p := v / b;
    assert v == p * b + v % b;
    assert (p - q) * b == r - v % b;
    MultiplesAreFar(p - q, b);
  }

  // Truncation: cutting a fraction to its first `k` digits rounds its value down, never up, however
  // many digits follow.
  lemma {:induction false} UnitsTruncate(frac: seq<nat>, k: nat, n: nat)
    requires forall i :: 0 <= i < |frac| ==> frac[i] < 10
    ensures Units(frac, k) == Units(frac, k + n) / Pow10(n)
  {
    if n == 0 {
    } else {
      UnitsTruncate(frac, k, n - 1);
      assert Units(frac, k + n) / 10 == Units(frac, k + (n - 1));
      DivideTwice(Units(frac, k + n), Pow10(n - 1));
    }
  }

  lemma DivideTwice(v: nat, a: nat)
    requires a > 0
    ensures v / (10 * a) == v / 10 / a
  {
    var q, r := v / 10, v % 10;
    var q', r' := q / a, q % a;
    assert q == q' * a + r';
    assert v == 10 * (q' * a + r') + r;
    assert v == q' * (10 * a) + (10 * r' + r);
    QuotientIs(v, 10 * a, q', 10 * r' + r);
  }

  lemma {:induction false} RunOfDigits(s: seq<Byte>, n: nat)
    requires n <= |s| && AllDigits(s[..n]) && (n < |s| ==> !IsDigit(s[n]))
    ensures DigitRun(s) == n
  {
    if n == 0 {
    } else {
      assert s[0] == s[..n][0];
      assert s[1..][..n - 1] == s[..n][1..];
      RunOfDigits(s[1..], n - 1);
    }
  }

  lemma KeptDigits(frac: seq<nat>, kept: seq<Byte>)
    requires forall i :: 0 <= i < |frac| ==> frac[i] < 10
    requires |kept| == Nine(|frac|)
    requires forall i :: 0 <= i < |kept| ==> kept[i] == Digit(frac[i])
    ensures AllDigits(kept) && NineDigits(kept) == Units(frac, 9)
  {
    assert kept + Zeros(9 - |kept|) == Padded(frac, 9);
    PaddedNumber(frac, 9);
  }

  // `s` is the digits of `frac` followed by `z`.
  predicate DigitsThen(s: seq<Byte>, frac: seq<nat>, z: seq<Byte>)
    requires forall i :: 0 <= i < |frac| ==> frac[i] < 10
  {
    |frac| <= |s| && s[..|frac|] == FracDigits(frac) && s[|frac|..] == z
  }

  lemma ScansDigits(frac: seq<nat>, z: seq<Byte>, digits: seq<Byte>)
    requires forall i :: 0 <= i < |frac| ==> frac[i] < 10
    requires frac != [] && z != [] && !IsDigit(z[0])
    requires AsciiEndsChars(digits) && DigitsThen(digits, frac, z)
    ensures ScanDigits(digits) == Some((Units(frac, 9), z))
  {
    assert digits[|frac|] == z[0];
    RunOfDigits(digits, |frac|);
    RunEndsAtChar(digits, |frac|);
    KeptDigits(frac, digits[..Nine(|frac|)]);
  }

  lemma {:induction false} NoUnits(k: nat)
    ensures Units([], k) == 0
  {
    if k == 0 {
    } else {
      NoUnits(k - 1);
    }
  }

  // `s` is a rendered fraction followed by `z`.
  predicate FractionThen(s: seq<Byte>, frac: seq<nat>, z: seq<Byte>)
    requires forall i :: 0 <= i < |frac| ==> frac[i] < 10
  {
    if frac == [] then s == z else s != [] && s[0] == DOT && DigitsThen(s[1..], frac, z)
  }

  lemma Joins(a: seq<Byte>, b: seq<Byte>)
    ensures (a + b)[..|a|] == a && (a + b)[|a|..] == b
  {
  }

  lemma RenderedFraction(frac: seq<nat>, z: seq<Byte>)
    requires forall i :: 0 <= i < |frac| ==> frac[i] < 10
    ensures FractionThen(RenderFrac(frac) + z, frac, z)
  {
    var d := FracDigits(frac);
    if frac != [] {
      assert [DOT] + d + z == [DOT] + (d + z);
      Joins([DOT], d + z);
      Joins(d, z);
    }
  }

  lemma ScansFraction(frac: seq<nat>, z: seq<Byte>, rest: seq<Byte>)
    requires forall i :: 0 <= i < |frac| ==> frac[i] < 10
    requires z != [] && !IsDigit(z[0]) && z[0] != DOT
    requires AsciiEndsChars(rest) && FractionThen(rest, frac, z)
    ensures ScanFraction(rest) == Some((Units(frac, 9), z))
  {
    if frac == [] {
      NoUnits(9);
    } else {
      SuffixEndsChars(rest, 1);
      ScansDigits(frac, z, rest[1..]);
    }
  }

  // The digits of a run of digit bytes.
  function ValuesOf(s: seq<Byte>): (v: seq<nat>)
    requires AllDigits(s)
    ensures |v| == |s| && (forall i :: 0 <= i < |v| ==> v[i] < 10) && FracDigits(v) == s
  {
    if s == [] then [] else [s[0] - ZERO] + ValuesOf(s[1..])
  }

  lemma FractionScanned(rest: seq<Byte>) returns (frac: seq<nat>, z: seq<Byte>)
    requires AsciiEndsChars(rest) && ScanFraction(rest).Some?
    ensures forall i :: 0 <= i < |frac| ==> frac[i] < 10
    ensures FractionThen(rest, frac, z) && ScanFraction(rest) == Some((Units(frac, 9), z))
  {
    if rest == [] || rest[0] != DOT {
      frac, z := [], rest;
      NoUnits(9);
    } else {
      SuffixEndsChars(rest, 1);
      frac, z := DigitsScanned(rest[1..]);
    }
  }

  lemma DigitsScanned(digits: seq<Byte>) returns (frac: seq<nat>, z: seq<Byte>)
    requires AsciiEndsChars(digits) && ScanDigits(digits).Some?
    ensures frac != [] && forall i :: 0 <= i < |frac| ==> frac[i] < 10
    ensures DigitsThen(digits, frac, z) && ScanDigits(digits) == Some((Units(frac, 9), z))
  {
    var n := DigitRun(digits);
    frac, z := ValuesOf(digits[..n]), digits[n..];
    RunEndsAtChar(digits, n);
    KeptDigits(frac, digits[..Nine(n)]);
  }

  // A rendered fraction and what follows it, put back together.
  lemma FractionJoined(rest: seq<Byte>, frac: seq<nat>, z: seq<Byte>)
    requires forall i :: 0 <= i < |frac| ==> frac[i] < 10
    requires FractionThen(rest, frac, z)
    ensures rest == RenderFrac(frac) + z
  {
    if frac != [] {
      assert rest == [DOT] + rest[1..];
      assert rest[1..] == rest[1..][..|frac|] + rest[1..][|frac|..];
    }
  }

  /******* Zones *******/

  lemma ScansZone(z: Zone)
    requires ZoneFits(z)
    ensures ScanZone(RenderZone(z)) == Some(OffsetSeconds(z))
  {
    if z.Shift? {
      var s := RenderZone(z);
      assert s[1..3] == Two(z.hh) && s[4..6] == Two(z.mm);
      ReadsTwo(s, 1, z.hh);
      ReadsTwo(s, 4, z.mm);
    }
  }

  lemma ZoneScanned(s: seq<Byte>) returns (z: Zone)
    requires ScanZone(s).Some?
    ensures ZoneFits(z) && s == RenderZone(z) && ScanZone(s) == Some(OffsetSeconds(z))
  {
    if |s| == 1 {
      z := Utc(s[0] == LOWER_Z);
    } else {
      TwoOfNumber(s[1..3]);
      TwoOfNumber(s[4..6]);
      z := Shift(s[0] == DASH, Number(s[1..3]), Number(s[4..6]));
      assert s == [s[0]] + s[1..3] + [s[3]] + s[4..6];
    }
  }

  /******* Whole timestamps *******/

  predicate Ascii(s: seq<Byte>) {
    forall i :: 0 <= i < |s| ==> s[i] < 0x80
  }

  lemma {:induction false} AsciiIsUtf8(s: seq<Byte>)
    requires Ascii(s)
    ensures Utf8(s)
  {
    if s == [] {
    } else {
      AsciiIsUtf8(s[1..]);
    }
  }

  lemma {:induction false} DateTimeIsAscii(t: DateTime)
    requires Accepted(t)
    ensures Ascii(RenderDateTime(t))
  {
    assert Ascii(Four(t.y)) && Ascii(Two(t.mo)) && Ascii(Two(t.d)) && Ascii(Two(t.h)) && Ascii(Two(t.mi));
  }

  lemma {:induction false} TailIsAscii(t: DateTime)
    requires Accepted(t)
    ensures Ascii(RenderFrac(t.frac)) && Ascii(RenderZone(t.zone))
  {
    if t.frac != [] {
      AsciiJoined([DOT], FracDigits(t.frac));
    }
    if t.zone.Shift? {
      var sign, hh, mm := [if t.zone.negative then DASH else PLUS], Two(t.zone.hh), Two(t.zone.mm);
      assert Ascii(hh) && Ascii(mm);
      AsciiJoined(sign, hh);
      AsciiJoined(sign + hh, [COLON]);
      AsciiJoined(sign + hh + [COLON], mm);
    }
  }

  lemma {:induction false} RenderIsUtf8(t: DateTime)
    requires Accepted(t)
    ensures Utf8(Render(t))
  {
    DateTimeIsAscii(t);
    TailIsAscii(t);
    var head, frac, zone := RenderDateTime(t), RenderFrac(t.frac), RenderZone(t.zone);
    AsciiJoined(head, frac);
    AsciiJoined(head + frac, zone);
    AsciiIsUtf8(Render(t));
  }

  lemma {:induction false} AsciiJoined(a: seq<Byte>, b: seq<Byte>)
    requires Ascii(a) && Ascii(b)
    ensures Ascii(a + b)
  {
  }

  // The front of a timestamp: the six numbers and the marks between them.
  predicate Front(s: seq<Byte>, t: DateTime)
    requires Accepted(t)
  {
    && |s| >= 19 && s[0..4] == Four(t.y) && s[4] == DASH && s[5..7] == Two(t.mo) && s[7] == DASH && s[8..10] == Two(t.d)
    && s[10] == (if t.lowerT then LOWER_T else UPPER_T)
    && s[11..13] == Two(t.h) && s[13] == COLON && s[14..16] == Two(t.mi) && s[16] == COLON && s[17..19] == Two(t.sec)
  }

  lemma RenderedFront(t: DateTime)
    requires Accepted(t)
    ensures |RenderDateTime(t)| == 19 && Front(RenderDateTime(t), t)
  {
    var h := RenderDateTime(t);
    assert h[0..2] == Two(t.y / 100) && h[2..4] == Two(t.y % 100);
    assert h[0..4] == h[0..2] + h[2..4];
  }

  lemma FrontOfLonger(s: seq<Byte>, head: seq<Byte>, t: DateTime)
    requires Accepted(t) && |head| == 19 && |s| >= 19 && Front(head, t)
    requires forall i :: 0 <= i < 19 ==> s[i] == head[i]
    ensures Front(s, t)
  {
    assert s[0..4] == head[0..4] && s[5..7] == head[5..7] && s[8..10] == head[8..10];
    assert s[11..13] == head[11..13] && s[14..16] == head[14..16] && s[17..19] == head[17..19];
  }

  lemma FrontJoined(s: seq<Byte>, t: DateTime)
    requires Accepted(t) && Front(s, t)
    ensures s[..19] == RenderDateTime(t)
  {
    assert s[..19] == s[0..4] + [s[4]] + s[5..7] + [s[7]] + s[8..10] + [s[10]] + s[11..13] + [s[13]] + s[14..16]
                      + [s[16]] + s[17..19];
  }

  lemma ReadsFront(s: seq<Byte>, t: DateTime)
    requires Accepted(t) && Front(s, t) && |s| > 19 && !Continues(s[19])
    ensures Digits(s, 0, 4) == Some(t.y) && Digits(s, 5, 7) == Some(t.mo) && Digits(s, 8, 10) == Some(t.d)
    ensures Digits(s, 11, 13) == Some(t.h) && Digits(s, 14, 16) == Some(t.mi) && Digits(s, 17, 19) == Some(t.sec)
  {
    ReadsFour(s, t.y);
    ReadsTwo(s, 5, t.mo);
    ReadsTwo(s, 8, t.d);
    ReadsTwo(s, 11, t.h);
    ReadsTwo(s, 14, t.mi);
    ReadsTwo(s, 17, t.sec);
  }

  // A string of the three parts in a row.
  ghost predicate Written(s: seq<Byte>, t: DateTime)
    requires Accepted(t)
  {
    Front(s, t) && FractionThen(s[19..], t.frac, RenderZone(t.zone))
  }

  lemma RenderIsWritten(t: DateTime)
    requires Accepted(t)
    ensures Written(Render(t), t)
  {
    var head, tail := RenderDateTime(t), RenderFrac(t.frac) + RenderZone(t.zone);
    RenderedFront(t);
    RenderedFraction(t.frac, RenderZone(t.zone));
    assert Render(t) == head + tail;
    Joins(head, tail);
    FrontOfLonger(Render(t), head, t);
  }

  lemma WrittenIsRender(s: seq<Byte>, t: DateTime)
    requires Accepted(t) && Written(s, t)
    ensures s == Render(t)
  {
    FrontJoined(s, t);
    FractionJoined(s[19..], t.frac, RenderZone(t.zone));
    assert s == s[..19] + s[19..];
    assert s == RenderDateTime(t) + (RenderFrac(t.frac) + RenderZone(t.zone));
  }

  lemma ReadsWritten(s: seq<Byte>, t: DateTime)
    requires Accepted(t) && Written(s, t) && Utf8(s)
    ensures Parse(s) == Some(Denotes(t))
  {
    Utf8EndsChars(s);
    SuffixEndsChars(s, 19);
    ReadsTail(s[19..], t);
    assert s[19] == s[19..][0];
    ReadsFront(s, t);
    FormulaCountsDays(t.y, t.mo, t.d);
  }

  lemma ReadsTail(tail: seq<Byte>, t: DateTime)
    requires Accepted(t) && AsciiEndsChars(tail) && FractionThen(tail, t.frac, RenderZone(t.zone))
    ensures tail != [] && !Continues(tail[0])
    ensures ScanFraction(tail) == Some((Units(t.frac, 9), RenderZone(t.zone)))
    ensures ScanZone(RenderZone(t.zone)) == Some(OffsetSeconds(t.zone))
  {
    ScansFraction(t.frac, RenderZone(t.zone), tail);
    ScansZone(t.zone);
  }

  /******* What is written, as text *******/

  lemma SpelledJoined(a: seq<Byte>, x: string, b: seq<Byte>, y: string)
    requires Spells(a, x) && Spells(b, y)
    ensures Spells(a + b, x + y)
  {
  }

  lemma TwoIsText(n: nat)
    requires n < 100
    ensures Spells(Two(n), TwoText(n))
  {
    DigitIsText(n / 10);
    DigitIsText(n % 10);
  }

  lemma DigitIsText(n: nat)
    requires n < 10
    ensures Spells([Digit(n)], DigitText(n))
  {
  }

  lemma FourIsText(n: nat)
    requires n < 10_000
    ensures Spells(Four(n), FourText(n))
  {
    TwoIsText(n / 100);
    TwoIsText(n % 100);
    SpelledJoined(Two(n / 100), TwoText(n / 100), Two(n % 100), TwoText(n % 100));
  }

  lemma {:induction false} DigitsAreText(digits: seq<nat>)
    requires forall i :: 0 <= i < |digits| ==> digits[i] < 10
    ensures Spells(FracDigits(digits), DigitsText(digits))
  {
    if digits == [] {
    } else {
      DigitIsText(digits[0]);
      DigitsAreText(digits[1..]);
      SpelledJoined([Digit(digits[0])], DigitText(digits[0]), FracDigits(digits[1..]), DigitsText(digits[1..]));
    }
  }

  lemma ZoneIsText(z: Zone)
    requires ZoneFits(z)
    ensures Spells(RenderZone(z), ZoneText(z))
  {
    if z.Shift? {
      var sign, signText := [if z.negative then DASH else PLUS], if z.negative then "-" else "+";
      TwoIsText(z.hh);
      TwoIsText(z.mm);
      SpelledJoined(sign, signText, Two(z.hh), TwoText(z.hh));
      SpelledJoined(sign + Two(z.hh), signText + TwoText(z.hh), [COLON], ":");
      SpelledJoined(sign + Two(z.hh) + [COLON], signText + TwoText(z.hh) + ":", Two(z.mm), TwoText(z.mm));
    }
  }

  lemma DateIsText(t: DateTime)
    requires Accepted(t)
    ensures Spells(Four(t.y) + [DASH] + Two(t.mo) + [DASH] + Two(t.d),
                   FourText(t.y) + "-" + TwoText(t.mo) + "-" + TwoText(t.d))
  {
    FourIsText(t.y);
    TwoIsText(t.mo);
    TwoIsText(t.d);
    var s, x := Four(t.y), FourText(t.y);
    SpelledJoined(s, x, [DASH], "-");
    SpelledJoined(s + [DASH], x + "-", Two(t.mo), TwoText(t.mo));
    s, x := s + [DASH] + Two(t.mo), x + "-" + TwoText(t.mo);
    SpelledJoined(s, x, [DASH], "-");
    SpelledJoined(s + [DASH], x + "-", Two(t.d), TwoText(t.d));
  }

  lemma DateTimeIsText(t: DateTime)
    requires Accepted(t)
    ensures Spells(RenderDateTime(t), DateTimeText(t))
  {
    DateIsText(t);
    TwoIsText(t.h);
    TwoIsText(t.mi);
    TwoIsText(t.sec);
    var s := Four(t.y) + [DASH] + Two(t.mo) + [DASH] + Two(t.d);
    var x := FourText(t.y) + "-" + TwoText(t.mo) + "-" + TwoText(t.d);
    var tee, teeText := [if t.lowerT then LOWER_T else UPPER_T], if t.lowerT then "t" else "T";
    SpelledJoined(s, x, tee, teeText);
    SpelledJoined(s + tee, x + teeText, Two(t.h), TwoText(t.h));
    s, x := s + tee + Two(t.h), x + teeText + TwoText(t.h);
    SpelledJoined(s, x, [COLON], ":");
    SpelledJoined(s + [COLON], x + ":", Two(t.mi), TwoText(t.mi));
    s, x := s + [COLON] + Two(t.mi), x + ":" + TwoText(t.mi);
    SpelledJoined(s, x, [COLON], ":");
    SpelledJoined(s + [COLON], x + ":", Two(t.sec), TwoText(t.sec));
  }

  lemma FractionIsText(frac: seq<nat>)
    requires forall i :: 0 <= i < |frac| ==> frac[i] < 10
    ensures Spells(RenderFrac(frac), if frac == [] then "" else "." + DigitsText(frac))
  {
    DigitsAreText(frac);
    SpelledJoined([DOT], ".", FracDigits(frac), DigitsText(frac));
  }

  // The bytes the grammar writes are those of the date-time's text, and no others are.
  lemma RenderIsText(s: seq<Byte>, t: DateTime)
    requires Accepted(t)
    ensures Spells(s, Text(t)) <==> s == Render(t)
  {
    DateTimeIsText(t);
    FractionIsText(t.frac);
    ZoneIsText(t.zone);
    var frac := if t.frac == [] then "" else "." + DigitsText(t.frac);
    SpelledJoined(RenderDateTime(t), DateTimeText(t), RenderFrac(t.frac), frac);
    SpelledJoined(RenderDateTime(t) + RenderFrac(t.frac), DateTimeText(t) + frac, RenderZone(t.zone), ZoneText(t.zone));
    OneSpelling(s, Render(t), Text(t));
  }

  lemma OneSpelling(s: seq<Byte>, s': seq<Byte>, text: string)
    requires Spells(s', text)
    ensures Spells(s, text) <==> s == s'
  {
  }

  // The scanner reads back whatever the grammar writes, as the instant it denotes.
  lemma ReadsWhatIsWritten(t: DateTime)
    requires Accepted(t)
    ensures Spells(Render(t), Text(t)) && Utf8(Render(t)) && Parse(Render(t)) == Some(Denotes(t))
  {
    RenderIsText(Render(t), t);
    RenderIsUtf8(t);
    RenderIsWritten(t);
    ReadsWritten(Render(t), t);
  }

  // The front of a string the scanner accepts, as the fields of a date-time.
  lemma FrontScanned(s: seq<Byte>) returns (t: DateTime)
    requires Utf8(s) && Parse(s).Some?
    ensures t.frac == [] && t.zone == Utc(true) && Accepted(t) && Front(s, t)
  {
    FourOfNumber(s[0..4]);
    TwoOfNumber(s[5..7]);
    TwoOfNumber(s[8..10]);
    TwoOfNumber(s[11..13]);
    TwoOfNumber(s[14..16]);
    TwoOfNumber(s[17..19]);
    t := DateTime(Number(s[0..4]), Number(s[5..7]), Number(s[8..10]), s[10] == LOWER_T,
                  Number(s[11..13]), Number(s[14..16]), Number(s[17..19]), [], Utc(true));
  }

  lemma TailScanned(s: seq<Byte>) returns (frac: seq<nat>, zone: Zone)
    requires Utf8(s) && Parse(s).Some?
    ensures (forall i :: 0 <= i < |frac| ==> frac[i] < 10) && ZoneFits(zone)
    ensures |s| >= 19 && FractionThen(s[19..], frac, RenderZone(zone))
  {
    Utf8EndsChars(s);
    SuffixEndsChars(s, 19);
    var z;
    frac, z := FractionScanned(s[19..]);
    zone := ZoneScanned(z);
  }

  // And it reads nothing else: a string it accepts is one the grammar writes, up to the three points
  // in which `Accepted` is wider.
  lemma ReadsNothingElse(s: seq<Byte>) returns (t: DateTime)
    requires Utf8(s) && Parse(s).Some?
    ensures Accepted(t) && s == Render(t) && Spells(s, Text(t)) && Parse(s) == Some(Denotes(t))
  {
    var front := FrontScanned(s);
    var frac, zone := TailScanned(s);
    t := front.(frac := frac, zone := zone);
    ReadsWritten(s, t);
    WrittenIsRender(s, t);
    RenderIsText(s, t);
  }

  /******* Exactly what is accepted *******/

  lemma TwoIsUnique(m: nat, n: nat)
    requires m < 100 && n < 100 && Two(m) == Two(n)
    ensures m == n
  {
    NumberOfTwo(m);
    NumberOfTwo(n);
  }

  lemma FrontIsUnique(s: seq<Byte>, t: DateTime, t': DateTime)
    requires Accepted(t) && Accepted(t') && Front(s, t) && Front(s, t')
    ensures t' == t.(frac := t'.frac, zone := t'.zone)
  {
    NumberOfFour(t.y);
    NumberOfFour(t'.y);
    TwoIsUnique(t.mo, t'.mo);
    TwoIsUnique(t.d, t'.d);
    TwoIsUnique(t.h, t'.h);
    TwoIsUnique(t.mi, t'.mi);
    TwoIsUnique(t.sec, t'.sec);
  }

  lemma FractionIsUnique(rest: seq<Byte>, frac: seq<nat>, z: seq<Byte>, frac': seq<nat>, z': seq<Byte>)
    requires forall i :: 0 <= i < |frac| ==> frac[i] < 10
    requires forall i :: 0 <= i < |frac'| ==> frac'[i] < 10
    requires z != [] && !IsDigit(z[0]) && z[0] != DOT && z' != [] && !IsDigit(z'[0]) && z'[0] != DOT
    requires FractionThen(rest, frac, z) && FractionThen(rest, frac', z')
    ensures frac == frac' && z == z'
  {
    if frac != [] {
      var digits := rest[1..];
      assert digits[|frac|] == z[0] && digits[|frac'|] == z'[0];
      RunOfDigits(digits, |frac|);
      RunOfDigits(digits, |frac'|);
      assert forall i :: 0 <= i < |frac| ==> FracDigits(frac)[i] == FracDigits(frac')[i];
    }
  }

  lemma ZoneIsUnique(z: Zone, z': Zone)
    requires ZoneFits(z) && ZoneFits(z') && RenderZone(z) == RenderZone(z')
    ensures z == z'
  {
    var s := RenderZone(z);
    if z.Shift? && z'.Shift? {
      assert s[0] == (if z.negative then DASH else PLUS) && s[0] == (if z'.negative then DASH else PLUS);
      assert s[1..3] == Two(z.hh) == Two(z'.hh) && s[4..6] == Two(z.mm) == Two(z'.mm);
      TwoIsUnique(z.hh, z'.hh);
      TwoIsUnique(z.mm, z'.mm);
    }
  }

  lemma WrittenIsUnique(s: seq<Byte>, t: DateTime, t': DateTime)
    requires Accepted(t) && Accepted(t') && Written(s, t) && Written(s, t')
    ensures t == t'
  {
    FrontIsUnique(s, t, t');
    ZoneStarts(t.zone);
    ZoneStarts(t'.zone);
    FractionIsUnique(s[19..], t.frac, RenderZone(t.zone), t'.frac, RenderZone(t'.zone));
    ZoneIsUnique(t.zone, t'.zone);
  }

  lemma ZoneStarts(z: Zone)
    requires ZoneFits(z)
    ensures var s := RenderZone(z); s != [] && !IsDigit(s[0]) && s[0] != DOT
  {
  }

  // No string spells two date-times.
  lemma SpellingsAreUnique(t: DateTime, t': DateTime)
    requires Accepted(t) && Accepted(t') && Render(t) == Render(t')
    ensures t == t'
  {
    RenderIsWritten(t);
    RenderIsWritten(t');
    WrittenIsUnique(Render(t), t, t');
  }

  lemma AcceptsRendered(s: seq<Byte>)
    requires Utf8(s)
    ensures Parse(s).Some? <==> exists t :: Accepted(t) && s == Render(t)
  {
    if Parse(s).Some? {
      var t := ReadsNothingElse(s);
    }
    if t :| Accepted(t) && s == Render(t) {
      ReadsWhatIsWritten(t);
    }
  }

  // The scanner accepts exactly the texts of the date-times of `Accepted`.
  lemma AcceptsExactly(s: seq<Byte>)
    requires Utf8(s)
    ensures Parse(s).Some? <==> exists t :: Accepted(t) && Spells(s, Text(t))
  {
    AcceptsRendered(s);
    forall t | Accepted(t) ensures Spells(s, Text(t)) <==> s == Render(t) {
      RenderIsText(s, t);
    }
  }

  // The three points in which that is wider than RFC 3339, leap seconds left aside.
  predicate Beyond(t: DateTime)
    requires Accepted(t)
  {
    t.d > MonthLength(t.y, t.mo) || t.sec == 60 || (t.zone.Shift? && (t.zone.hh > 23 || t.zone.mm > 59))
  }

  ghost predicate InGrammar(s: seq<Byte>) {
    exists t :: Grammatical(t) && s == Render(t)
  }

  // An accepted string is outside the grammar exactly when it spells a day past the end of its month,
  // a second 60, or an offset past 23:59.
  lemma AcceptedBeyondTheGrammarIff(s: seq<Byte>)
    requires Utf8(s)
    ensures Parse(s).Some? && !InGrammar(s) <==> exists t :: Accepted(t) && Beyond(t) && s == Render(t)
  {
    AcceptsRendered(s);
    forall t, t' | Accepted(t) && Accepted(t') && s == Render(t) && s == Render(t') ensures t == t' {
      SpellingsAreUnique(t, t');
    }
    if t :| Accepted(t) && s == Render(t) {
      assert !Beyond(t) ==> Grammatical(t);
    }
  }

  // A day past the end of its month is read as the day it rolls over to.
  lemma LateDaysRollOver(t: DateTime)
    requires Accepted(t) && t.d > MonthLength(t.y, t.mo)
    ensures Utf8(Render(t)) && !InGrammar(Render(t))
    ensures var r := Rolled(t.y, t.mo, t.d); Parse(Render(t)) == Some(Denotes(t.(y := r.y, mo := r.m, d := r.d)))
  {
    ReadsWhatIsWritten(t);
    AcceptedBeyondTheGrammarIff(Render(t));
    ExcessDaysRollOver(t.y, t.mo, t.d);
    FormulaCountsDays(t.y, t.mo, t.d);
  }

  const FEBRUARY_30: DateTime := DateTime(2026, 2, 30, false, 0, 0, 0, [], Utc(false))
  const MARCH_2: DateTime := DateTime(2026, 3, 2, false, 0, 0, 0, [], Utc(false))

  // For one, 2026-02-30T00:00:00Z, which RFC 3339 does not allow, is read as the 2nd of March.
  lemma AFebruary30IsRead()
    ensures Accepted(FEBRUARY_30) && Utf8(Render(FEBRUARY_30)) && !InGrammar(Render(FEBRUARY_30))
    ensures Grammatical(MARCH_2) && Parse(Render(FEBRUARY_30)) == Some(Denotes(MARCH_2))
  {
    LateDaysRollOver(FEBRUARY_30);
    assert Rolled(2026, 2, 30) == Date(2026, 3, 2);
  }

  const EXAMPLE: DateTime := DateTime(2026, 10, 21, false, 9, 0, 0, [], Utc(false))

  lemma ExampleNumbers()
    ensures FourText(2026) == "2026" && TwoText(10) == "10" && TwoText(21) == "21"
    ensures TwoText(9) == "09" && TwoText(0) == "00"
  {
  }

  lemma ExampleText()
    ensures Accepted(EXAMPLE) && Text(EXAMPLE) == "2026-10-21T09:00:00Z"
  {
    ExampleNumbers();
    assert DateTimeText(EXAMPLE) == "2026-10-21T09:00:00";
  }

  lemma ExampleDay()
    ensures DayCount(Date(2026, 10, 21)) == 20_747
  {
    FormulaCountsDays(2026, 10, 21);
  }

  lemma ExampleDenotes()
    ensures Denotes(EXAMPLE) == 1_792_573_200 * SECOND
  {
    ExampleDay();
    NoUnits(9);
    assert Denotes(EXAMPLE) == InstantOf(20_747, 9, 0, 0, 0, 0);
  }

  lemma TextIsRead(s: seq<Byte>, text: string, t: DateTime)
    requires Accepted(t) && Spells(s, text) && text == Text(t)
    ensures Utf8(s) && Parse(s) == Some(Denotes(t))
  {
    RenderIsText(s, t);
    ReadsWhatIsWritten(t);
  }

  // The timestamp in the documentation is read as its Unix time.
  lemma TheExampleIsRead(s: seq<Byte>)
    requires Spells(s, "2026-10-21T09:00:00Z")
    ensures Utf8(s) && Parse(s) == Some(1_792_573_200 * SECOND)
  {
    ExampleText();
    TextIsRead(s, "2026-10-21T09:00:00Z", EXAMPLE);
    ExampleDenotes();
  }

  /******* What an offset does *******/

  lemma UpperZEnds(front: seq<Byte>, t: DateTime)
    requires Accepted(t) && front + [UPPER_Z] == Render(t)
    ensures t.zone == Utc(false) && front == RenderDateTime(t) + RenderFrac(t.frac)
  {
    var s, zone := Render(t), RenderZone(t.zone);
    assert s[|s| - 1] == UPPER_Z && s[|s| - 1] == zone[|zone| - 1];
    Joins(front, [UPPER_Z]);
    Joins(RenderDateTime(t) + RenderFrac(t.frac), zone);
  }

  lemma OffsetDenotes(t: DateTime, negative: bool, hh: nat, mm: nat)
    requires Accepted(t) && t.zone == Utc(false) && hh < 100 && mm < 100
    ensures var seconds := hh * 3600 + mm * 60;
            Denotes(t.(zone := Shift(negative, hh, mm)))
            == if negative then Denotes(t) + seconds * SECOND else Denotes(t) - seconds * SECOND
  {
  }

  lemma ZuluScanned(front: seq<Byte>, zulu: seq<Byte>) returns (t: DateTime)
    requires Spells(zulu, "Z") && Utf8(front + zulu) && Parse(front + zulu).Some?
    ensures Accepted(t) && t.zone == Utc(false) && front == RenderDateTime(t) + RenderFrac(t.frac)
    ensures Parse(front + zulu) == Some(Denotes(t))
  {
    assert zulu == [UPPER_Z];
    t := ReadsNothingElse(front + zulu);
    UpperZEnds(front, t);
  }

  lemma OffsetIsRendered(offset: seq<Byte>, zone: Zone, text: string)
    requires ZoneFits(zone) && text == ZoneText(zone) && Spells(offset, text)
    ensures offset == RenderZone(zone)
  {
    ZoneIsText(zone);
    OneSpelling(offset, RenderZone(zone), text);
  }

  lemma OtherZoneIsRead(front: seq<Byte>, t: DateTime, zone: Zone)
    requires Accepted(t) && ZoneFits(zone) && front == RenderDateTime(t) + RenderFrac(t.frac)
    ensures Utf8(front + RenderZone(zone)) && Parse(front + RenderZone(zone)) == Some(Denotes(t.(zone := zone)))
  {
    var t' := t.(zone := zone);
    assert Render(t') == front + RenderZone(zone);
    ReadsWhatIsWritten(t');
  }

  lemma OffsetIsRead(front: seq<Byte>, t: DateTime, offset: seq<Byte>, zone: Zone)
    requires Accepted(t) && ZoneFits(zone) && front == RenderDateTime(t) + RenderFrac(t.frac)
    requires Spells(offset, ZoneText(zone))
    ensures Utf8(front + offset) && Parse(front + offset) == Some(Denotes(t.(zone := zone)))
  {
    OffsetIsRendered(offset, zone, ZoneText(zone));
    OtherZoneIsRead(front, t, zone);
  }

  // Where a timestamp ends in `Z`, an offset ahead of UTC in its place is read as that much earlier, and
  // one behind as that much later.
  lemma OffsetsMoveTheInstant(front: seq<Byte>, zulu: seq<Byte>, offset: seq<Byte>, negative: bool, hh: nat, mm: nat)
    returns (at: Instant, at': Instant)
    requires Spells(zulu, "Z") && Utf8(front + zulu) && Parse(front + zulu).Some? && hh < 100 && mm < 100
    requires Spells(offset, ZoneText(Shift(negative, hh, mm)))
    ensures Parse(front + zulu) == Some(at) && Utf8(front + offset) && Parse(front + offset) == Some(at')
    ensures var seconds := hh * 3600 + mm * 60;
            at' == if negative then at + seconds * SECOND else at - seconds * SECOND
  {
    var t := ZuluScanned(front, zulu);
    at, at' := Denotes(t), Denotes(t.(zone := Shift(negative, hh, mm)));
    OffsetIsRead(front, t, offset, Shift(negative, hh, mm));
    OffsetDenotes(t, negative, hh, mm);
  }

  /******* Printing an instant *******/

  function DigitsOf(n: nat, k: nat): (v: seq<nat>)
    ensures |v| == k && forall i :: 0 <= i < k ==> v[i] < 10
  {
    if k == 0 then [] else DigitsOf(n / 10, k - 1) + [n % 10]
  }

  lemma {:induction false} PrefixUnits(v: seq<nat>, w: seq<nat>, k: nat)
    requires k <= |v|
    ensures Units(v + w, k) == Units(v, k)
  {
    if k == 0 {
    } else {
      PrefixUnits(v, w, k - 1);
    }
  }

  lemma {:induction false} UnitsOfDigits(n: nat, k: nat)
    requires n < Pow10(k)
    ensures Units(DigitsOf(n, k), k) == n
  {
    if k == 0 {
    } else {
      UnitsOfDigits(n / 10, k - 1);
      PrefixUnits(DigitsOf(n / 10, k - 1), [n % 10], k - 1);
    }
  }

  function ClockTime(secs: nat, date: Date, frac: seq<nat>, zone: Zone): DateTime
    requires 0 <= date.y && Valid(date)
  {
    DateTime(date.y, date.m, date.d, false, secs / 3600, secs / 60 % 60, secs % 60, frac, zone)
  }

  // An instant's reading on the clocks of a zone, and its day, second of the day and nanosecond.
  function Local(at: Instant, zone: Zone): Instant {
    at + OffsetSeconds(zone) * SECOND
  }

  function DayOf(local: Instant): int {
    local / DAY
  }

  function SecondOfDay(local: Instant): (secs: nat)
    ensures secs < 86_400
  {
    local % DAY / SECOND
  }

  function NanosOf(local: Instant): (nanos: nat)
    ensures nanos < SECOND
  {
    local % DAY % SECOND
  }

  // Whether the instant falls in the years 0000 to 9999 there.
  predicate FourDigitYear(at: Instant, zone: Zone) {
    0 <= DateAt(DayOf(Local(at, zone))).y < 10_000
  }

  // The local date-time of an instant in a zone, to the nanosecond.
  function LocalTime(at: Instant, zone: Zone): DateTime
    requires FourDigitYear(at, zone)
  {
    var local := Local(at, zone);
    ClockTime(SecondOfDay(local), DateAt(DayOf(local)), DigitsOf(NanosOf(local), 9), zone)
  }

  lemma ClockTimeFits(secs: nat, date: Date, frac: seq<nat>, zone: Zone)
    requires secs < 86_400 && Valid(date) && 0 <= date.y < 10_000 && ZoneFits(zone)
    requires forall i :: 0 <= i < |frac| ==> frac[i] < 10
    ensures var t := ClockTime(secs, date, frac, zone);
            && Accepted(t)
            && t.h * 3600 + t.mi * 60 + t.sec == secs
            && ((zone.Shift? ==> zone.hh <= 23 && zone.mm <= 59) ==> Grammatical(t))
  {
  }

  lemma SplitDay(local: Instant)
    ensures (DayOf(local) * 86_400 + SecondOfDay(local)) * SECOND + NanosOf(local) == local
  {
    var day, rest := local / DAY, local % DAY;
    assert local == day * DAY + rest && rest == rest / SECOND * SECOND + rest % SECOND;
  }

  lemma NanosFit(n: nat)
    requires n < SECOND
    ensures Units(DigitsOf(n, 9), 9) == n
  {
    assert Pow10(3) == 1000 && Pow10(6) == 1_000_000 && Pow10(9) == SECOND;
    UnitsOfDigits(n, 9);
  }

  lemma ClockTimeDenotes(day: int, secs: nat, nanos: nat, zone: Zone)
    requires secs < 86_400 && nanos < SECOND && ZoneFits(zone) && 0 <= DateAt(day).y < 10_000
    ensures Denotes(ClockTime(secs, DateAt(day), DigitsOf(nanos, 9), zone))
         == (day * 86_400 + secs - OffsetSeconds(zone)) * SECOND + nanos
  {
    var date, frac := DateAt(day), DigitsOf(nanos, 9);
    var t := ClockTime(secs, date, frac, zone);
    ClockTimeFits(secs, date, frac, zone);
    FormulaInvertsStepping(day);
    FormulaCountsDays(date.y, date.m, date.d);
    NanosFit(nanos);
    assert Denotes(t) == InstantOf(day, t.h, t.mi, t.sec, OffsetSeconds(zone), nanos);
  }

  lemma LocalTimeDenotes(at: Instant, zone: Zone)
    requires ZoneFits(zone) && FourDigitYear(at, zone)
    ensures Denotes(LocalTime(at, zone)) == at
  {
    var local := Local(at, zone);
    SplitDay(local);
    ClockTimeDenotes(DayOf(local), SecondOfDay(local), NanosOf(local), zone);
  }

  // Printing any instant of the years 0000 to 9999, in any offset of two-digit hours and minutes, and
  // parsing it returns the instant; and what is printed is in the grammar when the offset is.
  lemma PrintThenParse(at: Instant, zone: Zone)
    requires ZoneFits(zone) && FourDigitYear(at, zone)
    ensures Accepted(LocalTime(at, zone))
    ensures Utf8(Render(LocalTime(at, zone))) && Parse(Render(LocalTime(at, zone))) == Some(at)
    ensures (zone.Shift? ==> zone.hh <= 23 && zone.mm <= 59) ==> Grammatical(LocalTime(at, zone))
  {
    var local := Local(at, zone);
    ClockTimeFits(SecondOfDay(local), DateAt(DayOf(local)), DigitsOf(NanosOf(local), 9), zone);
    LocalTimeDenotes(at, zone);
    ReadsWhatIsWritten(LocalTime(at, zone));
  }
}
