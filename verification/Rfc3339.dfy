/** The timestamp scanner of src/http.rs, on the bytes of a string, and the date-time grammar of
    section 5.6 of RFC 3339 it is measured against. */
module Rfc3339 {
  import opened Wrappers
  import opened Time
  import opened Calendar

  const ZERO: Byte := '0' as int
  const DASH: Byte := '-' as int
  const COLON: Byte := ':' as int
  const DOT: Byte := '.' as int
  const PLUS: Byte := '+' as int
  const UPPER_T: Byte := 'T' as int
  const LOWER_T: Byte := 't' as int
  const UPPER_Z: Byte := 'Z' as int
  const LOWER_Z: Byte := 'z' as int

  /******* Strings as bytes *******/

  predicate Continues(b: Byte) {
    0x80 <= b < 0xC0
  }

  // UTF-8, without the rules against overlong forms and surrogates.
  predicate Utf8(s: seq<Byte>) {
    if s == [] then true
    else if s[0] < 0x80 then Utf8(s[1..])
    else if 0xC0 <= s[0] < 0xE0 then |s| >= 2 && Continues(s[1]) && Utf8(s[2..])
    else if 0xE0 <= s[0] < 0xF0 then |s| >= 3 && Continues(s[1]) && Continues(s[2]) && Utf8(s[3..])
    else 0xF0 <= s[0] && |s| >= 4 && Continues(s[1]) && Continues(s[2]) && Continues(s[3]) && Utf8(s[4..])
  }

  type CodePoint = c: int | 0 <= c < 0x11_0000

  // The UTF-8 form of one code point (section 3 of RFC 3629).
  function CharBytes(c: CodePoint): seq<Byte> {
    if c < 0x80 then [c]
    else if c < 0x800 then [0xC0 + c / 64, 0x80 + c % 64]
    else if c < 0x1_0000 then [0xE0 + c / 4096, 0x80 + c / 64 % 64, 0x80 + c % 64]
    else [0xF0 + c / 262_144, 0x80 + c / 4096 % 64, 0x80 + c / 64 % 64, 0x80 + c % 64]
  }

  function StringBytes(chars: seq<CodePoint>): seq<Byte> {
    if chars == [] then [] else CharBytes(chars[0]) + StringBytes(chars[1..])
  }

  // Every string is of this form.
  lemma {:induction false} StringsAreUtf8(chars: seq<CodePoint>)
    ensures Utf8(StringBytes(chars))
  {
    if chars == [] {
    } else {
      StringsAreUtf8(chars[1..]);
      CharThenUtf8(chars[0], StringBytes(chars[1..]));
    }
  }

  lemma {:induction false} CharThenUtf8(c: CodePoint, rest: seq<Byte>)
    requires Utf8(rest)
    ensures Utf8(CharBytes(c) + rest)
  {
    var s := CharBytes(c) + rest;
    assert s[|CharBytes(c)|..] == rest;
  }

  predicate IsCharBoundary(s: seq<Byte>, i: nat) {
    i == 0 || i == |s| || (i < |s| && !Continues(s[i]))
  }

  // `&s[i..]`, which panics off a character boundary.
  function From(s: seq<Byte>, i: nat): (r: seq<Byte>)
    requires i <= |s| && IsCharBoundary(s, i)
  {
    s[i..]
  }

  // `&s[..i]`, likewise.
  function UpTo(s: seq<Byte>, i: nat): (r: seq<Byte>)
    requires i <= |s| && IsCharBoundary(s, i)
  {
    s[..i]
  }

  // What the scanner needs of UTF-8: a character ends after every ASCII byte.
  ghost predicate AsciiEndsChars(s: seq<Byte>) {
    forall i {:trigger IsCharBoundary(s, i)} :: 0 < i <= |s| && s[i - 1] < 0x80 ==> IsCharBoundary(s, i)
  }

  lemma {:induction false} Utf8EndsChars(s: seq<Byte>)
    requires Utf8(s)
    ensures AsciiEndsChars(s) && (s != [] ==> !Continues(s[0]))
    decreases |s|
  {
    if s == [] {
    } else {
      var n := if s[0] < 0x80 then 1 else if s[0] < 0xE0 then 2 else if s[0] < 0xF0 then 3 else 4;
      Utf8EndsChars(s[n..]);
      forall i | 0 < i <= |s| && s[i - 1] < 0x80 ensures IsCharBoundary(s, i) {
        if i > n {
          assert s[n..][i - n - 1] == s[i - 1];
          assert IsCharBoundary(s[n..], i - n);
        }
      }
    }
  }

  /******* Digits *******/

  predicate IsDigit(b: Byte) {
    ZERO <= b <= ZERO + 9
  }

  predicate AllDigits(s: seq<Byte>) {
    forall i :: 0 <= i < |s| ==> IsDigit(s[i])
  }

  // `parse` on a string of digits.
  function Number(s: seq<Byte>): nat
    requires AllDigits(s)
  {
    if s == [] then 0 else 10 * Number(s[..|s| - 1]) + (s[|s| - 1] - ZERO)
  }

  // The inner `digits`: `s.get(lo..hi)`, if it is all digits, as a number.
  function Digits(s: seq<Byte>, lo: nat, hi: nat): Option<nat>
    requires lo < hi
  {
    if hi <= |s| && IsCharBoundary(s, lo) && IsCharBoundary(s, hi) && AllDigits(s[lo..hi])
    then Some(Number(s[lo..hi])) else None
  }

  // How many digits `s` begins with.
  function DigitRun(s: seq<Byte>): (n: nat)
    ensures n <= |s| && AllDigits(s[..n]) && (n < |s| ==> !IsDigit(s[n]))
  {
    if s == [] || !IsDigit(s[0]) then 0
    else
      var n := 1 + DigitRun(s[1..]);
      assert s[..n] == [s[0]] + s[1..][..n - 1];
      n
  }

  function Zeros(n: nat): (z: seq<Byte>)
    ensures |z| == n && forall i :: 0 <= i < n ==> z[i] == ZERO
  {
    if n == 0 then [] else Zeros(n - 1) + [ZERO]
  }

  /******* The scanner *******/

  // The optional fraction: its nanoseconds, and what follows it.
  function ScanFraction(rest: seq<Byte>): (r: Option<(nat, seq<Byte>)>)
    requires AsciiEndsChars(rest)
  {
    if rest == [] || rest[0] != DOT then Some((0, rest))
    else
      assert IsCharBoundary(rest, 1);
      var frac := From(rest, 1);
      SuffixEndsChars(rest, 1);
      ScanDigits(frac)
  }

  // What follows the point: a run of digits, of which nine count.
  function ScanDigits(frac: seq<Byte>): (r: Option<(nat, seq<Byte>)>)
    requires AsciiEndsChars(frac)
  {
    var n := DigitRun(frac);
    if n == 0 then None
    else
      RunEndsAtChar(frac, n);
      Some((NineDigits(UpTo(frac, Nine(n))), From(frac, n)))
  }

  // `n.min(9)`
  function Nine(n: nat): nat {
    if n < 9 then n else 9
  }

  // Digits padded with zeros to nine, as a number.
  function NineDigits(kept: seq<Byte>): nat
    requires |kept| <= 9 && AllDigits(kept)
  {
    Number(kept + Zeros(9 - |kept|))
  }

  lemma RunEndsAtChar(frac: seq<Byte>, n: nat)
    requires AsciiEndsChars(frac) && 0 < n <= |frac| && AllDigits(frac[..n])
    ensures IsCharBoundary(frac, n) && IsCharBoundary(frac, Nine(n)) && AllDigits(frac[..Nine(n)])
  {
    assert frac[..n][n - 1] == frac[n - 1];
    if n > 9 {
      assert frac[..n][9] == frac[9];
    }
    assert forall i :: 0 <= i < Nine(n) ==> frac[..Nine(n)][i] == frac[..n][i];
  }

  lemma SuffixEndsChars(s: seq<Byte>, i: nat)
    requires AsciiEndsChars(s) && i <= |s|
    ensures AsciiEndsChars(s[i..])
  {
    forall j | 0 < j <= |s[i..]| && s[i..][j - 1] < 0x80 ensures IsCharBoundary(s[i..], j) {
      assert IsCharBoundary(s, i + j);
    }
  }

  // The zone: its offset from UTC in seconds.
  function ScanZone(rest: seq<Byte>): Option<int> {
    if rest == [UPPER_Z] || rest == [LOWER_Z] then Some(0)
    else if rest == [] then None
    else if rest[0] != PLUS && rest[0] != DASH then None
    else if |rest| != 6 || rest[3] != COLON then None
    else
      var hh, mm := Digits(rest, 1, 3), Digits(rest, 4, 6);
      if hh.None? || mm.None? then None
      else Some((if rest[0] == PLUS then 1 else -1) * (hh.value * 3600 + mm.value * 60))
  }

  function Parse(s: seq<Byte>): (r: Option<Instant>)
    requires Utf8(s)
  {
    if |s| < 20 || s[4] != DASH || s[7] != DASH || !(s[10] == UPPER_T || s[10] == LOWER_T)
       || s[13] != COLON || s[16] != COLON
    then None
    else
      var (y, mo, d) := (Digits(s, 0, 4), Digits(s, 5, 7), Digits(s, 8, 10));
      var (h, mi, sec) := (Digits(s, 11, 13), Digits(s, 14, 16), Digits(s, 17, 19));
      if y.None? || mo.None? || d.None? || h.None? || mi.None? || sec.None? then None
      else if !(1 <= mo.value <= 12) || !(1 <= d.value <= 31) || h.value > 23 || mi.value > 59 || sec.value > 60
      then None
      else
        Utf8EndsChars(s);
        SuffixEndsChars(s, 19);
        var fraction := ScanFraction(From(s, 19));
        if fraction.None? then None
        else
          var offset := ScanZone(fraction.value.1);
          if offset.None? then None
          else
            var days := DaysFromCivil(y.value, mo.value, d.value);
            Some(InstantOf(days, h.value, mi.value, sec.value, offset.value, fraction.value.0))
  }

  function InstantOf(days: int, h: nat, mi: nat, sec: nat, offset: int, nanos: nat): Instant {
    UnixToInstant(days * 86_400 + h * 3600 + mi * 60 + sec - offset) + nanos
  }

  /******* The grammar *******/

  datatype Zone = Utc(lower: bool) | Shift(negative: bool, hh: nat, mm: nat)

  // The parts of a date-time; `frac` holds the digits after the point, none for no fraction.
  datatype DateTime = DateTime(
    y: nat, mo: nat, d: nat, lowerT: bool, h: nat, mi: nat, sec: nat, frac: seq<nat>, zone: Zone)

  function Digit(n: nat): Byte
    requires n < 10
  {
    ZERO + n
  }

  function Two(n: nat): (s: seq<Byte>)
    requires n < 100
  {
    [Digit(n / 10), Digit(n % 10)]
  }

  function Four(n: nat): seq<Byte>
    requires n < 10_000
  {
    Two(n / 100) + Two(n % 100)
  }

  function FracDigits(frac: seq<nat>): (s: seq<Byte>)
    requires forall i :: 0 <= i < |frac| ==> frac[i] < 10
    ensures |s| == |frac| && forall i :: 0 <= i < |s| ==> s[i] == Digit(frac[i])
  {
    if frac == [] then [] else [Digit(frac[0])] + FracDigits(frac[1..])
  }

  predicate ZoneFits(z: Zone) {
    z.Shift? ==> z.hh < 100 && z.mm < 100
  }

  // What the scanner lets through: the grammar of RFC 3339 with 31 days in every month, seconds up to
  // 60 at any time and offsets of any two digits.
  predicate Accepted(t: DateTime) {
    && t.y < 10_000 && 1 <= t.mo <= 12 && 1 <= t.d <= 31 && t.h <= 23 && t.mi <= 59 && t.sec <= 60
    && (forall i :: 0 <= i < |t.frac| ==> t.frac[i] < 10)
    && ZoneFits(t.zone)
  }

  // The grammar itself, with the restrictions of section 5.7 and without leap seconds.
  predicate Grammatical(t: DateTime) {
    && Accepted(t) && t.sec <= 59 && t.d <= MonthLength(t.y, t.mo)
    && (t.zone.Shift? ==> t.zone.hh <= 23 && t.zone.mm <= 59)
  }

  function RenderZone(z: Zone): seq<Byte>
    requires ZoneFits(z)
  {
    match z
    case Utc(lower) => [if lower then LOWER_Z else UPPER_Z]
    case Shift(negative, hh, mm) => [if negative then DASH else PLUS] + Two(hh) + [COLON] + Two(mm)
  }

  function RenderFrac(frac: seq<nat>): seq<Byte>
    requires forall i :: 0 <= i < |frac| ==> frac[i] < 10
  {
    if frac == [] then [] else [DOT] + FracDigits(frac)
  }

  function RenderDateTime(t: DateTime): seq<Byte>
    requires Accepted(t)
  {
    Four(t.y) + [DASH] + Two(t.mo) + [DASH] + Two(t.d) + [if t.lowerT then LOWER_T else UPPER_T]
    + Two(t.h) + [COLON] + Two(t.mi) + [COLON] + Two(t.sec)
  }

  function Render(t: DateTime): seq<Byte>
    requires Accepted(t)
  {
    RenderDateTime(t) + RenderFrac(t.frac) + RenderZone(t.zone)
  }

  /******* The same as text *******/

  // `s` is `text`, whose characters are all ASCII, in UTF-8.
  predicate Spells(s: seq<Byte>, text: string) {
    |s| == |text| && forall i :: 0 <= i < |s| ==> s[i] == text[i] as int
  }

  function DigitText(n: nat): string
    requires n < 10
  {
    ["0123456789"[n]]
  }

  function TwoText(n: nat): string
    requires n < 100
  {
    DigitText(n / 10) + DigitText(n % 10)
  }

  function FourText(n: nat): string
    requires n < 10_000
  {
    TwoText(n / 100) + TwoText(n % 100)
  }

  function DigitsText(digits: seq<nat>): string
    requires forall i :: 0 <= i < |digits| ==> digits[i] < 10
  {
    if digits == [] then "" else DigitText(digits[0]) + DigitsText(digits[1..])
  }

  function ZoneText(z: Zone): string
    requires ZoneFits(z)
  {
    match z
    case Utc(lower) => if lower then "z" else "Z"
    case Shift(negative, hh, mm) => (if negative then "-" else "+") + TwoText(hh) + ":" + TwoText(mm)
  }

  function DateTimeText(t: DateTime): string
    requires Accepted(t)
  {
    FourText(t.y) + "-" + TwoText(t.mo) + "-" + TwoText(t.d) + (if t.lowerT then "t" else "T")
    + TwoText(t.h) + ":" + TwoText(t.mi) + ":" + TwoText(t.sec)
  }

  // For example 2026-10-21T09:00:00Z.
  function Text(t: DateTime): string
    requires Accepted(t)
  {
    DateTimeText(t) + (if t.frac == [] then "" else "." + DigitsText(t.frac)) + ZoneText(t.zone)
  }

  /******* What a date-time denotes *******/

  // The first `k` digits of a fraction, as a whole number of units of 10^-k.
  function Units(frac: seq<nat>, k: nat): nat {
    if k == 0 then 0 else 10 * Units(frac, k - 1) + if k <= |frac| then frac[k - 1] else 0
  }

  function OffsetSeconds(z: Zone): int {
    match z
    case Utc(_) => 0
    case Shift(negative, hh, mm) => (if negative then -1 else 1) * (hh * 3600 + mm * 60)
  }

  // The instant, with the days counted on the calendar.
  function Denotes(t: DateTime): Instant
    requires 1 <= t.mo <= 12
  {
    InstantOf(DayCount(Date(t.y, t.mo, t.d)), t.h, t.mi, t.sec, OffsetSeconds(t.zone), Units(t.frac, 9))
  }
}
