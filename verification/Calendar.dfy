/** The proleptic Gregorian calendar, day by day, and the closed formula src/http.rs uses for it. */
module Calendar {

  predicate Leap(y: int) {
    y % 4 == 0 && (y % 100 != 0 || y % 400 == 0)
  }

  function YearLength(y: int): int {
    if Leap(y) then 366 else 365
  }

  function MonthLength(y: int, m: int): int
    requires 1 <= m <= 12
  {
    if m == 2 then (if Leap(y) then 29 else 28)
    else if m == 4 || m == 6 || m == 9 || m == 11 then 30
    else 31
  }

  datatype Date = Date(y: int, m: int, d: int)

  predicate Valid(date: Date) {
    1 <= date.m <= 12 && 1 <= date.d <= MonthLength(date.y, date.m)
  }

  const EPOCH := Date(1970, 1, 1)

  function NextDay(date: Date): Date
    requires Valid(date)
  {
    if date.d < MonthLength(date.y, date.m) then date.(d := date.d + 1)
    else if date.m < 12 then Date(date.y, date.m + 1, 1)
    else Date(date.y + 1, 1, 1)
  }

  function PreviousDay(date: Date): Date
    requires Valid(date)
  {
    if date.d > 1 then date.(d := date.d - 1)
    else if date.m > 1 then Date(date.y, date.m - 1, MonthLength(date.y, date.m - 1))
    else Date(date.y - 1, 12, 31)
  }

  // The date `n` days after 1 January 1970, counted one day at a time.
  function DateAt(n: int): (date: Date)
    ensures Valid(date)
    decreases if n < 0 then -n else n
  {
    if n == 0 then EPOCH
    else if n > 0 then NextDay(DateAt(n - 1))
    else PreviousDay(DateAt(n + 1))
  }

  /******* Counting *******/

  // Days from 1 January 1970 to 1 January of `y`, year by year.
  function DaysToYear(y: int): int
    decreases if y < 1970 then 1970 - y else y - 1970
  {
    if y == 1970 then 0
    else if y > 1970 then DaysToYear(y - 1) + YearLength(y - 1)
    else DaysToYear(y + 1) - YearLength(y)
  }

  // Days of `y` before the first of month `m`, month by month.
  function DaysToMonth(y: int, m: int): int
    requires 1 <= m <= 12
    decreases m
  {
    if m == 1 then 0 else DaysToMonth(y, m - 1) + MonthLength(y, m - 1)
  }

  function DayCount(date: Date): int
    requires 1 <= date.m <= 12
  {
    DaysToYear(date.y) + DaysToMonth(date.y, date.m) + date.d - 1
  }

  /******* The formula *******/

  // `div_euclid` is Dafny's `/`.
  function DaysFromCivil(year: int, mo: int, d: int): int
    requires 1 <= mo <= 12
  {
    var y := if mo <= 2 then year - 1 else year;
    var era := y / 400;
    var yoe := y - era * 400;
    var doy := (153 * ((mo + 9) % 12) + 2) / 5 + d - 1;
    era * 146_097 + yoe * 365 + yoe / 4 - yoe / 100 + doy - 719_468
  }

  // The days of all years up to `y`, up to a constant.
  function YearSum(y: int): int {
    365 * y + y / 4 - y / 100 + y / 400
  }

  lemma EraSplits(y: int)
    ensures var era := y / 400; var yoe := y - era * 400;
            era * 146_097 + yoe * 365 + yoe / 4 - yoe / 100 == YearSum(y)
  {
    var era := y / 400;
    var yoe := y - era * 400;
    assert y / 4 == 100 * era + yoe / 4;
    assert y / 100 == 4 * era + yoe / 100;
  }

  function OneIf(b: bool): int {
    if b then 1 else 0
  }

  lemma QuotientsStep(y: int)
    ensures y / 4 - (y - 1) / 4 == OneIf(y % 4 == 0)
    ensures y / 100 - (y - 1) / 100 == OneIf(y % 100 == 0)
    ensures y / 400 - (y - 1) / 400 == OneIf(y % 400 == 0)
  {
  }

  lemma HundredsOf(y: int, q: int)
    requires y == 100 * q
    ensures y % 100 == 0
  {
    assert y == 100 * (y / 100) + y % 100;
    assert !(y / 100 < q) && !(y / 100 > q);
  }

  lemma FoursOf(y: int, q: int)
    requires y == 4 * q
    ensures y % 4 == 0
  {
    assert y == 4 * (y / 4) + y % 4;
    assert !(y / 4 < q) && !(y / 4 > q);
  }

  lemma MultiplesNest(y: int)
    ensures y % 400 == 0 ==> y % 100 == 0
    ensures y % 100 == 0 ==> y % 4 == 0
  {
    if y % 400 == 0 {
      HundredsOf(y, 4 * (y / 400));
    }
    if y % 100 == 0 {
      FoursOf(y, 25 * (y / 100));
    }
  }

  lemma LeapDays(y: int)
    ensures YearLength(y) == 365 + OneIf(y % 4 == 0) - OneIf(y % 100 == 0) + OneIf(y % 400 == 0)
  {
    MultiplesNest(y);
  }

  lemma YearSumStep(y: int)
    ensures YearSum(y) - YearSum(y - 1) == YearLength(y)
  {
    QuotientsStep(y);
    LeapDays(y);
  }

  lemma {:induction false} YearSumCounts(y: int)
    ensures DaysToYear(y) == YearSum(y - 1) + 306 - 719_468
    decreases if y < 1970 then 1970 - y else y - 1970
  {
    if y == 1970 {
    } else if y > 1970 {
      YearSumCounts(y - 1);
      YearSumStep(y - 1);
    } else {
      YearSumCounts(y + 1);
      YearSumStep(y);
    }
  }

  // The days from the 1st of March to the 1st of month `m`, February last.
  function MarchDays(m: int): int
    requires 1 <= m <= 12
  {
    if m == 1 then 306 else if m == 2 then 337
    else if m <= 7 then (if m == 3 then 0 else if m == 4 then 31 else if m == 5 then 61 else if m == 6 then 92 else 122)
    else if m == 8 then 153 else if m == 9 then 184 else if m == 10 then 214 else if m == 11 then 245 else 275
  }

  lemma MarchFormula(m: int)
    requires 1 <= m <= 12
    ensures (153 * ((m + 9) % 12) + 2) / 5 == MarchDays(m)
  {
    assert (m + 9) % 12 == if m <= 2 then m + 9 else m - 3;
  }

  lemma {:induction false} MonthsFromMarch(y: int, m: int)
    requires 1 <= m <= 12
    ensures DaysToMonth(y, m) == MarchDays(m) + if m <= 2 then -306 else 59 + if Leap(y) then 1 else 0
    decreases m
  {
    if m == 1 {
    } else {
      MonthsFromMarch(y, m - 1);
    }
  }

  // Month lengths summed up to month `m`, in the formula's way of counting from March.
  lemma MonthsCount(y: int, m: int)
    requires 1 <= m <= 12
    ensures DaysToMonth(y, m) ==
            (153 * ((m + 9) % 12) + 2) / 5 + if m <= 2 then -306 else 59 + if Leap(y) then 1 else 0
  {
    MarchFormula(m);
    MonthsFromMarch(y, m);
  }

  // The one-line formula is the day-by-day count, for every year, month and day number.
  lemma FormulaCountsDays(y: int, m: int, d: int)
    requires 1 <= m <= 12
    ensures DaysFromCivil(y, m, d) == DayCount(Date(y, m, d))
  {
    YearSumCounts(y);
    MonthsCount(y, m);
    EraSplits(y);
    EraSplits(y - 1);
    YearSumStep(y);
  }

  /******* Order and inverse *******/

  predicate Before(a: Date, b: Date) {
    a.y < b.y || (a.y == b.y && (a.m < b.m || (a.m == b.m && a.d < b.d)))
  }

  lemma {:induction false} YearsGrow(a: int, b: int)
    requires a < b
    ensures DaysToYear(a) + YearLength(a) <= DaysToYear(b)
    decreases b - a
  {
    YearSumCounts(a);
    YearSumCounts(a + 1);
    YearSumStep(a);
    if a + 1 < b {
      YearsGrow(a + 1, b);
    }
  }

  lemma {:induction false} MonthsGrow(y: int, a: int, b: int)
    requires 1 <= a < b <= 12
    ensures DaysToMonth(y, a) + MonthLength(y, a) <= DaysToMonth(y, b)
    decreases b - a
  {
    if a + 1 < b {
      MonthsGrow(y, a, b - 1);
    }
  }

  lemma MonthFitsYear(y: int, m: int)
    requires 1 <= m <= 12
    ensures 0 <= DaysToMonth(y, m) && DaysToMonth(y, m) + MonthLength(y, m) <= YearLength(y)
  {
    MonthsCount(y, m);
    MonthsCount(y, 12);
    if m < 12 {
      MonthsGrow(y, m, 12);
    }
  }

  // The formula is strictly increasing in calendar order, hence injective on dates.
  lemma FormulaIsMonotone(a: Date, b: Date)
    requires Valid(a) && Valid(b)
    ensures Before(a, b) <==> DaysFromCivil(a.y, a.m, a.d) < DaysFromCivil(b.y, b.m, b.d)
    ensures a == b <==> DaysFromCivil(a.y, a.m, a.d) == DaysFromCivil(b.y, b.m, b.d)
  {
    FormulaCountsDays(a.y, a.m, a.d);
    FormulaCountsDays(b.y, b.m, b.d);
    if Before(a, b) {
      EarlierCountsLess(a, b);
    } else if a != b {
      EarlierCountsLess(b, a);
    }
  }

  lemma EarlierCountsLess(a: Date, b: Date)
    requires Valid(a) && Valid(b) && Before(a, b)
    ensures DayCount(a) < DayCount(b)
  {
    MonthFitsYear(a.y, a.m);
    MonthFitsYear(b.y, b.m);
    if a.y < b.y {
      YearsGrow(a.y, b.y);
    } else if a.m < b.m {
      MonthsGrow(a.y, a.m, b.m);
    }
  }

  lemma NextDayCountsOne(date: Date)
    requires Valid(date)
    ensures Valid(NextDay(date)) && DayCount(NextDay(date)) == DayCount(date) + 1
  {
    YearSumCounts(date.y);
    YearSumCounts(date.y + 1);
    YearSumStep(date.y);
    MonthsCount(date.y, 12);
  }

  lemma PreviousDayCountsOne(date: Date)
    requires Valid(date)
    ensures Valid(PreviousDay(date)) && DayCount(PreviousDay(date)) == DayCount(date) - 1
  {
    YearSumCounts(date.y);
    assert NextDay(PreviousDay(date)) == date;
    NextDayCountsOne(PreviousDay(date));
  }

  lemma StepForward(date: Date, n: int)
    requires Valid(date) && DaysFromCivil(date.y, date.m, date.d) == n
    ensures var next := NextDay(date); Valid(next) && DaysFromCivil(next.y, next.m, next.d) == n + 1
  {
    var next := NextDay(date);
    NextDayCountsOne(date);
    FormulaCountsDays(date.y, date.m, date.d);
    FormulaCountsDays(next.y, next.m, next.d);
  }

  lemma StepBack(date: Date, n: int)
    requires Valid(date) && DaysFromCivil(date.y, date.m, date.d) == n
    ensures var previous := PreviousDay(date);
            Valid(previous) && DaysFromCivil(previous.y, previous.m, previous.d) == n - 1
  {
    var previous := PreviousDay(date);
    PreviousDayCountsOne(date);
    FormulaCountsDays(date.y, date.m, date.d);
    FormulaCountsDays(previous.y, previous.m, previous.d);
  }

  // Stepping `n` days from the epoch, forwards or backwards, inverts the formula.
  lemma {:induction false} FormulaInvertsStepping(n: int)
    ensures var date := DateAt(n); DaysFromCivil(date.y, date.m, date.d) == n
    decreases if n < 0 then -n else n
  {
    if n == 0 {
    } else if n > 0 {
      FormulaInvertsStepping(n - 1);
      StepForward(DateAt(n - 1), n - 1);
    } else {
      FormulaInvertsStepping(n + 1);
      StepBack(DateAt(n + 1), n + 1);
    }
  }

  lemma SteppingInvertsFormula(date: Date)
    requires Valid(date)
    ensures DateAt(DaysFromCivil(date.y, date.m, date.d)) == date
  {
    var n := DaysFromCivil(date.y, date.m, date.d);
    FormulaInvertsStepping(n);
    FormulaIsMonotone(DateAt(n), date);
  }

  // The scanner lets every month have 31 days. A day beyond the end of its month is that many days
  // into the next month.
  function Rolled(y: int, m: int, d: int): Date
    requires 1 <= m <= 12
  {
    if d <= MonthLength(y, m) then Date(y, m, d)
    else if m < 12 then Date(y, m + 1, d - MonthLength(y, m))
    else Date(y + 1, 1, d - MonthLength(y, m))
  }

  lemma ExcessDaysRollOver(y: int, m: int, d: int)
    requires 1 <= m <= 12 && 1 <= d <= 31
    ensures Valid(Rolled(y, m, d))
    ensures var r := Rolled(y, m, d); DaysFromCivil(y, m, d) == DaysFromCivil(r.y, r.m, r.d) == DayCount(r)
    ensures DateAt(DaysFromCivil(y, m, d)) == Rolled(y, m, d)
  {
    var r := Rolled(y, m, d);
    FormulaCountsDays(y, m, d);
    FormulaCountsDays(r.y, r.m, r.d);
    SteppingInvertsFormula(r);
  }
}
