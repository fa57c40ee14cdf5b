/** Day numbers since 1970-01-01 and proleptic Gregorian dates. */
module CivilDate {

  datatype Date = Date(year: int, month: int, day: int)

  /** The source divides in 64-bit signed integers, which truncate toward zero. */
  function TruncDiv(a: int, b: int): int
    requires b > 0
  {
    if a >= 0 then a / b else -((-a) / b)
  }

  // ---- the two conversions, as the bridge computes them ----

  function CivilFromDays(days: int): Date
  {
    var z := days + 719468;
    var era := TruncDiv(if z >= 0 then z else z - 146096, 146097);
    EraDate(era, z - era * 146097)
  }

  function EraDate(era: int, doe: int): Date
  {
    var yoe := YearOfEra(doe);
    MarchDate(yoe + era * 400, doe - YearStart(yoe))
  }

  /** The date of a day in a year counted from March. */
  function MarchDate(year: int, doy: int): Date
  {
    var mp := TruncDiv(5 * doy + 2, 153);
    var day := doy - TruncDiv(153 * mp + 2, 5) + 1;
    var month := if mp < 10 then mp + 3 else mp - 9;
    Date(if month <= 2 then year + 1 else year, month, day)
  }

  function YearOfEra(doe: int): int
  {
    TruncDiv(doe - TruncDiv(doe, 1460) + TruncDiv(doe, 36524) - TruncDiv(doe, 146096), 365)
  }

  /** First day of the `yoe`-th March-based year of an era. */
  function YearStart(yoe: int): int
  {
    365 * yoe + TruncDiv(yoe, 4) - TruncDiv(yoe, 100)
  }

  function DaysFromCivil(date: Date): int
  {
    var y := if date.month <= 2 then date.year - 1 else date.year;
    var era := TruncDiv(if y >= 0 then y else y - 399, 400);
    var yoe := y - era * 400;
    var mp := if date.month > 2 then date.month - 3 else date.month + 9;
    var doy := TruncDiv(153 * mp + 2, 5) + date.day - 1;
    var doe := yoe * 365 + TruncDiv(yoe, 4) - TruncDiv(yoe, 100) + doy;
    era * 146097 + doe - 719468
  }

  // ---- the calendar itself, stated independently of the algorithm ----

  predicate Leap(year: int)
  {
    year % 4 == 0 && (year % 100 != 0 || year % 400 == 0)
  }

  function MonthLength(year: int, month: int): int
  {
    if month == 2 then (if Leap(year) then 29 else 28)
    else if month == 4 || month == 6 || month == 9 || month == 11 then 30
    else 31
  }

  predicate Valid(date: Date)
  {
    && 1 <= date.month <= 12
    && 1 <= date.day <= MonthLength(date.year, date.month)
  }

  function NextDay(date: Date): Date
  {
    if date.day < MonthLength(date.year, date.month) then Date(date.year, date.month, date.day + 1)
    else if date.month < 12 then Date(date.year, date.month + 1, 1)
    else Date(date.year + 1, 1, 1)
  }

  predicate Before(a: Date, b: Date)
  {
    || a.year < b.year
    || (a.year == b.year && a.month < b.month)
    || (a.year == b.year && a.month == b.month && a.day < b.day)
  }

  // ---- March-based years: the coordinates both conversions work in ----

  function MarchYear(date: Date): int
  {
    if date.month <= 2 then date.year - 1 else date.year
  }

  function DayOfMarchYear(date: Date): int
  {
    (153 * (if date.month > 2 then date.month - 3 else date.month + 9) + 2) / 5 + date.day - 1
  }

  function MarchYearStart(y: int): int
  {
    365 * y + y / 4 - y / 100 + y / 400
  }

  lemma EraIsFloor(z: int)
    ensures TruncDiv(if z >= 0 then z else z - 146096, 146097) == z / 146097
    ensures TruncDiv(if z >= 0 then z else z - 399, 400) == z / 400
  {
  }

  lemma DaysInMarchYears(date: Date)
    requires 1 <= date.month <= 12
    ensures DaysFromCivil(date) == MarchYearStart(MarchYear(date)) + DayOfMarchYear(date) - 719468
  {
    var y := MarchYear(date);
    EraIsFloor(y);
    var era := y / 400;
    var yoe := y - era * 400;
    assert 0 <= yoe < 400 && y == 400 * era + yoe;
    assert y / 4 == 100 * era + yoe / 4;
    assert y / 100 == 4 * era + yoe / 100;
  }

  lemma QuotientStep(y: int, k: int)
    requires k == 4 || k == 100 || k == 400
    ensures (y + 1) / k == y / k + (if (y + 1) % k == 0 then 1 else 0)
  {
  }

  lemma MarchYearLength(y: int)
    ensures MarchYearStart(y + 1) == MarchYearStart(y) + (if Leap(y + 1) then 366 else 365)
  {
    QuotientStep(y, 4);
    QuotientStep(y, 100);
    QuotientStep(y, 400);
    Multiples(y + 1);
  }

  lemma Multiples(y: int)
    ensures y % 400 == 0 ==> y % 100 == 0
    ensures y % 100 == 0 ==> y % 4 == 0
  {
  }

  lemma {:induction false} MarchYearsIncrease(y: int, w: int)
    requires y < w
    ensures MarchYearStart(y + 1) <= MarchYearStart(w)
    decreases w - y
  {
    if y + 1 < w {
      MarchYearsIncrease(y, w - 1);
      MarchYearLength(w - 1);
    }
  }

  lemma DayOfMarchYearRange(date: Date)
    requires Valid(date)
    ensures 0 <= DayOfMarchYear(date) < (if Leap(MarchYear(date) + 1) then 366 else 365)
  {
  }

  // ---- strict monotonicity, and one step of the calendar ----

  lemma BeforeInMarchYears(a: Date, b: Date)
    requires Valid(a) && Valid(b) && Before(a, b)
    ensures
      || MarchYear(a) < MarchYear(b)
      || (MarchYear(a) == MarchYear(b) && DayOfMarchYear(a) < DayOfMarchYear(b))
  {
  }

  /** A later date has a larger day number. */
  lemma DaysFromCivilIncreases(a: Date, b: Date)
    requires Valid(a) && Valid(b) && Before(a, b)
    ensures DaysFromCivil(a) < DaysFromCivil(b)
  {
    BeforeInMarchYears(a, b);
    DaysInMarchYears(a);
    DaysInMarchYears(b);
    DayOfMarchYearRange(a);
    DayOfMarchYearRange(b);
    var y, w := MarchYear(a), MarchYear(b);
    if y < w {
      MarchYearLength(y);
      MarchYearsIncrease(y, w);
    }
  }

  lemma DaysFromCivilInjective(a: Date, b: Date)
    requires Valid(a) && Valid(b) && DaysFromCivil(a) == DaysFromCivil(b)
    ensures a == b
  {
    if Before(a, b) {
      DaysFromCivilIncreases(a, b);
    } else if Before(b, a) {
      DaysFromCivilIncreases(b, a);
    }
  }

  lemma NextDayInMarchYear(date: Date)
    requires Valid(date)
    ensures Valid(NextDay(date))
    ensures
      var next := NextDay(date);
      if MarchYear(next) == MarchYear(date) then DayOfMarchYear(next) == DayOfMarchYear(date) + 1
      else
        && MarchYear(next) == MarchYear(date) + 1
        && DayOfMarchYear(next) == 0
        && DayOfMarchYear(date) + 1 == (if Leap(MarchYear(date) + 1) then 366 else 365)
  {
  }

  lemma DaysFromCivilOfNextDay(date: Date)
    requires Valid(date)
    ensures Valid(NextDay(date))
    ensures DaysFromCivil(NextDay(date)) == DaysFromCivil(date) + 1
  {
    NextDayInMarchYear(date);
    DaysInMarchYears(date);
    DaysInMarchYears(NextDay(date));
    MarchYearLength(MarchYear(date));
  }

  // ---- the year inside an era ----

  /** Year and day of a position in a 400-year era, by centuries, olympiads and years. */
  lemma SplitEra(doe: int) returns (a: int, b: int, c: int, d: int)
    requires 0 <= doe < 146097
    ensures doe == 36524 * a + 1461 * b + 365 * c + d
    ensures 0 <= a <= 3 && 0 <= b <= 24 && 0 <= c <= 3 && 0 <= d <= 365
    ensures d == 365 ==> c == 3 && (b == 24 ==> a == 3)
  {
    a := if doe / 36524 < 3 then doe / 36524 else 3;
    var r := doe - 36524 * a;
    b := r / 1461;
    var q := r - 1461 * b;
    c := if q / 365 < 3 then q / 365 else 3;
    d := q - 365 * c;
  }

  lemma QuotientsInEra(a: int, b: int, c: int, d: int)
    requires 0 <= a <= 3 && 0 <= b <= 24 && 0 <= c <= 3 && 0 <= d <= 365
    requires d == 365 ==> c == 3 && (b == 24 ==> a == 3)
    ensures YearOfEra(36524 * a + 1461 * b + 365 * c + d) == 100 * a + 4 * b + c
  {
    var doe := 36524 * a + 1461 * b + 365 * c + d;
    var top := if doe == 146096 then 1 else 0;
    var e := if 24 * a + b + 365 * c + d >= 1460 then 1 else 0;
    assert doe / 146096 == top;
    assert doe / 36524 == a + top;
    assert doe == 1460 * (25 * a + b) + (24 * a + b + 365 * c + d);
    assert doe / 1460 == 25 * a + b + e;
    var n := doe - doe / 1460 + doe / 36524 - doe / 146096;
    assert n == 365 * (100 * a + 4 * b + c) + d - e;
  }

  lemma YearInEra(a: int, b: int, c: int)
    requires 0 <= a <= 3 && 0 <= b <= 24 && 0 <= c <= 3
    ensures var y := 100 * a + 4 * b + c; 0 <= y < 400 && y / 4 == 25 * a + b && y / 100 == a
  {
  }

  /** The last day of a leap year in its place: the fourth year of an olympiad, save the last of the first three
      centuries. */
  lemma LeapInEra(a: int, b: int)
    requires 0 <= a <= 3 && 0 <= b <= 24 && (b == 24 ==> a == 3)
    ensures Leap(100 * a + 4 * b + 3 + 1)
  {
    var y := 100 * a + 4 * (b + 1);
    assert y % 4 == 0;
    if b < 24 {
      assert y % 100 == 4 * (b + 1);
    } else {
      assert y == 400;
    }
  }

  /** `YearOfEra` is the year whose span contains the day. */
  lemma YearOfEraCorrect(doe: int)
    requires 0 <= doe < 146097
    ensures 0 <= YearOfEra(doe) < 400
    ensures 0 <= doe - YearStart(YearOfEra(doe)) < (if Leap(YearOfEra(doe) + 1) then 366 else 365)
  {
    var a, b, c, d := SplitEra(doe);
    QuotientsInEra(a, b, c, d);
    YearInEra(a, b, c);
    StartInEra(a, b, c);
    if d == 365 {
      LeapInEra(a, b);
    }
  }

  lemma StartInEra(a: int, b: int, c: int)
    requires 0 <= a <= 3 && 0 <= b <= 24 && 0 <= c <= 3
    ensures YearStart(100 * a + 4 * b + c) == 36524 * a + 1461 * b + 365 * c
  {
    YearInEra(a, b, c);
  }

  lemma EraQuotients(era: int, yoe: int)
    ensures (yoe + era * 400) / 4 == yoe / 4 + 100 * era && (yoe + era * 400) % 4 == yoe % 4
    ensures (yoe + era * 400) / 100 == yoe / 100 + 4 * era && (yoe + era * 400) % 100 == yoe % 100
    ensures (yoe + era * 400) / 400 == yoe / 400 + era && (yoe + era * 400) % 400 == yoe % 400
  {
    var n := yoe + era * 400;
    QuotientUnique(n, 4, yoe / 4 + 100 * era, yoe % 4);
    QuotientUnique(n, 100, yoe / 100 + 4 * era, yoe % 100);
    QuotientUnique(n, 400, yoe / 400 + era, yoe % 400);
  }

  lemma QuotientUnique(n: int, k: int, q: int, r: int)
    requires k == 4 || k == 100 || k == 400
    requires 0 <= r < k && n == k * q + r
    ensures n / k == q && n % k == r
  {
  }

  lemma MarchDateShape(y: int, doy: int)
    requires 0 <= doy < (if Leap(y + 1) then 366 else 365)
    ensures Valid(MarchDate(y, doy))
    ensures MarchYear(MarchDate(y, doy)) == y
    ensures DayOfMarchYear(MarchDate(y, doy)) == doy
  {
  }

  lemma EraStart(era: int, yoe: int)
    requires 0 <= yoe < 400
    ensures MarchYearStart(yoe + era * 400) == 146097 * era + YearStart(yoe)
    ensures Leap(yoe + era * 400 + 1) == Leap(yoe + 1)
  {
    EraQuotients(era, yoe);
    EraQuotients(era, yoe + 1);
    assert yoe + era * 400 + 1 == (yoe + 1) + era * 400;
  }

  lemma EraPosition(era: int, doe: int) returns (y: int, doy: int)
    requires 0 <= doe < 146097
    ensures EraDate(era, doe) == MarchDate(y, doy)
    ensures MarchYearStart(y) + doy == 146097 * era + doe
    ensures 0 <= doy < (if Leap(y + 1) then 366 else 365)
  {
    YearOfEraCorrect(doe);
    var yoe := YearOfEra(doe);
    EraStart(era, yoe);
    y, doy := yoe + era * 400, doe - YearStart(yoe);
  }

  lemma CivilIsEraDate(days: int)
    ensures CivilFromDays(days) == EraDate((days + 719468) / 146097, (days + 719468) % 146097)
  {
    EraIsFloor(days + 719468);
  }

  lemma MarchPosition(days: int) returns (y: int, doy: int)
    ensures CivilFromDays(days) == MarchDate(y, doy)
    ensures MarchYearStart(y) + doy - 719468 == days
    ensures 0 <= doy < (if Leap(y + 1) then 366 else 365)
  {
    CivilIsEraDate(days);
    y, doy := EraPosition((days + 719468) / 146097, (days + 719468) % 146097);
  }

  // ---- main results ----

  /** Every day number is the day number of the date computed for it. */
  lemma DaysOfCivil(days: int)
    ensures Valid(CivilFromDays(days))
    ensures DaysFromCivil(CivilFromDays(days)) == days
  {
    var y, doy := MarchPosition(days);
    MarchDateShape(y, doy);
    DaysInMarchYears(MarchDate(y, doy));
  }

  /** Every valid Gregorian date is the date of its day number. */
  lemma CivilOfDays(date: Date)
    requires Valid(date)
    ensures CivilFromDays(DaysFromCivil(date)) == date
  {
    DaysOfCivil(DaysFromCivil(date));
    DaysFromCivilInjective(CivilFromDays(DaysFromCivil(date)), date);
  }

  /** The calendar's epoch is day 0. */
  lemma CivilOfEpoch()
    ensures CivilFromDays(0) == Date(1970, 1, 1)
  {
    CivilOfNumber(Date(1970, 1, 1), 0);
  }

  /** Each following day number is the calendar's next day. */
  lemma CivilFollowsCalendar(days: int)
    ensures CivilFromDays(days + 1) == NextDay(CivilFromDays(days))
  {
    DaysOfCivil(days);
    NextDayNumber(CivilFromDays(days), days);
  }

  lemma NextDayNumber(date: Date, days: int)
    requires Valid(date) && DaysFromCivil(date) == days
    ensures CivilFromDays(days + 1) == NextDay(date)
  {
    DaysFromCivilOfNextDay(date);
    CivilOfNumber(NextDay(date), days + 1);
  }

  lemma CivilOfNumber(date: Date, days: int)
    requires Valid(date) && DaysFromCivil(date) == days
    ensures CivilFromDays(days) == date
  {
    CivilOfDays(date);
  }

  lemma DatesOrder(x: Date, y: Date, a: int, b: int)
    requires Valid(x) && Valid(y) && DaysFromCivil(x) == a && DaysFromCivil(y) == b
    ensures a < b <==> Before(x, y)
  {
    if Before(x, y) {
      DaysFromCivilIncreases(x, y);
    } else if Before(y, x) {
      DaysFromCivilIncreases(y, x);
    }
  }

  /** Dates order like day numbers. */
  lemma CivilOrder(a: int, b: int)
    ensures a < b <==> Before(CivilFromDays(a), CivilFromDays(b))
  {
    DaysOfCivil(a);
    DaysOfCivil(b);
    DatesOrder(CivilFromDays(a), CivilFromDays(b), a, b);
  }
}
