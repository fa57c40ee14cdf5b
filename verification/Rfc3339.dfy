/** RFC 3339 timestamps (section 5.6 of RFC 3339) as the bridge prints and parses them. */
module Rfc3339 {
  import opened Wrappers
  import opened Text
  import opened CivilDate

  // ---- printing decimals ----

  function DigitChar(d: int): char
    requires 0 <= d <= 9
  {
    '0' + d as char
  }

  function Digits(n: nat): (s: string)
    ensures s != []
  {
    if n < 10 then [DigitChar(n)] else Digits(n / 10) + [DigitChar(n % 10)]
  }

  function ZeroFill(s: string, width: int): string
    decreases width - |s|
  {
    if |s| >= width then s else ZeroFill("0" + s, width)
  }

  /** Zero padding to a minimum width; a minus sign counts towards the width. */
  function Pad(n: int, width: nat): string
  {
    if n < 0 then "-" + ZeroFill(Digits(-n), width - 1) else ZeroFill(Digits(n), width)
  }

  function Format(seconds: int): string
  {
    var date := CivilFromDays(seconds / 86400);
    var secs := seconds % 86400;
    Pad(date.year, 4) + ("-" + (Pad(date.month, 2) + ("-" + (Pad(date.day, 2) + ("T"
    + (Pad(secs / 3600, 2) + (":" + (Pad((secs % 3600) / 60, 2) + (":"
    + (Pad(secs % 60, 2) + "+00:00"))))))))))
  }

  // ---- parsing decimals ----

  predicate IsDigit(c: char)
  {
    '0' <= c <= '9'
  }

  predicate AllDigits(s: string)
  {
    forall i :: 0 <= i < |s| ==> IsDigit(s[i])
  }

  function Value(s: string): int
    requires AllDigits(s)
  {
    if s == [] then 0 else 10 * Value(s[..|s| - 1]) + (s[|s| - 1] - '0') as int
  }

  /** Signed integer parsing: an optional sign, then at least one digit. */
  function ParseInt(s: string): Option<int>
  {
    if s == [] then None
    else if s[0] == '-' || s[0] == '+' then
      if |s| == 1 || !AllDigits(s[1..]) then None
      else Some(if s[0] == '-' then -Value(s[1..]) else Value(s[1..]))
    else if AllDigits(s) then Some(Value(s))
    else None
  }

  function Parse(value: string): Option<int>
  {
    if |value| < 19 then None
    else
      match (ParseInt(value[0..4]), ParseInt(value[5..7]), ParseInt(value[8..10]),
             ParseInt(value[11..13]), ParseInt(value[14..16]), ParseInt(value[17..19]))
      case (Some(y), Some(m), Some(d), Some(h), Some(mi), Some(s)) =>
        Some(Instant(Date(y, m, d), h, mi, s))
      case _ => None
  }

  /** Epoch seconds of a date and a clock reading; neither is range checked. */
  function Instant(date: Date, hour: int, minute: int, second: int): int
  {
    DaysFromCivil(date) * 86400 + hour * 3600 + minute * 60 + second
  }

  // ---- fixed-width fields ----

  function Pow10(k: nat): (p: nat)
    ensures p >= 1
  {
    if k == 0 then 1 else 10 * Pow10(k - 1)
  }

  /** The last `width` decimal digits of `n`. */
  function Fixed(n: nat, width: nat): (s: string)
    ensures |s| == width && AllDigits(s)
  {
    if width == 0 then [] else Fixed(n / 10, width - 1) + [DigitChar(n % 10)]
  }

  lemma ZeroFillSnoc(s: string, c: char, width: nat)
    ensures ZeroFill(s + [c], width + 1) == ZeroFill(s, width) + [c]
    decreases width - |s|
  {
    if |s| < width {
      assert "0" + (s + [c]) == ("0" + s) + [c];
      ZeroFillSnoc("0" + s, c, width);
    }
  }

  lemma ZeroFillEmpty(width: nat)
    ensures ZeroFill([], width) == Fixed(0, width)
  {
    if width > 0 {
      assert "0" + [] == [] + ['0'];
      ZeroFillSnoc([], '0', width - 1);
      ZeroFillEmpty(width - 1);
    }
  }

  lemma {:induction false} ZeroFillIsFixed(n: nat, width: nat)
    requires 1 <= width && n < Pow10(width)
    ensures ZeroFill(Digits(n), width) == Fixed(n, width)
  {
    if n < 10 {
      assert [DigitChar(n)] == [] + [DigitChar(n)];
      ZeroFillSnoc([], DigitChar(n), width - 1);
      ZeroFillEmpty(width - 1);
    } else {
      assert width >= 2 by {
        assert Pow10(1) == 10;
      }
      ZeroFillIsFixed(n / 10, width - 1);
      ZeroFillSnoc(Digits(n / 10), DigitChar(n % 10), width - 1);
    }
  }

  lemma {:induction false} FixedValue(n: nat, width: nat)
    requires n < Pow10(width)
    ensures Value(Fixed(n, width)) == n
  {
    if width > 0 {
      FixedValue(n / 10, width - 1);
      var s := Fixed(n, width);
      assert s[..|s| - 1] == Fixed(n / 10, width - 1);
    }
  }

  /** Fixed-width decimals order like numbers. */
  lemma {:induction false} FixedOrder(n: nat, m: nat, width: nat)
    requires n < Pow10(width) && m < Pow10(width)
    ensures StrLt(Fixed(n, width), Fixed(m, width)) <==> n < m
  {
    if width > 0 {
      FixedOrder(n / 10, m / 10, width - 1);
      var a, b := Fixed(n / 10, width - 1), Fixed(m / 10, width - 1);
      if a == b {
        FixedValue(n / 10, width - 1);
        FixedValue(m / 10, width - 1);
        StrLtPrefix(a, [DigitChar(n % 10)], [DigitChar(m % 10)]);
      } else {
        StrLtHead(a, b, [DigitChar(n % 10)], [DigitChar(m % 10)]);
      }
    }
  }

  lemma FixedParse(n: nat, width: nat)
    requires 1 <= width && n < Pow10(width)
    ensures ParseInt(Fixed(n, width)) == Some(n)
  {
    FixedValue(n, width);
    assert IsDigit(Fixed(n, width)[0]);
  }

  // ---- the year field ----

  lemma Powers()
    ensures Pow10(1) == 10 && Pow10(2) == 100 && Pow10(3) == 1000 && Pow10(4) == 10000
    ensures Pow10(5) == 100000 && Pow10(6) == 1000000
  {
    assert Pow10(3) == 10 * Pow10(2);
    assert Pow10(5) == 10 * Pow10(4);
  }

  lemma {:induction false} LongDigits(n: nat, k: nat)
    requires n >= Pow10(k)
    ensures |Digits(n)| > k
  {
    if k > 0 {
      LongDigits(n / 10, k - 1);
    }
  }

  lemma YearField(year: int)
    requires -999 <= year <= 9999
    ensures |Pad(year, 4)| == 4 && ParseInt(Pad(year, 4)) == Some(year)
    ensures year >= 0 ==> Pad(year, 4) == Fixed(year, 4)
  {
    Powers();
    if year < 0 {
      ZeroFillIsFixed(-year, 3);
      FixedValue(-year, 3);
      assert Pad(year, 4)[1..] == Fixed(-year, 3);
    } else {
      ZeroFillIsFixed(year, 4);
      FixedParse(year, 4);
    }
  }

  lemma ZeroFillLong(s: string, width: int)
    requires |s| >= width
    ensures ZeroFill(s, width) == s
  {
  }

  lemma {:induction false} ShortDigits(n: nat, k: nat)
    requires 1 <= k && n < Pow10(k)
    ensures |Digits(n)| <= k
  {
    if n >= 10 {
      assert k > 1 by {
        Powers();
      }
      ShortDigits(n / 10, k - 1);
    }
  }

  /** Years just outside -999..9999 print five or six characters wide. */
  lemma WideYearField(year: int)
    requires -99999 <= year < -999 || 9999 < year <= 999999
    ensures 5 <= |Pad(year, 4)| <= 6
  {
    Powers();
    if year < 0 {
      LongDigits(-year, 3);
      ShortDigits(-year, 5);
      ZeroFillLong(Digits(-year), 3);
    } else {
      LongDigits(year, 4);
      ShortDigits(year, 6);
      ZeroFillLong(Digits(year), 4);
    }
  }

  // ---- the whole timestamp ----

  function YearOf(seconds: int): int
  {
    CivilFromDays(seconds / 86400).year
  }

  /** Everything after the year. */
  function Rest(date: Date, secs: int): string
    requires Valid(date) && 0 <= secs < 86400
  {
    "-" + (Fixed(date.month, 2) + ("-" + (Fixed(date.day, 2) + ("T" + Clock(secs)))))
  }

  function Clock(secs: int): string
    requires 0 <= secs < 86400
  {
    Fixed(secs / 3600, 2) + (":" + (Fixed((secs % 3600) / 60, 2) + (":" + (Fixed(secs % 60, 2) + "+00:00"))))
  }

  lemma PadTwo(n: int)
    requires 0 <= n < 100
    ensures Pad(n, 2) == Fixed(n, 2) && ParseInt(Fixed(n, 2)) == Some(n)
  {
    Powers();
    ZeroFillIsFixed(n, 2);
    FixedParse(n, 2);
  }

  lemma FormatParts(seconds: int)
    ensures Valid(CivilFromDays(seconds / 86400))
    ensures Format(seconds) == Pad(YearOf(seconds), 4) + Rest(CivilFromDays(seconds / 86400), seconds % 86400)
  {
    DaysOfCivil(seconds / 86400);
    var date, secs := CivilFromDays(seconds / 86400), seconds % 86400;
    PadTwo(date.month);
    PadTwo(date.day);
    PadTwo(secs / 3600);
    PadTwo((secs % 3600) / 60);
    PadTwo(secs % 60);
  }

  /** The five two-digit fields sit at fixed places after a year of any width. */
  lemma RestPositions(date: Date, secs: int)
    requires Valid(date) && 0 <= secs < 86400
    ensures
      var r := Rest(date, secs);
      && |r| == 21
      && r[0] == '-' && r[3] == '-' && r[6] == 'T'
      && r[1..3] == Fixed(date.month, 2) && r[4..6] == Fixed(date.day, 2)
      && r[7..9] == Fixed(secs / 3600, 2) && r[10..12] == Fixed((secs % 3600) / 60, 2)
      && r[13..15] == Fixed(secs % 60, 2)
  {
  }

  lemma SliceAfter(y: string, r: string, i: int, j: int)
    requires |y| <= i <= j <= |y| + |r|
    ensures (y + r)[i..j] == r[i - |y|..j - |y|]
  {
  }

  lemma NarrowPositions(y: string, date: Date, secs: int)
    requires |y| == 4 && Valid(date) && 0 <= secs < 86400
    ensures
      var t := y + Rest(date, secs);
      && |t| == 25
      && t[0..4] == y && t[5..7] == Fixed(date.month, 2) && t[8..10] == Fixed(date.day, 2)
      && t[11..13] == Fixed(secs / 3600, 2) && t[14..16] == Fixed((secs % 3600) / 60, 2)
      && t[17..19] == Fixed(secs % 60, 2)
  {
    var r := Rest(date, secs);
    RestPositions(date, secs);
    SliceAfter(y, r, 5, 7);
    SliceAfter(y, r, 8, 10);
    SliceAfter(y, r, 11, 13);
    SliceAfter(y, r, 14, 16);
    SliceAfter(y, r, 17, 19);
    assert (y + r)[0..4] == y;
  }

  lemma InstantOfClock(date: Date, days: int, secs: int)
    requires 0 <= secs < 86400 && days == DaysFromCivil(date)
    ensures Instant(date, secs / 3600, (secs % 3600) / 60, secs % 60) == days * 86400 + secs
  {
    assert (secs / 3600) * 3600 + ((secs % 3600) / 60) * 60 + secs % 60 == secs;
  }

  lemma ParseNarrow(y: string, date: Date, secs: int)
    requires |y| == 4 && ParseInt(y) == Some(date.year)
    requires Valid(date) && 0 <= secs < 86400
    ensures Parse(y + Rest(date, secs))
         == Some(Instant(date, secs / 3600, (secs % 3600) / 60, secs % 60))
  {
    NarrowPositions(y, date, secs);
    PadTwo(date.month);
    PadTwo(date.day);
    PadTwo(secs / 3600);
    PadTwo((secs % 3600) / 60);
    PadTwo(secs % 60);
    assert Date(date.year, date.month, date.day) == date;
  }

  // ---- what a misread can yield ----

  lemma {:induction false} ValueBound(s: string)
    requires AllDigits(s)
    ensures 0 <= Value(s) < Pow10(|s|)
  {
    if s != [] {
      ValueBound(s[..|s| - 1]);
    }
  }

  lemma ParseIntBound(s: string)
    requires |s| >= 1 && ParseInt(s).Some?
    ensures 0 < ParseInt(s).value + Pow10(|s| - 1)
    ensures ParseInt(s).value < Pow10(|s|)
  {
    if s[0] == '-' || s[0] == '+' {
      ValueBound(s[1..]);
      assert Pow10(|s|) == 10 * Pow10(|s| - 1);
    } else {
      ValueBound(s);
    }
  }

  lemma MisreadDays(y: int, m: int, d: int)
    requires -1000 < y < 10000 && -10 < m < 100 && -10 < d < 100
    ensures -2000000 < DaysFromCivil(Date(y, m, d)) < 4000000
  {
    var w := if m <= 2 then y - 1 else y;
    EraIsFloor(w);
    var era := w / 400;
    var yoe := w - era * 400;
    assert 0 <= yoe < 400 && -3 <= era <= 24;
  }

  lemma ParseBound(value: string)
    requires Parse(value).Some?
    ensures -2000000 * 86400 - 100000 < Parse(value).value < 4000000 * 86400 + 500000
  {
    Powers();
    var y, m, d := ParseInt(value[0..4]).value, ParseInt(value[5..7]).value, ParseInt(value[8..10]).value;
    ParseIntBound(value[0..4]);
    ParseIntBound(value[5..7]);
    ParseIntBound(value[8..10]);
    ParseIntBound(value[11..13]);
    ParseIntBound(value[14..16]);
    ParseIntBound(value[17..19]);
    MisreadDays(y, m, d);
  }

  lemma FarDays(date: Date)
    requires Valid(date)
    ensures date.year > 999999 ==> DaysFromCivil(date) > 300000000
    ensures date.year < -99999 ==> DaysFromCivil(date) < -30000000
  {
    var first, last := Date(1000000, 1, 1), Date(-100000, 12, 31);
    if date.year > 999999 {
      if date != first {
        DaysFromCivilIncreases(first, date);
      }
    } else if date.year < -99999 {
      if date != last {
        DaysFromCivilIncreases(date, last);
      }
    }
  }

  lemma ParseWide(y: string, date: Date, secs: int)
    requires 5 <= |y| <= 6 && Valid(date) && 0 <= secs < 86400
    ensures Parse(y + Rest(date, secs)) == None
  {
    var r := Rest(date, secs);
    var t := y + r;
    RestPositions(date, secs);
    if |y| == 5 {
      assert t[11] == 'T' && t[11..13][0] == 'T';
      assert !IsDigit('T');
    } else {
      assert t[6] == '-' && t[5..7][1] == '-' && t[5..7][1..][0] == '-';
      assert !IsDigit('-');
    }
  }

  // ---- main results ----

  lemma NearParse(text: string, date: Date, days: int, secs: int, seconds: int)
    requires -999 <= date.year <= 9999 && Valid(date) && DaysFromCivil(date) == days
    requires 0 <= secs < 86400 && text == Pad(date.year, 4) + Rest(date, secs) && seconds == days * 86400 + secs
    ensures Parse(text) == Some(seconds)
  {
    YearField(date.year);
    ParseNarrow(Pad(date.year, 4), date, secs);
    InstantOfClock(date, days, secs);
  }

  /** The parts a timestamp is printed from. */
  lemma Printed(seconds: int) returns (text: string, date: Date, days: int, secs: int)
    ensures text == Format(seconds) && date.year == YearOf(seconds)
    ensures Valid(date) && DaysFromCivil(date) == days && 0 <= secs < 86400 && days * 86400 + secs == seconds
    ensures text == Pad(date.year, 4) + Rest(date, secs)
  {
    text, days, secs := Format(seconds), seconds / 86400, seconds % 86400;
    date := CivilFromDays(days);
    DaysOfCivil(days);
    FormatParts(seconds);
  }

  lemma NearYear(seconds: int) returns (text: string)
    requires -999 <= YearOf(seconds) <= 9999
    ensures text == Format(seconds) && Parse(text) == Some(seconds)
  {
    var date, days, secs;
    text, date, days, secs := Printed(seconds);
    NearParse(text, date, days, secs, seconds);
  }

  lemma MiddleYear(seconds: int)
    requires -99999 <= YearOf(seconds) < -999 || 9999 < YearOf(seconds) <= 999999
    ensures Parse(Format(seconds)) == None
  {
    FormatParts(seconds);
    var date := CivilFromDays(seconds / 86400);
    WideYearField(date.year);
    ParseWide(Pad(date.year, 4), date, seconds % 86400);
  }

  /** A timestamp reads back as the instant it was printed for exactly when its year has at
      most four characters, which is -999 to 9999. */
  lemma ParseOfFormat(seconds: int)
    ensures Parse(Format(seconds)) == Some(seconds) <==> -999 <= YearOf(seconds) <= 9999
  {
    if -999 <= YearOf(seconds) <= 9999 {
      var text := NearYear(seconds);
    } else if -99999 <= YearOf(seconds) <= 999999 {
      MiddleYear(seconds);
    } else {
      FarYear(seconds);
    }
  }

  lemma FarYear(seconds: int)
    requires YearOf(seconds) > 999999 || YearOf(seconds) < -99999
    ensures Parse(Format(seconds)) != Some(seconds)
  {
    var date := CivilFromDays(seconds / 86400);
    DaysOfCivil(seconds / 86400);
    FarDays(date);
    if Parse(Format(seconds)).Some? {
      ParseBound(Format(seconds));
    }
  }

  // ---- string order is time order ----

  /** A leading fixed-width field decides the order, or passes it on to what follows. */
  lemma FieldOrder(n: nat, m: nat, width: nat, x: string, y: string)
    requires n < Pow10(width) && m < Pow10(width)
    ensures n != m ==> (StrLt(Fixed(n, width) + x, Fixed(m, width) + y) <==> n < m)
    ensures n == m ==> (StrLt(Fixed(n, width) + x, Fixed(m, width) + y) <==> StrLt(x, y))
  {
    if n == m {
      StrLtPrefix(Fixed(n, width), x, y);
    } else {
      FixedValue(n, width);
      FixedValue(m, width);
      StrLtHead(Fixed(n, width), Fixed(m, width), x, y);
      FixedOrder(n, m, width);
    }
  }

  lemma TwoDigitOrder(n: nat, m: nat, c: string, x: string, y: string)
    requires n < 100 && m < 100
    ensures n != m ==> (StrLt(Fixed(n, 2) + (c + x), Fixed(m, 2) + (c + y)) <==> n < m)
    ensures n == m ==> (StrLt(Fixed(n, 2) + (c + x), Fixed(m, 2) + (c + y)) <==> StrLt(x, y))
  {
    Powers();
    FieldOrder(n, m, 2, c + x, c + y);
    StrLtPrefix(c, x, y);
  }

  function Seconds(secs: int): string
    requires 0 <= secs < 86400
  {
    Fixed(secs % 60, 2) + "+00:00"
  }

  function Minutes(secs: int): string
    requires 0 <= secs < 86400
  {
    Fixed((secs % 3600) / 60, 2) + (":" + Seconds(secs))
  }

  lemma SecondsOrder(a: int, b: int)
    requires 0 <= a < 86400 && 0 <= b < 86400
    ensures StrLt(Seconds(a), Seconds(b)) <==> a % 60 < b % 60
  {
    Powers();
    FieldOrder(a % 60, b % 60, 2, "+00:00", "+00:00");
    StrLtIrreflexive("+00:00");
  }

  lemma MinutesOrder(a: int, b: int)
    requires 0 <= a < 86400 && 0 <= b < 86400
    ensures StrLt(Minutes(a), Minutes(b)) <==> a % 3600 < b % 3600
  {
    SecondsOrder(a, b);
    TwoDigitOrder((a % 3600) / 60, (b % 3600) / 60, ":", Seconds(a), Seconds(b));
    MinuteParts(a);
    MinuteParts(b);
  }

  lemma MinuteParts(a: int)
    requires 0 <= a < 86400
    ensures a % 3600 == (a % 3600) / 60 * 60 + a % 60
  {
  }

  lemma ClockOrder(a: int, b: int)
    requires 0 <= a < 86400 && 0 <= b < 86400
    ensures StrLt(Clock(a), Clock(b)) <==> a < b
  {
    MinutesOrder(a, b);
    assert Clock(a) == Fixed(a / 3600, 2) + (":" + Minutes(a));
    assert Clock(b) == Fixed(b / 3600, 2) + (":" + Minutes(b));
    TwoDigitOrder(a / 3600, b / 3600, ":", Minutes(a), Minutes(b));
  }

  lemma RestOrder(x: Date, a: int, y: Date, b: int)
    requires Valid(x) && Valid(y) && x.year == y.year
    requires 0 <= a < 86400 && 0 <= b < 86400
    ensures StrLt(Rest(x, a), Rest(y, b)) <==> Before(x, y) || (x == y && a < b)
  {
    ClockOrder(a, b);
    TwoDigitOrder(x.day, y.day, "T", Clock(a), Clock(b));
    var dx, dy := Fixed(x.day, 2) + ("T" + Clock(a)), Fixed(y.day, 2) + ("T" + Clock(b));
    TwoDigitOrder(x.month, y.month, "-", dx, dy);
    StrLtPrefix("-", Fixed(x.month, 2) + ("-" + dx), Fixed(y.month, 2) + ("-" + dy));
  }

  lemma StampOrder(x: Date, a: int, y: Date, b: int)
    requires Valid(x) && Valid(y) && 0 <= x.year <= 9999 && 0 <= y.year <= 9999
    requires 0 <= a < 86400 && 0 <= b < 86400
    ensures StrLt(Fixed(x.year, 4) + Rest(x, a), Fixed(y.year, 4) + Rest(y, b))
        <==> Before(x, y) || (x == y && a < b)
  {
    Powers();
    FieldOrder(x.year, y.year, 4, Rest(x, a), Rest(y, b));
    if x.year == y.year {
      RestOrder(x, a, y, b);
    }
  }

  /** In the years 0 to 9999 timestamps compare as strings exactly as the instants do. */
  lemma FormatOrder(a: int, b: int)
    requires 0 <= YearOf(a) <= 9999 && 0 <= YearOf(b) <= 9999
    ensures StrLt(Format(a), Format(b)) <==> a < b
  {
    FormatParts(a);
    FormatParts(b);
    YearField(YearOf(a));
    YearField(YearOf(b));
    StampOrder(CivilFromDays(a / 86400), a % 86400, CivilFromDays(b / 86400), b % 86400);
    CivilOrder(a / 86400, b / 86400);
    CivilOrder(b / 86400, a / 86400);
  }

  /** Distinct instants of those years have distinct timestamps. */
  lemma FormatInjective(a: int, b: int)
    requires 0 <= YearOf(a) <= 9999 && 0 <= YearOf(b) <= 9999
    requires Format(a) == Format(b)
    ensures a == b
  {
    ParseOfFormat(a);
    ParseOfFormat(b);
  }

  lemma NegativeYearField(year: int)
    requires -999 <= year <= -1
    ensures Pad(year, 4) == "-" + Fixed(-year, 3)
  {
    Powers();
    ZeroFillIsFixed(-year, 3);
  }

  lemma NegativeStampOrder(n: int, m: int, x: string, y: string)
    requires -999 <= n <= -1 && -999 <= m <= -1 && n != m
    ensures StrLt("-" + Fixed(-n, 3) + x, "-" + Fixed(-m, 3) + y) <==> m < n
  {
    Powers();
    FieldOrder(-n, -m, 3, x, y);
    StrLtPrefix("-", Fixed(-n, 3) + x, Fixed(-m, 3) + y);
    assert "-" + Fixed(-n, 3) + x == "-" + (Fixed(-n, 3) + x);
    assert "-" + Fixed(-m, 3) + y == "-" + (Fixed(-m, 3) + y);
  }

  lemma NegativeStamp(seconds: int) returns (text: string, year: int, rest: string)
    requires -999 <= YearOf(seconds) <= -1
    ensures text == Format(seconds) && year == YearOf(seconds)
    ensures -999 <= year <= -1 && text == "-" + Fixed(-year, 3) + rest
  {
    var date, days, secs;
    text, date, days, secs := Printed(seconds);
    year, rest := date.year, Rest(date, secs);
    NegativeYearField(year);
  }

  lemma YearOrder(a: int, b: int)
    requires YearOf(a) != YearOf(b)
    ensures a < b <==> YearOf(a) < YearOf(b)
  {
    CivilOrder(a / 86400, b / 86400);
    CivilOrder(b / 86400, a / 86400);
  }

  lemma ReversedStamps(fa: string, fb: string, ya: int, yb: int, x: string, y: string)
    requires -999 <= ya <= -1 && -999 <= yb <= -1 && ya != yb
    requires fa == "-" + Fixed(-ya, 3) + x && fb == "-" + Fixed(-yb, 3) + y
    ensures StrLt(fa, fb) <==> yb < ya
  {
    NegativeStampOrder(ya, yb, x, y);
  }

  /** Before year 0 the sign reverses the order of different years. */
  lemma FormatOrderReversed(a: int, b: int)
    requires -999 <= YearOf(a) <= -1 && -999 <= YearOf(b) <= -1
    requires YearOf(a) != YearOf(b)
    ensures StrLt(Format(a), Format(b)) <==> b < a
  {
    YearOrder(a, b);
    var fa, ya, x := NegativeStamp(a);
    var fb, yb, y := NegativeStamp(b);
    ReversedStamps(fa, fb, ya, yb, x, y);
  }
}
