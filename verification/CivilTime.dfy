/** UTC instants as civil dates of the proleptic Gregorian calendar, and their decimal
    fields. Instants are whole seconds since 0000-01-01T00:00:00Z. */
module CivilTime {
  import opened Decimal

  datatype Civil = Civil(year: nat, month: nat, day: nat, hour: nat, minute: nat, second: nat)

  const DAY: nat := 86400

  predicate IsLeap(y: nat) {
    y % 4 == 0 && (y % 100 != 0 || y % 400 == 0)
  }

  function YearDays(y: nat): (n: nat) {
    if IsLeap(y) then 366 else 365
  }

  function MonthDays(y: nat, m: nat): (n: nat)
    requires 1 <= m <= 12
    ensures 28 <= n <= 31
  {
    if m == 2 then (if IsLeap(y) then 29 else 28)
    else if m == 4 || m == 6 || m == 9 || m == 11 then 30
    else 31
  }

  function DaysBeforeYear(y: nat): (n: nat) {
    if y == 0 then 0 else DaysBeforeYear(y - 1) + YearDays(y - 1)
  }

  function DaysBeforeMonth(y: nat, m: nat): (n: nat)
    requires 1 <= m <= 13
  {
    if m == 1 then 0 else DaysBeforeMonth(y, m - 1) + MonthDays(y, m - 1)
  }

  predicate ValidCivil(c: Civil) {
    && 1 <= c.month <= 12 && 1 <= c.day <= MonthDays(c.year, c.month)
    && c.hour < 24 && c.minute < 60 && c.second < 60
  }

  function DayNumber(y: nat, m: nat, d: nat): (n: nat)
    requires 1 <= m <= 12 && 1 <= d
  {
    DaysBeforeYear(y) + DaysBeforeMonth(y, m) + d - 1
  }

  function FromCivil(c: Civil): (t: nat)
    requires ValidCivil(c)
  {
    DayNumber(c.year, c.month, c.day) * DAY + c.hour * 3600 + c.minute * 60 + c.second
  }

  // ---------------------------------------------------------------- and back

  function YearFrom(d: nat, y: nat): (r: nat)
    requires DaysBeforeYear(y) <= d
    ensures DaysBeforeYear(r) <= d < DaysBeforeYear(r + 1)
    decreases d - DaysBeforeYear(y)
  {
    if d < DaysBeforeYear(y + 1) then y else YearFrom(d, y + 1)
  }

  function MonthFrom(y: nat, doy: nat, m: nat): (r: nat)
    requires 1 <= m <= 12 && DaysBeforeMonth(y, m) <= doy < DaysBeforeMonth(y, 13)
    ensures 1 <= r <= 12 && DaysBeforeMonth(y, r) <= doy < DaysBeforeMonth(y, r + 1)
    decreases 12 - m
  {
    if m == 12 || doy < DaysBeforeMonth(y, m + 1) then m else MonthFrom(y, doy, m + 1)
  }

  lemma TwelveMonths(y: nat)
    ensures DaysBeforeMonth(y, 13) == YearDays(y)
  {
    var feb := MonthDays(y, 2);
    assert DaysBeforeMonth(y, 2) == 31;
    assert DaysBeforeMonth(y, 3) == 31 + feb;
    assert DaysBeforeMonth(y, 4) == 62 + feb;
    assert DaysBeforeMonth(y, 5) == 92 + feb;
    assert DaysBeforeMonth(y, 6) == 123 + feb;
    assert DaysBeforeMonth(y, 7) == 153 + feb;
    assert DaysBeforeMonth(y, 8) == 184 + feb;
    assert DaysBeforeMonth(y, 9) == 215 + feb;
    assert DaysBeforeMonth(y, 10) == 245 + feb;
    assert DaysBeforeMonth(y, 11) == 276 + feb;
    assert DaysBeforeMonth(y, 12) == 306 + feb;
  }

  function ToCivil(t: nat): (c: Civil) {
    var d := t / DAY;
    var s := t % DAY;
    var y := YearFrom(d, 0);
    TwelveMonths(y);
    var doy := d - DaysBeforeYear(y);
    var m := MonthFrom(y, doy, 1);
    Civil(y, m, doy - DaysBeforeMonth(y, m) + 1, s / 3600, s % 3600 / 60, s % 60)
  }

  lemma {:induction false} CivilOfInstant(t: nat)
    ensures ValidCivil(ToCivil(t)) && FromCivil(ToCivil(t)) == t
  {
    var d, s := t / DAY, t % DAY;
    assert t == d * DAY + s;
    var y := YearFrom(d, 0);
    TwelveMonths(y);
    var m := MonthFrom(y, d - DaysBeforeYear(y), 1);
    assert DaysBeforeMonth(y, m + 1) == DaysBeforeMonth(y, m) + MonthDays(y, m);
    TimeOfDay(s);
  }

  lemma TimeOfDay(s: nat)
    requires s < DAY
    ensures s / 3600 < 24 && s % 3600 / 60 < 60 && s / 3600 * 3600 + s % 3600 / 60 * 60 + s % 60 == s
  {
    assert s == s / 3600 * 3600 + s % 3600;
    assert s % 3600 == s % 3600 / 60 * 60 + s % 3600 % 60;
    assert s % 3600 % 60 == s % 60;
  }

  // ---------------------------------------------------------------- the Gregorian rule

  /** Multiples of m below y, and below y + 1. */
  lemma OneMoreMultiple(y: nat, m: nat)
    requires m == 4 || m == 100 || m == 400
    ensures (y + m) / m == (y + m - 1) / m + if y % m == 0 then 1 else 0
  {
  }

  /** The days before year y: 365 each, and one for every fourth year but three of four centuries. */
  lemma {:induction false} DaysBeforeYearClosed(y: nat)
    ensures DaysBeforeYear(y) == 365 * y + (y + 3) / 4 - (y + 99) / 100 + (y + 399) / 400
  {
    if y > 0 {
      DaysBeforeYearClosed(y - 1);
      OneMoreMultiple(y - 1, 4);
      OneMoreMultiple(y - 1, 100);
      OneMoreMultiple(y - 1, 400);
      CenturiesAreFourths(y - 1);
    }
  }

  lemma CenturiesAreFourths(y: nat)
    ensures (y % 400 == 0 ==> y % 100 == 0) && (y % 100 == 0 ==> y % 4 == 0)
  {
    Hundreds(4 * (y / 400));
    Fours(25 * (y / 100));
  }

  lemma Hundreds(n: nat)
    ensures 100 * n % 100 == 0
  {
  }

  lemma Fours(n: nat)
    ensures 4 * n % 4 == 0
  {
  }

  const MONTH_STARTS: seq<nat> := [0, 31, 59, 90, 120, 151, 181, 212, 243, 273, 304, 334]

  lemma DaysBeforeMonthClosed(y: nat, m: nat)
    requires 1 <= m <= 12
    ensures DaysBeforeMonth(y, m) ==
            MONTH_STARTS[m - 1] + if m > 2 && y % 4 == 0 && (y % 100 != 0 || y % 400 == 0) then 1 else 0
  {
    TwelveMonths(y);
  }

  /** The number of a date's day, by the rule of the Gregorian calendar. */
  lemma DayNumberClosed(y: nat, m: nat, d: nat)
    requires 1 <= m <= 12 && 1 <= d
    ensures DayNumber(y, m, d) ==
            365 * y + (y + 3) / 4 - (y + 99) / 100 + (y + 399) / 400 + MONTH_STARTS[m - 1]
            + (if m > 2 && y % 4 == 0 && (y % 100 != 0 || y % 400 == 0) then 1 else 0) + d - 1
  {
    DaysBeforeYearClosed(y);
    DaysBeforeMonthClosed(y, m);
  }

  // ---------------------------------------------------------------- order

  /** Field by field, most significant first. */
  ghost predicate Before(a: Civil, b: Civil) {
    || a.year < b.year
    || (a.year == b.year && (
        || a.month < b.month
        || (a.month == b.month && (
            || a.day < b.day
            || (a.day == b.day && (
                || a.hour < b.hour
                || (a.hour == b.hour && (
                    || a.minute < b.minute
                    || (a.minute == b.minute && a.second < b.second)))))))))
  }

  lemma {:induction false} YearsGrow(a: nat, b: nat)
    requires a <= b
    ensures DaysBeforeYear(a) <= DaysBeforeYear(b)
    decreases b - a
  {
    if a < b { YearsGrow(a, b - 1); }
  }

  lemma {:induction false} MonthsGrow(y: nat, a: nat, b: nat)
    requires 1 <= a <= b <= 13
    ensures DaysBeforeMonth(y, a) <= DaysBeforeMonth(y, b)
    decreases b - a
  {
    if a < b { MonthsGrow(y, a, b - 1); }
  }

  lemma DayInYear(y: nat, m: nat, d: nat)
    requires 1 <= m <= 12 && 1 <= d <= MonthDays(y, m)
    ensures DaysBeforeYear(y) <= DayNumber(y, m, d) < DaysBeforeYear(y + 1)
  {
    TwelveMonths(y);
    MonthsGrow(y, m + 1, 13);
    assert DaysBeforeMonth(y, m + 1) == DaysBeforeMonth(y, m) + MonthDays(y, m);
  }

  /** A date that is earlier field by field has a smaller day number. */
  lemma DaysOrdered(a: Civil, b: Civil)
    requires ValidCivil(a) && ValidCivil(b)
    requires a.year < b.year || (a.year == b.year && (a.month < b.month || (a.month == b.month && a.day < b.day)))
    ensures DayNumber(a.year, a.month, a.day) < DayNumber(b.year, b.month, b.day)
  {
    if a.year < b.year {
      DayInYear(a.year, a.month, a.day);
      DayInYear(b.year, b.month, b.day);
      YearsGrow(a.year + 1, b.year);
    } else if a.month < b.month {
      MonthsGrow(a.year, a.month + 1, b.month);
      assert DaysBeforeMonth(a.year, a.month + 1) == DaysBeforeMonth(a.year, a.month) + MonthDays(a.year, a.month);
    }
  }

  lemma EarlierIsLess(a: Civil, b: Civil)
    requires ValidCivil(a) && ValidCivil(b) && Before(a, b)
    ensures FromCivil(a) < FromCivil(b)
  {
    var da, db := DayNumber(a.year, a.month, a.day), DayNumber(b.year, b.month, b.day);
    if a.year != b.year || a.month != b.month || a.day != b.day {
      DaysOrdered(a, b);
      assert (da + 1) * DAY <= db * DAY;
    }
  }

  /** Civil order is instant order, both ways. */
  lemma {:induction false} CivilOrder(t: nat, u: nat)
    ensures Before(ToCivil(t), ToCivil(u)) <==> t < u
    ensures ToCivil(t) == ToCivil(u) <==> t == u
  {
    CivilOfInstant(t);
    CivilOfInstant(u);
    var a, b := ToCivil(t), ToCivil(u);
    if Before(a, b) { EarlierIsLess(a, b); }
    if Before(b, a) { EarlierIsLess(b, a); }
  }

  /** Every valid date is the date of its instant. */
  lemma {:induction false} InstantOfCivil(c: Civil)
    requires ValidCivil(c)
    ensures ToCivil(FromCivil(c)) == c
  {
    var a := ToCivil(FromCivil(c));
    CivilOfInstant(FromCivil(c));
    if Before(a, c) { EarlierIsLess(a, c); }
    if Before(c, a) { EarlierIsLess(c, a); }
  }

  // ---------------------------------------------------------------- fixed-width fields

  function Pow10(w: nat): (n: nat)
    ensures n > 0
  {
    if w == 0 then 1 else 10 * Pow10(w - 1)
  }

  /** The last w decimal digits of n. */
  function Pad(n: nat, w: nat): (s: string)
    ensures |s| == w && AllDigits(s)
  {
    if w == 0 then "" else Pad(n / 10, w - 1) + [DigitChar(n % 10)]
  }

  lemma {:induction false} ValueOfPad(n: nat, w: nat)
    requires n < Pow10(w)
    ensures Value(Pad(n, w)) == n
  {
    if w > 0 {
      ValueOfPad(n / 10, w - 1);
      assert Pad(n, w)[..w - 1] == Pad(n / 10, w - 1);
    }
  }
}
