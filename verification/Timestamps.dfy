/** Timestamps as the database stores and compares them: text, byte by byte
    (internal/booking/list.go, internal/booking/service.go, and the "C" collation of the
    timestamp columns). An instant is in nanoseconds since 0000-01-01T00:00:00Z. */
module Timestamps {
  import opened Decimal
  import opened CivilTime

  const SECOND: int := 1_000_000_000

  /** A year that takes four digits. */
  ghost predicate FourDigitYear(t: nat) {
    ToCivil(t).year < 10000
  }

  // ---------------------------------------------------------------- byte order

  predicate Less(a: string, b: string)
    decreases |a|
  {
    b != "" && (a == "" || a[0] < b[0] || (a[0] == b[0] && Less(a[1..], b[1..])))
  }

  lemma {:induction false} LessConcat(a: string, a': string, b: string, b': string)
    requires |a| == |a'|
    ensures Less(a + b, a' + b') <==> Less(a, a') || (a == a' && Less(b, b'))
    decreases |a|
  {
    if a == "" {
      assert a + b == b && a' + b' == b';
    } else {
      assert (a + b)[1..] == a[1..] + b && (a' + b')[1..] == a'[1..] + b';
      LessConcat(a[1..], a'[1..], b, b');
      assert a == [a[0]] + a[1..] && a' == [a'[0]] + a'[1..];
    }
  }

  lemma {:induction false} LessIrreflexive(a: string)
    ensures !Less(a, a)
    decreases |a|
  {
    if a != "" { LessIrreflexive(a[1..]); }
  }

  /** Zero-padded numbers compare as numbers. */
  lemma {:induction false} PadOrder(n: nat, m: nat, w: nat)
    requires n < Pow10(w) && m < Pow10(w)
    ensures Less(Pad(n, w), Pad(m, w)) <==> n < m
    ensures Pad(n, w) == Pad(m, w) <==> n == m
    decreases w
  {
    if w > 0 {
      PadOrder(n / 10, m / 10, w - 1);
      var a, b := Pad(n / 10, w - 1), Pad(m / 10, w - 1);
      LessConcat(a, b, [DigitChar(n % 10)], [DigitChar(m % 10)]);
      assert Pad(n, w)[..w - 1] == a && Pad(m, w)[..w - 1] == b;
      assert Pad(n, w)[w - 1] == DigitChar(n % 10) && Pad(m, w)[w - 1] == DigitChar(m % 10);
    }
  }

  // ---------------------------------------------------------------- whole seconds

  /** 2006-01-02T15:04:05, the part before any fraction and the final Z. */
  function Prefix(t: nat): (s: string) {
    var c := ToCivil(t);
    Pad(c.year, 4) + ("-" + (Pad(c.month, 2) + ("-" + (Pad(c.day, 2) +
      ("T" + (Pad(c.hour, 2) + (":" + (Pad(c.minute, 2) + (":" + Pad(c.second, 2))))))))))
  }

  function RFC3339(t: nat): (s: string) {
    Prefix(t) + "Z"
  }

  /** One field followed by more text: the field decides unless it is equal. */
  lemma FieldOrder(n: nat, m: nat, w: nat, sep: string, b: string, b': string)
    requires n < Pow10(w) && m < Pow10(w)
    ensures Less(Pad(n, w) + (sep + b), Pad(m, w) + (sep + b')) <==> n < m || (n == m && Less(b, b'))
    ensures Pad(n, w) + (sep + b) == Pad(m, w) + (sep + b') <==> n == m && b == b'
  {
    PadOrder(n, m, w);
    LessConcat(Pad(n, w), Pad(m, w), sep + b, sep + b');
    LessConcat(sep, sep, b, b');
    LessIrreflexive(sep);
    ConcatInjective(Pad(n, w), Pad(m, w), sep + b, sep + b');
    ConcatInjective(sep, sep, b, b');
  }

  lemma ConcatInjective(a: string, a': string, b: string, b': string)
    requires |a| == |a'|
    ensures a + b == a' + b' <==> a == a' && b == b'
  {
    if a + b == a' + b' {
      assert a == (a + b)[..|a|] && a' == (a' + b')[..|a|];
      assert b == (a + b)[|a|..] && b' == (a' + b')[|a|..];
    }
  }

  /** The clock part of the text. */
  function Clock(c: Civil): (s: string) {
    Pad(c.hour, 2) + (":" + (Pad(c.minute, 2) + (":" + Pad(c.second, 2))))
  }

  lemma ClockOrder(a: Civil, b: Civil)
    requires ValidCivil(a) && ValidCivil(b)
    ensures Less(Clock(a), Clock(b)) <==>
              a.hour < b.hour || (a.hour == b.hour && (a.minute < b.minute
                || (a.minute == b.minute && a.second < b.second)))
    ensures Clock(a) == Clock(b) <==> a.hour == b.hour && a.minute == b.minute && a.second == b.second
  {
    PadOrder(a.second, b.second, 2);
    FieldOrder(a.minute, b.minute, 2, ":", Pad(a.second, 2), Pad(b.second, 2));
    FieldOrder(a.hour, b.hour, 2, ":",
               Pad(a.minute, 2) + (":" + Pad(a.second, 2)), Pad(b.minute, 2) + (":" + Pad(b.second, 2)));
  }

  /** The text of a date and time, as printed, orders as the fields do. */
  lemma PrefixOrderOfFields(t: nat, u: nat)
    requires FourDigitYear(t) && FourDigitYear(u)
    ensures Less(Prefix(t), Prefix(u)) <==> Before(ToCivil(t), ToCivil(u))
    ensures Prefix(t) == Prefix(u) <==> ToCivil(t) == ToCivil(u)
  {
    var a, b := ToCivil(t), ToCivil(u);
    CivilOfInstant(t);
    CivilOfInstant(u);
    ClockOrder(a, b);
    var da, db := Pad(a.day, 2) + ("T" + Clock(a)), Pad(b.day, 2) + ("T" + Clock(b));
    FieldOrder(a.day, b.day, 2, "T", Clock(a), Clock(b));
    var ma, mb := Pad(a.month, 2) + ("-" + da), Pad(b.month, 2) + ("-" + db);
    FieldOrder(a.month, b.month, 2, "-", da, db);
    FieldOrder(a.year, b.year, 4, "-", ma, mb);
    assert Prefix(t) == Pad(a.year, 4) + ("-" + ma);
    assert Prefix(u) == Pad(b.year, 4) + ("-" + mb);
  }

  lemma {:induction false} PrefixOrder(t: nat, u: nat)
    requires FourDigitYear(t) && FourDigitYear(u)
    ensures Less(Prefix(t), Prefix(u)) <==> t < u
    ensures Prefix(t) == Prefix(u) <==> t == u
  {
    PrefixOrderOfFields(t, u);
    CivilOrder(t, u);
  }

  /** For whole seconds, text order is time order. */
  lemma {:induction false} TextOrder(t: nat, u: nat)
    requires FourDigitYear(t) && FourDigitYear(u)
    ensures Less(RFC3339(t), RFC3339(u)) <==> t < u
  {
    PrefixOrder(t, u);
    LessConcat(Prefix(t), Prefix(u), "Z", "Z");
    LessIrreflexive("Z");
  }

  /** hostBusy compares text: start_at < end AND end_at > start. For whole seconds that is
      exactly the overlap of [bStart, bEnd) with [start, end). */
  lemma {:induction false} HostBusyTextIsOverlap(bStart: nat, bEnd: nat, start: nat, end: nat)
    requires FourDigitYear(bStart) && FourDigitYear(bEnd) && FourDigitYear(start) && FourDigitYear(end)
    ensures (Less(RFC3339(bStart), RFC3339(end)) && Less(RFC3339(start), RFC3339(bEnd)))
            <==> bStart < end && bEnd > start
  {
    TextOrder(bStart, end);
    TextOrder(start, bEnd);
  }

  // ---------------------------------------------------------------- fractions

  /** A fraction without its trailing zeros. */
  function Trim(s: string): (r: string) {
    if s != "" && s[|s| - 1] == '0' then Trim(s[..|s| - 1]) else s
  }

  /** The digits printed after the point for n nanoseconds; none when n is 0. */
  function Digits(n: nat): (s: string) {
    Trim(Pad(n, 9))
  }

  function Fraction(digits: string): (s: string) {
    if digits == "" then "" else "." + digits
  }

  /** time.RFC3339Nano: the fraction, if any, is printed without trailing zeros. */
  function RFC3339Nano(ns: nat): (s: string) {
    Prefix(ns / SECOND) + (Fraction(Digits(ns % SECOND)) + "Z")
  }

  /** sqlTime: truncated to the second. */
  function SqlTime(ns: nat): (s: string) {
    RFC3339(ns / SECOND)
  }

  function Zeros(n: nat): (s: string)
    ensures |s| == n
  {
    if n == 0 then "" else ['0'] + Zeros(n - 1)
  }

  lemma {:induction false} ZerosSnoc(n: nat)
    ensures Zeros(n) + ['0'] == Zeros(n + 1)
  {
    if n > 0 {
      ZerosSnoc(n - 1);
      assert Zeros(n) + ['0'] == ['0'] + (Zeros(n - 1) + ['0']);
    }
  }

  ghost predicate NoTrailingZero(s: string) {
    s != "" ==> s[|s| - 1] != '0'
  }

  lemma ConcatSnoc(a: string, b: string, c: char)
    ensures (a + b) + [c] == a + (b + [c])
  {
  }

  lemma {:induction false} TrimPads(s: string)
    requires AllDigits(s)
    ensures |Trim(s)| <= |s| && AllDigits(Trim(s)) && NoTrailingZero(Trim(s))
    ensures s == Trim(s) + Zeros(|s| - |Trim(s)|)
  {
    if s != "" && s[|s| - 1] == '0' {
      var front := s[..|s| - 1];
      TrimPads(front);
      ZerosSnoc(|front| - |Trim(front)|);
      ConcatSnoc(Trim(front), Zeros(|front| - |Trim(front)|), '0');
      assert s == front + ['0'];
    } else {
      assert s == s + Zeros(0);
    }
  }

  lemma {:induction false} ZerosLeast(p: string)
    requires AllDigits(p)
    ensures !Less(p, Zeros(|p|))
    decreases |p|
  {
    if p != "" {
      assert Zeros(|p|)[1..] == Zeros(|p| - 1);
      ZerosLeast(p[1..]);
    }
  }

  /** Two fractions in increasing order, printed without trailing zeros: their texts are in
      order exactly when the first is not a prefix of the second. */
  lemma {:induction false} FractionOrder(x: string, y: string, w: nat)
    requires |x| <= w && |y| <= w && AllDigits(x) && AllDigits(y)
    requires Less(x + Zeros(w - |x|), y + Zeros(w - |y|))
    ensures Less(x + "Z", y + "Z") <==> !(x <= y)
    decreases w
  {
    if x == "" {
      assert x + Zeros(w) == Zeros(w);
      assert x + "Z" == "Z";
      if y == "" {
        assert y + Zeros(w) == Zeros(w);
        LessIrreflexive(Zeros(w));
      } else {
        assert IsDigit((y + "Z")[0]);
      }
    } else if y == "" {
      assert y + Zeros(w) == Zeros(w);
      assert AllDigits(x + Zeros(w - |x|)) by { ZeroDigits(w - |x|); }
      ZerosLeast(x + Zeros(w - |x|));
    } else {
      var p, q := x + Zeros(w - |x|), y + Zeros(w - |y|);
      assert p[0] == x[0] && q[0] == y[0];
      assert (x + "Z")[0] == x[0] && (y + "Z")[0] == y[0];
      if x[0] == y[0] {
        assert p[1..] == x[1..] + Zeros(w - |x|) && q[1..] == y[1..] + Zeros(w - |y|);
        FractionOrder(x[1..], y[1..], w - 1);
        assert (x + "Z")[1..] == x[1..] + "Z" && (y + "Z")[1..] == y[1..] + "Z";
        assert x <= y <==> x[1..] <= y[1..] by {
          assert x == [x[0]] + x[1..] && y == [y[0]] + y[1..];
        }
      }
    }
  }

  lemma {:induction false} ZeroDigits(n: nat)
    ensures AllDigits(Zeros(n))
  {
    if n > 0 { ZeroDigits(n - 1); }
  }

  lemma DigitsOrder(n: nat, m: nat)
    requires n < m < SECOND
    ensures var x, y := Digits(n), Digits(m);
            y != "" && (Less(x + "Z", y + "Z") <==> !(x <= y))
  {
    PadOrder(n, m, 9);
    TrimPads(Pad(n, 9));
    TrimPads(Pad(m, 9));
    FractionOrder(Digits(n), Digits(m), 9);
    if Digits(m) == "" {
      assert Pad(m, 9) == Zeros(9);
      ZerosLeast(Pad(n, 9));
    }
  }

  /** Two fractions of one second: their texts compare as the digits do. */
  lemma SameSecondText(prefix: string, x: string, y: string)
    requires y != "" && (Less(x + "Z", y + "Z") <==> !(x <= y))
    ensures Less(prefix + (Fraction(x) + "Z"), prefix + (Fraction(y) + "Z")) <==> !(x <= y)
  {
    LessConcat(prefix, prefix, Fraction(x) + "Z", Fraction(y) + "Z");
    LessIrreflexive(prefix);
    LessConcat(".", ".", x + "Z", y + "Z");
    LessIrreflexive(".");
    assert Fraction(y) + "Z" == "." + (y + "Z");
    if x == "" {
      assert (Fraction(x) + "Z")[0] == 'Z' && (Fraction(y) + "Z")[0] == '.';
    } else {
      assert Fraction(x) + "Z" == "." + (x + "Z");
    }
  }

  /** With fractions, the stored text of an earlier instant sorts before that of a later one
      exactly unless they fall in one second and the earlier fraction, as printed, is a
      prefix of the later one. */
  lemma {:induction false} NanoTextOrder(a: nat, b: nat)
    requires a < b && FourDigitYear(a / SECOND) && FourDigitYear(b / SECOND)
    ensures Less(RFC3339Nano(a), RFC3339Nano(b)) <==>
            !(a / SECOND == b / SECOND && Digits(a % SECOND) <= Digits(b % SECOND))
  {
    var x, y := Digits(a % SECOND), Digits(b % SECOND);
    PrefixOrder(a / SECOND, b / SECOND);
    if a / SECOND == b / SECOND {
      DigitsOrder(a % SECOND, b % SECOND);
      SameSecondText(Prefix(a / SECOND), x, y);
    } else {
      LessConcat(Prefix(a / SECOND), Prefix(b / SECOND), Fraction(x) + "Z", Fraction(y) + "Z");
    }
  }

  /** Whole seconds print without a fraction, so for them the nanosecond format is safe. */
  lemma {:induction false} WholeSecondText(ns: nat)
    requires ns % SECOND == 0
    ensures RFC3339Nano(ns) == RFC3339(ns / SECOND)
  {
    assert Pad(0, 9) == Zeros(9) by { PadZero(9); }
    TrimZeros(9);
  }

  lemma {:induction false} PadZero(w: nat)
    ensures Pad(0, w) == Zeros(w)
  {
    if w > 0 {
      PadZero(w - 1);
      ZerosSnoc(w - 1);
    }
  }

  lemma {:induction false} TrimZeros(n: nat)
    ensures Trim(Zeros(n)) == ""
  {
    if n > 0 {
      ZerosSnoc(n - 1);
      assert Zeros(n)[..n - 1] == Zeros(n - 1) && Zeros(n)[n - 1] == '0';
      TrimZeros(n - 1);
    }
  }

  /** A truncated boundary compares with a stored whole-second time as the instants do. */
  lemma {:induction false} SqlTimeBoundary(stored: nat, now: nat)
    requires stored % SECOND == 0 && FourDigitYear(stored / SECOND) && FourDigitYear(now / SECOND)
    ensures Less(RFC3339Nano(stored), SqlTime(now)) <==> stored / SECOND < now / SECOND
    ensures Less(SqlTime(now), RFC3339Nano(stored)) <==> now < stored
  {
    WholeSecondText(stored);
    TextOrder(stored / SECOND, now / SECOND);
    TextOrder(now / SECOND, stored / SECOND);
  }

  // ---------------------------------------------------------------- the text itself

  lemma ShapeOfTime(hour: string, minute: string, second: string)
    requires |hour| == |minute| == |second| == 2
    ensures var s := hour + (":" + (minute + (":" + second)));
            && |s| == 8 && s[2] == s[5] == ':' && s[0..2] == hour && s[3..5] == minute && s[6..8] == second
  {
  }

  lemma ShapeOfDate(year: string, month: string, day: string, time: string)
    requires |year| == 4 && |month| == |day| == 2 && |time| == 8
    ensures var s := year + ("-" + (month + ("-" + (day + ("T" + time)))));
            && |s| == 19 && s[4] == s[7] == '-' && s[10] == 'T'
            && s[0..4] == year && s[5..7] == month && s[8..10] == day && s[11..] == time
  {
  }

  /** Section 5.6 of RFC 3339: date and time of day at their places, in UTC. */
  lemma TextShape(t: nat)
    ensures var s, c := RFC3339(t), ToCivil(t);
            && |s| == 20 && s[4] == s[7] == '-' && s[10] == 'T' && s[13] == s[16] == ':' && s[19] == 'Z'
            && s[0..4] == Pad(c.year, 4) && s[5..7] == Pad(c.month, 2) && s[8..10] == Pad(c.day, 2)
            && s[11..13] == Pad(c.hour, 2) && s[14..16] == Pad(c.minute, 2) && s[17..19] == Pad(c.second, 2)
  {
    var c := ToCivil(t);
    var time := Pad(c.hour, 2) + (":" + (Pad(c.minute, 2) + (":" + Pad(c.second, 2))));
    ShapeOfTime(Pad(c.hour, 2), Pad(c.minute, 2), Pad(c.second, 2));
    ShapeOfDate(Pad(c.year, 4), Pad(c.month, 2), Pad(c.day, 2), time);
    WithZone(Prefix(t), time);
  }

  lemma WithZone(s: string, time: string)
    requires |s| == 19 && s[11..] == time && |time| == 8
    ensures var z := s + "Z";
            && |z| == 20 && z[19] == 'Z' && (forall i :: 0 <= i < 19 ==> z[i] == s[i])
            && z[0..4] == s[0..4] && z[5..7] == s[5..7] && z[8..10] == s[8..10]
            && z[11..13] == time[0..2] && z[14..16] == time[3..5] && z[17..19] == time[6..8]
            && z[13] == time[2] && z[16] == time[5]
  {
    assert forall i :: 0 <= i < 8 ==> s[11 + i] == s[11..][i];
  }

  /** The nanoseconds follow a point, or there is nothing at all when there are none. */
  lemma NanoShape(ns: nat)
    ensures var d, front := Digits(ns % SECOND), Prefix(ns / SECOND);
            RFC3339Nano(ns) == front + (if d == "" then "Z" else "." + d + "Z")
  {
  }

  /** They are nine digits less the trailing zeros. */
  lemma NanoDigits(n: nat)
    requires n < SECOND
    ensures var d := Digits(n);
            && |d| <= 9 && AllDigits(d) && NoTrailingZero(d) && AllDigits(d + Zeros(9 - |d|))
            && Value(d + Zeros(9 - |d|)) == n
  {
    PowersOfTen();
    DigitsDenote(n, 9);
  }

  lemma DigitsDenote(n: nat, w: nat)
    requires n < Pow10(w)
    ensures var d := Trim(Pad(n, w));
            && |d| <= w && AllDigits(d) && NoTrailingZero(d) && AllDigits(d + Zeros(w - |d|))
            && Value(d + Zeros(w - |d|)) == n
  {
    TrimPads(Pad(n, w));
    ValueOfPad(n, w);
  }

  lemma PowersOfTen()
    ensures Pow10(9) == SECOND
  {
    assert Pow10(3) == 1000;
    assert Pow10(6) == 1000 * Pow10(3);
    assert Pow10(9) == 1000 * Pow10(6);
  }

  // ---------------------------------------------------------------- where text and time disagree

  /** Earlier instants have years no later. */
  lemma EarlierYear(t: nat, u: nat)
    requires t <= u && FourDigitYear(u)
    ensures FourDigitYear(t)
  {
    CivilOrder(t, u);
  }

  /** Instants of different seconds compare as text the way they do in time. */
  lemma OtherSecondText(a: nat, b: nat)
    requires a / SECOND < b / SECOND && FourDigitYear(b / SECOND)
    ensures Less(RFC3339Nano(a), RFC3339Nano(b))
  {
    EarlierYear(a / SECOND, b / SECOND);
    assert a < b;
    NanoTextOrder(a, b);
  }

  lemma NoDigits()
    ensures Digits(0) == ""
  {
    PadZero(9);
    TrimZeros(9);
  }

  /** A whole second sorts after every fraction of it. */
  lemma WholeSecondLast(whole: nat, ns: nat)
    requires whole % SECOND == 0 && whole / SECOND == ns / SECOND && whole <= ns && FourDigitYear(ns / SECOND)
    ensures !Less(RFC3339Nano(whole), RFC3339Nano(ns))
  {
    if whole < ns {
      NoDigits();
      NanoTextOrder(whole, ns);
    } else {
      LessIrreflexive(RFC3339Nano(ns));
    }
  }

  lemma TrimPadTen(m: nat, w: nat)
    ensures Trim(Pad(10 * m, w + 1)) == Trim(Pad(m, w))
  {
    assert Pad(10 * m, w + 1)[..w] == Pad(m, w) && Pad(10 * m, w + 1)[w] == '0';
  }

  lemma DigitsOfHalf()
    ensures Digits(500_000_000) == "5" && Digits(520_000_000) == "52"
  {
    TrimPadTen(50_000_000, 8);
    TrimPadTen(5_000_000, 7);
    TrimPadTen(500_000, 6);
    TrimPadTen(50_000, 5);
    TrimPadTen(5_000, 4);
    TrimPadTen(500, 3);
    TrimPadTen(50, 2);
    TrimPadTen(5, 1);
    TrimPadTen(52_000_000, 8);
    TrimPadTen(5_200_000, 7);
    TrimPadTen(520_000, 6);
    TrimPadTen(52_000, 5);
    TrimPadTen(5_200, 4);
    TrimPadTen(520, 3);
    TrimPadTen(52, 2);
    assert Pad(5, 1) == "5" && Pad(52, 2) == "52";
  }

  /** Half past a second sorts after twenty milliseconds later, in every second. */
  lemma HalfSecondMisordered(half: nat)
    requires half % SECOND == 500_000_000 && FourDigitYear(half / SECOND)
    ensures !Less(RFC3339Nano(half), RFC3339Nano(half + 20_000_000))
  {
    var later := half + 20_000_000;
    assert later / SECOND == half / SECOND && later % SECOND == 520_000_000;
    DigitsOfHalf();
    NanoTextOrder(half, later);
  }

  lemma {:induction false} LessAsymmetric(a: string, b: string)
    requires Less(a, b)
    ensures !Less(b, a)
    decreases |a|
  {
    if a != "" && a[0] == b[0] {
      LessAsymmetric(a[1..], b[1..]);
    }
  }

  /** end_at > now, for a whole-second end: it holds until the second of the end is over, except
      at the very instant of the end. */
  predicate EndsAfter(end: int, now: nat) {
    now / SECOND <= end / SECOND && end != now
  }

  lemma {:induction false} EndsAfterText(end: nat, now: nat)
    requires end % SECOND == 0 && FourDigitYear(end / SECOND) && FourDigitYear(now / SECOND)
    ensures Less(RFC3339Nano(now), RFC3339Nano(end)) <==> EndsAfter(end, now)
  {
    if now / SECOND < end / SECOND {
      OtherSecondText(now, end);
    } else if end / SECOND < now / SECOND {
      OtherSecondText(end, now);
      LessAsymmetric(RFC3339Nano(end), RFC3339Nano(now));
    } else if end == now {
      LessIrreflexive(RFC3339Nano(end));
    } else {
      FractionFirst(end, now);
    }
  }

  /** created_at < bound, for a bound truncated to the second: every earlier second, and any
      fraction of the bound's own. */
  predicate CreatedBefore(created: nat, bound: int) {
    created / SECOND < bound / SECOND || (created / SECOND == bound / SECOND && created % SECOND != 0)
  }

  lemma Truncated(created: nat, bound: nat) returns (whole: nat)
    ensures whole % SECOND == 0 && whole / SECOND == bound / SECOND
    ensures CreatedBefore(created, bound) <==> EndsAfter(whole, created)
  {
    whole := bound - bound % SECOND;
  }

  lemma {:induction false} CreatedBeforeText(created: nat, bound: nat)
    requires FourDigitYear(created / SECOND) && FourDigitYear(bound / SECOND)
    ensures Less(RFC3339Nano(created), SqlTime(bound)) <==> CreatedBefore(created, bound)
  {
    var whole := Truncated(created, bound);
    WholeSecondText(whole);
    EndsAfterText(whole, created);
  }

  /** A fraction of a second sorts before the whole of it. */
  lemma FractionFirst(whole: nat, ns: nat)
    requires whole % SECOND == 0 && whole / SECOND == ns / SECOND && whole < ns
    ensures Less(RFC3339Nano(ns), RFC3339Nano(whole))
  {
    var d := Digits(ns % SECOND);
    NoDigits();
    DigitsOrder(0, ns % SECOND);
    var prefix := Prefix(whole / SECOND);
    LessConcat(prefix, prefix, Fraction(d) + "Z", Fraction("") + "Z");
    assert (Fraction(d) + "Z")[0] == '.' && (Fraction("") + "Z")[0] == 'Z';
  }
}
