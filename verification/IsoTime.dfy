/**
 UTC timestamps as `_to_iso` of knowledge/catalog/repository.py writes them, and why comparing
 the texts compares the instants.
 */
module IsoTime {
  import opened Common

  /** A UTC date and time of Python's datetime. */
  datatype Instant = Instant(year: nat, month: nat, day: nat, hour: nat, minute: nat, second: nat, micro: nat)

  predicate Leap(year: nat) { year % 4 == 0 && (year % 100 != 0 || year % 400 == 0) }

  function DaysInMonth(year: nat, month: nat): nat {
    if month == 2 then (if Leap(year) then 29 else 28)
    else if month == 4 || month == 6 || month == 9 || month == 11 then 30
    else 31
  }

  predicate Valid(t: Instant) {
    && 1 <= t.year <= 9999 && 1 <= t.month <= 12 && 1 <= t.day <= DaysInMonth(t.year, t.month)
    && t.hour < 24 && t.minute < 60 && t.second < 60 && t.micro < 1_000_000
  }

  // ---- The instant as a number of microseconds ----

  function DaysBeforeYear(year: nat): nat {
    if year <= 1 then 0 else DaysBeforeYear(year - 1) + if Leap(year - 1) then 366 else 365
  }

  function DaysBeforeMonth(year: nat, month: nat): nat {
    if month <= 1 then 0 else DaysBeforeMonth(year, month - 1) + DaysInMonth(year, month - 1)
  }

  function Days(t: Instant): nat {
    DaysBeforeYear(t.year) + DaysBeforeMonth(t.year, t.month) + t.day
  }

  function Micros(t: Instant): nat {
    (((Days(t) * 24 + t.hour) * 60 + t.minute) * 60 + t.second) * 1_000_000 + t.micro
  }

  /** Field-by-field order. */
  predicate Earlier(a: Instant, b: Instant) {
    || a.year < b.year
    || (a.year == b.year && (a.month < b.month
    || (a.month == b.month && (a.day < b.day
    || (a.day == b.day && (a.hour < b.hour
    || (a.hour == b.hour && (a.minute < b.minute
    || (a.minute == b.minute && (a.second < b.second
    || (a.second == b.second && a.micro < b.micro)))))))))))
  }

  lemma {:induction false} YearsGrow(a: nat, b: nat)
    requires 1 <= a < b
    ensures DaysBeforeYear(a) + (if Leap(a) then 366 else 365) <= DaysBeforeYear(b)
    decreases b
  {
    if a < b - 1 { YearsGrow(a, b - 1); }
  }

  lemma {:induction false} MonthsGrow(year: nat, a: nat, b: nat)
    requires 1 <= a < b
    ensures DaysBeforeMonth(year, a) + DaysInMonth(year, a) <= DaysBeforeMonth(year, b)
    decreases b
  {
    if a < b - 1 { MonthsGrow(year, a, b - 1); }
  }

  lemma {:induction false} YearLength(year: nat)
    ensures DaysBeforeMonth(year, 12) + 31 == if Leap(year) then 366 else 365
  {
    assert DaysBeforeMonth(year, 1) == 0 && DaysBeforeMonth(year, 2) == 31;
    assert DaysBeforeMonth(year, 3) == 31 + DaysInMonth(year, 2);
    assert DaysBeforeMonth(year, 5) == DaysBeforeMonth(year, 3) + 61;
    assert DaysBeforeMonth(year, 7) == DaysBeforeMonth(year, 5) + 61;
    assert DaysBeforeMonth(year, 9) == DaysBeforeMonth(year, 7) + 62;
    assert DaysBeforeMonth(year, 11) == DaysBeforeMonth(year, 9) + 61;
    assert DaysBeforeMonth(year, 12) == DaysBeforeMonth(year, 11) + 30;
  }

  lemma {:induction false} DaysGrow(a: Instant, b: Instant)
    requires Valid(a) && Valid(b)
    requires a.year < b.year || (a.year == b.year && (a.month < b.month || (a.month == b.month && a.day < b.day)))
    ensures Days(a) < Days(b)
  {
    if a.year < b.year {
      YearsGrow(a.year, b.year);
      YearLength(a.year);
      if a.month < 12 { MonthsGrow(a.year, a.month, 12); }
    } else if a.month < b.month {
      MonthsGrow(a.year, a.month, b.month);
    }
  }

  lemma {:induction false} EarlierIsLess(a: Instant, b: Instant)
    requires Valid(a) && Valid(b) && Earlier(a, b)
    ensures Micros(a) < Micros(b)
  {
    if a.year != b.year || a.month != b.month || a.day != b.day {
      DaysGrow(a, b);
    }
  }

  lemma {:induction false} MicrosOrder(a: Instant, b: Instant)
    requires Valid(a) && Valid(b)
    ensures Micros(a) < Micros(b) <==> Earlier(a, b)
    ensures Micros(a) == Micros(b) <==> a == b
  {
    if Earlier(a, b) {
      EarlierIsLess(a, b);
    } else if a != b {
      EarlierIsLess(b, a);
    }
  }

  // ---- The text ----

  function DigitChar(d: nat): char requires d < 10 { (d + '0' as int) as char }

  /** The last `width` decimal digits of `n`. */
  function Pad(n: nat, width: nat): (r: string)
    ensures |r| == width
  {
    if width == 0 then "" else Pad(n / 10, width - 1) + [DigitChar(n % 10)]
  }

  function Fraction(micro: nat): string {
    if micro == 0 then "+00:00" else "." + (Pad(micro, 6) + "+00:00")
  }

  /** `isoformat` of a UTC datetime: the microseconds appear only when there are some. */
  function Iso(t: Instant): string {
    Pad(t.year, 4) + ("-" + (Pad(t.month, 2) + ("-" + (Pad(t.day, 2) + ("T" + (Pad(t.hour, 2)
      + (":" + (Pad(t.minute, 2) + (":" + (Pad(t.second, 2) + Fraction(t.micro)))))))))))
  }

  function Pow10(n: nat): nat { if n == 0 then 1 else 10 * Pow10(n - 1) }

  lemma {:induction false} CharOrder(c: char, d: char, x: string, y: string)
    ensures TextLess([c] + x, [d] + y) <==> c < d || (c == d && TextLess(x, y))
    ensures [c] + x == [d] + y <==> c == d && x == y
  {
    assert ([c] + x)[0] == c && ([d] + y)[0] == d;
    assert ([c] + x)[1..] == x && ([d] + y)[1..] == y;
  }

  /** Digits of one width compare as the numbers do. */
  lemma {:induction false} PadOrder(m: nat, n: nat, width: nat, x: string, y: string)
    requires m < Pow10(width) && n < Pow10(width)
    ensures TextLess(Pad(m, width) + x, Pad(n, width) + y) <==> m < n || (m == n && TextLess(x, y))
    ensures Pad(m, width) + x == Pad(n, width) + y <==> m == n && x == y
    decreases width
  {
    if width == 0 {
      assert "" + x == x && "" + y == y;
    } else {
      var c, d := DigitChar(m % 10), DigitChar(n % 10);
      CharOrder(c, d, x, y);
      PadOrder(m / 10, n / 10, width - 1, [c] + x, [d] + y);
      assert Pad(m, width) + x == Pad(m / 10, width - 1) + ([c] + x);
      assert Pad(n, width) + y == Pad(n / 10, width - 1) + ([d] + y);
    }
  }

  /** A separator and a two-digit field. */
  lemma {:induction false} FieldOrder(c: char, m: nat, n: nat, x: string, y: string)
    requires m < 100 && n < 100
    ensures TextLess([c] + (Pad(m, 2) + x), [c] + (Pad(n, 2) + y)) <==> m < n || (m == n && TextLess(x, y))
    ensures [c] + (Pad(m, 2) + x) == [c] + (Pad(n, 2) + y) <==> m == n && x == y
  {
    assert Pow10(2) == 100;
    CharOrder(c, c, Pad(m, 2) + x, Pad(n, 2) + y);
    PadOrder(m, n, 2, x, y);
  }

  /** '+' sorts before '.', so a whole second sorts before its fractions. */
  lemma {:induction false} FractionOrder(m: nat, n: nat)
    requires m < 1_000_000 && n < 1_000_000
    ensures TextLess(Fraction(m), Fraction(n)) <==> m < n
    ensures Fraction(m) == Fraction(n) <==> m == n
  {
    assert Pow10(3) == 1000 && Pow10(6) == 1000 * Pow10(3);
    TextLessTotal("+00:00", "+00:00");
    PadOrder(m, n, 6, "+00:00", "+00:00");
    CharOrder('.', '.', Pad(m, 6) + "+00:00", Pad(n, 6) + "+00:00");
    CharOrder('+', '.', "00:00", Pad(n, 6) + "+00:00");
    CharOrder('.', '+', Pad(m, 6) + "+00:00", "00:00");
    assert "+00:00" == ['+'] + "00:00";
  }

  function FromMinute(t: Instant): string { [':'] + (Pad(t.minute, 2) + ([':'] + (Pad(t.second, 2) + Fraction(t.micro)))) }

  function FromDay(t: Instant): string { ['-'] + (Pad(t.day, 2) + (['T'] + (Pad(t.hour, 2) + FromMinute(t)))) }

  lemma {:induction false} FromMinuteOrder(a: Instant, b: Instant)
    requires Valid(a) && Valid(b)
    ensures TextLess(FromMinute(a), FromMinute(b)) <==>
              a.minute < b.minute || (a.minute == b.minute && (a.second < b.second
              || (a.second == b.second && a.micro < b.micro)))
    ensures FromMinute(a) == FromMinute(b) <==> a.minute == b.minute && a.second == b.second && a.micro == b.micro
  {
    FractionOrder(a.micro, b.micro);
    FieldOrder(':', a.second, b.second, Fraction(a.micro), Fraction(b.micro));
    FieldOrder(':', a.minute, b.minute, [':'] + (Pad(a.second, 2) + Fraction(a.micro)),
               [':'] + (Pad(b.second, 2) + Fraction(b.micro)));
  }

  lemma {:induction false} FromDayOrder(a: Instant, b: Instant)
    requires Valid(a) && Valid(b)
    ensures TextLess(FromDay(a), FromDay(b)) <==>
              a.day < b.day || (a.day == b.day && (a.hour < b.hour
              || (a.hour == b.hour && TextLess(FromMinute(a), FromMinute(b)))))
    ensures FromDay(a) == FromDay(b) <==> a.day == b.day && a.hour == b.hour && FromMinute(a) == FromMinute(b)
  {
    FieldOrder('T', a.hour, b.hour, FromMinute(a), FromMinute(b));
    FieldOrder('-', a.day, b.day, ['T'] + (Pad(a.hour, 2) + FromMinute(a)), ['T'] + (Pad(b.hour, 2) + FromMinute(b)));
  }

  /** Byte order of the texts is the order of the instants, and each instant has its own text. */
  lemma {:induction false} IsoOrder(a: Instant, b: Instant)
    requires Valid(a) && Valid(b)
    ensures TextLess(Iso(a), Iso(b)) <==> Micros(a) < Micros(b)
    ensures Iso(a) == Iso(b) <==> a == b
  {
    FromMinuteOrder(a, b);
    FromDayOrder(a, b);
    FieldOrder('-', a.month, b.month, FromDay(a), FromDay(b));
    assert Pow10(4) == 10 * (10 * (10 * (10 * Pow10(0))));
    PadOrder(a.year, b.year, 4, ['-'] + (Pad(a.month, 2) + FromDay(a)), ['-'] + (Pad(b.month, 2) + FromDay(b)));
    MicrosOrder(a, b);
  }
}
