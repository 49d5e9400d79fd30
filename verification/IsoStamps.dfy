/**
 UTC instants and the ISO 8601 text that `datetime.isoformat` writes for them.

 The pricing tables compare stamps as strings.  The text omits a zero fraction, so
 two stamps need not have the same length; the order still agrees with time because
 '+' sorts before '.', and '.' before every digit.
 */
module IsoStamps {
  import opened Texts

  const MICROS_PER_SECOND: nat := 1_000_000
  const SECONDS_PER_DAY: nat := 86_400

  /** Days from 0001-01-01 to the first day of year `y`. */
  function DaysBeforeYear(y: nat): (d: nat)
    requires 1 <= y
  {
    var p := y - 1;
    365 * p + p / 4 - p / 100 + p / 400
  }

  predicate IsLeap(y: nat) {
    y % 4 == 0 && (y % 100 != 0 || y % 400 == 0)
  }

  function DaysInMonth(y: nat, m: nat): (d: nat)
    requires 1 <= m <= 12
    ensures 28 <= d <= 31
  {
    if m == 2 then (if IsLeap(y) then 29 else 28)
    else if m == 4 || m == 6 || m == 9 || m == 11 then 30
    else 31
  }

  function DaysBeforeMonth(y: nat, m: nat): (d: nat)
    requires 1 <= m <= 13
  {
    if m == 1 then 0 else DaysBeforeMonth(y, m - 1) + DaysInMonth(y, m - 1)
  }

  /** The first day Python cannot represent: year 9999 is its last. */
  const DAY_LIMIT: nat := 3_652_059

  const INSTANT_LIMIT: nat := 315_537_897_600_000_000

  /** Microseconds since 0001-01-01T00:00:00Z. */
  type Instant = t: nat | t < INSTANT_LIMIT witness 0

  datatype Date = Date(year: nat, month: nat, day: nat)

  lemma LeapStep(p: nat)
    ensures (p + 1) / 4 == p / 4 + if (p + 1) % 4 == 0 then 1 else 0
    ensures (p + 1) / 100 == p / 100 + if (p + 1) % 100 == 0 then 1 else 0
    ensures (p + 1) / 400 == p / 400 + if (p + 1) % 400 == 0 then 1 else 0
  {
  }

  lemma LeapNesting(y: nat)
    ensures y % 400 == 0 ==> y % 100 == 0
    ensures y % 100 == 0 ==> y % 4 == 0
  {
    if y % 400 == 0 {
      var q := 4 * (y / 400);
      assert y == 100 * q;
    }
    if y % 100 == 0 {
      var q := 25 * (y / 100);
      assert y == 4 * q;
    }
  }

  lemma YearLength(y: nat)
    requires 1 <= y
    ensures DaysBeforeYear(y + 1) == DaysBeforeYear(y) + DaysBeforeMonth(y, 13)
    ensures DaysBeforeYear(y) < DaysBeforeYear(y + 1)
  {
    LeapStep(y - 1);
    LeapNesting(y);
    MonthTable(y);
  }

  lemma MonthTable(y: nat)
    ensures DaysBeforeMonth(y, 13) == if IsLeap(y) then 366 else 365
  {
    assert DaysBeforeMonth(y, 2) == 31;
    var n := DaysInMonth(y, 2);
    assert DaysBeforeMonth(y, 4) == 62 + n by { assert DaysBeforeMonth(y, 3) == 31 + n; }
    assert DaysBeforeMonth(y, 6) == 123 + n by { assert DaysBeforeMonth(y, 5) == 92 + n; }
    assert DaysBeforeMonth(y, 8) == 184 + n by { assert DaysBeforeMonth(y, 7) == 153 + n; }
    assert DaysBeforeMonth(y, 10) == 245 + n by { assert DaysBeforeMonth(y, 9) == 215 + n; }
    assert DaysBeforeMonth(y, 12) == 306 + n by { assert DaysBeforeMonth(y, 11) == 276 + n; }
  }

  /** The year that contains `day`, searching upwards from `y`. */
  function YearFrom(day: nat, y: nat): (r: nat)
    requires 1 <= y && DaysBeforeYear(y) <= day
    ensures y <= r && DaysBeforeYear(r) <= day < DaysBeforeYear(r + 1)
    decreases day - DaysBeforeYear(y)
  {
    YearLength(y);
    if day < DaysBeforeYear(y + 1) then y else YearFrom(day, y + 1)
  }

  function MonthFrom(rest: nat, y: nat, m: nat): (r: nat)
    requires 1 <= m <= 12 && DaysBeforeMonth(y, m) <= rest < DaysBeforeMonth(y, 13)
    ensures m <= r <= 12 && DaysBeforeMonth(y, r) <= rest < DaysBeforeMonth(y, r + 1)
    decreases 12 - m
  {
    if rest < DaysBeforeMonth(y, m + 1) then m else MonthFrom(rest, y, m + 1)
  }

  function DateOf(day: nat): (d: Date)
    ensures 1 <= d.year && 1 <= d.month <= 12 && 1 <= d.day <= 31
    ensures day == DaysBeforeYear(d.year) + DaysBeforeMonth(d.year, d.month) + d.day - 1
    ensures d.day <= DaysInMonth(d.year, d.month)
  {
    var y := YearFrom(day, 1);
    YearLength(y);
    var rest := day - DaysBeforeYear(y);
    var m := MonthFrom(rest, y, 1);
    Date(y, m, rest - DaysBeforeMonth(y, m) + 1)
  }

  lemma {:induction false} YearsMonotone(a: nat, b: nat)
    requires 1 <= a <= b
    ensures DaysBeforeYear(a) <= DaysBeforeYear(b)
    decreases b
  {
    if a < b {
      YearsMonotone(a, b - 1);
      YearLength(b - 1);
    }
  }

  lemma {:induction false} MonthsMonotone(y: nat, a: nat, b: nat)
    requires 1 <= a <= b <= 13
    ensures DaysBeforeMonth(y, a) <= DaysBeforeMonth(y, b)
    decreases b
  {
    if a < b {
      MonthsMonotone(y, a, b - 1);
    }
  }

  /** The calendar keeps the order of days. */
  lemma DatesKeepOrder(a: nat, b: nat)
    requires a < b
    ensures
      var x, y := DateOf(a), DateOf(b);
      x.year < y.year || (x.year == y.year && (x.month < y.month || (x.month == y.month && x.day < y.day)))
  {
    var x, y := DateOf(a), DateOf(b);
    if y.year < x.year {
      YearsMonotone(y.year + 1, x.year);
    } else if x.year == y.year && y.month < x.month {
      MonthsMonotone(x.year, y.month + 1, x.month);
    }
  }

  function Digit(n: nat): (c: char)
    requires n < 10
    ensures '0' <= c <= '9'
  {
    '0' + n as char
  }

  /** `n` in decimal, zero-padded to `width`. */
  function Pad(n: nat, width: nat): (s: string)
    ensures |s| == width
    ensures forall c :: c in s ==> '0' <= c <= '9'
  {
    if width == 0 then "" else Pad(n / 10, width - 1) + [Digit(n % 10)]
  }

  function Pow10(w: nat): (p: nat)
    ensures p >= 1
  {
    if w == 0 then 1 else 10 * Pow10(w - 1)
  }

  lemma {:induction false} PadOrder(a: nat, b: nat, width: nat)
    requires a < Pow10(width) && b < Pow10(width)
    ensures StrLt(Pad(a, width), Pad(b, width)) <==> a < b
    ensures Pad(a, width) == Pad(b, width) <==> a == b
  {
    if width > 0 {
      PadOrder(a / 10, b / 10, width - 1);
      var p, q := [Digit(a % 10)], [Digit(b % 10)];
      StrLtConcat(Pad(a / 10, width - 1), Pad(b / 10, width - 1), p, q);
      assert StrLt(p, q) <==> a % 10 < b % 10;
      assert Pad(a, width)[..width - 1] == Pad(a / 10, width - 1) && Pad(a, width)[width - 1..] == p;
      assert Pad(b, width)[..width - 1] == Pad(b / 10, width - 1) && Pad(b, width)[width - 1..] == q;
    }
  }

  function DateText(day: nat): (s: string)
    ensures |s| == 10
  {
    var d := DateOf(day);
    Pad(d.year, 4) + ("-" + (Pad(d.month, 2) + ("-" + Pad(d.day, 2))))
  }

  function ClockText(second: nat): (s: string)
    ensures |s| == 8
  {
    Pad(second / 60 / 60, 2) + (":" + (Pad(second / 60 % 60, 2) + (":" + Pad(second % 60, 2))))
  }

  /** The suffix after the seconds: the fraction only when there is one, then the offset. */
  function TailText(micro: nat): (s: string) {
    if micro == 0 then "+00:00" else "." + (Pad(micro, 6) + "+00:00")
  }

  function SecondText(sec: nat): (s: string)
    ensures |s| == 19
  {
    DateText(sec / SECONDS_PER_DAY) + ("T" + ClockText(sec % SECONDS_PER_DAY))
  }

  /** `datetime.isoformat()` of a UTC instant. */
  function Iso(t: Instant): (s: string)
    ensures 25 <= |s|
  {
    SecondText(t / MICROS_PER_SECOND) + TailText(t % MICROS_PER_SECOND)
  }

  lemma DateTextOrder(a: nat, b: nat)
    requires a < b < DAY_LIMIT
    ensures StrLt(DateText(a), DateText(b))
  {
    var x, y := DateOf(a), DateOf(b);
    DatesKeepOrder(a, b);
    assert y.year < 10_000 by {
      if 10_000 <= y.year { YearsMonotone(10_000, y.year); }
    }
    assert Pow10(2) == 100;
    assert Pow10(4) == 10_000;
    PadOrder(x.year, y.year, 4);
    PadOrder(x.month, y.month, 2);
    PadOrder(x.day, y.day, 2);
    var p, q := "-" + Pad(x.day, 2), "-" + Pad(y.day, 2);
    StrLtConcat("-", "-", Pad(x.day, 2), Pad(y.day, 2));
    StrLtConcat(Pad(x.month, 2), Pad(y.month, 2), p, q);
    StrLtConcat("-", "-", Pad(x.month, 2) + p, Pad(y.month, 2) + q);
    StrLtConcat(Pad(x.year, 4), Pad(y.year, 4), "-" + (Pad(x.month, 2) + p), "-" + (Pad(y.month, 2) + q));
    StrLtTotal("-", "-");
  }

  lemma ClockTextOrder(a: nat, b: nat)
    requires a < b < SECONDS_PER_DAY
    ensures StrLt(ClockText(a), ClockText(b))
  {
    assert Pow10(2) == 100;
    PadOrder(a / 60 / 60, b / 60 / 60, 2);
    PadOrder(a / 60 % 60, b / 60 % 60, 2);
    PadOrder(a % 60, b % 60, 2);
    var p, q := ":" + Pad(a % 60, 2), ":" + Pad(b % 60, 2);
    StrLtConcat(":", ":", Pad(a % 60, 2), Pad(b % 60, 2));
    StrLtConcat(Pad(a / 60 % 60, 2), Pad(b / 60 % 60, 2), p, q);
    StrLtConcat(":", ":", Pad(a / 60 % 60, 2) + p, Pad(b / 60 % 60, 2) + q);
    StrLtConcat(Pad(a / 60 / 60, 2), Pad(b / 60 / 60, 2), ":" + (Pad(a / 60 % 60, 2) + p), ":" + (Pad(b / 60 % 60, 2) + q));
    StrLtTotal(":", ":");
  }

  lemma DaySplit(a: nat, b: nat)
    requires a < b < DAY_LIMIT * SECONDS_PER_DAY
    ensures
      a / SECONDS_PER_DAY < b / SECONDS_PER_DAY ||
      (a / SECONDS_PER_DAY == b / SECONDS_PER_DAY && a % SECONDS_PER_DAY < b % SECONDS_PER_DAY)
    ensures b / SECONDS_PER_DAY < DAY_LIMIT
  {
  }

  lemma SecondTextOrder(a: nat, b: nat)
    requires a < b < DAY_LIMIT * SECONDS_PER_DAY
    ensures StrLt(SecondText(a), SecondText(b))
  {
    var d, e := a / SECONDS_PER_DAY, b / SECONDS_PER_DAY;
    var p, q := ClockText(a % SECONDS_PER_DAY), ClockText(b % SECONDS_PER_DAY);
    DaySplit(a, b);
    if d < e { DateTextOrder(d, e); } else { ClockTextOrder(a % SECONDS_PER_DAY, b % SECONDS_PER_DAY); }
    StrLtConcat("T", "T", p, q);
    StrLtConcat(DateText(d), DateText(e), "T" + p, "T" + q);
  }

  lemma TailTextOrder(a: nat, b: nat)
    requires a < b < MICROS_PER_SECOND
    ensures StrLt(TailText(a), TailText(b))
  {
    if a > 0 {
      assert Pow10(6) == 1_000_000 by { assert Pow10(3) == 1_000; }
      PadOrder(a, b, 6);
      StrLtConcat(Pad(a, 6), Pad(b, 6), "+00:00", "+00:00");
      StrLtConcat(".", ".", Pad(a, 6) + "+00:00", Pad(b, 6) + "+00:00");
    }
  }

  lemma SplitOrder(a: nat, b: nat)
    requires a < b
    ensures
      a / MICROS_PER_SECOND < b / MICROS_PER_SECOND ||
      (a / MICROS_PER_SECOND == b / MICROS_PER_SECOND && a % MICROS_PER_SECOND < b % MICROS_PER_SECOND)
  {
  }

  lemma IsoStrict(a: Instant, b: Instant)
    requires a < b
    ensures StrLt(Iso(a), Iso(b))
  {
    var s, r := a / MICROS_PER_SECOND, b / MICROS_PER_SECOND;
    var m, n := a % MICROS_PER_SECOND, b % MICROS_PER_SECOND;
    SplitOrder(a, b);
    if s < r { SecondTextOrder(s, r); } else { TailTextOrder(m, n); }
    StrLtConcat(SecondText(s), SecondText(r), TailText(m), TailText(n));
  }

  /** Comparing the stamps as strings is comparing the instants, fraction or no fraction. */
  lemma IsoOrder(a: Instant, b: Instant)
    ensures StrLe(Iso(a), Iso(b)) <==> a <= b
    ensures Iso(a) == Iso(b) <==> a == b
  {
    StrLtTotal(Iso(a), Iso(b));
    if a < b { IsoStrict(a, b); } else if b < a { IsoStrict(b, a); }
  }

  lemma IsoBefore(a: Instant, b: Instant)
    ensures StrLt(Iso(a), Iso(b)) <==> a < b
  {
    IsoOrder(a, b);
    IsoOrder(b, a);
    StrLtTotal(Iso(a), Iso(b));
  }
}
