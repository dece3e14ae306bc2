/** Wall-clock instants and calendar months.

    Instants are milliseconds on one time-zone-free timeline whose origin is
    midnight, January 1 of year 0 of the proleptic Gregorian calendar. A
    budget's "YYYY-MM" month is a `YearMonth`; its first instant is
    `MonthStart`, and `NextMonthStart` is what adding one month to that
    instant gives (December rolls over into January of the next year). */
module Calendar {
  type Instant = int

  type MonthNumber = m: int | 1 <= m <= 12 witness 1

  datatype YearMonth = YearMonth(year: int, month: MonthNumber)

  const MsPerDay: int := 86_400_000

  predicate IsLeapYear(y: int) {
    y % 4 == 0 && (y % 100 != 0 || y % 400 == 0)
  }

  function DaysInYear(y: int): int {
    if IsLeapYear(y) then 366 else 365
  }

  function DaysInMonth(y: int, m: MonthNumber): int {
    if m == 2 then (if IsLeapYear(y) then 29 else 28)
    else if m == 4 || m == 6 || m == 9 || m == 11 then 30
    else 31
  }

  /** Days of year `y` that precede the first of month `m`. */
  function DaysBeforeMonth(y: int, m: MonthNumber): int {
    [0, 31, 59, 90, 120, 151, 181, 212, 243, 273, 304, 334][m - 1]
      + (if m > 2 && IsLeapYear(y) then 1 else 0)
  }

  /** Leap years in [0, y) (negated count of [y, 0) for negative years). */
  function LeapYearsBefore(y: int): int {
    (y + 3) / 4 - (y + 99) / 100 + (y + 399) / 400
  }

  function DaysBeforeYear(y: int): int {
    365 * y + LeapYearsBefore(y)
  }

  /** The first instant of a month (local midnight of its first day). */
  function MonthStart(m: YearMonth): Instant {
    (DaysBeforeYear(m.year) + DaysBeforeMonth(m.year, m.month)) * MsPerDay
  }

  function Successor(m: YearMonth): (r: YearMonth)
    ensures r.year * 12 + r.month == m.year * 12 + m.month + 1
  {
    if m.month == 12 then YearMonth(m.year + 1, 1) else YearMonth(m.year, m.month + 1)
  }

  function Predecessor(m: YearMonth): (r: YearMonth)
    ensures r.year * 12 + r.month == m.year * 12 + m.month - 1
  {
    if m.month == 1 then YearMonth(m.year - 1, 12) else YearMonth(m.year, m.month - 1)
  }

  /** The first instant of the following month. */
  function NextMonthStart(m: YearMonth): Instant {
    MonthStart(Successor(m))
  }

  /** The last millisecond of a month (date-fns `endOfMonth`). */
  function MonthEnd(m: YearMonth): Instant {
    NextMonthStart(m) - 1
  }

  lemma SuccessorOfPredecessor(m: YearMonth)
    ensures Successor(Predecessor(m)) == m
  {
  }

  /** Counting multiples of 4 (of 100, of 400) below `y`: the count moves
      up by one exactly when `y` itself is a multiple. */
  lemma QuarterStep(y: int)
    ensures (y + 4) / 4 == (y + 3) / 4 + (if y % 4 == 0 then 1 else 0)
  {
    var q, r := (y + 3) / 4, (y + 3) % 4;
    assert y + 3 == 4 * q + r && 0 <= r < 4;
    if r == 3 {
      assert y == 4 * q;
      assert y + 4 == 4 * (q + 1);
    } else {
      assert y + 4 == 4 * q + (r + 1);
    }
  }

  lemma CenturyStep(y: int)
    ensures (y + 100) / 100 == (y + 99) / 100 + (if y % 100 == 0 then 1 else 0)
  {
    var q, r := (y + 99) / 100, (y + 99) % 100;
    assert y + 99 == 100 * q + r && 0 <= r < 100;
    if r == 99 {
      assert y == 100 * q;
      assert y + 100 == 100 * (q + 1);
    } else {
      assert y + 100 == 100 * q + (r + 1);
    }
  }

  lemma QuadCenturyStep(y: int)
    ensures (y + 400) / 400 == (y + 399) / 400 + (if y % 400 == 0 then 1 else 0)
  {
    var q, r := (y + 399) / 400, (y + 399) % 400;
    assert y + 399 == 400 * q + r && 0 <= r < 400;
    if r == 399 {
      assert y == 400 * q;
      assert y + 400 == 400 * (q + 1);
    } else {
      assert y + 400 == 400 * q + (r + 1);
    }
  }

  /** One year on, `LeapYearsBefore` has counted `y` exactly when it is a
      leap year. */
  lemma LeapYearsStep(y: int)
    ensures LeapYearsBefore(y + 1) == LeapYearsBefore(y) + (if IsLeapYear(y) then 1 else 0)
  {
    QuarterStep(y);
    CenturyStep(y);
    QuadCenturyStep(y);
    MultiplesNest(y);
  }

  /** A multiple of 400 is a multiple of 100, which is a multiple of 4. */
  lemma MultiplesNest(y: int)
    ensures y % 400 == 0 ==> y % 100 == 0
    ensures y % 100 == 0 ==> y % 4 == 0
  {
    if y % 400 == 0 {
      var k := y / 400;
      assert y == 100 * (4 * k);
    }
    if y % 100 == 0 {
      var k := y / 100;
      assert y == 4 * (25 * k);
    }
  }

  /** Consecutive years are laid end to end. */
  lemma YearLength(y: int)
    ensures DaysBeforeYear(y + 1) == DaysBeforeYear(y) + DaysInYear(y)
  {
    LeapYearsStep(y);
  }

  /** Consecutive months are laid end to end: the month after `m` begins
      exactly `DaysInMonth` days after `m` does, so every month window is
      non-empty and the windows tile the timeline. */
  lemma MonthLength(m: YearMonth)
    ensures NextMonthStart(m) == MonthStart(m) + DaysInMonth(m.year, m.month) * MsPerDay
    ensures MonthStart(m) < NextMonthStart(m)
  {
    if m.month == 12 {
      YearLength(m.year);
    }
  }

  /** `m` stepped `n` months back. */
  function MonthsBack(m: YearMonth, n: nat): (r: YearMonth)
    ensures r.year * 12 + r.month == m.year * 12 + m.month - n
  {
    if n == 0 then m else Predecessor(MonthsBack(m, n - 1))
  }

  /** The twelve months ending with `current`, oldest first (the source's
      `getLast12Months`, with "now" given as its month). */
  function Last12Months(current: YearMonth): (r: seq<YearMonth>)
    ensures |r| == 12 && r[11] == current
    ensures forall k :: 0 <= k < 11 ==> Successor(r[k]) == r[k + 1]
  {
    var r := seq(12, k requires 0 <= k < 12 => MonthsBack(current, 11 - k));
    assert forall k :: 0 <= k < 11 ==> Successor(r[k]) == r[k + 1] by {
      forall k | 0 <= k < 11
        ensures Successor(r[k]) == r[k + 1]
      {
        SuccessorOfPredecessor(MonthsBack(current, 10 - k));
      }
    }
    r
  }
}
