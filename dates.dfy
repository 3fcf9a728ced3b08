/** Proleptic Gregorian calendar dates as Python's `datetime.date` has them:
    years 1 to 9999, day numbers counted from 1 January of year 1
    (`toordinal`), ISO weekdays with Monday as 1. */
module Dates {

  datatype Date = Date(year: int, month: int, day: int)

  /** The smallest and largest `toordinal()` of a `datetime.date`. */
  const MinOrdinal: int := 1
  const MaxOrdinal: int := 3652059

  predicate IsLeap(y: int)
  {
    y % 4 == 0 && (y % 100 != 0 || y % 400 == 0)
  }

  function DaysInMonth(y: int, m: int): (r: int)
    requires 1 <= m <= 12
    ensures 28 <= r <= 31
  {
    if m == 2 then (if IsLeap(y) then 29 else 28)
    else if m == 4 || m == 6 || m == 9 || m == 11 then 30
    else 31
  }

  function DaysInYear(y: int): int
  {
    if IsLeap(y) then 366 else 365
  }

  /** What `datetime.date(year, month, day)` accepts without `ValueError`. */
  predicate Valid(d: Date)
  {
    1 <= d.year <= 9999 && 1 <= d.month <= 12 && 1 <= d.day <= DaysInMonth(d.year, d.month)
  }

  /** Days in the years before `y`. */
  function DaysBeforeYear(y: int): int
    requires y >= 1
  {
    var z := y - 1;
    z * 365 + z / 4 - z / 100 + z / 400
  }

  /** Days in the months of year `y` before month `m`. */
  function DaysBeforeMonth(y: int, m: int): (r: int)
    requires 1 <= m <= 12
    ensures 0 <= r
  {
    var common :=
      if m == 1 then 0 else if m == 2 then 31 else if m == 3 then 59
      else if m == 4 then 90 else if m == 5 then 120 else if m == 6 then 151
      else if m == 7 then 181 else if m == 8 then 212 else if m == 9 then 243
      else if m == 10 then 273 else if m == 11 then 304 else 334;
    common + (if m > 2 && IsLeap(y) then 1 else 0)
  }

  /** `date.toordinal()`. */
  function Ordinal(d: Date): int
    requires Valid(d)
  {
    DaysBeforeYear(d.year) + DaysBeforeMonth(d.year, d.month) + d.day
  }

  /** `date.isoweekday()`: 1 January of year 1 is a Monday. */
  function IsoWeekday(d: Date): (r: int)
    requires Valid(d)
    ensures 1 <= r <= 7
  {
    (Ordinal(d) + 6) % 7 + 1
  }

  /** Date order, as Python compares dates: year, then month, then day. */
  predicate LexLess(a: Date, b: Date)
  {
    a.year < b.year || (a.year == b.year && (a.month < b.month || (a.month == b.month && a.day < b.day)))
  }

  lemma {:induction false} DaysBeforeYearNext(y: int)
    requires y >= 1
    ensures DaysBeforeYear(y + 1) == DaysBeforeYear(y) + DaysInYear(y)
  {
    var z := y - 1;
    DivStep(z, 4);
    DivStep(z, 100);
    DivStep(z, 400);
    if y % 100 == 0 {
      DivUnique(y, 4, (y / 100) * 25, 0);
    }
    if y % 400 == 0 {
      DivUnique(y, 100, (y / 400) * 4, 0);
    }
    var a, b, c := (if y % 4 == 0 then 1 else 0), (if y % 100 == 0 then 1 else 0), (if y % 400 == 0 then 1 else 0);
    assert DaysBeforeYear(y + 1) == DaysBeforeYear(y) + 365 + a - b + c;
    assert a - b + c == (if IsLeap(y) then 1 else 0);
  }

  /** Counting the next number adds one multiple of `d` exactly when it
      is one. */
  lemma {:induction false} DivStep(z: int, d: int)
    requires z >= 0 && d > 0
    ensures (z + 1) / d == z / d + (if (z + 1) % d == 0 then 1 else 0)
  {
    var q, r := z / d, z % d;
    assert z == q * d + r && 0 <= r < d;
    if r == d - 1 {
      assert z + 1 == (q + 1) * d;
      DivUnique(z + 1, d, q + 1, 0);
    } else {
      assert z + 1 == q * d + (r + 1);
      DivUnique(z + 1, d, q, r + 1);
    }
  }

  lemma {:induction false} DivUnique(a: int, d: int, q: int, r: int)
    requires d > 0 && a == q * d + r && 0 <= r < d
    ensures a / d == q && a % d == r
  {
    var q', r' := a / d, a % d;
    assert a == q' * d + r' && 0 <= r' < d;
    MulGap(q, q', d);
    MulGap(q', q, d);
  }

  /** Distinct multiples of `d` are at least `d` apart. */
  lemma {:induction false} MulGap(q: int, q': int, d: int)
    requires d > 0
    ensures q > q' ==> q * d - q' * d >= d
  {
    if q > q' {
      MulAtLeast(q - q', d);
      assert (q - q') * d == q * d - q' * d;
    }
  }

  lemma {:induction false} MulAtLeast(k: int, d: int)
    requires k >= 1 && d > 0
    ensures k * d >= d
    decreases k
  {
    if k > 1 {
      MulAtLeast(k - 1, d);
      assert k * d == (k - 1) * d + d;
    }
  }

  lemma {:induction false} DaysBeforeYearMonotone(a: int, b: int)
    requires 1 <= a <= b
    ensures DaysBeforeYear(b) - DaysBeforeYear(a) >= 365 * (b - a)
    decreases b - a
  {
    if a < b {
      DaysBeforeYearMonotone(a, b - 1);
      DaysBeforeYearNext(b - 1);
    }
  }

  lemma {:induction false} DaysBeforeMonthNext(y: int, m: int)
    requires 1 <= m < 12
    ensures DaysBeforeMonth(y, m + 1) == DaysBeforeMonth(y, m) + DaysInMonth(y, m)
  {
  }

  /** All of a year's days come before the next year's first day. */
  lemma {:induction false} YearFits(d: Date)
    requires Valid(d)
    ensures Ordinal(d) <= DaysBeforeYear(d.year) + DaysInYear(d.year)
  {
  }

  /** The ordinals of valid dates lie in `MinOrdinal .. MaxOrdinal`. */
  lemma {:induction false} OrdinalRange(d: Date)
    requires Valid(d)
    ensures MinOrdinal <= Ordinal(d) <= MaxOrdinal
  {
    YearFits(d);
    DaysBeforeYearNext(d.year);
    if d.year < 9999 {
      DaysBeforeYearMonotone(d.year + 1, 9999);
    }
    assert DaysBeforeYear(9999) + DaysInYear(9999) == MaxOrdinal;
  }

  /** Day numbers follow the calendar order. */
  lemma {:induction false} OrdinalOrder(a: Date, b: Date)
    requires Valid(a) && Valid(b) && LexLess(a, b)
    ensures Ordinal(a) < Ordinal(b)
  {
    if a.year < b.year {
      YearFits(a);
      DaysBeforeYearNext(a.year);
      DaysBeforeYearMonotone(a.year + 1, b.year);
    } else if a.month < b.month {
      MonthOrder(a.year, a.month, b.month);
    }
  }

  lemma {:induction false} MonthOrder(y: int, m: int, n: int)
    requires 1 <= m < n <= 12
    ensures DaysBeforeMonth(y, n) >= DaysBeforeMonth(y, m) + DaysInMonth(y, m)
    decreases n - m
  {
    if m + 1 < n {
      MonthOrder(y, m + 1, n);
    }
    DaysBeforeMonthNext(y, m);
  }

  /** Comparing dates is comparing their day numbers. */
  lemma {:induction false} OrdinalCompare(a: Date, b: Date)
    requires Valid(a) && Valid(b)
    ensures Ordinal(a) <= Ordinal(b) <==> !LexLess(b, a)
    ensures Ordinal(a) == Ordinal(b) <==> a == b
  {
    if LexLess(a, b) {
      OrdinalOrder(a, b);
    } else if LexLess(b, a) {
      OrdinalOrder(b, a);
    }
  }
}
