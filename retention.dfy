/** The retention policy of a storage (`BackupFrequency`): four tiers
    (day, week, month, year), each `All` (-1), `No` (0) or a count, and
    the decision whether an archive dated `d` is kept on `today`. The
    reference date, a process-wide constant in the tool, is a parameter. */
module Retention {
  import opened Wrappers
  import opened Dates

  const All: int := -1
  const No: int := 0

  datatype Freq = Freq(day: int, week: int, month: int, year: int)

  /** The range of a C `int`, which `datetime.date` reads its year as. */
  const IntMin: int := -0x8000_0000
  const IntMax: int := 0x7fff_ffff

  /** What `datetime.date(year=y, month=1..12, day=1)` raises for a year
      outside 1..9999: `OverflowError` when the year does not fit a C
      `int`, `ValueError` otherwise. */
  function YearError(y: int): Error
  {
    if IntMin <= y <= IntMax then ValueError else OverflowError
  }

  function Tiers(f: Freq): seq<int>
  {
    [f.day, f.week, f.month, f.year]
  }

  /** No tier keeps anything. */
  predicate IsEmpty(f: Freq)
  {
    forall i :: 0 <= i < 4 ==> Tiers(f)[i] == No
  }

  /** Some tier keeps a bounded number of archives, so old ones go. */
  predicate NeedDeletion(f: Freq)
  {
    exists i :: 0 <= i < 4 && Tiers(f)[i] != All && Tiers(f)[i] != No
  }

  /** `is_empty`: scans the tiers and stops at the first one that is not `No`. */
  method CheckEmpty(f: Freq) returns (empty: bool)
    ensures empty <==> IsEmpty(f)
  {
    var tiers := Tiers(f);
    var i := 0;
    while i < |tiers|
      invariant 0 <= i <= |tiers|
      invariant forall j :: 0 <= j < i ==> tiers[j] == No
    {
      if tiers[i] != No {
        return false;
      }
      i := i + 1;
    }
    return true;
  }

  /** `need_deletion`: scans the tiers for one that is neither `All` nor `No`. */
  method CheckNeedDeletion(f: Freq) returns (need: bool)
    ensures need <==> NeedDeletion(f)
  {
    var tiers := Tiers(f);
    var i := 0;
    while i < |tiers|
      invariant 0 <= i <= |tiers|
      invariant forall j :: 0 <= j < i ==> tiers[j] == All || tiers[j] == No
    {
      if tiers[i] != All && tiers[i] != No {
        return true;
      }
      i := i + 1;
    }
    return false;
  }

  /** The day number of the Monday beginning the ISO week of `d`. */
  function MondayOf(d: Date): (r: int)
    requires Valid(d)
    ensures r <= Ordinal(d) < r + 7
  {
    Ordinal(d) - IsoWeekday(d) + 1
  }

  /** Months counted from January of year 0. */
  function MonthIndex(d: Date): int
  {
    d.year * 12 + d.month - 1
  }

  /** The first day of the month `n - 1` months before the month of
      `today`: month `(today.month - n) % 12 + 1` of year
      `today.year + floor((today.month - n) / 12)`. */
  function MonthStart(today: Date, n: int): (r: Date)
    ensures r.day == 1 && 1 <= r.month <= 12
    ensures MonthIndex(r) == MonthIndex(today) - n + 1
  {
    var k := today.month - n;
    Date(today.year + k / 12, k % 12 + 1, 1)
  }

  /** `BackupFrequency.should_keep(d)` with reference date `today`.
      `OverflowError` when the week window starts outside the date range;
      when the month or year window does, `ValueError`, or `OverflowError`
      for a year beyond a C `int`. */
  function ShouldKeep(f: Freq, d: Date, today: Date): (r: Result<bool>)
    requires Valid(d) && Valid(today)
    ensures f.day == All ==> r == Ok(true)
    ensures r == Ok(true) && f.day == No && f.week == No ==> d.day == 1
  {
    if f.day == All then Ok(true)
    else if f.day != No && Ordinal(today) - Ordinal(d) + 1 <= f.day then Ok(true)
    else WeekTier(f, d, today)
  }

  function WeekTier(f: Freq, d: Date, today: Date): (r: Result<bool>)
    requires Valid(d) && Valid(today)
    ensures r == Ok(true) && f.week == No ==> d.day == 1
  {
    if IsoWeekday(d) == 1 && f.week == All then Ok(true)
    else if IsoWeekday(d) == 1 && f.week != No then
      var start := Ordinal(today) - (IsoWeekday(today) + 7 * f.week - 8);
      if start < MinOrdinal || start > MaxOrdinal then Err(OverflowError)
      else if Ordinal(d) >= start then Ok(true)
      else MonthTier(f, d, today)
    else MonthTier(f, d, today)
  }

  function MonthTier(f: Freq, d: Date, today: Date): (r: Result<bool>)
    requires Valid(d) && Valid(today)
    ensures r == Ok(true) ==> d.day == 1
  {
    if d.day != 1 then Ok(false)
    else if f.month == All then Ok(true)
    else if f.month != No then
      var start := MonthStart(today, f.month);
      if !(1 <= start.year <= 9999) then Err(YearError(start.year))
      else if !LexLess(d, start) then Ok(true)
      else YearTier(f, d, today)
    else YearTier(f, d, today)
  }

  function YearTier(f: Freq, d: Date, today: Date): (r: Result<bool>)
    requires Valid(d) && Valid(today)
    ensures r == Ok(true) ==> d.month == 1
  {
    if d.month != 1 then Ok(false)
    else if f.year == All then Ok(true)
    else if f.year != No then
      var start := Date(today.year - f.year + 1, 1, 1);
      if !(1 <= start.year <= 9999) then Err(YearError(start.year))
      else Ok(!LexLess(d, start))
    else Ok(false)
  }

  /** `MemoryStorage.should_save`: whether an archive made today is kept. */
  function ShouldSave(f: Freq, today: Date): (r: Result<bool>)
    requires Valid(today)
    ensures f.day == All || f.day >= 1 ==> r == Ok(true)
  {
    ShouldKeep(f, today, today)
  }

  /** With every tier `No`, nothing is kept. */
  lemma {:induction false} KeepNothing(f: Freq, d: Date, today: Date)
    requires Valid(d) && Valid(today) && IsEmpty(f)
    ensures ShouldKeep(f, d, today) == Ok(false)
  {
    assert Tiers(f)[0] == No && Tiers(f)[1] == No && Tiers(f)[2] == No && Tiers(f)[3] == No;
  }

  /** A day tier of `n` keeps exactly the archives less than `n` days older
      than `today`, future ones included, when the other tiers are `No`. */
  lemma {:induction false} DailyWindow(n: int, d: Date, today: Date)
    requires Valid(d) && Valid(today) && n >= 1
    ensures ShouldKeep(Freq(n, No, No, No), d, today) == Ok(Ordinal(today) - Ordinal(d) <= n - 1)
  {
  }

  /** The week window starts on a Monday: the Monday `n - 1` weeks before
      the week of `today`. */
  lemma {:induction false} WeekStartIsMonday(n: int, today: Date)
    requires Valid(today)
    ensures Ordinal(today) - (IsoWeekday(today) + 7 * n - 8) == MondayOf(today) - 7 * (n - 1)
    ensures (MondayOf(today) - 7 * (n - 1) + 6) % 7 + 1 == 1
  {
    var o := Ordinal(today);
    assert IsoWeekday(today) == (o + 6) % 7 + 1;
    assert (o - ((o + 6) % 7 + 1) + 1 - 7 * (n - 1) + 6) % 7 == 0 by {
      var q := (o + 6) / 7;
      assert o + 6 == 7 * q + (o + 6) % 7;
      assert o - ((o + 6) % 7 + 1) + 1 - 7 * (n - 1) + 6 == 7 * (q - (n - 1));
    }
  }

  /** A week tier of `n` keeps a Monday iff it is no earlier than the Monday
      `n - 1` weeks before the week of `today`, and keeps no other day. */
  lemma {:induction false} WeeklyWindow(n: int, d: Date, today: Date)
    requires Valid(d) && Valid(today) && n >= 1
    ensures var r := ShouldKeep(Freq(No, n, No, No), d, today);
      if IsoWeekday(d) != 1 then r == Ok(false)
      else if MondayOf(today) - 7 * (n - 1) < MinOrdinal then r == Err(OverflowError)
      else r == Ok(Ordinal(d) >= MondayOf(today) - 7 * (n - 1))
  {
    WeekStartIsMonday(n, today);
    OrdinalRange(today);
    if IsoWeekday(d) != 1 {
      assert MonthTier(Freq(No, n, No, No), d, today) == Ok(false);
    } else {
      assert MondayOf(today) - 7 * (n - 1) <= MaxOrdinal;
      assert MonthTier(Freq(No, n, No, No), d, today) == Ok(false);
    }
  }

  /** For a first-of-month date, calendar order is month order. */
  lemma {:induction false} FirstOfMonthOrder(d: Date, s: Date)
    requires Valid(d) && d.day == 1 && s.day == 1 && 1 <= s.month <= 12
    ensures !LexLess(d, s) <==> MonthIndex(d) >= MonthIndex(s)
  {
  }

  /** A month tier of `n` keeps a first-of-month archive iff its month is
      one of the `n` months ending with the month of `today` (or later),
      across year boundaries, and keeps no other day. */
  lemma {:induction false} MonthlyWindow(n: int, d: Date, today: Date)
    requires Valid(d) && Valid(today) && n >= 1
    ensures var r := ShouldKeep(Freq(No, No, n, No), d, today);
      var start := MonthStart(today, n);
      if d.day != 1 then r == Ok(false)
      else if start.year < IntMin then r == Err(OverflowError)
      else if start.year < 1 then r == Err(ValueError)
      else r == Ok(MonthIndex(d) >= MonthIndex(today) - n + 1)
  {
    var start := MonthStart(today, n);
    assert start.year <= today.year;
    if d.day == 1 {
      FirstOfMonthOrder(d, start);
    }
  }

  /** A year tier of `n` keeps 1 January of the `n` years ending with the
      year of `today` (or later), and no other day. */
  lemma {:induction false} YearlyWindow(n: int, d: Date, today: Date)
    requires Valid(d) && Valid(today) && n >= 1
    ensures var r := ShouldKeep(Freq(No, No, No, n), d, today);
      if d.day != 1 || d.month != 1 then r == Ok(false)
      else if today.year - n + 1 < IntMin then r == Err(OverflowError)
      else if today.year - n + 1 < 1 then r == Err(ValueError)
      else r == Ok(d.year >= today.year - n + 1)
  {
  }

  /** Only the day tier keeps anything other than Mondays and firsts of
      months; only the day and week tiers keep other days than the first
      of a month. */
  lemma {:induction false} TierShapes(f: Freq, d: Date, today: Date)
    requires Valid(d) && Valid(today) && f.day == No
    ensures ShouldKeep(f, d, today) == Ok(true) ==> IsoWeekday(d) == 1 || d.day == 1
    ensures ShouldKeep(f, d, today) == Ok(true) && IsoWeekday(d) != 1 && d.month != 1 ==>
      f.month == All || (f.month != No && MonthIndex(d) >= MonthIndex(today) - f.month + 1)
  {
    var r := ShouldKeep(f, d, today);
    if r == Ok(true) && IsoWeekday(d) != 1 {
      assert MonthTier(f, d, today) == Ok(true);
      if d.month != 1 && f.month != All {
        assert f.month != No;
        var start := MonthStart(today, f.month);
        assert !LexLess(d, start);
        FirstOfMonthOrder(d, start);
      }
    }
  }

  /** Single-tier policies of `f`. */
  function DayPart(f: Freq): Freq { Freq(f.day, No, No, No) }
  function WeekPart(f: Freq): Freq { Freq(No, f.week, No, No) }
  function MonthPart(f: Freq): Freq { Freq(No, No, f.month, No) }
  function YearPart(f: Freq): Freq { Freq(No, No, No, f.year) }

  /** Where no tier fails, `f` keeps exactly what one of its tiers kept
      alone would keep. */
  lemma {:induction false} TierUnion(f: Freq, d: Date, today: Date)
    requires Valid(d) && Valid(today)
    requires ShouldKeep(DayPart(f), d, today).Ok? && ShouldKeep(WeekPart(f), d, today).Ok?
    requires ShouldKeep(MonthPart(f), d, today).Ok? && ShouldKeep(YearPart(f), d, today).Ok?
    ensures ShouldKeep(f, d, today) == Ok(
      ShouldKeep(DayPart(f), d, today).value || ShouldKeep(WeekPart(f), d, today).value ||
      ShouldKeep(MonthPart(f), d, today).value || ShouldKeep(YearPart(f), d, today).value)
  {
    assert WeekTier(f, d, today).Ok? && WeekTier(f, d, today).value ==
      (ShouldKeep(WeekPart(f), d, today).value || ShouldKeep(MonthPart(f), d, today).value ||
       ShouldKeep(YearPart(f), d, today).value) by {
      assert MonthTier(f, d, today).Ok? && MonthTier(f, d, today).value ==
        (ShouldKeep(MonthPart(f), d, today).value || ShouldKeep(YearPart(f), d, today).value) by {
        if d.day == 1 {
          assert YearTier(f, d, today) == ShouldKeep(YearPart(f), d, today);
        }
      }
    }
  }

  /** A policy made only of `All` and `No` tiers keeps the same archives
      whatever the reference date. */
  lemma {:induction false} NoDeletionTimeless(f: Freq, d: Date, t1: Date, t2: Date)
    requires Valid(d) && Valid(t1) && Valid(t2) && !NeedDeletion(f)
    ensures ShouldKeep(f, d, t1) == ShouldKeep(f, d, t2)
  {
    assert Tiers(f)[0] == f.day && Tiers(f)[1] == f.week;
    assert Tiers(f)[2] == f.month && Tiers(f)[3] == f.year;
  }
}
