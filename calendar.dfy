// Gregorian calendar arithmetic as Python's `datetime` performs it: `toordinal`,
// `weekday`, adding `timedelta(days=n)`, comparison, `strftime("%Y-%m-%d")` and
// `strptime(s, "%Y-%m-%d")`.
//
// The calendar here is unbounded; Python's datetime only holds years 1 through 9999,
// so callers check `InRange` exactly where Python raises OverflowError or ValueError.
module Calendar {
  import opened Base
  import opened PyText

  datatype Date = Date(year: int, month: int, day: int)

  predicate IsLeapYear(y: int)
  {
    y % 4 == 0 && (y % 100 != 0 || y % 400 == 0)
  }

  function DaysInYear(y: int): int { if IsLeapYear(y) then 366 else 365 }

  function DaysInMonth(y: int, m: int): int
    requires 1 <= m <= 12
  {
    if m == 2 then (if IsLeapYear(y) then 29 else 28)
    else if m == 4 || m == 6 || m == 9 || m == 11 then 30
    else 31
  }

  predicate Valid(d: Date)
  {
    1 <= d.month <= 12 && 1 <= d.day <= DaysInMonth(d.year, d.month)
  }

  /** Years a Python `datetime` can hold. */
  predicate InRange(d: Date) { 1 <= d.year <= 9999 }

  const MaxDate: Date := Date(9999, 12, 31)

  function NextDay(d: Date): (r: Date)
    requires Valid(d)
    ensures Valid(r)
  {
    if d.day < DaysInMonth(d.year, d.month) then Date(d.year, d.month, d.day + 1)
    else if d.month < 12 then Date(d.year, d.month + 1, 1)
    else Date(d.year + 1, 1, 1)
  }

  function PrevDay(d: Date): (r: Date)
    requires Valid(d)
    ensures Valid(r)
  {
    if d.day > 1 then Date(d.year, d.month, d.day - 1)
    else if d.month > 1 then Date(d.year, d.month - 1, DaysInMonth(d.year, d.month - 1))
    else Date(d.year - 1, 12, 31)
  }

  // ---------------------------------------------------------------- ordinals

  /** Days in the months before `m` (Python's `_DAYS_BEFORE_MONTH` plus the leap day). */
  function DaysBeforeMonth(y: int, m: int): int
    requires 1 <= m <= 12
  {
    [0, 31, 59, 90, 120, 151, 181, 212, 243, 273, 304, 334][m - 1]
    + (if m > 2 && IsLeapYear(y) then 1 else 0)
  }

  function DaysBeforeYear(y: int): int
  {
    var p := y - 1;
    365 * p + p / 4 - p / 100 + p / 400
  }

  /** Python's `date.toordinal()`: 0001-01-01 is day 1. */
  function Ordinal(d: Date): int
    requires Valid(d)
  {
    DaysBeforeYear(d.year) + DaysBeforeMonth(d.year, d.month) + d.day
  }

  /** Python's `date.weekday()`: Monday is 0, Sunday is 6. */
  function Weekday(d: Date): int
    requires Valid(d)
  {
    (Ordinal(d) + 6) % 7
  }

  lemma DivStep(y: int)
    ensures y / 4 - (y - 1) / 4 == (if y % 4 == 0 then 1 else 0)
    ensures y / 100 - (y - 1) / 100 == (if y % 100 == 0 then 1 else 0)
    ensures y / 400 - (y - 1) / 400 == (if y % 400 == 0 then 1 else 0)
  {
  }

  lemma DaysBeforeYearStep(y: int)
    ensures DaysBeforeYear(y + 1) == DaysBeforeYear(y) + DaysInYear(y)
  {
    DivStep(y);
    assert y % 400 == 0 ==> y % 100 == 0;
    assert y % 100 == 0 ==> y % 4 == 0;
  }

  lemma DaysBeforeMonthStep(y: int, m: int)
    requires 1 <= m <= 12
    ensures m < 12 ==> DaysBeforeMonth(y, m + 1) == DaysBeforeMonth(y, m) + DaysInMonth(y, m)
    ensures m == 12 ==> DaysBeforeMonth(y, m) + DaysInMonth(y, m) == DaysInYear(y)
  {
  }

  /** The successor day has the successor ordinal: NextDay agrees with Python's `+ timedelta(days=1)`. */
  lemma NextDayOrdinal(d: Date)
    requires Valid(d)
    ensures Ordinal(NextDay(d)) == Ordinal(d) + 1
  {
    DaysBeforeMonthStep(d.year, d.month);
    if d.day == DaysInMonth(d.year, d.month) && d.month == 12 {
      DaysBeforeYearStep(d.year);
    }
  }

  lemma NextPrev(d: Date)
    requires Valid(d)
    ensures NextDay(PrevDay(d)) == d
  {
  }

  lemma PrevDayOrdinal(d: Date)
    requires Valid(d)
    ensures Ordinal(PrevDay(d)) == Ordinal(d) - 1
  {
    NextPrev(d);
    NextDayOrdinal(PrevDay(d));
  }

  /** Every date's ordinal falls inside its own year's block of ordinals. */
  lemma OrdinalWithinYear(d: Date)
    requires Valid(d)
    ensures DaysBeforeYear(d.year) < Ordinal(d) <= DaysBeforeYear(d.year) + DaysInYear(d.year)
  {
    DaysBeforeMonthStep(d.year, d.month);
    MonthsBefore(d.year, d.month, 12);
  }

  lemma {:induction false} MonthsBefore(y: int, m: int, n: int)
    requires 1 <= m <= n <= 12
    ensures DaysBeforeMonth(y, m) + (if m < n then DaysInMonth(y, m) else 0) <= DaysBeforeMonth(y, n)
    decreases n - m
  {
    if m < n {
      DaysBeforeMonthStep(y, m);
      MonthsBefore(y, m + 1, n);
    }
  }

  lemma {:induction false} YearsBefore(a: int, b: int)
    requires a <= b
    ensures DaysBeforeYear(a) + 365 * (b - a) <= DaysBeforeYear(b)
    decreases b - a
  {
    if a < b {
      DaysBeforeYearStep(a);
      YearsBefore(a + 1, b);
    }
  }

  // ---------------------------------------------------------------- ordering

  /** Python's `a < b` on dates: chronological, i.e. lexicographic on (year, month, day). */
  predicate Before(a: Date, b: Date)
  {
    a.year < b.year || (a.year == b.year && (a.month < b.month || (a.month == b.month && a.day < b.day)))
  }

  /** Python's `a <= b` on dates. */
  predicate NotAfter(a: Date, b: Date) { !Before(b, a) }

  /** Comparison of dates is comparison of their ordinals. */
  lemma BeforeIsOrdinalLess(a: Date, b: Date)
    requires Valid(a) && Valid(b)
    ensures Before(a, b) <==> Ordinal(a) < Ordinal(b)
  {
    if Before(a, b) {
      OrderedOrdinals(a, b);
    } else if Before(b, a) {
      OrderedOrdinals(b, a);
    }
  }

  lemma OrderedOrdinals(a: Date, b: Date)
    requires Valid(a) && Valid(b) && Before(a, b)
    ensures Ordinal(a) < Ordinal(b)
  {
    if a.year < b.year {
      OrdinalWithinYear(a);
      OrdinalWithinYear(b);
      YearsBefore(a.year + 1, b.year);
      DaysBeforeYearStep(a.year);
    } else if a.month < b.month {
      MonthsBefore(a.year, a.month, b.month);
    }
  }

  /** Distinct valid dates have distinct ordinals. */
  lemma OrdinalInjective(a: Date, b: Date)
    requires Valid(a) && Valid(b) && Ordinal(a) == Ordinal(b)
    ensures a == b
  {
    BeforeIsOrdinalLess(a, b);
    BeforeIsOrdinalLess(b, a);
  }

  // ---------------------------------------------------------------- adding days

  /** `d + timedelta(days=n)`, one day at a time, on the unbounded calendar. */
  function AddDays(d: Date, n: int): (r: Date)
    requires Valid(d)
    ensures Valid(r)
    decreases if n < 0 then -n else n
  {
    if n == 0 then d
    else if n > 0 then NextDay(AddDays(d, n - 1))
    else PrevDay(AddDays(d, n + 1))
  }

  lemma {:induction false} AddDaysOrdinal(d: Date, n: int)
    requires Valid(d)
    ensures Ordinal(AddDays(d, n)) == Ordinal(d) + n
    decreases if n < 0 then -n else n
  {
    if n > 0 {
      AddDaysOrdinal(d, n - 1);
      NextDayOrdinal(AddDays(d, n - 1));
    } else if n < 0 {
      AddDaysOrdinal(d, n + 1);
      PrevDayOrdinal(AddDays(d, n + 1));
    }
  }

  /** The date `n` days after `d` is the one valid date whose ordinal is `n` more. */
  lemma AddDaysCharacterized(d: Date, n: int, r: Date)
    requires Valid(d) && Valid(r)
    ensures r == AddDays(d, n) <==> Ordinal(r) == Ordinal(d) + n
  {
    AddDaysOrdinal(d, n);
    if Ordinal(r) == Ordinal(d) + n {
      OrdinalInjective(r, AddDays(d, n));
    }
  }

  lemma AddDaysTwice(d: Date, m: int, n: int)
    requires Valid(d)
    ensures AddDays(AddDays(d, m), n) == AddDays(d, m + n)
  {
    AddDaysOrdinal(d, m);
    AddDaysOrdinal(AddDays(d, m), n);
    AddDaysCharacterized(d, m + n, AddDays(AddDays(d, m), n));
  }

  /** Adding a day advances the weekday by one, Sunday wrapping to Monday. */
  lemma WeekdayAdvances(d: Date, n: int)
    requires Valid(d)
    ensures Weekday(AddDays(d, n)) == (Weekday(d) + n) % 7
  {
    AddDaysOrdinal(d, n);
    var o := Ordinal(d) + 6;
    Mod7Shift(o / 7, o % 7 + n);
    Mod7Shift(o / 7, o % 7);
  }

  lemma Mod7Shift(q: int, x: int)
    ensures (7 * q + x) % 7 == x % 7
  {
  }

  // ---------------------------------------------------------------- day ranges

  /** The `n` consecutive days starting at `d`. */
  function Days(d: Date, n: nat): (r: seq<Date>)
    requires Valid(d)
    ensures |r| == n
  {
    seq(n, i requires 0 <= i < n => AddDays(d, i))
  }

  /** The number of days from `a` through `b` inclusive (zero when `b` is before `a`). */
  function SpanLength(a: Date, b: Date): nat
    requires Valid(a) && Valid(b)
  {
    if Ordinal(b) < Ordinal(a) then 0 else Ordinal(b) - Ordinal(a) + 1
  }

  /** Every calendar day from `a` through `b`, ascending. */
  function DayRange(a: Date, b: Date): seq<Date>
    requires Valid(a) && Valid(b)
  {
    Days(a, SpanLength(a, b))
  }

  /** The days of `Days(d, n)` are valid, consecutive, and start at `d`. */
  lemma DaysOrdinals(d: Date, n: nat)
    requires Valid(d)
    ensures forall i :: 0 <= i < n ==> Valid(Days(d, n)[i]) && Ordinal(Days(d, n)[i]) == Ordinal(d) + i
    ensures forall i :: 0 <= i < n - 1 ==> Days(d, n)[i + 1] == NextDay(Days(d, n)[i])
  {
    forall i | 0 <= i < n ensures Ordinal(Days(d, n)[i]) == Ordinal(d) + i {
      AddDaysOrdinal(d, i);
    }
  }

  /** `DayRange(a, b)` holds exactly the valid dates from `a` through `b`, each once, in
      ascending order. */
  lemma DayRangeExact(a: Date, b: Date)
    requires Valid(a) && Valid(b)
    ensures forall x :: Valid(x) ==> (x in DayRange(a, b) <==> NotAfter(a, x) && NotAfter(x, b))
    ensures forall i, j :: 0 <= i < j < |DayRange(a, b)| ==> Before(DayRange(a, b)[i], DayRange(a, b)[j])
    ensures NotAfter(a, b) ==>
      (|DayRange(a, b)| > 0 && DayRange(a, b)[0] == a && DayRange(a, b)[|DayRange(a, b)| - 1] == b)
  {
    var r := DayRange(a, b);
    DaysOrdinals(a, |r|);
    BeforeIsOrdinalLess(b, a);
    forall x | Valid(x) ensures x in r <==> NotAfter(a, x) && NotAfter(x, b) {
      BeforeIsOrdinalLess(x, a);
      BeforeIsOrdinalLess(b, x);
      if NotAfter(a, x) && NotAfter(x, b) {
        var k := Ordinal(x) - Ordinal(a);
        OrdinalInjective(x, r[k]);
      }
      if x in r {
        var k :| 0 <= k < |r| && r[k] == x;
      }
    }
    forall i, j | 0 <= i < j < |r| ensures Before(r[i], r[j]) {
      BeforeIsOrdinalLess(r[i], r[j]);
    }
    if NotAfter(a, b) {
      AddDaysCharacterized(a, |r| - 1, b);
    }
  }

  /** Consecutive runs concatenate: `n` days from `d`, then `m` more, are `n + m` days from `d`. */
  lemma DaysSplit(d: Date, n: nat, m: nat)
    requires Valid(d)
    ensures Days(d, n + m) == Days(d, n) + Days(AddDays(d, n), m)
  {
    forall i | 0 <= i < m ensures Days(d, n + m)[n + i] == Days(AddDays(d, n), m)[i] {
      AddDaysTwice(d, n, i);
    }
  }

  /** A date between two datetime-representable dates is representable too. */
  lemma BetweenInRange(a: Date, x: Date, b: Date)
    requires InRange(a) && InRange(b) && NotAfter(a, x) && NotAfter(x, b)
    ensures InRange(x)
  {
  }

  /** Nothing representable comes after 9999-12-31. */
  lemma MaxDateIsLast(d: Date)
    requires Valid(d) && InRange(d) && NotAfter(MaxDate, d)
    ensures d == MaxDate
  {
  }

  /** The days of a run lie between its first and its last day. */
  lemma DaysBetween(d: Date, n: nat, i: nat)
    requires Valid(d) && 0 <= i < n
    ensures NotAfter(d, Days(d, n)[i]) && NotAfter(Days(d, n)[i], AddDays(d, n - 1))
  {
    DaysOrdinals(d, n);
    AddDaysOrdinal(d, n - 1);
    BeforeIsOrdinalLess(Days(d, n)[i], d);
    BeforeIsOrdinalLess(AddDays(d, n - 1), Days(d, n)[i]);
  }

  /** A run whose first and last days are representable holds only representable days. */
  lemma DaysInRange(d: Date, n: nat)
    requires Valid(d) && InRange(d) && (n > 0 ==> InRange(AddDays(d, n - 1)))
    ensures forall i :: 0 <= i < n ==> InRange(Days(d, n)[i])
  {
    forall i | 0 <= i < n ensures InRange(Days(d, n)[i]) {
      DaysBetween(d, n, i);
      BetweenInRange(d, Days(d, n)[i], AddDays(d, n - 1));
    }
  }

  /** A range between representable dates holds only representable days. */
  lemma DayRangeInRange(a: Date, b: Date)
    requires Valid(a) && Valid(b) && InRange(a) && InRange(b)
    ensures forall i :: 0 <= i < |DayRange(a, b)| ==> InRange(DayRange(a, b)[i])
  {
    DayRangeExact(a, b);
    forall i | 0 <= i < |DayRange(a, b)| ensures InRange(DayRange(a, b)[i]) {
      BetweenInRange(a, DayRange(a, b)[i], b);
    }
  }

  // ---------------------------------------------------------------- months and weeks

  /** Inside a month, adding days just advances the day of the month. */
  lemma AddDaysWithinMonth(d: Date, i: nat)
    requires Valid(d) && d.day + i <= DaysInMonth(d.year, d.month)
    ensures AddDays(d, i) == Date(d.year, d.month, d.day + i)
  {
    AddDaysCharacterized(d, i, Date(d.year, d.month, d.day + i));
  }

  /** The 1st of the month after month `m` of year `y`. */
  function NextMonthFirst(y: int, m: int): (r: Date)
    requires 1 <= m <= 12
    ensures Valid(r) && r.day == 1
  {
    if m == 12 then Date(y + 1, 1, 1) else Date(y, m + 1, 1)
  }

  /** The last day of a month is the day before the 1st of the next one, and the 1st of the
      next month lies a whole month's length after the 1st of this one. */
  lemma MonthLength(y: int, m: int)
    requires 1 <= m <= 12
    ensures PrevDay(NextMonthFirst(y, m)) == Date(y, m, DaysInMonth(y, m))
    ensures Ordinal(NextMonthFirst(y, m)) == Ordinal(Date(y, m, 1)) + DaysInMonth(y, m)
    ensures AddDays(Date(y, m, 1), DaysInMonth(y, m)) == NextMonthFirst(y, m)
  {
    var last := Date(y, m, DaysInMonth(y, m));
    NextDayOrdinal(last);
    assert NextDay(last) == NextMonthFirst(y, m);
    AddDaysCharacterized(Date(y, m, 1), DaysInMonth(y, m), NextMonthFirst(y, m));
  }

  /** `(d.replace(day=28) + timedelta(days=4)).replace(day=1)` is the 1st of the next month:
      every month has 28 to 31 days, so day 28 plus four days always lands on day 1 to 4 of
      the following month, December rolling over into January. */
  lemma NextMonthStep(y: int, m: int)
    requires 1 <= m <= 12
    ensures var x := AddDays(Date(y, m, 28), 4); Date(x.year, x.month, 1) == NextMonthFirst(y, m)
  {
    var n := NextMonthFirst(y, m);
    var k := 31 - DaysInMonth(y, m);
    MonthLength(y, m);
    AddDaysWithinMonth(n, k);
    AddDaysWithinMonth(Date(y, m, 1), 27);
    AddDaysTwice(Date(y, m, 1), 27, 4);
    AddDaysTwice(Date(y, m, 1), DaysInMonth(y, m), k);
  }

  function Jan1(y: int): Date { Date(y, 1, 1) }

  /** The day of the year (1 = January 1st) on which week `w` of `%W` numbering starts,
      computed as Python's `_strptime` does for a Monday: week 1 begins on the year's first
      Monday, and week 0 on the Monday on or before January 1st. */
  function WeekJulian(y: int, w: int): int
  {
    var fw := Weekday(Jan1(y));
    if w == 0 then 1 - fw else 1 + (7 - fw) % 7 + 7 * (w - 1)
  }

  /** The Monday that starts week `w` of year `y`, possibly in a neighbouring year. */
  function WeekStart(y: int, w: int): (r: Date)
    ensures Valid(r)
  {
    AddDays(Jan1(y), WeekJulian(y, w) - 1)
  }

  /** The first Monday of year `y`. */
  function FirstMonday(y: int): Date
  {
    AddDays(Jan1(y), (7 - Weekday(Jan1(y))) % 7)
  }

  /** The year's first Monday is one of January 1st to 7th. */
  lemma FirstMondayIsEarly(y: int)
    ensures var f := FirstMonday(y); f.year == y && f.month == 1 && 1 <= f.day <= 7 && Weekday(f) == 0
  {
    var j := Jan1(y);
    var fw := Weekday(j);
    var k := (7 - fw) % 7;
    assert fw + k == 0 || fw + k == 7;
    AddDaysWithinMonth(j, k);
    WeekdayAdvances(j, k);
  }

  /** Every `%W` week starts on a Monday. */
  lemma WeekStartMonday(y: int, w: int)
    ensures Weekday(WeekStart(y, w)) == 0
  {
    var j := Jan1(y);
    WeekdayAdvances(j, WeekJulian(y, w) - 1);
    MondayOffset(Weekday(j), w);
  }

  lemma MondayOffset(fw: int, w: int)
    requires 0 <= fw < 7
    ensures (fw + (if w == 0 then 1 - fw else 1 + (7 - fw) % 7 + 7 * (w - 1)) - 1) % 7 == 0
  {
    if w != 0 {
      var k := (7 - fw) % 7;
      assert fw + k == 0 || fw + k == 7;
      Mod7Shift(w - 1, fw + k);
    }
  }

  /** Week `w >= 1` starts `w - 1` weeks after the year's first Monday. */
  lemma WeekStartAfterFirstMonday(y: int, w: int)
    requires w >= 1
    ensures WeekStart(y, w) == AddDays(FirstMonday(y), 7 * (w - 1))
  {
    AddDaysTwice(Jan1(y), (7 - Weekday(Jan1(y))) % 7, 7 * (w - 1));
  }

  /** Week 0 starts on the Monday on or before January 1st. */
  lemma WeekZeroStart(y: int)
    ensures Ordinal(Jan1(y)) - 6 <= Ordinal(WeekStart(y, 0)) <= Ordinal(Jan1(y))
  {
    AddDaysOrdinal(Jan1(y), WeekJulian(y, 0) - 1);
  }

  // ---------------------------------------------------------------- text

  function Pad2(n: nat): string requires n < 100 { ZeroPad(n, 2) }

  /** `strftime("%Y-%m")`, with the year zero-padded to four digits. */
  function FormatMonth(y: int, m: int): string
    requires 0 <= y <= 9999 && 1 <= m <= 12
  {
    ZeroPad(y, 4) + "-" + Pad2(m)
  }

  /** `strftime("%Y-%m-%d")`, with the year zero-padded to four digits. */
  function Format(d: Date): string
    requires Valid(d) && InRange(d)
  {
    FormatMonth(d.year, d.month) + "-" + Pad2(d.day)
  }

  /** A `%m` field of `strptime`: the regex `1[0-2]|0[1-9]|[1-9]`. */
  predicate IsMonthToken(t: string)
  {
    (|t| == 2 && t[0] == '1' && '0' <= t[1] <= '2')
    || (|t| == 2 && t[0] == '0' && '1' <= t[1] <= '9')
    || (|t| == 1 && '1' <= t[0] <= '9')
  }

  /** A `%d` field of `strptime` that ends the input: the regex
      `3[01]|[12]\d|0[1-9]|[1-9]| [1-9]`, tried in that order, must consume all of it. */
  predicate IsDayToken(t: string)
  {
    (|t| == 2 && t[0] == '3' && '0' <= t[1] <= '1')
    || (|t| == 2 && '1' <= t[0] <= '2' && IsDigit(t[1]))
    || (|t| == 2 && t[0] == '0' && '1' <= t[1] <= '9')
    || (|t| == 1 && '1' <= t[0] <= '9')
    || (|t| == 2 && t[0] == ' ' && '1' <= t[1] <= '9')
  }

  /** The number a month or day token denotes (a leading blank is ignored). */
  function TokenValue(t: string): nat
    requires IsMonthToken(t) || IsDayToken(t)
  {
    if |t| == 1 then DigitValue(t[0])
    else if t[0] == ' ' then DigitValue(t[1])
    else 10 * DigitValue(t[0]) + DigitValue(t[1])
  }

  /** `datetime.strptime(s, "%Y-%m-%d")`: four digits, `-`, a month token, `-`, a day token,
      then the end of the input; a year of 0 or a day past the month's end raise ValueError. */
  function ParseDate(s: string): (r: Option<Date>)
    ensures r.Some? ==> Valid(r.value) && InRange(r.value)
  {
    if |s| < 5 || !AllDigits(s[..4]) || s[4] != '-' then None
    else
      var rest := s[5..];
      match FindFirst(rest, "-")
      case None => None
      case Some(j) =>
        var mt := rest[..j];
        var dt := rest[j + 1..];
        if !IsMonthToken(mt) || !IsDayToken(dt) then None
        else
          var y := DigitsValue(s[..4]);
          DigitsBelow(s[..4]);
          var m := TokenValue(mt);
          var d := TokenValue(dt);
          if y >= 1 && d <= DaysInMonth(y, m) then Some(Date(y, m, d)) else None
  }

  lemma {:induction false} DigitsBelow(s: string)
    requires AllDigits(s)
    ensures DigitsValue(s) < Pow10(|s|)
  {
    if s != [] {
      DigitsBelow(s[..|s| - 1]);
    }
  }

  /** Formatting and then parsing a date gives the date back. */
  lemma ParseFormat(d: Date)
    requires Valid(d) && InRange(d)
    ensures ParseDate(Format(d)) == Some(d)
  {
    var s := Format(d);
    ZeroPadDigits(d.year, 4);
    var ys, ms, ds := ZeroPad(d.year, 4), Pad2(d.month), Pad2(d.day);
    PadToken(d.month);
    PadToken(d.day);
    assert s == ys + "-" + ms + "-" + ds;
    assert s[..4] == ys;
    var rest := s[5..];
    assert rest == ms + "-" + ds;
    assert rest[0] != '-' && rest[1] != '-' && rest[2] == '-';
    assert !OccursAt(rest, "-", 0) && !OccursAt(rest, "-", 1) && OccursAt(rest, "-", 2);
    FindFirstAt(rest, "-", 2);
    assert rest[..2] == ms && rest[3..] == ds;
    assert DigitsValue(s[..4]) == d.year;
  }

  /** A month or day written with two digits reads back as a month and a day token of the
      same value. */
  lemma PadToken(n: nat)
    requires 1 <= n <= 31
    ensures IsDayToken(Pad2(n)) && TokenValue(Pad2(n)) == n
    ensures n <= 12 ==> IsMonthToken(Pad2(n))
  {
    ZeroPadDigits(n, 2);
    var t := Pad2(n);
    assert t == [DigitChar(n / 10), DigitChar(n % 10)];
  }

  /** Every date of `ds`, written as `YYYY-MM-DD`. */
  function FormatAll(ds: seq<Date>): (r: seq<string>)
    requires forall i :: 0 <= i < |ds| ==> Valid(ds[i]) && InRange(ds[i])
    ensures |r| == |ds| && forall i :: 0 <= i < |ds| ==> r[i] == Format(ds[i])
  {
    seq(|ds|, i requires 0 <= i < |ds| => Format(ds[i]))
  }

  /** Formatting one more day appends its text. */
  lemma FormatAllSnoc(ds: seq<Date>, i: nat)
    requires i < |ds| && forall j :: 0 <= j <= i ==> Valid(ds[j]) && InRange(ds[j])
    ensures FormatAll(ds[..i + 1]) == FormatAll(ds[..i]) + [Format(ds[i])]
  {
  }

  /** Each formatted day of a run parses back to that day. */
  lemma DaysParse(d: Date, n: nat)
    requires Valid(d) && InRange(d) && (n > 0 ==> InRange(AddDays(d, n - 1)))
    ensures forall i :: 0 <= i < n ==> InRange(Days(d, n)[i])
    ensures forall i :: 0 <= i < n ==> ParseDate(Format(Days(d, n)[i])) == Some(AddDays(d, i))
  {
    DaysInRange(d, n);
    forall i | 0 <= i < n ensures ParseDate(Format(Days(d, n)[i])) == Some(AddDays(d, i)) {
      ParseFormat(Days(d, n)[i]);
    }
  }

  /** The days from `a` through `b`, formatted. */
  function RangeRun(a: Date, b: Date): seq<string>
    requires Valid(a) && InRange(a) && Valid(b) && InRange(b)
  {
    DayRangeInRange(a, b);
    FormatAll(DayRange(a, b))
  }

  /** The range loop runs while `start + i` has not passed `end`, i.e. for as many steps as the
      range has days. */
  lemma RangeLoopBound(start: Date, end: Date, i: nat)
    requires Valid(start) && Valid(end)
    ensures NotAfter(AddDays(start, i), end) <==> i < SpanLength(start, end)
    ensures i < SpanLength(start, end) ==> NotAfter(start, end)
  {
    AddDaysOrdinal(start, i);
    BeforeIsOrdinalLess(end, AddDays(start, i));
    BeforeIsOrdinalLess(end, start);
  }

  /** The formatted range holds one text per day, each parsing back to its day. */
  lemma RangeRunDays(a: Date, b: Date)
    requires Valid(a) && InRange(a) && Valid(b) && InRange(b)
    ensures var r := RangeRun(a, b);
      && |r| == SpanLength(a, b)
      && (forall x :: Valid(x) && InRange(x) ==> (Format(x) in r <==> NotAfter(a, x) && NotAfter(x, b)))
      && (forall i :: 0 <= i < |r| ==> ParseDate(r[i]) == Some(AddDays(a, i)))
      && (Before(b, a) ==> r == [])
  {
    var r := RangeRun(a, b);
    var days := DayRange(a, b);
    DayRangeInRange(a, b);
    DayRangeExact(a, b);
    forall i | 0 <= i < |r| ensures ParseDate(r[i]) == Some(AddDays(a, i)) {
      ParseFormat(days[i]);
    }
    forall x | Valid(x) && InRange(x) ensures Format(x) in r <==> NotAfter(a, x) && NotAfter(x, b) {
      if Format(x) in r {
        var i :| 0 <= i < |r| && r[i] == Format(x);
        ParseFormat(x);
        ParseFormat(days[i]);
      }
      if NotAfter(a, x) && NotAfter(x, b) {
        var i :| 0 <= i < |days| && days[i] == x;
        assert r[i] == Format(x);
      }
    }
    BeforeIsOrdinalLess(b, a);
  }

  /** Python's `min(a, b)` on dates: `b` only when it is strictly earlier than `a`. */
  function MinDate(a: Date, b: Date): (r: Date)
    ensures r == a || r == b
    ensures NotAfter(r, a) && NotAfter(r, b)
    ensures Before(b, a) <==> r == b && r != a
  {
    if Before(b, a) then b else a
  }

  /** A range splits after any of its days: the days through `m`, then those from the day
      after `m` (`m2`) through `b`. */
  lemma DayRangeSplit(a: Date, m: Date, m2: Date, b: Date)
    requires Valid(a) && Valid(m) && Valid(m2) && Valid(b)
    requires Ordinal(m2) == Ordinal(m) + 1
    requires NotAfter(a, m) && NotAfter(m, b)
    ensures DayRange(a, m) + DayRange(m2, b) == DayRange(a, b)
  {
    BeforeIsOrdinalLess(m, a);
    BeforeIsOrdinalLess(b, m);
    var p := Ordinal(m) - Ordinal(a) + 1;
    var q := Ordinal(b) - Ordinal(m);
    assert SpanLength(a, m) == p && SpanLength(m2, b) == q && SpanLength(a, b) == p + q;
    DaysSplit(a, p, q);
    AddDaysCharacterized(a, p, m2);
  }

  /** Where a day-by-day loop over `a` through `b` stands before step `i`: at `a + i`, having
      formatted the first `i` days; when the range ends on 9999-12-31 the loop has not yet
      stepped past it. */
  predicate RangeSoFar(a: Date, b: Date, i: nat, c: Date, dates: seq<string>)
    requires Valid(a) && InRange(a) && Valid(b) && InRange(b)
  {
    && i <= SpanLength(a, b)
    && c == AddDays(a, i)
    && dates == RangeRun(a, b)[..i]
    && (NotAfter(a, b) && b == MaxDate ==> i < SpanLength(a, b))
  }

  /** A step of the loop formats the day it stands on; standing on 9999-12-31 it cannot step
      further, and that happens only when the range ends there. */
  lemma RangeStep(a: Date, b: Date, i: nat, c: Date, dates: seq<string>)
    requires Valid(a) && InRange(a) && Valid(b) && InRange(b)
    requires RangeSoFar(a, b, i, c, dates) && NotAfter(c, b)
    ensures InRange(c) && i < SpanLength(a, b)
    ensures c == MaxDate ==> NotAfter(a, b) && b == MaxDate
    ensures c != MaxDate ==> RangeSoFar(a, b, i + 1, NextDay(c), dates + [Format(c)])
  {
    RangeLoopBound(a, b, i);
    DayRangeInRange(a, b);
    var run := RangeRun(a, b);
    assert DayRange(a, b)[i] == c;
    TakeOneMore(run, i);
    if c == MaxDate {
      MaxDateIsLast(b);
    } else if NotAfter(a, b) && b == MaxDate {
      RangeLoopBound(a, b, i + 1);
      assert NotAfter(NextDay(c), b);
    }
  }

  /** When the loop stops it has formatted every day of the range, and did not overflow. */
  lemma RangeDone(a: Date, b: Date, i: nat, c: Date, dates: seq<string>)
    requires Valid(a) && InRange(a) && Valid(b) && InRange(b)
    requires RangeSoFar(a, b, i, c, dates) && Before(b, c)
    ensures dates == RangeRun(a, b) && !(NotAfter(a, b) && b == MaxDate)
  {
    RangeLoopBound(a, b, i);
    assert RangeRun(a, b)[..i] == RangeRun(a, b);
  }

  /** The `while current <= end` loop that formats every day of a range and steps one day at
      a time: the days from `start` through `end`, or None when stepping past 9999-12-31
      overflows. */
  method ListDays(start: Date, end: Date) returns (r: Option<seq<string>>)
    requires Valid(start) && InRange(start) && Valid(end) && InRange(end)
    ensures r == if NotAfter(start, end) && end == MaxDate then None else Some(RangeRun(start, end))
  {
    var dates: seq<string> := [];
    var current := start;
    ghost var i: nat := 0;
    while NotAfter(current, end)
      invariant RangeSoFar(start, end, i, current, dates)
      decreases SpanLength(start, end) - i
    {
      RangeStep(start, end, i, current, dates);
      dates := dates + [Format(current)];
      if current == MaxDate {
        return None;
      }
      current := NextDay(current);
      i := i + 1;
    }
    RangeDone(start, end, i, current, dates);
    r := Some(dates);
  }
}
