// What the stacked chart's buckets amount to: the weekly and the monthly buckets cut the
// requested days into consecutive runs, every bucket's count is the sum of its days' counts,
// and so the weekly series adds up to the daily one.
module StatsFacts {
  import opened Base
  import opened Calendar
  import opened Stats

  // ---------------------------------------------------------------- sums

  /** The total of a series. */
  function SeqSum(xs: seq<nat>): nat
  {
    if xs == [] then 0 else xs[0] + SeqSum(xs[1..])
  }

  lemma {:induction false} SeqSumAppend(a: seq<nat>, b: seq<nat>)
    ensures SeqSum(a + b) == SeqSum(a) + SeqSum(b)
  {
    if a == [] {
      assert a + b == b;
    } else {
      assert (a + b)[1..] == a[1..] + b;
      SeqSumAppend(a[1..], b);
    }
  }

  /** The counts over two runs of days add up. */
  lemma {:induction false} SumCountsAppend(dm: DataMap, a: seq<Date>, b: seq<Date>, status: string)
    requires AllInRange(a) && AllInRange(b)
    ensures AllInRange(a + b)
    ensures SumCounts(dm, a + b, status) == SumCounts(dm, a, status) + SumCounts(dm, b, status)
  {
    if a == [] {
      assert a + b == b;
    } else {
      assert (a + b)[1..] == a[1..] + b;
      SumCountsAppend(dm, a[1..], b, status);
    }
  }

  /** Adding up a bucketed series gives the counts over all the buckets' days. */
  lemma {:induction false} BucketSeriesSum(dm: DataMap, ws: seq<Window>, status: string)
    requires AllOk(ws)
    ensures SeqSum(Series(ws, BucketCell(dm), status)) == SumCounts(dm, ConcatDays(ws), status)
  {
    if ws != [] {
      var tail := ws[1..];
      assert Series(ws, BucketCell(dm), status)[1..] == Series(tail, BucketCell(dm), status);
      BucketSeriesSum(dm, tail, status);
      DayRangeInRange(ws[0].first, ws[0].last);
      SumCountsAppend(dm, DayRange(ws[0].first, ws[0].last), ConcatDays(tail), status);
    }
  }

  /** Adding up a daily series gives the counts over its days. */
  lemma {:induction false} DailySeriesSum(dm: DataMap, days: seq<Date>, status: string)
    requires AllInRange(days)
    ensures SeqSum(Series(FormatAll(days), DayCell(dm), status)) == SumCounts(dm, days, status)
  {
    if days != [] {
      var tail := days[1..];
      assert FormatAll(days)[1..] == FormatAll(tail);
      assert Series(FormatAll(days), DayCell(dm), status)[1..] == Series(FormatAll(tail), DayCell(dm), status);
      DailySeriesSum(dm, tail, status);
    }
  }

  // ---------------------------------------------------------------- weekly buckets

  /** The first week from `c` either ends the range, or is followed by the weeks from seven
      days on, whose days continue its own. */
  lemma WeekSplit(c: Date, e: Date)
    requires Valid(c) && InRange(c) && Valid(e) && InRange(e) && NotAfter(c, e)
    ensures var w, n := WeekFrom(c, e), AddDays(c, 7);
      && Valid(n)
      && (w.last == e || Before(e, n) ==> w.last == e && WeeksFrom(n, e) == [])
      && (!(w.last == e || Before(e, n)) ==>
            && InRange(n) && SpanLength(n, e) < SpanLength(c, e)
            && DayRange(c, w.last) + DayRange(n, e) == DayRange(c, e))
  {
    StepFacts(c, e, 7);
    var w := WeekFrom(c, e);
    var n := AddDays(c, 7);
    AddDaysOrdinal(c, 6);
    AddDaysOrdinal(c, 7);
    BeforeIsOrdinalLess(e, n);
    BeforeIsOrdinalLess(AddDays(c, 6), e);
    if !(w.last == e || Before(e, n)) {
      BetweenInRange(c, n, e);
      DayRangeSplit(c, w.last, n, e);
    }
  }

  /** The weeks from `c` cut the days from `c` through `e` into consecutive runs: one after
      another they are exactly those days, each once, in order. */
  lemma {:induction false} WeeksPartition(c: Date, e: Date)
    requires Valid(c) && InRange(c) && Valid(e) && InRange(e)
    ensures AllOk(WeeksFrom(c, e))
    ensures ConcatDays(WeeksFrom(c, e)) == DayRange(c, e)
    decreases SpanLength(c, e)
  {
    WeeksOk(c, e);
    if Before(e, c) {
      BeforeIsOrdinalLess(e, c);
    } else {
      WeekSplit(c, e);
      StepFacts(c, e, 7);
      var w := WeekFrom(c, e);
      var n := AddDays(c, 7);
      var rest := WeeksFrom(n, e);
      WeeksOk(n, e);
      assert WeeksFrom(c, e) == [w] + rest;
      assert ([w] + rest)[1..] == rest;
      if !(w.last == e || Before(e, n)) {
        WeeksPartition(n, e);
      }
    }
  }

  /** The weekly series adds up to the daily series over the same dates: every day is counted
      in exactly one week. */
  lemma WeeklyTotalsMatchDaily(dm: DataMap, s: Date, e: Date, status: string)
    requires Valid(s) && InRange(s) && Valid(e) && InRange(e)
    ensures AllOk(WeeklyWindows(s, e))
    ensures SeqSum(Series(WeeklyWindows(s, e), BucketCell(dm), status))
         == SeqSum(Series(RangeRun(s, e), DayCell(dm), status))
  {
    WeeksPartition(s, e);
    BucketSeriesSum(dm, WeeklyWindows(s, e), status);
    DayRangeInRange(s, e);
    DailySeriesSum(dm, DayRange(s, e), status);
  }

  /** There are as many weeks as it takes to cover the range seven days at a time. */
  lemma {:induction false} WeekCount(c: Date, e: Date)
    requires Valid(c) && InRange(c) && Valid(e) && InRange(e)
    ensures |WeeksFrom(c, e)| == (SpanLength(c, e) + 6) / 7
    decreases SpanLength(c, e)
  {
    StepFacts(c, e, 7);
    if NotAfter(c, e) {
      var n := AddDays(c, 7);
      assert WeeksFrom(c, e) == [WeekFrom(c, e)] + WeeksFrom(n, e);
      AddDaysOrdinal(c, 7);
      BeforeIsOrdinalLess(e, n);
      if NotAfter(n, e) {
        BetweenInRange(c, n, e);
        WeekCount(n, e);
      }
    }
  }

  /** Week `k` starts `7 * k` days after `c`, ends six days later or at `e`, whichever is
      earlier, and is captioned `"<first> to <last>"`. */
  lemma {:induction false} WeekAt(c: Date, e: Date, k: nat)
    requires Valid(c) && InRange(c) && Valid(e) && InRange(e)
    requires k < |WeeksFrom(c, e)|
    ensures AllOk(WeeksFrom(c, e))
    ensures Ordinal(WeeksFrom(c, e)[k].first) == Ordinal(c) + 7 * k
    ensures WeeksFrom(c, e)[k].last == MinDate(AddDays(WeeksFrom(c, e)[k].first, 6), e)
    ensures WeeksFrom(c, e)[k].caption == Format(WeeksFrom(c, e)[k].first) + " to " + Format(WeeksFrom(c, e)[k].last)
    decreases k
  {
    WeeksOk(c, e);
    StepFacts(c, e, 7);
    var n := AddDays(c, 7);
    var rest := WeeksFrom(n, e);
    assert WeeksFrom(c, e) == [WeekFrom(c, e)] + rest;
    if k > 0 {
      AddDaysOrdinal(c, 7);
      BeforeIsOrdinalLess(e, n);
      BetweenInRange(c, n, e);
      WeekAt(n, e, k - 1);
      assert WeeksFrom(c, e)[k] == rest[k - 1];
    }
  }

  /** Week `k` starts on `c + 7 * k` days. */
  lemma WeekFirstDay(c: Date, e: Date, k: nat)
    requires Valid(c) && InRange(c) && Valid(e) && InRange(e)
    requires k < |WeeksFrom(c, e)|
    ensures WeeksFrom(c, e)[k].first == AddDays(c, 7 * k)
  {
    WeekAt(c, e, k);
    AddDaysCharacterized(c, 7 * k, WeeksFrom(c, e)[k].first);
  }

  // ---------------------------------------------------------------- monthly buckets

  /** The months from `c` cut the days from the 1st of `c`'s month through `e` into
      consecutive runs, one per calendar month. */
  lemma {:induction false} MonthsPartition(c: Date, e: Date)
    requires Valid(c) && InRange(c) && Valid(e) && InRange(e)
    ensures AllOk(MonthsFrom(c, e))
    ensures Before(e, c) ==> MonthsFrom(c, e) == []
    ensures NotAfter(c, e) ==> ConcatDays(MonthsFrom(c, e)) == DayRange(MonthStart(c), e)
    decreases MonthIndex(e) - MonthIndex(c) + 1
  {
    MonthsOk(c, e);
    if NotAfter(c, e) {
      var ms := MonthStart(c);
      var n := NextMonthFirst(c.year, c.month);
      var last := Date(c.year, c.month, DaysInMonth(c.year, c.month));
      var w := MonthWindow(c, e);
      var rest := MonthsFrom(n, e);
      MonthsOk(n, e);
      assert MonthsFrom(c, e) == [w] + rest;
      assert ([w] + rest)[1..] == rest;
      MonthLength(c.year, c.month);
      PrevDayOrdinal(n);
      BeforeIsOrdinalLess(e, n);
      BeforeIsOrdinalLess(last, e);
      if Before(e, n) {
        assert rest == [];
        assert w.last == e;
      } else {
        BetweenInRange(c, n, e);
        MonthsPartition(n, e);
        DayRangeSplit(ms, last, n, e);
      }
    }
  }

  /** Bucket `k` of the monthly buckets is the `k`-th month after `c`'s, from its 1st through
      its last day or `e`, whichever is earlier, captioned `YYYY-MM`; each bucket after the
      first starts on the 1st of the month after the previous one, and there is one bucket per
      month from `c`'s through `e`'s. */
  lemma {:induction false} MonthAt(c: Date, e: Date)
    requires Valid(c) && InRange(c) && Valid(e) && InRange(e)
    ensures AllOk(MonthsFrom(c, e))
    ensures |MonthsFrom(c, e)| == if Before(e, c) then 0 else MonthIndex(e) - MonthIndex(c) + 1
    ensures |MonthsFrom(c, e)| > 0 ==> MonthsFrom(c, e)[0].first == MonthStart(c)
    ensures forall k :: 0 <= k < |MonthsFrom(c, e)| ==>
      var w := MonthsFrom(c, e)[k];
      && w.first.day == 1
      && MonthIndex(w.first) == MonthIndex(c) + k
      && w.last == MinDate(Date(w.first.year, w.first.month, DaysInMonth(w.first.year, w.first.month)), e)
      && w.caption == FormatMonth(w.first.year, w.first.month)
    ensures forall k :: 0 <= k < |MonthsFrom(c, e)| - 1 ==>
      var w := MonthsFrom(c, e)[k];
      MonthsFrom(c, e)[k + 1].first == NextMonthFirst(w.first.year, w.first.month)
    decreases MonthIndex(e) - MonthIndex(c) + 1
  {
    MonthsOk(c, e);
    if NotAfter(c, e) {
      var n := NextMonthFirst(c.year, c.month);
      var w := MonthWindow(c, e);
      var rest := MonthsFrom(n, e);
      var ws := MonthsFrom(c, e);
      assert ws == [w] + rest;
      if Before(e, n) {
        assert rest == [];
      } else {
        BetweenInRange(c, n, e);
        MonthAt(n, e);
        assert forall k :: 1 <= k < |ws| ==> ws[k] == rest[k - 1];
      }
    }
  }

  /** The days of a month before `s`: the 1st through the day before `s`. */
  function LeadIn(s: Date): (r: seq<Date>)
    requires Valid(s) && InRange(s)
    ensures |r| == s.day - 1
    ensures forall i :: 0 <= i < |r| ==> r[i] == Date(s.year, s.month, 1 + i)
    ensures AllInRange(r)
  {
    var days := Days(MonthStart(s), s.day - 1);
    assert forall i :: 0 <= i < |days| ==> days[i] == Date(s.year, s.month, 1 + i) by {
      forall i | 0 <= i < |days| ensures days[i] == Date(s.year, s.month, 1 + i) {
        AddDaysWithinMonth(MonthStart(s), i);
      }
    }
    days
  }

  /** From the 1st of `s`'s month, the days through `e` are the lead-in, then `s` through `e`. */
  lemma LeadInSplit(s: Date, e: Date)
    requires Valid(s) && InRange(s) && Valid(e) && InRange(e) && NotAfter(s, e)
    ensures DayRange(MonthStart(s), e) == LeadIn(s) + DayRange(s, e)
  {
    var ms := MonthStart(s);
    AddDaysWithinMonth(ms, s.day - 1);
    AddDaysOrdinal(ms, s.day - 1);
    BeforeIsOrdinalLess(e, ms);
    BeforeIsOrdinalLess(e, s);
    DaysSplit(ms, s.day - 1, SpanLength(s, e));
  }

  /** The monthly series adds up to the daily series plus the days of `s`'s month before `s`,
      which the first bucket counts as well. */
  lemma MonthlyTotals(dm: DataMap, s: Date, e: Date, status: string)
    requires Valid(s) && InRange(s) && Valid(e) && InRange(e)
    ensures AllOk(MonthlyWindows(s, e))
    ensures SeqSum(Series(MonthlyWindows(s, e), BucketCell(dm), status))
         == (if NotAfter(s, e) then SumCounts(dm, LeadIn(s), status) else 0)
            + SeqSum(Series(RangeRun(s, e), DayCell(dm), status))
  {
    MonthsPartition(s, e);
    BucketSeriesSum(dm, MonthlyWindows(s, e), status);
    DayRangeInRange(s, e);
    DailySeriesSum(dm, DayRange(s, e), status);
    if NotAfter(s, e) {
      LeadInSplit(s, e);
      SumCountsAppend(dm, LeadIn(s), DayRange(s, e), status);
    } else {
      BeforeIsOrdinalLess(e, s);
    }
  }

  /** The counts over days none of which has a count are zero. */
  lemma {:induction false} SumCountsNone(dm: DataMap, days: seq<Date>, status: string)
    requires AllInRange(days)
    requires forall i :: 0 <= i < |days| ==> (Format(days[i]), status) !in dm
    ensures SumCounts(dm, days, status) == 0
  {
    if days != [] {
      SumCountsNone(dm, days[1..], status);
    }
  }

  /** The grouped counts only hold dates from `date_from` on, so the monthly series adds up to
      the daily one: the first bucket's days before `date_from` contribute nothing. */
  lemma MonthlyTotalsMatchDaily(dm: DataMap, s: Date, e: Date, status: string)
    requires Valid(s) && InRange(s) && Valid(e) && InRange(e)
    requires forall d, st :: (d, st) in dm ==> ParseDate(d).Some? && NotAfter(s, ParseDate(d).value)
    ensures AllOk(MonthlyWindows(s, e))
    ensures SeqSum(Series(MonthlyWindows(s, e), BucketCell(dm), status))
         == SeqSum(Series(RangeRun(s, e), DayCell(dm), status))
  {
    MonthlyTotals(dm, s, e, status);
    var lead := LeadIn(s);
    forall i | 0 <= i < |lead| ensures (Format(lead[i]), status) !in dm {
      ParseFormat(lead[i]);
      assert Before(lead[i], s);
    }
    SumCountsNone(dm, lead, status);
  }

  // ---------------------------------------------------------------- the reply

  /** Every chart has one series per charted status, each as long as the list of labels. */
  lemma ChartShape(view: string, dateFrom: string, dateTo: string, connected: bool, dm: DataMap)
    ensures StackedReplyFor(view, dateFrom, dateTo, connected, dm).Ok? &&
            StackedReplyFor(view, dateFrom, dateTo, connected, dm).value.Chart? ==>
      var c := StackedReplyFor(view, dateFrom, dateTo, connected, dm).value;
      && c.statuses.Keys == StatusSet
      && forall st :: st in c.statuses ==> |c.statuses[st]| == |c.dates|
  {
  }

  /** The daily chart lists every day from `date_from` through `date_to`, each once and in
      order, and gives each status its count on that day, 0 when the grouping has none. */
  lemma DailyChartContents(dateFrom: string, dateTo: string, dm: DataMap)
    requires ParseDate(dateFrom).Some? && ParseDate(dateTo).Some?
    requires var s, e := ParseDate(dateFrom).value, ParseDate(dateTo).value; !(NotAfter(s, e) && e == MaxDate)
    ensures var s, e := ParseDate(dateFrom).value, ParseDate(dateTo).value;
      var r := StackedReplyFor("daily", dateFrom, dateTo, true, dm);
      && r.Ok? && r.value.Chart?
      && |r.value.dates| == SpanLength(s, e)
      && (forall i :: 0 <= i < |r.value.dates| ==> ParseDate(r.value.dates[i]) == Some(AddDays(s, i)))
      && (forall st, i :: st in StatusSet && 0 <= i < |r.value.dates| ==>
            r.value.statuses[st][i] == Count(dm, r.value.dates[i], st))
  {
    var s, e := ParseDate(dateFrom).value, ParseDate(dateTo).value;
    RangeRunDays(s, e);
  }

  /** The weekly and monthly charts list one caption per bucket and give each status the
      bucket's sum. */
  lemma BucketChartContents(view: string, dateFrom: string, dateTo: string, dm: DataMap)
    requires view == "weekly" || view == "monthly"
    requires ParseDate(dateFrom).Some? && ParseDate(dateTo).Some?
    ensures var s, e := ParseDate(dateFrom).value, ParseDate(dateTo).value;
      var r := StackedReplyFor(view, dateFrom, dateTo, true, dm);
      var ws := if view == "weekly" then WeeklyWindows(s, e) else MonthlyWindows(s, e);
      && AllOk(ws)
      && (r.Ok? <==> !(if view == "weekly" then WeeklyOverflows(s, e) else MonthlyOverflows(s, e)))
      && (r.Ok? ==>
            && r.value.Chart?
            && |r.value.dates| == |ws|
            && (forall i :: 0 <= i < |ws| ==> r.value.dates[i] == ws[i].caption)
            && (forall st, i :: st in StatusSet && 0 <= i < |ws| ==>
                  r.value.statuses[st][i] == BucketCount(dm, ws[i], st)))
  {
    var s, e := ParseDate(dateFrom).value, ParseDate(dateTo).value;
    WeeksOk(s, e);
    MonthsOk(s, e);
  }

  /** Only an unknown view is rejected, and only once a database is connected and both dates
      have parsed: a bad date fails whatever the view. */
  lemma RejectedExactly(view: string, dateFrom: string, dateTo: string, connected: bool, dm: DataMap)
    ensures var r := StackedReplyFor(view, dateFrom, dateTo, connected, dm);
      (r.Ok? && r.value.Rejected?) <==>
        connected && ParseDate(dateFrom).Some? && ParseDate(dateTo).Some?
        && view != "daily" && view != "weekly" && view != "monthly"
    ensures var r := StackedReplyFor(view, dateFrom, dateTo, connected, dm);
      r.Ok? && r.value.Rejected? ==> r.value.error == InvalidViewMessage
    ensures connected && (ParseDate(dateFrom).None? || ParseDate(dateTo).None?) ==>
      StackedReplyFor(view, dateFrom, dateTo, connected, dm).Crash?
    ensures !connected ==>
      StackedReplyFor(view, dateFrom, dateTo, connected, dm) == Ok(Unavailable([], map[], DbNotConnected))
  {
  }
}
