// The stacked bar chart of machine statuses (`GET /stats/stacked`): per-day counts grouped
// by the database are laid out day by day, or summed into weekly or monthly buckets, one
// series per status.
module Stats {
  import opened Base
  import opened Calendar

  /** The statuses charted, in the order the reply lists them. */
  const Statuses: seq<string> := ["Normal", "Unsatisfactory", "Alert", "Satisfactory"]

  const StatusSet: set<string> := {"Normal", "Unsatisfactory", "Alert", "Satisfactory"}

  const DbNotConnected: string := "Database not connected"

  const InvalidViewMessage: string := "Invalid view type. Use 'daily', 'weekly', or 'monthly'."

  /** `data_map`: how many machine records the aggregation grouped under a date text and a
      status. */
  type DataMap = map<(string, string), nat>

  /** `data_map.get((day, status), 0)`. */
  function Count(dm: DataMap, day: string, status: string): (n: nat)
    ensures (day, status) in dm ==> n == dm[(day, status)]
    ensures (day, status) !in dm ==> n == 0
  {
    if (day, status) in dm then dm[(day, status)] else 0
  }

  // ---------------------------------------------------------------- buckets

  /** A bucket the weekly and monthly generators yield: its first day, its last day, and the
      label the chart shows for it. */
  datatype Window = Window(first: Date, last: Date, caption: string)

  /** A bucket of representable days, the first not after the last. */
  predicate WindowOk(w: Window)
  {
    Valid(w.first) && InRange(w.first) && Valid(w.last) && InRange(w.last) && NotAfter(w.first, w.last)
  }

  predicate AllOk(ws: seq<Window>)
  {
    forall i :: 0 <= i < |ws| ==> WindowOk(ws[i])
  }

  predicate AllInRange(days: seq<Date>)
  {
    forall i :: 0 <= i < |days| ==> Valid(days[i]) && InRange(days[i])
  }

  /** The total of one status over some days: `sum(data_map.get((day, s), 0) for day in ...)`. */
  function SumCounts(dm: DataMap, days: seq<Date>, status: string): nat
    requires AllInRange(days)
  {
    if days == [] then 0 else Count(dm, Format(days[0]), status) + SumCounts(dm, days[1..], status)
  }

  /** A bucket's count of one status: the sum over `range((end - start).days + 1)`. */
  function BucketCount(dm: DataMap, w: Window, status: string): nat
    requires WindowOk(w)
  {
    DayRangeInRange(w.first, w.last);
    SumCounts(dm, DayRange(w.first, w.last), status)
  }

  /** The days of consecutive buckets, one after another. */
  function ConcatDays(ws: seq<Window>): (r: seq<Date>)
    requires AllOk(ws)
    ensures AllInRange(r)
  {
    if ws == [] then []
    else
      DayRangeInRange(ws[0].first, ws[0].last);
      DayRangeExact(ws[0].first, ws[0].last);
      DayRange(ws[0].first, ws[0].last) + ConcatDays(ws[1..])
  }

  // ---------------------------------------------------------------- weekly buckets

  /** Moving `n` days on from `c` does not go back, and leaves `n` fewer days before `e`. */
  lemma StepFacts(c: Date, e: Date, n: nat)
    requires Valid(c) && Valid(e)
    ensures NotAfter(c, AddDays(c, n))
    ensures NotAfter(c, e) <==> SpanLength(c, e) > 0
    ensures NotAfter(c, e) ==> SpanLength(AddDays(c, n), e) == if SpanLength(c, e) <= n then 0 else SpanLength(c, e) - n
  {
    AddDaysOrdinal(c, n);
    BeforeIsOrdinalLess(AddDays(c, n), c);
    BeforeIsOrdinalLess(e, c);
  }

  /** The week from `c`: through the earlier of six days later and `end`, labelled
      `"<first> to <last>"`. */
  function WeekFrom(c: Date, e: Date): (w: Window)
    requires Valid(c) && 1 <= c.year && Valid(e) && InRange(e) && NotAfter(c, e)
    ensures WindowOk(w) && w.first == c
  {
    StepFacts(c, e, 6);
    var we := MinDate(AddDays(c, 6), e);
    Window(c, we, Format(c) + " to " + Format(we))
  }

  /** The weeks `weekly_ranges` yields from `c` on: one every seven days while the start of
      the week has not passed `end`. */
  function WeeksFrom(c: Date, e: Date): seq<Window>
    requires Valid(c) && 1 <= c.year && Valid(e) && InRange(e)
    decreases SpanLength(c, e)
  {
    if Before(e, c) then []
    else
      StepFacts(c, e, 7);
      [WeekFrom(c, e)] + WeeksFrom(AddDays(c, 7), e)
  }

  function WeeklyWindows(s: Date, e: Date): seq<Window>
    requires Valid(s) && InRange(s) && Valid(e) && InRange(e)
  {
    WeeksFrom(s, e)
  }

  /** Stepping from some week of the range leaves year 9999: the six-day probe or the
      seven-day step raises OverflowError. */
  predicate WeeksOverflow(c: Date, e: Date)
    requires Valid(c) && 1 <= c.year && Valid(e) && InRange(e)
    decreases SpanLength(c, e)
  {
    && NotAfter(c, e)
    && (!InRange(AddDays(c, 6)) || !InRange(AddDays(c, 7)) ||
        (StepFacts(c, e, 7); WeeksOverflow(AddDays(c, 7), e)))
  }

  predicate WeeklyOverflows(s: Date, e: Date)
    requires Valid(s) && InRange(s) && Valid(e) && InRange(e)
  {
    WeeksOverflow(s, e)
  }

  /** Where `weekly_ranges` stands before a step: at a representable day `c`, having yielded
      the weeks before it, with the overflow still ahead exactly when there is one. */
  predicate WeeksSoFar(s: Date, e: Date, c: Date, ws: seq<Window>)
    requires Valid(s) && InRange(s) && Valid(e) && InRange(e)
  {
    && Valid(c) && InRange(c)
    && ws + WeeksFrom(c, e) == WeeksFrom(s, e)
    && (WeeksOverflow(c, e) <==> WeeksOverflow(s, e))
  }

  /** One step of `weekly_ranges`: when the six-day probe or the seven-day step leaves year
      9999 the generator overflows; otherwise it yields the week from `c` and moves on. */
  lemma WeekStep(s: Date, e: Date, c: Date, ws: seq<Window>)
    requires Valid(s) && InRange(s) && Valid(e) && InRange(e)
    requires WeeksSoFar(s, e, c, ws) && NotAfter(c, e)
    ensures !InRange(AddDays(c, 6)) || !InRange(AddDays(c, 7)) ==> WeeklyOverflows(s, e)
    ensures InRange(AddDays(c, 6)) ==> Valid(MinDate(AddDays(c, 6), e)) && InRange(MinDate(AddDays(c, 6), e))
    ensures InRange(AddDays(c, 6)) && InRange(AddDays(c, 7)) ==>
      var we := MinDate(AddDays(c, 6), e);
      WeeksSoFar(s, e, AddDays(c, 7), ws + [Window(c, we, Format(c) + " to " + Format(we))])
  {
    StepFacts(c, e, 7);
    var n := AddDays(c, 7);
    if InRange(AddDays(c, 6)) && InRange(n) {
      var w := WeekFrom(c, e);
      assert WeeksFrom(c, e) == [w] + WeeksFrom(n, e);
      ShiftOne(ws, w, WeeksFrom(n, e), WeeksFrom(s, e));
    }
  }

  /** When the loop stops every week has been yielded, with no overflow on the way. */
  lemma WeeksDone(s: Date, e: Date, c: Date, ws: seq<Window>)
    requires Valid(s) && InRange(s) && Valid(e) && InRange(e)
    requires WeeksSoFar(s, e, c, ws) && Before(e, c)
    ensures ws == WeeklyWindows(s, e) && !WeeklyOverflows(s, e)
  {
    assert WeeksFrom(c, e) == [];
  }

  /** `weekly_ranges()`, run to the end: the weeks, or None when stepping overflows. */
  method WeeklyRanges(start: Date, end: Date) returns (r: Option<seq<Window>>)
    requires Valid(start) && InRange(start) && Valid(end) && InRange(end)
    ensures r == if WeeklyOverflows(start, end) then None else Some(WeeklyWindows(start, end))
  {
    var windows: seq<Window> := [];
    var current := start;
    while NotAfter(current, end)
      invariant WeeksSoFar(start, end, current, windows)
      decreases |WeeklyWindows(start, end)| - |windows|
    {
      WeekStep(start, end, current, windows);
      var sixOn := AddDays(current, 6);
      if !InRange(sixOn) {
        return None;
      }
      var weekEnd := MinDate(sixOn, end);
      var next := AddDays(current, 7);
      if !InRange(next) {
        return None;
      }
      windows := windows + [Window(current, weekEnd, Format(current) + " to " + Format(weekEnd))];
      current := next;
    }
    WeeksDone(start, end, current, windows);
    r := Some(windows);
  }

  // ---------------------------------------------------------------- monthly buckets

  /** The 1st of a date's month (`d.replace(day=1)`). */
  function MonthStart(d: Date): Date { Date(d.year, d.month, 1) }

  function MonthIndex(d: Date): int { 12 * d.year + d.month }

  /** The bucket of the month holding `c`: from its 1st through the earlier of its last day and
      `end`, labelled `YYYY-MM`. */
  function MonthWindow(c: Date, e: Date): (w: Window)
    requires Valid(c) && 1 <= c.year && Valid(e) && InRange(e) && NotAfter(c, e)
    ensures WindowOk(w)
  {
    var last := Date(c.year, c.month, DaysInMonth(c.year, c.month));
    Window(MonthStart(c), MinDate(last, e), FormatMonth(c.year, c.month))
  }

  /** The month buckets from the month of `c` through the month of `e`. */
  function MonthsFrom(c: Date, e: Date): (r: seq<Window>)
    requires Valid(c) && 1 <= c.year && Valid(e) && InRange(e)
    decreases MonthIndex(e) - MonthIndex(c) + 1
  {
    if Before(e, c) then []
    else [MonthWindow(c, e)] + MonthsFrom(NextMonthFirst(c.year, c.month), e)
  }

  function MonthlyWindows(s: Date, e: Date): (r: seq<Window>)
    requires Valid(s) && InRange(s) && Valid(e) && InRange(e)
  {
    MonthsFrom(s, e)
  }

  /** Stepping from December 9999 to the next month overflows: this happens exactly when the
      range is non-empty and ends in that month. */
  predicate MonthlyOverflows(s: Date, e: Date)
  {
    NotAfter(s, e) && e.year == 9999 && e.month == 12
  }

  /** Day 28 plus four days names the next month, and leaves year 9999 only from December
      9999; the day before the next month's 1st is this month's last day. */
  lemma MonthProbe(y: int, m: int)
    requires 1 <= y <= 9999 && 1 <= m <= 12
    ensures var x := AddDays(Date(y, m, 28), 4);
      && Date(x.year, x.month, 1) == NextMonthFirst(y, m)
      && (InRange(x) <==> !(y == 9999 && m == 12))
    ensures PrevDay(NextMonthFirst(y, m)) == Date(y, m, DaysInMonth(y, m))
  {
    NextMonthStep(y, m);
    MonthLength(y, m);
  }

  /** Where `monthly_ranges` stands before a step: at `start`, or at the 1st of a later month,
      having yielded the buckets before the month of `c`. */
  predicate MonthsSoFar(s: Date, e: Date, c: Date, ws: seq<Window>)
    requires Valid(s) && InRange(s) && Valid(e) && InRange(e)
  {
    && Valid(c) && InRange(c) && (c == s || (c.day == 1 && Before(s, c)))
    && ws + MonthsFrom(c, e) == MonthsFrom(s, e)
  }

  /** Stepping from the month of `c` overflows exactly from December 9999, and then the range
      ends in that month. */
  lemma MonthOverflowStep(s: Date, e: Date, c: Date, ws: seq<Window>)
    requires Valid(s) && InRange(s) && Valid(e) && InRange(e)
    requires MonthsSoFar(s, e, c, ws) && NotAfter(c, e)
    ensures !InRange(AddDays(Date(c.year, c.month, 28), 4)) <==> c.year == 9999 && c.month == 12
    ensures c.year == 9999 && c.month == 12 ==> MonthlyOverflows(s, e)
  {
    MonthProbe(c.year, c.month);
  }

  /** The month buckets from `c` on: the bucket of `c`'s month, then those from the next. */
  lemma MonthsFromStep(c: Date, e: Date)
    requires Valid(c) && InRange(c) && Valid(e) && InRange(e) && NotAfter(c, e)
    ensures var n := NextMonthFirst(c.year, c.month);
      MonthsFrom(c, e) ==
        [Window(Date(c.year, c.month, 1), MinDate(PrevDay(n), e), FormatMonth(c.year, c.month))]
        + MonthsFrom(n, e)
  {
    MonthLength(c.year, c.month);
  }

  /** The 1st of the month after `c` is a later day, one month on, still in range unless `c`
      lies in December 9999. */
  lemma NextMonthAfter(s: Date, c: Date, e: Date)
    requires Valid(s) && Valid(c) && InRange(c) && Valid(e) && InRange(e)
    requires NotAfter(s, c) && NotAfter(c, e) && !(c.year == 9999 && c.month == 12)
    ensures var n := NextMonthFirst(c.year, c.month);
      && InRange(n) && Before(s, n)
      && MonthIndex(c) + 1 == MonthIndex(n) <= MonthIndex(e) + 1
  {
  }

  /** One step of `monthly_ranges` yields the bucket of `c`'s month and moves to the 1st of
      the next month. */
  lemma MonthStep(s: Date, e: Date, c: Date, ws: seq<Window>)
    requires Valid(s) && InRange(s) && Valid(e) && InRange(e)
    requires MonthsSoFar(s, e, c, ws) && NotAfter(c, e) && !(c.year == 9999 && c.month == 12)
    ensures var n := NextMonthFirst(c.year, c.month);
      && MonthIndex(c) + 1 == MonthIndex(n) <= MonthIndex(e) + 1
      && MonthsSoFar(s, e, n,
           ws + [Window(Date(c.year, c.month, 1), MinDate(PrevDay(n), e), FormatMonth(c.year, c.month))])
  {
    var n := NextMonthFirst(c.year, c.month);
    var w := Window(Date(c.year, c.month, 1), MinDate(PrevDay(n), e), FormatMonth(c.year, c.month));
    NextMonthAfter(s, c, e);
    MonthsFromStep(c, e);
    ShiftOne(ws, w, MonthsFrom(n, e), MonthsFrom(s, e));
  }

  /** When the loop stops it has yielded every bucket, and it did not overflow. */
  lemma MonthsDone(s: Date, e: Date, c: Date, ws: seq<Window>)
    requires Valid(s) && InRange(s) && Valid(e) && InRange(e)
    requires MonthsSoFar(s, e, c, ws) && Before(e, c)
    ensures ws == MonthlyWindows(s, e) && !MonthlyOverflows(s, e)
  {
    assert MonthsFrom(c, e) == [];
  }

  /** `monthly_ranges()`, run to the end: the months, or None when stepping overflows. */
  method MonthlyRanges(start: Date, end: Date) returns (r: Option<seq<Window>>)
    requires Valid(start) && InRange(start) && Valid(end) && InRange(end)
    ensures r == if MonthlyOverflows(start, end) then None else Some(MonthlyWindows(start, end))
  {
    var windows: seq<Window> := [];
    var current := start;
    while NotAfter(current, end)
      invariant MonthsSoFar(start, end, current, windows)
      decreases MonthIndex(end) - MonthIndex(current) + 1
    {
      MonthOverflowStep(start, end, current, windows);
      var monthStart := Date(current.year, current.month, 1);
      var probe := AddDays(Date(monthStart.year, monthStart.month, 28), 4);
      if !InRange(probe) {
        return None;
      }
      MonthProbe(current.year, current.month);
      MonthStep(start, end, current, windows);
      var nextMonth := Date(probe.year, probe.month, 1);
      var monthEnd := MinDate(PrevDay(nextMonth), end);
      windows := windows + [Window(monthStart, monthEnd, FormatMonth(monthStart.year, monthStart.month))];
      current := nextMonth;
    }
    MonthsDone(start, end, current, windows);
    r := Some(windows);
  }

  // ---------------------------------------------------------------- the chart

  /** What `stacked_chart` answers: the chart, the empty chart with an error when no database
      is connected, or an error alone for an unknown view. */
  datatype StackedReply =
    | Chart(dates: seq<string>, statuses: map<string, seq<nat>>)
    | Unavailable(dates: seq<string>, statuses: map<string, seq<nat>>, error: string)
    | Rejected(error: string)

  /** The label column: one label per yielded item. */
  function Labels<T>(items: seq<T>, name: T -> string): (r: seq<string>)
    ensures |r| == |items|
    ensures forall i :: 0 <= i < |items| ==> r[i] == name(items[i])
  {
    seq(|items|, i requires 0 <= i < |items| => name(items[i]))
  }

  /** One status's series: one cell per yielded item. */
  function Series<T>(items: seq<T>, cell: (T, string) --> nat, status: string): (r: seq<nat>)
    requires forall x :: x in items ==> cell.requires(x, status)
    ensures |r| == |items|
    ensures forall i :: 0 <= i < |items| ==> r[i] == cell(items[i], status)
  {
    seq(|items|, i requires 0 <= i < |items| => cell(items[i], status))
  }

  /** `{"dates": labels, "statuses": result_dict}` for the items one branch iterates over. */
  function Table<T>(items: seq<T>, name: T -> string, cell: (T, string) --> nat): StackedReply
    requires forall x, st :: x in items ==> cell.requires(x, st)
  {
    Chart(Labels(items, name), map st | st in StatusSet :: Series(items, cell, st))
  }

  /** A daily label is the date text itself. */
  function DayLabel(d: string): string
  {
    d
  }

  /** A daily cell: `data_map.get((date_str, s), 0)`. */
  function DayCell(dm: DataMap): (string, string) -> nat
  {
    (d, st) => Count(dm, d, st)
  }

  function WindowCaption(w: Window): string
  {
    w.caption
  }

  /** A weekly or monthly cell: the bucket's sum. */
  function BucketCell(dm: DataMap): (Window, string) --> nat
  {
    (w, st) requires WindowOk(w) => BucketCount(dm, w, st)
  }

  function DailyChart(dm: DataMap, labels: seq<string>): StackedReply
  {
    Table(labels, DayLabel, DayCell(dm))
  }

  function BucketChart(dm: DataMap, ws: seq<Window>): StackedReply
    requires AllOk(ws)
  {
    Table(ws, WindowCaption, BucketCell(dm))
  }

  /** `stacked_chart(view, date_from, date_to)` with `data_map` the aggregation's counts: both
      dates are parsed before the view is looked at, so a bad date fails (status 500) even
      under an unknown view; stepping past year 9999 fails the same way. */
  function StackedReplyFor(view: string, dateFrom: string, dateTo: string, connected: bool, dm: DataMap)
    : Outcome<StackedReply>
  {
    if !connected then Ok(Unavailable([], map[], DbNotConnected))
    else
      var ps, pe := ParseDate(dateFrom), ParseDate(dateTo);
      if ps.None? || pe.None? then Crash
      else
        var s, e := ps.value, pe.value;
        if view == "daily" then
          if NotAfter(s, e) && e == MaxDate then Crash else Ok(DailyChart(dm, RangeRun(s, e)))
        else if view == "weekly" then
          WeeksOk(s, e);
          if WeeklyOverflows(s, e) then Crash else Ok(BucketChart(dm, WeeklyWindows(s, e)))
        else if view == "monthly" then
          MonthsOk(s, e);
          if MonthlyOverflows(s, e) then Crash else Ok(BucketChart(dm, MonthlyWindows(s, e)))
        else Ok(Rejected(InvalidViewMessage))
  }

  /** Every week yielded is a well-formed bucket. */
  lemma {:induction false} WeeksOk(c: Date, e: Date)
    requires Valid(c) && 1 <= c.year && Valid(e) && InRange(e)
    ensures AllOk(WeeksFrom(c, e))
    decreases SpanLength(c, e)
  {
    if NotAfter(c, e) {
      StepFacts(c, e, 7);
      var rest := WeeksFrom(AddDays(c, 7), e);
      WeeksOk(AddDays(c, 7), e);
      AllOkCons(WeekFrom(c, e), rest);
    }
  }

  lemma AllOkCons(w: Window, ws: seq<Window>)
    requires WindowOk(w) && AllOk(ws)
    ensures AllOk([w] + ws)
  {
    assert forall i :: 0 < i <= |ws| ==> ([w] + ws)[i] == ws[i - 1];
  }

  /** Every month yielded is a well-formed bucket. */
  lemma {:induction false} MonthsOk(c: Date, e: Date)
    requires Valid(c) && 1 <= c.year && Valid(e) && InRange(e)
    ensures AllOk(MonthsFrom(c, e))
    decreases MonthIndex(e) - MonthIndex(c) + 1
  {
    if NotAfter(c, e) {
      MonthsOk(NextMonthFirst(c.year, c.month), e);
    }
  }

  /** `for s in statuses: result_dict[s].append(count(s))`. */
  method AppendColumn<T>(result: map<string, seq<nat>>, x: T, cell: (T, string) --> nat)
    returns (r: map<string, seq<nat>>)
    requires result.Keys == StatusSet
    requires forall st :: cell.requires(x, st)
    ensures r.Keys == StatusSet
    ensures forall st :: st in StatusSet ==> r[st] == result[st] + [cell(x, st)]
  {
    r := result;
    var j := 0;
    while j < |Statuses|
      invariant 0 <= j <= |Statuses|
      invariant r.Keys == StatusSet
      invariant forall st :: st in StatusSet ==> r[st] == result[st] + if st in Statuses[..j] then [cell(x, st)] else []
    {
      var st := Statuses[j];
      r := r[st := r[st] + [cell(x, st)]];
      j := j + 1;
    }
    assert Statuses[..j] == Statuses;
  }

  /** After `i` items, the labels and series are the table of those items. */
  ghost predicate TableSoFar<T>(items: seq<T>, name: T -> string, cell: (T, string) --> nat, i: nat,
                                labels: seq<string>, result: map<string, seq<nat>>)
    requires forall x, st :: x in items ==> cell.requires(x, st)
  {
    i <= |items| && Chart(labels, result) == Table(items[..i], name, cell)
  }

  lemma TableStep<T>(items: seq<T>, name: T -> string, cell: (T, string) --> nat, i: nat,
                     labels: seq<string>, result: map<string, seq<nat>>, r: map<string, seq<nat>>)
    requires forall x, st :: x in items ==> cell.requires(x, st)
    requires TableSoFar(items, name, cell, i, labels, result) && i < |items|
    requires r.Keys == StatusSet
    requires forall st :: st in StatusSet ==> r[st] == result[st] + [cell(items[i], st)]
    ensures TableSoFar(items, name, cell, i + 1, labels + [name(items[i])], r)
  {
    var pre, pre' := items[..i], items[..i + 1];
    assert Labels(pre', name) == Labels(pre, name) + [name(items[i])];
    forall st | st in StatusSet
      ensures r[st] == Series(pre', cell, st)
    {
      assert Series(pre', cell, st) == Series(pre, cell, st) + [cell(items[i], st)];
    }
  }

  /** The body shared by the three branches: for every item, append its label and, for
      every status, its cell. */
  method FillTable<T>(items: seq<T>, name: T -> string, cell: (T, string) --> nat)
    returns (labels: seq<string>, result: map<string, seq<nat>>)
    requires forall x, st :: x in items ==> cell.requires(x, st)
    ensures Chart(labels, result) == Table(items, name, cell)
  {
    result := map st | st in StatusSet :: [];
    labels := [];
    var i := 0;
    while i < |items|
      invariant TableSoFar(items, name, cell, i, labels, result)
    {
      var x := items[i];
      var next := AppendColumn(result, x, cell);
      TableStep(items, name, cell, i, labels, result, next);
      labels := labels + [name(x)];
      result := next;
      i := i + 1;
    }
    assert items[..i] == items;
  }

  /** `stacked_chart`, loop for loop. */
  method StackedChart(view: string, dateFrom: string, dateTo: string, connected: bool, dm: DataMap)
    returns (r: Outcome<StackedReply>)
    ensures r == StackedReplyFor(view, dateFrom, dateTo, connected, dm)
  {
    if !connected {
      return Ok(Unavailable([], map[], DbNotConnected));
    }
    var ps := ParseDate(dateFrom);
    var pe := ParseDate(dateTo);
    if ps.None? || pe.None? {
      return Crash;
    }
    var start, end := ps.value, pe.value;
    if view == "daily" {
      var days := ListDays(start, end);
      if days.None? {
        return Crash;
      }
      var labels, result := FillTable(days.value, DayLabel, DayCell(dm));
      r := Ok(Chart(labels, result));
    } else if view == "weekly" || view == "monthly" {
      var buckets;
      if view == "weekly" {
        buckets := WeeklyRanges(start, end);
        WeeksOk(start, end);
      } else {
        buckets := MonthlyRanges(start, end);
        MonthsOk(start, end);
      }
      if buckets.None? {
        return Crash;
      }
      var labels, result := FillTable(buckets.value, WindowCaption, BucketCell(dm));
      r := Ok(Chart(labels, result));
    } else {
      r := Ok(Rejected(InvalidViewMessage));
    }
  }
}
