// The machines router: expanding a date request into days, filtering the machine list that
// came from the external API, filling required fields, picking one machine and its bearings,
// and converting MongoDB values into JSON.
module Machines {
  import opened Base
  import opened PyText
  import opened Calendar
  import opened Documents

  // ================================================================ date requests

  const InvalidDateFormat: string :=
    "Invalid date format. Use YYYY-MM-DD, YYYY-MM-DD to YYYY-MM-DD, YYYY-MM, or YYYY-Wxx"

  /** The one error `generate_dates` ever raises: status 400 with the fixed message. */
  function BadDates(): Outcome<seq<string>> { HttpError(400, InvalidDateFormat) }

  /** The days from `d` to the end of its month, formatted. */
  function MonthRun(d: Date): seq<string>
    requires Valid(d) && InRange(d)
  {
    var n := DaysInMonth(d.year, d.month) - d.day + 1;
    AddDaysWithinMonth(d, n - 1);
    DaysInRange(d, n);
    FormatAll(Days(d, n))
  }

  /** The seven days from `first`, formatted. */
  function WeekRun(first: Date): seq<string>
    requires Valid(first) && InRange(first) && InRange(AddDays(first, 6))
  {
    DaysInRange(first, 7);
    FormatAll(Days(first, 7))
  }

  /** `"A to B"`: both halves, stripped, parsed as dates; every day from A through B. Stepping
      past 9999-12-31 overflows, so a range ending there fails. */
  function RangeForm(req: string): Outcome<seq<string>>
  {
    var parts := Split(req, "to");
    if |parts| != 2 then BadDates()
    else
      match (ParseDate(Strip(parts[0])), ParseDate(Strip(parts[1])))
      case (Some(a), Some(b)) =>
        if NotAfter(a, b) && b == MaxDate then BadDates() else Ok(RangeRun(a, b))
      case _ => BadDates()
  }

  /** `"YYYY-MM"`: the parsed first day and the days after it while the month stays the same
      (at most 31). */
  function MonthForm(req: string): Outcome<seq<string>>
  {
    match ParseDate(req + "-01")
    case None => BadDates()
    case Some(d) => Ok(MonthRun(d))
  }

  /** A `%W` field of `strptime`: the regex `5[0-3]|[0-4]\d|\d` matching the whole token. */
  predicate IsWeekToken(t: string)
  {
    (|t| == 2 && t[0] == '5' && '0' <= t[1] <= '3')
    || (|t| == 2 && '0' <= t[0] <= '4' && IsDigit(t[1]))
    || (|t| == 1 && IsDigit(t[0]))
  }

  /** `"YYYY-Wnn"`: the Monday of week nn (Monday-first numbering) and the six days after it.
      A year of 0, a Monday before year 1 and a day after year 9999 fail. */
  function WeekForm(req: string): Outcome<seq<string>>
  {
    var parts := Split(req, "-W");
    if |parts| != 2 then BadDates()
    else
      var (ys, ws) := (parts[0], parts[1]);
      if !(|ys| == 4 && AllDigits(ys)) || !IsWeekToken(ws) then BadDates()
      else
        var first := WeekStart(DigitsValue(ys), DigitsValue(ws));
        if DigitsValue(ys) == 0 || !InRange(first) || !InRange(AddDays(first, 6)) then BadDates()
        else Ok(WeekRun(first))
  }

  /** A single date is checked and handed back exactly as written. */
  function SingleForm(req: string): Outcome<seq<string>>
  {
    if ParseDate(req).Some? then Ok([req]) else BadDates()
  }

  /** `generate_dates(req_date)`: the four forms, tried in this order. */
  function ExpandDates(req: string): Outcome<seq<string>>
  {
    if Contains(req, "to") then RangeForm(req)
    else if |req| == 7 then MonthForm(req)
    else if Contains(req, "W") then WeekForm(req)
    else SingleForm(req)
  }

  /** `generate_dates`, loop for loop. */
  method GenerateDates(req: string) returns (r: Outcome<seq<string>>)
    ensures r == ExpandDates(req)
  {
    if Contains(req, "to") {
      var parts := Split(req, "to");
      if |parts| != 2 {
        return BadDates();
      }
      var pa, pb := ParseDate(Strip(parts[0])), ParseDate(Strip(parts[1]));
      if pa.None? || pb.None? {
        return BadDates();
      }
      var start, end := pa.value, pb.value;
      var days := ListDays(start, end);
      r := if days.None? then BadDates() else Ok(days.value);
    } else if |req| == 7 {
      var p := ParseDate(req + "-01");
      if p.None? {
        return BadDates();
      }
      var dates := MonthDays(p.value);
      r := Ok(dates);
    } else if Contains(req, "W") {
      var parts := Split(req, "-W");
      if |parts| != 2 {
        return BadDates();
      }
      var year, week := parts[0], parts[1];
      if !(|year| == 4 && AllDigits(year)) || !IsWeekToken(week) || DigitsValue(year) == 0 {
        return BadDates();
      }
      var first := WeekStart(DigitsValue(year), DigitsValue(week));
      if !InRange(first) {
        return BadDates();
      }
      r := WeekDays(first);
    } else {
      if ParseDate(req).None? {
        return BadDates();
      }
      r := Ok([req]);
    }
  }

  /** `for i in range(31)`: the days from `d` while the month stays the same. */
  method MonthDays(d: Date) returns (dates: seq<string>)
    requires Valid(d) && InRange(d)
    ensures dates == MonthRun(d)
  {
    var n := DaysInMonth(d.year, d.month) - d.day + 1;
    AddDaysWithinMonth(d, n - 1);
    DaysInRange(d, n);
    ghost var days := Days(d, n);
    dates := [];
    var i := 0;
    while i < 31
      invariant 0 <= i <= n
      invariant dates == FormatAll(days[..i])
    {
      var x := AddDays(d, i);
      if i < n {
        AddDaysWithinMonth(d, i);
      } else {
        assert x == NextDay(AddDays(d, n - 1));
      }
      if x.month != d.month {
        break;
      }
      assert days[..i + 1] == days[..i] + [x];
      dates := dates + [Format(x)];
      i := i + 1;
    }
    assert days[..i] == days;
  }

  /** `for i in range(7)`: the seven days from `first`, failing at the first one past
      year 9999. */
  method WeekDays(first: Date) returns (r: Outcome<seq<string>>)
    requires Valid(first) && InRange(first)
    ensures r == if InRange(AddDays(first, 6)) then Ok(WeekRun(first)) else BadDates()
  {
    ghost var days := Days(first, 7);
    ghost var fits := InRange(AddDays(first, 6));
    if fits {
      DaysInRange(first, 7);
    }
    var dates: seq<string> := [];
    var i := 0;
    while i < 7
      invariant 0 <= i <= 7
      invariant forall j :: 0 <= j < i ==> InRange(days[j])
      invariant dates == FormatAll(days[..i])
    {
      var x := AddDays(first, i);
      if !InRange(x) {
        return BadDates();
      }
      assert InRange(days[i]);
      FormatAllSnoc(days, i);
      dates := dates + [Format(x)];
      i := i + 1;
    }
    assert days[..i] == days;
    assert InRange(days[6]);
    r := Ok(dates);
  }

  // ---------------------------------------------------------------- what the forms yield

  /** The range form yields each day from A through B exactly once, ascending and consecutive,
      written as `YYYY-MM-DD`; a range whose start is after its end yields nothing. */
  lemma RangeFormDays(req: string, a: Date, b: Date)
    requires Contains(req, "to") && |Split(req, "to")| == 2
    requires ParseDate(Strip(Split(req, "to")[0])) == Some(a)
    requires ParseDate(Strip(Split(req, "to")[1])) == Some(b)
    requires !(NotAfter(a, b) && b == MaxDate)
    ensures ExpandDates(req).Ok?
    ensures var r := ExpandDates(req).value;
      && |r| == SpanLength(a, b)
      && (forall x :: Valid(x) && InRange(x) ==> (Format(x) in r <==> NotAfter(a, x) && NotAfter(x, b)))
      && (forall i :: 0 <= i < |r| ==> ParseDate(r[i]) == Some(AddDays(a, i)))
      && (Before(b, a) ==> r == [])
  {
    assert ExpandDates(req) == Ok(RangeRun(a, b));
    RangeRunDays(a, b);
  }

  /** Any seven-character request that parses as `YYYY-MM` with `-01` appended names the 1st:
      the only `-` that can split month from day is the appended one. */
  lemma MonthRequestDayOne(req: string, d: Date)
    requires |req| == 7 && ParseDate(req + "-01") == Some(d)
    ensures d.day == 1
  {
    var s := req + "-01";
    var rest := s[5..];
    assert |rest| == 5 && rest[2..] == "-01";
    assert OccursAt(rest, "-", 2);
    var j := FindFirst(rest, "-").value;
    assert j <= 2;
    assert rest[j + 1..] == "01";
  }

  /** The month form yields every day of the month, from the 1st to the last, so 28 to 31
      entries. */
  lemma MonthFormDays(req: string, d: Date)
    requires !Contains(req, "to") && |req| == 7 && ParseDate(req + "-01") == Some(d)
    ensures ExpandDates(req).Ok?
    ensures var r := ExpandDates(req).value;
      && |r| == DaysInMonth(d.year, d.month)
      && 28 <= |r| <= 31
      && forall i :: 0 <= i < |r| ==> r[i] == Format(Date(d.year, d.month, i + 1))
  {
    MonthRequestDayOne(req, d);
    var r := ExpandDates(req).value;
    assert r == MonthRun(d);
    forall i | 0 <= i < |r| ensures r[i] == Format(Date(d.year, d.month, i + 1)) {
      AddDaysWithinMonth(d, i);
    }
  }

  /** The week form yields seven consecutive days starting on `WeekStart(y, w)`, the Monday
      of `%W` week `w` of year `y` (see `Calendar.WeekStartMonday`). */
  lemma WeekFormDays(req: string, y: nat, w: nat)
    requires !Contains(req, "to") && |req| != 7 && Contains(req, "W")
    requires |Split(req, "-W")| == 2
    requires var (ys, ws) := (Split(req, "-W")[0], Split(req, "-W")[1]);
      |ys| == 4 && AllDigits(ys) && IsWeekToken(ws) && DigitsValue(ys) == y && DigitsValue(ws) == w
    requires ExpandDates(req).Ok?
    ensures var r := ExpandDates(req).value;
      && |r| == 7
      && (forall i :: 0 <= i < 7 ==> ParseDate(r[i]) == Some(AddDays(WeekStart(y, w), i)))
  {
    WeekFormIsRun(req, y, w);
    WeekRunDays(WeekStart(y, w));
  }

  lemma WeekFormIsRun(req: string, y: nat, w: nat)
    requires !Contains(req, "to") && |req| != 7 && Contains(req, "W")
    requires |Split(req, "-W")| == 2
    requires var (ys, ws) := (Split(req, "-W")[0], Split(req, "-W")[1]);
      |ys| == 4 && AllDigits(ys) && IsWeekToken(ws) && DigitsValue(ys) == y && DigitsValue(ws) == w
    requires ExpandDates(req).Ok?
    ensures InRange(WeekStart(y, w)) && InRange(AddDays(WeekStart(y, w), 6))
    ensures ExpandDates(req) == Ok(WeekRun(WeekStart(y, w)))
  {
    assert ExpandDates(req) == WeekForm(req);
  }

  lemma WeekRunDays(first: Date)
    requires Valid(first) && InRange(first) && InRange(AddDays(first, 6))
    ensures |WeekRun(first)| == 7
    ensures forall i :: 0 <= i < 7 ==> ParseDate(WeekRun(first)[i]) == Some(AddDays(first, i))
  {
    DaysParse(first, 7);
  }

  /** The single-date form hands the request back unchanged; a request that fits no form is
      refused with status 400 and the fixed message. */
  lemma SingleFormUnchanged(req: string)
    requires !Contains(req, "to") && |req| != 7 && !Contains(req, "W")
    ensures ParseDate(req).Some? ==> ExpandDates(req) == Ok([req])
    ensures ParseDate(req).None? ==> ExpandDates(req) == HttpError(400, InvalidDateFormat)
  {
  }

  /** `generate_dates` fails only with status 400 and the fixed message. */
  lemma ExpandDatesErrors(req: string)
    ensures ExpandDates(req).Ok? || ExpandDates(req) == HttpError(400, InvalidDateFormat)
  {
  }

  // ================================================================ filtering the API list

  /** The optional query parameters of `get_machines` that filter the machine list. */
  datatype MachineQuery = MachineQuery(
    customerId: Option<string>,
    areaId: Option<string>,
    subAreaId: Option<string>,
    machineType: Option<string>,
    statusId: Option<string>,
    statusName: Option<string>,
    status: Option<string>,
    technologyId: Option<string>,
    name: Option<string>)

  /** A parameter takes part in filtering only when it is truthy: given and not empty. */
  predicate Given(o: Option<string>) { o.Some? && o.value != "" }

  /** `statusName or status`. */
  function EffectiveStatus(q: MachineQuery): (r: Option<string>)
    ensures Given(r) <==> Given(q.statusName) || Given(q.status)
    ensures Given(r) ==> r == if Given(q.statusName) then q.statusName else q.status
  {
    if Given(q.statusName) then q.statusName else q.status
  }

  /** `api_filters`: record field and wanted value, in the order they are checked. */
  function ApiFilters(q: MachineQuery): seq<(string, Option<string>)>
  {
    [("customerId", q.customerId), ("areaId", q.areaId), ("subAreaId", q.subAreaId),
     ("machineType", q.machineType), ("statusId", q.statusId), ("statusName", EffectiveStatus(q)),
     ("technologyId", q.technologyId), ("name", q.name)]
  }

  /** `has_filters`: some filter value is truthy. */
  predicate HasFilters(q: MachineQuery)
  {
    exists i :: 0 <= i < |ApiFilters(q)| && Given(ApiFilters(q)[i].1)
  }

  /** `str(m.get(key, "")).lower()`. */
  function FieldText(m: Doc, key: string): string
  {
    Lower(PyStr(Get(m, key, Str(""))))
  }

  /** Every truthy filter equals the record's field, once both are lowered by `Lower`. */
  predicate PassesFilters(m: Doc, q: MachineQuery)
  {
    forall i :: 0 <= i < |ApiFilters(q)| && Given(ApiFilters(q)[i].1) ==>
      FieldText(m, ApiFilters(q)[i].0) == Lower(ApiFilters(q)[i].1.value)
  }

  /** The record's `status` or its `statusName` equals `s`, once both are lowered by `Lower`. */
  predicate StatusMatches(m: Doc, s: string)
  {
    FieldText(m, "status") == Lower(s) || FieldText(m, "statusName") == Lower(s)
  }

  /** The record survives the filter loop: all filters pass, and the extra status check too. */
  predicate Keep(m: Doc, q: MachineQuery)
  {
    PassesFilters(m, q) && (Given(EffectiveStatus(q)) ==> StatusMatches(m, EffectiveStatus(q).value))
  }

  /** The records of `ms` that `Keep` accepts, in their original order. */
  function Filtered(ms: seq<Doc>, q: MachineQuery): seq<Doc>
  {
    if ms == [] then []
    else Filtered(ms[..|ms| - 1], q) + (if Keep(ms[|ms| - 1], q) then [ms[|ms| - 1]] else [])
  }

  /** `a` is `b` with some elements left out, the rest in their order. */
  predicate IsSubsequence<T(==)>(a: seq<T>, b: seq<T>)
  {
    if a == [] then true
    else if b == [] then false
    else if a[|a| - 1] == b[|b| - 1] then IsSubsequence(a[..|a| - 1], b[..|b| - 1])
    else IsSubsequence(a, b[..|b| - 1])
  }

  /** The API-side filter loop of `get_machines`. */
  method ApplyApiFilters(ms: seq<Doc>, q: MachineQuery) returns (r: seq<Doc>)
    ensures !HasFilters(q) ==> r == ms
    ensures HasFilters(q) ==> r == Filtered(ms, q)
  {
    var effective := EffectiveStatus(q);
    var filters := ApiFilters(q);
    var hasFilters := exists i :: 0 <= i < |filters| && filters[i].1.Some? && filters[i].1.value != "";
    if !hasFilters {
      return ms;
    }
    r := [];
    var i := 0;
    while i < |ms|
      invariant 0 <= i <= |ms|
      invariant r == Filtered(ms[..i], q)
    {
      var m := ms[i];
      var matched := MatchesFilters(m, q);
      if matched && effective.Some? && effective.value != "" {
        var mStatus := Lower(PyStr(Get(m, "status", Str(""))));
        var mStatusName := Lower(PyStr(Get(m, "statusName", Str(""))));
        var statusLower := Lower(effective.value);
        if mStatus != statusLower && mStatusName != statusLower {
          matched := false;
        }
      }
      assert matched == Keep(m, q);
      FilteredPrefix(ms, q, i);
      if matched {
        r := r + [m];
      }
      i := i + 1;
    }
    assert ms[..i] == ms;
  }

  /** The inner loop over `api_filters.items()`, stopping at the first filter that fails. */
  method MatchesFilters(m: Doc, q: MachineQuery) returns (matched: bool)
    ensures matched == PassesFilters(m, q)
  {
    var filters := ApiFilters(q);
    matched := true;
    var k := 0;
    while k < |filters|
      invariant 0 <= k <= |filters|
      invariant forall j :: 0 <= j < k && Given(filters[j].1) ==> FieldText(m, filters[j].0) == Lower(filters[j].1.value)
    {
      var (key, value) := filters[k];
      if value.Some? && value.value != "" {
        var mValue := Lower(PyStr(Get(m, key, Str(""))));
        var filterValue := Lower(value.value);
        if mValue != filterValue {
          matched := false;
          break;
        }
      }
      k := k + 1;
    }
  }

  lemma FilteredPrefix(ms: seq<Doc>, q: MachineQuery, i: nat)
    requires i < |ms|
    ensures Filtered(ms[..i + 1], q) == Filtered(ms[..i], q) + (if Keep(ms[i], q) then [ms[i]] else [])
  {
    assert ms[..i + 1][..i] == ms[..i];
  }

  /** Exactly the records `Keep` accepts survive. */
  lemma {:induction false} FilteredMembers(ms: seq<Doc>, q: MachineQuery)
    ensures forall m :: m in Filtered(ms, q) <==> m in ms && Keep(m, q)
    ensures |Filtered(ms, q)| <= |ms|
  {
    if ms != [] {
      var init, last := ms[..|ms| - 1], ms[|ms| - 1];
      assert ms == init + [last];
      FilteredMembers(init, q);
    }
  }

  /** Each record `Keep` accepts survives as often as it occurs; the others not at all. */
  lemma {:induction false} FilteredCounts(ms: seq<Doc>, q: MachineQuery)
    ensures forall m :: multiset(Filtered(ms, q))[m] == if Keep(m, q) then multiset(ms)[m] else 0
  {
    if ms != [] {
      var init, last := ms[..|ms| - 1], ms[|ms| - 1];
      assert ms == init + [last];
      FilteredCounts(init, q);
    }
  }

  /** The survivors keep their original order. */
  lemma {:induction false} FilteredInOrder(ms: seq<Doc>, q: MachineQuery)
    ensures IsSubsequence(Filtered(ms, q), ms)
  {
    if ms != [] {
      var init, last := ms[..|ms| - 1], ms[|ms| - 1];
      FilteredInOrder(init, q);
      var f := Filtered(init, q);
      if Keep(last, q) {
        var g := f + [last];
        assert Filtered(ms, q) == g;
        assert g[..|g| - 1] == f;
      } else {
        assert Filtered(ms, q) == f;
        if f != [] {
          FilteredMembers(init, q);
          assert f[|f| - 1] in f;
          assert f[|f| - 1] != last;
        }
      }
    }
  }

  /** The extra status check never rejects a record the filters let through: `statusName` is
      itself one of the filters, with the same value. */
  lemma StatusCheckRedundant(m: Doc, q: MachineQuery)
    ensures Keep(m, q) <==> PassesFilters(m, q)
  {
    if PassesFilters(m, q) && Given(EffectiveStatus(q)) {
      assert ApiFilters(q)[5] == ("statusName", EffectiveStatus(q));
    }
  }

  /** With a status filter, every record kept has `status` or `statusName` equal to it,
      once both are lowered by `Lower`; with no filter at all, the list is passed through. */
  lemma StatusFilterHolds(ms: seq<Doc>, q: MachineQuery)
    requires Given(EffectiveStatus(q))
    ensures HasFilters(q)
    ensures forall m :: m in Filtered(ms, q) ==> StatusMatches(m, EffectiveStatus(q).value)
  {
    assert Given(ApiFilters(q)[5].1);
    FilteredMembers(ms, q);
  }

  // ================================================================ JSON conversion

  /** A value `json.dumps` accepts: no ObjectId, datetime or other object anywhere inside. */
  predicate IsJson(v: Value)
  {
    match v
    case Null => true
    case Bool(_) => true
    case Int(_) => true
    case Float(_) => true
    case Str(_) => true
    case List(xs) => forall i :: 0 <= i < |xs| ==> IsJson(xs[i])
    case Dict(m) => forall k :: k in m ==> IsJson(m[k])
    case ObjectId(_) => false
    case DateTime(_) => false
    case Other(_) => false
  }

  /** `make_json_serializable`: ObjectIds become their hex string, datetimes their ISO text,
      other objects their `str()`; dicts and lists are converted element by element and keep
      their keys, length and order; None and scalars come back as they are. */
  function MakeJsonSerializable(v: Value): (r: Value)
    ensures v.Null? ==> r == Null
    ensures v.Bool? || v.Int? || v.Float? || v.Str? ==> r == v
    ensures v.ObjectId? ==> r == Str(v.hex)
    ensures v.DateTime? ==> r == Str(v.iso)
    ensures v.Other? ==> r == Str(v.text)
    ensures v.Dict? ==> r.Dict? && r.fields.Keys == v.fields.Keys
    ensures v.Dict? ==> forall k :: k in v.fields ==> r.fields[k] == MakeJsonSerializable(v.fields[k])
    ensures v.List? ==> r.List? && |r.items| == |v.items|
    ensures v.List? ==> forall i :: 0 <= i < |v.items| ==> r.items[i] == MakeJsonSerializable(v.items[i])
  {
    match v
    case Null => Null
    case ObjectId(h) => Str(h)
    case DateTime(iso) => Str(iso)
    case Dict(m) => Dict(map k | k in m :: MakeJsonSerializable(m[k]))
    case List(xs) => List(seq(|xs|, i requires 0 <= i < |xs| => MakeJsonSerializable(xs[i])))
    case Bool(_) => v
    case Int(_) => v
    case Float(_) => v
    case Str(_) => v
    case Other(t) => Str(t)
  }

  /** The result is always JSON. */
  lemma {:induction false} SerializedIsJson(v: Value)
    ensures IsJson(MakeJsonSerializable(v))
  {
    match v
    case Dict(m) =>
      forall k | k in m ensures IsJson(MakeJsonSerializable(v).fields[k]) {
        SerializedIsJson(m[k]);
      }
    case List(xs) =>
      forall i | 0 <= i < |xs| ensures IsJson(MakeJsonSerializable(v).items[i]) {
        SerializedIsJson(xs[i]);
      }
    case _ =>
  }

  /** A value that is already JSON is left exactly as it is. */
  lemma {:induction false} JsonUnchanged(v: Value)
    requires IsJson(v)
    ensures MakeJsonSerializable(v) == v
  {
    match v
    case Dict(m) =>
      forall k | k in m ensures MakeJsonSerializable(m[k]) == m[k] {
        JsonUnchanged(m[k]);
      }
      assert MakeJsonSerializable(v).fields == m;
    case List(xs) =>
      forall i | 0 <= i < |xs| ensures MakeJsonSerializable(xs[i]) == xs[i] {
        JsonUnchanged(xs[i]);
      }
      assert MakeJsonSerializable(v).items == xs;
    case _ =>
  }

  /** Converting twice is converting once. */
  lemma SerializeIdempotent(v: Value)
    ensures MakeJsonSerializable(MakeJsonSerializable(v)) == MakeJsonSerializable(v)
  {
    SerializedIsJson(v);
    JsonUnchanged(MakeJsonSerializable(v));
  }

  // ================================================================ the machine list response

  /** The `get_machines` response: `totalCount`, the converted machines and where they came
      from. */
  datatype MachinesResponse = MachinesResponse(totalCount: int, machines: Value, source: string)

  function AsDicts(ms: seq<Doc>): (r: seq<Value>)
    ensures |r| == |ms| && forall i :: 0 <= i < |ms| ==> r[i] == Dict(ms[i])
  {
    seq(|ms|, i requires 0 <= i < |ms| => Dict(ms[i]))
  }

  /** The required-field loop over every machine, in place. */
  method FillRequiredFields(ms: array<Doc>)
    modifies ms
    ensures forall i :: 0 <= i < ms.Length ==> ms[i] == Defaulted(old(ms[i]))
  {
    var i := 0;
    while i < ms.Length
      invariant 0 <= i <= ms.Length
      invariant forall j :: 0 <= j < i ==> ms[j] == Defaulted(old(ms[j]))
      invariant forall j :: i <= j < ms.Length ==> ms[j] == old(ms[j])
    {
      ms[i] := FillDefaults(ms[i]);
      i := i + 1;
    }
  }

  /** The tail of `get_machines`: fill the required fields, convert, count. */
  method MachinesListResponse(ms: array<Doc>, source: string) returns (resp: MachinesResponse)
    modifies ms
    ensures forall i :: 0 <= i < ms.Length ==> ms[i] == Defaulted(old(ms[i]))
    ensures resp == MachinesResponse(ms.Length, MakeJsonSerializable(List(AsDicts(ms[..]))), source)
  {
    FillRequiredFields(ms);
    var serialized := MakeJsonSerializable(List(AsDicts(ms[..])));
    resp := MachinesResponse(|serialized.items|, serialized, source);
  }

  /** In the response, `totalCount` is the number of machines, and every machine carries every
      required field, non-blank unless it is the empty `name`, with its converted value. */
  lemma MachinesResponseComplete(ms: seq<Doc>, source: string)
    ensures var resp := MachinesResponse(|ms|, MakeJsonSerializable(List(AsDicts(seq(|ms|, i requires 0 <= i < |ms| => Defaulted(ms[i]))))), source);
      && resp.machines.List?
      && resp.totalCount == |resp.machines.items|
      && forall i :: 0 <= i < |ms| ==>
           resp.machines.items[i].Dict?
           && RequiredKeys <= resp.machines.items[i].fields.Keys
           && forall k :: k in RequiredKeys ==>
                resp.machines.items[i].fields[k] ==
                  (if NeedsDefault(ms[i], k) then Str(DefaultFor(k)) else MakeJsonSerializable(ms[i][k]))
  {
    var filled := seq(|ms|, i requires 0 <= i < |ms| => Defaulted(ms[i]));
    var out := MakeJsonSerializable(List(AsDicts(filled)));
    forall i | 0 <= i < |ms|
      ensures out.items[i].Dict? && RequiredKeys <= out.items[i].fields.Keys
      ensures forall k :: k in RequiredKeys ==>
        out.items[i].fields[k] == (if NeedsDefault(ms[i], k) then Str(DefaultFor(k)) else MakeJsonSerializable(ms[i][k]))
    {
      WithDefaultsSpec(ms[i]);
      assert out.items[i] == MakeJsonSerializable(Dict(filled[i]));
    }
  }

  // ================================================================ one machine and its bearings

  /** A reply of the external API: status code, body text, and the body parsed as JSON
      (`None` when `response.json()` raises). */
  datatype ApiReply = ApiReply(status: int, text: string, json: Option<Value>)

  /** Where the search for the requested machine ended. */
  datatype Lookup = Found(index: nat) | NotFound | NotADict(index: nat)

  /** `str(m.get("_id")) == machine_id or str(m.get("machineId")) == machine_id`; a missing
      field reads as `None`. */
  predicate IdMatches(m: Doc, id: string)
  {
    PyStr(Get(m, "_id", Null)) == id || PyStr(Get(m, "machineId", Null)) == id
  }

  /** `next(m for m in machines if ...)`: the first record whose id matches; `m.get` on an
      element that is not a dict raises before any later element is looked at. */
  function FindMachine(ms: seq<Value>, id: string, from: nat): (r: Lookup)
    requires from <= |ms|
    ensures r.Found? ==> from <= r.index < |ms| && ms[r.index].Dict? && IdMatches(ms[r.index].fields, id)
    ensures r.NotADict? ==> from <= r.index < |ms| && !ms[r.index].Dict?
    ensures forall j :: from <= j < |ms| && (r.NotFound? || (!r.NotFound? && j < r.index)) ==>
      ms[j].Dict? && !IdMatches(ms[j].fields, id)
    decreases |ms| - from
  {
    if from == |ms| then NotFound
    else if !ms[from].Dict? then NotADict(from)
    else if IdMatches(ms[from].fields, id) then Found(from)
    else FindMachine(ms, id, from + 1)
  }

  /** Python's `type(v).__name__`; an `Other` value does not carry its type, and reads as a
      plain `object`. */
  function TypeName(v: Value): string
  {
    match v
    case Null => "NoneType"
    case Bool(_) => "bool"
    case Int(_) => "int"
    case Float(_) => "float"
    case Str(_) => "str"
    case List(_) => "list"
    case Dict(_) => "dict"
    case ObjectId(_) => "ObjectId"
    case DateTime(_) => "datetime"
    case Other(_) => "object"
  }

  /** `str(e)` for the AttributeError that calling `v.<attr>(...)` raises on a non-dict `v`. */
  function NoAttribute(v: Value, attr: string): string
  {
    "'" + TypeName(v) + "' object has no attribute '" + attr + "'"
  }

  /** The reply of the handler's last `except Exception as e`. */
  function InternalError(message: string): Outcome<Value>
  {
    HttpError(500, "Internal error: " + message)
  }

  /** The position of the first bearing that is not a dict, or `|bs|` when all are. */
  function FirstNonDict(bs: seq<Value>, from: nat): (k: nat)
    requires from <= |bs|
    ensures from <= k <= |bs|
    ensures k < |bs| ==> !bs[k].Dict?
    ensures forall j :: from <= j < k ==> bs[j].Dict?
    decreases |bs| - from
  {
    if from == |bs| || !bs[from].Dict? then from else FirstNonDict(bs, from + 1)
  }

  /** The placeholder spectrum: `{"frequency": f, "amplitude": 1.0}` for f = 1 .. 10. */
  function DummyFft(): (r: Value)
    ensures r.List? && |r.items| == 10
    ensures forall i :: 0 <= i < 10 ==> r.items[i] == Dict(map["frequency" := Int(i + 1), "amplitude" := Float("1.0")])
  {
    List(seq(10, i requires 0 <= i < 10 => Dict(map["frequency" := Int(i + 1), "amplitude" := Float("1.0")])))
  }

  /** `b.setdefault("fftData", ...)`. */
  function WithFft(b: Doc): Doc
  {
    if "fftData" in b then b else b["fftData" := DummyFft()]
  }

  /** The bearings after the `setdefault` loop, or `None` when one of them is not a dict. */
  function BearingsWithFft(bs: seq<Value>): Option<seq<Value>>
  {
    if forall i :: 0 <= i < |bs| ==> bs[i].Dict? then
      Some(seq(|bs|, i requires 0 <= i < |bs| => Dict(WithFft(bs[i].fields))))
    else None
  }

  /** The machine with its fields filled: falsy `customerId`, `areaId`, `type` and
      `dataUpdatedTime` become "N/A", and `bearings` is attached. */
  function DetailFields(m: Doc, bearings: seq<Value>): Doc
  {
    m["customerId" := Or(Get(m, "customerId", Null), Str("N/A"))]
     ["areaId" := Or(Get(m, "areaId", Null), Str("N/A"))]
     ["type" := Or(Get(m, "type", Null), Str("N/A"))]
     ["dataUpdatedTime" := Or(Get(m, "dataUpdatedTime", Null), Str("N/A"))]
     ["bearings" := List(bearings)]
  }

  /** The bearing list the second reply yields: its JSON if that is a list, else empty. */
  function BearingList(reply: ApiReply): seq<Value>
  {
    match reply.json
    case Some(List(bs)) => bs
    case _ => []
  }

  /** `get_machine_detail(machine_id)` given the two replies of the external API. */
  function MachineDetail(id: string, listReply: ApiReply, bearingReply: ApiReply): Outcome<Value>
  {
    if listReply.status != 200 then
      HttpError(listReply.status, "Failed to fetch machine list: " + listReply.text)
    else if listReply.json.None? then HttpError(500, "Malformed response from external API")
    else if !listReply.json.value.List? || listReply.json.value.items == [] then
      HttpError(500, "Unexpected API response format (expected list)")
    else
      var ms := listReply.json.value.items;
      match FindMachine(ms, id, 0)
      case NotADict(k) => InternalError(NoAttribute(ms[k], "get"))
      case NotFound => HttpError(404, "Machine with ID " + id + " not found")
      case Found(i) =>
        var m := ms[i].fields;
        if m == map[] then HttpError(404, "Machine with ID " + id + " not found")
        else if bearingReply.status != 200 then
          HttpError(bearingReply.status, "Failed to fetch bearings: " + bearingReply.text)
        else
          var bs := BearingList(bearingReply);
          match BearingsWithFft(bs)
          case None => InternalError(NoAttribute(bs[FirstNonDict(bs, 0)], "setdefault"))
          case Some(bearings) => Ok(Dict(map["machine" := MakeJsonSerializable(Dict(DetailFields(m, bearings)))]))
  }

  /** `for b in bearings: b.setdefault("fftData", ...)`, stopping with `None` at the first
      bearing that is not a dict, whose position is `bad`. */
  method SetDefaultFft(bearings: seq<Value>) returns (r: Option<seq<Value>>, bad: nat)
    ensures r == BearingsWithFft(bearings)
    ensures r.None? ==> bad == FirstNonDict(bearings, 0) < |bearings|
  {
    var i := 0;
    var filled: seq<Value> := [];
    while i < |bearings|
      invariant 0 <= i <= |bearings|
      invariant forall j :: 0 <= j < i ==> bearings[j].Dict?
      invariant filled == seq(i, j requires 0 <= j < i => Dict(WithFft(bearings[j].fields)))
    {
      if !bearings[i].Dict? {
        return None, i;
      }
      var b := bearings[i].fields;
      if "fftData" !in b {
        b := b["fftData" := DummyFft()];
      }
      filled := filled + [Dict(b)];
      i := i + 1;
    }
    r, bad := Some(filled), i;
  }

  /** `get_machine_detail`, with its `setdefault` loop over the bearings. */
  method GetMachineDetail(id: string, listReply: ApiReply, bearingReply: ApiReply) returns (r: Outcome<Value>)
    ensures r == MachineDetail(id, listReply, bearingReply)
  {
    if listReply.status != 200 {
      return HttpError(listReply.status, "Failed to fetch machine list: " + listReply.text);
    }
    if listReply.json.None? {
      return HttpError(500, "Malformed response from external API");
    }
    var machines := listReply.json.value;
    if !machines.List? || machines.items == [] {
      return HttpError(500, "Unexpected API response format (expected list)");
    }
    var found := FindMachine(machines.items, id, 0);
    if found.NotADict? {
      return InternalError(NoAttribute(machines.items[found.index], "get"));
    }
    if found.NotFound? || machines.items[found.index].fields == map[] {
      return HttpError(404, "Machine with ID " + id + " not found");
    }
    var machine := machines.items[found.index].fields;
    if bearingReply.status != 200 {
      return HttpError(bearingReply.status, "Failed to fetch bearings: " + bearingReply.text);
    }
    var bearings := BearingList(bearingReply);
    var filled, bad := SetDefaultFft(bearings);
    if filled.None? {
      return InternalError(NoAttribute(bearings[bad], "setdefault"));
    }
    machine := machine["customerId" := Or(Get(machine, "customerId", Null), Str("N/A"))];
    machine := machine["areaId" := Or(Get(machine, "areaId", Null), Str("N/A"))];
    machine := machine["type" := Or(Get(machine, "type", Null), Str("N/A"))];
    machine := machine["dataUpdatedTime" := Or(Get(machine, "dataUpdatedTime", Null), Str("N/A"))];
    machine := machine["bearings" := List(filled.value)];
    var machineSerialized := MakeJsonSerializable(Dict(machine));
    r := Ok(Dict(map["machine" := machineSerialized]));
  }

  /** A successful detail is the first machine whose `_id` or `machineId` matches, non-empty,
      converted to JSON with its fields filled and its bearings attached, under the key
      `machine`. */
  lemma DetailIsFirstMatch(id: string, listReply: ApiReply, bearingReply: ApiReply)
    requires MachineDetail(id, listReply, bearingReply).Ok?
    ensures listReply.status == 200 && bearingReply.status == 200
    ensures listReply.json.Some? && listReply.json.value.List?
    ensures var ms := listReply.json.value.items;
      exists i :: (
        && 0 <= i < |ms| && ms[i].Dict? && IdMatches(ms[i].fields, id) && ms[i].fields != map[]
        && (forall j :: 0 <= j < i ==> ms[j].Dict? && !IdMatches(ms[j].fields, id))
        && BearingsWithFft(BearingList(bearingReply)).Some?
        && MachineDetail(id, listReply, bearingReply)
           == Ok(Dict(map["machine" := MakeJsonSerializable(Dict(DetailFields(ms[i].fields, BearingsWithFft(BearingList(bearingReply)).value)))])))
  {
    var ms := listReply.json.value.items;
    var i := FindMachine(ms, id, 0).index;
    assert ms[i].Dict? && IdMatches(ms[i].fields, id);
  }

  /** The filled machine, converted: it has the machine's fields plus the four filled ones
      and `bearings`; truthy `customerId`, `areaId`, `type` and `dataUpdatedTime` are kept and
      falsy ones become "N/A"; `bearings` is the converted bearing list. */
  lemma DetailFieldsFilled(m: Doc, bearings: seq<Value>)
    ensures var out := MakeJsonSerializable(Dict(DetailFields(m, bearings)));
      && out.Dict?
      && out.fields.Keys == m.Keys + {"customerId", "areaId", "type", "dataUpdatedTime", "bearings"}
      && (forall k :: k in {"customerId", "areaId", "type", "dataUpdatedTime"} ==>
            out.fields[k] == (if k in m && Truthy(m[k]) then MakeJsonSerializable(m[k]) else Str("N/A")))
      && out.fields["bearings"] == MakeJsonSerializable(List(bearings))
  {
    var f := DetailFields(m, bearings);
    var out := MakeJsonSerializable(Dict(f));
    assert out.fields == map k | k in f :: MakeJsonSerializable(f[k]);
    forall k | k in {"customerId", "areaId", "type", "dataUpdatedTime"}
      ensures out.fields[k] == (if k in m && Truthy(m[k]) then MakeJsonSerializable(m[k]) else Str("N/A"))
    {
      assert f[k] == Or(Get(m, k, Null), Str("N/A"));
    }
  }

  /** Every other field of the machine is the converted original. */
  lemma DetailFieldsKept(m: Doc, bearings: seq<Value>)
    ensures var out := MakeJsonSerializable(Dict(DetailFields(m, bearings)));
      && out.Dict?
      && forall k :: k in m && k !in {"customerId", "areaId", "type", "dataUpdatedTime", "bearings"} ==>
           k in out.fields && out.fields[k] == MakeJsonSerializable(m[k])
  {
    var f := DetailFields(m, bearings);
    var out := MakeJsonSerializable(Dict(f));
    assert out.fields == map k | k in f :: MakeJsonSerializable(f[k]);
  }

  /** After the `setdefault` loop every bearing is a dict that has `fftData`: its own when it
      had one, the placeholder spectrum otherwise, and nothing else about it changes. */
  lemma BearingsGetFft(bs: seq<Value>)
    requires BearingsWithFft(bs).Some?
    ensures var out := BearingsWithFft(bs).value;
      && |out| == |bs|
      && forall j :: 0 <= j < |bs| ==>
           && bs[j].Dict? && out[j].Dict? && "fftData" in out[j].fields
           && out[j].fields["fftData"] == (if "fftData" in bs[j].fields then bs[j].fields["fftData"] else DummyFft())
           && out[j].fields.Keys == bs[j].fields.Keys + {"fftData"}
           && forall k :: k in bs[j].fields ==> out[j].fields[k] == bs[j].fields[k]
  {
  }

  /** A list of dicts none of which carries the id is searched to the end. */
  lemma {:induction false} NoMatchNotFound(ms: seq<Value>, id: string, from: nat)
    requires from <= |ms|
    requires forall j :: from <= j < |ms| ==> ms[j].Dict? && !IdMatches(ms[j].fields, id)
    ensures FindMachine(ms, id, from) == NotFound
    decreases |ms| - from
  {
    if from < |ms| {
      NoMatchNotFound(ms, id, from + 1);
    }
  }

  /** The error answers of `get_machine_detail`, each with its status and message. */
  lemma DetailErrors(id: string, listReply: ApiReply, bearingReply: ApiReply)
    ensures listReply.status != 200 ==>
      MachineDetail(id, listReply, bearingReply) == HttpError(listReply.status, "Failed to fetch machine list: " + listReply.text)
    ensures listReply.status == 200 && listReply.json.Some? && listReply.json.value.List?
      && listReply.json.value.items != []
      && (forall j :: 0 <= j < |listReply.json.value.items| ==>
            listReply.json.value.items[j].Dict? && !IdMatches(listReply.json.value.items[j].fields, id))
      ==> MachineDetail(id, listReply, bearingReply) == HttpError(404, "Machine with ID " + id + " not found")
  {
    if listReply.status == 200 && listReply.json.Some? && listReply.json.value.List? {
      var ms := listReply.json.value.items;
      if forall j :: 0 <= j < |ms| ==> ms[j].Dict? && !IdMatches(ms[j].fields, id) {
        NoMatchNotFound(ms, id, 0);
      }
    }
  }

  /** A listed entry that is not a dict ends the search with the handler's internal error. */
  lemma DetailMachineNotADict(id: string, ms: seq<Value>, bearingReply: ApiReply, listReply: ApiReply)
    requires listReply.status == 200 && listReply.json == Some(List(ms)) && ms != [] && !ms[0].Dict?
    ensures MachineDetail(id, listReply, bearingReply)
      == HttpError(500, "Internal error: '" + TypeName(ms[0]) + "' object has no attribute 'get'")
  {
    assert FindMachine(ms, id, 0) == NotADict(0);
  }

  /** A bearing that is not a dict, for a machine that was found, gives the internal error. */
  lemma DetailBearingNotADict(id: string, ms: seq<Value>, bs: seq<Value>, listReply: ApiReply, bearingReply: ApiReply)
    requires listReply.status == 200 && listReply.json == Some(List(ms)) && ms != []
    requires ms[0].Dict? && IdMatches(ms[0].fields, id) && ms[0].fields != map[]
    requires bearingReply.status == 200 && bearingReply.json == Some(List(bs)) && bs != [] && !bs[0].Dict?
    ensures MachineDetail(id, listReply, bearingReply)
      == HttpError(500, "Internal error: '" + TypeName(bs[0]) + "' object has no attribute 'setdefault'")
  {
    assert FindMachine(ms, id, 0) == Found(0);
    assert BearingList(bearingReply) == bs;
    assert !(forall i :: 0 <= i < |bs| ==> bs[i].Dict?);
    assert BearingsWithFft(bs) == None;
    assert FirstNonDict(bs, 0) == 0;
    assert MachineDetail(id, listReply, bearingReply) == InternalError(NoAttribute(bs[0], "setdefault"));
  }
}
