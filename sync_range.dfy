// Syncing a range of days: the days from the first through the last, synced batch by batch,
// their statistics added up and recorded in `sync_metadata`; the last-n-days shortcut; and
// the days the `machines` collection holds, newest first.
module SyncRange {
  import opened Base
  import opened PyText
  import opened Calendar
  import opened Documents
  import opened Sync

  // ---------------------------------------------------------------- batches

  /** `dates[i:i + k]` for `i` in `range(start, len(dates), k)`, with `k` positive. */
  function BatchesFrom(dates: seq<string>, k: nat, start: nat): seq<seq<string>>
    requires 0 < k && start <= |dates|
    decreases |dates| - start
  {
    if start == |dates| then []
    else
      var next := Min(start + k, |dates|);
      [dates[start..next]] + BatchesFrom(dates, k, next)
  }

  /** The batches `for i in range(0, len(dates), batch_size)` visits: none for a negative
      step (a zero step raises before the first batch). */
  function Batches(dates: seq<string>, k: int): seq<seq<string>>
    requires k != 0
  {
    if k < 0 then [] else BatchesFrom(dates, k, 0)
  }

  /** The batches one after the other. */
  function Flatten(bs: seq<seq<string>>): seq<string>
  {
    if bs == [] then [] else bs[0] + Flatten(bs[1..])
  }

  /** The batches from `start` on hold the dates from `start` on, in order, each once. */
  lemma {:induction false} BatchesFromCover(dates: seq<string>, k: nat, start: nat)
    requires 0 < k && start <= |dates|
    ensures Flatten(BatchesFrom(dates, k, start)) == dates[start..]
    decreases |dates| - start
  {
    if start < |dates| {
      var next := Min(start + k, |dates|);
      BatchesFromCover(dates, k, next);
      var bs := BatchesFrom(dates, k, start);
      assert bs[1..] == BatchesFrom(dates, k, next);
      assert dates[start..next] + dates[next..] == dates[start..];
    }
  }

  /** Every batch is non-empty and holds at most `k` dates; all but the last hold exactly `k`. */
  lemma {:induction false} BatchesFromSized(dates: seq<string>, k: nat, start: nat)
    requires 0 < k && start <= |dates|
    ensures var bs := BatchesFrom(dates, k, start);
      forall t :: 0 <= t < |bs| ==> 0 < |bs[t]| <= k && (t < |bs| - 1 ==> |bs[t]| == k)
    decreases |dates| - start
  {
    if start < |dates| {
      var next := Min(start + k, |dates|);
      BatchesFromSized(dates, k, next);
      var bs := BatchesFrom(dates, k, start);
      assert bs[1..] == BatchesFrom(dates, k, next);
      if next < |dates| {
        assert |bs| > 1;
      }
    }
  }

  /** With a positive batch size the batches partition the dates, in order, into runs of
      `batch_size` (the last one possibly shorter); a negative size visits no batch. */
  lemma BatchesPartition(dates: seq<string>, k: int)
    requires k != 0
    ensures k > 0 ==> Flatten(Batches(dates, k)) == dates
    ensures k > 0 ==> var bs := Batches(dates, k);
      forall t :: 0 <= t < |bs| ==> 0 < |bs[t]| <= k && (t < |bs| - 1 ==> |bs[t]| == k)
    ensures k < 0 ==> Batches(dates, k) == []
  {
    if k > 0 {
      BatchesFromCover(dates, k, 0);
      BatchesFromSized(dates, k, 0);
    }
  }

  lemma {:induction false} FlattenAppend(bs: seq<seq<string>>, b: seq<string>)
    ensures Flatten(bs + [b]) == Flatten(bs) + b
  {
    if bs != [] {
      assert (bs + [b])[1..] == bs[1..] + [b];
      FlattenAppend(bs[1..], b);
    }
  }

  // ---------------------------------------------------------------- the days of a range

  /** The result one task of a batch ends with: the day's statistics, or the text of the
      exception it raised (`asyncio.gather(..., return_exceptions=True)`). */
  datatype DateResult = Synced(stats: DateStats) | Raised(message: string)

  /** What the external API returns for a day: nothing when it has no entry. */
  function Fetched(feed: map<string, seq<Doc>>, date: string): seq<Doc>
  {
    if date in feed then feed[date] else []
  }

  /** One day's task: a day listed in `failures` raises with that message and writes nothing;
      any other day is synced from what the API returns for it. */
  function DateTask(docs: seq<Doc>, date: string, feed: map<string, seq<Doc>>,
                    failures: map<string, string>, now: Value): (seq<Doc>, DateResult)
  {
    if date in failures then (docs, Raised(failures[date]))
    else
      var synced := DateSync(docs, date, Fetched(feed, date), now);
      (synced.0, Synced(synced.1))
  }

  /** The collection after a run of days, and each day's result. */
  datatype Progress = Progress(docs: seq<Doc>, results: seq<DateResult>)

  /** The days run one after the other, each on the collection the previous ones left. */
  function RunDates(docs: seq<Doc>, dates: seq<string>, feed: map<string, seq<Doc>>,
                    failures: map<string, string>, now: Value): (p: Progress)
    ensures |p.results| == |dates|
  {
    if dates == [] then Progress(docs, [])
    else
      var before := RunDates(docs, dates[..|dates| - 1], feed, failures, now);
      var task := DateTask(before.docs, dates[|dates| - 1], feed, failures, now);
      Progress(task.0, before.results + [task.1])
  }

  /** What the result for `date` is: the exception's text, or statistics for that very day
      counting what the API returned, `success` exactly when it returned something, and
      each fetched record counted at most once as inserted or updated. */
  predicate ResultFor(r: DateResult, date: string, feed: map<string, seq<Doc>>, failures: map<string, string>)
  {
    if date in failures then r == Raised(failures[date])
    else
      && r.Synced?
      && r.stats.date == date
      && r.stats.fetched == |Fetched(feed, date)|
      && r.stats.inserted + r.stats.updated <= r.stats.fetched
      && (r.stats.status == "success" <==> Fetched(feed, date) != [])
      && (Fetched(feed, date) == [] ==> r.stats == DateStats(date, 0, 0, 0, "no_data"))
  }

  /** A day's task yields the result `ResultFor` describes. */
  lemma TaskResult(docs: seq<Doc>, date: string, feed: map<string, seq<Doc>>,
                   failures: map<string, string>, now: Value)
    ensures ResultFor(DateTask(docs, date, feed, failures, now).1, date, feed, failures)
  {
  }

  /** One result per day, in the order of the days. */
  lemma {:induction false} RunDatesResults(docs: seq<Doc>, dates: seq<string>, feed: map<string, seq<Doc>>,
                                            failures: map<string, string>, now: Value)
    ensures var rs := RunDates(docs, dates, feed, failures, now).results;
      forall i :: 0 <= i < |dates| ==> ResultFor(rs[i], dates[i], feed, failures)
  {
    if dates != [] {
      var init := dates[..|dates| - 1];
      RunDatesResults(docs, init, feed, failures, now);
      var rs := RunDates(docs, dates, feed, failures, now).results;
      var prior := RunDates(docs, init, feed, failures, now);
      forall i | 0 <= i < |dates| ensures ResultFor(rs[i], dates[i], feed, failures) {
        if i < |init| {
          assert rs[i] == prior.results[i] && dates[i] == init[i];
        } else {
          TaskResult(prior.docs, dates[i], feed, failures, now);
        }
      }
    }
  }

  /** Running the days of `xs` and then those of `ys` is running `xs + ys`. */
  lemma {:induction false} RunDatesAppend(docs: seq<Doc>, xs: seq<string>, ys: seq<string>,
                                           feed: map<string, seq<Doc>>, failures: map<string, string>, now: Value)
    ensures var first := RunDates(docs, xs, feed, failures, now);
      var second := RunDates(first.docs, ys, feed, failures, now);
      RunDates(docs, xs + ys, feed, failures, now) == Progress(second.docs, first.results + second.results)
  {
    if ys != [] {
      var init := ys[..|ys| - 1];
      RunDatesAppend(docs, xs, init, feed, failures, now);
      DropLastAppend(xs, ys);
      var first := RunDates(docs, xs, feed, failures, now);
      var mid := RunDates(first.docs, init, feed, failures, now);
      var task := DateTask(mid.docs, ys[|ys| - 1], feed, failures, now);
      AppendAssoc(first.results, mid.results, [task.1]);
    } else {
      assert xs + ys == xs;
    }
  }

  /** One more day extends the run by that day's task. */
  lemma RunDatesStep(docs: seq<Doc>, dates: seq<string>, i: nat, feed: map<string, seq<Doc>>,
                     failures: map<string, string>, now: Value)
    requires i < |dates|
    ensures var before := RunDates(docs, dates[..i], feed, failures, now);
      var task := DateTask(before.docs, dates[i], feed, failures, now);
      RunDates(docs, dates[..i + 1], feed, failures, now) == Progress(task.0, before.results + [task.1])
  {
    assert dates[..i + 1][..i] == dates[..i];
  }

  // ---------------------------------------------------------------- totals

  /** `total_stats`. */
  datatype Totals = Totals(totalDates: nat, fetched: nat, inserted: nat, updated: nat,
                           failedDates: seq<string>, dateStats: seq<DateStats>)

  /** Adding one result: an exception's text joins the failed dates; statistics add to the
      sums and to the list, and their date joins the failed dates unless the day succeeded. */
  function Accumulate(t: Totals, r: DateResult): Totals
  {
    match r
    case Raised(message) => t.(failedDates := t.failedDates + [message])
    case Synced(s) =>
      Totals(t.totalDates, t.fetched + s.fetched, t.inserted + s.inserted, t.updated + s.updated,
             t.failedDates + (if s.status != "success" then [s.date] else []), t.dateStats + [s])
  }

  /** The totals after adding up `rs`, starting from zero for a range of `totalDates` days. */
  function AddUp(totalDates: nat, rs: seq<DateResult>): (t: Totals)
    ensures t.totalDates == totalDates
  {
    if rs == [] then Totals(totalDates, 0, 0, 0, [], [])
    else Accumulate(AddUp(totalDates, rs[..|rs| - 1]), rs[|rs| - 1])
  }

  /** The statistics among the results, in order. */
  function StatsOf(rs: seq<DateResult>): seq<DateStats>
  {
    if rs == [] then []
    else StatsOf(rs[..|rs| - 1]) + (if rs[|rs| - 1].Synced? then [rs[|rs| - 1].stats] else [])
  }

  function SumFetched(ss: seq<DateStats>): nat
  {
    if ss == [] then 0 else SumFetched(ss[..|ss| - 1]) + ss[|ss| - 1].fetched
  }

  function SumInserted(ss: seq<DateStats>): nat
  {
    if ss == [] then 0 else SumInserted(ss[..|ss| - 1]) + ss[|ss| - 1].inserted
  }

  function SumUpdated(ss: seq<DateStats>): nat
  {
    if ss == [] then 0 else SumUpdated(ss[..|ss| - 1]) + ss[|ss| - 1].updated
  }

  /** The totals list exactly the statistics of the days that did not raise, in order, and
      each total is the sum of that field over the list. */
  lemma {:induction false} AddUpSums(n: nat, rs: seq<DateResult>)
    ensures var t := AddUp(n, rs);
      && t.dateStats == StatsOf(rs)
      && t.fetched == SumFetched(t.dateStats)
      && t.inserted == SumInserted(t.dateStats)
      && t.updated == SumUpdated(t.dateStats)
  {
    if rs != [] {
      var init := rs[..|rs| - 1];
      AddUpSums(n, init);
      var t0 := AddUp(n, init);
      var last := rs[|rs| - 1];
      if last.Synced? {
        var ss := t0.dateStats + [last.stats];
        assert ss[..|ss| - 1] == t0.dateStats;
      }
    }
  }

  /** When every day's inserted and updated counts stay within its fetched count, so do the
      totals. */
  lemma {:induction false} AddUpBound(n: nat, rs: seq<DateResult>)
    requires forall i :: 0 <= i < |rs| && rs[i].Synced? ==> rs[i].stats.inserted + rs[i].stats.updated <= rs[i].stats.fetched
    ensures AddUp(n, rs).inserted + AddUp(n, rs).updated <= AddUp(n, rs).fetched
  {
    if rs != [] {
      AddUpBound(n, rs[..|rs| - 1]);
    }
  }

  /** Result `r` puts `x` among the failed dates: its exception's text, or its date when the
      day did not succeed. */
  predicate FailsWith(r: DateResult, x: string)
  {
    match r
    case Raised(message) => message == x
    case Synced(s) => s.status != "success" && s.date == x
  }

  /** The failed dates are exactly what the failing results contribute. */
  lemma {:induction false} AddUpFailed(n: nat, rs: seq<DateResult>)
    ensures forall x :: x in AddUp(n, rs).failedDates <==> exists i :: 0 <= i < |rs| && FailsWith(rs[i], x)
  {
    if rs != [] {
      var init := rs[..|rs| - 1];
      AddUpFailed(n, init);
      var last := rs[|rs| - 1];
      forall x ensures x in AddUp(n, rs).failedDates <==> exists i :: 0 <= i < |rs| && FailsWith(rs[i], x) {
        if x in AddUp(n, init).failedDates {
          var i :| 0 <= i < |init| && FailsWith(init[i], x);
          assert rs[i] == init[i];
        }
        if exists i :: 0 <= i < |rs| && FailsWith(rs[i], x) {
          var i :| 0 <= i < |rs| && FailsWith(rs[i], x);
          if i < |init| {
            assert init[i] == rs[i];
          }
        }
      }
    }
  }

  /** A failing result's contribution is among the failed dates. */
  lemma {:induction false} AddUpKeepsFailure(n: nat, rs: seq<DateResult>, i: nat, x: string)
    requires i < |rs| && FailsWith(rs[i], x)
    ensures x in AddUp(n, rs).failedDates
  {
    var init := rs[..|rs| - 1];
    if i < |init| {
      assert init[i] == rs[i];
      AddUpKeepsFailure(n, init, i, x);
    }
  }

  // ---------------------------------------------------------------- the metadata

  /** The one document of `sync_metadata` the machines sync keeps. */
  function MetaFilter(): Doc
  {
    map["sync_type" := Str("machines")]
  }

  /** `{"$set": ...}` of `update_sync_metadata`: when, which range, and the three sums. */
  function MetaFields(startStr: string, endStr: string, t: Totals, now: Value): Doc
  {
    map["last_sync" := now,
        "last_sync_range" := Dict(map["start" := Str(startStr), "end" := Str(endStr)]),
        "last_sync_stats" := Dict(map["fetched" := Int(t.fetched), "inserted" := Int(t.inserted),
                                      "updated" := Int(t.updated)])]
  }

  /** `update_sync_metadata`. */
  method UpdateSyncMetadata(meta: Collection, startStr: string, endStr: string, t: Totals, now: Value)
    modifies meta
    ensures meta.docs == Upsert(old(meta.docs), MetaFilter(), MetaFields(startStr, endStr, t, now)).0
  {
    var _ := meta.UpdateOne(MetaFilter(), MetaFields(startStr, endStr, t, now));
  }

  /** Recording a sync keeps a single metadata document, and that document then holds the
      range and the sums just recorded. */
  lemma MetadataRecorded(metaDocs: seq<Doc>, startStr: string, endStr: string, t: Totals, now: Value)
    requires AtMostOne(metaDocs, MetaFilter())
    ensures var after := Upsert(metaDocs, MetaFilter(), MetaFields(startStr, endStr, t, now)).0;
      && AtMostOne(after, MetaFilter())
      && exists i :: 0 <= i < |after| && Matches(after[i], MetaFilter()) &&
           "last_sync_range" in after[i] && "last_sync_stats" in after[i] &&
           after[i]["last_sync_range"] == MetaFields(startStr, endStr, t, now)["last_sync_range"] &&
           after[i]["last_sync_stats"] == MetaFields(startStr, endStr, t, now)["last_sync_stats"]
  {
    var fields := MetaFields(startStr, endStr, t, now);
    UpsertKeepsKey(metaDocs, MetaFilter(), fields);
    var after := Upsert(metaDocs, MetaFilter(), fields).0;
    var i := FirstMatch(metaDocs, MetaFilter());
    var doc := if i < |metaDocs| then metaDocs[i] + fields else MetaFilter() + fields;
    assert after[i] == doc;
    assert Matches(doc, MetaFilter());
  }

  // ---------------------------------------------------------------- a range

  /** The day texts `sync_date_range` loops over, or nothing when it raises: an unparsable
      bound, or stepping past 9999-12-31. */
  function RangeDates(startStr: string, endStr: string): (r: Option<seq<string>>)
  {
    var ps, pe := ParseDate(startStr), ParseDate(endStr);
    if ps.None? || pe.None? then None
    else if NotAfter(ps.value, pe.value) && pe.value == MaxDate then None
    else Some(RangeRun(ps.value, pe.value))
  }

  /** The range holds every day from the first through the last, ascending, one text each. */
  lemma RangeDatesSpan(startStr: string, endStr: string)
    requires RangeDates(startStr, endStr).Some?
    ensures var a, b := ParseDate(startStr).value, ParseDate(endStr).value;
      var ds := RangeDates(startStr, endStr).value;
      && |ds| == SpanLength(a, b)
      && (forall i :: 0 <= i < |ds| ==> ParseDate(ds[i]) == Some(AddDays(a, i)))
      && (forall x :: Valid(x) && InRange(x) ==> (Format(x) in ds <==> NotAfter(a, x) && NotAfter(x, b)))
  {
    RangeRunDays(ParseDate(startStr).value, ParseDate(endStr).value);
  }

  /** `sync_date_range`: the machines collection, the metadata collection and the totals
      afterwards. It raises before writing anything on a bad bound, on overflow, or on a zero
      batch size; otherwise it runs the days batch by batch and records the totals. */
  function DateRangeSync(docs: seq<Doc>, metaDocs: seq<Doc>, startStr: string, endStr: string, k: int,
                         feed: map<string, seq<Doc>>, failures: map<string, string>, now: Value)
    : (r: (seq<Doc>, seq<Doc>, Outcome<Totals>))
    ensures r.2.Crash? || r.2.Ok?
    ensures r.2.Crash? ==> r.0 == docs && r.1 == metaDocs
  {
    match RangeDates(startStr, endStr)
    case None => (docs, metaDocs, Crash)
    case Some(dates) =>
      if k == 0 then (docs, metaDocs, Crash)
      else
        var run := RunDates(docs, Flatten(Batches(dates, k)), feed, failures, now);
        var t := AddUp(|dates|, run.results);
        (run.docs, Upsert(metaDocs, MetaFilter(), MetaFields(startStr, endStr, t, now)).0, Ok(t))
  }

  /** A day's failure is reported: a day that raised contributes its message, and a day with
      no data its date, to the failed dates. */
  lemma FailureReported(dates: seq<string>, rs: seq<DateResult>, feed: map<string, seq<Doc>>,
                        failures: map<string, string>, i: nat)
    requires |rs| == |dates| && i < |dates| && ResultFor(rs[i], dates[i], feed, failures)
    ensures dates[i] in failures ==> failures[dates[i]] in AddUp(|dates|, rs).failedDates
    ensures dates[i] !in failures && Fetched(feed, dates[i]) == [] ==> dates[i] in AddUp(|dates|, rs).failedDates
  {
    if dates[i] in failures {
      AddUpKeepsFailure(|dates|, rs, i, failures[dates[i]]);
    } else if Fetched(feed, dates[i]) == [] {
      AddUpKeepsFailure(|dates|, rs, i, dates[i]);
    }
  }

  /** Adding up one result per day keeps the inserted and updated totals within the
      fetched total. */
  lemma TotalsBound(dates: seq<string>, rs: seq<DateResult>, feed: map<string, seq<Doc>>,
                    failures: map<string, string>)
    requires |rs| == |dates|
    requires forall i :: 0 <= i < |dates| ==> ResultFor(rs[i], dates[i], feed, failures)
    ensures AddUp(|dates|, rs).inserted + AddUp(|dates|, rs).updated <= AddUp(|dates|, rs).fetched
  {
    forall i | 0 <= i < |rs| && rs[i].Synced?
      ensures rs[i].stats.inserted + rs[i].stats.updated <= rs[i].stats.fetched
    {
      assert ResultFor(rs[i], dates[i], feed, failures);
    }
    AddUpBound(|dates|, rs);
  }

  /** Adding up one result per day: a day that raised contributes its message, and a day
      with no data its date, to the failed dates. */
  lemma TotalsFailures(dates: seq<string>, rs: seq<DateResult>, feed: map<string, seq<Doc>>,
                       failures: map<string, string>)
    requires |rs| == |dates|
    requires forall i :: 0 <= i < |dates| ==> ResultFor(rs[i], dates[i], feed, failures)
    ensures forall i :: 0 <= i < |dates| && dates[i] in failures ==>
      failures[dates[i]] in AddUp(|dates|, rs).failedDates
    ensures forall i :: 0 <= i < |dates| && dates[i] !in failures && Fetched(feed, dates[i]) == [] ==>
      dates[i] in AddUp(|dates|, rs).failedDates
  {
    forall i | 0 <= i < |dates| {
      FailureReported(dates, rs, feed, failures, i);
    }
  }

  /** A range sync with a positive batch size completes, with the report `AddUp` gives over
      the `RunDates` results for the days of the range. */
  lemma RangeReport(docs: seq<Doc>, metaDocs: seq<Doc>, startStr: string, endStr: string, k: int,
                    feed: map<string, seq<Doc>>, failures: map<string, string>, now: Value)
    requires k > 0 && RangeDates(startStr, endStr).Some?
    ensures var dates := RangeDates(startStr, endStr).value;
      var r := DateRangeSync(docs, metaDocs, startStr, endStr, k, feed, failures, now);
      && r.2.Ok?
      && r.2.value == AddUp(|dates|, RunDates(docs, dates, feed, failures, now).results)
      && (forall i :: 0 <= i < |dates| ==>
            ResultFor(RunDates(docs, dates, feed, failures, now).results[i], dates[i], feed, failures))
  {
    var dates := RangeDates(startStr, endStr).value;
    BatchesPartition(dates, k);
    RunDatesResults(docs, dates, feed, failures, now);
  }

  /** One task: `sync_machines_for_date(db, date)`, or the exception it raises. */
  method RunTask(coll: Collection, date: string, feed: map<string, seq<Doc>>,
                 failures: map<string, string>, now: Value) returns (res: DateResult)
    modifies coll
    ensures (coll.docs, res) == DateTask(old(coll.docs), date, feed, failures, now)
  {
    if date in failures {
      return Raised(failures[date]);
    }
    var stats := SyncMachinesForDate(coll, date, Fetched(feed, date), now);
    res := Synced(stats);
  }

  /** `await asyncio.gather(*tasks, return_exceptions=True)` over one batch, the tasks run one
      after the other. */
  method RunBatch(coll: Collection, batch: seq<string>, feed: map<string, seq<Doc>>,
                  failures: map<string, string>, now: Value) returns (results: seq<DateResult>)
    modifies coll
    ensures Progress(coll.docs, results) == RunDates(old(coll.docs), batch, feed, failures, now)
  {
    ghost var start := coll.docs;
    results := [];
    var j := 0;
    while j < |batch|
      invariant 0 <= j <= |batch|
      invariant RunDates(start, batch[..j], feed, failures, now) == Progress(coll.docs, results)
    {
      RunDatesStep(start, batch, j, feed, failures, now);
      var res := RunTask(coll, batch[j], feed, failures, now);
      results := results + [res];
      j := j + 1;
    }
    assert batch[..j] == batch;
  }

  /** The `for result in results` loop: each result added to the totals. */
  method TallyResults(totals: Totals, results: seq<DateResult>, ghost n: nat, ghost prior: seq<DateResult>)
    returns (t: Totals)
    requires totals == AddUp(n, prior)
    ensures t == AddUp(n, prior + results)
  {
    t := totals;
    var j := 0;
    assert prior + results[..0] == prior;
    while j < |results|
      invariant 0 <= j <= |results|
      invariant t == AddUp(n, prior + results[..j])
    {
      var upTo := prior + results[..j + 1];
      assert upTo[..|upTo| - 1] == prior + results[..j];
      t := Accumulate(t, results[j]);
      j := j + 1;
    }
    assert results[..j] == results;
  }

  /** The `for i in range(0, len(dates), batch_size)` loop for a positive size: each batch
      run, then its results added to the totals. */
  method RunPositiveBatches(coll: Collection, dates: seq<string>, batchSize: nat,
                            feed: map<string, seq<Doc>>, failures: map<string, string>, now: Value)
    returns (totals: Totals)
    requires batchSize > 0
    modifies coll
    ensures var run := RunDates(old(coll.docs), dates, feed, failures, now);
      coll.docs == run.docs && totals == AddUp(|dates|, run.results)
  {
    totals := Totals(|dates|, 0, 0, 0, [], []);
    ghost var start := coll.docs;
    ghost var rs: seq<DateResult> := [];
    var i := 0;
    while i < |dates|
      invariant 0 <= i <= |dates|
      invariant RunDates(start, dates[..i], feed, failures, now) == Progress(coll.docs, rs)
      invariant totals == AddUp(|dates|, rs)
      decreases |dates| - i
    {
      var next := Min(i + batchSize, |dates|);
      var batch := dates[i..next];
      RunDatesAppend(start, dates[..i], batch, feed, failures, now);
      SliceJoin(dates, i, next);
      var results := RunBatch(coll, batch, feed, failures, now);
      totals := TallyResults(totals, results, |dates|, rs);
      rs := rs + results;
      i := next;
    }
    assert dates[..i] == dates;
  }

  /** The batch loop for any non-zero size: a negative one visits no batch. */
  method RunBatches(coll: Collection, dates: seq<string>, batchSize: int,
                    feed: map<string, seq<Doc>>, failures: map<string, string>, now: Value)
    returns (totals: Totals)
    requires batchSize != 0
    modifies coll
    ensures var run := RunDates(old(coll.docs), Flatten(Batches(dates, batchSize)), feed, failures, now);
      coll.docs == run.docs && totals == AddUp(|dates|, run.results)
  {
    BatchesPartition(dates, batchSize);
    if batchSize > 0 {
      totals := RunPositiveBatches(coll, dates, batchSize, feed, failures, now);
    } else {
      totals := Totals(|dates|, 0, 0, 0, [], []);
    }
  }

  /** `sync_date_range(db, start_date, end_date, batch_size)`. */
  method SyncDateRange(coll: Collection, meta: Collection, startStr: string, endStr: string, batchSize: int,
                       feed: map<string, seq<Doc>>, failures: map<string, string>, now: Value)
    returns (r: Outcome<Totals>)
    requires coll != meta
    modifies coll, meta
    ensures (coll.docs, meta.docs, r) ==
      DateRangeSync(old(coll.docs), old(meta.docs), startStr, endStr, batchSize, feed, failures, now)
  {
    var ps, pe := ParseDate(startStr), ParseDate(endStr);
    if ps.None? || pe.None? {
      return Crash;
    }
    var listed := ListDays(ps.value, pe.value);
    if listed.None? {
      return Crash;
    }
    var dates := listed.value;
    assert RangeDates(startStr, endStr) == Some(dates);
    if batchSize == 0 {
      return Crash;
    }
    var totals := RunBatches(coll, dates, batchSize, feed, failures, now);
    UpdateSyncMetadata(meta, startStr, endStr, totals, now);
    r := Ok(totals);
  }

  // ---------------------------------------------------------------- the last n days

  /** `sync_last_n_days(db, days)` on the day `today` the clock gives: the range from
      `days - 1` days before today through today, five days a batch; computing the first day
      raises when it falls outside years 1 to 9999. */
  function LastNDaysSync(docs: seq<Doc>, metaDocs: seq<Doc>, today: Date, days: int,
                         feed: map<string, seq<Doc>>, failures: map<string, string>, now: Value)
    : (r: (seq<Doc>, seq<Doc>, Outcome<Totals>))
    requires Valid(today) && InRange(today)
  {
    var start := AddDays(today, -(days - 1));
    if !InRange(start) then (docs, metaDocs, Crash)
    else DateRangeSync(docs, metaDocs, Format(start), Format(today), 5, feed, failures, now)
  }

  /** From `days - 1` days before today through today is `days` days ending today; for
      `days < 1` the first day is after today. */
  lemma LastNDaysSpan(today: Date, days: int)
    requires Valid(today) && InRange(today)
    ensures var start := AddDays(today, -(days - 1));
      && (days >= 1 ==> NotAfter(start, today) && SpanLength(start, today) == days && AddDays(start, days - 1) == today)
      && (days < 1 ==> Before(today, start))
  {
    var start := AddDays(today, -(days - 1));
    AddDaysOrdinal(today, -(days - 1));
    BeforeIsOrdinalLess(today, start);
    BeforeIsOrdinalLess(start, today);
    if days >= 1 {
      AddDaysTwice(today, -(days - 1), days - 1);
    }
  }

  /** The days `sync_last_n_days` hands on: `days` texts, the i-th naming the day `i` days
      after the first, the last one today; none for `days < 1`; stepping past 9999-12-31
      when today is the last day. */
  lemma LastNDaysDates(today: Date, days: int)
    requires Valid(today) && InRange(today)
    requires InRange(AddDays(today, -(days - 1)))
    ensures var start := AddDays(today, -(days - 1));
      var ds := RangeDates(Format(start), Format(today));
      && (days >= 1 && today == MaxDate ==> ds.None?)
      && (days >= 1 && today != MaxDate ==>
            && ds.Some? && |ds.value| == days
            && (forall i :: 0 <= i < days ==> ParseDate(ds.value[i]) == Some(AddDays(start, i)))
            && AddDays(start, days - 1) == today)
      && (days < 1 ==> ds == Some([]))
  {
    var start := AddDays(today, -(days - 1));
    ParseFormat(start);
    ParseFormat(today);
    LastNDaysSpan(today, days);
    if days < 1 || today != MaxDate {
      RangeDatesSpan(Format(start), Format(today));
      RangeRunDays(start, today);
    }
  }

  /** Syncing the last `days` days completes exactly when the first day exists and, for a
      non-empty range, today is not 9999-12-31; it then reports `days` days (none for
      `days < 1`). */
  lemma LastNDaysTotals(docs: seq<Doc>, metaDocs: seq<Doc>, today: Date, days: int,
                        feed: map<string, seq<Doc>>, failures: map<string, string>, now: Value)
    requires Valid(today) && InRange(today)
    ensures var r := LastNDaysSync(docs, metaDocs, today, days, feed, failures, now).2;
      && (r.Ok? <==> InRange(AddDays(today, -(days - 1))) && (days < 1 || today != MaxDate))
      && (r.Ok? ==> r.value.totalDates == if days >= 1 then days else 0)
  {
    if InRange(AddDays(today, -(days - 1))) {
      LastNDaysDates(today, days);
    }
  }

  /** `sync_last_n_days`. */
  method SyncLastNDays(coll: Collection, meta: Collection, today: Date, days: int,
                       feed: map<string, seq<Doc>>, failures: map<string, string>, now: Value)
    returns (r: Outcome<Totals>)
    requires coll != meta
    requires Valid(today) && InRange(today)
    modifies coll, meta
    ensures (coll.docs, meta.docs, r) == LastNDaysSync(old(coll.docs), old(meta.docs), today, days, feed, failures, now)
  {
    var start := AddDays(today, -(days - 1));
    if !InRange(start) {
      return Crash;
    }
    r := SyncDateRange(coll, meta, Format(start), Format(today), 5, feed, failures, now);
  }

  // ---------------------------------------------------------------- the days held

  /** Some document holds the text `date` in its `date` field. */
  predicate HasDate(docs: seq<Doc>, date: string)
  {
    exists i :: 0 <= i < |docs| && "date" in docs[i] && docs[i]["date"] == Str(date)
  }

  /** Every `date` field present holds text, so the distinct values can be sorted. */
  predicate DatesAreText(docs: seq<Doc>)
  {
    forall i :: 0 <= i < |docs| && "date" in docs[i] ==> docs[i]["date"].Str?
  }

  predicate NoDuplicates(xs: seq<string>)
  {
    forall i, j :: 0 <= i < j < |xs| ==> xs[i] != xs[j]
  }

  /** Ordered for `sorted(..., reverse=True)`: no element is smaller than a later one. */
  predicate NonIncreasing(xs: seq<string>)
  {
    forall i, j :: 0 <= i < j < |xs| ==> !StrLess(xs[i], xs[j])
  }

  /** Strictly newest first. */
  predicate Descending(xs: seq<string>)
  {
    forall i, j :: 0 <= i < j < |xs| ==> StrLess(xs[j], xs[i])
  }

  lemma HasDateStep(docs: seq<Doc>, i: nat)
    requires i < |docs|
    ensures forall x :: HasDate(docs[..i + 1], x) <==>
      HasDate(docs[..i], x) || ("date" in docs[i] && docs[i]["date"] == Str(x))
  {
    var before, after := docs[..i], docs[..i + 1];
    assert forall k :: 0 <= k < i ==> after[k] == before[k];
    assert after[i] == docs[i];
  }

  lemma DatesAreTextStep(docs: seq<Doc>, i: nat)
    requires i < |docs|
    ensures DatesAreText(docs[..i + 1]) <==>
      DatesAreText(docs[..i]) && ("date" in docs[i] ==> docs[i]["date"].Str?)
  {
    var before, after := docs[..i], docs[..i + 1];
    assert forall k :: 0 <= k < i ==> after[k] == before[k];
    assert after[i] == docs[i];
  }

  /** `distinct("date")`: each value of the field once, in the order first met; the sort that
      follows raises when one of them is not text. */
  method DistinctDates(docs: seq<Doc>) returns (r: Option<seq<string>>)
    ensures r.Some? <==> DatesAreText(docs)
    ensures r.Some? ==> NoDuplicates(r.value) && forall x :: x in r.value <==> HasDate(docs, x)
  {
    var found: seq<string> := [];
    var i := 0;
    while i < |docs|
      invariant 0 <= i <= |docs|
      invariant DatesAreText(docs[..i]) && NoDuplicates(found)
      invariant forall x :: x in found <==> HasDate(docs[..i], x)
    {
      HasDateStep(docs, i);
      DatesAreTextStep(docs, i);
      if "date" in docs[i] {
        var v := docs[i]["date"];
        if !v.Str? {
          return None;
        }
        if v.s !in found {
          found := found + [v.s];
        }
      }
      i := i + 1;
    }
    assert docs[..i] == docs;
    r := Some(found);
  }

  /** Placing `x` before the first element smaller than it keeps the order. */
  lemma InsertKeepsOrder(ys: seq<string>, x: string, p: nat)
    requires NonIncreasing(ys) && p <= |ys|
    requires forall j :: 0 <= j < p ==> !StrLess(ys[j], x)
    requires p < |ys| ==> StrLess(ys[p], x)
    ensures NonIncreasing(ys[..p] + [x] + ys[p..])
  {
    var r := ys[..p] + [x] + ys[p..];
    forall i, j | 0 <= i < j < |r|
      ensures !StrLess(r[i], r[j])
    {
      if j <= p {
        assert r[i] == ys[i];
      } else {
        assert r[j] == ys[j - 1];
        if i == p {
          if ys[j - 1] != ys[p] {
            StrLessTotal(ys[j - 1], ys[p]);
            StrLessTransitive(ys[j - 1], ys[p], x);
          }
          StrLessAsymmetric(ys[j - 1], x);
        } else if i < p {
          assert r[i] == ys[i];
        } else {
          assert r[i] == ys[i - 1];
        }
      }
    }
  }

  /** One step of the insertion sort: `x` goes before the first element smaller than it. */
  method InsertDescending(ys: seq<string>, x: string) returns (r: seq<string>)
    requires NonIncreasing(ys)
    ensures multiset(r) == multiset(ys) + multiset{x} && NonIncreasing(r)
  {
    var p := 0;
    while p < |ys| && !StrLess(ys[p], x)
      invariant 0 <= p <= |ys|
      invariant forall j :: 0 <= j < p ==> !StrLess(ys[j], x)
    {
      p := p + 1;
    }
    InsertKeepsOrder(ys, x, p);
    r := ys[..p] + [x] + ys[p..];
    assert ys == ys[..p] + ys[p..];
  }

  /** `sorted(xs, reverse=True)`. */
  method SortDescending(xs: seq<string>) returns (ys: seq<string>)
    ensures multiset(ys) == multiset(xs) && NonIncreasing(ys)
  {
    ys := [];
    var i := 0;
    while i < |xs|
      invariant 0 <= i <= |xs|
      invariant multiset(ys) == multiset(xs[..i]) && NonIncreasing(ys)
    {
      ys := InsertDescending(ys, xs[i]);
      assert xs[..i + 1] == xs[..i] + [xs[i]];
      i := i + 1;
    }
    assert xs[..i] == xs;
  }

  lemma {:induction false} NoDuplicatesCount(xs: seq<string>, v: string)
    requires NoDuplicates(xs)
    ensures multiset(xs)[v] <= 1
  {
    if xs != [] {
      var init := xs[..|xs| - 1];
      assert xs == init + [xs[|xs| - 1]];
      assert NoDuplicates(init) by {
        assert forall i :: 0 <= i < |init| ==> init[i] == xs[i];
      }
      NoDuplicatesCount(init, v);
      if v == xs[|xs| - 1] {
        assert forall i :: 0 <= i < |init| ==> init[i] == xs[i] && init[i] != v;
        assert v !in init;
      }
    }
  }

  lemma RepeatCount(ys: seq<string>, i: nat, j: nat)
    requires i < j < |ys| && ys[i] == ys[j]
    ensures multiset(ys)[ys[i]] >= 2
  {
    assert ys == ys[..j] + [ys[j]] + ys[j + 1..];
    assert ys[..j][i] == ys[i];
  }

  /** Sorting distinct texts newest first orders them strictly and loses none. */
  lemma SortedDistinct(xs: seq<string>, ys: seq<string>)
    requires NoDuplicates(xs) && multiset(ys) == multiset(xs) && NonIncreasing(ys)
    ensures Descending(ys) && forall x :: x in ys <==> x in xs
  {
    forall i, j | 0 <= i < j < |ys|
      ensures StrLess(ys[j], ys[i])
    {
      NoDuplicatesCount(xs, ys[i]);
      if ys[i] == ys[j] {
        RepeatCount(ys, i, j);
      }
      StrLessTotal(ys[i], ys[j]);
    }
    forall x
      ensures x in ys <==> x in xs
    {
      assert x in ys <==> x in multiset(ys);
      assert x in xs <==> x in multiset(xs);
    }
  }

  /** `get_available_dates`: the distinct days the collection holds, newest first; it raises
      when a `date` field holds something other than text. */
  method GetAvailableDates(coll: Collection) returns (r: Outcome<seq<string>>)
    ensures r.Ok? || r.Crash?
    ensures r.Ok? <==> DatesAreText(coll.docs)
    ensures r.Ok? ==> Descending(r.value) && forall x :: x in r.value <==> HasDate(coll.docs, x)
  {
    var distinct := DistinctDates(coll.docs);
    if distinct.None? {
      return Crash;
    }
    var sorted := SortDescending(distinct.value);
    SortedDistinct(distinct.value, sorted);
    r := Ok(sorted);
  }
}
