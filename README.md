# Fault-detection backend: date windows, machine records and sync bookkeeping

This project is a Dafny model of the core logic of the fault-detection backend. It covers three parts.

- **The machines router.** `generate_dates` expands a request string into `YYYY-MM-DD` days. `get_machines` filters the records it got from the external API and fills in their required fields. `get_machine_detail` selects one machine and defaults its bearings' `fftData`. `make_json_serializable` converts values recursively.
- **The stacked-chart endpoint** (`stacked_chart`). It cuts `[date_from, date_to]` into daily, weekly or monthly buckets and sums per-status counts over each bucket.
- **The sync service.**
  - `sync_machines_for_date` stamps each fetched record, fills its defaults, picks its upsert key and counts inserts and updates.
  - `sync_date_range` lists the days of a range, runs them in batches, adds up the totals and records sync metadata.
  - `sync_last_n_days` covers the last `n` days.
  - `get_available_dates` lists the distinct days newest first.

The modules follow the program's structure:

| module | what it holds |
|---|---|
| `Base` | `Option`, and `Outcome` (a reply, an `HTTPException` with its status, or an uncaught exception, which FastAPI answers with status 500) |
| `Calendar` | The proleptic Gregorian calendar: Python's `toordinal`, `weekday`, `+ timedelta(days=n)`, `strptime("%Y-%m-%d")`, `strftime` and the `%W` week numbering. It is unbounded, and Python's year range 1 to 9999 is checked explicitly wherever Python raises on leaving it. |
| `PyText` | The string operations the source relies on: `str.strip`, `str.split`, `in`, `str.lower`, `str(int)`, and `<` on strings |
| `Documents` | Python/BSON values, truthiness, `str()`, and the required-field defaults that `get_machines` and `sync_machines_for_date` share |
| `Machines` | `backend/app/routers/machines.py` |
| `Stats`, `StatsFacts` | `backend/app/routers/stats.py`: the generators and chart loops, then the coverage and sum facts about them |
| `Sync` | The MongoDB `update_one(..., upsert=True)` on a `Collection` class, and `sync_machines_for_date` |
| `SyncRange` | `sync_date_range`, `update_sync_metadata`, `sync_last_n_days` and `get_available_dates` |

Each loop in the source is a `method` with a `while` loop. It is proved equal to a specification function, and the properties are then proved about that function:

- `Machines.GenerateDates` is proved against `ExpandDates`.
- `Stats.StackedChart` is proved against `StackedReplyFor`.
- `Sync.SyncMachinesForDate` is proved against `DateSync`.
- `SyncRange.SyncDateRange` is proved against `DateRangeSync`.

A MongoDB collection is a `Collection` object whose `docs : seq<Doc>` the upsert method updates in place. The in-place defaulting loop of `get_machines` works on an `array<Doc>`.

External inputs are parameters:

- The external API's answers for each day are a `feed` map.
- The days whose task raises are a `failures` map from the day to the exception text.
- The two HTTP replies of `get_machine_detail` are `ApiReply` values.
- The chart's grouped counts are a `DataMap`.
- `datetime.utcnow()` is a `now` value (a `today` date for `sync_last_n_days`).

## Model

| member | source | states |
|---|---|---|
| Calendar.NextDayOrdinal | backend/app/routers/machines.py:52 | stepping one day (`+= timedelta(days=1)`) moves to the next ordinal |
| Calendar.AddDaysCharacterized | backend/app/routers/machines.py:56 | `d + timedelta(days=n)` is exactly the valid date whose ordinal is `n` more than `d`'s |
| Calendar.AddDaysTwice | backend/app/routers/stats.py:91-93 | adding `m` days and then `n` days is adding `m + n` days |
| Calendar.WeekdayAdvances | backend/app/routers/machines.py:62 | the weekday `n` days on is the weekday advanced by `n` modulo 7 |
| Calendar.BeforeIsOrdinalLess | backend/app/routers/machines.py:50 | Python's `<` on dates is `<` on their ordinals |
| Calendar.OrdinalInjective | backend/app/routers/machines.py:50 | distinct dates have distinct ordinals |
| Calendar.DayRangeExact | backend/app/routers/stats.py:81-85 | the days from `a` through `b` are exactly the dates between them, strictly ascending, first `a`, last `b` |
| Calendar.DaysSplit | backend/app/routers/stats.py:87-93 | `n` days from `d` followed by `m` more are the `n + m` days from `d` |
| Calendar.MaxDateIsLast | backend/app/routers/machines.py:50-52 | no representable date comes after 9999-12-31, so stepping from it overflows |
| Calendar.NextMonthStep | backend/app/routers/stats.py:99 | day 28 plus four days, with the day set to 1, is the 1st of the next month in every month, December included |
| Calendar.MonthLength | backend/app/routers/stats.py:99-100 | the day before the next month's 1st is the month's last day, and the next 1st is a month's length on |
| Calendar.FirstMondayIsEarly | backend/app/routers/machines.py:62 | the first Monday of a year is January 1st to 7th and is a Monday |
| Calendar.WeekStartMonday | backend/app/routers/machines.py:62 | `strptime("%Y-W%W-%w")` with day 1 always gives a Monday |
| Calendar.WeekStartAfterFirstMonday | backend/app/routers/machines.py:62 | `%W` week `w >= 1` starts `w - 1` weeks after the year's first Monday |
| Calendar.WeekZeroStart | backend/app/routers/machines.py:62 | `%W` week 0 starts on the Monday on or before January 1st |
| Calendar.ParseDate | backend/app/routers/machines.py:48-49 | a date `strptime` accepts is a valid calendar date in years 1 to 9999 |
| Calendar.ParseFormat | backend/app/routers/machines.py:48-51 | parsing the `YYYY-MM-DD` text of a date gives the date back |
| Calendar.PadToken | backend/app/routers/machines.py:51 | a two-digit month or day reads back as a month or day token of the same value |
| Calendar.DaysParse | backend/app/routers/machines.py:55-65 | every formatted day of a run of days parses back to that day |
| Calendar.RangeLoopBound | backend/app/routers/machines.py:50 | `start + i <= end` holds exactly for the first `SpanLength(start, end)` steps |
| Calendar.RangeRunDays | backend/app/routers/machines.py:50-52 | the range loop's texts are one per day, each parsing to `start + i`, and contain a date's text iff the date lies between the bounds; the list is empty when start is after end |
| Calendar.RangeStep | backend/app/routers/machines.py:50-52 | one pass of the `while current <= end` loop formats the current day; standing on 9999-12-31 it can only overflow, and only when the range ends there |
| Calendar.RangeDone | backend/app/routers/machines.py:50-52 | when the loop stops it has formatted every day of the range, without overflow |
| Calendar.ListDays | backend/app/routers/machines.py:50-52 | the `while current <= end` loop, which `daily_dates` in stats.py:81-85 and `sync_date_range` in sync_service.py:158-162 repeat, gives every day from start through end, or fails when it steps past 9999-12-31 |
| Calendar.MinDate | backend/app/routers/stats.py:91 | `min(a, b)` is the earlier of the two, and is `b` only when `b` is strictly earlier |
| PyText.ZeroPadDigits | backend/app/routers/machines.py:51 | the zero-padded field is `w` digits long and reads back as `n` |
| PyText.NatToStringDigits | backend/app/routers/machines.py:348 | `str(n)` is a non-empty digit run with no leading zero that reads back as `n` |
| PyText.StripLeft | backend/app/routers/machines.py:47 | a suffix of the text, not starting with whitespace, and everything dropped before it is whitespace |
| PyText.StripRight | backend/app/routers/machines.py:47 | a prefix of the text, not ending with whitespace, and everything dropped after it is whitespace |
| PyText.FindFirst | backend/app/routers/machines.py:46 | the first position where the pattern occurs, or none when it occurs nowhere |
| PyText.SplitInTwo | backend/app/routers/machines.py:47 | for `"to"` and `"-W"`, `split` gives exactly two parts iff the separator occurs exactly once |
| PyText.SplitInTwoParts | backend/app/routers/machines.py:47 | the two parts are the text before the first occurrence and the text after it |
| PyText.SplitShape | backend/app/routers/machines.py:47 | no occurrence leaves the text whole; a second occurrence gives more than two parts |
| PyText.StrLessIrreflexive | backend/app/services/sync_service.py:265 | no text sorts before itself |
| PyText.StrLessTransitive | backend/app/services/sync_service.py:265 | string order is transitive |
| PyText.StrLessTotal | backend/app/services/sync_service.py:265 | any two different texts are ordered |
| PyText.StrLessAsymmetric | backend/app/services/sync_service.py:265 | string order is asymmetric |
| Documents.StampKeysNotRequired | backend/app/services/sync_service.py:87-102 | `date`, `synced_at`, `_id` and `machineId` are not required fields, so defaulting leaves the stamp and the ids alone |
| Documents.DefaultsFromSpec | backend/app/routers/machines.py:423-425 | after the defaults of the remaining required fields, a field not yet present or blank holds its default and every other field is unchanged |
| Documents.WithDefaultsSpec | backend/app/routers/machines.py:412-425 | after the loop every required field is present; one that was missing, None or "" holds its default; everything else is unchanged |
| Documents.DefaultedSpec | backend/app/routers/machines.py:412-425 | the field-by-field description of the filled record meets that promise |
| Documents.WithDefaultsIsDefaulted | backend/app/routers/machines.py:422-425 | the loop, field after field, leaves the record the field-by-field description gives |
| Documents.WithDefaultsIdempotent | backend/app/routers/machines.py:422-425 | filling defaults twice is filling them once |
| Documents.FillDefaults | backend/app/routers/machines.py:423-425 | the inner loop over one record leaves the record with its defaults filled |
| Machines.GenerateDates | backend/app/routers/machines.py:43-74 | the loops of `generate_dates` give exactly `ExpandDates(req)`: the forms tried in the order range, month, week, single date |
| Machines.MonthDays | backend/app/routers/machines.py:55-59 | the `range(31)` loop yields the days from the 1st while the month stays the same |
| Machines.WeekDays | backend/app/routers/machines.py:63-65 | the `range(7)` loop yields the seven days from the Monday, or fails with status 400 past year 9999 |
| Machines.RangeFormDays | backend/app/routers/machines.py:46-52 | `"A to B"` yields every day from A through B, once each, ascending and consecutive; it yields nothing, without error, when A is after B |
| Machines.MonthRequestDayOne | backend/app/routers/machines.py:53-54 | a seven-character request accepted with `-01` appended names a 1st of a month |
| Machines.MonthFormDays | backend/app/routers/machines.py:53-59 | the month form yields every day of that month, 1st to last, so 28 to 31 entries |
| Machines.WeekFormDays | backend/app/routers/machines.py:60-65 | the week form yields seven consecutive days from the Monday of `%W` week `nn` |
| Machines.WeekFormIsRun | backend/app/routers/machines.py:60-65 | a successful week form is exactly the seven-day run from that Monday, all in years 1 to 9999 |
| Machines.WeekRunDays | backend/app/routers/machines.py:63-65 | the seven texts parse to the Monday and the six days after it |
| Machines.SingleFormUnchanged | backend/app/routers/machines.py:66-73 | a single date is handed back unchanged as `[req_date]`; an unparsable one is refused with status 400 and the fixed message |
| Machines.ExpandDatesErrors | backend/app/routers/machines.py:69-73 | `generate_dates` succeeds or fails with status 400 and the fixed message, and fails in no other way |
| Machines.EffectiveStatus | backend/app/routers/machines.py:324 | `statusName or status` is given iff one of them is, preferring `statusName` |
| Machines.ApplyApiFilters | backend/app/routers/machines.py:339-366 | with no given filter the list is unchanged; otherwise the result is the records `Keep` accepts, in order |
| Machines.MatchesFilters | backend/app/routers/machines.py:345-352 | the inner loop with `break` answers exactly whether every given filter equals the field once both are lowered (ASCII and Latin-1 letters only) |
| Machines.FilteredPrefix | backend/app/routers/machines.py:363-364 | one more record appends it to the result iff it is kept |
| Machines.FilteredMembers | backend/app/routers/machines.py:341-366 | a record is in the result iff it is in the input and passes every filter; the result is no longer than the input |
| Machines.FilteredCounts | backend/app/routers/machines.py:341-366 | a kept record occurs as often as in the input, a rejected one not at all |
| Machines.FilteredInOrder | backend/app/routers/machines.py:341-366 | the result is a subsequence of the input: the order is kept |
| Machines.StatusCheckRedundant | backend/app/routers/machines.py:326-361 | the extra status check never rejects a record the filters let through |
| Machines.StatusFilterHolds | backend/app/routers/machines.py:324-361 | with a status filter, every kept record has `status` or `statusName` equal to it once both are lowered (ASCII and Latin-1 letters only) |
| Machines.MakeJsonSerializable | backend/app/routers/machines.py:77-114 | None stays None, scalars are unchanged, ObjectIds, datetimes and other objects become text, dicts keep their keys and lists their length and order, each entry converted in turn |
| Machines.SerializedIsJson | backend/app/routers/machines.py:77-114 | the result holds no ObjectId, datetime or other object anywhere |
| Machines.JsonUnchanged | backend/app/routers/machines.py:82-108 | a value that is already JSON is returned exactly as it is |
| Machines.SerializeIdempotent | backend/app/routers/machines.py:77-114 | converting twice is converting once |
| Machines.FillRequiredFields | backend/app/routers/machines.py:422-425 | the in-place loop leaves each machine with its required fields filled, and no other change |
| Machines.MachinesListResponse | backend/app/routers/machines.py:422-435 | the machines are filled in place, and the reply is their converted list, its length as `totalCount`, and the source |
| Machines.MachinesResponseComplete | backend/app/routers/machines.py:412-435 | `totalCount` is the number of machines returned, and every machine carries every required field, holding its default or its converted value |
| Machines.FindMachine | backend/app/routers/machines.py:468-471 | `next(...)` finds the first record whose `_id` or `machineId` matches; every record before it is a dict that does not match; a non-dict stops the search |
| Machines.FirstNonDict | backend/app/routers/machines.py:493-494 | the position of the first bearing that is not a dict, every one before it being a dict |
| Machines.SetDefaultFft | backend/app/routers/machines.py:493-494 | the `setdefault` loop gives the bearings with `fftData` filled, or stops at the first one that is not a dict and reports its position |
| Machines.GetMachineDetail | backend/app/routers/machines.py:440-513 | the handler, loop included, gives exactly `MachineDetail` of the two API replies: the converted machine under the key `machine`, or the error reply |
| Machines.DetailIsFirstMatch | backend/app/routers/machines.py:453-507 | a successful detail means both replies had status 200, and it is the first matching, non-empty machine, filled and converted, with its bearings attached, returned as `{"machine": ...}` |
| Machines.DetailFieldsFilled | backend/app/routers/machines.py:497-505 | truthy `customerId`, `areaId`, `type` and `dataUpdatedTime` are kept and falsy ones become "N/A"; `bearings` is the converted bearing list; no other key is added |
| Machines.DetailFieldsKept | backend/app/routers/machines.py:497-505 | every other field of the machine is its converted original |
| Machines.BearingsGetFft | backend/app/routers/machines.py:493-494 | every bearing keeps its fields and has `fftData`: its own if it had one, the placeholder otherwise |
| Machines.NoMatchNotFound | backend/app/routers/machines.py:468-474 | a list of dicts none of which matches is searched to the end without a find |
| Machines.DetailErrors | backend/app/routers/machines.py:453-474 | a non-200 list reply fails with its status and text; a non-empty list with no match fails with status 404 and the machine's id |
| Machines.DetailMachineNotADict | backend/app/routers/machines.py:468-513 | a listed entry that is not a dict makes `.get` raise, answered with status 500 and `Internal error: '<type>' object has no attribute 'get'` |
| Machines.DetailBearingNotADict | backend/app/routers/machines.py:493-513 | a bearing that is not a dict makes `setdefault` raise, answered with status 500 and `Internal error: '<type>' object has no attribute 'setdefault'` |
| Stats.StepFacts | backend/app/routers/stats.py:83-93 | stepping forward never goes back, and leaves `n` fewer days before `end` |
| Stats.WeekFrom | backend/app/routers/stats.py:90-92 | a week is a well-formed bucket starting on the current day |
| Stats.WeekStep | backend/app/routers/stats.py:87-93 | one pass of `weekly_ranges` yields the week up to `min(c + 6, end)` and moves seven days on, or overflows past year 9999 |
| Stats.WeeksDone | backend/app/routers/stats.py:87-93 | when the loop stops it has yielded every week, without overflow |
| Stats.WeeklyRanges | backend/app/routers/stats.py:87-93 | the generator loop gives the weeks, or none when stepping overflows |
| Stats.MonthWindow | backend/app/routers/stats.py:98-101 | a month bucket is well formed |
| Stats.MonthProbe | backend/app/routers/stats.py:99-100 | the probe names the next month and overflows only from December 9999; the day before the next 1st is the month's last day |
| Stats.MonthOverflowStep | backend/app/routers/stats.py:99 | stepping on from a month overflows exactly from December 9999, and then the range ends in that month |
| Stats.MonthsFromStep | backend/app/routers/stats.py:95-102 | the buckets are the current month's, up to the earlier of its last day and `end` and labelled `YYYY-MM`, followed by the buckets from the next 1st |
| Stats.NextMonthAfter | backend/app/routers/stats.py:98-102 | the next 1st is later, one month on, and in range |
| Stats.MonthStep | backend/app/routers/stats.py:95-102 | one pass of `monthly_ranges` yields the month's bucket and moves to the next 1st |
| Stats.MonthsDone | backend/app/routers/stats.py:95-102 | when the loop stops it has yielded every bucket, without overflow |
| Stats.MonthlyRanges | backend/app/routers/stats.py:95-102 | the generator loop gives the month buckets, or none when stepping overflows |
| Stats.WeeksOk | backend/app/routers/stats.py:87-93 | every week yielded is a well-formed bucket |
| Stats.MonthsOk | backend/app/routers/stats.py:95-102 | every month yielded is a well-formed bucket |
| Stats.AppendColumn | backend/app/routers/stats.py:110-111 | every status's series gets its cell appended; the keys stay the four statuses |
| Stats.TableStep | backend/app/routers/stats.py:107-131 | one item adds its label and, for every status, its cell |
| Stats.FillTable | backend/app/routers/stats.py:107-131 | the nested loops give the table of labels and series for the items |
| Stats.StackedChart | backend/app/routers/stats.py:50-135 | the handler, loops included, gives exactly `StackedReplyFor` |
| StatsFacts.BucketSeriesSum | backend/app/routers/stats.py:113-131 | the bucket series adds up to the counts over all the buckets' days |
| StatsFacts.DailySeriesSum | backend/app/routers/stats.py:107-111 | the daily series adds up to the counts over its days |
| StatsFacts.WeekSplit | backend/app/routers/stats.py:87-93 | the first week either ends the range, or is followed by weeks whose days continue its own |
| StatsFacts.WeeksPartition | backend/app/routers/stats.py:87-93 | the weeks, one after another, are exactly the days from start through end, each once, in order |
| StatsFacts.WeeklyTotalsMatchDaily | backend/app/routers/stats.py:107-121 | for each status the weekly series adds up to the daily series over the same dates |
| StatsFacts.WeekCount | backend/app/routers/stats.py:87-93 | there are `ceil(days / 7)` weeks |
| StatsFacts.WeekAt | backend/app/routers/stats.py:87-93 | week `k` starts `7k` days after start, ends at `min(start + 6, end)` and is captioned `"<first> to <last>"` |
| StatsFacts.WeekFirstDay | backend/app/routers/stats.py:90-93 | week `k` starts on `start + 7k` days |
| StatsFacts.MonthsPartition | backend/app/routers/stats.py:95-102 | the month buckets cut the days from the 1st of the start month through the end into consecutive runs |
| StatsFacts.MonthAt | backend/app/routers/stats.py:95-102 | one bucket per month from the start month to the end month; bucket `k` starts on the 1st of the `k`-th month on (the first one on the 1st of the start month), ends at the earlier of its last day and `end`, and is captioned `YYYY-MM` |
| StatsFacts.LeadIn | backend/app/routers/stats.py:98 | the days of the start month before `date_from` |
| StatsFacts.LeadInSplit | backend/app/routers/stats.py:98 | from the 1st of the month, the days are the lead-in followed by the range |
| StatsFacts.MonthlyTotals | backend/app/routers/stats.py:123-131 | the monthly series adds up to the daily series plus the start month's days before `date_from` |
| StatsFacts.SumCountsNone | backend/app/routers/stats.py:111 | days absent from the grouping count zero |
| StatsFacts.MonthlyTotalsMatchDaily | backend/app/routers/stats.py:65-131 | assuming the grouped counts hold no date before `date_from` (which the `$gte` match is meant to ensure), the monthly series adds up to the daily one |
| StatsFacts.ChartShape | backend/app/routers/stats.py:79-135 | a chart has exactly the four statuses as keys, each series as long as `dates` |
| StatsFacts.DailyChartContents | backend/app/routers/stats.py:81-111 | the daily labels are every day of the range in order, and each cell is that day's count, 0 when absent |
| StatsFacts.BucketChartContents | backend/app/routers/stats.py:87-131 | the weekly and monthly labels are the buckets' captions and each cell is the bucket's sum; the chart succeeds iff stepping does not overflow |
| StatsFacts.RejectedExactly | backend/app/routers/stats.py:58-133 | only an unknown view is rejected with the error object, once connected and both dates parse; a bad date fails whatever the view; no database gives the "not connected" reply |
| Sync.FirstMatch | backend/app/services/sync_service.py:114-118 | the first document matching the filter, or the end when none does |
| Sync.Collection.UpdateOne | backend/app/services/sync_service.py:114-118 | the collection after `update_one(..., upsert=True)` and its result are those of `Upsert` |
| Sync.UpsertEffect | backend/app/services/sync_service.py:114-122 | an upsert inserts `filter + fields` iff nothing matches; otherwise it overlays the fields on the first match, and counts as modified iff that changed it |
| Sync.UpsertKeepsKey | backend/app/services/sync_service.py:113-139 | when the record agrees with its key and at most one document matched the key before, the key names exactly one document afterwards, and repeating the upsert changes nothing |
| Sync.Prepare | backend/app/services/sync_service.py:86-130 | the loop body as written: the record set has no `_id` |
| Sync.PrepareKeyed | backend/app/services/sync_service.py:106-118 | with `machineId` set to the key in the record as well, the record set still has no `_id` |
| Sync.CompositeConsistent | backend/app/services/sync_service.py:125-130 | a record keyed by its own fields agrees with its key |
| Sync.MachineKeyIs | backend/app/services/sync_service.py:106-107 | the key is `machineId`, or `_id` when `machineId` is missing or falsy |
| Sync.StampedAt | backend/app/services/sync_service.py:87-102 | after stamping, `synced_at` and `date` hold the stamp, required fields their defaults when blank, and other fields what they came with |
| Sync.RecordAt | backend/app/services/sync_service.py:109-111 | field by field, the record written is the stamped record without `_id`, `machineId` included |
| Sync.PreparedRecordStamp | backend/app/services/sync_service.py:86-111 | every record written has `date` equal to `date_str`, the `synced_at` stamp, no `_id`, and no field from elsewhere |
| Sync.PreparedRequired | backend/app/services/sync_service.py:91-102 | every required field written holds its default when it was missing, None or "", its fetched value otherwise |
| Sync.PreparedKept | backend/app/services/sync_service.py:85-111 | every other fetched field, `machineId` among them, is written unchanged |
| Sync.PreparedKey | backend/app/services/sync_service.py:106-130 | the key is (`machineId` or else `_id`, date) when that is truthy, and (date, `customerId`, `name`, `areaId`) otherwise |
| Sync.PreparedConsistentIff | backend/app/services/sync_service.py:106-130 | as written, the record agrees with its key exactly when the fetched record has no `machineId`, a truthy one, or no truthy id at all |
| Sync.KeyedRecord | backend/app/services/sync_service.py:106-118 | the corrected record is the one written with `machineId` set to the key when the key is truthy, under the same key |
| Sync.KeyedConsistent | backend/app/services/sync_service.py:106-130 | with the key written into the record, the record always agrees with its key |
| Sync.StampedRestamped | backend/app/services/sync_service.py:87-102 | stamping at another time changes the stamped record in `synced_at` alone |
| Sync.KeyedRestamped | backend/app/services/sync_service.py:87-118 | syncing the same record at another time gives the same key and the same corrected record but for `synced_at` |
| Sync.ResyncOnce | backend/app/services/sync_service.py:113-122 | when at most one document matched the key before, a second upsert under a key the first record agrees with, differing only in `synced_at`, inserts nothing, leaves the key naming one document, changes that document in `synced_at` alone, and counts as modified exactly when the stamp differs |
| Sync.ResyncMerges | backend/app/services/sync_service.py:106-122 | with the key written into the record, and at most one document matching the key before, re-syncing a record at times `now1` and `now2` merges into the document the first sync left: nothing inserted, the key naming one document, only `synced_at` changed, and modified exactly when `now1 != now2` |
| Sync.KeyedById | backend/app/services/sync_service.py:106-118 | a record with a non-empty text `machineId` is keyed by it and the date, and the corrected record carries it |
| Sync.KeyedByNames | backend/app/services/sync_service.py:123-130 | a record with neither `machineId` nor `_id` is keyed by its date, `customerId`, `name` and `areaId` |
| Sync.KeysOverlapAcrossRecords | backend/app/services/sync_service.py:113-135 | id keys and composite keys share the collection: two records with different ids and the same names leave two documents that one composite key both matches, so one document per key does not hold across the two kinds of key |
| Sync.AsWrittenResyncDuplicates | backend/app/services/sync_service.py:106-118 | as written, a `machineId` of None with a truthy `_id` makes each re-sync insert another copy |
| Sync.SyncRun | backend/app/services/sync_service.py:85-139 | inserted + updated is at most the number of records, and the collection grows by exactly the number inserted |
| Sync.DateSync | backend/app/services/sync_service.py:62-147 | the stats carry the day and the fetched count, inserted + updated <= fetched, `success` iff something was fetched; an empty fetch is `no_data` with no write |
| Sync.SyncRunStep | backend/app/services/sync_service.py:85-139 | one more record extends the run by its upsert under its prepared key |
| Sync.PrepareRecord | backend/app/services/sync_service.py:86-130 | the in-place steps of the loop body give the key and record `Prepare` describes, the record keeping its own `machineId` |
| Sync.SyncRecords | backend/app/services/sync_service.py:85-139 | the record loop leaves the collection and counters `SyncRun` gives |
| Sync.SyncMachinesForDate | backend/app/services/sync_service.py:62-147 | the collection and reply are those of `DateSync` |
| SyncRange.BatchesFromCover | backend/app/services/sync_service.py:174-175 | the batches from `start` on, one after another, are the dates from `start` on |
| SyncRange.BatchesFromSized | backend/app/services/sync_service.py:174-175 | every batch is non-empty and holds at most `batch_size` dates, all but the last exactly that many |
| SyncRange.BatchesPartition | backend/app/services/sync_service.py:174-175 | a positive size cuts the dates, in order and each once, into such batches; a negative size visits none |
| SyncRange.RunDates | backend/app/services/sync_service.py:174-180 | one result per day |
| SyncRange.TaskResult | backend/app/services/sync_service.py:179-180 | a day's task gives the exception's text, or that day's stats with `success` iff the API returned something |
| SyncRange.RunDatesResults | backend/app/services/sync_service.py:179-193 | result `i` is the result for day `i` |
| SyncRange.RunDatesAppend | backend/app/services/sync_service.py:174-180 | running two runs of days one after the other is running them together |
| SyncRange.RunDatesStep | backend/app/services/sync_service.py:179-180 | one more day extends the run by its task |
| SyncRange.AddUp | backend/app/services/sync_service.py:164-171 | `total_dates` is the number of days |
| SyncRange.AddUpSums | backend/app/services/sync_service.py:182-190 | `date_stats` is the per-day stats in order, and each total is the sum of its field over them |
| SyncRange.AddUpBound | backend/app/services/sync_service.py:187-189 | when every day keeps inserted + updated within fetched, so do the totals |
| SyncRange.AddUpFailed | backend/app/services/sync_service.py:183-193 | `failed_dates` holds exactly exception texts and the dates of days that did not succeed |
| SyncRange.AddUpKeepsFailure | backend/app/services/sync_service.py:183-193 | a failing result's contribution is among the failed dates |
| SyncRange.UpdateSyncMetadata | backend/app/services/sync_service.py:223-244 | the metadata collection after the upsert of the time, the range and the three sums under `sync_type = machines` |
| SyncRange.MetadataRecorded | backend/app/services/sync_service.py:223-244 | recording keeps a single metadata document, holding the range and the sums just recorded |
| SyncRange.RangeDatesSpan | backend/app/services/sync_service.py:155-162 | the range's days are every day from start through end, ascending, one text each |
| SyncRange.DateRangeSync | backend/app/services/sync_service.py:150-202 | the range sync completes or raises, and raising writes nothing |
| SyncRange.FailureReported | backend/app/services/sync_service.py:182-193 | a day that raised contributes its message, and a day with no data its date, to the failed dates |
| SyncRange.TotalsBound | backend/app/services/sync_service.py:182-193 | the totals keep inserted + updated within fetched |
| SyncRange.TotalsFailures | backend/app/services/sync_service.py:182-193 | every raised day's message and every no-data day's date are among the failed dates |
| SyncRange.RangeReport | backend/app/services/sync_service.py:150-202 | a positive batch size completes with the totals of the days' results, one per day of the range |
| SyncRange.RunTask | backend/app/services/sync_service.py:179-180 | a task changes the collection and returns as `DateTask` says |
| SyncRange.RunBatch | backend/app/services/sync_service.py:179-180 | a batch's tasks, run in order, give the results of `RunDates` |
| SyncRange.TallyResults | backend/app/services/sync_service.py:182-193 | the results loop adds each result to the totals |
| SyncRange.RunPositiveBatches | backend/app/services/sync_service.py:174-197 | the batch loop runs every day once, in order, and its totals are those of all the results |
| SyncRange.RunBatches | backend/app/services/sync_service.py:174-197 | the batch loop runs the flattened batches; a negative size runs none |
| SyncRange.SyncDateRange | backend/app/services/sync_service.py:150-202 | both collections and the reply are those of `DateRangeSync` |
| SyncRange.LastNDaysSpan | backend/app/services/sync_service.py:213-214 | from `days - 1` days before today through today is `days` days ending today |
| SyncRange.LastNDaysDates | backend/app/services/sync_service.py:211-220 | the range has `days` consecutive days ending today; none for `days < 1`; it overflows when today is 9999-12-31 |
| SyncRange.LastNDaysTotals | backend/app/services/sync_service.py:211-220 | it completes iff the first day exists and, for a non-empty range, today is not 9999-12-31, and then reports `days` days |
| SyncRange.SyncLastNDays | backend/app/services/sync_service.py:211-220 | both collections and the reply are those of `LastNDaysSync` |
| SyncRange.DistinctDates | backend/app/services/sync_service.py:264 | `distinct("date")` gives each stored date once, exactly the dates stored; it fails iff a date is not text |
| SyncRange.InsertKeepsOrder | backend/app/services/sync_service.py:265 | inserting before the first smaller element keeps the list newest first |
| SyncRange.InsertDescending | backend/app/services/sync_service.py:265 | one insertion gives the same elements plus `x`, still newest first |
| SyncRange.SortDescending | backend/app/services/sync_service.py:265 | `sorted(..., reverse=True)` is a permutation with no element smaller than a later one |
| SyncRange.SortedDistinct | backend/app/services/sync_service.py:264-265 | sorting distinct texts orders them strictly and loses none |
| SyncRange.GetAvailableDates | backend/app/services/sync_service.py:261-265 | the distinct stored dates, strictly newest first, exactly those stored; it fails iff a stored date is not text |

## Left out

- Network I/O. The external API calls (`fetch_machines_from_api`, the nested `fetch_machines_for_date`, the HTTP client and `get_machine_bearing_data`) are not modelled. Their answers are inputs: the `feed` map, and `ApiReply` values for `get_machine_detail`. A reply that is not valid JSON is an `ApiReply` with no JSON value.
- `fetch_machines_from_api` checks the shape of the API's response; that check is not modelled, and the fetched list is given directly.
- MongoDB plumbing. The connection, indexes, the query building of `fetch_machines_from_mongodb` and the aggregation pipelines of `stats.py` are not modelled. The chart's grouped counts are the input `DataMap`. The generated `_id` of an inserted document is not modelled. Matching is plain equality of values.
- A collection is a sequence of documents rather than a map from key to document. Records under different keys (id-based and composite) share one collection, and `update_one` acts on the first match.
- `asyncio.gather` runs a batch's tasks concurrently. The model runs them one after the other, in order, each on the collection the previous one left.
- Interleaving between the tasks of a batch is not modelled.
- A task that raises part-way is modelled as writing nothing. Upserts it made before the exception are not modelled.
- `asyncio.sleep` between batches and all logging are left out. They change no state.
- `datetime.utcnow()` is a parameter: `now`, or `today` for `sync_last_n_days`. Sync.Stamped gives every record of a day the same `synced_at`, while the source reads the clock once per record.
- `sync_today`, `get_sync_status` and the router in `backend/app/routers/sync.py` are not part of this model. They hold only a wall-clock freshness check and FastAPI wiring.
- The `dataUpdatedTime` range filter of `get_machines` is not modelled. It parses timestamps through several library fallbacks.
- Documents.PyStr: `str()` of a list or a dict is rendered only as its brackets. A filter compared against such a field, and the `str(_id)` or `str(machineId)` comparison of Machines.IdMatches in the detail lookup, are therefore not faithful for such values.
- Calendar.Format: a year below 1000 is written zero-padded to four digits. Some platforms' `strftime` do not pad.
- Calendar.ParseDate: only ASCII digits are read, and the locale-dependent parts of `strptime` are not modelled. Machines.WeekForm, and so Machines.ExpandDates, reads the `%Y` year and the `%W` week of `YYYY-Wnn` the same way; Python's `\d` also accepts other Unicode decimal digits.
- SyncRange.DistinctDates: MongoDB's `distinct` also lists each element of an array-valued `date` field. The model does not flatten arrays.
- SyncRange.GetAvailableDates: every non-text `date` value is modelled as making the sort raise. Python raises only when it actually compares text with a non-text value. A single non-text value, or values that are all numbers, would sort without error.
- Machines.MakeJsonSerializable: `isoformat()` and `str(ObjectId)` are opaque texts carried by the value. The `ImportError` fallback and a failing `str()` are not modelled.
- PyText.Lower: only ASCII and Latin-1 upper-case letters are lowered. Python's `str.lower()` also lowers other scripts (Greek, Cyrillic and more), and maps a few characters to two.
- Machines.MatchesFilters: filters are compared after PyText.Lower, so two texts that differ in case outside ASCII and Latin-1 compare unequal here and equal in Python.
- Machines.ApplyApiFilters: inherits the limit of Machines.MatchesFilters on case.
- Machines.StatusFilterHolds: inherits the limit of Machines.MatchesFilters on case.
- Machines.TypeName: an `Other` value does not carry its Python type, so its name in an internal-error message is `object`. A JSON reply never holds such a value.
- StatsFacts.MonthlyTotalsMatchDaily: takes as an assumption that the grouped counts hold no date before `date_from`. The `$gte` and `$lte` match at stats.py:65 compares the raw query text with the stored text, not the parsed dates. A `date_from` that `strptime` accepts but that is not zero-padded, such as `2024-1-5` or `2024-01- 5`, compares differently as text, so the assumption need not hold.
- The run of a day (Sync.SyncRun, Sync.DateSync, Sync.SyncRecords, Sync.SyncMachinesForDate) writes records as the source does, through Sync.Prepare. Sync.PrepareKeyed is the corrected record of the finding below and is used only by the lemmas about it.
- The `except Exception` of `get_machines` turns any error inside the handler into status 500. Only the parts of the handler listed above are modelled, so that wrapping is not. Machines.ApplyApiFilters and Machines.MachinesListResponse take lists of dicts, so a list element that is not a dict, which makes `m.get` raise and the handler answer 500, is excluded by their types.
- Sync.UpsertKeepsKey: one document per key is promised key by key, and only when at most one document matched that key before the upsert. Id-based and composite keys share the collection, so it does not hold across them (Sync.KeysOverlapAcrossRecords).

## Findings

| source | as written | input that shows it | evidently intended | confidence | as-written member | corrected member |
|---|---|---|---|---|---|---|
| backend/app/services/sync_service.py:106-118 | The key uses `machineId or _id`, but the `$set` record keeps the original `machineId`. When `machineId` is present but falsy, the stored document does not match its own key. | `{"_id": "a1", "machineId": None}`, synced twice for the same date | every re-sync of the same record merges into one document, changing only its `synced_at` | not executed | Sync.AsWrittenResyncDuplicates | Sync.ResyncMerges |
