// The sync service: machine records fetched for a day are stamped with that day, given their
// required-field defaults, stripped of their `_id`, and upserted into the `machines`
// collection under a key; a range of days is synced batch by batch and its statistics are
// added up and recorded in `sync_metadata`.
module Sync {
  import opened Base
  import opened Calendar
  import opened Documents

  // ---------------------------------------------------------------- the collection

  /** MongoDB's equality filter `{k: v, ...}`: every field of the filter holds its value in
      the document; a null value also matches a missing field. */
  predicate Matches(d: Doc, filter: Doc)
  {
    forall k :: k in filter ==> if k in d then d[k] == filter[k] else filter[k] == Null
  }

  /** The position of the first document matching `filter`, or `|docs|` when none does. */
  function FirstMatch(docs: seq<Doc>, filter: Doc): (i: nat)
    ensures i <= |docs|
    ensures i < |docs| ==> Matches(docs[i], filter)
    ensures forall j :: 0 <= j < i ==> !Matches(docs[j], filter)
  {
    if docs == [] then 0
    else if Matches(docs[0], filter) then 0
    else 1 + FirstMatch(docs[1..], filter)
  }

  /** What `update_one` reports: whether it inserted a document (`upserted_id` is set) and
      whether it changed an existing one (`modified_count > 0`). */
  datatype UpdateResult = UpdateResult(upserted: bool, modified: bool)

  /** `update_one(filter, {"$set": fields}, upsert=True)`: the first matching document gets
      the fields laid over it; with no match, the filter's fields and then `fields` make up a
      new document at the end. */
  function Upsert(docs: seq<Doc>, filter: Doc, fields: Doc): (r: (seq<Doc>, UpdateResult))
  {
    var i := FirstMatch(docs, filter);
    if i < |docs| then (docs[i := docs[i] + fields], UpdateResult(false, docs[i] + fields != docs[i]))
    else (docs + [filter + fields], UpdateResult(true, false))
  }

  /** A MongoDB collection, its documents in natural order. */
  class Collection {
    var docs: seq<Doc>

    constructor (initial: seq<Doc>)
      ensures docs == initial
    {
      docs := initial;
    }

    method UpdateOne(filter: Doc, fields: Doc) returns (res: UpdateResult)
      modifies this
      ensures (docs, res) == Upsert(old(docs), filter, fields)
    {
      var i := 0;
      while i < |docs| && !Matches(docs[i], filter)
        invariant i <= FirstMatch(docs, filter)
      {
        i := i + 1;
      }
      if i < |docs| {
        var merged := docs[i] + fields;
        res := UpdateResult(false, merged != docs[i]);
        docs := docs[i := merged];
      } else {
        docs := docs + [filter + fields];
        res := UpdateResult(true, false);
      }
    }
  }

  /** An upsert inserts exactly when nothing matches, touches at most one document, and
      leaves a document that holds every field it set. */
  lemma UpsertEffect(docs: seq<Doc>, filter: Doc, fields: Doc)
    ensures var (after, res) := Upsert(docs, filter, fields);
      && (res.upserted <==> forall j :: 0 <= j < |docs| ==> !Matches(docs[j], filter))
      && (res.upserted ==> !res.modified && after == docs + [filter + fields])
      && (!res.upserted ==>
            && |after| == |docs|
            && exists i :: 0 <= i < |docs| && Matches(docs[i], filter) &&
                 after == docs[i := docs[i] + fields] && (res.modified <==> after[i] != docs[i]))
  {
    var i := FirstMatch(docs, filter);
    if i < |docs| {
      assert Matches(docs[i], filter);
    }
  }

  /** The filter and the fields set agree wherever both name a field. */
  predicate Consistent(filter: Doc, fields: Doc)
  {
    forall k :: k in filter && k in fields ==> filter[k] == fields[k]
  }

  /** At most one document matches `filter`. */
  predicate AtMostOne(docs: seq<Doc>, filter: Doc)
  {
    forall i, j :: 0 <= i < j < |docs| && Matches(docs[i], filter) ==> !Matches(docs[j], filter)
  }

  /** When the fields set agree with the filter, the document an upsert leaves matches the
      filter, so the key then names exactly one document, and a second upsert with the same
      filter and fields merges into it: it inserts nothing and changes nothing. */
  lemma UpsertKeepsKey(docs: seq<Doc>, filter: Doc, fields: Doc)
    requires Consistent(filter, fields)
    requires AtMostOne(docs, filter)
    ensures var (after, _) := Upsert(docs, filter, fields);
      && AtMostOne(after, filter)
      && (exists i :: 0 <= i < |after| && Matches(after[i], filter))
      && Upsert(after, filter, fields) == (after, UpdateResult(false, false))
  {
    var (after, res) := Upsert(docs, filter, fields);
    var i := FirstMatch(docs, filter);
    var merged := if i < |docs| then docs[i] + fields else filter + fields;
    assert Matches(merged, filter);
    assert after[i] == merged;
    forall j | 0 <= j < |after| && j != i
      ensures !Matches(after[j], filter)
    {
      assert after[j] == docs[j];
      if j > i {
        assert Matches(docs[i], filter);
      }
    }
    assert forall j :: 0 <= j < i ==> after[j] == docs[j];
    assert FirstMatch(after, filter) == i;
    assert merged + fields == merged;
    assert after[i := merged] == after;
  }

  // ---------------------------------------------------------------- one record

  /** How one fetched record is written: the key it is upserted under and the fields set. */
  datatype Prepared = Prepared(filter: Doc, record: Doc)

  /** `machine["date"] = date_str; machine["synced_at"] = now`, then the required-field
      defaults. */
  function Stamped(m: Doc, dateStr: string, now: Value): Doc
  {
    Defaulted(m["date" := Str(dateStr)]["synced_at" := now])
  }

  /** `machine.get("machineId") or original_id`, read after stamping. */
  function MachineKey(m: Doc, dateStr: string, now: Value): Value
  {
    var s := Stamped(m, dateStr, now);
    Or(Get(s, "machineId", Null), Get(s, "_id", Null))
  }

  /** The key a record without an id is upserted under. */
  function CompositeFilter(record: Doc, dateStr: string): Doc
  {
    map["date" := Str(dateStr),
        "customerId" := Get(record, "customerId", Null),
        "name" := Get(record, "name", Null),
        "areaId" := Get(record, "areaId", Null)]
  }

  /** The loop body of `sync_machines_for_date`: with a truthy id the key is
      `{"machineId": machine_id, "date": date_str}`, and the record set is the stamped record
      without `_id`, carrying whatever `machineId` it came with. */
  function Prepare(m: Doc, dateStr: string, now: Value): (p: Prepared)
    ensures "_id" !in p.record
  {
    var s := Stamped(m, dateStr, now);
    var machineId := MachineKey(m, dateStr, now);
    var record := s - {"_id"};
    if Truthy(machineId) then Prepared(map["machineId" := machineId, "date" := Str(dateStr)], record)
    else Prepared(CompositeFilter(record, dateStr), record)
  }

  /** The loop body with the key written into the record as well: the record set carries
      `machineId = machine_id`, so the stored document always matches its key. */
  function PrepareKeyed(m: Doc, dateStr: string, now: Value): (p: Prepared)
    ensures "_id" !in p.record
  {
    var s := Stamped(m, dateStr, now);
    var machineId := MachineKey(m, dateStr, now);
    var record := s - {"_id"};
    if Truthy(machineId) then
      Prepared(map["machineId" := machineId, "date" := Str(dateStr)], record["machineId" := machineId])
    else Prepared(CompositeFilter(record, dateStr), record)
  }

  /** A record keyed by its own fields agrees with its key. */
  lemma CompositeConsistent(record: Doc, dateStr: string)
    requires "date" in record && record["date"] == Str(dateStr)
    ensures Consistent(CompositeFilter(record, dateStr), record)
  {
  }

  /** The key is `machineId`, or the original `_id` when `machineId` is missing or falsy. */
  lemma MachineKeyIs(m: Doc, dateStr: string, now: Value)
    ensures MachineKey(m, dateStr, now) == Or(Get(m, "machineId", Null), Get(m, "_id", Null))
  {
    StampKeysNotRequired();
    StampedAt(m, dateStr, now, "machineId");
    StampedAt(m, dateStr, now, "_id");
  }

  /** One field of a stamped record: `synced_at` and `date` hold the stamp, a required field
      its default when it was missing, None or "", and every other field what it came with. */
  lemma StampedAt(m: Doc, dateStr: string, now: Value, k: string)
    ensures var s := Stamped(m, dateStr, now);
      && (k in s <==> k in m || k in RequiredKeys || k == "date" || k == "synced_at")
      && (k in s ==> s[k] == if k == "synced_at" then now
                             else if k == "date" then Str(dateStr)
                             else if k in RequiredKeys && NeedsDefault(m, k) then Str(DefaultFor(k))
                             else m[k])
  {
    var t := m["date" := Str(dateStr)]["synced_at" := now];
    DefaultedSpec(t);
    StampKeysNotRequired();
    if k in RequiredKeys {
      assert NeedsDefault(t, k) == NeedsDefault(m, k);
    }
  }

  /** One field of the record written: the stamped record's field, with `_id` gone. */
  lemma RecordAt(m: Doc, dateStr: string, now: Value, k: string)
    ensures var r := Prepare(m, dateStr, now).record;
      var s := Stamped(m, dateStr, now);
      && (k in r <==> k != "_id" && k in s)
      && (k in r ==> r[k] == s[k])
  {
  }

  /** The record written carries `date_str` and `synced_at`, has no `_id`, and no field the
      fetched record, the required fields and the stamp do not account for. */
  lemma PreparedRecordStamp(m: Doc, dateStr: string, now: Value)
    ensures var r := Prepare(m, dateStr, now).record;
      && "date" in r && r["date"] == Str(dateStr)
      && "synced_at" in r && r["synced_at"] == now
      && "_id" !in r
      && (forall k :: k in r ==> k in m || k in RequiredKeys || k == "date" || k == "synced_at")
  {
    var r := Prepare(m, dateStr, now).record;
    RecordAt(m, dateStr, now, "date");
    StampedAt(m, dateStr, now, "date");
    RecordAt(m, dateStr, now, "synced_at");
    StampedAt(m, dateStr, now, "synced_at");
    forall k | k in r
      ensures k in m || k in RequiredKeys || k == "date" || k == "synced_at"
    {
      RecordAt(m, dateStr, now, k);
      StampedAt(m, dateStr, now, k);
    }
  }

  /** Every required field of the record written holds its default when the fetched record
      had it missing, None or "", and its fetched value otherwise. */
  lemma PreparedRequired(m: Doc, dateStr: string, now: Value)
    ensures var r := Prepare(m, dateStr, now).record;
      forall k :: k in RequiredKeys ==>
        k in r && r[k] == if NeedsDefault(m, k) then Str(DefaultFor(k)) else m[k]
  {
    var r := Prepare(m, dateStr, now).record;
    StampKeysNotRequired();
    forall k | k in RequiredKeys
      ensures k in r && r[k] == if NeedsDefault(m, k) then Str(DefaultFor(k)) else m[k]
    {
      RecordAt(m, dateStr, now, k);
      StampedAt(m, dateStr, now, k);
    }
  }

  /** Every other fetched field except the stamp and `_id`, `machineId` among them, is
      written unchanged. */
  lemma PreparedKept(m: Doc, dateStr: string, now: Value)
    ensures var r := Prepare(m, dateStr, now).record;
      forall k :: k in m && k !in RequiredKeys && k !in {"date", "synced_at", "_id"} ==>
        k in r && r[k] == m[k]
  {
    var r := Prepare(m, dateStr, now).record;
    forall k | k in m && k !in RequiredKeys && k !in {"date", "synced_at", "_id"}
      ensures k in r && r[k] == m[k]
    {
      RecordAt(m, dateStr, now, k);
      StampedAt(m, dateStr, now, k);
    }
  }

  /** The key is `machineId` (or else `_id`) with the date when that is truthy, and the date
      with `customerId`, `name` and `areaId` otherwise. */
  lemma PreparedKey(m: Doc, dateStr: string, now: Value)
    ensures var p := Prepare(m, dateStr, now);
      var key := Or(Get(m, "machineId", Null), Get(m, "_id", Null));
      && (Truthy(key) ==> p.filter == map["machineId" := key, "date" := Str(dateStr)])
      && (!Truthy(key) ==> p.filter == CompositeFilter(p.record, dateStr))
  {
    MachineKeyIs(m, dateStr, now);
  }

  /** As written, the record agrees with its key exactly when the fetched record has no
      `machineId` field, a truthy one, or no truthy id at all: a present but falsy `machineId`
      next to a truthy `_id` makes the record contradict its key. */
  lemma PreparedConsistentIff(m: Doc, dateStr: string, now: Value)
    ensures var p := Prepare(m, dateStr, now);
      var key := Or(Get(m, "machineId", Null), Get(m, "_id", Null));
      Consistent(p.filter, p.record) <==> "machineId" !in m || Truthy(m["machineId"]) || !Truthy(key)
  {
    var p := Prepare(m, dateStr, now);
    var key := Or(Get(m, "machineId", Null), Get(m, "_id", Null));
    MachineKeyIs(m, dateStr, now);
    StampKeysNotRequired();
    RecordAt(m, dateStr, now, "date");
    StampedAt(m, dateStr, now, "date");
    RecordAt(m, dateStr, now, "machineId");
    StampedAt(m, dateStr, now, "machineId");
    if !Truthy(key) {
      CompositeConsistent(p.record, dateStr);
    } else if "machineId" in m && !Truthy(m["machineId"]) {
      assert p.record["machineId"] != p.filter["machineId"];
    }
  }

  /** The corrected record is the one written with `machineId` set to the key when the key is
      truthy; the key itself is the same. */
  lemma KeyedRecord(m: Doc, dateStr: string, now: Value)
    ensures var p := Prepare(m, dateStr, now);
      var q := PrepareKeyed(m, dateStr, now);
      var key := Or(Get(m, "machineId", Null), Get(m, "_id", Null));
      && q.filter == p.filter
      && q.record == if Truthy(key) then p.record["machineId" := key] else p.record
  {
    MachineKeyIs(m, dateStr, now);
  }

  /** With the key written into the record, the record always agrees with its key. */
  lemma KeyedConsistent(m: Doc, dateStr: string, now: Value)
    ensures Consistent(PrepareKeyed(m, dateStr, now).filter, PrepareKeyed(m, dateStr, now).record)
  {
    StampKeysNotRequired();
    StampedAt(m, dateStr, now, "date");
    var record := Stamped(m, dateStr, now) - {"_id"};
    assert "date" in record && record["date"] == Str(dateStr);
    if !Truthy(MachineKey(m, dateStr, now)) {
      CompositeConsistent(record, dateStr);
    }
  }

  /** Stamping at another time changes the stamped record in `synced_at` alone. */
  lemma StampedRestamped(m: Doc, dateStr: string, now1: Value, now2: Value)
    ensures Stamped(m, dateStr, now2) == Stamped(m, dateStr, now1)["synced_at" := now2]
  {
    var s1, s2 := Stamped(m, dateStr, now1), Stamped(m, dateStr, now2);
    forall k
      ensures (k in s2 <==> k in s1["synced_at" := now2])
      ensures k in s2 ==> s2[k] == s1["synced_at" := now2][k]
    {
      StampedAt(m, dateStr, now1, k);
      StampedAt(m, dateStr, now2, k);
    }
  }

  /** Syncing the same record again at another time gives the same key and the same record
      but for its `synced_at` stamp. */
  lemma KeyedRestamped(m: Doc, dateStr: string, now1: Value, now2: Value)
    ensures var p1 := PrepareKeyed(m, dateStr, now1);
      var p2 := PrepareKeyed(m, dateStr, now2);
      && p2.filter == p1.filter
      && "synced_at" !in p1.filter
      && "synced_at" in p1.record && p1.record["synced_at"] == now1
      && p2.record == p1.record["synced_at" := now2]
  {
    var s1 := Stamped(m, dateStr, now1);
    StampedRestamped(m, dateStr, now1, now2);
    StampedAt(m, dateStr, now1, "synced_at");
    MachineKeyIs(m, dateStr, now1);
    MachineKeyIs(m, dateStr, now2);
    var r1 := s1 - {"_id"};
    assert Stamped(m, dateStr, now2) - {"_id"} == r1["synced_at" := now2];
    assert CompositeFilter(r1["synced_at" := now2], dateStr) == CompositeFilter(r1, dateStr);
    var key := MachineKey(m, dateStr, now1);
    if Truthy(key) {
      assert r1["synced_at" := now2]["machineId" := key] == r1["machineId" := key]["synced_at" := now2];
    }
  }

  /** A second upsert under the same key, whose fields differ from the first only in
      `synced_at`, finds the document the first left: it inserts nothing, keeps the key naming
      one document, changes that document in `synced_at` alone, and reports a change exactly
      when the stamp differs. */
  lemma ResyncOnce(docs: seq<Doc>, filter: Doc, r1: Doc, now2: Value)
    requires Consistent(filter, r1)
    requires AtMostOne(docs, filter)
    requires "synced_at" in r1 && "synced_at" !in filter
    ensures var (after1, _) := Upsert(docs, filter, r1);
      var (after2, res2) := Upsert(after1, filter, r1["synced_at" := now2]);
      && !res2.upserted
      && AtMostOne(after2, filter)
      && (exists i :: 0 <= i < |after1| && after2 == after1[i := after1[i]["synced_at" := now2]])
      && (res2.modified <==> r1["synced_at"] != now2)
  {
    var (after1, _) := Upsert(docs, filter, r1);
    UpsertKeepsKey(docs, filter, r1);
    var i := FirstMatch(after1, filter);
    assert i < |after1|;
    var d := after1[i];
    assert d + r1 == d;
    assert "synced_at" in d && d["synced_at"] == r1["synced_at"];
    var r2 := r1["synced_at" := now2];
    assert d + r2 == d["synced_at" := now2];
    var after2 := after1[i := d["synced_at" := now2]];
    assert Upsert(after1, filter, r2) == (after2, UpdateResult(false, d["synced_at" := now2] != d));
    assert d["synced_at" := now2] != d <==> r1["synced_at"] != now2;
    assert Matches(after2[i], filter);
    forall j | 0 <= j < |after2|
      ensures Matches(after2[j], filter) <==> Matches(after1[j], filter)
    {
      if j != i {
        assert after2[j] == after1[j];
      }
    }
  }

  /** With the key written into the record, re-syncing a record, at the same or at a later
      time, merges into the document its first sync left: the second upsert inserts nothing,
      its key names exactly one document, and that document changes in `synced_at` alone. */
  lemma ResyncMerges(docs: seq<Doc>, m: Doc, dateStr: string, now1: Value, now2: Value)
    requires AtMostOne(docs, PrepareKeyed(m, dateStr, now1).filter)
    ensures var p1 := PrepareKeyed(m, dateStr, now1);
      var p2 := PrepareKeyed(m, dateStr, now2);
      var (after1, _) := Upsert(docs, p1.filter, p1.record);
      var (after2, res2) := Upsert(after1, p2.filter, p2.record);
      && !res2.upserted
      && AtMostOne(after2, p2.filter)
      && (exists i :: 0 <= i < |after1| && after2 == after1[i := after1[i]["synced_at" := now2]])
      && (res2.modified <==> now1 != now2)
  {
    var p1 := PrepareKeyed(m, dateStr, now1);
    KeyedConsistent(m, dateStr, now1);
    KeyedRestamped(m, dateStr, now1, now2);
    ResyncOnce(docs, p1.filter, p1.record, now2);
  }

  /** A fetched record that names `customerId`, `name` and `areaId` writes them unchanged
      into its corrected record, next to the date. */
  lemma KeyedNamesKept(m: Doc, dateStr: string, now: Value, c: string, n: string, a: string)
    requires c != "" && n != "" && a != ""
    requires "customerId" in m && m["customerId"] == Str(c)
    requires "name" in m && m["name"] == Str(n)
    requires "areaId" in m && m["areaId"] == Str(a)
    ensures var r := PrepareKeyed(m, dateStr, now).record;
      && "date" in r && r["date"] == Str(dateStr)
      && "customerId" in r && r["customerId"] == Str(c)
      && "name" in r && r["name"] == Str(n)
      && "areaId" in r && r["areaId"] == Str(a)
  {
    StampKeysNotRequired();
    StampedAt(m, dateStr, now, "date");
    StampedAt(m, dateStr, now, "customerId");
    StampedAt(m, dateStr, now, "name");
    StampedAt(m, dateStr, now, "areaId");
  }

  /** A record with a non-empty text `machineId` is keyed by it, and the corrected record
      carries it. */
  lemma KeyedById(m: Doc, dateStr: string, now: Value, x: string)
    requires x != "" && "machineId" in m && m["machineId"] == Str(x)
    ensures var p := PrepareKeyed(m, dateStr, now);
      && p.filter == map["machineId" := Str(x), "date" := Str(dateStr)]
      && "machineId" in p.record && p.record["machineId"] == Str(x)
  {
    MachineKeyIs(m, dateStr, now);
  }

  /** A record with neither `machineId` nor `_id` is keyed by its date, `customerId`, `name`
      and `areaId`. */
  lemma KeyedByNames(m: Doc, dateStr: string, now: Value, c: string, n: string, a: string)
    requires "machineId" !in m && "_id" !in m
    requires c != "" && n != "" && a != ""
    requires "customerId" in m && m["customerId"] == Str(c)
    requires "name" in m && m["name"] == Str(n)
    requires "areaId" in m && m["areaId"] == Str(a)
    ensures PrepareKeyed(m, dateStr, now).filter
      == map["date" := Str(dateStr), "customerId" := Str(c), "name" := Str(n), "areaId" := Str(a)]
  {
    MachineKeyIs(m, dateStr, now);
    KeyedNamesKept(m, dateStr, now, c, n, a);
  }

  /** The document a fresh upsert stores under an id key, with the names given, matches the
      composite key of those names. */
  lemma StoredMatchesNames(p: Prepared, dateStr: string, c: string, n: string, a: string)
    requires "date" in p.record && p.record["date"] == Str(dateStr)
    requires "customerId" in p.record && p.record["customerId"] == Str(c)
    requires "name" in p.record && p.record["name"] == Str(n)
    requires "areaId" in p.record && p.record["areaId"] == Str(a)
    ensures Matches(p.filter + p.record,
                    map["date" := Str(dateStr), "customerId" := Str(c), "name" := Str(n), "areaId" := Str(a)])
  {
  }

  /** Two fresh upserts whose stored documents differ in `machineId` both insert, and a key
      that both stored documents match then names two documents. */
  lemma TwoFreshInserts(p1: Prepared, p2: Prepared, g: Doc)
    requires "machineId" in p1.record && "machineId" in p2.filter
    requires p1.record["machineId"] != p2.filter["machineId"]
    requires Matches(p1.filter + p1.record, g) && Matches(p2.filter + p2.record, g)
    ensures var after := Upsert(Upsert([], p1.filter, p1.record).0, p2.filter, p2.record).0;
      && |after| == 2
      && Matches(after[0], g) && Matches(after[1], g)
      && !AtMostOne(after, g)
  {
    var doc1 := p1.filter + p1.record;
    assert Upsert([], p1.filter, p1.record).0 == [doc1];
    assert !Matches(doc1, p2.filter);
    assert FirstMatch([doc1], p2.filter) == 1;
    assert Upsert([doc1], p2.filter, p2.record).0 == [doc1, p2.filter + p2.record];
  }

  /** One document per key holds key by key only: id-keyed and composite-keyed records share
      the collection. Two records with different ids and the same date, `customerId`, `name`
      and `areaId`, synced into an empty collection, leave two documents, and the composite
      key of an id-less record with those names matches both, even with the corrected
      record. */
  lemma KeysOverlapAcrossRecords(m1: Doc, m2: Doc, f: Doc, dateStr: string, now: Value,
                                 x1: string, x2: string, c: string, n: string, a: string)
    requires x1 != "" && x2 != "" && x1 != x2
    requires "machineId" in m1 && m1["machineId"] == Str(x1)
    requires "machineId" in m2 && m2["machineId"] == Str(x2)
    requires "machineId" !in f && "_id" !in f
    requires c != "" && n != "" && a != ""
    requires "customerId" in m1 && m1["customerId"] == Str(c) && "customerId" in m2 && m2["customerId"] == Str(c)
    requires "name" in m1 && m1["name"] == Str(n) && "name" in m2 && m2["name"] == Str(n)
    requires "areaId" in m1 && m1["areaId"] == Str(a) && "areaId" in m2 && m2["areaId"] == Str(a)
    requires "customerId" in f && f["customerId"] == Str(c)
    requires "name" in f && f["name"] == Str(n)
    requires "areaId" in f && f["areaId"] == Str(a)
    ensures var p1 := PrepareKeyed(m1, dateStr, now);
      var p2 := PrepareKeyed(m2, dateStr, now);
      var q := PrepareKeyed(f, dateStr, now);
      var after := Upsert(Upsert([], p1.filter, p1.record).0, p2.filter, p2.record).0;
      && |after| == 2
      && Matches(after[0], q.filter) && Matches(after[1], q.filter)
      && !AtMostOne(after, q.filter)
  {
    var p1, p2 := PrepareKeyed(m1, dateStr, now), PrepareKeyed(m2, dateStr, now);
    KeyedById(m1, dateStr, now, x1);
    KeyedById(m2, dateStr, now, x2);
    KeyedByNames(f, dateStr, now, c, n, a);
    KeyedNamesKept(m1, dateStr, now, c, n, a);
    KeyedNamesKept(m2, dateStr, now, c, n, a);
    StoredMatchesNames(p1, dateStr, c, n, a);
    StoredMatchesNames(p2, dateStr, c, n, a);
    TwoFreshInserts(p1, p2, PrepareKeyed(f, dateStr, now).filter);
  }

  /** As written, a record whose `machineId` is present but None, with a truthy `_id`, is
      keyed by its `_id` while its stored `machineId` stays None: the stored document never
      matches the key, so every re-sync inserts another copy. */
  lemma AsWrittenResyncDuplicates(now: Value)
    ensures var m := map["_id" := Str("a1"), "machineId" := Null];
      var p := Prepare(m, "2024-01-01", now);
      var (once, r1) := Upsert([], p.filter, p.record);
      var (twice, r2) := Upsert(once, p.filter, p.record);
      r1.upserted && r2.upserted && |twice| == 2
  {
    var m: Doc := map["_id" := Str("a1"), "machineId" := Null];
    var p := Prepare(m, "2024-01-01", now);
    MachineKeyIs(m, "2024-01-01", now);
    StampKeysNotRequired();
    StampedAt(m, "2024-01-01", now, "machineId");
    assert p.filter == map["machineId" := Str("a1"), "date" := Str("2024-01-01")];
    assert p.record["machineId"] == Null;
    var stored := p.filter + p.record;
    assert stored["machineId"] == Null;
    assert !Matches(stored, p.filter);
  }

  // ---------------------------------------------------------------- one day

  /** The statistics `sync_machines_for_date` returns for a day. */
  datatype DateStats = DateStats(date: string, fetched: nat, inserted: nat, updated: nat, status: string)

  /** The collection and the two counters part-way through a day's records. */
  datatype RunState = RunState(docs: seq<Doc>, inserted: nat, updated: nat)

  /** Writing the records `ms` in order: each upsert that created a document counts as
      inserted, each that changed an existing one as updated. Each upsert counts at most once,
      and the collection grows by exactly the number inserted. */
  function SyncRun(docs: seq<Doc>, ms: seq<Doc>, dateStr: string, now: Value): (r: RunState)
    ensures r.inserted + r.updated <= |ms|
    ensures |r.docs| == |docs| + r.inserted
  {
    if ms == [] then RunState(docs, 0, 0)
    else
      var before := SyncRun(docs, ms[..|ms| - 1], dateStr, now);
      var p := Prepare(ms[|ms| - 1], dateStr, now);
      Tally(before, Upsert(before.docs, p.filter, p.record))
  }

  /** The run after one more upsert: the collection it leaves, and its result counted. */
  function Tally(before: RunState, upsert: (seq<Doc>, UpdateResult)): RunState
  {
    RunState(upsert.0,
             before.inserted + (if upsert.1.upserted then 1 else 0),
             before.updated + (if !upsert.1.upserted && upsert.1.modified then 1 else 0))
  }

  /** What syncing one day does to the collection and what it reports: nothing fetched means
      `no_data` and no write; otherwise `success`, with every fetched record counted at most
      once as inserted or updated, and one new document per insert. */
  function DateSync(docs: seq<Doc>, dateStr: string, ms: seq<Doc>, now: Value): (r: (seq<Doc>, DateStats))
    ensures r.1.date == dateStr && r.1.fetched == |ms|
    ensures r.1.inserted + r.1.updated <= r.1.fetched
    ensures r.1.status == "success" <==> ms != []
    ensures ms == [] ==> r == (docs, DateStats(dateStr, 0, 0, 0, "no_data"))
    ensures |r.0| == |docs| + r.1.inserted
  {
    if ms == [] then (docs, DateStats(dateStr, 0, 0, 0, "no_data"))
    else
      var run := SyncRun(docs, ms, dateStr, now);
      (run.docs, DateStats(dateStr, |ms|, run.inserted, run.updated, "success"))
  }

  /** One more record extends the run by its upsert under its prepared key. */
  lemma SyncRunStep(docs: seq<Doc>, ms: seq<Doc>, i: nat, dateStr: string, now: Value)
    requires i < |ms|
    ensures var before := SyncRun(docs, ms[..i], dateStr, now);
      var p := Prepare(ms[i], dateStr, now);
      SyncRun(docs, ms[..i + 1], dateStr, now) == Tally(before, Upsert(before.docs, p.filter, p.record))
  {
    assert ms[..i + 1][..i] == ms[..i];
  }

  /** The loop body up to the upsert: stamp the record, fill its defaults, take its key and
      drop its `_id`. */
  method PrepareRecord(m: Doc, dateStr: string, now: Value) returns (filter: Doc, record: Doc)
    ensures Prepared(filter, record) == Prepare(m, dateStr, now)
  {
    var machine := m["date" := Str(dateStr)]["synced_at" := now];
    machine := FillDefaults(machine);
    var originalId := Get(machine, "_id", Null);
    var machineId := Or(Get(machine, "machineId", Null), originalId);
    machine := machine - {"_id"};
    record := machine;
    if Truthy(machineId) {
      filter := map["machineId" := machineId, "date" := Str(dateStr)];
    } else {
      filter := CompositeFilter(machine, dateStr);
    }
  }

  /** The `for machine in machines` loop: write every record, counting inserts and updates. */
  method SyncRecords(coll: Collection, dateStr: string, machines: seq<Doc>, now: Value)
    returns (inserted: nat, updated: nat)
    modifies coll
    ensures RunState(coll.docs, inserted, updated) == SyncRun(old(coll.docs), machines, dateStr, now)
  {
    ghost var start := coll.docs;
    inserted, updated := 0, 0;
    var i := 0;
    while i < |machines|
      invariant 0 <= i <= |machines|
      invariant SyncRun(start, machines[..i], dateStr, now) == RunState(coll.docs, inserted, updated)
    {
      SyncRunStep(start, machines, i, dateStr, now);
      var filter, machine := PrepareRecord(machines[i], dateStr, now);
      var res := coll.UpdateOne(filter, machine);
      if res.upserted {
        inserted := inserted + 1;
      } else if res.modified {
        updated := updated + 1;
      }
      i := i + 1;
    }
    assert machines[..i] == machines;
  }

  /** `sync_machines_for_date(db, date_str)` given what the API returned for the day. */
  method SyncMachinesForDate(coll: Collection, dateStr: string, machines: seq<Doc>, now: Value)
    returns (r: DateStats)
    modifies coll
    ensures (coll.docs, r) == DateSync(old(coll.docs), dateStr, machines, now)
  {
    if machines == [] {
      return DateStats(dateStr, 0, 0, 0, "no_data");
    }
    var inserted, updated := SyncRecords(coll, dateStr, machines, now);
    r := DateStats(dateStr, |machines|, inserted, updated, "success");
  }
}
