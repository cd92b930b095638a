// The documents the backend passes around: JSON-like machine records as they come from the
// external API and as they sit in MongoDB, with Python's truthiness and `str()` on their
// values, and the required-field defaults that both the machines router and the sync
// service fill in.
module Documents {
  import opened Base
  import opened PyText

  /** A value held in a machine record. `Float` carries Python's `repr` of the number;
      `ObjectId` and `DateTime` are the BSON types MongoDB hands back; `Other` is any other
      Python object, represented by its `str()`. */
  datatype Value =
    | Null
    | Bool(b: bool)
    | Int(i: int)
    | Float(repr: string)
    | Str(s: string)
    | List(items: seq<Value>)
    | Dict(fields: map<string, Value>)
    | ObjectId(hex: string)
    | DateTime(iso: string)
    | Other(text: string)

  /** A record: a Python dict with string keys. */
  type Doc = map<string, Value>

  /** Python's `bool(v)`. */
  predicate Truthy(v: Value)
  {
    match v
    case Null => false
    case Bool(b) => b
    case Int(i) => i != 0
    case Float(r) => r != "0.0" && r != "-0.0"
    case Str(s) => s != ""
    case List(xs) => |xs| > 0
    case Dict(m) => |m| > 0
    case ObjectId(_) => true
    case DateTime(_) => true
    case Other(_) => true
  }

  /** Python's `a or b`. */
  function Or(a: Value, b: Value): (r: Value)
    ensures Truthy(a) ==> r == a
    ensures !Truthy(a) ==> r == b
  {
    if Truthy(a) then a else b
  }

  /** Python's `d.get(key, default)`. */
  function Get(d: Doc, key: string, default: Value): (r: Value)
    ensures key in d ==> r == d[key]
    ensures key !in d ==> r == default
  {
    if key in d then d[key] else default
  }

  /** `str(datetime)`: the ISO form with a blank in place of the `T`. */
  function DateTimeStr(iso: string): (r: string)
    ensures |r| == |iso|
    ensures forall i :: 0 <= i < |iso| ==> r[i] == (if iso[i] == 'T' then ' ' else iso[i])
  {
    seq(|iso|, i requires 0 <= i < |iso| => if iso[i] == 'T' then ' ' else iso[i])
  }

  /** Python's `str(v)`. Lists and dicts are rendered only as their brackets. */
  function PyStr(v: Value): string
  {
    match v
    case Null => "None"
    case Bool(b) => if b then "True" else "False"
    case Int(i) => IntToString(i)
    case Float(r) => r
    case Str(s) => s
    case List(_) => "[...]"
    case Dict(_) => "{...}"
    case ObjectId(h) => h
    case DateTime(iso) => DateTimeStr(iso)
    case Other(t) => t
  }

  // ---------------------------------------------------------------- required fields

  /** The fields every machine record must carry, with their defaults, in the order both
      the machines router and the sync service fill them. */
  const RequiredFields: seq<(string, string)> := [
    ("customerId", "N/A"),
    ("statusName", "N/A"),
    ("areaId", "N/A"),
    ("type", "N/A"),
    ("machineType", "N/A"),
    ("dataUpdatedTime", "N/A"),
    ("name", "")
  ]

  const RequiredKeys: set<string> :=
    {"customerId", "statusName", "areaId", "type", "machineType", "dataUpdatedTime", "name"}

  /** The stamp and key fields the sync service sets are none of the required fields. */
  lemma StampKeysNotRequired()
    ensures "date" !in RequiredKeys && "synced_at" !in RequiredKeys
    ensures "_id" !in RequiredKeys && "machineId" !in RequiredKeys
  {
  }

  /** The default a required field takes. */
  function DefaultFor(key: string): string
  {
    if key == "name" then "" else "N/A"
  }

  /** `m[field] in [None, ""]`. */
  predicate Blank(v: Value) { v == Null || v == Str("") }

  /** A field is filled with its default when it is missing, None or the empty string. */
  predicate NeedsDefault(m: Doc, key: string)
  {
    key !in m || Blank(m[key])
  }

  /** `if field not in m or m[field] in [None, ""]: m[field] = default`. */
  function SetDefault(m: Doc, field: string, default: string): Doc
  {
    if NeedsDefault(m, field) then m[field := Str(default)] else m
  }

  /** The defaults of `RequiredFields[k..]` applied, in order, to `m`. */
  function DefaultsFrom(m: Doc, k: nat): Doc
    requires k <= |RequiredFields|
    decreases |RequiredFields| - k
  {
    if k == |RequiredFields| then m
    else DefaultsFrom(SetDefault(m, RequiredFields[k].0, RequiredFields[k].1), k + 1)
  }

  /** A record after the required-field loop has run over it. */
  function WithDefaults(m: Doc): Doc
  {
    DefaultsFrom(m, 0)
  }

  /** What the required-field loop promises, stated without the loop: every required field is
      present; a required field that was missing, None or "" holds its default; every other
      value, and every value that was already set, is unchanged. */
  predicate DefaultedFrom(m: Doc, r: Doc)
  {
    && r.Keys == m.Keys + RequiredKeys
    && forall key :: key in r ==>
         r[key] == (if key in RequiredKeys && NeedsDefault(m, key) then Str(DefaultFor(key)) else m[key])
  }

  /** The names of `RequiredFields[k..]`. */
  function KeysFrom(k: nat): set<string>
    requires k <= |RequiredFields|
    decreases |RequiredFields| - k
  {
    if k == |RequiredFields| then {} else {RequiredFields[k].0} + KeysFrom(k + 1)
  }

  /** A name none of `RequiredFields[k..]` carries is not among their names. */
  lemma {:induction false} KeysFromAbsent(x: string, k: nat)
    requires k <= |RequiredFields|
    requires forall j :: k <= j < |RequiredFields| ==> RequiredFields[j].0 != x
    ensures x !in KeysFrom(k)
    decreases |RequiredFields| - k
  {
    if k < |RequiredFields| {
      KeysFromAbsent(x, k + 1);
    }
  }

  /** The names of all the required fields. */
  lemma KeysFromZero()
    ensures KeysFrom(0) == RequiredKeys
  {
    assert KeysFrom(6) == {"name"};
    assert KeysFrom(3) == {"type", "machineType", "dataUpdatedTime", "name"};
  }

  lemma FieldNamesDistinct()
    ensures forall i, j :: 0 <= i < j < |RequiredFields| ==> RequiredFields[i].0 != RequiredFields[j].0
  {
  }

  lemma {:induction false} DefaultsFromSpec(m: Doc, k: nat)
    requires k <= |RequiredFields|
    ensures DefaultsFrom(m, k).Keys == m.Keys + KeysFrom(k)
    ensures forall key :: key in DefaultsFrom(m, k) ==>
      DefaultsFrom(m, k)[key] ==
        (if key in KeysFrom(k) && NeedsDefault(m, key) then Str(DefaultFor(key)) else m[key])
    decreases |RequiredFields| - k
  {
    if k < |RequiredFields| {
      var (f, d) := RequiredFields[k];
      var m' := SetDefault(m, f, d);
      var r := DefaultsFrom(m, k);
      assert r == DefaultsFrom(m', k + 1);
      DefaultsFromSpec(m', k + 1);
      FieldNamesDistinct();
      KeysFromAbsent(f, k + 1);
      assert d == DefaultFor(f);
      forall key | key in r
        ensures r[key] == (if key in KeysFrom(k) && NeedsDefault(m, key) then Str(DefaultFor(key)) else m[key])
      {
        if key != f {
          assert NeedsDefault(m', key) == NeedsDefault(m, key);
        }
      }
    }
  }

  /** The recursive fold meets its declarative description. */
  lemma WithDefaultsSpec(m: Doc)
    ensures DefaultedFrom(m, WithDefaults(m))
  {
    DefaultsFromSpec(m, 0);
    KeysFromZero();
  }

  /** The record the required-field loop leaves, described field by field. */
  function Defaulted(m: Doc): Doc
  {
    map key | key in m.Keys + RequiredKeys ::
      if key in RequiredKeys && NeedsDefault(m, key) then Str(DefaultFor(key)) else m[key]
  }

  /** The description meets the field-by-field promise. */
  lemma DefaultedSpec(m: Doc)
    ensures DefaultedFrom(m, Defaulted(m))
  {
  }

  /** The fold and the description are the same record. */
  lemma WithDefaultsIsDefaulted(m: Doc)
    ensures WithDefaults(m) == Defaulted(m)
  {
    WithDefaultsSpec(m);
    DefaultedSpec(m);
  }

  /** Filling defaults twice is filling them once. */
  lemma WithDefaultsIdempotent(m: Doc)
    ensures WithDefaults(WithDefaults(m)) == WithDefaults(m)
  {
    var r := Defaulted(m);
    WithDefaultsIsDefaulted(m);
    WithDefaultsIsDefaulted(r);
    var r2 := Defaulted(r);
    DefaultedSpec(m);
    DefaultedSpec(r);
    forall key | key in r ensures key in r2 && r2[key] == r[key] {
      if key in RequiredKeys && NeedsDefault(r, key) {
        assert r[key] == Str(DefaultFor(key));
      }
    }
    assert r2.Keys == r.Keys;
  }

  /** The required-field loop, one record at a time. */
  method FillDefaults(m: Doc) returns (r: Doc)
    ensures r == Defaulted(m)
  {
    r := m;
    var k := 0;
    while k < |RequiredFields|
      invariant 0 <= k <= |RequiredFields|
      invariant DefaultsFrom(r, k) == WithDefaults(m)
    {
      var (field, default) := RequiredFields[k];
      if field !in r || r[field] == Null || r[field] == Str("") {
        r := r[field := Str(default)];
      }
      k := k + 1;
    }
    WithDefaultsIsDefaulted(m);
  }
}
