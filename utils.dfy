// src/agents/utils.py: the dict/list helpers and the JSON conversion used by
// the state snapshot.
module Utils {
  import opened Wrappers
  import opened Py
  import Clock

  /** `safe_get`: the default for non-dict data, an absent key, or a stored None. */
  function SafeGet(data: Obj, key: string, default: Obj): (r: Obj)
    ensures !data.PDict? ==> r == default
    ensures data.PDict? && Lookup(data.entries, PStr(key)) in {None, Some(PNone)} ==> r == default
    ensures data.PDict? && Lookup(data.entries, PStr(key)).Some? && Lookup(data.entries, PStr(key)).value != PNone ==>
      r == Lookup(data.entries, PStr(key)).value
  {
    if !data.PDict? then default
    else
      var value := GetS(data.entries, key, default);
      if value != PNone then value else default
  }

  /** Every field present in `d` with a non-None value. */
  predicate AllPresent(d: Entries, fields: seq<Obj>)
  {
    forall i :: 0 <= i < |fields| ==> Lookup(d, fields[i]).Some? && Lookup(d, fields[i]).value != PNone
  }

  /** `fields[i]` is the first field that is absent or None, and no unhashable field comes before it. */
  predicate FirstMissing(d: Entries, fields: seq<Obj>, i: int)
  {
    0 <= i < |fields| && !Unhashable(fields[i])
    && (Lookup(d, fields[i]).None? || Lookup(d, fields[i]).value == PNone)
    && forall j :: 0 <= j < i ==> !Unhashable(fields[j]) && Lookup(d, fields[j]).Some? && Lookup(d, fields[j]).value != PNone
  }

  /** The `all(...)` generator: fields are tested in order, an unhashable one raises TypeError when reached. */
  function AllFields(d: Entries, fields: seq<Obj>): (r: Result<bool, PyError>)
    ensures r == Ok(true) <==> AllPresent(d, fields) && forall i :: 0 <= i < |fields| ==> !Unhashable(fields[i])
    ensures r == Ok(false) <==> exists i :: FirstMissing(d, fields, i)
  {
    if fields == [] then Ok(true)
    else if Unhashable(fields[0]) then Err(TypeError)
    else if Lookup(d, fields[0]).None? || Lookup(d, fields[0]).value == PNone then
      assert FirstMissing(d, fields, 0);
      Ok(false)
    else
      var rest := AllFields(d, fields[1..]);
      assert forall i :: 1 <= i < |fields| ==> fields[i] == fields[1..][i - 1];
      if rest == Ok(false) then
        var i :| FirstMissing(d, fields[1..], i);
        assert FirstMissing(d, fields, i + 1);
        rest
      else
        assert forall i :: FirstMissing(d, fields, i) ==> FirstMissing(d, fields[1..], i - 1);
        rest
  }

  /** `validate_dict_fields`: false for non-dict data or a non-list field list. */
  function ValidateDictFields(data: Obj, requiredFields: Obj): (r: Result<bool, PyError>)
    ensures !data.PDict? || !requiredFields.PList? ==> r == Ok(false)
    ensures data.PDict? && requiredFields.PList? ==>
      (r == Ok(true) <==> AllPresent(data.entries, requiredFields.items)
                          && forall i :: 0 <= i < |requiredFields.items| ==> !Unhashable(requiredFields.items[i]))
    ensures data.PDict? && requiredFields == PList([]) ==> r == Ok(true)
  {
    if !data.PDict? then Ok(false)
    else if !requiredFields.PList? then Ok(false)
    else AllFields(data.entries, requiredFields.items)
  }

  /** Values `json.dump` accepts: no datetimes, objects, tuples or other values (dict keys are not examined). */
  predicate Serializable(o: Obj)
  {
    match o
    case PNone => true
    case PBool(_) => true
    case PInt(_) => true
    case PFloat(_) => true
    case PStr(_) => true
    case PList(items) => forall i :: 0 <= i < |items| ==> Serializable(items[i])
    case PDict(entries) => forall i :: 0 <= i < |entries| ==> Serializable(entries[i].1)
    case _ => false
  }

  /** Dict keys `json.dump` and `json.dumps` accepts. */
  predicate JsonKey(k: Obj)
  {
    k.PStr? || k.PInt? || k.PFloat? || k.PBool? || k.PNone?
  }

  /** Values `json.dump` and `json.dumps` writes without raising TypeError. */
  predicate Dumpable(o: Obj)
    decreases o
  {
    match o
    case PList(items) => forall i :: 0 <= i < |items| ==> Dumpable(items[i])
    case PTuple(items) => forall i :: 0 <= i < |items| ==> Dumpable(items[i])
    case PDict(entries) => forall i :: 0 <= i < |entries| ==> JsonKey(entries[i].0) && Dumpable(entries[i].1)
    case PDateTime(_) => false
    case PDate(_) => false
    case PObject(_) => false
    case POther(_) => false
    case _ => true
  }

  /**
   * `convert_to_serializable`: datetimes and dates become their text, an object
   * its converted attribute dict, lists and tuples are mapped elementwise, dicts
   * valuewise with keys kept, primitives kept, anything else stringified.
   */
  function Convert(o: Obj): (r: Obj)
    decreases o
  {
    match o
    case PDateTime(t) => PStr(Clock.Format(t))
    case PDate(d) => PStr(Clock.Format(d))
    case PObject(attrs) => PDict(seq(|attrs|, i requires 0 <= i < |attrs| => (PStr(attrs[i].0), Convert(attrs[i].1))))
    case PList(items) => PList(seq(|items|, i requires 0 <= i < |items| => Convert(items[i])))
    case PTuple(items) => PList(seq(|items|, i requires 0 <= i < |items| => Convert(items[i])))
    case PDict(entries) => PDict(seq(|entries|, i requires 0 <= i < |entries| => (entries[i].0, Convert(entries[i].1))))
    case POther(text) => PStr(text)
    case _ => o
  }

  /** The conversion's result is always serialisable. */
  lemma {:induction false} ConvertSerializable(o: Obj)
    ensures Serializable(Convert(o))
    decreases o
  {
    match o
    case PObject(attrs) =>
      forall i | 0 <= i < |attrs| { ConvertSerializable(attrs[i].1); }
    case PList(items) =>
      forall i | 0 <= i < |items| { ConvertSerializable(items[i]); }
    case PTuple(items) =>
      forall i | 0 <= i < |items| { ConvertSerializable(items[i]); }
    case PDict(entries) =>
      forall i | 0 <= i < |entries| { ConvertSerializable(entries[i].1); }
    case _ =>
  }

  /** Serialisable values are left as they are, so converting twice is converting once. */
  lemma {:induction false} ConvertIdentity(o: Obj)
    requires Serializable(o)
    ensures Convert(o) == o
    decreases o
  {
    match o
    case PList(items) =>
      forall i | 0 <= i < |items| ensures Convert(items[i]) == items[i] { ConvertIdentity(items[i]); }
      assert PList(seq(|items|, i requires 0 <= i < |items| => Convert(items[i]))).items == items;
    case PDict(entries) =>
      forall i | 0 <= i < |entries| ensures Convert(entries[i].1) == entries[i].1 { ConvertIdentity(entries[i].1); }
      assert seq(|entries|, i requires 0 <= i < |entries| => (entries[i].0, Convert(entries[i].1))) == entries;
    case _ =>
  }

  lemma ConvertIdempotent(o: Obj)
    ensures Convert(Convert(o)) == Convert(o)
  {
    ConvertSerializable(o);
    ConvertIdentity(Convert(o));
  }

  /** `merge_dicts`: fold `update` over the dict arguments, left to right, skipping the rest. */
  function MergeDicts(dicts: seq<Obj>): (r: Entries)
    decreases |dicts|
  {
    if dicts == [] then []
    else
      var acc := MergeDicts(dicts[..|dicts| - 1]);
      var last := dicts[|dicts| - 1];
      if last.PDict? then Update(acc, last.entries) else acc
  }

  /** Python dicts have unique keys. */
  predicate WellFormedDicts(dicts: seq<Obj>)
  {
    forall i :: 0 <= i < |dicts| && dicts[i].PDict? ==> UniqueKeys(dicts[i].entries)
  }

  /** The value of `k` in the last dict argument that has it. */
  function LastValue(dicts: seq<Obj>, k: Obj): (r: Option<Obj>)
    ensures r.None? <==> forall i :: 0 <= i < |dicts| && dicts[i].PDict? ==> !HasKey(dicts[i].entries, k)
    decreases |dicts|
  {
    if dicts == [] then None
    else
      var last := dicts[|dicts| - 1];
      assert forall i :: 0 <= i < |dicts| - 1 ==> dicts[..|dicts| - 1][i] == dicts[i];
      if last.PDict? && HasKey(last.entries, k) then
        assert Lookup(last.entries, k).Some?;
        Lookup(last.entries, k)
      else LastValue(dicts[..|dicts| - 1], k)
  }

  /** Later dicts override earlier ones; non-dict arguments are ignored. */
  lemma {:induction false} MergeLookup(dicts: seq<Obj>, k: Obj)
    requires WellFormedDicts(dicts)
    ensures Lookup(MergeDicts(dicts), k) == LastValue(dicts, k)
    decreases |dicts|
  {
    if dicts != [] {
      var init := dicts[..|dicts| - 1];
      assert WellFormedDicts(init) by {
        assert forall i :: 0 <= i < |init| ==> init[i] == dicts[i];
      }
      MergeLookup(init, k);
      var last := dicts[|dicts| - 1];
      if last.PDict? {
        UpdateLookup(MergeDicts(init), last.entries, k);
      }
    }
  }

  function Flatten<T>(chunks: seq<seq<T>>): seq<T>
  {
    if chunks == [] then [] else chunks[0] + Flatten(chunks[1..])
  }

  /** `[items[i:i + size] for i in range(0, len(items), size)]` for a positive size. */
  function Chunks<T>(items: seq<T>, size: nat): (r: seq<seq<T>>)
    requires size > 0
    ensures Flatten(r) == items
    ensures forall i :: 0 <= i < |r| ==> 0 < |r[i]| <= size
    ensures forall i :: 0 <= i < |r| - 1 ==> |r[i]| == size
    ensures items == [] <==> r == []
    decreases |items|
  {
    if items == [] then []
    else if |items| <= size then
      assert Flatten([items]) == items + Flatten([]);
      [items]
    else
      var rest := Chunks(items[size..], size);
      assert ([items[..size]] + rest)[1..] == rest;
      assert items == items[..size] + items[size..];
      [items[..size]] + rest
  }

  /** `chunk_list`: ValueError for a non-positive size. */
  function ChunkList<T>(items: seq<T>, chunkSize: int): (r: Result<seq<seq<T>>, PyError>)
    ensures chunkSize <= 0 <==> r == Err(ValueError)
    ensures r.Ok? ==> Flatten(r.value) == items
    ensures r.Ok? ==> forall i :: 0 <= i < |r.value| ==> 0 < |r.value[i]| <= chunkSize
    ensures r.Ok? ==> forall i :: 0 <= i < |r.value| - 1 ==> |r.value[i]| == chunkSize
  {
    if chunkSize <= 0 then Err(ValueError) else Ok(Chunks(items, chunkSize))
  }

  /** What `json.dump` writes and `json.load` reads back unchanged: serialisable values under string keys. */
  predicate JsonValue(o: Obj)
  {
    match o
    case PNone => true
    case PBool(_) => true
    case PInt(_) => true
    case PFloat(_) => true
    case PStr(_) => true
    case PList(items) => forall i :: 0 <= i < |items| ==> JsonValue(items[i])
    case PDict(entries) => forall i :: 0 <= i < |entries| ==> entries[i].0.PStr? && JsonValue(entries[i].1)
    case _ => false
  }

  lemma {:induction false} JsonValueSerializable(o: Obj)
    requires JsonValue(o)
    ensures Serializable(o)
    decreases o
  {
    match o
    case PList(items) =>
      forall i | 0 <= i < |items| ensures Serializable(items[i]) { JsonValueSerializable(items[i]); }
    case PDict(entries) =>
      forall i | 0 <= i < |entries| ensures Serializable(entries[i].1) { JsonValueSerializable(entries[i].1); }
    case _ =>
  }

  /** The attribute dict of an enum member: value, name and owning class. */
  predicate EnumAttrs(attrs: seq<(string, Obj)>)
  {
    |attrs| == 3 && attrs[0].0 == "_value_" && attrs[1].0 == "_name_" && attrs[2].0 == "__objclass__"
  }

  /** The conversion with enum members written as their value, as the snapshot reader expects. */
  function ConvertFixed(o: Obj): (r: Obj)
    decreases o
  {
    match o
    case PDateTime(t) => PStr(Clock.Format(t))
    case PDate(d) => PStr(Clock.Format(d))
    case PObject(attrs) =>
      if EnumAttrs(attrs) then ConvertFixed(attrs[0].1)
      else PDict(seq(|attrs|, i requires 0 <= i < |attrs| => (PStr(attrs[i].0), ConvertFixed(attrs[i].1))))
    case PList(items) => PList(seq(|items|, i requires 0 <= i < |items| => ConvertFixed(items[i])))
    case PTuple(items) => PList(seq(|items|, i requires 0 <= i < |items| => ConvertFixed(items[i])))
    case PDict(entries) => PDict(seq(|entries|, i requires 0 <= i < |entries| => (entries[i].0, ConvertFixed(entries[i].1))))
    case POther(text) => PStr(text)
    case _ => o
  }

  lemma {:induction false} ConvertFixedSerializable(o: Obj)
    ensures Serializable(ConvertFixed(o))
    decreases o
  {
    match o
    case PObject(attrs) =>
      if EnumAttrs(attrs) {
        ConvertFixedSerializable(attrs[0].1);
      } else {
        forall i | 0 <= i < |attrs| { ConvertFixedSerializable(attrs[i].1); }
      }
    case PList(items) =>
      forall i | 0 <= i < |items| { ConvertFixedSerializable(items[i]); }
    case PTuple(items) =>
      forall i | 0 <= i < |items| { ConvertFixedSerializable(items[i]); }
    case PDict(entries) =>
      forall i | 0 <= i < |entries| { ConvertFixedSerializable(entries[i].1); }
    case _ =>
  }

  lemma {:induction false} ConvertFixedIdentity(o: Obj)
    requires Serializable(o)
    ensures ConvertFixed(o) == o
    decreases o
  {
    match o
    case PList(items) =>
      forall i | 0 <= i < |items| ensures ConvertFixed(items[i]) == items[i] { ConvertFixedIdentity(items[i]); }
      assert PList(seq(|items|, i requires 0 <= i < |items| => ConvertFixed(items[i]))).items == items;
    case PDict(entries) =>
      forall i | 0 <= i < |entries| ensures ConvertFixed(entries[i].1) == entries[i].1 { ConvertFixedIdentity(entries[i].1); }
      assert seq(|entries|, i requires 0 <= i < |entries| => (entries[i].0, ConvertFixed(entries[i].1))) == entries;
    case _ =>
  }

  /** Every dict key inside `o`, at any depth, is a string. */
  predicate StrKeys(o: Obj)
    decreases o
  {
    match o
    case PObject(attrs) => forall i :: 0 <= i < |attrs| ==> StrKeys(attrs[i].1)
    case PList(items) => forall i :: 0 <= i < |items| ==> StrKeys(items[i])
    case PTuple(items) => forall i :: 0 <= i < |items| ==> StrKeys(items[i])
    case PDict(entries) => forall i :: 0 <= i < |entries| ==> entries[i].0.PStr? && StrKeys(entries[i].1)
    case _ => true
  }

  /** With string keys throughout, the corrected conversion gives a JSON value. */
  lemma {:induction false} ConvertFixedJson(o: Obj)
    requires StrKeys(o)
    ensures JsonValue(ConvertFixed(o))
    decreases o
  {
    match o
    case PObject(attrs) =>
      if EnumAttrs(attrs) {
        ConvertFixedJson(attrs[0].1);
      } else {
        forall i | 0 <= i < |attrs| { ConvertFixedJson(attrs[i].1); }
      }
    case PList(items) =>
      forall i | 0 <= i < |items| { ConvertFixedJson(items[i]); }
    case PTuple(items) =>
      forall i | 0 <= i < |items| { ConvertFixedJson(items[i]); }
    case PDict(entries) =>
      forall i | 0 <= i < |entries| { ConvertFixedJson(entries[i].1); }
    case _ =>
  }
}
