/**
 Market snapshots: a property's own signals first, then its neighborhoods fill the gaps.
 The batched builder is proved to agree with the one-property builder.
 */
module MarketState {
  import opened Common
  import opened SignalStore
  import opened SignalQueries

  const SUBJECT_PROPERTY: string := "property"
  const SUBJECT_NEIGHBORHOOD: string := "neighborhood"

  datatype Property = Property(id: string, neighborhoodData: map<string, string>, wardCode: string,
                               jurisdiction: Option<string>, youtoChiiki: Option<Json>, hazardFlags: Payload)

  /** A scalar that is None in the source is absent from the map. */
  datatype Snapshot = Snapshot(propertyId: Option<string>, neighborhoodId: Option<string>, zipCode: Option<string>,
                               jurisdiction: Option<string>, zoningCode: Option<Json>,
                               scalars: map<ScalarField, real>, hazardFlags: Payload)

  function At<K, V>(m: map<K, V>, k: K): Option<V> {
    if k in m then Some(m[k]) else None
  }

  function OrElse<T>(first: Option<T>, second: Option<T>): Option<T> {
    if first.Some? then first else second
  }

  function ValueOf(row: Option<Signal>): Option<real> {
    if row.Some? then row.value.value else None
  }

  function KindName(kind: HazardKind): string {
    match kind
    case Flood => "flood"
    case Landslide => "landslide"
    case Liquefaction => "liquefaction"
  }

  function DetailName(kind: HazardKind): string { KindName(kind) + "_detail" }

  lemma NamesDistinct(a: HazardKind, b: HazardKind)
    ensures KindName(a) != DetailName(b)
    ensures a != b ==> KindName(a) != KindName(b) && DetailName(a) != DetailName(b)
  {
    assert |KindName(a)| == (match a case Flood => 5 case Landslide => 9 case Liquefaction => 12);
    assert |DetailName(b)| == |KindName(b)| + 7;
    if a == Liquefaction && b == Flood {
      assert DetailName(b)[0] == 'f';
    }
  }

  function Truth(j: Json): bool {
    match j
    case Null => false
    case Bool(b) => b
    case Num(n) => n != 0.0
    case Text(s) => s != ""
    case Obj(fields) => fields != map[]
  }

  /** payload.get("code") or payload.get("zoning_code"), unless that is null. */
  function ZoningOf(payload: Payload): Option<Json> {
    var code := At(payload, "code");
    var chosen := if code.Some? && Truth(code.value) then code else At(payload, "zoning_code");
    if chosen == Some(Null) then None else chosen
  }

  /** What one hazard row writes into the flags. */
  function Flags(row: Signal): Payload {
    match row.signalType
    case Hazard => row.payload
    case HazardOf(kind) =>
      (if row.value.Some? then map[KindName(kind) := Num(row.value.value)] else map[])
      + (if row.payload != map[] then map[DetailName(kind) := Obj(row.payload)] else map[])
    case _ => map[]
  }

  /** The two conditional assignments both loops make for a REINFOLIB hazard row. */
  function RecordHazard(flags: Payload, kind: HazardKind, row: Signal): Payload {
    var flags := if row.value.Some? then flags[KindName(kind) := Num(row.value.value)] else flags;
    if row.payload != map[] then flags[DetailName(kind) := Obj(row.payload)] else flags
  }

  lemma RecordIsMerge(flags: Payload, kind: HazardKind, row: Signal)
    requires row.signalType == HazardOf(kind)
    ensures RecordHazard(flags, kind, row) == flags + Flags(row)
  {
    hide KindName, DetailName;
  }

  // ---------------------------------------------------------------------------
  // Property-level signals
  // ---------------------------------------------------------------------------

  function AggregateOne(snap: Snapshot, row: Signal): Snapshot {
    match row.signalType
    case Scalar(field) => if row.value.Some? then snap.(scalars := snap.scalars[field := row.value.value]) else snap
    case Zoning => if ZoningOf(row.payload).Some? then snap.(zoningCode := ZoningOf(row.payload)) else snap
    case Hazard => snap.(hazardFlags := snap.hazardFlags + Flags(row))
    case HazardOf(_) => snap.(hazardFlags := snap.hazardFlags + Flags(row))
    case Other(_) => snap
  }

  function Aggregated(base: Snapshot, list: seq<Signal>): Snapshot {
    if list == [] then base
    else AggregateOne(Aggregated(base, list[..|list| - 1]), list[|list| - 1])
  }

  /** _aggregate. */
  method Aggregate(base: Snapshot, signals: seq<Signal>) returns (snap: Snapshot)
    ensures snap == Aggregated(base, signals)
  {
    hide RecordHazard, ZoningOf;
    snap := base;
    var hazardFlags := base.hazardFlags;
    for i := 0 to |signals|
      invariant snap.(hazardFlags := hazardFlags) == Aggregated(base, signals[..i])
    {
      assert signals[..i + 1][..i] == signals[..i];
      var signal := signals[i];
      match signal.signalType {
        case Scalar(field) =>
          if signal.value.Some? {
            snap := snap.(scalars := snap.scalars[field := signal.value.value]);
          }
        case Zoning =>
          var zoningCode := ZoningOf(signal.payload);
          if zoningCode.Some? {
            snap := snap.(zoningCode := zoningCode);
          }
        case Hazard =>
          hazardFlags := hazardFlags + signal.payload;
        case HazardOf(kind) =>
          RecordIsMerge(hazardFlags, kind, signal);
          hazardFlags := RecordHazard(hazardFlags, kind, signal);
        case Other(_) =>
      }
    }
    assert signals[..|signals|] == signals;
    snap := snap.(hazardFlags := hazardFlags);
  }

  // ---------------------------------------------------------------------------
  // Neighborhood-level signals
  // ---------------------------------------------------------------------------

  function FillOne(snap: Snapshot, row: Signal): Snapshot {
    match row.signalType
    case Scalar(field) =>
      if field !in snap.scalars && row.value.Some? then snap.(scalars := snap.scalars[field := row.value.value])
      else snap
    case HazardOf(kind) =>
      if KindName(kind) !in snap.hazardFlags then snap.(hazardFlags := snap.hazardFlags + Flags(row)) else snap
    case _ => snap
  }

  function Filled(snap: Snapshot, list: seq<Signal>): Snapshot {
    if list == [] then snap
    else FillOne(Filled(snap, list[..|list| - 1]), list[|list| - 1])
  }

  function FilledByAll(snap: Snapshot, lists: seq<seq<Signal>>): Snapshot {
    if lists == [] then snap
    else Filled(FilledByAll(snap, lists[..|lists| - 1]), lists[|lists| - 1])
  }

  /** The candidate keys in their order: neighborhood id, then zip, then ward. */
  function KeySources(prop: Property): seq<string> { [NeighborhoodId(prop), ZipCode(prop), prop.wardCode] }

  /** i is where a source first gives its key. */
  ghost predicate FirstGives(sources: seq<string>, i: int, key: string) {
    0 <= i < |sources| && sources[i] == key && forall j :: 0 <= j < i ==> sources[j] != key
  }

  /** The ordered, duplicate-free lookup keys. */
  function NeighborhoodKeys(prop: Property): (keys: seq<string>)
    ensures forall i :: 0 <= i < |keys| ==> keys[i] != ""
    ensures forall i, j :: 0 <= i < j < |keys| ==> keys[i] != keys[j]
  {
    var id, zip := NeighborhoodId(prop), ZipCode(prop);
    var keys := if id != "" then [id] else [];
    var keys := if zip != "" && zip !in keys then keys + [zip] else keys;
    if prop.wardCode != "" && prop.wardCode !in keys then keys + [prop.wardCode] else keys
  }

  /** The keys are the non-empty candidates, each once, in the order of their first candidates. */
  lemma KeysInSourceOrder(prop: Property)
    ensures forall key :: key in NeighborhoodKeys(prop) <==> key != "" && key in KeySources(prop)
    ensures forall i, j, a, b :: (0 <= i < j < |NeighborhoodKeys(prop)|
                                  && FirstGives(KeySources(prop), a, NeighborhoodKeys(prop)[i])
                                  && FirstGives(KeySources(prop), b, NeighborhoodKeys(prop)[j])) ==> a < b
  {
    hide NeighborhoodId, ZipCode;
    var sources, keys := KeySources(prop), NeighborhoodKeys(prop);
    assert sources[0] == NeighborhoodId(prop) && sources[1] == ZipCode(prop) && sources[2] == prop.wardCode;
    forall key ensures key in keys <==> key != "" && key in sources {
      assert key in sources <==> key == sources[0] || key == sources[1] || key == sources[2];
    }
  }

  function FirstTruthy(data: map<string, string>, first: string, second: string): string {
    if first in data && data[first] != "" then data[first]
    else if second in data then data[second]
    else ""
  }

  function NeighborhoodId(prop: Property): string { FirstTruthy(prop.neighborhoodData, "neighborhood_id", "id") }
  function ZipCode(prop: Property): string { FirstTruthy(prop.neighborhoodData, "zip_code", "zip") }

  /** A non-empty entry of the neighborhood data. */
  predicate Named(prop: Property, name: string, value: string) {
    name in prop.neighborhoodData && prop.neighborhoodData[name] == value && value != ""
  }

  /** "neighborhood_id" is looked at before "id", and "zip_code" before "zip", empty entries being passed over. */
  lemma NamesInSourceOrder(prop: Property, value: string)
    requires value != ""
    ensures NeighborhoodId(prop) == value <==>
            Named(prop, "neighborhood_id", value)
            || (Named(prop, "id", value) && forall other :: !Named(prop, "neighborhood_id", other))
    ensures ZipCode(prop) == value <==>
            Named(prop, "zip_code", value)
            || (Named(prop, "zip", value) && forall other :: !Named(prop, "zip_code", other))
    ensures NeighborhoodId(prop) == value ==> NeighborhoodKeys(prop) != [] && NeighborhoodKeys(prop)[0] == value
  {
    var data := prop.neighborhoodData;
    assert "neighborhood_id" in data && data["neighborhood_id"] != "" ==>
             Named(prop, "neighborhood_id", data["neighborhood_id"]);
    assert "zip_code" in data && data["zip_code"] != "" ==> Named(prop, "zip_code", data["zip_code"]);
  }

  function Truthy(s: string): Option<string> { if s == "" then None else Some(s) }

  function BaseSnapshot(prop: Property): Snapshot {
    Snapshot(Some(prop.id), Truthy(NeighborhoodId(prop)), Truthy(ZipCode(prop)), prop.jurisdiction,
             prop.youtoChiiki, map[], prop.hazardFlags)
  }

  function Composed(prop: Property, own: seq<Signal>, lists: seq<seq<Signal>>): Snapshot {
    FilledByAll(Aggregated(BaseSnapshot(prop), own), lists)
  }

  function ListsOf(byKey: map<string, seq<Signal>>, keys: seq<string>): (lists: seq<seq<Signal>>)
    ensures |lists| == |keys| && forall i :: 0 <= i < |keys| ==> lists[i] == GetOrEmpty(byKey, keys[i])
  {
    seq(|keys|, i requires 0 <= i < |keys| => GetOrEmpty(byKey, keys[i]))
  }

  /** The inner loop of _compose_snapshot: one neighborhood key fills what is still missing. */
  method FillGaps(before: Snapshot, signals: seq<Signal>) returns (snap: Snapshot)
    ensures snap == Filled(before, signals)
  {
    hide KindName, RecordHazard, Flags;
    snap := before;
    for i := 0 to |signals|
      invariant snap == Filled(before, signals[..i])
    {
      assert signals[..i + 1][..i] == signals[..i];
      var signal := signals[i];
      match signal.signalType {
        case Scalar(field) =>
          if field !in snap.scalars && signal.value.Some? {
            snap := snap.(scalars := snap.scalars[field := signal.value.value]);
          }
        case HazardOf(kind) =>
          if KindName(kind) !in snap.hazardFlags {
            RecordIsMerge(snap.hazardFlags, kind, signal);
            snap := snap.(hazardFlags := RecordHazard(snap.hazardFlags, kind, signal));
          }
        case _ =>
      }
    }
    assert signals[..|signals|] == signals;
  }

  /** _compose_snapshot. */
  method ComposeSnapshot(prop: Property, own: seq<Signal>, byKey: map<string, seq<Signal>>) returns (snap: Snapshot)
    ensures snap == Composed(prop, own, ListsOf(byKey, NeighborhoodKeys(prop)))
  {
    hide Aggregated, Filled, NeighborhoodKeys;
    var keys := NeighborhoodKeys(prop);
    ghost var lists := ListsOf(byKey, keys);
    snap := Aggregate(BaseSnapshot(prop), own);
    ghost var base := snap;
    for k := 0 to |keys|
      invariant snap == FilledByAll(base, lists[..k])
    {
      assert lists[..k + 1][..k] == lists[..k];
      snap := FillGaps(snap, GetOrEmpty(byKey, keys[k]));
    }
    assert lists[..|keys|] == lists;
  }

  // ---------------------------------------------------------------------------
  // What a snapshot of a table is
  // ---------------------------------------------------------------------------

  /** own and lists are readings of the table for the property and each of its keys. */
  ghost predicate IsReading(rows: seq<Signal>, prop: Property, own: seq<Signal>, lists: seq<seq<Signal>>) {
    var keys := NeighborhoodKeys(prop);
    && IsLatest(rows, SUBJECT_PROPERTY, prop.id, own)
    && |lists| == |keys|
    && forall i :: 0 <= i < |keys| ==> IsLatest(rows, SUBJECT_NEIGHBORHOOD, keys[i], lists[i])
  }

  ghost predicate IsSnapshot(rows: seq<Signal>, prop: Property, snap: Snapshot) {
    exists own, lists :: IsReading(rows, prop, own, lists) && snap == Composed(prop, own, lists)
  }

  /** build_snapshot. */
  method BuildSnapshot(rows: seq<Signal>, properties: map<string, Property>,
                       id: string) returns (snap: Option<Snapshot>)
    requires forall k :: k in properties ==> properties[k].id == k
    ensures id !in properties ==> snap == None
    ensures id in properties ==> snap.Some? && IsSnapshot(rows, properties[id], snap.value)
  {
    if id !in properties {
      return None;
    }
    var prop := properties[id];
    var keys := NeighborhoodKeys(prop);
    var own := LatestSignalsFor(rows, SUBJECT_PROPERTY, prop.id);
    var byKey: map<string, seq<Signal>> := map[];
    for k := 0 to |keys|
      invariant forall i :: 0 <= i < k ==> IsLatest(rows, SUBJECT_NEIGHBORHOOD, keys[i], GetOrEmpty(byKey, keys[i]))
    {
      var list := LatestSignalsFor(rows, SUBJECT_NEIGHBORHOOD, keys[k]);
      byKey := byKey[keys[k] := list];
    }
    var composed := ComposeSnapshot(prop, own, byKey);
    assert IsReading(rows, prop, own, ListsOf(byKey, keys));
    return Some(composed);
  }

  /** key is looked up for one of the first n properties. */
  ghost predicate KeyOfSome(props: seq<Property>, n: nat, key: string)
    requires n <= |props|
  {
    exists i :: 0 <= i < n && key in NeighborhoodKeys(props[i])
  }

  /** The keys of all properties, each once, and no others. */
  method CollectKeys(props: seq<Property>) returns (allKeys: seq<string>)
    ensures forall key :: key in allKeys <==> KeyOfSome(props, |props|, key)
    ensures forall i, j :: 0 <= i < j < |allKeys| ==> allKeys[i] != allKeys[j]
  {
    hide NeighborhoodKeys;
    allKeys := [];
    var seen: set<string> := {};
    for p := 0 to |props|
      invariant forall key :: key in seen <==> key in allKeys
      invariant forall i, j :: 0 <= i < j < |allKeys| ==> allKeys[i] != allKeys[j]
      invariant forall key :: key in allKeys <==> KeyOfSome(props, p, key)
    {
      var keys := NeighborhoodKeys(props[p]);
      for k := 0 to |keys|
        invariant forall key :: key in seen <==> key in allKeys
        invariant forall i, j :: 0 <= i < j < |allKeys| ==> allKeys[i] != allKeys[j]
        invariant forall key :: key in allKeys <==> KeyOfSome(props, p, key) || key in keys[..k]
      {
        assert keys[..k + 1] == keys[..k] + [keys[k]];
        if keys[k] !in seen {
          seen := seen + {keys[k]};
          allKeys := allKeys + [keys[k]];
        }
      }
      assert keys[..|keys|] == keys;
      forall key ensures KeyOfSome(props, p + 1, key) <==> KeyOfSome(props, p, key) || key in keys {
        if key in keys {
          assert key in NeighborhoodKeys(props[p]);
        }
      }
    }
  }

  /** What the batch makes of a property without an id: its own rows are never asked for. */
  ghost predicate IsKeySnapshot(rows: seq<Signal>, prop: Property, snap: Snapshot) {
    exists lists ::
      && |lists| == |NeighborhoodKeys(prop)|
      && (forall i :: 0 <= i < |lists| ==> IsLatest(rows, SUBJECT_NEIGHBORHOOD, NeighborhoodKeys(prop)[i], lists[i]))
      && snap == Composed(prop, [], lists)
  }

  /** snap is what the batch gives a property. */
  ghost predicate IsBulkSnapshot(rows: seq<Signal>, prop: Property, snap: Snapshot) {
    if prop.id == "" then IsKeySnapshot(rows, prop, snap) else IsSnapshot(rows, prop, snap)
  }

  /** build_snapshots: two queries for any number of properties. */
  method BuildSnapshots(rows: seq<Signal>, props: seq<Property>) returns (out: map<string, Snapshot>)
    requires forall i, j :: 0 <= i < j < |props| && props[i].id == props[j].id ==> props[i] == props[j]
    ensures forall id :: id in out <==> exists i :: 0 <= i < |props| && props[i].id == id
    ensures forall i :: 0 <= i < |props| ==> IsBulkSnapshot(rows, props[i], out[props[i].id])
  {
    hide NeighborhoodKeys, IsLatest, Composed, IsBulkSnapshot;
    out := map[];
    if props == [] {
      return;
    }
    var ids := seq(|props|, i requires 0 <= i < |props| => props[i].id);
    var own := LatestSignalsBulk(rows, SUBJECT_PROPERTY, ids);
    var allKeys := CollectKeys(props);
    var byKey := LatestSignalsBulk(rows, SUBJECT_NEIGHBORHOOD, allKeys);
    for p := 0 to |props|
      invariant forall id :: id in out <==> exists i :: 0 <= i < p && props[i].id == id
      invariant forall i :: 0 <= i < p ==> IsBulkSnapshot(rows, props[i], out[props[i].id])
    {
      var prop := props[p];
      var snap := ComposeSnapshot(prop, GetOrEmpty(own, prop.id), byKey);
      assert ids[p] == prop.id;
      forall i | 0 <= i < |NeighborhoodKeys(prop)|
        ensures IsLatest(rows, SUBJECT_NEIGHBORHOOD, NeighborhoodKeys(prop)[i],
                         GetOrEmpty(byKey, NeighborhoodKeys(prop)[i]))
      {
        assert KeyOfSome(props, |props|, NeighborhoodKeys(prop)[i]);
        assert NeighborhoodKeys(prop)[i] in SignalQueries.Truthy(allKeys);
      }
      BulkReading(rows, prop, GetOrEmpty(own, prop.id), ListsOf(byKey, NeighborhoodKeys(prop)));
      ghost var before := out;
      out := out[prop.id := snap];
      forall i | 0 <= i < p ensures IsBulkSnapshot(rows, props[i], out[props[i].id]) {
        if props[i].id == prop.id { assert props[i] == prop; } else { assert out[props[i].id] == before[props[i].id]; }
      }
    }
  }

  lemma BulkReading(rows: seq<Signal>, prop: Property, own: seq<Signal>, lists: seq<seq<Signal>>)
    requires if prop.id == "" then own == [] else IsLatest(rows, SUBJECT_PROPERTY, prop.id, own)
    requires |lists| == |NeighborhoodKeys(prop)|
    requires forall i :: 0 <= i < |lists| ==> IsLatest(rows, SUBJECT_NEIGHBORHOOD, NeighborhoodKeys(prop)[i], lists[i])
    ensures IsBulkSnapshot(rows, prop, Composed(prop, own, lists))
  {
    hide IsLatest, NeighborhoodKeys, Composed;
    assert prop.id != "" ==> IsReading(rows, prop, own, lists);
  }
}
