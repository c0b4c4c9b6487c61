/**
 The market_signals table and its day-keyed idempotent writer, refined to a last-write-wins
 map over (signal type, subject, UTC day).
 */
module SignalStore {
  import opened Common

  datatype Json = Null | Bool(b: bool) | Num(n: real) | Text(s: string) | Obj(fields: map<string, Json>)
  type Payload = map<string, Json>

  /** The scalar signal types; each one feeds the snapshot field of the same name. */
  datatype ScalarField =
    | TransitScore | SchoolScore | SafetyScore | MedianRent | MedianSalePrice | InventoryPressure
    | MedianUnitPrice | LandPricePsm | AppraisedValuePsm

  datatype HazardKind = Flood | Landslide | Liquefaction

  /** The signal_type column; Other holds every name no reader maps. */
  datatype SignalType = Scalar(field: ScalarField) | Zoning | Hazard | HazardOf(kind: HazardKind) | Other(name: string)

  /** A row of market_signals; observedAt is naive UTC in microseconds. */
  datatype Signal = Signal(signalType: SignalType, subjectType: string, subjectId: string, value: Option<real>,
                           payload: Payload, source: Option<string>, observedAt: int)

  /** A timestamp as a provider hands it over: naive, or with an offset from UTC. */
  datatype Stamp = Naive(us: int) | Aware(us: int, offset: int)

  datatype Write = Write(signalType: SignalType, subjectType: string, subjectId: string, observedAt: Stamp,
                         value: Option<real>, payload: Option<Payload>, source: Option<string>)

  datatype Key = Key(signalType: SignalType, subjectType: string, subjectId: string, day: int)

  datatype LookupError = MultipleResultsFound

  const DAY: int := 86_400_000_000

  function AsNaiveUtc(stamp: Stamp): int {
    match stamp
    case Naive(us) => us
    case Aware(us, offset) => us - offset
  }

  function Day(us: int): int { us / DAY }

  function DayStart(us: int): int { Day(us) * DAY }

  /** 23:59:59.999999 of the same day. */
  function DayEnd(us: int): int { DayStart(us) + DAY - 1 }

  lemma SameDay(us: int, other: int)
    ensures DayStart(us) <= other <= DayEnd(us) <==> Day(other) == Day(us)
  {
  }

  function KeyOf(row: Signal): Key {
    Key(row.signalType, row.subjectType, row.subjectId, Day(row.observedAt))
  }

  function KeyOfWrite(w: Write): Key {
    Key(w.signalType, w.subjectType, w.subjectId, Day(AsNaiveUtc(w.observedAt)))
  }

  /** The row a write leaves behind; a write without a source keeps the one on record. */
  function Written(existing: Option<Signal>, w: Write): (row: Signal)
    ensures KeyOf(row) == KeyOfWrite(w)
  {
    Signal(w.signalType, w.subjectType, w.subjectId, w.value,
           if w.payload.Some? then w.payload.value else map[],
           if w.source.Some? then w.source else if existing.Some? then existing.value.source else None,
           AsNaiveUtc(w.observedAt))
  }

  /** At most one row per key. */
  ghost predicate Unique(rows: seq<Signal>) {
    forall i, j :: 0 <= i < j < |rows| ==> KeyOf(rows[i]) != KeyOf(rows[j])
  }

  /** The first row stored under a key. */
  function Find(rows: seq<Signal>, key: Key): (i: nat)
    ensures i <= |rows|
    ensures i < |rows| ==> KeyOf(rows[i]) == key
    ensures forall j :: 0 <= j < i ==> KeyOf(rows[j]) != key
  {
    if rows == [] then 0
    else if KeyOf(rows[0]) == key then 0
    else 1 + Find(rows[1..], key)
  }

  function Lookup(rows: seq<Signal>, key: Key): Option<Signal> {
    var i := Find(rows, key);
    if i < |rows| then Some(rows[i]) else None
  }

  function Upserted(rows: seq<Signal>, w: Write): seq<Signal> {
    var i := Find(rows, KeyOfWrite(w));
    if i < |rows| then rows[i := Written(Some(rows[i]), w)] else rows + [Written(None, w)]
  }

  class SignalTable {
    var rows: seq<Signal>

    constructor ()
      ensures rows == []
    {
      rows := [];
    }

    /** upsert_signal. A second matching row makes the lookup raise, which leaves the table alone. */
    method Upsert(w: Write) returns (r: Result<Signal, LookupError>)
      modifies this
      ensures (exists i, j :: 0 <= i < j < |old(rows)| && KeyOf(old(rows)[i]) == KeyOfWrite(w) == KeyOf(old(rows)[j]))
              ==> r.Err? && rows == old(rows)
      ensures !(exists i, j :: 0 <= i < j < |old(rows)| && KeyOf(old(rows)[i]) == KeyOfWrite(w) == KeyOf(old(rows)[j]))
              ==> r == Ok(Written(Lookup(old(rows), KeyOfWrite(w)), w)) && rows == Upserted(old(rows), w)
      ensures Unique(old(rows)) ==> r.Ok? && Unique(rows)
    {
      if Unique(rows) {
        UpsertRefinesMap(rows, w, KeyOfWrite(w));
      }
      var observedAt := AsNaiveUtc(w.observedAt);
      var dayStart, dayEnd := DayStart(observedAt), DayEnd(observedAt);
      var existing := |rows|;
      for i := 0 to |rows|
        invariant rows == old(rows) && 0 <= existing <= |rows|
        invariant existing == |rows| || existing < i
        invariant existing == |rows| ==> forall j :: 0 <= j < i ==> KeyOf(rows[j]) != KeyOfWrite(w)
        invariant existing < i ==>
                    && KeyOf(rows[existing]) == KeyOfWrite(w)
                    && forall j :: 0 <= j < i && j != existing ==> KeyOf(rows[j]) != KeyOfWrite(w)
      {
        var row := rows[i];
        SameDay(observedAt, row.observedAt);
        if row.signalType == w.signalType && row.subjectType == w.subjectType && row.subjectId == w.subjectId
           && dayStart <= row.observedAt <= dayEnd {
          if existing < |rows| {
            assert KeyOf(rows[existing]) == KeyOfWrite(w) == KeyOf(rows[i]);
            return Err(MultipleResultsFound);
          }
          existing := i;
        }
      }
      if existing < |rows| {
        var row := rows[existing];
        row := row.(value := w.value, payload := if w.payload.Some? then w.payload.value else map[],
                    observedAt := observedAt, source := if w.source.Some? then w.source else row.source);
        rows := rows[existing := row];
        return Ok(row);
      }
      var row := Signal(w.signalType, w.subjectType, w.subjectId, w.value,
                        if w.payload.Some? then w.payload.value else map[], w.source, observedAt);
      rows := rows + [row];
      return Ok(row);
    }
  }

  // ---------------------------------------------------------------------------
  // Every run of writes
  // ---------------------------------------------------------------------------

  function Run(rows: seq<Signal>, writes: seq<Write>): seq<Signal> {
    if writes == [] then rows
    else Upserted(Run(rows, writes[..|writes| - 1]), writes[|writes| - 1])
  }

  /** One upsert on the table is one assignment on the key map. */
  lemma UpsertRefinesMap(rows: seq<Signal>, w: Write, key: Key)
    requires Unique(rows)
    ensures Unique(Upserted(rows, w))
    ensures Lookup(Upserted(rows, w), key) ==
            if key == KeyOfWrite(w) then Some(Written(Lookup(rows, key), w)) else Lookup(rows, key)
  {
    var i := Find(rows, KeyOfWrite(w));
    var after := Upserted(rows, w);
    assert forall j :: 0 <= j < |rows| ==> KeyOf(after[j]) == KeyOf(rows[j]);
    var k := Find(rows, key);
    if k < |rows| {
      assert KeyOf(after[k]) == key;
      assert Find(after, key) == k;
    } else if key == KeyOfWrite(w) {
      assert KeyOf(after[|rows|]) == key;
      assert Find(after, key) == |rows|;
    } else {
      assert Find(after, key) == |after|;
    }
  }

  /** From an empty table no run of writes ever stores two rows under one key. */
  lemma {:induction false} RunKeepsUnique(rows: seq<Signal>, writes: seq<Write>)
    requires Unique(rows)
    ensures Unique(Run(rows, writes))
  {
    if writes != [] {
      RunKeepsUnique(rows, writes[..|writes| - 1]);
      UpsertRefinesMap(Run(rows, writes[..|writes| - 1]), writes[|writes| - 1], KeyOfWrite(writes[0]));
    }
  }

  /** The last write of a batch under a key. */
  function LastWrite(writes: seq<Write>, key: Key): Option<Write> {
    if writes == [] then None
    else if KeyOfWrite(writes[|writes| - 1]) == key then Some(writes[|writes| - 1])
    else LastWrite(writes[..|writes| - 1], key)
  }

  /** The last source a batch names under a key. */
  function LastSource(writes: seq<Write>, key: Key): Option<string> {
    if writes == [] then None
    else
      var w := writes[|writes| - 1];
      if KeyOfWrite(w) == key && w.source.Some? then w.source
      else LastSource(writes[..|writes| - 1], key)
  }

  function SourceOf(row: Option<Signal>): Option<string> {
    if row.Some? then row.value.source else None
  }

  /** What a batch leaves under a key: the last write, with the last source anyone named. */
  function LastWriteWins(before: Option<Signal>, writes: seq<Write>, key: Key): Option<Signal> {
    match LastWrite(writes, key)
    case None => before
    case Some(w) =>
      var source := LastSource(writes, key);
      Some(Written(None, w).(source := if source.Some? then source else SourceOf(before)))
  }

  lemma {:induction false} NoSourceWithoutWrite(writes: seq<Write>, key: Key)
    ensures LastWrite(writes, key) == None ==> LastSource(writes, key) == None
  {
    if writes != [] {
      NoSourceWithoutWrite(writes[..|writes| - 1], key);
    }
  }

  /** The table after any run is the last-write-wins map, key by key. */
  lemma {:induction false} RunIsLastWriteWins(rows: seq<Signal>, writes: seq<Write>, key: Key)
    requires Unique(rows)
    ensures Lookup(Run(rows, writes), key) == LastWriteWins(Lookup(rows, key), writes, key)
  {
    if writes != [] {
      var front := writes[..|writes| - 1];
      RunIsLastWriteWins(rows, front, key);
      RunKeepsUnique(rows, front);
      UpsertRefinesMap(Run(rows, front), writes[|writes| - 1], key);
      NoSourceWithoutWrite(front, key);
    }
  }

  // ---------------------------------------------------------------------------
  // Replaying a batch
  // ---------------------------------------------------------------------------

  function KeysInOrder(rows: seq<Signal>): (keys: seq<Key>)
    ensures |keys| == |rows| && forall i :: 0 <= i < |rows| ==> keys[i] == KeyOf(rows[i])
  {
    seq(|rows|, i requires 0 <= i < |rows| => KeyOf(rows[i]))
  }

  /** One upsert leaves the keys as they are, or appends its own. */
  lemma UpsertKeys(rows: seq<Signal>, w: Write)
    ensures KeysInOrder(Upserted(rows, w)) ==
            if KeyOfWrite(w) in KeysInOrder(rows) then KeysInOrder(rows) else KeysInOrder(rows) + [KeyOfWrite(w)]
  {
    var i := Find(rows, KeyOfWrite(w));
    if i < |rows| {
      assert KeysInOrder(rows)[i] == KeyOfWrite(w);
    }
  }

  /** A run keeps the rows it found in place, and stores every key it wrote. */
  lemma {:induction false} RunExtendsKeys(rows: seq<Signal>, writes: seq<Write>)
    ensures KeysInOrder(rows) <= KeysInOrder(Run(rows, writes))
    ensures forall i :: 0 <= i < |writes| ==> KeyOfWrite(writes[i]) in KeysInOrder(Run(rows, writes))
  {
    hide KeyOfWrite, KeysInOrder, Upserted;
    if writes != [] {
      var front := writes[..|writes| - 1];
      RunExtendsKeys(rows, front);
      UpsertKeys(Run(rows, front), writes[|front|]);
      forall k | 0 <= k < |writes| ensures KeyOfWrite(writes[k]) in KeysInOrder(Run(rows, writes)) {
        if k < |front| {
          assert KeyOfWrite(front[k]) in KeysInOrder(Run(rows, front));
        }
      }
    }
  }

  /** Writing only keys that are there already adds no row. */
  lemma {:induction false} KnownKeysAddNothing(rows: seq<Signal>, writes: seq<Write>)
    requires forall i :: 0 <= i < |writes| ==> KeyOfWrite(writes[i]) in KeysInOrder(rows)
    ensures KeysInOrder(Run(rows, writes)) == KeysInOrder(rows)
  {
    hide KeyOfWrite, KeysInOrder, Upserted;
    if writes != [] {
      var front := writes[..|writes| - 1];
      forall k | 0 <= k < |front| ensures KeyOfWrite(front[k]) in KeysInOrder(rows) {
        assert front[k] == writes[k];
      }
      KnownKeysAddNothing(rows, front);
      UpsertKeys(Run(rows, front), writes[|front|]);
    }
  }

  /** A table is its keys in order together with its key map. */
  lemma SameTable(a: seq<Signal>, b: seq<Signal>)
    requires Unique(a) && Unique(b) && KeysInOrder(a) == KeysInOrder(b)
    requires forall key :: Lookup(a, key) == Lookup(b, key)
    ensures a == b
  {
    forall i | 0 <= i < |a| ensures a[i] == b[i] {
      var key := KeysInOrder(a)[i];
      assert key == KeysInOrder(b)[i];
      assert Find(a, key) == i && Find(b, key) == i;
      assert Lookup(a, key) == Lookup(b, key);
    }
  }

  /** Running a batch a second time changes nothing, row for row. */
  lemma ReplayIsIdempotent(rows: seq<Signal>, writes: seq<Write>)
    requires Unique(rows)
    ensures Run(Run(rows, writes), writes) == Run(rows, writes)
  {
    var once, twice := Run(rows, writes), Run(Run(rows, writes), writes);
    RunKeepsUnique(rows, writes);
    RunKeepsUnique(once, writes);
    RunExtendsKeys(rows, writes);
    KnownKeysAddNothing(once, writes);
    forall key ensures Lookup(twice, key) == Lookup(once, key) {
      RunIsLastWriteWins(rows, writes, key);
      RunIsLastWriteWins(once, writes, key);
    }
    SameTable(twice, once);
  }
}
