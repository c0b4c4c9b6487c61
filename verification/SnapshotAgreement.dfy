/**
 What every snapshot contains, and why the batched and the single reader agree: the rows of a
 subject are determined by the table, and only the order of ties is not. That order can reach
 nothing but the hazard flags, and those exactly when two oldest writers of a flag disagree.
 */
module SnapshotAgreement {
  import opened Common
  import opened SignalStore
  import opened SignalQueries
  import opened MarketState

  // ---------------------------------------------------------------------------
  // Pointwise effect of the two folds
  // ---------------------------------------------------------------------------

  lemma Front(list: seq<Signal>)
    requires list != [] && DistinctTypes(list)
    ensures var n := |list| - 1;
            && DistinctTypes(list[..n])
            && ByType(list[..n], list[n].signalType) == None
  {
    var n := |list| - 1;
    ByTypeFinds(list[..n], list[n].signalType);
  }

  /** A property-level value replaces the base value of its field. */
  lemma {:induction false} AggregatedScalar(base: Snapshot, list: seq<Signal>, f: ScalarField)
    requires DistinctTypes(list)
    ensures At(Aggregated(base, list).scalars, f) == OrElse(ValueOf(ByType(list, Scalar(f))), At(base.scalars, f))
  {
    if list != [] {
      Front(list);
      AggregatedScalar(base, list[..|list| - 1], f);
    }
  }

  /** A neighborhood value only fills a field that is still missing. */
  lemma {:induction false} FilledScalar(snap: Snapshot, list: seq<Signal>, f: ScalarField)
    requires DistinctTypes(list)
    ensures At(Filled(snap, list).scalars, f) == OrElse(At(snap.scalars, f), ValueOf(ByType(list, Scalar(f))))
  {
    if list != [] {
      Front(list);
      FilledScalar(snap, list[..|list| - 1], f);
    }
  }

  /** The first non-null newest value along the neighborhood keys. */
  function FirstValue(lists: seq<seq<Signal>>, f: ScalarField): Option<real> {
    if lists == [] then None
    else OrElse(FirstValue(lists[..|lists| - 1], f), ValueOf(ByType(lists[|lists| - 1], Scalar(f))))
  }

  lemma {:induction false} FilledByAllScalar(snap: Snapshot, lists: seq<seq<Signal>>, f: ScalarField)
    requires forall i :: 0 <= i < |lists| ==> DistinctTypes(lists[i])
    ensures At(FilledByAll(snap, lists).scalars, f) == OrElse(At(snap.scalars, f), FirstValue(lists, f))
  {
    if lists != [] {
      var n := |lists| - 1;
      FilledByAllScalar(snap, lists[..n], f);
      FilledScalar(FilledByAll(snap, lists[..n]), lists[n], f);
    }
  }

  /** The newest stored row of a type, if the subject has any. */
  ghost predicate NewestOf(rows: seq<Signal>, subjectType: string, id: string, signalType: SignalType,
                           row: Option<Signal>) {
    match row
    case Some(r) => r.signalType == signalType && IsNewest(rows, subjectType, id, r)
    case None => forall k :: 0 <= k < |rows| && Selected(rows[k], subjectType, {id}) ==>
        rows[k].signalType != signalType
  }

  lemma LatestIsNewest(rows: seq<Signal>, subjectType: string, id: string, list: seq<Signal>, signalType: SignalType)
    requires IsLatest(rows, subjectType, id, list)
    ensures NewestOf(rows, subjectType, id, signalType, ByType(list, signalType))
  {
    ByTypeFinds(list, signalType);
    var found := ByType(list, signalType);
    if found.Some? {
      var i :| 0 <= i < |list| && list[i] == found.value;
    }
  }

  /** The value chosen by the source's rule among the newest rows: own first, then key by key. */
  function Chosen(own: Option<Signal>, neighbors: seq<Option<Signal>>): Option<real>
    decreases |neighbors|
  {
    if ValueOf(own).Some? then ValueOf(own)
    else if neighbors == [] then None
    else Chosen(neighbors[0], neighbors[1..])
  }

  lemma {:induction false} ChosenSnoc(own: Option<Signal>, neighbors: seq<Option<Signal>>, last: Option<Signal>)
    ensures Chosen(own, neighbors + [last]) == OrElse(Chosen(own, neighbors), ValueOf(last))
    decreases |neighbors|
  {
    if ValueOf(own) == None && neighbors != [] {
      assert (neighbors + [last])[1..] == neighbors[1..] + [last];
      ChosenSnoc(neighbors[0], neighbors[1..], last);
    }
  }

  function NewestAlong(lists: seq<seq<Signal>>, f: ScalarField): (newest: seq<Option<Signal>>)
    ensures |newest| == |lists| && forall i :: 0 <= i < |lists| ==> newest[i] == ByType(lists[i], Scalar(f))
  {
    seq(|lists|, i requires 0 <= i < |lists| => ByType(lists[i], Scalar(f)))
  }

  lemma {:induction false} ChosenIsFirstValue(own: Option<Signal>, lists: seq<seq<Signal>>, f: ScalarField)
    ensures Chosen(own, NewestAlong(lists, f)) == OrElse(ValueOf(own), FirstValue(lists, f))
  {
    if lists != [] {
      var n := |lists| - 1;
      ChosenIsFirstValue(own, lists[..n], f);
      assert NewestAlong(lists, f) == NewestAlong(lists[..n], f) + [ByType(lists[n], Scalar(f))];
      ChosenSnoc(own, NewestAlong(lists[..n], f), ByType(lists[n], Scalar(f)));
    }
  }

  /**
   Every scalar of every snapshot is the first non-null value among the newest property row and
   the newest row of each neighborhood key, in key order.
   */
  lemma {:induction false} SnapshotScalar(rows: seq<Signal>, prop: Property, snap: Snapshot, f: ScalarField)
    requires IsSnapshot(rows, prop, snap)
    ensures exists own, neighbors ::
              && NewestOf(rows, SUBJECT_PROPERTY, prop.id, Scalar(f), own)
              && |neighbors| == |NeighborhoodKeys(prop)|
              && (forall i :: 0 <= i < |neighbors| ==>
                    NewestOf(rows, SUBJECT_NEIGHBORHOOD, NeighborhoodKeys(prop)[i], Scalar(f), neighbors[i]))
              && At(snap.scalars, f) == Chosen(own, neighbors)
  {
    hide NeighborhoodKeys;
    var own, lists :| IsReading(rows, prop, own, lists) && snap == Composed(prop, own, lists);
    AggregatedScalar(BaseSnapshot(prop), own, f);
    FilledByAllScalar(Aggregated(BaseSnapshot(prop), own), lists, f);
    ChosenIsFirstValue(ByType(own, Scalar(f)), lists, f);
    LatestIsNewest(rows, SUBJECT_PROPERTY, prop.id, own, Scalar(f));
    forall i | 0 <= i < |lists|
      ensures NewestOf(rows, SUBJECT_NEIGHBORHOOD, NeighborhoodKeys(prop)[i], Scalar(f), NewestAlong(lists, f)[i])
    {
      LatestIsNewest(rows, SUBJECT_NEIGHBORHOOD, NeighborhoodKeys(prop)[i], lists[i], Scalar(f));
    }
  }

  lemma {:induction false} AggregatedZoning(base: Snapshot, list: seq<Signal>)
    requires DistinctTypes(list)
    ensures Aggregated(base, list).zoningCode ==
            var row := ByType(list, Zoning);
            OrElse(if row.Some? then ZoningOf(row.value.payload) else None, base.zoningCode)
  {
    if list != [] {
      Front(list);
      AggregatedZoning(base, list[..|list| - 1]);
    }
  }

  lemma {:induction false} FilledKeepsRest(snap: Snapshot, list: seq<Signal>)
    ensures Filled(snap, list).(scalars := snap.scalars, hazardFlags := snap.hazardFlags) == snap
  {
    if list != [] {
      FilledKeepsRest(snap, list[..|list| - 1]);
    }
  }

  lemma {:induction false} AggregatedKeepsRest(base: Snapshot, list: seq<Signal>)
    ensures var after := Aggregated(base, list);
            after.(scalars := base.scalars, hazardFlags := base.hazardFlags, zoningCode := base.zoningCode) == base
  {
    if list != [] {
      AggregatedKeepsRest(base, list[..|list| - 1]);
    }
  }

  // ---------------------------------------------------------------------------
  // Hazard flags of the property: the oldest writer wins
  // ---------------------------------------------------------------------------

  /** The position of the last row that writes a flag, or |list|. */
  function LastWriter(list: seq<Signal>, flag: string): (i: nat)
    ensures i <= |list|
    ensures i < |list| ==> flag in Flags(list[i])
    ensures i < |list| ==> forall j :: i < j < |list| ==> flag !in Flags(list[j])
    ensures i == |list| ==> forall j :: 0 <= j < |list| ==> flag !in Flags(list[j])
  {
    if list == [] then 0
    else
      var n := |list| - 1;
      if flag in Flags(list[n]) then n
      else
        var i := LastWriter(list[..n], flag);
        if i == n then n + 1 else i
  }

  lemma {:induction false} AggregatedFlag(base: Snapshot, list: seq<Signal>, flag: string)
    ensures At(Aggregated(base, list).hazardFlags, flag) ==
            var i := LastWriter(list, flag);
            if i < |list| then Some(Flags(list[i])[flag]) else At(base.hazardFlags, flag)
  {
    hide KindName, DetailName;
    if list != [] {
      var n := |list| - 1;
      AggregatedFlag(base, list[..n], flag);
      assert Aggregated(base, list).hazardFlags == Aggregated(base, list[..n]).hazardFlags + Flags(list[n]);
    }
  }

  /** Row i is an oldest row of the list that writes the flag. */
  ghost predicate OldestWriter(list: seq<Signal>, i: nat, flag: string) {
    && i < |list| && flag in Flags(list[i])
    && forall k :: 0 <= k < |list| && flag in Flags(list[k]) ==> list[k].observedAt >= list[i].observedAt
  }

  /** If a flag has several oldest writers, they write the same value. */
  ghost predicate AgreeOn(list: seq<Signal>, flag: string) {
    forall i: nat, j: nat :: OldestWriter(list, i, flag) && OldestWriter(list, j, flag) ==>
      Flags(list[i])[flag] == Flags(list[j])[flag]
  }

  ghost predicate OldestWritersAgree(list: seq<Signal>) {
    forall flag :: AgreeOn(list, flag)
  }

  lemma LastWriterIsOldest(list: seq<Signal>, flag: string)
    requires NewestFirst(list)
    ensures LastWriter(list, flag) < |list| ==> OldestWriter(list, LastWriter(list, flag), flag)
  {
    var i := LastWriter(list, flag);
    if i < |list| {
      forall k | 0 <= k < |list| && flag in Flags(list[k]) ensures list[k].observedAt >= list[i].observedAt {
        if k < i { assert list[k].observedAt >= list[i].observedAt; }
      }
    }
  }

  /** Two readings hold the same rows at some positions. */
  lemma SameRow(rows: seq<Signal>, st: string, id: string, a: seq<Signal>, b: seq<Signal>, i: nat) returns (j: nat)
    requires Unique(rows) && IsLatest(rows, st, id, a) && IsLatest(rows, st, id, b) && i < |a|
    ensures j < |b| && b[j] == a[i]
  {
    hide IsNewest;
    var t := a[i].signalType;
    LatestSameByType(rows, st, id, a, b, t);
    ByTypeFinds(a, t);
    ByTypeFinds(b, t);
    var k :| 0 <= k < |a| && a[k] == ByType(a, t).value;
    assert k == i;
    j :| 0 <= j < |b| && b[j] == ByType(b, t).value;
  }

  lemma OldestWriterCarries(rows: seq<Signal>, st: string, id: string, a: seq<Signal>, b: seq<Signal>, i: nat, j: nat,
                            flag: string)
    requires Unique(rows) && IsLatest(rows, st, id, a) && IsLatest(rows, st, id, b)
    requires OldestWriter(a, i, flag) && j < |b| && b[j] == a[i]
    ensures OldestWriter(b, j, flag)
  {
    hide IsLatest, Flags;
    forall k | 0 <= k < |b| && flag in Flags(b[k]) ensures b[k].observedAt >= b[j].observedAt {
      var m := SameRow(rows, st, id, b, a, k);
    }
  }

  lemma SameFlag(rows: seq<Signal>, st: string, id: string, base: Snapshot, a: seq<Signal>, b: seq<Signal>,
                 flag: string)
    requires Unique(rows) && IsLatest(rows, st, id, a) && IsLatest(rows, st, id, b) && AgreeOn(a, flag)
    ensures At(Aggregated(base, a).hazardFlags, flag) == At(Aggregated(base, b).hazardFlags, flag)
  {
    hide Flags, Aggregated, IsNewest, OldestWriter;
    AggregatedFlag(base, a, flag);
    AggregatedFlag(base, b, flag);
    LastWriterIsOldest(a, flag);
    LastWriterIsOldest(b, flag);
    var i, j := LastWriter(a, flag), LastWriter(b, flag);
    if i < |a| {
      var i' := SameRow(rows, st, id, a, b, i);
      assert flag in Flags(b[i']);
    }
    if j < |b| {
      var j' := SameRow(rows, st, id, b, a, j);
      assert flag in Flags(a[j']);
      OldestWriterCarries(rows, st, id, b, a, j, j', flag);
    }
  }

  lemma SameMap<K, V>(m: map<K, V>, n: map<K, V>)
    requires forall k :: At(m, k) == At(n, k)
    ensures m == n
  {
    forall k ensures k in m <==> k in n {
      assert At(m, k) == At(n, k);
    }
    forall k | k in m ensures m[k] == n[k] {
      assert At(m, k) == At(n, k);
    }
  }

  lemma Exchange(rows: seq<Signal>, st: string, id: string, list: seq<Signal>, i: nat,
                 j: nat) returns (swapped: seq<Signal>)
    requires IsLatest(rows, st, id, list) && i < |list| && j < |list|
    requires list[i].observedAt == list[j].observedAt
    ensures swapped == list[i := list[j]][j := list[i]]
    ensures IsLatest(rows, st, id, swapped)
  {
    hide IsNewest;
    swapped := list[i := list[j]][j := list[i]];
    forall k | 0 <= k < |rows| && Selected(rows[k], st, {id}) ensures HasType(swapped, rows[k].signalType) {
      var t := rows[k].signalType;
      ByTypeFinds(list, t);
      ByTypeFinds(swapped, t);
      var m :| 0 <= m < |list| && list[m].signalType == t;
      assert swapped[if m == i then j else if m == j then i else m] == list[m];
    }
  }

  /**
   The property-level hazard flags do not depend on the order in which the database returns
   rows with equal timestamps exactly when the oldest writers of every flag agree.
   */
  lemma {:induction false} TieOrderIrrelevantIff(rows: seq<Signal>, st: string, id: string, base: Snapshot,
                                                 list: seq<Signal>)
    requires Unique(rows) && IsLatest(rows, st, id, list)
    ensures (forall other :: IsLatest(rows, st, id, other) ==>
               Aggregated(base, other).hazardFlags == Aggregated(base, list).hazardFlags)
       <==> OldestWritersAgree(list)
  {
    hide Aggregated, IsLatest, Flags, AgreeOn;
    if OldestWritersAgree(list) {
      forall other | IsLatest(rows, st, id, other)
        ensures Aggregated(base, other).hazardFlags == Aggregated(base, list).hazardFlags
      {
        SameFlags(rows, st, id, base, list, other);
      }
    } else {
      var flag :| !AgreeOn(list, flag);
      var other := Disagree(rows, st, id, base, list, flag);
    }
  }

  lemma SameFlags(rows: seq<Signal>, st: string, id: string, base: Snapshot, a: seq<Signal>, b: seq<Signal>)
    requires Unique(rows) && IsLatest(rows, st, id, a) && IsLatest(rows, st, id, b) && OldestWritersAgree(a)
    ensures Aggregated(base, a).hazardFlags == Aggregated(base, b).hazardFlags
  {
    hide IsLatest, Aggregated;
    forall flag ensures At(Aggregated(base, a).hazardFlags, flag) == At(Aggregated(base, b).hazardFlags, flag) {
      SameFlag(rows, st, id, base, a, b, flag);
    }
    SameMap(Aggregated(base, a).hazardFlags, Aggregated(base, b).hazardFlags);
  }

  /** Where the oldest writers of a flag disagree, exchanging two of them changes the flag. */
  lemma Disagree(rows: seq<Signal>, st: string, id: string, base: Snapshot, list: seq<Signal>, flag: string)
    returns (other: seq<Signal>)
    requires Unique(rows) && IsLatest(rows, st, id, list) && !AgreeOn(list, flag)
    ensures IsLatest(rows, st, id, other)
    ensures At(Aggregated(base, other).hazardFlags, flag) != At(Aggregated(base, list).hazardFlags, flag)
    ensures Writes(list, flag) && Writes(other, flag)
  {
    hide Flags, Aggregated, IsNewest;
    var i: nat, j: nat :| OldestWriter(list, i, flag) && OldestWriter(list, j, flag)
                          && Flags(list[i])[flag] != Flags(list[j])[flag];
    var m := LastWriter(list, flag);
    LastWriterIsOldest(list, flag);
    var c := if Flags(list[i])[flag] != Flags(list[m])[flag] then i else j;
    other := Exchange(rows, st, id, list, c, m);
    AggregatedFlag(base, list, flag);
    AggregatedFlag(base, other, flag);
    assert other[m] == list[c] && forall k :: m < k < |other| ==> other[k] == list[k];
    assert LastWriter(other, flag) == m;
  }

  /** Some row of the list writes the flag. */
  ghost predicate Writes(list: seq<Signal>, flag: string) {
    exists i :: 0 <= i < |list| && flag in Flags(list[i])
  }

  lemma WritesFlag(base: Snapshot, list: seq<Signal>, flag: string)
    ensures flag in Aggregated(base, list).hazardFlags <==> flag in base.hazardFlags || Writes(list, flag)
  {
    hide Flags, Aggregated;
    AggregatedFlag(base, list, flag);
  }

  lemma SameWrites(rows: seq<Signal>, st: string, id: string, a: seq<Signal>, b: seq<Signal>, flag: string)
    requires Unique(rows) && IsLatest(rows, st, id, a) && IsLatest(rows, st, id, b)
    ensures Writes(a, flag) <==> Writes(b, flag)
  {
    hide Flags, IsLatest;
    if Writes(a, flag) {
      var i :| 0 <= i < |a| && flag in Flags(a[i]);
      var j := SameRow(rows, st, id, a, b, i);
      assert flag in Flags(b[j]);
    }
    if Writes(b, flag) {
      var i :| 0 <= i < |b| && flag in Flags(b[i]);
      var j := SameRow(rows, st, id, b, a, i);
      assert flag in Flags(a[j]);
    }
  }

  // ---------------------------------------------------------------------------
  // Hazard flags from the neighborhoods
  // ---------------------------------------------------------------------------

  /** What a key's row of one kind makes of that kind's two flags. */
  function FillFlag(flag: Option<Json>, detail: Option<Json>, row: Option<Signal>): (Option<Json>, Option<Json>) {
    if flag.Some? || row == None then (flag, detail)
    else
      (if row.value.value.Some? then Some(Num(row.value.value.value)) else None,
       if row.value.payload != map[] then Some(Obj(row.value.payload)) else detail)
  }

  lemma {:induction false} FilledFlag(snap: Snapshot, list: seq<Signal>, kind: HazardKind)
    requires DistinctTypes(list)
    ensures var after := Filled(snap, list).hazardFlags;
            (At(after, KindName(kind)), At(after, DetailName(kind)))
            == FillFlag(At(snap.hazardFlags, KindName(kind)), At(snap.hazardFlags, DetailName(kind)),
                        ByType(list, HazardOf(kind)))
  {
    if list != [] {
      var n := |list| - 1;
      Front(list);
      FilledFlag(snap, list[..n], kind);
      FillOneFlag(Filled(snap, list[..n]), list[n], kind);
    }
  }

  lemma FillOneFlag(snap: Snapshot, row: Signal, kind: HazardKind)
    ensures var after := FillOne(snap, row).hazardFlags;
            (At(after, KindName(kind)), At(after, DetailName(kind)))
            == FillFlag(At(snap.hazardFlags, KindName(kind)), At(snap.hazardFlags, DetailName(kind)),
                        if row.signalType == HazardOf(kind) then Some(row) else None)
  {
    if row.signalType.HazardOf? {
      NamesDistinct(kind, row.signalType.kind);
      NamesDistinct(row.signalType.kind, kind);
    }
    hide KindName, DetailName;
  }

  ghost predicate IsHazardName(flag: string) {
    exists kind :: flag == KindName(kind) || flag == DetailName(kind)
  }

  lemma {:induction false} FilledOtherFlag(snap: Snapshot, list: seq<Signal>, flag: string)
    requires !IsHazardName(flag)
    ensures At(Filled(snap, list).hazardFlags, flag) == At(snap.hazardFlags, flag)
  {
    hide KindName, DetailName;
    if list != [] {
      var n := |list| - 1;
      FilledOtherFlag(snap, list[..n], flag);
    }
  }

  /** Filling from one key depends only on the key's rows, not on their order. */
  lemma {:induction false} FillOrderIrrelevant(rows: seq<Signal>, key: string, snap: Snapshot, a: seq<Signal>,
                                               b: seq<Signal>)
    requires Unique(rows)
    requires IsLatest(rows, SUBJECT_NEIGHBORHOOD, key, a) && IsLatest(rows, SUBJECT_NEIGHBORHOOD, key, b)
    ensures Filled(snap, a) == Filled(snap, b)
  {
    var x, y := Filled(snap, a), Filled(snap, b);
    assert DistinctTypes(a) && DistinctTypes(b);
    hide Filled, IsLatest, KindName, DetailName;
    forall f ensures At(x.scalars, f) == At(y.scalars, f) {
      FilledScalar(snap, a, f);
      FilledScalar(snap, b, f);
      LatestSameByType(rows, SUBJECT_NEIGHBORHOOD, key, a, b, Scalar(f));
    }
    forall flag ensures At(x.hazardFlags, flag) == At(y.hazardFlags, flag) {
      if IsHazardName(flag) {
        var kind :| flag == KindName(kind) || flag == DetailName(kind);
        FilledFlag(snap, a, kind);
        FilledFlag(snap, b, kind);
        LatestSameByType(rows, SUBJECT_NEIGHBORHOOD, key, a, b, HazardOf(kind));
      } else {
        FilledOtherFlag(snap, a, flag);
        FilledOtherFlag(snap, b, flag);
      }
    }
    SameMap(x.scalars, y.scalars);
    SameMap(x.hazardFlags, y.hazardFlags);
    FilledKeepsRest(snap, a);
    FilledKeepsRest(snap, b);
  }

  lemma {:induction false} FillAllOrderIrrelevant(rows: seq<Signal>, keys: seq<string>, snap: Snapshot,
                                                  a: seq<seq<Signal>>, b: seq<seq<Signal>>)
    requires Unique(rows) && |a| == |b| == |keys|
    requires forall i :: 0 <= i < |keys| ==> IsLatest(rows, SUBJECT_NEIGHBORHOOD, keys[i], a[i])
    requires forall i :: 0 <= i < |keys| ==> IsLatest(rows, SUBJECT_NEIGHBORHOOD, keys[i], b[i])
    ensures FilledByAll(snap, a) == FilledByAll(snap, b)
  {
    hide IsLatest, Filled;
    if a != [] {
      var n := |a| - 1;
      FillAllOrderIrrelevant(rows, keys[..n], snap, a[..n], b[..n]);
      FillOrderIrrelevant(rows, keys[n], FilledByAll(snap, a[..n]), a[n], b[n]);
    }
  }

  // ---------------------------------------------------------------------------
  // Batched equals single
  // ---------------------------------------------------------------------------

  /** Scalars, zoning and identifiers agree whatever the ties. */
  lemma {:induction false} ScalarsAlwaysAgree(rows: seq<Signal>, prop: Property, single: Snapshot, batched: Snapshot)
    requires Unique(rows)
    requires IsSnapshot(rows, prop, single) && IsSnapshot(rows, prop, batched)
    ensures single.(hazardFlags := map[]) == batched.(hazardFlags := map[])
  {
    hide NeighborhoodKeys, IsNewest;
    var own, lists :| IsReading(rows, prop, own, lists) && single == Composed(prop, own, lists);
    var own', lists' :| IsReading(rows, prop, own', lists') && batched == Composed(prop, own', lists');
    forall f ensures At(single.scalars, f) == At(batched.scalars, f) {
      SameScalar(rows, prop, own, lists, own', lists', f);
    }
    SameMap(single.scalars, batched.scalars);
    LatestSameByType(rows, SUBJECT_PROPERTY, prop.id, own, own', Zoning);
    RestOfComposed(prop, own, lists);
    RestOfComposed(prop, own', lists');
  }

  lemma SameScalar(rows: seq<Signal>, prop: Property, own: seq<Signal>, lists: seq<seq<Signal>>,
                   own': seq<Signal>, lists': seq<seq<Signal>>, f: ScalarField)
    requires Unique(rows) && IsReading(rows, prop, own, lists) && IsReading(rows, prop, own', lists')
    ensures At(Composed(prop, own, lists).scalars, f) == At(Composed(prop, own', lists').scalars, f)
  {
    hide NeighborhoodKeys, IsNewest;
    var base, base' := Aggregated(BaseSnapshot(prop), own), Aggregated(BaseSnapshot(prop), own');
    AggregatedScalar(BaseSnapshot(prop), own, f);
    AggregatedScalar(BaseSnapshot(prop), own', f);
    LatestSameByType(rows, SUBJECT_PROPERTY, prop.id, own, own', Scalar(f));
    FilledByAllScalar(base, lists, f);
    FilledByAllScalar(base', lists', f);
    SameFirstValue(rows, NeighborhoodKeys(prop), lists, lists', f);
  }

  lemma {:induction false} SameFirstValue(rows: seq<Signal>, keys: seq<string>, a: seq<seq<Signal>>,
                                          b: seq<seq<Signal>>, f: ScalarField)
    requires Unique(rows) && |a| == |b| == |keys|
    requires forall i :: 0 <= i < |keys| ==> IsLatest(rows, SUBJECT_NEIGHBORHOOD, keys[i], a[i])
    requires forall i :: 0 <= i < |keys| ==> IsLatest(rows, SUBJECT_NEIGHBORHOOD, keys[i], b[i])
    ensures FirstValue(a, f) == FirstValue(b, f)
  {
    hide IsLatest;
    if a != [] {
      var n := |a| - 1;
      SameFirstValue(rows, keys[..n], a[..n], b[..n], f);
      LatestSameByType(rows, SUBJECT_NEIGHBORHOOD, keys[n], a[n], b[n], Scalar(f));
    }
  }

  lemma {:induction false} FilledByAllKeepsRest(snap: Snapshot, lists: seq<seq<Signal>>)
    ensures FilledByAll(snap, lists).(scalars := snap.scalars, hazardFlags := snap.hazardFlags) == snap
  {
    if lists != [] {
      FilledByAllKeepsRest(snap, lists[..|lists| - 1]);
      FilledKeepsRest(FilledByAll(snap, lists[..|lists| - 1]), lists[|lists| - 1]);
    }
  }

  lemma RestOfComposed(prop: Property, own: seq<Signal>, lists: seq<seq<Signal>>)
    requires DistinctTypes(own)
    ensures var snap, base := Composed(prop, own, lists), BaseSnapshot(prop);
            var row := ByType(own, Zoning);
            snap == base.(scalars := snap.scalars, hazardFlags := snap.hazardFlags,
                          zoningCode := OrElse(if row.Some? then ZoningOf(row.value.payload) else None,
                                               base.zoningCode))
  {
    var mid := Aggregated(BaseSnapshot(prop), own);
    AggregatedKeepsRest(BaseSnapshot(prop), own);
    AggregatedZoning(BaseSnapshot(prop), own);
    FilledByAllKeepsRest(mid, lists);
  }

  // ---------------------------------------------------------------------------
  // Which ties can be seen in a snapshot
  // ---------------------------------------------------------------------------

  /** The newest row of a kind under key i carries a value, which ends the filling of that kind. */
  predicate HasValue(lists: seq<seq<Signal>>, i: int, kind: HazardKind)
    requires 0 <= i < |lists|
  {
    var row := ByType(lists[i], HazardOf(kind));
    row.Some? && row.value.value.Some?
  }

  predicate HasDetail(lists: seq<seq<Signal>>, i: int, kind: HazardKind)
    requires 0 <= i < |lists|
  {
    var row := ByType(lists[i], HazardOf(kind));
    row.Some? && row.value.payload != map[]
  }

  /** A key's row of the kind has a payload, and no earlier key has given the kind a value. */
  ghost predicate Refilled(lists: seq<seq<Signal>>, kind: HazardKind) {
    exists i :: 0 <= i < |lists| && HasDetail(lists, i, kind) && forall j :: 0 <= j < i ==> !HasValue(lists, j, kind)
  }

  ghost predicate Valueless(lists: seq<seq<Signal>>, kind: HazardKind) {
    forall j :: 0 <= j < |lists| ==> !HasValue(lists, j, kind)
  }

  /** What all keys together make of a kind's two flags. */
  function FillFlags(flag: Option<Json>, detail: Option<Json>, lists: seq<seq<Signal>>, kind: HazardKind)
    : (Option<Json>, Option<Json>)
  {
    if lists == [] then (flag, detail)
    else
      var n := |lists| - 1;
      var before := FillFlags(flag, detail, lists[..n], kind);
      FillFlag(before.0, before.1, ByType(lists[n], HazardOf(kind)))
  }

  lemma {:induction false} FilledByAllFlag(snap: Snapshot, lists: seq<seq<Signal>>, kind: HazardKind)
    requires forall i :: 0 <= i < |lists| ==> DistinctTypes(lists[i])
    ensures var after := FilledByAll(snap, lists).hazardFlags;
            (At(after, KindName(kind)), At(after, DetailName(kind)))
            == FillFlags(At(snap.hazardFlags, KindName(kind)), At(snap.hazardFlags, DetailName(kind)), lists, kind)
  {
    hide FillFlag, KindName, DetailName, Filled;
    if lists != [] {
      var n := |lists| - 1;
      FilledByAllFlag(snap, lists[..n], kind);
      FilledFlag(FilledByAll(snap, lists[..n]), lists[n], kind);
    }
  }

  lemma {:induction false} FilledByAllOtherFlag(snap: Snapshot, lists: seq<seq<Signal>>, flag: string)
    requires !IsHazardName(flag)
    ensures At(FilledByAll(snap, lists).hazardFlags, flag) == At(snap.hazardFlags, flag)
  {
    hide IsHazardName, Filled;
    if lists != [] {
      var n := |lists| - 1;
      FilledByAllOtherFlag(snap, lists[..n], flag);
      FilledOtherFlag(FilledByAll(snap, lists[..n]), lists[n], flag);
    }
  }

  lemma {:induction false} FlaggedStays(flag: Option<Json>, detail: Option<Json>, lists: seq<seq<Signal>>,
                                        kind: HazardKind)
    requires flag.Some?
    ensures FillFlags(flag, detail, lists, kind) == (flag, detail)
  {
    if lists != [] {
      FlaggedStays(flag, detail, lists[..|lists| - 1], kind);
    }
  }

  lemma RefilledStep(lists: seq<seq<Signal>>, kind: HazardKind)
    requires lists != []
    ensures var n := |lists| - 1;
            && (Valueless(lists, kind) <==> Valueless(lists[..n], kind) && !HasValue(lists, n, kind))
            && (Refilled(lists, kind) <==>
                Refilled(lists[..n], kind) || (Valueless(lists[..n], kind) && HasDetail(lists, n, kind)))
  {
    var n := |lists| - 1;
    assert forall j :: 0 <= j < n ==> HasValue(lists[..n], j, kind) == HasValue(lists, j, kind);
    assert forall j :: 0 <= j < n ==> HasDetail(lists[..n], j, kind) == HasDetail(lists, j, kind);
    hide HasValue, HasDetail;
    if Refilled(lists[..n], kind) {
      var i :| 0 <= i < n && HasDetail(lists[..n], i, kind) &&
        forall j :: 0 <= j < i ==> !HasValue(lists[..n], j, kind);
      assert HasDetail(lists, i, kind);
    }
    if Refilled(lists, kind) {
      var i :| 0 <= i < |lists| && HasDetail(lists, i, kind) && forall j :: 0 <= j < i ==> !HasValue(lists, j, kind);
      assert i < n ==> HasDetail(lists[..n], i, kind);
    }
  }

  /** Without a flag the keys decide it, and they decide the detail exactly when they refill it. */
  lemma {:induction false} UnflaggedFilling(a: Option<Json>, b: Option<Json>, lists: seq<seq<Signal>>, kind: HazardKind)
    ensures FillFlags(None, a, lists, kind).0 == FillFlags(None, b, lists, kind).0
    ensures FillFlags(None, a, lists, kind).0 == None <==> Valueless(lists, kind)
    ensures Refilled(lists, kind) ==> FillFlags(None, a, lists, kind).1 == FillFlags(None, b, lists, kind).1
    ensures !Refilled(lists, kind) ==> FillFlags(None, a, lists, kind).1 == a && FillFlags(None, b, lists, kind).1 == b
  {
    if lists != [] {
      var n := |lists| - 1;
      UnflaggedFilling(a, b, lists[..n], kind);
      RefilledStep(lists, kind);
      hide Refilled, Valueless;
    }
  }

  /**
   The keys overwrite this flag whatever the property's own rows say: it is the detail of a kind
   that neither the property nor its rows flag, and the keys refill it.
   */
  ghost predicate Masked(base: Payload, own: seq<Signal>, lists: seq<seq<Signal>>, flag: string) {
    exists kind :: MaskedBy(base, own, lists, flag, kind)
  }

  ghost predicate MaskedBy(base: Payload, own: seq<Signal>, lists: seq<seq<Signal>>, flag: string, kind: HazardKind) {
    flag == DetailName(kind) && KindName(kind) !in base && !Writes(own, KindName(kind)) && Refilled(lists, kind)
  }

  /** The oldest writers agree on every flag that the keys do not overwrite anyway. */
  ghost predicate VisibleTiesAgree(base: Payload, own: seq<Signal>, lists: seq<seq<Signal>>) {
    forall flag :: Masked(base, own, lists, flag) || AgreeOn(own, flag)
  }

  /**
   A flag of the finished snapshot depends on the property's own rows through its own aggregated
   value and the presence of its kind; a masked one does not depend on its own value at all.
   */
  lemma FinalFlags(base: Snapshot, a: seq<Signal>, b: seq<Signal>, lists: seq<seq<Signal>>, flag: string)
    requires forall i :: 0 <= i < |lists| ==> DistinctTypes(lists[i])
    requires forall kind :: Writes(a, KindName(kind)) <==> Writes(b, KindName(kind))
    ensures var x, y := Aggregated(base, a).hazardFlags, Aggregated(base, b).hazardFlags;
            var s := FilledByAll(Aggregated(base, a), lists).hazardFlags;
            var t := FilledByAll(Aggregated(base, b), lists).hazardFlags;
            && (Masked(base.hazardFlags, a, lists, flag) ==> At(s, flag) == At(t, flag))
            && ((flag in x <==> flag in y) && !Masked(base.hazardFlags, a, lists, flag) ==>
                  (At(s, flag) == At(t, flag) <==> At(x, flag) == At(y, flag)))
  {
    hide Aggregated, FilledByAll, KindName, DetailName, Writes, Refilled;
    var x, y := Aggregated(base, a), Aggregated(base, b);
    if IsHazardName(flag) {
      var kind :| flag == KindName(kind) || flag == DetailName(kind);
      FinalHazard(base, a, b, lists, flag, kind);
    } else {
      FilledByAllOtherFlag(x, lists, flag);
      FilledByAllOtherFlag(y, lists, flag);
    }
  }

  lemma FinalHazard(base: Snapshot, a: seq<Signal>, b: seq<Signal>, lists: seq<seq<Signal>>, flag: string,
                    kind: HazardKind)
    requires forall i :: 0 <= i < |lists| ==> DistinctTypes(lists[i])
    requires flag == KindName(kind) || flag == DetailName(kind)
    requires Writes(a, KindName(kind)) <==> Writes(b, KindName(kind))
    ensures var x, y := Aggregated(base, a).hazardFlags, Aggregated(base, b).hazardFlags;
            var s := FilledByAll(Aggregated(base, a), lists).hazardFlags;
            var t := FilledByAll(Aggregated(base, b), lists).hazardFlags;
            && (Masked(base.hazardFlags, a, lists, flag) ==> At(s, flag) == At(t, flag))
            && ((flag in x <==> flag in y) && !Masked(base.hazardFlags, a, lists, flag) ==>
                  (At(s, flag) == At(t, flag) <==> At(x, flag) == At(y, flag)))
  {
    MaskedKind(base.hazardFlags, a, lists, flag, kind);
    NamesDistinct(kind, kind);
    var x, y := Aggregated(base, a), Aggregated(base, b);
    WritesFlag(base, a, KindName(kind));
    WritesFlag(base, b, KindName(kind));
    FilledByAllFlag(x, lists, kind);
    FilledByAllFlag(y, lists, kind);
    hide Aggregated, FilledByAll, KindName, DetailName, Writes, Refilled, FillFlags, Masked;
    var d, e := At(x.hazardFlags, DetailName(kind)), At(y.hazardFlags, DetailName(kind));
    if KindName(kind) in x.hazardFlags {
      FlaggedStays(At(x.hazardFlags, KindName(kind)), d, lists, kind);
      FlaggedStays(At(y.hazardFlags, KindName(kind)), e, lists, kind);
    } else {
      UnflaggedFilling(d, e, lists, kind);
    }
  }

  lemma MaskedKind(base: Payload, own: seq<Signal>, lists: seq<seq<Signal>>, flag: string, kind: HazardKind)
    requires flag == KindName(kind) || flag == DetailName(kind)
    ensures Masked(base, own, lists, flag) <==> MaskedBy(base, own, lists, flag, kind)
  {
    forall other ensures MaskedBy(base, own, lists, flag, other) ==> other == kind {
      NamesDistinct(kind, other);
      if other != kind {
        NamesDistinct(other, kind);
      }
    }
  }

  lemma SameSnapshot(rows: seq<Signal>, prop: Property, own: seq<Signal>, lists: seq<seq<Signal>>, snap: Snapshot)
    requires Unique(rows) && IsReading(rows, prop, own, lists) && IsSnapshot(rows, prop, snap)
    requires VisibleTiesAgree(prop.hazardFlags, own, lists)
    ensures snap == Composed(prop, own, lists)
  {
    hide NeighborhoodKeys, IsLatest, VisibleTiesAgree, Masked, Aggregated, FilledByAll;
    var own', lists' :| IsReading(rows, prop, own', lists') && snap == Composed(prop, own', lists');
    var base := BaseSnapshot(prop);
    FillAllOrderIrrelevant(rows, NeighborhoodKeys(prop), Aggregated(base, own'), lists', lists);
    ScalarsAlwaysAgree(rows, prop, snap, Composed(prop, own, lists));
    forall flag
      ensures At(Composed(prop, own', lists).hazardFlags, flag) == At(Composed(prop, own, lists).hazardFlags, flag)
    {
      SameFinalFlag(rows, prop, own, own', lists, flag);
    }
    SameMap(Composed(prop, own', lists).hazardFlags, Composed(prop, own, lists).hazardFlags);
  }

  lemma SameFinalFlag(rows: seq<Signal>, prop: Property, own: seq<Signal>, own': seq<Signal>, lists: seq<seq<Signal>>,
                      flag: string)
    requires Unique(rows) && IsReading(rows, prop, own, lists)
    requires IsLatest(rows, SUBJECT_PROPERTY, prop.id, own') && VisibleTiesAgree(prop.hazardFlags, own, lists)
    ensures At(Composed(prop, own', lists).hazardFlags, flag) == At(Composed(prop, own, lists).hazardFlags, flag)
  {
    var base := BaseSnapshot(prop);
    ReadingTypes(rows, prop, own, lists);
    hide NeighborhoodKeys, IsLatest, Masked, Aggregated, FilledByAll, AgreeOn, KindName;
    forall kind ensures Writes(own, KindName(kind)) <==> Writes(own', KindName(kind)) {
      SameWrites(rows, SUBJECT_PROPERTY, prop.id, own, own', KindName(kind));
    }
    FinalFlags(base, own, own', lists, flag);
    if AgreeOn(own, flag) {
      SameFlag(rows, SUBJECT_PROPERTY, prop.id, base, own, own', flag);
    }
  }

  lemma ReadingTypes(rows: seq<Signal>, prop: Property, own: seq<Signal>, lists: seq<seq<Signal>>)
    requires IsReading(rows, prop, own, lists)
    ensures forall i :: 0 <= i < |lists| ==> DistinctTypes(lists[i])
  {
  }

  lemma OtherSnapshot(rows: seq<Signal>, prop: Property, own: seq<Signal>,
                      lists: seq<seq<Signal>>) returns (snap: Snapshot)
    requires Unique(rows) && IsReading(rows, prop, own, lists) && !VisibleTiesAgree(prop.hazardFlags, own, lists)
    ensures IsSnapshot(rows, prop, snap) && snap != Composed(prop, own, lists)
  {
    var base := BaseSnapshot(prop);
    ReadingTypes(rows, prop, own, lists);
    var flag :| !Masked(prop.hazardFlags, own, lists, flag) && !AgreeOn(own, flag);
    hide NeighborhoodKeys, IsLatest, Masked, Aggregated, FilledByAll, AgreeOn, KindName;
    var other := Disagree(rows, SUBJECT_PROPERTY, prop.id, base, own, flag);
    forall kind ensures Writes(own, KindName(kind)) <==> Writes(other, KindName(kind)) {
      SameWrites(rows, SUBJECT_PROPERTY, prop.id, own, other, KindName(kind));
    }
    WritesFlag(base, own, flag);
    WritesFlag(base, other, flag);
    FinalFlags(base, own, other, lists, flag);
    assert IsReading(rows, prop, other, lists);
    snap := Composed(prop, other, lists);
  }

  /** All snapshots a table allows for a property are one and the same. */
  ghost predicate SnapshotDetermined(rows: seq<Signal>, prop: Property) {
    forall single, batched :: IsSnapshot(rows, prop, single) && IsSnapshot(rows, prop, batched) ==> single == batched
  }

  /**
   The batched and the single builder give the same snapshot, however the database orders ties,
   exactly when the oldest hazard writers agree on every flag the neighborhoods do not overwrite.
   Any reading of the table may be used to check it.
   */
  lemma {:induction false} SnapshotsAgree(rows: seq<Signal>, prop: Property, own: seq<Signal>, lists: seq<seq<Signal>>)
    requires Unique(rows) && IsReading(rows, prop, own, lists)
    ensures SnapshotDetermined(rows, prop) <==> VisibleTiesAgree(prop.hazardFlags, own, lists)
  {
    hide VisibleTiesAgree, IsReading;
    assert IsSnapshot(rows, prop, Composed(prop, own, lists));
    if VisibleTiesAgree(prop.hazardFlags, own, lists) {
      forall single, batched | IsSnapshot(rows, prop, single) && IsSnapshot(rows, prop, batched)
        ensures single == batched
      {
        SameSnapshot(rows, prop, own, lists, single);
        SameSnapshot(rows, prop, own, lists, batched);
      }
    } else {
      var snap := OtherSnapshot(rows, prop, own, lists);
    }
  }

  /** The first row per type of each answer. */
  function ReadOff(answers: seq<seq<Signal>>): seq<seq<Signal>> {
    seq(|answers|, i requires 0 <= i < |answers| => FirstPerType(answers[i]))
  }

  /** The answer to a key's query that list is read off. */
  ghost predicate ReadFrom(rows: seq<Signal>, key: string, list: seq<Signal>, answer: seq<Signal>) {
    IsAnswer(rows, SUBJECT_NEIGHBORHOOD, {key}, answer) && FirstPerType(answer) == list
  }

  lemma {:induction false} ListsAreRead(rows: seq<Signal>, keys: seq<string>, lists: seq<seq<Signal>>)
    returns (answers: seq<seq<Signal>>)
    requires Unique(rows) && |lists| == |keys|
    requires forall i :: 0 <= i < |keys| ==> IsLatest(rows, SUBJECT_NEIGHBORHOOD, keys[i], lists[i])
    ensures |answers| == |keys| && forall i :: 0 <= i < |keys| ==> ReadFrom(rows, keys[i], lists[i], answers[i])
  {
    hide IsLatest, Unique;
    if keys == [] {
      answers := [];
    } else {
      var n := |keys| - 1;
      answers := ListsAreRead(rows, keys[..n], lists[..n]);
      var answer := EveryLatestIsRead(rows, SUBJECT_NEIGHBORHOOD, keys[n], lists[n]);
      assert ReadFrom(rows, keys[n], lists[n], answer);
      hide ReadFrom;
      forall i | 0 <= i < n ensures ReadFrom(rows, keys[i], lists[i], answers[i]) {
        assert keys[..n][i] == keys[i] && lists[..n][i] == lists[i];
      }
      answers := answers + [answer];
    }
  }

  /** Each snapshot a table allows is built from answers that the queries can give. */
  lemma SnapshotIsRead(rows: seq<Signal>, prop: Property, snap: Snapshot)
    returns (own: seq<Signal>, answers: seq<seq<Signal>>)
    requires Unique(rows) && IsSnapshot(rows, prop, snap)
    ensures IsAnswer(rows, SUBJECT_PROPERTY, {prop.id}, own) && |answers| == |NeighborhoodKeys(prop)|
    ensures forall i :: 0 <= i < |answers| ==>
              IsAnswer(rows, SUBJECT_NEIGHBORHOOD, {NeighborhoodKeys(prop)[i]}, answers[i])
    ensures snap == Composed(prop, FirstPerType(own), ReadOff(answers))
  {
    hide NeighborhoodKeys, IsLatest, IsAnswer, Composed, FirstPerType;
    var kept, lists :| IsReading(rows, prop, kept, lists) && snap == Composed(prop, kept, lists);
    own := EveryLatestIsRead(rows, SUBJECT_PROPERTY, prop.id, kept);
    answers := ListsAreRead(rows, NeighborhoodKeys(prop), lists);
    assert ReadOff(answers) == lists;
  }
}
