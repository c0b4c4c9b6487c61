/**
 The deterministic property recommender: six component scores in [0, 1], a weighted and rounded
 total, and a ranking by score, asking price and id.
 */
module Recommender {
  import opened Common
  import opened Rounding
  import Mortgage

  /** profile.strategy; anything unknown, empty or missing falls back to buy and hold. */
  datatype Strategy = BuyAndHold | Flip | Lease | Unrecognised

  datatype Profile = Profile(budget: Option<real>, strategy: Strategy, targetCapRate: Option<real>)

  datatype Property = Property(id: string, listedPrice: real, baibaiKakakuYen: Option<real>)

  /** A hazard flag's value, lower-cased; other texts carry no penalty. */
  datatype HazardFlag = LowHazard | ModerateHazard | HighHazard | OtherFlag

  datatype Snapshot = Snapshot(
    medianRent: Option<real>,
    medianSalePrice: Option<real>,
    inventoryPressure: Option<real>,
    safetyScore: Option<real>,
    hazardFlags: seq<HazardFlag>)

  /** The best geographic match between a profile and a property, strongest first. */
  datatype GeoMatch =
    | ExactZip
    | StationMatch
    | MunicipalityMatch
    | WardMatch
    | NeighborhoodMatch
    | PrefectureMatch
    | CityMatch
    | StateMatch
    | AddressMatch
    | NoPreference
    | NoMatch

  /** What matching texts and postal codes says about a property; its computation is not modelled. */
  datatype Geography = Geography(passes: bool, found: GeoMatch)

  datatype Components = Components(
    strategy: real,
    risk: real,
    signal: real,
    underwriting: real,
    geo: real,
    momentum: real)

  datatype Scored = Scored(id: string, score: real, askingPrice: real, components: Components)

  // ---------------------------------------------------------------------------
  // Component scorers
  // ---------------------------------------------------------------------------

  function AskingPrice(p: Property): real {
    if p.baibaiKakakuYen.Some? then p.baibaiKakakuYen.value else p.listedPrice
  }

  function RentOf(snapshot: Option<Snapshot>): Option<real> {
    if snapshot.Some? then snapshot.value.medianRent else None
  }

  /** Gross yields of 4% to 10% become 0 to 1. */
  function YieldScore(rent: real, price: real): real
    requires price != 0.0
  {
    ClampUnit((rent * 12.0 / price - 0.04) / 0.06)
  }

  function StrategyBuyAndHold(p: Property, snapshot: Option<Snapshot>): real {
    var rent, price := RentOf(snapshot), AskingPrice(p);
    if rent.None? || price <= 0.0 then 0.0 else YieldScore(rent.value, price)
  }

  function StrategyFlip(p: Property, snapshot: Option<Snapshot>): real {
    var median := if snapshot.Some? then snapshot.value.medianSalePrice else None;
    if median.None? || median.value <= 0.0 then 0.0
    else ClampUnit(((median.value - AskingPrice(p)) / median.value + 0.10) / 0.35)
  }

  function StrategyLease(p: Property, snapshot: Option<Snapshot>): real {
    var rent, price := RentOf(snapshot), AskingPrice(p);
    if rent.None? then 0.0
    else
      var yieldPart := if price > 0.0 then YieldScore(rent.value, price) else ClampUnit((0.0 - 0.04) / 0.06);
      var inventory := snapshot.value.inventoryPressure;
      var inventoryPart := if inventory.None? then 1.0 else ClampUnit(1.0 - inventory.value);
      yieldPart * 0.7 + inventoryPart * 0.3
  }

  function ScoreStrategy(profile: Profile, p: Property, snapshot: Option<Snapshot>): real {
    match profile.strategy
    case Flip => StrategyFlip(p, snapshot)
    case Lease => StrategyLease(p, snapshot)
    case _ => StrategyBuyAndHold(p, snapshot)
  }

  /** Nearness of the rent-to-price proxy to the target cap rate, in percent. */
  function ScoreRisk(profile: Profile, p: Property, snapshot: Option<Snapshot>): real {
    var rent, price := RentOf(snapshot), AskingPrice(p);
    if profile.targetCapRate.None? then 0.5
    else if rent.None? || price <= 0.0 then 0.0
    else
      var target := profile.targetCapRate.value;
      if target <= 0.0 then 0.5 else ClampUnit(1.0 - Abs(rent.value * 12.0 / price * 100.0 - target) / target)
  }

  function Level(flag: HazardFlag): real {
    match flag
    case LowHazard => 0.1
    case ModerateHazard => 0.4
    case HighHazard => 0.8
    case OtherFlag => 0.0
  }

  function Worst(flags: seq<HazardFlag>): (r: real)
    ensures 0.0 <= r <= 0.8
  {
    if flags == [] then 0.0
    else
      var worst, level := Worst(flags[..|flags| - 1]), Level(flags[|flags| - 1]);
      if worst < level then level else worst
  }

  /** The worst is at least every flag's level, and one of them unless all are harmless. */
  lemma {:induction false} WorstIsGreatest(flags: seq<HazardFlag>)
    ensures forall i :: 0 <= i < |flags| ==> Level(flags[i]) <= Worst(flags)
    ensures Worst(flags) == 0.0 || exists i :: 0 <= i < |flags| && Level(flags[i]) == Worst(flags)
  {
    if flags != [] {
      var n := |flags| - 1;
      WorstIsGreatest(flags[..n]);
      hide Level;
      assert forall i :: 0 <= i < n ==> flags[..n][i] == flags[i];
      if Worst(flags) != Level(flags[n]) && Worst(flags[..n]) != 0.0 {
        var i :| 0 <= i < n && Level(flags[..n][i]) == Worst(flags[..n]);
        assert Level(flags[i]) == Worst(flags);
      }
    }
  }

  /** _hazard_penalty. */
  method HazardPenalty(flags: seq<HazardFlag>) returns (worst: real)
    ensures worst == Worst(flags)
    ensures forall i :: 0 <= i < |flags| ==> Level(flags[i]) <= worst
    ensures worst == 0.0 || exists i :: 0 <= i < |flags| && Level(flags[i]) == worst
  {
    WorstIsGreatest(flags);
    worst := 0.0;
    for i := 0 to |flags|
      invariant worst == Worst(flags[..i])
    {
      assert flags[..i + 1][..i] == flags[..i];
      if worst < Level(flags[i]) {
        worst := Level(flags[i]);
      }
    }
    assert flags[..|flags|] == flags;
  }

  /** The mean of the safety part and the hazard part, whichever there are. */
  function SignalOf(safety: Option<real>, hazard: real): real {
    var safe, spared := if safety.Some? then ClampUnit(safety.value / 100.0) else 0.0, ClampUnit(1.0 - hazard);
    if safety.Some? && hazard > 0.0 then (safe + spared) / 2.0
    else if safety.Some? then safe
    else if hazard > 0.0 then spared
    else 0.5
  }

  function ScoreSignal(snapshot: Option<Snapshot>): real {
    if snapshot.None? then 0.5 else SignalOf(snapshot.value.safetyScore, Worst(snapshot.value.hazardFlags))
  }

  /** The payment on three quarters of the price over 30 years at 7%. */
  function ProxyPayment(price: real): real {
    Mortgage.MonthlyPayment(price * 0.75, 0.07, 30)
  }

  function ScoreUnderwriting(p: Property, snapshot: Option<Snapshot>): real {
    var rent, price := RentOf(snapshot), AskingPrice(p);
    if rent.None? || price <= 0.0 then 0.5
    else if ProxyPayment(price) <= 0.0 then 0.5
    else ClampUnit((rent.value * 0.6 / ProxyPayment(price) - 0.7) / 0.55)
  }

  function ScoreGeography(g: GeoMatch): real {
    match g
    case ExactZip => 1.0
    case StationMatch => 0.95
    case MunicipalityMatch => 0.92
    case WardMatch => 0.92
    case NeighborhoodMatch => 0.88
    case PrefectureMatch => 0.82
    case CityMatch => 0.72
    case StateMatch => 0.72
    case AddressMatch => 0.65
    case NoPreference => 0.5
    case NoMatch => 0.2
  }

  function ScoreMomentum(snapshot: Option<Snapshot>): real {
    if snapshot.None? || snapshot.value.inventoryPressure.None? then 0.5
    else ClampUnit(1.0 - Abs(snapshot.value.inventoryPressure.value - 0.5) * 2.0)
  }

  // ---------------------------------------------------------------------------
  // The score
  // ---------------------------------------------------------------------------

  function WeightsFor(s: Strategy): Components {
    match s
    case Flip => Components(0.40, 0.10, 0.15, 0.15, 0.10, 0.10)
    case Lease => Components(0.30, 0.20, 0.15, 0.20, 0.05, 0.10)
    case _ => Components(0.30, 0.25, 0.15, 0.20, 0.05, 0.05)
  }

  function Weighted(w: Components, c: Components): real {
    w.strategy * c.strategy + w.risk * c.risk + w.signal * c.signal
    + w.underwriting * c.underwriting + w.geo * c.geo + w.momentum * c.momentum
  }

  function ComponentsOf(profile: Profile, p: Property, snapshot: Option<Snapshot>, g: Geography): Components {
    Components(
      ScoreStrategy(profile, p, snapshot),
      ScoreRisk(profile, p, snapshot),
      ScoreSignal(snapshot),
      ScoreUnderwriting(p, snapshot),
      ScoreGeography(g.found),
      ScoreMomentum(snapshot))
  }

  function Total(profile: Profile, c: Components): real {
    Weighted(WeightsFor(profile.strategy), c)
  }

  /** score_property. */
  function ScoreProperty(profile: Profile, p: Property, snapshot: Option<Snapshot>, g: Geography): Scored {
    var c := ComponentsOf(profile, p, snapshot, g);
    Scored(p.id, Round4(ClampUnit(Total(profile, c))), AskingPrice(p),
           Components(Round4(c.strategy), Round4(c.risk), Round4(c.signal),
                      Round4(c.underwriting), Round4(c.geo), Round4(c.momentum)))
  }

  predicate InUnit(c: Components) {
    && 0.0 <= c.strategy <= 1.0 && 0.0 <= c.risk <= 1.0 && 0.0 <= c.signal <= 1.0
    && 0.0 <= c.underwriting <= 1.0 && 0.0 <= c.geo <= 1.0 && 0.0 <= c.momentum <= 1.0
  }

  /** Every component lies in [0, 1] whatever the profile, the property and the snapshot. */
  lemma ComponentsInUnit(profile: Profile, p: Property, snapshot: Option<Snapshot>, g: Geography)
    ensures InUnit(ComponentsOf(profile, p, snapshot, g))
  {
    hide YieldScore, AskingPrice, ProxyPayment, Worst, ClampUnit, Abs;
    SignalInUnit(snapshot);
    hide ScoreSignal;
    StrategyInUnit(profile, p, snapshot);
    hide ScoreStrategy;
  }

  lemma StrategyInUnit(profile: Profile, p: Property, snapshot: Option<Snapshot>)
    ensures 0.0 <= ScoreStrategy(profile, p, snapshot) <= 1.0
  {
    hide AskingPrice, ClampUnit;
  }

  lemma SignalInUnit(snapshot: Option<Snapshot>)
    ensures 0.0 <= ScoreSignal(snapshot) <= 1.0
  {
    hide Worst, ClampUnit;
  }

  /** The weights add up to one, so the weighted total needs no clip. */
  lemma TotalInUnit(profile: Profile, c: Components)
    requires InUnit(c)
    ensures 0.0 <= Total(profile, c) <= 1.0 && ClampUnit(Total(profile, c)) == Total(profile, c)
  {
  }

  /** Every score and every reported component is a four-decimal number in [0, 1], the clip being idle. */
  lemma ScoreInUnit(profile: Profile, p: Property, snapshot: Option<Snapshot>, g: Geography)
    ensures var s := ScoreProperty(profile, p, snapshot, g);
            && 0.0 <= s.score <= 1.0 && FourDecimal(s.score) && InUnit(s.components)
            && s.score == Round4(Total(profile, ComponentsOf(profile, p, snapshot, g)))
  {
    hide ComponentsOf, Total, Round4, FourDecimal, ClampUnit;
    var c := ComponentsOf(profile, p, snapshot, g);
    ComponentsInUnit(profile, p, snapshot, g);
    TotalInUnit(profile, c);
    Round4FourDecimal(Total(profile, c));
    UnitEnds();
    Round4Stays(0.0, Total(profile, c), 1.0);
    Round4Stays(0.0, c.strategy, 1.0);
    Round4Stays(0.0, c.risk, 1.0);
    Round4Stays(0.0, c.signal, 1.0);
    Round4Stays(0.0, c.underwriting, 1.0);
    Round4Stays(0.0, c.geo, 1.0);
    Round4Stays(0.0, c.momentum, 1.0);
  }

  lemma UnitEnds()
    ensures FourDecimal(0.0) && FourDecimal(1.0)
  {
  }

  predicate NoWorse(c: Components, d: Components) {
    && c.strategy <= d.strategy && c.risk <= d.risk && c.signal <= d.signal
    && c.underwriting <= d.underwriting && c.geo <= d.geo && c.momentum <= d.momentum
  }

  /** A property that is no worse in any component never scores lower, rounding included. */
  lemma ScoreMonotone(profile: Profile, p: Property, s: Option<Snapshot>, g: Geography,
                      q: Property, t: Option<Snapshot>, h: Geography)
    requires NoWorse(ComponentsOf(profile, p, s, g), ComponentsOf(profile, q, t, h))
    ensures ScoreProperty(profile, p, s, g).score <= ScoreProperty(profile, q, t, h).score
  {
    hide ComponentsOf, Round4;
    var c, d := ComponentsOf(profile, p, s, g), ComponentsOf(profile, q, t, h);
    TotalMonotone(profile, c, d);
    Round4Monotone(ClampUnit(Total(profile, c)), ClampUnit(Total(profile, d)));
  }

  lemma TotalMonotone(profile: Profile, c: Components, d: Components)
    requires NoWorse(c, d)
    ensures Total(profile, c) <= Total(profile, d)
  {
  }

  /** The guard on the payment proxy never fires: a positive price has a positive payment. */
  lemma ProxyPaymentPositive(price: real)
    requires 0.0 < price
    ensures 0.0 < ProxyPayment(price)
  {
    Mortgage.PaymentAtLeastStraightLine(price * 0.75, 0.07, 30);
    hide Mortgage.MonthlyPayment;
  }

  /**
   Learning of a hazard is meant to lower the signal score. It raises it exactly when the safety
   part was below what the hazard leaves, because the two are averaged.
   */
  lemma HazardRaisesSignalIff(safety: real, hazard: real)
    requires 0.0 < hazard <= 0.8
    ensures SignalOf(Some(safety), hazard) > SignalOf(Some(safety), 0.0) <==> ClampUnit(safety / 100.0) < 1.0 - hazard
    ensures SignalOf(None, hazard) > SignalOf(None, 0.0) <==> hazard < 0.5
  {
  }

  // ---------------------------------------------------------------------------
  // The order
  // ---------------------------------------------------------------------------

  /** Code-point order of strings. */
  predicate Less(a: string, b: string) {
    if b == "" then false
    else if a == "" then true
    else if a[0] != b[0] then a[0] < b[0]
    else Less(a[1..], b[1..])
  }

  lemma {:induction false} LessTransitive(a: string, b: string, c: string)
    requires Less(a, b) && Less(b, c)
    ensures Less(a, c)
  {
    if a != "" && a[0] == b[0] == c[0] {
      LessTransitive(a[1..], b[1..], c[1..]);
    }
  }

  lemma {:induction false} LessIrreflexive(a: string)
    ensures !Less(a, a)
  {
    if a != "" {
      LessIrreflexive(a[1..]);
    }
  }

  lemma {:induction false} LessTotal(a: string, b: string)
    requires a != b
    ensures Less(a, b) || Less(b, a)
  {
    if a != "" && b != "" && a[0] == b[0] {
      assert a == [a[0]] + a[1..] && b == [b[0]] + b[1..];
      LessTotal(a[1..], b[1..]);
    }
  }

  /** The sort key (-score, -asking price, id). */
  predicate Before(a: Scored, b: Scored) {
    || a.score > b.score
    || (a.score == b.score && a.askingPrice > b.askingPrice)
    || (a.score == b.score && a.askingPrice == b.askingPrice && Less(a.id, b.id))
  }

  lemma BeforeTransitive(a: Scored, b: Scored, c: Scored)
    ensures Before(a, b) && Before(b, c) ==> Before(a, c)
    ensures !Before(a, a) && !(Before(a, b) && Before(b, a))
    ensures Before(a, b) || Before(b, a) || a.id == b.id
  {
    LessIrreflexive(a.id);
    if Less(a.id, b.id) && Less(b.id, c.id) {
      LessTransitive(a.id, b.id, c.id);
    }
    if Less(a.id, b.id) && Less(b.id, a.id) {
      LessTransitive(a.id, b.id, a.id);
    }
    if a.id != b.id {
      LessTotal(a.id, b.id);
    }
  }

  /** What is not before is no earlier than: a total preorder. */
  lemma NotBeforeTransitive(a: Scored, b: Scored, c: Scored)
    requires !Before(b, a) && !Before(c, b)
    ensures !Before(c, a)
  {
    BeforeTransitive(a, b, c);
    BeforeTransitive(c, a, b);
    if a.id == b.id || b.id == c.id {
      hide Less;
    } else {
      BeforeTransitive(b, c, a);
    }
  }

  /** Insert into a sorted list, in front of equals. */
  function Insert(x: Scored, s: seq<Scored>): seq<Scored> {
    if s == [] then [x]
    else if Before(s[0], x) then [s[0]] + Insert(x, s[1..])
    else [x] + s
  }

  /** A stable sort by the key. */
  function Sorted(s: seq<Scored>): seq<Scored> {
    if s == [] then [] else Insert(s[0], Sorted(s[1..]))
  }

  ghost predicate InOrder(s: seq<Scored>) {
    forall i, j :: 0 <= i < j < |s| ==> !Before(s[j], s[i])
  }

  lemma {:induction false} InsertKeepsOrder(x: Scored, s: seq<Scored>)
    requires InOrder(s)
    ensures InOrder(Insert(x, s)) && multiset(Insert(x, s)) == multiset{x} + multiset(s)
  {
    hide Before;
    if s == [] {
    } else if Before(s[0], x) {
      assert s == [s[0]] + s[1..];
      var rest := Insert(x, s[1..]);
      InsertKeepsOrder(x, s[1..]);
      forall k | 0 <= k < |rest| ensures !Before(rest[k], s[0]) {
        assert rest[k] in multiset(rest);
        assert rest[k] == x || rest[k] in s[1..];
        BeforeTransitive(s[0], x, s[0]);
      }
      HeadFirst(s[0], rest);
    } else {
      forall k | 0 <= k < |s| ensures !Before(s[k], x) {
        if k > 0 {
          NotBeforeTransitive(x, s[0], s[k]);
        }
      }
      HeadFirst(x, s);
    }
  }

  lemma HeadFirst(x: Scored, s: seq<Scored>)
    requires InOrder(s) && forall k :: 0 <= k < |s| ==> !Before(s[k], x)
    ensures InOrder([x] + s) && multiset([x] + s) == multiset{x} + multiset(s)
  {
    hide Before;
  }

  lemma {:induction false} SortedInOrder(s: seq<Scored>)
    ensures InOrder(Sorted(s)) && multiset(Sorted(s)) == multiset(s)
  {
    if s != [] {
      SortedInOrder(s[1..]);
      InsertKeepsOrder(s[0], Sorted(s[1..]));
      assert s == [s[0]] + s[1..];
    }
  }

  // ---------------------------------------------------------------------------
  // The ranking
  // ---------------------------------------------------------------------------

  /** passes_hard_filters. */
  predicate Passes(profile: Profile, p: Property, g: Geography) {
    !(profile.budget.Some? && AskingPrice(p) > profile.budget.value * 1.05) && g.passes
  }

  /** snapshots.get(id). */
  function SnapshotFor(snapshots: map<string, Snapshot>, id: string): Option<Snapshot> {
    if id in snapshots then Some(snapshots[id]) else None
  }

  function ScoredList(profile: Profile, candidates: seq<Property>, snapshots: map<string, Snapshot>,
                      geography: Property -> Geography): seq<Scored>
  {
    if candidates == [] then []
    else
      var p := candidates[|candidates| - 1];
      ScoredList(profile, candidates[..|candidates| - 1], snapshots, geography)
      + (if Passes(profile, p, geography(p))
         then [ScoreProperty(profile, p, SnapshotFor(snapshots, p.id), geography(p))] else [])
  }

  /** Where the slice [:top_n] ends; a negative top_n counts from the end. */
  function Cut(n: nat, topN: int): (k: nat)
    ensures k <= n
  {
    if topN >= 0 then (if topN < n then topN else n) else if n + topN > 0 then n + topN else 0
  }

  function Ranking(profile: Profile, candidates: seq<Property>, snapshots: map<string, Snapshot>,
                   geography: Property -> Geography): seq<Scored>
  {
    Sorted(ScoredList(profile, candidates, snapshots, geography))
  }

  method RankProperties(profile: Profile, candidates: seq<Property>, snapshots: map<string, Snapshot>,
                        geography: Property -> Geography, topN: int) returns (ranked: seq<Scored>)
    ensures var all := Ranking(profile, candidates, snapshots, geography);
            ranked == all[..Cut(|all|, topN)]
  {
    hide Passes, ScoreProperty;
    var scored: seq<Scored> := [];
    for i := 0 to |candidates|
      invariant scored == ScoredList(profile, candidates[..i], snapshots, geography)
    {
      var p := candidates[i];
      assert candidates[..i + 1][..i] == candidates[..i];
      if !Passes(profile, p, geography(p)) {
        continue;
      }
      scored := scored + [ScoreProperty(profile, p, SnapshotFor(snapshots, p.id), geography(p))];
    }
    assert candidates[..|candidates|] == candidates;
    var all := Sorted(scored);
    ranked := all[..Cut(|all|, topN)];
  }

  /** Nothing returned is outranked by anything left out, and together they are the filtered candidates. */
  lemma NoneLeftOutOutranks(profile: Profile, candidates: seq<Property>, snapshots: map<string, Snapshot>,
                            geography: Property -> Geography, topN: int)
    ensures var all := Ranking(profile, candidates, snapshots, geography);
            var k := Cut(|all|, topN);
            && multiset(all[..k]) + multiset(all[k..]) ==
               multiset(ScoredList(profile, candidates, snapshots, geography))
            && forall i, j :: 0 <= i < k <= j < |all| ==> !Before(all[j], all[i])
  {
    hide ScoredList, Before, Sorted;
    var scored := ScoredList(profile, candidates, snapshots, geography);
    SortedInOrder(scored);
    var all := Sorted(scored);
    var k := Cut(|all|, topN);
    assert all == all[..k] + all[k..];
  }

  ghost predicate DistinctIds(candidates: seq<Property>) {
    forall i, j :: 0 <= i < j < |candidates| ==> candidates[i].id != candidates[j].id
  }

  /** s is the score of a candidate that passes the filters. */
  ghost predicate Listed(s: Scored, profile: Profile, candidates: seq<Property>, snapshots: map<string, Snapshot>,
                         geography: Property -> Geography)
  {
    exists p :: && p in candidates && Passes(profile, p, geography(p))
                && s == ScoreProperty(profile, p, SnapshotFor(snapshots, p.id), geography(p))
  }

  lemma {:induction false} ListedIff(profile: Profile, candidates: seq<Property>, snapshots: map<string, Snapshot>,
                                     geography: Property -> Geography, s: Scored)
    ensures s in ScoredList(profile, candidates, snapshots, geography) <==>
            Listed(s, profile, candidates, snapshots, geography)
  {
    hide ScoreProperty, Passes, SnapshotFor;
    if candidates != [] {
      var n := |candidates| - 1;
      var p := candidates[n];
      ListedIff(profile, candidates[..n], snapshots, geography, s);
      assert candidates == candidates[..n] + [p];
      if Listed(s, profile, candidates[..n], snapshots, geography) {
        var q :| && q in candidates[..n] && Passes(profile, q, geography(q))
                 && s == ScoreProperty(profile, q, SnapshotFor(snapshots, q.id), geography(q));
        assert q in candidates;
      }
      if Listed(s, profile, candidates, snapshots, geography) {
        var q :| && q in candidates && Passes(profile, q, geography(q))
                 && s == ScoreProperty(profile, q, SnapshotFor(snapshots, q.id), geography(q));
        assert q in candidates[..n] || q == p;
      }
    }
  }

  /** Strictly in order: every element ranks before every later one. */
  ghost predicate Strict(s: seq<Scored>) {
    forall i, j :: 0 <= i < j < |s| ==> Before(s[i], s[j])
  }

  ghost predicate DistinctScored(s: seq<Scored>) {
    forall i, j :: 0 <= i < j < |s| ==> s[i].id != s[j].id
  }

  lemma {:induction false} ScoredDistinct(profile: Profile, candidates: seq<Property>, snapshots: map<string, Snapshot>,
                                          geography: Property -> Geography)
    requires DistinctIds(candidates)
    ensures DistinctScored(ScoredList(profile, candidates, snapshots, geography))
  {
    hide Passes, SnapshotFor;
    if candidates != [] {
      var n := |candidates| - 1;
      ScoredDistinct(profile, candidates[..n], snapshots, geography);
      var front := ScoredList(profile, candidates[..n], snapshots, geography);
      forall k | 0 <= k < |front| ensures front[k].id != candidates[n].id {
        ListedIff(profile, candidates[..n], snapshots, geography, front[k]);
        OtherId(profile, candidates, snapshots, geography, front[k]);
      }
    }
  }

  lemma OtherId(profile: Profile, candidates: seq<Property>, snapshots: map<string, Snapshot>,
                geography: Property -> Geography, s: Scored)
    requires candidates != [] && DistinctIds(candidates)
    requires Listed(s, profile, candidates[..|candidates| - 1], snapshots, geography)
    ensures s.id != candidates[|candidates| - 1].id
  {
    var n := |candidates| - 1;
    var q :| && q in candidates[..n] && Passes(profile, q, geography(q))
             && s == ScoreProperty(profile, q, SnapshotFor(snapshots, q.id), geography(q));
    var i :| 0 <= i < n && candidates[..n][i] == q;
    assert candidates[i].id == q.id == s.id;
  }

  lemma {:induction false} InsertStrict(x: Scored, s: seq<Scored>)
    requires Strict(s) && forall k :: 0 <= k < |s| ==> s[k].id != x.id
    ensures Strict(Insert(x, s))
    ensures forall e :: e in Insert(x, s) <==> e == x || e in s
  {
    hide Before;
    if s == [] {
    } else if Before(s[0], x) {
      assert s == [s[0]] + s[1..];
      var rest := Insert(x, s[1..]);
      InsertStrict(x, s[1..]);
      forall k | 0 <= k < |rest| ensures Before(s[0], rest[k]) {
        assert rest[k] in rest;
        assert rest[k] == x || rest[k] in s[1..];
      }
      StrictHead(s[0], rest);
    } else {
      forall k | 0 <= k < |s| ensures Before(x, s[k]) {
        BeforeTransitive(x, s[0], s[k]);
      }
      StrictHead(x, s);
    }
  }

  lemma StrictHead(x: Scored, s: seq<Scored>)
    requires Strict(s) && forall k :: 0 <= k < |s| ==> Before(x, s[k])
    ensures Strict([x] + s)
    ensures forall e :: e in [x] + s <==> e == x || e in s
  {
    hide Before;
  }

  lemma {:induction false} SortedStrict(s: seq<Scored>)
    requires DistinctScored(s)
    ensures Strict(Sorted(s))
    ensures forall e :: e in Sorted(s) <==> e in s
  {
    if s != [] {
      var rest := Sorted(s[1..]);
      SortedStrict(s[1..]);
      forall k | 0 <= k < |rest| ensures rest[k].id != s[0].id {
        assert rest[k] in rest;
        var i :| 0 <= i < |s[1..]| && s[1..][i] == rest[k];
        assert s[i + 1] == rest[k];
      }
      InsertStrict(s[0], rest);
      assert s == [s[0]] + s[1..];
    }
  }

  /** A strictly ordered list is determined by its elements. */
  lemma {:induction false} StrictUnique(a: seq<Scored>, b: seq<Scored>)
    requires Strict(a) && Strict(b)
    requires forall e :: e in a <==> e in b
    ensures a == b
  {
    hide Before;
    if a != [] || b != [] {
      SameHead(a, b);
      SameTail(a, b);
      StrictUnique(a[1..], b[1..]);
      assert a == [a[0]] + a[1..] && b == [b[0]] + b[1..];
    }
  }

  lemma SameHead(a: seq<Scored>, b: seq<Scored>)
    requires Strict(a) && Strict(b) && (a != [] || b != [])
    requires forall e :: e in a <==> e in b
    ensures a != [] && b != [] && a[0] == b[0]
  {
    hide Before;
    assert a != [] ==> a[0] in a;
    assert b != [] ==> b[0] in b;
    var i :| 0 <= i < |b| && b[i] == a[0];
    var j :| 0 <= j < |a| && a[j] == b[0];
    assert i > 0 ==> Before(b[0], b[i]);
    assert j > 0 ==> Before(a[0], a[j]);
    BeforeTransitive(a[0], b[0], a[0]);
  }

  lemma SameTail(a: seq<Scored>, b: seq<Scored>)
    requires Strict(a) && Strict(b) && a != [] && b != [] && a[0] == b[0]
    requires forall e :: e in a <==> e in b
    ensures forall e :: e in a[1..] <==> e in b[1..]
    ensures Strict(a[1..]) && Strict(b[1..])
  {
    hide Before;
    BeforeTransitive(a[0], a[0], a[0]);
    forall e ensures e in a[1..] <==> e in b[1..] {
      TailMember(a, e);
      TailMember(b, e);
    }
  }

  lemma TailMember(a: seq<Scored>, e: Scored)
    requires Strict(a) && a != []
    ensures e in a[1..] <==> e in a && e != a[0]
  {
    hide Before;
    BeforeTransitive(a[0], a[0], a[0]);
    if e in a[1..] {
      var i :| 0 <= i < |a[1..]| && a[1..][i] == e;
      assert Before(a[0], a[i + 1]);
    }
    assert a == [a[0]] + a[1..];
  }

  /** With distinct ids the ranking, and so every slice of it, ignores the order of the candidates. */
  lemma RankingIgnoresOrder(profile: Profile, p: seq<Property>, q: seq<Property>, snapshots: map<string, Snapshot>,
                            geography: Property -> Geography)
    requires DistinctIds(p) && DistinctIds(q)
    requires forall c :: c in p <==> c in q
    ensures Ranking(profile, p, snapshots, geography) == Ranking(profile, q, snapshots, geography)
  {
    var a, b := ScoredList(profile, p, snapshots, geography), ScoredList(profile, q, snapshots, geography);
    ScoredDistinct(profile, p, snapshots, geography);
    ScoredDistinct(profile, q, snapshots, geography);
    SortedStrict(a);
    SortedStrict(b);
    forall e ensures e in a <==> e in b {
      ListedIff(profile, p, snapshots, geography, e);
      ListedIff(profile, q, snapshots, geography, e);
      SameListed(e, profile, p, q, snapshots, geography);
    }
    hide ScoredList, Sorted, Strict;
    StrictUnique(Sorted(a), Sorted(b));
  }

  lemma SameListed(s: Scored, profile: Profile, p: seq<Property>, q: seq<Property>, snapshots: map<string, Snapshot>,
                   geography: Property -> Geography)
    requires forall c :: c in p <==> c in q
    ensures Listed(s, profile, p, snapshots, geography) <==> Listed(s, profile, q, snapshots, geography)
  {
    hide Passes, ScoreProperty, SnapshotFor;
  }
}
