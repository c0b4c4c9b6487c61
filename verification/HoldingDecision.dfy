/**
 The recommendation for one holding: resolving its market snapshot, collecting candidates,
 keeping the best one per action and ranking them. The portfolio summary resolves snapshots in
 bulk; its decision is compared with the one-holding service.
 */
module HoldingDecision {
  import opened Common
  import opened Rounding
  import opened SignalStore
  import opened SignalQueries
  import opened MarketState
  import opened SnapshotAgreement
  import opened DecisionPolicies
  import opened StableSort

  datatype Action = HOLD | RAISE_RENT | REFI | SELL | IMPROVE

  datatype Candidate = Candidate(action: Action, score: real)

  /** Empty strings stand for null columns. */
  datatype Holding = Holding(id: string, portfolioId: string, propertyId: string, zipCode: string)

  /** The scalars the decision layer reads; holding_decision.py maps only these six. */
  const DECISION_FIELDS: set<ScalarField> :=
    {TransitScore, SchoolScore, SafetyScore, MedianRent, MedianSalePrice, InventoryPressure}

  function ViewOf(snap: Snapshot): View {
    View(map f | f in snap.scalars && f in DECISION_FIELDS :: snap.scalars[f], snap.zoningCode)
  }

  type Owner = UserProfile

  /** Any set of policies; what is proved about decisions holds for each, the built-in ones included. */
  type Policies = (View, Option<Owner>, Option<real>) -> seq<Recommendation>

  // ---------------------------------------------------------------------------
  // Candidates
  // ---------------------------------------------------------------------------

  function MapAction(policyAction: string): Option<Action> {
    if policyAction == "list" then Some(SELL)
    else if policyAction == "hold" || policyAction == "hold_rent" || policyAction == "freeze_rent"
            || policyAction == "monitor" then Some(HOLD)
    else if policyAction == "raise_rent" then Some(RAISE_RENT)
    else if policyAction == "intervene" then Some(IMPROVE)
    else None
  }

  function MapRecommendation(rec: Recommendation): Option<Candidate> {
    match MapAction(rec.policyAction)
    case None => None
    case Some(action) => Some(Candidate(action, Round4(if rec.score < -1.0 then -1.0 else rec.score)))
  }

  function RefiCandidate(fin: Option<Financials>): Option<Candidate> {
    if fin == None || fin.value.interestRate == None then None
    else if fin.value.loanBalance == None || fin.value.loanBalance.value == 0.0 then None
    else if fin.value.interestRate.value <= 0.06 then None
    else
      var score := 0.3 + (fin.value.interestRate.value - 0.06) * 10.0;
      Some(Candidate(REFI, Round4(if score < 1.0 then score else 1.0)))
  }

  /** The position of an action's entry, or |best|. */
  function EntryOf(best: seq<Candidate>, action: Action): (i: nat)
    ensures i <= |best|
    ensures i < |best| ==> best[i].action == action
    ensures forall j :: 0 <= j < i ==> best[j].action != action
  {
    if best == [] then 0
    else if best[0].action == action then 0
    else 1 + EntryOf(best[1..], action)
  }

  ghost predicate OnePerAction(best: seq<Candidate>) {
    forall i, j :: 0 <= i < j < |best| ==> best[i].action != best[j].action
  }

  /** best holds for every action of the candidates its first candidate with the highest score. */
  ghost predicate BestOf(candidates: seq<Candidate>, best: seq<Candidate>) {
    && OnePerAction(best)
    && (forall i :: 0 <= i < |best| ==> IsBest(candidates, best[i]))
    && (forall k :: 0 <= k < |candidates| ==> EntryOf(best, candidates[k].action) < |best|)
  }

  ghost predicate IsBest(candidates: seq<Candidate>, c: Candidate) {
    && c in candidates
    && forall k :: 0 <= k < |candidates| && candidates[k].action == c.action ==> candidates[k].score <= c.score
  }

  /** One round of the best_by_action loop. */
  function Improve(best: seq<Candidate>, cand: Candidate): seq<Candidate> {
    var i := EntryOf(best, cand.action);
    if i == |best| then best + [cand]
    else if cand.score > best[i].score then best[i := cand]
    else best
  }

  function Best(candidates: seq<Candidate>): seq<Candidate> {
    if candidates == [] then []
    else Improve(Best(candidates[..|candidates| - 1]), candidates[|candidates| - 1])
  }

  /** The loop over best_by_action; entries keep the order in which actions first appeared. */
  method BestByAction(candidates: seq<Candidate>) returns (best: seq<Candidate>)
    ensures best == Best(candidates)
  {
    best := [];
    for k := 0 to |candidates|
      invariant best == Best(candidates[..k])
    {
      var cand := candidates[k];
      assert candidates[..k + 1][..k] == candidates[..k];
      var i := EntryOf(best, cand.action);
      if i == |best| {
        best := best + [cand];
      } else if cand.score > best[i].score {
        best := best[i := cand];
      }
    }
    assert candidates[..|candidates|] == candidates;
  }

  lemma {:induction false} BestIsBest(candidates: seq<Candidate>)
    ensures BestOf(candidates, Best(candidates))
  {
    if candidates != [] {
      var n := |candidates| - 1;
      BestIsBest(candidates[..n]);
      assert candidates == candidates[..n] + [candidates[n]];
      var best := Best(candidates[..n]);
      ImproveActions(best, candidates[n]);
      ImproveScores(candidates[..n], candidates[n], best);
      forall k | 0 <= k < |candidates| ensures EntryOf(Best(candidates), candidates[k].action) < |Best(candidates)| {
        if k < n { assert EntryOf(best, candidates[..n][k].action) < |best|; }
      }
    }
  }

  /** An improvement keeps one entry per action, forgets no action and covers the new one. */
  lemma ImproveActions(best: seq<Candidate>, cand: Candidate)
    requires OnePerAction(best)
    ensures OnePerAction(Improve(best, cand))
    ensures forall action :: EntryOf(Improve(best, cand), action) < |Improve(best, cand)| <==>
              action == cand.action || EntryOf(best, action) < |best|
  {
    var after, e := Improve(best, cand), EntryOf(best, cand.action);
    assert after[e].action == cand.action;
    assert forall j :: 0 <= j < |best| ==> after[j].action == best[j].action;
    forall action
      ensures EntryOf(after, action) < |after| <==> action == cand.action || EntryOf(best, action) < |best|
    {
      if EntryOf(best, action) < |best| {
        assert after[EntryOf(best, action)].action == action;
      }
    }
  }

  lemma ImproveScores(seen: seq<Candidate>, cand: Candidate, best: seq<Candidate>)
    requires BestOf(seen, best)
    ensures forall i :: 0 <= i < |Improve(best, cand)| ==> IsBest(seen + [cand], Improve(best, cand)[i])
  {
    var all, e, after := seen + [cand], EntryOf(best, cand.action), Improve(best, cand);
    assert all[|seen|] == cand && forall k :: 0 <= k < |seen| ==> all[k] == seen[k];
    forall i | 0 <= i < |after| ensures IsBest(all, after[i]) {
      if i == e {
        NewBest(seen, cand, best);
      } else {
        assert IsBest(seen, best[i]) && best[i].action != cand.action;
      }
    }
  }

  lemma NewBest(seen: seq<Candidate>, cand: Candidate, best: seq<Candidate>)
    requires BestOf(seen, best)
    ensures IsBest(seen + [cand], Improve(best, cand)[EntryOf(best, cand.action)])
  {
    var all, e := seen + [cand], EntryOf(best, cand.action);
    assert all[|seen|] == cand && forall k :: 0 <= k < |seen| ==> all[k] == seen[k];
    if e < |best| {
      assert IsBest(seen, best[e]);
    } else {
      forall k | 0 <= k < |seen| ensures seen[k].action != cand.action {
        assert EntryOf(best, seen[k].action) < |best|;
      }
    }
  }

  function Rank(c: Candidate): real { c.score }

  datatype Decision = Decision(recommendation: Action, score: real, marketContextAvailable: bool,
                               candidates: seq<Candidate>)

  /** All candidates in the order the service builds them. */
  function Candidates(policies: Policies, view: Option<View>, owner: Option<Owner>,
                      fin: Option<Financials>): seq<Candidate> {
    var fromPolicies := if view == None then []
                        else Mapped(policies(view.value, owner, if fin.Some? then fin.value.monthlyRent else None));
    var refi := RefiCandidate(fin);
    if refi.Some? then fromPolicies + [refi.value] else fromPolicies
  }

  function Mapped(recs: seq<Recommendation>): seq<Candidate> {
    if recs == [] then []
    else
      var front := Mapped(recs[..|recs| - 1]);
      match MapRecommendation(recs[|recs| - 1])
      case None => front
      case Some(c) => front + [c]
  }

  /** The decision for a view, an owner and the financials. */
  function Decided(policies: Policies, view: Option<View>, owner: Option<Owner>, fin: Option<Financials>): Decision {
    var ranked := Sorted(Best(Candidates(policies, view, owner, fin)), Rank);
    var listed := if ranked == [] then [Candidate(HOLD, 0.3)] else ranked;
    Decision(listed[0].action, listed[0].score, view.Some? && view.value.scalars != map[], listed)
  }

  function ViewIfAny(snap: Option<Snapshot>): Option<View> {
    if snap.Some? then Some(ViewOf(snap.value)) else None
  }

  /** The policy runtime's part of compute_holding_decision_preloaded. */
  method PolicyCandidates(view: View, owner: Option<Owner>, monthlyRent: Option<real>)
    returns (candidates: seq<Candidate>)
    ensures candidates == Mapped(Builtin(view, owner, monthlyRent))
  {
    hide MapRecommendation, Collected, Sorted, ReactionOf, ActorOf;
    var reaction := BuildReactionVector(ActorOf(owner), view, monthlyRent);
    var recs := Evaluate(POLICIES, view, reaction);
    assert recs == Builtin(view, owner, monthlyRent);
    hide Builtin;
    candidates := [];
    for i := 0 to |recs|
      invariant candidates == Mapped(recs[..i])
    {
      assert recs[..i + 1][..i] == recs[..i];
      var mapped := MapRecommendation(recs[i]);
      if mapped.Some? {
        candidates := candidates + [mapped.value];
      }
    }
    assert recs[..|recs|] == recs;
  }

  /** compute_holding_decision_preloaded. */
  method ComputePreloaded(fin: Option<Financials>, snap: Option<Snapshot>, owner: Option<Owner>) returns (d: Decision)
    ensures d == Decided(Builtin, ViewIfAny(snap), owner, fin)
  {
    hide Best, Sorted, Mapped, Builtin;
    var view := ViewIfAny(snap);
    var available := view.Some? && view.value.scalars != map[];
    var candidates: seq<Candidate> := [];
    if view.Some? {
      candidates := PolicyCandidates(view.value, owner, if fin.Some? then fin.value.monthlyRent else None);
    }
    var refi := RefiCandidate(fin);
    if refi.Some? {
      candidates := candidates + [refi.value];
    }
    var best := BestByAction(candidates);
    var ranked := Sorted(best, Rank);
    if ranked == [] {
      ranked := [Candidate(HOLD, 0.3)];
    }
    d := Decision(ranked[0].action, ranked[0].score, available, ranked);
  }

  /**
   The ranking lists every action with any candidate exactly once, at that action's highest
   score, in descending order; only without candidates does the fallback appear.
   */
  lemma DecisionRanksBest(policies: Policies, view: Option<View>, owner: Option<Owner>, fin: Option<Financials>)
    ensures var candidates, d := Candidates(policies, view, owner, fin), Decided(policies, view, owner, fin);
            && (candidates == [] ==> d.candidates == [Candidate(HOLD, 0.3)])
            && (candidates != [] ==> Descending(d.candidates, Rank) && BestOf(candidates, d.candidates))
  {
    var candidates := Candidates(policies, view, owner, fin);
    BestIsBest(candidates);
    RankedKeepsBest(candidates, Best(candidates));
    if candidates != [] {
      assert EntryOf(Sorted(Best(candidates), Rank), candidates[0].action) < |Sorted(Best(candidates), Rank)|;
    }
  }

  lemma RankedKeepsBest(candidates: seq<Candidate>, best: seq<Candidate>)
    requires BestOf(candidates, best)
    ensures BestOf(candidates, Sorted(best, Rank)) && Descending(Sorted(best, Rank), Rank)
  {
    var ranked := Sorted(best, Rank);
    SortedDescends(best, Rank);
    forall i | 0 <= i < |ranked| ensures IsBest(candidates, ranked[i]) {
      assert ranked[i] in multiset(best);
      var j :| 0 <= j < |best| && best[j] == ranked[i];
    }
    forall k | 0 <= k < |candidates| ensures EntryOf(ranked, candidates[k].action) < |ranked| {
      var j := EntryOf(best, candidates[k].action);
      assert best[j] in multiset(ranked);
      var i :| 0 <= i < |ranked| && ranked[i] == best[j];
    }
    DistinctStaysDistinct(best, ranked);
  }

  lemma DistinctStaysDistinct(a: seq<Candidate>, b: seq<Candidate>)
    requires OnePerAction(a) && multiset(a) == multiset(b)
    ensures OnePerAction(b)
  {
    forall i, j | 0 <= i < j < |b| ensures b[i].action != b[j].action {
      if b[i].action == b[j].action {
        assert b[i] in multiset(a) && b[j] in multiset(a);
        var x :| 0 <= x < |a| && a[x] == b[i];
        var y :| 0 <= y < |a| && a[y] == b[j];
        assert x == y;
        TwiceIn(b, i, j);
        OnceIn(a, x);
      }
    }
  }

  lemma TwiceIn(s: seq<Candidate>, i: nat, j: nat)
    requires i < j < |s| && s[i] == s[j]
    ensures multiset(s)[s[i]] >= 2
  {
    assert s == s[..i + 1] + s[i + 1..];
    assert s[i] in multiset(s[..i + 1]) && s[i + 1..][j - i - 1] == s[i];
    assert s[i] in multiset(s[i + 1..]);
  }

  lemma OnceIn(s: seq<Candidate>, x: nat)
    requires OnePerAction(s) && x < |s|
    ensures multiset(s)[s[x]] == 1
  {
    assert s == s[..x] + [s[x]] + s[x + 1..];
    assert s[x] !in s[..x] && s[x] !in s[x + 1..];
  }

  /** The recommendation scores at least as high as every candidate of every action. */
  lemma RecommendationIsTop(policies: Policies, view: Option<View>, owner: Option<Owner>, fin: Option<Financials>,
                            c: Candidate)
    requires c in Candidates(policies, view, owner, fin)
    ensures c.score <= Decided(policies, view, owner, fin).score
  {
    var candidates, d := Candidates(policies, view, owner, fin), Decided(policies, view, owner, fin);
    DecisionRanksBest(policies, view, owner, fin);
    var k :| 0 <= k < |candidates| && candidates[k] == c;
    var i := EntryOf(d.candidates, c.action);
    assert IsBest(candidates, d.candidates[i]);
  }

  // ---------------------------------------------------------------------------
  // Zip-only snapshots: two services, two rules
  // ---------------------------------------------------------------------------

  function Bare(zip: string, scalars: map<ScalarField, real>): Snapshot {
    Snapshot(None, None, Some(zip), None, None, scalars, map[])
  }

  /** The first row of a list that carries a value for a field. */
  function FirstWithValue(s: seq<Signal>, f: ScalarField): Option<real> {
    if s == [] then None
    else OrElse(FirstWithValue(s[..|s| - 1], f),
                if s[|s| - 1].signalType == Scalar(f) then s[|s| - 1].value else None)
  }

  /** _snapshot_from_zip: the newest non-null value of each of the six decision fields. */
  method SnapshotFromZip(rows: seq<Signal>, zip: string) returns (snap: Snapshot)
    ensures exists answer :: IsAnswer(rows, SUBJECT_NEIGHBORHOOD, {zip}, answer) && FromZip(zip, answer, snap)
  {
    hide IsAnswer;
    var answer := Query(rows, SUBJECT_NEIGHBORHOOD, {zip});
    var scalars: map<ScalarField, real> := map[];
    var seen: set<ScalarField> := {};
    for i := 0 to |answer|
      invariant seen == scalars.Keys
      invariant forall f :: At(scalars, f) == if f in DECISION_FIELDS then FirstWithValue(answer[..i], f) else None
    {
      assert answer[..i + 1][..i] == answer[..i];
      var row := answer[i];
      ghost var before := scalars;
      if row.signalType.Scalar? && row.signalType.field in DECISION_FIELDS && row.signalType.field !in seen
         && row.value.Some? {
        scalars := scalars[row.signalType.field := row.value.value];
        seen := seen + {row.signalType.field};
      }
      forall f ensures At(scalars, f) == if f in DECISION_FIELDS then FirstWithValue(answer[..i + 1], f) else None {
        assert At(before, f) == if f in DECISION_FIELDS then FirstWithValue(answer[..i], f) else None;
      }
    }
    assert answer[..|answer|] == answer;
    snap := Bare(zip, scalars);
  }

  ghost predicate FromZip(zip: string, answer: seq<Signal>, snap: Snapshot) {
    && snap == Bare(zip, snap.scalars)
    && forall f :: At(snap.scalars, f) == if f in DECISION_FIELDS then FirstWithValue(answer, f) else None
  }

  /** neighborhood_snapshots: for each zip, the newest row of every scalar type, if it has a value. */
  method NeighborhoodSnapshots(rows: seq<Signal>, zips: seq<string>) returns (out: map<string, Snapshot>)
    ensures out.Keys == SignalQueries.Truthy(zips)
    ensures forall zip :: zip in out ==>
              exists list :: IsLatest(rows, SUBJECT_NEIGHBORHOOD, zip, list) && FromNewest(zip, list, out[zip])
  {
    hide IsLatest;
    var signalsByZip := LatestSignalsBulk(rows, SUBJECT_NEIGHBORHOOD, zips);
    out := map[];
    for i := 0 to |zips|
      invariant out.Keys == SignalQueries.Truthy(zips[..i])
      invariant forall zip :: zip in out ==> FromNewest(zip, GetOrEmpty(signalsByZip, zip), out[zip])
    {
      assert zips[..i + 1] == zips[..i] + [zips[i]];
      if zips[i] != "" {
        var scalars := ScalarsOf(GetOrEmpty(signalsByZip, zips[i]));
        out := out[zips[i] := Bare(zips[i], scalars)];
      }
    }
    assert zips[..|zips|] == zips;
  }

  method ScalarsOf(list: seq<Signal>) returns (scalars: map<ScalarField, real>)
    ensures forall f :: At(scalars, f) == LastValue(list, f)
  {
    scalars := map[];
    for i := 0 to |list|
      invariant forall f :: At(scalars, f) == LastValue(list[..i], f)
    {
      assert list[..i + 1][..i] == list[..i];
      ghost var before := scalars;
      if list[i].signalType.Scalar? && list[i].value.Some? {
        scalars := scalars[list[i].signalType.field := list[i].value.value];
      }
      forall f ensures At(scalars, f) == LastValue(list[..i + 1], f) {
        assert At(before, f) == LastValue(list[..i], f);
      }
    }
    assert list[..|list|] == list;
  }

  function LastValue(s: seq<Signal>, f: ScalarField): Option<real> {
    if s == [] then None
    else OrElse(if s[|s| - 1].signalType == Scalar(f) then s[|s| - 1].value else None,
                LastValue(s[..|s| - 1], f))
  }

  ghost predicate FromNewest(zip: string, list: seq<Signal>, snap: Snapshot) {
    && snap == Bare(zip, snap.scalars)
    && forall f :: At(snap.scalars, f) == LastValue(list, f)
  }

  lemma {:induction false} LastValueByType(list: seq<Signal>, f: ScalarField)
    requires DistinctTypes(list)
    ensures LastValue(list, f) == ValueOf(ByType(list, Scalar(f)))
  {
    if list != [] {
      Front(list);
      LastValueByType(list[..|list| - 1], f);
    }
  }

  /** The newest row of the type has a value, or no stored row of the type has one. */
  ghost predicate NewestHasValue(rows: seq<Signal>, zip: string, f: ScalarField) {
    || (forall k :: 0 <= k < |rows| && Selected(rows[k], SUBJECT_NEIGHBORHOOD, {zip}) && rows[k].signalType == Scalar(f)
          ==> rows[k].value == None)
    || (exists row :: IsNewest(rows, SUBJECT_NEIGHBORHOOD, zip, row) && row.signalType == Scalar(f) && row.value.Some?)
  }

  lemma {:induction false} FirstWithValueFinds(s: seq<Signal>, f: ScalarField)
    requires NewestFirst(s)
    ensures match FirstWithValue(s, f)
            case None => forall i :: 0 <= i < |s| && s[i].signalType == Scalar(f) ==> s[i].value == None
            case Some(v) => exists i :: 0 <= i < |s| && FirstValued(s, i, f) && s[i].value == Some(v)
  {
    if s != [] {
      var n := |s| - 1;
      FirstWithValueFinds(s[..n], f);
      match FirstWithValue(s[..n], f) {
        case Some(v) =>
          var i :| 0 <= i < n && FirstValued(s[..n], i, f) && s[..n][i].value == Some(v);
          StillFirst(s, i, f);
          hide FirstValued;
        case None =>
          assert forall i :: 0 <= i < n ==> s[..n][i] == s[i];
          if s[n].signalType == Scalar(f) && s[n].value.Some? {
            assert FirstValued(s, n, f);
          }
      }
    }
  }

  lemma StillFirst(s: seq<Signal>, i: int, f: ScalarField)
    requires s != [] && NewestFirst(s) && FirstValued(s[..|s| - 1], i, f)
    ensures FirstValued(s, i, f)
  {
    var n := |s| - 1;
    assert s[..n][i] == s[i] && s[i].observedAt >= s[n].observedAt;
    forall j | 0 <= j < |s| && s[j].signalType == Scalar(f) && s[j].value.Some?
      ensures s[j].observedAt <= s[i].observedAt
    {
      if j < n {
        assert s[..n][j] == s[j];
      }
    }
  }

  /** Row i has a value of the field and no row with one is newer. */
  ghost predicate FirstValued(s: seq<Signal>, i: int, f: ScalarField) {
    && 0 <= i < |s| && s[i].signalType == Scalar(f) && s[i].value.Some?
    && forall j :: 0 <= j < |s| && s[j].signalType == Scalar(f) && s[j].value.Some? ==>
        s[j].observedAt <= s[i].observedAt
  }

  /** The two zip rules give the same value for a field exactly when the newest row is not a null that hides a value. */
  lemma {:induction false} ZipRulesAgreeIff(rows: seq<Signal>, zip: string, answer: seq<Signal>, list: seq<Signal>,
                                            f: ScalarField)
    requires Unique(rows)
    requires IsAnswer(rows, SUBJECT_NEIGHBORHOOD, {zip}, answer) && IsLatest(rows, SUBJECT_NEIGHBORHOOD, zip, list)
    ensures FirstWithValue(answer, f) == LastValue(list, f) <==> NewestHasValue(rows, zip, f)
  {
    FirstWithValueFinds(answer, f);
    LastValueByType(list, f);
    LatestIsNewest(rows, SUBJECT_NEIGHBORHOOD, zip, list, Scalar(f));
    var newest := ByType(list, Scalar(f));
    match FirstWithValue(answer, f) {
      case None =>
        forall k | 0 <= k < |rows| && Selected(rows[k], SUBJECT_NEIGHBORHOOD, {zip}) && rows[k].signalType == Scalar(f)
          ensures rows[k].value == None
        {
          assert rows[k] in answer;
        }
      case Some(v) =>
        var i :| 0 <= i < |answer| && FirstValued(answer, i, f) && answer[i].value == Some(v);
        assert answer[i] in answer;
        ValuedAnswer(rows, zip, answer, i, f, newest);
    }
  }

  lemma ValuedAnswer(rows: seq<Signal>, zip: string, answer: seq<Signal>, i: int, f: ScalarField,
                     newest: Option<Signal>)
    requires Unique(rows) && IsAnswer(rows, SUBJECT_NEIGHBORHOOD, {zip}, answer)
    requires FirstValued(answer, i, f) && NewestOf(rows, SUBJECT_NEIGHBORHOOD, zip, Scalar(f), newest)
    ensures newest.Some?
    ensures answer[i].value == newest.value.value <==> NewestHasValue(rows, zip, f)
  {
    assert answer[i] in answer;
    var k :| 0 <= k < |rows| && rows[k] == answer[i];
    if newest.value.value.Some? {
      assert newest.value in answer;
      var j :| 0 <= j < |answer| && answer[j] == newest.value;
      assert answer[j].observedAt <= answer[i].observedAt;
      assert KeyOf(answer[i]) == KeyOf(newest.value);
      assert IsNewest(rows, SUBJECT_NEIGHBORHOOD, zip, newest.value);
    } else if NewestHasValue(rows, zip, f) {
      var row :| IsNewest(rows, SUBJECT_NEIGHBORHOOD, zip, row) && row.signalType == Scalar(f) && row.value.Some?;
      NewestUnique(rows, SUBJECT_NEIGHBORHOOD, zip, row, newest.value);
    }
  }

  // ---------------------------------------------------------------------------
  // One decision, computed singly or from the summary's bulk loads
  // ---------------------------------------------------------------------------

  /** snap is what the one-holding service resolves for a holding. */
  ghost predicate ResolvedSingly(rows: seq<Signal>, properties: map<string, Property>, h: Holding,
                                 snap: Option<Snapshot>) {
    if h.propertyId != "" && h.propertyId in properties then
      snap.Some? && IsSnapshot(rows, properties[h.propertyId], snap.value)
    else if h.zipCode != "" then
      snap.Some? && exists answer ::
        IsAnswer(rows, SUBJECT_NEIGHBORHOOD, {h.zipCode}, answer) && FromZip(h.zipCode, answer, snap.value)
    else snap == None
  }

  /** snap is what the portfolio summary resolves for a holding. */
  ghost predicate ResolvedInBulk(rows: seq<Signal>, properties: map<string, Property>, h: Holding,
                                 snap: Option<Snapshot>) {
    if h.propertyId != "" && h.propertyId in properties then
      snap.Some? && IsSnapshot(rows, properties[h.propertyId], snap.value)
    else if h.zipCode != "" then
      snap.Some? && exists list ::
        IsLatest(rows, SUBJECT_NEIGHBORHOOD, h.zipCode, list) && FromNewest(h.zipCode, list, snap.value)
    else snap == None
  }

  /** The owner of a portfolio, when its user exists. */
  function OwnerOf(portfolios: map<string, string>, users: map<string, Owner>, portfolioId: string): Option<Owner> {
    if portfolioId in portfolios && portfolios[portfolioId] in users then Some(users[portfolios[portfolioId]]) else None
  }

  /** The decision for a resolved snapshot; the owner is consulted only where there is one. */
  function DecisionFor(policies: Policies, snap: Option<Snapshot>, owner: Option<Owner>,
                       fin: Option<Financials>): Decision {
    Decided(policies, ViewIfAny(snap), if snap.Some? then owner else None, fin)
  }

  /** _resolve_snapshot and compute_holding_decision. */
  method ComputeHoldingDecision(rows: seq<Signal>, properties: map<string, Property>, portfolios: map<string, string>,
                                users: map<string, Owner>, h: Holding, fin: Option<Financials>)
    returns (d: Decision)
    requires forall k :: k in properties ==> properties[k].id == k
    ensures exists snap ::
              && ResolvedSingly(rows, properties, h, snap)
              && d == DecisionFor(Builtin, snap, OwnerOf(portfolios, users, h.portfolioId), fin)
  {
    hide IsSnapshot, IsAnswer, FromZip, Decided;
    var snap: Option<Snapshot> := None;
    if h.propertyId != "" {
      snap := BuildSnapshot(rows, properties, h.propertyId);
    }
    if snap == None && h.zipCode != "" {
      var fromZip := SnapshotFromZip(rows, h.zipCode);
      snap := Some(fromZip);
    }
    var owner := if snap.Some? then OwnerOf(portfolios, users, h.portfolioId) else None;
    d := ComputePreloaded(fin, snap, owner);
    assert ResolvedSingly(rows, properties, h, snap);
  }

  /** The loop of build_portfolio_summary, as far as it decides: bulk loads first, then one pass. */
  method SummaryDecisions(rows: seq<Signal>, properties: map<string, Property>, portfolios: map<string, string>,
                          users: map<string, Owner>, portfolioId: string,
                          holdings: seq<Holding>, fins: map<string, Financials>)
    returns (decisions: seq<Decision>)
    requires forall k :: k in properties ==> properties[k].id == k
    requires forall i :: 0 <= i < |holdings| ==> holdings[i].portfolioId == portfolioId
    ensures |decisions| == |holdings|
    ensures forall i :: 0 <= i < |holdings| ==>
              DecidedInBulk(rows, properties, portfolios, users, holdings[i], At(fins, holdings[i].id), decisions[i])
  {
    hide IsSnapshot, IsLatest, FromNewest, Decided;
    var props: seq<Property> := [];
    var zips: seq<string> := [];
    for i := 0 to |holdings|
      invariant forall p :: 0 <= p < |props| ==>
        props[p].id != "" && props[p].id in properties && properties[props[p].id] == props[p]
      invariant forall j :: 0 <= j < i && holdings[j].propertyId != "" && holdings[j].propertyId in properties ==>
                  exists p :: 0 <= p < |props| && props[p].id == holdings[j].propertyId
    {
      var id := holdings[i].propertyId;
      if id != "" && id in properties {
        ghost var before := props;
        props := props + [properties[id]];
        assert props[|before|].id == id;
        assert forall p :: 0 <= p < |before| ==> props[p] == before[p];
      }
    }
    var propSnapshots := BuildSnapshots(rows, props);
    for i := 0 to |holdings|
      invariant forall j :: 0 <= j < i && holdings[j].zipCode != "" && At(propSnapshots, holdings[j].propertyId) == None
                  ==> holdings[j].zipCode in zips
    {
      if holdings[i].zipCode != "" &&
         (holdings[i].propertyId == "" || At(propSnapshots, holdings[i].propertyId) == None) {
        zips := zips + [holdings[i].zipCode];
      }
      assert holdings[i].propertyId == "" ==> At(propSnapshots, holdings[i].propertyId) == None;
    }
    var zipSnapshots := NeighborhoodSnapshots(rows, zips);
    var owner := OwnerOf(portfolios, users, portfolioId);
    decisions := [];
    for i := 0 to |holdings|
      invariant |decisions| == i
      invariant forall j :: 0 <= j < i ==>
                  DecidedInBulk(rows, properties, portfolios, users, holdings[j],
                                At(fins, holdings[j].id), decisions[j])
    {
      var h := holdings[i];
      var snap := if h.propertyId != "" && At(propSnapshots, h.propertyId).Some? then At(propSnapshots, h.propertyId)
                  else if h.zipCode != "" then At(zipSnapshots, h.zipCode)
                  else None;
      var d := ComputePreloaded(At(fins, h.id), snap, if snap.Some? then owner else None);
      assert ResolvedInBulk(rows, properties, h, snap);
      decisions := decisions + [d];
    }
  }

  ghost predicate DecidedInBulk(rows: seq<Signal>, properties: map<string, Property>, portfolios: map<string, string>,
                                users: map<string, Owner>, h: Holding, fin: Option<Financials>, d: Decision) {
    exists snap ::
      && ResolvedInBulk(rows, properties, h, snap)
      && d == DecisionFor(Builtin, snap, OwnerOf(portfolios, users, h.portfolioId), fin)
  }

  /** The zip fallback is not in play, or no decision field hides an older value behind a null. */
  ghost predicate ZipSafe(rows: seq<Signal>, properties: map<string, Property>, h: Holding) {
    || (h.propertyId != "" && h.propertyId in properties)
    || h.zipCode == ""
    || forall f :: f in DECISION_FIELDS ==> NewestHasValue(rows, h.zipCode, f)
  }

  /**
   Both services show the decision layer the same view of the market, for every holding and any
   tie order, exactly when no zip-only decision field hides an older value behind a null.
   */
  lemma {:induction false} ViewsAgreeIff(rows: seq<Signal>, properties: map<string, Property>, h: Holding,
                                         single: Option<Snapshot>, bulk: Option<Snapshot>)
    requires Unique(rows)
    requires ResolvedSingly(rows, properties, h, single) && ResolvedInBulk(rows, properties, h, bulk)
    ensures ViewIfAny(single) == ViewIfAny(bulk) <==> ZipSafe(rows, properties, h)
  {
    hide NewestHasValue, IsSnapshot, IsAnswer, IsLatest;
    if h.propertyId != "" && h.propertyId in properties {
      ScalarsAlwaysAgree(rows, properties[h.propertyId], single.value, bulk.value);
    } else if h.zipCode != "" {
      var answer :| IsAnswer(rows, SUBJECT_NEIGHBORHOOD, {h.zipCode}, answer) &&
        FromZip(h.zipCode, answer, single.value);
      var list :| IsLatest(rows, SUBJECT_NEIGHBORHOOD, h.zipCode, list) && FromNewest(h.zipCode, list, bulk.value);
      var v, w := ViewOf(single.value), ViewOf(bulk.value);
      forall f
        ensures (At(v.scalars, f) == At(w.scalars, f)) <==>
                (f in DECISION_FIELDS ==> NewestHasValue(rows, h.zipCode, f))
      {
        if f in DECISION_FIELDS {
          ZipRulesAgreeIff(rows, h.zipCode, answer, list, f);
        }
      }
      if ZipSafe(rows, properties, h) {
        SameMap(v.scalars, w.scalars);
      }
    }
  }

  /**
   Both services decide alike under every set of policies, for every owner and all financials,
   exactly when no zip-only decision field hides an older value behind a null.
   */
  lemma {:induction false} DecisionsAgree(rows: seq<Signal>, properties: map<string, Property>, h: Holding,
                                          single: Option<Snapshot>, bulk: Option<Snapshot>)
    requires Unique(rows)
    requires ResolvedSingly(rows, properties, h, single) && ResolvedInBulk(rows, properties, h, bulk)
    ensures (forall policies, owner, fin ::
               DecisionFor(policies, single, owner, fin) == DecisionFor(policies, bulk, owner, fin))
       <==> ZipSafe(rows, properties, h)
  {
    ViewsAgreeIff(rows, properties, h, single, bulk);
    assert single.Some? <==> bulk.Some?;
    hide ResolvedSingly, ResolvedInBulk, ZipSafe, ViewOf;
    if ViewIfAny(single) != ViewIfAny(bulk) {
      var view := ViewOf(single.value);
      var policies := Detector(view);
      DetectorTells(view, single);
      DetectorTells(view, bulk);
    }
  }

  /** Recommends selling on one view of the market and nothing on any other. */
  function Detector(view: View): Policies {
    (v, owner, rent) => if v == view then [Recommendation("list", 1.0)] else []
  }

  lemma DetectorTells(view: View, snap: Option<Snapshot>)
    ensures DecisionFor(Detector(view), snap, None, None).recommendation == SELL <==> ViewIfAny(snap) == Some(view)
  {
    LoneSale();
    NothingMapped();
    hide ViewOf, Round4, Mapped, Best, Sorted;
  }

  lemma NothingMapped()
    ensures Mapped([]) == [] && Sorted(Best([]), Rank) == []
  {
  }

  lemma LoneSale()
    ensures var one := [Candidate(SELL, Round4(1.0))];
            Mapped([Recommendation("list", 1.0)]) == one && Sorted(Best(one), Rank) == one
  {
    hide Round4;
    var recs, one := [Recommendation("list", 1.0)], [Candidate(SELL, Round4(1.0))];
    assert recs[..0] == [];
    assert Mapped(recs) == one;
    assert one[..0] == [];
    assert Best(one) == one;
    assert Sorted(one, Rank) == one;
  }

  /** The two services see the same of three scalars, and both or neither see any decision field. */
  ghost predicate BuiltinSafe(rows: seq<Signal>, properties: map<string, Property>, h: Holding) {
    || (h.propertyId != "" && h.propertyId in properties)
    || h.zipCode == ""
    || (ThreeSafe(rows, h.zipCode) && (SomeNewestValued(rows, h.zipCode) || AllSafe(rows, h.zipCode)))
  }

  ghost predicate ThreeSafe(rows: seq<Signal>, zip: string) {
    forall f :: f in READ_FIELDS ==> NewestHasValue(rows, zip, f)
  }

  ghost predicate AllSafe(rows: seq<Signal>, zip: string) {
    forall f :: f in DECISION_FIELDS ==> NewestHasValue(rows, zip, f)
  }

  ghost predicate SomeNewestValued(rows: seq<Signal>, zip: string) {
    exists f :: f in DECISION_FIELDS && NewestValued(rows, zip, f)
  }

  /** The newest row of the field has a value. */
  ghost predicate NewestValued(rows: seq<Signal>, zip: string, f: ScalarField) {
    exists row :: IsNewest(rows, SUBJECT_NEIGHBORHOOD, zip, row) && row.signalType == Scalar(f) && row.value.Some?
  }

  /** The policies look at no more of the market than the built-in ones do. */
  ghost predicate ReadsThree(policies: Policies) {
    forall v, w, owner, rent :: SameThree(v, w) ==> policies(v, owner, rent) == policies(w, owner, rent)
  }

  lemma BuiltinIsNarrow()
    ensures ReadsThree(Builtin)
  {
    forall v, w, owner, rent | SameThree(v, w) ensures Builtin(v, owner, rent) == Builtin(w, owner, rent) {
      BuiltinReadsThree(v, w, owner, rent);
    }
  }

  /**
   For policies that read what the built-in ones read, the exact condition is weaker: a null may
   hide a value of any other field, as long as some field is left to show that there is a market.
   */
  lemma {:induction false} NarrowDecisionsAgree(rows: seq<Signal>, properties: map<string, Property>, h: Holding,
                                                single: Option<Snapshot>, bulk: Option<Snapshot>)
    requires Unique(rows)
    requires ResolvedSingly(rows, properties, h, single) && ResolvedInBulk(rows, properties, h, bulk)
    ensures (forall policies, owner, fin :: ReadsThree(policies) ==>
               DecisionFor(policies, single, owner, fin) == DecisionFor(policies, bulk, owner, fin))
       <==> BuiltinSafe(rows, properties, h)
  {
    if ZipSafe(rows, properties, h) {
      ViewsAgreeIff(rows, properties, h, single, bulk);
      SafeIsBuiltinSafe(rows, properties, h);
      assert single.Some? <==> bulk.Some?;
      hide ResolvedSingly, ResolvedInBulk, BuiltinSafe, ZipSafe, ViewIfAny, Decided, ReadsThree;
    } else {
      SeenFields(rows, properties, h, single, bulk);
      NarrowSplit(rows, h.zipCode, single, bulk);
      hide ResolvedSingly, ResolvedInBulk, ReadsThree, DecisionFor, ThreeSafe, AllSafe, SomeNewestValued;
    }
  }

  lemma SafeIsBuiltinSafe(rows: seq<Signal>, properties: map<string, Property>, h: Holding)
    requires ZipSafe(rows, properties, h)
    ensures BuiltinSafe(rows, properties, h)
  {
    hide NewestHasValue;
  }

  lemma NarrowSplit(rows: seq<Signal>, zip: string, single: Option<Snapshot>, bulk: Option<Snapshot>)
    requires single.Some? && bulk.Some?
    requires SameThree(ViewOf(single.value), ViewOf(bulk.value)) <==> ThreeSafe(rows, zip)
    requires ViewOf(single.value).scalars != map[]
    requires ViewOf(bulk.value).scalars != map[] <==> SomeNewestValued(rows, zip)
    ensures (forall policies, owner, fin :: ReadsThree(policies) ==>
               DecisionFor(policies, single, owner, fin) == DecisionFor(policies, bulk, owner, fin))
       <==> ThreeSafe(rows, zip) && SomeNewestValued(rows, zip)
  {
    var v, w := ViewOf(single.value), ViewOf(bulk.value);
    hide ThreeSafe, SomeNewestValued, ViewOf, ReadsThree, DecisionFor;
    if SameThree(v, w) && w.scalars != map[] {
      forall policies, owner, fin | ReadsThree(policies)
        ensures DecisionFor(policies, single, owner, fin) == DecisionFor(policies, bulk, owner, fin)
      {
        NarrowSame(policies, single, bulk, owner, fin);
      }
    } else if !SameThree(v, w) {
      NarrowDetectorTells(v, w, single, bulk);
    } else {
      BuiltinIsNarrow();
      AvailabilityDiffers(Builtin, single, bulk);
    }
  }

  /** So the summary's decision is the holding service's whenever nothing hides what is read. */
  lemma {:induction false} BuiltinDecisionsAgree(rows: seq<Signal>, properties: map<string, Property>, h: Holding,
                                                 owner: Option<Owner>, fin: Option<Financials>,
                                                 single: Option<Snapshot>, bulk: Option<Snapshot>)
    requires Unique(rows) && BuiltinSafe(rows, properties, h)
    requires ResolvedSingly(rows, properties, h, single) && ResolvedInBulk(rows, properties, h, bulk)
    ensures DecisionFor(Builtin, single, owner, fin) == DecisionFor(Builtin, bulk, owner, fin)
  {
    hide ResolvedSingly, ResolvedInBulk, BuiltinSafe, Builtin, Decided, ReadsThree;
    NarrowDecisionsAgree(rows, properties, h, single, bulk);
    BuiltinIsNarrow();
  }

  /** And where nothing hides what is read, exactly when both services see whether there is a market. */
  lemma {:induction false} BuiltinDecisionsAgreeIff(rows: seq<Signal>, properties: map<string, Property>, h: Holding,
                                                    single: Option<Snapshot>, bulk: Option<Snapshot>)
    requires Unique(rows) && ThreeSafe(rows, h.zipCode)
    requires ResolvedSingly(rows, properties, h, single) && ResolvedInBulk(rows, properties, h, bulk)
    ensures (forall owner, fin :: DecisionFor(Builtin, single, owner, fin) == DecisionFor(Builtin, bulk, owner, fin))
       <==> BuiltinSafe(rows, properties, h)
  {
    if BuiltinSafe(rows, properties, h) {
      forall owner, fin ensures DecisionFor(Builtin, single, owner, fin) == DecisionFor(Builtin, bulk, owner, fin) {
        BuiltinDecisionsAgree(rows, properties, h, owner, fin, single, bulk);
      }
    } else {
      hide ThreeSafe, NewestHasValue, ResolvedSingly, ResolvedInBulk, SomeNewestValued, DecisionFor, Builtin;
      SeenFields(rows, properties, h, single, bulk);
      AvailabilityDiffers(Builtin, single, bulk);
    }
  }

  /**
   A hidden value of the three need not show: the built-in policies never tell a safety score of 5.0
   from none, whoever owns the holding and whatever its financials.
   */
  lemma NeutralSafetyUnseen(single: Snapshot, bulk: Snapshot, owner: Option<Owner>, fin: Option<Financials>)
    requires Read(ViewOf(single), SafetyScore) == Some(5.0) && Read(ViewOf(bulk), SafetyScore) == None
    requires Read(ViewOf(single), InventoryPressure) == Read(ViewOf(bulk), InventoryPressure)
    requires Read(ViewOf(single), MedianRent) == Read(ViewOf(bulk), MedianRent)
    requires ViewOf(bulk).scalars != map[]
    ensures DecisionFor(Builtin, Some(single), owner, fin) == DecisionFor(Builtin, Some(bulk), owner, fin)
  {
    var rent := if fin.Some? then fin.value.monthlyRent else None;
    assert SafetyScore in ViewOf(single).scalars;
    hide ViewOf;
    BuiltinReadsShift(ViewOf(single), ViewOf(bulk), owner, rent);
    hide Builtin, Read, Best, Sorted, Mapped;
  }

  /** What a zip-only holding shows on either path, where the two paths differ somewhere. */
  lemma SeenFields(rows: seq<Signal>, properties: map<string, Property>, h: Holding, single: Option<Snapshot>,
                   bulk: Option<Snapshot>)
    requires Unique(rows) && !ZipSafe(rows, properties, h)
    requires ResolvedSingly(rows, properties, h, single) && ResolvedInBulk(rows, properties, h, bulk)
    ensures single.Some? && bulk.Some? && h.zipCode != "" && !AllSafe(rows, h.zipCode)
    ensures SameThree(ViewOf(single.value), ViewOf(bulk.value)) <==> ThreeSafe(rows, h.zipCode)
    ensures ViewOf(single.value).scalars != map[]
    ensures ViewOf(bulk.value).scalars != map[] <==> SomeNewestValued(rows, h.zipCode)
    ensures !(h.propertyId != "" && h.propertyId in properties)
  {
    hide IsAnswer, IsLatest, IsSnapshot, NewestHasValue, NewestValued;
    var zip := h.zipCode;
    var answer :| IsAnswer(rows, SUBJECT_NEIGHBORHOOD, {zip}, answer) && FromZip(zip, answer, single.value);
    var list :| IsLatest(rows, SUBJECT_NEIGHBORHOOD, zip, list) && FromNewest(zip, list, bulk.value);
    forall f | f in DECISION_FIELDS
      ensures Read(ViewOf(single.value), f) == Read(ViewOf(bulk.value), f) <==> NewestHasValue(rows, zip, f)
      ensures !NewestHasValue(rows, zip, f) ==> f in ViewOf(single.value).scalars
      ensures f in ViewOf(bulk.value).scalars <==> NewestValued(rows, zip, f)
    {
      ZipRulesAgreeIff(rows, zip, answer, list, f);
      SeenNewest(rows, zip, list, f);
      assert At(single.value.scalars, f) == FirstWithValue(answer, f);
      assert At(bulk.value.scalars, f) == LastValue(list, f);
      if !NewestHasValue(rows, zip, f) {
        HiddenIsSeen(rows, zip, answer, f);
      }
    }
    assert forall f :: f in READ_FIELDS ==> f in DECISION_FIELDS;
    SameThreeIff(ViewOf(single.value), ViewOf(bulk.value));
    var hidden :| hidden in DECISION_FIELDS && !NewestHasValue(rows, zip, hidden);
    assert hidden in ViewOf(single.value).scalars;
    forall f | f in ViewOf(bulk.value).scalars ensures f in DECISION_FIELDS {
    }
  }

  lemma SameThreeIff(v: View, w: View)
    ensures SameThree(v, w) <==> forall f :: f in READ_FIELDS ==> Read(v, f) == Read(w, f)
  {
    hide Read;
    assert InventoryPressure in READ_FIELDS && SafetyScore in READ_FIELDS && MedianRent in READ_FIELDS;
  }

  lemma SeenNewest(rows: seq<Signal>, zip: string, list: seq<Signal>, f: ScalarField)
    requires Unique(rows) && IsLatest(rows, SUBJECT_NEIGHBORHOOD, zip, list)
    ensures LastValue(list, f).Some? <==> NewestValued(rows, zip, f)
  {
    LastValueByType(list, f);
    LatestIsNewest(rows, SUBJECT_NEIGHBORHOOD, zip, list, Scalar(f));
    hide IsLatest, LastValue;
    var newest := ByType(list, Scalar(f));
    if NewestValued(rows, zip, f) {
      var row :| IsNewest(rows, SUBJECT_NEIGHBORHOOD, zip, row) && row.signalType == Scalar(f) && row.value.Some?;
      assert newest.Some?;
      NewestUnique(rows, SUBJECT_NEIGHBORHOOD, zip, row, newest.value);
    }
  }

  lemma HiddenIsSeen(rows: seq<Signal>, zip: string, answer: seq<Signal>, f: ScalarField)
    requires IsAnswer(rows, SUBJECT_NEIGHBORHOOD, {zip}, answer) && !NewestHasValue(rows, zip, f)
    ensures FirstWithValue(answer, f).Some?
  {
    FirstWithValueFinds(answer, f);
    hide FirstWithValue;
    var k :| 0 <= k < |rows| && Selected(rows[k], SUBJECT_NEIGHBORHOOD, {zip}) && rows[k].signalType == Scalar(f)
             && rows[k].value != None;
    assert rows[k] in answer;
  }

  lemma NarrowSame(policies: Policies, single: Option<Snapshot>, bulk: Option<Snapshot>, owner: Option<Owner>,
                   fin: Option<Financials>)
    requires ReadsThree(policies) && single.Some? && bulk.Some?
    requires SameThree(ViewOf(single.value), ViewOf(bulk.value))
    requires ViewOf(single.value).scalars != map[] && ViewOf(bulk.value).scalars != map[]
    ensures DecisionFor(policies, single, owner, fin) == DecisionFor(policies, bulk, owner, fin)
  {
    hide SameThree, ViewOf, Best, Sorted, Mapped;
    var rent := if fin.Some? then fin.value.monthlyRent else None;
    assert policies(ViewOf(single.value), owner, rent) == policies(ViewOf(bulk.value), owner, rent);
  }

  lemma AvailabilityDiffers(policies: Policies, single: Option<Snapshot>, bulk: Option<Snapshot>)
    requires single.Some? && bulk.Some?
    requires ViewOf(single.value).scalars != map[] && ViewOf(bulk.value).scalars == map[]
    ensures DecisionFor(policies, single, None, None) != DecisionFor(policies, bulk, None, None)
  {
    hide ViewOf, Best, Sorted, Candidates;
  }

  /** Recommends selling on the views that agree with one on three scalars. */
  function NarrowDetector(view: View): Policies {
    (v, owner, rent) => if SameThree(v, view) then [Recommendation("list", 1.0)] else []
  }

  lemma NarrowDetectorTells(v: View, w: View, single: Option<Snapshot>, bulk: Option<Snapshot>)
    requires ViewIfAny(single) == Some(v) && ViewIfAny(bulk) == Some(w) && !SameThree(v, w)
    ensures ReadsThree(NarrowDetector(v))
    ensures DecisionFor(NarrowDetector(v), single, None, None) != DecisionFor(NarrowDetector(v), bulk, None, None)
  {
    hide ViewOf, Round4, Read;
    var recs := [Recommendation("list", 1.0)];
    assert recs[..0] == [];
    assert Mapped(recs) == [Candidate(SELL, Round4(1.0))];
    var one := [Candidate(SELL, Round4(1.0))];
    assert one[..0] == [];
    assert Best(one) == one;
    assert Sorted(one, Rank) == one;
  }
}
