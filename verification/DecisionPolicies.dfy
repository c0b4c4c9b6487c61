/**
 The policies behind a holding's recommendation: an owner's profile becomes an actor state, actor
 and market readings fold into one reaction vector, and three policies score it.
 */
module DecisionPolicies {
  import opened Common
  import opened SignalStore
  import opened StableSort
  import R = Reactions

  /** What policies and reactions read of a snapshot. */
  datatype View = View(scalars: map<ScalarField, real>, zoningCode: Option<Json>)

  datatype Recommendation = Recommendation(policyAction: string, score: real)

  datatype Risk = Conservative | Moderate | Aggressive | OtherRisk
  datatype Role = SellerRole | BuyerRole | OtherRole

  /** The profile fields the actor layer reads. */
  datatype UserProfile = UserProfile(role: Role, budgetMin: Option<real>, budgetMax: Option<real>,
                                     timelineDays: Option<int>, risk: Risk)

  function Read(view: View, f: ScalarField): Option<real> {
    if f in view.scalars then Some(view.scalars[f]) else None
  }

  // ---------------------------------------------------------------------------
  // Actors
  // ---------------------------------------------------------------------------

  function OrDefault(x: Option<real>): real { if x.Some? then x.value else 0.0 }

  function Affordability(u: UserProfile): real {
    var budgetMin, budgetMax := OrDefault(u.budgetMin), OrDefault(u.budgetMax);
    var spread := if budgetMax - budgetMin > 0.0 then budgetMax - budgetMin else 0.0;
    var pressure := if budgetMax > 0.0 then ClampUnit(1.0 - spread / budgetMax) else 0.5;
    var days := if u.timelineDays.Some? && u.timelineDays.value != 0 then u.timelineDays.value else 90;
    if days <= 30 then ClampUnit(pressure + 0.2) else pressure
  }

  function Optimism(u: UserProfile): real {
    match u.risk
    case Conservative => 0.2
    case Moderate => 0.5
    case Aggressive => 0.8
    case OtherRisk => 0.5
  }

  function Willingness(u: UserProfile): real {
    match u.role
    case SellerRole => ClampUnit(0.6 + (1.0 - Affordability(u)) * 0.3)
    case BuyerRole => ClampUnit(0.5 + Optimism(u) * 0.4)
    case OtherRole => 0.5
  }

  /** user_profile_signals; the cohort of one that the service builds has the same averages. */
  function UserSignals(u: UserProfile): R.Vector {
    R.Vector(ClampSigned(Optimism(u) * 2.0 - 1.0), Affordability(u), 0.5, 0.5, Affordability(u) * 0.5,
             Optimism(u), Willingness(u), ClampUnit(1.0 - Optimism(u)))
  }

  // ---------------------------------------------------------------------------
  // Reactions of a holding
  // ---------------------------------------------------------------------------

  const VARIABLES: seq<R.Variable> :=
    [R.TrustInTrajectory, R.AffordabilityPressure, R.PerceivedSafety, R.SocialProof, R.DisplacementConcern,
     R.InvestorOptimism, R.WillingnessToTransact, R.ResistanceToDevelopment]

  const HOLDING_ACTOR: string := "holding"

  function EventOn(v: R.Variable, delta: real): R.ActorEvent {
    R.ActorEvent(HOLDING_ACTOR, R.Event("", v, delta, 0))
  }

  /** A zero delta emits nothing. */
  function Emit(v: R.Variable, delta: real): seq<R.ActorEvent> {
    if delta == 0.0 then [] else [EventOn(v, delta)]
  }

  /** An unset signal counts as nothing; the others are mapped to the signed range. */
  function ActorDelta(actor: R.Vector, v: R.Variable): real
    requires !v.Unregistered?
  {
    var raw := actor.Get(v);
    if raw == 0.0 then 0.0
    else if v == R.TrustInTrajectory then ClampSigned(raw)
    else ClampSigned(2.0 * raw - 1.0)
  }

  function ActorEvents(actor: R.Vector, n: nat): seq<R.ActorEvent>
    requires n <= |VARIABLES|
  {
    if n == 0 then []
    else ActorEvents(actor, n - 1) + Emit(VARIABLES[n - 1], ActorDelta(actor, VARIABLES[n - 1]))
  }

  /** actor_reaction_events. */
  method ActorReactionEvents(actor: R.Vector) returns (events: seq<R.ActorEvent>)
    ensures events == ActorEvents(actor, |VARIABLES|)
  {
    events := [];
    for i := 0 to |VARIABLES|
      invariant events == ActorEvents(actor, i)
    {
      var variable := VARIABLES[i];
      var raw := actor.Get(variable);
      if raw == 0.0 {
        continue;
      }
      var delta := if variable == R.TrustInTrajectory then ClampSigned(raw) else ClampSigned(2.0 * raw - 1.0);
      if delta == 0.0 {
        continue;
      }
      events := events + [EventOn(variable, delta)];
    }
  }

  function Slack(view: View): real {
    var inventory := Read(view, InventoryPressure);
    if inventory.Some? then ClampSigned(1.0 - 2.0 * inventory.value) else 0.0
  }

  function Safety(view: View): real {
    var score := Read(view, SafetyScore);
    if score.Some? then ClampSigned(score.value / 5.0 - 1.0) else 0.0
  }

  /** How far the asked rent stands above the median, when both are known and not zero. */
  function RentGap(view: View, monthlyRent: Option<real>): real {
    var median := Read(view, MedianRent);
    if median.Some? && median.value != 0.0 && monthlyRent.Some? && monthlyRent.value != 0.0
    then ClampSigned((monthlyRent.value - median.value) / median.value)
    else 0.0
  }

  /** market_reaction_events: a missing reading, like a neutral one, emits nothing. */
  function MarketEvents(view: View, monthlyRent: Option<real>): seq<R.ActorEvent> {
    Emit(R.InvestorOptimism, Slack(view)) + Emit(R.WillingnessToTransact, Slack(view))
    + Emit(R.PerceivedSafety, Safety(view)) + Emit(R.DisplacementConcern, -Safety(view))
    + Emit(R.AffordabilityPressure, RentGap(view, monthlyRent))
  }

  function EventsFor(actor: Option<R.Vector>, view: View, monthlyRent: Option<real>): seq<R.ActorEvent> {
    (if actor.Some? then ActorEvents(actor.value, |VARIABLES|) else []) + MarketEvents(view, monthlyRent)
  }

  /** build_reaction_vector. */
  function ReactionOf(actor: Option<R.Vector>, view: View, monthlyRent: Option<real>): R.Vector {
    R.VectorFor(R.After(EventsFor(actor, view, monthlyRent)), HOLDING_ACTOR)
  }

  method BuildReactionVector(actor: Option<R.Vector>, view: View, monthlyRent: Option<real>) returns (v: R.Vector)
    ensures v == ReactionOf(actor, view, monthlyRent)
  {
    var engine := new R.ReactionEngine();
    var events: seq<R.ActorEvent> := [];
    if actor.Some? {
      events := ActorReactionEvents(actor.value);
    }
    events := events + MarketEvents(view, monthlyRent);
    assert events == EventsFor(actor, view, monthlyRent);
    var vectors := engine.ApplyBatch(events);
    v := if HOLDING_ACTOR in vectors then vectors[HOLDING_ACTOR] else R.NEUTRAL;
  }

  /** The market's reading of a variable. */
  function MarketDelta(view: View, monthlyRent: Option<real>, v: R.Variable): real {
    match v
    case InvestorOptimism => Slack(view)
    case WillingnessToTransact => Slack(view)
    case PerceivedSafety => Safety(view)
    case DisplacementConcern => -Safety(view)
    case AffordabilityPressure => RentGap(view, monthlyRent)
    case _ => 0.0
  }

  /** delta as the only event of a variable, unless it is zero. */
  function Once(delta: real): seq<real> { if delta == 0.0 then [] else [delta] }

  lemma {:induction false} DeltasConcat(p: seq<R.ActorEvent>, q: seq<R.ActorEvent>, v: R.Variable)
    ensures R.DeltasOf(p + q, HOLDING_ACTOR, v) == R.DeltasOf(p, HOLDING_ACTOR, v) + R.DeltasOf(q, HOLDING_ACTOR, v)
  {
    if q == [] {
      assert p + q == p;
    } else {
      var n := |q| - 1;
      assert (p + q)[..|p + q| - 1] == p + q[..n];
      DeltasConcat(p, q[..n], v);
    }
  }

  /** What an event on w adds to the deltas of v. */
  function Part(w: R.Variable, delta: real, v: R.Variable): seq<real> {
    if w == v then Once(delta) else []
  }

  lemma EmitDeltas(w: R.Variable, delta: real, v: R.Variable)
    ensures R.DeltasOf(Emit(w, delta), HOLDING_ACTOR, v) == Part(w, delta, v)
  {
    if delta != 0.0 {
      var e := EventOn(w, delta);
      assert [e][..0] == [];
      assert R.DeltasOf([e][..0], HOLDING_ACTOR, v) == [];
    }
  }

  /** i is the place of v among the variables. */
  lemma {:induction false} ActorDeltas(actor: R.Vector, n: nat, v: R.Variable, i: nat)
    requires n <= |VARIABLES| && i < |VARIABLES| && VARIABLES[i] == v
    ensures R.DeltasOf(ActorEvents(actor, n), HOLDING_ACTOR, v) == if i < n then Once(ActorDelta(actor, v)) else []
  {
    hide ActorDelta, Emit, Part, Once, R.DeltasOf;
    if n == 0 {
      NoDeltas(v);
    } else {
      var w := VARIABLES[n - 1];
      ActorDeltas(actor, n - 1, v, i);
      EmitDeltas(w, ActorDelta(actor, w), v);
      DeltasConcat(ActorEvents(actor, n - 1), Emit(w, ActorDelta(actor, w)), v);
      assert w == v <==> i == n - 1;
      AddPart(if i < n - 1 then Once(ActorDelta(actor, v)) else [], w, ActorDelta(actor, w), v);
    }
  }

  lemma NoDeltas(v: R.Variable)
    ensures R.DeltasOf([], HOLDING_ACTOR, v) == []
  {
  }

  lemma AddPart(s: seq<real>, w: R.Variable, delta: real, v: R.Variable)
    ensures s + Part(w, delta, v) == if w != v then s else s + Once(delta)
    ensures [] + Once(delta) == Once(delta)
  {
  }

  lemma MarketDeltas(view: View, monthlyRent: Option<real>, v: R.Variable)
    ensures R.DeltasOf(MarketEvents(view, monthlyRent), HOLDING_ACTOR, v) == Once(MarketDelta(view, monthlyRent, v))
  {
    hide Slack, Safety, RentGap, Emit, Part, Once, R.DeltasOf;
    var slack, safety, gap := Slack(view), Safety(view), RentGap(view, monthlyRent);
    var a, b := Emit(R.InvestorOptimism, slack), Emit(R.WillingnessToTransact, slack);
    var c, d := Emit(R.PerceivedSafety, safety), Emit(R.DisplacementConcern, -safety);
    var e := Emit(R.AffordabilityPressure, gap);
    EmitDeltas(R.InvestorOptimism, slack, v);
    EmitDeltas(R.WillingnessToTransact, slack, v);
    EmitDeltas(R.PerceivedSafety, safety, v);
    EmitDeltas(R.DisplacementConcern, -safety, v);
    EmitDeltas(R.AffordabilityPressure, gap, v);
    DeltasConcat(a, b, v);
    DeltasConcat(a + b, c, v);
    DeltasConcat(a + b + c, d, v);
    DeltasConcat(a + b + c + d, e, v);
    PartsMeet(slack, safety, gap, v);
    SilentVariables();
  }

  lemma SilentVariables()
    ensures Once(0.0) == []
  {
  }

  lemma PartsMeet(slack: real, safety: real, gap: real, v: R.Variable)
    ensures Part(R.InvestorOptimism, slack, v) + Part(R.WillingnessToTransact, slack, v)
            + Part(R.PerceivedSafety, safety, v) + Part(R.DisplacementConcern, -safety, v)
            + Part(R.AffordabilityPressure, gap, v) ==
            match v
            case InvestorOptimism => Once(slack)
            case WillingnessToTransact => Once(slack)
            case PerceivedSafety => Once(safety)
            case DisplacementConcern => Once(-safety)
            case AffordabilityPressure => Once(gap)
            case _ => []
  {
    hide Once;
  }

  lemma TwoDeltas(a: real, b: real)
    requires -1.0 <= a <= 1.0 && -1.0 <= b <= 1.0
    ensures R.SaturatingSum(0.0, Once(a) + Once(b)) == ClampSigned(a + b)
  {
    var both := Once(a) + Once(b);
    if a != 0.0 && b != 0.0 {
      assert both == [a, b] && both[..1] == [a] && both[..1][..0] == [];
      assert R.SaturatingSum(0.0, both[..1]) == a;
    } else if both != [] {
      assert both == [a + b] && both[..0] == [];
    }
  }

  /**
   The whole pipeline of events and folds comes to one clamp per variable: what the owner's signal
   says plus what the market says, a dropped event being a zero.
   */
  lemma ReactionIsOneClamp(actor: Option<R.Vector>, view: View, monthlyRent: Option<real>, i: nat)
    requires i < |VARIABLES|
    ensures var v := VARIABLES[i];
            ReactionOf(actor, view, monthlyRent).Get(v) ==
            ClampSigned((if actor.Some? then ActorDelta(actor.value, v) else 0.0) + MarketDelta(view, monthlyRent, v))
  {
    var v := VARIABLES[i];
    hide R.DeltasOf, R.SaturatingSum, ActorEvents, MarketEvents, Once, R.VectorFor, R.After;
    hide ActorDelta, Slack, Safety, RentGap;
    var events := EventsFor(actor, view, monthlyRent);
    var own := if actor.Some? then ActorDelta(actor.value, v) else 0.0;
    var market := MarketDelta(view, monthlyRent, v);
    R.ComponentIsFold(events, HOLDING_ACTOR, v);
    MarketDeltas(view, monthlyRent, v);
    SilentVariables();
    NoDeltas(v);
    DeltasConcat(if actor.Some? then ActorEvents(actor.value, |VARIABLES|) else [], MarketEvents(view, monthlyRent), v);
    if actor.Some? {
      ActorDeltas(actor.value, |VARIABLES|, v, i);
    }
    DeltaRanges(actor, view, monthlyRent, v);
    TwoDeltas(own, market);
  }

  lemma DeltaRanges(actor: Option<R.Vector>, view: View, monthlyRent: Option<real>, v: R.Variable)
    requires !v.Unregistered?
    ensures actor.Some? ==> -1.0 <= ActorDelta(actor.value, v) <= 1.0
    ensures -1.0 <= MarketDelta(view, monthlyRent, v) <= 1.0
  {
  }

  // ---------------------------------------------------------------------------
  // The policies
  // ---------------------------------------------------------------------------

  /** From the signed range to [0, 1]. */
  function Half(x: real): real { (x + 1.0) / 2.0 }

  function ListHold(view: View, reaction: R.Vector): Option<Recommendation> {
    match Read(view, InventoryPressure)
    case None => None
    case Some(inventory) =>
      var listScore := ClampUnit(0.5 * (1.0 - inventory) + 0.5 * Half(reaction.investorOptimism));
      var holdScore := ClampUnit(0.5 * inventory + 0.5 * Half(reaction.displacementConcern));
      Some(if listScore >= holdScore then Recommendation("list", listScore) else Recommendation("hold", holdScore))
  }

  function Lease(view: View, reaction: R.Vector): Option<Recommendation> {
    if Read(view, MedianRent).None? then None
    else
      var affordability, willingness := Half(reaction.affordabilityPressure), Half(reaction.willingnessToTransact);
      Some(if affordability > 0.7 then Recommendation("freeze_rent", ClampUnit(affordability))
           else if willingness > 0.6 && affordability < 0.5
             then Recommendation("raise_rent", ClampUnit(willingness * (1.0 - affordability)))
           else Recommendation("hold_rent", 0.4))
  }

  function Churn(view: View, reaction: R.Vector): Option<Recommendation> {
    if reaction.displacementConcern == 0.0 && reaction.perceivedSafety == 0.0 then None
    else
      var risk := ClampUnit(0.6 * Half(reaction.displacementConcern) + 0.4 * (1.0 - Half(reaction.perceivedSafety)));
      Some(Recommendation(if risk > 0.6 then "intervene" else "monitor", risk))
  }

  type Policy = (View, R.Vector) -> Option<Recommendation>

  const POLICIES: seq<Policy> := [ListHold, Lease, Churn]

  function Collected(policies: seq<Policy>, view: View, reaction: R.Vector): seq<Recommendation> {
    if policies == [] then []
    else
      var n := |policies| - 1;
      Collected(policies[..n], view, reaction) + Listed(policies[n](view, reaction))
  }

  function Listed(result: Option<Recommendation>): seq<Recommendation> {
    match result
    case None => []
    case Some(rec) => [rec]
  }

  function ScoreOf(rec: Recommendation): real { rec.score }

  /** DecisionRuntime.evaluate. */
  method Evaluate(policies: seq<Policy>, view: View, reaction: R.Vector) returns (recs: seq<Recommendation>)
    ensures recs == Sorted(Collected(policies, view, reaction), ScoreOf)
  {
    recs := [];
    for i := 0 to |policies|
      invariant recs == Collected(policies[..i], view, reaction)
    {
      assert policies[..i + 1][..i] == policies[..i];
      var result := policies[i](view, reaction);
      if result == None {
        continue;
      }
      recs := recs + [result.value];
    }
    assert policies[..|policies|] == policies;
    recs := Sorted(recs, ScoreOf);
  }

  function ActorOf(owner: Option<UserProfile>): Option<R.Vector> {
    if owner.Some? then Some(UserSignals(owner.value)) else None
  }

  /** What the three policies recommend for a view of the market, an owner and a rent. */
  function Builtin(view: View, owner: Option<UserProfile>, monthlyRent: Option<real>): seq<Recommendation> {
    Sorted(Collected(POLICIES, view, ReactionOf(ActorOf(owner), view, monthlyRent)), ScoreOf)
  }

  /** Before sorting, the recommendations are those of the three policies in their order. */
  lemma CollectedParts(view: View, reaction: R.Vector)
    ensures Collected(POLICIES, view, reaction) ==
            Listed(ListHold(view, reaction)) + Listed(Lease(view, reaction)) + Listed(Churn(view, reaction))
  {
    hide ListHold, Lease, Churn, Listed;
    var two := POLICIES[..2];
    assert two == [ListHold, Lease] && two[..1] == [ListHold] && two[..1][..0] == [];
    assert Collected(two[..1], view, reaction) == [] + Listed(ListHold(view, reaction));
    assert Collected(two, view, reaction) == Collected(two[..1], view, reaction) + Listed(Lease(view, reaction));
  }

  /** Every recommendation scores in [0, 1], so the service's guard for negative scores is idle. */
  lemma BuiltinScoresInUnit(view: View, owner: Option<UserProfile>, monthlyRent: Option<real>)
    ensures forall rec :: rec in Builtin(view, owner, monthlyRent) ==> 0.0 <= rec.score <= 1.0
  {
    var reaction := ReactionOf(ActorOf(owner), view, monthlyRent);
    var all := Collected(POLICIES, view, reaction);
    SortedDescends(all, ScoreOf);
    CollectedInUnit(view, reaction);
    hide ReactionOf, Collected, Sorted;
    forall rec | rec in Builtin(view, owner, monthlyRent) ensures 0.0 <= rec.score <= 1.0 {
      assert rec in multiset(Sorted(all, ScoreOf));
      assert rec in all;
    }
  }

  lemma CollectedInUnit(view: View, reaction: R.Vector)
    ensures forall rec :: rec in Collected(POLICIES, view, reaction) ==> 0.0 <= rec.score <= 1.0
  {
    CollectedParts(view, reaction);
    PolicyScores(view, reaction);
    hide Collected, ListHold, Lease, Churn;
  }

  lemma PolicyScores(view: View, reaction: R.Vector)
    ensures ListHold(view, reaction).Some? ==> 0.0 <= ListHold(view, reaction).value.score <= 1.0
    ensures Lease(view, reaction).Some? ==> 0.0 <= Lease(view, reaction).value.score <= 1.0
    ensures Churn(view, reaction).Some? ==> 0.0 <= Churn(view, reaction).value.score <= 1.0
  {
    hide Read, Half, ClampUnit;
  }

  /** The scalars that reach a recommendation. */
  const READ_FIELDS: set<ScalarField> := {InventoryPressure, SafetyScore, MedianRent}

  predicate SameThree(v: View, w: View) {
    && Read(v, InventoryPressure) == Read(w, InventoryPressure)
    && Read(v, SafetyScore) == Read(w, SafetyScore)
    && Read(v, MedianRent) == Read(w, MedianRent)
  }

  /** What reaches a recommendation of three scalars: of the safety score only its shift of the reaction. */
  predicate SameReadings(v: View, w: View) {
    && Read(v, InventoryPressure) == Read(w, InventoryPressure)
    && Read(v, MedianRent) == Read(w, MedianRent)
    && Safety(v) == Safety(w)
  }

  /** Two views that agree on three scalars get the same recommendations, whoever owns the holding. */
  lemma BuiltinReadsThree(v: View, w: View, owner: Option<UserProfile>, monthlyRent: Option<real>)
    requires SameThree(v, w)
    ensures Builtin(v, owner, monthlyRent) == Builtin(w, owner, monthlyRent)
  {
    hide Builtin;
    BuiltinReadsShift(v, w, owner, monthlyRent);
  }

  /** It is enough that the safety scores shift the reaction alike; 5.0 shifts it no more than none does. */
  lemma BuiltinReadsShift(v: View, w: View, owner: Option<UserProfile>, monthlyRent: Option<real>)
    requires SameReadings(v, w)
    ensures Builtin(v, owner, monthlyRent) == Builtin(w, owner, monthlyRent)
  {
    SameReaction(v, w, ActorOf(owner), monthlyRent);
    hide Read, ReactionOf, Collected, Sorted, Safety;
    SameCollected(v, w, ReactionOf(ActorOf(owner), v, monthlyRent));
  }

  lemma SameReaction(v: View, w: View, actor: Option<R.Vector>, monthlyRent: Option<real>)
    requires SameReadings(v, w)
    ensures ReactionOf(actor, v, monthlyRent) == ReactionOf(actor, w, monthlyRent)
  {
    assert Slack(v) == Slack(w) && RentGap(v, monthlyRent) == RentGap(w, monthlyRent);
    hide Slack, Safety, RentGap, R.After, R.VectorFor, Emit, ActorEvents;
  }

  lemma SameCollected(v: View, w: View, reaction: R.Vector)
    requires Read(v, InventoryPressure) == Read(w, InventoryPressure) && Read(v, MedianRent) == Read(w, MedianRent)
    ensures Collected(POLICIES, v, reaction) == Collected(POLICIES, w, reaction)
  {
    CollectedParts(v, reaction);
    CollectedParts(w, reaction);
  }
}
