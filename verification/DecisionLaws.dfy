/** What a holding's decision says, told from the financials and the market alone. */
module DecisionLaws {
  import opened Common
  import opened Powers
  import opened Rounding
  import opened SignalStore
  import opened StableSort
  import opened DecisionPolicies
  import opened HoldingDecision
  import R = Reactions

  /** The decision lists an action. */
  ghost predicate Offers(d: Decision, action: Action) {
    exists i :: 0 <= i < |d.candidates| && d.candidates[i].action == action
  }

  /** The score of an action that the decision lists. */
  function ScoreFor(d: Decision, action: Action): real
    requires Offers(d, action)
  {
    var i := EntryOf(d.candidates, action);
    d.candidates[i].score
  }

  // ---------------------------------------------------------------------------
  // From candidates to the decision
  // ---------------------------------------------------------------------------

  lemma {:induction false} InMapped(recs: seq<Recommendation>, c: Candidate)
    ensures c in Mapped(recs) <==> exists rec :: rec in recs && MapRecommendation(rec) == Some(c)
  {
    hide MapRecommendation;
    if recs != [] {
      var n := |recs| - 1;
      InMapped(recs[..n], c);
      assert recs == recs[..n] + [recs[n]];
    }
  }

  ghost predicate HasAction(candidates: seq<Candidate>, action: Action) {
    exists i :: 0 <= i < |candidates| && candidates[i].action == action
  }

  /** Every action but the fallback's is listed exactly when there is a candidate for it. */
  lemma OffersCandidates(policies: Policies, view: Option<View>, owner: Option<Owner>, fin: Option<Financials>,
                         action: Action)
    requires action != HOLD
    ensures Offers(Decided(policies, view, owner, fin), action) <==>
            HasAction(Candidates(policies, view, owner, fin), action)
  {
    hide Candidates, Decided;
    var candidates, d := Candidates(policies, view, owner, fin), Decided(policies, view, owner, fin);
    DecisionRanksBest(policies, view, owner, fin);
    if Offers(d, action) && candidates != [] {
      var i :| 0 <= i < |d.candidates| && d.candidates[i].action == action;
      assert IsBest(candidates, d.candidates[i]);
    }
    if HasAction(candidates, action) {
      var k :| 0 <= k < |candidates| && candidates[k].action == action;
      assert EntryOf(d.candidates, candidates[k].action) < |d.candidates|;
    }
  }

  // ---------------------------------------------------------------------------
  // Refinancing
  // ---------------------------------------------------------------------------

  lemma {:induction false} NeverMappedToRefi(recs: seq<Recommendation>)
    ensures !HasAction(Mapped(recs), REFI)
  {
    hide Round4;
    if recs != [] {
      NeverMappedToRefi(recs[..|recs| - 1]);
      var front := Mapped(recs[..|recs| - 1]);
      forall i | 0 <= i < |Mapped(recs)| ensures Mapped(recs)[i].action != REFI {
        if i < |front| {
          assert front[i].action != REFI;
        }
      }
    }
  }

  /** A loan that costs more than six percent is on record. */
  predicate DearLoan(fin: Option<Financials>) {
    && fin.Some?
    && fin.value.loanBalance.Some? && fin.value.loanBalance.value != 0.0
    && fin.value.interestRate.Some? && fin.value.interestRate.value > 0.06
  }

  /**
   Whatever the policies say, refinancing is listed exactly for a loan balance other than zero at a
   note rate above six percent; its score is the four-decimal one of the rate alone.
   */
  lemma RefiOffered(policies: Policies, view: Option<View>, owner: Option<Owner>, fin: Option<Financials>)
    ensures var d := Decided(policies, view, owner, fin);
            && (Offers(d, REFI) <==> DearLoan(fin))
            && (Offers(d, REFI) ==> 0.3 <= ScoreFor(d, REFI) <= 1.0)
  {
    var d := Decided(policies, view, owner, fin);
    OffersCandidates(policies, view, owner, fin, REFI);
    RefiAlone(policies, view, owner, fin);
    if DearLoan(fin) {
      RefiScore(policies, view, owner, fin);
      RefiRange(fin.value.interestRate.value);
    }
    hide Decided, Candidates;
  }

  /** The only candidate for refinancing is the heuristic's. */
  lemma RefiAlone(policies: Policies, view: Option<View>, owner: Option<Owner>, fin: Option<Financials>)
    ensures var candidates := Candidates(policies, view, owner, fin);
            && (HasAction(candidates, REFI) <==> DearLoan(fin))
            && (forall c :: c in candidates && c.action == REFI ==>
                  DearLoan(fin) && c.score == RefiAt(fin.value.interestRate.value))
  {
    var rent := if fin.Some? then fin.value.monthlyRent else None;
    var mapped := if view == None then [] else Mapped(policies(view.value, owner, rent));
    if view.Some? {
      NeverMappedToRefi(policies(view.value, owner, rent));
    }
    var candidates := Candidates(policies, view, owner, fin);
    if DearLoan(fin) {
      assert candidates[|candidates| - 1].action == REFI;
    }
    hide Mapped, Round4;
  }

  /** The score of a refinance at a note rate. */
  function RefiAt(rate: real): real {
    var score := 0.3 + (rate - 0.06) * 10.0;
    Round4(if score < 1.0 then score else 1.0)
  }

  lemma RefiScore(policies: Policies, view: Option<View>, owner: Option<Owner>, fin: Option<Financials>)
    requires DearLoan(fin)
    ensures Offers(Decided(policies, view, owner, fin), REFI)
    ensures ScoreFor(Decided(policies, view, owner, fin), REFI) == RefiAt(fin.value.interestRate.value)
  {
    RefiAlone(policies, view, owner, fin);
    OffersCandidates(policies, view, owner, fin, REFI);
    DecisionRanksBest(policies, view, owner, fin);
    hide Candidates, Decided, RefiAt, HasAction;
    var candidates, d := Candidates(policies, view, owner, fin), Decided(policies, view, owner, fin);
    var i := EntryOf(d.candidates, REFI);
    var j :| 0 <= j < |d.candidates| && d.candidates[j].action == REFI;
    assert i < |d.candidates|;
    assert candidates != [] ==> IsBest(candidates, d.candidates[i]);
  }

  lemma RefiRange(rate: real)
    requires 0.06 < rate
    ensures 0.3 <= RefiAt(rate) <= 1.0
  {
    var score := 0.3 + (rate - 0.06) * 10.0;
    Round4Stays(0.3, if score < 1.0 then score else 1.0, 1.0);
  }

  /**
   A dearer loan never scores lower; up to thirteen percent each point of rate adds a tenth, to within
   four decimals, and from there on the score is one.
   */
  lemma RefiScoreRises(policies: Policies, view: Option<View>, owner: Option<Owner>, fin: Financials, rate: real)
    requires DearLoan(Some(fin)) && fin.interestRate.value <= rate
    ensures var dearer := fin.(interestRate := Some(rate));
            var now, then' := Decided(policies, view, owner, Some(fin)), Decided(policies, view, owner, Some(dearer));
            && Offers(now, REFI) && Offers(then', REFI)
            && ScoreFor(now, REFI) <= ScoreFor(then', REFI)
            && (rate <= 0.13 ==>
                  -0.0001 <= ScoreFor(then', REFI) - ScoreFor(now, REFI) - (rate - fin.interestRate.value) * 10.0
                  <= 0.0001)
            && (0.13 <= rate ==> ScoreFor(then', REFI) == 1.0)
  {
    RefiScore(policies, view, owner, Some(fin));
    RefiScore(policies, view, owner, Some(fin.(interestRate := Some(rate))));
    RefiSlope(fin.interestRate.value, rate);
    hide Decided, RefiAt;
  }

  lemma RefiSlope(a: real, b: real)
    requires 0.06 < a <= b
    ensures RefiAt(a) <= RefiAt(b)
    ensures b <= 0.13 ==> -0.0001 <= RefiAt(b) - RefiAt(a) - (b - a) * 10.0 <= 0.0001
    ensures 0.13 <= b ==> RefiAt(b) == 1.0
  {
    var x, y := 0.3 + (a - 0.06) * 10.0, 0.3 + (b - 0.06) * 10.0;
    Round4Monotone(if x < 1.0 then x else 1.0, if y < 1.0 then y else 1.0);
    Round4Close(x);
    Round4Close(y);
    Round4Close(1.0);
    Round4Fixes(1.0);
    hide Round4;
  }

  /** Without a market the decision is to refinance a dear loan, and to hold otherwise. */
  lemma WithoutMarket(policies: Policies, owner: Option<Owner>, fin: Option<Financials>)
    ensures var d := Decided(policies, None, owner, fin);
            && |d.candidates| == 1 && !d.marketContextAvailable
            && (DearLoan(fin) ==> d.recommendation == REFI)
            && (!DearLoan(fin) ==> d.recommendation == HOLD && d.score == 0.3)
  {
    RefiAlone(policies, None, owner, fin);
    OnlyRefi(policies, owner, fin);
    var candidates := Candidates(policies, None, owner, fin);
    hide Candidates, Best, Sorted, RefiAt;
    if candidates != [] {
      Lone(candidates[0]);
    } else {
      NoneRanked();
    }
  }

  lemma OnlyRefi(policies: Policies, owner: Option<Owner>, fin: Option<Financials>)
    ensures var candidates := Candidates(policies, None, owner, fin);
            if DearLoan(fin) then |candidates| == 1 && candidates == [candidates[0]] && candidates[0].action == REFI
            else candidates == []
  {
    hide Round4;
  }

  lemma Lone(c: Candidate)
    ensures Best([c]) == [c] && Sorted([c], Rank) == [c]
  {
    assert [c][..0] == [];
  }

  lemma NoneRanked()
    ensures Best([]) == [] && Sorted([], Rank) == []
  {
  }

  // ---------------------------------------------------------------------------
  // Selling, raising the rent, improving
  // ---------------------------------------------------------------------------

  lemma BuiltinHas(view: View, owner: Option<Owner>, rent: Option<real>, rec: Recommendation)
    ensures var reaction := ReactionOf(ActorOf(owner), view, rent);
            rec in Builtin(view, owner, rent) <==>
            ListHold(view, reaction) == Some(rec) || Lease(view, reaction) == Some(rec)
            || Churn(view, reaction) == Some(rec)
  {
    var reaction := ReactionOf(ActorOf(owner), view, rent);
    var all := Collected(POLICIES, view, reaction);
    CollectedParts(view, reaction);
    SortedDescends(all, ScoreOf);
    hide ReactionOf, ListHold, Lease, Churn, Collected, Sorted;
    assert rec in Builtin(view, owner, rent) <==> rec in multiset(Sorted(all, ScoreOf));
  }

  predicate MapsTo(rec: Option<Recommendation>, action: Action) {
    rec.Some? && MapAction(rec.value.policyAction) == Some(action)
  }

  /** An action is listed exactly when one of the three policies asks for it. */
  lemma OffersBuiltin(view: View, owner: Option<Owner>, fin: Option<Financials>, action: Action)
    requires action != HOLD && action != REFI
    ensures var reaction := ReactionOf(ActorOf(owner), view, if fin.Some? then fin.value.monthlyRent else None);
            Offers(Decided(Builtin, Some(view), owner, fin), action) <==>
            MapsTo(ListHold(view, reaction), action) || MapsTo(Lease(view, reaction), action)
            || MapsTo(Churn(view, reaction), action)
  {
    var rent := if fin.Some? then fin.value.monthlyRent else None;
    var reaction := ReactionOf(ActorOf(owner), view, rent);
    var recs, candidates := Builtin(view, owner, rent), Candidates(Builtin, Some(view), owner, fin);
    OffersCandidates(Builtin, Some(view), owner, fin, action);
    RefiAlone(Builtin, Some(view), owner, fin);
    MappedPart(Builtin, view, owner, fin, action);
    MappedHas(recs, action);
    AskedFor(view, owner, rent, action);
    hide Candidates, Decided, ReactionOf, ListHold, Lease, Churn, Mapped, MapAction, Builtin, HasAction, DearLoan;
  }

  lemma AskedFor(view: View, owner: Option<Owner>, rent: Option<real>, action: Action)
    ensures var r := ReactionOf(ActorOf(owner), view, rent);
            (exists rec :: rec in Builtin(view, owner, rent) && MapAction(rec.policyAction) == Some(action)) <==>
            MapsTo(ListHold(view, r), action) || MapsTo(Lease(view, r), action) || MapsTo(Churn(view, r), action)
  {
    var r := ReactionOf(ActorOf(owner), view, rent);
    hide ReactionOf, ListHold, Lease, Churn, MapAction, Builtin;
    forall rec ensures rec in Builtin(view, owner, rent) <==>
                       ListHold(view, r) == Some(rec) || Lease(view, r) == Some(rec) || Churn(view, r) == Some(rec)
    {
      BuiltinHas(view, owner, rent, rec);
    }
  }

  lemma MappedHas(recs: seq<Recommendation>, action: Action)
    ensures HasAction(Mapped(recs), action) <==>
            exists rec :: rec in recs && MapAction(rec.policyAction) == Some(action)
  {
    hide Mapped, MapAction, Round4;
    if HasAction(Mapped(recs), action) {
      var i :| 0 <= i < |Mapped(recs)| && Mapped(recs)[i].action == action;
      InMapped(recs, Mapped(recs)[i]);
      var rec :| rec in recs && MapRecommendation(rec) == Some(Mapped(recs)[i]);
    }
    forall rec | rec in recs && MapAction(rec.policyAction) == Some(action) ensures HasAction(Mapped(recs), action) {
      InMapped(recs, MapRecommendation(rec).value);
    }
  }

  lemma MappedPart(policies: Policies, view: View, owner: Option<Owner>, fin: Option<Financials>, action: Action)
    requires action != REFI
    ensures var recs := policies(view, owner, if fin.Some? then fin.value.monthlyRent else None);
            HasAction(Candidates(policies, Some(view), owner, fin), action) <==> HasAction(Mapped(recs), action)
  {
    hide Mapped, Round4;
    var mapped := Mapped(policies(view, owner, if fin.Some? then fin.value.monthlyRent else None));
    var candidates := Candidates(policies, Some(view), owner, fin);
    assert forall i :: 0 <= i < |mapped| ==> candidates[i] == mapped[i];
    if HasAction(candidates, action) {
      var i :| 0 <= i < |candidates| && candidates[i].action == action;
      assert i < |mapped|;
    }
  }

  /** What an owner's profile adds to a variable of the reaction. */
  function OwnDelta(owner: Option<Owner>, v: R.Variable): real
    requires !v.Unregistered?
  {
    if owner.Some? then ActorDelta(UserSignals(owner.value), v) else 0.0
  }

  lemma ReactionParts(view: View, owner: Option<Owner>, rent: Option<real>)
    ensures var r := ReactionOf(ActorOf(owner), view, rent);
            && r.investorOptimism == ClampSigned(OwnDelta(owner, R.InvestorOptimism) + Slack(view))
            && r.willingnessToTransact == ClampSigned(OwnDelta(owner, R.WillingnessToTransact) + Slack(view))
            && r.perceivedSafety == ClampSigned(OwnDelta(owner, R.PerceivedSafety) + Safety(view))
            && r.displacementConcern == ClampSigned(OwnDelta(owner, R.DisplacementConcern) - Safety(view))
            && r.affordabilityPressure == ClampSigned(OwnDelta(owner, R.AffordabilityPressure) + RentGap(view, rent))
  {
    hide ReactionOf, ActorDelta, UserSignals, Slack, Safety, RentGap, ClampSigned;
    ReactionIsOneClamp(ActorOf(owner), view, rent, 1);
    ReactionIsOneClamp(ActorOf(owner), view, rent, 2);
    ReactionIsOneClamp(ActorOf(owner), view, rent, 4);
    ReactionIsOneClamp(ActorOf(owner), view, rent, 5);
    ReactionIsOneClamp(ActorOf(owner), view, rent, 6);
  }

  /** Who asks for what. */
  lemma PolicyActions(view: View, r: R.Vector)
    ensures MapsTo(ListHold(view, r), SELL) <==>
              var p := Read(view, InventoryPressure);
              p.Some? && ClampUnit(0.5 * p.value + 0.5 * Half(r.displacementConcern)) <=
                         ClampUnit(0.5 * (1.0 - p.value) + 0.5 * Half(r.investorOptimism))
    ensures MapsTo(Lease(view, r), RAISE_RENT) <==>
              Read(view, MedianRent).Some? && Half(r.willingnessToTransact) > 0.6 && Half(r.affordabilityPressure) < 0.5
    ensures MapsTo(Churn(view, r), IMPROVE) <==>
              ClampUnit(0.6 * Half(r.displacementConcern) + 0.4 * (1.0 - Half(r.perceivedSafety))) > 0.6
    ensures !MapsTo(ListHold(view, r), RAISE_RENT) && !MapsTo(ListHold(view, r), IMPROVE)
    ensures !MapsTo(Lease(view, r), SELL) && !MapsTo(Lease(view, r), IMPROVE)
    ensures !MapsTo(Churn(view, r), SELL) && !MapsTo(Churn(view, r), RAISE_RENT)
  {
    Labels();
    hide MapAction, ClampUnit;
  }

  lemma Labels()
    ensures MapAction("list") == Some(SELL) && MapAction("raise_rent") == Some(RAISE_RENT)
    ensures MapAction("intervene") == Some(IMPROVE)
    ensures MapAction("hold") == MapAction("hold_rent") == Some(HOLD)
    ensures MapAction("freeze_rent") == MapAction("monitor") == Some(HOLD)
  {
    assert |"list"| == 4 && |"hold"| == 4 && "list"[0] == 'l' && "hold"[0] == 'h';
  }

  /** The safety score as a shift between -1 and 1, none counting as the neutral 5. */
  function SafetyShift(view: View): real {
    var score := Read(view, SafetyScore);
    if score.None? then 0.0 else if score.value > 10.0 then 1.0 else if score.value < 0.0 then -1.0
    else score.value / 5.0 - 1.0
  }

  /**
   Without an owner's profile the market alone decides what is listed: selling up to an inventory
   pressure of one half, moved by a sixth of the safety shift; raising the rent where pressure is below
   0.4 and the rent below the median; improving below a safety score of four.
   */
  lemma MarketAlone(view: View, fin: Option<Financials>)
    ensures var d := Decided(Builtin, Some(view), None, fin);
            var pressure, median := Read(view, InventoryPressure), Read(view, MedianRent);
            && (Offers(d, SELL) <==> pressure.Some? && pressure.value <= 0.5 + SafetyShift(view) / 6.0)
            && (Offers(d, IMPROVE) <==> Read(view, SafetyScore).Some? && Read(view, SafetyScore).value < 4.0)
            && (Offers(d, RAISE_RENT) <==>
                  && pressure.Some? && pressure.value < 0.4
                  && median.Some? && median.value != 0.0
                  && fin.Some? && fin.value.monthlyRent.Some? && fin.value.monthlyRent.value != 0.0
                  && (fin.value.monthlyRent.value - median.value) / median.value < 0.0)
  {
    var rent := if fin.Some? then fin.value.monthlyRent else None;
    OffersBuiltin(view, None, fin, SELL);
    OffersBuiltin(view, None, fin, RAISE_RENT);
    OffersBuiltin(view, None, fin, IMPROVE);
    PolicyActions(view, ReactionOf(ActorOf(None), view, rent));
    SellAlone(view, rent);
    RaiseAlone(view, rent);
    ImproveAlone(view, rent);
    hide ReactionOf, ActorOf, Decided, Offers, ListHold, Lease, Churn, MapsTo, Builtin, ClampUnit, SafetyShift, Half;
  }

  lemma SellAlone(view: View, rent: Option<real>)
    ensures var r, p := ReactionOf(ActorOf(None), view, rent), Read(view, InventoryPressure);
            p.Some? && ClampUnit(0.5 * p.value + 0.5 * Half(r.displacementConcern)) <=
                       ClampUnit(0.5 * (1.0 - p.value) + 0.5 * Half(r.investorOptimism))
            <==> p.Some? && p.value <= 0.5 + SafetyShift(view) / 6.0
  {
    ReactionParts(view, None, rent);
    hide ReactionOf, ActorOf;
    var pressure := Read(view, InventoryPressure);
    if pressure.Some? {
      SellBound(pressure.value, Safety(view));
    }
    hide ClampUnit, Half;
  }

  lemma RaiseAlone(view: View, rent: Option<real>)
    ensures var r, p, median := ReactionOf(ActorOf(None), view, rent), Read(view, InventoryPressure),
                                Read(view, MedianRent);
            median.Some? && Half(r.willingnessToTransact) > 0.6 && Half(r.affordabilityPressure) < 0.5
            <==>
            && p.Some? && p.value < 0.4 && median.Some? && median.value != 0.0 && rent.Some? && rent.value != 0.0
            && (rent.value - median.value) / median.value < 0.0
  {
    ReactionParts(view, None, rent);
    hide ReactionOf, ActorOf, Read;
  }

  lemma ImproveAlone(view: View, rent: Option<real>)
    ensures var r := ReactionOf(ActorOf(None), view, rent);
            ClampUnit(0.6 * Half(r.displacementConcern) + 0.4 * (1.0 - Half(r.perceivedSafety))) > 0.6 <==>
            Read(view, SafetyScore).Some? && Read(view, SafetyScore).value < 4.0
  {
    ReactionParts(view, None, rent);
    hide ReactionOf, ActorOf, Read;
  }

  /** Where the list score reaches the hold score. */
  lemma SellBound(p: real, s: real)
    requires -1.0 <= s <= 1.0
    ensures ClampUnit(0.5 * p + 0.5 * Half(-s)) <= ClampUnit(0.5 * (1.0 - p) + 0.5 * Half(ClampSigned(1.0 - 2.0 * p)))
            <==> p <= 0.5 + s / 6.0
  {
  }

  // ---------------------------------------------------------------------------
  // Whoever owns the holding
  // ---------------------------------------------------------------------------

  /** w is a market with no more inventory pressure, no worse safety and the same median rent as v. */
  predicate Better(w: View, v: View) {
    && Read(v, InventoryPressure).Some? && Read(w, InventoryPressure).Some?
    && Read(w, InventoryPressure).value <= Read(v, InventoryPressure).value
    && Read(v, SafetyScore).Some? && Read(w, SafetyScore).Some?
    && Read(v, SafetyScore).value <= Read(w, SafetyScore).value
    && Read(w, MedianRent) == Read(v, MedianRent)
  }

  /** For any owner a better market keeps the offers to sell and to raise the rent, a worse one that to improve. */
  lemma BetterMarket(v: View, w: View, owner: Option<Owner>, fin: Option<Financials>)
    requires Better(w, v)
    ensures var d, e := Decided(Builtin, Some(v), owner, fin), Decided(Builtin, Some(w), owner, fin);
            && (Offers(d, SELL) ==> Offers(e, SELL))
            && (Offers(d, RAISE_RENT) ==> Offers(e, RAISE_RENT))
            && (Offers(e, IMPROVE) ==> Offers(d, IMPROVE))
  {
    var rent := if fin.Some? then fin.value.monthlyRent else None;
    OffersThree(v, owner, fin);
    OffersThree(w, owner, fin);
    BetterReaction(v, w, owner, rent);
    var r, q := ReactionOf(ActorOf(owner), v, rent), ReactionOf(ActorOf(owner), w, rent);
    hide ReactionOf, ActorOf, Decided, Offers, Builtin, ClampUnit, Half;
    OffersKept(Read(v, InventoryPressure).value, r, Read(w, InventoryPressure).value, q);
  }

  lemma BetterReaction(v: View, w: View, owner: Option<Owner>, rent: Option<real>)
    requires Better(w, v)
    ensures var r, q := ReactionOf(ActorOf(owner), v, rent), ReactionOf(ActorOf(owner), w, rent);
            && q.displacementConcern <= r.displacementConcern && r.perceivedSafety <= q.perceivedSafety
            && r.investorOptimism <= q.investorOptimism && r.willingnessToTransact <= q.willingnessToTransact
            && q.affordabilityPressure == r.affordabilityPressure
  {
    ReactionParts(v, owner, rent);
    ReactionParts(w, owner, rent);
    BetterReadings(v, w, rent);
    hide ReactionOf, ActorOf, Slack, Safety, RentGap, OwnDelta, Better;
  }

  lemma BetterReadings(v: View, w: View, rent: Option<real>)
    requires Better(w, v)
    ensures Slack(v) <= Slack(w) && Safety(v) <= Safety(w) && RentGap(v, rent) == RentGap(w, rent)
  {
  }

  /** What the three thresholds make of a better market. */
  lemma OffersKept(p: real, r: R.Vector, p': real, q: R.Vector)
    requires p' <= p && q.displacementConcern <= r.displacementConcern && r.perceivedSafety <= q.perceivedSafety
    requires r.investorOptimism <= q.investorOptimism && r.willingnessToTransact <= q.willingnessToTransact
    ensures ClampUnit(0.5 * p + 0.5 * Half(r.displacementConcern)) <=
            ClampUnit(0.5 * (1.0 - p) + 0.5 * Half(r.investorOptimism)) ==>
              ClampUnit(0.5 * p' + 0.5 * Half(q.displacementConcern)) <=
              ClampUnit(0.5 * (1.0 - p') + 0.5 * Half(q.investorOptimism))
    ensures Half(r.willingnessToTransact) <= Half(q.willingnessToTransact)
    ensures ClampUnit(0.6 * Half(q.displacementConcern) + 0.4 * (1.0 - Half(q.perceivedSafety))) <=
            ClampUnit(0.6 * Half(r.displacementConcern) + 0.4 * (1.0 - Half(r.perceivedSafety)))
  {
  }

  /** The three offers, from the reaction. */
  lemma OffersThree(view: View, owner: Option<Owner>, fin: Option<Financials>)
    ensures var d := Decided(Builtin, Some(view), owner, fin);
            var r := ReactionOf(ActorOf(owner), view, if fin.Some? then fin.value.monthlyRent else None);
            var p := Read(view, InventoryPressure);
            && (Offers(d, SELL) <==>
                  p.Some? && ClampUnit(0.5 * p.value + 0.5 * Half(r.displacementConcern)) <=
                             ClampUnit(0.5 * (1.0 - p.value) + 0.5 * Half(r.investorOptimism)))
            && (Offers(d, RAISE_RENT) <==>
                  && Read(view, MedianRent).Some?
                  && Half(r.willingnessToTransact) > 0.6 && Half(r.affordabilityPressure) < 0.5)
            && (Offers(d, IMPROVE) <==>
                  ClampUnit(0.6 * Half(r.displacementConcern) + 0.4 * (1.0 - Half(r.perceivedSafety))) > 0.6)
  {
    OffersBuiltin(view, owner, fin, SELL);
    OffersBuiltin(view, owner, fin, RAISE_RENT);
    OffersBuiltin(view, owner, fin, IMPROVE);
    PolicyActions(view, ReactionOf(ActorOf(owner), view, if fin.Some? then fin.value.monthlyRent else None));
    hide ReactionOf, ActorOf, Decided, Offers, ListHold, Lease, Churn, MapsTo, Builtin, ClampUnit, Half;
  }

  function Boldness(risk: Risk): int {
    match risk
    case Conservative => 0
    case Moderate => 1
    case OtherRisk => 1
    case Aggressive => 2
  }

  /** A bolder owner of the same holding is never less advised to sell. */
  lemma BolderSells(view: View, owner: Owner, risk: Risk, fin: Option<Financials>)
    requires Boldness(owner.risk) <= Boldness(risk)
    ensures Offers(Decided(Builtin, Some(view), Some(owner), fin), SELL) ==>
            Offers(Decided(Builtin, Some(view), Some(owner.(risk := risk)), fin), SELL)
  {
    hide ReactionOf, ActorOf, Decided, Offers, Builtin, Boldness, ClampUnit, Half;
    var rent := if fin.Some? then fin.value.monthlyRent else None;
    var bolder := owner.(risk := risk);
    OffersThree(view, Some(owner), fin);
    BolderReaction(view, owner, risk, rent);
    var r, q := ReactionOf(ActorOf(Some(owner)), view, rent), ReactionOf(ActorOf(Some(bolder)), view, rent);
    var p := Read(view, InventoryPressure);
    if Offers(Decided(Builtin, Some(view), Some(owner), fin), SELL) {
      ScoreKept(0.5 * (1.0 - p.value), r.investorOptimism, q.investorOptimism);
      OffersThree(view, Some(bolder), fin);
    }
  }

  lemma BolderReaction(view: View, owner: Owner, risk: Risk, rent: Option<real>)
    requires Boldness(owner.risk) <= Boldness(risk)
    ensures var r := ReactionOf(ActorOf(Some(owner)), view, rent);
            var q := ReactionOf(ActorOf(Some(owner.(risk := risk))), view, rent);
            r.investorOptimism <= q.investorOptimism && r.displacementConcern == q.displacementConcern
  {
    ReactionParts(view, Some(owner), rent);
    ReactionParts(view, Some(owner.(risk := risk)), rent);
    BolderOptimism(owner, risk);
    hide ReactionOf, ActorOf, OwnDelta, Slack, Safety, RentGap, Boldness;
  }

  lemma BolderOptimism(owner: Owner, risk: Risk)
    requires Boldness(owner.risk) <= Boldness(risk)
    ensures OwnDelta(Some(owner), R.InvestorOptimism) <= OwnDelta(Some(owner.(risk := risk)), R.InvestorOptimism)
    ensures OwnDelta(Some(owner), R.DisplacementConcern) == OwnDelta(Some(owner.(risk := risk)), R.DisplacementConcern)
  {
    assert Affordability(owner.(risk := risk)) == Affordability(owner);
    hide Affordability;
  }

  lemma ScoreKept(base: real, x: real, y: real)
    requires x <= y
    ensures ClampUnit(base + 0.5 * Half(x)) <= ClampUnit(base + 0.5 * Half(y))
  {
  }

  /** The budget pressure is the share of the upper bound that the lower one takes, a fifth more under a month. */
  lemma PressureIsShare(u: UserProfile)
    requires u.budgetMin.Some? && u.budgetMax.Some? && 0.0 <= u.budgetMin.value <= u.budgetMax.value
    requires 0.0 < u.budgetMax.value
    ensures var share := u.budgetMin.value / u.budgetMax.value;
            var hurried := u.timelineDays.Some? && u.timelineDays.value != 0 && u.timelineDays.value <= 30;
            Affordability(u) == if hurried then (if share > 0.8 then 1.0 else share + 0.2) else share
  {
    var low, high := u.budgetMin.value, u.budgetMax.value;
    var rest, share := (high - low) / high, low / high;
    SharesAddUp(low, high, rest, share);
  }

  lemma SharesAddUp(low: real, high: real, rest: real, share: real)
    requires 0.0 <= low <= high && 0.0 < high && rest == (high - low) / high && share == low / high
    ensures rest == 1.0 - share && 0.0 <= share <= 1.0
  {
    Divides(low, high, share);
    Remainder(share, high);
    QuotientIs(1.0 - share, high - low, high);
    if share < 0.0 { NegativeTimes(share, high); }
    if 1.0 < share { NegativeTimes(1.0 - share, high); }
  }

  lemma Divides(x: real, y: real, q: real)
    requires y != 0.0 && q == x / y
    ensures q * y == x
  {
  }

  lemma Remainder(share: real, whole: real)
    ensures (1.0 - share) * whole == whole - share * whole
  {
  }

  lemma NegativeTimes(x: real, y: real)
    requires x < 0.0 < y
    ensures x * y < 0.0
  {
  }

  /** Only sellers and buyers lean to a deal: sellers the less the tighter the budget, buyers the bolder they are. */
  lemma RolesLean(u: UserProfile, v: UserProfile)
    ensures OwnDelta(Some(u), R.WillingnessToTransact) > 0.0 <==> u.role != OtherRole
    ensures u.role == SellerRole == v.role && Affordability(u) < Affordability(v) ==>
              OwnDelta(Some(v), R.WillingnessToTransact) < OwnDelta(Some(u), R.WillingnessToTransact)
    ensures u.role == BuyerRole == v.role && Boldness(u.risk) < Boldness(v.risk) ==>
              OwnDelta(Some(u), R.WillingnessToTransact) < OwnDelta(Some(v), R.WillingnessToTransact)
  {
    AffordabilityInUnit(u);
    AffordabilityInUnit(v);
    hide Affordability;
  }

  lemma AffordabilityInUnit(u: UserProfile)
    ensures 0.0 <= Affordability(u) <= 1.0
  {
  }

  /**
   The tighter the budget, the more an owner worries about being displaced and about the rent; but a
   pressure of exactly zero is read as no signal, and so worries more than any other below one.
   */
  lemma TighterBudgetWorries(u: UserProfile, v: UserProfile)
    requires 0.0 < Affordability(u) <= Affordability(v)
    ensures OwnDelta(Some(u), R.DisplacementConcern) <= OwnDelta(Some(v), R.DisplacementConcern) <= 0.0
    ensures OwnDelta(Some(u), R.AffordabilityPressure) <= OwnDelta(Some(v), R.AffordabilityPressure)
  {
    AffordabilityInUnit(u);
    AffordabilityInUnit(v);
    hide Affordability;
  }

  lemma NoPressureIsNoSignal(u: UserProfile)
    requires Affordability(u) == 0.0
    ensures OwnDelta(Some(u), R.DisplacementConcern) == 0.0 == OwnDelta(Some(u), R.AffordabilityPressure)
  {
    hide Affordability;
  }
}
