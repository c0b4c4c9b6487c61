/** What each component of the recommendation rewards, and what tells the strategies apart. */
module RecommenderLaws {
  import opened Common
  import opened Powers
  import opened Recommender
  import Mortgage

  // ---------------------------------------------------------------------------
  // Thresholds
  // ---------------------------------------------------------------------------

  /** A clipped score reaches q exactly when the unclipped one does. */
  lemma Reaches(x: real, q: real)
    requires 0.0 < q <= 1.0
    ensures q <= ClampUnit(x) <==> q <= x
  {
  }

  lemma TimesQuotient(x: real, d: real, b: real)
    requires 0.0 < d
    ensures b <= x / d <==> b * d <= x
  {
    var y := x / d;
    assert y * d == x;
    assert (y - b) * d == x - b * d;
  }

  predicate Priced(p: Property, snapshot: Option<Snapshot>) {
    snapshot.Some? && snapshot.value.medianRent.Some? && AskingPrice(p) > 0.0
  }

  /** Buying to hold: the score reaches q exactly when a year's rent reaches 4 and 6q percent of the price. */
  lemma HoldRewardsYield(p: Property, snapshot: Option<Snapshot>, q: real)
    requires 0.0 < q <= 1.0
    ensures q <= StrategyBuyAndHold(p, snapshot) <==>
            Priced(p, snapshot) && (0.04 + 0.06 * q) * AskingPrice(p) <= 12.0 * snapshot.value.medianRent.value
  {
    hide AskingPrice, ClampUnit;
    if Priced(p, snapshot) {
      YieldReaches(snapshot.value.medianRent.value, AskingPrice(p), q);
    }
  }

  lemma YieldReaches(rent: real, price: real, q: real)
    requires 0.0 < q <= 1.0 && 0.0 < price
    ensures q <= YieldScore(rent, price) <==> (0.04 + 0.06 * q) * price <= 12.0 * rent
  {
    var x := rent * 12.0 / price;
    Reaches((x - 0.04) / 0.06, q);
    TimesQuotient(x - 0.04, 0.06, q);
    TimesQuotient(rent * 12.0, price, 0.04 + 0.06 * q);
    hide ClampUnit;
  }

  /** Flipping: it reaches q exactly when the price stays within 110 less 35q percent of the median sale. */
  lemma FlipRewardsSpread(p: Property, snapshot: Option<Snapshot>, q: real)
    requires 0.0 < q <= 1.0
    ensures q <= StrategyFlip(p, snapshot) <==>
            && snapshot.Some? && snapshot.value.medianSalePrice.Some? && 0.0 < snapshot.value.medianSalePrice.value
            && AskingPrice(p) <= (1.10 - 0.35 * q) * snapshot.value.medianSalePrice.value
  {
    hide AskingPrice;
    if snapshot.Some? && snapshot.value.medianSalePrice.Some? && 0.0 < snapshot.value.medianSalePrice.value {
      var median, price := snapshot.value.medianSalePrice.value, AskingPrice(p);
      var spread := (median - price) / median;
      Reaches((spread + 0.10) / 0.35, q);
      TimesQuotient(spread + 0.10, 0.35, q);
      TimesQuotient(median - price, median, 0.35 * q - 0.10);
      SpreadSides(median, price, q);
      hide ClampUnit;
    }
  }

  lemma SpreadSides(median: real, price: real, q: real)
    ensures (0.35 * q - 0.10) * median <= median - price <==> price <= (1.10 - 0.35 * q) * median
  {
    assert (0.35 * q - 0.10) * median + (1.10 - 0.35 * q) * median == median;
  }

  /** Leasing: seven tenths of the yield part, and three tenths that inventory pressure takes away. */
  lemma LeaseFearsInventory(p: Property, snapshot: Option<Snapshot>)
    ensures RentOf(snapshot) == None ==> StrategyLease(p, snapshot) == 0.0
    ensures RentOf(snapshot).Some? ==>
              var pressure := snapshot.value.inventoryPressure;
              var lost := if pressure.None? || pressure.value < 0.0 then 0.0
                          else if pressure.value > 1.0 then 1.0 else pressure.value;
              10.0 * StrategyLease(p, snapshot) == 7.0 * StrategyBuyAndHold(p, snapshot) + 3.0 - 3.0 * lost
  {
    hide AskingPrice, YieldScore;
  }

  /** Risk: it reaches q exactly when the yield misses the target by at most 1 - q of it. */
  lemma RiskRewardsTarget(profile: Profile, p: Property, snapshot: Option<Snapshot>, q: real)
    requires profile.targetCapRate.Some? && 0.0 < profile.targetCapRate.value && 0.0 < q <= 1.0
    ensures q <= ScoreRisk(profile, p, snapshot) <==>
            && Priced(p, snapshot)
            && Abs(1200.0 * snapshot.value.medianRent.value - profile.targetCapRate.value * AskingPrice(p))
               <= (1.0 - q) * profile.targetCapRate.value * AskingPrice(p)
  {
    hide AskingPrice;
    if Priced(p, snapshot) {
      var target, rent, price := profile.targetCapRate.value, snapshot.value.medianRent.value, AskingPrice(p);
      var proxy := rent * 12.0 / price * 100.0;
      Reaches(1.0 - Abs(proxy - target) / target, q);
      MissWithin(proxy, target, q);
      ProxyTimesPrice(rent, price, proxy);
      AbsTimes(proxy - target, price);
      Sides(Abs(proxy - target), price, (1.0 - q) * target);
      assert (proxy - target) * price == proxy * price - target * price;
      hide ClampUnit, Abs;
    }
  }

  lemma MissWithin(proxy: real, target: real, q: real)
    requires 0.0 < target
    ensures q <= 1.0 - Abs(proxy - target) / target <==> Abs(proxy - target) <= (1.0 - q) * target
  {
    hide Abs;
    var x := Abs(proxy - target) / target;
    assert x * target == Abs(proxy - target);
    Sides(x, target, 1.0 - q);
  }

  lemma ProxyTimesPrice(rent: real, price: real, proxy: real)
    requires 0.0 < price && proxy == rent * 12.0 / price * 100.0
    ensures proxy * price == 1200.0 * rent
  {
    var y := rent * 12.0 / price;
    assert y * price == rent * 12.0;
  }

  lemma AbsTimes(x: real, d: real)
    requires 0.0 < d
    ensures Abs(x) * d == Abs(x * d)
  {
    if x < 0.0 {
      NegativeTimes(x, d);
      assert (-x) * d == -(x * d);
    } else {
      MulMono(0.0, x, d);
    }
  }

  lemma NegativeTimes(x: real, d: real)
    requires x < 0.0 < d
    ensures x * d < 0.0
  {
  }

  lemma Sides(x: real, d: real, b: real)
    requires 0.0 < d
    ensures x <= b <==> x * d <= b * d
  {
    assert (b - x) * d == b * d - x * d;
  }

  /**
   Underwriting: it reaches q exactly when six tenths of the rent cover 0.7 and 0.55q times the level
   payment on three quarters of the price over 30 years at seven percent.
   */
  lemma UnderwritingRewardsCover(p: Property, snapshot: Option<Snapshot>, q: real)
    requires Priced(p, snapshot) && 0.0 < q <= 1.0
    ensures q <= ScoreUnderwriting(p, snapshot) <==>
            (0.7 + 0.55 * q) * Mortgage.MonthlyPayment(0.75 * AskingPrice(p), 0.07, 30)
            <= 0.6 * snapshot.value.medianRent.value
  {
    hide AskingPrice, Mortgage.MonthlyPayment;
    var rent, price := snapshot.value.medianRent.value, AskingPrice(p);
    ProxyPaymentPositive(price);
    assert price * 0.75 == 0.75 * price;
    var payment := ProxyPayment(price);
    Reaches((rent * 0.6 / payment - 0.7) / 0.55, q);
    TimesQuotient(rent * 0.6 / payment - 0.7, 0.55, q);
    TimesQuotient(rent * 0.6, payment, 0.7 + 0.55 * q);
    hide ClampUnit;
  }

  /** Without a rent or a price the yield-based scores take their defaults. */
  lemma UnpricedDefaults(profile: Profile, p: Property, snapshot: Option<Snapshot>)
    requires !Priced(p, snapshot)
    ensures StrategyBuyAndHold(p, snapshot) == 0.0 && ScoreUnderwriting(p, snapshot) == 0.5
    ensures profile.targetCapRate.Some? ==> ScoreRisk(profile, p, snapshot) == 0.0
    ensures profile.targetCapRate == None ==> ScoreRisk(profile, p, snapshot) == 0.5
  {
    hide AskingPrice;
  }

  /** Momentum: it reaches q exactly when the inventory pressure is within (1 - q) / 2 of one half. */
  lemma MomentumRewardsBalance(snapshot: Option<Snapshot>, q: real)
    requires 0.0 < q <= 1.0
    ensures snapshot.Some? && snapshot.value.inventoryPressure.Some? ==>
              (q <= ScoreMomentum(snapshot) <==> 2.0 * Abs(snapshot.value.inventoryPressure.value - 0.5) <= 1.0 - q)
    ensures snapshot == None || snapshot.value.inventoryPressure == None ==> ScoreMomentum(snapshot) == 0.5
  {
  }

  // ---------------------------------------------------------------------------
  // Safety and hazards
  // ---------------------------------------------------------------------------

  /** The signal is a hundredth of the safety score, what the worst hazard leaves, their mean, or one half. */
  lemma SignalParts(snapshot: Snapshot)
    requires snapshot.safetyScore.Some? ==> 0.0 <= snapshot.safetyScore.value <= 100.0
    ensures var hazard, signal := Worst(snapshot.hazardFlags), ScoreSignal(Some(snapshot));
            match snapshot.safetyScore
            case None => signal == if hazard == 0.0 then 0.5 else 1.0 - hazard
            case Some(safety) =>
              if hazard == 0.0 then 100.0 * signal == safety else 200.0 * signal == safety + 100.0 * (1.0 - hazard)
  {
    hide Worst;
  }

  /** A worse kind of flag never leaves more, and no flag takes all. */
  lemma HazardsAreOrdered()
    ensures Level(OtherFlag) == 0.0 < Level(LowHazard) < Level(ModerateHazard) < Level(HighHazard) < 1.0
    ensures Level(ModerateHazard) == 4.0 * Level(LowHazard) && Level(HighHazard) == 2.0 * Level(ModerateHazard)
    ensures 1.0 - Level(HighHazard) == 2.0 * Level(LowHazard)
  {
  }

  /**
   The providers score safety from 0 to 10, the recommender reads it out of 100. So on what is really
   stored a known safety score always counts for less than an unknown one, and every hazard raises the
   signal.
   */
  lemma StoredSafetyCountsAgainst(snapshot: Snapshot, hazard: HazardFlag)
    requires snapshot.safetyScore.Some? && 0.0 <= snapshot.safetyScore.value <= 10.0
    requires snapshot.hazardFlags == [] && hazard != OtherFlag
    ensures ScoreSignal(Some(snapshot)) <= 0.1 < ScoreSignal(Some(snapshot.(safetyScore := None))) == 0.5
    ensures ScoreSignal(Some(snapshot)) < ScoreSignal(Some(snapshot.(hazardFlags := [hazard])))
  {
    assert [hazard][..0] == [];
    assert Worst([]) == 0.0 && Worst([hazard]) == Level(hazard);
    hide Worst;
  }

  // ---------------------------------------------------------------------------
  // Places
  // ---------------------------------------------------------------------------

  /** Lower is the closer match; some are as good as others. */
  function Closeness(g: GeoMatch): nat {
    match g
    case ExactZip => 0
    case StationMatch => 1
    case MunicipalityMatch => 2
    case WardMatch => 2
    case NeighborhoodMatch => 3
    case PrefectureMatch => 4
    case CityMatch => 5
    case StateMatch => 5
    case AddressMatch => 6
    case NoPreference => 7
    case NoMatch => 8
  }

  /** The closer match scores higher, an exact one everything, and no match at all is worse than no preference. */
  lemma CloserScoresHigher(g: GeoMatch, h: GeoMatch)
    ensures Closeness(g) < Closeness(h) <==> ScoreGeography(h) < ScoreGeography(g)
    ensures ScoreGeography(ExactZip) == 1.0 && ScoreGeography(NoPreference) == 0.5
  {
  }

  // ---------------------------------------------------------------------------
  // Strategies
  // ---------------------------------------------------------------------------

  /** What a strategy trades for a point of its own component: points of risk, signal, underwriting, place, momentum. */
  predicate TradesFor(s: Strategy, risk: real, signal: real, underwriting: real, geo: real, momentum: real) {
    var w := WeightsFor(s);
    && w.strategy == risk * w.risk && w.strategy == signal * w.signal && w.strategy == underwriting * w.underwriting
    && w.strategy == geo * w.geo && w.strategy == momentum * w.momentum
  }

  /**
   The strategies differ in their rates of exchange: a flipper gives four points of risk for one of the
   spread, a landlord with tenants 1.2 and one who leases 1.5.
   */
  lemma RatesOfExchange()
    ensures TradesFor(BuyAndHold, 1.2, 2.0, 1.5, 6.0, 6.0) && TradesFor(Unrecognised, 1.2, 2.0, 1.5, 6.0, 6.0)
    ensures TradesFor(Lease, 1.5, 2.0, 1.5, 6.0, 3.0)
    ensures 3.0 * WeightsFor(Flip).strategy == 8.0 * WeightsFor(Flip).signal
    ensures TradesFor(Flip, 4.0, 8.0 / 3.0, 8.0 / 3.0, 4.0, 4.0)
  {
  }

  /** c after gaining x points of its strategy component and losing y of risk. */
  function Traded(c: Components, x: real, y: real): Components {
    c.(strategy := c.strategy + x, risk := c.risk - y)
  }

  /** So the same trade of risk for yield or spread is right for one strategy and wrong for another. */
  lemma TradesDiffer(profile: Profile, c: Components, x: real, y: real)
    ensures var better := Total(profile, c) <= Total(profile, Traded(c, x, y));
            match profile.strategy
            case Flip => better <==> y <= 4.0 * x
            case Lease => better <==> y <= 1.5 * x
            case _ => better <==> y <= 1.2 * x
  {
  }

  /** Each strategy has its own measure, and an unknown one that of buying to hold. */
  lemma OwnMeasure(profile: Profile, p: Property, snapshot: Option<Snapshot>)
    ensures ScoreStrategy(profile, p, snapshot) ==
            if profile.strategy == Flip then StrategyFlip(p, snapshot)
            else if profile.strategy == Lease then StrategyLease(p, snapshot)
            else StrategyBuyAndHold(p, snapshot)
  {
    hide AskingPrice, StrategyFlip, StrategyLease, StrategyBuyAndHold;
  }

  /** The price asked is the one in yen, if there is one, and the listed one otherwise. */
  lemma YenPriceFirst(p: Property)
    ensures p.baibaiKakakuYen == Some(AskingPrice(p)) || (p.baibaiKakakuYen == None && AskingPrice(p) == p.listedPrice)
  {
  }

  /** Five percent above the budget is still looked at, and anything cheaper than what is. */
  lemma BudgetLeeway(profile: Profile, p: Property, g: Geography)
    ensures Passes(profile, p, g) <==>
            g.passes && (profile.budget.Some? ==> 100.0 * AskingPrice(p) <= 105.0 * profile.budget.value)
  {
    hide AskingPrice;
  }
}
