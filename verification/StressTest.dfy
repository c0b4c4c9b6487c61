/** The Monte Carlo stress test over the underwriting engine, and its tornado. */
module StressTest {
  import opened Common
  import opened Mortgage
  import opened Underwriting
  import opened Percentiles

  datatype SliderRange = SliderRange(low: real, high: real) {
    /** What the constructor of the source accepts; it raises otherwise. */
    predicate Valid() { low <= high }
    predicate Contains(x: real) { low <= x <= high }
    function Midpoint(): real { (low + high) / 2.0 }
  }

  datatype Config = Config(vacancyRate: SliderRange, rentGrowth: SliderRange, expenseGrowth: SliderRange,
                           loanRate: SliderRange, exitCapRate: SliderRange) {
    predicate Valid() {
      vacancyRate.Valid() && rentGrowth.Valid() && expenseGrowth.Valid() && loanRate.Valid() && exitCapRate.Valid()
    }
  }

  /** One setting of the five sliders. */
  datatype Setting = Setting(vacancyRate: real, rentGrowth: real, expenseGrowth: real, loanRate: real,
                             exitCapRate: real)

  predicate Drawn(config: Config, d: Setting) {
    && config.vacancyRate.Contains(d.vacancyRate) && config.rentGrowth.Contains(d.rentGrowth)
    && config.expenseGrowth.Contains(d.expenseGrowth) && config.loanRate.Contains(d.loanRate)
    && config.exitCapRate.Contains(d.exitCapRate)
  }

  /** replace(base, ...) with all five sliders. */
  function Sampled(base: Inputs, d: Setting): Inputs {
    base.(vacancyRate := d.vacancyRate, rentGrowth := d.rentGrowth, expenseGrowth := d.expenseGrowth,
          loanRate := d.loanRate, exitCapRate := d.exitCapRate)
  }

  function CoC(base: Inputs, d: Setting): real
    requires 1 <= base.loanTermYears
  {
    CashOnCash(Sampled(base, d))
  }

  datatype Spread = Spread(p10: real, p50: real, p90: real)

  function SpreadOf(values: seq<real>): Spread {
    Spread(Percentile(values, 0.1), Percentile(values, 0.5), Percentile(values, 0.9))
  }

  datatype Slider = Vacancy | RentGrowth | ExpenseGrowth | LoanRate | ExitCap
  datatype Bar = Bar(lowCoc: real, highCoc: real, swing: real)

  datatype StressResult = StressResult(
    iterations: nat, capRate: Spread, cashOnCash: Spread, dscr: Spread, irr5: Option<Spread>,
    probabilityNegativeCashFlow: real, probabilityDscrUnder1: real, tornado: map<Slider, Bar>,
    irr5Samples: seq<real>)

  function Cocs(base: Inputs, draws: seq<Setting>): (s: seq<real>)
    requires 1 <= base.loanTermYears
    ensures |s| == |draws| && forall i :: 0 <= i < |draws| ==> s[i] == CoC(base, draws[i])
  {
    seq(|draws|, i requires 0 <= i < |draws| => CoC(base, draws[i]))
  }

  /** The DSCR as the statistics see it: capped at 99, and 99 without debt. */
  function CappedDscr(c: Coverage): real {
    match c
    case Infinite => 99.0
    case Ratio(v) => if v < 99.0 then v else 99.0
  }

  /** The underwriting of every draw, in order. */
  function Samples(base: Inputs, draws: seq<Setting>): (s: seq<Outcome>)
    requires 1 <= base.loanTermYears
    ensures |s| == |draws| && forall i :: 0 <= i < |draws| ==> s[i] == Underwrite(Sampled(base, draws[i]))
  {
    seq(|draws|, i requires 0 <= i < |draws| => Underwrite(Sampled(base, draws[i])))
  }

  predicate Uncovered(r: Outcome) { r.dscr.Ratio? && r.dscr.value < 1.0 }

  function CountUncovered(samples: seq<Outcome>): nat {
    if samples == [] then 0
    else CountUncovered(samples[..|samples| - 1]) + (if Uncovered(samples[|samples| - 1]) then 1 else 0)
  }

  function Present(values: seq<Option<real>>): seq<real> {
    if values == [] then []
    else
      var front := Present(values[..|values| - 1]);
      match values[|values| - 1]
      case None => front
      case Some(v) => front + [v]
  }

  // ---------------------------------------------------------------------------
  // The tornado
  // ---------------------------------------------------------------------------

  function Middle(config: Config): Setting {
    Setting(config.vacancyRate.Midpoint(), config.rentGrowth.Midpoint(), config.expenseGrowth.Midpoint(),
            config.loanRate.Midpoint(), config.exitCapRate.Midpoint())
  }

  /** The middle setting with one slider pushed to one of its ends. */
  function Pushed(config: Config, slider: Slider, high: bool): Setting {
    var end := (r: SliderRange) => if high then r.high else r.low;
    var m := Middle(config);
    match slider
    case Vacancy => m.(vacancyRate := end(config.vacancyRate))
    case RentGrowth => m.(rentGrowth := end(config.rentGrowth))
    case ExpenseGrowth => m.(expenseGrowth := end(config.expenseGrowth))
    case LoanRate => m.(loanRate := end(config.loanRate))
    case ExitCap => m.(exitCapRate := end(config.exitCapRate))
  }

  function BarOf(base: Inputs, config: Config, slider: Slider): Bar
    requires 1 <= base.loanTermYears
  {
    var low, high := CoC(base, Pushed(config, slider, false)), CoC(base, Pushed(config, slider, true));
    Bar(low, high, Abs(high - low))
  }

  const ALL_SLIDERS: seq<Slider> := [Vacancy, RentGrowth, ExpenseGrowth, LoanRate, ExitCap]

  method Tornado(base: Inputs, config: Config) returns (out: map<Slider, Bar>)
    requires 1 <= base.loanTermYears
    ensures out.Keys == set s | s in ALL_SLIDERS
    ensures forall s :: s in out ==> out[s] == BarOf(base, config, s)
  {
    hide CoC, Underwrite;
    out := map[];
    for i := 0 to |ALL_SLIDERS|
      invariant out.Keys == set s | s in ALL_SLIDERS[..i]
      invariant forall s :: s in out ==> out[s] == BarOf(base, config, s)
    {
      var slider := ALL_SLIDERS[i];
      UnderwritesCoC(base, Pushed(config, slider, false));
      UnderwritesCoC(base, Pushed(config, slider, true));
      var lowR := Underwrite(Sampled(base, Pushed(config, slider, false)));
      var highR := Underwrite(Sampled(base, Pushed(config, slider, true)));
      out := out[slider := Bar(lowR.cashOnCash, highR.cashOnCash, Abs(highR.cashOnCash - lowR.cashOnCash))];
    }
  }

  function TotalSwing(base: Inputs, config: Config): real
    requires 1 <= base.loanTermYears
  {
    BarOf(base, config, Vacancy).swing + BarOf(base, config, RentGrowth).swing
    + BarOf(base, config, ExpenseGrowth).swing + BarOf(base, config, LoanRate).swing
    + BarOf(base, config, ExitCap).swing
  }

  // ---------------------------------------------------------------------------
  // The sampling loop
  // ---------------------------------------------------------------------------

  function Share(count: nat, iterations: nat): real {
    count as real / (if iterations == 0 then 1 else iterations) as real
  }

  function SpreadIfAny(values: seq<real>): Option<Spread> {
    if values == [] then None else Some(SpreadOf(values))
  }

  function CapRates(samples: seq<Outcome>): (s: seq<real>)
    ensures |s| == |samples|
  {
    seq(|samples|, i requires 0 <= i < |samples| => samples[i].capRate)
  }

  function Dscrs(samples: seq<Outcome>): (s: seq<real>)
    ensures |s| == |samples|
  {
    seq(|samples|, i requires 0 <= i < |samples| => CappedDscr(samples[i].dscr))
  }

  function Irr5s(samples: seq<Outcome>): (s: seq<Option<real>>)
    ensures |s| == |samples|
  {
    seq(|samples|, i requires 0 <= i < |samples| => samples[i].irr5)
  }

  /** A coverage sample is the coverage up to 99, which also stands for having no debt to cover. */
  lemma CoverageSample(c: Coverage)
    ensures c == Infinite ==> CappedDscr(c) == 99.0
    ensures c.Ratio? ==> CappedDscr(c) <= c.value && CappedDscr(c) <= 99.0
                         && (CappedDscr(c) == c.value || CappedDscr(c) == 99.0)
  {
  }

  /** A probability is the share of the iterations, and zero without any. */
  lemma ShareIsFraction(count: nat, iterations: nat)
    requires count <= iterations
    ensures Share(count, iterations) * iterations as real == count as real
    ensures iterations == 0 ==> Share(count, iterations) == 0.0
  {
    if iterations > 0 {
      var q := count as real / iterations as real;
      assert q * iterations as real == count as real;
    }
  }

  /** A spread has at least one sample to tell of. */
  lemma SpreadNeedsSamples(values: seq<real>)
    ensures SpreadIfAny(values).Some? <==> values != []
  {
  }

  function Get(d: Setting, slider: Slider): real {
    match slider
    case Vacancy => d.vacancyRate
    case RentGrowth => d.rentGrowth
    case ExpenseGrowth => d.expenseGrowth
    case LoanRate => d.loanRate
    case ExitCap => d.exitCapRate
  }

  function RangeOf(config: Config, slider: Slider): SliderRange {
    match slider
    case Vacancy => config.vacancyRate
    case RentGrowth => config.rentGrowth
    case ExpenseGrowth => config.expenseGrowth
    case LoanRate => config.loanRate
    case ExitCap => config.exitCapRate
  }

  /** A pushed setting has one slider at its end and every other as far from its low as from its high end. */
  lemma PushedMovesOne(config: Config, slider: Slider, high: bool, other: Slider)
    ensures var range, x := RangeOf(config, other), Get(Pushed(config, slider, high), other);
            if other == slider then x == (if high then range.high else range.low)
            else x - range.low == range.high - x
  {
  }

  /** The sampling loop of monte_carlo_stress_test. */
  method SampleDraws(base: Inputs, draws: seq<Setting>)
    returns (capRates: seq<real>, cocs: seq<real>, dscrs: seq<real>, irr5s: seq<Option<real>>,
             negativeCf: nat, dscrUnder1: nat)
    requires 1 <= base.loanTermYears
    ensures var samples := Samples(base, draws);
            && capRates == CapRates(samples) && dscrs == Dscrs(samples) && irr5s == Irr5s(samples)
            && cocs == Cocs(base, draws)
            && negativeCf == CountBelow(Cocs(base, draws), 0.0) && dscrUnder1 == CountUncovered(samples)
  {
    hide CoC, Underwrite, CappedDscr, Samples, Cocs, Uncovered;
    capRates, cocs, dscrs, irr5s := [], [], [], [];
    negativeCf, dscrUnder1 := 0, 0;
    ghost var samples, allCocs := Samples(base, draws), Cocs(base, draws);
    for i := 0 to |draws|
      invariant |capRates| == |cocs| == |dscrs| == |irr5s| == i
      invariant forall j :: 0 <= j < i ==> capRates[j] == samples[j].capRate
      invariant forall j :: 0 <= j < i ==> dscrs[j] == CappedDscr(samples[j].dscr)
      invariant forall j :: 0 <= j < i ==> irr5s[j] == samples[j].irr5
      invariant cocs == allCocs[..i]
      invariant negativeCf == CountBelow(allCocs[..i], 0.0) && dscrUnder1 == CountUncovered(samples[..i])
    {
      var r := Underwrite(Sampled(base, draws[i]));
      UnderwritesCoC(base, draws[i]);
      CountsGrow(allCocs, samples, i);
      capRates := capRates + [r.capRate];
      cocs := cocs + [r.cashOnCash];
      dscrs := dscrs + [CappedDscr(r.dscr)];
      irr5s := irr5s + [r.irr5];
      if r.cashOnCash < 0.0 { negativeCf := negativeCf + 1; }
      if Uncovered(r) { dscrUnder1 := dscrUnder1 + 1; }
      hide CountBelow, CountUncovered;
    }
    assert samples[..|draws|] == samples && allCocs[..|draws|] == allCocs;
  }

  lemma CountsGrow(cocs: seq<real>, samples: seq<Outcome>, i: nat)
    requires i < |cocs| == |samples|
    ensures CountBelow(cocs[..i + 1], 0.0) == CountBelow(cocs[..i], 0.0) + (if cocs[i] < 0.0 then 1 else 0)
    ensures CountUncovered(samples[..i + 1]) == CountUncovered(samples[..i]) + (if Uncovered(samples[i]) then 1 else 0)
  {
    hide Uncovered;
    assert cocs[..i + 1][..i] == cocs[..i] && samples[..i + 1][..i] == samples[..i];
  }

  /** monte_carlo_stress_test; the random generator's draws are the argument draws. */
  method MonteCarlo(base: Inputs, config: Config, draws: seq<Setting>) returns (result: StressResult)
    requires 1 <= base.loanTermYears
    requires forall i :: 0 <= i < |draws| ==> Drawn(config, draws[i])
    ensures var samples := Samples(base, draws);
            && result.iterations == |draws|
            && result.capRate == SpreadOf(CapRates(samples))
            && result.cashOnCash == SpreadOf(Cocs(base, draws))
            && result.dscr == SpreadOf(Dscrs(samples))
            && result.irr5 == SpreadIfAny(Present(Irr5s(samples)))
            && result.irr5Samples == Present(Irr5s(samples))
            && result.probabilityNegativeCashFlow == Share(CountBelow(Cocs(base, draws), 0.0), |draws|)
            && result.probabilityDscrUnder1 == Share(CountUncovered(samples), |draws|)
    ensures result.tornado.Keys == set s | s in ALL_SLIDERS
    ensures forall s :: s in result.tornado ==> result.tornado[s] == BarOf(base, config, s)
  {
    hide Samples, Cocs, CapRates, Dscrs, Irr5s, SpreadOf, Share, BarOf;
    var capRates, cocs, dscrs, irr5s, negativeCf, dscrUnder1 := SampleDraws(base, draws);
    var tornado := Tornado(base, config);
    result := StressResult(|draws|, SpreadOf(capRates), SpreadOf(cocs), SpreadOf(dscrs),
                           SpreadIfAny(Present(irr5s)),
                           Share(negativeCf, |draws|), Share(dscrUnder1, |draws|), tornado, Present(irr5s));
  }

  lemma UnderwritesCoC(base: Inputs, d: Setting)
    requires 1 <= base.loanTermYears
    ensures Underwrite(Sampled(base, d)).cashOnCash == CoC(base, d)
  {
  }

  // ---------------------------------------------------------------------------
  // Envelope, order and the tornado bound
  // ---------------------------------------------------------------------------

  /** The best and the worst corner of the box of sliders for cash-on-cash. */
  function Corner(config: Config, stressed: bool): Setting {
    var m := Middle(config);
    if stressed then m.(vacancyRate := config.vacancyRate.high, loanRate := config.loanRate.high)
    else m.(vacancyRate := config.vacancyRate.low, loanRate := config.loanRate.low)
  }

  /** Rent growth, expense growth and exit cap do not touch cash-on-cash. */
  lemma GrowthIrrelevant(base: Inputs, d: Setting, e: Setting)
    requires 1 <= base.loanTermYears && d.vacancyRate == e.vacancyRate && d.loanRate == e.loanRate
    ensures CoC(base, d) == CoC(base, e)
  {
  }

  lemma MoreStress(base: Inputs, d: Setting, e: Setting)
    requires 1 <= base.loanTermYears && 0.0 <= base.monthlyRent
    requires d.vacancyRate <= e.vacancyRate && d.loanRate <= e.loanRate
    ensures CoC(base, e) <= CoC(base, d)
  {
    hide CashOnCash;
    var d' := e.(vacancyRate := d.vacancyRate, loanRate := d.loanRate);
    GrowthIrrelevant(base, d, d');
    CashOnCashMonotone(Sampled(base, d'), Sampled(base, e));
  }

  /** Every sample lies between the two corners. */
  lemma Envelope(base: Inputs, config: Config, d: Setting)
    requires 1 <= base.loanTermYears && 0.0 <= base.monthlyRent && Drawn(config, d)
    ensures CoC(base, Corner(config, true)) <= CoC(base, d) <= CoC(base, Corner(config, false))
  {
    MoreStress(base, d, Corner(config, true));
    MoreStress(base, Corner(config, false), d);
  }

  /** Vacancy and loan rate act on cash-on-cash independently of each other. */
  lemma Separable(base: Inputs, v1: real, v2: real, r1: real, r2: real, d: Setting)
    requires 1 <= base.loanTermYears
    ensures CoC(base, d.(vacancyRate := v1, loanRate := r1)) - CoC(base, d.(vacancyRate := v2, loanRate := r1))
         == CoC(base, d.(vacancyRate := v1, loanRate := r2)) - CoC(base, d.(vacancyRate := v2, loanRate := r2))
  {
    hide LoanPayment, LoanPrincipal;
    var a11 := Sampled(base, d.(vacancyRate := v1, loanRate := r1));
    var a21 := Sampled(base, d.(vacancyRate := v2, loanRate := r1));
    var a12 := Sampled(base, d.(vacancyRate := v1, loanRate := r2));
    var a22 := Sampled(base, d.(vacancyRate := v2, loanRate := r2));
    if InitialCash(base) > 0.0 {
      SameLoan(a11, a21);
      SameLoan(a12, a22);
      DifferenceOfQuotients(AnnualNoi(a11), AnnualNoi(a21), AnnualDebtService(a11), AnnualDebtService(a12),
                           InitialCash(base));
    }
  }

  lemma SameLoan(a: Inputs, b: Inputs)
    requires 1 <= a.loanTermYears && b == a.(vacancyRate := b.vacancyRate)
    ensures AnnualDebtService(a) == AnnualDebtService(b)
  {
  }

  lemma DifferenceOfQuotients(n1: real, n2: real, d1: real, d2: real, c: real)
    requires 0.0 < c
    ensures (n1 - d1) / c - (n2 - d1) / c == (n1 - d2) / c - (n2 - d2) / c
  {
  }

  /** The width of the box in cash-on-cash is the vacancy swing plus the loan-rate swing. */
  lemma BoxWidth(base: Inputs, config: Config)
    requires 1 <= base.loanTermYears && 0.0 <= base.monthlyRent && config.Valid()
    ensures CoC(base, Corner(config, false)) - CoC(base, Corner(config, true)) == TotalSwing(base, config)
  {
    hide CoC;
    var m := Middle(config);
    var vl, vh, rl, rh := config.vacancyRate.low, config.vacancyRate.high, config.loanRate.low, config.loanRate.high;
    assert Pushed(config, Vacancy, true) == m.(vacancyRate := vh, loanRate := m.loanRate);
    assert Pushed(config, Vacancy, false) == m.(vacancyRate := vl, loanRate := m.loanRate);
    assert Pushed(config, LoanRate, true) == m.(vacancyRate := m.vacancyRate, loanRate := rh);
    assert Pushed(config, LoanRate, false) == m.(vacancyRate := m.vacancyRate, loanRate := rl);
    Separable(base, vl, vh, m.loanRate, rl, m);
    Separable(base, m.vacancyRate, vh, rl, rh, m);
    MoreStress(base, Pushed(config, Vacancy, false), Pushed(config, Vacancy, true));
    MoreStress(base, Pushed(config, LoanRate, false), Pushed(config, LoanRate, true));
    forall s | s in {RentGrowth, ExpenseGrowth, ExitCap} ensures BarOf(base, config, s).swing == 0.0 {
      GrowthIrrelevant(base, Pushed(config, s, false), Pushed(config, s, true));
    }
  }

  /** Any list of numbers has its percentiles in order. */
  lemma SpreadOrdered(values: seq<real>)
    ensures SpreadOf(values).p10 <= SpreadOf(values).p50 <= SpreadOf(values).p90
  {
    PercentileMonotone(values, 0.1, 0.5);
    PercentileMonotone(values, 0.5, 0.9);
  }

  lemma PercentileInEnvelope(base: Inputs, config: Config, draws: seq<Setting>, q: real)
    requires 1 <= base.loanTermYears && 0.0 <= base.monthlyRent && draws != [] && 0.0 <= q <= 1.0
    requires forall i :: 0 <= i < |draws| ==> Drawn(config, draws[i])
    ensures CoC(base, Corner(config, true)) <= Percentile(Cocs(base, draws), q) <= CoC(base, Corner(config, false))
  {
    hide CoC, Percentile;
    PercentileIsValue(Cocs(base, draws), q);
    var i :| 0 <= i < |draws| && Cocs(base, draws)[i] == Percentile(Cocs(base, draws), q);
    Envelope(base, config, draws[i]);
  }

  /** The spread between the tails never exceeds the five tornado swings together. */
  lemma {:induction false} TornadoBoundsSpread(base: Inputs, config: Config, draws: seq<Setting>)
    requires 1 <= base.loanTermYears && 0.0 <= base.monthlyRent && config.Valid()
    requires forall i :: 0 <= i < |draws| ==> Drawn(config, draws[i])
    ensures SpreadOf(Cocs(base, draws)).p90 - SpreadOf(Cocs(base, draws)).p10 <= TotalSwing(base, config)
  {
    hide CoC, TotalSwing, Percentile;
    BoxWidth(base, config);
    if draws == [] {
      EmptySpread(base, draws);
      MoreStress(base, Corner(config, false), Corner(config, true));
    } else {
      PercentileInEnvelope(base, config, draws, 0.1);
      PercentileInEnvelope(base, config, draws, 0.9);
    }
  }

  lemma EmptySpread(base: Inputs, draws: seq<Setting>)
    requires 1 <= base.loanTermYears && draws == []
    ensures SpreadOf(Cocs(base, draws)) == Spread(0.0, 0.0, 0.0)
  {
  }

  /**
   A non-negative p10 of cash-on-cash is the same fact as a small loss count: no more losing
   samples than the rank of the tenth percentile.
   */
  lemma {:induction false} LossCountFromP10(base: Inputs, draws: seq<Setting>)
    requires 1 <= base.loanTermYears && draws != []
    ensures 0.0 <= SpreadOf(Cocs(base, draws)).p10
       <==> CountBelow(Cocs(base, draws), 0.0) <= RankOf(|draws|, 0.1)
  {
    PercentileCounts(Cocs(base, draws), 0.1, 0.0);
  }

  lemma {:induction false} SameLosses(base: Inputs, draws: seq<Setting>, n: nat)
    requires 1 <= base.loanTermYears && base.downPayment < base.purchasePrice && 0.0 < InitialCash(base)
    requires n <= |draws|
    ensures CountBelow(Cocs(base, draws)[..n], 0.0) == CountUncovered(Samples(base, draws)[..n])
  {
    hide Underwrite, CoC;
    if n > 0 {
      SameLosses(base, draws, n - 1);
      var cocs, samples := Cocs(base, draws)[..n], Samples(base, draws)[..n];
      assert cocs[..n - 1] == Cocs(base, draws)[..n - 1] && samples[..n - 1] == Samples(base, draws)[..n - 1];
      SampleLoses(base, draws[n - 1]);
    }
  }

  lemma SampleLoses(base: Inputs, d: Setting)
    requires 1 <= base.loanTermYears && base.downPayment < base.purchasePrice && 0.0 < InitialCash(base)
    ensures Uncovered(Underwrite(Sampled(base, d))) <==> CoC(base, d) < 0.0
  {
    LoanCosts(Sampled(base, d));
    LossesCoincide(Sampled(base, d));
    UnderwritesCoC(base, d);
    hide Underwrite, CoC;
  }

  /** With a loan and cash invested, the two probabilities of the result are one and the same. */
  lemma ProbabilitiesCoincide(base: Inputs, draws: seq<Setting>)
    requires 1 <= base.loanTermYears && base.downPayment < base.purchasePrice && 0.0 < InitialCash(base)
    ensures Share(CountBelow(Cocs(base, draws), 0.0), |draws|) == Share(CountUncovered(Samples(base, draws)), |draws|)
  {
    SameLosses(base, draws, |draws|);
    hide Cocs, Samples, Share;
    assert Cocs(base, draws)[..|draws|] == Cocs(base, draws);
    assert Samples(base, draws)[..|draws|] == Samples(base, draws);
  }
}
