/** The single-property underwriting engine: operating metrics and the projected hold. */
module Underwriting {
  import opened Common
  import opened Powers
  import opened Mortgage
  import opened Irr

  datatype Inputs = Inputs(
    purchasePrice: real, downPayment: real, loanRate: real, loanTermYears: nat,
    monthlyRent: real, vacancyRate: real, monthlyOpex: real, propertyTaxAnnual: real,
    insuranceAnnual: real, closingCosts: real, rentGrowth: real, expenseGrowth: real,
    appreciation: real, exitCapRate: real, sellingCostsPct: real)

  datatype Coverage = Ratio(value: real) | Infinite

  datatype Outcome = Outcome(
    annualDebtService: real, effectiveGrossIncome: real, annualNoi: real, capRate: real,
    cashOnCash: real, dscr: Coverage, breakevenOccupancy: real, initialEquity: real,
    irr5: Option<real>, irr10: Option<real>)

  function LoanPrincipal(inp: Inputs): real { Max(inp.purchasePrice - inp.downPayment, 0.0) }

  function AnnualDebtService(inp: Inputs): real
    requires 1 <= inp.loanTermYears
  {
    LoanPayment(LoanPrincipal(inp), inp.loanRate, inp.loanTermYears) * 12.0
  }

  function GrossRent(inp: Inputs): real { inp.monthlyRent * 12.0 }

  function AnnualOpex(inp: Inputs): real {
    inp.monthlyOpex * 12.0 + inp.propertyTaxAnnual + inp.insuranceAnnual
  }

  function AnnualNoi(inp: Inputs): real {
    GrossRent(inp) - GrossRent(inp) * inp.vacancyRate - AnnualOpex(inp)
  }

  function InitialCash(inp: Inputs): real { inp.downPayment + inp.closingCosts }

  function CashOnCash(inp: Inputs): real
    requires 1 <= inp.loanTermYears
  {
    var initialCash := InitialCash(inp);
    if initialCash > 0.0 then (AnnualNoi(inp) - AnnualDebtService(inp)) / initialCash else 0.0
  }

  function Underwrite(inp: Inputs): Outcome
    requires 1 <= inp.loanTermYears
  {
    var ds := AnnualDebtService(inp);
    var gross := GrossRent(inp);
    Outcome(ds, gross - gross * inp.vacancyRate, AnnualNoi(inp),
           if inp.purchasePrice > 0.0 then AnnualNoi(inp) / inp.purchasePrice else 0.0,
           CashOnCash(inp),
           if ds > 0.0 then Ratio(AnnualNoi(inp) / ds) else Infinite,
           if gross > 0.0 then (AnnualOpex(inp) + ds) / gross else 0.0,
           InitialCash(inp), ProjectedIrr(inp, 5), ProjectedIrr(inp, 10))
  }

  // ---------------------------------------------------------------------------
  // Three ways to lose money in the first year
  // ---------------------------------------------------------------------------

  lemma QuotientBelow(x: real, d: real, b: real)
    requires 0.0 < d
    ensures x / d < b <==> x < Times(b, d)
  {
    assert (b - x / d) * d == Times(b, d) - x;
  }

  function Times(x: real, y: real): real { x * y }

  /**
   With a loan and cash invested, coverage below one, a negative cash-on-cash return and an
   occupancy below break-even are the same fact.
   */
  lemma LossesCoincide(inp: Inputs)
    requires 1 <= inp.loanTermYears && 0.0 < AnnualDebtService(inp) && 0.0 < InitialCash(inp)
    ensures var r := Underwrite(inp);
            && r.dscr.Ratio? && (r.dscr.value < 1.0 <==> r.cashOnCash < 0.0)
            && (0.0 < GrossRent(inp) ==> (r.cashOnCash < 0.0 <==> 1.0 - inp.vacancyRate < r.breakevenOccupancy))
  {
    hide AnnualDebtService, InitialCash, GrossRent, AnnualOpex, ProjectedIrr;
    var noi, ds := AnnualNoi(inp), AnnualDebtService(inp);
    QuotientBelow(noi, ds, 1.0);
    QuotientBelow(noi - ds, InitialCash(inp), 0.0);
    if 0.0 < GrossRent(inp) {
      AboveQuotient(AnnualOpex(inp) + ds, GrossRent(inp), 1.0 - inp.vacancyRate);
    }
  }

  lemma AboveQuotient(x: real, d: real, b: real)
    requires 0.0 < d
    ensures b < x / d <==> Times(b, d) < x
  {
    assert (x / d - b) * d == x - Times(b, d);
  }

  /** There is debt service whenever there is a loan. */
  lemma LoanCosts(inp: Inputs)
    requires 1 <= inp.loanTermYears && inp.downPayment < inp.purchasePrice
    ensures 0.0 < AnnualDebtService(inp)
  {
    PaymentAtLeastStraightLine(LoanPrincipal(inp), inp.loanRate, inp.loanTermYears);
    hide MonthlyPayment;
  }

  // ---------------------------------------------------------------------------
  // The projected hold
  // ---------------------------------------------------------------------------

  function RentOfYear(inp: Inputs, year: nat): real
    requires 1 <= year
  {
    GrossRent(inp) * Pow(1.0 + inp.rentGrowth, year - 1)
  }

  function OpexOfYear(inp: Inputs, year: nat): real
    requires 1 <= year
  {
    AnnualOpex(inp) * Pow(1.0 + inp.expenseGrowth, year - 1)
  }

  /** What a year pays before any sale. */
  function OperatingFlow(inp: Inputs, year: nat): real
    requires 1 <= year && 1 <= inp.loanTermYears
  {
    RentOfYear(inp, year) * (1.0 - inp.vacancyRate) - OpexOfYear(inp, year) - AnnualDebtService(inp)
  }

  /** Sale proceeds at the end of the hold, net of selling costs and the original loan. */
  function NetSale(inp: Inputs, holdYears: nat): real
    requires 1 <= holdYears
  {
    var futureNoi := RentOfYear(inp, holdYears) * (1.0 + inp.rentGrowth) * (1.0 - inp.vacancyRate)
                     - OpexOfYear(inp, holdYears) * (1.0 + inp.expenseGrowth);
    var exitValue := if inp.exitCapRate > 0.0 then futureNoi / inp.exitCapRate
                     else inp.purchasePrice * Pow(1.0 + inp.appreciation, holdYears);
    exitValue - exitValue * inp.sellingCostsPct - LoanPrincipal(inp)
  }

  function FlowOfYear(inp: Inputs, holdYears: nat, year: nat): real
    requires 1 <= inp.loanTermYears && year <= holdYears
  {
    if year == 0 then -InitialCash(inp)
    else if year < holdYears then OperatingFlow(inp, year)
    else OperatingFlow(inp, year) + NetSale(inp, holdYears)
  }

  function ProjectedFlows(inp: Inputs, holdYears: nat): seq<real>
    requires 1 <= inp.loanTermYears
  {
    seq(holdYears + 1, year requires 0 <= year <= holdYears => FlowOfYear(inp, holdYears, year))
  }

  function ProjectedIrr(inp: Inputs, holdYears: nat): Option<real>
    requires 1 <= inp.loanTermYears
  {
    if InitialCash(inp) <= 0.0 then None else Rate(ProjectedFlows(inp, holdYears))
  }

  /** _project_irr: the loop that builds the flows, then the search. */
  method ProjectIrr(inp: Inputs, holdYears: nat, initialCash: real, loanPrincipal: real, annualDs: real)
    returns (rate: Option<real>)
    requires 1 <= inp.loanTermYears
    requires initialCash == InitialCash(inp) && loanPrincipal == LoanPrincipal(inp)
    requires annualDs == AnnualDebtService(inp)
    ensures rate == ProjectedIrr(inp, holdYears)
  {
    hide Pow, AnnualDebtService, Rate, GrossRent, AnnualOpex, LoanPrincipal;
    if initialCash <= 0.0 {
      return None;
    }
    var rentY1, opexY1 := GrossRent(inp), AnnualOpex(inp);
    var flows := [-initialCash];
    for year := 1 to holdYears + 1
      invariant |flows| == year
      invariant forall y :: 0 <= y < year ==> flows[y] == FlowOfYear(inp, holdYears, y)
    {
      var rentY := rentY1 * Pow(1.0 + inp.rentGrowth, year - 1);
      var opexY := opexY1 * Pow(1.0 + inp.expenseGrowth, year - 1);
      assert rentY == RentOfYear(inp, year) && opexY == OpexOfYear(inp, year);
      var cf := rentY * (1.0 - inp.vacancyRate) - opexY - annualDs;
      if year < holdYears {
        flows := flows + [cf];
      } else {
        var futureNoi := rentY * (1.0 + inp.rentGrowth) * (1.0 - inp.vacancyRate)
                         - opexY * (1.0 + inp.expenseGrowth);
        var exitValue := if inp.exitCapRate > 0.0 then futureNoi / inp.exitCapRate
                         else inp.purchasePrice * Pow(1.0 + inp.appreciation, holdYears);
        var netSale := exitValue - exitValue * inp.sellingCostsPct - loanPrincipal;
        flows := flows + [cf + netSale];
      }
    }
    assert flows == ProjectedFlows(inp, holdYears);
    rate := ComputeIrr(flows);
  }

  // ---------------------------------------------------------------------------
  // Stress directions
  // ---------------------------------------------------------------------------

  /** b is the deal a under more vacancy and a dearer loan, everything else alike. */
  ghost predicate Stressed(a: Inputs, b: Inputs) {
    && a.vacancyRate <= b.vacancyRate && a.loanRate <= b.loanRate
    && b == a.(vacancyRate := b.vacancyRate, loanRate := b.loanRate)
  }

  lemma DebtServiceMonotone(a: Inputs, b: Inputs)
    requires Stressed(a, b) && 1 <= a.loanTermYears
    ensures AnnualDebtService(a) <= AnnualDebtService(b)
  {
    if LoanPrincipal(a) > 0.0 {
      PaymentMonotone(LoanPrincipal(a), a.loanRate, b.loanRate, a.loanTermYears);
    }
  }

  lemma NoiMonotone(a: Inputs, b: Inputs)
    requires Stressed(a, b) && 0.0 <= a.monthlyRent
    ensures AnnualNoi(b) <= AnnualNoi(a)
  {
    MulMono(a.vacancyRate, b.vacancyRate, GrossRent(a));
  }

  /** More vacancy or a dearer loan never raises the cash-on-cash return. */
  lemma CashOnCashMonotone(a: Inputs, b: Inputs)
    requires Stressed(a, b) && 1 <= a.loanTermYears && 0.0 <= a.monthlyRent
    ensures CashOnCash(b) <= CashOnCash(a)
  {
    hide AnnualNoi, AnnualDebtService;
    NoiMonotone(a, b);
    DebtServiceMonotone(a, b);
    if InitialCash(a) > 0.0 {
      DivideMono(AnnualNoi(b) - AnnualDebtService(b), AnnualNoi(a) - AnnualDebtService(a), InitialCash(a));
    }
  }

  lemma DivideMono(x: real, y: real, d: real)
    requires x <= y && 0.0 < d
    ensures x / d <= y / d
  {
    var p, q := x / d, y / d;
    assert (q - p) * d == y - x;
  }

  /** Rent never shrinks below zero, and a sale priced by an exit cap does not cost more than it brings. */
  ghost predicate SoundSale(inp: Inputs) {
    0.0 <= inp.monthlyRent && -1.0 < inp.rentGrowth && (inp.exitCapRate > 0.0 ==> inp.sellingCostsPct <= 1.0)
  }

  lemma RentShare(rent: real, v: real, w: real)
    requires 0.0 <= rent && v <= w
    ensures rent * (1.0 - w) <= rent * (1.0 - v)
  {
    MulMono(1.0 - w, 1.0 - v, rent);
  }

  lemma RentNotNegative(inp: Inputs, year: nat)
    requires SoundSale(inp) && 1 <= year
    ensures 0.0 <= RentOfYear(inp, year) && 0.0 <= RentOfYear(inp, year) * (1.0 + inp.rentGrowth)
  {
    PowPositive(1.0 + inp.rentGrowth, year - 1);
    MulMono(0.0, GrossRent(inp), Pow(1.0 + inp.rentGrowth, year - 1));
    MulMono(0.0, RentOfYear(inp, year), 1.0 + inp.rentGrowth);
  }

  lemma OperatingFlowFalls(a: Inputs, b: Inputs, year: nat)
    requires Stressed(a, b) && SoundSale(a) && 1 <= a.loanTermYears && 1 <= year
    ensures OperatingFlow(b, year) <= OperatingFlow(a, year)
  {
    hide AnnualDebtService, RentOfYear, OpexOfYear;
    SameBooks(a, b, year);
    RentNotNegative(a, year);
    RentShare(RentOfYear(a, year), a.vacancyRate, b.vacancyRate);
    DebtServiceMonotone(a, b);
  }

  lemma NetSaleFalls(a: Inputs, b: Inputs, holdYears: nat)
    requires Stressed(a, b) && SoundSale(a) && 1 <= holdYears
    ensures NetSale(b, holdYears) <= NetSale(a, holdYears)
  {
    hide RentOfYear, OpexOfYear, LoanPrincipal, Pow;
    SameBooks(a, b, holdYears);
    RentNotNegative(a, holdYears);
    if a.exitCapRate > 0.0 {
      CapSaleFalls(RentOfYear(a, holdYears) * (1.0 + a.rentGrowth), OpexOfYear(a, holdYears) * (1.0 + a.expenseGrowth),
                   a.vacancyRate, b.vacancyRate, a.exitCapRate, a.sellingCostsPct);
    }
  }

  /** What a sale at a cap rate brings, net of its costs, falls as vacancy rises. */
  lemma CapSaleFalls(rent: real, opex: real, v: real, w: real, cap: real, pct: real)
    requires 0.0 <= rent && v <= w && 0.0 < cap && pct <= 1.0
    ensures var low, high := (rent * (1.0 - w) - opex) / cap, (rent * (1.0 - v) - opex) / cap;
            low - low * pct <= high - high * pct
  {
    RentShare(rent, v, w);
    CapSaleSteps(rent * (1.0 - w) - opex, rent * (1.0 - v) - opex, cap, pct);
  }

  lemma CapSaleSteps(x: real, y: real, cap: real, pct: real)
    requires x <= y && 0.0 < cap && pct <= 1.0
    ensures x / cap - x / cap * pct <= y / cap - y / cap * pct
  {
    DivideMono(x, y, cap);
    Proceeds(x / cap, y / cap, pct);
  }

  lemma SameBooks(a: Inputs, b: Inputs, year: nat)
    requires Stressed(a, b) && 1 <= year
    ensures RentOfYear(b, year) == RentOfYear(a, year) && OpexOfYear(b, year) == OpexOfYear(a, year)
    ensures LoanPrincipal(b) == LoanPrincipal(a)
  {
  }

  lemma Proceeds(x: real, y: real, pct: real)
    requires x <= y && pct <= 1.0
    ensures x - x * pct <= y - y * pct
  {
    MulMono(x, y, 1.0 - pct);
  }

  lemma {:induction false} NpvPointwise(low: seq<real>, high: seq<real>, rate: real)
    requires |low| == |high| && -1.0 < rate
    requires forall t :: 0 <= t < |low| ==> low[t] <= high[t]
    ensures Npv(low, rate) <= Npv(high, rate)
  {
    if low != [] {
      var t := |low| - 1;
      NpvPointwise(low[..t], high[..t], rate);
      PowPositive(1.0 + rate, t);
      DivideMono(low[t], high[t], Pow(1.0 + rate, t));
    }
  }

  /** Stress lowers every projected flow, so it lowers the NPV of the hold at every rate. */
  lemma StressLowersNpv(a: Inputs, b: Inputs, holdYears: nat, rate: real)
    requires Stressed(a, b) && SoundSale(a) && 1 <= a.loanTermYears && -1.0 < rate
    ensures Npv(ProjectedFlows(b, holdYears), rate) <= Npv(ProjectedFlows(a, holdYears), rate)
  {
    var low, high := ProjectedFlows(b, holdYears), ProjectedFlows(a, holdYears);
    forall t | 0 <= t < |low| ensures low[t] <= high[t] {
      FlowFalls(a, b, holdYears, t);
    }
    NpvPointwise(low, high, rate);
  }

  /** So the internal rate of return of the stressed deal is never above that of the base deal. */
  lemma StressLowersRate(a: Inputs, b: Inputs, holdYears: nat, r: real, s: real)
    requires Stressed(a, b) && SoundSale(a) && 1 <= a.loanTermYears
    requires Conventional(ProjectedFlows(b, holdYears)) && -1.0 < r && -1.0 < s
    requires Npv(ProjectedFlows(a, holdYears), r) == 0.0 && Npv(ProjectedFlows(b, holdYears), s) == 0.0
    ensures s <= r
  {
    if r < s {
      StressLowersNpv(a, b, holdYears, r);
      NpvStrictlyDecreasing(ProjectedFlows(b, holdYears), r, s);
    }
  }

  lemma FlowFalls(a: Inputs, b: Inputs, holdYears: nat, year: nat)
    requires Stressed(a, b) && SoundSale(a) && 1 <= a.loanTermYears && year <= holdYears
    ensures FlowOfYear(b, holdYears, year) <= FlowOfYear(a, holdYears, year)
  {
    hide OperatingFlow, NetSale;
    if year > 0 {
      OperatingFlowFalls(a, b, year);
      NetSaleFalls(a, b, holdYears);
    }
  }
}
