/** The projected flows of a deal, told as operations plus financing, and the first-year metrics in their terms. */
module UnderwritingLaws {
  import opened Common
  import opened Powers
  import opened Mortgage
  import opened Irr
  import opened Underwriting
  import A = Amortization

  // ---------------------------------------------------------------------------
  // The deal, year by year
  // ---------------------------------------------------------------------------

  /** Twelve rents, growing every year. */
  function RentIn(inp: Inputs, year: nat): real
    requires 1 <= year
  {
    if year == 1 then 12.0 * inp.monthlyRent else RentIn(inp, year - 1) * (1.0 + inp.rentGrowth)
  }

  /** Twelve months of expenses, tax and insurance, growing every year. */
  function CostsIn(inp: Inputs, year: nat): real
    requires 1 <= year
  {
    if year == 1 then 12.0 * inp.monthlyOpex + inp.propertyTaxAnnual + inp.insuranceAnnual
    else CostsIn(inp, year - 1) * (1.0 + inp.expenseGrowth)
  }

  function ValueAfter(inp: Inputs, years: nat): real {
    if years == 0 then inp.purchasePrice else ValueAfter(inp, years - 1) * (1.0 + inp.appreciation)
  }

  /** Rent after vacancy, less expenses. */
  function NetIncome(inp: Inputs, year: nat): real
    requires 1 <= year
  {
    RentIn(inp, year) - inp.vacancyRate * RentIn(inp, year) - CostsIn(inp, year)
  }

  /** A sale after the hold brings the coming year's income at the exit cap rate, or the grown price without one. */
  function SalePrice(inp: Inputs, holdYears: nat): real {
    if inp.exitCapRate > 0.0 then NetIncome(inp, holdYears + 1) / inp.exitCapRate else ValueAfter(inp, holdYears)
  }

  /** The sale less its costs. */
  function SaleNet(inp: Inputs, holdYears: nat): real { SalePrice(inp, holdYears) * (1.0 - inp.sellingCostsPct) }

  /** What is borrowed. */
  function Borrowed(inp: Inputs): real {
    if inp.purchasePrice > inp.downPayment then inp.purchasePrice - inp.downPayment else 0.0
  }

  /** The flow of a year of the deal bought for cash. */
  function Operations(inp: Inputs, holdYears: nat, year: nat): real {
    if year == 0 then -(inp.downPayment + Borrowed(inp) + inp.closingCosts)
    else NetIncome(inp, year)
         + (if year == holdYears then SaleNet(inp, holdYears) else 0.0)
  }

  /** Twelve monthly payments. */
  function DebtService(inp: Inputs): real
    requires 1 <= inp.loanTermYears
  {
    12.0 * LoanPayment(Borrowed(inp), inp.loanRate, inp.loanTermYears)
  }

  /** The flow of a year of the loan: paid out at first, served every year, and repaid in full at the sale. */
  function Financing(inp: Inputs, holdYears: nat, year: nat): real
    requires 1 <= inp.loanTermYears
  {
    if year == 0 then Borrowed(inp)
    else -DebtService(inp) - (if year == holdYears then Borrowed(inp) else 0.0)
  }

  lemma {:induction false} RentGrows(inp: Inputs, year: nat)
    requires 1 <= year
    ensures RentIn(inp, year) == 12.0 * inp.monthlyRent * Pow(1.0 + inp.rentGrowth, year - 1)
  {
    if year > 1 {
      RentGrows(inp, year - 1);
      Regroup(12.0 * inp.monthlyRent, Pow(1.0 + inp.rentGrowth, year - 2), 1.0 + inp.rentGrowth);
    }
  }

  lemma {:induction false} CostsGrow(inp: Inputs, year: nat)
    requires 1 <= year
    ensures CostsIn(inp, year) ==
            (12.0 * inp.monthlyOpex + inp.propertyTaxAnnual + inp.insuranceAnnual)
            * Pow(1.0 + inp.expenseGrowth, year - 1)
  {
    if year > 1 {
      CostsGrow(inp, year - 1);
      Regroup(12.0 * inp.monthlyOpex + inp.propertyTaxAnnual + inp.insuranceAnnual,
              Pow(1.0 + inp.expenseGrowth, year - 2), 1.0 + inp.expenseGrowth);
    }
  }

  lemma {:induction false} ValueGrows(inp: Inputs, years: nat)
    ensures ValueAfter(inp, years) == inp.purchasePrice * Pow(1.0 + inp.appreciation, years)
  {
    if years > 0 {
      ValueGrows(inp, years - 1);
      Regroup(inp.purchasePrice, Pow(1.0 + inp.appreciation, years - 1), 1.0 + inp.appreciation);
    }
  }

  lemma Regroup(x: real, p: real, y: real)
    ensures x * p * y == x * (y * p)
  {
  }

  /** Every projected flow is that of the deal bought for cash plus that of the loan. */
  lemma FlowsSplit(inp: Inputs, holdYears: nat, year: nat)
    requires 1 <= inp.loanTermYears && year <= holdYears
    ensures ProjectedFlows(inp, holdYears)[year] == Operations(inp, holdYears, year) + Financing(inp, holdYears, year)
  {
    SameLoan(inp);
    if year > 0 {
      OperatingAgrees(inp, year);
    }
    hide OperatingFlow, NetSale, SaleNet, NetIncome, DebtService, Borrowed, LoanPrincipal;
    if year == holdYears && year > 0 {
      SaleAgrees(inp, holdYears);
    }
  }

  lemma SameLoan(inp: Inputs)
    ensures LoanPrincipal(inp) == Borrowed(inp)
    ensures InitialCash(inp) == inp.downPayment + inp.closingCosts
  {
  }

  lemma OperatingAgrees(inp: Inputs, year: nat)
    requires 1 <= inp.loanTermYears && 1 <= year
    ensures OperatingFlow(inp, year) ==
            NetIncome(inp, year) - DebtService(inp)
  {
    IncomeAgrees(inp, year);
    SameLoan(inp);
    hide RentOfYear, OpexOfYear, NetIncome, LoanPayment, LoanPrincipal, Borrowed;
  }

  lemma IncomeAgrees(inp: Inputs, year: nat)
    requires 1 <= year
    ensures RentOfYear(inp, year) * (1.0 - inp.vacancyRate) - OpexOfYear(inp, year) == NetIncome(inp, year)
    ensures RentOfYear(inp, year) * (1.0 + inp.rentGrowth) * (1.0 - inp.vacancyRate)
            - OpexOfYear(inp, year) * (1.0 + inp.expenseGrowth) == NetIncome(inp, year + 1)
  {
    RentGrows(inp, year);
    CostsGrow(inp, year);
    hide Pow;
    Vacant(RentIn(inp, year), inp.vacancyRate);
    Vacant(RentIn(inp, year + 1), inp.vacancyRate);
  }

  lemma Vacant(rent: real, v: real)
    ensures rent * (1.0 - v) == rent - v * rent && v * rent == rent * v
  {
  }

  lemma SaleAgrees(inp: Inputs, holdYears: nat)
    requires 1 <= holdYears
    ensures NetSale(inp, holdYears) == SaleNet(inp, holdYears) - Borrowed(inp)
  {
    SameLoan(inp);
    IncomeAgrees(inp, holdYears);
    ValueGrows(inp, holdYears);
    hide LoanPrincipal, Borrowed, RentOfYear, OpexOfYear, NetIncome, ValueAfter, Pow;
    Vacant(SalePrice(inp, holdYears), inp.sellingCostsPct);
  }

  /** The same deal without a loan. */
  function ForCash(inp: Inputs): Inputs {
    inp.(downPayment := inp.downPayment + Borrowed(inp))
  }

  lemma {:induction false} SameBooks(inp: Inputs, year: nat)
    requires 1 <= year
    ensures RentIn(ForCash(inp), year) == RentIn(inp, year) && CostsIn(ForCash(inp), year) == CostsIn(inp, year)
  {
    hide Borrowed;
    if year > 1 {
      SameBooks(inp, year - 1);
    }
  }

  lemma SameIncome(inp: Inputs, year: nat)
    requires 1 <= year
    ensures NetIncome(ForCash(inp), year) == NetIncome(inp, year)
  {
    SameBooks(inp, year);
    hide RentIn, CostsIn, Borrowed;
  }

  lemma {:induction false} SameValue(inp: Inputs, years: nat)
    ensures ValueAfter(ForCash(inp), years) == ValueAfter(inp, years)
  {
    if years > 0 {
      SameValue(inp, years - 1);
    }
  }

  /**
   The flows of a deal are those of the same deal bought for cash, plus what is borrowed in year zero,
   less the debt service of every year, less the whole loan at the sale.
   */
  lemma FinancingApart(inp: Inputs, holdYears: nat, year: nat)
    requires 1 <= inp.loanTermYears && year <= holdYears
    ensures ProjectedFlows(inp, holdYears)[year] ==
            ProjectedFlows(ForCash(inp), holdYears)[year] + Financing(inp, holdYears, year)
  {
    FlowsSplit(inp, holdYears, year);
    FlowsSplit(ForCash(inp), holdYears, year);
    SameOperations(inp, holdYears, year);
    NoFinancing(inp, holdYears, year);
    hide ProjectedFlows, Operations, Financing, ForCash;
  }

  lemma SameOperations(inp: Inputs, holdYears: nat, year: nat)
    requires year <= holdYears
    ensures Operations(ForCash(inp), holdYears, year) == Operations(inp, holdYears, year)
  {
    assert Borrowed(ForCash(inp)) == 0.0;
    SameValue(inp, holdYears);
    SameIncome(inp, holdYears + 1);
    if year > 0 {
      SameIncome(inp, year);
    }
    hide NetIncome, ValueAfter, Borrowed;
  }

  lemma NoFinancing(inp: Inputs, holdYears: nat, year: nat)
    requires 1 <= inp.loanTermYears
    ensures Financing(ForCash(inp), holdYears, year) == 0.0
  {
    assert Borrowed(ForCash(inp)) == 0.0;
  }

  function Total(flows: seq<real>): real {
    if flows == [] then 0.0 else Total(flows[..|flows| - 1]) + flows[|flows| - 1]
  }

  /** The income of the first years less their debt service. */
  function KeptUpTo(inp: Inputs, years: nat): real
    requires 1 <= inp.loanTermYears
  {
    if years == 0 then 0.0 else KeptUpTo(inp, years - 1) + NetIncome(inp, years) - DebtService(inp)
  }

  /** In sum a deal returns its income after debt service and the sale less its costs, for the price and the costs. */
  lemma FlowsTotal(inp: Inputs, holdYears: nat)
    requires 1 <= inp.loanTermYears && 1 <= holdYears
    ensures Total(ProjectedFlows(inp, holdYears)) ==
            KeptUpTo(inp, holdYears) + SaleNet(inp, holdYears)
            - (inp.downPayment + Borrowed(inp) + inp.closingCosts)
  {
    var flows := ProjectedFlows(inp, holdYears);
    TotalUpTo(inp, holdYears, holdYears - 1);
    FlowsSplit(inp, holdYears, holdYears);
    assert flows[..holdYears] == flows[..|flows| - 1];
    hide ProjectedFlows, DebtService, NetIncome, SaleNet, Borrowed;
  }

  lemma {:induction false} TotalUpTo(inp: Inputs, holdYears: nat, n: nat)
    requires 1 <= inp.loanTermYears && n < holdYears
    ensures Total(ProjectedFlows(inp, holdYears)[..n + 1]) ==
            KeptUpTo(inp, n) - (inp.downPayment + inp.closingCosts)
  {
    var flows := ProjectedFlows(inp, holdYears);
    FlowsSplit(inp, holdYears, n);
    hide ProjectedFlows, DebtService, NetIncome, SaleNet, Borrowed;
    assert flows[..n + 1][..n] == flows[..n];
    if n > 0 {
      TotalUpTo(inp, holdYears, n - 1);
    } else {
      assert flows[..0] == [];
    }
  }

  /**
   The sale repays the loan as it was taken out, although the payments of the hold have paid part of it
   off: the balance that the amortization loop shows by then is always smaller.
   */
  lemma SaleRepaysTooMuch(inp: Inputs, holdYears: nat)
    requires 1 <= holdYears <= inp.loanTermYears && 0.0 <= inp.loanRate && 0.0 < Borrowed(inp)
    ensures A.LoanBalance(Borrowed(inp), inp.loanRate, inp.loanTermYears, 12 * holdYears) < Borrowed(inp)
  {
    A.BalanceRunsDownToZero(Borrowed(inp), inp.loanRate, inp.loanTermYears, 12 * holdYears);
    A.BalanceRunsDownToZero(Borrowed(inp), inp.loanRate, inp.loanTermYears, 12 * holdYears - 1);
    hide A.LoanBalance;
  }

  // ---------------------------------------------------------------------------
  // The metrics of the first year
  // ---------------------------------------------------------------------------

  /**
   The metrics are ratios of the first projected year: income over price, income over debt service, the
   year's flow over the cash put in.
   */
  lemma FirstYear(inp: Inputs)
    requires 1 <= inp.loanTermYears
    ensures var r, income := Underwrite(inp), NetIncome(inp, 1);
            && r.effectiveGrossIncome - CostsIn(inp, 1) == income == r.annualNoi
            && r.annualDebtService == DebtService(inp)
            && (inp.purchasePrice > 0.0 ==> r.capRate * inp.purchasePrice == income)
            && (r.initialEquity > 0.0 ==> r.cashOnCash * r.initialEquity == ProjectedFlows(inp, 2)[1])
            && r.initialEquity == -ProjectedFlows(inp, 2)[0]
            && (r.annualDebtService > 0.0 ==> r.dscr.Ratio? && r.dscr.value * r.annualDebtService == income)
  {
    FlowsSplit(inp, 2, 0);
    FlowsSplit(inp, 2, 1);
    SameLoan(inp);
    IncomeNow(inp);
    hide ProjectedFlows, ProjectedIrr, LoanPayment, Borrowed, LoanPrincipal, GrossRent, AnnualOpex, RentIn, NetIncome;
  }

  /** Ratios over nothing: no return without cash put in, no cap rate without a price, no occupancy without rent. */
  lemma RatiosOverNothing(inp: Inputs)
    requires 1 <= inp.loanTermYears
    ensures var r := Underwrite(inp);
            && (r.initialEquity <= 0.0 ==> r.cashOnCash == 0.0) && (inp.purchasePrice <= 0.0 ==> r.capRate == 0.0)
            && (r.annualDebtService <= 0.0 ==> r.dscr == Infinite)
            && (RentIn(inp, 1) <= 0.0 ==> r.breakevenOccupancy == 0.0)
  {
    hide AnnualDebtService, ProjectedIrr, AnnualNoi, AnnualOpex;
  }

  /** At the break-even occupancy the income just pays the debt service. */
  lemma BreaksEven(inp: Inputs)
    requires 1 <= inp.loanTermYears && RentIn(inp, 1) > 0.0
    ensures var r := Underwrite(inp);
            NetIncome(inp.(vacancyRate := 1.0 - r.breakevenOccupancy), 1) == r.annualDebtService
  {
    hide Underwrite, AnnualNoi, GrossRent, AnnualOpex, RentIn, NetIncome;
    var occupancy := Underwrite(inp).breakevenOccupancy;
    IncomeNow(inp);
    IncomeNow(inp.(vacancyRate := 1.0 - occupancy));
    BreakEvenIs(inp);
    EvenIncome(inp, Underwrite(inp).annualDebtService, occupancy);
  }

  lemma BreakEvenIs(inp: Inputs)
    requires 1 <= inp.loanTermYears && 0.0 < GrossRent(inp)
    ensures var r := Underwrite(inp);
            r.breakevenOccupancy == (AnnualOpex(inp) + r.annualDebtService) / GrossRent(inp)
  {
    hide ProjectedIrr, AnnualDebtService, GrossRent, AnnualOpex;
  }

  lemma SameFirstYear(inp: Inputs, breakeven: real)
    ensures var even := inp.(vacancyRate := 1.0 - breakeven);
            GrossRent(even) == GrossRent(inp) && AnnualOpex(even) == AnnualOpex(inp)
  {
  }

  lemma IncomeNow(inp: Inputs)
    ensures RentIn(inp, 1) == GrossRent(inp) && CostsIn(inp, 1) == AnnualOpex(inp)
    ensures NetIncome(inp, 1) == AnnualNoi(inp)
  {
  }

  lemma EvenIncome(inp: Inputs, ds: real, occupancy: real)
    requires 0.0 < GrossRent(inp) && occupancy == (AnnualOpex(inp) + ds) / GrossRent(inp)
    ensures AnnualNoi(inp.(vacancyRate := 1.0 - occupancy)) == ds
  {
    SameFirstYear(inp, occupancy);
    hide GrossRent, AnnualOpex;
    EvenSteps(GrossRent(inp), AnnualOpex(inp), ds, occupancy);
  }

  lemma EvenSteps(gross: real, opex: real, ds: real, occupancy: real)
    requires 0.0 < gross && occupancy == (opex + ds) / gross
    ensures gross - gross * (1.0 - occupancy) - opex == ds
  {
    assert occupancy * gross == opex + ds;
  }

  /** The two rates are those of holds of five and ten years, and there is none without cash put in. */
  lemma TwoHolds(inp: Inputs)
    requires 1 <= inp.loanTermYears
    ensures var r := Underwrite(inp);
            && (r.initialEquity <= 0.0 ==> r.irr5 == None && r.irr10 == None)
            && (r.initialEquity > 0.0 ==>
                  r.irr5 == Rate(ProjectedFlows(inp, 5)) && r.irr10 == Rate(ProjectedFlows(inp, 10)))
  {
    hide AnnualDebtService, Rate, ProjectedFlows;
  }
}
