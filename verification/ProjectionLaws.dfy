/** What the summary and the curve mean: against the underwriting engine, as weighted means, and year to year. */
module ProjectionLaws {
  import opened Common
  import opened Powers
  import opened Projection
  import U = Underwriting

  // ---------------------------------------------------------------------------
  // Income
  // ---------------------------------------------------------------------------

  /** The underwriting inputs with a holding's operating columns, null as zero. */
  function AsDeal(fin: Financials, deal: U.Inputs): U.Inputs {
    deal.(monthlyRent := OrZero(fin.monthlyRent), vacancyRate := OrZero(fin.vacancyRate),
          monthlyOpex := OrZero(fin.monthlyOpex), propertyTaxAnnual := OrZero(fin.propertyTaxAnnual),
          insuranceAnnual := OrZero(fin.insuranceAnnual))
  }

  /** The summary's monthly income is a twelfth of what the underwriting engine makes of the same columns. */
  lemma IncomeIsUnderwritten(fin: Financials, deal: U.Inputs)
    ensures 12.0 * MonthlyNoi(fin) == U.AnnualNoi(AsDeal(fin, deal))
  {
    var rent, vacancy := OrZero(fin.monthlyRent), OrZero(fin.vacancyRate);
    assert rent * (1.0 - vacancy) == rent - rent * vacancy;
    assert (rent * 12.0) * vacancy == 12.0 * (rent * vacancy);
  }

  /** What is paid on loans. */
  const PAYMENT := (f: Financials) => OrZero(f.monthlyPiti)

  /** Cash flow is income less payments, holding by holding and in sum. */
  lemma {:induction false} CashFlowIsIncomeLessPayments(fins: seq<Option<Financials>>)
    ensures Total(fins, CASH_FLOW) == Total(fins, NOI) - Total(fins, PAYMENT)
  {
    hide MonthlyNoi;
    if fins != [] {
      CashFlowIsIncomeLessPayments(fins[..|fins| - 1]);
    }
  }

  // ---------------------------------------------------------------------------
  // Coverage
  // ---------------------------------------------------------------------------

  predicate Serviced(fin: Option<Financials>) { fin.Some? && Positive(fin.value.monthlyPiti) }

  /** A holding's income lies between low and high times its payment. */
  predicate CoveredWithin(fin: Option<Financials>, low: real, high: real) {
    Serviced(fin) ==>
      low * fin.value.monthlyPiti.value <= MonthlyNoi(fin.value) <= high * fin.value.monthlyPiti.value
  }

  /** noi lies between low and high times ds, which is positive exactly when something is serviced. */
  ghost predicate Bounded(noi: real, ds: real, low: real, high: real, some: bool) {
    low * ds <= noi <= high * ds && 0.0 <= ds && (ds > 0.0 <==> some)
  }

  lemma BothBounded(noi: real, ds: real, some: bool, noi': real, ds': real, some': bool, low: real, high: real)
    requires Bounded(noi, ds, low, high, some) && Bounded(noi', ds', low, high, some')
    ensures Bounded(noi + noi', ds + ds', low, high, some || some')
  {
    assert low * (ds + ds') == low * ds + low * ds' && high * (ds + ds') == high * ds + high * ds';
  }

  predicate SomeServiced(fins: seq<Option<Financials>>) { exists i :: 0 <= i < |fins| && Serviced(fins[i]) }

  lemma {:induction false} ServicedTotals(fins: seq<Option<Financials>>, low: real, high: real)
    requires forall i :: 0 <= i < |fins| ==> CoveredWithin(fins[i], low, high)
    ensures Bounded(Total(fins, SERVICED_NOI), Total(fins, DEBT_SERVICE), low, high, SomeServiced(fins))
  {
    hide MonthlyNoi, CoveredWithin, Serviced;
    if fins != [] {
      var n := |fins| - 1;
      ServicedTotals(fins[..n], low, high);
      OneBounded(fins[n], low, high);
      assert SomeServiced(fins) <==> SomeServiced(fins[..n]) || Serviced(fins[n]) by {
        assert fins == fins[..n] + [fins[n]];
        hide Total;
      }
      hide Bounded, SomeServiced;
      BothBounded(Total(fins[..n], SERVICED_NOI), Total(fins[..n], DEBT_SERVICE), SomeServiced(fins[..n]),
                  Of(fins[n], SERVICED_NOI), Of(fins[n], DEBT_SERVICE), Serviced(fins[n]), low, high);
    }
  }

  /** What a holding adds to a total. */
  function Of(fin: Option<Financials>, measure: Financials -> real): real {
    if fin.Some? then measure(fin.value) else 0.0
  }

  lemma OneBounded(fin: Option<Financials>, low: real, high: real)
    requires CoveredWithin(fin, low, high)
    ensures Bounded(Of(fin, SERVICED_NOI), Of(fin, DEBT_SERVICE), low, high, Serviced(fin))
  {
    hide MonthlyNoi;
    if Serviced(fin) {
      var piti := fin.value.monthlyPiti.value;
      assert low * (piti * 12.0) == (low * piti) * 12.0 && high * (piti * 12.0) == (high * piti) * 12.0;
    }
  }

  /**
   The weighted coverage exists exactly if some loan is serviced, and lies between the least and the
   greatest coverage of the holdings that service one.
   */
  lemma CoverageIsMean(fins: seq<Option<Financials>>, low: real, high: real)
    requires forall i :: 0 <= i < |fins| ==> CoveredWithin(fins[i], low, high)
    ensures var dscr := AggregatesOf(fins).weightedDscr;
            && (dscr.Some? <==> SomeServiced(fins))
            && (dscr.Some? ==> low <= dscr.value <= high)
  {
    hide Total, MonthlyNoi, CoveredWithin, SomeServiced;
    ServicedTotals(fins, low, high);
    var noi, ds := Total(fins, SERVICED_NOI), Total(fins, DEBT_SERVICE);
    if ds > 0.0 {
      MeanWithin(noi, ds, low, high);
    }
  }

  lemma MeanWithin(x: real, w: real, low: real, high: real)
    requires 0.0 < w && low * w <= x <= high * w
    ensures low <= x / w <= high
  {
    var q := x / w;
    assert q * w == x;
    assert (q - low) * w == x - low * w && (high - q) * w == high * w - x;
  }

  /** A holding that pays nothing on a loan does not enter the coverage. */
  lemma UnservicedLeavesCoverage(fins: seq<Option<Financials>>, fin: Option<Financials>)
    requires !Serviced(fin)
    ensures AggregatesOf(fins + [fin]).weightedDscr == AggregatesOf(fins).weightedDscr
  {
    assert (fins + [fin])[..|fins|] == fins;
    hide MonthlyNoi;
  }

  /** One serviced holding alone has its own coverage. */
  lemma OneCoverage(fin: Financials)
    requires Positive(fin.monthlyPiti)
    ensures var dscr := AggregatesOf([Some(fin)]).weightedDscr;
            dscr.Some? && dscr.value * fin.monthlyPiti.value == MonthlyNoi(fin)
  {
    var one, ratio := [Some(fin)], MonthlyNoi(fin) / fin.monthlyPiti.value;
    assert ratio * fin.monthlyPiti.value == MonthlyNoi(fin);
    assert Serviced(one[0]);
    CoverageIsMean(one, ratio, ratio);
    hide MonthlyNoi, AggregatesOf;
  }

  // ---------------------------------------------------------------------------
  // From year to year
  // ---------------------------------------------------------------------------

  /** Yearly growth of values, by outlook. */
  function YearlyValue(outlook: Outlook): real {
    if outlook == Bullish then 1.05 else if outlook == Bearish then 1.015 else 1.03
  }

  lemma {:induction false} CurvesScale(rows: seq<Row>, x: real, y: real, z: real)
    requires z == x * y
    ensures CurveValue(rows, z) == Grown(CurveValue(rows, x), y)
    ensures CurveNoi(rows, z) == Grown(CurveNoi(rows, x), y)
    ensures CurveCash(rows, z) == Grown(CurveCash(rows, x), y)
  {
    if rows != [] {
      var n := |rows| - 1;
      CurvesScale(rows[..n], x, y, z);
      RowScales(rows[n], x, y, z);
      BothGrow(CurveValue(rows[..n], x), RowValue(rows[n], x), y);
      BothGrow(CurveNoi(rows[..n], x), RowNoi(rows[n], x), y);
      BothGrow(CurveCash(rows[..n], x), RowCash(rows[n], x), y);
    }
    hide RowValue, RowNoi, RowCash, Grown;
  }

  function Grown(x: real, factor: real): real { x * factor }

  lemma BothGrow(x: real, y: real, factor: real)
    ensures Grown(x + y, factor) == Grown(x, factor) + Grown(y, factor)
  {
  }

  lemma RowScales(row: Row, x: real, y: real, z: real)
    requires z == x * y
    ensures RowValue(row, z) == Grown(RowValue(row, x), y)
    ensures RowNoi(row, z) == Grown(RowNoi(row, x), y)
    ensures RowCash(row, z) == Grown(RowCash(row, x), y)
  {
    if row.currentValue.Some? { Assoc(row.currentValue.value, x, y); }
    if row.currentValue.Some? && row.capRate.Some? { Assoc(row.capRate.value * row.currentValue.value, x, y); }
    if row.monthlyCashFlow.Some? { Assoc(row.monthlyCashFlow.value, x, y); }
  }

  lemma Assoc(v: real, x: real, y: real)
    ensures v * (x * y) == v * x * y
  {
  }

  /**
   Each year of the curve is the last one, values grown by 5, 1.5 or 3 percent as the outlook is bullish,
   bearish or neutral, NOI and cash flow by what rents grow faster than expenses.
   */
  lemma YearToYear(rows: seq<Row>, p: Profile, year: nat)
    ensures var now, next := PointAt(rows, p, year), PointAt(rows, p, year + 1);
            && next.value == Grown(now.value, YearlyValue(p.outlook))
            && next.noi == Grown(now.noi, 1.0 + p.rentGrowth - p.expenseGrowth)
            && next.cashFlow == Grown(now.cashFlow, 1.0 + p.rentGrowth - p.expenseGrowth)
  {
    hide Appreciation, NoiGrowth, CurveValue, CurveNoi, CurveCash, YearlyValue, Grown;
    FactorsGrow(p, year);
    CurvesScale(rows, Appreciation(p, year), YearlyValue(p.outlook), Appreciation(p, year + 1));
    CurvesScale(rows, NoiGrowth(p, year), 1.0 + p.rentGrowth - p.expenseGrowth, NoiGrowth(p, year + 1));
  }

  lemma FactorsGrow(p: Profile, year: nat)
    ensures Appreciation(p, year + 1) == Appreciation(p, year) * YearlyValue(p.outlook)
    ensures NoiGrowth(p, year + 1) == NoiGrowth(p, year) * (1.0 + p.rentGrowth - p.expenseGrowth)
  {
  }
}
