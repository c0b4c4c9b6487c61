/**
 Portfolio metrics and their projection: the summary's aggregates, the year-by-year curve and
 the simulation's endpoints, and how the three fit together.
 */
module Projection {
  import opened Common
  import opened Powers

  function OrZero(x: Option<real>): real { if x.Some? then x.value else 0.0 }

  function MonthlyNoi(fin: Financials): real {
    OrZero(fin.monthlyRent) * (1.0 - OrZero(fin.vacancyRate)) - OrZero(fin.monthlyOpex)
    - OrZero(fin.propertyTaxAnnual) / 12.0 - OrZero(fin.insuranceAnnual) / 12.0
  }

  predicate Positive(x: Option<real>) { x.Some? && x.value > 0.0 }

  /** A row of the summary, as far as the projection reads it. */
  datatype Row = Row(currentValue: Option<real>, monthlyCashFlow: Option<real>, capRate: Option<real>)

  /** _per_holding_metrics. */
  function RowOf(fin: Option<Financials>): Row {
    match fin
    case None => Row(None, None, None)
    case Some(f) =>
      Row(f.currentValueEstimate, Some(MonthlyNoi(f) - OrZero(f.monthlyPiti)),
          if Positive(f.currentValueEstimate) then Some(MonthlyNoi(f) * 12.0 / f.currentValueEstimate.value) else None)
  }

  function RowsOf(fins: seq<Option<Financials>>): (rows: seq<Row>)
    ensures |rows| == |fins| && forall i :: 0 <= i < |fins| ==> rows[i] == RowOf(fins[i])
  {
    seq(|fins|, i requires 0 <= i < |fins| => RowOf(fins[i]))
  }

  datatype Aggregates = Aggregates(totalValue: real, totalLoan: real, grossRent: real, monthlyNoi: real,
                                   monthlyCashFlow: real, annualNoi: real, blendedCap: real, weightedDscr: Option<real>)

  /** Sum of a measure over holdings that have financials. */
  function Total(fins: seq<Option<Financials>>, measure: Financials -> real): real {
    if fins == [] then 0.0
    else
      var last := fins[|fins| - 1];
      Total(fins[..|fins| - 1], measure) + (if last.Some? then measure(last.value) else 0.0)
  }

  const VALUE := (f: Financials) => OrZero(f.currentValueEstimate)
  const LOAN := (f: Financials) => OrZero(f.loanBalance)
  const RENT := (f: Financials) => OrZero(f.monthlyRent)
  const NOI := (f: Financials) => MonthlyNoi(f)
  const CASH_FLOW := (f: Financials) => MonthlyNoi(f) - OrZero(f.monthlyPiti)
  const SERVICED_NOI := (f: Financials) => if Positive(f.monthlyPiti) then MonthlyNoi(f) * 12.0 else 0.0
  const DEBT_SERVICE := (f: Financials) => if Positive(f.monthlyPiti) then OrZero(f.monthlyPiti) * 12.0 else 0.0

  function AggregatesOf(fins: seq<Option<Financials>>): Aggregates {
    var value, noi, ds := Total(fins, VALUE), Total(fins, NOI), Total(fins, DEBT_SERVICE);
    Aggregates(value, Total(fins, LOAN), Total(fins, RENT), noi, Total(fins, CASH_FLOW), noi * 12.0,
               if value > 0.0 then noi * 12.0 / value else 0.0,
               if ds > 0.0 then Some(Total(fins, SERVICED_NOI) / ds) else None)
  }

  lemma TotalStep(fins: seq<Option<Financials>>, i: nat, measure: Financials -> real)
    requires i < |fins|
    ensures Total(fins[..i + 1], measure) ==
            Total(fins[..i], measure) + (if fins[i].Some? then measure(fins[i].value) else 0.0)
  {
    assert fins[..i + 1][..i] == fins[..i];
  }

  /** The accumulation loop of build_portfolio_summary. */
  method Summarize(fins: seq<Option<Financials>>) returns (rows: seq<Row>, aggregates: Aggregates)
    ensures rows == RowsOf(fins) && aggregates == AggregatesOf(fins)
  {
    hide MonthlyNoi;
    rows := [];
    var totalValue, totalLoan, grossRent, noi, cashFlow, servicedNoi, debtService := 0.0, 0.0, 0.0, 0.0, 0.0, 0.0, 0.0;
    for i := 0 to |fins|
      invariant rows == RowsOf(fins[..i])
      invariant totalValue == Total(fins[..i], VALUE) && totalLoan == Total(fins[..i], LOAN)
      invariant grossRent == Total(fins[..i], RENT) && noi == Total(fins[..i], NOI)
      invariant cashFlow == Total(fins[..i], CASH_FLOW)
      invariant servicedNoi == Total(fins[..i], SERVICED_NOI) && debtService == Total(fins[..i], DEBT_SERVICE)
    {
      assert fins[..i + 1][..i] == fins[..i];
      TotalStep(fins, i, VALUE);
      TotalStep(fins, i, LOAN);
      TotalStep(fins, i, RENT);
      TotalStep(fins, i, NOI);
      TotalStep(fins, i, CASH_FLOW);
      TotalStep(fins, i, SERVICED_NOI);
      TotalStep(fins, i, DEBT_SERVICE);
      rows := rows + [RowOf(fins[i])];
      if fins[i].Some? {
        var fin := fins[i].value;
        totalValue := totalValue + OrZero(fin.currentValueEstimate);
        totalLoan := totalLoan + OrZero(fin.loanBalance);
        grossRent := grossRent + OrZero(fin.monthlyRent);
        noi := noi + MonthlyNoi(fin);
        cashFlow := cashFlow + (MonthlyNoi(fin) - OrZero(fin.monthlyPiti));
        if Positive(fin.monthlyPiti) {
          servicedNoi := servicedNoi + MonthlyNoi(fin) * 12.0;
          debtService := debtService + fin.monthlyPiti.value * 12.0;
        }
      }
    }
    assert fins[..|fins|] == fins;
    aggregates := Aggregates(totalValue, totalLoan, grossRent, noi, cashFlow, noi * 12.0,
                             if totalValue > 0.0 then noi * 12.0 / totalValue else 0.0,
                             if debtService > 0.0 then Some(servicedNoi / debtService) else None);
  }

  // ---------------------------------------------------------------------------
  // The curve and the endpoints
  // ---------------------------------------------------------------------------

  datatype Outlook = Bullish | Bearish | Neutral
  datatype Profile = Profile(holdYears: nat, rentGrowth: real, expenseGrowth: real, outlook: Outlook)

  function OutlookTilt(outlook: Outlook): real {
    match outlook
    case Bullish => 0.02
    case Bearish => -0.015
    case Neutral => 0.0
  }

  function NoiGrowth(p: Profile, years: nat): real { Pow(1.0 + p.rentGrowth - p.expenseGrowth, years) }
  function Appreciation(p: Profile, years: nat): real { Pow(1.0 + 0.03 + OutlookTilt(p.outlook), years) }

  datatype YearPoint = YearPoint(year: nat, value: real, noi: real, cashFlow: real, capRate: Option<real>)

  function RowValue(row: Row, appreciation: real): real {
    if Positive(row.currentValue) then row.currentValue.value * appreciation else 0.0
  }

  function RowNoi(row: Row, growth: real): real {
    if Positive(row.currentValue) && row.capRate.Some? then row.capRate.value * row.currentValue.value * growth else 0.0
  }

  function RowCash(row: Row, growth: real): real {
    if row.monthlyCashFlow.Some? then row.monthlyCashFlow.value * growth else 0.0
  }

  function CurveValue(rows: seq<Row>, a: real): real {
    if rows == [] then 0.0 else CurveValue(rows[..|rows| - 1], a) + RowValue(rows[|rows| - 1], a)
  }

  function CurveNoi(rows: seq<Row>, g: real): real {
    if rows == [] then 0.0 else CurveNoi(rows[..|rows| - 1], g) + RowNoi(rows[|rows| - 1], g)
  }

  function CurveCash(rows: seq<Row>, g: real): real {
    if rows == [] then 0.0 else CurveCash(rows[..|rows| - 1], g) + RowCash(rows[|rows| - 1], g)
  }

  function CapOf(noi: real, value: real): Option<real> {
    if value > 0.0 then Some(noi / value) else None
  }

  function PointAt(rows: seq<Row>, p: Profile, year: nat): YearPoint {
    var value, noi := CurveValue(rows, Appreciation(p, year)), CurveNoi(rows, NoiGrowth(p, year));
    YearPoint(year, value, noi, CurveCash(rows, NoiGrowth(p, year)), CapOf(noi, value))
  }

  /** project_year_series. */
  method ProjectYearSeries(rows: seq<Row>, p: Profile) returns (series: seq<YearPoint>)
    ensures |series| == p.holdYears + 1
    ensures forall y :: 0 <= y <= p.holdYears ==> series[y] == PointAt(rows, p, y)
  {
    hide NoiGrowth, Appreciation, RowValue, RowNoi, RowCash, CapOf;
    series := [];
    for year := 0 to p.holdYears + 1
      invariant |series| == year
      invariant forall y :: 0 <= y < year ==> series[y] == PointAt(rows, p, y)
    {
      var point := YearOf(rows, year, NoiGrowth(p, year), Appreciation(p, year));
      series := series + [point];
    }
  }

  /** The inner loop over holdings for one year. */
  method YearOf(rows: seq<Row>, year: nat, noiGrowth: real, appreciation: real) returns (point: YearPoint)
    ensures var value, noi := CurveValue(rows, appreciation), CurveNoi(rows, noiGrowth);
            point == YearPoint(year, value, noi, CurveCash(rows, noiGrowth), CapOf(noi, value))
  {
    var value, noi, cashFlow := 0.0, 0.0, 0.0;
    for i := 0 to |rows|
      invariant value == CurveValue(rows[..i], appreciation) && noi == CurveNoi(rows[..i], noiGrowth)
      invariant cashFlow == CurveCash(rows[..i], noiGrowth)
    {
      assert rows[..i + 1][..i] == rows[..i];
      var row := rows[i];
      if Positive(row.currentValue) {
        value := value + row.currentValue.value * appreciation;
        if row.capRate.Some? {
          noi := noi + row.capRate.value * row.currentValue.value * noiGrowth;
        }
      }
      if row.monthlyCashFlow.Some? {
        cashFlow := cashFlow + row.monthlyCashFlow.value * noiGrowth;
      }
    }
    assert rows[..|rows|] == rows;
    point := YearPoint(year, value, noi, cashFlow, CapOf(noi, value));
  }

  /** projected_value and projected_annual_noi of _project_holding. */
  function ProjectedValue(row: Row, a: real): Option<real> {
    if Positive(row.currentValue) then Some(row.currentValue.value * a) else None
  }

  function ProjectedNoi(row: Row, g: real): Option<real> {
    if row.capRate.Some? && row.currentValue.Some? then Some(row.capRate.value * row.currentValue.value * g) else None
  }

  function EndNoi(rows: seq<Row>, g: real): real {
    if rows == [] then 0.0 else EndNoi(rows[..|rows| - 1], g) + OrZero(ProjectedNoi(rows[|rows| - 1], g))
  }

  datatype Endpoint = Endpoint(value: real, noi: real, capRate: Option<real>)

  /** The aggregate_* fields of project_simulation. */
  method ProjectSimulation(rows: seq<Row>, p: Profile) returns (end: Endpoint)
    ensures var value, noi := CurveValue(rows, Appreciation(p, p.holdYears)), EndNoi(rows, NoiGrowth(p, p.holdYears));
            end == Endpoint(value, noi, CapOf(noi, value))
  {
    hide NoiGrowth, Appreciation;
    var a, g := Appreciation(p, p.holdYears), NoiGrowth(p, p.holdYears);
    var totalValue, totalNoi := 0.0, 0.0;
    for i := 0 to |rows|
      invariant totalValue == CurveValue(rows[..i], a) && totalNoi == EndNoi(rows[..i], g)
    {
      assert rows[..i + 1][..i] == rows[..i];
      var value, noi := ProjectedValue(rows[i], a), ProjectedNoi(rows[i], g);
      if value.Some? && value.value != 0.0 {
        totalValue := totalValue + value.value;
      }
      if noi.Some? && noi.value != 0.0 {
        totalNoi := totalNoi + noi.value;
      }
    }
    assert rows[..|rows|] == rows;
    end := Endpoint(totalValue, totalNoi, CapOf(totalNoi, totalValue));
  }

  // ---------------------------------------------------------------------------
  // The last point and the endpoints
  // ---------------------------------------------------------------------------

  /** NOI that the endpoint counts and the curve does not: cap rates on non-positive values. */
  function StrayOf(row: Row): real {
    if row.capRate.Some? && row.currentValue.Some? && row.currentValue.value <= 0.0
    then row.capRate.value * row.currentValue.value else 0.0
  }

  function StrayNoi(rows: seq<Row>): real {
    if rows == [] then 0.0 else StrayNoi(rows[..|rows| - 1]) + StrayOf(rows[|rows| - 1])
  }

  lemma {:induction false} EndpointExcess(rows: seq<Row>, g: real)
    ensures EndNoi(rows, g) == CurveNoi(rows, g) + StrayNoi(rows) * g
  {
    hide StrayOf, RowNoi, ProjectedNoi;
    if rows != [] {
      var row := rows[|rows| - 1];
      EndpointExcess(rows[..|rows| - 1], g);
      ExcessOfRow(row, g);
      Distribute(StrayNoi(rows[..|rows| - 1]), StrayOf(row), g);
    }
  }

  lemma ExcessOfRow(row: Row, g: real)
    ensures OrZero(ProjectedNoi(row, g)) == RowNoi(row, g) + StrayOf(row) * g
  {
  }

  lemma Distribute(x: real, y: real, g: real)
    ensures (x + y) * g == x * g + y * g
  {
  }

  /**
   The last point of the curve has the endpoint's value for every portfolio. It has its NOI exactly
   when what cap rates on non-positive values add up to is zero after growth, and its cap rate
   exactly then or when there is no positive value to divide by.
   */
  lemma LastPointIsEndpoint(rows: seq<Row>, p: Profile)
    ensures var g := NoiGrowth(p, p.holdYears);
            var last, noi := PointAt(rows, p, p.holdYears), EndNoi(rows, NoiGrowth(p, p.holdYears));
            && last.value == CurveValue(rows, Appreciation(p, p.holdYears))
            && (last.noi == noi <==> StrayNoi(rows) * g == 0.0)
            && (last.capRate == CapOf(noi, last.value) <==> (last.value <= 0.0 || StrayNoi(rows) * g == 0.0))
  {
    hide NoiGrowth, Appreciation;
    EndpointExcess(rows, NoiGrowth(p, p.holdYears));
    var last, noi := PointAt(rows, p, p.holdYears), EndNoi(rows, NoiGrowth(p, p.holdYears));
    if last.value > 0.0 && last.noi / last.value == noi / last.value {
      SameQuotient(last.noi, noi, last.value);
    }
  }

  lemma SameQuotient(x: real, y: real, d: real)
    requires d != 0.0 && x / d == y / d
    ensures x == y
  {
    assert x / d * d == x && y / d * d == y;
  }

  /** A portfolio with a cap rate on a non-positive value: its curve misses the endpoint. */
  lemma StrayCapRateShows(p: Profile)
    requires 0.0 < 1.0 + p.rentGrowth - p.expenseGrowth && -1.0 < 0.03 + OutlookTilt(p.outlook)
    ensures var rows := [Row(Some(2.0), None, Some(0.1)), Row(Some(-1.0), None, Some(1.0))];
            var last, noi := PointAt(rows, p, p.holdYears), EndNoi(rows, NoiGrowth(p, p.holdYears));
            last.noi != noi && last.capRate != CapOf(noi, last.value)
  {
    var rows := [Row(Some(2.0), None, Some(0.1)), Row(Some(-1.0), None, Some(1.0))];
    assert rows[..1] == [rows[0]] && rows[..1][..0] == [];
    assert StrayOf(rows[0]) == 0.0 && StrayOf(rows[1]) == -1.0;
    assert StrayNoi(rows[..1]) == 0.0;
    assert StrayNoi(rows) == -1.0;
    PowPositive(1.0 + p.rentGrowth - p.expenseGrowth, p.holdYears);
    PowPositive(1.0 + 0.03 + OutlookTilt(p.outlook), p.holdYears);
    var a := Appreciation(p, p.holdYears);
    assert CurveValue(rows[..1], a) == 2.0 * a;
    LastPointIsEndpoint(rows, p);
    hide NoiGrowth, EndNoi, CurveNoi, CapOf;
  }

  /** Rows of the summary carry a cap rate on a positive value only, so nothing strays. */
  lemma {:induction false} SummaryRowsDoNotStray(fins: seq<Option<Financials>>)
    ensures forall i :: 0 <= i < |fins| && RowsOf(fins)[i].capRate.Some? ==> Positive(RowsOf(fins)[i].currentValue)
    ensures StrayNoi(RowsOf(fins)) == 0.0
  {
    if fins != [] {
      SummaryRowsDoNotStray(fins[..|fins| - 1]);
      assert RowsOf(fins)[..|fins| - 1] == RowsOf(fins[..|fins| - 1]);
    }
  }

  /** The promise of the report schema: the curve of a summary ends at the simulation's endpoints. */
  lemma CurveEndsAtEndpoint(fins: seq<Option<Financials>>, p: Profile, series: seq<YearPoint>, end: Endpoint)
    requires |series| == p.holdYears + 1
    requires forall y :: 0 <= y <= p.holdYears ==> series[y] == PointAt(RowsOf(fins), p, y)
    requires var value := CurveValue(RowsOf(fins), Appreciation(p, p.holdYears));
             var noi := EndNoi(RowsOf(fins), NoiGrowth(p, p.holdYears));
             end == Endpoint(value, noi, CapOf(noi, value))
    ensures series[p.holdYears].value == end.value && series[p.holdYears].noi == end.noi
    ensures series[p.holdYears].capRate == end.capRate
  {
    hide NoiGrowth, Appreciation;
    SummaryRowsDoNotStray(fins);
    EndpointExcess(RowsOf(fins), NoiGrowth(p, p.holdYears));
  }

  // ---------------------------------------------------------------------------
  // Year zero and the summary
  // ---------------------------------------------------------------------------

  const UNPRICED_VALUE := (f: Financials) =>
    if Positive(f.currentValueEstimate) then 0.0 else OrZero(f.currentValueEstimate)
  const UNPRICED_NOI := (f: Financials) => if Positive(f.currentValueEstimate) then 0.0 else MonthlyNoi(f)

  lemma {:induction false} YearZeroSums(fins: seq<Option<Financials>>)
    ensures Total(fins, VALUE) == CurveValue(RowsOf(fins), 1.0) + Total(fins, UNPRICED_VALUE)
    ensures Total(fins, NOI) * 12.0 == CurveNoi(RowsOf(fins), 1.0) + Total(fins, UNPRICED_NOI) * 12.0
    ensures Total(fins, CASH_FLOW) == CurveCash(RowsOf(fins), 1.0)
  {
    hide MonthlyNoi;
    if fins != [] {
      YearZeroSums(fins[..|fins| - 1]);
      assert RowsOf(fins)[..|fins| - 1] == RowsOf(fins[..|fins| - 1]);
      YearZeroRow(fins[|fins| - 1]);
    }
  }

  lemma YearZeroRow(fin: Option<Financials>)
    ensures fin.Some? ==>
              RowNoi(RowOf(fin), 1.0) ==
              if Positive(fin.value.currentValueEstimate) then MonthlyNoi(fin.value) * 12.0 else 0.0
    ensures fin == None ==> RowNoi(RowOf(fin), 1.0) == 0.0
  {
    hide MonthlyNoi;
    if fin.Some? && Positive(fin.value.currentValueEstimate) {
      var v := fin.value.currentValueEstimate.value;
      assert MonthlyNoi(fin.value) * 12.0 / v * v == MonthlyNoi(fin.value) * 12.0;
    }
  }

  /**
   Year zero of the curve is today's summary: cash flow always, value and NOI exactly up to what
   holdings without a positive value contribute.
   */
  lemma YearZeroIsSummary(fins: seq<Option<Financials>>, p: Profile)
    ensures var zero, today := PointAt(RowsOf(fins), p, 0), AggregatesOf(fins);
            && zero.cashFlow == today.monthlyCashFlow
            && (zero.value == today.totalValue <==> Total(fins, UNPRICED_VALUE) == 0.0)
            && (zero.noi == today.annualNoi <==> Total(fins, UNPRICED_NOI) == 0.0)
  {
    YearZeroSums(fins);
    assert NoiGrowth(p, 0) == 1.0 && Appreciation(p, 0) == 1.0;
  }

  /** A single holding without a price but with income is missing from year zero. */
  lemma UnpricedHoldingMissing(fin: Financials, p: Profile)
    requires !Positive(fin.currentValueEstimate) && MonthlyNoi(fin) != 0.0
    ensures PointAt(RowsOf([Some(fin)]), p, 0).noi != AggregatesOf([Some(fin)]).annualNoi
  {
    var fins := [Some(fin)];
    assert fins[..0] == [];
    assert Total(fins, UNPRICED_NOI) == MonthlyNoi(fin);
    hide MonthlyNoi, PointAt, AggregatesOf;
    YearZeroIsSummary(fins, p);
  }

  lemma {:induction false} AllPricedNothingMissing(fins: seq<Option<Financials>>)
    requires forall i :: 0 <= i < |fins| && fins[i].Some? ==> Positive(fins[i].value.currentValueEstimate)
    ensures Total(fins, UNPRICED_VALUE) == 0.0 && Total(fins, UNPRICED_NOI) == 0.0
  {
    if fins != [] {
      AllPricedNothingMissing(fins[..|fins| - 1]);
    }
  }

  /** When every holding with financials is priced, year zero equals the summary aggregates. */
  lemma YearZeroOfPricedPortfolio(fins: seq<Option<Financials>>, p: Profile)
    requires forall i :: 0 <= i < |fins| && fins[i].Some? ==> Positive(fins[i].value.currentValueEstimate)
    ensures var zero, today := PointAt(RowsOf(fins), p, 0), AggregatesOf(fins);
            && zero.value == today.totalValue && zero.noi == today.annualNoi && zero.cashFlow == today.monthlyCashFlow
            && OrZero(zero.capRate) == today.blendedCap
  {
    AllPricedNothingMissing(fins);
    YearZeroIsSummary(fins, p);
  }
}
