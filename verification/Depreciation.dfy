/**
 The statutory straight-line depreciation schedule for used Japanese buildings, and the
 yearly average that the strategy runner folds into projected cash flow.
 */
module Depreciation {
  import opened Common

  datatype Error = NegativeBasis | RateOutOfRange | NegativeAge

  datatype ConstructionType = Wood | LightSteel | Steel | Rc | Src

  function StatutoryLife(c: ConstructionType): (life: nat)
    ensures 22 <= life <= 47
  {
    match c
    case Wood => 22
    case LightSteel => 27
    case Steel => 34
    case Rc => 47
    case Src => 47
  }

  /** The residual life before truncation and the two-year floor. */
  function RawResidual(life: nat, age: nat): real {
    if age >= life then life as real * 0.2 else (life - age) as real + age as real * 0.2
  }

  /** residual_life_used. */
  function ResidualLife(c: ConstructionType, age: int): Result<nat, Error> {
    if age < 0 then Err(NegativeAge)
    else
      var truncated := RawResidual(StatutoryLife(c), age).Floor;
      Ok(if truncated < 2 then 2 else truncated)
  }

  /** Residual life stays within the statute and never grows as the building ages. */
  lemma ResidualWithinStatute(c: ConstructionType, age: nat, older: nat)
    requires age <= older
    ensures 2 <= ResidualLife(c, older).value <= ResidualLife(c, age).value <= StatutoryLife(c)
    ensures ResidualLife(c, 0).value == StatutoryLife(c)
  {
    var life := StatutoryLife(c);
    assert RawResidual(life, older) <= RawResidual(life, age) <= life as real;
  }

  /** In fifths of a year: the statutory life less four fifths of every year of age, down to one fifth of it. */
  lemma ResidualInFifths(c: ConstructionType, age: nat)
    ensures var life := StatutoryLife(c);
            var fifths := if age < life then 5 * life - 4 * age else life;
            ResidualLife(c, age).value == if fifths < 10 then 2 else fifths / 5
  {
    var life := StatutoryLife(c);
    var fifths := if age < life then 5 * life - 4 * age else life;
    assert RawResidual(life, age) == fifths as real / 5.0;
    FloorOfFifths(fifths);
  }

  lemma FloorOfFifths(n: nat)
    ensures (n as real / 5.0).Floor == n / 5
  {
    var q, r := n / 5, n % 5;
    assert n == 5 * q + r;
    assert n as real / 5.0 == q as real + r as real / 5.0;
  }

  /** The statutory lives of new buildings, in years. */
  lemma NewBuildings()
    ensures ResidualLife(Wood, 0) == Ok(22) && ResidualLife(LightSteel, 0) == Ok(27) && ResidualLife(Steel, 0) == Ok(34)
    ensures ResidualLife(Rc, 0) == Ok(47) == ResidualLife(Src, 0)
  {
  }

  datatype Year = Year(yearIndex: nat, depreciation: real, taxShield: real, cumulativeShield: real)

  datatype Schedule = Schedule(construction: ConstructionType, basis: real, residualLife: nat,
                               annualDepreciation: real, marginalTaxRate: real, years: seq<Year>)
  {
    /** Property total_shield_yen. */
    function TotalShield(): real {
      if years == [] then 0.0 else years[|years| - 1].cumulativeShield
    }
  }

  function MinYears(horizon: int, residual: nat): (n: nat)
    ensures horizon <= 0 ==> n == 0
    ensures horizon > 0 ==> n <= horizon && n <= residual && (n == horizon || n == residual)
  {
    if horizon <= 0 then 0 else if horizon < residual then horizon else residual
  }

  function Times(k: nat, x: real): real { k as real * x }

  lemma TimesStep(k: nat, x: real)
    ensures Times(0, x) == 0.0 && Times(k + 1, x) == Times(k, x) + x
  {
  }

  function AnnualDepreciation(basis: real, residual: nat): real
    requires 2 <= residual
  {
    basis / residual as real
  }

  function AnnualShield(basis: real, residual: nat, rate: real): real
    requires 2 <= residual
  {
    AnnualDepreciation(basis, residual) * rate
  }

  /** Row y (from 1) of a schedule over a residual life. */
  function YearAt(basis: real, residual: nat, rate: real, y: nat): Year
    requires 2 <= residual && 1 <= y
  {
    Year(y, if y <= residual then AnnualDepreciation(basis, residual) else 0.0,
         if y <= residual then AnnualShield(basis, residual, rate) else 0.0,
         Times(MinYears(y, residual), AnnualShield(basis, residual, rate)))
  }

  /** project_depreciation; a missing horizon means the residual life. */
  method ProjectDepreciation(construction: ConstructionType, basis: real, age: int, rate: real,
                             horizonYears: Option<int>)
    returns (result: Result<Schedule, Error>)
    ensures basis < 0.0 ==> result == Err(NegativeBasis)
    ensures 0.0 <= basis && !(0.0 <= rate <= 1.0) ==> result == Err(RateOutOfRange)
    ensures 0.0 <= basis && 0.0 <= rate <= 1.0 && age < 0 ==> result == Err(NegativeAge)
    ensures 0.0 <= basis && 0.0 <= rate <= 1.0 && 0 <= age ==> result.Ok?
    ensures result.Ok? ==>
              var s := result.value;
              var residual := ResidualLife(construction, age).value;
              && s.construction == construction && s.basis == basis && s.marginalTaxRate == rate
              && s.residualLife == residual && s.annualDepreciation == AnnualDepreciation(basis, residual)
              && IsScheduleFor(s, match horizonYears case Some(h) => h case None => residual)
  {
    hide AnnualDepreciation, Times;
    if basis < 0.0 {
      return Err(NegativeBasis);
    }
    if !(0.0 <= rate <= 1.0) {
      return Err(RateOutOfRange);
    }
    var life := ResidualLife(construction, age);
    if life.Err? {
      return Err(life.error);
    }
    var residual := life.value;
    var annualDep := AnnualDepreciation(basis, residual);
    TimesStep(0, AnnualShield(basis, residual, rate));
    var horizon := match horizonYears case Some(h) => h case None => residual;
    var cumulativeShield := 0.0;
    var rows: seq<Year> := [];
    var y := 1;
    while y <= horizon
      invariant 1 <= y && |rows| == y - 1 && (horizon >= 0 ==> y <= horizon + 1) && (horizon < 0 ==> y == 1)
      invariant forall i :: 0 <= i < |rows| ==> rows[i] == YearAt(basis, residual, rate, i + 1)
      invariant cumulativeShield == Times(MinYears(y - 1, residual), AnnualShield(basis, residual, rate))
    {
      var dep, shield := 0.0, 0.0;
      if y <= residual {
        dep := annualDep;
        shield := dep * rate;
        assert shield == AnnualShield(basis, residual, rate) && MinYears(y, residual) == MinYears(y - 1, residual) + 1;
        TimesStep(MinYears(y - 1, residual), shield);
      }
      cumulativeShield := cumulativeShield + shield;
      rows := rows + [Year(y, dep, shield, cumulativeShield)];
      y := y + 1;
    }
    result := Ok(Schedule(construction, basis, residual, annualDep, rate, rows));
  }

  /** The rows are exactly years 1 .. horizon of the straight line over the residual life. */
  ghost predicate IsScheduleFor(s: Schedule, horizon: int) {
    && 2 <= s.residualLife
    && |s.years| == (if horizon < 0 then 0 else horizon)
    && forall i :: 0 <= i < |s.years| ==> s.years[i] == YearAt(s.basis, s.residualLife, s.marginalTaxRate, i + 1)
  }

  function SumShield(rows: seq<Year>): real {
    if rows == [] then 0.0 else SumShield(rows[..|rows| - 1]) + rows[|rows| - 1].taxShield
  }

  function SumDepreciation(rows: seq<Year>): real {
    if rows == [] then 0.0 else SumDepreciation(rows[..|rows| - 1]) + rows[|rows| - 1].depreciation
  }

  lemma {:induction false} SumsOfRows(s: Schedule, n: nat)
    requires 2 <= s.residualLife && n <= |s.years|
    requires IsScheduleFor(s, |s.years|)
    ensures SumShield(s.years[..n])
         == Times(MinYears(n, s.residualLife), AnnualShield(s.basis, s.residualLife, s.marginalTaxRate))
    ensures SumDepreciation(s.years[..n])
         == Times(MinYears(n, s.residualLife), AnnualDepreciation(s.basis, s.residualLife))
  {
    hide AnnualShield, AnnualDepreciation, Times;
    var shield := AnnualShield(s.basis, s.residualLife, s.marginalTaxRate);
    var dep := AnnualDepreciation(s.basis, s.residualLife);
    TimesStep(0, shield);
    TimesStep(0, dep);
    if n > 0 {
      SumsOfRows(s, n - 1);
      assert s.years[..n][..n - 1] == s.years[..n - 1];
      TimesStep(MinYears(n - 1, s.residualLife), shield);
      TimesStep(MinYears(n - 1, s.residualLife), dep);
    }
  }

  /** Shield and depreciation inside a horizon, in closed form. */
  function ShieldWithin(basis: real, rate: real, residual: nat, horizon: int): real
    requires 2 <= residual
  {
    Prorated(basis, rate, MinYears(horizon, residual), residual)
  }

  function Prorated(basis: real, rate: real, k: nat, n: nat): real
    requires 0 < n
  {
    basis * rate * k as real / n as real
  }

  lemma Rearrange(basis: real, rate: real, k: nat, residual: nat)
    requires 2 <= residual
    ensures Times(k, AnnualShield(basis, residual, rate)) == Prorated(basis, rate, k, residual)
  {
    var n, a, kr := residual as real, AnnualDepreciation(basis, residual), k as real;
    assert a * n == basis;
    var lhs, rhs := kr * (a * rate), basis * rate * kr / n;
    assert lhs * n == (a * n) * rate * kr;
    assert rhs * n == basis * rate * kr;
    CancelReal(lhs, rhs, n);
  }

  lemma CancelReal(x: real, y: real, n: real)
    requires n != 0.0 && x * n == y * n
    ensures x == y
  {
    assert (x - y) * n == 0.0;
  }

  /**
   The total shield over a horizon h is basis * rate * min(h, residual) / residual, the last
   cumulative figure is the sum of the yearly ones, and the building is written off completely
   exactly when the horizon reaches the residual life.
   */
  lemma ShieldClosedForm(s: Schedule, horizon: int)
    requires IsScheduleFor(s, horizon)
    ensures s.TotalShield() == SumShield(s.years) == ShieldWithin(s.basis, s.marginalTaxRate, s.residualLife, horizon)
    ensures s.residualLife <= horizon ==> SumDepreciation(s.years) == s.basis
    ensures horizon < s.residualLife && 0.0 < s.basis ==> SumDepreciation(s.years) < s.basis
  {
    hide AnnualShield, AnnualDepreciation, Times, Prorated;
    var n := |s.years|;
    assert s.years[..n] == s.years;
    SumsOfRows(s, n);
    Rearrange(s.basis, s.marginalTaxRate, MinYears(n, s.residualLife), s.residualLife);
    WrittenOff(s.basis, MinYears(n, s.residualLife), s.residualLife);
    TimesStep(0, AnnualShield(s.basis, s.residualLife, s.marginalTaxRate));
  }

  lemma WrittenOff(basis: real, k: nat, n: nat)
    requires 2 <= n
    ensures k == n ==> Times(k, AnnualDepreciation(basis, n)) == basis
    ensures k < n && 0.0 < basis ==> Times(k, AnnualDepreciation(basis, n)) < basis
  {
    var a := AnnualDepreciation(basis, n);
    assert a * n as real == basis;
    if k < n && 0.0 < basis {
      assert 0.0 < a;
      assert 0.0 < (n as real - k as real) * a;
    }
  }

  /** Within any horizon an older building of the same basis never shields less. */
  lemma OlderShieldsMore(c: ConstructionType, basis: real, rate: real, age: nat, older: nat, horizon: int)
    requires 0.0 <= basis && 0.0 <= rate <= 1.0 && age <= older
    ensures ShieldWithin(basis, rate, ResidualLife(c, age).value, horizon)
         <= ShieldWithin(basis, rate, ResidualLife(c, older).value, horizon)
  {
    hide Prorated;
    ResidualWithinStatute(c, age, older);
    ShorterLifeShieldsMore(basis, rate, ResidualLife(c, age).value, ResidualLife(c, older).value, horizon);
  }

  lemma NotNegative(x: real, y: real)
    requires 0.0 <= x && 0.0 <= y
    ensures 0.0 <= x * y
  {
  }

  lemma ShorterLifeShieldsMore(basis: real, rate: real, m: nat, n: nat, horizon: int)
    requires 0.0 <= basis && 0.0 <= rate && 2 <= n <= m
    ensures Prorated(basis, rate, MinYears(horizon, m), m) <= Prorated(basis, rate, MinYears(horizon, n), n)
  {
    hide Prorated;
    var a, b := MinYears(horizon, m), MinYears(horizon, n);
    Commute(n as real, m as real);
    Commute(a as real, n as real);
    Commute(a as real, m as real);
    if b == n { Grow(a as real, m as real, n as real); } else { Grow(n as real, m as real, a as real); }
    ProratedMonotone(basis, rate, a, m, b, n);
  }

  lemma Commute(x: real, y: real)
    ensures x * y == y * x
  {
  }

  lemma ProratedMonotone(basis: real, rate: real, a: nat, m: nat, b: nat, n: nat)
    requires 0.0 <= basis && 0.0 <= rate && 0 < m && 0 < n
    requires a as real * n as real <= b as real * m as real
    ensures Prorated(basis, rate, a, m) <= Prorated(basis, rate, b, n)
  {
    NotNegative(basis, rate);
    CrossMultiply(basis * rate, a as real, m as real, b as real, n as real,
                  Prorated(basis, rate, a, m), Prorated(basis, rate, b, n));
  }

  lemma Grow(x: real, y: real, z: real)
    requires x <= y && 0.0 <= z
    ensures x * z <= y * z
  {
  }

  lemma CrossMultiply(w: real, a: real, m: real, b: real, n: real, p: real, q: real)
    requires 0.0 <= w && 0.0 < n && 0.0 < m && a * n <= b * m
    requires p * m == w * a && q * n == w * b
    ensures p <= q
  {
    assert (q - p) * (m * n) == w * (b * m - a * n);
    assert 0.0 < m * n && 0.0 <= w * (b * m - a * n);
    SignOfFactor(q - p, m * n);
  }

  lemma SignOfFactor(x: real, d: real)
    requires 0.0 < d && 0.0 <= x * d
    ensures 0.0 <= x
  {
  }

  // ---------------------------------------------------------------------------
  // The runner's yearly average
  // ---------------------------------------------------------------------------

  /** What _project_depreciation_shield hands to the projection when a schedule exists. */
  datatype RunnerShield = RunnerShield(annualWithinHorizon: real, total: real, expiresYear: nat, expired: bool)

  method TotalOf(rows: seq<Year>) returns (total: real)
    ensures total == SumShield(rows)
  {
    total := 0.0;
    for i := 0 to |rows|
      invariant total == SumShield(rows[..i])
    {
      assert rows[..i + 1][..i] == rows[..i];
      total := total + rows[i].taxShield;
    }
    assert rows[..|rows|] == rows;
  }

  /** _project_depreciation_shield, once the construction type and the age are known. */
  method RunnerShieldOf(construction: ConstructionType, basis: real, age: int, rate: real, horizon: nat)
    returns (shield: Option<RunnerShield>)
    requires 1 <= horizon && 0.0 <= rate <= 1.0 && 0 <= age
    ensures shield.Some? <==> 0.0 < basis
    ensures shield.Some? ==>
              var residual := ResidualLife(construction, age).value;
              && shield.value.total == ShieldWithin(basis, rate, residual, horizon)
              && shield.value.annualWithinHorizon == shield.value.total / horizon as real
              && shield.value.expiresYear == residual
              && (shield.value.expired <==> residual <= horizon)
  {
    if basis <= 0.0 {
      return None;
    }
    hide ShieldWithin, YearAt, ResidualLife, SumShield, SumDepreciation, AnnualDepreciation;
    var projected := ProjectDepreciation(construction, basis, age, rate, Some(horizon));
    var schedule := projected.value;
    ShieldClosedForm(schedule, horizon);
    var inHorizon := TotalOf(schedule.years);
    shield := Some(RunnerShield(inHorizon / horizon as real, schedule.TotalShield(), schedule.residualLife,
                                schedule.residualLife <= horizon));
  }
}
