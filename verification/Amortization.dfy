/**
 The amortization loop of the financial modelling engine, against the closed form that the
 Monte Carlo engine uses for the loan payoff at the end of a hold.
 */
module Amortization {
  import opened Powers
  import opened Mortgage

  datatype YearRow = YearRow(year: nat, remainingBalance: real, interestPaid: real,
                             principalPaid: real, equityPct: real)

  /** Balance after k payments m at monthly rate r, straight from the loop body. */
  function Balance(principal: real, r: real, m: real, k: nat): real {
    if k == 0 then principal
    else
      var b := Balance(principal, r, m, k - 1);
      b - (m - b * r)
  }

  /** Interest charged in the first k months. */
  function Interest(principal: real, r: real, m: real, k: nat): real {
    if k == 0 then 0.0
    else Interest(principal, r, m, k - 1) + Balance(principal, r, m, k - 1) * r
  }

  /** The balance of a loan paid by its own level payment. */
  function LoanBalance(principal: real, annualRate: real, years: nat, k: nat): real
    requires 1 <= years
  {
    Balance(principal, annualRate / 12.0, MonthlyPayment(principal, annualRate, years), k)
  }

  lemma NextMonth(principal: real, r: real, m: real, k: nat)
    requires 0 < k
    ensures Balance(principal, r, m, 0) == principal && Interest(principal, r, m, 0) == 0.0
    ensures var b := Balance(principal, r, m, k - 1);
            && Balance(principal, r, m, k) == b - (m - b * r)
            && Interest(principal, r, m, k) == Interest(principal, r, m, k - 1) + b * r
  {
  }

  function EquityPct(balance: real, principal: real): real
    requires principal != 0.0
  {
    (1.0 - Max(balance, 0.0) / principal) * 100.0
  }

  /** Row y (from zero) of the yearly summary when m is paid every month at monthly rate r. */
  function RowAt(principal: real, r: real, m: real, y: nat): YearRow
    requires principal != 0.0
  {
    var before, after := Balance(principal, r, m, 12 * y), Balance(principal, r, m, 12 * (y + 1));
    YearRow(y + 1, Max(after, 0.0),
            Interest(principal, r, m, 12 * (y + 1)) - Interest(principal, r, m, 12 * y),
            before - after,
            EquityPct(after, principal))
  }

  function ScheduleOf(principal: real, r: real, m: real, years: nat): (rows: seq<YearRow>)
    requires principal != 0.0
    ensures |rows| == years
  {
    if years == 0 then []
    else ScheduleOf(principal, r, m, years - 1) + [RowAt(principal, r, m, years - 1)]
  }

  /** MortgageCalculator.amortization_schedule before display rounding. */
  method AmortizationSchedule(principal: real, annualRate: real, years: nat)
    returns (schedule: seq<YearRow>)
    requires 1 <= years && principal != 0.0
    ensures schedule == ScheduleOf(principal, annualRate / 12.0, MonthlyPayment(principal, annualRate, years), years)
  {
    var monthly := MonthlyPayment(principal, annualRate, years);
    schedule := Amortize(principal, annualRate / 12.0, monthly, years);
  }

  lemma NoRows(principal: real, r: real, m: real)
    requires principal != 0.0
    ensures ScheduleOf(principal, r, m, 0) == []
  {
  }

  /** Every twelfth month closes a row. */
  lemma RowClosed(principal: real, r: real, m: real, y: nat, month: nat, balance: real, interestPaid: real,
                  principalPaid: real)
    requires principal != 0.0 && 12 * y <= month - 1 < 12 * (y + 1) && month % 12 == 0
    requires balance == Balance(principal, r, m, month)
    requires interestPaid == Interest(principal, r, m, month) - Interest(principal, r, m, 12 * y)
    requires principalPaid == Balance(principal, r, m, 12 * y) - balance
    ensures month == 12 * (y + 1)
    ensures ScheduleOf(principal, r, m, y + 1) ==
            ScheduleOf(principal, r, m, y)
            + [YearRow(month / 12, Max(balance, 0.0), interestPaid, principalPaid, EquityPct(balance, principal))]
  {
    assert month == 12 * (y + 1);
    hide Balance, Interest, EquityPct;
  }

  method Amortize(principal: real, r: real, monthly: real, years: nat) returns (schedule: seq<YearRow>)
    requires principal != 0.0
    ensures schedule == ScheduleOf(principal, r, monthly, years)
  {
    hide Balance, Interest, EquityPct, RowAt, ScheduleOf;
    NoRows(principal, r, monthly);
    var n := years * 12;
    var balance := principal;
    schedule := [];
    var yearlyInterest, yearlyPrincipal := 0.0, 0.0;
    NextMonth(principal, r, monthly, 1);
    for month := 1 to n + 1
      invariant 12 * |schedule| <= month - 1 < 12 * (|schedule| + 1)
      invariant schedule == ScheduleOf(principal, r, monthly, |schedule|)
      invariant balance == Balance(principal, r, monthly, month - 1)
      invariant yearlyInterest == Interest(principal, r, monthly, month - 1)
                                  - Interest(principal, r, monthly, 12 * |schedule|)
      invariant yearlyPrincipal == Balance(principal, r, monthly, 12 * |schedule|) - balance
    {
      NextMonth(principal, r, monthly, month);
      var interest := balance * r;
      var principalPaid := monthly - interest;
      balance := balance - principalPaid;
      yearlyInterest := yearlyInterest + interest;
      yearlyPrincipal := yearlyPrincipal + principalPaid;
      if month % 12 == 0 {
        RowClosed(principal, r, monthly, |schedule|, month, balance, yearlyInterest, yearlyPrincipal);
        schedule := schedule + [YearRow(month / 12, Max(balance, 0.0), yearlyInterest,
                                        yearlyPrincipal, EquityPct(balance, principal))];
        yearlyInterest, yearlyPrincipal := 0.0, 0.0;
      }
    }
  }

  /** MortgageCalculator.total_interest before display rounding. */
  function TotalInterest(principal: real, annualRate: real, years: nat): real
    requires 1 <= years
  {
    MonthlyPayment(principal, annualRate, years) * years as real * 12.0 - principal
  }

  // ---------------------------------------------------------------------------
  // The loop against the closed form
  // ---------------------------------------------------------------------------

  /** The balance as compounded principal less compounded payments. */
  ghost predicate CompoundForm(principal: real, r: real, m: real, k: nat) {
    Balance(principal, r, m, k) == principal * Pow(1.0 + r, k) - m * Geometric(1.0 + r, k)
  }

  lemma {:induction false} BalanceAsPowers(principal: real, r: real, m: real, k: nat)
    ensures CompoundForm(principal, r, m, k)
  {
    if k > 0 {
      BalanceAsPowers(principal, r, m, k - 1);
      CompoundStep(principal, r, m, k);
    }
  }

  lemma {:induction false} CompoundStep(principal: real, r: real, m: real, k: nat)
    requires 0 < k && CompoundForm(principal, r, m, k - 1)
    ensures CompoundForm(principal, r, m, k)
  {
    GeometricShift(1.0 + r, k - 1);
    MonthStep(principal, r, m, Pow(1.0 + r, k - 1), Geometric(1.0 + r, k - 1),
              Balance(principal, r, m, k - 1), Pow(1.0 + r, k), Geometric(1.0 + r, k));
  }

  lemma MonthStep(principal: real, r: real, m: real, p: real, s: real, b: real, p': real, s': real)
    requires b == principal * p - m * s
    requires p' == (1.0 + r) * p && s' == s * (1.0 + r) + 1.0
    ensures b - (m - b * r) == principal * p' - m * s'
  {
    calc {
      b * (1.0 + r) - m;
      (principal * p - m * s) * (1.0 + r) - m;
      principal * p * (1.0 + r) - m * s * (1.0 + r) - m;
      principal * ((1.0 + r) * p) - m * (s * (1.0 + r) + 1.0);
    }
  }

  lemma {:induction false} GeometricShift(x: real, k: nat)
    ensures Geometric(x, k + 1) == Geometric(x, k) * x + 1.0
  {
    if k > 0 {
      GeometricShift(x, k - 1);
    }
  }

  /** The share of the loan still owed after k of n months. */
  function OwedShare(annualRate: real, years: nat, k: nat): real
    requires 1 <= years && 0.0 <= annualRate
  {
    var n := years * MONTHS_PER_YEAR;
    if annualRate > 0.0 then
      var x := 1.0 + annualRate / 12.0;
      PowAboveOne(x, n);
      (Pow(x, n) - Pow(x, k)) / (Pow(x, n) - 1.0)
    else
      1.0 - k as real / n as real
  }

  lemma ClosedFormSteps(p: real, r: real, gn: real, gk: real, s: real, m: real)
    requires 0.0 < r && 1.0 < gn && r * s == gk - 1.0
    requires m * (gn - 1.0) == p * (r * gn)
    ensures p * gk - m * s == p * ((gn - gk) / (gn - 1.0))
  {
    var d, q := gn - 1.0, (gn - gk) / (gn - 1.0);
    calc {
      (p * gk - m * s) * d;
      p * gk * d - (m * d) * s;
      p * gk * d - p * (r * gn) * s;
      { assert p * (r * gn) * s == p * gn * (r * s); }
      p * gk * d - p * gn * (gk - 1.0);
      p * (gk * d - gn * (gk - 1.0));
      { assert gk * d - gn * (gk - 1.0) == gn - gk; }
      p * (gn - gk);
      { assert q * d == gn - gk; }
      p * (q * d);
      (p * q) * d;
    }
    Cancel(p * gk - m * s, p * q, d);
  }

  lemma PaymentAsPowers(principal: real, annualRate: real, years: nat)
    requires 1 <= years && 0.0 < annualRate
    ensures var g := Pow(1.0 + annualRate / 12.0, years * MONTHS_PER_YEAR);
            MonthlyPayment(principal, annualRate, years) * (g - 1.0) == principal * (annualRate / 12.0 * g)
  {
    PowAboveOne(1.0 + annualRate / 12.0, years * MONTHS_PER_YEAR);
  }

  /**
   After every month the loop's balance is the closed form
   P ((1+r)^n - (1+r)^k) / ((1+r)^n - 1), or P (1 - k/n) without interest.
   */
  lemma {:induction false} BalanceClosedForm(principal: real, annualRate: real, years: nat, k: nat)
    requires 1 <= years && 0.0 <= annualRate
    ensures LoanBalance(principal, annualRate, years, k) == principal * OwedShare(annualRate, years, k)
  {
    if annualRate > 0.0 {
      CompoundShare(principal, annualRate, years, k);
    } else {
      LevelShare(principal, annualRate, years, k);
    }
  }

  lemma CompoundShare(principal: real, annualRate: real, years: nat, k: nat)
    requires 1 <= years && 0.0 < annualRate
    ensures LoanBalance(principal, annualRate, years, k) == principal * OwedShare(annualRate, years, k)
  {
    var n, r := years * MONTHS_PER_YEAR, annualRate / 12.0;
    var m := MonthlyPayment(principal, annualRate, years);
    BalanceAsPowers(principal, r, m, k);
    PowAboveOne(1.0 + r, n);
    GeometricSum(1.0 + r, k);
    PaymentAsPowers(principal, annualRate, years);
    hide Pow, Geometric, MonthlyPayment, Balance;
    ClosedFormSteps(principal, r, Pow(1.0 + r, n), Pow(1.0 + r, k), Geometric(1.0 + r, k), m);
  }

  lemma LevelShare(principal: real, annualRate: real, years: nat, k: nat)
    requires 1 <= years && 0.0 == annualRate
    ensures LoanBalance(principal, annualRate, years, k) == principal * OwedShare(annualRate, years, k)
  {
    var n := years * MONTHS_PER_YEAR;
    var m := MonthlyPayment(principal, annualRate, years);
    BalanceAsPowers(principal, 0.0, m, k);
    PowOne(k);
    GeometricOne(k);
    hide Pow, Geometric, Balance;
    StraightLineShare(principal, k as real, n as real);
  }

  lemma StraightLineShare(p: real, k: real, n: real)
    requires 0.0 < n
    ensures p - p / n * k == p * (1.0 - k / n)
  {
    var u, v := p / n, k / n;
    assert u * n == p && v * n == k;
    assert u * k == u * (v * n) == (u * n) * v;
  }

  lemma OwedShareBounds(annualRate: real, years: nat, k: nat)
    requires 1 <= years && 0.0 <= annualRate && k <= years * MONTHS_PER_YEAR
    ensures 0.0 <= OwedShare(annualRate, years, k) <= 1.0
    ensures OwedShare(annualRate, years, k) == 0.0 <==> k == years * MONTHS_PER_YEAR
    ensures k > 0 ==> OwedShare(annualRate, years, k) < OwedShare(annualRate, years, k - 1)
  {
    var n := years * MONTHS_PER_YEAR;
    if annualRate > 0.0 {
      var x := 1.0 + annualRate / 12.0;
      PowAboveOne(x, n);
      PowAboveOne(x, k);
      if k < n { PowStep(x, k, n); }
      var d := Pow(x, n) - 1.0;
      RatioBounds(Pow(x, n) - Pow(x, k), d);
      if k > 0 {
        PowStep(x, k - 1, k);
        RatioStrict(Pow(x, n) - Pow(x, k), Pow(x, n) - Pow(x, k - 1), d);
      }
    } else {
      RatioBounds(k as real, n as real);
      if k < n { RatioStrict(k as real, n as real, n as real); }
      if k > 0 { RatioStrict((k - 1) as real, k as real, n as real); }
    }
  }

  lemma RatioBounds(a: real, d: real)
    requires 0.0 <= a <= d && 0.0 < d
    ensures 0.0 <= a / d <= 1.0
    ensures a / d == 0.0 <==> a == 0.0
    ensures a / d == 1.0 <==> a == d
  {
    var q := a / d;
    assert q * d == a;
  }

  lemma RatioStrict(a: real, b: real, d: real)
    requires a < b && 0.0 < d
    ensures a / d < b / d
  {
    var q, t := a / d, b / d;
    assert (t - q) * d == b - a;
  }

  /**
   The balance never leaves [0, P], strictly decreases every month and is exactly zero after
   the last payment and at no other time, so the max with zero never changes a row.
   */
  lemma BalanceRunsDownToZero(principal: real, annualRate: real, years: nat, k: nat)
    requires 1 <= years && 0.0 <= annualRate && 0.0 < principal
    requires k <= years * MONTHS_PER_YEAR
    ensures 0.0 <= LoanBalance(principal, annualRate, years, k) <= principal
    ensures Max(LoanBalance(principal, annualRate, years, k), 0.0) == LoanBalance(principal, annualRate, years, k)
    ensures LoanBalance(principal, annualRate, years, k) == 0.0 <==> k == years * MONTHS_PER_YEAR
    ensures k > 0 ==> LoanBalance(principal, annualRate, years, k) < LoanBalance(principal, annualRate, years, k - 1)
  {
    BalanceClosedForm(principal, annualRate, years, k);
    OwedShareBounds(annualRate, years, k);
    ScaledBounds(principal, OwedShare(annualRate, years, k));
    if k > 0 {
      BalanceDecreases(principal, annualRate, years, k);
    }
  }

  lemma BalanceDecreases(principal: real, annualRate: real, years: nat, k: nat)
    requires 1 <= years && 0.0 <= annualRate && 0.0 < principal
    requires 0 < k <= years * MONTHS_PER_YEAR
    ensures LoanBalance(principal, annualRate, years, k) < LoanBalance(principal, annualRate, years, k - 1)
  {
    hide LoanBalance, OwedShare;
    var s, t := OwedShare(annualRate, years, k), OwedShare(annualRate, years, k - 1);
    var x, y := LoanBalance(principal, annualRate, years, k), LoanBalance(principal, annualRate, years, k - 1);
    assert s < t by { OwedShareBounds(annualRate, years, k); }
    assert x == principal * s && y == principal * t by {
      BalanceClosedForm(principal, annualRate, years, k);
      BalanceClosedForm(principal, annualRate, years, k - 1);
    }
    SmallerShare(principal, s, t, x, y);
  }

  lemma SmallerShare(p: real, s: real, t: real, x: real, y: real)
    requires 0.0 < p && s < t && x == p * s && y == p * t
    ensures x < y
  {
    ScaledStrict(p, s, t);
  }

  lemma ScaledBounds(p: real, s: real)
    requires 0.0 < p && 0.0 <= s <= 1.0
    ensures 0.0 <= p * s <= p
    ensures p * s == 0.0 <==> s == 0.0
  {
  }

  lemma ScaledStrict(p: real, s: real, t: real)
    requires 0.0 < p && s < t
    ensures p * s < p * t
  {
    assert 0.0 < p * (t - s);
  }

  /** A negative rate still pays P / n, so the loan is overpaid and the max with zero matters. */
  lemma OverpaidBelowZeroRate(principal: real, annualRate: real, years: nat)
    requires 1 <= years && 0.0 < principal && -12.0 < annualRate < 0.0
    ensures LoanBalance(principal, annualRate, years, years * MONTHS_PER_YEAR) < 0.0
  {
    var n, r := years * MONTHS_PER_YEAR, annualRate / 12.0;
    var m := principal / n as real;
    BalanceAsPowers(principal, r, m, n);
    GeometricDominates(1.0 + r, n);
    var g, s := Pow(1.0 + r, n), Geometric(1.0 + r, n);
    hide Pow, Geometric, Balance;
    OverpaidSteps(principal, n as real, g, s, m);
  }

  lemma OverpaidSteps(p: real, n: real, g: real, s: real, m: real)
    requires 0.0 < p && 0.0 < n && m == p / n && n * g < s
    ensures p * g - m * s < 0.0
  {
    assert m * n == p && 0.0 < m;
    assert m * (n * g) < m * s by { ScaledStrict(m, n * g, s); }
    assert m * (n * g) == (m * n) * g == p * g;
  }

  /** At a monthly factor x = 1 + r of a negative rate, n payments of P / n leave nothing. */
  ghost predicate PaidByChance(x: real, n: nat) {
    Pow(x, n) * (1.0 + n as real * (1.0 - x)) == 1.0
  }

  /**
   The loop pays a loan off exactly when the rate is not negative; only below -1200 percent, where
   the balance changes sign every month, can P / n hit zero by chance, and then at one rate only
   (ChanceRateUnique).
   */
  lemma PaidOffExactly(principal: real, annualRate: real, years: nat)
    requires 1 <= years && 0.0 < principal
    ensures LoanBalance(principal, annualRate, years, years * MONTHS_PER_YEAR) == 0.0 <==>
            0.0 <= annualRate
            || (annualRate <= -12.0 && PaidByChance(1.0 + annualRate / 12.0, years * MONTHS_PER_YEAR))
  {
    if 0.0 <= annualRate {
      BalanceRunsDownToZero(principal, annualRate, years, years * MONTHS_PER_YEAR);
    } else if -12.0 < annualRate {
      OverpaidBelowZeroRate(principal, annualRate, years);
    } else {
      PaidByChanceIff(principal, annualRate, years);
    }
    hide LoanBalance, PaidByChance;
  }

  lemma PaidByChanceIff(principal: real, annualRate: real, years: nat)
    requires 1 <= years && 0.0 < principal && annualRate < 0.0
    ensures LoanBalance(principal, annualRate, years, years * MONTHS_PER_YEAR) == 0.0 <==>
            PaidByChance(1.0 + annualRate / 12.0, years * MONTHS_PER_YEAR)
  {
    var n, x := years * MONTHS_PER_YEAR, 1.0 + annualRate / 12.0;
    BalanceAsPowers(principal, annualRate / 12.0, principal / n as real, n);
    GeometricSum(x, n);
    hide Pow, Geometric, Balance;
    ChanceSteps(principal, x, n as real, Pow(x, n), Geometric(x, n), principal / n as real);
  }

  lemma {:induction false} EvenPow(x: real, k: nat)
    ensures Pow(-x, 2 * k) == Pow(x, 2 * k)
  {
    if k > 0 {
      EvenPow(x, k - 1);
      assert Pow(x, 2 * k) == x * (x * Pow(x, 2 * k - 2));
      assert Pow(-x, 2 * k) == (-x) * ((-x) * Pow(-x, 2 * k - 2));
    }
  }

  /** For each term there is at most one such rate. */
  lemma ChanceRateUnique(a: real, b: real, years: nat)
    requires 1 <= years && a <= -12.0 && b <= -12.0
    requires PaidByChance(1.0 + a / 12.0, years * MONTHS_PER_YEAR)
    requires PaidByChance(1.0 + b / 12.0, years * MONTHS_PER_YEAR)
    ensures a == b
  {
    var u, v, n := -1.0 - a / 12.0, -1.0 - b / 12.0, years * MONTHS_PER_YEAR;
    assert n == 2 * (6 * years);
    EvenPow(u, 6 * years);
    EvenPow(v, 6 * years);
    if a < b {
      ChanceFactorGrows(v, u, n);
    } else if b < a {
      ChanceFactorGrows(u, v, n);
    }
  }

  lemma ChanceFactorGrows(u: real, v: real, n: nat)
    requires 0.0 <= u < v && 0 < n
    ensures Pow(u, n) * (1.0 + n as real * (1.0 + u)) < Pow(v, n) * (1.0 + n as real * (1.0 + v))
  {
    PowPositive(v, n);
    if u == 0.0 {
      assert Pow(u, n) == 0.0;
    } else {
      PowMono(u, v, n);
      PowPositive(u, n);
    }
    hide Pow;
    FactorsGrow(Pow(u, n), Pow(v, n), n as real, u, v);
  }

  lemma FactorsGrow(p: real, q: real, n: real, u: real, v: real)
    requires 0.0 <= p < q && 0.0 < n && 0.0 <= u < v
    ensures p * (1.0 + n * (1.0 + u)) < q * (1.0 + n * (1.0 + v))
  {
    var x, y := 1.0 + n * (1.0 + u), 1.0 + n * (1.0 + v);
    assert 0.0 < x < y by {
      ScaledStrict(n, 1.0 + u, 1.0 + v);
    }
    ProductGrows(p, q, x, y);
  }

  lemma ProductGrows(p: real, q: real, x: real, y: real)
    requires 0.0 <= p < q && 0.0 < x < y
    ensures p * x < q * y
  {
  }

  lemma ChanceSteps(p: real, x: real, n: real, g: real, s: real, m: real)
    requires 0.0 < p && 0.0 < n && x < 1.0
    requires (x - 1.0) * s == g - 1.0 && m * n == p
    ensures p * g - m * s == 0.0 <==> g * (1.0 + n * (1.0 - x)) == 1.0
  {
    calc {
      (p * g - m * s) * (n * (x - 1.0));
      p * g * n * (x - 1.0) - (m * n) * ((x - 1.0) * s);
      p * g * n * (x - 1.0) - p * (g - 1.0);
      { assert g * n * (x - 1.0) - (g - 1.0) == 1.0 - g * (1.0 + n * (1.0 - x)); }
      p * (1.0 - g * (1.0 + n * (1.0 - x)));
    }
    assert n * (x - 1.0) < 0.0;
    ZeroTogether(p * g - m * s, n * (x - 1.0), p, 1.0 - g * (1.0 + n * (1.0 - x)));
  }

  lemma ZeroTogether(a: real, b: real, c: real, d: real)
    requires b != 0.0 && c != 0.0 && a * b == c * d
    ensures a == 0.0 <==> d == 0.0
  {
    if a == 0.0 {
      Cancel(d, 0.0, c);
    } else if d == 0.0 {
      Cancel(a, 0.0, b);
    }
  }

  // ---------------------------------------------------------------------------
  // Conservation: interest and principal parts
  // ---------------------------------------------------------------------------

  lemma {:induction false} PaymentsSplit(principal: real, r: real, m: real, k: nat)
    ensures Interest(principal, r, m, k) + (principal - Balance(principal, r, m, k)) == m * k as real
  {
    if k > 0 {
      PaymentsSplit(principal, r, m, k - 1);
    }
  }

  function SumInterest(rows: seq<YearRow>): real {
    if rows == [] then 0.0 else SumInterest(rows[..|rows| - 1]) + rows[|rows| - 1].interestPaid
  }

  function SumPrincipal(rows: seq<YearRow>): real {
    if rows == [] then 0.0 else SumPrincipal(rows[..|rows| - 1]) + rows[|rows| - 1].principalPaid
  }

  lemma {:induction false} RowsTelescope(principal: real, r: real, m: real, years: nat)
    requires principal != 0.0
    ensures SumInterest(ScheduleOf(principal, r, m, years)) == Interest(principal, r, m, 12 * years)
    ensures SumPrincipal(ScheduleOf(principal, r, m, years)) == principal - Balance(principal, r, m, 12 * years)
  {
    if years > 0 {
      RowsTelescope(principal, r, m, years - 1);
      var rows := ScheduleOf(principal, r, m, years);
      assert rows[..years - 1] == ScheduleOf(principal, r, m, years - 1);
    }
  }

  lemma {:induction false} ScheduleAt(principal: real, r: real, m: real, years: nat, y: nat)
    requires principal != 0.0 && y < years
    ensures ScheduleOf(principal, r, m, years)[y] == RowAt(principal, r, m, y)
  {
    if y < years - 1 {
      ScheduleAt(principal, r, m, years - 1, y);
    }
  }

  lemma {:induction false} ScheduleSums(principal: real, r: real, m: real, years: nat)
    requires principal != 0.0
    requires Balance(principal, r, m, 12 * years) == 0.0
    ensures SumPrincipal(ScheduleOf(principal, r, m, years)) == principal
    ensures SumInterest(ScheduleOf(principal, r, m, years)) == m * years as real * 12.0 - principal
  {
    RowsTelescope(principal, r, m, years);
    AllInterest(principal, r, m, years);
  }

  lemma AllInterest(principal: real, r: real, m: real, years: nat)
    requires Balance(principal, r, m, 12 * years) == 0.0
    ensures Interest(principal, r, m, 12 * years) == m * years as real * 12.0 - principal
  {
    PaymentsSplit(principal, r, m, 12 * years);
    TotalPaid(m, years);
  }

  /** The schedule repays exactly P and charges exactly the total interest. */
  lemma ScheduleConserves(principal: real, annualRate: real, years: nat)
    requires 1 <= years && 0.0 <= annualRate && 0.0 < principal
    ensures var rows := ScheduleOf(principal, annualRate / 12.0, MonthlyPayment(principal, annualRate, years), years);
            && SumPrincipal(rows) == principal
            && SumInterest(rows) == TotalInterest(principal, annualRate, years)
  {
    hide MonthlyPayment, Balance, ScheduleOf;
    BalanceRunsDownToZero(principal, annualRate, years, 12 * years);
    ScheduleSums(principal, annualRate / 12.0, MonthlyPayment(principal, annualRate, years), years);
  }

  /** The equity share of a row is what has been paid off, in percent of the loan, at any rate and payment. */
  lemma EquityIsPaidOff(principal: real, r: real, m: real, years: nat, y: nat)
    requires principal != 0.0 && y < years
    ensures var row := ScheduleOf(principal, r, m, years)[y];
            row.equityPct * principal == 100.0 * (principal - row.remainingBalance)
  {
    hide RowAt;
    ScheduleAt(principal, r, m, years, y);
    RowEquity(principal, r, m, y);
    hide ScheduleOf;
  }

  lemma RowEquity(principal: real, r: real, m: real, y: nat)
    requires principal != 0.0
    ensures var row := RowAt(principal, r, m, y);
            row.equityPct * principal == 100.0 * (principal - row.remainingBalance)
  {
    hide Balance, Interest, Max;
    PaidShare(Max(Balance(principal, r, m, 12 * (y + 1)), 0.0), principal);
  }

  lemma PaidShare(left: real, principal: real)
    requires principal != 0.0
    ensures (1.0 - left / principal) * 100.0 * principal == 100.0 * (principal - left)
  {
    var share := left / principal;
    assert share * principal == left;
  }

  /** Every yearly row shows the closed-form balance, and only the last one shows zero. */
  lemma ScheduleRow(principal: real, annualRate: real, years: nat, y: nat)
    requires 1 <= years && 0.0 <= annualRate && 0.0 < principal && y < years
    ensures var rows := ScheduleOf(principal, annualRate / 12.0, MonthlyPayment(principal, annualRate, years), years);
            && rows[y].year == y + 1
            && rows[y].remainingBalance == principal * OwedShare(annualRate, years, 12 * (y + 1))
            && (rows[y].remainingBalance == 0.0 <==> y == years - 1)
  {
    ScheduleAt(principal, annualRate / 12.0, MonthlyPayment(principal, annualRate, years), years, y);
    BalanceRunsDownToZero(principal, annualRate, years, 12 * (y + 1));
    BalanceClosedForm(principal, annualRate, years, 12 * (y + 1));
  }

  lemma TotalPaid(m: real, years: nat)
    ensures m * (12 * years) as real == m * years as real * 12.0
  {
  }

  // ---------------------------------------------------------------------------
  // The payoff used when a scenario sells
  // ---------------------------------------------------------------------------

  /** remaining_balance in MonteCarloEngine.run_scenarios. */
  function PayoffBalance(loanAmount: real, rate: real, loanYears: nat, holdYears: nat): real
    requires 1 <= loanYears
  {
    var remainingMonths := loanYears * 12 - holdYears * 12;
    if remainingMonths > 0 && rate > 0.0 then
      var r := rate / 12.0;
      PowAboveOne(1.0 + r, loanYears * 12);
      loanAmount * (Pow(1.0 + r, loanYears * 12) - Pow(1.0 + r, holdYears * 12))
      / (Pow(1.0 + r, loanYears * 12) - 1.0)
    else 0.0
  }

  /**
   The payoff is the balance the amortization loop would show at the sale, exactly when the
   rate is positive or the loan has already matured. (The engine floors every sampled rate at
   one percent, so the failing case never reaches it.)
   */
  lemma PayoffIsLoopBalance(loanAmount: real, rate: real, loanYears: nat, holdYears: nat)
    requires 1 <= loanYears && 0.0 < loanAmount && 0.0 <= rate
    ensures PayoffBalance(loanAmount, rate, loanYears, holdYears)
            == LoanBalance(loanAmount, rate, loanYears, 12 * (if holdYears < loanYears then holdYears else loanYears))
       <==> (rate > 0.0 || loanYears <= holdYears)
  {
    var k := 12 * (if holdYears < loanYears then holdYears else loanYears);
    BalanceClosedForm(loanAmount, rate, loanYears, k);
    BalanceRunsDownToZero(loanAmount, rate, loanYears, k);
    if rate > 0.0 && holdYears < loanYears {
      var x := 1.0 + rate / 12.0;
      PowAboveOne(x, loanYears * 12);
      QuotientScales(loanAmount, Pow(x, loanYears * 12) - Pow(x, k), Pow(x, loanYears * 12) - 1.0);
    }
  }

  lemma QuotientScales(p: real, a: real, d: real)
    requires 0.0 < d
    ensures p * a / d == p * (a / d)
  {
    assert p * (a / d) * d == p * a;
    QuotientIs(p * (a / d), p * a, d);
  }
}
