/**
 Level mortgage payments: the payment that discounts to the principal, how it moves with the
 rate, and the second spelling of its formula.
 */
module Mortgage {
  import opened Powers

  const MONTHS_PER_YEAR: nat := 12

  function Max(a: real, b: real): real { if a < b then b else a }

  /** MortgageCalculator.monthly_payment. */
  function MonthlyPayment(principal: real, annualRate: real, years: nat): real
    requires 1 <= years
  {
    var n := years * MONTHS_PER_YEAR;
    if annualRate <= 0.0 then
      principal / n as real
    else
      var r := annualRate / 12.0;
      PowAboveOne(1.0 + r, n);
      principal * (r * Pow(1.0 + r, n)) / (Pow(1.0 + r, n) - 1.0)
  }

  /** The underwriting engine's variant: no payment without a loan. */
  function LoanPayment(principal: real, annualRate: real, termYears: nat): real
    requires 1 <= termYears
  {
    if principal <= 0.0 then 0.0 else MonthlyPayment(principal, annualRate, termYears)
  }

  /** The monthly rate at which MonthlyPayment really discounts: negative rates count as zero. */
  function DiscountRate(annualRate: real): (r: real)
    ensures 0.0 <= r
  {
    if annualRate <= 0.0 then 0.0 else annualRate / 12.0
  }

  // ---------------------------------------------------------------------------
  // The payment is the level payment that discounts to the principal
  // ---------------------------------------------------------------------------

  /** Present value of one unit paid at the end of each of the next n months. */
  function Annuity(r: real, n: nat): real
    requires -1.0 < r
  {
    if n == 0 then 0.0
    else
      PowPositive(1.0 + r, n);
      Annuity(r, n - 1) + 1.0 / Pow(1.0 + r, n)
  }

  /** Present value of a stream of payments, the first one a month away. */
  function PresentValue(payments: seq<real>, r: real): real
    requires -1.0 < r
  {
    if payments == [] then 0.0
    else
      var n := |payments|;
      PowPositive(1.0 + r, n);
      PresentValue(payments[..n - 1], r) + payments[n - 1] / Pow(1.0 + r, n)
  }

  lemma {:induction false} LevelStream(m: real, r: real, n: nat)
    requires -1.0 < r
    ensures PresentValue(seq(n, _ => m), r) == m * Annuity(r, n)
  {
    if n > 0 {
      var s := seq(n, _ => m);
      assert s[..n - 1] == seq(n - 1, _ => m);
      LevelStream(m, r, n - 1);
      PowPositive(1.0 + r, n);
      hide Pow;
      AddInstalment(m, Annuity(r, n - 1), Pow(1.0 + r, n), PresentValue(s[..n - 1], r), Annuity(r, n));
    }
  }

  lemma AddInstalment(m: real, a: real, g: real, pv: real, a': real)
    requires 0.0 < g && pv == m * a && a' == a + 1.0 / g
    ensures pv + m / g == m * a'
  {
    assert m * (1.0 / g) * g == m == m / g * g;
    Cancel(m * (1.0 / g), m / g, g);
  }

  lemma {:induction false} AnnuityZero(n: nat)
    ensures Annuity(0.0, n) == n as real
  {
    if n > 0 {
      AnnuityZero(n - 1);
      PowOne(n);
    }
  }

  lemma {:induction false} AnnuityClosedForm(r: real, n: nat)
    requires -1.0 < r
    ensures r * Annuity(r, n) * Pow(1.0 + r, n) == Pow(1.0 + r, n) - 1.0
  {
    if n > 0 {
      AnnuityClosedForm(r, n - 1);
      PowPositive(1.0 + r, n);
      var a, p, g := Annuity(r, n - 1), Pow(1.0 + r, n - 1), Pow(1.0 + r, n);
      calc {
        r * (a + 1.0 / g) * g;
        { assert (a + 1.0 / g) * g == a * g + 1.0; }
        r * (a * g + 1.0);
        { assert a * g == a * p * (1.0 + r); }
        r * (a * p * (1.0 + r)) + r;
        (r * a * p) * (1.0 + r) + r;
        (p - 1.0) * (1.0 + r) + r;
        p * (1.0 + r) - 1.0;
      }
    }
  }

  lemma {:induction false} AnnuityPositive(r: real, n: nat)
    requires 0.0 <= r
    ensures 0.0 <= Annuity(r, n) <= n as real
    ensures n > 0 ==> 0.0 < Annuity(r, n)
  {
    if n > 0 {
      AnnuityPositive(r, n - 1);
      if r == 0.0 { PowOne(n); } else { PowAboveOne(1.0 + r, n); }
      var g := Pow(1.0 + r, n);
      assert 1.0 <= g;
      assert 0.0 < 1.0 / g <= 1.0;
    }
  }

  lemma {:induction false} AnnuityAntitone(r: real, s: real, n: nat)
    requires 0.0 <= r < s
    ensures Annuity(s, n) <= Annuity(r, n)
    ensures n > 0 ==> Annuity(s, n) < Annuity(r, n)
  {
    if n > 0 {
      AnnuityAntitone(r, s, n - 1);
      PowMono(1.0 + r, 1.0 + s, n);
      PowPositive(1.0 + r, n);
      Reciprocal(Pow(1.0 + r, n), Pow(1.0 + s, n));
    }
  }

  lemma Reciprocal(a: real, b: real)
    requires 0.0 < a < b
    ensures 1.0 / b < 1.0 / a
  {
    assert 1.0 / a - 1.0 / b == (b - a) / (a * b);
  }

  /** The payment formula solves the present-value equation. */
  lemma PaymentDiscountsToPrincipal(principal: real, annualRate: real, years: nat)
    requires 1 <= years
    ensures MonthlyPayment(principal, annualRate, years)
            * Annuity(DiscountRate(annualRate), years * MONTHS_PER_YEAR) == principal
  {
    var n := years * MONTHS_PER_YEAR;
    if annualRate <= 0.0 {
      AnnuityZero(n);
    } else {
      var r := annualRate / 12.0;
      PowAboveOne(1.0 + r, n);
      AnnuityClosedForm(r, n);
      var a, g := Annuity(r, n), Pow(1.0 + r, n);
      PaymentTimesAnnuity(principal, r, g, a);
    }
  }

  lemma PaymentTimesAnnuity(p: real, r: real, g: real, a: real)
    requires 1.0 < g
    requires r * a * g == g - 1.0
    ensures p * (r * g) / (g - 1.0) * a == p
  {
    var d, m := g - 1.0, p * (r * g) / (g - 1.0);
    calc {
      (m * a) * d;
      (m * d) * a;
      { assert m * d == p * (r * g); }
      (p * (r * g)) * a;
      p * (r * a * g);
      p * d;
    }
    Cancel(m * a, p, d);
  }

  /**
   MonthlyPayment is the one and only level payment whose n discounted instalments sum to
   the principal.
   */
  lemma PaymentUnique(principal: real, annualRate: real, years: nat, payment: real)
    requires 1 <= years
    ensures PresentValue(seq(years * MONTHS_PER_YEAR, _ => payment), DiscountRate(annualRate)) == principal
       <==> payment == MonthlyPayment(principal, annualRate, years)
  {
    var n, r := years * MONTHS_PER_YEAR, DiscountRate(annualRate);
    PaymentDiscountsToPrincipal(principal, annualRate, years);
    hide MonthlyPayment, Annuity, PresentValue, Pow;
    LevelPaymentUnique(principal, r, n, MonthlyPayment(principal, annualRate, years), payment);
  }

  lemma LevelPaymentUnique(principal: real, r: real, n: nat, m: real, payment: real)
    requires 1 <= n && 0.0 <= r && m * Annuity(r, n) == principal
    ensures PresentValue(seq(n, _ => payment), r) == principal <==> payment == m
  {
    hide Annuity, PresentValue, Pow;
    AnnuityPositive(r, n);
    LevelStream(payment, r, n);
    SameProduct(payment, m, Annuity(r, n), principal);
  }

  lemma SameProduct(x: real, y: real, a: real, p: real)
    requires 0.0 < a && y * a == p
    ensures x * a == p <==> x == y
  {
    if x * a == p {
      Cancel(x, y, a);
    }
  }

  /**
   Monotone in the annual rate over all reals, the switch to principal / n at rate <= 0
   included, and strictly so from zero on.
   */
  lemma PaymentMonotone(principal: real, rate1: real, rate2: real, years: nat)
    requires 1 <= years && 0.0 < principal
    requires rate1 <= rate2
    ensures MonthlyPayment(principal, rate1, years) <= MonthlyPayment(principal, rate2, years)
    ensures 0.0 <= rate1 < rate2 ==>
              MonthlyPayment(principal, rate1, years) < MonthlyPayment(principal, rate2, years)
  {
    var n, r, s := years * MONTHS_PER_YEAR, DiscountRate(rate1), DiscountRate(rate2);
    PaymentDiscountsToPrincipal(principal, rate1, years);
    PaymentDiscountsToPrincipal(principal, rate2, years);
    if r < s {
      AnnuityPositive(r, n);
      AnnuityPositive(s, n);
      AnnuityAntitone(r, s, n);
      SmallerFactor(MonthlyPayment(principal, rate1, years), Annuity(r, n),
                    MonthlyPayment(principal, rate2, years), Annuity(s, n));
    }
  }

  lemma SmallerFactor(x: real, a: real, y: real, b: real)
    requires 0.0 < b < a && x * a == y * b && 0.0 < x * a
    ensures x < y
  {
    assert 0.0 < x;
    assert (y - x) * b == x * (a - b);
  }

  /** A level payment never falls below the straight principal / n. */
  lemma PaymentAtLeastStraightLine(principal: real, annualRate: real, years: nat)
    requires 1 <= years && 0.0 < principal
    ensures principal / (years * MONTHS_PER_YEAR) as real <= MonthlyPayment(principal, annualRate, years)
    ensures principal / (years * MONTHS_PER_YEAR) as real == MonthlyPayment(principal, annualRate, years)
       <==> annualRate <= 0.0
  {
    PaymentMonotone(principal, if annualRate <= 0.0 then annualRate else 0.0, annualRate, years);
  }

  /** The seed script's spelling loan * r / (1 - (1 + r)^-n) of the same payment. */
  function SeedPayment(loan: real, monthlyRate: real, n: nat): real
    requires 1 <= n && 0.0 <= monthlyRate
  {
    if monthlyRate != 0.0 then
      PowAboveOne(1.0 + monthlyRate, n);
      Reciprocal(1.0, Pow(1.0 + monthlyRate, n));
      loan * monthlyRate / (1.0 - 1.0 / Pow(1.0 + monthlyRate, n))
    else
      loan / n as real
  }

  lemma SeedPaymentAgrees(loan: real, annualRate: real, years: nat)
    requires 1 <= years && 0.0 <= annualRate
    ensures SeedPayment(loan, annualRate / 12.0, years * MONTHS_PER_YEAR)
            == MonthlyPayment(loan, annualRate, years)
  {
    if annualRate > 0.0 {
      var n, r := years * MONTHS_PER_YEAR, annualRate / 12.0;
      PowAboveOne(1.0 + r, n);
      var g := Pow(1.0 + r, n);
      assert g * (1.0 - 1.0 / g) == g - 1.0;
      Reciprocal(1.0, g);
      calc {
        loan * r / (1.0 - 1.0 / g);
        (loan * r * g) / ((1.0 - 1.0 / g) * g);
        { assert (1.0 - 1.0 / g) * g == g - 1.0; }
        (loan * r * g) / (g - 1.0);
        { assert loan * r * g == loan * (r * g); }
        loan * (r * g) / (g - 1.0);
      }
    }
  }
}
