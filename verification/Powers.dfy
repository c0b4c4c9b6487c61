/** Integer powers of reals, the one analytic tool the deal arithmetic needs. */
module Powers {

  function Pow(x: real, n: nat): real {
    if n == 0 then 1.0 else x * Pow(x, n - 1)
  }

  /** 1 + x + ... + x^(n-1). */
  function Geometric(x: real, n: nat): real {
    if n == 0 then 0.0 else Geometric(x, n - 1) + Pow(x, n - 1)
  }

  lemma MulMono(a: real, b: real, c: real)
    requires a <= b && 0.0 <= c
    ensures a * c <= b * c
  {
  }

  lemma Cancel(x: real, y: real, a: real)
    requires a != 0.0 && x * a == y * a
    ensures x == y
  {
    assert (x - y) * a == 0.0;
  }

  /** q is the quotient exactly when multiplying back gives the numerator. */
  lemma QuotientIs(q: real, x: real, d: real)
    requires d != 0.0 && q * d == x
    ensures x / d == q
  {
    Cancel(x / d, q, d);
  }

  lemma {:induction false} PowPositive(x: real, n: nat)
    requires 0.0 < x
    ensures 0.0 < Pow(x, n)
  {
    if n > 0 {
      PowPositive(x, n - 1);
    }
  }

  /** Powers are monotone in the base, strictly so for a positive exponent. */
  lemma {:induction false} PowMono(x: real, y: real, n: nat)
    requires 0.0 < x < y
    ensures Pow(x, n) <= Pow(y, n)
    ensures n > 0 ==> Pow(x, n) < Pow(y, n)
  {
    if n > 0 {
      PowMono(x, y, n - 1);
      PowPositive(x, n - 1);
      var p, q := Pow(x, n - 1), Pow(y, n - 1);
      calc {
        Pow(x, n);
        x * p;
      <
        y * p;
      <= { MulMono(p, q, y); }
        y * q;
        Pow(y, n);
      }
    }
  }

  lemma {:induction false} PowAboveOne(x: real, n: nat)
    requires 1.0 < x
    ensures 1.0 <= Pow(x, n)
    ensures n > 0 ==> 1.0 < Pow(x, n)
  {
    if n > 0 {
      PowAboveOne(x, n - 1);
      MulMono(1.0, Pow(x, n - 1), x);
    }
  }

  lemma {:induction false} PowStep(x: real, m: nat, n: nat)
    requires 1.0 < x && m < n
    ensures Pow(x, m) < Pow(x, n)
  {
    PowNext(x, n - 1);
    if m < n - 1 {
      PowStep(x, m, n - 1);
    }
  }

  lemma PowNext(x: real, n: nat)
    requires 1.0 < x
    ensures Pow(x, n) < Pow(x, n + 1)
  {
    PowPositive(x, n);
    GrowBy(x, Pow(x, n), Pow(x, n + 1));
  }

  lemma GrowBy(x: real, p: real, q: real)
    requires 1.0 < x && 0.0 < p && q == x * p
    ensures p < q
  {
    assert 0.0 < (x - 1.0) * p;
  }

  lemma {:induction false} PowAdd(x: real, m: nat, n: nat)
    ensures Pow(x, m + n) == Pow(x, m) * Pow(x, n)
  {
    if m > 0 {
      PowAdd(x, m - 1, n);
      var p, q := Pow(x, m - 1), Pow(x, n);
      assert x * (p * q) == (x * p) * q;
    }
  }

  lemma {:induction false} PowOne(n: nat)
    ensures Pow(1.0, n) == 1.0
  {
    if n > 0 {
      PowOne(n - 1);
    }
  }

  lemma {:induction false} GeometricSum(x: real, n: nat)
    ensures (x - 1.0) * Geometric(x, n) == Pow(x, n) - 1.0
  {
    if n > 0 {
      GeometricSum(x, n - 1);
      var s, p := Geometric(x, n - 1), Pow(x, n - 1);
      calc {
        (x - 1.0) * (s + p);
        (x - 1.0) * s + (x - 1.0) * p;
        p - 1.0 + x * p - p;
        x * p - 1.0;
      }
    }
  }

  lemma {:induction false} GeometricOne(n: nat)
    ensures Geometric(1.0, n) == n as real
  {
    if n > 0 {
      GeometricOne(n - 1);
      PowOne(n - 1);
    }
  }

  /** Below one, every term of the geometric sum exceeds the next power. */
  lemma {:induction false} GeometricDominates(x: real, n: nat)
    requires 0.0 < x < 1.0
    ensures n as real * Pow(x, n) <= Geometric(x, n)
    ensures n > 0 ==> n as real * Pow(x, n) < Geometric(x, n)
  {
    if n > 0 {
      GeometricDominates(x, n - 1);
      var p := Pow(x, n - 1);
      PowPositive(x, n - 1);
      assert x * p < p;
      var k := (n - 1) as real;
      assert k * (x * p) <= k * p;
      calc {
        n as real * Pow(x, n);
        (k + 1.0) * (x * p);
        k * (x * p) + x * p;
      <
        k * p + p;
      <=
        Geometric(x, n - 1) + p;
      }
    }
  }
}
