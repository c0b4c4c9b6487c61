/** Vocabulary shared by the modules. */
module Common {
  datatype Option<+T> = None | Some(value: T)
  datatype Result<+T, +E> = Ok(value: T) | Err(error: E)

  /** The columns of a holding's financials that decisions and summaries read. */
  datatype Financials = Financials(
    currentValueEstimate: Option<real>, loanBalance: Option<real>, interestRate: Option<real>,
    monthlyRent: Option<real>, vacancyRate: Option<real>, monthlyOpex: Option<real>,
    propertyTaxAnnual: Option<real>, insuranceAnnual: Option<real>, monthlyPiti: Option<real>)

  function Abs(x: real): real { if x < 0.0 then -x else x }

  /** max(-1, min(1, x)). */
  function ClampSigned(x: real): (r: real)
    ensures -1.0 <= r <= 1.0
    ensures -1.0 <= x <= 1.0 ==> r == x
  {
    if x > 1.0 then 1.0 else if x < -1.0 then -1.0 else x
  }

  /** max(0, min(1, x)). */
  function ClampUnit(x: real): (r: real)
    ensures 0.0 <= r <= 1.0
    ensures 0.0 <= x <= 1.0 ==> r == x
  {
    if x > 1.0 then 1.0 else if x < 0.0 then 0.0 else x
  }

  function LowerChar(c: char): char {
    if 'A' <= c <= 'Z' then (c as int + 32) as char else c
  }

  /** Lower case of the ASCII letters. */
  function Lower(s: string): (t: string)
    ensures |t| == |s|
  {
    seq(|s|, i requires 0 <= i < |s| => LowerChar(s[i]))
  }

  lemma {:induction false} OnceEach<T>(s: seq<T>, x: T)
    requires forall i, j :: 0 <= i < j < |s| ==> s[i] != s[j]
    ensures multiset(s)[x] == if x in s then 1 else 0
  {
    if s != [] {
      var n := |s| - 1;
      assert s == s[..n] + [s[n]];
      OnceEach(s[..n], x);
    }
  }
}
