/**
 Internal rate of return: net present value, the scan for a bracket and the bisection,
 over exact reals.
 */
module Irr {
  import opened Common
  import opened Powers

  const LOW: real := -0.99
  const HIGH: real := 10.0
  const SCAN_STEPS: nat := 1000
  const VALUE_TOLERANCE: real := 0.000001
  const WIDTH_TOLERANCE: real := 0.0000001

  /** Sum of flow t divided by (1 + rate)^t. */
  function Npv(flows: seq<real>, rate: real): real
    requires -1.0 < rate
  {
    if flows == [] then 0.0
    else
      var t := |flows| - 1;
      PowPositive(1.0 + rate, t);
      Npv(flows[..t], rate) + flows[t] / Pow(1.0 + rate, t)
  }

  method ComputeNpv(flows: seq<real>, rate: real) returns (total: real)
    requires -1.0 < rate
    ensures total == Npv(flows, rate)
  {
    total := 0.0;
    for t := 0 to |flows|
      invariant total == Npv(flows[..t], rate)
    {
      PowPositive(1.0 + rate, t);
      assert flows[..t + 1][..t] == flows[..t];
      total := total + flows[t] / Pow(1.0 + rate, t);
    }
    assert flows[..|flows|] == flows;
  }

  function ScanRate(step: nat): (r: real)
    ensures step <= SCAN_STEPS ==> LOW <= r <= HIGH
  {
    LOW + step as real * (HIGH - LOW) / SCAN_STEPS as real
  }

  ghost predicate OppositeSigns(flows: seq<real>, low: real, high: real)
    requires -1.0 < low && -1.0 < high
  {
    Npv(flows, low) < 0.0 < Npv(flows, high) || Npv(flows, high) < 0.0 < Npv(flows, low)
  }

  /** A rate the search may return: an almost-zero of the NPV or the middle of a tight bracket. */
  ghost predicate Acceptable(flows: seq<real>, rate: real)
  {
    && LOW <= rate <= HIGH
    && (|| Abs(Npv(flows, rate)) < VALUE_TOLERANCE
        || exists low, high :: TightBracket(flows, low, high, rate))
  }

  ghost predicate TightBracket(flows: seq<real>, low: real, high: real, rate: real) {
    && LOW <= low < rate < high <= HIGH
    && high - low < WIDTH_TOLERANCE
    && OppositeSigns(flows, low, high)
  }

  /** Some flow is positive and some flow is negative. */
  predicate MixedSigns(flows: seq<real>) {
    (exists i :: 0 <= i < |flows| && flows[i] > 0.0) && (exists i :: 0 <= i < |flows| && flows[i] < 0.0)
  }

  /** The bisection without any cap on the number of halvings. */
  function Bisect(flows: seq<real>, low: real, high: real): (rate: real)
    requires LOW <= low < high <= HIGH
    ensures low < rate < high
    decreases ((high - low) / WIDTH_TOLERANCE).Floor
  {
    var mid := (low + high) / 2.0;
    if Abs(Npv(flows, mid)) < VALUE_TOLERANCE || high - low < WIDTH_TOLERANCE then mid
    else
      HalvingProgress((high - low) / WIDTH_TOLERANCE);
      if Npv(flows, mid) * Npv(flows, low) < 0.0 then Bisect(flows, low, mid)
      else Bisect(flows, mid, high)
  }

  lemma HalvingProgress(w: real)
    requires 1.0 <= w
    ensures 0 <= (w / 2.0).Floor < w.Floor
  {
  }

  lemma {:induction false} BisectAcceptable(flows: seq<real>, low: real, high: real)
    requires LOW <= low < high <= HIGH && OppositeSigns(flows, low, high)
    ensures Acceptable(flows, Bisect(flows, low, high))
    decreases ((high - low) / WIDTH_TOLERANCE).Floor
  {
    var mid := (low + high) / 2.0;
    if Abs(Npv(flows, mid)) < VALUE_TOLERANCE {
    } else if high - low < WIDTH_TOLERANCE {
      assert TightBracket(flows, low, high, mid);
    } else {
      HalvingProgress((high - low) / WIDTH_TOLERANCE);
      SignOfProduct(Npv(flows, mid), Npv(flows, low));
      if Npv(flows, mid) * Npv(flows, low) < 0.0 {
        BisectAcceptable(flows, low, mid);
      } else {
        BisectAcceptable(flows, mid, high);
      }
    }
  }

  lemma SignOfProduct(a: real, b: real)
    ensures a * b < 0.0 <==> (a < 0.0 < b || b < 0.0 < a)
    ensures a * b > 0.0 <==> ((a < 0.0 && b < 0.0) || (0.0 < a && 0.0 < b))
  {
  }

  /** What the scan finds from a given step on: a root on the grid, a bracket, or nothing. */
  datatype ScanResult = Root(rate: real) | Bracket(low: real, high: real) | Nothing

  function Scan(flows: seq<real>, step: nat): (found: ScanResult)
    requires 1 <= step <= SCAN_STEPS
    ensures found.Root? ==> LOW <= found.rate <= HIGH
    ensures found.Bracket? ==> LOW <= found.low < found.high <= HIGH
    decreases SCAN_STEPS - step
  {
    if step == SCAN_STEPS then Nothing
    else
      var v := Npv(flows, ScanRate(step));
      if v == 0.0 then Root(ScanRate(step))
      else if v * Npv(flows, ScanRate(step - 1)) < 0.0 then Bracket(ScanRate(step - 1), ScanRate(step))
      else Scan(flows, step + 1)
  }

  /** _irr without its cap of 200 halvings. */
  function Rate(flows: seq<real>): (rate: Option<real>)
    ensures rate.Some? ==> LOW <= rate.value <= HIGH
  {
    if !MixedSigns(flows) then None
    else if Npv(flows, LOW) == 0.0 then Some(LOW)
    else if Npv(flows, HIGH) == 0.0 then Some(HIGH)
    else if Npv(flows, LOW) * Npv(flows, HIGH) > 0.0 then
      match Scan(flows, 1)
      case Root(rate) => Some(rate)
      case Bracket(low, high) => Some(Bisect(flows, low, high))
      case Nothing => None
    else Some(Bisect(flows, LOW, HIGH))
  }

  lemma {:induction false} ScanSound(flows: seq<real>, step: nat)
    requires 1 <= step <= SCAN_STEPS
    requires Npv(flows, ScanRate(step - 1)) != 0.0
    ensures match Scan(flows, step)
            case Root(rate) => LOW <= rate <= HIGH && Npv(flows, rate) == 0.0
            case Bracket(low, high) => LOW <= low < high <= HIGH && OppositeSigns(flows, low, high)
            case Nothing => true
    decreases SCAN_STEPS - step
  {
    if step < SCAN_STEPS {
      var v := Npv(flows, ScanRate(step));
      SignOfProduct(v, Npv(flows, ScanRate(step - 1)));
      if v != 0.0 && v * Npv(flows, ScanRate(step - 1)) >= 0.0 {
        ScanSound(flows, step + 1);
      }
    }
  }

  /** Whatever _irr returns lies in the search range and is an acceptable rate. */
  lemma {:induction false} RateSound(flows: seq<real>)
    ensures Rate(flows).Some? ==> MixedSigns(flows) && Acceptable(flows, Rate(flows).value)
  {
    var fl, fh := Npv(flows, LOW), Npv(flows, HIGH);
    SignOfProduct(fl, fh);
    if MixedSigns(flows) && fl != 0.0 && fh != 0.0 {
      if fl * fh > 0.0 {
        ScanSound(flows, 1);
        match Scan(flows, 1) {
          case Bracket(low, high) => BisectAcceptable(flows, low, high);
          case _ =>
        }
      } else {
        BisectAcceptable(flows, LOW, HIGH);
      }
    }
  }

  // ---------------------------------------------------------------------------
  // When a rate is returned, for any flows
  // ---------------------------------------------------------------------------

  /** Both NPVs are positive, or both negative. */
  ghost predicate SameSign(flows: seq<real>, r: real, s: real)
    requires -1.0 < r && -1.0 < s
  {
    (Npv(flows, r) < 0.0 && Npv(flows, s) < 0.0) || (0.0 < Npv(flows, r) && 0.0 < Npv(flows, s))
  }

  /** Up to a grid rate the NPV has kept the sign it has at the lower end. */
  ghost predicate KeepsSign(flows: seq<real>, n: int)
    requires n < SCAN_STEPS
  {
    forall k :: 0 <= k <= n ==> SameSign(flows, LOW, ScanRate(k))
  }

  /** At grid rate k the NPV vanishes or changes sign for the first time, and rate lies in the step that leads there. */
  ghost predicate FirstCrossing(flows: seq<real>, k: nat, rate: real) {
    && 1 <= k < SCAN_STEPS && KeepsSign(flows, k - 1) && !SameSign(flows, LOW, ScanRate(k))
    && ScanRate(k - 1) < rate <= ScanRate(k)
    && (rate == ScanRate(k) <==> Npv(flows, ScanRate(k)) == 0.0)
  }

  /** A step of the grid holds the first crossing. */
  ghost predicate StepOf(flows: seq<real>, k: nat, low: real, high: real) {
    && 1 <= k < SCAN_STEPS && low == ScanRate(k - 1) && high == ScanRate(k)
    && forall r :: low < r < high ==> FirstCrossing(flows, k, r)
  }

  /** What the scan makes of the grid. */
  ghost predicate Crossing(flows: seq<real>, found: ScanResult) {
    && (found.Nothing? ==> KeepsSign(flows, SCAN_STEPS - 1))
    && (found.Root? ==> exists k :: FirstCrossing(flows, k, found.rate))
    && (found.Bracket? ==> exists k :: StepOf(flows, k, found.low, found.high))
  }

  lemma {:induction false} ScanFinds(flows: seq<real>, step: nat)
    requires 1 <= step <= SCAN_STEPS && KeepsSign(flows, step - 1)
    ensures Crossing(flows, Scan(flows, step))
    decreases SCAN_STEPS - step
  {
    hide Npv;
    if step < SCAN_STEPS {
      var v := Npv(flows, ScanRate(step));
      assert SameSign(flows, LOW, ScanRate(step - 1));
      GridRises(step);
      SignOfProduct(v, Npv(flows, ScanRate(step - 1)));
      if v == 0.0 {
        assert FirstCrossing(flows, step, ScanRate(step));
      } else if v * Npv(flows, ScanRate(step - 1)) < 0.0 {
        assert StepOf(flows, step, ScanRate(step - 1), ScanRate(step));
      } else {
        assert SameSign(flows, LOW, ScanRate(step));
        ScanFinds(flows, step + 1);
      }
    }
  }

  lemma GridRises(step: nat)
    requires 1 <= step <= SCAN_STEPS
    ensures ScanRate(step - 1) < ScanRate(step) && ScanRate(0) == LOW
  {
  }

  /**
   For any flows no rate is returned exactly when no flow is negative, or none positive, or the NPV has
   one strict sign at all thousand grid rates and at the upper end.
   */
  lemma {:induction false} NoRateIff(flows: seq<real>)
    ensures Rate(flows) == None <==>
            || (forall i :: 0 <= i < |flows| ==> flows[i] >= 0.0)
            || (forall i :: 0 <= i < |flows| ==> flows[i] <= 0.0)
            || (KeepsSign(flows, SCAN_STEPS - 1) && SameSign(flows, LOW, HIGH))
  {
    hide Npv, Bisect, KeepsSign, Crossing;
    SignOfProduct(Npv(flows, LOW), Npv(flows, HIGH));
    if MixedSigns(flows) && SameSign(flows, LOW, HIGH) {
      StartsThere(flows);
      ScanFinds(flows, 1);
      CrossingBreaks(flows, Scan(flows, 1));
    }
  }

  lemma StartsThere(flows: seq<real>)
    requires Npv(flows, LOW) != 0.0
    ensures KeepsSign(flows, 0)
  {
    hide Npv;
    GridRises(1);
  }

  lemma CrossingBreaks(flows: seq<real>, found: ScanResult)
    requires Crossing(flows, found)
    ensures found == Nothing <==> KeepsSign(flows, SCAN_STEPS - 1)
  {
    hide Npv, ScanRate;
    if found.Bracket? {
      var k :| StepOf(flows, k, found.low, found.high);
      GridRises(k);
      assert FirstCrossing(flows, k, (found.low + found.high) / 2.0);
    }
  }

  /** Where the end points agree, the rate lies in the first grid step at which the NPV vanishes or changes sign. */
  lemma {:induction false} RateInFirstCrossing(flows: seq<real>)
    requires SameSign(flows, LOW, HIGH) && Rate(flows).Some?
    ensures exists k :: FirstCrossing(flows, k, Rate(flows).value)
  {
    hide Npv;
    SignOfProduct(Npv(flows, LOW), Npv(flows, HIGH));
    StartsThere(flows);
    ScanFinds(flows, 1);
    var found := Scan(flows, 1);
    hide KeepsSign, ScanRate;
    if found.Bracket? {
      var k :| StepOf(flows, k, found.low, found.high);
      assert FirstCrossing(flows, k, Rate(flows).value);
    }
  }

  // ---------------------------------------------------------------------------
  // The search as the source runs it
  // ---------------------------------------------------------------------------

  lemma TwoToThe27()
    ensures Pow(2.0, 27) == 134217728.0
  {
    assert Pow(2.0, 3) == 8.0;
    PowAdd(2.0, 3, 3);
    PowAdd(2.0, 3, 6);
    PowAdd(2.0, 9, 9);
    PowAdd(2.0, 9, 18);
  }

  /** The width after i halvings of a bracket of width width0. */
  ghost predicate Halved(width: real, width0: real, i: nat) {
    width * Pow(2.0, i) == width0
  }

  /** After 27 halvings no bracket inside the search range is still wide. */
  lemma NarrowAfter27(width: real, width0: real, i: nat)
    requires 27 <= i && Halved(width, width0, i) && width0 <= HIGH - LOW && 0.0 < width
    ensures width < WIDTH_TOLERANCE
  {
    TwoToThe27();
    PowAdd(2.0, i - 27, 27);
    if i > 27 { PowAboveOne(2.0, i - 27); }
    MulMono(1.0, Pow(2.0, i - 27), 134217728.0);
    MulMono(134217728.0, Pow(2.0, i), width);
  }

  lemma HalveAgain(width: real, width0: real, i: nat)
    ensures Halved(width, width, 0)
    ensures Halved(width, width0, i) ==> Halved(width / 2.0, width0, i + 1)
  {
    assert width / 2.0 * (2.0 * Pow(2.0, i)) == width * Pow(2.0, i);
  }

  lemma BisectStep(flows: seq<real>, low: real, high: real)
    requires LOW <= low < high <= HIGH
    ensures var mid := (low + high) / 2.0;
            Bisect(flows, low, high) ==
            if Abs(Npv(flows, mid)) < VALUE_TOLERANCE || high - low < WIDTH_TOLERANCE then mid
            else if Npv(flows, mid) * Npv(flows, low) < 0.0 then Bisect(flows, low, mid)
            else Bisect(flows, mid, high)
  {
  }

  /** The bisection of _irr; the return after its 200 rounds is dead code. */
  method Bisection(flows: seq<real>, low0: real, high0: real) returns (rate: real)
    requires LOW <= low0 < high0 <= HIGH
    ensures rate == Bisect(flows, low0, high0)
  {
    hide Npv, Halved, Bisect;
    var low, high := low0, high0;
    var fLow := ComputeNpv(flows, low);
    HalveAgain(high - low, high0 - low0, 0);
    for i := 0 to 200
      invariant i <= 27
      invariant LOW <= low < high <= HIGH
      invariant fLow == Npv(flows, low)
      invariant Halved(high - low, high0 - low0, i)
      invariant Bisect(flows, low, high) == Bisect(flows, low0, high0)
    {
      var mid := (low + high) / 2.0;
      var fMid := ComputeNpv(flows, mid);
      BisectStep(flows, low, high);
      if Abs(fMid) < VALUE_TOLERANCE || high - low < WIDTH_TOLERANCE {
        return mid;
      }
      if i == 27 {
        NarrowAfter27(high - low, high0 - low0, i);
      }
      HalveAgain(high - low, high0 - low0, i);
      assert (high - low) / 2.0 == mid - low == high - mid;
      if fMid * fLow < 0.0 {
        high := mid;
      } else {
        low, fLow := mid, fMid;
      }
    }
    assert false;
    return low;
  }

  lemma ScanStep(flows: seq<real>, step: nat)
    requires 1 <= step < SCAN_STEPS
    ensures var v := Npv(flows, ScanRate(step));
            Scan(flows, step) ==
            if v == 0.0 then Root(ScanRate(step))
            else if v * Npv(flows, ScanRate(step - 1)) < 0.0 then Bracket(ScanRate(step - 1), ScanRate(step))
            else Scan(flows, step + 1)
  {
    hide Npv, ScanRate;
  }

  lemma ScanEnds(flows: seq<real>)
    ensures Scan(flows, SCAN_STEPS) == Nothing
  {
  }

  /** _irr. */
  method ComputeIrr(flows: seq<real>) returns (rate: Option<real>)
    ensures rate == Rate(flows)
  {
    hide Npv, Bisect, Scan;
    if !MixedSigns(flows) {
      return None;
    }
    var low, high := LOW, HIGH;
    var fLow := ComputeNpv(flows, low);
    var fHigh := ComputeNpv(flows, high);
    if fLow == 0.0 {
      return Some(low);
    }
    if fHigh == 0.0 {
      return Some(high);
    }
    if fLow * fHigh > 0.0 {
      var bracket := Nothing;
      var prevRate, prevVal := low, fLow;
      for step := 1 to SCAN_STEPS
        invariant bracket == Nothing
        invariant prevRate == ScanRate(step - 1) && prevVal == Npv(flows, prevRate)
        invariant Scan(flows, step) == Scan(flows, 1)
      {
        ScanStep(flows, step);
        var r := LOW + step as real * (HIGH - LOW) / SCAN_STEPS as real;
        var v := ComputeNpv(flows, r);
        if v == 0.0 {
          return Some(r);
        }
        if v * prevVal < 0.0 {
          bracket := Bracket(prevRate, r);
          break;
        }
        prevRate, prevVal := r, v;
      }
      if bracket == Nothing {
        ScanEnds(flows);
        return None;
      }
      low, high := bracket.low, bracket.high;
    }
    var found := Bisection(flows, low, high);
    return Some(found);
  }

  // ---------------------------------------------------------------------------
  // Conventional deals: pay first, receive after
  // ---------------------------------------------------------------------------

  /** Money out first and only money in afterwards, at least some of it. */
  ghost predicate Conventional(flows: seq<real>) {
    && 0 < |flows| && flows[0] < 0.0
    && (forall t :: 1 <= t < |flows| ==> 0.0 <= flows[t])
    && (exists t :: 1 <= t < |flows| && 0.0 < flows[t])
  }

  lemma {:induction false} NpvAntitone(flows: seq<real>, r: real, s: real)
    requires -1.0 < r < s
    requires forall t :: 1 <= t < |flows| ==> 0.0 <= flows[t]
    ensures Npv(flows, s) <= Npv(flows, r)
    ensures (exists t :: 1 <= t < |flows| && 0.0 < flows[t]) ==> Npv(flows, s) < Npv(flows, r)
  {
    if flows != [] {
      var n := |flows| - 1;
      var front := flows[..n];
      NpvAntitone(front, r, s);
      PowMono(1.0 + r, 1.0 + s, n);
      PowPositive(1.0 + r, n);
      if n > 0 {
        Discounted(flows[n], Pow(1.0 + r, n), Pow(1.0 + s, n));
        if flows[n] == 0.0 && exists t :: 1 <= t < |flows| && 0.0 < flows[t] {
          var t :| 1 <= t < |flows| && 0.0 < flows[t];
          assert front[t] == flows[t];
        }
      }
    }
  }

  lemma Discounted(flow: real, p: real, q: real)
    requires 0.0 < p < q && 0.0 <= flow
    ensures flow / q <= flow / p
    ensures 0.0 < flow ==> flow / q < flow / p
  {
    var a, b := flow / p, flow / q;
    assert a * p == flow == b * q;
    assert 0.0 <= b;
    assert (a - b) * p == b * (q - p);
  }

  /** The NPV of a conventional deal strictly falls as the rate rises. */
  lemma NpvStrictlyDecreasing(flows: seq<real>, r: real, s: real)
    requires Conventional(flows) && -1.0 < r < s
    ensures Npv(flows, s) < Npv(flows, r)
  {
    NpvAntitone(flows, r, s);
  }

  /** So it has at most one internal rate of return above -100 percent. */
  lemma AtMostOneRoot(flows: seq<real>, r: real, s: real)
    requires Conventional(flows) && -1.0 < r && -1.0 < s
    requires Npv(flows, r) == 0.0 && Npv(flows, s) == 0.0
    ensures r == s
  {
    if r < s {
      NpvAntitone(flows, r, s);
    } else if s < r {
      NpvAntitone(flows, s, r);
    }
  }

  /** When both end points have the same sign the 1000-point scan finds nothing either. */
  lemma {:induction false} ScanFindsNothing(flows: seq<real>, step: nat)
    requires Conventional(flows) && 1 <= step <= SCAN_STEPS
    requires Npv(flows, LOW) < 0.0 || 0.0 < Npv(flows, HIGH)
    ensures Scan(flows, step) == Nothing
    decreases SCAN_STEPS - step
  {
    if step < SCAN_STEPS {
      SameSignEverywhere(flows, ScanRate(step));
      SameSignEverywhere(flows, ScanRate(step - 1));
      SignOfProduct(Npv(flows, ScanRate(step)), Npv(flows, ScanRate(step - 1)));
      ScanFindsNothing(flows, step + 1);
    }
  }

  lemma SameSignEverywhere(flows: seq<real>, r: real)
    requires Conventional(flows) && LOW <= r <= HIGH
    ensures Npv(flows, LOW) < 0.0 ==> Npv(flows, r) < 0.0
    ensures 0.0 < Npv(flows, HIGH) ==> 0.0 < Npv(flows, r)
  {
    if LOW < r { NpvAntitone(flows, LOW, r); }
    if r < HIGH { NpvAntitone(flows, r, HIGH); }
  }

  /** For a conventional deal a rate is returned exactly when the end points bracket zero. */
  lemma {:induction false} ConventionalRateExists(flows: seq<real>)
    requires Conventional(flows)
    ensures Rate(flows).Some? <==> Npv(flows, HIGH) <= 0.0 <= Npv(flows, LOW)
  {
    var t :| 1 <= t < |flows| && 0.0 < flows[t];
    assert MixedSigns(flows);
    NpvStrictlyDecreasing(flows, LOW, HIGH);
    SignOfProduct(Npv(flows, LOW), Npv(flows, HIGH));
    if Npv(flows, LOW) < 0.0 || 0.0 < Npv(flows, HIGH) {
      ScanFindsNothing(flows, 1);
    }
  }

  /** If the deal has a true rate in the search range, _irr returns it up to its tolerances. */
  lemma {:induction false} ConventionalRateNearRoot(flows: seq<real>, root: real)
    requires Conventional(flows) && LOW <= root <= HIGH && Npv(flows, root) == 0.0
    ensures Rate(flows).Some?
    ensures var rate := Rate(flows).value;
            Abs(Npv(flows, rate)) < VALUE_TOLERANCE || Abs(rate - root) < WIDTH_TOLERANCE
  {
    SameSignEverywhere(flows, root);
    ConventionalRateExists(flows);
    RateSound(flows);
    var rate := Rate(flows).value;
    if Abs(Npv(flows, rate)) >= VALUE_TOLERANCE {
      var low, high :| TightBracket(flows, low, high, rate);
      if root <= low { Antitone(flows, root, low); Antitone(flows, low, high); }
      if high <= root { Antitone(flows, high, root); Antitone(flows, low, high); }
    }
  }

  lemma Antitone(flows: seq<real>, r: real, s: real)
    requires Conventional(flows) && -1.0 < r <= s
    ensures Npv(flows, s) <= Npv(flows, r)
  {
    if r < s { NpvAntitone(flows, r, s); }
  }
}
