/** What each ingredient of a drift step does to its outcome. */
module DriftLaws {
  import opened Common
  import opened Rounding
  import opened OpinionDrift

  // ---------------------------------------------------------------------------
  // What is heard
  // ---------------------------------------------------------------------------

  /** The pull of all voices on a point, each by its weight and its distance. */
  function Pull(heard: seq<Heard>, x: real): real {
    if heard == [] then 0.0
    else Pull(heard[..|heard| - 1], x) + Product(heard[|heard| - 1].opinion - x, heard[|heard| - 1].weight)
  }

  lemma {:induction false} PullIsDifference(heard: seq<Heard>, x: real)
    ensures Pull(heard, x) == WeightedSum(heard) - Product(x, TotalWeight(heard))
  {
    if heard != [] {
      var n := |heard| - 1;
      PullIsDifference(heard[..n], x);
      Spread1(heard[n].opinion, x, heard[n].weight);
      ProductAdds(x, TotalWeight(heard[..n]), heard[n].weight);
      hide Product;
    }
  }

  lemma Spread1(o: real, x: real, w: real)
    ensures Product(o - x, w) == Product(o, w) - Product(x, w)
  {
  }

  /** The peer average is the one point on which all voices balance. */
  lemma AverageBalances(current: real, heard: seq<Heard>, x: real)
    requires TotalWeight(heard) > 0.0
    ensures Pull(heard, x) == 0.0 <==> x == PeerAverage(current, heard)
  {
    PullIsDifference(heard, x);
    var w, sum := TotalWeight(heard), WeightedSum(heard);
    hide Pull, WeightedSum, TotalWeight;
    Balance(x, sum, w);
  }

  lemma Balance(x: real, sum: real, w: real)
    requires w > 0.0
    ensures sum - Product(x, w) == 0.0 <==> x == sum / w
  {
    var q := sum / w;
    assert q * w == sum;
    assert (x - q) * w == x * w - q * w;
  }

  // ---------------------------------------------------------------------------
  // Stability
  // ---------------------------------------------------------------------------

  /** A fully stable household keeps a four-decimal opinion whatever it hears. */
  lemma FullStabilityKeeps(current: real, heard: seq<Heard>)
    requires FourDecimal(current) && -1.0 <= current <= 1.0
    ensures Drift(Household(Some(1.0)), current, heard, 0.0) == current
  {
    Round4Fixes(current);
    hide PeerAverage, Round4, FourDecimal;
  }

  /** Between its own opinion and its peers a more stable household never moves further. */
  lemma StablerMovesLess(s: real, t: real, current: real, heard: seq<Heard>)
    requires 0.0 < s <= t <= 1.0
    requires FourDecimal(current) && -1.0 <= current <= 1.0 && -1.0 <= PeerAverage(current, heard) <= 1.0
    ensures var bold := Drift(Household(Some(s)), current, heard, 0.0);
            var calm := Drift(Household(Some(t)), current, heard, 0.0);
            current <= calm <= bold || bold <= calm <= current
  {
    var peers := PeerAverage(current, heard);
    Round4Fixes(current);
    Closer(s, t, current, peers);
    var x, y := Blend(s, current, peers), Blend(t, current, peers);
    hide PeerAverage, Round4, FourDecimal, Blend;
    if current <= peers {
      Round4Monotone(current, y);
      Round4Monotone(y, x);
    } else {
      Round4Monotone(y, current);
      Round4Monotone(x, y);
    }
  }

  lemma Closer(s: real, t: real, current: real, peers: real)
    requires 0.0 <= s <= t <= 1.0
    ensures current <= peers ==> current <= Blend(t, current, peers) <= Blend(s, current, peers) <= peers
    ensures peers <= current ==> peers <= Blend(s, current, peers) <= Blend(t, current, peers) <= current
  {
    var gap := peers - current;
    assert Blend(s, current, peers) == current + (1.0 - s) * gap;
    assert Blend(t, current, peers) == current + (1.0 - t) * gap;
    if current <= peers {
      ScaledWithin(1.0 - t, 1.0 - s, 1.0, gap);
      ScaledWithin(0.0, 1.0 - t, 1.0, gap);
    } else {
      ScaledWithin(1.0 - t, 1.0 - s, 1.0, -gap);
      ScaledWithin(0.0, 1.0 - t, 1.0, -gap);
    }
  }

  /** Half way between: a household of stability 0.5 moves to the middle of its opinion and its peers. */
  lemma HalfMeets(current: real, heard: seq<Heard>)
    requires -1.0 <= current <= 1.0 && -1.0 <= PeerAverage(current, heard) <= 1.0
    ensures Drift(Household(None), current, heard, 0.0) == Round4((current + PeerAverage(current, heard)) / 2.0)
  {
    hide PeerAverage, Round4;
  }

  // ---------------------------------------------------------------------------
  // The language model's push
  // ---------------------------------------------------------------------------

  /** Who hears no one moves by a tenth of the push, as far as the range goes. */
  lemma AloneMovesByPush(h: Household, current: real, heard: seq<Heard>, llmDelta: real)
    requires TotalWeight(heard) <= 0.0
    ensures Drift(h, current, heard, llmDelta) == Round4(ClampSigned(current + llmDelta / 10.0))
  {
    hide TotalWeight, Round4;
    assert Blend(Stability(h), current, current) == current;
  }

  /** A stronger push never ends lower. */
  lemma PushRaises(h: Household, current: real, heard: seq<Heard>, a: real, b: real)
    requires a <= b
    ensures Drift(h, current, heard, a) <= Drift(h, current, heard, b)
  {
    hide PeerAverage, Blend, Round4;
    var x := Blend(Stability(h), current, PeerAverage(current, heard));
    Round4Monotone(ClampSigned(x + 0.1 * a), ClampSigned(x + 0.1 * b));
  }
}
