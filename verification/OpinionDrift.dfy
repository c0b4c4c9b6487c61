/**
 Opinion drift on the household graph: the constructor spreads every edge to both of its ends, a
 household hears its neighbours, and its opinion moves towards their weighted average.
 */
module OpinionDrift {
  import opened Common
  import opened Rounding

  datatype Edge = Edge(source: string, target: string, weight: real, kind: string)

  datatype Link = Link(neighbor: string, weight: real, kind: string)

  /** The opinion_stability attribute, absent or null being None. */
  datatype Household = Household(stability: Option<real>)

  datatype Heard = Heard(id: string, opinion: real, weight: real)

  type Opinions = map<string, map<string, real>>

  // ---------------------------------------------------------------------------
  // The graph
  // ---------------------------------------------------------------------------

  function LinksOfEdge(e: Edge, id: string): seq<Link> {
    (if e.source == id then [Link(e.target, e.weight, e.kind)] else [])
    + (if e.target == id then [Link(e.source, e.weight, e.kind)] else [])
  }

  function LinksOf(edges: seq<Edge>, id: string): seq<Link> {
    if edges == [] then []
    else LinksOf(edges[..|edges| - 1], id) + LinksOfEdge(edges[|edges| - 1], id)
  }

  /** neighbors.get(id, []). */
  function LinksIn(neighbors: map<string, seq<Link>>, id: string): seq<Link> {
    if id in neighbors then neighbors[id] else []
  }

  /** neighbors[id].append(link) on a defaultdict. */
  function Append(neighbors: map<string, seq<Link>>, id: string, link: Link): map<string, seq<Link>> {
    neighbors[id := LinksIn(neighbors, id) + [link]]
  }

  lemma BothEnds(neighbors: map<string, seq<Link>>, e: Edge, id: string)
    ensures var there := Append(neighbors, e.source, Link(e.target, e.weight, e.kind));
            var back := Append(there, e.target, Link(e.source, e.weight, e.kind));
            LinksIn(back, id) == LinksIn(neighbors, id) + LinksOfEdge(e, id)
  {
  }

  /** What a household has to say on a topic. */
  function Voice(opinions: Opinions, id: string, topic: string): real
    requires id in opinions
  {
    if topic in opinions[id] then opinions[id][topic] else 0.0
  }

  /** Neighbours with an opinion record and a household, each with its voice and edge weight. */
  function HeardFrom(links: seq<Link>, households: map<string, Household>, opinions: Opinions,
                     topic: string): seq<Heard> {
    if links == [] then []
    else
      var link := links[|links| - 1];
      HeardFrom(links[..|links| - 1], households, opinions, topic)
      + (if link.neighbor in opinions && link.neighbor in households
         then [Heard(link.neighbor, Voice(opinions, link.neighbor, topic), link.weight)] else [])
  }

  // ---------------------------------------------------------------------------
  // The formula
  // ---------------------------------------------------------------------------

  /** An absent stability counts as 0.5, and so does a stability of zero. */
  function Stability(h: Household): real {
    if h.stability.None? || h.stability.value == 0.0 then 0.5 else h.stability.value
  }

  function TotalWeight(heard: seq<Heard>): real {
    if heard == [] then 0.0 else TotalWeight(heard[..|heard| - 1]) + heard[|heard| - 1].weight
  }

  function Product(x: real, y: real): real { x * y }

  function WeightedSum(heard: seq<Heard>): real {
    if heard == [] then 0.0
    else WeightedSum(heard[..|heard| - 1]) + Product(heard[|heard| - 1].opinion, heard[|heard| - 1].weight)
  }

  /** The weighted average of what is heard; the household's own opinion when nothing carries weight. */
  function PeerAverage(current: real, heard: seq<Heard>): real {
    if TotalWeight(heard) > 0.0 then WeightedSum(heard) / TotalWeight(heard) else current
  }

  function Blend(stability: real, current: real, peers: real): real {
    stability * current + (1.0 - stability) * peers
  }

  /** apply_opinion_drift. */
  function Drift(h: Household, current: real, heard: seq<Heard>, llmDelta: real): real {
    Round4(ClampSigned(Blend(Stability(h), current, PeerAverage(current, heard)) + 0.1 * llmDelta))
  }

  /** The constructor's loop: every edge is entered at both of its ends. */
  method Spread(edges: seq<Edge>) returns (neighbors: map<string, seq<Link>>)
    ensures forall id :: LinksIn(neighbors, id) == LinksOf(edges, id)
  {
    neighbors := map[];
    for i := 0 to |edges|
      invariant forall id :: LinksIn(neighbors, id) == LinksOf(edges[..i], id)
    {
      hide Append, LinksIn, LinksOfEdge;
      var e := edges[i];
      assert edges[..i + 1][..i] == edges[..i];
      forall id {
        BothEnds(neighbors, e, id);
      }
      neighbors := Append(neighbors, e.source, Link(e.target, e.weight, e.kind));
      neighbors := Append(neighbors, e.target, Link(e.source, e.weight, e.kind));
    }
    assert edges[..|edges|] == edges;
  }

  class SocialReactionRuntime {
    const households: map<string, Household>
    var neighbors: map<string, seq<Link>>
    var opinions: Opinions

    constructor (households: map<string, Household>, edges: seq<Edge>, opinions: Opinions)
      ensures this.households == households && this.opinions == opinions
      ensures forall id :: LinksIn(neighbors, id) == LinksOf(edges, id)
    {
      this.households, this.opinions := households, opinions;
      this.neighbors := map[];
      new;
      neighbors := Spread(edges);
    }

    /** gather_neighbor_opinions. */
    method Gather(id: string, topic: string) returns (heard: seq<Heard>)
      ensures heard == HeardFrom(LinksIn(neighbors, id), households, opinions, topic)
    {
      heard := [];
      var links := if id in neighbors then neighbors[id] else [];
      for i := 0 to |links|
        invariant heard == HeardFrom(links[..i], households, opinions, topic)
      {
        assert links[..i + 1][..i] == links[..i];
        var link := links[i];
        if link.neighbor !in opinions {
          continue;
        }
        if link.neighbor !in households {
          continue;
        }
        var theirs := opinions[link.neighbor];
        heard := heard + [Heard(link.neighbor, if topic in theirs then theirs[topic] else 0.0, link.weight)];
      }
      assert links[..|links|] == links;
    }

    /** One household hears its neighbours and moves. */
    method Update(id: string, topic: string, llmDelta: real)
      requires id in households && id in opinions
      modifies this`opinions
      ensures opinions == Updated(households, neighbors, old(opinions), id, topic, llmDelta)
    {
      var heard := Gather(id, topic);
      var current := if topic in opinions[id] then opinions[id][topic] else 0.0;
      var moved := Drift(households[id], current, heard, llmDelta);
      opinions := opinions[id := opinions[id][topic := moved]];
    }
  }

  /** The opinions after one household has moved on a topic. */
  function Updated(households: map<string, Household>, neighbors: map<string, seq<Link>>, opinions: Opinions,
                   id: string, topic: string, llmDelta: real): Opinions
    requires id in households && id in opinions
  {
    var heard := HeardFrom(LinksIn(neighbors, id), households, opinions, topic);
    opinions[id := opinions[id][topic := Drift(households[id], Voice(opinions, id, topic), heard, llmDelta)]]
  }

  // ---------------------------------------------------------------------------
  // The graph is symmetric
  // ---------------------------------------------------------------------------

  function CountLink(links: seq<Link>, link: Link): nat {
    multiset(links)[link]
  }

  /** Each end of an edge hears the other, as often and with the same weights. */
  lemma {:induction false} LinksAreSymmetric(edges: seq<Edge>, a: string, b: string, weight: real, kind: string)
    ensures CountLink(LinksOf(edges, a), Link(b, weight, kind)) == CountLink(LinksOf(edges, b), Link(a, weight, kind))
  {
    if edges != [] {
      var n := |edges| - 1;
      LinksAreSymmetric(edges[..n], a, b, weight, kind);
      EdgeIsSymmetric(edges[n], a, b, weight, kind);
      hide LinksOfEdge;
      CountAdds(LinksOf(edges[..n], a), LinksOfEdge(edges[n], a), Link(b, weight, kind));
      CountAdds(LinksOf(edges[..n], b), LinksOfEdge(edges[n], b), Link(a, weight, kind));
      hide CountLink;
    }
  }

  lemma CountAdds(s: seq<Link>, t: seq<Link>, link: Link)
    ensures CountLink(s + t, link) == CountLink(s, link) + CountLink(t, link)
  {
  }

  lemma EdgeIsSymmetric(e: Edge, a: string, b: string, weight: real, kind: string)
    ensures CountLink(LinksOfEdge(e, a), Link(b, weight, kind)) == CountLink(LinksOfEdge(e, b), Link(a, weight, kind))
  {
    var to, from := [Link(e.target, e.weight, e.kind)], [Link(e.source, e.weight, e.kind)];
    assert LinksOfEdge(e, a) == (if e.source == a then to else []) + (if e.target == a then from else []);
    assert LinksOfEdge(e, b) == (if e.source == b then to else []) + (if e.target == b then from else []);
  }

  // ---------------------------------------------------------------------------
  // The envelope
  // ---------------------------------------------------------------------------

  /** Every household with an opinion record speaks within [low, high] on the topic. */
  ghost predicate Within(opinions: Opinions, households: map<string, Household>, topic: string, low: real, high: real) {
    forall id :: id in households && id in opinions ==> low <= Voice(opinions, id, topic) <= high
  }

  ghost predicate WeightsNonNegative(neighbors: map<string, seq<Link>>) {
    forall id, i :: id in neighbors && 0 <= i < |neighbors[id]| ==> neighbors[id][i].weight >= 0.0
  }

  ghost predicate StabilitiesInUnit(households: map<string, Household>) {
    forall id :: id in households && households[id].stability.Some? ==> 0.0 <= households[id].stability.value <= 1.0
  }

  ghost predicate HeardWithin(heard: seq<Heard>, low: real, high: real) {
    forall i :: 0 <= i < |heard| ==> heard[i].weight >= 0.0 && low <= heard[i].opinion <= high
  }

  lemma {:induction false} NeighboursWithin(links: seq<Link>, households: map<string, Household>, opinions: Opinions,
                                            topic: string, low: real, high: real)
    requires Within(opinions, households, topic, low, high)
    requires forall i :: 0 <= i < |links| ==> links[i].weight >= 0.0
    ensures HeardWithin(HeardFrom(links, households, opinions, topic), low, high)
  {
    hide Voice;
    if links != [] {
      NeighboursWithin(links[..|links| - 1], households, opinions, topic, low, high);
    }
  }

  lemma ScaledWithin(low: real, x: real, high: real, w: real)
    requires low <= x <= high && 0.0 <= w
    ensures Product(low, w) <= Product(x, w) <= Product(high, w)
  {
    assert 0.0 <= (x - low) * w;
    assert 0.0 <= (high - x) * w;
  }

  lemma ProductAdds(x: real, v: real, w: real)
    ensures Product(x, v) + Product(x, w) == Product(x, v + w)
  {
  }

  lemma {:induction false} SumWithin(heard: seq<Heard>, low: real, high: real)
    requires HeardWithin(heard, low, high)
    ensures Product(low, TotalWeight(heard)) <= WeightedSum(heard) <= Product(high, TotalWeight(heard))
  {
    if heard != [] {
      var n := |heard| - 1;
      SumWithin(heard[..n], low, high);
      ScaledWithin(low, heard[n].opinion, high, heard[n].weight);
      ProductAdds(low, TotalWeight(heard[..n]), heard[n].weight);
      ProductAdds(high, TotalWeight(heard[..n]), heard[n].weight);
      hide Product;
    }
  }

  lemma QuotientWithin(low: real, sum: real, high: real, w: real)
    requires 0.0 < w && Product(low, w) <= sum <= Product(high, w)
    ensures low <= sum / w <= high
  {
    var q := sum / w;
    assert q * w == sum;
    NotAbove(low, q, w);
    NotAbove(q, high, w);
  }

  lemma NotAbove(x: real, y: real, w: real)
    requires 0.0 < w && x * w <= y * w
    ensures x <= y
  {
    assert (y - x) * w == y * w - x * w;
  }

  lemma AverageWithin(current: real, heard: seq<Heard>, low: real, high: real)
    requires HeardWithin(heard, low, high) && low <= current <= high
    ensures low <= PeerAverage(current, heard) <= high
  {
    hide Product, WeightedSum, TotalWeight;
    SumWithin(heard, low, high);
    if TotalWeight(heard) > 0.0 {
      QuotientWithin(low, WeightedSum(heard), high, TotalWeight(heard));
    }
  }

  lemma BlendWithin(s: real, x: real, y: real, low: real, high: real)
    requires 0.0 <= s <= 1.0 && low <= x <= high && low <= y <= high
    ensures low <= Blend(s, x, y) <= high
  {
    assert 0.0 <= s * (x - low) && 0.0 <= (1.0 - s) * (y - low);
    assert 0.0 <= s * (high - x) && 0.0 <= (1.0 - s) * (high - y);
  }

  /** One drift step without a language-model push stays between the lowest and the highest voice. */
  lemma DriftWithin(h: Household, current: real, heard: seq<Heard>, low: real, high: real)
    requires h.stability.Some? ==> 0.0 <= h.stability.value <= 1.0
    requires HeardWithin(heard, low, high) && low <= current <= high
    requires FourDecimal(low) && FourDecimal(high) && -1.0 <= low && high <= 1.0
    ensures low <= Drift(h, current, heard, 0.0) <= high
  {
    hide Round4, FourDecimal, PeerAverage, Blend;
    var peers := PeerAverage(current, heard);
    AverageWithin(current, heard, low, high);
    BlendWithin(Stability(h), current, peers, low, high);
    Round4Stays(low, ClampSigned(Blend(Stability(h), current, peers)), high);
  }

  /** Whatever the inputs, the outcome is a four-decimal number in [-1, 1]. */
  lemma {:induction false} DriftInRange(h: Household, current: real, heard: seq<Heard>, llmDelta: real)
    ensures -1.0 <= Drift(h, current, heard, llmDelta) <= 1.0
    ensures FourDecimal(Drift(h, current, heard, llmDelta))
  {
    hide Round4, PeerAverage, Blend;
    var x := ClampSigned(Blend(Stability(h), current, PeerAverage(current, heard)) + 0.1 * llmDelta);
    Round4Stays(-1.0, x, 1.0);
    Round4FourDecimal(x);
  }

  /** A run of updates on one topic, one household after the other. */
  ghost function Run(households: map<string, Household>, neighbors: map<string, seq<Link>>, opinions: Opinions,
                     topic: string, ids: seq<string>): (r: Opinions)
    requires forall i :: 0 <= i < |ids| ==> ids[i] in households && ids[i] in opinions
    ensures r.Keys == opinions.Keys
  {
    if ids == [] then opinions
    else
      var n := |ids| - 1;
      Updated(households, neighbors, Run(households, neighbors, opinions, topic, ids[..n]), ids[n], topic, 0.0)
  }

  lemma UpdateStaysWithin(households: map<string, Household>, neighbors: map<string, seq<Link>>, opinions: Opinions,
                          id: string, topic: string, low: real, high: real)
    requires id in households && id in opinions
    requires WeightsNonNegative(neighbors) && StabilitiesInUnit(households)
    requires Within(opinions, households, topic, low, high)
    requires FourDecimal(low) && FourDecimal(high) && -1.0 <= low && high <= 1.0
    ensures Within(Updated(households, neighbors, opinions, id, topic, 0.0), households, topic, low, high)
  {
    hide Drift, FourDecimal;
    var links := LinksIn(neighbors, id);
    NeighboursWithin(links, households, opinions, topic, low, high);
    DriftWithin(households[id], Voice(opinions, id, topic), HeardFrom(links, households, opinions, topic), low, high);
  }

  /**
   No sequence of drift updates, in any order, carries a voice out of four-decimal bounds that held
   at the start, rounding included.
   */
  lemma {:induction false} RunStaysWithin(households: map<string, Household>, neighbors: map<string, seq<Link>>,
                                          opinions: Opinions, topic: string, ids: seq<string>, low: real, high: real)
    requires forall i :: 0 <= i < |ids| ==> ids[i] in households && ids[i] in opinions
    requires WeightsNonNegative(neighbors) && StabilitiesInUnit(households)
    requires Within(opinions, households, topic, low, high)
    requires FourDecimal(low) && FourDecimal(high) && -1.0 <= low && high <= 1.0
    ensures Within(Run(households, neighbors, opinions, topic, ids), households, topic, low, high)
  {
    hide Within, WeightsNonNegative, StabilitiesInUnit, FourDecimal, Updated;
    if ids != [] {
      var n := |ids| - 1;
      RunStaysWithin(households, neighbors, opinions, topic, ids[..n], low, high);
      var before := Run(households, neighbors, opinions, topic, ids[..n]);
      UpdateStaysWithin(households, neighbors, before, ids[n], topic, low, high);
    }
  }

  /** m is the highest voice on the topic. */
  ghost predicate IsHighest(opinions: Opinions, households: map<string, Household>, topic: string, m: real) {
    && (exists id :: id in households && id in opinions && Voice(opinions, id, topic) == m)
    && (forall id :: id in households && id in opinions ==> Voice(opinions, id, topic) <= m)
  }

  ghost predicate IsLowest(opinions: Opinions, households: map<string, Household>, topic: string, m: real) {
    && (exists id :: id in households && id in opinions && Voice(opinions, id, topic) == m)
    && (forall id :: id in households && id in opinions ==> m <= Voice(opinions, id, topic))
  }

  /** Every household holds a four-decimal opinion in [-1, 1] on the topic. */
  ghost predicate AllHold(opinions: Opinions, households: map<string, Household>, topic: string) {
    forall id :: id in households ==>
                   && id in opinions && topic in opinions[id]
                   && FourDecimal(opinions[id][topic]) && -1.0 <= opinions[id][topic] <= 1.0
  }

  /** Any run of updates leaves the highest opinion no higher and the lowest no lower. */
  lemma {:induction false} ExtremesNeverSpread(households: map<string, Household>, neighbors: map<string, seq<Link>>,
                                               opinions: Opinions, topic: string, ids: seq<string>, low: real,
                                               high: real, lowAfter: real, highAfter: real)
    requires AllHold(opinions, households, topic)
    requires forall i :: 0 <= i < |ids| ==> ids[i] in households && ids[i] in opinions
    requires WeightsNonNegative(neighbors) && StabilitiesInUnit(households)
    requires IsLowest(opinions, households, topic, low) && IsHighest(opinions, households, topic, high)
    requires var after := Run(households, neighbors, opinions, topic, ids);
             IsLowest(after, households, topic, lowAfter) && IsHighest(after, households, topic, highAfter)
    ensures low <= lowAfter <= highAfter <= high
  {
    var after := Run(households, neighbors, opinions, topic, ids);
    assert Within(opinions, households, topic, low, high);
    var a :| a in households && a in opinions && Voice(opinions, a, topic) == low;
    var b :| b in households && b in opinions && Voice(opinions, b, topic) == high;
    RunStaysWithin(households, neighbors, opinions, topic, ids, low, high);
    var c :| c in households && c in after && Voice(after, c, topic) == lowAfter;
    var d :| d in households && d in after && Voice(after, d, topic) == highAfter;
    assert Voice(after, c, topic) <= highAfter;
  }

  /** Agreement is a fixed point: where all voices are equal, no update moves anyone. */
  lemma {:induction false} ConsensusIsStable(households: map<string, Household>, neighbors: map<string, seq<Link>>,
                                             opinions: Opinions, topic: string, ids: seq<string>, c: real, id: string)
    requires forall i :: 0 <= i < |ids| ==> ids[i] in households && ids[i] in opinions
    requires WeightsNonNegative(neighbors) && StabilitiesInUnit(households)
    requires Within(opinions, households, topic, c, c) && FourDecimal(c) && -1.0 <= c <= 1.0
    requires id in households && id in opinions
    ensures Voice(Run(households, neighbors, opinions, topic, ids), id, topic) == c
  {
    RunStaysWithin(households, neighbors, opinions, topic, ids, c, c);
  }

  /** Other topics, and households that did not move, keep what they had. */
  lemma {:induction false} RunTouchesOnly(households: map<string, Household>, neighbors: map<string, seq<Link>>,
                                          opinions: Opinions, topic: string, ids: seq<string>, id: string,
                                          other: string)
    requires forall i :: 0 <= i < |ids| ==> ids[i] in households && ids[i] in opinions
    requires id in opinions && (other != topic || id !in ids)
    ensures Voice(Run(households, neighbors, opinions, topic, ids), id, other) == Voice(opinions, id, other)
  {
    hide Drift, HeardFrom;
    if ids != [] {
      RunTouchesOnly(households, neighbors, opinions, topic, ids[..|ids| - 1], id, other);
    }
  }

  /**
   A household that declares a stability of zero drifts as one that declares 0.5 or nothing. Before
   rounding it takes over the peer average, as zero stability would, only where it holds it already.
   */
  lemma ZeroStabilityIsHalf(current: real, heard: seq<Heard>, llmDelta: real)
    ensures Drift(Household(Some(0.0)), current, heard, llmDelta) ==
            Drift(Household(Some(0.5)), current, heard, llmDelta)
    ensures Drift(Household(Some(0.0)), current, heard, llmDelta) == Drift(Household(None), current, heard, llmDelta)
    ensures var peers := PeerAverage(current, heard);
            Blend(Stability(Household(Some(0.0))), current, peers) == peers <==> current == peers
  {
    hide PeerAverage;
  }

  /** The difference survives rounding wherever opinions stand more than 0.0002 apart. */
  lemma ZeroStabilityShows(current: real, heard: seq<Heard>)
    requires -1.0 <= current <= 1.0 && -1.0 <= PeerAverage(current, heard) <= 1.0
    requires Abs(current - PeerAverage(current, heard)) > 0.0002
    ensures Drift(Household(Some(0.0)), current, heard, 0.0) != Round4(PeerAverage(current, heard))
  {
    hide PeerAverage, Round4;
    var peers := PeerAverage(current, heard);
    Round4Close(peers);
    Round4Close(Blend(0.5, current, peers));
  }

  /** A negative edge weight breaks the envelope: both voices lie in [0, 0.5], the outcome does not. */
  lemma NegativeWeightEscapes()
    ensures Drift(Household(Some(0.5)), 0.5, [Heard("a", 0.0, -1.0), Heard("b", 0.5, 2.0)], 0.0) == 0.75
  {
    var heard := [Heard("a", 0.0, -1.0), Heard("b", 0.5, 2.0)];
    assert heard[..1] == [Heard("a", 0.0, -1.0)] && heard[..1][..0] == [];
    assert TotalWeight(heard[..1]) == -1.0 && WeightedSum(heard[..1]) == 0.0;
    assert TotalWeight(heard) == 1.0 && WeightedSum(heard) == 1.0;
    assert Blend(0.5, 0.5, 1.0) == 0.75;
  }
}
