/**
 Reaction events fold into one vector per actor, every component saturating at -1 and 1; a replay
 of the same events keeps a frame per step.
 */
module Reactions {
  import opened Common

  /** The eight registered variables; an event may also name one that is not registered. */
  datatype Variable =
    | TrustInTrajectory
    | AffordabilityPressure
    | PerceivedSafety
    | SocialProof
    | DisplacementConcern
    | InvestorOptimism
    | WillingnessToTransact
    | ResistanceToDevelopment
    | Unregistered(name: string)

  datatype Vector = Vector(
    trustInTrajectory: real,
    affordabilityPressure: real,
    perceivedSafety: real,
    socialProof: real,
    displacementConcern: real,
    investorOptimism: real,
    willingnessToTransact: real,
    resistanceToDevelopment: real)
  {
    function Get(v: Variable): real
      requires !v.Unregistered?
    {
      match v
      case TrustInTrajectory => trustInTrajectory
      case AffordabilityPressure => affordabilityPressure
      case PerceivedSafety => perceivedSafety
      case SocialProof => socialProof
      case DisplacementConcern => displacementConcern
      case InvestorOptimism => investorOptimism
      case WillingnessToTransact => willingnessToTransact
      case ResistanceToDevelopment => resistanceToDevelopment
    }

    /** dataclasses.replace on one field. */
    function With(v: Variable, x: real): (r: Vector)
      requires !v.Unregistered?
      ensures r.Get(v) == x
      ensures forall w: Variable :: !w.Unregistered? && w != v ==> r.Get(w) == Get(w)
    {
      match v
      case TrustInTrajectory => this.(trustInTrajectory := x)
      case AffordabilityPressure => this.(affordabilityPressure := x)
      case PerceivedSafety => this.(perceivedSafety := x)
      case SocialProof => this.(socialProof := x)
      case DisplacementConcern => this.(displacementConcern := x)
      case InvestorOptimism => this.(investorOptimism := x)
      case WillingnessToTransact => this.(willingnessToTransact := x)
      case ResistanceToDevelopment => this.(resistanceToDevelopment := x)
    }

    ghost predicate InRange() {
      forall v: Variable :: !v.Unregistered? ==> -1.0 <= Get(v) <= 1.0
    }
  }

  const NEUTRAL := Vector(0.0, 0.0, 0.0, 0.0, 0.0, 0.0, 0.0, 0.0)

  datatype Event = Event(topic: string, variable: Variable, delta: real, occurredAt: int)

  datatype ActorEvent = ActorEvent(actor: string, event: Event)

  /** _apply_delta: a delta of an unregistered variable is dropped. */
  function ApplyDelta(vector: Vector, variable: Variable, delta: real): Vector {
    if variable.Unregistered? then vector
    else vector.With(variable, ClampSigned(vector.Get(variable) + delta))
  }

  // ---------------------------------------------------------------------------
  // The engine
  // ---------------------------------------------------------------------------

  /** An insertion-ordered dictionary of vectors. */
  datatype State = State(order: seq<string>, vectors: map<string, Vector>)

  const EMPTY := State([], map[])

  function VectorFor(s: State, actor: string): Vector {
    if actor in s.vectors then s.vectors[actor] else NEUTRAL
  }

  function Step(s: State, a: ActorEvent): State {
    State(
      if a.actor in s.vectors then s.order else s.order + [a.actor],
      s.vectors[a.actor := ApplyDelta(VectorFor(s, a.actor), a.event.variable, a.event.delta)])
  }

  function Run(s: State, batch: seq<ActorEvent>): State {
    if batch == [] then s else Step(Run(s, batch[..|batch| - 1]), batch[|batch| - 1])
  }

  /** What a fresh engine holds after a batch. */
  function After(batch: seq<ActorEvent>): State {
    Run(EMPTY, batch)
  }

  class ReactionEngine {
    var order: seq<string>
    var vectors: map<string, Vector>

    ghost function Contents(): State
      reads this
    {
      State(order, vectors)
    }

    constructor ()
      ensures Contents() == EMPTY
    {
      order, vectors := [], map[];
    }

    method Apply(a: ActorEvent) returns (updated: Vector)
      modifies this
      ensures Contents() == Step(old(Contents()), a)
      ensures updated == VectorFor(Contents(), a.actor)
    {
      var current := if a.actor in vectors then vectors[a.actor] else NEUTRAL;
      updated := ApplyDelta(current, a.event.variable, a.event.delta);
      if a.actor !in vectors {
        order := order + [a.actor];
      }
      vectors := vectors[a.actor := updated];
    }

    method ApplyBatch(batch: seq<ActorEvent>) returns (result: map<string, Vector>)
      modifies this
      ensures Contents() == Run(old(Contents()), batch)
      ensures result == vectors
    {
      for i := 0 to |batch|
        invariant Contents() == Run(old(Contents()), batch[..i])
      {
        assert batch[..i + 1][..i] == batch[..i];
        var _ := Apply(batch[i]);
      }
      assert batch[..|batch|] == batch;
      result := vectors;
    }

    /** The vectors, in insertion order. */
    method Collect() returns (values: seq<Vector>)
      requires WellFormed(Contents())
      ensures values == Values(Contents())
    {
      values := [];
      for i := 0 to |order|
        invariant |values| == i
        invariant forall j :: 0 <= j < i ==> values[j] == vectors[order[j]]
      {
        values := values + [vectors[order[i]]];
      }
    }
  }

  // ---------------------------------------------------------------------------
  // The saturating fold
  // ---------------------------------------------------------------------------

  /** Start at c and add the deltas one after the other, clamping after each. */
  function SaturatingSum(c: real, deltas: seq<real>): real {
    if deltas == [] then c
    else ClampSigned(SaturatingSum(c, deltas[..|deltas| - 1]) + deltas[|deltas| - 1])
  }

  function Total(deltas: seq<real>): real {
    if deltas == [] then 0.0 else Total(deltas[..|deltas| - 1]) + deltas[|deltas| - 1]
  }

  function Between(low: real, x: real, high: real): real {
    if x > high then high else if x < low then low else x
  }

  /** The fold stays in range and preserves order between starting points. */
  lemma {:induction false} SaturatingSumMonotone(a: real, b: real, deltas: seq<real>)
    requires -1.0 <= a <= b <= 1.0
    ensures -1.0 <= SaturatingSum(a, deltas) <= SaturatingSum(b, deltas) <= 1.0
  {
    if deltas != [] {
      SaturatingSumMonotone(a, b, deltas[..|deltas| - 1]);
    }
  }

  /** Two starting points never drift apart. */
  lemma {:induction false} NonExpansive(a: real, b: real, deltas: seq<real>)
    requires -1.0 <= a <= b <= 1.0
    ensures 0.0 <= SaturatingSum(b, deltas) - SaturatingSum(a, deltas) <= b - a
  {
    if deltas != [] {
      NonExpansive(a, b, deltas[..|deltas| - 1]);
    }
  }

  /**
   Any number of clamped steps is one clamped shift: by the plain total of the deltas, between what
   the two extreme starting points become.
   */
  lemma {:induction false} OneClampedShift(c: real, deltas: seq<real>)
    requires -1.0 <= c <= 1.0
    ensures SaturatingSum(c, deltas) ==
            Between(SaturatingSum(-1.0, deltas), c + Total(deltas), SaturatingSum(1.0, deltas))
  {
    if deltas != [] {
      OneClampedShift(c, deltas[..|deltas| - 1]);
      SaturatingSumMonotone(-1.0, 1.0, deltas[..|deltas| - 1]);
    }
  }

  // ---------------------------------------------------------------------------
  // The vectors after a batch
  // ---------------------------------------------------------------------------

  /** The deltas of one actor's events on one variable, in batch order. */
  function DeltasOf(batch: seq<ActorEvent>, actor: string, v: Variable): seq<real> {
    if batch == [] then []
    else
      var last := batch[|batch| - 1];
      DeltasOf(batch[..|batch| - 1], actor, v)
      + (if last.actor == actor && last.event.variable == v then [last.event.delta] else [])
  }

  predicate Mentions(batch: seq<ActorEvent>, actor: string) {
    exists i :: 0 <= i < |batch| && batch[i].actor == actor
  }

  ghost predicate WellFormed(s: State) {
    && (forall i :: 0 <= i < |s.order| ==> s.order[i] in s.vectors)
    && (forall actor :: actor in s.vectors ==> actor in s.order)
    && (forall i, j :: 0 <= i < j < |s.order| ==> s.order[i] != s.order[j])
  }

  /** The engine holds each mentioned actor once, and nobody else. */
  lemma {:induction false} ActorsMentioned(batch: seq<ActorEvent>)
    ensures WellFormed(After(batch))
    ensures forall actor :: actor in After(batch).vectors <==> Mentions(batch, actor)
  {
    if batch != [] {
      var n := |batch| - 1;
      ActorsMentioned(batch[..n]);
      StepWellFormed(After(batch[..n]), batch[n]);
      hide Mentions, WellFormed;
      forall actor ensures actor in After(batch).vectors <==> Mentions(batch, actor) {
        MentionsStep(batch, actor);
      }
    } else {
      hide WellFormed;
      EmptyWellFormed();
    }
  }

  lemma EmptyWellFormed()
    ensures WellFormed(EMPTY)
  {
  }

  lemma MentionsStep(batch: seq<ActorEvent>, actor: string)
    requires batch != []
    ensures Mentions(batch, actor) <==> Mentions(batch[..|batch| - 1], actor) || batch[|batch| - 1].actor == actor
  {
    var n := |batch| - 1;
    if Mentions(batch[..n], actor) {
      var i :| 0 <= i < n && batch[..n][i].actor == actor;
      assert batch[i].actor == actor;
    }
    if Mentions(batch, actor) && batch[n].actor != actor {
      var i :| 0 <= i < |batch| && batch[i].actor == actor;
      assert batch[..n][i].actor == actor;
    }
  }

  lemma StepWellFormed(s: State, a: ActorEvent)
    requires WellFormed(s)
    ensures WellFormed(Step(s, a))
  {
    var t := Step(s, a);
    forall actor | actor in t.vectors ensures actor in t.order {
      if actor != a.actor {
        assert actor in s.order;
      } else if a.actor !in s.vectors {
        assert t.order[|s.order|] == actor;
      }
    }
  }

  /** Each component is the saturating fold of that actor's own deltas on that variable. */
  lemma {:induction false} ComponentIsFold(batch: seq<ActorEvent>, actor: string, v: Variable)
    requires !v.Unregistered?
    ensures VectorFor(After(batch), actor).Get(v) == SaturatingSum(0.0, DeltasOf(batch, actor, v))
  {
    hide Step, VectorFor, SaturatingSum, ClampSigned;
    if batch == [] {
      NeutralIsZero(actor, v);
    } else {
      var n := |batch| - 1;
      ComponentIsFold(batch[..n], actor, v);
      ComponentStep(After(batch[..n]), batch[n], actor, v);
      DeltasStep(batch, actor, v);
      assert After(batch) == Step(After(batch[..n]), batch[n]);
    }
  }

  lemma NeutralIsZero(actor: string, v: Variable)
    requires !v.Unregistered?
    ensures VectorFor(After([]), actor).Get(v) == 0.0 == SaturatingSum(0.0, DeltasOf([], actor, v))
  {
  }

  lemma DeltasStep(batch: seq<ActorEvent>, actor: string, v: Variable)
    requires batch != []
    ensures var last, earlier := batch[|batch| - 1], SaturatingSum(0.0, DeltasOf(batch[..|batch| - 1], actor, v));
            SaturatingSum(0.0, DeltasOf(batch, actor, v)) ==
            if last.actor == actor && last.event.variable == v then ClampSigned(earlier + last.event.delta) else earlier
  {
    hide ClampSigned, SaturatingSum;
    var last := batch[|batch| - 1];
    var earlier, all := DeltasOf(batch[..|batch| - 1], actor, v), DeltasOf(batch, actor, v);
    assert all == earlier + (if last.actor == actor && last.event.variable == v then [last.event.delta] else []);
    if last.actor == actor && last.event.variable == v {
      AddedLast(0.0, earlier, last.event.delta);
    } else {
      assert all == earlier;
    }
  }

  lemma AddedLast(c: real, deltas: seq<real>, delta: real)
    ensures SaturatingSum(c, deltas + [delta]) == ClampSigned(SaturatingSum(c, deltas) + delta)
  {
    hide ClampSigned;
    assert (deltas + [delta])[..|deltas|] == deltas;
  }

  lemma ComponentStep(s: State, a: ActorEvent, actor: string, v: Variable)
    requires !v.Unregistered?
    ensures VectorFor(Step(s, a), actor).Get(v) ==
            if a.actor == actor && a.event.variable == v then ClampSigned(VectorFor(s, actor).Get(v) + a.event.delta)
            else VectorFor(s, actor).Get(v)
  {
    hide ClampSigned;
  }

  lemma AllComponentsInRange(batch: seq<ActorEvent>, actor: string)
    ensures VectorFor(After(batch), actor).InRange()
  {
    forall v: Variable | !v.Unregistered? ensures -1.0 <= VectorFor(After(batch), actor).Get(v) <= 1.0 {
      ComponentIsFold(batch, actor, v);
      SaturatingSumMonotone(0.0, 0.0, DeltasOf(batch, actor, v));
    }
  }

  /** Two batches keep the same order within each pair of an actor and a variable. */
  ghost predicate SamePairOrder(p: seq<ActorEvent>, q: seq<ActorEvent>) {
    forall actor, v :: DeltasOf(p, actor, v) == DeltasOf(q, actor, v)
  }

  lemma VectorsAgree(a: Vector, b: Vector)
    requires forall v: Variable :: !v.Unregistered? ==> a.Get(v) == b.Get(v)
    ensures a == b
  {
    assert a.Get(TrustInTrajectory) == b.Get(TrustInTrajectory);
    assert a.Get(AffordabilityPressure) == b.Get(AffordabilityPressure);
    assert a.Get(PerceivedSafety) == b.Get(PerceivedSafety);
    assert a.Get(SocialProof) == b.Get(SocialProof);
    assert a.Get(DisplacementConcern) == b.Get(DisplacementConcern);
    assert a.Get(InvestorOptimism) == b.Get(InvestorOptimism);
    assert a.Get(WillingnessToTransact) == b.Get(WillingnessToTransact);
    assert a.Get(ResistanceToDevelopment) == b.Get(ResistanceToDevelopment);
  }

  predicate HasDelta(batch: seq<ActorEvent>, actor: string, v: Variable) {
    DeltasOf(batch, actor, v) != []
  }

  lemma HasDeltaStep(batch: seq<ActorEvent>, actor: string, v: Variable)
    requires batch != []
    ensures var last := batch[|batch| - 1];
            HasDelta(batch, actor, v) <==>
            HasDelta(batch[..|batch| - 1], actor, v) || (last.actor == actor && last.event.variable == v)
  {
  }

  lemma {:induction false} MentionedHasDelta(batch: seq<ActorEvent>, actor: string)
    ensures Mentions(batch, actor) <==> exists v :: HasDelta(batch, actor, v)
  {
    if batch != [] {
      var n := |batch| - 1;
      MentionedHasDelta(batch[..n], actor);
      MentionsStep(batch, actor);
      forall v {
        HasDeltaStep(batch, actor, v);
      }
      hide Mentions, HasDelta;
      if batch[n].actor == actor {
        assert HasDelta(batch, actor, batch[n].event.variable);
      } else {
        assert forall v: Variable :: HasDelta(batch, actor, v) <==> HasDelta(batch[..n], actor, v);
      }
    } else {
      assert !Mentions(batch, actor);
    }
  }

  lemma SameMentions(p: seq<ActorEvent>, q: seq<ActorEvent>, actor: string)
    requires SamePairOrder(p, q)
    ensures Mentions(p, actor) <==> Mentions(q, actor)
  {
    MentionedHasDelta(p, actor);
    MentionedHasDelta(q, actor);
    assert forall v :: HasDelta(p, actor, v) == HasDelta(q, actor, v);
  }

  /** Reordering events across actors or across variables changes no vector. */
  lemma ReorderingKeepsVectors(p: seq<ActorEvent>, q: seq<ActorEvent>)
    requires SamePairOrder(p, q)
    ensures After(p).vectors == After(q).vectors
  {
    ActorsMentioned(p);
    ActorsMentioned(q);
    forall actor ensures actor in After(p).vectors <==> actor in After(q).vectors {
      SameMentions(p, q, actor);
    }
    hide After;
    forall actor | actor in After(p).vectors ensures After(p).vectors[actor] == After(q).vectors[actor] {
      SameVector(p, q, actor);
    }
  }

  lemma SameVector(p: seq<ActorEvent>, q: seq<ActorEvent>, actor: string)
    requires SamePairOrder(p, q)
    ensures VectorFor(After(p), actor) == VectorFor(After(q), actor)
  {
    forall v: Variable | !v.Unregistered?
      ensures VectorFor(After(p), actor).Get(v) == VectorFor(After(q), actor).Get(v)
    {
      ComponentIsFold(p, actor, v);
      ComponentIsFold(q, actor, v);
    }
    VectorsAgree(VectorFor(After(p), actor), VectorFor(After(q), actor));
  }

  /** Within a pair it does matter: the same two events of one actor on one variable, swapped, end elsewhere. */
  lemma OrderMatters(actor: string, v: Variable, up: Event, down: Event)
    requires !v.Unregistered? && up.variable == v == down.variable && up.delta == 1.5 && down.delta == -0.5
    ensures VectorFor(After([ActorEvent(actor, up), ActorEvent(actor, down)]), actor).Get(v) == 0.5
    ensures VectorFor(After([ActorEvent(actor, down), ActorEvent(actor, up)]), actor).Get(v) == 1.0
  {
    TwoEvents(ActorEvent(actor, up), ActorEvent(actor, down), actor, v);
    TwoEvents(ActorEvent(actor, down), ActorEvent(actor, up), actor, v);
  }

  lemma TwoEvents(a: ActorEvent, b: ActorEvent, actor: string, v: Variable)
    requires !v.Unregistered? && a.actor == actor == b.actor && a.event.variable == v == b.event.variable
    ensures VectorFor(After([a, b]), actor).Get(v) == ClampSigned(ClampSigned(a.event.delta) + b.event.delta)
  {
    var both := [a, b];
    assert both[..1] == [a] && both[..1][..0] == [];
    ComponentIsFold(both, actor, v);
    DeltasStep(both, actor, v);
    DeltasStep([a], actor, v);
    hide ClampSigned;
  }

  // ---------------------------------------------------------------------------
  // Sentiment
  // ---------------------------------------------------------------------------

  function Values(s: State): seq<Vector>
    requires WellFormed(s)
  {
    seq(|s.order|, i requires 0 <= i < |s.order| => s.vectors[s.order[i]])
  }

  /** One vector's sentiment: four components mapped to [0, 1], averaged and clipped. */
  function Sample(r: Vector): real {
    ClampUnit(((r.trustInTrajectory + 1.0) / 2.0 + (r.perceivedSafety + 1.0) / 2.0
          + (-r.displacementConcern + 1.0) / 2.0 + (r.willingnessToTransact + 1.0) / 2.0) / 4.0)
  }

  function SumOfSamples(vectors: seq<Vector>): real {
    if vectors == [] then 0.0
    else SumOfSamples(vectors[..|vectors| - 1]) + Sample(vectors[|vectors| - 1])
  }

  function Sentiment(vectors: seq<Vector>): Option<real> {
    if vectors == [] then None else Some(SumOfSamples(vectors) / |vectors| as real)
  }

  method ProjectSentiment(vectors: seq<Vector>) returns (sentiment: Option<real>)
    ensures sentiment == Sentiment(vectors)
  {
    var total := 0.0;
    for i := 0 to |vectors|
      invariant total == SumOfSamples(vectors[..i])
    {
      assert vectors[..i + 1][..i] == vectors[..i];
      total := total + Sample(vectors[i]);
    }
    assert vectors[..|vectors|] == vectors;
    if |vectors| == 0 {
      return None;
    }
    sentiment := Some(total / |vectors| as real);
  }

  lemma {:induction false} SamplesBounded(vectors: seq<Vector>)
    ensures 0.0 <= SumOfSamples(vectors) <= |vectors| as real
  {
    if vectors != [] {
      SamplesBounded(vectors[..|vectors| - 1]);
    }
  }

  lemma QuotientInUnit(total: real, n: real)
    requires 0.0 <= total <= n && 0.0 < n
    ensures 0.0 <= total / n <= 1.0
  {
  }

  /** There is a sentiment exactly when there is a vector, and it lies in [0, 1]. */
  lemma SentimentInUnit(vectors: seq<Vector>)
    ensures Sentiment(vectors).Some? <==> vectors != []
    ensures Sentiment(vectors).Some? ==> 0.0 <= Sentiment(vectors).value <= 1.0
  {
    if vectors != [] {
      SamplesBounded(vectors);
      QuotientInUnit(SumOfSamples(vectors), |vectors| as real);
    }
  }

  /** The clip of a sample is idle on what the engine holds. */
  lemma ClipIsIdle(batch: seq<ActorEvent>, actor: string)
    ensures var r := VectorFor(After(batch), actor);
            Sample(r) == 0.5 + (r.trustInTrajectory + r.perceivedSafety - r.displacementConcern
                                + r.willingnessToTransact) / 8.0
  {
    AllComponentsInRange(batch, actor);
    var r := VectorFor(After(batch), actor);
    assert -1.0 <= r.Get(TrustInTrajectory) <= 1.0;
    assert -1.0 <= r.Get(PerceivedSafety) <= 1.0;
    assert -1.0 <= r.Get(DisplacementConcern) <= 1.0;
    assert -1.0 <= r.Get(WillingnessToTransact) <= 1.0;
    hide After, VectorFor;
  }

  /** The samples of the actors listed in order. */
  function SumOver(order: seq<string>, vectors: map<string, Vector>): real
    requires forall i :: 0 <= i < |order| ==> order[i] in vectors
  {
    if order == [] then 0.0
    else SumOver(order[..|order| - 1], vectors) + Sample(vectors[order[|order| - 1]])
  }

  lemma {:induction false} SumOfValues(s: State, n: nat)
    requires WellFormed(s) && n <= |s.order|
    ensures SumOfSamples(Values(s)[..n]) == SumOver(s.order[..n], s.vectors)
  {
    if n > 0 {
      SumOfValues(s, n - 1);
      assert Values(s)[..n][..n - 1] == Values(s)[..n - 1];
      assert s.order[..n][..n - 1] == s.order[..n - 1];
    }
  }

  function Without(s: seq<string>, k: nat): seq<string>
    requires k < |s|
  {
    s[..k] + s[k + 1..]
  }

  lemma {:induction false} TakeOut(order: seq<string>, k: nat, vectors: map<string, Vector>)
    requires k < |order| && forall i :: 0 <= i < |order| ==> order[i] in vectors
    ensures SumOver(order, vectors) == SumOver(Without(order, k), vectors) + Sample(vectors[order[k]])
  {
    hide Sample;
    var n := |order| - 1;
    if k < n {
      TakeOut(order[..n], k, vectors);
      var rest := Without(order, k);
      assert rest[..n - 1] == Without(order[..n], k) && rest[n - 1] == order[n];
    } else {
      assert Without(order, k) == order[..n];
    }
  }

  lemma SameRest(a: seq<string>, b: seq<string>, k: nat)
    requires a != [] && k < |b| && b[k] == a[|a| - 1] && multiset(a) == multiset(b)
    ensures multiset(a[..|a| - 1]) == multiset(Without(b, k))
  {
    LastCounted(a);
    var front, back := b[..k] + [b[k]], b[k + 1..];
    assert b == front + back;
    assert multiset(front + back) == multiset(front) + multiset(back);
    LastCounted(front);
    assert front[..k] == b[..k];
    assert multiset(b[..k] + back) == multiset(b[..k]) + multiset(back);
    SameLeft(multiset(a[..|a| - 1]), multiset(Without(b, k)), b[k]);
  }

  lemma SameLeft(a: multiset<string>, b: multiset<string>, x: string)
    requires a + multiset{x} == b + multiset{x}
    ensures a == b
  {
    assert a == (a + multiset{x}) - multiset{x};
    assert b == (b + multiset{x}) - multiset{x};
  }

  lemma LastCounted(a: seq<string>)
    requires a != []
    ensures multiset(a) == multiset(a[..|a| - 1]) + multiset{a[|a| - 1]}
  {
    assert a == a[..|a| - 1] + [a[|a| - 1]];
  }

  /** The sum does not depend on the order in which actors first appeared. */
  lemma {:induction false} SumIgnoresOrder(a: seq<string>, b: seq<string>, vectors: map<string, Vector>)
    requires forall i :: 0 <= i < |a| ==> a[i] in vectors
    requires forall i :: 0 <= i < |b| ==> b[i] in vectors
    requires multiset(a) == multiset(b)
    ensures SumOver(a, vectors) == SumOver(b, vectors)
    decreases |a|
  {
    hide Sample;
    if a == [] {
      assert |multiset(b)| == 0;
    } else {
      var k := PlaceOfLast(a, b);
      SameRest(a, b, k);
      TakeOut(b, k, vectors);
      SumIgnoresOrder(a[..|a| - 1], Without(b, k), vectors);
    }
  }

  lemma PlaceOfLast(a: seq<string>, b: seq<string>) returns (k: nat)
    requires a != [] && multiset(a) == multiset(b)
    ensures k < |b| && b[k] == a[|a| - 1]
  {
    assert a[|a| - 1] in multiset(b);
    k :| 0 <= k < |b| && b[k] == a[|a| - 1];
  }

  /** The sentiment after a batch survives the same reorderings as the vectors. */
  lemma ReorderingKeepsSentiment(p: seq<ActorEvent>, q: seq<ActorEvent>)
    requires SamePairOrder(p, q)
    ensures WellFormed(After(p)) && WellFormed(After(q))
    ensures Sentiment(Values(After(p))) == Sentiment(Values(After(q)))
  {
    hide After, WellFormed, SamePairOrder;
    ActorsMentioned(p);
    ActorsMentioned(q);
    ReorderingKeepsVectors(p, q);
    SameVectorsSameSentiment(After(p), After(q));
  }

  /** The order in which the actors were entered does not matter. */
  lemma SameVectorsSameSentiment(a: State, b: State)
    requires WellFormed(a) && WellFormed(b) && a.vectors == b.vectors
    ensures Sentiment(Values(a)) == Sentiment(Values(b))
  {
    SameActors(a, b);
    SumIgnoresOrder(a.order, b.order, a.vectors);
    assert |a.order| == |multiset(a.order)| == |multiset(b.order)| == |b.order|;
    SentimentOfState(a);
    SentimentOfState(b);
    hide Sentiment, SumOver, WellFormed;
  }

  lemma SentimentOfState(s: State)
    requires WellFormed(s)
    ensures Sentiment(Values(s)) ==
            if |s.order| == 0 then None else Some(SumOver(s.order, s.vectors) / |s.order| as real)
  {
    SumOfValues(s, |s.order|);
    hide SumOver, SumOfSamples, WellFormed;
    assert s.order[..|s.order|] == s.order;
    assert Values(s)[..|s.order|] == Values(s);
  }

  lemma SameActors(a: State, b: State)
    requires WellFormed(a) && WellFormed(b) && a.vectors == b.vectors
    ensures multiset(a.order) == multiset(b.order)
  {
    forall x ensures multiset(a.order)[x] == multiset(b.order)[x] {
      OnceEach(a.order, x);
      OnceEach(b.order, x);
      assert x in a.order <==> x in a.vectors;
      assert x in b.order <==> x in b.vectors;
    }
  }

  // ---------------------------------------------------------------------------
  // Replay
  // ---------------------------------------------------------------------------

  datatype Frame = Frame(
    step: int,
    occurredAt: int,
    actor: string,
    eventTopic: string,
    eventVariable: Variable,
    eventDelta: real,
    actorVector: Vector,
    aggregateSentiment: Option<real>)

  /** The frame of event i: what the first i + 1 events amount to. */
  ghost function FrameAt(batch: seq<ActorEvent>, i: nat): Frame
    requires i < |batch|
    requires WellFormed(After(batch[..i + 1]))
  {
    var state, e := After(batch[..i + 1]), batch[i].event;
    Frame(i, e.occurredAt, batch[i].actor, e.topic, e.variable, e.delta,
          VectorFor(state, batch[i].actor), Sentiment(Values(state)))
  }

  lemma AfterStep(batch: seq<ActorEvent>)
    ensures After(batch[..0]) == EMPTY
    ensures forall i :: 0 <= i < |batch| ==> After(batch[..i + 1]) == Step(After(batch[..i]), batch[i])
  {
    hide Step;
    forall i | 0 <= i < |batch| ensures After(batch[..i + 1]) == Step(After(batch[..i]), batch[i]) {
      assert batch[..i + 1][..i] == batch[..i];
    }
  }

  method ReplayReactions(batch: seq<ActorEvent>) returns (frames: seq<Frame>, finalSentiment: Option<real>)
    ensures forall k :: 0 <= k <= |batch| ==> WellFormed(After(batch[..k]))
    ensures |frames| == |batch|
    ensures forall i :: 0 <= i < |batch| ==> frames[i] == FrameAt(batch, i)
    ensures finalSentiment == Sentiment(Values(After(batch[..|batch|])))
  {
    forall k | 0 <= k <= |batch| ensures WellFormed(After(batch[..k])) {
      ActorsMentioned(batch[..k]);
    }
    hide Step, VectorFor, WellFormed, Sentiment, Values, ApplyDelta, After;
    AfterStep(batch);
    var engine := new ReactionEngine();
    frames, finalSentiment := [], None;
    for i := 0 to |batch|
      invariant engine.Contents() == After(batch[..i])
      invariant |frames| == i
      invariant forall j :: 0 <= j < i ==> frames[j] == FrameAt(batch, j)
    {
      assert After(batch[..i + 1]) == Step(After(batch[..i]), batch[i]);
      var vector := engine.Apply(batch[i]);
      var vectors := engine.Collect();
      var sentiment := ProjectSentiment(vectors);
      var e := batch[i].event;
      frames := frames + [Frame(i, e.occurredAt, batch[i].actor, e.topic, e.variable, e.delta, vector, sentiment)];
    }
    if frames != [] {
      var vectors := engine.Collect();
      finalSentiment := ProjectSentiment(vectors);
    }
  }

  /**
   The vector in a frame depends on nothing but the actor's own deltas up to that step, and the
   sentiment in a frame is always there and in [0, 1].
   */
  lemma FrameIsOwnFold(batch: seq<ActorEvent>, i: nat, v: Variable)
    requires i < |batch| && !v.Unregistered?
    ensures WellFormed(After(batch[..i + 1]))
    ensures var f := FrameAt(batch, i);
            && f.actorVector.Get(v) == SaturatingSum(0.0, DeltasOf(batch[..i + 1], batch[i].actor, v))
            && f.actorVector.InRange()
            && f.aggregateSentiment.Some? && 0.0 <= f.aggregateSentiment.value <= 1.0
  {
    var prefix, actor := batch[..i + 1], batch[i].actor;
    ActorsMentioned(prefix);
    ComponentIsFold(prefix, actor, v);
    AllComponentsInRange(prefix, actor);
    assert prefix[i].actor == actor;
    assert Mentions(prefix, actor);
    assert After(prefix).order != [];
    SentimentInUnit(Values(After(prefix)));
  }
}
