/**
 The append-only audit log: per-aggregate sequence numbers taken as max + 1 inside a database
 session with commit and rollback.
 */
module EventStore {
  import opened Common

  datatype Event = Event(eventType: string, aggregateType: string, aggregateId: string,
                         payload: map<string, string>, sequence: nat)

  /** What a failing call raises; a class name is never empty. */
  type ClassName = s: string | s != "" witness "Exception"
  datatype Exn = Exn(message: string, className: ClassName)

  /** How an append ends: normally, or raising before or after the row joined the session. */
  datatype AppendOutcome = Appends | RaisesBeforeAdd(exn: Exn) | RaisesAfterAdd(exn: Exn)

  /** How a commit or rollback ends; a commit that raises commits nothing. */
  datatype CallOutcome = Succeeds | Raises(exn: Exn)

  function Max(a: nat, b: nat): nat { if a < b then b else a }

  /** coalesce(max(sequence), 0) over the events of one aggregate. */
  function MaxSequence(events: seq<Event>, aggregateType: string, aggregateId: string): nat {
    if events == [] then 0
    else
      var e := events[|events| - 1];
      var front := MaxSequence(events[..|events| - 1], aggregateType, aggregateId);
      if e.aggregateType == aggregateType && e.aggregateId == aggregateId then Max(front, e.sequence) else front
  }

  /** The events of one aggregate, in the order they were written. */
  function EventsOf(events: seq<Event>, aggregateType: string, aggregateId: string): seq<Event> {
    if events == [] then []
    else
      var e := events[|events| - 1];
      var front := EventsOf(events[..|events| - 1], aggregateType, aggregateId);
      if e.aggregateType == aggregateType && e.aggregateId == aggregateId then front + [e] else front
  }

  lemma {:induction false} EventsOfConcat(a: seq<Event>, b: seq<Event>, aggregateType: string, aggregateId: string)
    ensures EventsOf(a + b, aggregateType, aggregateId)
         == EventsOf(a, aggregateType, aggregateId) + EventsOf(b, aggregateType, aggregateId)
  {
    if b == [] {
      assert a + b == a;
    } else {
      assert (a + b)[..|a + b| - 1] == a + b[..|b| - 1];
      EventsOfConcat(a, b[..|b| - 1], aggregateType, aggregateId);
    }
  }

  /** The rows of an aggregate carry the numbers 1, 2, ..., in the order they were written. */
  ghost predicate Numbered(events: seq<Event>, aggregateType: string, aggregateId: string) {
    var mine := EventsOf(events, aggregateType, aggregateId);
    forall i :: 0 <= i < |mine| ==> mine[i].sequence == i + 1
  }

  lemma {:induction false} MaxOfNumbered(events: seq<Event>, aggregateType: string, aggregateId: string)
    requires Numbered(events, aggregateType, aggregateId)
    ensures MaxSequence(events, aggregateType, aggregateId) == |EventsOf(events, aggregateType, aggregateId)|
  {
    if events != [] {
      var front := events[..|events| - 1];
      var before, mine := EventsOf(front, aggregateType, aggregateId), EventsOf(events, aggregateType, aggregateId);
      assert before == mine[..|before|];
      assert forall i :: 0 <= i < |before| ==> before[i] == mine[i];
      assert |before| < |mine| ==> mine[|before|] == events[|events| - 1];
      MaxOfNumbered(front, aggregateType, aggregateId);
    }
  }

  /** The row append adds. */
  function Next(events: seq<Event>, eventType: string, aggregateType: string, aggregateId: string,
                payload: map<string, string>): Event {
    Event(eventType, aggregateType, aggregateId, payload, MaxSequence(events, aggregateType, aggregateId) + 1)
  }

  /** A session: what the database holds and what this transaction has added. */
  class Session {
    var committed: seq<Event>
    var pending: seq<Event>

    constructor (stored: seq<Event>)
      ensures committed == stored && pending == []
    {
      committed, pending := stored, [];
    }

    /** EventStore.append. */
    method Append(eventType: string, aggregateType: string, aggregateId: string, payload: map<string, string>,
                  outcome: AppendOutcome)
      returns (r: Result<Event, Exn>)
      modifies this`pending
      ensures var event := Next(old(committed + pending), eventType, aggregateType, aggregateId, payload);
              match outcome
              case Appends => r == Ok(event) && pending == old(pending) + [event]
              case RaisesBeforeAdd(exn) => r == Err(exn) && pending == old(pending)
              case RaisesAfterAdd(exn) => r == Err(exn) && pending == old(pending) + [event]
    {
      if outcome.RaisesBeforeAdd? {
        return Err(outcome.exn);
      }
      var nextSeq := MaxSequence(committed + pending, aggregateType, aggregateId) + 1;
      var event := Event(eventType, aggregateType, aggregateId, payload, nextSeq);
      pending := pending + [event];
      if outcome.RaisesAfterAdd? {
        return Err(outcome.exn);
      }
      return Ok(event);
    }

    method Commit(outcome: CallOutcome) returns (r: Result<(), Exn>)
      modifies this
      ensures match outcome
              case Succeeds => r == Ok(()) && committed == old(committed + pending) && pending == []
              case Raises(exn) => r == Err(exn) && committed == old(committed) && pending == old(pending)
    {
      if outcome.Raises? {
        return Err(outcome.exn);
      }
      committed, pending := committed + pending, [];
      return Ok(());
    }

    method Rollback(outcome: CallOutcome) returns (r: Result<(), Exn>)
      modifies this`pending
      ensures match outcome
              case Succeeds => r == Ok(()) && pending == []
              case Raises(exn) => r == Err(exn) && pending == old(pending)
    {
      if outcome.Raises? {
        return Err(outcome.exn);
      }
      pending := [];
      return Ok(());
    }

    /** What other sessions commit while this one waits. */
    method OthersCommit(rows: seq<Event>)
      modifies this`committed
      ensures committed == old(committed) + rows
    {
      committed := committed + rows;
    }
  }

  // ---------------------------------------------------------------------------
  // Numbered logs
  // ---------------------------------------------------------------------------

  lemma NumberedPrefix(a: seq<Event>, b: seq<Event>, aggregateType: string, aggregateId: string)
    requires Numbered(a + b, aggregateType, aggregateId)
    ensures Numbered(a, aggregateType, aggregateId)
  {
    EventsOfConcat(a, b, aggregateType, aggregateId);
    var mine := EventsOf(a, aggregateType, aggregateId);
    forall i | 0 <= i < |mine| ensures mine[i].sequence == i + 1 {
      assert mine[i] == EventsOf(a + b, aggregateType, aggregateId)[i];
    }
  }

  lemma NumberedAppend(events: seq<Event>, e: Event, aggregateType: string, aggregateId: string)
    requires Numbered(events, aggregateType, aggregateId)
    requires e.sequence == MaxSequence(events, e.aggregateType, e.aggregateId) + 1
    ensures Numbered(events + [e], aggregateType, aggregateId)
  {
    assert (events + [e])[..|events|] == events;
    if e.aggregateType == aggregateType && e.aggregateId == aggregateId {
      MaxOfNumbered(events, aggregateType, aggregateId);
    }
  }

  lemma NumberedAroundOthers(a: seq<Event>, rows: seq<Event>, b: seq<Event>, aggregateType: string, aggregateId: string)
    requires EventsOf(rows, aggregateType, aggregateId) == []
    ensures EventsOf(a + rows + b, aggregateType, aggregateId) == EventsOf(a + b, aggregateType, aggregateId)
  {
    EventsOfConcat(a + rows, b, aggregateType, aggregateId);
    EventsOfConcat(a, rows, aggregateType, aggregateId);
    EventsOfConcat(a, b, aggregateType, aggregateId);
  }

  // ---------------------------------------------------------------------------
  // Any number of sessions, interleaved in any way
  // ---------------------------------------------------------------------------

  /** The committed log, and what each session has added since its transaction began. */
  datatype State = State(committed: seq<Event>, pending: map<int, seq<Event>>)

  datatype Op =
    | Append(session: int, eventType: string, aggregateType: string, aggregateId: string, payload: map<string, string>)
    | Commit(session: int)
    | Rollback(session: int)

  function PendingOf(s: State, session: int): seq<Event> {
    if session in s.pending then s.pending[session] else []
  }

  /** A session sees the committed log and its own pending rows, and no others. */
  function Apply(s: State, op: Op): State {
    var mine := PendingOf(s, op.session);
    match op
    case Append(x, et, at, id, p) => s.(pending := s.pending[x := mine + [Next(s.committed + mine, et, at, id, p)]])
    case Commit(x) => State(s.committed + mine, s.pending[x := []])
    case Rollback(x) => s.(pending := s.pending[x := []])
  }

  function Run(s: State, ops: seq<Op>): State {
    if ops == [] then s else Apply(Run(s, ops[..|ops| - 1]), ops[|ops| - 1])
  }

  /** An aggregate's type and id. */
  datatype Aggregate = Aggregate(kind: string, id: string)

  predicate Writes(op: Op, x: int, g: Aggregate) {
    op.Append? && op.session == x && op.aggregateType == g.kind && op.aggregateId == g.id
  }

  predicate Ends(op: Op, x: int) {
    !op.Append? && op.session == x
  }

  /** Among the first n operations session x wrote the aggregate and has not ended its transaction since. */
  ghost predicate Holding(ops: seq<Op>, n: int, x: int, g: Aggregate)
    requires 0 <= n <= |ops|
  {
    exists i :: 0 <= i < n && Writes(ops[i], x, g) && forall m :: i < m < n ==> !Ends(ops[m], x)
  }

  /** Operation j commits rows of the aggregate for a session other than x. */
  ghost predicate RivalCommits(ops: seq<Op>, j: int, x: int, g: Aggregate)
    requires 0 <= j < |ops|
  {
    ops[j].Commit? && ops[j].session != x && Holding(ops, j, ops[j].session, g)
  }

  /** Since x wrote the aggregate in its open transaction, a rival has committed rows of it. */
  ghost predicate Overtaken(ops: seq<Op>, n: int, x: int, g: Aggregate)
    requires 0 <= n <= |ops|
  {
    exists i, j :: && 0 <= i < j < n && Writes(ops[i], x, g) && RivalCommits(ops, j, x, g)
                   && forall m :: i < m < n ==> !Ends(ops[m], x)
  }

  /** None of the first n operations commits rows that a rival's commit has overtaken. */
  ghost predicate NoneOvertaken(ops: seq<Op>, n: int, g: Aggregate)
    requires 0 <= n <= |ops|
  {
    forall k :: 0 <= k < n && ops[k].Commit? ==> !Overtaken(ops, k, ops[k].session, g)
  }

  lemma HoldingStep(ops: seq<Op>, n: nat, x: int, g: Aggregate)
    requires n < |ops|
    ensures Holding(ops, n + 1, x, g) <==> Writes(ops[n], x, g) || (Holding(ops, n, x, g) && !Ends(ops[n], x))
  {
    if Holding(ops, n, x, g) && !Ends(ops[n], x) {
      var i :| 0 <= i < n && Writes(ops[i], x, g) && forall m :: i < m < n ==> !Ends(ops[m], x);
      assert forall m :: i < m < n + 1 ==> !Ends(ops[m], x);
    }
  }

  lemma OvertakenStep(ops: seq<Op>, n: nat, x: int, g: Aggregate)
    requires n < |ops|
    ensures Overtaken(ops, n + 1, x, g) <==>
            !Ends(ops[n], x) && (Overtaken(ops, n, x, g) || (Holding(ops, n, x, g) && RivalCommits(ops, n, x, g)))
  {
    hide RivalCommits;
    if !Ends(ops[n], x) {
      if Overtaken(ops, n, x, g) {
        var i, j :| && 0 <= i < j < n && Writes(ops[i], x, g) && RivalCommits(ops, j, x, g)
                    && forall m :: i < m < n ==> !Ends(ops[m], x);
        assert forall m :: i < m < n + 1 ==> !Ends(ops[m], x);
      }
      if Holding(ops, n, x, g) && RivalCommits(ops, n, x, g) {
        var i :| 0 <= i < n && Writes(ops[i], x, g) && forall m :: i < m < n ==> !Ends(ops[m], x);
        assert forall m :: i < m < n + 1 ==> !Ends(ops[m], x);
      }
    }
  }

  function Mine(events: seq<Event>, g: Aggregate): seq<Event> { EventsOf(events, g.kind, g.id) }

  ghost predicate InOrder(events: seq<Event>, g: Aggregate) { Numbered(events, g.kind, g.id) }

  /** x's first pending row of the aggregate carries a number the committed log already has. */
  ghost predicate Stale(s: State, x: int, g: Aggregate) {
    var mine := Mine(PendingOf(s, x), g);
    mine != [] && mine[0].sequence <= |Mine(s.committed, g)|
  }

  /** What is known of session x after n operations without an overtaken commit. */
  ghost predicate Known(s: State, ops: seq<Op>, n: int, x: int, g: Aggregate)
    requires 0 <= n <= |ops|
  {
    && (Holding(ops, n, x, g) <==> Mine(PendingOf(s, x), g) != [])
    && (if Overtaken(ops, n, x, g) then Stale(s, x, g) else InOrder(s.committed + PendingOf(s, x), g))
  }

  lemma FirstPending(committed: seq<Event>, pending: seq<Event>, g: Aggregate)
    requires InOrder(committed + pending, g) && Mine(pending, g) != []
    ensures Mine(pending, g)[0].sequence == |Mine(committed, g)| + 1
  {
    EventsOfConcat(committed, pending, g.kind, g.id);
    var all, n := Mine(committed + pending, g), |Mine(committed, g)|;
    assert all[n] == Mine(pending, g)[0];
  }

  lemma NothingOfIt(committed: seq<Event>, pending: seq<Event>, g: Aggregate)
    requires Mine(pending, g) == []
    ensures Mine(committed + pending, g) == Mine(committed, g)
    ensures InOrder(committed + pending, g) <==> InOrder(committed, g)
  {
    EventsOfConcat(committed, pending, g.kind, g.id);
  }

  lemma KnownAfterOwn(s: State, ops: seq<Op>, n: nat, x: int, g: Aggregate)
    requires n < |ops| && ops[n].session == x && Known(s, ops, n, x, g) && InOrder(s.committed, g)
    requires ops[n].Commit? ==> !Overtaken(ops, n, x, g)
    ensures Known(Apply(s, ops[n]), ops, n + 1, x, g)
    ensures InOrder(Apply(s, ops[n]).committed, g)
  {
    if ops[n].Append? {
      hide Known;
      KnownAfterAppend(s, ops, n, x, g);
    } else {
      HoldingStep(ops, n, x, g);
      OvertakenStep(ops, n, x, g);
      hide Holding, Overtaken, RivalCommits, EventsOf, Numbered;
      NoneMine(g);
      assert s.committed + PendingOf(s, x) + [] == s.committed + PendingOf(s, x);
      assert s.committed + [] == s.committed;
    }
  }

  lemma NoneMine(g: Aggregate)
    ensures Mine([], g) == []
  {
  }

  lemma KnownAfterAppend(s: State, ops: seq<Op>, n: nat, x: int, g: Aggregate)
    requires n < |ops| && ops[n].Append? && ops[n].session == x && Known(s, ops, n, x, g)
    ensures Known(Apply(s, ops[n]), ops, n + 1, x, g)
  {
    HoldingStep(ops, n, x, g);
    OvertakenStep(ops, n, x, g);
    hide Holding, Overtaken, RivalCommits;
    var pending, committed, op := PendingOf(s, x), s.committed, ops[n];
    var e := Next(committed + pending, op.eventType, op.aggregateType, op.aggregateId, op.payload);
    assert (pending + [e])[..|pending|] == pending;
    assert committed + (pending + [e]) == committed + pending + [e];
    NextFollows(committed + pending, op.eventType, op.aggregateType, op.aggregateId, op.payload);
    hide Next, MaxSequence, Numbered;
    if !Overtaken(ops, n, x, g) {
      NumberedAppend(committed + pending, e, g.kind, g.id);
    }
  }

  lemma NextFollows(events: seq<Event>, et: string, at: string, id: string, p: map<string, string>)
    ensures var e := Next(events, et, at, id, p);
            e.aggregateType == at && e.aggregateId == id && e.sequence == MaxSequence(events, at, id) + 1
  {
  }

  lemma KnownAfterRival(s: State, ops: seq<Op>, n: nat, x: int, g: Aggregate)
    requires n < |ops| && ops[n].session != x && Known(s, ops, n, x, g) && InOrder(s.committed, g)
    requires Known(s, ops, n, ops[n].session, g)
    requires ops[n].Commit? ==> !Overtaken(ops, n, ops[n].session, g)
    ensures Known(Apply(s, ops[n]), ops, n + 1, x, g)
  {
    HoldingStep(ops, n, x, g);
    OvertakenStep(ops, n, x, g);
    assert RivalCommits(ops, n, x, g) <==> ops[n].Commit? && Holding(ops, n, ops[n].session, g);
    hide Holding, Overtaken, RivalCommits;
    if ops[n].Commit? {
      CommitSeen(s, ops, n, x, g);
    }
  }

  /** A rival's commit leaves x's numbers as they are, or overtakes them. */
  lemma CommitSeen(s: State, ops: seq<Op>, n: nat, x: int, g: Aggregate)
    requires n < |ops| && ops[n].Commit? && ops[n].session != x
    requires Known(s, ops, n, x, g) && Known(s, ops, n, ops[n].session, g) && !Overtaken(ops, n, ops[n].session, g)
    ensures var t := Apply(s, ops[n]);
            if Overtaken(ops, n, x, g) || (Holding(ops, n, x, g) && Holding(ops, n, ops[n].session, g)) then
              Stale(t, x, g)
            else InOrder(t.committed + PendingOf(t, x), g)
  {
    hide Holding, Overtaken, Numbered, EventsOf;
    var rival, mine := PendingOf(s, ops[n].session), PendingOf(s, x);
    CountGrows(s.committed, rival, g);
    if Overtaken(ops, n, x, g) {
    } else if Mine(rival, g) == [] {
      NothingOfIt(s.committed, rival, g);
      SameNumbers(s.committed, rival, mine, g);
    } else if Mine(mine, g) == [] {
      NothingOfIt(s.committed + rival, mine, g);
    } else {
      FirstPending(s.committed, mine, g);
    }
  }

  lemma CountGrows(committed: seq<Event>, rows: seq<Event>, g: Aggregate)
    ensures |Mine(committed + rows, g)| == |Mine(committed, g)| + |Mine(rows, g)|
    ensures Mine(rows, g) != [] ==> |Mine(rows, g)| >= 1
  {
    EventsOfConcat(committed, rows, g.kind, g.id);
  }

  lemma SameNumbers(committed: seq<Event>, rows: seq<Event>, pending: seq<Event>, g: Aggregate)
    requires Mine(rows, g) == []
    ensures InOrder(committed + rows + pending, g) <==> InOrder(committed + pending, g)
  {
    NumberedAroundOthers(committed, rows, pending, g.kind, g.id);
  }

  lemma {:induction false} KnownAlways(stored: seq<Event>, ops: seq<Op>, n: nat, g: Aggregate)
    requires n <= |ops| && InOrder(stored, g) && NoneOvertaken(ops, n, g)
    ensures var s := Run(State(stored, map[]), ops[..n]);
            InOrder(s.committed, g) && forall x :: Known(s, ops, n, x, g)
  {
    hide Known, InOrder, Apply, Overtaken, Run;
    if n == 0 {
      KnownAtStart(stored, ops, g);
    } else {
      KnownAlways(stored, ops, n - 1, g);
      var s := Run(State(stored, map[]), ops[..n - 1]);
      RunStep(State(stored, map[]), ops, n);
      var y := ops[n - 1].session;
      KnownAfterOwn(s, ops, n - 1, y, g);
      var after := Apply(s, ops[n - 1]);
      forall x ensures Known(after, ops, n, x, g) {
        if x != y {
          KnownAfterRival(s, ops, n - 1, x, g);
        }
      }
    }
  }

  lemma KnownAtStart(stored: seq<Event>, ops: seq<Op>, g: Aggregate)
    requires InOrder(stored, g)
    ensures var s := Run(State(stored, map[]), ops[..0]);
            InOrder(s.committed, g) && forall x :: Known(s, ops, 0, x, g)
  {
    assert stored + [] == stored;
    hide Numbered;
  }

  lemma RunStep(start: State, ops: seq<Op>, n: nat)
    requires 0 < n <= |ops|
    ensures Run(start, ops[..n]) == Apply(Run(start, ops[..n - 1]), ops[n - 1])
  {
    hide Apply;
    assert ops[..n][..n - 1] == ops[..n - 1];
  }

  lemma {:induction false} CommittedGrows(s: State, ops: seq<Op>, n: nat)
    requires n <= |ops|
    ensures Run(s, ops[..n]).committed <= Run(s, ops).committed
    decreases |ops|
  {
    if n == |ops| {
      assert ops[..n] == ops;
    } else {
      assert ops[..|ops| - 1][..n] == ops[..n];
      CommittedGrows(s, ops[..|ops| - 1], n);
      hide Next;
    }
  }

  /** The first overtaken commit. */
  lemma {:induction false} FirstOvertaken(ops: seq<Op>, n: nat, g: Aggregate) returns (k: nat)
    requires n <= |ops| && !NoneOvertaken(ops, n, g)
    ensures k < n && ops[k].Commit? && Overtaken(ops, k, ops[k].session, g) && NoneOvertaken(ops, k, g)
  {
    hide Overtaken;
    if n > 0 && !NoneOvertaken(ops, n - 1, g) {
      k := FirstOvertaken(ops, n - 1, g);
    } else {
      k := n - 1;
    }
  }

  lemma StaleCommitBreaks(s: State, x: int, g: Aggregate)
    requires Stale(s, x, g)
    ensures !InOrder(s.committed + PendingOf(s, x), g)
  {
    if InOrder(s.committed + PendingOf(s, x), g) {
      FirstPending(s.committed, PendingOf(s, x), g);
    }
  }

  /**
   However any number of sessions interleave, the committed rows of an aggregate are numbered 1 to n
   without gap or repetition exactly when no session commits rows of it that it wrote before a
   rival's commit of the same aggregate. What is rolled back does not matter.
   */
  lemma {:induction false} NumberedIffNoneOvertaken(stored: seq<Event>, ops: seq<Op>, g: Aggregate)
    requires Numbered(stored, g.kind, g.id)
    ensures Numbered(Run(State(stored, map[]), ops).committed, g.kind, g.id) <==> NoneOvertaken(ops, |ops|, g)
  {
    hide Run, Overtaken, Apply, Numbered;
    var start := State(stored, map[]);
    if NoneOvertaken(ops, |ops|, g) {
      KnownAlways(stored, ops, |ops|, g);
      assert ops[..|ops|] == ops;
    } else {
      var k := FirstOvertaken(ops, |ops|, g);
      KnownAlways(stored, ops, k, g);
      var s := Run(start, ops[..k]);
      assert Known(s, ops, k, ops[k].session, g);
      StaleCommitBreaks(s, ops[k].session, g);
      CommitAt(start, ops, k);
      CommittedGrows(start, ops, k + 1);
      var now, all := Run(start, ops[..k + 1]).committed, Run(start, ops).committed;
      assert all == now + all[|now|..];
      StaysBroken(now, all[|now|..], g);
    }
  }

  lemma CommitAt(start: State, ops: seq<Op>, k: nat)
    requires k < |ops| && ops[k].Commit?
    ensures var s := Run(start, ops[..k]);
            Run(start, ops[..k + 1]).committed == s.committed + PendingOf(s, ops[k].session)
  {
    assert ops[..k + 1][..k] == ops[..k];
  }

  lemma StaysBroken(a: seq<Event>, b: seq<Event>, g: Aggregate)
    requires !InOrder(a, g)
    ensures !InOrder(a + b, g)
  {
    if InOrder(a + b, g) {
      NumberedPrefix(a, b, g.kind, g.id);
    }
  }

  /** In particular an aggregate that one session alone writes is always numbered 1 to n. */
  lemma {:induction false} SequencesContiguous(stored: seq<Event>, ops: seq<Op>, x: int, g: Aggregate)
    requires Numbered(stored, g.kind, g.id)
    requires forall i :: 0 <= i < |ops| && Writes(ops[i], ops[i].session, g) ==> ops[i].session == x
    ensures Numbered(Run(State(stored, map[]), ops).committed, g.kind, g.id)
  {
    NumberedIffNoneOvertaken(stored, ops, g);
  }

  /** Two sessions that append to an aggregate before either commits: the second to commit is overtaken. */
  lemma TwoWritersCollide(a: string, b: string, g: Aggregate)
    ensures var ops := [Append(0, a, g.kind, g.id, map[]), Append(1, b, g.kind, g.id, map[]), Commit(1), Commit(0)];
            !Numbered(Run(State([], map[]), ops).committed, g.kind, g.id)
  {
    var ops := [Append(0, a, g.kind, g.id, map[]), Append(1, b, g.kind, g.id, map[]), Commit(1), Commit(0)];
    assert Writes(ops[0], 0, g) && Writes(ops[1], 1, g);
    assert Holding(ops, 2, 1, g);
    assert RivalCommits(ops, 2, 0, g);
    assert Overtaken(ops, 3, 0, g);
    NumberedIffNoneOvertaken([], ops, g);
  }
}
