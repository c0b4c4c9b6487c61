/**
 The background strategy run: analysis, simulation, reconciliation, with an in-memory record
 that pollers read and a transactional audit log. The step trace is a list on the heap that the
 stored record shares with the running coroutine.
 */
module StrategyRunner {
  import opened Common
  import opened EventStore

  datatype StepType = RunStarted | AnalysisBuilt | SimulationProjected | UnifiedReconciled | RunCompleted | RunFailed
  datatype Step = Step(stepType: StepType, detail: string)

  /** A Python list of steps. */
  class StepList {
    var items: seq<Step>

    constructor (initial: seq<Step>)
      ensures items == initial
    {
      items := initial;
    }
  }

  datatype Status = Pending | Running | Completed | Failed

  datatype RunRecord<A, S, U> = RunRecord(
    runId: string, status: Status, analysis: Option<A>, simulation: Option<S>, unified: Option<U>,
    error: Option<string>, steps: StepList)

  /** What a poller gets back for a run at one moment. */
  datatype Poll<A, S, U> = Poll(
    status: Status, analysis: Option<A>, simulation: Option<S>, unified: Option<U>,
    error: Option<string>, trace: seq<Step>)

  /** The fallible calls of one run, in the order they are awaited. */
  datatype Faults<!A, !S, !U> = Faults(
    startAppend: AppendOutcome, startCommit: CallOutcome,
    built: Result<Option<A>, Exn>, project: A -> Result<S, Exn>, reconcile: (A, S) -> Result<U, Exn>,
    endAppend: AppendOutcome, endCommit: CallOutcome,
    rollback: CallOutcome, auditAppend: AppendOutcome, auditCommit: CallOutcome)

  /** str(exc) or the class name. */
  function Describe(exn: Exn): (text: string)
    ensures text != ""
  {
    if exn.message != "" then exn.message else exn.className
  }

  const AGGREGATE: string := "strategy_run"

  ghost function PollOf<A, S, U>(r: RunRecord<A, S, U>, trace: seq<Step>): Poll<A, S, U> {
    Poll(r.status, r.analysis, r.simulation, r.unified, r.error, trace)
  }

  /** The module-level store of runs; history is what a poller of the run could have seen so far. */
  class RunStore<A, S, U> {
    var records: map<string, RunRecord<A, S, U>>
    ghost var history: seq<Poll<A, S, U>>

    ghost function View(runId: string): Poll<A, S, U>
      requires runId in records
      reads this, records[runId].steps
    {
      PollOf(records[runId], records[runId].steps.items)
    }

    /** Every await of the run is a moment at which a poller may look. */
    ghost method Await(runId: string)
      requires runId in records
      modifies this`history
      ensures history == old(history) + [View(runId)]
    {
      history := history + [View(runId)];
    }

    method Set(record: RunRecord<A, S, U>)
      modifies this`records
      ensures records == old(records)[record.runId := record]
    {
      records := records[record.runId := record];
    }
  }

  /** The view of a record whose list has, or has not, grown with the coroutine's own. */
  ghost function Grown<A, S, U>(view: Poll<A, S, U>, shared: bool, trace: seq<Step>): Poll<A, S, U> {
    if shared then view.(trace := trace) else view
  }

  /** _emit_step: append to the trace; publishing cannot fail the run. */
  method EmitStep<A, S, U>(store: RunStore<A, S, U>, steps: StepList, runId: string, stepType: StepType, detail: string)
    requires runId in store.records
    modifies steps, store`history
    ensures steps.items == old(steps.items) + [Step(stepType, detail)]
    ensures store.records == old(store.records)
    ensures store.View(runId) == Grown(old(store.View(runId)), store.records[runId].steps == steps, steps.items)
    ensures store.history == old(store.history) + [store.View(runId)]
  {
    steps.items := steps.items + [Step(stepType, detail)];
    store.Await(runId);
  }

  /** _set, and the moment after it. */
  method Publish<A, S, U>(store: RunStore<A, S, U>, record: RunRecord<A, S, U>)
    modifies store
    ensures store.records == old(store.records)[record.runId := record]
    ensures store.history == old(store.history) + [PollOf(record, record.steps.items)]
  {
    store.Set(record);
    store.Await(record.runId);
  }

  // ---------------------------------------------------------------------------
  // The audit log
  // ---------------------------------------------------------------------------

  /** The committed audit rows of a run. */
  ghost function AuditOf(db: Session, runId: string): seq<Event>
    reads db
  {
    EventsOf(db.committed, AGGREGATE, runId)
  }

  /** An append followed by a commit, with other sessions committing foreign rows in between. */
  method Audit(db: Session, runId: string, eventType: string, payload: map<string, string>,
               append: AppendOutcome, commit: CallOutcome, others: seq<Event>)
    returns (r: Result<(), Exn>)
    requires db.pending == [] && Numbered(db.committed, AGGREGATE, runId)
    requires EventsOf(others, AGGREGATE, runId) == []
    modifies db
    ensures r == match append
                 case RaisesBeforeAdd(exn) => Err(exn)
                 case RaisesAfterAdd(exn) => Err(exn)
                 case Appends => match commit case Succeeds => Ok(()) case Raises(exn) => Err(exn)
    ensures r.Ok? ==> db.pending == []
    ensures AuditOf(db, runId) == old(AuditOf(db, runId))
              + (if r.Ok? then [Event(eventType, AGGREGATE, runId, payload, |old(AuditOf(db, runId))| + 1)] else [])
    ensures Numbered(db.committed, AGGREGATE, runId)
  {
    hide EventsOf, Numbered, MaxSequence;
    ghost var before := db.committed;
    assert db.committed + db.pending == before;
    ghost var event := Next(before, eventType, AGGREGATE, runId, payload);
    AuditLands(before, others, event, runId);
    var appended := db.Append(eventType, AGGREGATE, runId, payload, append);
    if appended.Err? {
      return Err(appended.error);
    }
    assert db.pending == [event];
    db.OthersCommit(others);
    assert db.committed + db.pending == before + others + [event];
    r := db.Commit(commit);
  }

  lemma AuditLands(before: seq<Event>, others: seq<Event>, event: Event, runId: string)
    requires Numbered(before, AGGREGATE, runId) && EventsOf(others, AGGREGATE, runId) == []
    requires event.aggregateType == AGGREGATE && event.aggregateId == runId
    requires event.sequence == MaxSequence(before, AGGREGATE, runId) + 1
    ensures EventsOf(before + others, AGGREGATE, runId) == EventsOf(before, AGGREGATE, runId)
    ensures EventsOf(before + others + [event], AGGREGATE, runId) == EventsOf(before, AGGREGATE, runId) + [event]
    ensures event.sequence == |EventsOf(before, AGGREGATE, runId)| + 1
    ensures Numbered(before + others, AGGREGATE, runId) && Numbered(before + others + [event], AGGREGATE, runId)
  {
    MaxOfNumbered(before, AGGREGATE, runId);
    EventsOfConcat(before, others, AGGREGATE, runId);
    assert (before + others + [event])[..|before + others|] == before + others;
  }

  // ---------------------------------------------------------------------------
  // What a run must end with
  // ---------------------------------------------------------------------------

  /** How the work inside the try block ends, before its closing audit write. */
  datatype Work<A, S, U> = NotFound | Broke(exn: Exn) | Done(analysis: A, simulation: S, unified: U)

  function WorkOf<A, S, U>(f: Faults<A, S, U>): Work<A, S, U> {
    match f.built
    case Err(exn) => Broke(exn)
    case Ok(None) => NotFound
    case Ok(Some(analysis)) =>
      match f.project(analysis)
      case Err(exn) => Broke(exn)
      case Ok(simulation) =>
        match f.reconcile(analysis, simulation)
        case Err(exn) => Broke(exn)
        case Ok(unified) => Done(analysis, simulation, unified)
  }

  function FailureOf(append: AppendOutcome, commit: CallOutcome): Option<Exn> {
    match append
    case RaisesBeforeAdd(exn) => Some(exn)
    case RaisesAfterAdd(exn) => Some(exn)
    case Appends => match commit case Succeeds => None case Raises(exn) => Some(exn)
  }

  /** The exception that leaves the try block, if any. */
  function Escapes<A, S, U>(f: Faults<A, S, U>): Option<Exn> {
    match WorkOf(f)
    case Broke(exn) => Some(exn)
    case _ => FailureOf(f.endAppend, f.endCommit)
  }

  /** No finished record is ever taken back: the work broke before there was one, or its audit holds. */
  predicate ClosingAuditHolds<A, S, U>(f: Faults<A, S, U>) {
    WorkOf(f).Broke? || FailureOf(f.endAppend, f.endCommit) == None
  }

  lemma WhenClosingHolds<A, S, U>(f: Faults<A, S, U>)
    ensures Escapes(f) == None ==> ClosingAuditHolds(f) && !WorkOf(f).Broke?
    ensures Escapes(f).Some? ==> (ClosingAuditHolds(f) <==> WorkOf(f).Broke?)
  {
  }

  /** The last audit write a run attempts goes through. */
  predicate LastAuditSucceeds<A, S, U>(f: Faults<A, S, U>) {
    Escapes(f) == None || (f.rollback.Succeeds? && FailureOf(f.auditAppend, f.auditCommit) == None)
  }

  const PORTFOLIO_NOT_FOUND: string := "portfolio_not_found"

  /** Status, error and results of the final record. */
  ghost predicate EndsAs<A, S, U>(f: Faults<A, S, U>, r: RunRecord<A, S, U>) {
    match Escapes(f)
    case Some(exn) => r.status == Failed && r.error == Some(Describe(exn))
    case None =>
      match WorkOf(f)
      case Done(a, s, u) =>
        r.status == Completed && r.analysis == Some(a) && r.simulation == Some(s) &&
        r.unified == Some(u) && r.error == None
      case _ => r.status == Failed && r.error == Some(PORTFOLIO_NOT_FOUND)
  }

  function Started(runId: string, portfolioId: string): Event {
    Event("strategy.run_started", AGGREGATE, runId, map["portfolio_id" := portfolioId], 1)
  }

  /** A terminal row that tells the same story as a record. */
  ghost predicate TerminalFor<A, S, U>(e: Event, r: RunRecord<A, S, U>) {
    && e.aggregateType == AGGREGATE && e.aggregateId == r.runId && e.sequence == 2
    && (r.status == Completed ==> e.eventType == "strategy.run_completed")
    && (r.status == Failed ==>
        e.eventType == "strategy.run_failed" && r.error.Some? && e.payload == map["error" := r.error.value])
  }

  /** The audit rows of a run are the opening row and one terminal row for the record. */
  ghost predicate ClosedBy<A, S, U>(rows: seq<Event>, started: Event, r: RunRecord<A, S, U>) {
    |rows| == 2 && rows[0] == started && TerminalFor(rows[1], r)
  }

  // ---------------------------------------------------------------------------
  // What a run must show
  // ---------------------------------------------------------------------------

  /** The steps of the try block. */
  function AttemptSteps<A, S, U>(f: Faults<A, S, U>, portfolioId: string): seq<Step> {
    match f.built
    case Err(_) => []
    case Ok(None) => [Step(RunFailed, portfolioId)]
    case Ok(Some(analysis)) =>
      match f.project(analysis)
      case Err(_) => [Step(AnalysisBuilt, "")]
      case Ok(simulation) =>
        match f.reconcile(analysis, simulation)
        case Err(_) => [Step(AnalysisBuilt, ""), Step(SimulationProjected, "")]
        case Ok(_) => [Step(AnalysisBuilt, ""), Step(SimulationProjected, ""), Step(UnifiedReconciled, ""),
                       Step(RunCompleted, "")]
  }

  /** All steps a run appends. */
  function StepsOf<A, S, U>(f: Faults<A, S, U>, portfolioId: string): seq<Step> {
    [Step(RunStarted, portfolioId)] + AttemptSteps(f, portfolioId)
    + (match Escapes(f) case None => [] case Some(exn) => [Step(RunFailed, Describe(exn))])
  }

  function Nothing<A, S, U>(status: Status, error: Option<string>, trace: seq<Step>): Poll<A, S, U> {
    Poll(status, None, None, None, error, trace)
  }

  function Partly<A, S, U>(a: A, s: Option<S>, trace: seq<Step>): Poll<A, S, U> {
    Poll(Running, Some(a), s, None, None, trace)
  }

  /** What pollers see in the try block, which begins with trace t. */
  function AttemptPolls<A, S, U>(f: Faults<A, S, U>, portfolioId: string, t: seq<Step>): seq<Poll<A, S, U>> {
    match f.built
    case Err(_) => []
    case Ok(None) =>
      var t1 := t + [Step(RunFailed, portfolioId)];
      [Nothing(Running, None, t1), Nothing(Failed, Some(PORTFOLIO_NOT_FOUND), t1)]
    case Ok(Some(a)) =>
      var t1 := t + [Step(AnalysisBuilt, "")];
      [Nothing(Running, None, t1), Partly(a, None, t1)] + ProjectPolls(f, a, t1)
  }

  function ProjectPolls<A, S, U>(f: Faults<A, S, U>, a: A, t: seq<Step>): seq<Poll<A, S, U>> {
    match f.project(a)
    case Err(_) => []
    case Ok(s) =>
      var t1 := t + [Step(SimulationProjected, "")];
      [Partly(a, None, t), Partly(a, Some(s), t1)] + ReconcilePolls(f, a, s, t1)
  }

  function ReconcilePolls<A, S, U>(f: Faults<A, S, U>, a: A, s: S, t: seq<Step>): seq<Poll<A, S, U>> {
    match f.reconcile(a, s)
    case Err(_) => []
    case Ok(u) =>
      [Partly(a, Some(s), t), Partly(a, Some(s), t),
       Poll(Completed, Some(a), Some(s), Some(u), None,
            t + [Step(UnifiedReconciled, ""), Step(RunCompleted, "")])]
  }

  /** The stored record holds the coroutine's own list: no stage has been published, or the last record has. */
  predicate Shared<A, S, U>(f: Faults<A, S, U>) {
    f.built.Err? || !WorkOf(f).Broke?
  }

  /** What pollers see of a run from its first step on. */
  function PollsOf<A, S, U>(f: Faults<A, S, U>, portfolioId: string, t: seq<Step>): (polls: seq<Poll<A, S, U>>)
    ensures polls != [] && polls[0] == Nothing(Running, None, t)
  {
    var polls := [Nothing(Running, None, t)] + AttemptPolls(f, portfolioId, t);
    match Escapes(f)
    case None => polls
    case Some(exn) => polls + HandlerPolls(polls[|polls| - 1], Shared(f), exn, t + AttemptSteps(f, portfolioId))
  }

  function HandlerPolls<A, S, U>(view: Poll<A, S, U>, shared: bool, exn: Exn, t: seq<Step>): seq<Poll<A, S, U>> {
    var t1 := t + [Step(RunFailed, Describe(exn))];
    [if shared then view.(trace := t1) else view, Nothing(Failed, Some(Describe(exn)), t1)]
  }

  // ---------------------------------------------------------------------------
  // The run
  // ---------------------------------------------------------------------------

  /** A record that start_strategy_run has registered and nobody has touched since. */
  ghost predicate FreshRecord<A, S, U>(r: RunRecord<A, S, U>, runId: string) {
    r.runId == runId && r.status == Pending && r.analysis == None &&
    r.simulation == None && r.unified == None && r.error == None
  }

  /** The record a run works with: no results yet. */
  ghost predicate IsRunning<A, S, U>(r: RunRecord<A, S, U>, runId: string) {
    r == RunRecord(runId, Running, None, None, None, None, r.steps)
  }

  /** One finished stage: emit its step, then publish the partial record with a copy of the trace. */
  method Stage<A, S, U>(store: RunStore<A, S, U>, running: RunRecord<A, S, U>, stepType: StepType,
                        analysis: Option<A>, simulation: Option<S>)
    requires IsRunning(running, running.runId) && running.runId in store.records
    modifies store, running.steps
    ensures running.steps.items == old(running.steps.items) + [Step(stepType, "")]
    ensures running.runId in store.records
    ensures store.records == old(store.records)[running.runId := store.records[running.runId]]
    ensures store.records[running.runId].steps != running.steps
    ensures store.View(running.runId) == Poll(Running, analysis, simulation, None, None, running.steps.items)
    ensures store.history == old(store.history)
              + [Grown(old(store.View(running.runId)), old(store.records[running.runId].steps) == running.steps,
                       running.steps.items),
                 store.View(running.runId)]
  {
    EmitStep(store, running.steps, running.runId, stepType, "");
    var copy := new StepList(running.steps.items);
    Publish(store, running.(analysis := analysis, simulation := simulation, steps := copy));
  }

  lemma NoneIsNumbered(committed: seq<Event>, runId: string)
    requires EventsOf(committed, AGGREGATE, runId) == []
    ensures Numbered(committed, AGGREGATE, runId)
  {
  }

  lemma OpenIsNumbered(committed: seq<Event>, runId: string, portfolioId: string)
    requires EventsOf(committed, AGGREGATE, runId) == [Started(runId, portfolioId)]
    ensures Numbered(committed, AGGREGATE, runId)
  {
  }

  /** The last two calls of each way through the try block: store the final record, then audit it. */
  method Close<A, S, U>(store: RunStore<A, S, U>, db: Session, portfolioId: string, record: RunRecord<A, S, U>,
                        eventType: string, payload: map<string, string>, f: Faults<A, S, U>, others: seq<Event>)
    returns (r: Result<RunRecord<A, S, U>, Exn>)
    requires AuditOf(db, record.runId) == [Started(record.runId, portfolioId)] && db.pending == []
    requires EventsOf(others, AGGREGATE, record.runId) == []
    modifies store, db
    ensures store.records == old(store.records)[record.runId := record]
    ensures store.history == old(store.history) + [PollOf(record, record.steps.items)]
    ensures match FailureOf(f.endAppend, f.endCommit)
            case Some(exn) => r == Err(exn) && AuditOf(db, record.runId) == [Started(record.runId, portfolioId)]
            case None =>
              && r == Ok(record)
              && AuditOf(db, record.runId)
                 == [Started(record.runId, portfolioId), Event(eventType, AGGREGATE, record.runId, payload, 2)]
  {
    hide EventsOf, Numbered;
    OpenIsNumbered(db.committed, record.runId, portfolioId);
    Publish(store, record);
    var audited := Audit(db, record.runId, eventType, payload, f.endAppend, f.endCommit, others);
    r := match audited case Ok(_) => Ok(record) case Err(exn) => Err(exn);
  }

  /** The body of the try block; an Err is the exception that reaches the handler. */
  method Attempt<A, S, U>(store: RunStore<A, S, U>, db: Session, runId: string, portfolioId: string, f: Faults<A, S, U>,
                          running: RunRecord<A, S, U>, others: seq<Event>)
    returns (r: Result<RunRecord<A, S, U>, Exn>)
    requires IsRunning(running, runId) && runId in store.records && store.records[runId] == running
    requires AuditOf(db, runId) == [Started(runId, portfolioId)] && db.pending == []
    requires EventsOf(others, AGGREGATE, runId) == []
    modifies store, db, running.steps
    ensures running.steps.items == old(running.steps.items) + AttemptSteps(f, portfolioId)
    ensures runId in store.records
    ensures store.history == old(store.history) + AttemptPolls(f, portfolioId, old(running.steps.items))
    ensures store.records == old(store.records)[runId := store.records[runId]]
    ensures store.records[runId].steps == running.steps <==> Shared(f)
    ensures var polls := [Nothing(Running, None, old(running.steps.items))]
                         + AttemptPolls(f, portfolioId, old(running.steps.items));
            store.View(runId) == polls[|polls| - 1]
    ensures r.Err? <==> Escapes(f).Some?
    ensures r.Err? ==> r.error == Escapes(f).value && AuditOf(db, runId) == [Started(runId, portfolioId)]
    ensures r.Ok? ==> store.records[runId] == r.value && r.value.steps == running.steps
    ensures r.Ok? ==> EndsAs(f, r.value) && r.value.runId == runId
    ensures r.Ok? ==> ClosedBy(AuditOf(db, runId), Started(runId, portfolioId), r.value)
  {
    hide EventsOf, AuditOf;
    assert store.records == old(store.records)[runId := store.records[runId]];
    if f.built.Err? {
      return Err(f.built.error);
    }
    if f.built.value == None {
      EmitStep(store, running.steps, runId, RunFailed, portfolioId);
      var failed := running.(status := Failed, error := Some(PORTFOLIO_NOT_FOUND));
      r := Close(store, db, portfolioId, failed, "strategy.run_failed", map["error" := PORTFOLIO_NOT_FOUND],
                 f, others);
      return;
    }
    var analysis := f.built.value.value;
    Stage(store, running, AnalysisBuilt, Some(analysis), None);

    var projected := f.project(analysis);
    if projected.Err? {
      return Err(projected.error);
    }
    var simulation := projected.value;
    Stage(store, running, SimulationProjected, Some(analysis), Some(simulation));

    var reconciled := f.reconcile(analysis, simulation);
    if reconciled.Err? {
      return Err(reconciled.error);
    }
    var unified := reconciled.value;
    r := Complete(store, db, portfolioId, running, analysis, simulation, unified, f, others);
    assert running.steps.items == old(running.steps.items) + [Step(AnalysisBuilt, "")] + [Step(SimulationProjected, "")]
                                  + [Step(UnifiedReconciled, ""), Step(RunCompleted, "")];
  }

  /** The end of a run that works, whose stored record has a copy of the trace. */
  method Complete<A, S, U>(store: RunStore<A, S, U>, db: Session, portfolioId: string, running: RunRecord<A, S, U>,
                           analysis: A, simulation: S, unified: U, f: Faults<A, S, U>, others: seq<Event>)
    returns (r: Result<RunRecord<A, S, U>, Exn>)
    requires IsRunning(running, running.runId) && running.runId in store.records
    requires store.records[running.runId].steps != running.steps
    requires store.View(running.runId) == Partly(analysis, Some(simulation), running.steps.items)
    requires f.reconcile(analysis, simulation) == Ok(unified)
    requires AuditOf(db, running.runId) == [Started(running.runId, portfolioId)] && db.pending == []
    requires EventsOf(others, AGGREGATE, running.runId) == []
    modifies store, db, running.steps
    ensures running.steps.items == old(running.steps.items) + [Step(UnifiedReconciled, ""), Step(RunCompleted, "")]
    ensures store.history == old(store.history) + ReconcilePolls(f, analysis, simulation, old(running.steps.items))
    ensures var done := RunRecord(running.runId, Completed, Some(analysis), Some(simulation), Some(unified), None,
                                  running.steps);
            && store.records == old(store.records)[running.runId := done]
            && match FailureOf(f.endAppend, f.endCommit)
               case Some(exn) => r == Err(exn) && AuditOf(db, running.runId) == [Started(running.runId, portfolioId)]
               case None =>
                 r == Ok(done)
                 && ClosedBy(AuditOf(db, running.runId), Started(running.runId, portfolioId), done)
  {
    hide EventsOf, AuditOf;
    EmitStep(store, running.steps, running.runId, UnifiedReconciled, "");
    EmitStep(store, running.steps, running.runId, RunCompleted, "");
    var completed := running.(status := Completed, analysis := Some(analysis), simulation := Some(simulation),
                              unified := Some(unified));
    assert running.steps.items == old(running.steps.items) + [Step(UnifiedReconciled, ""), Step(RunCompleted, "")];
    r := Close(store, db, portfolioId, completed, "strategy.run_completed", map[], f, others);
  }

  /** The exception handler: report, roll back, audit; a failing audit never masks the failure. */
  method Handle<A, S, U>(store: RunStore<A, S, U>, db: Session, runId: string, f: Faults<A, S, U>, exn: Exn,
                         running: RunRecord<A, S, U>, others: seq<Event>)
    returns (failed: RunRecord<A, S, U>)
    requires IsRunning(running, runId) && runId in store.records
    requires Numbered(db.committed, AGGREGATE, runId) && EventsOf(others, AGGREGATE, runId) == []
    modifies store, db, running.steps
    ensures failed == running.(status := Failed, error := Some(Describe(exn)))
    ensures store.records == old(store.records)[runId := failed]
    ensures running.steps.items == old(running.steps.items) + [Step(RunFailed, Describe(exn))]
    ensures store.history == old(store.history)
              + HandlerPolls(old(store.View(runId)), old(store.records[runId].steps) == running.steps, exn,
                             old(running.steps.items))
    ensures AuditOf(db, runId) == old(AuditOf(db, runId)) +
              (if f.rollback.Succeeds? && FailureOf(f.auditAppend, f.auditCommit) == None
               then [Event("strategy.run_failed", AGGREGATE, runId, map["error" := Describe(exn)],
                            |old(AuditOf(db, runId))| + 1)]
               else [])
  {
    EmitStep(store, running.steps, runId, RunFailed, Describe(exn));
    failed := running.(status := Failed, error := Some(Describe(exn)));
    Publish(store, failed);
    var rolledBack := db.Rollback(f.rollback);
    if rolledBack.Ok? {
      var audited := Audit(db, runId, "strategy.run_failed", map["error" := Describe(exn)],
                           f.auditAppend, f.auditCommit, others);
    }
  }

  /** What a poller sees of a registered run before it runs. */
  ghost function Registered<A, S, U>(records: map<string, RunRecord<A, S, U>>, runId: string): seq<Poll<A, S, U>>
    reads if runId in records then {records[runId].steps} else {}
  {
    if runId in records then [Nothing(Pending, None, records[runId].steps.items)] else []
  }

  ghost function PriorTrace<A, S, U>(records: map<string, RunRecord<A, S, U>>, runId: string): seq<Step>
    reads if runId in records then {records[runId].steps} else {}
  {
    if runId in records then records[runId].steps.items else []
  }

  /** Everything before the opening audit write: the first step and the running record. */
  method Begin<A, S, U>(store: RunStore<A, S, U>, runId: string, portfolioId: string)
    returns (running: RunRecord<A, S, U>)
    requires runId in store.records ==> FreshRecord(store.records[runId], runId)
    modifies store
    ensures fresh(running.steps) && IsRunning(running, runId)
    ensures running.steps.items == old(PriorTrace(store.records, runId)) + [Step(RunStarted, portfolioId)]
    ensures store.records == old(store.records)[runId := running]
    ensures store.history == old(store.history) + old(Registered(store.records, runId))
                             + [Nothing(Running, None, running.steps.items)]
  {
    var prior := if runId in store.records then store.records[runId].steps.items else [];
    var steps := new StepList(prior);
    // While the opening step is published the store still holds the pending record, if any.
    steps.items := steps.items + [Step(RunStarted, portfolioId)];
    if runId in store.records {
      store.Await(runId);
    }
    running := RunRecord(runId, Running, None, None, None, None, steps);
    Publish(store, running);
  }

  lemma NothingEscaped<A, S, U>(f: Faults<A, S, U>)
    ensures Escapes(f) == None ==> LastAuditSucceeds(f)
  {
  }

  /** The handler's record and audit row are what an escaped exception must leave. */
  lemma FailedRunStory<A, S, U>(f: Faults<A, S, U>, exn: Exn, failed: RunRecord<A, S, U>, portfolioId: string)
    requires Escapes(f) == Some(exn) && failed.status == Failed && failed.error == Some(Describe(exn))
    ensures EndsAs(f, failed)
    ensures LastAuditSucceeds(f) <==> f.rollback.Succeeds? && FailureOf(f.auditAppend, f.auditCommit) == None
    ensures ClosedBy([Started(failed.runId, portfolioId)]
                     + [Event("strategy.run_failed", AGGREGATE, failed.runId, map["error" := Describe(exn)], 2)],
                     Started(failed.runId, portfolioId), failed)
  {
  }

  // ---------------------------------------------------------------------------
  // What the trace tells
  // ---------------------------------------------------------------------------

  const FULL: seq<StepType> := [RunStarted, AnalysisBuilt, SimulationProjected, UnifiedReconciled, RunCompleted]

  function Types(steps: seq<Step>): seq<StepType> {
    seq(|steps|, i requires 0 <= i < |steps| => steps[i].stepType)
  }

  /** How many of the calls that build, project and reconcile succeed before one raises. */
  function Succeeded<A, S, U>(f: Faults<A, S, U>): nat {
    if !(f.built.Ok? && f.built.value.Some?) then 0
    else if f.project(f.built.value.value).Err? then 1
    else if f.reconcile(f.built.value.value, f.project(f.built.value.value).value).Err? then 2
    else 3
  }

  /**
   The trace of a run that works is complete, that of one that breaks has the stages reached, and
   whatever fails is told at the end, a closing audit that raises included.
   */
  ghost predicate Tells<A, S, U>(types: seq<StepType>, f: Faults<A, S, U>) {
    var raised := if FailureOf(f.endAppend, f.endCommit).Some? then [RunFailed] else [];
    if f.built.Ok? && f.built.value == None then types == [RunStarted, RunFailed] + raised
    else if Succeeded(f) == 3 then types == FULL + raised
    else types == FULL[..Succeeded(f) + 1] + [RunFailed]
  }

  lemma StepsTell<A, S, U>(f: Faults<A, S, U>, portfolioId: string)
    ensures Tells(Types(StepsOf(f, portfolioId)), f)
  {
    var types, raised := Types(StepsOf(f, portfolioId)), FailureOf(f.endAppend, f.endCommit);
    if f.built.Err? {
      assert types == [RunStarted] + [RunFailed] == FULL[..1] + [RunFailed];
    } else if f.built.value == None {
      assert types == [RunStarted, RunFailed] + (if raised.Some? then [RunFailed] else []);
    } else if Succeeded(f) == 1 {
      assert types == [RunStarted, AnalysisBuilt] + [RunFailed] == FULL[..2] + [RunFailed];
    } else if Succeeded(f) == 2 {
      assert types == [RunStarted, AnalysisBuilt, SimulationProjected] + [RunFailed] == FULL[..3] + [RunFailed];
    } else {
      assert types == FULL + (if raised.Some? then [RunFailed] else []);
    }
  }

  // ---------------------------------------------------------------------------
  // What pollers may rely on
  // ---------------------------------------------------------------------------

  /** A finished record as the documentation promises it. */
  ghost predicate Consistent<A, S, U>(p: Poll<A, S, U>) {
    && (p.status == Completed ==> p.analysis.Some? && p.simulation.Some? && p.unified.Some? && p.error == None)
    && (p.status == Failed ==> p.error.Some? && p.error.value != "")
  }

  /** The polls are consistent, and no trace ever loses a step. */
  ghost predicate Growing<A, S, U>(polls: seq<Poll<A, S, U>>) {
    && (forall i :: 0 <= i < |polls| ==> Consistent(polls[i]))
    && (forall i, j :: 0 <= i < j < |polls| ==> polls[i].trace <= polls[j].trace)
  }

  lemma OneMoreGrows<A, S, U>(polls: seq<Poll<A, S, U>>, more: seq<Poll<A, S, U>>)
    requires Growing(polls) && Growing(more)
    requires polls != [] && more != [] ==> polls[|polls| - 1].trace <= more[0].trace
    ensures Growing(polls + more)
  {
    forall i, j | 0 <= i < |polls| && 0 <= j < |more| ensures polls[i].trace <= more[j].trace {
      assert polls[i].trace <= polls[|polls| - 1].trace;
      assert more[0].trace <= more[j].trace;
    }
  }

  predicate Terminal<A, S, U>(p: Poll<A, S, U>) { p.status == Completed || p.status == Failed }

  /** Whoever saw the run finished saw what it is now. */
  ghost predicate Settled<A, S, U>(polls: seq<Poll<A, S, U>>) {
    forall i :: 0 <= i < |polls| && Terminal(polls[i]) ==> polls[i] == polls[|polls| - 1]
  }

  /**
   Results are those of the calls. A poll of a running or completed run has the result of every stage
   its own steps report, but for the analysis, which may be one poll late; a failed one reports a failure.
   */
  ghost predicate Shows<A, S, U>(f: Faults<A, S, U>, p: Poll<A, S, U>, start: seq<Step>) {
    && start <= p.trace
    && var own := Types(p.trace[|start|..]);
    && (p.analysis.Some? ==> f.built == Ok(p.analysis))
    && (p.simulation.Some? ==> p.analysis.Some? && f.project(p.analysis.value) == Ok(p.simulation.value))
    && (p.unified.Some? ==>
          p.simulation.Some? && f.reconcile(p.analysis.value, p.simulation.value) == Ok(p.unified.value))
    && (p.status == Running && AnalysisBuilt in own ==> p.analysis.Some? || own == [AnalysisBuilt])
    && (p.status == Running && SimulationProjected in own ==> p.simulation.Some?)
    && (p.status == Completed <==> p.unified.Some?)
    && (p.status == Completed ==> FULL[1..] <= own)
    && (p.status == Failed ==> own != [] && own[|own| - 1] == RunFailed)
  }

  ghost predicate AllShow<A, S, U>(f: Faults<A, S, U>, polls: seq<Poll<A, S, U>>, start: seq<Step>) {
    forall i :: 0 <= i < |polls| ==> Shows(f, polls[i], start)
  }

  /** What pollers see in the try block is in order and shows what the calls gave. */
  ghost predicate Sound<A, S, U>(f: Faults<A, S, U>, polls: seq<Poll<A, S, U>>, start: seq<Step>, now: seq<Step>) {
    Growing(polls) && AllShow(f, polls, start) && (polls != [] ==> now <= polls[0].trace)
  }

  lemma OwnSteps(start: seq<Step>, own: seq<Step>)
    ensures (start + own)[|start|..] == own
  {
  }

  lemma ReconcileSound<A, S, U>(f: Faults<A, S, U>, a: A, s: S, start: seq<Step>, t: seq<Step>)
    requires f.built == Ok(Some(a)) && f.project(a) == Ok(s)
    requires t == start + [Step(AnalysisBuilt, ""), Step(SimulationProjected, "")]
    ensures Sound(f, ReconcilePolls(f, a, s, t), start, t)
  {
    if f.reconcile(a, s).Ok? {
      var own := [Step(AnalysisBuilt, ""), Step(SimulationProjected, "")];
      var all := own + [Step(UnifiedReconciled, ""), Step(RunCompleted, "")];
      OwnSteps(start, own);
      OwnSteps(start, all);
      assert start + all == t + [Step(UnifiedReconciled, ""), Step(RunCompleted, "")];
      assert Types(own) == [AnalysisBuilt, SimulationProjected] && Types(all) == FULL[1..];
      hide Types;
      var polls := ReconcilePolls(f, a, s, t);
      assert Shows(f, polls[0], start) && Shows(f, polls[2], start);
    }
  }

  lemma ProjectSound<A, S, U>(f: Faults<A, S, U>, a: A, start: seq<Step>, t: seq<Step>)
    requires f.built == Ok(Some(a)) && t == start + [Step(AnalysisBuilt, "")]
    ensures Sound(f, ProjectPolls(f, a, t), start, t)
  {
    if f.project(a).Ok? {
      var s, own := f.project(a).value, [Step(AnalysisBuilt, "")];
      var more := own + [Step(SimulationProjected, "")];
      OwnSteps(start, own);
      OwnSteps(start, more);
      var t1 := t + [Step(SimulationProjected, "")];
      assert start + more == t1;
      ReconcileSound(f, a, s, start, t1);
      assert Types(own) == [AnalysisBuilt] && Types(more) == [AnalysisBuilt, SimulationProjected];
      hide Types, ReconcilePolls;
      assert Shows(f, Partly(a, None, t), start) && Shows(f, Partly(a, Some(s), t1), start);
      hide Shows;
      OneMoreGrows([Partly(a, None, t), Partly(a, Some(s), t1)], ReconcilePolls(f, a, s, t1));
    }
  }

  lemma AttemptSound<A, S, U>(f: Faults<A, S, U>, portfolioId: string, t: seq<Step>)
    ensures Sound(f, [Nothing(Running, None, t)] + AttemptPolls(f, portfolioId, t), t, t)
  {
    var first := Nothing<A, S, U>(Running, None, t);
    FirstShows(f, t);
    if f.built == Ok(None) {
      var own := [Step(RunFailed, portfolioId)];
      OwnSteps(t, own);
      assert Types(own) == [RunFailed];
      hide Types;
      assert Shows(f, Nothing(Running, None, t + own), t);
      assert Shows(f, Nothing(Failed, Some(PORTFOLIO_NOT_FOUND), t + own), t);
      hide Shows;
    } else if f.built.Ok? {
      BuiltSound(f, portfolioId, f.built.value.value, t);
      var polls := AttemptPolls(f, portfolioId, t);
      hide AttemptPolls, Shows;
      OneMoreGrows([first], polls);
    }
  }

  lemma FirstShows<A, S, U>(f: Faults<A, S, U>, t: seq<Step>)
    ensures Shows(f, Nothing(Running, None, t), t)
  {
    assert t[|t|..] == [] && Types([]) == [];
  }

  lemma BuiltSound<A, S, U>(f: Faults<A, S, U>, portfolioId: string, a: A, t: seq<Step>)
    requires f.built == Ok(Some(a))
    ensures Sound(f, AttemptPolls(f, portfolioId, t), t, t)
  {
    var own := [Step(AnalysisBuilt, "")];
    OwnSteps(t, own);
    ProjectSound(f, a, t, t + own);
    assert Types(own) == [AnalysisBuilt];
    hide Types, ProjectPolls;
    var built := [Nothing(Running, None, t + own), Partly(a, None, t + own)];
    assert Shows(f, built[0], t) && Shows(f, built[1], t);
    hide Shows;
    OneMoreGrows(built, ProjectPolls(f, a, t + own));
    assert built + ProjectPolls(f, a, t + own) == AttemptPolls(f, portfolioId, t);
  }

  /** The last poll of the try block: its trace, and what the handler makes of it. */
  lemma LastOfAttempt<A, S, U>(f: Faults<A, S, U>, portfolioId: string, t: seq<Step>)
    ensures var polls := [Nothing(Running, None, t)] + AttemptPolls(f, portfolioId, t);
            var last := polls[|polls| - 1];
            && last.trace == t + AttemptSteps(f, portfolioId)
            && (Terminal(last) <==> !WorkOf(f).Broke?)
            && (last.status == Running && last.analysis == None ==> last.trace == t)
            && (forall i :: 0 <= i < |polls| - 1 ==> !Terminal(polls[i]))
  {
  }

  /** Every poll from the first step on is in order and shows what the calls gave, up to the final trace. */
  lemma PollsSound<A, S, U>(f: Faults<A, S, U>, portfolioId: string, t: seq<Step>)
    ensures var polls := PollsOf(f, portfolioId, t);
            && Sound(f, polls, t, t)
            && polls[|polls| - 1].trace == t + StepsOf(f, portfolioId)[1..]
  {
    AttemptSound(f, portfolioId, t);
    LastOfAttempt(f, portfolioId, t);
    var polls := [Nothing(Running, None, t)] + AttemptPolls(f, portfolioId, t);
    var steps := AttemptSteps(f, portfolioId);
    hide AttemptPolls, AttemptSteps, Escapes, Shared;
    match Escapes(f) {
      case None =>
        assert StepsOf(f, portfolioId)[1..] == steps;
      case Some(exn) =>
        hide Sound;
        assert StepsOf(f, portfolioId)[1..] == steps + [Step(RunFailed, Describe(exn))];
        assert t + steps + [Step(RunFailed, Describe(exn))] == t + (steps + [Step(RunFailed, Describe(exn))]);
        HandlerSound(f, polls, Shared(f), exn, t);
    }
  }

  lemma HandlerSound<A, S, U>(f: Faults<A, S, U>, polls: seq<Poll<A, S, U>>, shared: bool, exn: Exn, t: seq<Step>)
    requires polls != [] && Sound(f, polls, t, t)
    requires var last := polls[|polls| - 1]; last.status == Running && last.analysis == None ==> last.trace == t
    ensures var last := polls[|polls| - 1];
            Sound(f, polls + HandlerPolls(last, shared, exn, last.trace), t, t)
  {
    var last := polls[|polls| - 1];
    assert Shows(f, last, t);
    GrownShows(f, last, t, Step(RunFailed, Describe(exn)));
    HandlerGrows(polls, shared, exn, last.trace);
    hide Shows, Growing;
  }

  lemma GrownShows<A, S, U>(f: Faults<A, S, U>, p: Poll<A, S, U>, start: seq<Step>, step: Step)
    requires Shows(f, p, start) && step.stepType == RunFailed
    requires p.status == Running && p.analysis == None ==> p.trace == start
    ensures Shows(f, p.(trace := p.trace + [step]), start)
    ensures Shows(f, Nothing(Failed, Some(step.detail), p.trace + [step]), start)
  {
    var own := p.trace[|start|..];
    assert (p.trace + [step])[|start|..] == own + [step];
    assert Types(own + [step]) == Types(own) + [RunFailed];
    assert p.trace == start ==> Types(own) == [];
  }

  lemma HandlerGrows<A, S, U>(polls: seq<Poll<A, S, U>>, shared: bool, exn: Exn, t: seq<Step>)
    requires Growing(polls) && polls != [] && polls[|polls| - 1].trace == t
    ensures Growing(polls + HandlerPolls(polls[|polls| - 1], shared, exn, t))
  {
    OneMoreGrows(polls, HandlerPolls(polls[|polls| - 1], shared, exn, t));
  }

  /** A finished run that a poller sees is what it stays exactly when the closing audit holds. */
  lemma PollsSettle<A, S, U>(f: Faults<A, S, U>, portfolioId: string, t: seq<Step>)
    ensures Settled(PollsOf(f, portfolioId, t)) <==> ClosingAuditHolds(f)
  {
    LastOfAttempt(f, portfolioId, t);
    WhenClosingHolds(f);
    var before, all := [Nothing(Running, None, t)] + AttemptPolls(f, portfolioId, t), PollsOf(f, portfolioId, t);
    hide AttemptPolls, WorkOf, Escapes, ClosingAuditHolds;
    if Escapes(f).Some? {
      var n := |before| - 1;
      assert all[n] == before[n] && |all[n].trace| < |all[n + 2].trace|;
      assert forall i :: 0 <= i < n ==> all[i] == before[i];
    }
  }

  // ---------------------------------------------------------------------------
  // The whole run
  // ---------------------------------------------------------------------------

  function Last<A, S, U>(polls: seq<Poll<A, S, U>>): Poll<A, S, U>
    requires polls != []
  {
    polls[|polls| - 1]
  }

  /** The polls behind the first. */
  function Later<A, S, U>(f: Faults<A, S, U>, portfolioId: string, t: seq<Step>): seq<Poll<A, S, U>> {
    PollsOf(f, portfolioId, t)[1..]
  }

  /** The try statement: the attempt and, if an exception escapes it, the handler. */
  method Proceed<A, S, U>(store: RunStore<A, S, U>, db: Session, runId: string, portfolioId: string, f: Faults<A, S, U>,
                          running: RunRecord<A, S, U>, others1: seq<Event>, others2: seq<Event>)
    returns (finished: RunRecord<A, S, U>)
    requires IsRunning(running, runId) && runId in store.records && store.records[runId] == running
    requires AuditOf(db, runId) == [Started(runId, portfolioId)] && db.pending == []
    requires EventsOf(others1, AGGREGATE, runId) == [] && EventsOf(others2, AGGREGATE, runId) == []
    modifies store, db, running.steps
    ensures store.records == old(store.records)[runId := finished] && EndsAs(f, finished)
    ensures finished.steps == running.steps
    ensures running.steps.items == old(running.steps.items) + StepsOf(f, portfolioId)[1..]
    ensures store.history == old(store.history) + Later(f, portfolioId, old(running.steps.items))
    ensures store.View(runId) == Last(PollsOf(f, portfolioId, old(running.steps.items)))
    ensures LastAuditSucceeds(f) ==> ClosedBy(AuditOf(db, runId), Started(runId, portfolioId), finished)
    ensures !LastAuditSucceeds(f) ==> AuditOf(db, runId) == [Started(runId, portfolioId)]
  {
    hide EventsOf, Numbered, EndsAs, ClosedBy, LastAuditSucceeds, FailureOf, Escapes, WorkOf, Shared, AttemptPolls,
      AttemptSteps, HandlerPolls, PollsOf, StepsOf, Later;
    NothingEscaped(f);
    ghost var before, t := store.history, running.steps.items;
    var attempt := Attempt(store, db, runId, portfolioId, f, running, others1);
    if attempt.Ok? {
      WhenKept(f, portfolioId, t);
      return attempt.value;
    }
    WhenRaised(before, f, portfolioId, t, attempt.error);
    OpenIsNumbered(db.committed, runId, portfolioId);
    FailedRunStory(f, attempt.error, running.(status := Failed, error := Some(Describe(attempt.error))), portfolioId);
    finished := Handle(store, db, runId, f, attempt.error, running, others2);
  }

  lemma WhenKept<A, S, U>(f: Faults<A, S, U>, portfolioId: string, t: seq<Step>)
    requires Escapes(f) == None
    ensures PollsOf(f, portfolioId, t) == [Nothing(Running, None, t)] + AttemptPolls(f, portfolioId, t)
    ensures Later(f, portfolioId, t) == AttemptPolls(f, portfolioId, t)
    ensures StepsOf(f, portfolioId)[1..] == AttemptSteps(f, portfolioId)
  {
    hide AttemptPolls, AttemptSteps;
  }

  lemma WhenRaised<A, S, U>(before: seq<Poll<A, S, U>>, f: Faults<A, S, U>, portfolioId: string, t: seq<Step>, exn: Exn)
    requires Escapes(f) == Some(exn)
    ensures var polls := [Nothing(Running, None, t)] + AttemptPolls(f, portfolioId, t);
            var end := t + AttemptSteps(f, portfolioId);
            var more := HandlerPolls(polls[|polls| - 1], Shared(f), exn, end);
            var all := PollsOf(f, portfolioId, t);
            && before + AttemptPolls(f, portfolioId, t) + more == before + Later(f, portfolioId, t)
            && all[|all| - 1] == Nothing(Failed, Some(Describe(exn)), end + [Step(RunFailed, Describe(exn))])
            && end + [Step(RunFailed, Describe(exn))] == t + StepsOf(f, portfolioId)[1..]
  {
    hide AttemptPolls, AttemptSteps;
    var polls := [Nothing(Running, None, t)] + AttemptPolls(f, portfolioId, t);
    var more := HandlerPolls(polls[|polls| - 1], Shared(f), exn, t + AttemptSteps(f, portfolioId));
    assert (polls + more)[1..] == AttemptPolls(f, portfolioId, t) + more;
    assert before + AttemptPolls(f, portfolioId, t) + more == before + (AttemptPolls(f, portfolioId, t) + more);
  }

  /** What pollers see of a run from its first step on, t being the trace with that step. */
  function OwnPolls<A, S, U>(f: Faults<A, S, U>, portfolioId: string, t: seq<Step>, audited: bool)
    : (polls: seq<Poll<A, S, U>>)
    ensures polls != [] && polls[0] == Nothing(Running, None, t)
  {
    if audited then PollsOf(f, portfolioId, t) else [Nothing(Running, None, t)]
  }

  /**
   The polls of a run, behind the one of a run that was only registered: no trace loses a step, the last
   is what is stored now, results are shown as the calls gave them, and, if the opening audit went
   through, a finished run that a poller saw stays what it was exactly when the closing audit holds.
   */
  ghost predicate Watched<A, S, U>(polls: seq<Poll<A, S, U>>, before: seq<Poll<A, S, U>>, now: Poll<A, S, U>,
                                   f: Faults<A, S, U>, portfolioId: string, t: seq<Step>, audited: bool) {
    && polls == before + OwnPolls(f, portfolioId, t, audited)
    && Growing(polls) && polls != [] && polls[|polls| - 1] == now
    && AllShow(f, OwnPolls(f, portfolioId, t, audited), t)
    && (audited ==> (Settled(polls) <==> ClosingAuditHolds(f)))
  }

  lemma OwnSound<A, S, U>(f: Faults<A, S, U>, portfolioId: string, t: seq<Step>, audited: bool)
    ensures Sound(f, OwnPolls(f, portfolioId, t, audited), t, t)
  {
    if audited {
      PollsSound(f, portfolioId, t);
    } else {
      assert t[|t|..] == [] && Types([]) == [];
    }
  }

  lemma WhatPollersSee<A, S, U>(before: seq<Poll<A, S, U>>, f: Faults<A, S, U>, portfolioId: string, t: seq<Step>,
                                audited: bool)
    requires before == [] || exists prior :: before == [Nothing(Pending, None, prior)] && prior <= t
    ensures var own := OwnPolls(f, portfolioId, t, audited);
            Watched(before + own, before, own[|own| - 1], f, portfolioId, t, audited)
  {
    var own := OwnPolls(f, portfolioId, t, audited);
    OwnSound(f, portfolioId, t, audited);
    PollsSettle(f, portfolioId, t);
    hide PollsOf, AllShow, ClosingAuditHolds;
    OneMoreGrows(before, own);
    BeforeIsPending(before, own);
    hide Growing, Settled;
  }

  lemma BeforeIsPending<A, S, U>(before: seq<Poll<A, S, U>>, own: seq<Poll<A, S, U>>)
    requires own != [] && |before| <= 1 && forall i :: 0 <= i < |before| ==> !Terminal(before[i])
    ensures Settled(before + own) <==> Settled(own)
  {
    var all := before + own;
    assert all[|all| - 1] == own[|own| - 1];
    forall i | 0 <= i < |own| ensures all[|before| + i] == own[i] {
    }
  }

  /**
   execute_strategy_run for a run id without audit rows. Err means that the opening audit write
   failed and the exception left the function.
   */
  method Execute<A, S, U>(store: RunStore<A, S, U>, db: Session, runId: string, portfolioId: string, f: Faults<A, S, U>,
                          traffic: seq<seq<Event>>)
    returns (r: Result<RunRecord<A, S, U>, Exn>)
    requires runId in store.records ==> FreshRecord(store.records[runId], runId)
    requires AuditOf(db, runId) == [] && db.pending == []
    requires |traffic| == 3 && forall k :: 0 <= k < 3 ==> EventsOf(traffic[k], AGGREGATE, runId) == []
    modifies store, db
    ensures runId in store.records
    ensures store.records == old(store.records)[runId := store.records[runId]]
    ensures r.Err? <==> FailureOf(f.startAppend, f.startCommit).Some?
    ensures r.Err? ==> store.records[runId].status == Running && AuditOf(db, runId) == []
    ensures r.Ok? ==> store.records[runId] == r.value && EndsAs(f, r.value)
    ensures r.Ok? && LastAuditSucceeds(f) ==> ClosedBy(AuditOf(db, runId), Started(runId, portfolioId), r.value)
    ensures r.Ok? && !LastAuditSucceeds(f) ==> AuditOf(db, runId) == [Started(runId, portfolioId)]
    ensures Traced(old(PriorTrace(store.records, runId)), store.View(runId).trace, f, portfolioId, r.Ok?)
    ensures old(store.history) <= store.history
    ensures Watched(store.history[|old(store.history)|..], old(Registered(store.records, runId)), store.View(runId), f,
                    portfolioId, old(PriorTrace(store.records, runId)) + [Step(RunStarted, portfolioId)], r.Ok?)
  {
    ghost var prior, before := PriorTrace(store.records, runId), Registered(store.records, runId);
    ghost var seen, records := store.history, store.records;
    var running := Begin(store, runId, portfolioId);
    hide EventsOf, Numbered, EndsAs, ClosedBy, LastAuditSucceeds, FailureOf, StepsOf, OwnPolls, Watched, Traced;
    r := Continue(store, db, runId, portfolioId, f, running, traffic);
    StoredLast(records, runId, running, store.records[runId]);
    WhatIsSeen(seen, store.history, before, store.View(runId), prior, f, portfolioId, r.Ok?);
  }

  lemma StoredLast<A, S, U>(records: map<string, RunRecord<A, S, U>>, runId: string, first: RunRecord<A, S, U>,
                            last: RunRecord<A, S, U>)
    ensures records[runId := first][runId := last] == records[runId := last]
  {
  }

  /** A run that adds its own polls behind the first step adds them to what was seen. */
  lemma WhatIsSeen<A, S, U>(seen: seq<Poll<A, S, U>>, history: seq<Poll<A, S, U>>, before: seq<Poll<A, S, U>>,
                            now: Poll<A, S, U>, prior: seq<Step>, f: Faults<A, S, U>, portfolioId: string,
                            audited: bool)
    requires before == [] || before == [Nothing(Pending, None, prior)]
    requires var t := prior + [Step(RunStarted, portfolioId)];
             var own := OwnPolls(f, portfolioId, t, audited);
             && history == seen + before + [Nothing(Running, None, t)] + own[1..] && now == Last(own)
             && now.trace == if audited then t + StepsOf(f, portfolioId)[1..] else t
    ensures seen <= history && Traced(prior, now.trace, f, portfolioId, audited)
    ensures Watched(history[|seen|..], before, now, f, portfolioId, prior + [Step(RunStarted, portfolioId)], audited)
  {
    var t := prior + [Step(RunStarted, portfolioId)];
    WhatPollersSee(before, f, portfolioId, t, audited);
    TraceTold(prior, f, portfolioId, audited);
    hide Watched, Traced, OwnPolls, StepsOf;
    var own := OwnPolls(f, portfolioId, t, audited);
    Rejoined(seen, before, own);
  }

  lemma Rejoined<A, S, U>(seen: seq<Poll<A, S, U>>, before: seq<Poll<A, S, U>>, own: seq<Poll<A, S, U>>)
    requires own != []
    ensures var history := seen + before + [own[0]] + own[1..];
            seen <= history && history[|seen|..] == before + own
  {
  }

  /** Everything after the first step: the opening audit write and, if it goes through, the try statement. */
  method Continue<A, S, U>(store: RunStore<A, S, U>, db: Session, runId: string, portfolioId: string,
                           f: Faults<A, S, U>, running: RunRecord<A, S, U>, traffic: seq<seq<Event>>)
    returns (r: Result<RunRecord<A, S, U>, Exn>)
    requires IsRunning(running, runId) && runId in store.records && store.records[runId] == running
    requires AuditOf(db, runId) == [] && db.pending == []
    requires |traffic| == 3 && forall k :: 0 <= k < 3 ==> EventsOf(traffic[k], AGGREGATE, runId) == []
    modifies store, db, running.steps
    ensures store.records == old(store.records)[runId := if r.Ok? then r.value else running]
    ensures r.Err? <==> FailureOf(f.startAppend, f.startCommit).Some?
    ensures r.Err? ==> AuditOf(db, runId) == []
    ensures r.Ok? ==> r.value.steps == running.steps && EndsAs(f, r.value)
    ensures r.Ok? && LastAuditSucceeds(f) ==> ClosedBy(AuditOf(db, runId), Started(runId, portfolioId), r.value)
    ensures r.Ok? && !LastAuditSucceeds(f) ==> AuditOf(db, runId) == [Started(runId, portfolioId)]
    ensures running.steps.items ==
            if r.Ok? then old(running.steps.items) + StepsOf(f, portfolioId)[1..] else old(running.steps.items)
    ensures var own := OwnPolls(f, portfolioId, old(running.steps.items), r.Ok?);
            store.history == old(store.history) + own[1..] && store.View(runId) == Last(own)
  {
    hide EventsOf, Numbered, EndsAs, ClosedBy, LastAuditSucceeds, PollsOf, StepsOf;
    NoneIsNumbered(db.committed, runId);
    var openingAudit := Audit(db, runId, "strategy.run_started", map["portfolio_id" := portfolioId],
                              f.startAppend, f.startCommit, traffic[0]);
    if openingAudit.Err? {
      return Err(openingAudit.error);
    }
    var finished := Proceed(store, db, runId, portfolioId, f, running, traffic[1], traffic[2]);
    return Ok(finished);
  }

  /** What a run adds to the trace it found. */
  ghost predicate Traced<A, S, U>(prior: seq<Step>, trace: seq<Step>, f: Faults<A, S, U>, portfolioId: string,
                                  audited: bool) {
    && prior <= trace
    && (!audited ==> trace == prior + [Step(RunStarted, portfolioId)])
    && (audited ==> trace == prior + StepsOf(f, portfolioId) && Tells(Types(trace[|prior|..]), f))
  }

  lemma TraceTold<A, S, U>(prior: seq<Step>, f: Faults<A, S, U>, portfolioId: string, audited: bool)
    ensures var start := prior + [Step(RunStarted, portfolioId)];
            Traced(prior, if audited then start + StepsOf(f, portfolioId)[1..] else start, f, portfolioId, audited)
  {
    StepsTell(f, portfolioId);
    var own := StepsOf(f, portfolioId);
    assert prior + [Step(RunStarted, portfolioId)] + own[1..] == prior + own;
    assert (prior + own)[|prior|..] == own;
    hide Tells, StepsOf;
  }
}
