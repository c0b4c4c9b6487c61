/**
 The sliding-window rate limiter over a sorted set per client: trim, log, count, refresh the
 key's time to live, all in one atomic pipeline. Times are seconds.
 */
module RateLimit {
  import opened Common

  const WINDOW: real := 60.0
  const TTL: real := 70.0

  /** A client's sorted set; its members are the timestamps themselves. */
  datatype Log = Log(entries: set<real>, expiresAt: real)

  datatype Request = Request(path: string, clientIp: string, now: real, redisUp: bool)

  datatype Verdict = Exempt | Admitted | Rejected

  /** Health checks and WebSocket paths skip the limiter. */
  predicate SkipsLimit(path: string) {
    path == "/health" || (|path| >= 3 && path[..3] == "/ws")
  }

  lemma SkippedPaths(path: string)
    ensures SkipsLimit(path) <==> path == "/health" || exists rest :: path == "/ws" + rest
  {
    if SkipsLimit(path) && path != "/health" {
      assert path == "/ws" + path[3..];
    }
  }

  /** What Redis still holds of a log: a key past its time to live is gone. */
  function Stored(log: Option<Log>, now: real): set<real> {
    if log.Some? && now < log.value.expiresAt then log.value.entries else {}
  }

  /** What of it is left when everything up to 60 seconds ago is trimmed. */
  function Trimmed(log: Option<Log>, now: real): set<real> {
    set t | t in Stored(log, now) && !(t <= now - WINDOW)
  }

  /** The four commands of the pipeline: zremrangebyscore, zadd, zcard, expire. */
  function Pipeline(log: Option<Log>, now: real): Log {
    Log(Trimmed(log, now) + {now}, now + TTL)
  }

  class RateLimiter {
    const rpm: int
    var logs: map<string, Log>

    constructor (rpm: int)
      ensures this.rpm == rpm && logs == map[]
    {
      this.rpm := rpm;
      logs := map[];
    }

    /** dispatch, up to the decision. */
    method Dispatch(r: Request) returns (v: Verdict)
      modifies this`logs
      ensures logs == LogsStep(old(logs), r)
      ensures v == VerdictOn(old(logs), r, rpm)
    {
      if SkipsLimit(r.path) {
        return Exempt;
      }
      if !r.redisUp {
        return Admitted;
      }
      var stored := Stored(LogOf(logs, r.clientIp), r.now);
      var entries := set t | t in stored && !(t <= r.now - WINDOW);
      entries := entries + {r.now};
      var requestCount := |entries|;
      logs := logs[r.clientIp := Log(entries, r.now + TTL)];
      return if requestCount > rpm then Rejected else Admitted;
    }
  }

  function LogOf(logs: map<string, Log>, ip: string): Option<Log> {
    if ip in logs then Some(logs[ip]) else None
  }

  /** Exempt requests and requests during a Redis failure leave no trace. */
  predicate Logged(r: Request) {
    !SkipsLimit(r.path) && r.redisUp
  }

  function LogsStep(logs: map<string, Log>, r: Request): map<string, Log> {
    if Logged(r) then logs[r.clientIp := Pipeline(LogOf(logs, r.clientIp), r.now)] else logs
  }

  /** A Redis failure lets the request through. */
  function VerdictOn(logs: map<string, Log>, r: Request, rpm: int): Verdict {
    if SkipsLimit(r.path) then Exempt
    else if !r.redisUp then Admitted
    else if |Pipeline(LogOf(logs, r.clientIp), r.now).entries| > rpm then Rejected
    else Admitted
  }

  // ---------------------------------------------------------------------------
  // Runs
  // ---------------------------------------------------------------------------

  /** The logs after a run of requests. */
  function LogsAfter(run: seq<Request>): map<string, Log> {
    if run == [] then map[] else LogsStep(LogsAfter(run[..|run| - 1]), run[|run| - 1])
  }

  /** The verdict on request i of a run. */
  function VerdictAt(run: seq<Request>, i: nat, rpm: int): Verdict
    requires i < |run|
  {
    VerdictOn(LogsAfter(run[..i]), run[i], rpm)
  }

  /** Request i is one that a client's log records. */
  predicate Counts(run: seq<Request>, i: int, ip: string)
    requires 0 <= i < |run|
  {
    run[i].clientIp == ip && Logged(run[i])
  }

  /** The client's logged requests arrive in clock order; several may share an instant. */
  ghost predicate InClockOrder(run: seq<Request>, ip: string) {
    forall i, j :: 0 <= i < j < |run| && Counts(run, i, ip) && Counts(run, j, ip) ==> run[i].now <= run[j].now
  }

  /** They arrive at distinct times. */
  ghost predicate AtDistinctTimes(run: seq<Request>, ip: string) {
    forall i, j :: 0 <= i < j < |run| && Counts(run, i, ip) && Counts(run, j, ip) ==> run[i].now < run[j].now
  }

  /** The times of a client's logged requests among the first n that fall into (from, ..]. */
  function Times(run: seq<Request>, n: nat, ip: string, from: real): set<real>
    requires n <= |run|
  {
    set i | 0 <= i < n && Counts(run, i, ip) && run[i].now > from :: run[i].now
  }

  /**
   At any time the stored log, trimmed to a window that ends now, is exactly the instants of the
   client's logged requests in that window: neither trimming nor the 70-second expiry loses one.
   */
  lemma {:induction false} LogIsWindow(run: seq<Request>, n: nat, ip: string, now: real)
    requires n <= |run| && InClockOrder(run, ip)
    requires forall i :: 0 <= i < n && Counts(run, i, ip) ==> run[i].now <= now
    ensures Trimmed(LogOf(LogsAfter(run[..n]), ip), now) == Times(run, n, ip, now - WINDOW)
    decreases n
  {
    hide Times, Trimmed, Pipeline, LogsAfter, LogOf;
    if n == 0 {
      EmptyLog(run, ip, now);
    } else {
      LogStep(run, n, ip);
      TimesStep(run, n, ip, now - WINDOW);
      if Counts(run, n - 1, ip) {
        EarlierThanLast(run, n, ip);
        LogIsWindow(run, n - 1, ip, run[n - 1].now);
        var log := Pipeline(LogOf(LogsAfter(run[..n - 1]), ip), run[n - 1].now);
        PipelineKeeps(LogOf(LogsAfter(run[..n - 1]), ip), run[n - 1].now);
        LoggedNow(run, n, ip, now, log);
      } else {
        LogIsWindow(run, n - 1, ip, now);
      }
    }
  }

  lemma EarlierThanLast(run: seq<Request>, n: nat, ip: string)
    requires 0 < n <= |run| && InClockOrder(run, ip) && Counts(run, n - 1, ip)
    ensures forall i :: 0 <= i < n - 1 && Counts(run, i, ip) ==> run[i].now <= run[n - 1].now
  {
  }

  lemma EmptyLog(run: seq<Request>, ip: string, now: real)
    ensures Trimmed(LogOf(LogsAfter(run[..0]), ip), now) == Times(run, 0, ip, now - WINDOW)
  {
  }

  lemma PipelineKeeps(log: Option<Log>, now: real)
    ensures Pipeline(log, now) == Log(Trimmed(log, now) + {now}, now + TTL)
  {
  }

  /** One request changes the log of its own client only. */
  lemma LogStep(run: seq<Request>, n: nat, ip: string)
    requires 0 < n <= |run|
    ensures LogOf(LogsAfter(run[..n]), ip) ==
            if Counts(run, n - 1, ip) then Some(Pipeline(LogOf(LogsAfter(run[..n - 1]), ip), run[n - 1].now))
            else LogOf(LogsAfter(run[..n - 1]), ip)
  {
    hide Pipeline, SkipsLimit;
    assert run[..n][..n - 1] == run[..n - 1];
  }

  lemma TimesStep(run: seq<Request>, n: nat, ip: string, from: real)
    requires 0 < n <= |run|
    ensures Times(run, n, ip, from) ==
            Times(run, n - 1, ip, from) +
            (if Counts(run, n - 1, ip) && run[n - 1].now > from then {run[n - 1].now} else {})
  {
    var all, front := Times(run, n, ip, from), Times(run, n - 1, ip, from);
    forall t | t in all ensures t in front || (Counts(run, n - 1, ip) && run[n - 1].now > from && t == run[n - 1].now) {
      var i :| 0 <= i < n && Counts(run, i, ip) && run[i].now > from && t == run[i].now;
      if i < n - 1 { assert run[i].now in front; }
    }
  }

  lemma LoggedNow(run: seq<Request>, n: nat, ip: string, now: real, log: Log)
    requires 0 < n <= |run| && InClockOrder(run, ip) && run[n - 1].now <= now
    requires log == Log(Times(run, n - 1, ip, run[n - 1].now - WINDOW) + {run[n - 1].now}, run[n - 1].now + TTL)
    requires Counts(run, n - 1, ip)
    ensures Trimmed(Some(log), now) == Times(run, n, ip, now - WINDOW)
  {
    var last, from := run[n - 1].now, now - WINDOW;
    TimesStep(run, n, ip, from);
    var kept := Trimmed(Some(log), now);
    forall t ensures t in kept <==> t in Times(run, n, ip, from) {
      if t in Times(run, n - 1, ip, from) {
        var i :| 0 <= i < n - 1 && Counts(run, i, ip) && run[i].now > from && t == run[i].now;
        assert run[i].now <= last;
        assert run[i].now in Times(run, n - 1, ip, last - WINDOW);
      }
      if t in Times(run, n - 1, ip, last - WINDOW) && t > from {
        var i :| 0 <= i < n - 1 && Counts(run, i, ip) && run[i].now > last - WINDOW && t == run[i].now;
        assert run[i].now in Times(run, n - 1, ip, from);
      }
    }
  }

  /**
   A logged request is admitted exactly when the instants of the client's requests in the 60 seconds
   up to and including it, admitted or rejected, number at most rpm.
   */
  lemma AdmittedIff(run: seq<Request>, i: nat, ip: string, rpm: int)
    requires InClockOrder(run, ip) && i < |run| && Counts(run, i, ip)
    ensures VerdictAt(run, i, rpm) == Admitted <==> |Times(run, i + 1, ip, run[i].now - WINDOW)| <= rpm
  {
    hide Pipeline, Times, LogsAfter, LogOf;
    CountedEntries(run, i, ip);
  }

  /** The client's logged requests among the first n that fall into (from, ..]. */
  function Requests(run: seq<Request>, n: nat, ip: string, from: real): set<int>
    requires n <= |run|
  {
    set i | 0 <= i < n && Counts(run, i, ip) && run[i].now > from
  }

  /** Requests are never fewer than their instants, and as many when the instants are distinct. */
  lemma {:induction false} InstantsAndRequests(run: seq<Request>, n: nat, ip: string, from: real)
    requires n <= |run|
    ensures |Times(run, n, ip, from)| <= |Requests(run, n, ip, from)|
    ensures AtDistinctTimes(run, ip) ==> |Times(run, n, ip, from)| == |Requests(run, n, ip, from)|
  {
    hide Times, Requests, AtDistinctTimes, Counts;
    if n == 0 {
      NoInstants(run, ip, from);
    } else {
      InstantsAndRequests(run, n - 1, ip, from);
      TimesStep(run, n, ip, from);
      RequestsStep(run, n, ip, from);
      DistinctLast(run, n, ip, from);
      OneMore(Times(run, n - 1, ip, from), run[n - 1].now);
    }
  }

  lemma NoInstants(run: seq<Request>, ip: string, from: real)
    ensures Times(run, 0, ip, from) == {} && Requests(run, 0, ip, from) == {}
  {
  }

  lemma DistinctLast(run: seq<Request>, n: nat, ip: string, from: real)
    requires 0 < n <= |run|
    ensures AtDistinctTimes(run, ip) && Counts(run, n - 1, ip) ==> run[n - 1].now !in Times(run, n - 1, ip, from)
  {
  }

  lemma RequestsStep(run: seq<Request>, n: nat, ip: string, from: real)
    requires 0 < n <= |run|
    ensures |Requests(run, n, ip, from)| ==
            |Requests(run, n - 1, ip, from)| + (if Counts(run, n - 1, ip) && run[n - 1].now > from then 1 else 0)
  {
    var earlier := Requests(run, n - 1, ip, from);
    assert Requests(run, n, ip, from) ==
           earlier + (if Counts(run, n - 1, ip) && run[n - 1].now > from then {n - 1} else {});
    assert n - 1 !in earlier;
  }

  lemma OneMore(s: set<real>, t: real)
    ensures |s + {t}| == |s| + (if t in s then 0 else 1)
    ensures s + {} == s
  {
    if t in s {
      assert s + {t} == s;
    }
  }

  lemma NewInstant(run: seq<Request>, n: nat, ip: string, from: real)
    requires 0 < n <= |run|
    requires forall j :: 0 <= j < n - 1 && Counts(run, j, ip) ==> run[j].now < run[n - 1].now
    ensures run[n - 1].now !in Times(run, n - 1, ip, from)
  {
  }

  /** So at distinct times a request is admitted exactly when the window holds at most rpm requests. */
  lemma AdmittedIffFew(run: seq<Request>, i: nat, ip: string, rpm: int)
    requires AtDistinctTimes(run, ip) && i < |run| && Counts(run, i, ip)
    ensures VerdictAt(run, i, rpm) == Admitted <==> |Requests(run, i + 1, ip, run[i].now - WINDOW)| <= rpm
  {
    AdmittedIff(run, i, ip, rpm);
    InstantsAndRequests(run, i + 1, ip, run[i].now - WINDOW);
    hide Times, Requests, VerdictAt;
  }

  lemma CountedEntries(run: seq<Request>, i: nat, ip: string)
    requires InClockOrder(run, ip) && i < |run| && Counts(run, i, ip)
    ensures Pipeline(LogOf(LogsAfter(run[..i]), ip), run[i].now).entries == Times(run, i + 1, ip, run[i].now - WINDOW)
  {
    LogIsWindow(run, i, ip, run[i].now);
    TimesStep(run, i + 1, ip, run[i].now - WINDOW);
    hide Times, LogsAfter, LogOf, Stored;
  }

  /** Request i is logged, admitted and in the window (end - 60, end]. */
  predicate AdmittedWithin(run: seq<Request>, i: int, ip: string, rpm: int, end: real) {
    0 <= i < |run| && Counts(run, i, ip) && VerdictAt(run, i, rpm) == Admitted && end - WINDOW < run[i].now <= end
  }

  /** The instants of the admitted and logged requests of a window. */
  function AdmittedIn(run: seq<Request>, ip: string, rpm: int, end: real): set<real> {
    set i | 0 <= i < |run| && AdmittedWithin(run, i, ip, rpm, end) :: run[i].now
  }

  lemma {:induction false} SubsetSize<T>(a: set<T>, b: set<T>)
    requires a <= b
    ensures |a| <= |b|
  {
    if exists x :: x in a {
      var x :| x in a;
      SubsetSize(a - {x}, b - {x});
    } else {
      assert a == {};
    }
  }

  /** In no window of 60 seconds do the admitted and logged requests of a client have more than rpm instants. */
  lemma WindowInstants(run: seq<Request>, ip: string, rpm: int, end: real)
    requires InClockOrder(run, ip) && 0 <= rpm
    ensures |AdmittedIn(run, ip, rpm, end)| <= rpm
  {
    hide VerdictAt;
    var window := AdmittedIn(run, ip, rpm, end);
    if exists i :: 0 <= i < |run| && AdmittedWithin(run, i, ip, rpm, end) {
      var last := LastAdmitted(run, ip, rpm, end, |run|);
      AdmittedIff(run, last, ip, rpm);
      var seen := Times(run, last + 1, ip, run[last].now - WINDOW);
      forall t | t in window ensures t in seen {
        var i :| 0 <= i < |run| && AdmittedWithin(run, i, ip, rpm, end) && t == run[i].now;
        assert i <= last;
        assert run[i].now in seen;
      }
      SubsetSize(window, seen);
    } else {
      assert window == {};
    }
  }

  /** The client's requests that a window lets through, logged or not. */
  function PassedIn(run: seq<Request>, ip: string, rpm: int, end: real): set<int> {
    set i | 0 <= i < |run| && run[i].clientIp == ip && VerdictAt(run, i, rpm) == Admitted &&
          end - WINDOW < run[i].now <= end
  }

  /** Those that passed because Redis was down, without a trace. */
  function UnloggedIn(run: seq<Request>, ip: string, end: real): set<int> {
    set i | 0 <= i < |run| && run[i].clientIp == ip && !SkipsLimit(run[i].path) && !run[i].redisUp
            && end - WINDOW < run[i].now <= end
  }

  function LoggedIn(run: seq<Request>, ip: string, rpm: int, end: real): set<int> {
    set i | 0 <= i < |run| && AdmittedWithin(run, i, ip, rpm, end)
  }

  lemma PassedSplits(run: seq<Request>, ip: string, rpm: int, end: real)
    ensures PassedIn(run, ip, rpm, end) == LoggedIn(run, ip, rpm, end) + UnloggedIn(run, ip, end)
  {
    hide LogsAfter, Pipeline;
  }

  /**
   At distinct times no window of 60 seconds lets more than rpm logged requests of a client through,
   and so at most rpm requests more than pass unlogged while Redis is down.
   */
  lemma WindowBound(run: seq<Request>, ip: string, rpm: int, end: real)
    requires AtDistinctTimes(run, ip) && 0 <= rpm
    ensures |LoggedIn(run, ip, rpm, end)| <= rpm
    ensures |PassedIn(run, ip, rpm, end)| <= rpm + |UnloggedIn(run, ip, end)|
  {
    hide VerdictAt, PassedIn, UnloggedIn;
    PassedSplits(run, ip, rpm, end);
    var logged := LoggedIn(run, ip, rpm, end);
    if exists i :: 0 <= i < |run| && AdmittedWithin(run, i, ip, rpm, end) {
      var last := LastAdmitted(run, ip, rpm, end, |run|);
      AdmittedIffFew(run, last, ip, rpm);
      var seen := Requests(run, last + 1, ip, run[last].now - WINDOW);
      forall i | i in logged ensures i in seen {
        assert i <= last;
      }
      SubsetSize(logged, seen);
    } else {
      assert logged == {};
    }
  }

  /** The last admitted request of a window among the first n. */
  lemma {:induction false} LastAdmitted(run: seq<Request>, ip: string, rpm: int, end: real, n: nat) returns (last: nat)
    requires n <= |run|
    requires exists i :: 0 <= i < n && AdmittedWithin(run, i, ip, rpm, end)
    ensures last < n && AdmittedWithin(run, last, ip, rpm, end)
    ensures forall i :: last < i < n ==> !AdmittedWithin(run, i, ip, rpm, end)
  {
    hide AdmittedWithin;
    if AdmittedWithin(run, n - 1, ip, rpm, end) {
      last := n - 1;
    } else {
      last := LastAdmitted(run, ip, rpm, end, n - 1);
    }
  }

  /** A client that has been silent for 60 seconds is admitted. */
  lemma SilentClientAdmitted(run: seq<Request>, i: nat, ip: string, rpm: int)
    requires InClockOrder(run, ip) && i < |run| && Counts(run, i, ip) && 1 <= rpm
    requires forall j :: 0 <= j < i && Counts(run, j, ip) ==> run[j].now <= run[i].now - WINDOW
    ensures VerdictAt(run, i, rpm) == Admitted
  {
    AdmittedIff(run, i, ip, rpm);
    TimesStep(run, i + 1, ip, run[i].now - WINDOW);
    assert Times(run, i, ip, run[i].now - WINDOW) == {};
  }

  /** A client whose window already holds rpm instants is rejected at the next new one. */
  lemma BusyClientStarves(run: seq<Request>, i: nat, ip: string, rpm: int)
    requires InClockOrder(run, ip) && i < |run| && Counts(run, i, ip)
    requires forall j :: 0 <= j < i && Counts(run, j, ip) ==> run[j].now < run[i].now
    requires rpm <= |Times(run, i, ip, run[i].now - WINDOW)|
    ensures VerdictAt(run, i, rpm) == Rejected
  {
    AdmittedIff(run, i, ip, rpm);
    TimesStep(run, i + 1, ip, run[i].now - WINDOW);
    NewInstant(run, i + 1, ip, run[i].now - WINDOW);
    hide Times, Pipeline;
  }

  /**
   Requests with one timestamp share one member of the sorted set, so any number of them is admitted
   at a limit of one.
   */
  lemma SameInstantUnderCounts(r: Request, n: nat, i: nat)
    requires Logged(r) && i < n
    ensures VerdictAt(seq(n, _ => r), i, 1) == Admitted
  {
    var run := seq(n, _ => r);
    AdmittedIff(run, i, r.clientIp, 1);
    var seen := Times(run, i + 1, r.clientIp, r.now - WINDOW);
    SubsetSize(seen, {r.now});
  }
}
