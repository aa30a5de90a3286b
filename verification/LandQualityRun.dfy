/** The scheduler of the land-quality gate (runner.run): a DAG of checks, a bounded heavy
    class, and completions that arrive in any order. */
module LandQualityRun {
  import opened Basics
  import opened Graphs
  import opened LandQuality

  datatype Status = Pending | Running | Pass | Warn | Fail | Timeout | Blocked

  datatype ContextState = Live | Cancelled | DeadlineExceeded

  // What one execution of a check showed: its duration, its context and the executor's error.
  datatype Execution = Execution(elapsed: int, context: ContextState, failed: bool)

  // A check that never completed keeps the zero result.
  datatype Outcome =
    | NoOutcome
    | Finished(name: string, status: Status)
    | BlockedBy(name: string, dep: string, depStatus: Status)
    | BlockedByContext(name: string)

  // The status lines written while checks run.
  datatype LogLine = Started(name: string) | Done(name: string, status: Status)

  datatype RunError = NoError | Refused(reason: Validation) | BadHeavyLimit | WriteFailed | ContextEnded | NoProgress

  type Executor = string -> Execution

  function ClassifyResult(c: Check, e: Execution): Status {
    if e.context == DeadlineExceeded then Timeout
    else if e.failed then Fail
    else if e.elapsed > GrowthBudget(c.baseline) then Warn
    else Pass
  }

  function StatusOf(o: Outcome): Status {
    match o
    case NoOutcome => Pending
    case Finished(_, s) => s
    case BlockedBy(_, _, _) => Blocked
    case BlockedByContext(_) => Blocked
  }

  predicate Passing(s: Status) {
    s == Pass || s == Warn
  }

  predicate Failing(s: Status) {
    s == Fail || s == Timeout || s == Blocked
  }

  function Verdict(checks: map<string, Check>, exec: Executor, n: string): Status
    requires n in checks
  {
    ClassifyResult(checks[n], exec(n))
  }

  // Some transitive prerequisite would fail or time out if it ran.
  ghost predicate Doomed(checks: map<string, Check>, exec: Executor, n: string) {
    exists p :: p in checks && Reaches(GraphOf(checks), n, p) && Failing(Verdict(checks, exec, p))
  }

  // The status of a check as the graph alone determines it.
  ghost function Expected(checks: map<string, Check>, exec: Executor, n: string): Status
    requires n in checks
  {
    if Doomed(checks, exec, n) then Blocked else Verdict(checks, exec, n)
  }

  // ---------------------------------------------------------------- in terms of executions

  // The execution ran past its deadline, or its command failed.
  predicate WentWrong(e: Execution) {
    e.context == DeadlineExceeded || e.failed
  }

  // What a finished check reports: the deadline counts before the failure, and both before the
  // growth of more than a tenth.
  ghost predicate Reports(c: Check, e: Execution, s: Status) {
    && (s == Timeout <==> e.context == DeadlineExceeded)
    && (s == Fail <==> e.context != DeadlineExceeded && e.failed)
    && (s == Warn <==> !WentWrong(e) && 10 * e.elapsed > 11 * c.baseline)
    && (s == Pass <==> !WentWrong(e) && 10 * e.elapsed <= 11 * c.baseline)
  }

  ghost predicate WrongBelow(checks: map<string, Check>, exec: Executor, n: string) {
    exists p :: p in checks && Reaches(GraphOf(checks), n, p) && WentWrong(exec(p))
  }

  lemma {:induction false} ClassifiedReports(c: Check, e: Execution)
    requires c.baseline > 0
    ensures Reports(c, e, ClassifyResult(c, e)) && ClassifyResult(c, e) in {Timeout, Fail, Warn, Pass}
    ensures Failing(ClassifyResult(c, e)) <==> WentWrong(e)
  {
  }

  // Blocked means that something went wrong below; otherwise the check's own execution counts.
  lemma {:induction false} ExpectedReports(checks: map<string, Check>, exec: Executor, n: string)
    requires n in checks && forall m :: m in checks ==> checks[m].baseline > 0
    ensures Expected(checks, exec, n) == Blocked <==> WrongBelow(checks, exec, n)
    ensures !WrongBelow(checks, exec, n) ==> Reports(checks[n], exec(n), Expected(checks, exec, n))
  {
    hide Reports, ClassifyResult, Failing;
    ClassifiedReports(checks[n], exec(n));
    assert Doomed(checks, exec, n) <==> WrongBelow(checks, exec, n) by {
      forall p | p in checks
        ensures Failing(Verdict(checks, exec, p)) <==> WentWrong(exec(p))
      {
        ClassifiedReports(checks[p], exec(p));
      }
    }
  }

  // ---------------------------------------------------------------- the log

  ghost function InFlight(log: seq<LogLine>): set<string> {
    if log == [] then {}
    else
      var before := InFlight(log[..|log| - 1]);
      match log[|log| - 1]
      case Started(n) => before + {n}
      case Done(n, _) => before - {n}
  }

  ghost function HeavyOf(checks: map<string, Check>, names: set<string>): set<string> {
    set n | n in names && n in checks && checks[n].heavy
  }

  ghost predicate DonePassing(log: seq<LogLine>, n: string) {
    Done(n, Pass) in log || Done(n, Warn) in log
  }

  // What must hold of the log so far when a line is added.
  ghost predicate MayAppend(
    checks: map<string, Check>, exec: Executor, limit: int, log: seq<LogLine>, line: LogLine)
  {
    match line
    case Started(n) =>
      && n in checks
      && Started(n) !in log
      && (forall d :: d in checks[n].deps ==> DonePassing(log, d))
      && (checks[n].heavy ==> |HeavyOf(checks, InFlight(log))| < limit)
    case Done(n, s) =>
      && n in checks
      && n in InFlight(log)
      && s == Verdict(checks, exec, n)
  }

  ghost predicate GoodLog(checks: map<string, Check>, exec: Executor, limit: int, log: seq<LogLine>) {
    log == [] ||
    (var before := log[..|log| - 1];
     GoodLog(checks, exec, limit, before) && MayAppend(checks, exec, limit, before, log[|log| - 1]))
  }

  lemma {:induction false} GoodLogPrefix(
    checks: map<string, Check>, exec: Executor, limit: int, log: seq<LogLine>, k: nat)
    requires GoodLog(checks, exec, limit, log) && k <= |log|
    ensures GoodLog(checks, exec, limit, log[..k])
    ensures k < |log| ==> MayAppend(checks, exec, limit, log[..k], log[k])
  {
    if k == |log| {
      assert log[..k] == log;
    } else if k < |log| - 1 {
      GoodLogPrefix(checks, exec, limit, log[..|log| - 1], k);
      assert log[..|log| - 1][..k] == log[..k];
    }
  }

  /** At no moment are more heavy checks running than the limit allows. */
  lemma {:induction false} HeavyNeverExceedsLimit(
    checks: map<string, Check>, exec: Executor, limit: int, log: seq<LogLine>, k: nat)
    requires GoodLog(checks, exec, limit, log) && k <= |log| && limit >= 0
    ensures |HeavyOf(checks, InFlight(log[..k]))| <= limit
  {
    hide GoodLog, MayAppend, InFlight, HeavyOf;
    if k == 0 {
      NothingInFlight(checks);
      assert log[..0] == [];
    } else {
      HeavyNeverExceedsLimit(checks, exec, limit, log, k - 1);
      GoodLogPrefix(checks, exec, limit, log, k - 1);
      HeavyStep(checks, exec, limit, log[..k - 1], log[k - 1]);
      assert log[..k] == log[..k - 1] + [log[k - 1]];
    }
  }

  lemma {:induction false} NothingInFlight(checks: map<string, Check>)
    ensures HeavyOf(checks, InFlight([])) == {}
  {
  }

  // A line that may be added respects the limit.
  lemma {:induction false} HeavyStep(
    checks: map<string, Check>, exec: Executor, limit: int, log: seq<LogLine>, line: LogLine)
    requires MayAppend(checks, exec, limit, log, line) && |HeavyOf(checks, InFlight(log))| <= limit
    ensures |HeavyOf(checks, InFlight(log + [line]))| <= limit
  {
    assert (log + [line])[..|log|] == log;
    var was := HeavyOf(checks, InFlight(log));
    var now := HeavyOf(checks, InFlight(log + [line]));
    match line {
      case Started(n) =>
        assert InFlight(log + [line]) == InFlight(log) + {n};
        hide InFlight, DonePassing;
        assert now == if checks[n].heavy then was + {n} else was;
      case Done(n, _) =>
        assert InFlight(log + [line]) == InFlight(log) - {n};
        hide InFlight;
        assert now <= was;
        SubsetSize(now, was);
    }
  }

  /** Every check is started at most once. */
  lemma {:induction false} StartedAtMostOnce(
    checks: map<string, Check>, exec: Executor, limit: int, log: seq<LogLine>, i: nat, j: nat)
    requires GoodLog(checks, exec, limit, log) && i < j < |log|
    requires log[i].Started? && log[j].Started?
    ensures log[i].name != log[j].name
  {
    GoodLogPrefix(checks, exec, limit, log, j);
    assert log[..j][i] == log[i];
  }

  /** A check starts only after every prerequisite finished with PASS or WARN. */
  lemma {:induction false} PrerequisitesFinishFirst(
    checks: map<string, Check>, exec: Executor, limit: int, log: seq<LogLine>, j: nat, d: string)
    requires GoodLog(checks, exec, limit, log) && j < |log| && log[j].Started?
    requires log[j].name in checks && d in checks[log[j].name].deps
    ensures exists i :: 0 <= i < j && log[i].Done? && log[i].name == d && Passing(log[i].status)
  {
    GoodLogPrefix(checks, exec, limit, log, j);
    assert DonePassing(log[..j], d);
    var s :| Passing(s) && Done(d, s) in log[..j];
    var i :| 0 <= i < j && log[..j][i] == Done(d, s);
    assert log[i] == Done(d, s);
  }

  // ------------------------------------------------- the graph decides statuses

  lemma {:induction false} DoomedByPrerequisite(checks: map<string, Check>, exec: Executor, n: string, d: string)
    requires n in checks && d in checks && d in checks[n].deps
    requires Failing(Expected(checks, exec, d))
    ensures Doomed(checks, exec, n)
  {
    var g := GraphOf(checks);
    EdgeReaches(g, n, d);
    if Doomed(checks, exec, d) {
      var p :| p in checks && Reaches(g, d, p) && Failing(Verdict(checks, exec, p));
      ReachesTransitive(g, n, d, p);
    }
  }

  lemma {:induction false} DoomedBy(checks: map<string, Check>, exec: Executor, n: string, p: string)
    requires p in checks && Reaches(GraphOf(checks), n, p) && Failing(Verdict(checks, exec, p))
    ensures Doomed(checks, exec, n)
  {
  }

  lemma {:induction false} NotDoomedWhenPrerequisitesPass(checks: map<string, Check>, exec: Executor, n: string)
    requires n in checks
    requires forall d :: d in checks[n].deps ==> d in checks && Passing(Expected(checks, exec, d))
    ensures !Doomed(checks, exec, n)
  {
    var g := GraphOf(checks);
    if Doomed(checks, exec, n) {
      var p :| p in checks && Reaches(g, n, p) && Failing(Verdict(checks, exec, p));
      var d := ReachesByFirstStep(g, n, p);
      if d != p {
        DoomedBy(checks, exec, d, p);
      }
    }
  }

  ghost function Below(checks: map<string, Check>, n: string): set<string> {
    set q | q in checks && Reaches(GraphOf(checks), n, q)
  }

  ghost predicate ReallyFails(checks: map<string, Check>, exec: Executor, p: string) {
    p in checks && (Expected(checks, exec, p) == Fail || Expected(checks, exec, p) == Timeout)
  }

  // In an acyclic graph the first failure met going down is one that really runs.
  lemma {:induction false} DoomHasRealCause(checks: map<string, Check>, exec: Executor, n: string) returns (p: string)
    requires Acyclic(GraphOf(checks)) && Doomed(checks, exec, n)
    ensures Reaches(GraphOf(checks), n, p) && ReallyFails(checks, exec, p)
    decreases |Below(checks, n)|
  {
    var g := GraphOf(checks);
    p :| p in checks && Reaches(g, n, p) && Failing(Verdict(checks, exec, p));
    if Doomed(checks, exec, p) {
      var q := p;
      BelowShrinks(checks, n, q);
      p := DoomHasRealCause(checks, exec, q);
      ReachesTransitive(g, n, q, p);
    }
  }

  lemma {:induction false} BelowShrinks(checks: map<string, Check>, n: string, p: string)
    requires Acyclic(GraphOf(checks)) && p in checks && Reaches(GraphOf(checks), n, p)
    ensures |Below(checks, p)| < |Below(checks, n)|
  {
    forall q | q in Below(checks, p)
      ensures q in Below(checks, n)
    {
      ReachesTransitive(GraphOf(checks), n, p, q);
    }
    assert !OnCycle(GraphOf(checks), p);
    assert p in Below(checks, n) && p !in Below(checks, p);
    SubsetSize(Below(checks, p), Below(checks, n) - {p});
  }

  /** BLOCKED means exactly that some transitive prerequisite really ends in FAIL or TIMEOUT. */
  lemma {:induction false} BlockedIffPrerequisiteFailed(checks: map<string, Check>, exec: Executor, n: string)
    requires n in checks && Acyclic(GraphOf(checks))
    ensures Expected(checks, exec, n) == Blocked <==>
            exists p :: Reaches(GraphOf(checks), n, p) && ReallyFails(checks, exec, p)
  {
    if Doomed(checks, exec, n) {
      var p := DoomHasRealCause(checks, exec, n);
    }
  }
}
