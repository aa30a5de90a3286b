/** runner.run itself: the scheduling loop as a run of the schedule relation. */
module LandQualityScheduler {
  import opened Basics
  import opened Graphs
  import opened LandQuality
  import opened LandQualityRun
  import opened LandQualityProgress
  import opened LandQualitySchedule

  method DependenciesPassed(c: Check, states: map<string, Status>) returns (passed: bool)
    ensures passed <==> forall d :: d in c.deps ==> d in states && Passing(states[d])
  {
    for i := 0 to |c.deps|
      invariant forall j :: 0 <= j < i ==> c.deps[j] in states && Passing(states[c.deps[j]])
    {
      if c.deps[i] !in states || (states[c.deps[i]] != Pass && states[c.deps[i]] != Warn) {
        return false;
      }
    }
    return true;
  }

  // The first prerequisite, in declaration order, that failed, timed out or is blocked.
  method FailedDependency(c: Check, states: map<string, Status>) returns (failed: Option<string>)
    ensures failed.None? <==> forall d :: d in c.deps ==> d !in states || !Failing(states[d])
    ensures failed.Some? ==> failed.value in c.deps && failed.value in states && Failing(states[failed.value])
    ensures failed.Some? ==> exists i :: 0 <= i < |c.deps| && c.deps[i] == failed.value
                                         && forall j :: 0 <= j < i ==> c.deps[j] !in states || !Failing(states[c.deps[j]])
    ensures failed == FirstFailing(c.deps, states)
  {
    for i := 0 to |c.deps|
      invariant forall j :: 0 <= j < i ==> c.deps[j] !in states || !Failing(states[c.deps[j]])
      invariant FirstFailing(c.deps, states) == FirstFailing(c.deps[i..], states)
    {
      assert c.deps[i..][1..] == c.deps[i + 1..];
      if c.deps[i] in states && Failing(states[c.deps[i]]) {
        return Some(c.deps[i]);
      }
    }
    return None;
  }

  method OrderedResults(checks: seq<Check>, completed: map<string, Outcome>) returns (results: seq<Outcome>)
    ensures |results| == |checks|
    ensures forall i :: 0 <= i < |checks| ==> results[i] == OutcomeFor(completed, checks[i].name)
  {
    results := [];
    for i := 0 to |checks|
      invariant |results| == i
      invariant forall j :: 0 <= j < i ==> results[j] == OutcomeFor(completed, checks[j].name)
    {
      results := results + [if checks[i].name in completed then completed[checks[i].name] else NoOutcome];
    }
  }

  // What a caller may rely on for each listed result, however the run ended.
  ghost predicate RightResults(checks: seq<Check>, exec: Executor, results: seq<Outcome>) {
    && |results| == |checks|
    && forall i :: 0 <= i < |checks| ==> RightResult(checks, exec, results, i)
  }

  ghost predicate Holds(checks: seq<Check>, results: seq<Outcome>, n: string, s: Status)
    requires |results| == |checks|
  {
    exists j :: 0 <= j < |checks| && checks[j].name == n && StatusOf(results[j]) == s
  }

  ghost predicate RightResult(checks: seq<Check>, exec: Executor, results: seq<Outcome>, i: int)
    requires |results| == |checks| && 0 <= i < |checks|
  {
    var o := results[i];
    && (o.NoOutcome? || o.name == checks[i].name)
    && (o.Finished? ==> o.status == ClassifyResult(checks[i], exec(o.name)))
    && (o.BlockedBy? ==> o.dep in checks[i].deps && Failing(o.depStatus) && Holds(checks, results, o.dep, o.depStatus))
  }

  // The results in terms of what was executed. A finished check reports its own execution; with a
  // live context and a working writer a check is blocked exactly when some transitive prerequisite
  // went wrong.
  ghost predicate ReportsExecutions(checks: seq<Check>, exec: Executor, results: seq<Outcome>, complete: bool) {
    && |results| == |checks|
    && (forall i :: 0 <= i < |checks| && results[i].Finished? ==> Reports(checks[i], exec(checks[i].name), results[i].status))
    && (complete ==>
          forall i :: 0 <= i < |checks| ==>
                        if WrongBelow(ByName(checks), exec, checks[i].name) then results[i].BlockedBy? else results[i].Finished?)
  }

  lemma {:induction false} ResultsReport(checks: seq<Check>, exec: Executor, results: seq<Outcome>, complete: bool)
    requires ValidChecks(checks) && RightResults(checks, exec, results)
    requires complete ==> ExpectedResults(checks, exec, results) && NotByContext(results)
    ensures ReportsExecutions(checks, exec, results, complete)
  {
    hide Acyclic, Reports, Expected, WrongBelow, ClassifyResult, NamedAndRunnable, KnownDeps, ByName;
    assert WellFormed(checks);
    ByNameIsNames(checks);
    forall i | 0 <= i < |checks|
      ensures results[i].Finished? ==> Reports(checks[i], exec(checks[i].name), results[i].status)
      ensures complete ==> if WrongBelow(ByName(checks), exec, checks[i].name) then results[i].BlockedBy? else results[i].Finished?
    {
      assert RightResult(checks, exec, results, i);
      ClassifiedReports(checks[i], exec(checks[i].name));
      if complete {
        ExpectedReports(ByName(checks), exec, checks[i].name);
        ByNameFindsUnique(checks, i);
        if !WrongBelow(ByName(checks), exec, checks[i].name) {
          ReportsFinal(checks[i], exec(checks[i].name), Expected(ByName(checks), exec, checks[i].name));
        }
      }
    }
  }

  ghost predicate NotByContext(results: seq<Outcome>) {
    forall i :: 0 <= i < |results| ==> !results[i].BlockedByContext?
  }

  lemma {:induction false} ReportsFinal(c: Check, e: Execution, s: Status)
    requires Reports(c, e, s)
    ensures s in {Timeout, Fail, Warn, Pass}
  {
  }

  // The statuses the dependency graph determines by itself.
  ghost predicate ExpectedResults(checks: seq<Check>, exec: Executor, results: seq<Outcome>) {
    && |results| == |checks|
    && (forall i :: 0 <= i < |checks| ==> checks[i].name in ByName(checks))
    && forall i :: 0 <= i < |checks| ==> StatusOf(results[i]) == Expected(ByName(checks), exec, checks[i].name)
  }

  lemma {:induction false} ResultsAreRight(
    checks: seq<Check>, exec: Executor, limit: int, p: Progress, interrupted: bool, results: seq<Outcome>)
    requires WellFormed(checks) && Sound(ByName(checks), exec, limit, p, interrupted)
    requires |results| == |checks|
    requires forall i :: 0 <= i < |checks| ==> results[i] == OutcomeFor(p.completed, checks[i].name)
    ensures RightResults(checks, exec, results) && (!interrupted ==> NotByContext(results))
    ensures !interrupted && p.completed.Keys == ByName(checks).Keys ==> ExpectedResults(checks, exec, results)
    ensures p.completed.Keys == ByName(checks).Keys ==> forall i :: 0 <= i < |results| ==> !results[i].NoOutcome?
  {
    hide Doomed, GoodLog, InFlight, Acyclic, NodeSound, RightResult, StatusOf, Expected, ByName;
    ByNameIsNames(checks);
    assert ByName(checks).Keys == set j | 0 <= j < |checks| :: checks[j].name;
    forall i | 0 <= i < |checks|
      ensures RightResult(checks, exec, results, i)
      ensures !interrupted ==> !results[i].BlockedByContext?
      ensures results[i].NoOutcome? <==> checks[i].name !in p.completed
      ensures checks[i].name in p.completed ==> StatusOf(results[i]) == p.states[checks[i].name]
    {
      ResultIsRight(checks, exec, p, interrupted, results, i);
    }
  }

  lemma {:induction false} ResultIsRight(
    checks: seq<Check>, exec: Executor, p: Progress, interrupted: bool, results: seq<Outcome>, i: nat)
    requires UniqueNames(checks) && i < |checks| && |results| == |checks|
    requires p.states.Keys == ByName(checks).Keys
    requires forall n :: n in ByName(checks) ==> NodeSound(ByName(checks), exec, p, interrupted, n)
    requires forall j :: 0 <= j < |checks| ==> results[j] == OutcomeFor(p.completed, checks[j].name)
    requires ByName(checks).Keys == set j | 0 <= j < |checks| :: checks[j].name
    ensures RightResult(checks, exec, results, i) && (!interrupted ==> !results[i].BlockedByContext?)
    ensures results[i].NoOutcome? <==> checks[i].name !in p.completed
    ensures checks[i].name in p.completed ==>
              checks[i].name in p.states && StatusOf(results[i]) == p.states[checks[i].name]
  {
    var n := checks[i].name;
    ByNameFindsUnique(checks, i);
    assert NodeSound(ByName(checks), exec, p, interrupted, n);
    if results[i].BlockedBy? {
      var d := results[i].dep;
      assert NodeSound(ByName(checks), exec, p, interrupted, d);
      var j :| 0 <= j < |checks| && checks[j].name == d;
      assert StatusOf(results[j]) == p.states[d];
    }
  }

  lemma {:induction false} InitiallySound(checks: seq<Check>, exec: Executor, limit: int, states: map<string, Status>)
    requires WellFormed(checks)
    requires states.Keys == set j | 0 <= j < |checks| :: checks[j].name
    requires forall n :: n in states ==> states[n] == Pending
    ensures Scheduling(checks, exec, limit, Progress(states, map[], {}, []), false, 0, 0)
    ensures states == Beginning(checks).states
  {
    hide Doomed, ByName, Verdict, NodeSound, AsExpected, EndpointsKnown, GraphOf;
    ByNameIsNames(checks);
    WellFormedKnows(checks);
    DepsStayKnown(checks);
    assert states.Keys == ByName(checks).Keys;
    assert HeavyOf(ByName(checks), {}) == {};
    PendingIsSound(ByName(checks), exec, states);
  }

  lemma {:induction false} InterruptKeepsScheduling(
    checks: seq<Check>, exec: Executor, limit: int, p: Progress, interrupted: bool,
    running: int, heavyRunning: int, n: string)
    requires n in p.states && p.states[n] == Pending
    requires Scheduling(checks, exec, limit, p, interrupted, running, heavyRunning)
    ensures Scheduling(checks, exec, limit, Block(p, n, BlockedByContext(n)), true, running, heavyRunning)
    ensures Weight(Block(p, n, BlockedByContext(n))) < Weight(p)
  {
    hide Sound, Weight, HeavyOf;
    InterruptKeepsSound(ByName(checks), exec, limit, p, interrupted, n);
  }

  lemma {:induction false} LaunchKeepsScheduling(
    checks: seq<Check>, exec: Executor, limit: int, p: Progress, interrupted: bool,
    running: int, heavyRunning: int, n: string)
    requires n in p.states && p.states[n] == Pending && n in ByName(checks)
    requires Scheduling(checks, exec, limit, p, interrupted, running, heavyRunning)
    requires PrerequisitesPassed(ByName(checks), p, n)
    requires !(ByName(checks)[n].heavy && heavyRunning >= limit)
    ensures Scheduling(checks, exec, limit, Launch(p, n), interrupted, running + 1,
                       heavyRunning + if ByName(checks)[n].heavy then 1 else 0)
    ensures Weight(Launch(p, n)) < Weight(p)
  {
    hide Sound, Weight, HeavyOf;
    PendingIsIdle(ByName(checks), exec, limit, p, interrupted, n);
    LaunchKeepsSound(ByName(checks), exec, limit, p, interrupted, n);
  }

  lemma {:induction false} ReceiveKeepsScheduling(
    checks: seq<Check>, exec: Executor, limit: int, p: Progress, interrupted: bool,
    running: int, heavyRunning: int, n: string)
    requires UniqueNames(checks) && n in p.inFlight
    requires Scheduling(checks, exec, limit, p, interrupted, running, heavyRunning)
    ensures n in ByName(checks) && n in p.states
    ensures Scheduling(checks, exec, limit, Receive(p, n, Verdict(ByName(checks), exec, n)), interrupted,
                       running - 1, heavyRunning - if ByName(checks)[n].heavy then 1 else 0)
    ensures Sound(ByName(checks), exec, limit, Receive(p, n, Verdict(ByName(checks), exec, n)), interrupted)
    ensures Weight(Receive(p, n, Verdict(ByName(checks), exec, n))) < Weight(p)
  {
    hide Sound, Weight, HeavyOf, Verdict, UniqueNames;
    SoundInFlight(ByName(checks), exec, limit, p, interrupted, n);
    ReceiveKeepsSound(ByName(checks), exec, limit, p, interrupted, n);
  }

  lemma {:induction false} SoundInFlight(
    checks: map<string, Check>, exec: Executor, limit: int, p: Progress, interrupted: bool, n: string)
    requires Sound(checks, exec, limit, p, interrupted) && n in p.inFlight
    ensures n in checks && n in p.states && n !in p.completed
  {
    assert NodeSound(checks, exec, p, interrupted, n);
  }

  // The loop's counters agree with the checks they count.
  ghost predicate Scheduling(
    checks: seq<Check>, exec: Executor, limit: int, p: Progress, interrupted: bool, running: int, heavyRunning: int)
  {
    && Sound(ByName(checks), exec, limit, p, interrupted)
    && running == |p.inFlight|
    && heavyRunning == |HeavyOf(ByName(checks), p.inFlight)|
  }

  lemma {:induction false} NamesHaveStates(
    checks: seq<Check>, exec: Executor, limit: int, p: Progress, interrupted: bool, running: int, heavyRunning: int, i: nat)
    requires UniqueNames(checks) && i < |checks|
    requires Scheduling(checks, exec, limit, p, interrupted, running, heavyRunning)
    ensures checks[i].name in p.states && checks[i].name in ByName(checks)
    ensures ByName(checks)[checks[i].name] == checks[i]
    ensures |p.completed| <= |checks|
    ensures EndpointsKnown(GraphOf(ByName(checks)))
  {
    hide GoodLog, InFlight, NodeSound, AsExpected;
    ByNameFindsUnique(checks, i);
    AsManyNamesAsChecks(checks);
    AllDoneWhenAsMany(p.completed, ByName(checks));
  }

  lemma {:induction false} ValidIsUnique(checks: seq<Check>)
    requires ValidChecks(checks)
    ensures UniqueNames(checks)
  {
  }

  lemma {:induction false} PendingIsIdle(
    checks: map<string, Check>, exec: Executor, limit: int, p: Progress, interrupted: bool, n: string)
    requires Sound(checks, exec, limit, p, interrupted) && n in p.states && p.states[n] == Pending
    ensures n !in p.inFlight
  {
    assert NodeSound(checks, exec, p, interrupted, n);
  }

  lemma {:induction false} ScanStalls(
    checks: seq<Check>, exec: Executor, limit: int, p: Progress, interrupted: bool, running: int,
    c: Check, heavyRunning: int)
    requires c.name in ByName(checks) && ByName(checks)[c.name] == c
    requires Scheduling(checks, exec, limit, p, interrupted, running, heavyRunning)
    requires forall d :: d in c.deps ==> d !in p.states || !Failing(p.states[d])
    requires !(forall d :: d in c.deps ==> d in p.states && Passing(p.states[d])) || (c.heavy && heavyRunning >= limit)
    ensures Stalled(ByName(checks), limit, p, c.name)
  {
    hide GoodLog, InFlight, NodeSound, AsExpected;
    forall d | d in c.deps
      ensures d in p.states
    {
      assert Edge(GraphOf(ByName(checks)), c.name, d);
    }
  }

  lemma {:induction false} NoMoreThanChecks(
    checks: seq<Check>, exec: Executor, limit: int, p: Progress, interrupted: bool)
    requires UniqueNames(checks) && Sound(ByName(checks), exec, limit, p, interrupted)
    ensures |p.completed| <= |checks|
  {
    hide GoodLog, InFlight, NodeSound, AsExpected;
    AsManyNamesAsChecks(checks);
    AllDoneWhenAsMany(p.completed, ByName(checks));
  }

  lemma {:induction false} NothingRunningMeansProgress(
    checks: seq<Check>, exec: Executor, limit: int, p: Progress, interrupted: bool, heavyRunning: int)
    requires ValidChecks(checks) && limit >= 1
    requires Scheduling(checks, exec, limit, p, interrupted, 0, heavyRunning)
    requires forall j :: 0 <= j < |checks| && checks[j].name in p.states && p.states[checks[j].name] == Pending
                         ==> checks[j].name in ByName(checks) && Stalled(ByName(checks), limit, p, checks[j].name)
    ensures |p.completed| == |checks|
  {
    hide Sound, Stalled, ValidChecks, HeavyOf, ByName;
    NothingLeft(checks, exec, limit, p, interrupted);
    UniqueWhenValid(checks);
    NoMoreThanChecks(checks, exec, limit, p, interrupted);
  }

  lemma {:induction false} IdleMeansNobody(
    checks: seq<Check>, exec: Executor, limit: int, p: Progress, interrupted: bool, heavyRunning: int)
    requires Scheduling(checks, exec, limit, p, interrupted, 0, heavyRunning)
    ensures p.inFlight == {}
  {
  }

  lemma {:induction false} TurnsFrom(checks: seq<Check>, exec: Executor, limit: int, p: Progress)
    ensures Turns(checks, exec, limit, [p])
  {
  }

  lemma {:induction false} ReportIsScheduled(
    checks: seq<Check>, exec: Executor, limit: int, run: seq<Progress>, results: seq<Outcome>)
    requires ValidChecks(checks) && limit >= 1 && Turns(checks, exec, limit, run) && run[0] == Beginning(checks)
    requires Reported(checks, run[|run| - 1], results) && |run[|run| - 1].completed| >= |checks|
    ensures Scheduled(checks, exec, limit, results)
  {
    hide TurnsAt, ByName, NodeSound, AsExpected, GoodLog, InFlight, Acyclic, WellFormed;
    UniqueWhenValid(checks);
    BeginsSound(checks, exec, limit);
    TurnsStaySound(checks, exec, limit, run, |run| - 1);
    AsManyNamesAsChecks(checks);
    AllDoneWhenAsMany(run[|run| - 1].completed, ByName(checks));
  }

  lemma {:induction false} RunningIsInFlight(
    checks: seq<Check>, exec: Executor, limit: int, p: Progress, interrupted: bool, running: int, heavyRunning: int)
    requires Scheduling(checks, exec, limit, p, interrupted, running, heavyRunning) && running != 0
    ensures p.inFlight != {}
  {
  }

  lemma {:induction false} SoundLog(
    checks: map<string, Check>, exec: Executor, limit: int, p: Progress, interrupted: bool)
    requires Sound(checks, exec, limit, p, interrupted)
    ensures GoodLog(checks, exec, limit, p.log)
  {
  }

  /** The runner and the variables of its scheduling loop. `contextEnded(k)` is the k-th
      poll of the context and `writeFails(k)` the fate of the k-th status line. */
  class Runner {
    const checks: seq<Check>
    const heavyLimit: int
    const execute: Executor
    const contextEnded: nat -> bool
    const writeFails: nat -> bool

    var states: map<string, Status>
    var completed: map<string, Outcome>
    var running: int
    var heavyRunning: int
    var inFlight: set<string>
    var log: seq<LogLine>
    var polls: nat
    var writes: nat
    ghost var interrupted: bool

    ghost function Now(): Progress
      reads this
    {
      Progress(states, completed, inFlight, log)
    }

    ghost predicate SomeWriteFails() {
      exists k: nat :: writeFails(k)
    }

    ghost predicate ContextStaysEnded() {
      forall j: nat, k: nat :: j <= k && contextEnded(j) ==> contextEnded(k)
    }

    ghost predicate Valid()
      reads this
    {
      && ValidChecks(checks) && heavyLimit >= 1 && ContextStaysEnded()
      && Scheduling(checks, execute, heavyLimit, Now(), interrupted, running, heavyRunning)
      && (interrupted ==> contextEnded(polls))
    }

    constructor (
      checks: seq<Check>, heavyLimit: int, execute: Executor, contextEnded: nat -> bool, writeFails: nat -> bool)
      ensures this.checks == checks && this.heavyLimit == heavyLimit && this.execute == execute
      ensures this.contextEnded == contextEnded && this.writeFails == writeFails
      ensures states == map[] && completed == map[] && inFlight == {} && log == []
      ensures running == 0 && heavyRunning == 0 && polls == 0 && writes == 0 && !interrupted
    {
      this.checks, this.heavyLimit, this.execute := checks, heavyLimit, execute;
      this.contextEnded, this.writeFails := contextEnded, writeFails;
      states, completed, running, heavyRunning := map[], map[], 0, 0;
      inFlight, log, polls, writes, interrupted := {}, [], 0, 0, false;
    }

    // Writes one status line.
    method Write(line: LogLine) returns (ok: bool)
      modifies this`log, this`writes
      ensures ok ==> log == old(log) + [line]
      ensures !ok ==> log == old(log) && SomeWriteFails()
    {
      ok := !writeFails(writes);
      writes := writes + 1;
      if ok {
        log := log + [line];
      }
    }

    // One turn of the scan over the checks. `stop` reports a failed status line; `moved`
    // that the check left the pending state.
    method Consider(i: nat) returns (moved: bool, stop: bool)
      requires Valid() && i < |checks|
      modifies this
      ensures stop ==> completed == old(completed) && log == old(log) && SomeWriteFails()
      ensures stop ==> interrupted == old(interrupted)
      ensures !stop ==> Valid()
      ensures !stop && moved ==> Weight(Now()) < Weight(old(Now()))
      ensures !stop && !moved ==> Now() == old(Now())
      ensures !stop && !interrupted ==>
                !old(interrupted) && Now() == Considered(ByName(checks), heavyLimit, old(Now()), checks[i])
      ensures !stop && !moved && checks[i].name in states && states[checks[i].name] == Pending ==>
                checks[i].name in ByName(checks) && Stalled(ByName(checks), heavyLimit, Now(), checks[i].name)
    {
      hide Sound, HeavyOf, Acyclic, NodeSound, Weight, ByName, Stalled, EndpointsKnown, WellFormed;
      var c := checks[i];
      moved, stop := false, false;
      ghost var byName := ByName(checks);
      ghost var p := Now();
      assert UniqueNames(checks) by { ValidIsUnique(checks); }
      NamesHaveStates(checks, execute, heavyLimit, p, interrupted, running, heavyRunning, i);
      if states[c.name] == Pending {
        var failed := FailedDependency(c, states);
        if failed.Some? {
          BlockKeepsSound(byName, execute, heavyLimit, p, interrupted, c.name, failed.value);
          completed := completed[c.name := BlockedBy(c.name, failed.value, states[failed.value])];
          states := states[c.name := Blocked];
          moved := true;
        } else {
          var passed := DependenciesPassed(c, states);
          if !passed || (c.heavy && heavyRunning >= heavyLimit) {
            ScanStalls(checks, execute, heavyLimit, p, interrupted, running, c, heavyRunning);
          } else {
            moved, stop := Admit(c);
          }
        }
      }
    }

    // A check whose prerequisites passed is blocked by an ended context or started.
    method Admit(c: Check) returns (moved: bool, stop: bool)
      requires Valid() && c.name in states && states[c.name] == Pending
      requires c.name in ByName(checks) && ByName(checks)[c.name] == c
      requires forall d :: d in c.deps ==> d in states && Passing(states[d])
      requires !(c.heavy && heavyRunning >= heavyLimit)
      modifies this
      ensures stop ==> completed == old(completed) && log == old(log) && SomeWriteFails()
      ensures stop ==> interrupted == old(interrupted)
      ensures !stop ==> Valid() && moved && Weight(Now()) < Weight(old(Now()))
      ensures !stop && !interrupted ==> !old(interrupted) && Now() == Launch(old(Now()), c.name)
    {
      hide Scheduling, Weight, ValidChecks, ByName, SomeWriteFails;
      moved, stop := true, false;
      var ended := contextEnded(polls);
      polls := polls + 1;
      if ended {
        ghost var p := Now();
        InterruptKeepsScheduling(checks, execute, heavyLimit, p, interrupted, running, heavyRunning, c.name);
        interrupted := true;
        completed := completed[c.name := BlockedByContext(c.name)];
        states := states[c.name := Blocked];
      } else {
        stop := Start(c);
      }
    }

    method Start(c: Check) returns (stop: bool)
      requires Valid() && c.name in states && states[c.name] == Pending
      requires c.name in ByName(checks) && ByName(checks)[c.name] == c
      requires forall d :: d in c.deps ==> d in states && Passing(states[d])
      requires !(c.heavy && heavyRunning >= heavyLimit)
      modifies this
      ensures stop ==> completed == old(completed) && log == old(log) && SomeWriteFails()
      ensures interrupted == old(interrupted)
      ensures !stop ==> Valid() && Now() == Launch(old(Now()), c.name) && Weight(Now()) < Weight(old(Now()))
    {
      hide Scheduling, Weight, ValidChecks, ByName, SomeWriteFails, ContextStaysEnded;
      ghost var p := Now();
      LaunchKeepsScheduling(checks, execute, heavyLimit, p, interrupted, running, heavyRunning, c.name);
      stop := MarkStarted(c);
    }

    // Books a check as running and writes its line.
    method MarkStarted(c: Check) returns (stop: bool)
      modifies this
      ensures running == old(running) + 1 && heavyRunning == old(heavyRunning) + if c.heavy then 1 else 0
      ensures polls == old(polls) && interrupted == old(interrupted)
      ensures stop ==> completed == old(completed) && log == old(log) && SomeWriteFails()
      ensures !stop ==> Now() == Launch(old(Now()), c.name)
    {
      hide SomeWriteFails;
      states := states[c.name := Running];
      running := running + 1;
      heavyRunning := heavyRunning + if c.heavy then 1 else 0;
      var written := Write(Started(c.name));
      if written {
        inFlight := inFlight + {c.name};
      }
      stop := !written;
    }

    // Receives the outcome of any one running check. `settled` is the loop state the
    // completed results belong to, even when the status line could not be written.
    method ReceiveOne() returns (stop: bool, ghost settled: Progress)
      requires Valid() && running != 0
      modifies this
      ensures Sound(ByName(checks), execute, heavyLimit, settled, interrupted)
      ensures settled.completed == completed && interrupted == old(interrupted)
      ensures stop ==> log == old(log) && SomeWriteFails()
      ensures !stop ==> Valid() && settled == Now() && Weight(Now()) < Weight(old(Now()))
      ensures !stop ==> ReceivesAny(ByName(checks), execute, old(Now()), Now())
      ensures old(inFlight) != {}
    {
      hide Scheduling, Weight, ValidChecks, Sound, UniqueNames, ClassifyResult, ByName, SomeWriteFails, ContextStaysEnded;
      RunningIsInFlight(checks, execute, heavyLimit, Now(), interrupted, running, heavyRunning);
      var n :| n in inFlight;
      ValidIsUnique(checks);
      ReceiveKeepsScheduling(checks, execute, heavyLimit, Now(), interrupted, running, heavyRunning, n);
      var c := ByName(checks)[n];
      var s := ClassifyResult(c, execute(n));
      settled := Receive(Now(), n, s);
      stop := Settle(c, n, s);
    }

    // Books one received outcome and writes its line.
    method Settle(c: Check, n: string, s: Status) returns (stop: bool)
      modifies this
      ensures states == old(states)[n := s] && completed == old(completed)[n := Finished(n, s)]
      ensures inFlight == old(inFlight) - {n} && running == old(running) - 1
      ensures heavyRunning == old(heavyRunning) - if c.heavy then 1 else 0
      ensures polls == old(polls) && interrupted == old(interrupted)
      ensures !stop ==> log == old(log) + [Done(n, s)]
      ensures stop ==> log == old(log) && SomeWriteFails()
    {
      running := running - 1;
      heavyRunning := heavyRunning - if c.heavy then 1 else 0;
      inFlight := inFlight - {n};
      states := states[n := s];
      completed := completed[n := Finished(n, s)];
      var written := Write(Done(n, s));
      stop := !written;
    }

    method MarkPending()
      requires ValidChecks(checks) && heavyLimit >= 1 && ContextStaysEnded()
      requires states == map[] && completed == map[] && inFlight == {} && log == []
      requires running == 0 && heavyRunning == 0 && !interrupted
      modifies this`states
      ensures Valid() && Now() == Beginning(checks)
    {
      hide Scheduling, ByName, Acyclic, EndpointsKnown, Budgeted, NamedAndRunnable, KnownDeps;
      for i := 0 to |checks|
        invariant states.Keys == set j | 0 <= j < i :: checks[j].name
        invariant forall n :: n in states ==> states[n] == Pending
      {
        states := states[checks[i].name := Pending];
      }
      InitiallySound(checks, execute, heavyLimit, states);
    }

    ghost predicate PendingStalled(p: Progress, upTo: int)
      requires 0 <= upTo <= |checks|
    {
      forall j :: 0 <= j < upTo && checks[j].name in p.states && p.states[checks[j].name] == Pending
                  ==> checks[j].name in ByName(checks) && Stalled(ByName(checks), heavyLimit, p, checks[j].name)
    }

    // One scan over all checks.
    method Scan() returns (progress: bool, stop: bool, ghost settled: Progress)
      requires Valid()
      modifies this
      ensures Sound(ByName(checks), execute, heavyLimit, settled, interrupted)
      ensures settled.completed == completed && settled.log == log
      ensures stop ==> SomeWriteFails()
      ensures !stop ==> Valid() && settled == Now()
      ensures !stop && progress ==> Weight(Now()) < Weight(old(Now()))
      ensures !stop && !progress ==> Now() == old(Now()) && PendingStalled(Now(), |checks|)
      ensures !stop && !interrupted ==> !old(interrupted) && Now() == Scanned(checks, heavyLimit, old(Now()), |checks|)
    {
      hide Scheduling, Sound, Weight, Stalled, ByName, ValidChecks, SomeWriteFails, Considered;
      progress, stop := false, false;
      var i := 0;
      settled := Now();
      SchedulingIsSound(checks, execute, heavyLimit, settled, interrupted, running, heavyRunning);
      while i < |checks| && !stop
        invariant 0 <= i <= |checks|
        invariant Sound(ByName(checks), execute, heavyLimit, settled, interrupted)
        invariant settled.completed == completed && settled.log == log
        invariant stop ==> SomeWriteFails()
        invariant !stop ==> Valid() && settled == Now()
        invariant !stop && progress ==> Weight(Now()) < Weight(old(Now()))
        invariant !stop && !progress ==> Now() == old(Now()) && PendingStalled(Now(), i)
        invariant !stop && !interrupted ==> !old(interrupted) && Now() == Scanned(checks, heavyLimit, old(Now()), i)
      {
        var moved;
        moved, stop := Consider(i);
        if !stop {
          settled := Now();
          SchedulingIsSound(checks, execute, heavyLimit, settled, interrupted, running, heavyRunning);
        }
        progress := progress || moved;
        i := i + 1;
      }
    }

    // One turn of the loop: a scan, then one outcome if anything is running.
    method Turn() returns (stop: bool, ghost settled: Progress)
      requires Valid() && |completed| < |checks|
      modifies this
      ensures Sound(ByName(checks), execute, heavyLimit, settled, interrupted)
      ensures settled.completed == completed
      ensures GoodLog(ByName(checks), execute, heavyLimit, log)
      ensures stop ==> SomeWriteFails()
      ensures !stop ==> Valid() && settled == Now() && Weight(Now()) < Weight(old(Now()))
      ensures !stop && !interrupted ==>
                !old(interrupted) && TurnTo(checks, execute, heavyLimit, old(Now()), Now())
    {
      hide Scheduling, Sound, Weight, ByName, ValidChecks, SomeWriteFails, Stalled, GoodLog, Scanned, ReceivesAny;
      var progress;
      progress, stop, settled := Scan();
      SoundLog(ByName(checks), execute, heavyLimit, settled, interrupted);
      if !stop {
        if running == 0 {
          IdleMeansNobody(checks, execute, heavyLimit, Now(), interrupted, heavyRunning);
          if !progress && |completed| < |checks| {
            // The source gives up here with "scheduler made no progress".
            NothingRunningMeansProgress(checks, execute, heavyLimit, Now(), interrupted, heavyRunning);
            assert false;
          }
        } else {
          stop, settled := ReceiveOne();
          if !stop {
            SoundLog(ByName(checks), execute, heavyLimit, settled, interrupted);
          }
        }
      }
    }

    /** runner.run after validation: every way it can end, and what its results then say. */
    method Loop() returns (results: seq<Outcome>, err: RunError)
      requires ValidChecks(checks) && heavyLimit >= 1 && ContextStaysEnded()
      requires states == map[] && completed == map[] && inFlight == {} && log == []
      requires running == 0 && heavyRunning == 0 && !interrupted
      modifies this
      ensures err == NoError || err == WriteFailed || err == ContextEnded
      ensures GoodLog(ByName(checks), execute, heavyLimit, log)
      ensures RightResults(checks, execute, results)
      ensures ReportsExecutions(checks, execute, results, err == NoError)
      ensures err == NoError || err == ContextEnded ==> forall i :: 0 <= i < |results| ==> !results[i].NoOutcome?
      ensures err == NoError ==> ExpectedResults(checks, execute, results)
      ensures err == NoError ==> Scheduled(checks, execute, heavyLimit, results)
      ensures err == WriteFailed ==> SomeWriteFails()
      ensures err == ContextEnded ==> exists k: nat :: contextEnded(k)
    {
      hide Scheduling, Weight, Sound, GoodLog, RightResults, ExpectedResults, Stalled, ByName, ValidChecks, SomeWriteFails,
        WrongBelow, Reports,
        Scheduled, Turns, TurnTo, Beginning;
      MarkPending();
      var stop := false;
      ghost var settled := Now();
      SchedulingIsSound(checks, execute, heavyLimit, settled, interrupted, running, heavyRunning);
      SoundLog(ByName(checks), execute, heavyLimit, settled, interrupted);
      ghost var run := [Now()];
      TurnsFrom(checks, execute, heavyLimit, Now());
      while |completed| < |checks| && !stop
        invariant !stop ==> Valid() && settled == Now()
        invariant |run| > 0 && run[0] == Beginning(checks)
        invariant !stop && !interrupted ==> Turns(checks, execute, heavyLimit, run) && run[|run| - 1] == Now()
        invariant stop ==> SomeWriteFails()
        invariant Sound(ByName(checks), execute, heavyLimit, settled, interrupted)
        invariant settled.completed == completed
        invariant GoodLog(ByName(checks), execute, heavyLimit, log)
        decreases !stop, Weight(Now())
      {
        ghost var before := run;
        stop, settled := Turn();
        run := run + [Now()];
        if !stop && !interrupted {
          TurnAppends(checks, execute, heavyLimit, before, Now());
        }
      }
      err := if stop then WriteFailed else if contextEnded(polls) then ContextEnded else NoError;
      results := OrderedResults(checks, completed);
      ReportIsRight(checks, execute, heavyLimit, settled, interrupted, results);
      if err == NoError {
        ReportIsScheduled(checks, execute, heavyLimit, run, results);
      }
    }
  }

  lemma {:induction false} SchedulingIsSound(
    checks: seq<Check>, exec: Executor, limit: int, p: Progress, interrupted: bool, running: int, heavyRunning: int)
    requires Scheduling(checks, exec, limit, p, interrupted, running, heavyRunning)
    ensures Sound(ByName(checks), exec, limit, p, interrupted)
  {
  }

  lemma {:induction false} ReportIsRight(
    checks: seq<Check>, exec: Executor, limit: int, p: Progress, interrupted: bool, results: seq<Outcome>)
    requires ValidChecks(checks) && Sound(ByName(checks), exec, limit, p, interrupted)
    requires |results| == |checks|
    requires forall i :: 0 <= i < |checks| ==> results[i] == OutcomeFor(p.completed, checks[i].name)
    ensures RightResults(checks, exec, results)
    ensures ReportsExecutions(checks, exec, results, |p.completed| >= |checks| && !interrupted)
    ensures |p.completed| >= |checks| ==> forall i :: 0 <= i < |results| ==> !results[i].NoOutcome?
    ensures |p.completed| >= |checks| && !interrupted ==> ExpectedResults(checks, exec, results)
  {
    hide InFlight, NodeSound, AsExpected, Acyclic, RightResults, ExpectedResults, NotByContext, ReportsExecutions;
    ResultsAreRight(checks, exec, limit, p, interrupted, results);
    AsManyNamesAsChecks(checks);
    AllDoneWhenAsMany(p.completed, ByName(checks));
    ResultsReport(checks, exec, results, |p.completed| >= |checks| && !interrupted);
  }

  /** runner.run: refuses bad check lists and limits, otherwise schedules to the end. With a
      live context and a working writer the statuses are those the graph determines, whatever
      the completion order and the heavy limit. */
  method Run(
    checks: seq<Check>, heavyLimit: int, execute: Executor, contextEnded: nat -> bool, writeFails: nat -> bool)
    returns (results: seq<Outcome>, err: RunError, log: seq<LogLine>)
    requires forall j: nat, k: nat :: j <= k && contextEnded(j) ==> contextEnded(k)
    ensures err.Refused? <==> !ValidChecks(checks)
    ensures err.Refused? ==> RefusalHolds(checks, err.reason)
    ensures err == BadHeavyLimit <==> ValidChecks(checks) && heavyLimit < 1
    ensures err.Refused? || err == BadHeavyLimit ==> results == [] && log == []
    ensures err != NoProgress
    ensures ValidChecks(checks) && heavyLimit >= 1 ==>
              && GoodLog(ByName(checks), execute, heavyLimit, log) && RightResults(checks, execute, results)
              && ReportsExecutions(checks, execute, results, err == NoError)
    ensures err == NoError || err == ContextEnded ==> forall i :: 0 <= i < |results| ==> !results[i].NoOutcome?
    ensures err == NoError ==> ExpectedResults(checks, execute, results)
    ensures err == NoError ==> Scheduled(checks, execute, heavyLimit, results)
    ensures err == WriteFailed ==> exists k: nat :: writeFails(k)
    ensures err == ContextEnded ==> exists k: nat :: contextEnded(k)
  {
    hide ValidChecks, RefusalHolds, GoodLog, RightResults, ExpectedResults, Scheduled, ReportsExecutions;
    var validation := ValidateChecks(checks);
    results, log := [], [];
    if !validation.Accepted? {
      err := Refused(validation);
    } else if heavyLimit < 1 {
      err := BadHeavyLimit;
    } else {
      var r := new Runner(checks, heavyLimit, execute, contextEnded, writeFails);
      results, err := r.Loop();
      log := r.log;
    }
  }
}
