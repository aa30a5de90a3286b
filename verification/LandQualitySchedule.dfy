/** The scheduling loop as a relation on its variables, for a live context and a working writer:
    a scan over the list, then the outcome of any one running check. */
module LandQualitySchedule {
  import opened Basics
  import opened Graphs
  import opened LandQuality
  import opened LandQualityRun
  import opened LandQualityProgress

  function FirstFailing(deps: seq<string>, states: map<string, Status>): Option<string> {
    if deps == [] then None
    else if deps[0] in states && Failing(states[deps[0]]) then Some(deps[0])
    else FirstFailing(deps[1..], states)
  }

  predicate AllPassing(deps: seq<string>, states: map<string, Status>) {
    forall d :: d in deps ==> d in states && Passing(states[d])
  }

  // What the scan does with one check.
  ghost function Considered(checks: map<string, Check>, limit: int, p: Progress, c: Check): Progress {
    if c.name !in p.states || p.states[c.name] != Pending then p
    else
      var failed := FirstFailing(c.deps, p.states);
      if failed.Some? && failed.value in p.states then
        Block(p, c.name, BlockedBy(c.name, failed.value, p.states[failed.value]))
      else if !AllPassing(c.deps, p.states) || (c.heavy && |HeavyOf(checks, p.inFlight)| >= limit) then p
      else Launch(p, c.name)
  }

  // The scan over the first so many checks.
  ghost function Scanned(checks: seq<Check>, limit: int, p: Progress, upTo: nat): Progress
    requires upTo <= |checks|
  {
    if upTo == 0 then p
    else Considered(ByName(checks), limit, Scanned(checks, limit, p, upTo - 1), checks[upTo - 1])
  }

  ghost predicate ReceivesAny(checks: map<string, Check>, exec: Executor, p: Progress, q: Progress) {
    exists n :: n in p.inFlight && n in checks && q == Receive(p, n, Verdict(checks, exec, n))
  }

  // One turn of the loop.
  ghost predicate TurnTo(checks: seq<Check>, exec: Executor, limit: int, p: Progress, q: Progress) {
    var s := Scanned(checks, limit, p, |checks|);
    if s.inFlight == {} then q == s else ReceivesAny(ByName(checks), exec, s, q)
  }

  ghost function Beginning(checks: seq<Check>): Progress {
    Progress(map n | n in ByName(checks) :: Pending, map[], {}, [])
  }

  ghost predicate TurnsAt(checks: seq<Check>, exec: Executor, limit: int, run: seq<Progress>, k: int)
    requires 0 <= k < |run| - 1
  {
    |run[k].completed| < |checks| && TurnTo(checks, exec, limit, run[k], run[k + 1])
  }

  ghost predicate Turns(checks: seq<Check>, exec: Executor, limit: int, run: seq<Progress>) {
    |run| > 0 && forall k :: 0 <= k < |run| - 1 ==> TurnsAt(checks, exec, limit, run, k)
  }

  // A whole run of the loop, to the point where every check has its result.
  ghost predicate Schedule(checks: seq<Check>, exec: Executor, limit: int, run: seq<Progress>) {
    && Turns(checks, exec, limit, run) && run[0] == Beginning(checks)
    && run[|run| - 1].completed.Keys == ByName(checks).Keys
  }

  ghost function OutcomeFor(completed: map<string, Outcome>, n: string): Outcome {
    if n in completed then completed[n] else NoOutcome
  }

  // The results are those of a schedule that ran to its end.
  ghost predicate Scheduled(checks: seq<Check>, exec: Executor, limit: int, results: seq<Outcome>) {
    exists run :: Schedule(checks, exec, limit, run) && Reported(checks, run[|run| - 1], results)
  }

  ghost predicate Reported(checks: seq<Check>, p: Progress, results: seq<Outcome>) {
    |results| == |checks| && forall i :: 0 <= i < |checks| ==> results[i] == OutcomeFor(p.completed, checks[i].name)
  }

  // ------------------------------------------------------------ what a schedule keeps

  lemma {:induction false} FirstFailingFinds(deps: seq<string>, states: map<string, Status>)
    ensures FirstFailing(deps, states).None? <==> forall d :: d in deps ==> d !in states || !Failing(states[d])
    ensures FirstFailing(deps, states).Some? ==>
              var d := FirstFailing(deps, states).value; d in deps && d in states && Failing(states[d])
  {
    if deps != [] {
      FirstFailingFinds(deps[1..], states);
      assert forall d :: d in deps <==> d == deps[0] || d in deps[1..];
    }
  }

  lemma {:induction false} ConsideredKeeps(checks: map<string, Check>, exec: Executor, limit: int, p: Progress, c: Check)
    requires Sound(checks, exec, limit, p, false) && c.name in checks && checks[c.name] == c
    ensures var q := Considered(checks, limit, p, c);
            && Sound(checks, exec, limit, q, false)
            && Weight(q) <= Weight(p) && (q != p ==> Weight(q) < Weight(p))
            && (q == p && p.states[c.name] == Pending ==> Stalled(checks, limit, p, c.name))
  {
    hide NodeSound, GoodLog, InFlight, AsExpected, Weight, HeavyOf;
    FirstFailingFinds(c.deps, p.states);
    if p.states[c.name] == Pending {
      var failed := FirstFailing(c.deps, p.states);
      DependenciesHaveStates(checks, c.name);
      if failed.Some? {
        BlockKeepsSound(checks, exec, limit, p, false, c.name, failed.value);
      } else if AllPassing(c.deps, p.states) && !(c.heavy && |HeavyOf(checks, p.inFlight)| >= limit) {
        LaunchKeepsSound(checks, exec, limit, p, false, c.name);
      }
    }
  }

  lemma {:induction false} DependenciesHaveStates(checks: map<string, Check>, n: string)
    requires EndpointsKnown(GraphOf(checks)) && n in checks
    ensures forall d :: d in checks[n].deps ==> d in checks
  {
    forall d | d in checks[n].deps
      ensures d in checks
    {
      assert Edge(GraphOf(checks), n, d);
    }
  }

  lemma {:induction false} ScannedKeeps(checks: seq<Check>, exec: Executor, limit: int, p: Progress, upTo: nat)
    requires UniqueNames(checks) && Sound(ByName(checks), exec, limit, p, false) && upTo <= |checks|
    ensures var q := Scanned(checks, limit, p, upTo);
            && Sound(ByName(checks), exec, limit, q, false)
            && Weight(q) <= Weight(p) && (q != p ==> Weight(q) < Weight(p))
            && (q == p ==> forall j :: 0 <= j < upTo && checks[j].name in p.states && p.states[checks[j].name] == Pending ==>
                             checks[j].name in ByName(checks) && Stalled(ByName(checks), limit, p, checks[j].name))
  {
    hide Sound, Considered, Stalled, Weight, ByName, UniqueNames;
    if upTo > 0 {
      ScannedKeeps(checks, exec, limit, p, upTo - 1);
      ByNameFindsUnique(checks, upTo - 1);
      ConsideredKeeps(ByName(checks), exec, limit, Scanned(checks, limit, p, upTo - 1), checks[upTo - 1]);
    }
  }

  lemma {:induction false} TurnKeeps(checks: seq<Check>, exec: Executor, limit: int, p: Progress, q: Progress)
    requires ValidChecks(checks) && limit >= 1 && Sound(ByName(checks), exec, limit, p, false)
    requires |p.completed| < |checks| && TurnTo(checks, exec, limit, p, q)
    ensures Sound(ByName(checks), exec, limit, q, false) && Weight(q) < Weight(p)
  {
    hide Sound, Weight, Scanned, Stalled, ByName, Acyclic, WellFormed;
    UniqueWhenValid(checks);
    ScannedKeeps(checks, exec, limit, p, |checks|);
    var s := Scanned(checks, limit, p, |checks|);
    if s.inFlight == {} {
      if s == p {
        NothingLeft(checks, exec, limit, p, false);
        assert false;
      }
    } else {
      var n :| n in s.inFlight && n in ByName(checks) && q == Receive(s, n, Verdict(ByName(checks), exec, n));
      ReceiveKeepsSound(ByName(checks), exec, limit, s, false, n);
    }
  }

  lemma {:induction false} UniqueWhenValid(checks: seq<Check>)
    requires ValidChecks(checks)
    ensures UniqueNames(checks) && WellFormed(checks)
  {
  }

  lemma {:induction false} NothingLeft(
    checks: seq<Check>, exec: Executor, limit: int, p: Progress, interrupted: bool)
    requires ValidChecks(checks) && limit >= 1 && Sound(ByName(checks), exec, limit, p, interrupted) && p.inFlight == {}
    requires forall j :: 0 <= j < |checks| && checks[j].name in p.states && p.states[checks[j].name] == Pending ==>
                           checks[j].name in ByName(checks) && Stalled(ByName(checks), limit, p, checks[j].name)
    ensures |p.completed| >= |checks|
  {
    hide NodeSound, GoodLog, InFlight, AsExpected, Stalled, Acyclic, HeavyOf;
    ByNameIsNames(checks);
    AlwaysProgress(ByName(checks), exec, limit, p, interrupted);
    AsManyNamesAsChecks(checks);
  }

  lemma {:induction false} AsManyNamesAsChecks(checks: seq<Check>)
    requires UniqueNames(checks)
    ensures |ByName(checks)| == |checks|
  {
    if checks != [] {
      var init := checks[..|checks| - 1];
      var last := checks[|checks| - 1];
      AsManyNamesAsChecks(init);
      ByNameIsNames(init);
      assert last.name !in ByName(init);
      assert ByName(checks).Keys == ByName(init).Keys + {last.name};
    }
  }

  lemma {:induction false} AllDoneWhenAsMany(completed: map<string, Outcome>, checks: map<string, Check>)
    requires completed.Keys <= checks.Keys
    ensures |completed| <= |checks|
    ensures |completed| == |checks| <==> completed.Keys == checks.Keys
  {
    assert checks.Keys == completed.Keys + (checks.Keys - completed.Keys);
  }

  // ------------------------------------------------------------ results are never rewritten

  ghost predicate Extends(p: Progress, q: Progress) {
    forall n :: n in p.completed ==> n in q.completed && q.completed[n] == p.completed[n]
  }

  lemma {:induction false} ConsideredExtends(checks: map<string, Check>, exec: Executor, limit: int, p: Progress, c: Check)
    requires Sound(checks, exec, limit, p, false) && c.name in checks
    ensures Extends(p, Considered(checks, limit, p, c))
  {
    hide Sound, HeavyOf, FirstFailing, AllPassing;
    PendingHasNoResult(checks, exec, limit, p, c.name);
  }

  lemma {:induction false} PendingHasNoResult(checks: map<string, Check>, exec: Executor, limit: int, p: Progress, n: string)
    requires Sound(checks, exec, limit, p, false) && n in checks
    ensures n in p.states && (p.states[n] == Pending ==> n !in p.completed)
  {
    assert NodeSound(checks, exec, p, false, n);
  }

  lemma {:induction false} ScannedExtends(checks: seq<Check>, exec: Executor, limit: int, p: Progress, upTo: nat)
    requires UniqueNames(checks) && Sound(ByName(checks), exec, limit, p, false) && upTo <= |checks|
    ensures Extends(p, Scanned(checks, limit, p, upTo))
  {
    hide Sound, Considered, ByName, UniqueNames;
    if upTo > 0 {
      ScannedExtends(checks, exec, limit, p, upTo - 1);
      ScannedKeeps(checks, exec, limit, p, upTo - 1);
      ByNameFindsUnique(checks, upTo - 1);
      ConsideredExtends(ByName(checks), exec, limit, Scanned(checks, limit, p, upTo - 1), checks[upTo - 1]);
    }
  }

  lemma {:induction false} TurnExtends(checks: seq<Check>, exec: Executor, limit: int, p: Progress, q: Progress)
    requires UniqueNames(checks) && Sound(ByName(checks), exec, limit, p, false) && TurnTo(checks, exec, limit, p, q)
    ensures Extends(p, q) && Extends(Scanned(checks, limit, p, |checks|), q)
  {
    hide Sound, Scanned, ByName, UniqueNames;
    ScannedKeeps(checks, exec, limit, p, |checks|);
    ScannedExtends(checks, exec, limit, p, |checks|);
    var s := Scanned(checks, limit, p, |checks|);
    if s.inFlight != {} {
      var n :| n in s.inFlight && n in ByName(checks) && q == Receive(s, n, Verdict(ByName(checks), exec, n));
      InFlightHasNoResult(ByName(checks), exec, limit, s, n);
    }
  }

  lemma {:induction false} InFlightHasNoResult(checks: map<string, Check>, exec: Executor, limit: int, p: Progress, n: string)
    requires Sound(checks, exec, limit, p, false) && n in p.inFlight
    ensures n in checks && n !in p.completed
  {
    assert NodeSound(checks, exec, p, false, n);
  }

  // ------------------------------------------------------------ every start leads to an end

  lemma {:induction false} SomeTurn(checks: seq<Check>, exec: Executor, limit: int, p: Progress) returns (q: Progress)
    requires UniqueNames(checks) && Sound(ByName(checks), exec, limit, p, false)
    ensures TurnTo(checks, exec, limit, p, q)
  {
    hide Sound, Scanned, ByName, UniqueNames;
    ScannedKeeps(checks, exec, limit, p, |checks|);
    q := Scanned(checks, limit, p, |checks|);
    if q.inFlight != {} {
      var n :| n in q.inFlight;
      InFlightHasNoResult(ByName(checks), exec, limit, q, n);
      q := Receive(q, n, Verdict(ByName(checks), exec, n));
    }
  }

  /** From any state the loop can be in, some completion order finishes every check, and no
      result already there changes on the way. */
  lemma {:induction false} CanFinish(checks: seq<Check>, exec: Executor, limit: int, p: Progress) returns (run: seq<Progress>)
    requires ValidChecks(checks) && limit >= 1 && Sound(ByName(checks), exec, limit, p, false)
    ensures Turns(checks, exec, limit, run) && run[0] == p
    ensures run[|run| - 1].completed.Keys == ByName(checks).Keys && Extends(p, run[|run| - 1])
    decreases Weight(p)
  {
    hide NodeSound, GoodLog, InFlight, AsExpected, Weight, TurnTo, ByName, Acyclic, WellFormed;
    UniqueWhenValid(checks);
    AsManyNamesAsChecks(checks);
    AllDoneWhenAsMany(p.completed, ByName(checks));
    hide Sound;
    if |p.completed| == |checks| {
      run := [p];
    } else {
      var q := SomeTurn(checks, exec, limit, p);
      TurnKeeps(checks, exec, limit, p, q);
      TurnExtends(checks, exec, limit, p, q);
      var rest := CanFinish(checks, exec, limit, q);
      run := [p] + rest;
      TurnPrepends(checks, exec, limit, p, rest);
    }
  }

  lemma {:induction false} TurnPrepends(checks: seq<Check>, exec: Executor, limit: int, p: Progress, rest: seq<Progress>)
    requires Turns(checks, exec, limit, rest) && |p.completed| < |checks| && TurnTo(checks, exec, limit, p, rest[0])
    ensures Turns(checks, exec, limit, [p] + rest)
  {
    hide TurnTo;
    forall k | 0 <= k < |rest|
      ensures TurnsAt(checks, exec, limit, [p] + rest, k)
    {
      if k > 0 {
        assert TurnsAt(checks, exec, limit, rest, k - 1);
      }
    }
  }

  lemma {:induction false} TurnAppends(checks: seq<Check>, exec: Executor, limit: int, run: seq<Progress>, q: Progress)
    requires Turns(checks, exec, limit, run) && |run[|run| - 1].completed| < |checks|
    requires TurnTo(checks, exec, limit, run[|run| - 1], q)
    ensures Turns(checks, exec, limit, run + [q])
  {
    hide TurnTo;
    var more := run + [q];
    forall k | 0 <= k < |more| - 1
      ensures TurnsAt(checks, exec, limit, more, k)
    {
      if k < |run| - 1 {
        assert TurnsAt(checks, exec, limit, run, k);
      }
    }
  }

  // ------------------------------------------------------------ the beginning and the end

  lemma {:induction false} BeginsSound(checks: seq<Check>, exec: Executor, limit: int)
    requires ValidChecks(checks)
    ensures Sound(ByName(checks), exec, limit, Beginning(checks), false)
  {
    hide Doomed, ByName, Verdict, EndpointsKnown, GraphOf, Acyclic;
    WellFormedKnows(checks);
    DepsStayKnown(checks);
    PendingIsSound(ByName(checks), exec, Beginning(checks).states);
  }

  lemma {:induction false} PendingIsSound(checks: map<string, Check>, exec: Executor, states: map<string, Status>)
    requires states.Keys == checks.Keys && forall n :: n in states ==> states[n] == Pending
    ensures forall n :: n in checks ==> NodeSound(checks, exec, Progress(states, map[], {}, []), false, n)
    ensures AsExpected(checks, exec, Progress(states, map[], {}, []))
  {
  }

  lemma {:induction false} TurnsStaySound(checks: seq<Check>, exec: Executor, limit: int, run: seq<Progress>, k: nat)
    requires ValidChecks(checks) && limit >= 1 && Turns(checks, exec, limit, run) && k < |run|
    requires Sound(ByName(checks), exec, limit, run[0], false)
    ensures Sound(ByName(checks), exec, limit, run[k], false)
  {
    hide Sound, TurnTo, ValidChecks, Weight, ByName;
    if k > 0 {
      TurnsStaySound(checks, exec, limit, run, k - 1);
      assert TurnsAt(checks, exec, limit, run, k - 1);
      TurnKeeps(checks, exec, limit, run[k - 1], run[k]);
    }
  }

  lemma {:induction false} ScheduleEndsSound(checks: seq<Check>, exec: Executor, limit: int, run: seq<Progress>)
    requires ValidChecks(checks) && limit >= 1 && Schedule(checks, exec, limit, run)
    ensures Sound(ByName(checks), exec, limit, run[|run| - 1], false)
  {
    hide Sound, TurnsAt, ValidChecks, ByName;
    BeginsSound(checks, exec, limit);
    TurnsStaySound(checks, exec, limit, run, |run| - 1);
  }
}
