/** runner.run step by step: what the scheduling loop keeps. */
module LandQualityProgress {
  import opened Graphs
  import opened LandQuality
  import opened LandQualityRun

  // A snapshot of the loop's variables. `inFlight` stands for the goroutines whose
  // outcome is still to be received.
  datatype Progress = Progress(
    states: map<string, Status>,
    completed: map<string, Outcome>,
    inFlight: set<string>,
    log: seq<LogLine>)

  ghost predicate PrerequisitesPassed(checks: map<string, Check>, p: Progress, n: string)
    requires n in checks
  {
    forall d :: d in checks[n].deps ==> d in p.states && Passing(p.states[d])
  }

  ghost predicate NodeSound(checks: map<string, Check>, exec: Executor, p: Progress, interrupted: bool, n: string)
    requires n in checks && n in p.states
  {
    match p.states[n]
    case Pending =>
      n !in p.completed && n !in p.inFlight && Started(n) !in p.log
    case Running =>
      n !in p.completed && n in p.inFlight && PrerequisitesPassed(checks, p, n)
    case Blocked =>
      && n in p.completed && n !in p.inFlight
      && match p.completed[n] {
           case BlockedBy(m, d, ds) =>
             m == n && d in checks[n].deps && d in p.states && p.states[d] == ds && Failing(ds)
           case BlockedByContext(m) => m == n && interrupted
           case _ => false
         }
    case s =>
      && n in p.completed && n !in p.inFlight
      && p.completed[n] == Finished(n, s)
      && s == Verdict(checks, exec, n)
      && Done(n, s) in p.log
      && PrerequisitesPassed(checks, p, n)
  }

  ghost predicate AsExpected(checks: map<string, Check>, exec: Executor, p: Progress)
    requires p.completed.Keys <= checks.Keys && p.states.Keys == checks.Keys
  {
    forall n :: n in p.completed ==> p.states[n] == Expected(checks, exec, n)
  }

  // What every step of the loop keeps.
  ghost predicate Sound(checks: map<string, Check>, exec: Executor, limit: int, p: Progress, interrupted: bool) {
    && EndpointsKnown(GraphOf(checks))
    && p.states.Keys == checks.Keys
    && p.completed.Keys <= checks.Keys
    && p.inFlight <= checks.Keys
    && p.inFlight == InFlight(p.log)
    && GoodLog(checks, exec, limit, p.log)
    && (forall n :: n in checks ==> NodeSound(checks, exec, p, interrupted, n))
    && (!interrupted ==> AsExpected(checks, exec, p))
  }

  // Every step moves a check from pending to running or out of play.
  ghost function PendingNames(states: map<string, Status>): set<string> {
    set n | n in states && states[n] == Pending
  }

  ghost function Weight(p: Progress): nat {
    2 * |PendingNames(p.states)| + |p.inFlight|
  }

  function Block(p: Progress, n: string, o: Outcome): Progress {
    p.(states := p.states[n := Blocked], completed := p.completed[n := o])
  }

  function Launch(p: Progress, n: string): Progress {
    p.(states := p.states[n := Running], inFlight := p.inFlight + {n}, log := p.log + [Started(n)])
  }

  function Receive(p: Progress, n: string, s: Status): Progress {
    p.(states := p.states[n := s], completed := p.completed[n := Finished(n, s)],
       inFlight := p.inFlight - {n}, log := p.log + [Done(n, s)])
  }

  lemma {:induction false} PendingShrinks(states: map<string, Status>, n: string, s: Status)
    requires n in states && states[n] == Pending && s != Pending
    ensures |PendingNames(states[n := s])| + 1 == |PendingNames(states)|
  {
    assert PendingNames(states) == PendingNames(states[n := s]) + {n};
  }

  lemma {:induction false} HeavyChanges(checks: map<string, Check>, names: set<string>, n: string)
    requires n in checks
    ensures n !in names ==>
              |HeavyOf(checks, names + {n})| == |HeavyOf(checks, names)| + (if checks[n].heavy then 1 else 0)
    ensures n in names ==>
              |HeavyOf(checks, names - {n})| == |HeavyOf(checks, names)| - (if checks[n].heavy then 1 else 0)
  {
    assert HeavyOf(checks, names + {n}) ==
           if checks[n].heavy then HeavyOf(checks, names) + {n} else HeavyOf(checks, names);
    assert HeavyOf(checks, names - {n}) ==
           if checks[n].heavy then HeavyOf(checks, names) - {n} else HeavyOf(checks, names);
  }

  lemma {:induction false} BlockKeepsSound(
    checks: map<string, Check>, exec: Executor, limit: int, p: Progress, interrupted: bool, n: string, d: string)
    requires Sound(checks, exec, limit, p, interrupted)
    requires n in p.states && p.states[n] == Pending
    requires d in checks[n].deps && d in p.states && Failing(p.states[d])
    ensures Sound(checks, exec, limit, Block(p, n, BlockedBy(n, d, p.states[d])), interrupted)
    ensures Weight(Block(p, n, BlockedBy(n, d, p.states[d]))) < Weight(p)
  {
    hide Doomed, GoodLog, InFlight, PendingNames, NodeSound, AsExpected, EndpointsKnown;
    PendingShrinks(p.states, n, Blocked);
    BlockNodes(checks, exec, p, interrupted, n, BlockedBy(n, d, p.states[d]));
    if !interrupted {
      BlockAsExpected(checks, exec, p, n, d);
    }
  }

  lemma {:induction false} BlockAsExpected(checks: map<string, Check>, exec: Executor, p: Progress, n: string, d: string)
    requires p.states.Keys == checks.Keys && p.completed.Keys <= checks.Keys
    requires forall m :: m in checks ==> NodeSound(checks, exec, p, false, m)
    requires AsExpected(checks, exec, p)
    requires n in checks && p.states[n] == Pending
    requires d in checks[n].deps && d in p.states && Failing(p.states[d])
    ensures AsExpected(checks, exec, Block(p, n, BlockedBy(n, d, p.states[d])))
  {
    assert NodeSound(checks, exec, p, false, d);
    DoomedByPrerequisite(checks, exec, n, d);
  }

  lemma {:induction false} BlockNodes(
    checks: map<string, Check>, exec: Executor, p: Progress, interrupted: bool, n: string, o: Outcome)
    requires p.states.Keys == checks.Keys
    requires forall m :: m in checks ==> NodeSound(checks, exec, p, interrupted, m)
    requires n in p.states && p.states[n] == Pending
    requires o == BlockedByContext(n) ||
             (o.BlockedBy? && o.name == n && o.dep in checks[n].deps && o.dep in p.states
              && p.states[o.dep] == o.depStatus && Failing(o.depStatus))
    ensures forall m :: m in checks ==>
              NodeSound(checks, exec, Block(p, n, o), interrupted || o.BlockedByContext?, m)
  {
    forall m | m in checks
      ensures NodeSound(checks, exec, Block(p, n, o), interrupted || o.BlockedByContext?, m)
    {
      assert NodeSound(checks, exec, p, interrupted, m);
    }
  }

  lemma {:induction false} InterruptKeepsSound(
    checks: map<string, Check>, exec: Executor, limit: int, p: Progress, interrupted: bool, n: string)
    requires Sound(checks, exec, limit, p, interrupted)
    requires n in p.states && p.states[n] == Pending
    ensures Sound(checks, exec, limit, Block(p, n, BlockedByContext(n)), true)
    ensures Weight(Block(p, n, BlockedByContext(n))) < Weight(p)
  {
    hide Doomed, GoodLog, InFlight, PendingNames, NodeSound, AsExpected, EndpointsKnown;
    PendingShrinks(p.states, n, Blocked);
    BlockNodes(checks, exec, p, interrupted, n, BlockedByContext(n));
  }

  lemma {:induction false} LaunchKeepsSound(
    checks: map<string, Check>, exec: Executor, limit: int, p: Progress, interrupted: bool, n: string)
    requires Sound(checks, exec, limit, p, interrupted)
    requires n in p.states && p.states[n] == Pending
    requires PrerequisitesPassed(checks, p, n)
    requires checks[n].heavy ==> |HeavyOf(checks, p.inFlight)| < limit
    ensures Sound(checks, exec, limit, Launch(p, n), interrupted)
    ensures Weight(Launch(p, n)) < Weight(p)
    ensures |HeavyOf(checks, Launch(p, n).inFlight)| == |HeavyOf(checks, p.inFlight)| + (if checks[n].heavy then 1 else 0)
  {
    hide Doomed, Verdict, NodeSound, PendingNames, AsExpected, EndpointsKnown, HeavyOf;
    var q := Launch(p, n);
    LaunchNodes(checks, exec, limit, p, interrupted, n);
    PendingShrinks(p.states, n, Running);
    HeavyChanges(checks, p.inFlight, n);
    assert q.log[..|q.log| - 1] == p.log;
    if !interrupted {
      assert AsExpected(checks, exec, q) by { LaunchAsExpected(checks, exec, p, n); }
    }
  }

  lemma {:induction false} LaunchAsExpected(checks: map<string, Check>, exec: Executor, p: Progress, n: string)
    requires p.states.Keys == checks.Keys && p.completed.Keys <= checks.Keys
    requires AsExpected(checks, exec, p) && n in checks && n !in p.completed
    ensures AsExpected(checks, exec, Launch(p, n))
  {
  }

  lemma {:induction false} LaunchNodes(
    checks: map<string, Check>, exec: Executor, limit: int, p: Progress, interrupted: bool, n: string)
    requires p.states.Keys == checks.Keys
    requires forall m :: m in checks ==> NodeSound(checks, exec, p, interrupted, m)
    requires n in p.states && p.states[n] == Pending && PrerequisitesPassed(checks, p, n)
    ensures forall m :: m in checks ==> NodeSound(checks, exec, Launch(p, n), interrupted, m)
    ensures n !in p.inFlight && n !in p.completed && Started(n) !in p.log
    ensures forall d :: d in checks[n].deps ==> DonePassing(p.log, d)
  {
    var q := Launch(p, n);
    assert NodeSound(checks, exec, p, interrupted, n);
    forall d | d in checks[n].deps
      ensures DonePassing(p.log, d)
    {
      assert NodeSound(checks, exec, p, interrupted, d);
    }
    forall m | m in checks
      ensures NodeSound(checks, exec, q, interrupted, m)
    {
      assert NodeSound(checks, exec, p, interrupted, m);
    }
  }

  lemma {:induction false} ReceiveKeepsSound(
    checks: map<string, Check>, exec: Executor, limit: int, p: Progress, interrupted: bool, n: string)
    requires Sound(checks, exec, limit, p, interrupted)
    requires n in p.inFlight
    ensures n in checks
    ensures Sound(checks, exec, limit, Receive(p, n, Verdict(checks, exec, n)), interrupted)
    ensures Weight(Receive(p, n, Verdict(checks, exec, n))) < Weight(p)
    ensures |HeavyOf(checks, p.inFlight - {n})| == |HeavyOf(checks, p.inFlight)| - (if checks[n].heavy then 1 else 0)
  {
    hide Doomed, Verdict, NodeSound, PendingNames, AsExpected, EndpointsKnown, HeavyOf, GoodLog, InFlight;
    InFlightIsRunning(checks, exec, p, interrupted, n);
    ReceiveLog(checks, exec, limit, p.log, n);
    ReceiveNodes(checks, exec, p, interrupted, n);
    ReceiveKeepsPending(p.states, n, Verdict(checks, exec, n)) by { VerdictIsFinal(checks, exec, n); }
    HeavyChanges(checks, p.inFlight, n);
    if !interrupted {
      ReceiveAsExpected(checks, exec, p, n);
    }
  }

  lemma {:induction false} ReceiveLog(checks: map<string, Check>, exec: Executor, limit: int, log: seq<LogLine>, n: string)
    requires GoodLog(checks, exec, limit, log) && n in InFlight(log) && n in checks
    ensures GoodLog(checks, exec, limit, log + [Done(n, Verdict(checks, exec, n))])
    ensures InFlight(log + [Done(n, Verdict(checks, exec, n))]) == InFlight(log) - {n}
  {
    var longer := log + [Done(n, Verdict(checks, exec, n))];
    assert longer[..|longer| - 1] == log;
  }

  lemma {:induction false} InFlightIsRunning(checks: map<string, Check>, exec: Executor, p: Progress, interrupted: bool, n: string)
    requires p.states.Keys == checks.Keys && n in checks && n in p.inFlight
    requires NodeSound(checks, exec, p, interrupted, n)
    ensures p.states[n] == Running
  {
  }

  lemma {:induction false} VerdictIsFinal(checks: map<string, Check>, exec: Executor, n: string)
    requires n in checks
    ensures Verdict(checks, exec, n) in {Pass, Warn, Fail, Timeout}
  {
  }

  lemma {:induction false} ReceiveKeepsPending(states: map<string, Status>, n: string, s: Status)
    requires n in states && states[n] == Running && s != Pending
    ensures PendingNames(states[n := s]) == PendingNames(states)
  {
  }

  lemma {:induction false} ReceiveNodes(checks: map<string, Check>, exec: Executor, p: Progress, interrupted: bool, n: string)
    requires p.states.Keys == checks.Keys && n in checks && p.states[n] == Running
    requires forall m :: m in checks ==> NodeSound(checks, exec, p, interrupted, m)
    ensures forall m :: m in checks ==>
              NodeSound(checks, exec, Receive(p, n, Verdict(checks, exec, n)), interrupted, m)
  {
    var s := Verdict(checks, exec, n);
    var q := Receive(p, n, s);
    assert NodeSound(checks, exec, p, interrupted, n);
    forall m | m in checks
      ensures NodeSound(checks, exec, q, interrupted, m)
    {
      assert NodeSound(checks, exec, p, interrupted, m);
    }
  }

  lemma {:induction false} ReceiveAsExpected(checks: map<string, Check>, exec: Executor, p: Progress, n: string)
    requires p.states.Keys == checks.Keys && p.completed.Keys <= checks.Keys
    requires n in checks && p.states[n] == Running
    requires forall m :: m in checks ==> NodeSound(checks, exec, p, false, m)
    requires AsExpected(checks, exec, p)
    ensures AsExpected(checks, exec, Receive(p, n, Verdict(checks, exec, n)))
  {
    assert NodeSound(checks, exec, p, false, n);
    forall d | d in checks[n].deps
      ensures d in checks && Passing(Expected(checks, exec, d))
    {
      assert NodeSound(checks, exec, p, false, d);
    }
    NotDoomedWhenPrerequisitesPass(checks, exec, n);
  }

  // A pending check the scan could not move: nothing failed below it, and either some
  // prerequisite has not finished or the heavy class is full.
  ghost predicate Stalled(checks: map<string, Check>, limit: int, p: Progress, n: string)
    requires n in checks
  {
    && (forall d :: d in checks[n].deps ==> d in p.states && !Failing(p.states[d]))
    && (!PrerequisitesPassed(checks, p, n) || (checks[n].heavy && |HeavyOf(checks, p.inFlight)| >= limit))
  }

  // With nothing running and nothing movable, the pending checks would wait for each other.
  lemma {:induction false} AlwaysProgress(
    checks: map<string, Check>, exec: Executor, limit: int, p: Progress, interrupted: bool)
    requires Sound(checks, exec, limit, p, interrupted) && Acyclic(GraphOf(checks)) && limit >= 1
    requires p.inFlight == {}
    requires forall n :: n in checks && p.states[n] == Pending ==> Stalled(checks, limit, p, n)
    ensures p.completed.Keys == checks.Keys
  {
    hide GoodLog, Doomed, AsExpected, Acyclic;
    var waiting := set n | n in checks && p.states[n] == Pending;
    forall n | n in checks && n !in waiting
      ensures n in p.completed
    {
      assert NodeSound(checks, exec, p, interrupted, n);
    }
    if waiting != {} {
      assert HeavyOf(checks, p.inFlight) == {};
      forall n | n in waiting
        ensures HasSuccessorIn(GraphOf(checks), waiting, n)
      {
        WaitsForPending(checks, exec, limit, p, interrupted, n);
      }
      var a := StuckSetHasCycle(GraphOf(checks), waiting);
      CycleRefutesAcyclic(GraphOf(checks), a);
      assert false;
    }
  }

  lemma {:induction false} WaitsForPending(
    checks: map<string, Check>, exec: Executor, limit: int, p: Progress, interrupted: bool, n: string)
    requires p.states.Keys == checks.Keys && p.inFlight == {} && limit >= 1
    requires forall m :: m in checks ==> NodeSound(checks, exec, p, interrupted, m)
    requires n in checks && Stalled(checks, limit, p, n)
    requires HeavyOf(checks, p.inFlight) == {}
    ensures HasSuccessorIn(GraphOf(checks), (set m | m in checks && p.states[m] == Pending), n)
  {
    var d :| d in checks[n].deps && !(d in p.states && Passing(p.states[d]));
    assert NodeSound(checks, exec, p, interrupted, d);
    assert p.states[d] == Pending;
    assert Edge(GraphOf(checks), n, d);
  }
}
