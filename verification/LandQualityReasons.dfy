/** Which prerequisite the reason of a blocked check names: it depends on the order in which the
    checks happen to finish, and on when it does not. */
module LandQualityReasons {
  import opened Basics
  import opened Graphs
  import opened LandQuality
  import opened LandQualityRun
  import opened LandQualityProgress
  import opened LandQualitySchedule

  // The direct prerequisites that end in FAIL, TIMEOUT or BLOCKED.
  ghost function FailingDeps(checks: map<string, Check>, exec: Executor, n: string): set<string>
    requires n in checks
  {
    set d | d in checks[n].deps && d in checks && Failing(Expected(checks, exec, d))
  }

  // The result a check may end with when this prerequisite is the one named.
  ghost function Naming(checks: map<string, Check>, exec: Executor, n: string, d: string): Outcome
    requires d in checks
  {
    BlockedBy(n, d, Expected(checks, exec, d))
  }

  // The result of a check once a schedule has run to its end.
  ghost predicate EndsWith(checks: seq<Check>, exec: Executor, limit: int, run: seq<Progress>, n: string, o: Outcome) {
    && Schedule(checks, exec, limit, run)
    && n in run[|run| - 1].completed && run[|run| - 1].completed[n] == o
  }

  /** Every schedule gives a check without failing prerequisites its own verdict, and blocks any
      other one naming a failing prerequisite and the status the graph gives that one. */
  lemma {:induction false} ReasonIsAFailingDep(
    checks: seq<Check>, exec: Executor, limit: int, run: seq<Progress>, n: string)
    requires ValidChecks(checks) && limit >= 1 && Schedule(checks, exec, limit, run) && n in ByName(checks)
    ensures n in run[|run| - 1].completed
    ensures var o, deps := run[|run| - 1].completed[n], FailingDeps(ByName(checks), exec, n);
            if deps == {} then o == Finished(n, Verdict(ByName(checks), exec, n))
            else o.BlockedBy? && o.dep in deps && o == Naming(ByName(checks), exec, n, o.dep)
  {
    hide TurnsAt, ValidChecks, ByName, Sound, FailingDeps, Expected, Verdict;
    ScheduleEndsSound(checks, exec, limit, run);
    EndedByReason(ByName(checks), exec, limit, run[|run| - 1], n);
  }

  lemma {:induction false} EndedByReason(checks: map<string, Check>, exec: Executor, limit: int, p: Progress, n: string)
    requires Sound(checks, exec, limit, p, false) && p.completed.Keys == checks.Keys && n in checks
    ensures var o, deps := p.completed[n], FailingDeps(checks, exec, n);
            if deps == {} then o == Finished(n, Verdict(checks, exec, n))
            else o.BlockedBy? && o.dep in deps && o == Naming(checks, exec, n, o.dep)
  {
    hide GoodLog, InFlight, Expected, Verdict;
    assert NodeSound(checks, exec, p, false, n);
    DependenciesHaveStates(checks, n);
    forall d | d in checks[n].deps
      ensures p.states[d] == Expected(checks, exec, d)
      ensures Failing(p.states[d]) <==> d in FailingDeps(checks, exec, n)
    {
      assert d in p.completed;
    }
  }

  // ------------------------------------------------------------ the order decides

  // The failing prerequisites can all start at once and end in any order.
  ghost predicate FailAtOnce(checks: map<string, Check>, exec: Executor, limit: int, n: string)
    requires n in checks
  {
    forall d :: d in FailingDeps(checks, exec, n) ==> ReadyAtOnce(checks, limit, checks[d])
  }

  // It waits for nothing, and the heavy class has room for all it may hold.
  ghost predicate ReadyAtOnce(checks: map<string, Check>, limit: int, c: Check) {
    c.deps == [] && (c.heavy ==> |HeavyOf(checks, checks.Keys)| <= limit)
  }

  lemma {:induction false} RootKeepsItsVerdict(checks: map<string, Check>, exec: Executor, d: string)
    requires d in checks && checks[d].deps == []
    ensures Expected(checks, exec, d) == Verdict(checks, exec, d)
  {
    NotDoomedWhenPrerequisitesPass(checks, exec, d);
  }

  // While nothing has finished, the scan starts what waits for nothing and touches no other.
  ghost predicate FirstScanState(checks: map<string, Check>, p: Progress) {
    && p.states.Keys == checks.Keys && p.completed == map[]
    && (forall m :: m in checks ==> p.states[m] == Pending || (p.states[m] == Running && checks[m].deps == []))
    && (forall m :: m in p.inFlight ==> m in checks && p.states[m] == Running)
  }

  lemma {:induction false} RoomForAll(checks: map<string, Check>, names: set<string>, n: string)
    requires names <= checks.Keys && n in checks && n !in names && checks[n].heavy
    ensures |HeavyOf(checks, names)| < |HeavyOf(checks, checks.Keys)|
  {
    SubsetSize(HeavyOf(checks, names) + {n}, HeavyOf(checks, checks.Keys));
  }

  lemma {:induction false} FirstConsidered(checks: map<string, Check>, limit: int, p: Progress, c: Check)
    requires FirstScanState(checks, p) && c.name in checks && checks[c.name] == c
    ensures var q := Considered(checks, limit, p, c);
            && FirstScanState(checks, q)
            && (ReadyAtOnce(checks, limit, c) ==> q.states[c.name] == Running)
            && (forall m :: m in checks && p.states[m] == Running ==> q.states[m] == Running)
  {
    if p.states[c.name] == Pending && c.heavy {
      RoomForAll(checks, p.inFlight, c.name);
    }
    hide HeavyOf;
    FirstFailingFinds(c.deps, p.states);
    forall d | d in c.deps && d in p.states
      ensures !Failing(p.states[d]) && !Passing(p.states[d])
    {
    }
    if c.deps != [] {
      assert c.deps[0] in c.deps;
    }
  }

  lemma {:induction false} FirstScan(checks: seq<Check>, limit: int, upTo: nat)
    requires UniqueNames(checks) && upTo <= |checks|
    ensures var s := Scanned(checks, limit, Beginning(checks), upTo);
            && FirstScanState(ByName(checks), s)
            && forall j :: 0 <= j < upTo && ReadyAtOnce(ByName(checks), limit, checks[j]) ==>
                             checks[j].name in s.states && s.states[checks[j].name] == Running
  {
    hide ByName, UniqueNames, Considered;
    if upTo > 0 {
      FirstScan(checks, limit, upTo - 1);
      ByNameFindsUnique(checks, upTo - 1);
      forall j | 0 <= j < upTo
        ensures checks[j].name in ByName(checks)
      {
        ByNameFindsUnique(checks, j);
      }
      FirstConsidered(ByName(checks), limit, Scanned(checks, limit, Beginning(checks), upTo - 1), checks[upTo - 1]);
    }
  }

  // One failing prerequisite is in; the others that will fail are still running.
  ghost predicate OnlyFailed(checks: map<string, Check>, exec: Executor, p: Progress, n: string, d: string)
    requires n in checks
  {
    && p.states.Keys == checks.Keys && d in checks && p.states[d] == Verdict(checks, exec, d)
    && forall m :: m in FailingDeps(checks, exec, n) && m != d ==> p.states[m] == Running
  }

  lemma {:induction false} ThenNamed(
    checks: map<string, Check>, exec: Executor, limit: int, p: Progress, n: string, d: string)
    requires Sound(checks, exec, limit, p, false) && n in checks && p.states[n] == Pending
    requires d in FailingDeps(checks, exec, n) && checks[d].deps == [] && OnlyFailed(checks, exec, p, n, d)
    ensures FirstFailing(checks[n].deps, p.states) == Some(d)
  {
    hide GoodLog, InFlight, Verdict, Doomed;
    RootKeepsItsVerdict(checks, exec, d);
    FirstFailingFinds(checks[n].deps, p.states);
    forall m | m in checks[n].deps && m in p.states && Failing(p.states[m])
      ensures m == d
    {
      assert NodeSound(checks, exec, p, false, m);
      assert m in FailingDeps(checks, exec, n);
    }
  }

  lemma {:induction false} OthersStay(checks: map<string, Check>, limit: int, p: Progress, c: Check)
    requires c.name in p.states
    ensures var q := Considered(checks, limit, p, c);
            q.states.Keys == p.states.Keys
            && forall m :: m in p.states && (m != c.name || p.states[m] != Pending) ==> q.states[m] == p.states[m]
  {
    hide FirstFailing, HeavyOf, AllPassing;
  }

  ghost predicate NamedBy(checks: map<string, Check>, exec: Executor, p: Progress, n: string, d: string)
    requires d in checks
  {
    n in p.completed && p.completed[n] == Naming(checks, exec, n, d)
  }

  lemma {:induction false} SecondScan(
    checks: seq<Check>, exec: Executor, limit: int, p: Progress, n: string, d: string, upTo: nat, at: nat)
    requires UniqueNames(checks) && Sound(ByName(checks), exec, limit, p, false) && upTo <= |checks|
    requires n in ByName(checks) && at < |checks| && checks[at].name == n && p.states[n] == Pending
    requires d in FailingDeps(ByName(checks), exec, n) && ByName(checks)[d].deps == []
    requires OnlyFailed(ByName(checks), exec, p, n, d)
    ensures var s := Scanned(checks, limit, p, upTo);
            && OnlyFailed(ByName(checks), exec, s, n, d)
            && (if upTo <= at then s.states[n] == Pending else NamedBy(ByName(checks), exec, s, n, d))
  {
    hide Sound, ByName, UniqueNames, Considered, Verdict, Expected, FailingDeps;
    if upTo > 0 {
      SecondScan(checks, exec, limit, p, n, d, upTo - 1, at);
      ScannedKeeps(checks, exec, limit, p, upTo - 1);
      ByNameFindsUnique(checks, upTo - 1);
      SecondConsidered(checks, exec, limit, Scanned(checks, limit, p, upTo - 1), n, d, upTo - 1, at);
    }
  }

  lemma {:induction false} SecondConsidered(
    checks: seq<Check>, exec: Executor, limit: int, p: Progress, n: string, d: string, i: nat, at: nat)
    requires UniqueNames(checks) && Sound(ByName(checks), exec, limit, p, false) && i < |checks| && at < |checks|
    requires n in ByName(checks) && checks[at].name == n && checks[i].name in ByName(checks)
    requires d in FailingDeps(ByName(checks), exec, n) && ByName(checks)[d].deps == []
    requires OnlyFailed(ByName(checks), exec, p, n, d)
    requires if i <= at then p.states[n] == Pending else NamedBy(ByName(checks), exec, p, n, d)
    ensures var q := Considered(ByName(checks), limit, p, checks[i]);
            && OnlyFailed(ByName(checks), exec, q, n, d)
            && (if i < at then q.states[n] == Pending else NamedBy(ByName(checks), exec, q, n, d))
  {
    hide ByName, Acyclic, Verdict, Doomed, HeavyOf, GoodLog, InFlight, NodeSound, AsExpected;
    OthersStay(ByName(checks), limit, p, checks[i]);
    OnlyFailedStays(ByName(checks), exec, limit, p, n, d, checks[i]);
    ConsideredExtends(ByName(checks), exec, limit, p, checks[i]);
    if i == at {
      ByNameFindsUnique(checks, i);
      ThenNamed(ByName(checks), exec, limit, p, n, d);
      RootKeepsItsVerdict(ByName(checks), exec, d);
    } else if i < at {
      assert checks[i].name != n;
    }
  }

  lemma {:induction false} OnlyFailedStays(
    checks: map<string, Check>, exec: Executor, limit: int, p: Progress, n: string, d: string, c: Check)
    requires n in checks && OnlyFailed(checks, exec, p, n, d) && c.name in checks
    ensures OnlyFailed(checks, exec, Considered(checks, limit, p, c), n, d)
  {
    hide Considered, Expected, Verdict;
    VerdictIsFinal(checks, exec, d);
    OthersStay(checks, limit, p, c);
  }

  lemma {:induction false} NamesHaveIndex(checks: seq<Check>, n: string) returns (i: nat)
    requires n in ByName(checks)
    ensures i < |checks| && checks[i].name == n && ByName(checks)[n] == checks[i]
  {
    ByNameIsNames(checks);
    i :| 0 <= i < |checks| && checks[i].name == n && ByName(checks)[n] == checks[i];
  }

  // The first turn, when this prerequisite happens to finish first.
  lemma {:induction false} FirstTurn(checks: seq<Check>, exec: Executor, limit: int, n: string, d: string)
    returns (p: Progress)
    requires ValidChecks(checks) && limit >= 1 && n in ByName(checks)
    requires FailAtOnce(ByName(checks), exec, limit, n) && d in FailingDeps(ByName(checks), exec, n)
    ensures Sound(ByName(checks), exec, limit, p, false) && TurnTo(checks, exec, limit, Beginning(checks), p)
    ensures p.states[n] == Pending && n !in p.completed && OnlyFailed(ByName(checks), exec, p, n, d)
  {
    hide Sound, ByName, Verdict, Expected, Acyclic, WellFormed, Scanned, FailingDeps;
    UniqueWhenValid(checks);
    BeginsSound(checks, exec, limit);
    ScannedKeeps(checks, exec, limit, Beginning(checks), |checks|);
    FirstScan(checks, limit, |checks|);
    var s := Scanned(checks, limit, Beginning(checks), |checks|);
    forall m | m in FailingDeps(ByName(checks), exec, n)
      ensures m in ByName(checks) && s.states[m] == Running
    {
      FailingDepIsKnown(ByName(checks), exec, n, m);
      var i := NamesHaveIndex(checks, m);
    }
    HasFailingDep(ByName(checks), exec, limit, n, d);
    assert s.states[n] == Pending;
    RunningIsInFlight(ByName(checks), exec, limit, s, d);
    ReceiveKeepsSound(ByName(checks), exec, limit, s, false, d);
    p := Receive(s, d, Verdict(ByName(checks), exec, d));
    assert ReceivesAny(ByName(checks), exec, s, p);
  }

  lemma {:induction false} FailingDepIsKnown(checks: map<string, Check>, exec: Executor, n: string, m: string)
    requires n in checks && m in FailingDeps(checks, exec, n)
    ensures m in checks
  {
  }

  lemma {:induction false} HasFailingDep(checks: map<string, Check>, exec: Executor, limit: int, n: string, d: string)
    requires n in checks && d in FailingDeps(checks, exec, n)
    ensures checks[n].deps != []
    ensures FailAtOnce(checks, exec, limit, n) ==> n != d
  {
    hide Expected;
  }

  lemma {:induction false} RunningIsInFlight(checks: map<string, Check>, exec: Executor, limit: int, p: Progress, n: string)
    requires Sound(checks, exec, limit, p, false) && n in checks && p.states[n] == Running
    ensures n in p.inFlight
  {
    assert NodeSound(checks, exec, p, false, n);
  }

  // Any failing prerequisite can be the one named.
  lemma {:induction false} AnyCanBeNamed(checks: seq<Check>, exec: Executor, limit: int, n: string, d: string)
    returns (run: seq<Progress>)
    requires ValidChecks(checks) && limit >= 1 && n in ByName(checks)
    requires FailAtOnce(ByName(checks), exec, limit, n) && d in FailingDeps(ByName(checks), exec, n)
    ensures d in ByName(checks) && EndsWith(checks, exec, limit, run, n, Naming(ByName(checks), exec, n, d))
  {
    hide Sound, ByName, Verdict, Expected, Acyclic, WellFormed, Scanned, FailingDeps, OnlyFailed, TurnTo;
    UniqueWhenValid(checks);
    FailingDepIsKnown(ByName(checks), exec, n, d);
    var p := FirstTurn(checks, exec, limit, n, d);
    var at := NamesHaveIndex(checks, n);
    SecondScan(checks, exec, limit, p, n, d, |checks|, at);
    var q := SomeTurn(checks, exec, limit, p);
    NotYetDone(checks, exec, limit, p, n);
    TurnKeeps(checks, exec, limit, p, q);
    TurnExtends(checks, exec, limit, p, q);
    assert NamedBy(ByName(checks), exec, Scanned(checks, limit, p, |checks|), n, d);
    var rest := CanFinish(checks, exec, limit, q);
    TurnPrepends(checks, exec, limit, p, rest);
    BeginsUnfinished(checks, n);
    TurnPrepends(checks, exec, limit, Beginning(checks), [p] + rest);
    run := [Beginning(checks)] + ([p] + rest);
  }

  lemma {:induction false} NotYetDone(checks: seq<Check>, exec: Executor, limit: int, p: Progress, n: string)
    requires UniqueNames(checks) && Sound(ByName(checks), exec, limit, p, false)
    requires n in ByName(checks) && n !in p.completed
    ensures |p.completed| < |checks|
  {
    hide NodeSound, AsExpected, GoodLog, InFlight;
    AsManyNamesAsChecks(checks);
    AllDoneWhenAsMany(p.completed, ByName(checks));
  }

  lemma {:induction false} BeginsUnfinished(checks: seq<Check>, n: string)
    requires n in ByName(checks)
    ensures |Beginning(checks).completed| < |checks|
  {
    var i := NamesHaveIndex(checks, n);
  }

  /** When the failing prerequisites of a check can all start at once, the reasons its blocking
      may give are exactly those prerequisites, each under some completion order. */
  lemma {:induction false} ReasonsAreTheFailingDeps(checks: seq<Check>, exec: Executor, limit: int, n: string, d: string)
    requires ValidChecks(checks) && limit >= 1 && n in ByName(checks) && FailAtOnce(ByName(checks), exec, limit, n)
    ensures d in FailingDeps(ByName(checks), exec, n) <==>
            d in ByName(checks) && exists run :: EndsWith(checks, exec, limit, run, n, Naming(ByName(checks), exec, n, d))
  {
    hide ValidChecks, ByName, FailAtOnce, FailingDeps, Expected, Schedule, Verdict;
    if d in FailingDeps(ByName(checks), exec, n) {
      var run := AnyCanBeNamed(checks, exec, limit, n, d);
    } else if d in ByName(checks) {
      forall run | EndsWith(checks, exec, limit, run, n, Naming(ByName(checks), exec, n, d))
        ensures false
      {
        ReasonIsAFailingDep(checks, exec, limit, run, n);
      }
    }
  }

  // Every completion order gives the check the same result.
  ghost predicate SameReason(checks: seq<Check>, exec: Executor, limit: int, n: string) {
    forall run, more, o, p ::
      EndsWith(checks, exec, limit, run, n, o) && EndsWith(checks, exec, limit, more, n, p) ==> o == p
  }

  /** With at most one failing prerequisite the result of a check, reason included, is the same
      under every completion order, whatever else is in the list. */
  lemma {:induction false} OneFailingDepFixesTheReason(checks: seq<Check>, exec: Executor, limit: int, n: string)
    requires ValidChecks(checks) && limit >= 1 && n in ByName(checks)
    requires |FailingDeps(ByName(checks), exec, n)| <= 1
    ensures SameReason(checks, exec, limit, n)
  {
    hide ValidChecks, ByName, FailingDeps, Expected, Schedule, Verdict;
    forall run, more, o, p | EndsWith(checks, exec, limit, run, n, o) && EndsWith(checks, exec, limit, more, n, p)
      ensures o == p
    {
      ReasonIsAFailingDep(checks, exec, limit, run, n);
      ReasonIsAFailingDep(checks, exec, limit, more, n);
      if o.BlockedBy? && p.BlockedBy? {
        AtMostOne(FailingDeps(ByName(checks), exec, n), o.dep, p.dep);
      }
    }
  }

  /** So a list in which nobody waits for two different checks has only fixed reasons. */
  lemma {:induction false} OneDependencyFixesTheReason(checks: seq<Check>, exec: Executor, limit: int, n: string)
    requires ValidChecks(checks) && limit >= 1 && n in ByName(checks)
    requires forall d, e :: d in ByName(checks)[n].deps && e in ByName(checks)[n].deps ==> d == e
    ensures SameReason(checks, exec, limit, n)
  {
    hide ValidChecks, ByName, SameReason, Expected;
    var deps := FailingDeps(ByName(checks), exec, n);
    if deps != {} {
      var d :| d in deps;
      SubsetSize(deps, {d});
    }
    OneFailingDepFixesTheReason(checks, exec, limit, n);
  }

  /** The whole report of such a list is the same under every completion order. */
  lemma {:induction false} OneReport(
    checks: seq<Check>, exec: Executor, limit: int, results: seq<Outcome>, others: seq<Outcome>)
    requires ValidChecks(checks) && limit >= 1
    requires forall i, d, e :: 0 <= i < |checks| && d in checks[i].deps && e in checks[i].deps ==> d == e
    requires Scheduled(checks, exec, limit, results) && Scheduled(checks, exec, limit, others)
    ensures results == others
  {
    hide ByName, TurnsAt, Beginning, Expected, Verdict, ValidChecks, FailingDeps;
    UniqueWhenValid(checks);
    var run :| Schedule(checks, exec, limit, run) && Reported(checks, run[|run| - 1], results);
    var more :| Schedule(checks, exec, limit, more) && Reported(checks, more[|more| - 1], others);
    forall i | 0 <= i < |checks|
      ensures results[i] == others[i]
    {
      var n := checks[i].name;
      ByNameFindsUnique(checks, i);
      OneDependencyFixesTheReason(checks, exec, limit, n);
      ReasonIsAFailingDep(checks, exec, limit, run, n);
      ReasonIsAFailingDep(checks, exec, limit, more, n);
      assert EndsWith(checks, exec, limit, run, n, results[i]) && EndsWith(checks, exec, limit, more, n, others[i]);
    }
  }

  lemma {:induction false} AtMostOne<T>(s: set<T>, a: T, b: T)
    requires a in s && b in s && |s| <= 1
    ensures a == b
  {
    SubsetSize({a, b}, s);
  }

  /** Among checks whose failing prerequisites can all start at once, that is the exact
      condition: two failing prerequisites already make the reason depend on the order. */
  lemma {:induction false} SameReasonIff(checks: seq<Check>, exec: Executor, limit: int, n: string)
    requires ValidChecks(checks) && limit >= 1 && n in ByName(checks) && FailAtOnce(ByName(checks), exec, limit, n)
    ensures SameReason(checks, exec, limit, n) <==> |FailingDeps(ByName(checks), exec, n)| <= 1
  {
    hide ValidChecks, ByName, FailingDeps, FailAtOnce, Expected, EndsWith;
    var deps := FailingDeps(ByName(checks), exec, n);
    if |deps| <= 1 {
      OneFailingDepFixesTheReason(checks, exec, limit, n);
    } else {
      var d :| d in deps;
      var e := Another(deps, d);
      var run := AnyCanBeNamed(checks, exec, limit, n, d);
      var more := AnyCanBeNamed(checks, exec, limit, n, e);
      assert Naming(ByName(checks), exec, n, d) != Naming(ByName(checks), exec, n, e);
    }
  }

  lemma {:induction false} Another<T>(s: set<T>, a: T) returns (b: T)
    requires a in s && |s| > 1
    ensures b in s && b != a
  {
    assert s - {a} != {} by {
      if s - {a} == {} {
        SubsetSize(s, {a});
      }
    }
    b :| b in s - {a};
  }

  // ------------------------------------------------------------ an example

  function AlwaysFails(n: string): Execution {
    Execution(0, Live, true)
  }

  // Two light checks and one that waits for both.
  function TwoBelowOne(): seq<Check> {
    [Check("a", ["run"], false, [], 10, 20), Check("b", ["run"], false, [], 10, 20),
     Check("c", ["run"], false, ["a", "b"], 10, 20)]
  }

  lemma {:induction false} TwoBelowOneNames()
    ensures var m := ByName(TwoBelowOne());
            && m == map["a" := TwoBelowOne()[0], "b" := TwoBelowOne()[1], "c" := TwoBelowOne()[2]]
            && "a" != "b" && "b" != "c" && "a" != "c"
  {
    var checks := TwoBelowOne();
    assert "a"[0] != "b"[0] && "b"[0] != "c"[0] && "a"[0] != "c"[0];
    assert checks[..2][..1][..0] == [];
    assert ByName(checks[..2][..1]) == map["a" := checks[0]] by {
      assert checks[..2][..1][0] == checks[0];
    }
    assert ByName(checks[..2]) == map["a" := checks[0], "b" := checks[1]];
  }

  lemma {:induction false} TwoBelowOneIsValid()
    ensures ValidChecks(TwoBelowOne())
  {
    TwoBelowOneNames();
    hide ByName;
    var g := DepsOf(TwoBelowOne());
    var rank: map<string, nat> := map["a" := 0, "b" := 0, "c" := 1];
    RankedGraphIsAcyclic(g, rank);
  }

  lemma {:induction false} TwoBelowOneFails(limit: int)
    ensures var m := ByName(TwoBelowOne());
            "c" in m && FailAtOnce(m, AlwaysFails, limit, "c") && FailingDeps(m, AlwaysFails, "c") == {"a", "b"} && "a" != "b"
  {
    TwoBelowOneNames();
    hide ByName;
    var m := ByName(TwoBelowOne());
    RootKeepsItsVerdict(m, AlwaysFails, "a");
    RootKeepsItsVerdict(m, AlwaysFails, "b");
  }

  /** One list, one executor, two completion orders: the same check is blocked both times, and the
      two reasons name different prerequisites. */
  lemma {:induction false} TheReasonCanDiffer(limit: int) returns (run: seq<Progress>, more: seq<Progress>)
    requires limit >= 1
    ensures ValidChecks(TwoBelowOne())
    ensures Schedule(TwoBelowOne(), AlwaysFails, limit, run) && Schedule(TwoBelowOne(), AlwaysFails, limit, more)
    ensures "c" in run[|run| - 1].completed && "c" in more[|more| - 1].completed
    ensures var o, p := run[|run| - 1].completed["c"], more[|more| - 1].completed["c"];
            o.BlockedBy? && p.BlockedBy? && o.dep == "a" && p.dep == "b" && o != p
  {
    TwoBelowOneIsValid();
    TwoBelowOneFails(limit);
    hide ByName, ValidChecks, FailAtOnce, FailingDeps, Expected, Schedule, TwoBelowOne, AlwaysFails;
    run := AnyCanBeNamed(TwoBelowOne(), AlwaysFails, limit, "c", "a");
    more := AnyCanBeNamed(TwoBelowOne(), AlwaysFails, limit, "c", "b");
  }
}
