/** The land-quality gate: named checks with prerequisites, their validation, and the
    depth-first cycle search (tools/land-quality/main.go). */
module LandQuality {
  import opened Basics
  import opened Graphs

  // Durations are integers counting nanoseconds.
  datatype Check = Check(
    name: string,
    argv: seq<string>,
    heavy: bool,
    deps: seq<string>,
    baseline: int,
    timeout: int)

  datatype Validation =
    | Accepted
    | InvalidCheck(check: Check)
    | BadBudget(name: string)
    | DuplicateCheck(name: string)
    | UnknownDependency(name: string, dep: string)
    | DependencyCycle(name: string)

  // Integer division by ten truncates toward zero.
  function GrowthBudget(baseline: int): int {
    if baseline >= 0 then baseline + baseline / 10 else baseline - (-baseline) / 10
  }

  predicate NamedAndRunnable(c: Check) {
    c.name != "" && |c.argv| > 0
  }

  predicate Budgeted(c: Check) {
    c.baseline > 0 && c.timeout > GrowthBudget(c.baseline)
  }

  predicate UniqueNames(checks: seq<Check>) {
    forall i, j :: 0 <= i < j < |checks| ==> checks[i].name != checks[j].name
  }

  // The last check of a name wins, as in the map the search is built from.
  function ByName(checks: seq<Check>): map<string, Check> {
    if checks == [] then map[]
    else
      var last := checks[|checks| - 1];
      ByName(checks[..|checks| - 1])[last.name := last]
  }

  ghost function GraphOf(byName: map<string, Check>): Graph {
    map n | n in byName :: byName[n].deps
  }

  ghost function DepsOf(checks: seq<Check>): Graph {
    GraphOf(ByName(checks))
  }

  ghost predicate KnownDeps(checks: seq<Check>) {
    forall i, d :: 0 <= i < |checks| && d in checks[i].deps ==> d in ByName(checks)
  }

  ghost predicate WellFormed(checks: seq<Check>) {
    && (forall i :: 0 <= i < |checks| ==> NamedAndRunnable(checks[i]) && Budgeted(checks[i]))
    && UniqueNames(checks)
    && KnownDeps(checks)
  }

  ghost predicate ValidChecks(checks: seq<Check>) {
    WellFormed(checks) && Acyclic(DepsOf(checks))
  }

  lemma {:induction false} ByNameIsNames(checks: seq<Check>)
    ensures forall n :: n in ByName(checks) ==>
              exists i :: 0 <= i < |checks| && checks[i].name == n && ByName(checks)[n] == checks[i]
    ensures forall i :: 0 <= i < |checks| ==> checks[i].name in ByName(checks)
  {
    if checks != [] {
      var init := checks[..|checks| - 1];
      ByNameIsNames(init);
      forall n | n in ByName(checks)
        ensures exists i :: 0 <= i < |checks| && checks[i].name == n && ByName(checks)[n] == checks[i]
      {
        if n == checks[|checks| - 1].name {
          assert ByName(checks)[n] == checks[|checks| - 1];
        } else {
          assert n in ByName(init);
          var i :| 0 <= i < |init| && init[i].name == n && ByName(init)[n] == init[i];
          assert checks[i] == init[i];
        }
      }
      forall i | 0 <= i < |checks|
        ensures checks[i].name in ByName(checks)
      {
        if i < |init| {
          assert init[i] == checks[i];
        }
      }
    }
  }

  lemma {:induction false} ByNameFindsUnique(checks: seq<Check>, i: nat)
    requires UniqueNames(checks) && i < |checks|
    ensures checks[i].name in ByName(checks) && ByName(checks)[checks[i].name] == checks[i]
  {
    ByNameIsNames(checks);
    var j :| 0 <= j < |checks| && checks[j].name == checks[i].name && ByName(checks)[checks[i].name] == checks[j];
  }

  lemma {:induction false} DepsStayKnown(checks: seq<Check>)
    requires KnownDeps(checks)
    ensures EndpointsKnown(DepsOf(checks))
  {
    ByNameIsNames(checks);
  }

  ghost predicate EndpointsKnown(g: Graph) {
    forall a, b :: Edge(g, a, b) ==> b in g
  }

  // Every searched node ranks above all its prerequisites, which are searched too.
  ghost predicate Ranked(g: Graph, rank: map<string, nat>, searched: set<string>) {
    && rank.Keys == searched
    && (forall a :: a in rank ==> rank[a] < |searched|)
    && (forall a, b :: a in rank && Edge(g, a, b) ==> b in rank && rank[b] < rank[a])
  }

  lemma {:induction false} FinishRanked(g: Graph, rank: map<string, nat>, searched: set<string>, name: string)
    requires Ranked(g, rank, searched) && name !in searched && name in g
    requires forall j :: 0 <= j < |g[name]| ==> g[name][j] in searched
    ensures Ranked(g, rank[name := |searched|], searched + {name})
  {
  }

  // What the search maintains: `path` walks the names being visited, and the names
  // already visited are ranked above their prerequisites.
  ghost predicate Searching(
    g: Graph, visiting: set<string>, visited: set<string>, path: seq<string>, rank: map<string, nat>)
  {
    && EndpointsKnown(g)
    && visiting <= g.Keys
    && visiting == (set n | n in path)
    && (path != [] ==> IsWalk(g, path))
    && visiting !! visited
    && Ranked(g, rank, visited)
  }

  ghost predicate MayVisit(g: Graph, path: seq<string>, name: string) {
    name in g && (path == [] || Edge(g, path[|path| - 1], name))
  }

  lemma {:induction false} RevisitIsCycle(
    g: Graph, visiting: set<string>, visited: set<string>, path: seq<string>, rank: map<string, nat>, name: string)
    requires Searching(g, visiting, visited, path, rank) && MayVisit(g, path, name) && name in visiting
    ensures OnCycle(g, name)
  {
    var i :| 0 <= i < |path| && path[i] == name;
    CloseWalk(g, path, i, name);
  }

  lemma {:induction false} EnterSearching(
    g: Graph, visiting: set<string>, visited: set<string>, path: seq<string>, rank: map<string, nat>, name: string)
    requires Searching(g, visiting, visited, path, rank) && MayVisit(g, path, name)
    requires name !in visiting && name !in visited
    ensures Searching(g, visiting + {name}, visited, path + [name], rank)
    ensures name in g && name !in path
    ensures forall j :: 0 <= j < |g[name]| ==> MayVisit(g, path + [name], g[name][j])
    ensures g.Keys - (visiting + {name}) < g.Keys - visiting
  {
    AppendStep(g, path, name);
    assert name in g.Keys - visiting;
    forall j | 0 <= j < |g[name]|
      ensures MayVisit(g, path + [name], g[name][j])
    {
      assert Edge(g, name, g[name][j]);
    }
  }

  lemma {:induction false} LeaveSearching(
    g: Graph, visiting: set<string>, visited: set<string>, path: seq<string>, rank: map<string, nat>, name: string)
    requires Searching(g, visiting, visited, path + [name], rank)
    requires name in g && name !in path
    requires forall j :: 0 <= j < |g[name]| ==> g[name][j] in visited
    ensures Searching(g, visiting - {name}, visited + {name}, path, rank[name := |visited|])
    ensures visiting - {name} == set n | n in path
  {
    assert name in (path + [name]) && forall n :: n in path + [name] <==> n in path || n == name;
    FinishRanked(g, rank, visited, name);
    if path != [] {
      forall i | 0 <= i < |path| - 1
        ensures StepAt(g, path, i)
      {
        assert StepAt(g, path + [name], i);
      }
    }
  }

  /** The recursive search of validateChecks: `visiting` holds the names on the current
      path, `visited` the names whose whole subtree has been searched. */
  class CycleSearch {
    const byName: map<string, Check>
    var visiting: set<string>
    var visited: set<string>
    ghost var path: seq<string>
    ghost var rank: map<string, nat>

    ghost predicate Valid()
      reads this
    {
      Searching(GraphOf(byName), visiting, visited, path, rank)
    }

    constructor (checks: seq<Check>)
      requires KnownDeps(checks)
      ensures Valid() && byName == ByName(checks)
      ensures path == [] && visiting == {} && visited == {}
    {
      DepsStayKnown(checks);
      byName := ByName(checks);
      visiting, visited := {}, {};
      path, rank := [], map[];
    }

    // An error names a node that lies on a real dependency cycle.
    method Visit(name: string) returns (cycle: Option<string>)
      requires Valid() && MayVisit(GraphOf(byName), path, name)
      modifies this
      ensures cycle.Some? ==> OnCycle(GraphOf(byName), cycle.value)
      ensures cycle.None? ==> Valid() && path == old(path) && visiting == old(visiting)
      ensures cycle.None? ==> old(visited) <= visited && name in visited
      decreases byName.Keys - visiting
    {
      hide Searching, MayVisit, OnCycle;
      ghost var g := GraphOf(byName);
      cycle := None;
      if name in visiting {
        RevisitIsCycle(g, visiting, visited, path, rank, name);
        cycle := Some(name);
      } else if name !in visited {
        cycle := Descend(name);
      }
    }

    // The body of the search for a name seen for the first time.
    method Descend(name: string) returns (cycle: Option<string>)
      requires Valid() && MayVisit(GraphOf(byName), path, name)
      requires name !in visiting && name !in visited
      modifies this
      ensures cycle.Some? ==> OnCycle(GraphOf(byName), cycle.value)
      ensures cycle.None? ==> Valid() && path == old(path) && visiting == old(visiting)
      ensures cycle.None? ==> old(visited) <= visited && name in visited
      decreases byName.Keys - visiting, 0
    {
      hide Searching, MayVisit, OnCycle;
      ghost var g := GraphOf(byName);
      EnterSearching(g, visiting, visited, path, rank, name);
      ghost var outer := path;
      visiting, path := visiting + {name}, path + [name];
      var deps := byName[name].deps;
      cycle := None;
      var i := 0;
      while i < |deps| && cycle.None?
        invariant 0 <= i <= |deps|
        invariant cycle.Some? ==> OnCycle(g, cycle.value)
        invariant cycle.None? ==> Valid() && path == outer + [name] && visiting == old(visiting) + {name}
        invariant cycle.None? ==> old(visited) <= visited
        invariant cycle.None? ==> forall j :: 0 <= j < i ==> deps[j] in visited
      {
        cycle := Visit(deps[i]);
        i := i + 1;
      }
      if cycle.None? {
        LeaveSearching(g, visiting, visited, outer, rank, name);
        rank := rank[name := |visited|];
        visiting, path := visiting - {name}, outer;
        visited := visited + {name};
      }
    }
  }

  // The check at i is the first whose own fields or name are refused.
  ghost predicate FirstRefused(checks: seq<Check>, i: int) {
    && 0 <= i < |checks|
    && (forall j :: 0 <= j < i ==> NamedAndRunnable(checks[j]) && Budgeted(checks[j]))
    && UniqueNames(checks[..i])
  }

  // What a refusal asserts about the list it refuses.
  ghost predicate RefusalHolds(checks: seq<Check>, r: Validation) {
    match r
    case Accepted => true
    case InvalidCheck(c) =>
      exists i :: FirstRefused(checks, i) && checks[i] == c && !NamedAndRunnable(c)
    case BadBudget(n) =>
      exists i :: FirstRefused(checks, i) && checks[i].name == n && NamedAndRunnable(checks[i]) && !Budgeted(checks[i])
    case DuplicateCheck(n) =>
      exists i :: FirstRefused(checks, i) && checks[i].name == n && NamedAndRunnable(checks[i]) && Budgeted(checks[i])
                  && exists j :: 0 <= j < i && checks[j].name == n
    case UnknownDependency(c, d) =>
      UniqueNames(checks) && exists i :: 0 <= i < |checks| && checks[i].name == c && d in checks[i].deps && d !in ByName(checks)
    case DependencyCycle(n) =>
      WellFormed(checks) && OnCycle(DepsOf(checks), n)
  }

  /** Accepts exactly the well-formed acyclic lists; every refusal is true of the list. */
  method ValidateChecks(checks: seq<Check>) returns (r: Validation)
    ensures r.Accepted? <==> ValidChecks(checks)
    ensures RefusalHolds(checks, r)
  {
    r := ValidateEach(checks);
    if r.Accepted? {
      r := ValidateDependencies(checks);
      if r.Accepted? {
        r := SearchCycles(checks);
      }
    }
  }

  method ValidateEach(checks: seq<Check>) returns (r: Validation)
    ensures r.Accepted? ==> forall i :: 0 <= i < |checks| ==> NamedAndRunnable(checks[i]) && Budgeted(checks[i])
    ensures r.Accepted? ==> UniqueNames(checks)
    ensures !r.Accepted? ==> RefusalHolds(checks, r) && !WellFormed(checks)
  {
    var known: set<string> := {};
    for i := 0 to |checks|
      invariant known == set j | 0 <= j < i :: checks[j].name
      invariant forall j :: 0 <= j < i ==> NamedAndRunnable(checks[j]) && Budgeted(checks[j])
      invariant UniqueNames(checks[..i])
    {
      var c := checks[i];
      assert FirstRefused(checks, i);
      if c.name == "" || |c.argv| == 0 {
        return InvalidCheck(c);
      }
      if c.baseline <= 0 || c.timeout <= GrowthBudget(c.baseline) {
        return BadBudget(c.name);
      }
      if c.name in known {
        return DuplicateCheck(c.name);
      }
      known := known + {c.name};
    }
    assert checks[..|checks|] == checks;
    return Accepted;
  }

  method ValidateDependencies(checks: seq<Check>) returns (r: Validation)
    requires UniqueNames(checks)
    ensures r.Accepted? <==> KnownDeps(checks)
    ensures r.Accepted? || (r.UnknownDependency? && RefusalHolds(checks, r))
  {
    var known := ByName(checks).Keys;
    for i := 0 to |checks|
      invariant forall k, d :: 0 <= k < i && d in checks[k].deps ==> d in known
    {
      var deps := checks[i].deps;
      for j := 0 to |deps|
        invariant forall k :: 0 <= k < j ==> deps[k] in known
      {
        if deps[j] !in known {
          return UnknownDependency(checks[i].name, deps[j]);
        }
      }
    }
    return Accepted;
  }

  method SearchCycles(checks: seq<Check>) returns (r: Validation)
    requires WellFormed(checks)
    ensures r.Accepted? || r.DependencyCycle?
    ensures r.Accepted? <==> Acyclic(DepsOf(checks))
    ensures r.DependencyCycle? ==> OnCycle(DepsOf(checks), r.name)
  {
    hide OnCycle, Acyclic, Searching, MayVisit, WellFormed, KnownDeps, ByName;
    assert KnownDeps(checks) by { WellFormedKnows(checks); }
    var search := new CycleSearch(checks);
    r := Accepted;
    ghost var g := DepsOf(checks);
    for i := 0 to |checks|
      invariant fresh(search) && search.byName == ByName(checks)
      invariant r.Accepted? || r.DependencyCycle?
      invariant r.DependencyCycle? ==> OnCycle(g, r.name)
      invariant r.Accepted? ==> search.Valid() && search.path == []
      invariant r.Accepted? ==> forall j :: 0 <= j < i ==> checks[j].name in search.visited
    {
      if r.Accepted? {
        MayStart(checks, i);
        var cycle := search.Visit(checks[i].name);
        if cycle.Some? {
          r := DependencyCycle(cycle.value);
        }
      }
    }
    if r.DependencyCycle? {
      CycleRefutesAcyclic(g, r.name);
    } else {
      AllSearchedIsAcyclic(checks, search.visiting, search.visited, search.rank);
    }
  }

  lemma {:induction false} WellFormedKnows(checks: seq<Check>)
    requires WellFormed(checks)
    ensures KnownDeps(checks)
  {
  }

  lemma {:induction false} MayStart(checks: seq<Check>, i: nat)
    requires i < |checks|
    ensures MayVisit(DepsOf(checks), [], checks[i].name)
  {
    ByNameIsNames(checks);
  }

  lemma {:induction false} CycleRefutesAcyclic(g: Graph, n: string)
    requires OnCycle(g, n)
    ensures !Acyclic(g)
  {
  }

  lemma {:induction false} AllSearchedIsAcyclic(checks: seq<Check>, visiting: set<string>, visited: set<string>, rank: map<string, nat>)
    requires Searching(DepsOf(checks), visiting, visited, [], rank)
    requires forall j :: 0 <= j < |checks| ==> checks[j].name in visited
    ensures Acyclic(DepsOf(checks))
  {
    ByNameIsNames(checks);
    RankedGraphIsAcyclic(DepsOf(checks), rank);
  }
}
