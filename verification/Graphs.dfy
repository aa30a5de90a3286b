/** Finite directed graphs as adjacency maps: walks, reachability and cycles.
    Shared by the check scheduler and by the kanban tree layout. */
module Graphs {

  type Graph = map<string, seq<string>>

  ghost predicate Edge(g: Graph, a: string, b: string) {
    a in g && b in g[a]
  }

  ghost predicate StepAt(g: Graph, p: seq<string>, i: int)
    requires 0 <= i < |p| - 1
  {
    Edge(g, p[i], p[i + 1])
  }

  // A walk has at least one node; every step follows an edge.
  ghost predicate IsWalk(g: Graph, p: seq<string>) {
    && |p| >= 1
    && forall i :: 0 <= i < |p| - 1 ==> StepAt(g, p, i)
  }

  ghost predicate IsWalkFromTo(g: Graph, p: seq<string>, a: string, b: string) {
    IsWalk(g, p) && p[0] == a && p[|p| - 1] == b
  }

  // b is reachable from a by one or more edges.
  ghost predicate Reaches(g: Graph, a: string, b: string) {
    exists p :: IsWalkFromTo(g, p, a, b) && |p| >= 2
  }

  ghost predicate OnCycle(g: Graph, a: string) {
    Reaches(g, a, a)
  }

  ghost predicate Acyclic(g: Graph) {
    forall a :: !OnCycle(g, a)
  }

  lemma {:induction false} EdgeReaches(g: Graph, a: string, b: string)
    requires Edge(g, a, b)
    ensures Reaches(g, a, b)
  {
    assert IsWalkFromTo(g, [a, b], a, b);
  }

  lemma {:induction false} TailIsWalk(g: Graph, p: seq<string>)
    requires IsWalk(g, p) && |p| > 1
    ensures IsWalk(g, p[1..])
  {
    forall i | 0 <= i < |p[1..]| - 1
      ensures StepAt(g, p[1..], i)
    {
      assert StepAt(g, p, i + 1);
    }
  }

  lemma {:induction false} WalkConcat(g: Graph, p: seq<string>, q: seq<string>)
    requires IsWalk(g, p) && IsWalk(g, q) && p[|p| - 1] == q[0]
    ensures IsWalkFromTo(g, p + q[1..], p[0], q[|q| - 1])
  {
    var r := p + q[1..];
    forall i | 0 <= i < |r| - 1
      ensures StepAt(g, r, i)
    {
      if i < |p| - 1 {
        assert StepAt(g, p, i);
      } else {
        assert StepAt(g, q, i - |p| + 1);
      }
    }
  }

  lemma {:induction false} ReachesTransitive(g: Graph, a: string, b: string, c: string)
    requires Reaches(g, a, b) && Reaches(g, b, c)
    ensures Reaches(g, a, c)
  {
    var p :| IsWalkFromTo(g, p, a, b) && |p| >= 2;
    var q :| IsWalkFromTo(g, q, b, c) && |q| >= 2;
    WalkConcat(g, p, q);
    assert IsWalkFromTo(g, p + q[1..], a, c);
  }

  // The first step of a walk of length two or more.
  lemma {:induction false} ReachesByFirstStep(g: Graph, a: string, c: string) returns (b: string)
    requires Reaches(g, a, c)
    ensures Edge(g, a, b) && (b == c || Reaches(g, b, c))
  {
    var p :| IsWalkFromTo(g, p, a, c) && |p| >= 2;
    b := p[1];
    assert StepAt(g, p, 0);
    if b != c {
      TailIsWalk(g, p);
      assert IsWalkFromTo(g, p[1..], b, c);
    }
  }

  // A set closed under edges keeps every reachable node.
  lemma {:induction false} ClosedSetKeepsReachable(g: Graph, closed: set<string>, p: seq<string>)
    requires forall a, b :: a in closed && Edge(g, a, b) ==> b in closed
    requires IsWalk(g, p) && p[0] in closed
    ensures p[|p| - 1] in closed
  {
    if |p| > 1 {
      assert StepAt(g, p, 0);
      TailIsWalk(g, p);
      ClosedSetKeepsReachable(g, closed, p[1..]);
    }
  }

  // Ranks that strictly fall along edges rule cycles out.
  lemma {:induction false} RankFallsAlongWalk(g: Graph, rank: map<string, nat>, p: seq<string>)
    requires forall a, b :: a in rank && Edge(g, a, b) ==> b in rank && rank[b] < rank[a]
    requires IsWalk(g, p) && p[0] in rank
    ensures p[|p| - 1] in rank && rank[p[|p| - 1]] + |p| <= rank[p[0]] + 1
  {
    if |p| > 1 {
      assert StepAt(g, p, 0);
      TailIsWalk(g, p);
      RankFallsAlongWalk(g, rank, p[1..]);
    }
  }

  lemma {:induction false} RankedGraphIsAcyclic(g: Graph, rank: map<string, nat>)
    requires forall a :: a in g ==> a in rank
    requires forall a, b :: a in rank && Edge(g, a, b) ==> b in rank && rank[b] < rank[a]
    ensures Acyclic(g)
  {
    forall a
      ensures !OnCycle(g, a)
    {
      if OnCycle(g, a) {
        var p :| IsWalkFromTo(g, p, a, a) && |p| >= 2;
        assert StepAt(g, p, 0);
        RankFallsAlongWalk(g, rank, p);
      }
    }
  }

  ghost predicate HasSuccessorIn(g: Graph, s: set<string>, u: string) {
    exists v :: v in s && Edge(g, u, v)
  }

  // A nonempty finite set in which every node has a successor holds a cycle.
  lemma {:induction false} StuckSetHasCycle(g: Graph, stuck: set<string>) returns (a: string)
    requires stuck != {}
    requires forall u :: u in stuck ==> HasSuccessorIn(g, stuck, u)
    ensures a in stuck && OnCycle(g, a)
  {
    var start :| start in stuck;
    assert {start} <= stuck;
    a := ExtendUntilRepeat(g, stuck, [start]);
  }

  lemma {:induction false} SuccessorIn(g: Graph, s: set<string>, u: string) returns (v: string)
    requires HasSuccessorIn(g, s, u)
    ensures v in s && Edge(g, u, v)
  {
    v :| v in s && Edge(g, u, v);
  }

  lemma {:induction false} ExtendUntilRepeat(g: Graph, stuck: set<string>, p: seq<string>) returns (a: string)
    requires |p| >= 1 && IsWalk(g, p)
    requires forall i :: 0 <= i < |p| ==> p[i] in stuck
    requires forall i, j :: 0 <= i < j < |p| ==> p[i] != p[j]
    requires forall u :: u in stuck ==> HasSuccessorIn(g, stuck, u)
    ensures a in stuck && OnCycle(g, a)
    decreases |stuck| - |p|
  {
    hide IsWalk, OnCycle, HasSuccessorIn, Edge;
    var next := SuccessorIn(g, stuck, p[|p| - 1]);
    if next in p {
      var i :| 0 <= i < |p| && p[i] == next;
      CloseWalk(g, p, i, next);
      a := next;
    } else {
      AppendStep(g, p, next);
      DistinctWithin(p + [next], stuck);
      a := ExtendUntilRepeat(g, stuck, p + [next]);
    }
  }

  // A walk, or nothing yet, extended along an edge.
  lemma {:induction false} AppendStep(g: Graph, p: seq<string>, next: string)
    requires p == [] || (IsWalk(g, p) && Edge(g, p[|p| - 1], next))
    ensures IsWalk(g, p + [next])
  {
    var q := p + [next];
    forall i | 0 <= i < |q| - 1
      ensures StepAt(g, q, i)
    {
      if i < |p| - 1 {
        assert StepAt(g, p, i);
      }
    }
  }

  // Closing a walk back onto one of its own nodes makes a cycle there.
  lemma {:induction false} CloseWalk(g: Graph, p: seq<string>, i: nat, a: string)
    requires IsWalk(g, p) && i < |p| && p[i] == a && Edge(g, p[|p| - 1], a)
    ensures OnCycle(g, a)
  {
    var q := p[i..] + [a];
    forall k | 0 <= k < |q| - 1
      ensures StepAt(g, q, k)
    {
      if k + 1 < |q| - 1 {
        assert StepAt(g, p, i + k);
      }
    }
    assert IsWalkFromTo(g, q, a, a);
  }

  lemma {:induction false} DistinctWithin<T>(p: seq<T>, s: set<T>)
    requires forall i :: 0 <= i < |p| ==> p[i] in s
    requires forall i, j :: 0 <= i < j < |p| ==> p[i] != p[j]
    ensures |p| <= |s|
  {
    if |p| > 0 {
      var last := p[|p| - 1];
      DistinctWithin(p[..|p| - 1], s - {last});
      assert s == (s - {last}) + {last};
    }
  }
}
