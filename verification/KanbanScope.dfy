/** The dependency layout of one container's children (tools/kanban-tree/tree.go, layout,
    promoteUnreached, reachable). */
module KanbanScope {
  import opened Graphs
  import opened Ordering
  import opened KanbanTree

  datatype Group = Group(blockers: seq<string>, id: string)

  datatype Scope = Scope(
    tops: seq<string>,
    deps: map<string, seq<string>>,
    shared: seq<Group>,
    sharedBy: map<string, seq<nat>>)

  const EmptyScope := Scope([], map[], [], map[])

  function ListedGroups(m: map<string, seq<nat>>, k: string): seq<nat> {
    if k in m then m[k] else []
  }

  function Filter(s: seq<string>, keep: set<string>): seq<string> {
    if s == [] then []
    else
      var last := s[|s| - 1];
      Filter(s[..|s| - 1], keep) + if last in keep then [last] else []
  }

  lemma {:induction false} FilterMembers(s: seq<string>, keep: set<string>)
    ensures forall x :: x in Filter(s, keep) <==> x in s && x in keep
    ensures Distinct(s) ==> Distinct(Filter(s, keep))
  {
    if s != [] {
      assert s == s[..|s| - 1] + [s[|s| - 1]];
      FilterMembers(s[..|s| - 1], keep);
    }
  }

  // The siblings that block a strand.
  function Within(t: Tree, siblings: set<string>, id: string): seq<string> {
    Filter(Listed(t.blockers, id), siblings)
  }

  function AddGroup(sharedBy: map<string, seq<nat>>, blockers: seq<string>, index: nat): map<string, seq<nat>> {
    if blockers == [] then sharedBy
    else
      var before := AddGroup(sharedBy, blockers[..|blockers| - 1], index);
      var b := blockers[|blockers| - 1];
      before[b := ListedGroups(before, b) + [index]]
  }

  // Where one child goes: on its own, under its only blocker, or shared.
  function Place(t: Tree, siblings: set<string>, sc: Scope, id: string): Scope {
    var within := Within(t, siblings, id);
    if |within| == 0 then
      sc.(tops := sc.tops + [id])
    else if |within| == 1 then
      sc.(deps := sc.deps[within[0] := Listed(sc.deps, within[0]) + [id]])
    else
      sc.(shared := sc.shared + [Group(within, id)], sharedBy := AddGroup(sc.sharedBy, within, |sc.shared|))
  }

  function Placed(t: Tree, siblings: set<string>, children: seq<string>): Scope {
    if children == [] then EmptyScope
    else Place(t, siblings, Placed(t, siblings, children[..|children| - 1]), children[|children| - 1])
  }

  // Each child has exactly one place, decided by its sibling blockers.
  ghost predicate PlacedRight(t: Tree, siblings: set<string>, placed: set<string>, sc: Scope) {
    && Distinct(sc.tops)
    && (forall id :: id in sc.tops <==> id in placed && |Within(t, siblings, id)| == 0)
    && (forall b :: b in sc.deps ==> Distinct(sc.deps[b]))
    && (forall b, id :: Edge(sc.deps, b, id) <==> id in placed && Within(t, siblings, id) == [b])
    && SharedRight(t, siblings, placed, sc)
  }

  ghost predicate SharedRight(t: Tree, siblings: set<string>, placed: set<string>, sc: Scope) {
    && (forall i :: 0 <= i < |sc.shared| ==>
          && sc.shared[i].id in placed
          && sc.shared[i].blockers == Within(t, siblings, sc.shared[i].id)
          && |sc.shared[i].blockers| >= 2)
    && (forall i, j :: 0 <= i < j < |sc.shared| ==> sc.shared[i].id != sc.shared[j].id)
    && (forall id :: id in placed && |Within(t, siblings, id)| >= 2 ==> HasGroup(sc, id))
    && (forall b, i :: i in ListedGroups(sc.sharedBy, b) <==> InGroup(sc, b, i))
  }

  ghost predicate HasGroup(sc: Scope, id: string) {
    exists i :: 0 <= i < |sc.shared| && sc.shared[i].id == id
  }

  ghost predicate InGroup(sc: Scope, b: string, i: int) {
    0 <= i < |sc.shared| && b in sc.shared[i].blockers
  }

  lemma {:induction false} AddGroupLists(sharedBy: map<string, seq<nat>>, blockers: seq<string>, index: nat)
    ensures forall b, i :: i in ListedGroups(AddGroup(sharedBy, blockers, index), b) <==>
                           i in ListedGroups(sharedBy, b) || (i == index && b in blockers)
  {
    if blockers != [] {
      var init, last := blockers[..|blockers| - 1], blockers[|blockers| - 1];
      assert blockers == init + [last];
      AddGroupLists(sharedBy, init, index);
      var before := AddGroup(sharedBy, init, index);
      var after := before[last := ListedGroups(before, last) + [index]];
      assert AddGroup(sharedBy, blockers, index) == after;
      hide AddGroup;
      forall b, i
        ensures i in ListedGroups(after, b) <==> i in ListedGroups(sharedBy, b) || (i == index && b in blockers)
      {
        assert ListedGroups(after, b) == if b == last then ListedGroups(before, b) + [index] else ListedGroups(before, b);
        assert b in blockers <==> b in init || b == last;
      }
    }
  }

  lemma {:induction false} PlaceKeepsRight(t: Tree, siblings: set<string>, placed: set<string>, sc: Scope, id: string)
    requires PlacedRight(t, siblings, placed, sc) && id !in placed
    ensures PlacedRight(t, siblings, placed + {id}, Place(t, siblings, sc, id))
  {
    var within := Within(t, siblings, id);
    var after := Place(t, siblings, sc, id);
    if |within| == 0 {
      hide SharedRight;
      SharedRightGrows(t, siblings, placed, sc, after, id);
    } else if |within| == 1 {
      hide SharedRight, Within;
      assert within == [within[0]];
      assert !Edge(sc.deps, within[0], id);
      SharedRightGrows(t, siblings, placed, sc, after, id);
      forall b, x
        ensures Edge(after.deps, b, x) <==> x in placed + {id} && Within(t, siblings, x) == [b]
      {
        assert Edge(after.deps, b, x) <==> Edge(sc.deps, b, x) || (b == within[0] && x == id);
      }
    } else {
      hide Within;
      AddGroupLists(sc.sharedBy, within, |sc.shared|);
      SharedPlaced(t, siblings, placed, sc, id);
    }
  }

  lemma {:induction false} SharedRightGrows(
    t: Tree, siblings: set<string>, placed: set<string>, sc: Scope, after: Scope, id: string)
    requires SharedRight(t, siblings, placed, sc) && |Within(t, siblings, id)| < 2
    requires after.shared == sc.shared && after.sharedBy == sc.sharedBy
    ensures SharedRight(t, siblings, placed + {id}, after)
  {
    hide Within;
    forall x | x in placed + {id} && |Within(t, siblings, x)| >= 2
      ensures HasGroup(after, x)
    {
      assert HasGroup(sc, x);
    }
    forall b, i
      ensures i in ListedGroups(after.sharedBy, b) <==> InGroup(after, b, i)
    {
      assert i in ListedGroups(sc.sharedBy, b) <==> InGroup(sc, b, i);
    }
  }

  lemma {:induction false} SharedPlaced(t: Tree, siblings: set<string>, placed: set<string>, sc: Scope, id: string)
    requires SharedRight(t, siblings, placed, sc) && id !in placed && |Within(t, siblings, id)| >= 2
    ensures SharedRight(t, siblings, placed + {id}, Place(t, siblings, sc, id))
  {
    var within := Within(t, siblings, id);
    var after := Place(t, siblings, sc, id);
    hide Within;
    AddGroupLists(sc.sharedBy, within, |sc.shared|);
    forall x | x in placed + {id} && |Within(t, siblings, x)| >= 2
      ensures HasGroup(after, x)
    {
      if x == id {
        assert after.shared[|sc.shared|].id == id;
      } else {
        assert HasGroup(sc, x);
        var i :| 0 <= i < |sc.shared| && sc.shared[i].id == x;
        assert after.shared[i].id == x;
      }
    }
    forall b, i
      ensures i in ListedGroups(after.sharedBy, b) <==> InGroup(after, b, i)
    {
      assert i in ListedGroups(sc.sharedBy, b) <==> InGroup(sc, b, i);
    }
  }

  lemma {:induction false} PlacedIsRight(t: Tree, siblings: set<string>, children: seq<string>)
    requires Distinct(children)
    ensures PlacedRight(t, siblings, (set x | x in children), Placed(t, siblings, children))
  {
    if children == [] {
      assert PlacedRight(t, siblings, {}, EmptyScope);
      assert (set x | x in children) == {};
    } else {
      var init, last := children[..|children| - 1], children[|children| - 1];
      assert children == init + [last];
      PlacedIsRight(t, siblings, init);
      PlaceKeepsRight(t, siblings, (set x | x in init), Placed(t, siblings, init), last);
      assert (set x | x in children) == (set x | x in init) + {last};
    }
  }

  // ------------------------------------------------------------ reachability

  ghost predicate Leads(sc: Scope, b: string, id: string) {
    Edge(sc.deps, b, id) || exists i :: i in ListedGroups(sc.sharedBy, b) && i < |sc.shared| && sc.shared[i].id == id
  }

  // From each blocker to the siblings drawn because of it.
  ghost function DrawGraph(sc: Scope): Graph {
    map b | b in sc.deps.Keys + sc.sharedBy.Keys ::
      Listed(sc.deps, b) + GroupIds(sc, ListedGroups(sc.sharedBy, b))
  }

  function GroupIds(sc: Scope, indices: seq<nat>): seq<string> {
    if indices == [] then []
    else
      var i := indices[|indices| - 1];
      GroupIds(sc, indices[..|indices| - 1]) + if i < |sc.shared| then [sc.shared[i].id] else []
  }

  lemma {:induction false} GroupIdsMembers(sc: Scope, indices: seq<nat>)
    ensures forall id :: id in GroupIds(sc, indices) <==>
                         exists i :: i in indices && i < |sc.shared| && sc.shared[i].id == id
  {
    if indices != [] {
      assert indices == indices[..|indices| - 1] + [indices[|indices| - 1]];
      GroupIdsMembers(sc, indices[..|indices| - 1]);
    }
  }

  lemma {:induction false} DrawGraphEdges(sc: Scope)
    ensures forall b, id :: Edge(DrawGraph(sc), b, id) <==> Leads(sc, b, id)
  {
    forall b, id
      ensures Edge(DrawGraph(sc), b, id) <==> Leads(sc, b, id)
    {
      GroupIdsMembers(sc, ListedGroups(sc.sharedBy, b));
    }
  }

  ghost predicate Reached(sc: Scope, id: string) {
    exists p :: IsWalk(DrawGraph(sc), p) && p[0] in sc.tops && p[|p| - 1] == id
  }

  lemma {:induction false} TopIsReached(sc: Scope, id: string)
    requires id in sc.tops
    ensures Reached(sc, id)
  {
    assert IsWalk(DrawGraph(sc), [id]);
  }

  lemma {:induction false} LeadsReaches(sc: Scope, b: string, id: string)
    requires Reached(sc, b) && Leads(sc, b, id)
    ensures Reached(sc, id)
  {
    var p :| IsWalk(DrawGraph(sc), p) && p[0] in sc.tops && p[|p| - 1] == b;
    DrawGraphEdges(sc);
    assert Edge(DrawGraph(sc), b, id);
    AppendStep(DrawGraph(sc), p, id);
    assert (p + [id])[0] in sc.tops;
  }

  lemma {:induction false} ClosedHoldsReached(sc: Scope, closed: set<string>, id: string)
    requires forall x :: x in sc.tops ==> x in closed
    requires forall b, x :: b in closed && Leads(sc, b, x) ==> x in closed
    requires Reached(sc, id)
    ensures id in closed
  {
    var p :| IsWalk(DrawGraph(sc), p) && p[0] in sc.tops && p[|p| - 1] == id;
    DrawGraphEdges(sc);
    ClosedSetKeepsReachable(DrawGraph(sc), closed, p);
  }

  // ------------------------------------------------------------ promotion

  ghost predicate FirstUnreached(sc: Scope, children: seq<string>, i: int) {
    && 0 <= i < |children| && !Reached(sc, children[i])
    && forall j :: 0 <= j < i ==> Reached(sc, children[j])
  }

  ghost function Unreached(sc: Scope, children: seq<string>): set<string> {
    set x | x in children && !Reached(sc, x)
  }

  ghost function AddTop(sc: Scope, id: string): Scope {
    sc.(tops := sc.tops + [id])
  }

  // At most `turns` times, the first child no branch reaches is lifted to the top.
  ghost function Promote(sc: Scope, children: seq<string>, turns: nat): Scope
    decreases turns
  {
    if turns == 0 || Unreached(sc, children) == {} then sc
    else
      FirstUnreachedExists(sc, children);
      var i :| FirstUnreached(sc, children, i);
      Promote(AddTop(sc, children[i]), children, turns - 1)
  }

  lemma {:induction false} FirstUnreachedExists(sc: Scope, children: seq<string>)
    requires Unreached(sc, children) != {}
    ensures exists i :: FirstUnreached(sc, children, i)
  {
    var x :| x in Unreached(sc, children);
    var k :| 0 <= k < |children| && children[k] == x;
    var i := 0;
    while Reached(sc, children[i])
      invariant 0 <= i <= k
      invariant forall j :: 0 <= j < i ==> Reached(sc, children[j])
      decreases k - i
    {
      i := i + 1;
    }
    assert FirstUnreached(sc, children, i);
  }

  lemma {:induction false} FirstUnreachedIsUnique(sc: Scope, children: seq<string>, i: int, j: int)
    requires FirstUnreached(sc, children, i) && FirstUnreached(sc, children, j)
    ensures i == j
  {
  }

  lemma {:induction false} AddTopReachesMore(sc: Scope, id: string, x: string)
    requires Reached(sc, x) || x == id
    ensures Reached(AddTop(sc, id), x)
  {
    var after := AddTop(sc, id);
    if x == id {
      TopIsReached(after, id);
    } else {
      var p :| IsWalk(DrawGraph(sc), p) && p[0] in sc.tops && p[|p| - 1] == x;
      assert DrawGraph(after) == DrawGraph(sc) by {
        AddTopKeepsGraph(sc, id);
      }
      assert p[0] in after.tops;
    }
  }

  lemma {:induction false} AddTopKeepsGraph(sc: Scope, id: string)
    ensures DrawGraph(AddTop(sc, id)) == DrawGraph(sc)
  {
    forall b | b in sc.deps.Keys + sc.sharedBy.Keys
      ensures DrawGraph(AddTop(sc, id))[b] == DrawGraph(sc)[b]
    {
      GroupIdsIgnoreTops(sc, id, ListedGroups(sc.sharedBy, b));
    }
  }

  lemma {:induction false} GroupIdsIgnoreTops(sc: Scope, id: string, indices: seq<nat>)
    ensures GroupIds(AddTop(sc, id), indices) == GroupIds(sc, indices)
  {
    if indices != [] {
      GroupIdsIgnoreTops(sc, id, indices[..|indices| - 1]);
    }
  }

  lemma {:induction false} PromoteReachesAll(sc: Scope, children: seq<string>, turns: nat)
    requires |Unreached(sc, children)| <= turns
    ensures Unreached(Promote(sc, children, turns), children) == {}
    decreases turns
  {
    if turns > 0 && Unreached(sc, children) != {} {
      FirstUnreachedExists(sc, children);
      var i :| FirstUnreached(sc, children, i);
      var after := AddTop(sc, children[i]);
      hide Reached;
      forall x | x in Unreached(after, children)
        ensures x in Unreached(sc, children) - {children[i]}
      {
        if Reached(sc, x) || x == children[i] {
          AddTopReachesMore(sc, children[i], x);
        }
      }
      SmallerSet(Unreached(after, children), Unreached(sc, children), children[i]);
      PromoteReachesAll(after, children, turns - 1);
      PromoteUnfolds(sc, children, turns, i);
    }
  }

  lemma {:induction false} PromoteUnfolds(sc: Scope, children: seq<string>, turns: nat, i: int)
    requires turns > 0 && FirstUnreached(sc, children, i)
    ensures Promote(sc, children, turns) == Promote(AddTop(sc, children[i]), children, turns - 1)
  {
    assert children[i] in Unreached(sc, children);
    forall j | FirstUnreached(sc, children, j)
      ensures j == i
    {
      FirstUnreachedIsUnique(sc, children, i, j);
    }
  }

  lemma {:induction false} SmallerSet(a: set<string>, b: set<string>, x: string)
    requires a <= b - {x} && x in b
    ensures |a| < |b|
  {
    assert b == a + (b - a);
    assert x in b - a;
  }

  ghost predicate OnlyTopsGrow(sc: Scope, children: seq<string>, after: Scope) {
    && after == sc.(tops := after.tops)
    && (forall x :: x in sc.tops ==> x in after.tops)
    && (forall x :: x in after.tops ==> x in sc.tops || x in children)
    && (Distinct(sc.tops) ==> Distinct(after.tops))
  }

  // Promotion appends unreached children to the tops and changes nothing else.
  lemma {:induction false} PromoteAppends(sc: Scope, children: seq<string>, turns: nat)
    ensures OnlyTopsGrow(sc, children, Promote(sc, children, turns))
    decreases turns
  {
    if turns > 0 && Unreached(sc, children) != {} {
      hide Reached, Unreached, OnlyTopsGrow, AddTop, Promote;
      FirstUnreachedExists(sc, children);
      var i :| FirstUnreached(sc, children, i);
      PromoteUnfolds(sc, children, turns, i);
      PromoteAppends(AddTop(sc, children[i]), children, turns - 1);
      UnreachedIsNew(sc, children[i]);
      TopsGrowFurther(sc, children, i, Promote(AddTop(sc, children[i]), children, turns - 1));
    } else {
      hide Reached, Unreached;
    }
  }

  lemma {:induction false} TopsGrowFurther(sc: Scope, children: seq<string>, i: int, after: Scope)
    requires 0 <= i < |children| && children[i] !in sc.tops
    requires OnlyTopsGrow(AddTop(sc, children[i]), children, after)
    ensures OnlyTopsGrow(sc, children, after)
  {
  }

  lemma {:induction false} UnreachedIsNew(sc: Scope, id: string)
    requires !Reached(sc, id)
    ensures id !in sc.tops
  {
    if id in sc.tops {
      TopIsReached(sc, id);
    }
  }

  // ------------------------------------------------------------ the layout of a container

  ghost function Siblings(t: Tree, container: string): set<string> {
    set x | x in Listed(t.kids, container)
  }

  ghost function ScopeOf(t: Tree, container: string): Scope {
    var children := Listed(t.kids, container);
    Promote(Placed(t, Siblings(t, container), children), children, |children|)
  }

  // Which siblings block which, inside one container.
  ghost function SiblingGraph(t: Tree, container: string): Graph {
    map id | id in Siblings(t, container) :: Within(t, Siblings(t, container), id)
  }

  ghost predicate SiblingCycle(t: Tree, container: string) {
    !Acyclic(SiblingGraph(t, container))
  }

  // What the renderer relies on in one container's layout.
  ghost predicate GoodScope(t: Tree, c: string, sc: Scope) {
    && Distinct(sc.tops)
    && (forall id :: id in sc.tops ==> id in Siblings(t, c))
    && (forall id :: id in Siblings(t, c) && |Within(t, Siblings(t, c), id)| == 0 ==> id in sc.tops)
    && (forall b :: b in sc.deps ==> Distinct(sc.deps[b]))
    && (forall b, id :: Edge(sc.deps, b, id) <==> id in Siblings(t, c) && Within(t, Siblings(t, c), id) == [b])
    && SharedRight(t, Siblings(t, c), Siblings(t, c), sc)
    && (forall id :: id in Siblings(t, c) ==> Reached(sc, id))
  }

  // A child lifted to the top although siblings block it.
  ghost predicate Promoted(t: Tree, c: string, id: string) {
    id in ScopeOf(t, c).tops && |Within(t, Siblings(t, c), id)| > 0
  }

  // A child nothing reaches has an unreached blocker among its siblings.
  lemma {:induction false} UnreachedHasUnreachedBlocker(t: Tree, c: string, sc: Scope, id: string)
    requires PlacedRight(t, Siblings(t, c), Siblings(t, c), sc)
    requires id in Siblings(t, c) && !Reached(sc, id)
    ensures HasSuccessorIn(SiblingGraph(t, c), (set x | x in Siblings(t, c) && !Reached(sc, x)), id)
  {
    var sib := Siblings(t, c);
    var within := Within(t, sib, id);
    UnreachedIsNew(sc, id);
    assert |within| > 0;
    var b := within[0];
    assert Edge(SiblingGraph(t, c), id, b);
    FilterMembers(Listed(t.blockers, id), sib);
    assert Leads(sc, b, id) by {
      BlockerLeads(t, c, sc, id, b);
    }
    if Reached(sc, b) {
      LeadsReaches(sc, b, id);
    }
  }

  lemma {:induction false} BlockerLeads(t: Tree, c: string, sc: Scope, id: string, b: string)
    requires PlacedRight(t, Siblings(t, c), Siblings(t, c), sc)
    requires id in Siblings(t, c) && b in Within(t, Siblings(t, c), id)
    ensures Leads(sc, b, id)
  {
    var within := Within(t, Siblings(t, c), id);
    if |within| == 1 {
      assert within == [b];
      assert Edge(sc.deps, b, id);
    } else {
      assert HasGroup(sc, id);
      var i :| 0 <= i < |sc.shared| && sc.shared[i].id == id;
      assert InGroup(sc, b, i);
      assert i in ListedGroups(sc.sharedBy, b);
    }
  }

  /** promoteUnreached lifts nothing in a scope without a dependency cycle. */
  lemma {:induction false} AcyclicScopePromotesNothing(t: Tree, c: string)
    requires Distinct(Listed(t.kids, c)) && !SiblingCycle(t, c)
    ensures ScopeOf(t, c) == Placed(t, Siblings(t, c), Listed(t.kids, c))
    ensures forall id :: !Promoted(t, c, id)
  {
    var children := Listed(t.kids, c);
    var sc := Placed(t, Siblings(t, c), children);
    PlacedIsRight(t, Siblings(t, c), children);
    hide Within, Reached, PlacedRight, Acyclic, Placed;
    var stuck := set x | x in Siblings(t, c) && !Reached(sc, x);
    if stuck != {} {
      forall u | u in stuck
        ensures HasSuccessorIn(SiblingGraph(t, c), stuck, u)
      {
        UnreachedHasUnreachedBlocker(t, c, sc, u);
      }
      var a := StuckSetHasCycle(SiblingGraph(t, c), stuck);
      CycleRefutesAcyclicity(SiblingGraph(t, c), a);
    }
    assert Unreached(sc, children) == {};
    PlacedTopsAreFree(t, c, sc);
  }

  lemma {:induction false} CycleRefutesAcyclicity(g: Graph, a: string)
    requires OnCycle(g, a)
    ensures !Acyclic(g)
  {
  }

  lemma {:induction false} PlacedTopsAreFree(t: Tree, c: string, sc: Scope)
    requires PlacedRight(t, Siblings(t, c), Siblings(t, c), sc)
    ensures forall id :: id in sc.tops ==> |Within(t, Siblings(t, c), id)| == 0
  {
  }

  /** The layout reaches every child of the container and gives each one its place; a child
      promoted against its blockers proves that the siblings' dependencies hold a cycle. */
  lemma {:induction false} ScopeIsGood(t: Tree, c: string)
    requires Distinct(Listed(t.kids, c))
    ensures GoodScope(t, c, ScopeOf(t, c))
    ensures forall id :: Promoted(t, c, id) ==> SiblingCycle(t, c)
  {
    var children := Listed(t.kids, c);
    var sib := Siblings(t, c);
    var sc := Placed(t, sib, children);
    PlacedIsRight(t, sib, children);
    if !SiblingCycle(t, c) {
      AcyclicScopePromotesNothing(t, c);
    }
    hide SiblingCycle, Placed, Promote;
    EnoughTurns(sc, children);
    PromoteReachesAll(sc, children, |children|);
    PromoteAppends(sc, children, |children|);
    PromotedIsGood(t, c, sc, ScopeOf(t, c));
  }

  lemma {:induction false} EnoughTurns(sc: Scope, children: seq<string>)
    ensures |Unreached(sc, children)| <= |children|
  {
    hide Reached;
    SeqCoversSet(children, Unreached(sc, children));
  }

  lemma {:induction false} SeqCoversSet(s: seq<string>, a: set<string>)
    requires forall x :: x in a ==> x in s
    ensures |a| <= |s|
  {
    if s == [] {
      assert a == {};
    } else {
      var last := s[|s| - 1];
      assert s == s[..|s| - 1] + [last];
      SeqCoversSet(s[..|s| - 1], a - {last});
      assert |a| <= |a - {last}| + 1 by {
        if last in a {
          assert a == (a - {last}) + {last};
        } else {
          assert a == a - {last};
        }
      }
    }
  }

  lemma {:induction false} PromotedIsGood(t: Tree, c: string, sc: Scope, after: Scope)
    requires PlacedRight(t, Siblings(t, c), Siblings(t, c), sc)
    requires OnlyTopsGrow(sc, Listed(t.kids, c), after)
    requires Unreached(after, Listed(t.kids, c)) == {}
    ensures GoodScope(t, c, after)
  {
    hide Within, Reached;
    assert SharedRight(t, Siblings(t, c), Siblings(t, c), after) by {
      hide InGroup, HasGroup;
      SharedIgnoresTops(t, c, sc, after);
    }
    forall id | id in Siblings(t, c)
      ensures Reached(after, id)
    {
      assert id !in Unreached(after, Listed(t.kids, c));
    }
  }

  lemma {:induction false} SharedIgnoresTops(t: Tree, c: string, sc: Scope, after: Scope)
    requires SharedRight(t, Siblings(t, c), Siblings(t, c), sc) && after == sc.(tops := after.tops)
    ensures SharedRight(t, Siblings(t, c), Siblings(t, c), after)
  {
    hide Within;
    forall x | x in Siblings(t, c) && |Within(t, Siblings(t, c), x)| >= 2
      ensures HasGroup(after, x)
    {
      assert HasGroup(sc, x);
    }
    forall b, i
      ensures i in ListedGroups(after.sharedBy, b) <==> InGroup(after, b, i)
    {
      assert i in ListedGroups(sc.sharedBy, b) <==> InGroup(sc, b, i);
    }
  }
}
