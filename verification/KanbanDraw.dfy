/** What drawing a tree must achieve: the reasoning behind the renderer
    (tools/kanban-tree/render.go), free of its mutable state. */
module KanbanDraw {
  import opened Graphs
  import opened Ordering
  import opened KanbanTree
  import opened KanbanScope

  datatype Kind = Contain | Depends | Stub

  datatype Item = Item(id: string, container: string, kind: Kind, group: nat)

  // A deferred expansion: a shared node printed under its blockers once the tree is drawn.
  datatype Section = Section(container: string, group: nat)

  // The root's containment tree.
  ghost predicate InTree(t: Tree, n: string) {
    n in t.nodes && (n == t.rootID || Reaches(t.kids, t.rootID, n))
  }

  ghost function TreeIds(t: Tree): set<string> {
    set n | n in t.nodes && InTree(t, n)
  }

  ghost predicate Contains(t: Tree, c: string, n: string) {
    Edge(t.kids, c, n)
  }

  function TopItems(tops: seq<string>, id: string): seq<Item> {
    seq(|tops|, i requires 0 <= i < |tops| => Item(tops[i], id, Contain, 0))
  }

  function DependItems(deps: seq<string>, container: string): seq<Item> {
    seq(|deps|, i requires 0 <= i < |deps| => Item(deps[i], container, Depends, 0))
  }

  function StubItems(sc: Scope, groups: seq<nat>, container: string): seq<Item>
    requires forall k :: 0 <= k < |groups| ==> groups[k] < |sc.shared|
  {
    seq(|groups|, i requires 0 <= i < |groups| => Item(sc.shared[groups[i]].id, container, Stub, groups[i]))
  }

  // Contained children first, then what this node alone unblocks, then stubs.
  ghost predicate ItemsUnder(t: Tree, container: string, id: string, items: seq<Item>) {
    var sc := ScopeOf(t, container);
    if container == "" then items == TopItems(ScopeOf(t, id).tops, id)
    else
      && (forall k :: 0 <= k < |ListedGroups(sc.sharedBy, id)| ==> ListedGroups(sc.sharedBy, id)[k] < |sc.shared|)
      && items == TopItems(ScopeOf(t, id).tops, id) + DependItems(Listed(sc.deps, id), container)
                  + StubItems(sc, ListedGroups(sc.sharedBy, id), container)
  }

  // Everything that must hang under a node has been drawn or queued.
  ghost predicate Expanded(t: Tree, drawn: set<string>, queued: set<Section>, container: string, id: string) {
    && (forall k :: k in ScopeOf(t, id).tops ==> k in drawn)
    && (container != "" ==>
          && (forall k :: Edge(ScopeOf(t, container).deps, id, k) ==> k in drawn)
          && (forall i :: i in ListedGroups(ScopeOf(t, container).sharedBy, id) ==> Section(container, i) in queued))
  }

  lemma {:induction false} ExpandedGrows(
    t: Tree, d0: set<string>, q0: set<Section>, d1: set<string>, q1: set<Section>, c: string, id: string)
    requires Expanded(t, d0, q0, c, id) && d0 <= d1 && q0 <= q1
    ensures Expanded(t, d1, q1, c, id)
  {
  }

  ghost predicate AllExpanded(t: Tree, nodes: set<string>, drawn: set<string>, queued: set<Section>) {
    forall c, n :: n in nodes && Contains(t, c, n) ==> Expanded(t, drawn, queued, c, n)
  }

  lemma {:induction false} AllExpandedGrows(
    t: Tree, nodes: set<string>, d0: set<string>, q0: set<Section>, d1: set<string>, q1: set<Section>)
    requires AllExpanded(t, nodes, d0, q0) && d0 <= d1 && q0 <= q1
    ensures AllExpanded(t, nodes, d1, q1)
  {
    hide Expanded, Contains;
    forall c, n | n in nodes && Contains(t, c, n)
      ensures Expanded(t, d1, q1, c, n)
    {
      ExpandedGrows(t, d0, q0, d1, q1, c, n);
    }
  }

  ghost predicate SectionsDrawn(t: Tree, drawn: set<string>, queued: set<Section>) {
    forall s :: s in queued ==> s.group < |ScopeOf(t, s.container).shared|
                                && ScopeOf(t, s.container).shared[s.group].id in drawn
  }

  // Children of a drawn node are drawn once everything drawn is expanded.
  lemma {:induction false} ChildrenOfDrawnAreDrawn(
    t: Tree, drawn: set<string>, queued: set<Section>, c: string, k: string)
    requires GoodTree(t) && c in drawn && Contains(t, c, k)
    requires exists up :: Expanded(t, drawn, queued, up, c)
    requires AllExpanded(t, drawn, drawn, queued)
    requires SectionsDrawn(t, drawn, queued)
    ensures k in drawn
  {
    var sc := ScopeOf(t, c);
    assert Distinct(Listed(t.kids, c));
    assert c in t.kids && c != "";
    ScopeIsGood(t, c);
    assert k in Siblings(t, c);
    assert Reached(sc, k);
    hide Reached, ScopeOf, Within;
    forall b, x | b in drawn && Leads(sc, b, x)
      ensures x in drawn
    {
      LeadsFromSibling(t, c, sc, b, x);
      assert Contains(t, c, b);
      assert Expanded(t, drawn, queued, c, b);
      LeadsIsDrawn(t, drawn, queued, c, b, x);
    }
    ClosedHoldsReached(sc, drawn, k);
  }

  lemma {:induction false} LeadsFromSibling(t: Tree, c: string, sc: Scope, b: string, x: string)
    requires GoodScope(t, c, sc) && Leads(sc, b, x)
    ensures b in Siblings(t, c) && x in Siblings(t, c)
  {
    FilterMembers(Listed(t.blockers, x), Siblings(t, c));
    if Edge(sc.deps, b, x) {
      assert Within(t, Siblings(t, c), x) == [b];
      assert b in Within(t, Siblings(t, c), x);
    } else {
      var i :| i in ListedGroups(sc.sharedBy, b) && i < |sc.shared| && sc.shared[i].id == x;
      assert InGroup(sc, b, i);
    }
  }

  lemma {:induction false} LeadsIsDrawn(
    t: Tree, drawn: set<string>, queued: set<Section>, c: string, b: string, x: string)
    requires c != "" && Expanded(t, drawn, queued, c, b) && SectionsDrawn(t, drawn, queued)
    requires Leads(ScopeOf(t, c), b, x)
    ensures x in drawn
  {
    hide ScopeOf;
    if !Edge(ScopeOf(t, c).deps, b, x) {
      var i :| i in ListedGroups(ScopeOf(t, c).sharedBy, b) && i < |ScopeOf(t, c).shared| && ScopeOf(t, c).shared[i].id == x;
      assert Section(c, i) in queued;
    }
  }

  /** Once the root and everything drawn is expanded and every section printed, the whole
      containment tree of the root has been drawn, cycles and shared nodes included. */
  lemma {:induction false} WholeTreeIsDrawn(t: Tree, drawn: set<string>, queued: set<Section>)
    requires GoodTree(t) && t.rootID in drawn && drawn <= TreeIds(t)
    requires Expanded(t, drawn, queued, "", t.rootID)
    requires AllExpanded(t, drawn, drawn, queued)
    requires SectionsDrawn(t, drawn, queued)
    ensures drawn == TreeIds(t)
  {
    hide GoodTree, Expanded, AllExpanded, SectionsDrawn;
    forall c, k | c in drawn && Edge(t.kids, c, k)
      ensures k in drawn
    {
      assert Contains(t, c, k);
      if c == t.rootID {
        assert Expanded(t, drawn, queued, "", c);
      } else {
        var up := ParentInTree(t, c);
        ExpandedOf(t, drawn, queued, up, c);
      }
      ChildrenOfDrawnAreDrawn(t, drawn, queued, c, k);
    }
    forall n | n in TreeIds(t)
      ensures n in drawn
    {
      if n != t.rootID {
        var p :| IsWalkFromTo(t.kids, p, t.rootID, n) && |p| >= 2;
        ClosedSetKeepsReachable(t.kids, drawn, p);
      }
    }
  }

  lemma {:induction false} ExpandedOf(t: Tree, drawn: set<string>, queued: set<Section>, c: string, n: string)
    requires AllExpanded(t, drawn, drawn, queued) && n in drawn && Contains(t, c, n)
    ensures Expanded(t, drawn, queued, c, n)
  {
  }

  // A non-root node of the tree hangs under some node of the tree.
  lemma {:induction false} ParentInTree(t: Tree, n: string) returns (c: string)
    requires InTree(t, n) && n != t.rootID
    ensures Contains(t, c, n)
  {
    var p :| IsWalkFromTo(t.kids, p, t.rootID, n) && |p| >= 2;
    assert StepAt(t.kids, p, |p| - 2);
    c := p[|p| - 2];
  }

  lemma {:induction false} ChildInTree(t: Tree, c: string, k: string)
    requires GoodTree(t) && InTree(t, c) && Contains(t, c, k)
    ensures InTree(t, k)
  {
    EdgeReaches(t.kids, c, k);
    if c != t.rootID {
      ReachesTransitive(t.kids, t.rootID, c, k);
    }
  }

  // ------------------------------------------------- one way in, unless promoted

  ghost function WithinOf(t: Tree, c: string, n: string): seq<string> {
    Within(t, Siblings(t, c), n)
  }

  // The line under which a node that was not promoted is drawn in full.
  ghost predicate HangsFrom(t: Tree, n: string, source: string) {
    exists c :: Contains(t, c, n) && !Promoted(t, c, n)
                && (if |WithinOf(t, c, n)| == 0 then source == c else WithinOf(t, c, n) == [source])
  }

  ghost predicate IsPromoted(t: Tree, n: string) {
    exists c :: Contains(t, c, n) && Promoted(t, c, n)
  }

  ghost predicate IsShared(t: Tree, n: string) {
    exists c :: Contains(t, c, n) && !Promoted(t, c, n) && |WithinOf(t, c, n)| >= 2
  }

  // What may already be drawn: every drawn node's source was drawn before it.
  ghost predicate SourcesDrawn(t: Tree, drawn: set<string>) {
    forall n, s :: n in drawn && HangsFrom(t, n, s) ==> s in drawn
  }

  // Nodes drawn meanwhile were excused, promoted, or hang from one another.
  ghost predicate DrawnFrom(t: Tree, before: set<string>, after: set<string>, excused: set<string>) {
    && before <= after
    && forall n :: n in after - before ==> n in excused || IsPromoted(t, n) || HangsFromNew(t, n, after - before)
  }

  ghost predicate HangsFromNew(t: Tree, n: string, latest: set<string>) {
    exists s :: s in latest && HangsFrom(t, n, s)
  }

  // An arrival at a node already drawn is possible only for a promoted one.
  ghost predicate FirstArrival(t: Tree, drawn: set<string>, n: string) {
    n in drawn ==> IsPromoted(t, n)
  }

  lemma {:induction false} HangsFromIsUnique(t: Tree, n: string, s: string, r: string)
    requires GoodTree(t) && HangsFrom(t, n, s) && HangsFrom(t, n, r)
    ensures s == r
  {
  }

  lemma {:induction false} HangsFromAnother(t: Tree, n: string, s: string)
    requires GoodTree(t) && HangsFrom(t, n, s)
    ensures s != n && !IsPromoted(t, n) && !IsShared(t, n)
  {
    var c :| Contains(t, c, n) && !Promoted(t, c, n)
             && (if |WithinOf(t, c, n)| == 0 then s == c else WithinOf(t, c, n) == [s]);
    if |WithinOf(t, c, n)| == 0 {
      NotInItself(t, n);
    } else {
      FilterMembers(Listed(t.blockers, n), Siblings(t, c));
      assert s in WithinOf(t, c, n);
      assert Edge(t.blockers, n, s);
    }
  }

  // ------------------------------------------------------------ the lines under one node

  // Where the children of a node are drawn: its own container, or none for the root.
  ghost predicate Position(t: Tree, container: string, id: string) {
    && InTree(t, id)
    && (if container == "" then id == t.rootID else InTree(t, container) && Contains(t, container, id))
  }

  ghost predicate GoodItem(t: Tree, container: string, id: string, it: Item) {
    if it.kind == Stub then
      && container != "" && it.container == container
      && it.group < |ScopeOf(t, container).shared|
      && ScopeOf(t, container).shared[it.group].id == it.id
    else
      && it.container != "" && InTree(t, it.container) && Contains(t, it.container, it.id)
      && (IsPromoted(t, it.id) || HangsFrom(t, it.id, id))
  }

  lemma {:induction false} TopItemIsGood(t: Tree, container: string, id: string, k: string)
    requires GoodTree(t) && Position(t, container, id) && k in ScopeOf(t, id).tops
    ensures GoodItem(t, container, id, Item(k, id, Contain, 0))
  {
    TreeNodeHasDistinctKids(t, id);
    ScopeIsGood(t, id);
    hide ScopeOf, Within;
    assert k in Siblings(t, id);
    assert Contains(t, id, k);
    if !Promoted(t, id, k) {
      assert HangsFrom(t, k, id);
    }
  }

  lemma {:induction false} TreeNodeHasDistinctKids(t: Tree, id: string)
    requires GoodTree(t)
    ensures Distinct(Listed(t.kids, id)) && (id in t.nodes ==> id != "")
  {
  }

  lemma {:induction false} DependItemIsGood(t: Tree, container: string, id: string, k: string)
    requires GoodTree(t) && Position(t, container, id) && container != ""
    requires Edge(ScopeOf(t, container).deps, id, k)
    ensures GoodItem(t, container, id, Item(k, container, Depends, 0))
  {
    TreeNodeHasDistinctKids(t, container);
    ScopeIsGood(t, container);
    hide ScopeOf, Within;
    assert Contains(t, container, k);
    assert WithinOf(t, container, k) == [id];
    if !Promoted(t, container, k) {
      assert HangsFrom(t, k, id);
    }
  }

  ghost predicate ItemsGood(t: Tree, container: string, id: string, items: seq<Item>) {
    forall i :: 0 <= i < |items| ==> GoodItem(t, container, id, items[i])
  }

  // No two full lines of one list name the same node.
  ghost predicate ItemsApart(items: seq<Item>) {
    forall i, j :: 0 <= i < j < |items| && items[i].kind != Stub && items[j].kind != Stub ==> items[i].id != items[j].id
  }

  lemma {:induction false} ItemsFacts(t: Tree, container: string, id: string, items: seq<Item>)
    requires GoodTree(t) && Position(t, container, id) && ItemsUnder(t, container, id, items)
    ensures ItemsGood(t, container, id, items)
    ensures ItemsApart(items)
  {
    var tops := ScopeOf(t, id).tops;
    var sc := ScopeOf(t, container);
    forall i | 0 <= i < |items|
      ensures GoodItem(t, container, id, items[i])
    {
      ItemIsGood(t, container, id, items, i);
    }
    forall i, j | 0 <= i < j < |items| && items[i].kind != Stub && items[j].kind != Stub
      ensures items[i].id != items[j].id
    {
      ItemsDiffer(t, container, id, items, i, j);
    }
  }

  lemma {:induction false} ItemIsGood(t: Tree, container: string, id: string, items: seq<Item>, i: nat)
    requires GoodTree(t) && Position(t, container, id) && ItemsUnder(t, container, id, items) && i < |items|
    ensures GoodItem(t, container, id, items[i])
  {
    hide ScopeOf, GoodTree, Position, IsPromoted, HangsFrom, InTree;
    var tops := ScopeOf(t, id).tops;
    var sc := ScopeOf(t, container);
    if i < |tops| {
      assert tops[i] in tops;
      assert items[i] == Item(tops[i], id, Contain, 0);
      TopItemIsGood(t, container, id, tops[i]);
    } else {
      var deps := Listed(sc.deps, id);
      if i < |tops| + |deps| {
        var k := deps[i - |tops|];
        assert items[i] == Item(k, container, Depends, 0);
        assert Edge(sc.deps, id, k);
        DependItemIsGood(t, container, id, k);
      } else {
        var groups := ListedGroups(sc.sharedBy, id);
        var g := groups[i - |tops| - |deps|];
        assert items[i] == Item(sc.shared[g].id, container, Stub, g);
      }
    }
  }

  lemma {:induction false} ItemsDiffer(
    t: Tree, container: string, id: string, items: seq<Item>, i: nat, j: nat)
    requires GoodTree(t) && Position(t, container, id) && ItemsUnder(t, container, id, items)
    requires i < j < |items| && items[i].kind != Stub && items[j].kind != Stub
    ensures items[i].id != items[j].id
  {
    TreeNodeHasDistinctKids(t, id);
    TreeNodeHasDistinctKids(t, container);
    ScopeIsGood(t, id);
    ScopeIsGood(t, container);
    ItemIsGood(t, container, id, items, i);
    ItemIsGood(t, container, id, items, j);
    ItemContainers(t, container, id, items, i);
    ItemContainers(t, container, id, items, j);
    NotInItself(t, id);
    hide ScopeOf, Within, SharedRight, HangsFrom;
  }

  lemma {:induction false} NotInItself(t: Tree, id: string)
    requires GoodTree(t)
    ensures !Contains(t, id, id)
  {
    assert !OnCycle(t.kids, id);
    if Contains(t, id, id) {
      EdgeReaches(t.kids, id, id);
    }
  }

  lemma {:induction false} ItemContainers(t: Tree, container: string, id: string, items: seq<Item>, i: nat)
    requires ItemsUnder(t, container, id, items) && i < |items|
    ensures i < |ScopeOf(t, id).tops| ==>
              items[i].container == id && items[i].kind == Contain && items[i].id == ScopeOf(t, id).tops[i]
    ensures i >= |ScopeOf(t, id).tops| ==> container != "" && items[i].container == container && items[i].kind != Contain
    ensures i >= |ScopeOf(t, id).tops| && items[i].kind != Stub ==>
              i - |ScopeOf(t, id).tops| < |Listed(ScopeOf(t, container).deps, id)|
              && items[i].id == Listed(ScopeOf(t, container).deps, id)[i - |ScopeOf(t, id).tops|]
  {
    hide ScopeOf;
  }

  // Drawing every full line and queueing every stub expands the node.
  lemma {:induction false} ItemsExpand(
    t: Tree, container: string, id: string, items: seq<Item>, drawn: set<string>, queued: set<Section>)
    requires ItemsUnder(t, container, id, items)
    requires forall i :: 0 <= i < |items| && items[i].kind == Stub ==> Section(items[i].container, items[i].group) in queued
    requires forall i :: 0 <= i < |items| && items[i].kind != Stub ==> items[i].id in drawn
    ensures Expanded(t, drawn, queued, container, id)
  {
    hide ScopeOf;
    var tops := ScopeOf(t, id).tops;
    var sc := ScopeOf(t, container);
    forall k | k in tops
      ensures k in drawn
    {
      var i :| 0 <= i < |tops| && tops[i] == k;
      assert items[i] == Item(k, id, Contain, 0);
    }
    if container != "" {
      var deps := Listed(sc.deps, id);
      var groups := ListedGroups(sc.sharedBy, id);
      forall k | Edge(sc.deps, id, k)
        ensures k in drawn
      {
        var i :| 0 <= i < |deps| && deps[i] == k;
        assert items[|tops| + i] == Item(k, container, Depends, 0);
      }
      forall g | g in groups
        ensures Section(container, g) in queued
      {
        var i :| 0 <= i < |groups| && groups[i] == g;
        assert items[|tops| + |deps| + i] == Item(sc.shared[g].id, container, Stub, g);
      }
    }
  }
}
