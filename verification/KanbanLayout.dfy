/** The layout algorithms themselves, with the per-container cache the renderer relies on. */
module KanbanLayout {
  import opened Ordering
  import opened KanbanTree
  import opened KanbanScope

  function ScopeIds(sc: Scope): set<string> {
    (set x | x in sc.tops)
    + (set b, x | b in sc.deps && x in sc.deps[b] :: x)
    + (set i | 0 <= i < |sc.shared| :: sc.shared[i].id)
  }

  // Every node seen or queued is reached, and what a seen node leads to is seen or queued.
  ghost predicate Sweeping(sc: Scope, seen: set<string>, queue: seq<string>) {
    && seen <= ScopeIds(sc)
    && (forall x :: x in queue ==> x in ScopeIds(sc) && Reached(sc, x))
    && (forall x :: x in seen ==> Reached(sc, x))
    && (forall x :: x in sc.tops ==> x in seen || x in queue)
    && (forall b, x :: b in seen && Leads(sc, b, x) ==> x in seen || x in queue)
  }

  lemma {:induction false} SweepStarts(sc: Scope)
    ensures Sweeping(sc, {}, sc.tops)
  {
    forall x | x in sc.tops
      ensures Reached(sc, x)
    {
      TopIsReached(sc, x);
    }
  }

  lemma {:induction false} SweepSkips(sc: Scope, seen: set<string>, queue: seq<string>)
    requires Sweeping(sc, seen, queue) && queue != [] && queue[0] in seen
    ensures Sweeping(sc, seen, queue[1..])
  {
    hide Reached, Leads, ScopeIds;
  }

  lemma {:induction false} SweepExpands(sc: Scope, seen: set<string>, queue: seq<string>, more: seq<string>)
    requires Sweeping(sc, seen, queue) && queue != []
    requires forall x :: x in more <==> Leads(sc, queue[0], x)
    ensures Sweeping(sc, seen + {queue[0]}, queue[1..] + more)
  {
    var id := queue[0];
    forall x | Leads(sc, id, x)
      ensures x in ScopeIds(sc) && Reached(sc, x)
    {
      LeadsReaches(sc, id, x);
      LeadsIsKnown(sc, id, x);
    }
    hide Reached, Leads, ScopeIds;
    forall b, x | b in seen + {id} && Leads(sc, b, x)
      ensures x in seen + {id} || x in queue[1..] + more
    {
      if b in seen && x in queue {
        assert x == id || x in queue[1..];
      }
    }
    forall x | x in sc.tops
      ensures x in seen + {id} || x in queue[1..] + more
    {
      if x in queue {
        assert x == id || x in queue[1..];
      }
    }
  }

  lemma {:induction false} LeadsIsKnown(sc: Scope, b: string, x: string)
    requires Leads(sc, b, x)
    ensures x in ScopeIds(sc)
  {
  }

  lemma {:induction false} SweepEnds(sc: Scope, seen: set<string>)
    requires Sweeping(sc, seen, [])
    ensures forall x :: x in seen <==> Reached(sc, x)
  {
    hide Leads, ScopeIds;
    forall x | Reached(sc, x)
      ensures x in seen
    {
      ClosedHoldsReached(sc, seen, x);
    }
  }

  // Walks the scope breadth first from its tops through the work they unblock.
  method Reachable(sc: Scope) returns (seen: set<string>)
    requires forall b, i :: i in ListedGroups(sc.sharedBy, b) ==> i < |sc.shared|
    ensures forall x :: x in seen <==> Reached(sc, x)
  {
    hide Sweeping, Reached, Leads, ScopeIds;
    seen := {};
    var queue := sc.tops;
    SweepStarts(sc);
    while queue != []
      invariant Sweeping(sc, seen, queue)
      decreases ScopeIds(sc) - seen, |queue|
    {
      var id := queue[0];
      if id in seen {
        SweepSkips(sc, seen, queue);
        queue := queue[1..];
      } else {
        var more := Listed(sc.deps, id);
        var groups := ListedGroups(sc.sharedBy, id);
        for i := 0 to |groups|
          invariant more == Listed(sc.deps, id) + GroupIds(sc, groups[..i])
        {
          assert groups[..i + 1][..i] == groups[..i];
          assert groups[i] in ListedGroups(sc.sharedBy, id);
          more := more + [sc.shared[groups[i]].id];
        }
        assert groups[..|groups|] == groups;
        MoreIsLed(sc, id);
        SweepExpands(sc, seen, queue, more);
        SweepFresh(sc, seen, queue);
        queue := queue[1..] + more;
        seen := seen + {id};
      }
    }
    SweepEnds(sc, seen);
  }

  lemma {:induction false} MoreIsLed(sc: Scope, id: string)
    ensures forall x :: x in Listed(sc.deps, id) + GroupIds(sc, ListedGroups(sc.sharedBy, id)) <==> Leads(sc, id, x)
  {
    GroupIdsMembers(sc, ListedGroups(sc.sharedBy, id));
  }

  lemma {:induction false} SweepFresh(sc: Scope, seen: set<string>, queue: seq<string>)
    requires Sweeping(sc, seen, queue) && queue != [] && queue[0] !in seen
    ensures ScopeIds(sc) - (seen + {queue[0]}) < ScopeIds(sc) - seen
  {
    hide Reached, Leads, ScopeIds;
    assert queue[0] in ScopeIds(sc) - seen;
  }

  ghost predicate GroupsKnown(sc: Scope) {
    forall b, i :: i in ListedGroups(sc.sharedBy, b) ==> i < |sc.shared|
  }

  // Lifts children no branch can reach, the first unreached one each time.
  method PromoteUnreached(sc: Scope, children: seq<string>) returns (r: Scope)
    requires GroupsKnown(sc)
    ensures r == Promote(sc, children, |children|)
  {
    hide Reached;
    r := sc;
    var turns := |children|;
    while turns > 0
      invariant 0 <= turns <= |children|
      invariant GroupsKnown(r)
      invariant Promote(r, children, turns) == Promote(sc, children, |children|)
      decreases turns
    {
      var seen := Reachable(r);
      var i := 0;
      while i < |children| && children[i] in seen
        invariant 0 <= i <= |children|
        invariant forall j :: 0 <= j < i ==> Reached(r, children[j])
      {
        i := i + 1;
      }
      if i == |children| {
        assert Unreached(r, children) == {};
        return r;
      }
      PromoteUnfolds(r, children, turns, i);
      r := r.(tops := r.tops + [children[i]]);
      turns := turns - 1;
    }
  }

  /** The tree with its cache of computed layouts. */
  class Model {
    const tree: Tree
    var scopes: map<string, Scope>

    ghost predicate Valid()
      reads this
    {
      && GoodTree(tree)
      && forall c :: c in scopes ==> scopes[c] == ScopeOf(tree, c)
    }

    constructor (tree: Tree)
      requires GoodTree(tree)
      ensures Valid() && this.tree == tree
    {
      this.tree := tree;
      scopes := map[];
    }

    /** Always the same layout for the same container, computed at most once. */
    method Layout(container: string) returns (sc: Scope)
      requires Valid()
      modifies this`scopes
      ensures Valid() && sc == ScopeOf(tree, container)
    {
      hide GoodTree, Promote, Within;
      if container in scopes {
        return scopes[container];
      }
      var children := Listed(tree.kids, container);
      var siblings := set x | x in children;
      assert siblings == Siblings(tree, container);
      sc := EmptyScope;
      for i := 0 to |children|
        invariant Valid()
        invariant sc == Placed(tree, siblings, children[..i])
      {
        assert children[..i + 1][..i] == children[..i];
        sc := PlaceChild(siblings, sc, children[i]);
      }
      assert children[..|children|] == children;
      GoodKidsAreDistinct(tree, container);
      PlacedKnowsGroups(tree, siblings, children);
      sc := PromoteUnreached(sc, children);
      assert sc == ScopeOf(tree, container);
      scopes := scopes[container := sc];
    }

    method PlaceChild(siblings: set<string>, before: Scope, id: string) returns (sc: Scope)
      ensures sc == Place(tree, siblings, before, id)
    {
      var blockers := Listed(tree.blockers, id);
      var within: seq<string> := [];
      for i := 0 to |blockers|
        invariant within == Filter(blockers[..i], siblings)
      {
        assert blockers[..i + 1][..i] == blockers[..i];
        if blockers[i] in siblings {
          within := within + [blockers[i]];
        }
      }
      assert blockers[..|blockers|] == blockers;
      sc := before;
      if |within| == 0 {
        sc := sc.(tops := sc.tops + [id]);
      } else if |within| == 1 {
        sc := sc.(deps := sc.deps[within[0] := Listed(sc.deps, within[0]) + [id]]);
      } else {
        var index := |sc.shared|;
        var sharedBy := sc.sharedBy;
        for i := 0 to |within|
          invariant sharedBy == AddGroup(before.sharedBy, within[..i], index)
        {
          assert within[..i + 1][..i] == within[..i];
          sharedBy := sharedBy[within[i] := ListedGroups(sharedBy, within[i]) + [index]];
        }
        assert within[..|within|] == within;
        sc := sc.(shared := sc.shared + [Group(within, id)], sharedBy := sharedBy);
      }
    }
  }

  lemma {:induction false} GoodKidsAreDistinct(t: Tree, c: string)
    requires GoodTree(t)
    ensures Distinct(Listed(t.kids, c))
  {
  }

  lemma {:induction false} PlacedKnowsGroups(t: Tree, siblings: set<string>, children: seq<string>)
    requires Distinct(children)
    ensures GroupsKnown(Placed(t, siblings, children))
  {
    hide Within;
    PlacedIsRight(t, siblings, children);
    var sc := Placed(t, siblings, children);
    forall b, i | i in ListedGroups(sc.sharedBy, b)
      ensures i < |sc.shared|
    {
      assert InGroup(sc, b, i);
    }
  }
}
