/** Building the drawable tree from a good export (tools/kanban-tree/tree.go, build). */
module KanbanTree {
  import opened Basics
  import opened Graphs
  import opened Ordering
  import opened KanbanExport

  datatype Filters = Filters(all: bool, tasks: bool, open: bool)

  // Who contains whom and who is blocked by whom, among the strands kept.
  datatype Tree = Tree(
    rootID: string,
    nodes: map<string, Strand>,
    kids: map<string, seq<string>>,
    blockers: map<string, seq<string>>)

  function Listed(m: map<string, seq<string>>, k: string): seq<string> {
    if k in m then m[k] else []
  }

  // Containment is a forest below the root, and blockers are other kept strands.
  ghost predicate GoodTree(t: Tree) {
    && t.rootID in t.nodes && "" !in t.nodes
    && Acyclic(t.kids)
    && t.kids.Keys <= t.nodes.Keys
    && (forall c :: c in t.kids ==> Distinct(t.kids[c]))
    && (forall c, k :: Edge(t.kids, c, k) ==> k in t.nodes && k != t.rootID)
    && (forall c, d, k :: Edge(t.kids, c, k) && Edge(t.kids, d, k) ==> c == d)
    && (forall k :: k in t.blockers ==> Distinct(t.blockers[k]))
    && (forall k, b :: Edge(t.blockers, k, b) ==> k != b && k in t.nodes && b in t.nodes)
  }

  // ------------------------------------------------------------ nearest kept ancestor

  // The walk leaves id, meets no kept strand on the way, and ends at one.
  ghost predicate ClimbsTo(parents: map<string, string>, keep: set<string>, p: seq<string>, id: string, anc: string) {
    && IsWalkFromTo(UpGraph(parents), p, id, anc)
    && |p| >= 2 && anc in keep
    && forall i :: 1 <= i < |p| - 1 ==> p[i] !in keep
  }

  ghost predicate NearestKept(parents: map<string, string>, keep: set<string>, id: string, anc: string) {
    exists p :: ClimbsTo(parents, keep, p, id, anc)
  }

  lemma {:induction false} AcyclicWalkIsDistinct(g: Graph, p: seq<string>)
    requires Acyclic(g) && IsWalk(g, p)
    ensures Distinct(p)
  {
    forall i, j | 0 <= i < j < |p|
      ensures p[i] != p[j]
    {
      WalkBetween(g, p, i, j);
      assert !OnCycle(g, p[i]);
    }
  }

  lemma {:induction false} WalkBetween(g: Graph, p: seq<string>, i: nat, j: nat)
    requires IsWalk(g, p) && i < j < |p|
    ensures Reaches(g, p[i], p[j])
  {
    var q := p[i..j + 1];
    forall k | 0 <= k < |q| - 1
      ensures StepAt(g, q, k)
    {
      assert StepAt(g, p, i + k);
    }
    assert IsWalkFromTo(g, q, p[i], p[j]);
  }

  lemma {:induction false} OneStepUp(parents: map<string, string>, p: seq<string>, i: nat)
    requires IsWalk(UpGraph(parents), p) && i < |p| - 1
    ensures p[i] in parents && p[i + 1] == parents[p[i]]
  {
    assert StepAt(UpGraph(parents), p, i);
  }

  lemma {:induction false} WalksUpAgree(parents: map<string, string>, p: seq<string>, q: seq<string>, i: nat)
    requires IsWalk(UpGraph(parents), p) && IsWalk(UpGraph(parents), q) && p[0] == q[0]
    requires i < |p| && i < |q|
    ensures p[i] == q[i]
  {
    if i > 0 {
      WalksUpAgree(parents, p, q, i - 1);
      OneStepUp(parents, p, i - 1);
      OneStepUp(parents, q, i - 1);
    }
  }

  lemma {:induction false} NearestKeptIsUnique(
    parents: map<string, string>, keep: set<string>, id: string, a: string, b: string)
    requires NearestKept(parents, keep, id, a) && NearestKept(parents, keep, id, b)
    ensures a == b
  {
    var p :| ClimbsTo(parents, keep, p, id, a);
    var q :| ClimbsTo(parents, keep, q, id, b);
    WalksUpAgree(parents, p, q, (if |p| <= |q| then |p| else |q|) - 1);
  }

  // A climb that finds nothing kept and has no further parent shows there is nothing to find.
  lemma {:induction false} NothingKeptAbove(
    parents: map<string, string>, keep: set<string>, p: seq<string>, id: string, anc: string)
    requires IsWalk(UpGraph(parents), p) && p[0] == id && p[|p| - 1] !in parents
    requires forall i :: 1 <= i < |p| ==> p[i] !in keep
    ensures !NearestKept(parents, keep, id, anc)
  {
    if NearestKept(parents, keep, id, anc) {
      var q :| ClimbsTo(parents, keep, q, id, anc);
      if |q| <= |p| {
        WalksUpAgree(parents, p, q, |q| - 1);
      } else {
        WalksUpAgree(parents, p, q, |p| - 1);
        OneStepUp(parents, q, |p| - 1);
      }
    }
  }

  // A walk up cannot be longer than the parent map allows.
  lemma {:induction false} ClimbIsBounded(parents: map<string, string>, p: seq<string>)
    requires Acyclic(UpGraph(parents)) && IsWalk(UpGraph(parents), p)
    ensures |p| <= |parents| + 1
  {
    AcyclicWalkIsDistinct(UpGraph(parents), p);
    var q := p[..|p| - 1];
    forall i | 0 <= i < |q|
      ensures q[i] in parents.Keys
    {
      OneStepUp(parents, p, i);
    }
    DistinctWithin(q, parents.Keys);
  }

  // The hop limit of the climb never cuts it short on an acyclic parent map.
  method FindNearestKept(id: string, parents: map<string, string>, keep: set<string>) returns (anc: Option<string>)
    requires Acyclic(UpGraph(parents)) && "" !in parents && "" !in parents.Values && "" !in keep
    ensures anc.Some? ==> NearestKept(parents, keep, id, anc.value)
    ensures anc.None? ==> forall a :: !NearestKept(parents, keep, id, a)
  {
    hide Acyclic;
    var current, hops := ParentOf(parents, id), 0;
    ghost var g := UpGraph(parents);
    ghost var p := [id];
    anc := None;
    while current != "" && hops <= |parents| && anc.None?
      invariant IsWalk(g, p) && p[0] == id
      invariant anc.Some? ==> NearestKept(parents, keep, id, anc.value)
      invariant anc.None? ==> |p| == hops + 1
      invariant anc.None? ==> current == ParentOf(parents, p[|p| - 1])
      invariant anc.None? ==> forall i :: 1 <= i < |p| ==> p[i] !in keep
      decreases |parents| + 1 - hops, anc.None?
    {
      assert Edge(g, p[|p| - 1], current);
      AppendStep(g, p, current);
      p := p + [current];
      if current in keep {
        assert ClimbsTo(parents, keep, p, id, current);
        anc := Some(current);
      } else {
        current := ParentOf(parents, current);
        hops := hops + 1;
      }
    }
    if anc.None? {
      if current != "" {
        assert Edge(g, p[|p| - 1], current);
        AppendStep(g, p, current);
        ClimbIsBounded(parents, p + [current]);
        assert false;
      }
      forall a
        ensures !NearestKept(parents, keep, id, a)
      {
        NothingKeptAbove(parents, keep, p, id, a);
      }
    }
  }

  // ------------------------------------------------------------ board order

  function CreatedAt(nodes: map<string, Strand>, id: string): string {
    if id in nodes then nodes[id].createdAt else ""
  }

  // Oldest first, the id breaking ties.
  predicate Earlier(nodes: map<string, Strand>, a: string, b: string) {
    if CreatedAt(nodes, a) != CreatedAt(nodes, b) then Less(CreatedAt(nodes, a), CreatedAt(nodes, b))
    else Less(a, b)
  }

  function BoardOrder(nodes: map<string, Strand>): (string, string) -> bool {
    (a, b) => Earlier(nodes, a, b)
  }

  lemma {:induction false} BoardOrderIsStrictWeak(nodes: map<string, Strand>)
    ensures StrictWeakOrder(BoardOrder(nodes))
  {
    var less := BoardOrder(nodes);
    forall a, b | less(a, b)
      ensures !less(b, a)
    {
      if less(b, a) {
        var x, y := if CreatedAt(nodes, a) != CreatedAt(nodes, b) then CreatedAt(nodes, a) else a,
                    if CreatedAt(nodes, a) != CreatedAt(nodes, b) then CreatedAt(nodes, b) else b;
        LessTransitive(x, y, x);
        LessIrreflexive(x);
      }
    }
    forall a, b, c | !less(a, b) && !less(b, c)
      ensures !less(a, c)
    {
      NotEarlierTransitive(nodes, a, b, c);
    }
  }

  lemma {:induction false} NotEarlierTransitive(nodes: map<string, Strand>, a: string, b: string, c: string)
    requires !Earlier(nodes, a, b) && !Earlier(nodes, b, c)
    ensures !Earlier(nodes, a, c)
  {
    var x, y, z := CreatedAt(nodes, a), CreatedAt(nodes, b), CreatedAt(nodes, c);
    LessIrreflexive(x);
    LessIrreflexive(y);
    NotLessTransitive(x, y, z);
    if x == y && y == z {
      NotLessTransitive(a, b, c);
    }
  }

  // ------------------------------------------------------------ build

  predicate Kanban(s: Strand) {
    s.Card() || s.Task()
  }

  predicate Kept(s: Strand, rootID: string, f: Filters) {
    s.id == rootID || f.all || (f.tasks && Kanban(s)) || s.Card()
  }

  ghost predicate HoldsStrands(nodes: map<string, Strand>, strands: seq<Strand>) {
    forall id :: id in nodes ==> nodes[id] in strands && nodes[id].id == id
  }

  // The strands the filters keep before closed ones are dropped.
  ghost function KeptStrands(strands: seq<Strand>, rootID: string, f: Filters): map<string, Strand> {
    if strands == [] then map[]
    else
      var init, last := KeptStrands(strands[..|strands| - 1], rootID, f), strands[|strands| - 1];
      if Kept(last, rootID, f) then init[last.id := last] else init
  }

  lemma {:induction false} KeptStrandsHold(strands: seq<Strand>, rootID: string, f: Filters)
    requires forall i, j :: 0 <= i < j < |strands| ==> strands[i].id != strands[j].id
    ensures var keep := KeptStrands(strands, rootID, f);
            && (forall id :: id in keep ==> exists i :: 0 <= i < |strands| && strands[i].id == id)
            && (forall i :: 0 <= i < |strands| ==>
                  (strands[i].id in keep <==> Kept(strands[i], rootID, f))
                  && (strands[i].id in keep ==> keep[strands[i].id] == strands[i]))
  {
    hide Kept;
    if strands != [] {
      var init := strands[..|strands| - 1];
      KeptStrandsHold(init, rootID, f);
      forall i | 0 <= i < |init|
        ensures strands[i] == init[i] && strands[i].id != strands[|strands| - 1].id
      {
      }
    }
  }

  method KeepStrands(strands: seq<Strand>, rootID: string, f: Filters) returns (keep: map<string, Strand>)
    requires GoodStrands(strands) && rootID in Ids(strands)
    ensures HoldsStrands(keep, strands) && rootID in keep && "" !in keep
    ensures forall i :: 0 <= i < |strands| ==> (strands[i].id in keep <==> Kept(strands[i], rootID, f))
    ensures keep == KeptStrands(strands, rootID, f)
  {
    keep := map[];
    for i := 0 to |strands|
      invariant keep == KeptStrands(strands[..i], rootID, f)
      invariant HoldsStrands(keep, strands) && "" !in keep
      invariant forall id :: id in keep ==> exists j :: 0 <= j < i && strands[j].id == id
      invariant forall j :: 0 <= j < i ==> (strands[j].id in keep <==> Kept(strands[j], rootID, f))
    {
      assert strands[..i + 1][..i] == strands[..i];
      if Kept(strands[i], rootID, f) {
        keep := keep[strands[i].id := strands[i]];
      }
    }
    assert strands[..|strands|] == strands;
  }

  function ClimbFrom(id: string, parents: map<string, string>, hops: int): set<string>
    decreases hops + 1
  {
    if id == "" || hops < 0 then {} else {id} + ClimbFrom(ParentOf(parents, id), parents, hops - 1)
  }

  // The climb sees exactly the ancestors within its hop limit.
  ghost predicate WithinHops(parents: map<string, string>, from: string, hops: int, id: string) {
    exists p :: IsWalkFromTo(UpGraph(parents), p, from, id) && |p| <= hops + 1
  }

  lemma {:induction false} ClimbSees(parents: map<string, string>, from: string, hops: int, id: string)
    requires from != "" && "" !in parents && "" !in parents.Values
    ensures id in ClimbFrom(from, parents, hops) <==> WithinHops(parents, from, hops, id)
    decreases hops + 1
  {
    if hops >= 0 {
      var g := UpGraph(parents);
      assert IsWalkFromTo(g, [from], from, from);
      if from in parents {
        var up := parents[from];
        ClimbSees(parents, up, hops - 1, id);
        if p :| IsWalkFromTo(g, p, up, id) && |p| <= hops {
          assert Edge(g, from, up);
          PrependStep(g, from, p);
        }
        if p :| IsWalkFromTo(g, p, from, id) && |p| <= hops + 1 && id != from {
          OneStepUp(parents, p, 0);
          TailIsWalk(g, p);
          assert IsWalkFromTo(g, p[1..], up, id);
        }
      } else if p :| IsWalkFromTo(g, p, from, id) && id != from {
        OneStepUp(parents, p, 0);
        assert false;
      }
    }
  }

  lemma {:induction false} PrependStep(g: Graph, a: string, p: seq<string>)
    requires IsWalk(g, p) && Edge(g, a, p[0])
    ensures IsWalkFromTo(g, [a] + p, a, p[|p| - 1])
  {
    var q := [a] + p;
    forall i | 0 <= i < |q| - 1
      ensures StepAt(g, q, i)
    {
      if i > 0 {
        assert StepAt(g, p, i - 1);
      }
    }
  }

  // Some active kept strand is at most as many steps below as there are kept strands.
  ghost predicate LiveBelow(keep: map<string, Strand>, parents: map<string, string>, id: string) {
    exists a :: a in keep && keep[a].state == Active && WithinHops(parents, a, |keep|, id)
  }

  /** Drops a strand unless it is the root or has an active kept strand below it, no further away
      than there are kept strands. */
  method PruneClosed(keep: map<string, Strand>, parents: map<string, string>, rootID: string)
    returns (open: map<string, Strand>)
    requires rootID in keep && "" !in keep && "" !in parents && "" !in parents.Values
    ensures rootID in open && open.Keys <= keep.Keys && forall id :: id in open ==> open[id] == keep[id]
    ensures forall id :: id in keep ==> (id in open <==> id == rootID || LiveBelow(keep, parents, id))
  {
    hide WithinHops, ClimbFrom;
    var live := {rootID};
    var rest := keep.Keys;
    while rest != {}
      invariant rest <= keep.Keys
      invariant forall id :: id in live <==>
                  id == rootID || exists a :: a in keep.Keys - rest && keep[a].state == Active && WithinHops(parents, a, |keep|, id)
      decreases rest
    {
      var id :| id in rest;
      ghost var before := live;
      if keep[id].state == Active {
        live := live + ClimbFrom(id, parents, |keep|);
        forall x
          ensures x in ClimbFrom(id, parents, |keep|) <==> WithinHops(parents, id, |keep|, x)
        {
          ClimbSees(parents, id, |keep|, x);
        }
      }
      assert keep.Keys - (rest - {id}) == (keep.Keys - rest) + {id};
      rest := rest - {id};
    }
    open := map id | id in keep && id in live :: keep[id];
  }

  ghost predicate KidsSoFar(
    kids: map<string, seq<string>>, parents: map<string, string>, keep: set<string>, rootID: string, placed: set<string>)
  {
    && kids.Keys <= keep
    && (forall c :: c in kids ==> Distinct(kids[c]))
    && forall c, k :: Edge(kids, c, k) <==> k in placed && k != rootID && NearestKept(parents, keep, k, c)
  }

  lemma {:induction false} PlaceKid(
    kids: map<string, seq<string>>, parents: map<string, string>, keep: set<string>, rootID: string,
    placed: set<string>, id: string, anc: string)
    requires KidsSoFar(kids, parents, keep, rootID, placed)
    requires id !in placed && id != rootID && anc in keep && NearestKept(parents, keep, id, anc)
    ensures KidsSoFar(kids[anc := Listed(kids, anc) + [id]], parents, keep, rootID, placed + {id})
  {
    hide NearestKept;
    var after := kids[anc := Listed(kids, anc) + [id]];
    assert id !in Listed(kids, anc) by {
      assert !Edge(kids, anc, id);
    }
    forall c, k
      ensures Edge(after, c, k) <==> k in placed + {id} && k != rootID && NearestKept(parents, keep, k, c)
    {
      assert Edge(after, c, k) <==> Edge(kids, c, k) || (c == anc && k == id);
      if k == id && NearestKept(parents, keep, k, c) {
        NearestKeptIsUnique(parents, keep, id, c, anc);
      }
    }
  }

  // Hangs every kept strand under its nearest kept ancestor, in no particular order.
  method PlaceKids(keep: map<string, Strand>, parents: map<string, string>, rootID: string)
    returns (kids: map<string, seq<string>>)
    requires Acyclic(UpGraph(parents)) && "" !in parents && "" !in parents.Values && "" !in keep
    ensures KidsSoFar(kids, parents, keep.Keys, rootID, keep.Keys)
  {
    hide Acyclic;
    kids := map[];
    var rest := keep.Keys;
    assert keep.Keys - rest == {};
    while rest != {}
      invariant rest <= keep.Keys
      invariant KidsSoFar(kids, parents, keep.Keys, rootID, keep.Keys - rest)
      decreases rest
    {
      hide KidsSoFar, NearestKept;
      var id :| id in rest;
      ghost var placed := keep.Keys - rest;
      rest := rest - {id};
      assert keep.Keys - rest == placed + {id};
      if id == rootID {
        SkipKid(kids, parents, keep.Keys, rootID, placed, id);
      } else {
        var anc := FindNearestKept(id, parents, keep.Keys);
        if anc.Some? {
          NearestKeptIsKept(parents, keep.Keys, id, anc.value);
          PlaceKid(kids, parents, keep.Keys, rootID, placed, id, anc.value);
          kids := kids[anc.value := Listed(kids, anc.value) + [id]];
        } else {
          SkipKid(kids, parents, keep.Keys, rootID, placed, id);
        }
      }
    }
  }

  lemma {:induction false} NearestKeptIsKept(parents: map<string, string>, keep: set<string>, id: string, anc: string)
    requires NearestKept(parents, keep, id, anc)
    ensures anc in keep
  {
  }

  lemma {:induction false} SkipKid(
    kids: map<string, seq<string>>, parents: map<string, string>, keep: set<string>, rootID: string,
    placed: set<string>, id: string)
    requires KidsSoFar(kids, parents, keep, rootID, placed)
    requires id == rootID || forall a :: !NearestKept(parents, keep, id, a)
    ensures KidsSoFar(kids, parents, keep, rootID, placed + {id})
  {
    hide NearestKept;
  }

  ghost predicate BlockersSoFar(blockers: map<string, seq<string>>, links: seq<Link>, keep: set<string>) {
    && (forall k :: k in blockers ==> Distinct(blockers[k]))
    && forall k, b :: Edge(blockers, k, b) <==> Link(k, b) in links && k != b && k in keep && b in keep
  }

  method PlaceBlockers(keep: map<string, Strand>, links: seq<Link>) returns (blockers: map<string, seq<string>>)
    requires forall i, j :: 0 <= i < j < |links| ==> links[i] != links[j]
    ensures BlockersSoFar(blockers, links, keep.Keys)
  {
    blockers := map[];
    for i := 0 to |links|
      invariant BlockersSoFar(blockers, links[..i], keep.Keys)
    {
      hide BlockersSoFar;
      var e := links[i];
      assert links[..i + 1] == links[..i] + [e];
      PlaceBlocker(blockers, links[..i], keep.Keys, e);
      if e.from != e.to && e.from in keep && e.to in keep {
        blockers := blockers[e.from := Listed(blockers, e.from) + [e.to]];
      }
    }
    assert links[..|links|] == links;
  }

  lemma {:induction false} PlaceBlocker(
    blockers: map<string, seq<string>>, links: seq<Link>, keep: set<string>, e: Link)
    requires BlockersSoFar(blockers, links, keep) && e !in links
    ensures BlockersSoFar(
              if e.from != e.to && e.from in keep && e.to in keep
              then blockers[e.from := Listed(blockers, e.from) + [e.to]] else blockers,
              links + [e], keep)
  {
    if e.from != e.to && e.from in keep && e.to in keep {
      var after := blockers[e.from := Listed(blockers, e.from) + [e.to]];
      assert !Edge(blockers, e.from, e.to);
      forall k, b
        ensures Edge(after, k, b) <==> Link(k, b) in links + [e] && k != b && k in keep && b in keep
      {
        assert Edge(after, k, b) <==> Edge(blockers, k, b) || Link(k, b) == e;
      }
    }
  }

  // Every list in board order; what is listed does not change.
  function SortLists(nodes: map<string, Strand>, m: map<string, seq<string>>): map<string, seq<string>> {
    map k | k in m :: SortBy(BoardOrder(nodes), m[k])
  }

  ghost predicate InBoardOrder(nodes: map<string, Strand>, m: map<string, seq<string>>) {
    forall k :: k in m ==> SortedBy(BoardOrder(nodes), m[k])
  }

  lemma {:induction false} SortListsKeeps(nodes: map<string, Strand>, m: map<string, seq<string>>)
    ensures SortLists(nodes, m).Keys == m.Keys
    ensures InBoardOrder(nodes, SortLists(nodes, m))
    ensures forall k, x :: Edge(SortLists(nodes, m), k, x) <==> Edge(m, k, x)
    ensures (forall k :: k in m ==> Distinct(m[k])) ==> forall k :: k in m ==> Distinct(SortLists(nodes, m)[k])
  {
    hide StrictWeakOrder, BoardOrder, SortBy, Distinct, SortedBy;
    forall k | k in m
      ensures SortedBy(BoardOrder(nodes), SortBy(BoardOrder(nodes), m[k]))
      ensures forall x :: x in SortBy(BoardOrder(nodes), m[k]) <==> x in m[k]
      ensures Distinct(m[k]) ==> Distinct(SortBy(BoardOrder(nodes), m[k]))
    {
      BoardOrderIsStrictWeak(nodes);
      SortByIsSorted(BoardOrder(nodes), m[k]);
      SortByKeepsElements(BoardOrder(nodes), m[k]);
      SameMultisetFacts(m[k], SortBy(BoardOrder(nodes), m[k]));
    }
  }

  // Containment steps are climbs read backwards, so containment has no cycle either.
  lemma {:induction false} KidsWalkClimbs(
    kids: Graph, parents: map<string, string>, keep: set<string>, w: seq<string>)
    requires forall c, k :: Edge(kids, c, k) ==> NearestKept(parents, keep, k, c)
    requires IsWalk(kids, w) && |w| >= 2
    ensures Reaches(UpGraph(parents), w[|w| - 1], w[0])
  {
    assert StepAt(kids, w, 0);
    var p :| ClimbsTo(parents, keep, p, w[1], w[0]);
    assert Reaches(UpGraph(parents), w[1], w[0]);
    if |w| > 2 {
      TailIsWalk(kids, w);
      KidsWalkClimbs(kids, parents, keep, w[1..]);
      ReachesTransitive(UpGraph(parents), w[|w| - 1], w[1], w[0]);
    }
  }

  lemma {:induction false} KidsAreAcyclic(kids: Graph, parents: map<string, string>, keep: set<string>)
    requires forall c, k :: Edge(kids, c, k) ==> NearestKept(parents, keep, k, c)
    requires Acyclic(UpGraph(parents))
    ensures Acyclic(kids)
  {
    hide NearestKept;
    forall a
      ensures !OnCycle(kids, a)
    {
      assert !OnCycle(UpGraph(parents), a);
      if OnCycle(kids, a) {
        var w :| IsWalkFromTo(kids, w, a, a) && |w| >= 2;
        KidsWalkClimbs(kids, parents, keep, w);
      }
    }
  }

  // The tree states containment and blocking exactly as the export does.
  ghost predicate TreeOf(t: Tree, ex: Export) {
    && t.rootID == ex.rootID
    && HoldsStrands(t.nodes, ex.strands)
    && (forall c, k :: Edge(t.kids, c, k) <==>
          k in t.nodes && k != t.rootID && NearestKept(ParentMap(ex.parentOf), t.nodes.Keys, k, c))
    && (forall k, b :: Edge(t.blockers, k, b) <==>
          Link(k, b) in ex.dependsOn && k != b && k in t.nodes && b in t.nodes)
    && InBoardOrder(t.nodes, t.kids)
    && InBoardOrder(t.nodes, t.blockers)
  }

  // What the filters show of an export: the strands they name and, with `open`, of these the root
  // and what has active kept strands near enough below.
  ghost predicate Shows(ex: Export, f: Filters, s: Strand) {
    && Kept(s, ex.rootID, f)
    && (f.open ==> s.id == ex.rootID || LiveBelow(KeptStrands(ex.strands, ex.rootID, f), ParentMap(ex.parentOf), s.id))
  }

  /** build: containment below the root is a forest in board order over exactly the shown strands. */
  method Build(ex: Export, f: Filters) returns (t: Tree)
    requires GoodExport(ex)
    ensures GoodTree(t) && TreeOf(t, ex)
    ensures forall i :: 0 <= i < |ex.strands| ==> (ex.strands[i].id in t.nodes <==> Shows(ex, f, ex.strands[i]))
  {
    hide GoodExport, GoodStrands, KidsSoFar, BlockersSoFar, SortLists, GoodTree, TreeOf, ParentMap, Acyclic, Kept, LiveBelow,
      KeptStrands;
    GoodExportIsAcyclic(ex);
    var keep := KeepStrands(ex.strands, ex.rootID, f);
    var parents := ParentMap(ex.parentOf);
    if f.open {
      keep := PruneClosed(keep, parents, ex.rootID);
    }
    var kids := PlaceKids(keep, parents, ex.rootID);
    var blockers := PlaceBlockers(keep, ex.dependsOn);
    t := Tree(ex.rootID, keep, SortLists(keep, kids), SortLists(keep, blockers));
    BuiltTreeIsGood(ex, keep, kids, blockers);
  }

  lemma {:induction false} BuiltTreeIsGood(
    ex: Export, keep: map<string, Strand>, kids: map<string, seq<string>>, blockers: map<string, seq<string>>)
    requires GoodExport(ex) && HoldsStrands(keep, ex.strands) && ex.rootID in keep && "" !in keep
    requires KidsSoFar(kids, ParentMap(ex.parentOf), keep.Keys, ex.rootID, keep.Keys)
    requires BlockersSoFar(blockers, ex.dependsOn, keep.Keys)
    ensures GoodTree(Tree(ex.rootID, keep, SortLists(keep, kids), SortLists(keep, blockers)))
    ensures TreeOf(Tree(ex.rootID, keep, SortLists(keep, kids), SortLists(keep, blockers)), ex)
  {
    hide NearestKept, SortLists, InBoardOrder, Acyclic, GoodExport, HoldsStrands;
    SortListsKeeps(keep, kids);
    SortListsKeeps(keep, blockers);
    GoodExportIsAcyclic(ex);
    KidsAreAcyclic(SortLists(keep, kids), ParentMap(ex.parentOf), keep.Keys);
    forall c, d, k | Edge(SortLists(keep, kids), c, k) && Edge(SortLists(keep, kids), d, k)
      ensures c == d
    {
      NearestKeptIsUnique(ParentMap(ex.parentOf), keep.Keys, k, c, d);
    }
  }

  lemma {:induction false} GoodExportIsAcyclic(ex: Export)
    requires GoodExport(ex)
    ensures Acyclic(UpGraph(ParentMap(ex.parentOf)))
    ensures "" !in ParentMap(ex.parentOf) && "" !in ParentMap(ex.parentOf).Values
    ensures forall i, j :: 0 <= i < j < |ex.dependsOn| ==> ex.dependsOn[i] != ex.dependsOn[j]
    ensures GoodStrands(ex.strands) && ex.rootID in Ids(ex.strands)
  {
    GoodLinksHaveEnds(ex.parentOf, Ids(ex.strands));
    NoBlankParents(ex.parentOf);
    forall i, j | 0 <= i < j < |ex.dependsOn|
      ensures ex.dependsOn[i] != ex.dependsOn[j]
    {
      assert LinkKey(ex.dependsOn[i]) != LinkKey(ex.dependsOn[j]);
    }
  }
}
