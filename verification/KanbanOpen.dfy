/** What the open filter keeps of the closed strands (tools/kanban-tree/tree.go, pruneClosed). It is
    documented to keep a closed strand with work below it; the climb starts only from kept strands,
    and stops after as many steps as there are of them. */
module KanbanOpen {
  import opened Graphs
  import opened Keys
  import opened Ordering
  import opened KanbanExport
  import opened KanbanTree

  // A way up from an active strand of the export, kept or not.
  ghost predicate WayUp(ex: Export, w: int, p: seq<string>, id: string) {
    && 0 <= w < |ex.strands| && ex.strands[w].state == Active && |p| >= 2
    && IsWalkFromTo(UpGraph(ParentMap(ex.parentOf)), p, ex.strands[w].id, id)
  }

  ghost predicate WorkBelow(ex: Export, id: string) {
    exists w, p :: WayUp(ex, w, p, id)
  }

  // That strand is kept, and there are at most as many steps as kept strands.
  ghost predicate Saves(ex: Export, f: Filters, w: int, p: seq<string>, id: string) {
    && WayUp(ex, w, p, id) && Kept(ex.strands[w], ex.rootID, f)
    && |p| - 1 <= |KeptStrands(ex.strands, ex.rootID, f)|
  }

  // A strand the open filter has to decide about.
  ghost predicate Closable(ex: Export, f: Filters, i: int) {
    && GoodExport(ex) && f.open && 0 <= i < |ex.strands|
    && Kept(ex.strands[i], ex.rootID, f) && ex.strands[i].state != Active && ex.strands[i].id != ex.rootID
  }

  /** In every export a closed strand stays exactly when some active strand below it is itself kept
      and the way up from there has no more steps than there are kept strands. */
  lemma {:induction false} ClosedStaysIff(ex: Export, f: Filters, i: int)
    requires Closable(ex, f, i)
    ensures Shows(ex, f, ex.strands[i]) <==> exists w, p :: Saves(ex, f, w, p, ex.strands[i].id)
    ensures Shows(ex, f, ex.strands[i]) ==> WorkBelow(ex, ex.strands[i].id)
  {
    var keep, parents, id := KeptStrands(ex.strands, ex.rootID, f), ParentMap(ex.parentOf), ex.strands[i].id;
    hide KeptStrands, ParentMap, GoodExport, Kept, GoodStrand, Acyclic, IsWalk;
    GoodExportIsAcyclic(ex);
    KeptStrandsHold(ex.strands, ex.rootID, f);
    if LiveBelow(keep, parents, id) {
      var a :| a in keep && keep[a].state == Active && WithinHops(parents, a, |keep|, id);
      var p :| IsWalkFromTo(UpGraph(parents), p, a, id) && |p| <= |keep| + 1;
      var w :| 0 <= w < |ex.strands| && ex.strands[w].id == a;
      assert a != id;
      NotAlone(UpGraph(parents), p, a, id);
      assert Saves(ex, f, w, p, id);
    }
    if w, p :| Saves(ex, f, w, p, id) {
      assert WithinHops(parents, ex.strands[w].id, |keep|, id);
    }
  }

  lemma {:induction false} NotAlone(g: Graph, p: seq<string>, a: string, b: string)
    requires IsWalkFromTo(g, p, a, b) && a != b
    ensures |p| >= 2
  {
  }

  // The documented promise, for one strand.
  ghost predicate StaysForWork(ex: Export, f: Filters, i: int)
    requires 0 <= i < |ex.strands|
  {
    WorkBelow(ex, ex.strands[i].id) ==> Shows(ex, f, ex.strands[i])
  }

  ghost predicate KeepsPromise(f: Filters) {
    forall ex, i :: Closable(ex, f, i) ==> StaysForWork(ex, f, i)
  }

  // A climb that stays among the kept strands is never cut short.
  lemma {:induction false} KeptPathStays(keep: map<string, Strand>, parents: map<string, string>, p: seq<string>)
    requires Acyclic(UpGraph(parents)) && IsWalk(UpGraph(parents), p) && forall i :: 0 <= i < |p| ==> p[i] in keep
    requires keep[p[0]].state == Active
    ensures |p| <= |keep| && LiveBelow(keep, parents, p[|p| - 1])
  {
    AcyclicWalkIsDistinct(UpGraph(parents), p);
    DistinctWithin(p, keep.Keys);
    assert IsWalkFromTo(UpGraph(parents), p, p[0], p[|p| - 1]);
  }

  // The nodes of a way up are strands of the export.
  lemma {:induction false} WayIsExported(ex: Export, w: int, p: seq<string>, id: string, k: nat) returns (j: nat)
    requires GoodExport(ex) && WayUp(ex, w, p, id) && k < |p|
    ensures j < |ex.strands| && ex.strands[j].id == p[k]
  {
    var parents := ParentMap(ex.parentOf);
    ParentMapHolds(ex.parentOf);
    hide ParentMap, Acyclic, GoodAttributes, GoodStrands, OneParentEach, LinkKey;
    if k == 0 {
      j := w;
    } else {
      OneStepUp(parents, p, k - 1);
      var e := Link(p[k], p[k - 1]);
      assert e in ex.parentOf;
      var l :| 0 <= l < |ex.parentOf| && ex.parentOf[l] == e;
      assert GoodLink(ex.parentOf[l], Ids(ex.strands));
      j :| 0 <= j < |ex.strands| && ex.strands[j].id == p[k];
    }
  }

  // When all strands are kept, so is every closed one with work below it.
  lemma {:induction false} AllKeepsPromise(ex: Export, f: Filters, i: int)
    requires Closable(ex, f, i) && f.all
    ensures StaysForWork(ex, f, i)
  {
    var keep, parents, id := KeptStrands(ex.strands, ex.rootID, f), ParentMap(ex.parentOf), ex.strands[i].id;
    KeptStrandsHold(ex.strands, ex.rootID, f);
    hide KeptStrands, ParentMap, LiveBelow, Kept, Acyclic, GoodStrand, GoodAttributes;
    if WorkBelow(ex, id) {
      var w, p :| WayUp(ex, w, p, id);
      forall k | 0 <= k < |p|
        ensures p[k] in keep
      {
        var j := WayIsExported(ex, w, p, id, k);
      }
      GoodExportIsAcyclic(ex);
      assert keep[ex.strands[w].id] == ex.strands[w];
      KeptPathStays(keep, parents, p);
    }
  }

  // ------------------------------------------------------------ chains of strands

  // Every name is the parent of the next.
  function Chain(names: seq<string>): seq<Link>
    requires names != []
  {
    seq(|names| - 1, i requires 0 <= i < |names| - 1 => Link(names[i], names[i + 1]))
  }

  ghost predicate GoodNames(names: seq<string>) {
    names != [] && Distinct(names) && forall i :: 0 <= i < |names| ==> names[i] != "" && NUL !in names[i]
  }

  lemma {:induction false} ChainLinks(names: seq<string>, ids: set<string>)
    requires GoodNames(names) && forall n :: n in names ==> n in ids
    ensures GoodLinks(Chain(names), ids) && OneParentEach(Chain(names))
  {
    var links := Chain(names);
    forall i, j | 0 <= i < j < |links|
      ensures LinkKey(links[i]) != LinkKey(links[j]) && links[i].to != links[j].to
    {
      assert names[i] != names[j] && names[i + 1] != names[j + 1];
      if LinkKey(links[i]) == LinkKey(links[j]) {
        NulFreeKeysAreLinks(links[i], links[j]);
      }
    }
    forall i | 0 <= i < |links|
      ensures GoodLink(links[i], ids)
    {
      assert names[i] != names[i + 1] && names[i] in names && names[i + 1] in names;
    }
  }

  lemma {:induction false} ChainParent(names: seq<string>, i: nat)
    requires GoodNames(names) && 1 <= i < |names|
    ensures names[i] in ParentMap(Chain(names)) && ParentMap(Chain(names))[names[i]] == names[i - 1]
  {
    hide ParentMap, GoodLinks, OneParentEach, Distinct;
    var links := Chain(names);
    ChainLinks(names, set n | n in names);
    ParentMapHolds(links);
    var e := links[i - 1];
    assert e in links && e == Link(names[i - 1], names[i]);
  }

  lemma {:induction false} ChildInChain(names: seq<string>, c: string) returns (i: nat)
    requires GoodNames(names) && c in ParentMap(Chain(names))
    ensures 1 <= i < |names| && c == names[i] && ParentMap(Chain(names))[c] == names[i - 1]
  {
    ParentMapHolds(Chain(names));
    hide ParentMap;
    var k :| 0 <= k < |names| - 1 && Chain(names)[k] == Link(ParentMap(Chain(names))[c], c);
    i := k + 1;
  }

  function RankOf(names: seq<string>): map<string, nat> {
    if names == [] then map[] else RankOf(names[..|names| - 1])[names[|names| - 1] := |names| - 1]
  }

  lemma {:induction false} Ranks(names: seq<string>)
    requires Distinct(names)
    ensures forall i :: 0 <= i < |names| ==> names[i] in RankOf(names) && RankOf(names)[names[i]] == i
  {
    if names != [] {
      Ranks(names[..|names| - 1]);
    }
  }

  lemma {:induction false} ChainIsAcyclic(names: seq<string>)
    requires GoodNames(names)
    ensures Acyclic(UpGraph(ParentMap(Chain(names))))
  {
    Ranks(names);
    hide ParentMap, RankOf, Chain, Distinct;
    forall c | c in ParentMap(Chain(names))
      ensures c in RankOf(names) && ParentMap(Chain(names))[c] in RankOf(names)
      ensures RankOf(names)[ParentMap(Chain(names))[c]] < RankOf(names)[c]
    {
      var i := ChildInChain(names, c);
    }
    RankedGraphIsAcyclic(UpGraph(ParentMap(Chain(names))), RankOf(names));
  }

  // The way up from one name to an earlier one.
  lemma {:induction false} ChainWay(names: seq<string>, from: nat, to: nat) returns (p: seq<string>)
    requires GoodNames(names) && to <= from < |names|
    ensures IsWalkFromTo(UpGraph(ParentMap(Chain(names))), p, names[from], names[to]) && |p| == from - to + 1
  {
    hide ParentMap, Chain, Distinct;
    p := seq(from - to + 1, i requires 0 <= i < from - to + 1 => names[from - i]);
    forall i | 0 <= i < |p| - 1
      ensures StepAt(UpGraph(ParentMap(Chain(names))), p, i)
    {
      ChainParent(names, from - i);
    }
  }

  // The strands hang one under the other, below the root.
  function ChainOf(strands: seq<Strand>): Export
    requires strands != []
  {
    Export(strands[0].id, strands, Chain(NamesOf(strands)), [])
  }

  function NamesOf(strands: seq<Strand>): seq<string> {
    seq(|strands|, i requires 0 <= i < |strands| => strands[i].id)
  }

  ghost predicate GoodChain(strands: seq<Strand>) {
    && strands != [] && GoodNames(NamesOf(strands))
    && forall i :: 0 <= i < |strands| ==> GoodStrand(strands[i]) && GoodAttributes(strands[i])
  }

  lemma {:induction false} ChainIsGood(strands: seq<Strand>)
    requires GoodChain(strands)
    ensures GoodExport(ChainOf(strands))
  {
    var names := NamesOf(strands);
    ChainIsAcyclic(names);
    forall n | n in names
      ensures n in Ids(strands)
    {
      var i :| 0 <= i < |names| && names[i] == n;
      assert strands[i].id == n;
    }
    ChainLinks(names, Ids(strands));
    assert strands[0].id == names[0] && names[0] in names;
    forall i, j | 0 <= i < j < |strands|
      ensures strands[i].id != strands[j].id
    {
      assert names[i] != names[j];
    }
    hide ParentMap, GoodLinks, OneParentEach, Acyclic, Chain, GoodStrand, GoodAttributes;
  }

  // The only way up to the second strand from a later one takes a step per strand between.
  lemma {:induction false} WayLength(names: seq<string>, w: nat, p: seq<string>)
    requires GoodNames(names) && w < |names| && |names| > 1 && |p| >= 2
    requires IsWalkFromTo(UpGraph(ParentMap(Chain(names))), p, names[w], names[1])
    ensures w > 1 && |p| == w
  {
    var parents := ParentMap(Chain(names));
    ChainIsAcyclic(names);
    hide ParentMap, Chain;
    OneStepUp(parents, p, 0);
    var i := ChildInChain(names, names[w]);
    assert i == w;
    var q := ChainWay(names, w, 1);
    NoShorterWay(parents, p, q);
    NoShorterWay(parents, q, p);
  }

  lemma {:induction false} NoShorterWay(parents: map<string, string>, p: seq<string>, q: seq<string>)
    requires Acyclic(UpGraph(parents)) && IsWalk(UpGraph(parents), p) && IsWalkFromTo(UpGraph(parents), q, p[0], p[|p| - 1])
    ensures |p| <= |q|
  {
    AcyclicWalkIsDistinct(UpGraph(parents), p);
    if |q| < |p| {
      WalksUpAgree(parents, p, q, |q| - 1);
      assert false;
    }
  }

  // The second strand of a chain is dropped when no later one saves it.
  lemma {:induction false} ChainDrops(strands: seq<Strand>, f: Filters, w: nat) returns (p: seq<string>)
    requires GoodChain(strands) && |strands| > 1 && Closable(ChainOf(strands), f, 1)
    requires 1 < w < |strands| && strands[w].state == Active
    requires forall v :: 1 < v < |strands| && strands[v].state == Active && Kept(strands[v], strands[0].id, f) ==>
               v > |KeptStrands(strands, strands[0].id, f)| + 1
    ensures WayUp(ChainOf(strands), w, p, strands[1].id) && |p| == w
    ensures !StaysForWork(ChainOf(strands), f, 1)
  {
    var ex, names := ChainOf(strands), NamesOf(strands);
    hide Closable, GoodStrand, GoodAttributes, KeptStrands, ParentMap, Chain, Kept, Shows, GoodNames;
    p := ChainWay(names, w, 1);
    assert WayUp(ex, w, p, strands[1].id);
    ClosedStaysIff(ex, f, 1);
    if v, q :| Saves(ex, f, v, q, strands[1].id) {
      WayLength(names, v, q);
      assert false;
    }
  }

  // ------------------------------------------------------------ two examples

  function CardOf(id: string, state: State): Strand {
    Strand(id, "t", state, "now", map["kanban/card" := Flag(true)])
  }

  function TaskOf(id: string): Strand {
    Strand(id, "t", Active, "now", map["kanban/task" := Flag(true)])
  }

  function StepOf(id: string): Strand {
    Strand(id, "t", Active, "now", map[])
  }

  // A closed card with three strands under it that are no board objects, and an active card below.
  function DeepCard(): seq<Strand> {
    [CardOf("r", Active), CardOf("c", Closed), StepOf("z"), StepOf("y"), StepOf("x"), CardOf("a", Active)]
  }

  // A closed card with an active task right under it.
  function TaskedCard(): seq<Strand> {
    [CardOf("r", Active), CardOf("c", Closed), TaskOf("a")]
  }

  ghost predicate Refutes(ex: Export, f: Filters, i: int) {
    Closable(ex, f, i) && !StaysForWork(ex, f, i)
  }

  lemma {:induction false} DeepCardIsGood()
    ensures GoodChain(DeepCard()) && |DeepCard()| == 6
  {
    var names := NamesOf(DeepCard());
    assert names == ["r", "c", "z", "y", "x", "a"];
    forall i, j | 0 <= i < j < 6
      ensures names[i] != names[j]
    {
      assert names[i][0] != names[j][0];
    }
    KeysDiffer();
  }

  lemma {:induction false} TaskedCardIsGood()
    ensures GoodChain(TaskedCard()) && |TaskedCard()| == 3
  {
    var names := NamesOf(TaskedCard());
    assert names == ["r", "c", "a"];
    forall i, j | 0 <= i < j < 3
      ensures names[i] != names[j]
    {
      assert names[i][0] != names[j][0];
    }
    KeysDiffer();
  }

  lemma {:induction false} KeysDiffer()
    ensures forall key :: key in ["kanban/card", "kanban/task"] ==>
              key != "kanban/lane" && key != "kanban/outcome" && key != "kanban/priority"
    ensures "kanban/card" != "kanban/task"
  {
    assert "kanban/card"[7] == 'c' && "kanban/task"[7] == 't';
    assert "kanban/lane"[7] == 'l' && "kanban/outcome"[7] == 'o' && "kanban/priority"[7] == 'p';
  }

  // How many strands of a chain are kept, when only the listed positions are.
  lemma {:induction false} KeptCount(strands: seq<Strand>, f: Filters, some: set<int>)
    requires GoodChain(strands) && forall i :: i in some ==> 0 <= i < |strands|
    requires forall i :: 0 <= i < |strands| ==> (Kept(strands[i], strands[0].id, f) <==> i in some)
    ensures |KeptStrands(strands, strands[0].id, f)| <= |some|
  {
    var keep := KeptStrands(strands, strands[0].id, f);
    forall i, j | 0 <= i < j < |strands|
      ensures strands[i].id != strands[j].id
    {
      assert NamesOf(strands)[i] != NamesOf(strands)[j];
    }
    KeptStrandsHold(strands, strands[0].id, f);
    hide KeptStrands, Kept;
    NoMoreIds(strands, some, keep.Keys);
  }

  lemma {:induction false} NoMoreIds(strands: seq<Strand>, some: set<int>, ids: set<string>)
    requires forall i :: i in some ==> 0 <= i < |strands|
    requires forall d :: d in ids ==> exists i :: i in some && strands[i].id == d
    ensures |ids| <= |some|
    decreases some
  {
    if i :| i in some {
      var d := strands[i].id;
      NoMoreIds(strands, some - {i}, ids - {d});
      assert |ids| <= |ids - {d}| + 1;
    } else {
      assert ids == {};
    }
  }

  lemma {:induction false} SecondIsClosable(strands: seq<Strand>, f: Filters)
    requires GoodChain(strands) && |strands| > 1 && f.open && strands[1].state != Active && strands[1].Card()
    ensures Closable(ChainOf(strands), f, 1)
  {
    ChainIsGood(strands);
    assert NamesOf(strands)[0] != NamesOf(strands)[1];
    hide GoodExport, Chain;
  }

  /** Steps through strands that are not kept count: here an active card that is kept does not save
      the closed one above it, under any filters but `all`. */
  lemma {:induction false} LongWayIsCut(f: Filters) returns (ex: Export, w: nat, p: seq<string>)
    requires f.open && !f.all
    ensures Refutes(ex, f, 1) && WayUp(ex, w, p, ex.strands[1].id) && Kept(ex.strands[w], ex.rootID, f)
  {
    hide Kept, DeepCard, Closable, GoodChain, KeptStrands, StaysForWork, Chain, NamesOf;
    var strands, cards := DeepCard(), {0, 1, 5};
    DeepCardIsGood();
    ex, w := ChainOf(strands), 5;
    forall i | 0 <= i < 6
      ensures Kept(strands[i], strands[0].id, f) <==> i in cards
      ensures if i == 1 then strands[i].state != Active && strands[i].Card() else strands[i].state == Active
    {
      DeepFacts(f, i);
    }
    SecondIsClosable(strands, f);
    KeptCount(strands, f, cards);
    p := ChainDrops(strands, f, 5);
  }

  lemma {:induction false} DeepFacts(f: Filters, i: nat)
    requires !f.all && i < 6
    ensures Kept(DeepCard()[i], DeepCard()[0].id, f) <==> i in {0, 1, 5}
    ensures if i == 1 then DeepCard()[i].state != Active && DeepCard()[i].Card() else DeepCard()[i].state == Active
  {
    assert i > 0 ==> DeepCard()[i].id[0] != DeepCard()[0].id[0];
  }

  /** An active strand that is not kept saves nobody: here an active task one step below does not
      save its closed card when tasks are not shown. */
  lemma {:induction false} UnkeptWorkSavesNobody(f: Filters) returns (ex: Export, w: nat, p: seq<string>)
    requires f.open && !f.all && !f.tasks
    ensures Refutes(ex, f, 1) && WayUp(ex, w, p, ex.strands[1].id) && |p| == 2
    ensures !Kept(ex.strands[w], ex.rootID, f) && Kanban(ex.strands[w])
  {
    var strands := TaskedCard();
    ex, w := ChainOf(strands), 2;
    TaskedCardIsGood();
    SecondIsClosable(strands, f);
    KeysDiffer();
    assert strands[2].id[0] != strands[0].id[0];
    hide Closable, GoodChain, KeptStrands, StaysForWork, Chain, NamesOf;
    p := ChainDrops(strands, f, 2);
  }

  /** So the filters keep the documented promise in every export exactly when they keep every
      strand. */
  lemma {:induction false} PromiseKeptIff(f: Filters)
    requires f.open
    ensures KeepsPromise(f) <==> f.all
  {
    hide GoodExport, Kept, WorkBelow, Shows;
    if f.all {
      forall ex, i | Closable(ex, f, i)
        ensures StaysForWork(ex, f, i)
      {
        AllKeepsPromise(ex, f, i);
      }
    } else {
      var ex, w, p := LongWayIsCut(f);
    }
  }
}
