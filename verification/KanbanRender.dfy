/** The renderer: a mutually recursive walk with a worklist of deferred sections
    (tools/kanban-tree/render.go, render, children, childItems, branch, queue, node, footer). */
module KanbanRender {
  import opened Ordering
  import opened KanbanExport
  import opened KanbanTree
  import opened KanbanScope
  import opened KanbanLayout
  import opened KanbanDraw
  import opened KanbanPage

  datatype Theme = Theme(
    pipePrefix: string, blankPrefix: string,
    teeContain: string, endContain: string, teeDepends: string, endDepends: string)

  function Connector(theme: Theme, kind: Kind, last: bool): string {
    if kind == Contain then (if last then theme.endContain else theme.teeContain)
    else (if last then theme.endDepends else theme.teeDepends)
  }

  function Below(theme: Theme, prefix: string, last: bool): string {
    prefix + if last then theme.blankPrefix else theme.pipePrefix
  }

  predicate HasLead(l: Line) {
    l.NodeLine? || l.StubLine? || l.CycleLine?
  }

  predicate Names(l: Line, it: Item, lead: string) {
    HasLead(l) && l.lead == lead && l.id == it.id
  }

  // Every line from here on sits under this prefix.
  ghost predicate Indented(out: seq<Line>, from: nat, prefix: string) {
    forall i :: from <= i < |out| ==> HasLead(out[i]) && prefix <= out[i].lead
  }

  // The line of an item, then only lines nested under it.
  ghost predicate Nested(out: seq<Line>, from: nat, it: Item, lead: string, below: string) {
    from < |out| && Names(out[from], it, lead) && Indented(out, from + 1, below)
  }

  predicate DrawsArrow(l: Line) {
    l.StubLine? || ((l.NodeLine? || l.CycleLine?) && l.kind != Contain)
  }

  // The key explains exactly the marks that were used.
  ghost predicate Marks(out: seq<Line>, usedDeps: bool, usedStub: bool) {
    && (usedDeps <==> exists l :: l in out && DrawsArrow(l))
    && (usedStub <==> exists l :: l in out && l.StubLine?)
  }

  lemma {:induction false} MarksGrow(out: seq<Line>, usedDeps: bool, usedStub: bool, l: Line)
    requires Marks(out, usedDeps, usedStub)
    ensures Marks(out + [l], usedDeps || DrawsArrow(l), usedStub || l.StubLine?)
  {
    assert l in out + [l];
  }

  // ------------------------------------------------------------ the tally

  // Most frequent first, the name breaking ties.
  predicate MoreFrequent(a: Count, b: Count) {
    if a.n != b.n then a.n > b.n else Less(a.status, b.status)
  }

  lemma {:induction false} MoreFrequentIsStrictWeak()
    ensures StrictWeakOrder((a, b) => MoreFrequent(a, b))
  {
    forall a, b | MoreFrequent(a, b)
      ensures !MoreFrequent(b, a)
    {
      if a.n == b.n && Less(b.status, a.status) {
        LessTransitive(a.status, b.status, a.status);
        LessIrreflexive(a.status);
      }
    }
    forall a, b, c | !MoreFrequent(a, b) && !MoreFrequent(b, c)
      ensures !MoreFrequent(a, c)
    {
      if a.n == b.n == c.n {
        NotLessTransitive(a.status, b.status, c.status);
      }
    }
  }

  // The tally lists every status drawn, once, with the number of nodes in it.
  ghost predicate TallyOf(t: Tree, nodes: set<string>, tally: seq<Count>) {
    && Distinct(tally)
    && (forall c :: c in tally <==> c.n > 0 && c.n == |WithStatus(t, nodes, c.status)|)
    && SortedBy((a, b) => MoreFrequent(a, b), tally)
  }

  lemma {:induction false} SplitStatus(t: Tree, drawn: set<string>, seen: set<string>, s: string)
    requires s !in seen
    ensures |WithStatuses(t, drawn, seen + {s})| == |WithStatuses(t, drawn, seen)| + |WithStatus(t, drawn, s)|
  {
    hide StatusOf;
    assert WithStatuses(t, drawn, seen + {s}) == WithStatuses(t, drawn, seen) + WithStatus(t, drawn, s);
  }

  ghost function WithStatuses(t: Tree, drawn: set<string>, statuses: set<string>): set<string> {
    set n | n in drawn && n in t.nodes && StatusOf(t, n) in statuses
  }

  lemma {:induction false} AllStatuses(t: Tree, drawn: set<string>, statuses: map<string, nat>)
    requires Tallied(t, statuses, drawn) && drawn <= t.nodes.Keys
    ensures WithStatuses(t, drawn, statuses.Keys) == drawn
  {
    hide StatusOf;
  }

  // Adds the counts up and sorts them.
  method CountUp(t: Tree, statuses: map<string, nat>, ghost drawn: set<string>)
    returns (total: nat, tally: seq<Count>)
    requires Tallied(t, statuses, drawn) && drawn <= t.nodes.Keys
    ensures total == |drawn| && TallyOf(t, drawn, tally)
  {
    hide Tallied, WithStatus, SortedBy, StrictWeakOrder, StatusOf, SortBy, WithStatuses;
    total := 0;
    var kinds: seq<Count> := [];
    var rest := statuses.Keys;
    NoStatuses(t, drawn);
    assert statuses.Keys - rest == {};
    while rest != {}
      invariant rest <= statuses.Keys
      invariant total == |WithStatuses(t, drawn, statuses.Keys - rest)|
      invariant CountsOf(statuses, statuses.Keys - rest, kinds)
      decreases rest
    {
      var s :| s in rest;
      ghost var seen := statuses.Keys - rest;
      SplitStatus(t, drawn, seen, s);
      TalliedStatus(t, statuses, drawn, s);
      CountsGrow(statuses, seen, kinds, s);
      total := total + statuses[s];
      kinds := kinds + [Count(s, statuses[s])];
      rest := rest - {s};
      assert statuses.Keys - rest == seen + {s};
    }
    assert statuses.Keys - rest == statuses.Keys;
    AllStatuses(t, drawn, statuses);
    tally := SortBy((a, b) => MoreFrequent(a, b), kinds);
    TallyIsRight(t, statuses, drawn, kinds);
  }

  lemma {:induction false} NoStatuses(t: Tree, drawn: set<string>)
    ensures WithStatuses(t, drawn, {}) == {}
  {
  }

  ghost predicate CountsOf(statuses: map<string, nat>, seen: set<string>, kinds: seq<Count>) {
    && Distinct(kinds)
    && forall c :: c in kinds <==> c.status in seen && c.status in statuses && c.n == statuses[c.status]
  }

  lemma {:induction false} CountsGrow(statuses: map<string, nat>, seen: set<string>, kinds: seq<Count>, s: string)
    requires CountsOf(statuses, seen, kinds) && s in statuses && s !in seen
    ensures CountsOf(statuses, seen + {s}, kinds + [Count(s, statuses[s])])
  {
    assert Count(s, statuses[s]) !in kinds;
  }

  lemma {:induction false} TalliedStatus(t: Tree, statuses: map<string, nat>, drawn: set<string>, s: string)
    requires Tallied(t, statuses, drawn)
    ensures s in statuses ==> statuses[s] == |WithStatus(t, drawn, s)| > 0
    ensures s !in statuses ==> |WithStatus(t, drawn, s)| == 0
  {
    hide StatusOf;
    if s !in statuses {
      assert WithStatus(t, drawn, s) == {};
    }
  }

  lemma {:induction false} TallyIsRight(t: Tree, statuses: map<string, nat>, drawn: set<string>, kinds: seq<Count>)
    requires Tallied(t, statuses, drawn) && CountsOf(statuses, statuses.Keys, kinds)
    ensures TallyOf(t, drawn, SortBy((a, b) => MoreFrequent(a, b), kinds))
  {
    hide Tallied, WithStatus, SortedBy, StrictWeakOrder, Distinct, SortBy;
    var less := (a, b) => MoreFrequent(a, b);
    MoreFrequentIsStrictWeak();
    SortByIsSorted(less, kinds);
    SortByKeepsElements(less, kinds);
    SameMultisetFacts(kinds, SortBy(less, kinds));
    forall c: Count
      ensures c in SortBy(less, kinds) <==> c.n > 0 && c.n == |WithStatus(t, drawn, c.status)|
    {
      TalliedStatus(t, statuses, drawn, c.status);
      assert c in SortBy(less, kinds) <==> c in kinds;
    }
  }

  // ------------------------------------------------------------ steps of the walk

  lemma {:induction false} NothingIndented(out: seq<Line>, prefix: string)
    ensures Indented(out, |out|, prefix)
  {
  }

  lemma {:induction false} FewerLeft(t: Tree, before: set<string>, after: set<string>)
    requires before <= after
    ensures |TreeIds(t) - after| <= |TreeIds(t) - before|
  {
    hide TreeIds;
    assert TreeIds(t) - before == (TreeIds(t) - after) + ((TreeIds(t) - before) - (TreeIds(t) - after));
  }

  lemma {:induction false} BranchGrew(t: Tree, p: Page, q: Page, it: Item)
    requires BranchDone(t, p, q, it)
    ensures p.out <= q.out && p.drawn <= q.drawn
  {
  }

  lemma {:induction false} NestedIsIndented(
    theme: Theme, from: nat, before: seq<Line>, after: seq<Line>, it: Item, prefix: string, last: bool)
    requires from <= |before| && before <= after && Indented(before, from, prefix)
    requires Nested(after, |before|, it, prefix + Connector(theme, it.kind, last), Below(theme, prefix, last))
    ensures Indented(after, from, prefix)
  {
    forall i | from <= i < |after|
      ensures HasLead(after[i]) && prefix <= after[i].lead
    {
      if i < |before| {
        assert after[i] == before[i];
      }
    }
  }

  lemma {:induction false} FirstLine(before: seq<Line>, l: Line, it: Item, below: string)
    requires HasLead(l) && l.id == it.id
    ensures Nested(before + [l], |before|, it, l.lead, below)
  {
  }

  lemma {:induction false} IndentedUnderFirst(
    before: seq<Line>, first: seq<Line>, after: seq<Line>, l: Line, it: Item, below: string)
    requires first == before + [l] && first <= after && Indented(after, |first|, below)
    requires HasLead(l) && l.id == it.id
    ensures Nested(after, |before|, it, l.lead, below)
  {
    assert after[|before|] == first[|before|];
  }

  lemma {:induction false} StubDrawn(t: Tree, p: Page, it: Item, lead: string)
    requires GoodPage(t, p) && it.kind == Stub && BranchReady(t, p.drawn, it)
    ensures var s := Section(it.container, it.group);
            var m := WithSection(p, s);
            var q := m.(out := p.out + [StubLine(lead, it.id, s)]);
            GoodPage(t, q) && BranchDone(t, p, q, it)
  {
    var s := Section(it.container, it.group);
    hide GoodPage, SectionOf, BranchDone;
    assert KnownSection(t, s);
    QueueStep(t, p, s);
    var m := WithSection(p, s);
    assert m.out == p.out && m.drawn == p.drawn;
    OtherLine(t, m, StubLine(lead, it.id, s));
    StubDone(t, p, m.(out := p.out + [StubLine(lead, it.id, s)]), it);
  }

  lemma {:induction false} CycleDrawn(t: Tree, p: Page, it: Item, lead: string)
    requires GoodTree(t) && GoodPage(t, p) && it.kind != Stub && BranchReady(t, p.drawn, it) && it.id in p.drawn
    ensures var q := p.(out := p.out + [CycleLine(lead, it.kind, it.id, it.container)]);
            GoodPage(t, q) && BranchDone(t, p, q, it)
  {
    hide GoodPage, BranchReady, BranchDone, GoodTree, LineIsTrue;
    ArrivalMeansCycle(t, p, it, lead);
    OtherLine(t, p, CycleLine(lead, it.kind, it.id, it.container));
    CycleDone(t, p, p.(out := p.out + [CycleLine(lead, it.kind, it.id, it.container)]), it);
  }

  lemma {:induction false} DescendFacts(t: Tree, p: Page, it: Item, lead: string)
    requires GoodTree(t) && GoodPage(t, p) && it.kind != Stub && BranchReady(t, p.drawn, it) && it.id !in p.drawn
    ensures it.id in t.nodes
    ensures ChildrenReady(t, p.drawn + {it.id}, it.container, it.id)
    ensures var l := NodeLine(lead, it.kind, it.id, it.container, StatusOf(t, it.id));
            GoodPage(t, WithNode(p, l)) && WithNode(p, l).drawn == p.drawn + {it.id}
    ensures |TreeIds(t) - (p.drawn + {it.id})| < |TreeIds(t) - p.drawn|
  {
    DescendReady(t, p, BlankLine, it);
    hide StatusOf;
    var l := NodeLine(lead, it.kind, it.id, it.container, StatusOf(t, it.id));
    assert it.container != "" && Contains(t, it.container, it.id);
    hide GoodPage, GoodTree, SourceIsDrawn, Contains, ChildrenReady, InTree;
    assert LineIsTrue(t, p.pending, l);
    NodeStep(t, p, l);
    OneLess(TreeIds(t), p.drawn, it.id);
  }

  lemma {:induction false} OneLess(all: set<string>, drawn: set<string>, n: string)
    requires n in all && n !in drawn
    ensures |all - (drawn + {n})| < |all - drawn|
  {
    assert all - drawn == (all - (drawn + {n})) + {n};
  }

  lemma {:induction false} DescendDrawn(t: Tree, p: Page, m: Page, q: Page, it: Item, l: Line)
    requires GoodTree(t) && it.kind != Stub && BranchReady(t, p.drawn, it) && it.id !in p.drawn
    requires l.NodeLine? && l.id == it.id && m == WithNode(p, l)
    requires ChildrenDone(t, m, q, it.container, it.id)
    ensures BranchDone(t, p, q, it) && m.out <= q.out
  {
    hide ChildrenDone, BranchDone, GoodTree;
    assert Grew(p, m);
    DescendDone(t, p, m, q, it);
    ChildrenGrew(t, m, q, it.container, it.id);
  }

  lemma {:induction false} ChildrenGrew(t: Tree, p: Page, q: Page, container: string, id: string)
    requires ChildrenDone(t, p, q, container, id)
    ensures p.out <= q.out && p.drawn <= q.drawn && p.pending <= q.pending
  {
  }

  lemma {:induction false} GroupsInScope(t: Tree, c: string, id: string)
    requires GoodTree(t)
    ensures forall k :: 0 <= k < |ListedGroups(ScopeOf(t, c).sharedBy, id)| ==>
                          ListedGroups(ScopeOf(t, c).sharedBy, id)[k] < |ScopeOf(t, c).shared|
  {
    TreeNodeHasDistinctKids(t, c);
    ScopeIsGood(t, c);
    hide ScopeOf, Within, Reached;
    var sc := ScopeOf(t, c);
    forall k | 0 <= k < |ListedGroups(sc.sharedBy, id)|
      ensures ListedGroups(sc.sharedBy, id)[k] < |sc.shared|
    {
      assert ListedGroups(sc.sharedBy, id)[k] in ListedGroups(sc.sharedBy, id);
      assert InGroup(sc, id, ListedGroups(sc.sharedBy, id)[k]);
    }
  }

  lemma {:induction false} RootFacts(t: Tree)
    requires GoodTree(t)
    ensures t.rootID in t.nodes && ChildrenReady(t, {t.rootID}, "", t.rootID)
    ensures var l := NodeLine("", Contain, t.rootID, "", StatusOf(t, t.rootID));
            GoodPage(t, WithNode(Page([], {}, {}, [], map[]), l))
            && WithNode(Page([], {}, {}, [], map[]), l).drawn == {t.rootID}
  {
    var l := NodeLine("", Contain, t.rootID, "", StatusOf(t, t.rootID));
    EmptyPageIsGood(t);
    RootHangsFromNothing(t);
    assert LineIsTrue(t, [], l);
    hide GoodPage, GoodTree, LineIsTrue;
    NodeStep(t, Page([], {}, {}, [], map[]), l);
    assert {} + {t.rootID} == {t.rootID};
  }

  // The tree above is on the page, and the first k sections after it.
  ghost predicate Walked(t: Tree, p: Page, k: int) {
    && 0 <= k <= |p.pending| && t.rootID in p.drawn
    && Expanded(t, p.drawn, Sections(p), "", t.rootID)
    && AllExpanded(t, p.drawn, p.drawn, Sections(p))
    && SharedBySection(t, p.drawn, p.pending, k)
  }

  lemma {:induction false} RootWalked(t: Tree, p: Page, q: Page)
    requires GoodTree(t) && p.drawn == {t.rootID} && p.pending == []
    requires ChildrenDone(t, p, q, "", t.rootID)
    ensures Walked(t, q, 0)
  {
    RootDone(t, p, q);
    ChildrenGrew(t, p, q, "", t.rootID);
  }

  lemma {:induction false} PendingSection(t: Tree, p: Page, k: int)
    requires GoodPage(t, p) && 0 <= k < |p.pending|
    ensures KnownSection(t, p.pending[k]) && p.pending[k].group < |ScopeOf(t, p.pending[k].container).shared|
  {
    hide ScopeOf, LinesAreTrue, DrawnOnce, Tallied, SourcesDrawn, InTree;
    assert KnownSection(t, p.pending[k]);
  }

  lemma {:induction false} SectionHeaded(t: Tree, p: Page, k: int, blockers: seq<string>)
    requires GoodTree(t) && GoodPage(t, p) && Walked(t, p, k) && k < |p.pending|
    requires p.pending[k].group < |ScopeOf(t, p.pending[k].container).shared|
    ensures GoodPage(t, p.(out := p.out + [BlankLine] + [RuleLine(blockers)]))
    ensures Walked(t, p.(out := p.out + [BlankLine] + [RuleLine(blockers)]), k)
    ensures var id := ScopeOf(t, p.pending[k].container).shared[p.pending[k].group].id;
            && SectionOf(t, p.pending[k], id)
            && BranchReady(t, p.drawn, Item(id, p.pending[k].container, Depends, 0))
  {
    PendingSection(t, p, k);
    var s := p.pending[k];
    var id := ScopeOf(t, s.container).shared[s.group].id;
    assert SectionOf(t, s, id);
    OtherLine(t, p, BlankLine);
    OtherLine(t, p.(out := p.out + [BlankLine]), RuleLine(blockers));
    hide GoodPage, ScopeOf, Expanded, AllExpanded, SharedBySection, SectionOf, GoodTree;
    SectionReady(t, p, k, id);
  }

  lemma {:induction false} WalkedStep(t: Tree, p: Page, q: Page, k: int, id: string)
    requires GoodTree(t) && Walked(t, p, k) && k < |p.pending|
    requires SectionOf(t, p.pending[k], id)
    requires BranchDone(t, p, q, Item(id, p.pending[k].container, Depends, 0))
    ensures Walked(t, q, k + 1)
  {
    hide SectionOf, GoodTree, Expanded, AllExpanded, DrawnFrom;
    SectionStep(t, p, q, k, id);
    ExpandedGrows(t, p.drawn, Sections(p), q.drawn, Sections(q), "", t.rootID);
    AllExpandedGrows(t, p.drawn, p.drawn, Sections(p), q.drawn, Sections(q));
    AllExpandedFrom(t, p.drawn, q.drawn, Sections(q));
  }

  lemma {:induction false} AllExpandedFrom(t: Tree, before: set<string>, after: set<string>, sections: set<Section>)
    requires before <= after && AllExpanded(t, before, after, sections) && AllExpanded(t, after - before, after, sections)
    ensures AllExpanded(t, after, after, sections)
  {
    hide Expanded, Contains;
    forall c, n | n in after && Contains(t, c, n)
      ensures Expanded(t, after, sections, c, n)
    {
      assert n in before || n in after - before;
    }
  }

  lemma {:induction false} WalkEnds(t: Tree, p: Page, k: int)
    requires GoodTree(t) && GoodPage(t, p) && Walked(t, p, k) && k >= |p.pending|
    ensures p.drawn == TreeIds(t) && p.statuses != map[]
    ensures Tallied(t, p.statuses, p.drawn) && p.drawn <= t.nodes.Keys
  {
    hide GoodTree, LinesAreTrue, DrawnOnce, Queued, SourcesDrawn, Expanded, AllExpanded, SharedBySection;
    PageIsComplete(t, p);
    assert StatusOf(t, t.rootID) in p.statuses;
  }

  lemma {:induction false} ViewIsFinished(t: Tree, p: Page, total: nat, tally: seq<Count>, deps: bool, stub: bool)
    requires GoodPage(t, p) && p.drawn == TreeIds(t) && Marks(p.out, deps, stub)
    requires total == |p.drawn| && TallyOf(t, p.drawn, tally)
    ensures FinishedView(t, p.out + [BlankLine] + [TotalLine(total, tally)] + [KeyLine(deps, stub)])
  {
    var q := p.(out := p.out + [BlankLine] + [TotalLine(total, tally)] + [KeyLine(deps, stub)]);
    OtherLine(t, p, BlankLine);
    OtherLine(t, p.(out := p.out + [BlankLine]), TotalLine(total, tally));
    OtherLine(t, p.(out := p.out + [BlankLine] + [TotalLine(total, tally)]), KeyLine(deps, stub));
    MarksGrow(p.out, deps, stub, BlankLine);
    MarksGrow(p.out + [BlankLine], deps, stub, TotalLine(total, tally));
    MarksGrow(p.out + [BlankLine] + [TotalLine(total, tally)], deps, stub, KeyLine(deps, stub));
    hide TallyOf, Tallied, Queued, SourcesDrawn, TreeIds, DrawnOnce, Marks, SiblingCycle, Contains;
    forall i | 0 <= i < |q.out| && q.out[i].CycleLine?
      ensures Contains(t, q.out[i].container, q.out[i].id) && SiblingCycle(t, q.out[i].container)
    {
      assert LineIsTrue(t, q.pending, q.out[i]);
    }
  }

  // ------------------------------------------------------------ the renderer

  // What a finished view says about the tree.
  ghost predicate FinishedView(t: Tree, out: seq<Line>) {
    && DrawnOnce(out, TreeIds(t))
    && (forall i :: 0 <= i < |out| && out[i].CycleLine? ==>
          Contains(t, out[i].container, out[i].id) && SiblingCycle(t, out[i].container))
    && |out| >= 3 && out[|out| - 3] == BlankLine
    && out[|out| - 2].TotalLine? && out[|out| - 2].total == |TreeIds(t)| && TallyOf(t, TreeIds(t), out[|out| - 2].tally)
    && out[|out| - 1].KeyLine? && Marks(out, out[|out| - 1].deps, out[|out| - 1].stub)
  }

  class Renderer {
    const model: Model
    const theme: Theme
    var out: seq<Line>
    var drawn: set<string>
    var queued: set<string>
    var pending: seq<Section>
    var statuses: map<string, nat>
    var usedDeps: bool
    var usedStub: bool

    function Now(): Page
      reads this
    {
      Page(out, drawn, queued, pending, statuses)
    }

    ghost predicate Ready()
      reads this, model
    {
      model.Valid() && GoodPage(model.tree, Now()) && Marks(out, usedDeps, usedStub)
    }

    constructor (model: Model, theme: Theme)
      requires model.Valid()
      ensures Ready() && this.model == model && this.theme == theme
      ensures Now() == Page([], {}, {}, [], map[])
    {
      this.model := model;
      this.theme := theme;
      out, drawn, queued, pending, statuses := [], {}, {}, [], map[];
      usedDeps, usedStub := false, false;
      new;
      EmptyPageIsGood(model.tree);
    }

    // Registers a shared node's section once, whichever blocker reaches it first.
    method Queue(container: string, group: nat)
      modifies this`queued, this`pending
      ensures Now() == WithSection(old(Now()), Section(container, group))
    {
      var key := SectionKey(Section(container, group));
      if key in queued {
        return;
      }
      queued := queued + {key};
      pending := pending + [Section(container, group)];
    }

    // Writes a node's full line and counts its status.
    method Node(lead: string, it: Item)
      requires it.id in model.tree.nodes
      modifies this`out, this`statuses
      ensures out == old(out) + [NodeLine(lead, it.kind, it.id, it.container, StatusOf(model.tree, it.id))]
      ensures statuses == Bump(old(statuses), StatusOf(model.tree, it.id))
    {
      var status := ReadStatus(model.tree, it.id);
      statuses := statuses[status := (if status in statuses then statuses[status] else 0) + 1];
      out := out + [NodeLine(lead, it.kind, it.id, it.container, status)];
    }

    // The lines that belong under one node, in draw order.
    method ChildItems(container: string, id: string) returns (items: seq<Item>)
      requires model.Valid()
      modifies model`scopes
      ensures model.Valid() && ItemsUnder(model.tree, container, id, items)
    {
      hide ScopeOf, GoodTree;
      var own := model.Layout(id);
      items := [];
      for i := 0 to |own.tops|
        invariant items == TopItems(own.tops[..i], id)
      {
        items := items + [Item(own.tops[i], id, Contain, 0)];
      }
      assert own.tops[..|own.tops|] == own.tops;
      if container == "" {
        return;
      }
      var sc := model.Layout(container);
      var deps, groups := Listed(sc.deps, id), ListedGroups(sc.sharedBy, id);
      GroupsInScope(model.tree, container, id);
      ghost var tops := items;
      for i := 0 to |deps|
        invariant items == tops + DependItems(deps[..i], container)
      {
        items := items + [Item(deps[i], container, Depends, 0)];
      }
      assert deps[..|deps|] == deps;
      ghost var full := items;
      for i := 0 to |groups|
        invariant items == full + StubItems(sc, groups[..i], container)
      {
        items := items + [Item(sc.shared[groups[i]].id, container, Stub, groups[i])];
      }
      assert groups[..|groups|] == groups;
    }

    // Draws everything hanging under one node.
    method Children(container: string, id: string, prefix: string)
      requires Ready() && ChildrenReady(model.tree, drawn, container, id)
      modifies this, model
      ensures Ready() && ChildrenDone(model.tree, old(Now()), Now(), container, id)
      ensures Indented(out, |old(out)|, prefix)
      decreases |TreeIds(model.tree) - drawn|, 2
    {
      hide GoodPage, Marks, GoodTree, BranchDone, ChildrenDone, ChildrenReady, BranchReady, SoFar, ItemsUnder;
      hide Indented, Nested, TreeIds, StatusOf, Walked, ScopeOf, AllSections, FinishedView, TallyOf, Tallied, Model.Valid;
      ghost var p := Now();
      UseModel();
      var items := ChildItems(container, id);
      SoFarStarts(model.tree, p, items);
      NothingIndented(out, prefix);
      var i := 0;
      while i < |items|
        invariant Ready() && ItemsUnder(model.tree, container, id, items)
        invariant SoFar(model.tree, p, Now(), items, i) && 0 <= i <= |items|
        invariant |p.out| <= |out| && p.drawn <= drawn && Indented(out, |p.out|, prefix)
        decreases |items| - i
      {
        ghost var q := Now();
        UseModel();
        SoFarReady(model.tree, p, q, container, id, items, i);
        FewerLeft(model.tree, p.drawn, q.drawn);
        Branch(items[i], prefix, i == |items| - 1);
        SoFarStep(model.tree, p, q, Now(), items, i);
        BranchGrew(model.tree, q, Now(), items[i]);
        NestedIsIndented(theme, |p.out|, q.out, out, items[i], prefix, i == |items| - 1);
        i := i + 1;
      }
      UseModel();
      SoFarEnds(model.tree, p, Now(), container, id, items);
    }

    lemma {:induction false} UseModel()
      requires Ready()
      ensures model.Valid() && GoodTree(model.tree) && GoodPage(model.tree, Now()) && Marks(out, usedDeps, usedStub)
    {
    }

    // Draws one line and, unless it is a stub or a repeat, whatever hangs beneath it.
    method Branch(it: Item, prefix: string, last: bool)
      requires Ready() && BranchReady(model.tree, drawn, it)
      modifies this, model
      ensures Ready() && BranchDone(model.tree, old(Now()), Now(), it)
      ensures Nested(out, |old(out)|, it, prefix + Connector(theme, it.kind, last), Below(theme, prefix, last))
      decreases |TreeIds(model.tree) - drawn|, 1
    {
      hide GoodPage, Marks, GoodTree, BranchDone, ChildrenDone, ChildrenReady, BranchReady, SoFar, ItemsUnder;
      hide Indented, Nested, TreeIds, StatusOf, Walked, ScopeOf, AllSections, FinishedView, TallyOf, Tallied, Model.Valid;
      ghost var p := Now();
      UseModel();
      usedDeps := usedDeps || it.kind != Contain;
      var lead := prefix + Connector(theme, it.kind, last);
      var childPrefix := Below(theme, prefix, last);
      hide Connector, Below;

      if it.kind == Stub {
        usedStub := true;
        Queue(it.container, it.group);
        var line := StubLine(lead, it.id, Section(it.container, it.group));
        out := out + [line];
        assert Now() == WithSection(p, line.section).(out := p.out + [line]);
        StubDrawn(model.tree, p, it, lead);
        MarksGrow(p.out, old(usedDeps), old(usedStub), line);
        FirstLine(p.out, line, it, childPrefix);
        return;
      }
      if it.id in drawn {
        var line := CycleLine(lead, it.kind, it.id, it.container);
        out := out + [line];
        CycleDrawn(model.tree, p, it, lead);
        MarksGrow(p.out, old(usedDeps), old(usedStub), line);
        FirstLine(p.out, line, it, childPrefix);
        return;
      }
      Full(it, lead, childPrefix, old(usedDeps));
    }

    // The full line of a node met for the first time, and what hangs beneath it.
    method Full(it: Item, lead: string, childPrefix: string, ghost deps: bool)
      requires model.Valid() && GoodPage(model.tree, Now()) && BranchReady(model.tree, drawn, it)
      requires it.kind != Stub && it.id !in drawn
      requires Marks(out, deps, usedStub) && usedDeps == (deps || it.kind != Contain)
      modifies this, model
      ensures Ready() && BranchDone(model.tree, old(Now()), Now(), it)
      ensures Nested(out, |old(out)|, it, lead, childPrefix)
      decreases |TreeIds(model.tree) - drawn|, 0
    {
      hide GoodPage, Marks, GoodTree, BranchDone, ChildrenDone, ChildrenReady, BranchReady;
      hide Indented, Nested, TreeIds, StatusOf, ScopeOf;
      ghost var p := Now();
      DescendFacts(model.tree, p, it, lead);
      drawn := drawn + {it.id};
      Node(lead, it);
      ghost var line := NodeLine(lead, it.kind, it.id, it.container, StatusOf(model.tree, it.id));
      ghost var m := Now();
      assert m == WithNode(p, line);
      MarksGrow(p.out, deps, usedStub, line);
      Children(it.container, it.id, childPrefix);
      DescendDrawn(model.tree, p, m, Now(), it, line);
      IndentedUnderFirst(p.out, m.out, out, line, it, childPrefix);
    }

    /** Draws the whole view: the containment tree of the root, then one section per node that
        several siblings block, then the tally and the key. */
    method Render()
      requires Ready() && Now() == Page([], {}, {}, [], map[])
      modifies this, model
      ensures FinishedView(model.tree, out)
    {
      hide Bump, Connector, Below, WithSection;
      hide GoodPage, Marks, GoodTree, BranchDone, ChildrenDone, ChildrenReady, BranchReady, SoFar, ItemsUnder;
      hide Indented, Nested, TreeIds, StatusOf, Walked, ScopeOf, AllSections, FinishedView, TallyOf, Tallied, Model.Valid;
      UseModel();
      RootFacts(model.tree);
      ghost var line := NodeLine("", Contain, model.tree.rootID, "", StatusOf(model.tree, model.tree.rootID));
      Node("", Item(model.tree.rootID, "", Contain, 0));
      drawn := drawn + {model.tree.rootID};
      ghost var p := Now();
      assert p == WithNode(Page([], {}, {}, [], map[]), line);
      MarksGrow([], old(usedDeps), old(usedStub), line);
      Children("", model.tree.rootID, "");
      UseModel();
      RootWalked(model.tree, p, Now());

      var i := 0;
      while i < |pending|
        invariant Ready() && Walked(model.tree, Now(), i)
        decreases |AllSections(model.tree)| - i
      {
        UseModel();
        PendingSection(model.tree, Now(), i);
        PendingIsBounded(model.tree, Now());
        var sec := pending[i];
        var sc := model.Layout(sec.container);
        var group := sc.shared[sec.group];
        SectionHeaded(model.tree, Now(), i, group.blockers);
        MarksGrow(out, usedDeps, usedStub, BlankLine);
        out := out + [BlankLine];
        MarksGrow(out, usedDeps, usedStub, RuleLine(group.blockers));
        out := out + [RuleLine(group.blockers)];
        ghost var q := Now();
        Branch(Item(group.id, sec.container, Depends, 0), "", true);
        UseModel();
        WalkedStep(model.tree, q, Now(), i, group.id);
        i := i + 1;
      }
      UseModel();
      WalkEnds(model.tree, Now(), i);
      Footer();
    }

    // Writes the tally of what was drawn and the key to the marks used.
    method Footer()
      requires Ready() && Tallied(model.tree, statuses, drawn) && drawn <= model.tree.nodes.Keys
      modifies this`out
      ensures statuses == map[] ==> out == old(out)
      ensures statuses != map[] && drawn == TreeIds(model.tree) ==> FinishedView(model.tree, out)
    {
      hide GoodPage, Marks, GoodTree, BranchDone, ChildrenDone, ChildrenReady, BranchReady, SoFar, ItemsUnder;
      hide Indented, Nested, TreeIds, StatusOf, Walked, ScopeOf, AllSections, FinishedView, TallyOf, Tallied, Model.Valid;
      if statuses == map[] {
        return;
      }
      UseModel();
      ghost var p := Now();
      var total, tally := CountUp(model.tree, statuses, drawn);
      out := out + [BlankLine];
      out := out + [TotalLine(total, tally)];
      out := out + [KeyLine(usedDeps, usedStub)];
      if drawn == TreeIds(model.tree) {
        ViewIsFinished(model.tree, p, total, tally, usedDeps, usedStub);
      }
    }
  }

  /** From the exported board to the finished view: an export is drawn exactly when it passes
      the checks, and then the view is right for the tree it describes, over exactly the strands
      the filters show. */
  method View(ex: Export, f: Filters, theme: Theme) returns (fault: Fault, lines: seq<Line>, t: Tree)
    ensures fault.Fine? <==> GoodExport(ex)
    ensures fault.Fine? ==> TreeOf(t, ex) && FinishedView(t, lines)
    ensures fault.Fine? ==>
              forall i :: 0 <= i < |ex.strands| ==> (ex.strands[i].id in t.nodes <==> Shows(ex, f, ex.strands[i]))
  {
    hide FinishedView, GoodExport, TreeOf, GoodTree, Shows;
    lines := [];
    t := Tree("", map[], map[], map[]);
    fault := ValidateExport(ex);
    if fault.Fine? {
      t := Build(ex, f);
      var model := new Model(t);
      var renderer := new Renderer(model, theme);
      renderer.Render();
      lines := renderer.out;
    }
  }
}
