/** The page a renderer builds up, and what each drawing step keeps true of it
    (tools/kanban-tree/render.go). */
module KanbanPage {
  import opened Graphs
  import opened Keys
  import opened Ordering
  import opened KanbanExport
  import opened KanbanTree
  import opened KanbanScope
  import opened KanbanDraw

  datatype Line =
    | NodeLine(lead: string, kind: Kind, id: string, container: string, status: string)
    | StubLine(lead: string, id: string, section: Section)
    | CycleLine(lead: string, kind: Kind, id: string, container: string)
    | BlankLine
    | RuleLine(blockers: seq<string>)
    | TotalLine(total: nat, tally: seq<Count>)
    | KeyLine(deps: bool, stub: bool)

  datatype Count = Count(status: string, n: nat)

  datatype Page = Page(
    out: seq<Line>, drawn: set<string>, queued: set<string>, pending: seq<Section>, statuses: map<string, nat>)

  // The recorded outcome once closed; while live, the lane or whether blockers still stand.
  function StatusOf(t: Tree, id: string): string
    requires id in t.nodes
  {
    var s := t.nodes[id];
    if s.state != Active then
      if s.Outcome() == "abandoned" then "dropped"
      else if s.Outcome() != "" then s.Outcome()
      else
        match s.state
        case Closed => "done"
        case Replaced => "replaced"
        case Unknown(text) => text
        case Active => "active"
    else if s.Task() then
      var blockers := Listed(t.blockers, id);
      if exists i :: 0 <= i < |blockers| && blockers[i] in t.nodes && t.nodes[blockers[i]].state == Active
      then "blocked" else "ready"
    else if s.Lane() == "in_review" then "review"
    else if s.Lane() != "" then s.Lane()
    else "ready"
  }

  // The derived status, with a look at every blocker of a live task.
  method ReadStatus(t: Tree, id: string) returns (status: string)
    requires id in t.nodes
    ensures status == StatusOf(t, id)
    ensures t.nodes[id].state == Active && t.nodes[id].Task() ==>
              && status in {"blocked", "ready"}
              && (status == "blocked" <==>
                    exists b :: b in Listed(t.blockers, id) && b in t.nodes && t.nodes[b].state == Active)
    ensures t.nodes[id].state == Active && !t.nodes[id].Task() ==>
              && (t.nodes[id].Lane() == "" ==> status == "ready")
              && (t.nodes[id].Lane() == "in_review" ==> status == "review")
              && (t.nodes[id].Lane() !in {"", "in_review"} ==> status == t.nodes[id].Lane())
    ensures t.nodes[id].state != Active && t.nodes[id].Outcome() != "" ==>
              if t.nodes[id].Outcome() == "abandoned" then status == "dropped" else status == t.nodes[id].Outcome()
    ensures t.nodes[id].Outcome() == "" ==>
              && (t.nodes[id].state == Closed ==> status == "done")
              && (t.nodes[id].state == Replaced ==> status == "replaced")
              && (t.nodes[id].state.Unknown? ==> status == t.nodes[id].state.text)
  {
    var s := t.nodes[id];
    if s.state != Active {
      if s.Outcome() == "abandoned" {
        return "dropped";
      }
      if s.Outcome() == "" {
        return if s.state == Closed then "done" else if s.state == Replaced then "replaced" else s.state.text;
      }
      return s.Outcome();
    }
    if s.Task() {
      var blockers := Listed(t.blockers, id);
      for i := 0 to |blockers|
        invariant forall k :: 0 <= k < i ==> !(blockers[k] in t.nodes && t.nodes[blockers[k]].state == Active)
      {
        if blockers[i] in t.nodes && t.nodes[blockers[i]].state == Active {
          return "blocked";
        }
      }
      return "ready";
    }
    if s.Lane() != "" {
      return if s.Lane() == "in_review" then "review" else s.Lane();
    }
    status := "ready";
  }

  ghost function WithStatus(t: Tree, drawn: set<string>, status: string): set<string> {
    set n | n in drawn && n in t.nodes && StatusOf(t, n) == status
  }

  // The tally counts the drawn nodes of each status, and lists no other status.
  ghost predicate Tallied(t: Tree, statuses: map<string, nat>, drawn: set<string>) {
    && (forall s :: s in statuses ==> statuses[s] == |WithStatus(t, drawn, s)| > 0)
    && (forall n :: n in drawn && n in t.nodes ==> StatusOf(t, n) in statuses)
  }

  function Bump(statuses: map<string, nat>, s: string): map<string, nat> {
    statuses[s := (if s in statuses then statuses[s] else 0) + 1]
  }

  ghost predicate IsNode(out: seq<Line>, i: int) {
    0 <= i < |out| && out[i].NodeLine?
  }

  ghost predicate HasNode(out: seq<Line>, n: string) {
    exists i :: IsNode(out, i) && out[i].id == n
  }

  // Full lines and drawn nodes correspond one to one.
  ghost predicate DrawnOnce(out: seq<Line>, drawn: set<string>) {
    && (forall n :: n in drawn <==> HasNode(out, n))
    && (forall i, j :: i < j && IsNode(out, i) && IsNode(out, j) ==> out[i].id != out[j].id)
  }

  // What each line claims is so.
  ghost predicate LineIsTrue(t: Tree, pending: seq<Section>, l: Line) {
    match l
    case NodeLine(_, _, id, container, status) =>
      id in t.nodes && status == StatusOf(t, id)
      && (if container == "" then id == t.rootID else Contains(t, container, id))
    case CycleLine(_, _, id, container) => Contains(t, container, id) && SiblingCycle(t, container)
    case StubLine(_, id, section) => section in pending && SectionOf(t, section, id)
    case _ => true
  }

  ghost predicate LinesAreTrue(t: Tree, pending: seq<Section>, out: seq<Line>) {
    forall i :: 0 <= i < |out| ==> LineIsTrue(t, pending, out[i])
  }

  ghost predicate SectionOf(t: Tree, s: Section, id: string) {
    && InTree(t, s.container) && s.container != ""
    && s.group < |ScopeOf(t, s.container).shared|
    && ScopeOf(t, s.container).shared[s.group].id == id
  }

  ghost predicate KnownSection(t: Tree, s: Section) {
    exists id :: SectionOf(t, s, id)
  }

  function SectionKey(s: Section): string {
    Numbered(s.container, s.group)
  }

  ghost predicate Queued(t: Tree, pending: seq<Section>, queued: set<string>) {
    && Distinct(pending)
    && (forall i :: 0 <= i < |pending| ==> KnownSection(t, pending[i]))
    && (forall k :: k in queued <==> exists i :: 0 <= i < |pending| && SectionKey(pending[i]) == k)
  }

  ghost predicate GoodPage(t: Tree, p: Page) {
    && p.drawn <= TreeIds(t)
    && DrawnOnce(p.out, p.drawn)
    && LinesAreTrue(t, p.pending, p.out)
    && Tallied(t, p.statuses, p.drawn)
    && Queued(t, p.pending, p.queued)
    && SourcesDrawn(t, p.drawn)
  }

  // Pages only grow.
  ghost predicate Grew(p: Page, q: Page) {
    && p.out <= q.out && p.drawn <= q.drawn && p.pending <= q.pending
  }

  ghost function Sections(p: Page): set<Section> {
    set s | s in p.pending
  }

  // ------------------------------------------------------------ one step at a time

  // Lines that are not full lines: plain text, stubs of queued sections, true cycle marks.
  lemma {:induction false} OtherLine(t: Tree, p: Page, l: Line)
    requires GoodPage(t, p) && !l.NodeLine? && LineIsTrue(t, p.pending, l)
    ensures GoodPage(t, p.(out := p.out + [l]))
  {
    hide LineIsTrue, Tallied, Queued, SourcesDrawn, TreeIds;
    var out := p.out + [l];
    forall n
      ensures HasNode(p.out, n) <==> HasNode(out, n)
    {
      if HasNode(p.out, n) {
        var i :| IsNode(p.out, i) && p.out[i].id == n;
        assert IsNode(out, i);
      }
      if HasNode(out, n) {
        var i :| IsNode(out, i) && out[i].id == n;
        assert IsNode(p.out, i);
      }
    }
    assert forall i :: IsNode(out, i) ==> IsNode(p.out, i);
  }

  ghost predicate SourceIsDrawn(t: Tree, drawn: set<string>, n: string) {
    forall s :: HangsFrom(t, n, s) ==> s in drawn
  }

  function WithNode(p: Page, l: Line): Page
    requires l.NodeLine?
  {
    p.(out := p.out + [l], drawn := p.drawn + {l.id}, statuses := Bump(p.statuses, l.status))
  }

  lemma {:induction false} NodeStep(t: Tree, p: Page, l: Line)
    requires GoodPage(t, p) && l.NodeLine? && LineIsTrue(t, p.pending, l)
    requires InTree(t, l.id) && l.id !in p.drawn && SourceIsDrawn(t, p.drawn, l.id)
    ensures GoodPage(t, WithNode(p, l))
  {
    var q := WithNode(p, l);
    NodeIsTallied(t, p.statuses, p.drawn, l.id);
    NodeIsDrawnOnce(p.out, p.drawn, l);
    hide LineIsTrue, Tallied, Queued, HangsFrom, DrawnOnce, InTree, StatusOf;
    assert LinesAreTrue(t, p.pending, q.out);
  }

  lemma {:induction false} NodeIsDrawnOnce(out: seq<Line>, drawn: set<string>, l: Line)
    requires DrawnOnce(out, drawn) && l.NodeLine? && l.id !in drawn
    ensures DrawnOnce(out + [l], drawn + {l.id})
  {
    var after := out + [l];
    assert IsNode(after, |out|);
    forall n
      ensures n in drawn + {l.id} <==> HasNode(after, n)
    {
      if HasNode(out, n) {
        var i :| IsNode(out, i) && out[i].id == n;
        assert IsNode(after, i);
      }
      if HasNode(after, n) && n != l.id {
        var i :| IsNode(after, i) && after[i].id == n;
        assert IsNode(out, i);
      }
    }
    forall i, j | i < j && IsNode(after, i) && IsNode(after, j)
      ensures after[i].id != after[j].id
    {
      assert IsNode(out, i);
      if j == |out| {
        assert HasNode(out, out[i].id);
      } else {
        assert IsNode(out, j);
      }
    }
  }

  lemma {:induction false} NodeIsTallied(t: Tree, statuses: map<string, nat>, drawn: set<string>, n: string)
    requires Tallied(t, statuses, drawn) && n in t.nodes && n !in drawn
    ensures Tallied(t, Bump(statuses, StatusOf(t, n)), drawn + {n})
  {
    hide StatusOf;
    var own := StatusOf(t, n);
    var after := Bump(statuses, own);
    forall s | s in after
      ensures after[s] == |WithStatus(t, drawn + {n}, s)| > 0
    {
      if s == own {
        assert WithStatus(t, drawn + {n}, s) == WithStatus(t, drawn, s) + {n};
        if s !in statuses {
          assert WithStatus(t, drawn, s) == {};
        }
      } else {
        assert WithStatus(t, drawn + {n}, s) == WithStatus(t, drawn, s);
      }
    }
  }

  function WithSection(p: Page, s: Section): Page {
    if SectionKey(s) in p.queued then p
    else p.(queued := p.queued + {SectionKey(s)}, pending := p.pending + [s])
  }

  lemma {:induction false} QueueStep(t: Tree, p: Page, s: Section)
    requires GoodPage(t, p) && KnownSection(t, s)
    ensures GoodPage(t, WithSection(p, s)) && s in WithSection(p, s).pending
    ensures Grew(p, WithSection(p, s))
  {
    hide Tallied, SourcesDrawn, TreeIds, DrawnOnce, KnownSection, SectionKey;
    var q := WithSection(p, s);
    QueueKeeps(t, p.pending, p.queued, s);
    LinesStayTrue(t, p.pending, q.pending, p.out);
  }

  lemma {:induction false} QueueKeeps(t: Tree, pending: seq<Section>, queued: set<string>, s: Section)
    requires Queued(t, pending, queued) && KnownSection(t, s)
    ensures SectionKey(s) in queued ==> s in pending
    ensures SectionKey(s) !in queued ==> Queued(t, pending + [s], queued + {SectionKey(s)})
  {
    hide KnownSection;
    if SectionKey(s) in queued {
      var i :| 0 <= i < |pending| && SectionKey(pending[i]) == SectionKey(s);
      NumberedIsInjective(s.container, s.group, pending[i].container, pending[i].group);
    } else {
      var after := pending + [s];
      assert after[|pending|] == s;
      forall k
        ensures k in queued + {SectionKey(s)} <==> exists i :: 0 <= i < |after| && SectionKey(after[i]) == k
      {
        if k in queued {
          var i :| 0 <= i < |pending| && SectionKey(pending[i]) == k;
          assert after[i] == pending[i];
        }
      }
    }
  }

  lemma {:induction false} LinesStayTrue(t: Tree, pending: seq<Section>, more: seq<Section>, out: seq<Line>)
    requires LinesAreTrue(t, pending, out) && pending <= more
    ensures LinesAreTrue(t, more, out)
  {
    hide SectionOf, StatusOf, Contains;
    forall i | 0 <= i < |out|
      ensures LineIsTrue(t, more, out[i])
    {
      assert LineIsTrue(t, pending, out[i]);
    }
  }

  // ------------------------------------------------------------ branches

  // What a caller of branch owes: a stub of a known section, or a child never drawn before
  // unless it was promoted, whose source is already on the page.
  ghost predicate BranchReady(t: Tree, drawn: set<string>, it: Item) {
    if it.kind == Stub then SectionOf(t, Section(it.container, it.group), it.id)
    else
      && it.container != "" && InTree(t, it.container) && Contains(t, it.container, it.id)
      && FirstArrival(t, drawn, it.id)
      && SourceIsDrawn(t, drawn, it.id)
  }

  ghost predicate ItemDone(p: Page, it: Item) {
    if it.kind == Stub then Section(it.container, it.group) in p.pending else it.id in p.drawn
  }

  ghost function OwnId(it: Item): set<string> {
    if it.kind == Stub then {} else {it.id}
  }

  ghost predicate BranchDone(t: Tree, p: Page, q: Page, it: Item) {
    && Grew(p, q) && ItemDone(q, it)
    && AllExpanded(t, q.drawn - p.drawn, q.drawn, Sections(q))
    && DrawnFrom(t, p.drawn, q.drawn, OwnId(it))
  }

  // Nothing hanging from id is on the page yet.
  ghost predicate NothingHangs(t: Tree, drawn: set<string>, id: string) {
    forall n :: n in drawn ==> !HangsFrom(t, n, id)
  }

  ghost predicate ChildrenReady(t: Tree, drawn: set<string>, container: string, id: string) {
    Position(t, container, id) && id in drawn && NothingHangs(t, drawn, id)
  }

  ghost predicate ChildrenDone(t: Tree, p: Page, q: Page, container: string, id: string) {
    && Grew(p, q)
    && Expanded(t, q.drawn, Sections(q), container, id)
    && AllExpanded(t, q.drawn - p.drawn, q.drawn, Sections(q))
    && forall n :: n in q.drawn - p.drawn ==>
         IsPromoted(t, n) || HangsFrom(t, n, id) || HangsFromNew(t, n, q.drawn - p.drawn)
  }

  lemma {:induction false} GrewTransitive(p: Page, q: Page, r: Page)
    requires Grew(p, q) && Grew(q, r)
    ensures Grew(p, r) && Sections(p) <= Sections(q) <= Sections(r)
  {
    hide Distinct;
  }

  lemma {:induction false} StubDone(t: Tree, p: Page, q: Page, it: Item)
    requires Grew(p, q) && it.kind == Stub && q.drawn == p.drawn && Section(it.container, it.group) in q.pending
    ensures BranchDone(t, p, q, it)
  {
    assert q.drawn - p.drawn == {};
  }

  lemma {:induction false} CycleDone(t: Tree, p: Page, q: Page, it: Item)
    requires Grew(p, q) && it.kind != Stub && q.drawn == p.drawn && it.id in p.drawn
    ensures BranchDone(t, p, q, it)
  {
    assert q.drawn - p.drawn == {};
  }

  // A second arrival is announced as a cycle, and there is one among the siblings.
  lemma {:induction false} ArrivalMeansCycle(t: Tree, p: Page, it: Item, lead: string)
    requires GoodTree(t) && BranchReady(t, p.drawn, it) && it.kind != Stub && it.id in p.drawn
    ensures LineIsTrue(t, p.pending, CycleLine(lead, it.kind, it.id, it.container))
  {
    var c :| Contains(t, c, it.id) && Promoted(t, c, it.id);
    assert c == it.container;
    TreeNodeHasDistinctKids(t, c);
    ScopeIsGood(t, c);
  }

  lemma {:induction false} DescendReady(t: Tree, p: Page, l: Line, it: Item)
    requires GoodTree(t) && GoodPage(t, p) && BranchReady(t, p.drawn, it) && it.kind != Stub && it.id !in p.drawn
    ensures ChildrenReady(t, p.drawn + {it.id}, it.container, it.id)
    ensures it.id in t.nodes && InTree(t, it.id)
  {
    ChildInTree(t, it.container, it.id);
    hide GoodTree, InTree;
    forall n | n in p.drawn + {it.id}
      ensures !HangsFrom(t, n, it.id)
    {
      if n == it.id && HangsFrom(t, it.id, it.id) {
        HangsFromAnother(t, it.id, it.id);
      }
    }
  }

  lemma {:induction false} DescendDone(t: Tree, p: Page, m: Page, q: Page, it: Item)
    requires GoodTree(t) && Grew(p, m) && m.drawn == p.drawn + {it.id} && it.kind != Stub && it.id !in p.drawn
    requires it.container != "" && Contains(t, it.container, it.id)
    requires ChildrenDone(t, m, q, it.container, it.id)
    ensures BranchDone(t, p, q, it)
  {
    GrewTransitive(p, m, q);
    hide Expanded, HangsFrom, IsPromoted;
    var latest := q.drawn - p.drawn;
    assert latest == (q.drawn - m.drawn) + {it.id};
    forall c, n | n in latest && Contains(t, c, n)
      ensures Expanded(t, q.drawn, Sections(q), c, n)
    {
      if n == it.id {
        OneContainer(t, c, it.container, n);
      } else {
        assert n in q.drawn - m.drawn;
      }
    }
    forall n | n in latest
      ensures n in OwnId(it) || IsPromoted(t, n) || HangsFromNew(t, n, latest)
    {
      if n != it.id && !IsPromoted(t, n) && !HangsFrom(t, n, it.id) {
        assert HangsFromNew(t, n, q.drawn - m.drawn);
        var s :| s in q.drawn - m.drawn && HangsFrom(t, n, s);
        assert s in latest;
      }
    }
  }

  lemma {:induction false} OneContainer(t: Tree, c: string, d: string, n: string)
    requires GoodTree(t) && Contains(t, c, n) && Contains(t, d, n)
    ensures c == d
  {
  }

  // ------------------------------------------------------------ the list under one node

  ghost function FullIds(items: seq<Item>): set<string> {
    set i | 0 <= i < |items| && items[i].kind != Stub :: items[i].id
  }

  ghost predicate SoFar(t: Tree, p: Page, q: Page, items: seq<Item>, k: int) {
    && 0 <= k <= |items| && Grew(p, q)
    && (forall i :: 0 <= i < k ==> ItemDone(q, items[i]))
    && AllExpanded(t, q.drawn - p.drawn, q.drawn, Sections(q))
    && DrawnFrom(t, p.drawn, q.drawn, FullIds(items[..k]))
  }

  lemma {:induction false} SoFarStarts(t: Tree, p: Page, items: seq<Item>)
    ensures SoFar(t, p, p, items, 0)
  {
    assert p.drawn - p.drawn == {};
  }

  lemma {:induction false} SoFarReady(t: Tree, p: Page, q: Page, container: string, id: string, items: seq<Item>, k: int)
    requires GoodTree(t) && ChildrenReady(t, p.drawn, container, id) && ItemsUnder(t, container, id, items)
    requires SoFar(t, p, q, items, k) && k < |items|
    ensures BranchReady(t, q.drawn, items[k])
  {
    ItemsFacts(t, container, id, items);
    hide GoodTree, ItemsUnder, HangsFrom, IsPromoted, ScopeOf, AllExpanded, Contains;
    var it := items[k];
    assert GoodItem(t, container, id, it);
    if it.kind == Stub {
    } else if IsPromoted(t, it.id) {
      HangsFromNothing(t, it.id);
    } else {
      assert HangsFrom(t, it.id, id);
      forall s | HangsFrom(t, it.id, s)
        ensures s in q.drawn
      {
        HangsFromIsUnique(t, it.id, s, id);
      }
      NotDrawnYet(t, p, q, id, items, k);
    }
  }

  lemma {:induction false} NotDrawnYet(t: Tree, p: Page, q: Page, id: string, items: seq<Item>, k: int)
    requires GoodTree(t) && id in p.drawn && NothingHangs(t, p.drawn, id)
    requires SoFar(t, p, q, items, k) && k < |items| && ItemsApart(items) && items[k].kind != Stub
    requires HangsFrom(t, items[k].id, id) && !IsPromoted(t, items[k].id)
    ensures items[k].id !in q.drawn
  {
    var n := items[k].id;
    hide GoodTree, HangsFrom, IsPromoted, AllExpanded;
    assert n !in FullIds(items[..k]);
    if HangsFromNew(t, n, q.drawn - p.drawn) {
      HangsFromOnly(t, n, id, q.drawn - p.drawn);
    }
  }

  lemma {:induction false} HangsFromOnly(t: Tree, n: string, id: string, latest: set<string>)
    requires GoodTree(t) && HangsFrom(t, n, id) && HangsFromNew(t, n, latest)
    ensures id in latest
  {
    var s :| s in latest && HangsFrom(t, n, s);
    HangsFromIsUnique(t, n, s, id);
  }

  lemma {:induction false} HangingIsPlain(t: Tree, n: string, latest: set<string>)
    requires GoodTree(t) && HangsFromNew(t, n, latest)
    ensures !IsPromoted(t, n) && !IsShared(t, n)
  {
    var s :| s in latest && HangsFrom(t, n, s);
    HangsFromAnother(t, n, s);
  }

  lemma {:induction false} SoFarStep(t: Tree, p: Page, q: Page, r: Page, items: seq<Item>, k: int)
    requires SoFar(t, p, q, items, k) && k < |items| && BranchDone(t, q, r, items[k])
    ensures SoFar(t, p, r, items, k + 1)
  {
    GrewTransitive(p, q, r);
    hide Expanded, HangsFrom, IsPromoted, Contains;
    forall i | 0 <= i < k + 1
      ensures ItemDone(r, items[i])
    {
      if i < k {
        assert ItemDone(q, items[i]);
      }
    }
    AllExpandedGrows(t, q.drawn - p.drawn, q.drawn, Sections(q), r.drawn, Sections(r));
    AllExpandedJoins(t, p.drawn, q.drawn, r.drawn, Sections(r));
    assert FullIds(items[..k + 1]) == FullIds(items[..k]) + OwnId(items[k]) by {
      assert items[..k + 1] == items[..k] + [items[k]];
      FullIdsAppend(items[..k], items[k]);
    }
    DrawnFromJoins(t, p.drawn, q.drawn, r.drawn, FullIds(items[..k]), OwnId(items[k]));
  }

  lemma {:induction false} FullIdsAppend(items: seq<Item>, it: Item)
    ensures FullIds(items + [it]) == FullIds(items) + OwnId(it)
  {
    var after := items + [it];
    assert after[|items|] == it;
    forall x | x in FullIds(items)
      ensures x in FullIds(after)
    {
      var i :| 0 <= i < |items| && items[i].kind != Stub && items[i].id == x;
      assert after[i] == items[i];
    }
  }

  lemma {:induction false} AllExpandedJoins(t: Tree, a: set<string>, b: set<string>, c: set<string>, sections: set<Section>)
    requires a <= b <= c && AllExpanded(t, b - a, c, sections) && AllExpanded(t, c - b, c, sections)
    ensures AllExpanded(t, c - a, c, sections)
  {
    hide Expanded, Contains;
    forall x, n | n in c - a && Contains(t, x, n)
      ensures Expanded(t, c, sections, x, n)
    {
      assert n in b - a || n in c - b;
    }
  }

  lemma {:induction false} DrawnFromJoins(
    t: Tree, a: set<string>, b: set<string>, c: set<string>, e: set<string>, f: set<string>)
    requires DrawnFrom(t, a, b, e) && DrawnFrom(t, b, c, f)
    ensures DrawnFrom(t, a, c, e + f)
  {
    hide HangsFrom, IsPromoted;
    forall n | n in c - a
      ensures n in e + f || IsPromoted(t, n) || HangsFromNew(t, n, c - a)
    {
      if n in b - a {
        if HangsFromNew(t, n, b - a) {
          var s :| s in b - a && HangsFrom(t, n, s);
          assert s in c - a;
        }
      } else {
        assert n in c - b;
        if HangsFromNew(t, n, c - b) {
          var s :| s in c - b && HangsFrom(t, n, s);
          assert s in c - a;
        }
      }
    }
  }

  lemma {:induction false} SoFarEnds(t: Tree, p: Page, q: Page, container: string, id: string, items: seq<Item>)
    requires GoodTree(t) && ChildrenReady(t, p.drawn, container, id) && ItemsUnder(t, container, id, items)
    requires SoFar(t, p, q, items, |items|)
    ensures ChildrenDone(t, p, q, container, id)
  {
    ItemsFacts(t, container, id, items);
    hide GoodTree, HangsFrom, IsPromoted, AllExpanded, Contains, ItemsUnder, ScopeOf, Expanded;
    assert items[..|items|] == items;
    forall i | 0 <= i < |items|
      ensures ItemDone(q, items[i])
      ensures items[i].kind == Stub ==> Section(items[i].container, items[i].group) in Sections(q)
      ensures items[i].kind != Stub ==> items[i].id in q.drawn
    {
      assert ItemDone(q, items[i]);
    }
    ItemsExpand(t, container, id, items, q.drawn, Sections(q));
    forall n | n in q.drawn - p.drawn
      ensures IsPromoted(t, n) || HangsFrom(t, n, id) || HangsFromNew(t, n, q.drawn - p.drawn)
    {
      if n in FullIds(items) {
        var i :| 0 <= i < |items| && items[i].kind != Stub && items[i].id == n;
        assert GoodItem(t, container, id, items[i]);
      }
    }
  }

  // ------------------------------------------------------------ the deferred sections

  ghost function AllSections(t: Tree): set<Section> {
    set c, g | c in TreeIds(t) && 0 <= g < |ScopeOf(t, c).shared| :: Section(c, g)
  }

  lemma {:induction false} PendingIsBounded(t: Tree, p: Page)
    requires GoodPage(t, p)
    ensures |p.pending| <= |AllSections(t)|
  {
    hide ScopeOf, LinesAreTrue, DrawnOnce, Tallied, SourcesDrawn;
    forall i | 0 <= i < |p.pending|
      ensures p.pending[i] in AllSections(t)
    {
      assert KnownSection(t, p.pending[i]);
    }
    DistinctWithin(p.pending, AllSections(t));
  }

  // Shared nodes are drawn in full by their own section and by nothing else.
  ghost predicate SharedBySection(t: Tree, drawn: set<string>, pending: seq<Section>, k: int) {
    && 0 <= k <= |pending|
    && (forall n :: n in drawn && IsShared(t, n) ==>
          exists i :: 0 <= i < k && SectionOf(t, pending[i], n))
    && (forall i :: 0 <= i < k ==> SectionDrawn(t, drawn, pending[i]))
  }

  ghost predicate SectionDrawn(t: Tree, drawn: set<string>, s: Section) {
    exists id :: SectionOf(t, s, id) && id in drawn
  }

  lemma {:induction false} SectionNode(t: Tree, s: Section, id: string)
    requires GoodTree(t) && SectionOf(t, s, id)
    ensures Contains(t, s.container, id) && (IsShared(t, id) || IsPromoted(t, id))
  {
    TreeNodeHasDistinctKids(t, s.container);
    ScopeIsGood(t, s.container);
    hide ScopeOf, Reached, Within;
    var sc := ScopeOf(t, s.container);
    assert id in Siblings(t, s.container);
    assert |WithinOf(t, s.container, id)| >= 2;
    if !Promoted(t, s.container, id) {
      assert IsShared(t, id);
    }
  }

  lemma {:induction false} SectionsApart(t: Tree, a: Section, b: Section, id: string)
    requires GoodTree(t) && SectionOf(t, a, id) && SectionOf(t, b, id)
    ensures a == b
  {
    SectionNode(t, a, id);
    SectionNode(t, b, id);
    OneContainer(t, a.container, b.container, id);
    TreeNodeHasDistinctKids(t, a.container);
    ScopeIsGood(t, a.container);
    hide ScopeOf, Reached, Within;
  }

  lemma {:induction false} HangsFromNothing(t: Tree, n: string)
    requires GoodTree(t) && (IsShared(t, n) || IsPromoted(t, n))
    ensures forall drawn :: SourceIsDrawn(t, drawn, n)
  {
    hide GoodTree, HangsFrom, IsPromoted, IsShared;
    forall s
      ensures !HangsFrom(t, n, s)
    {
      if HangsFrom(t, n, s) {
        HangsFromAnother(t, n, s);
      }
    }
  }

  lemma {:induction false} SectionReady(t: Tree, p: Page, k: int, id: string)
    requires GoodTree(t) && GoodPage(t, p) && SharedBySection(t, p.drawn, p.pending, k) && k < |p.pending|
    requires SectionOf(t, p.pending[k], id)
    ensures BranchReady(t, p.drawn, Item(id, p.pending[k].container, Depends, 0))
  {
    var s := p.pending[k];
    SectionNode(t, s, id);
    HangsFromNothing(t, id);
    hide GoodTree, HangsFrom, IsPromoted, IsShared, ScopeOf;
    if id in p.drawn && !IsPromoted(t, id) {
      var i :| 0 <= i < k && SectionOf(t, p.pending[i], id);
      SectionsApart(t, p.pending[i], s, id);
    }
  }

  // A shared node newly on the page is the branch's own.
  lemma {:induction false} NewSharedIsOwn(t: Tree, before: set<string>, after: set<string>, own: set<string>, n: string)
    requires GoodTree(t) && DrawnFrom(t, before, after, own) && n in after - before && IsShared(t, n)
    ensures n in own
  {
    SharedIsNotPromoted(t, n);
    hide GoodTree, HangsFrom, IsPromoted, IsShared;
    if HangsFromNew(t, n, after - before) {
      HangingIsPlain(t, n, after - before);
    }
  }

  lemma {:induction false} SharedIsNotPromoted(t: Tree, n: string)
    requires GoodTree(t) && IsShared(t, n)
    ensures !IsPromoted(t, n)
  {
    var c :| Contains(t, c, n) && !Promoted(t, c, n) && |WithinOf(t, c, n)| >= 2;
    hide ScopeOf, Within;
    forall d | Contains(t, d, n)
      ensures !Promoted(t, d, n)
    {
      OneContainer(t, c, d, n);
    }
  }

  lemma {:induction false} SectionStep(t: Tree, p: Page, q: Page, k: int, id: string)
    requires GoodTree(t) && SharedBySection(t, p.drawn, p.pending, k) && k < |p.pending|
    requires SectionOf(t, p.pending[k], id)
    requires BranchDone(t, p, q, Item(id, p.pending[k].container, Depends, 0))
    ensures SharedBySection(t, q.drawn, q.pending, k + 1)
  {
    hide GoodTree, AllExpanded, SectionOf, IsShared;
    forall n | n in q.drawn && IsShared(t, n)
      ensures exists i :: 0 <= i < k + 1 && SectionOf(t, q.pending[i], n)
    {
      if n in p.drawn {
        var i :| 0 <= i < k && SectionOf(t, p.pending[i], n);
        assert q.pending[i] == p.pending[i];
      } else {
        NewSharedIsOwn(t, p.drawn, q.drawn, {id}, n);
        assert q.pending[k] == p.pending[k];
      }
    }
    forall i | 0 <= i < k + 1
      ensures SectionDrawn(t, q.drawn, q.pending[i])
    {
      if i < k {
        assert SectionDrawn(t, p.drawn, p.pending[i]);
        var x :| SectionOf(t, p.pending[i], x) && x in p.drawn;
        assert q.pending[i] == p.pending[i];
      } else {
        assert q.pending[k] == p.pending[k];
      }
    }
  }

  lemma {:induction false} PageIsComplete(t: Tree, p: Page)
    requires GoodTree(t) && GoodPage(t, p) && t.rootID in p.drawn
    requires Expanded(t, p.drawn, Sections(p), "", t.rootID)
    requires AllExpanded(t, p.drawn, p.drawn, Sections(p))
    requires SharedBySection(t, p.drawn, p.pending, |p.pending|)
    ensures p.drawn == TreeIds(t)
  {
    hide GoodTree, Expanded, AllExpanded, ScopeOf, LinesAreTrue, DrawnOnce, Tallied, Queued;
    forall s | s in Sections(p)
      ensures s.group < |ScopeOf(t, s.container).shared| && ScopeOf(t, s.container).shared[s.group].id in p.drawn
    {
      var i :| 0 <= i < |p.pending| && p.pending[i] == s;
      assert SectionDrawn(t, p.drawn, p.pending[i]);
    }
    WholeTreeIsDrawn(t, p.drawn, Sections(p));
  }

  // ------------------------------------------------------------ the start of a page

  lemma {:induction false} EmptyPageIsGood(t: Tree)
    ensures GoodPage(t, Page([], {}, {}, [], map[]))
  {
  }

  lemma {:induction false} RootHangsFromNothing(t: Tree)
    requires GoodTree(t)
    ensures SourceIsDrawn(t, {}, t.rootID) && ChildrenReady(t, {t.rootID}, "", t.rootID)
    ensures InTree(t, t.rootID) && !IsShared(t, t.rootID)
  {
    assert forall c :: !Contains(t, c, t.rootID);
  }

  lemma {:induction false} RootDone(t: Tree, p: Page, q: Page)
    requires GoodTree(t) && p.drawn == {t.rootID} && p.pending == []
    requires ChildrenDone(t, p, q, "", t.rootID)
    ensures Expanded(t, q.drawn, Sections(q), "", t.rootID)
    ensures AllExpanded(t, q.drawn, q.drawn, Sections(q))
    ensures SharedBySection(t, q.drawn, q.pending, 0)
  {
    RootHangsFromNothing(t);
    assert forall c :: !Contains(t, c, t.rootID);
    hide Expanded, GoodTree, HangsFrom, IsPromoted, IsShared, Contains;
    forall c, n | n in q.drawn && Contains(t, c, n)
      ensures Expanded(t, q.drawn, Sections(q), c, n)
    {
      assert n in q.drawn - p.drawn;
    }
    forall n | n in q.drawn
      ensures !IsShared(t, n)
    {
      if n != t.rootID && IsShared(t, n) {
        assert n in q.drawn - p.drawn;
        NewSharedHangs(t, n, t.rootID, q.drawn - p.drawn);
      }
    }
  }

  lemma {:induction false} NewSharedHangs(t: Tree, n: string, id: string, latest: set<string>)
    requires GoodTree(t) && IsShared(t, n)
    ensures !IsPromoted(t, n) && !HangsFrom(t, n, id) && !HangsFromNew(t, n, latest)
  {
    SharedIsNotPromoted(t, n);
    hide GoodTree, HangsFrom, IsPromoted, IsShared;
    if HangsFrom(t, n, id) {
      HangsFromAnother(t, n, id);
    }
    if HangsFromNew(t, n, latest) {
      HangingIsPlain(t, n, latest);
    }
  }
}
