/** The kanban-export payload and the checks it must pass (tools/kanban-tree/export.go). */
module KanbanExport {
  import opened Graphs
  import opened Keys

  datatype State = Active | Closed | Replaced | Unknown(text: string)

  // A decoded attribute value; a number comes with the text it prints as.
  datatype Value = Text(text: string) | Flag(on: bool) | Number(printed: string) | Other

  function Printed(v: Value): string {
    match v
    case Text(text) => text
    case Flag(on) => if on then "true" else "false"
    case Number(printed) => printed
    case Other => ""
  }

  datatype Strand = Strand(
    id: string, title: string, state: State, createdAt: string, attributes: map<string, Value>)
  {
    // An absent attribute reads as the empty string.
    function Attr(key: string): string {
      if key in attributes then Printed(attributes[key]) else ""
    }

    predicate Card() {
      Attr("kanban/card") == "true"
    }

    predicate Task() {
      Attr("kanban/task") == "true"
    }

    function Outcome(): string {
      Attr("kanban/outcome")
    }

    function Lane(): string {
      Attr("kanban/lane")
    }
  }

  datatype Link = Link(from: string, to: string)

  datatype Export = Export(rootID: string, strands: seq<Strand>, parentOf: seq<Link>, dependsOn: seq<Link>)

  datatype Fault =
    | Fine
    | BadStrand(index: nat)
    | NoRoot
    | BadLink(index: nat)
    | ManyParents(child: string)
    | ParentCycle(through: string)
    | BadAttribute(index: nat, key: string)

  predicate GoodStrand(s: Strand) {
    s.id != "" && s.title != "" && s.createdAt != "" && !s.state.Unknown?
  }

  const DisplayKeys :=
    ["kanban/card", "kanban/task", "kanban/type", "kanban/lane", "kanban/outcome", "kanban/priority", "owner"]

  // Three attributes have a closed vocabulary.
  predicate AllowedText(key: string, text: string) {
    && (key == "kanban/lane" ==> text in {"refinement", "pending", "claimed", "in_review"})
    && (key == "kanban/outcome" ==> text in {"done", "abandoned"})
    && (key == "kanban/priority" ==> text in {"p1", "p2", "p3", "p4"})
  }

  predicate GoodValue(key: string, v: Value) {
    !v.Other? && AllowedText(key, Printed(v))
  }

  // Every attribute the tree reads is a scalar it knows; others are not looked at.
  predicate GoodAttributes(s: Strand) {
    forall key :: key in DisplayKeys && key in s.attributes ==> GoodValue(key, s.attributes[key])
  }

  ghost function Ids(strands: seq<Strand>): set<string> {
    set i | 0 <= i < |strands| :: strands[i].id
  }

  ghost predicate GoodStrands(strands: seq<Strand>) {
    && (forall i :: 0 <= i < |strands| ==> GoodStrand(strands[i]))
    && (forall i, j :: 0 <= i < j < |strands| ==> strands[i].id != strands[j].id)
  }

  function LinkKey(e: Link): string {
    Join(e.from, e.to)
  }

  // A link joins two different known strands.
  predicate GoodLink(e: Link, ids: set<string>) {
    e.from != "" && e.to != "" && e.from != e.to && e.from in ids && e.to in ids
  }

  ghost predicate GoodLinks(links: seq<Link>, ids: set<string>) {
    && (forall i :: 0 <= i < |links| ==> GoodLink(links[i], ids))
    && (forall i, j :: 0 <= i < j < |links| ==> LinkKey(links[i]) != LinkKey(links[j]))
  }

  ghost predicate OneParentEach(links: seq<Link>) {
    forall i, j :: 0 <= i < j < |links| && links[i].to == links[j].to ==> links[i].from == links[j].from
  }

  function ParentMap(links: seq<Link>): map<string, string> {
    if links == [] then map[]
    else
      var last := links[|links| - 1];
      ParentMap(links[..|links| - 1])[last.to := last.from]
  }

  // Each strand points at its parent.
  ghost function UpGraph(parents: map<string, string>): Graph {
    map c | c in parents :: [parents[c]]
  }

  ghost predicate GoodExport(ex: Export) {
    && GoodStrands(ex.strands)
    && ex.rootID in Ids(ex.strands)
    && GoodLinks(ex.parentOf, Ids(ex.strands))
    && OneParentEach(ex.parentOf)
    && Acyclic(UpGraph(ParentMap(ex.parentOf)))
    && GoodLinks(ex.dependsOn, Ids(ex.strands))
    && (forall i :: 0 <= i < |ex.strands| ==> GoodAttributes(ex.strands[i]))
  }

  lemma {:induction false} ParentMapHolds(links: seq<Link>)
    ensures forall c :: c in ParentMap(links) ==> Link(ParentMap(links)[c], c) in links
    ensures forall e :: e in links ==> e.to in ParentMap(links)
    ensures OneParentEach(links) ==> forall e :: e in links ==> ParentMap(links)[e.to] == e.from
  {
    if links != [] {
      var init, last := links[..|links| - 1], links[|links| - 1];
      assert links == init + [last];
      ParentMapHolds(init);
      if OneParentEach(links) {
        forall e | e in links
          ensures ParentMap(links)[e.to] == e.from
        {
          if e in init {
            var i :| 0 <= i < |init| && init[i] == e;
            assert links[i] == e;
          }
        }
      }
    }
  }

  method ValidateStrands(strands: seq<Strand>) returns (fault: Fault, ids: set<string>)
    ensures fault.Fine? || fault.BadStrand?
    ensures fault.Fine? <==> GoodStrands(strands)
    ensures fault.Fine? ==> ids == Ids(strands)
  {
    ids := {};
    for i := 0 to |strands|
      invariant ids == set j | 0 <= j < i :: strands[j].id
      invariant forall j :: 0 <= j < i ==> GoodStrand(strands[j])
      invariant forall j, k :: 0 <= j < k < i ==> strands[j].id != strands[k].id
    {
      if !GoodStrand(strands[i]) || strands[i].id in ids {
        return BadStrand(i), ids;
      }
      ids := ids + {strands[i].id};
    }
    return Fine, ids;
  }

  method ValidateEdges(links: seq<Link>, ids: set<string>) returns (fault: Fault)
    ensures fault.Fine? || fault.BadLink?
    ensures fault.Fine? <==> GoodLinks(links, ids)
  {
    var seen: set<string> := {};
    for i := 0 to |links|
      invariant seen == set j | 0 <= j < i :: LinkKey(links[j])
      invariant forall j :: 0 <= j < i ==> GoodLink(links[j], ids)
      invariant forall j, k :: 0 <= j < k < i ==> LinkKey(links[j]) != LinkKey(links[k])
    {
      if !GoodLink(links[i], ids) || LinkKey(links[i]) in seen {
        return BadLink(i);
      }
      seen := seen + {LinkKey(links[i])};
    }
    return Fine;
  }

  /** Distinct links have distinct keys as long as strand ids hold no NUL, so only then does a
      "duplicate" refusal always name a real duplicate. */
  lemma {:induction false} NulFreeKeysAreLinks(e: Link, f: Link)
    requires NUL !in e.from && NUL !in f.from && LinkKey(e) == LinkKey(f)
    ensures e == f
  {
    JoinSplits(e.from, e.to, f.from, f.to);
  }

  function ParentOf(parents: map<string, string>, c: string): string {
    if c in parents then parents[c] else ""
  }

  // With one parent each, the nodes of a cycle lead only to each other.
  lemma {:induction false} CycleIsClosed(parents: map<string, string>, w: seq<string>)
    requires IsWalk(UpGraph(parents), w) && |w| >= 2 && w[0] == w[|w| - 1]
    ensures forall a, b :: a in w && Edge(UpGraph(parents), a, b) ==> b in w
    ensures forall a :: a in w ==> a in parents
  {
    var g := UpGraph(parents);
    forall a | a in w
      ensures a in parents && parents[a] in w
    {
      var i :| 0 <= i < |w| && w[i] == a;
      var k := if i < |w| - 1 then i else 0;
      assert StepAt(g, w, k);
    }
  }

  lemma {:induction false} EndedClimbIsNotOnCycle(parents: map<string, string>, path: seq<string>)
    requires IsWalk(UpGraph(parents), path) && path[|path| - 1] !in parents
    ensures !OnCycle(UpGraph(parents), path[0])
  {
    var g := UpGraph(parents);
    if OnCycle(g, path[0]) {
      var w :| IsWalkFromTo(g, w, path[0], path[0]) && |w| >= 2;
      CycleIsClosed(parents, w);
      ClosedSetKeepsReachable(g, (set x | x in w), path);
    }
  }

  // Follows parents upward from one strand until they run out or repeat.
  method ClimbParents(parents: map<string, string>, child: string) returns (fault: Fault)
    requires child in parents && "" !in parents && "" !in parents.Values
    ensures fault.Fine? || fault.ParentCycle?
    ensures fault.ParentCycle? ==> OnCycle(UpGraph(parents), fault.through)
    ensures fault.Fine? ==> !OnCycle(UpGraph(parents), child)
  {
    ghost var g := UpGraph(parents);
    var seen: set<string> := {child};
    ghost var path := [child];
    var current := parents[child];
    while current != "" && current !in seen
      invariant seen == set x | x in path
      invariant IsWalk(g, path) && path[0] == child
      invariant current == ParentOf(parents, path[|path| - 1])
      decreases parents.Keys - seen, current != ""
    {
      assert Edge(g, path[|path| - 1], current);
      AppendStep(g, path, current);
      seen := seen + {current};
      path := path + [current];
      current := ParentOf(parents, current);
    }
    if current == "" {
      EndedClimbIsNotOnCycle(parents, path);
      fault := Fine;
    } else {
      ghost var i :| 0 <= i < |path| && path[i] == current;
      assert Edge(g, path[|path| - 1], current);
      CloseWalk(g, path, i, current);
      fault := ParentCycle(current);
    }
  }

  method ValidateParents(links: seq<Link>) returns (fault: Fault)
    requires forall i :: 0 <= i < |links| ==> links[i].from != "" && links[i].to != ""
    ensures fault.Fine? || fault.ManyParents? || fault.ParentCycle?
    ensures fault.Fine? <==> OneParentEach(links) && Acyclic(UpGraph(ParentMap(links)))
    ensures fault.ParentCycle? ==> OneParentEach(links) && OnCycle(UpGraph(ParentMap(links)), fault.through)
  {
    hide Acyclic, OnCycle, OneParentEach, ParentMap;
    var parents: map<string, string> := map[];
    NoLinksYet();
    var i := 0;
    fault := Fine;
    while i < |links| && fault.Fine?
      invariant 0 <= i <= |links|
      invariant fault.Fine? ==> parents == ParentMap(links[..i]) && OneParentEach(links[..i])
      invariant !fault.Fine? ==> fault.ManyParents? && !OneParentEach(links)
    {
      var e := links[i];
      NextParent(links, i);
      if e.to in parents && parents[e.to] != e.from {
        fault := ManyParents(e.to);
      }
      parents := parents[e.to := e.from];
      i := i + 1;
    }
    if fault.Fine? {
      assert links[..|links|] == links;
      NoBlankParents(links);
      fault := ClimbAll(parents);
      if fault.ParentCycle? {
        CycleRefutes(UpGraph(parents), fault.through);
      }
    }
  }

  lemma {:induction false} CycleRefutes(g: Graph, a: string)
    requires OnCycle(g, a)
    ensures !Acyclic(g)
  {
  }

  lemma {:induction false} NoLinksYet()
    ensures ParentMap([]) == map[] && OneParentEach([])
  {
  }

  lemma {:induction false} NoBlankParents(links: seq<Link>)
    requires forall i :: 0 <= i < |links| ==> links[i].from != "" && links[i].to != ""
    ensures "" !in ParentMap(links) && "" !in ParentMap(links).Values
  {
    ParentMapHolds(links);
  }

  // One more link extends the parent map, and agrees with it or gives a second parent.
  lemma {:induction false} NextParent(links: seq<Link>, i: nat)
    requires i < |links| && OneParentEach(links[..i])
    ensures ParentMap(links[..i + 1]) == ParentMap(links[..i])[links[i].to := links[i].from]
    ensures links[i].to in ParentMap(links[..i]) && ParentMap(links[..i])[links[i].to] != links[i].from
            ==> !OneParentEach(links)
    ensures links[i].to !in ParentMap(links[..i]) || ParentMap(links[..i])[links[i].to] == links[i].from
            ==> OneParentEach(links[..i + 1])
  {
    var before, e := links[..i], links[i];
    assert links[..i + 1][..i] == before;
    ParentMapHolds(before);
    if e.to in ParentMap(before) && ParentMap(before)[e.to] != e.from {
      var j :| 0 <= j < |before| && before[j] == Link(ParentMap(before)[e.to], e.to);
      assert links[j] == before[j];
    } else {
      forall j, k | 0 <= j < k < i + 1 && links[j].to == links[k].to
        ensures links[j].from == links[k].from
      {
        if k < i {
          assert before[j] == links[j] && before[k] == links[k];
        } else {
          assert links[j] in before;
        }
      }
    }
  }

  // Climbs from every strand that has a parent, in no particular order.
  method ClimbAll(parents: map<string, string>) returns (fault: Fault)
    requires "" !in parents && "" !in parents.Values
    ensures fault.Fine? || fault.ParentCycle?
    ensures fault.Fine? <==> Acyclic(UpGraph(parents))
    ensures fault.ParentCycle? ==> OnCycle(UpGraph(parents), fault.through)
  {
    hide OnCycle;
    var rest := parents.Keys;
    fault := Fine;
    while rest != {} && fault.Fine?
      invariant rest <= parents.Keys
      invariant fault.Fine? || fault.ParentCycle?
      invariant fault.Fine? ==> forall c :: c in parents.Keys - rest ==> !OnCycle(UpGraph(parents), c)
      invariant fault.ParentCycle? ==> OnCycle(UpGraph(parents), fault.through)
      decreases rest
    {
      var child :| child in rest;
      rest := rest - {child};
      fault := ClimbParents(parents, child);
    }
    if fault.Fine? {
      forall c
        ensures !OnCycle(UpGraph(parents), c)
      {
        if c !in parents {
          NoEdgeNoCycle(UpGraph(parents), c);
        }
      }
    }
  }

  lemma {:induction false} NoEdgeNoCycle(g: Graph, a: string)
    requires a !in g
    ensures !OnCycle(g, a)
  {
    if OnCycle(g, a) {
      var b := ReachesByFirstStep(g, a, a);
    }
  }

  // Strand by strand, and for each the keys the tree reads, in order.
  method ValidateAttributes(strands: seq<Strand>) returns (fault: Fault)
    ensures fault.Fine? || fault.BadAttribute?
    ensures fault.Fine? <==> forall i :: 0 <= i < |strands| ==> GoodAttributes(strands[i])
    ensures fault.BadAttribute? ==>
              && fault.index < |strands| && fault.key in DisplayKeys && fault.key in strands[fault.index].attributes
              && !GoodValue(fault.key, strands[fault.index].attributes[fault.key])
              && forall j :: 0 <= j < fault.index ==> GoodAttributes(strands[j])
  {
    hide AllowedText;
    for i := 0 to |strands|
      invariant forall j :: 0 <= j < i ==> GoodAttributes(strands[j])
    {
      var s := strands[i];
      for k := 0 to |DisplayKeys|
        invariant forall j :: 0 <= j < k && DisplayKeys[j] in s.attributes ==>
                                GoodValue(DisplayKeys[j], s.attributes[DisplayKeys[j]])
      {
        var key := DisplayKeys[k];
        if key in s.attributes && !GoodValue(key, s.attributes[key]) {
          assert key in DisplayKeys;
          return BadAttribute(i, key);
        }
      }
      assert GoodAttributes(s);
    }
    fault := Fine;
  }

  /** Accepts exactly the good exports. */
  method ValidateExport(ex: Export) returns (fault: Fault)
    ensures fault.Fine? <==> GoodExport(ex)
  {
    hide Acyclic, OneParentEach, GoodLinks, GoodStrands, GoodAttributes, ParentMap;
    var ids;
    fault, ids := ValidateStrands(ex.strands);
    if fault.Fine? {
      if ex.rootID !in ids {
        return NoRoot;
      }
      fault := ValidateEdges(ex.parentOf, ids);
      if fault.Fine? {
        GoodLinksHaveEnds(ex.parentOf, ids);
        fault := ValidateParents(ex.parentOf);
        if fault.Fine? {
          fault := ValidateEdges(ex.dependsOn, ids);
          if fault.Fine? {
            fault := ValidateAttributes(ex.strands);
          }
        }
      }
    }
  }

  lemma {:induction false} GoodLinksHaveEnds(links: seq<Link>, ids: set<string>)
    requires GoodLinks(links, ids)
    ensures forall i :: 0 <= i < |links| ==> links[i].from != "" && links[i].to != ""
  {
  }
}
