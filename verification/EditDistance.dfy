/** Edit distance over runes and the ranking of suggestions (cli/internal/errfmt/suggest.go). */
module EditDistance {
  import opened Ordering

  // ------------------------------------------------------------ edit scripts

  // One insertion, deletion or substitution of a single rune.
  ghost predicate EditAt(x: string, y: string, head: string, cut: string, put: string, tail: string) {
    x == head + cut + tail && y == head + put + tail && |cut| <= 1 && |put| <= 1 && cut != put
  }

  ghost predicate OneEdit(x: string, y: string) {
    exists head, cut, put, tail :: EditAt(x, y, head, cut, put, tail)
  }

  ghost predicate EditStep(p: seq<string>, i: int)
    requires 0 <= i < |p| - 1
  {
    OneEdit(p[i], p[i + 1])
  }

  // A script from a to b: every version differs from the next by one edit.
  ghost predicate IsScript(p: seq<string>, a: string, b: string) {
    && |p| >= 1 && p[0] == a && p[|p| - 1] == b
    && forall i :: 0 <= i < |p| - 1 ==> EditStep(p, i)
  }

  // Some script takes n edits and none takes fewer.
  ghost predicate ShortestScript(a: string, b: string, n: nat) {
    && (exists p :: IsScript(p, a, b) && |p| == n + 1)
    && (forall p :: IsScript(p, a, b) ==> |p| >= n + 1)
  }

  function Min(a: nat, b: nat): nat {
    if a < b then a else b
  }

  function Init(s: string): string
    requires s != ""
  {
    s[..|s| - 1]
  }

  function Last(s: string): char
    requires s != ""
  {
    s[|s| - 1]
  }

  // The recurrence the table rows are filled by.
  function Distance(a: string, b: string): nat
    decreases |a| + |b|
  {
    if a == "" then |b|
    else if b == "" then |a|
    else
      Min(Distance(Init(a), b) + 1,
          Min(Distance(a, Init(b)) + 1,
              Distance(Init(a), Init(b)) + if Last(a) == Last(b) then 0 else 1))
  }

  // ------------------------------------------------------------ no script is shorter

  lemma {:induction false} GrowingTheTarget(a: string, p: string, e: char)
    ensures Distance(a, p + [e]) <= Distance(a, p) + 1
    ensures Distance(a, p) <= Distance(a, p + [e]) + 1
    decreases |a|
  {
    assert Init(p + [e]) == p;
    if a != "" {
      GrowingTheTarget(Init(a), p, e);
      GrowingTheSource(Init(a), Last(a), p);
    }
  }

  // The only half needed here: one more rune to remove costs at most one edit.
  lemma {:induction false} GrowingTheSource(a: string, e: char, b: string)
    ensures Distance(a + [e], b) <= Distance(a, b) + 1
  {
    assert Init(a + [e]) == a;
  }

  lemma {:induction false} ChangingTheEnd(a: string, p: string, e: char, f: char)
    ensures Distance(a, p + [f]) <= Distance(a, p + [e]) + 1
    decreases |a|
  {
    assert Init(p + [e]) == p && Init(p + [f]) == p;
    if a != "" {
      ChangingTheEnd(Init(a), p, e, f);
    }
  }

  lemma {:induction false} EditAtTheEnd(a: string, head: string, cut: string, put: string)
    requires |cut| <= 1 && |put| <= 1
    ensures Distance(a, head + put) <= Distance(a, head + cut) + 1
  {
    assert head + "" == head;
    assert cut != "" ==> cut == [cut[0]];
    assert put != "" ==> put == [put[0]];
    if cut != "" {
      GrowingTheTarget(a, head, cut[0]);
    }
    if put != "" {
      GrowingTheTarget(a, head, put[0]);
    }
    if cut != "" && put != "" {
      ChangingTheEnd(a, head, cut[0], put[0]);
    }
  }

  // One edit anywhere in the target moves the distance by at most one.
  lemma {:induction false} EditMovesByOne(a: string, head: string, cut: string, put: string, tail: string)
    requires |cut| <= 1 && |put| <= 1
    ensures Distance(a, head + put + tail) <= Distance(a, head + cut + tail) + 1
    decreases |a| + |tail|
  {
    if tail == "" {
      assert head + put + tail == head + put && head + cut + tail == head + cut;
      EditAtTheEnd(a, head, cut, put);
    } else {
      assert Init(head + put + tail) == head + put + Init(tail);
      assert Init(head + cut + tail) == head + cut + Init(tail);
      assert Last(head + put + tail) == Last(head + cut + tail) == Last(tail);
      if a != "" {
        EditMovesByOne(Init(a), head, cut, put, tail);
        EditMovesByOne(a, head, cut, put, Init(tail));
        EditMovesByOne(Init(a), head, cut, put, Init(tail));
      }
    }
  }

  lemma {:induction false} ScriptIsNoShorter(p: seq<string>, a: string, b: string)
    requires IsScript(p, a, b)
    ensures Distance(a, b) <= |p| - 1
  {
    if |p| == 1 {
      DistanceToItself(a);
    } else {
      var q := p[..|p| - 1];
      forall i | 0 <= i < |q| - 1
        ensures EditStep(q, i)
      {
        assert EditStep(p, i);
      }
      ScriptIsNoShorter(q, a, p[|p| - 2]);
      assert EditStep(p, |p| - 2);
      var head, cut, put, tail :| EditAt(p[|p| - 2], b, head, cut, put, tail);
      EditMovesByOne(a, head, cut, put, tail);
    }
  }

  lemma {:induction false} DistanceToItself(a: string)
    ensures Distance(a, a) == 0
  {
    if a != "" {
      DistanceToItself(Init(a));
    }
  }

  // ------------------------------------------------------------ some script is that short

  lemma {:induction false} ScriptThenEdit(p: seq<string>, a: string, b: string, c: string)
    requires IsScript(p, a, b) && OneEdit(b, c)
    ensures IsScript(p + [c], a, c)
  {
    hide OneEdit;
    var q := p + [c];
    forall i | 0 <= i < |q| - 1
      ensures EditStep(q, i)
    {
      if i < |p| - 1 {
        assert EditStep(p, i);
      }
    }
  }

  function WithTail(p: seq<string>, tail: string): seq<string> {
    seq(|p|, i requires 0 <= i < |p| => p[i] + tail)
  }

  lemma {:induction false} EditBeforeTail(x: string, y: string, tail: string)
    requires OneEdit(x, y)
    ensures OneEdit(x + tail, y + tail)
  {
    var head, cut, put, rest :| EditAt(x, y, head, cut, put, rest);
    assert x + tail == head + cut + (rest + tail) && y + tail == head + put + (rest + tail);
    assert EditAt(x + tail, y + tail, head, cut, put, rest + tail);
  }

  lemma {:induction false} ScriptBeforeTail(p: seq<string>, a: string, b: string, tail: string)
    requires IsScript(p, a, b)
    ensures IsScript(WithTail(p, tail), a + tail, b + tail)
  {
    hide OneEdit;
    var q := WithTail(p, tail);
    forall i | 0 <= i < |q| - 1
      ensures EditStep(q, i)
    {
      assert EditStep(p, i);
      EditBeforeTail(p[i], p[i + 1], tail);
    }
  }

  lemma {:induction false} EditsAreReversible(x: string, y: string)
    requires OneEdit(x, y)
    ensures OneEdit(y, x)
  {
    var head, cut, put, tail :| EditAt(x, y, head, cut, put, tail);
    assert EditAt(y, x, head, put, cut, tail);
  }

  lemma {:induction false} EndEdits(x: string, e: char, f: char)
    ensures OneEdit(x, x + [e]) && OneEdit(x + [e], x)
    ensures e != f ==> OneEdit(x + [e], x + [f])
  {
    assert EditAt(x, x + [e], x, "", [e], "");
    EditsAreReversible(x, x + [e]);
    if e != f {
      assert EditAt(x + [e], x + [f], x, [e], [f], "");
    }
  }

  lemma {:induction false} ShortScript(a: string, b: string) returns (p: seq<string>)
    ensures IsScript(p, a, b) && |p| == Distance(a, b) + 1
    decreases |a| + |b|
  {
    hide OneEdit, IsScript;
    if a == "" && b == "" {
      p := Standing("");
    } else if a == "" {
      p := ShortScript(a, Init(b));
      p := Inserting(p, a, b);
    } else if b == "" {
      p := ShortScript(Init(a), b);
      p := Deleting(p, a, b);
    } else if Distance(a, b) == Distance(Init(a), b) + 1 {
      p := ShortScript(Init(a), b);
      p := Deleting(p, a, b);
    } else if Distance(a, b) == Distance(a, Init(b)) + 1 {
      p := ShortScript(a, Init(b));
      p := Inserting(p, a, b);
    } else {
      p := ShortScript(Init(a), Init(b));
      p := Matching(p, a, b);
    }
  }

  lemma {:induction false} Standing(a: string) returns (p: seq<string>)
    ensures IsScript(p, a, a) && |p| == 1
  {
    p := [a];
  }

  lemma {:induction false} Inserting(q: seq<string>, a: string, b: string) returns (p: seq<string>)
    requires b != "" && IsScript(q, a, Init(b))
    ensures IsScript(p, a, b) && |p| == |q| + 1
  {
    EndEdits(Init(b), Last(b), Last(b));
    assert b == Init(b) + [Last(b)];
    ScriptThenEdit(q, a, Init(b), b);
    p := q + [b];
  }

  lemma {:induction false} Deleting(q: seq<string>, a: string, b: string) returns (p: seq<string>)
    requires a != "" && IsScript(q, Init(a), b)
    ensures IsScript(p, a, b) && |p| == |q| + 1
  {
    EndEdits(Init(a), Last(a), Last(a));
    assert a == Init(a) + [Last(a)];
    p := ScriptsJoin([a, Init(a)], q, a, Init(a), b);
  }

  lemma {:induction false} Matching(q: seq<string>, a: string, b: string) returns (p: seq<string>)
    requires a != "" && b != "" && IsScript(q, Init(a), Init(b))
    ensures IsScript(p, a, b) && |p| == |q| + if Last(a) == Last(b) then 0 else 1
  {
    assert a == Init(a) + [Last(a)] && b == Init(b) + [Last(b)];
    ScriptBeforeTail(q, Init(a), Init(b), [Last(a)]);
    p := WithTail(q, [Last(a)]);
    if Last(a) != Last(b) {
      EndEdits(Init(b), Last(a), Last(b));
      ScriptThenEdit(p, a, Init(b) + [Last(a)], b);
      p := p + [b];
    }
  }

  lemma {:induction false} ScriptsJoin(p: seq<string>, q: seq<string>, a: string, b: string, c: string)
    returns (r: seq<string>)
    requires IsScript(p, a, b) && IsScript(q, b, c)
    ensures IsScript(r, a, c) && |r| == |p| + |q| - 1
  {
    hide OneEdit;
    r := p + q[1..];
    forall i | 0 <= i < |r| - 1
      ensures EditStep(r, i)
    {
      if i < |p| - 1 {
        assert EditStep(p, i);
      } else {
        assert EditStep(q, i - |p| + 1);
      }
    }
  }

  lemma {:induction false} ScriptReversed(p: seq<string>, a: string, b: string) returns (r: seq<string>)
    requires IsScript(p, a, b)
    ensures IsScript(r, b, a) && |r| == |p|
  {
    hide OneEdit;
    r := seq(|p|, i requires 0 <= i < |p| => p[|p| - 1 - i]);
    forall i | 0 <= i < |r| - 1
      ensures EditStep(r, i)
    {
      assert EditStep(p, |p| - 2 - i);
      EditsAreReversible(p[|p| - 2 - i], p[|p| - 1 - i]);
    }
  }

  // ------------------------------------------------------------ what the distance is

  /** The recurrence gives the length of a shortest script of single-rune edits. */
  lemma {:induction false} DistanceIsShortest(a: string, b: string)
    ensures ShortestScript(a, b, Distance(a, b))
  {
    var p := ShortScript(a, b);
    hide IsScript;
    forall q | IsScript(q, a, b)
      ensures |q| >= Distance(a, b) + 1
    {
      ScriptIsNoShorter(q, a, b);
    }
  }

  lemma {:induction false} DistanceIsSymmetric(a: string, b: string)
    ensures Distance(a, b) == Distance(b, a)
  {
    var p := ShortScript(a, b);
    var r := ScriptReversed(p, a, b);
    ScriptIsNoShorter(r, b, a);
    p := ShortScript(b, a);
    r := ScriptReversed(p, b, a);
    ScriptIsNoShorter(r, a, b);
  }

  lemma {:induction false} TriangleInequality(a: string, b: string, c: string)
    ensures Distance(a, c) <= Distance(a, b) + Distance(b, c)
  {
    var p := ShortScript(a, b);
    var q := ShortScript(b, c);
    var r := ScriptsJoin(p, q, a, b, c);
    ScriptIsNoShorter(r, a, c);
  }

  lemma {:induction false} DistanceZeroIff(a: string, b: string)
    ensures Distance(a, b) == 0 <==> a == b
  {
    DistanceToItself(a);
    if Distance(a, b) == 0 {
      var p := ShortScript(a, b);
    }
  }

  // ------------------------------------------------------------ the two rows

  ghost predicate RowOf(row: seq<nat>, a: string, b: string) {
    |row| == |b| + 1 && forall j :: 0 <= j <= |b| ==> row[j] == Distance(a, b[..j])
  }

  lemma {:induction false} NextCell(a: string, b: string, i: nat, j: nat)
    requires 1 <= i <= |a| && 1 <= j <= |b|
    ensures Distance(a[..i], b[..j]) ==
            Min(Distance(a[..i - 1], b[..j]) + 1,
                Min(Distance(a[..i], b[..j - 1]) + 1,
                    Distance(a[..i - 1], b[..j - 1]) + if a[i - 1] == b[j - 1] then 0 else 1))
  {
    assert Init(a[..i]) == a[..i - 1] && Init(b[..j]) == b[..j - 1];
  }

  /** Two rows of the table suffice for the length of a shortest edit script. */
  method Levenshtein(a: string, b: string) returns (n: nat)
    ensures n == Distance(a, b) && ShortestScript(a, b, n)
  {
    hide Distance, ShortestScript;
    var previous := new nat[|b| + 1];
    var current := new nat[|b| + 1];
    for j := 0 to |b| + 1
      invariant forall k :: 0 <= k < j ==> previous[k] == Distance(a[..0], b[..k])
    {
      FirstRow(b[..j]);
      previous[j] := j;
    }
    var i := 1;
    while i <= |a|
      invariant 1 <= i <= |a| + 1
      invariant fresh(previous) && fresh(current) && previous != current
      invariant current.Length == |b| + 1
      invariant RowOf(previous[..], a[..i - 1], b)
    {
      FirstColumn(a[..i]);
      current[0] := i;
      assert b[..0] == "";
      for j := 1 to |b| + 1
        invariant RowOf(previous[..], a[..i - 1], b)
        invariant forall k :: 0 <= k < j ==> current[k] == Distance(a[..i], b[..k])
      {
        NextCell(a, b, i, j);
        assert previous[..][j - 1] == previous[j - 1] && previous[..][j] == previous[j];
        var substitution := previous[j - 1];
        if a[i - 1] != b[j - 1] {
          substitution := substitution + 1;
        }
        current[j] := Min(previous[j] + 1, Min(current[j - 1] + 1, substitution));
      }
      previous, current := current, previous;
      i := i + 1;
    }
    assert a[..|a|] == a && b[..|b|] == b;
    assert previous[..][|b|] == previous[|b|];
    DistanceIsShortest(a, b);
    n := previous[|b|];
  }

  lemma {:induction false} FirstRow(b: string)
    ensures Distance("", b) == |b|
  {
  }

  lemma {:induction false} FirstColumn(a: string)
    ensures Distance(a, "") == |a|
  {
  }

  // ------------------------------------------------------------ ranking

  const MaxDistance: nat := 2
  const MaxSuggestions: nat := 3

  // The position is kept only to say that the sort is stable; no comparison reads it.
  datatype Match = Match(name: string, distance: nat, position: nat)

  predicate Closer(a: Match, b: Match) {
    a.distance < b.distance
  }

  // By distance, then by place in the list.
  predicate Before(a: Match, b: Match) {
    a.distance < b.distance || (a.distance == b.distance && a.position < b.position)
  }

  ghost predicate InOrder(s: seq<Match>) {
    forall i, j :: 0 <= i < j < |s| ==> Before(s[i], s[j])
  }

  lemma {:induction false} StableInsert(x: Match, s: seq<Match>)
    requires InOrder(s) && forall m :: m in s ==> m.position < x.position
    ensures InOrder(InsertBy(Closer, x, s))
    ensures forall m :: m in InsertBy(Closer, x, s) <==> m in s || m == x
  {
    if s != [] && !Closer(x, s[0]) {
      StableInsert(x, s[1..]);
      assert s == [s[0]] + s[1..];
      assert forall m :: m in s[1..] ==> Before(s[0], m);
    }
  }

  // A stable sort by distance leaves matches ordered by distance and position.
  lemma {:induction false} StableSort(s: seq<Match>)
    requires forall i, j :: 0 <= i < j < |s| ==> s[i].position < s[j].position
    ensures InOrder(SortBy(Closer, s))
    ensures forall m :: m in SortBy(Closer, s) <==> m in s
    ensures |SortBy(Closer, s)| == |s|
  {
    SortByKeepsElements(Closer, s);
    assert |SortBy(Closer, s)| == |multiset(SortBy(Closer, s))|;
    if s != [] {
      assert s == s[..|s| - 1] + [s[|s| - 1]];
      StableSort(s[..|s| - 1]);
      StableInsert(s[|s| - 1], SortBy(Closer, s[..|s| - 1]));
    }
  }

  function MatchAt(token: string, names: seq<string>, fold: string -> string, i: nat): Match
    requires i < |names|
  {
    Match(names[i], Distance(fold(token), fold(names[i])), i)
  }

  ghost predicate Near(token: string, names: seq<string>, fold: string -> string, m: Match) {
    m.position < |names| && m == MatchAt(token, names, fold, m.position) && m.distance <= MaxDistance
  }

  // The first three near names by distance and then by list position.
  ghost predicate FirstThree(token: string, names: seq<string>, fold: string -> string, r: seq<string>, best: seq<Match>) {
    && |r| == |best| <= MaxSuggestions && InOrder(best)
    && (forall k :: 0 <= k < |best| ==> Near(token, names, fold, best[k]) && r[k] == best[k].name)
    && (forall m :: Near(token, names, fold, m) ==>
          m in best || (|best| == MaxSuggestions && Before(best[|best| - 1], m)))
  }

  ghost predicate Offered(token: string, names: seq<string>, fold: string -> string, r: seq<string>) {
    exists best :: FirstThree(token, names, fold, r, best)
  }

  ghost predicate OnTheList(token: string, names: seq<string>, fold: string -> string) {
    exists i :: 0 <= i < |names| && fold(names[i]) == fold(token)
  }

  ghost predicate NearSoFar(token: string, names: seq<string>, fold: string -> string, matches: seq<Match>, i: nat) {
    && (forall a, b :: 0 <= a < b < |matches| ==> matches[a].position < matches[b].position)
    && (forall m :: m in matches <==> Near(token, names, fold, m) && m.position < i)
  }

  lemma {:induction false} NearStep(
    token: string, names: seq<string>, fold: string -> string, matches: seq<Match>, i: nat)
    requires NearSoFar(token, names, fold, matches, i) && i < |names|
    ensures var m := MatchAt(token, names, fold, i);
            NearSoFar(token, names, fold, if m.distance <= MaxDistance then matches + [m] else matches, i + 1)
  {
    hide Distance;
    var m := MatchAt(token, names, fold, i);
    var after := if m.distance <= MaxDistance then matches + [m] else matches;
    forall x: Match
      ensures x in after <==> Near(token, names, fold, x) && x.position < i + 1
    {
      assert x in after <==> x in matches || (m.distance <= MaxDistance && x == m);
      assert x.position == i && Near(token, names, fold, x) ==> x == m;
    }
    forall a, b | 0 <= a < b < |after|
      ensures after[a].position < after[b].position
    {
      assert after[a] in matches;
    }
  }

  /** The names offered for a mistyped token: nothing for an empty token or one that is on the
      list after folding, otherwise exactly the first three near ones. */
  method Rank(token: string, names: seq<string>, fold: string -> string) returns (r: seq<string>)
    ensures token == "" || OnTheList(token, names, fold) ==> r == []
    ensures token != "" && !OnTheList(token, names, fold) ==> Offered(token, names, fold, r)
  {
    hide ShortestScript, Distance, NearSoFar, Offered, InOrder, SortBy;
    r := [];
    if token == "" {
      return;
    }
    var folded := fold(token);
    var matches: seq<Match> := [];
    NearStarts(token, names, fold);
    for i := 0 to |names|
      invariant NearSoFar(token, names, fold, matches, i)
      invariant forall k :: 0 <= k < i ==> fold(names[k]) != folded
    {
      var distance := Levenshtein(folded, fold(names[i]));
      DistanceZeroIff(folded, fold(names[i]));
      if distance == 0 {
        return;
      }
      NearStep(token, names, fold, matches, i);
      if distance <= MaxDistance {
        matches := matches + [Match(names[i], distance, i)];
      }
    }
    RankedFirst(token, names, fold, matches);
    var sorted := SortBy(Closer, matches);
    var taken := Min(|sorted|, MaxSuggestions);
    for k := 0 to taken
      invariant r == Names(sorted[..k])
    {
      assert sorted[..k + 1][..k] == sorted[..k];
      r := r + [sorted[k].name];
    }
  }

  function Names(s: seq<Match>): seq<string> {
    seq(|s|, i requires 0 <= i < |s| => s[i].name)
  }

  lemma {:induction false} NearStarts(token: string, names: seq<string>, fold: string -> string)
    ensures NearSoFar(token, names, fold, [], 0)
  {
  }

  lemma {:induction false} RankedFirst(token: string, names: seq<string>, fold: string -> string, matches: seq<Match>)
    requires NearSoFar(token, names, fold, matches, |names|)
    ensures var sorted := SortBy(Closer, matches);
            var best := sorted[..Min(|sorted|, MaxSuggestions)];
            Offered(token, names, fold, Names(best))
  {
    hide Distance;
    var sorted := SortBy(Closer, matches);
    StableSort(matches);
    hide SortBy;
    var best := sorted[..Min(|sorted|, MaxSuggestions)];
    forall k | 0 <= k < |best|
      ensures Near(token, names, fold, best[k])
    {
      assert best[k] in sorted;
    }
    forall m | Near(token, names, fold, m)
      ensures m in best || (|best| == MaxSuggestions && Before(best[|best| - 1], m))
    {
      assert m in matches;
      var i :| 0 <= i < |sorted| && sorted[i] == m;
      if i < |best| {
        assert best[i] == m;
      }
    }
    assert FirstThree(token, names, fold, Names(best), best);
  }
}
