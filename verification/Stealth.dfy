/** The marker-block editor behind stealth initialisation (cli/internal/config/stealth.go). */
module Stealth {

  datatype MarkerSpec = MarkerSpec(start: string, end: string, block: string)

  datatype MarkerState = DuplicateStart | DuplicateEnd | StartOnly | EndOnly | Reversed | Edited | Exact

  datatype File = Missing | Present(text: string)

  datatype Plan = Create(content: string) | Update(content: string) | Unchanged | Refuse(state: MarkerState)

  const ExcludeStart := "# mill:millstrand-stealth"
  const ExcludeEnd := "# /mill:millstrand-stealth"
  const ExcludeBlock := ExcludeStart + "\n/.millstrand\n/.ms\n" + ExcludeEnd + "\n"
  const ExcludeSpec := MarkerSpec(ExcludeStart, ExcludeEnd, ExcludeBlock)

  // ------------------------------------------------------------ occurrences

  predicate At(text: string, sub: string, i: int) {
    0 <= i <= |text| - |sub| && text[i..i + |sub|] == sub
  }

  // The first position, or -1.
  function IndexFrom(text: string, sub: string, from: nat): (i: int)
    ensures i == -1 || (from <= i && At(text, sub, i))
    ensures forall k :: from <= k && At(text, sub, k) ==> 0 <= i <= k
    decreases |text| - from
  {
    if from + |sub| > |text| then -1
    else if At(text, sub, from) then from
    else IndexFrom(text, sub, from + 1)
  }

  function Index(text: string, sub: string): int {
    IndexFrom(text, sub, 0)
  }

  // Occurrences counted from the left without overlap.
  function CountFrom(text: string, sub: string, from: nat): nat
    requires sub != ""
    decreases |text| - from
  {
    var i := IndexFrom(text, sub, from);
    if i < 0 then 0 else 1 + CountFrom(text, sub, i + |sub|)
  }

  function Count(text: string, sub: string): nat
    requires sub != ""
  {
    CountFrom(text, sub, 0)
  }

  ghost predicate Nowhere(text: string, sub: string) {
    forall i :: !At(text, sub, i)
  }

  ghost predicate Once(text: string, sub: string) {
    exists i :: OnlyAt(text, sub, i)
  }

  ghost predicate OnlyAt(text: string, sub: string, i: int) {
    At(text, sub, i) && forall k :: At(text, sub, k) ==> k == i
  }

  ghost predicate Twice(text: string, sub: string) {
    exists i, j :: i < j && At(text, sub, i) && At(text, sub, j)
  }

  // A comment marker on one line: it cannot overlap itself.
  ghost predicate IsMarker(m: string) {
    m != "" && m[0] == '#' && '\n' !in m && '#' !in m[1..]
  }

  ghost predicate GoodSpec(spec: MarkerSpec) {
    && IsMarker(spec.start) && IsMarker(spec.end)
    && !(spec.start <= spec.end) && !(spec.end <= spec.start)
    && exists body :: '#' !in body && spec.block == spec.start + "\n" + body + spec.end + "\n"
  }

  lemma {:induction false} ExcludeSpecIsGood()
    ensures GoodSpec(ExcludeSpec)
  {
    hide IsMarker, ExcludeStart, ExcludeEnd, ExcludeBlock, StartName, EndName;
    StartText();
    EndText();
    NamesArePlain();
    MarkerText(StartName);
    MarkerText(EndName);
    ExcludeBlockShape();
    DifferentAtTwo(ExcludeStart, ExcludeEnd);
  }

  lemma {:induction false} MarkerText(rest: string)
    requires '#' !in rest && '\n' !in rest && |rest| > 1
    ensures IsMarker("#" + rest) && ("#" + rest)[2] == rest[1]
  {
    assert ("#" + rest)[1..] == rest;
  }

  const StartName := " mill:millstrand-stealth"
  const EndName := " /mill:millstrand-stealth"

  lemma {:induction false} StartText()
    ensures ExcludeStart == "#" + StartName
  {
  }

  lemma {:induction false} EndText()
    ensures ExcludeEnd == "#" + EndName
  {
  }

  lemma {:induction false} NamesArePlain()
    ensures '#' !in StartName && '\n' !in StartName && |StartName| > 1
    ensures '#' !in EndName && '\n' !in EndName && |EndName| > 1
    ensures StartName[1] != EndName[1]
  {
  }

  lemma {:induction false} DifferentAtTwo(a: string, b: string)
    requires |a| > 2 && |b| > 2 && a[2] != b[2]
    ensures !(a <= b) && !(b <= a)
  {
  }

  lemma {:induction false} ExcludeBlockShape()
    ensures exists body :: '#' !in body && ExcludeBlock == ExcludeStart + "\n" + body + ExcludeEnd + "\n"
  {
    var head, body := ExcludeStart, "/.millstrand\n/.ms\n";
    assert "\n/.millstrand\n/.ms\n" == "\n" + body;
    SplitBlock(head, "\n", body, ExcludeEnd);
  }

  lemma {:induction false} SplitBlock(head: string, gap: string, body: string, end: string)
    ensures head + (gap + body) + end + "\n" == head + gap + body + end + "\n"
  {
    assert head + (gap + body) == head + gap + body;
  }

  lemma {:induction false} CharAt(text: string, sub: string, i: int, k: int)
    requires At(text, sub, i) && 0 <= k < |sub|
    ensures 0 <= i + k < |text| && text[i + k] == sub[k]
  {
    assert text[i..i + |sub|][k] == text[i + k];
  }

  lemma {:induction false} HashIsFirst(text: string, m: string, i: int, k: int)
    requires IsMarker(m) && At(text, m, i) && i <= k < i + |m|
    ensures text[k] == '#' <==> k == i
    ensures text[k] != '\n'
  {
    CharAt(text, m, i, k - i);
    if k > i {
      assert m[k - i] == m[1..][k - i - 1];
    }
  }

  lemma {:induction false} MarkersDoNotOverlap(text: string, m: string, i: int, k: int)
    requires IsMarker(m) && At(text, m, i) && At(text, m, k) && i < k
    ensures i + |m| <= k
  {
    HashIsFirst(text, m, k, k);
    if k < i + |m| {
      HashIsFirst(text, m, i, k);
    }
  }

  lemma {:induction false} CountFromMeans(text: string, m: string, from: nat)
    requires IsMarker(m)
    ensures CountFrom(text, m, from) == 0 <==> forall k :: from <= k ==> !At(text, m, k)
    ensures CountFrom(text, m, from) >= 2 ==> exists i, j :: from <= i < j && At(text, m, i) && At(text, m, j)
    ensures CountFrom(text, m, from) == 1 ==> exists i :: from <= i && At(text, m, i) && forall k :: from <= k && At(text, m, k) ==> k == i
    decreases |text| - from
  {
    var i := IndexFrom(text, m, from);
    if i >= 0 {
      CountFromMeans(text, m, i + |m|);
      forall k | from <= k && At(text, m, k)
        ensures k == i || i + |m| <= k
      {
        if k != i {
          MarkersDoNotOverlap(text, m, i, k);
        }
      }
    }
  }

  /** The count distinguishes no occurrence, exactly one, and several. */
  lemma {:induction false} CountMeans(text: string, m: string)
    requires IsMarker(m)
    ensures Count(text, m) == 0 <==> Nowhere(text, m)
    ensures Count(text, m) == 1 <==> Once(text, m)
    ensures Count(text, m) >= 2 <==> Twice(text, m)
  {
    CountFromMeans(text, m, 0);
    assert forall k :: At(text, m, k) ==> 0 <= k;
    hide CountFrom, At, IsMarker;
    if Count(text, m) == 0 {
      assert !Once(text, m) && !Twice(text, m);
    } else if Count(text, m) == 1 {
      var i :| 0 <= i && At(text, m, i) && forall k :: 0 <= k && At(text, m, k) ==> k == i;
      assert OnlyAt(text, m, i);
      assert !Twice(text, m);
    } else {
      var i, j :| 0 <= i < j && At(text, m, i) && At(text, m, j);
      assert Twice(text, m);
      assert !Once(text, m);
    }
  }

  // ------------------------------------------------------------ the editor

  function StateOf(text: string, spec: MarkerSpec, starts: nat, ends: nat): MarkerState {
    if starts > 1 then DuplicateStart
    else if ends > 1 then DuplicateEnd
    else if starts == 1 && ends == 0 then StartOnly
    else if starts == 0 && ends == 1 then EndOnly
    else
      var start, end := Index(text, spec.start), Index(text, spec.end);
      if end < start then Reversed
      else if end + |spec.end| >= |text| || end + |spec.end| < 0 || text[end + |spec.end|] != '\n' then Edited
      else if start < 0 || text[start..end + |spec.end| + 1] != spec.block then Edited
      else Exact
  }

  // The user's text, completed to whole lines and set off by a blank line.
  function Appended(text: string, block: string): string {
    if text == "" then block
    else if text[|text| - 1] != '\n' then text + "\n" + "\n" + block
    else text + "\n" + block
  }

  function Preflight(file: File, spec: MarkerSpec): Plan
    requires spec.start != "" && spec.end != ""
  {
    match file
    case Missing => Create(spec.block)
    case Present(text) =>
      var starts, ends := Count(text, spec.start), Count(text, spec.end);
      if starts == 0 && ends == 0 then Update(Appended(text, spec.block))
      else
        var state := StateOf(text, spec, starts, ends);
        if state != Exact then Refuse(state) else Unchanged
  }

  function Apply(file: File, plan: Plan): File {
    match plan
    case Create(content) => Present(content)
    case Update(content) => Present(content)
    case Unchanged => file
    case Refuse(_) => file
  }

  // ------------------------------------------------------------ what a file looks like

  // The file holds the block, and its markers appear nowhere else.
  ghost predicate Installed(text: string, spec: MarkerSpec) {
    Once(text, spec.start) && Once(text, spec.end) && exists i :: At(text, spec.block, i)
  }

  lemma {:induction false} BlockParts(spec: MarkerSpec)
    requires GoodSpec(spec)
    ensures |spec.block| > |spec.start| + |spec.end| + 1
    ensures At(spec.block, spec.start, 0)
    ensures At(spec.block, spec.end, |spec.block| - 1 - |spec.end|)
    ensures spec.block[|spec.block| - 1] == '\n'
    ensures forall k :: 0 <= k < |spec.block| && spec.block[k] == '#' ==> k == 0 || k == |spec.block| - 1 - |spec.end|
  {
    var body :| '#' !in body && spec.block == spec.start + "\n" + body + spec.end + "\n";
    var b, at := spec.block, |spec.block| - 1 - |spec.end|;
    assert at == |spec.start| + 1 + |body|;
    assert b[0..|spec.start|] == spec.start;
    assert b[at..at + |spec.end|] == spec.end;
    forall k | 0 <= k < |b| && k != 0 && k != at
      ensures b[k] != '#'
    {
      if k < |spec.start| {
        HashIsFirst(b, spec.start, 0, k);
      } else if |spec.start| < k < at {
        NotInBody(body, k - |spec.start| - 1);
      } else if at <= k < at + |spec.end| {
        HashIsFirst(b, spec.end, at, k);
      }
    }
  }

  lemma {:induction false} NotInBody(body: string, k: nat)
    requires '#' !in body && k < |body|
    ensures body[k] != '#'
  {
  }

  lemma {:induction false} PartWithin(text: string, whole: string, part: string, i: int, k: int)
    requires At(text, whole, i) && At(whole, part, k)
    ensures At(text, part, i + k)
  {
    forall j | 0 <= j < |part|
      ensures text[i + k + j] == part[j]
    {
      CharAt(text, whole, i, k + j);
      CharAt(whole, part, k, j);
    }
    assert text[i + k..i + k + |part|] == part;
  }

  // One of the two markers cannot stand where the other does.
  lemma {:induction false} MarkersDiffer(text: string, m: string, other: string, i: int)
    requires At(text, m, i) && At(text, other, i)
    ensures m <= other || other <= m
  {
    if |m| <= |other| {
      assert other[..|m|] == text[i..i + |other|][..|m|] == text[i..i + |m|];
    } else {
      assert m[..|other|] == text[i..i + |m|][..|other|] == text[i..i + |other|];
    }
  }

  /** An existing file is left alone exactly when it holds the block as written and neither
      marker appears anywhere else. */
  lemma {:induction false} UnchangedIff(text: string, spec: MarkerSpec)
    requires GoodSpec(spec)
    ensures Preflight(Present(text), spec) == Unchanged <==> Installed(text, spec)
    ensures Installed(text, spec) ==> Once(text, spec.block)
  {
    CountMeans(text, spec.start);
    CountMeans(text, spec.end);
    BlockParts(spec);
    hide Count, GoodSpec, IsMarker, Once, Twice, Nowhere;
    if Preflight(Present(text), spec) == Unchanged {
      UnchangedIsInstalled(text, spec);
    }
    if Installed(text, spec) {
      InstalledIsExact(text, spec);
    }
  }

  lemma {:induction false} UnchangedIsInstalled(text: string, spec: MarkerSpec)
    requires GoodSpec(spec) && Preflight(Present(text), spec) == Unchanged
    ensures Installed(text, spec)
  {
    CountMeans(text, spec.start);
    CountMeans(text, spec.end);
    hide Count, GoodSpec, IsMarker, Once, Twice, Nowhere;
    var start, end := Index(text, spec.start), Index(text, spec.end);
    assert At(text, spec.block, start);
  }

  lemma {:induction false} InstalledIsExact(text: string, spec: MarkerSpec)
    requires GoodSpec(spec) && Installed(text, spec)
    ensures Preflight(Present(text), spec) == Unchanged
    ensures Once(text, spec.block)
  {
    CountMeans(text, spec.start);
    CountMeans(text, spec.end);
    BlockParts(spec);
    hide Count, GoodSpec, IsMarker, Twice, Nowhere, StateOf, Once, At;
    var i :| At(text, spec.block, i);
    MarkersOfBlock(text, spec, i);
    ExactHere(text, spec, i);
    OneBlock(text, spec, i);
  }

  lemma {:induction false} MarkersOfBlock(text: string, spec: MarkerSpec, i: int)
    requires GoodSpec(spec) && Once(text, spec.start) && Once(text, spec.end) && At(text, spec.block, i)
    ensures Index(text, spec.start) == i && Index(text, spec.end) == i + |spec.block| - 1 - |spec.end|
    ensures |spec.block| > |spec.end| + 1 && text[i + |spec.block| - 1] == '\n'
  {
    hide GoodSpec, Once, Index, At;
    BlockEnds(spec);
    var at := |spec.block| - 1 - |spec.end|;
    PartWithin(text, spec.block, spec.start, i, 0);
    PartWithin(text, spec.block, spec.end, i, at);
    CharAt(text, spec.block, i, |spec.block| - 1);
    IndexIs(text, spec.start, i);
    IndexIs(text, spec.end, i + at);
  }

  lemma {:induction false} BlockEnds(spec: MarkerSpec)
    requires GoodSpec(spec)
    ensures |spec.block| > |spec.start| + |spec.end| + 1
    ensures At(spec.block, spec.start, 0) && At(spec.block, spec.end, |spec.block| - 1 - |spec.end|)
    ensures spec.block[|spec.block| - 1] == '\n'
  {
    BlockParts(spec);
    hide GoodSpec, At;
  }

  lemma {:induction false} ExactHere(text: string, spec: MarkerSpec, i: int)
    requires At(text, spec.block, i)
    requires Index(text, spec.start) == i && Index(text, spec.end) == i + |spec.block| - 1 - |spec.end|
    requires |spec.block| > |spec.end| + 1 && text[i + |spec.block| - 1] == '\n'
    ensures StateOf(text, spec, 1, 1) == Exact
  {
    hide Index;
  }

  lemma {:induction false} OneBlock(text: string, spec: MarkerSpec, i: int)
    requires GoodSpec(spec) && Once(text, spec.start) && Once(text, spec.end) && At(text, spec.block, i)
    ensures Once(text, spec.block)
  {
    hide GoodSpec, Once, At, Index;
    forall k | At(text, spec.block, k)
      ensures k == i
    {
      MarkersOfBlock(text, spec, k);
      MarkersOfBlock(text, spec, i);
    }
    OnceAt(text, spec.block, i);
  }

  lemma {:induction false} OnceAt(text: string, sub: string, i: int)
    requires At(text, sub, i) && forall k :: At(text, sub, k) ==> k == i
    ensures Once(text, sub)
  {
    assert OnlyAt(text, sub, i);
  }

  lemma {:induction false} IndexIs(text: string, m: string, i: int)
    requires Once(text, m) && At(text, m, i)
    ensures Index(text, m) == i && OnlyAt(text, m, i)
  {
  }

  // ------------------------------------------------------------ after the edit

  lemma {:induction false} AtInPrefix(text: string, rest: string, m: string, i: int)
    requires At(text + rest, m, i) && i + |m| <= |text|
    ensures At(text, m, i)
  {
    assert (text + rest)[i..i + |m|] == text[i..i + |m|];
  }

  // Text followed by a line break cannot complete a marker that it does not hold.
  lemma {:induction false} NothingStraddles(text: string, rest: string, m: string, i: int)
    requires Nowhere(text, m) && IsMarker(m)
    requires text != "" ==> rest != "" && rest[0] == '\n'
    requires At(text + rest, m, i)
    ensures i >= |text|
  {
    if 0 <= i < |text| {
      if i + |m| <= |text| {
        AtInPrefix(text, rest, m, i);
      } else {
        HashIsFirst(text + rest, m, i, |text|);
      }
    }
  }

  function Gap(text: string): string {
    if text == "" then "" else if text[|text| - 1] != '\n' then "\n\n" else "\n"
  }

  lemma {:induction false} AppendedShape(text: string, block: string)
    ensures Appended(text, block) == text + (Gap(text) + block) == (text + Gap(text)) + block
  {
    assert text + (Gap(text) + block) == (text + Gap(text)) + block;
    if text != "" && text[|text| - 1] != '\n' {
      assert text + "\n" + "\n" + block == text + "\n\n" + block;
    }
  }

  lemma {:induction false} GapHasNoHash(text: string, k: int)
    requires 0 <= k < |Gap(text)|
    ensures Gap(text)[k] == '\n'
  {
  }

  // In the appended file a marker can only stand where the block puts one.
  lemma {:induction false} MarkerOnlyInBlock(text: string, spec: MarkerSpec, m: string, i: int)
    requires GoodSpec(spec) && IsMarker(m) && Nowhere(text, m)
    requires At(Appended(text, spec.block), m, i)
    ensures var base := |text| + |Gap(text)|;
            i == base || i == base + |spec.block| - 1 - |spec.end|
  {
    var whole := Appended(text, spec.block);
    var base := |text| + |Gap(text)|;
    AppendedShape(text, spec.block);
    NothingStraddles(text, Gap(text) + spec.block, m, i);
    HashIsFirst(whole, m, i, i);
    BlockParts(spec);
    hide At, GoodSpec, IsMarker, Nowhere, Appended;
    if i < base {
      GapHasNoHash(text, i - |text|);
    } else {
      assert whole[i] == spec.block[i - base];
    }
  }

  lemma {:induction false} BlockSits(text: string, spec: MarkerSpec)
    requires GoodSpec(spec)
    ensures var whole := Appended(text, spec.block);
            var base := |text| + |Gap(text)|;
            && At(whole, spec.block, base) && At(whole, spec.start, base)
            && At(whole, spec.end, base + |spec.block| - 1 - |spec.end|)
            && |spec.block| - 1 - |spec.end| > 0
  {
    hide GoodSpec, Appended, Gap, At;
    var whole := Appended(text, spec.block);
    var base := |text| + |Gap(text)|;
    AppendedShape(text, spec.block);
    AtTheEnd(text + Gap(text), spec.block);
    BlockEnds(spec);
    PartWithin(whole, spec.block, spec.start, base, 0);
    PartWithin(whole, spec.block, spec.end, base, |spec.block| - 1 - |spec.end|);
  }

  lemma {:induction false} AtTheEnd(head: string, block: string)
    ensures At(head + block, block, |head|)
  {
    assert (head + block)[|head|..|head| + |block|] == block;
  }

  lemma {:induction false} SpecMarkers(spec: MarkerSpec)
    requires GoodSpec(spec)
    ensures IsMarker(spec.start) && IsMarker(spec.end)
  {
  }

  lemma {:induction false} MarkersApart(text: string, spec: MarkerSpec, i: int)
    requires GoodSpec(spec)
    ensures !At(text, spec.start, i) || !At(text, spec.end, i)
  {
    if At(text, spec.start, i) && At(text, spec.end, i) {
      MarkersDiffer(text, spec.start, spec.end, i);
    }
  }

  lemma {:induction false} StartOnlyInBlock(text: string, spec: MarkerSpec)
    requires GoodSpec(spec) && Nowhere(text, spec.start)
    ensures Once(Appended(text, spec.block), spec.start)
  {
    hide *;
    var whole := Appended(text, spec.block);
    SpecMarkers(spec);
    BlockSits(text, spec);
    forall k | At(whole, spec.start, k)
      ensures k == |text| + |Gap(text)|
    {
      MarkerOnlyInBlock(text, spec, spec.start, k);
      MarkersApart(whole, spec, k);
    }
    OnceAt(whole, spec.start, |text| + |Gap(text)|);
  }

  lemma {:induction false} EndOnlyInBlock(text: string, spec: MarkerSpec)
    requires GoodSpec(spec) && Nowhere(text, spec.end)
    ensures Once(Appended(text, spec.block), spec.end)
  {
    hide *;
    var whole := Appended(text, spec.block);
    SpecMarkers(spec);
    BlockSits(text, spec);
    forall k | At(whole, spec.end, k)
      ensures k == |text| + |Gap(text)| + |spec.block| - 1 - |spec.end|
    {
      MarkerOnlyInBlock(text, spec, spec.end, k);
      MarkersApart(whole, spec, k);
    }
    OnceAt(whole, spec.end, |text| + |Gap(text)| + |spec.block| - 1 - |spec.end|);
  }

  lemma {:induction false} AppendedIsInstalled(text: string, spec: MarkerSpec)
    requires GoodSpec(spec) && Nowhere(text, spec.start) && Nowhere(text, spec.end)
    ensures Installed(Appended(text, spec.block), spec)
  {
    hide Once, At, Appended, GoodSpec, Nowhere;
    StartOnlyInBlock(text, spec);
    EndOnlyInBlock(text, spec);
    BlockSits(text, spec);
  }

  /** Applying any plan that is not a refusal and preflighting again reports nothing to do. */
  lemma {:induction false} EditIsIdempotent(file: File, spec: MarkerSpec)
    requires GoodSpec(spec) && !Preflight(file, spec).Refuse?
    ensures Preflight(Apply(file, Preflight(file, spec)), spec) == Unchanged
  {
    if file.Missing? {
      assert Appended("", spec.block) == spec.block;
      AppendedIsInstalled("", spec);
      UnchangedIff(spec.block, spec);
    } else {
      var text := file.text;
      CountMeans(text, spec.start);
      CountMeans(text, spec.end);
      hide Count, GoodSpec, IsMarker, Once, Twice, Nowhere;
      if Preflight(file, spec).Update? {
        AppendedIsInstalled(text, spec);
        UnchangedIff(Appended(text, spec.block), spec);
      }
    }
  }

  /** The user's bytes survive every plan; an edit only completes the last line, leaves a blank
      one and adds the block. */
  lemma {:induction false} UserTextSurvives(text: string, spec: MarkerSpec)
    requires GoodSpec(spec)
    ensures var after := Apply(Present(text), Preflight(Present(text), spec));
            && after.Present? && text <= after.text
            && (after.text == text || after.text == text + Gap(text) + spec.block)
  {
    AppendedShape(text, spec.block);
  }

  // What each refusal says about the file.
  ghost predicate Meant(text: string, spec: MarkerSpec, state: MarkerState) {
    match state
    case DuplicateStart => Twice(text, spec.start)
    case DuplicateEnd => Twice(text, spec.end) && !Twice(text, spec.start)
    case StartOnly => Once(text, spec.start) && Nowhere(text, spec.end)
    case EndOnly => Once(text, spec.end) && Nowhere(text, spec.start)
    case Reversed => exists i, j :: OnlyAt(text, spec.start, i) && OnlyAt(text, spec.end, j) && j < i
    case Edited => (exists i, j :: OnlyAt(text, spec.start, i) && OnlyAt(text, spec.end, j) && i < j)
                   && !Installed(text, spec)
    case Exact => Installed(text, spec)
  }

  lemma {:induction false} FirstOfOne(text: string, m: string)
    requires Once(text, m)
    ensures OnlyAt(text, m, Index(text, m))
  {
  }

  /** Every refusal names the true state of the markers, and only damaged files are refused. */
  lemma {:induction false} RefusalIsTrue(text: string, spec: MarkerSpec)
    requires GoodSpec(spec)
    ensures var plan := Preflight(Present(text), spec);
            && (plan.Refuse? ==> plan.state != Exact && Meant(text, spec, plan.state))
            && (plan.Refuse? <==> !Installed(text, spec) && !(Nowhere(text, spec.start) && Nowhere(text, spec.end)))
  {
    CountMeans(text, spec.start);
    CountMeans(text, spec.end);
    UnchangedIff(text, spec);
    var starts, ends := Count(text, spec.start), Count(text, spec.end);
    if starts == 1 && ends == 1 {
      FirstOfOne(text, spec.start);
      FirstOfOne(text, spec.end);
      MarkersApart(text, spec, Index(text, spec.start));
    }
    hide Count, Index, Once, Twice, Nowhere, Installed, IsMarker;
  }
}
