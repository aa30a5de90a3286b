/** The lifecycle record of a pooled host: its validator, and the records the lifecycle builds
    (cli/cmd/mill/pool_restart_record.go, cli/cmd/mill/pool_lifecycle.go). */
module PoolRecord {
  import opened Basics
  import opened Ordering
  import opened RestartRecord
  import opened PoolRegistry

  datatype RecordMember = RecordMember(configDir: string, weaverID: string, generationID: string)

  datatype RecordHost = RecordHost(
    hostID: string, generation: string, pid: int, basis: string, members: seq<RecordMember>)

  datatype PoolFailure = PoolFailure(stage: string, message: string, logPath: string, exitEvidence: string)

  datatype LifecycleRecord = LifecycleRecord(
    format: string, pool: string, state: State, transitionID: string, updatedAt: string, revision: string,
    oldStopped: bool, admitted: Option<RecordHost>, previous: Option<RecordHost>,
    registered: seq<string>, pending: seq<string>, probe: Option<Probe>, failure: Option<PoolFailure>)

  const RecordFormat := "millstrand.jvm-pool-restart/v1"

  // ------------------------------------------------------------ the validator

  predicate IsHex(c: char) {
    ('0' <= c <= '9') || ('a' <= c <= 'f')
  }

  predicate ValidFingerprint(s: string) {
    |s| == 71 && s[..7] == "sha256:" && forall i :: 7 <= i < |s| ==> IsHex(s[i])
  }

  predicate ValidDirs(dirs: seq<string>) {
    (forall i :: 0 <= i < |dirs| ==> Canonical(dirs[i])) && StrictlySorted(dirs)
  }

  function MemberDirs(members: seq<RecordMember>): seq<string> {
    seq(|members|, i requires 0 <= i < |members| => members[i].configDir)
  }

  predicate ValidHost(h: RecordHost) {
    && !Blank(h.hostID) && !Blank(h.generation) && h.pid > 0 && ValidFingerprint(h.basis)
    && |h.members| > 0
    && (forall i :: 0 <= i < |h.members| ==> !Blank(h.members[i].weaverID) && !Blank(h.members[i].generationID))
    && ValidDirs(MemberDirs(h.members))
  }

  function SetOf(values: seq<string>): set<string> {
    set v | v in values
  }

  function HostSet(h: RecordHost): set<string> {
    SetOf(MemberDirs(h.members))
  }

  // Which members are admitted, previous or pending must add up to the registered ones.
  predicate SetRelations(r: LifecycleRecord) {
    var registered, pending := SetOf(r.registered), SetOf(r.pending);
    && (r.admitted.Some? ==>
          HostSet(r.admitted.value) <= registered && pending == registered - HostSet(r.admitted.value))
    && (r.previous.Some? ==> HostSet(r.previous.value) <= registered)
    && (r.previous.Some? && r.admitted.None? ==> pending == registered - HostSet(r.previous.value))
    && (r.admitted.Some? || r.previous.Some?)
  }

  predicate ValidFailure(f: PoolFailure) {
    && !Blank(f.stage) && !Blank(f.message)
    && (f.logPath != "" ==> !Blank(f.logPath)) && (f.exitEvidence != "" ==> !Blank(f.exitEvidence))
  }

  predicate SucceededProbe(r: LifecycleRecord) {
    r.probe.Some? && r.probe.value.success
  }

  predicate ValidForState(r: LifecycleRecord) {
    match r.state
    case Probing =>
      r.admitted.Some? && r.previous.None? && !r.oldStopped && r.failure.None?
      && (r.probe.Some? ==> r.probe.value.success)
    case Restarting => r.admitted.None? && r.previous.Some? && r.failure.None? && SucceededProbe(r)
    case Running =>
      r.admitted.Some?
      && (if r.previous.None? then
            !r.oldStopped
            && (if r.failure.None? then r.probe.None? && r.pending == []
                else r.failure.value.stage == "probe" && r.probe.Some? && !r.probe.value.success)
          else SucceededProbe(r) && r.oldStopped && r.pending == [] && r.failure.None?)
    case Failed => r.admitted.None? && r.previous.Some? && SucceededProbe(r) && r.failure.Some?
    case Unknown(_) => false
  }

  predicate ValidRecord(r: LifecycleRecord, mode: Mode) {
    && r.format == RecordFormat
    && !Blank(r.pool) && !Blank(r.transitionID) && !Blank(r.revision)
    && (if mode == ForWrite then r.updatedAt == "" else !Blank(r.updatedAt))
    && ValidDirs(r.registered) && ValidDirs(r.pending)
    && (r.admitted.Some? ==> ValidHost(r.admitted.value))
    && (r.previous.Some? ==> ValidHost(r.previous.value))
    && SetRelations(r)
    && (r.probe.Some? ==> GoodProbe(r.probe.value))
    && (r.failure.Some? ==> ValidFailure(r.failure.value))
    && ValidForState(r)
  }

  // ------------------------------------------------------------ the set helpers

  method CollectSet(values: seq<string>) returns (s: set<string>)
    ensures s == SetOf(values)
  {
    s := {};
    for i := 0 to |values|
      invariant s == SetOf(values[..i])
    {
      assert values[..i + 1] == values[..i] + [values[i]];
      s := s + {values[i]};
    }
    assert values[..|values|] == values;
  }

  method Difference(left: set<string>, right: set<string>) returns (d: set<string>)
    ensures d == left - right
  {
    d := {};
    var rest := left;
    while rest != {}
      invariant rest <= left && d == (left - rest) - right
      decreases rest
    {
      var v :| v in rest;
      rest := rest - {v};
      if v !in right {
        d := d + {v};
      }
    }
  }

  method Subset(values: set<string>, universe: set<string>) returns (ok: bool)
    ensures ok <==> values <= universe
  {
    var rest := values;
    while rest != {}
      invariant rest <= values && values - rest <= universe
      decreases rest
    {
      var v :| v in rest;
      if v !in universe {
        return false;
      }
      rest := rest - {v};
    }
    ok := true;
  }

  // Canonical, without repetition, and sorted.
  method ValidateDirs(dirs: seq<string>) returns (ok: bool)
    ensures ok <==> ValidDirs(dirs)
  {
    hide Less, Canonical;
    var seen: set<string> := {};
    for i := 0 to |dirs|
      invariant forall k :: 0 <= k < i ==> Canonical(dirs[k])
      invariant forall k :: 1 <= k < i ==> Less(dirs[k - 1], dirs[k])
      invariant forall d :: d in seen <==> exists k :: 0 <= k < i && dirs[k] == d
    {
      if !Canonical(dirs[i]) {
        return false;
      }
      if dirs[i] in seen {
        RepeatedDir(dirs, i);
        return false;
      }
      seen := seen + {dirs[i]};
      if i > 0 && !Less(dirs[i - 1], dirs[i]) {
        return false;
      }
    }
    NeighboursSort(dirs);
    ok := true;
  }

  lemma {:induction false} RepeatedDir(dirs: seq<string>, i: nat)
    requires i < |dirs| && exists k :: 0 <= k < i && dirs[k] == dirs[i]
    ensures !StrictlySorted(dirs)
  {
    var k :| 0 <= k < i && dirs[k] == dirs[i];
    LessIrreflexive(dirs[i]);
    assert !Less(dirs[k], dirs[i]);
  }

  method CheckSetRelations(r: LifecycleRecord) returns (ok: bool)
    ensures ok <==> SetRelations(r)
  {
    var registered := CollectSet(r.registered);
    var pending := CollectSet(r.pending);
    if r.admitted.Some? {
      var admitted := CollectSet(MemberDirs(r.admitted.value.members));
      var within := Subset(admitted, registered);
      var missing := Difference(registered, admitted);
      if !within || pending != missing {
        return false;
      }
    }
    if r.previous.Some? {
      var previous := CollectSet(MemberDirs(r.previous.value.members));
      var within := Subset(previous, registered);
      if !within {
        return false;
      }
      if r.admitted.None? {
        var missing := Difference(registered, previous);
        if pending != missing {
          return false;
        }
      }
      return true;
    }
    ok := r.admitted.Some?;
  }

  // ------------------------------------------------------------ hosts and their records

  datatype HostMember = HostMember(
    configDir: string, weaverID: string, generationID: string,
    identityWeaver: string, identityGeneration: string, basis: string)

  datatype Host = Host(
    pool: string, hostID: string, generation: string, pid: int, basis: string, members: seq<HostMember>)

  function HostDirs(h: Host): seq<string> {
    seq(|h.members|, i requires 0 <= i < |h.members| => h.members[i].configDir)
  }

  function FirstBasis(members: seq<HostMember>): string {
    if members == [] then "" else if members[0].basis != "" then members[0].basis else FirstBasis(members[1..])
  }

  function BasisOf(h: Host): string {
    if h.basis != "" then h.basis else FirstBasis(h.members)
  }

  // The published identity when there is one, the launched one otherwise.
  function RecordMemberOf(m: HostMember): RecordMember {
    RecordMember(m.configDir,
                 if m.identityWeaver == "" then m.weaverID else m.identityWeaver,
                 if m.identityGeneration == "" then m.generationID else m.identityGeneration)
  }

  predicate ByConfigDir(a: RecordMember, b: RecordMember) {
    Less(a.configDir, b.configDir)
  }

  function RecordHostOf(h: Host): Option<RecordHost> {
    if h.members == [] || BasisOf(h) == "" then None
    else
      Some(RecordHost(h.hostID, h.generation, h.pid, BasisOf(h),
                      SortBy(ByConfigDir, RecordMembersOf(h))))
  }

  function PendingDirs(h: Host, registered: seq<string>): seq<string> {
    if registered == [] then []
    else
      var last := registered[|registered| - 1];
      PendingDirs(h, registered[..|registered| - 1]) + if last in HostDirs(h) then [] else [last]
  }

  // The registered directories that the host does not serve, in order.
  method CollectPending(h: Host, registered: seq<string>) returns (pending: seq<string>)
    ensures pending == PendingDirs(h, registered)
  {
    var seen := CollectSet(HostDirs(h));
    pending := [];
    for i := 0 to |registered|
      invariant pending == PendingDirs(h, registered[..i])
    {
      assert registered[..i + 1][..i] == registered[..i];
      if registered[i] !in seen {
        pending := pending + [registered[i]];
      }
    }
    assert registered[..|registered|] == registered;
  }

  function Build(
    h: Host, dirs: seq<string>, revision: string, state: State, transitionID: string, probe: Option<Probe>,
    failure: Option<PoolFailure>, stopped: bool, previous: Option<Host>): LifecycleRecord
  {
    var registered := if dirs == [] then HostDirs(h) else dirs;
    LifecycleRecord(
      RecordFormat, h.pool, state, transitionID, "", revision, stopped,
      if state == Probing || state == Running then RecordHostOf(h) else None,
      if state == Restarting || state == Failed then RecordHostOf(if previous.Some? then previous.value else h)
      else if state == Running && previous.Some? then RecordHostOf(previous.value) else None,
      registered, PendingDirs(h, registered), probe, failure)
  }

  // What a launched host brings along: its members, in any order, each listed once.
  ghost predicate SoundHost(h: Host) {
    && !Blank(h.pool) && !Blank(h.hostID) && !Blank(h.generation) && h.pid > 0 && |h.members| > 0
    && (forall i :: 0 <= i < |h.members| ==> Canonical(h.members[i].configDir)) && Distinct(HostDirs(h))
    && (forall i :: 0 <= i < |h.members| ==>
          !Blank(RecordMemberOf(h.members[i]).weaverID) && !Blank(RecordMemberOf(h.members[i]).generationID))
  }

  // The host, or else its first member that has one, carries a proper basis fingerprint.
  predicate Fingerprinted(h: Host) {
    ValidFingerprint(BasisOf(h))
  }

  ghost predicate GoodHost(h: Host) {
    SoundHost(h) && Fingerprinted(h)
  }

  lemma {:induction false} ByConfigDirIsStrictWeak()
    ensures StrictWeakOrder(ByConfigDir)
  {
    forall a: RecordMember, b: RecordMember | ByConfigDir(a, b)
      ensures !ByConfigDir(b, a)
    {
      NotBothWays(a.configDir, b.configDir);
    }
    forall a: RecordMember, b: RecordMember, c: RecordMember | !ByConfigDir(a, b) && !ByConfigDir(b, c)
      ensures !ByConfigDir(a, c)
    {
      NotLessTransitive(a.configDir, b.configDir, c.configDir);
    }
  }

  function RecordMembersOf(h: Host): seq<RecordMember> {
    seq(|h.members|, i requires 0 <= i < |h.members| => RecordMemberOf(h.members[i]))
  }

  lemma {:induction false} SameDirs(h: Host)
    ensures MemberDirs(RecordMembersOf(h)) == HostDirs(h)
  {
    hide RecordMemberOf;
    forall i | 0 <= i < |h.members|
      ensures MemberDirs(RecordMembersOf(h))[i] == HostDirs(h)[i]
    {
      SameDir(h.members[i]);
    }
  }

  // Members with different directories sort into strict order.
  lemma {:induction false} SortRecordMembers(members: seq<RecordMember>)
    requires Distinct(MemberDirs(members))
    ensures var sorted := SortBy(ByConfigDir, members);
            StrictlySorted(MemberDirs(sorted)) && |sorted| == |members| && forall m :: m in sorted <==> m in members
  {
    var sorted := SortBy(ByConfigDir, members);
    assert Distinct(members) by {
      forall i, j | 0 <= i < j < |members|
        ensures members[i] != members[j]
      {
        assert MemberDirs(members)[i] != MemberDirs(members)[j];
      }
    }
    ByConfigDirIsStrictWeak();
    SortByIsSorted(ByConfigDir, members);
    SortByKeepsElements(ByConfigDir, members);
    SameMultisetFacts(members, sorted);
    hide SortBy, StrictWeakOrder, Less;
    forall i, j | 0 <= i < j < |sorted|
      ensures Less(MemberDirs(sorted)[i], MemberDirs(sorted)[j])
    {
      assert !ByConfigDir(sorted[j], sorted[i]) && sorted[i] != sorted[j];
      assert sorted[i] in sorted && sorted[j] in sorted;
      var k :| 0 <= k < |members| && members[k] == sorted[i];
      var l :| 0 <= l < |members| && members[l] == sorted[j];
      assert MemberDirs(members)[k] != MemberDirs(members)[l];
      LessTotal(sorted[i].configDir, sorted[j].configDir);
    }
  }

  // A published name wins over the one the process was launched with.
  predicate Named(published: string, launched: string, name: string) {
    if published != "" then name == published else name == launched
  }

  /** The record lists every member of its host by the identity it has published, or failing that by
      the one it was launched with. */
  lemma {:induction false} RecordNamesMembers(h: Host, m: HostMember)
    requires SoundHost(h) && m in h.members && RecordHostOf(h).Some?
    ensures exists r :: r in RecordHostOf(h).value.members && r.configDir == m.configDir
                        && Named(m.identityWeaver, m.weaverID, r.weaverID)
                        && Named(m.identityGeneration, m.generationID, r.generationID)
  {
    hide Less, Canonical, Blank, ValidFingerprint, FirstBasis, SortBy;
    var members := RecordMembersOf(h);
    SameDirs(h);
    SortRecordMembers(members);
    var i :| 0 <= i < |h.members| && h.members[i] == m;
    assert members[i] == RecordMemberOf(m);
    assert members[i] in RecordHostOf(h).value.members;
  }

  /** Whatever order a host lists its members in, its record lists the same members and passes
      the record's host check exactly when the host is fingerprinted. */
  lemma {:induction false} GoodHostIsValid(h: Host)
    requires SoundHost(h)
    ensures RecordHostOf(h).Some? && ValidHost(RecordHostOf(h).value) <==> Fingerprinted(h)
    ensures RecordHostOf(h).Some? ==> HostSet(RecordHostOf(h).value) == SetOf(HostDirs(h))
  {
    var members := RecordMembersOf(h);
    var sorted := SortBy(ByConfigDir, members);
    hide Less, Canonical, Blank, ValidFingerprint, FirstBasis, RecordMemberOf;
    if Fingerprinted(h) {
      NotEmptyFingerprint(BasisOf(h));
    }
    SameDirs(h);
    SortRecordMembers(members);
    hide SortBy, Distinct;
    forall i | 0 <= i < |sorted|
      ensures !Blank(sorted[i].weaverID) && !Blank(sorted[i].generationID) && Canonical(sorted[i].configDir)
    {
      assert sorted[i] in sorted;
      var k :| 0 <= k < |members| && members[k] == sorted[i];
      assert MemberDirs(members)[k] == HostDirs(h)[k];
    }
    DirsAsSet(members, sorted);
    assert RecordHostOf(h).Some? ==> RecordHostOf(h).value.members == sorted;
  }

  lemma {:induction false} DirsAsSet(members: seq<RecordMember>, sorted: seq<RecordMember>)
    requires forall m :: m in sorted <==> m in members
    ensures SetOf(MemberDirs(sorted)) == SetOf(MemberDirs(members))
  {
    forall d
      ensures d in MemberDirs(sorted) <==> d in MemberDirs(members)
    {
      DirAmong(members, d);
      DirAmong(sorted, d);
    }
  }

  lemma {:induction false} DirAmong(members: seq<RecordMember>, d: string)
    ensures d in MemberDirs(members) <==> exists m :: m in members && m.configDir == d
  {
    if d in MemberDirs(members) {
      var i :| 0 <= i < |members| && MemberDirs(members)[i] == d;
      assert members[i] in members;
    }
    if m :| m in members && m.configDir == d {
      var i :| 0 <= i < |members| && members[i] == m;
      assert MemberDirs(members)[i] == d;
    }
  }

  lemma {:induction false} NotEmptyFingerprint(s: string)
    requires ValidFingerprint(s)
    ensures s != ""
  {
  }

  lemma {:induction false} SameDir(m: HostMember)
    ensures RecordMemberOf(m).configDir == m.configDir
  {
  }

  lemma {:induction false} NotBothWays(a: string, b: string)
    requires Less(a, b)
    ensures !Less(b, a)
  {
    if Less(b, a) {
      LessTransitive(a, b, a);
      LessIrreflexive(a);
    }
  }

  lemma {:induction false} PendingIsTheRest(h: Host, registered: seq<string>)
    requires ValidDirs(registered)
    ensures ValidDirs(PendingDirs(h, registered))
    ensures forall d :: d in PendingDirs(h, registered) <==> d in registered && d !in HostDirs(h)
  {
    hide Less, Canonical;
    if registered != [] {
      var init, last := registered[..|registered| - 1], registered[|registered| - 1];
      assert registered == init + [last];
      assert ValidDirs(init);
      PendingIsTheRest(h, init);
      var rest := PendingDirs(h, init);
      if last !in HostDirs(h) {
        AppendDir(rest, init, last);
      } else {
        assert rest + [] == rest;
      }
    }
  }

  lemma {:induction false} AppendDir(rest: seq<string>, init: seq<string>, last: string)
    requires ValidDirs(rest) && ValidDirs(init + [last]) && forall d :: d in rest ==> d in init
    ensures ValidDirs(rest + [last])
  {
    hide Less, Canonical;
    assert (init + [last])[|init|] == last;
    forall i | 0 <= i < |rest|
      ensures Less(rest[i], last)
    {
      assert rest[i] in init;
      var k :| 0 <= k < |init| && init[k] == rest[i];
      assert (init + [last])[k] == rest[i];
    }
  }

  // ------------------------------------------------------------ the records of one lifecycle

  datatype Moment =
    | Started | ProbeBegun | ProbeFailed | CleanupFailed | CutoverBegun | StopFailed
    | OldStopped | ArtifactsFailed | MarkerFailed | LaunchFailed | Replaced

  datatype Facts = Facts(
    dirs: seq<string>, revision: string, transitionID: string, passed: Probe, refused: Probe, message: string, logPath: string)

  function FailureAt(stage: string, f: Facts): Option<PoolFailure> {
    Some(PoolFailure(stage, f.message, f.logPath, ""))
  }

  // The record written at each moment; host is the admitted one, next its replacement.
  function RecordAt(m: Moment, host: Host, next: Host, f: Facts): LifecycleRecord {
    match m
    case Started => Build(next, f.dirs, f.revision, Running, f.transitionID, None, None, false, None)
    case ProbeBegun => Build(host, f.dirs, f.revision, Probing, f.transitionID, None, None, false, None)
    case ProbeFailed =>
      Build(host, f.dirs, f.revision, Running, f.transitionID, Some(f.refused), FailureAt("probe", f), false, None)
    case CleanupFailed =>
      Build(host, f.dirs, f.revision, Failed, f.transitionID, Some(f.passed), FailureAt("probe-cleanup", f), false, Some(host))
    case CutoverBegun =>
      Build(host, f.dirs, f.revision, Restarting, f.transitionID, Some(f.passed), None, false, Some(host))
    case StopFailed =>
      Build(host, f.dirs, f.revision, Failed, f.transitionID, Some(f.passed), FailureAt("stop", f), false, Some(host))
    case OldStopped =>
      Build(host, f.dirs, f.revision, Restarting, f.transitionID, Some(f.passed), None, true, Some(host))
    case ArtifactsFailed =>
      Build(host, f.dirs, f.revision, Failed, f.transitionID, Some(f.passed), FailureAt("artifact-cleanup", f), true, Some(host))
    case MarkerFailed =>
      Build(host, f.dirs, f.revision, Failed, f.transitionID, Some(f.passed), FailureAt("marker-cleanup", f), true, Some(host))
    case LaunchFailed =>
      Build(host, f.dirs, f.revision, Failed, f.transitionID, Some(f.passed), FailureAt("launch", f), true, Some(host))
    case Replaced =>
      Build(next, f.dirs, f.revision, Running, f.transitionID, Some(f.passed), None, true, Some(host))
  }

  ghost predicate GoodFacts(f: Facts) {
    && ValidDirs(f.dirs) && !Blank(f.revision) && !Blank(f.transitionID) && !Blank(f.message)
    && (f.logPath != "" ==> !Blank(f.logPath))
    && GoodProbe(f.passed) && f.passed.success && GoodProbe(f.refused) && !f.refused.success
  }

  // The live members are still registered; when nothing is, their own order must do.
  predicate Covered(host: Host, dirs: seq<string>) {
    if dirs == [] then StrictlySorted(HostDirs(host)) else SetOf(HostDirs(host)) <= SetOf(dirs)
  }

  ghost predicate LaunchedFrom(next: Host, dirs: seq<string>) {
    GoodHost(next) && HostDirs(next) == dirs
  }

  // Everything a record needs besides its set relations.
  ghost predicate SoundApart(r: LifecycleRecord) {
    && r.format == RecordFormat && !Blank(r.pool) && !Blank(r.transitionID) && !Blank(r.revision) && r.updatedAt == ""
    && (r.probe.Some? ==> GoodProbe(r.probe.value)) && (r.failure.Some? ==> ValidFailure(r.failure.value))
    && ValidForState(r)
  }

  lemma {:induction false} ValidIffRelations(r: LifecycleRecord)
    requires SoundApart(r) && ValidDirs(r.registered) && ValidDirs(r.pending)
    requires r.admitted.Some? ==> ValidHost(r.admitted.value)
    requires r.previous.Some? ==> ValidHost(r.previous.value)
    ensures ValidRecord(r, ForWrite) <==> SetRelations(r)
  {
    hide Blank, GoodProbe, ValidFailure, ValidForState, ValidDirs, ValidHost, SetRelations;
  }

  lemma {:induction false} RelationsOfOneHost(r: LifecycleRecord, h: RecordHost, dirs: seq<string>)
    requires r.admitted == Some(h) || r.admitted == None
    requires r.previous == Some(h) || r.previous == None
    requires r.admitted.Some? || r.previous.Some?
    requires HostSet(h) == SetOf(dirs) && SetOf(r.pending) == SetOf(r.registered) - SetOf(dirs)
    ensures SetRelations(r) <==> SetOf(dirs) <= SetOf(r.registered)
  {
    hide SetOf, MemberDirs;
  }

  // A record naming one good host only, admitted or previous, is valid exactly when it is covered.
  lemma {:induction false} OneHostRecord(h: Host, r: LifecycleRecord, dirs: seq<string>)
    requires GoodHost(h) && SoundApart(r) && ValidDirs(dirs)
    requires r.registered == (if dirs == [] then HostDirs(h) else dirs) && r.pending == PendingDirs(h, r.registered)
    requires r.admitted in {None, RecordHostOf(h)} && r.previous in {None, RecordHostOf(h)}
    requires r.admitted.Some? || r.previous.Some?
    ensures ValidRecord(r, ForWrite) <==> Covered(h, dirs)
  {
    hide Blank, ValidHost, RecordHostOf, SoundApart, SetRelations, SoundHost, HostDirs, HostSet, PendingDirs, SetOf, Canonical,
      StrictlySorted, GoodProbe, ValidFailure, ValidForState;
    GoodHostIsValid(h);
    HostDirsAreCanonical(h);
    if ValidDirs(r.registered) {
      PendingSet(h, r.registered);
      hide ValidRecord;
      ValidIffRelations(r);
      RelationsOfOneHost(r, RecordHostOf(h).value, HostDirs(h));
    }
  }

  lemma {:induction false} PendingSet(h: Host, registered: seq<string>)
    requires ValidDirs(registered)
    ensures ValidDirs(PendingDirs(h, registered))
    ensures SetOf(PendingDirs(h, registered)) == SetOf(registered) - SetOf(HostDirs(h))
  {
    hide ValidDirs, PendingDirs, HostDirs;
    PendingIsTheRest(h, registered);
  }

  // Every record but the first names the admitted host and needs its fingerprint.
  lemma {:induction false} NeedsFingerprint(m: Moment, host: Host, next: Host, f: Facts)
    requires ValidRecord(RecordAt(m, host, next, f), ForWrite) && m != Started
    ensures Fingerprinted(host)
  {
    hide Blank, GoodProbe, ValidDirs, HostDirs, PendingDirs, FirstBasis, ValidFingerprint, RecordMemberOf, SetRelations, MemberDirs,
      SortBy, RecordMembersOf;
  }

  lemma {:induction false} MomentIsSound(m: Moment, host: Host, next: Host, f: Facts)
    requires GoodHost(host) && GoodFacts(f) && m != Started && m != Replaced
    ensures SoundApart(RecordAt(m, host, next, f))
    ensures var r := RecordAt(m, host, next, f);
            && r.registered == (if f.dirs == [] then HostDirs(host) else f.dirs)
            && r.pending == PendingDirs(host, r.registered)
            && r.admitted in {None, RecordHostOf(host)} && r.previous in {None, RecordHostOf(host)}
            && (r.admitted.Some? || r.previous.Some?)
  {
    hide Blank, GoodProbe, ValidDirs, RecordHostOf, HostDirs, PendingDirs, BasisOf, ValidFingerprint, RecordMemberOf, ValidHost;
    GoodHostIsValid(host);
    StagesAreNotBlank();
  }

  /** A record the lifecycle builds for a host passes the validator exactly when the host is
      fingerprinted and its live members are among the registered ones. */
  lemma {:induction false} RecordValidIffCovered(m: Moment, host: Host, next: Host, f: Facts)
    requires SoundHost(host) && GoodFacts(f) && m != Started && (m == Replaced ==> LaunchedFrom(next, f.dirs))
    ensures ValidRecord(RecordAt(m, host, next, f), ForWrite) <==> Covered(host, f.dirs) && Fingerprinted(host)
  {
    hide SoundHost, RecordAt, SoundApart, ValidRecord, Covered, HostDirs, PendingDirs, RecordHostOf, ValidDirs, GoodProbe, Blank,
      Fingerprinted, LaunchedFrom;
    if !Fingerprinted(host) {
      if ValidRecord(RecordAt(m, host, next, f), ForWrite) {
        NeedsFingerprint(m, host, next, f);
      }
    } else if m == Replaced {
      ReplacedValidIff(host, next, f);
    } else {
      MomentIsSound(m, host, next, f);
      OneHostRecord(host, RecordAt(m, host, next, f), f.dirs);
    }
  }

  lemma {:induction false} HostDirsAreCanonical(h: Host)
    requires SoundHost(h)
    ensures HostDirs(h) != [] && forall i :: 0 <= i < |HostDirs(h)| ==> Canonical(HostDirs(h)[i])
  {
    hide Canonical;
  }

  lemma {:induction false} StagesAreNotBlank()
    ensures !Blank("probe") && !Blank("probe-cleanup") && !Blank("stop")
    ensures !Blank("artifact-cleanup") && !Blank("marker-cleanup") && !Blank("launch")
  {
    assert !IsSpace("probe"[0]) && !IsSpace("probe-cleanup"[0]) && !IsSpace("stop"[0]);
    assert !IsSpace("artifact-cleanup"[0]) && !IsSpace("marker-cleanup"[0]) && !IsSpace("launch"[0]);
  }

  lemma {:induction false} NothingPending(h: Host, registered: seq<string>)
    requires forall d :: d in registered ==> d in HostDirs(h)
    ensures PendingDirs(h, registered) == []
  {
    if registered != [] {
      var init := registered[..|registered| - 1];
      assert registered == init + [registered[|registered| - 1]];
      NothingPending(h, init);
    }
  }

  lemma {:induction false} NoDirsAreValid()
    ensures ValidDirs([]) && SetOf([]) == {}
  {
  }

  // A host launched from the snapshot leaves nothing pending.
  lemma {:induction false} FreshHostFacts(next: Host, dirs: seq<string>)
    requires LaunchedFrom(next, dirs) && ValidDirs(dirs)
    ensures RecordHostOf(next).Some? && ValidHost(RecordHostOf(next).value) && HostSet(RecordHostOf(next).value) == SetOf(dirs)
    ensures dirs != [] && PendingDirs(next, dirs) == [] && ValidDirs([]) && SetOf([]) == {}
    ensures !Blank(next.pool)
  {
    GoodHostIsValid(next);
    HostDirsAreCanonical(next);
    NothingPending(next, dirs);
    NoDirsAreValid();
    hide RecordHostOf, ValidHost, ValidDirs, HostDirs, PendingDirs, ValidFingerprint, HostSet, Canonical;
  }

  lemma {:induction false} ReplacedValidIff(host: Host, next: Host, f: Facts)
    requires GoodHost(host) && GoodFacts(f) && LaunchedFrom(next, f.dirs)
    ensures ValidRecord(RecordAt(Replaced, host, next, f), ForWrite) <==> Covered(host, f.dirs)
  {
    hide Blank, GoodProbe, ValidHost, ValidDirs, RecordHostOf, HostDirs, PendingDirs, SoundHost, Fingerprinted, HostSet, SetOf, ValidRecord;
    GoodHostIsValid(host);
    FreshHostFacts(next, f.dirs);
    var r := RecordAt(Replaced, host, next, f);
    assert SoundApart(r);
    ValidIffRelations(r);
    EmptyDifference(SetOf(f.dirs));
  }

  lemma {:induction false} EmptyDifference(s: set<string>)
    ensures s - s == {}
  {
  }

  /** A freshly launched host has a valid initial record. */
  lemma {:induction false} StartedRecordIsValid(next: Host, host: Host, f: Facts)
    requires LaunchedFrom(next, f.dirs) && GoodFacts(f)
    ensures ValidRecord(RecordAt(Started, host, next, f), ForWrite)
  {
    hide Blank, GoodProbe, ValidHost, ValidDirs, RecordHostOf, HostDirs, PendingDirs, GoodHost, MemberDirs, SetOf, ValidRecord, LaunchedFrom;
    FreshHostFacts(next, f.dirs);
    var r := RecordAt(Started, host, next, f);
    assert SoundApart(r);
    ValidIffRelations(r);
    EmptyDifference(SetOf(f.dirs));
  }
}
