/** Serialised runs of init, pool start, pool restart and pool stop: the registry's guards keep
    every lifecycle record valid (cli/cmd/mill/pool_lifecycle.go, cli/cmd/mill/pool_membership.go). */
module PoolRuns {
  import opened Basics
  import opened Ordering
  import opened RestartRecord
  import opened PoolRegistry
  import opened PoolRecord

  // live is the flag the server keeps; alive is whether the process still runs.
  datatype Served = Served(host: Host, live: bool, alive: bool)

  // A record built for a host; alive says whether its process ran when the operation began.
  datatype Tried = Tried(record: LifecycleRecord, host: Host, alive: bool)

  // What a failed launch leaves registered as live: nothing, a host whose ready marker could
  // not be read back, or one whose initial record could not be written.
  datatype LeftBehind = Nothing | Unmarked | Unrecorded

  datatype PoolWorld = PoolWorld(
    rows: map<string, Row>, revision: string, hosts: map<string, Served>, attempts: seq<Tried>)

  datatype Action =
    | Register(m: Member, live: Ownership, revision: string)
    | Withdraw(dir: string, live: Ownership, revision: string)
    | Start(pool: string, next: Host, facts: Facts, marked: bool)
    | Restart(pool: string, end: Moment, next: Host, facts: Facts, left: LeftBehind)
    | Stop(pool: string, clean: bool)
    | Crash(pool: string)

  // The registered directories of a pool, in document order.
  ghost predicate SnapshotOf(rows: map<string, Row>, pool: string, dirs: seq<string>) {
    StrictlySorted(dirs) && forall d :: d in dirs <==> d in rows && rows[d].pool == pool
  }

  predicate Serves(hosts: map<string, Served>, pool: string, d: string) {
    pool in hosts && hosts[pool].live && hosts[pool].alive && d in HostDirs(hosts[pool].host)
  }

  // Whatever order the hosts are visited in.
  ghost predicate OwnershipOf(hosts: map<string, Served>, live: Ownership) {
    && (forall d :: d in live ==> Serves(hosts, live[d], d))
    && (forall pool, d :: Serves(hosts, pool, d) ==> d in live)
  }

  // The records one restart writes, up to where it ends.
  function Path(end: Moment, left: LeftBehind): seq<Moment> {
    match end
    case ProbeFailed => [ProbeBegun, ProbeFailed]
    case CleanupFailed => [ProbeBegun, CleanupFailed]
    case StopFailed => [ProbeBegun, CutoverBegun, StopFailed]
    case ArtifactsFailed => [ProbeBegun, CutoverBegun, OldStopped, ArtifactsFailed]
    case MarkerFailed => [ProbeBegun, CutoverBegun, OldStopped, MarkerFailed]
    case LaunchFailed =>
      [ProbeBegun, CutoverBegun, OldStopped] + (if left == Unrecorded then [Started] else []) + [LaunchFailed]
    case Replaced => [ProbeBegun, CutoverBegun, OldStopped, Started, Replaced]
    case _ => []
  }

  function Records(path: seq<Moment>, host: Host, next: Host, f: Facts, alive: bool): seq<Tried> {
    seq(|path|, i requires 0 <= i < |path| => Tried(RecordAt(path[i], host, next, f), host, alive))
  }

  // Admission lets no member in without a basis; only the marker's is known to be a fingerprint.
  predicate Based(h: Host) {
    && (forall i :: 0 <= i < |h.members| ==> h.members[i].basis != "")
    && (h.basis != "" ==> ValidFingerprint(h.basis))
  }

  // The marker could not be read back, and the basis the record falls back to is malformed.
  predicate Misbased(h: Host) {
    h.basis == "" && h.members != [] && !ValidFingerprint(h.members[0].basis)
  }

  // A host takes its own basis from the marker, once that is read.
  ghost predicate LaunchedHost(next: Host, pool: string, dirs: seq<string>, marked: bool) {
    && next.pool == pool && SoundHost(next) && HostDirs(next) == dirs
    && Based(next) && (marked <==> next.basis != "")
  }

  ghost predicate Enabled(w: PoolWorld, a: Action) {
    match a
    case Register(m, live, revision) => GoodMember(m) && OwnershipOf(w.hosts, live) && !Blank(revision)
    case Withdraw(dir, live, revision) => Canonical(dir) && OwnershipOf(w.hosts, live) && !Blank(revision)
    case Start(pool, next, f, marked) =>
      (pool in w.hosts ==> !w.hosts[pool].live)
      && SnapshotOf(w.rows, pool, f.dirs) && f.dirs != [] && LaunchedHost(next, pool, f.dirs, marked)
      && GoodFacts(f)
    case Restart(pool, end, next, f, left) =>
      pool in w.hosts && w.hosts[pool].live && Path(end, left) != [] && (left != Nothing ==> end == LaunchFailed)
      && SnapshotOf(w.rows, pool, f.dirs) && f.dirs != [] && GoodFacts(f)
      && (end == Replaced || left != Nothing ==> LaunchedHost(next, pool, f.dirs, left != Unmarked))
      // A member that should answer for its baseline needs a living process.
      && (w.hosts[pool].alive || forall d :: d in HostDirs(w.hosts[pool].host) ==> d !in f.dirs)
    case Stop(pool, _) => pool in w.hosts
    case Crash(pool) => pool in w.hosts
  }

  function Down(s: Served): Served {
    s.(live := false, alive := false)
  }

  function AfterRestart(
    hosts: map<string, Served>, pool: string, end: Moment, next: Host, left: LeftBehind): map<string, Served>
    requires pool in hosts
  {
    match end
    case ArtifactsFailed => hosts[pool := Down(hosts[pool])]
    case MarkerFailed => hosts[pool := Down(hosts[pool])]
    case LaunchFailed => if left == Nothing then hosts - {pool} else hosts[pool := Served(next, true, true)]
    case Replaced => hosts[pool := Served(next, true, true)]
    case _ => hosts
  }

  // A restart whose first record is refused ends there.
  ghost function Do(w: PoolWorld, a: Action): PoolWorld
    requires Enabled(w, a)
  {
    match a
    case Register(m, live, revision) =>
      w.(rows := Reconciled(w.rows, m, live),
         revision := if Reconciled(w.rows, m, live) == w.rows then w.revision else revision)
    case Withdraw(dir, live, revision) =>
      w.(rows := Removed(w.rows, dir, live),
         revision := if Removed(w.rows, dir, live) == w.rows then w.revision else revision)
    case Start(pool, next, f, marked) =>
      w.(hosts := w.hosts[pool := Served(next, true, true)],
         attempts := w.attempts + if marked then [Tried(RecordAt(PoolRecord.Started, next, next, f), next, true)] else [])
    case Restart(pool, end, next, f, left) =>
      var s := w.hosts[pool];
      if !ValidRecord(RecordAt(ProbeBegun, s.host, next, f), ForWrite) then
        w.(attempts := w.attempts + [Tried(RecordAt(ProbeBegun, s.host, next, f), s.host, s.alive)])
      else
        w.(hosts := AfterRestart(w.hosts, pool, end, next, left),
           attempts := w.attempts + Records(Path(end, left), s.host, next, f, s.alive))
    case Stop(pool, clean) =>
      w.(hosts := if clean then w.hosts - {pool} else w.hosts[pool := Down(w.hosts[pool])])
    case Crash(pool) => w.(hosts := w.hosts[pool := w.hosts[pool].(alive := false)])
  }

  /** What a restart whose first record is accepted leaves behind: a replacement, or a host left
      over from a failed launch, serves and serves exactly the registered directories; after a failed
      cutover the old host stays on record, down; a launch that failed outright leaves no host; and
      an earlier failure, like every other pool, leaves all as it was. */
  lemma {:induction false} RestartLeaves(w: PoolWorld, a: Action)
    requires a.Restart? && Enabled(w, a)
    requires ValidRecord(RecordAt(ProbeBegun, w.hosts[a.pool].host, a.next, a.facts), ForWrite)
    ensures var v := Do(w, a);
            && v.rows == w.rows && v.hosts - {a.pool} == w.hosts - {a.pool}
            && (a.end == Replaced || a.left != Nothing ==>
                  a.pool in v.hosts && v.hosts[a.pool] == Served(a.next, true, true)
                  && SnapshotOf(v.rows, a.pool, HostDirs(v.hosts[a.pool].host)))
            && (a.end in {ArtifactsFailed, MarkerFailed} ==>
                  a.pool in v.hosts && v.hosts[a.pool] == Served(w.hosts[a.pool].host, false, false))
            && (a.end == LaunchFailed && a.left == Nothing ==> a.pool !in v.hosts)
            && (a.end in {ProbeFailed, CleanupFailed, StopFailed} ==> v.hosts == w.hosts)
  {
    hide ValidRecord, RecordAt, SnapshotOf, GoodFacts, SoundHost, Based, Records;
  }

  // A served host is well formed, and while it runs all its members stay registered in its pool.
  ghost predicate HostGood(rows: map<string, Row>, pool: string, s: Served) {
    && s.host.pool == pool && SoundHost(s.host) && Based(s.host)
    && (s.live && s.alive ==> forall d :: d in HostDirs(s.host) ==> d in rows && rows[d].pool == pool)
  }

  ghost predicate Good(w: PoolWorld) {
    && (forall d :: d in w.rows ==> Canonical(d))
    && (forall pool :: pool in w.hosts ==> HostGood(w.rows, pool, w.hosts[pool]))
    && AllDecided(w.attempts)
  }

  // A record is valid exactly when its host was alive and has a proper basis.
  ghost predicate Decided(t: Tried) {
    ValidRecord(t.record, ForWrite) <==> t.alive && !Misbased(t.host)
  }

  ghost predicate AllDecided(attempts: seq<Tried>) {
    forall k :: 0 <= k < |attempts| ==> Decided(attempts[k])
  }

  lemma {:induction false} RegisterKeeps(w: PoolWorld, a: Action)
    requires Good(w) && a.Register? && Enabled(w, a)
    ensures Good(Do(w, a))
  {
    hide SoundHost, Based, AllDecided, Canonical, Blank, HostDirs;
    var v := Do(w, a);
    assert Canonical(a.m.configDir);
    forall pool | pool in w.hosts
      ensures HostGood(v.rows, pool, w.hosts[pool])
    {
      var s := w.hosts[pool];
      assert HostGood(w.rows, pool, s);
      forall d | s.live && s.alive && d in HostDirs(s.host)
        ensures d in v.rows && v.rows[d].pool == pool
      {
        assert Serves(w.hosts, pool, d);
        LiveRowsStay(w.rows, a.m, "", a.live, d);
      }
    }
  }

  lemma {:induction false} WithdrawKeeps(w: PoolWorld, a: Action)
    requires Good(w) && a.Withdraw? && Enabled(w, a)
    ensures Good(Do(w, a))
  {
    hide SoundHost, Based, AllDecided, Canonical, Blank, HostDirs;
    var v := Do(w, a);
    forall pool | pool in w.hosts
      ensures HostGood(v.rows, pool, w.hosts[pool])
    {
      var s := w.hosts[pool];
      assert HostGood(w.rows, pool, s);
      forall d | s.live && s.alive && d in HostDirs(s.host)
        ensures d in v.rows && v.rows[d].pool == pool
      {
        assert Serves(w.hosts, pool, d);
      }
    }
  }

  lemma {:induction false} LaunchedIsGood(rows: map<string, Row>, pool: string, next: Host, dirs: seq<string>, marked: bool)
    requires SnapshotOf(rows, pool, dirs) && LaunchedHost(next, pool, dirs, marked)
    ensures HostGood(rows, pool, Served(next, true, true))
    ensures marked ==> LaunchedFrom(next, dirs) && !Misbased(next)
  {
    hide SoundHost, HostDirs, ValidFingerprint;
  }

  // With a basis in every member the record falls back to the first one's.
  lemma {:induction false} FingerprintedIff(h: Host)
    requires SoundHost(h) && Based(h)
    ensures Fingerprinted(h) <==> !Misbased(h)
  {
    hide Canonical, Blank, Distinct, HostDirs, RecordMemberOf, ValidFingerprint;
  }

  lemma {:induction false} StartKeeps(w: PoolWorld, a: Action)
    requires Good(w) && a.Start? && Enabled(w, a)
    ensures Good(Do(w, a))
  {
    hide ValidRecord, RecordAt, SnapshotOf, LaunchedFrom, LaunchedHost, HostGood, GoodFacts, Misbased, AllDecided;
    LaunchedIsGood(w.rows, a.pool, a.next, a.facts.dirs, a.marked);
    if a.marked {
      StartedRecordIsValid(a.next, a.next, a.facts);
      var t := Tried(RecordAt(PoolRecord.Started, a.next, a.next, a.facts), a.next, true);
      assert Decided(t);
      OneDecided(t);
      AttemptsGrow(w.attempts, [t]);
    } else {
      assert w.attempts + [] == w.attempts;
    }
  }

  lemma {:induction false} OneDecided(t: Tried)
    requires Decided(t)
    ensures AllDecided([t])
  {
    hide Decided;
  }

  // The members of a living host are covered, those of a dead one are all gone.
  lemma {:induction false} CoveredIffAlive(w: PoolWorld, pool: string, dirs: seq<string>)
    requires Good(w) && pool in w.hosts && w.hosts[pool].live && SnapshotOf(w.rows, pool, dirs) && dirs != []
    requires w.hosts[pool].alive || forall d :: d in HostDirs(w.hosts[pool].host) ==> d !in dirs
    ensures Covered(w.hosts[pool].host, dirs) <==> w.hosts[pool].alive
    ensures SoundHost(w.hosts[pool].host) && Based(w.hosts[pool].host)
  {
    assert HostGood(w.rows, pool, w.hosts[pool]);
    HostDirsAreCanonical(w.hosts[pool].host);
    hide SoundHost, AllDecided, HostDirs, Based;
    var dir := HostDirs(w.hosts[pool].host)[0];
    assert dir in SetOf(HostDirs(w.hosts[pool].host));
  }

  lemma {:induction false} PathIsValid(end: Moment, left: LeftBehind, host: Host, next: Host, f: Facts)
    requires GoodHost(host) && !Misbased(host) && GoodFacts(f) && Covered(host, f.dirs)
    requires end == Replaced || left == Unrecorded ==> LaunchedFrom(next, f.dirs)
    ensures AllDecided(Records(Path(end, left), host, next, f, true))
  {
    hide SoundHost, Fingerprinted, Misbased, GoodFacts, LaunchedFrom, ValidRecord, RecordAt, Covered;
    var path := Path(end, left);
    forall k | 0 <= k < |path|
      ensures ValidRecord(RecordAt(path[k], host, next, f), ForWrite)
    {
      if path[k] == Moment.Started {
        StartedRecordIsValid(next, host, f);
      } else {
        RecordValidIffCovered(path[k], host, next, f);
      }
    }
  }

  lemma {:induction false} RestartKeeps(w: PoolWorld, a: Action)
    requires Good(w) && a.Restart? && Enabled(w, a)
    ensures Good(Do(w, a))
  {
    hide SoundHost, GoodFacts, ValidRecord, RecordAt, Covered, HostDirs, Path, SnapshotOf, LaunchedFrom, LaunchedHost, Records,
      HostGood, AllDecided, Fingerprinted, Based, Misbased;
    var s := w.hosts[a.pool];
    CoveredIffAlive(w, a.pool, a.facts.dirs);
    FingerprintedIff(s.host);
    RecordValidIffCovered(ProbeBegun, s.host, a.next, a.facts);
    if s.alive && Fingerprinted(s.host) {
      DownIsGood(w, a.pool);
      if a.end == Replaced || a.left != Nothing {
        LaunchedIsGood(w.rows, a.pool, a.next, a.facts.dirs, a.left != Unmarked);
      }
      PathIsValid(a.end, a.left, s.host, a.next, a.facts);
      AttemptsGrow(w.attempts, Records(Path(a.end, a.left), s.host, a.next, a.facts, s.alive));
    } else {
      var t := Tried(RecordAt(ProbeBegun, s.host, a.next, a.facts), s.host, s.alive);
      OneDecided(t);
      AttemptsGrow(w.attempts, [t]);
    }
  }

  lemma {:induction false} DownIsGood(w: PoolWorld, pool: string)
    requires Good(w) && pool in w.hosts
    ensures HostGood(w.rows, pool, Down(w.hosts[pool]))
  {
    hide SoundHost, Based, AllDecided, HostDirs;
    assert HostGood(w.rows, pool, w.hosts[pool]);
  }

  lemma {:induction false} AttemptsGrow(attempts: seq<Tried>, more: seq<Tried>)
    requires AllDecided(attempts) && AllDecided(more)
    ensures AllDecided(attempts + more)
  {
    hide Decided;
  }

  lemma {:induction false} StopKeeps(w: PoolWorld, a: Action)
    requires Good(w) && (a.Stop? || a.Crash?) && Enabled(w, a)
    ensures Good(Do(w, a))
  {
    hide SoundHost, Based, AllDecided, HostDirs, Canonical;
    assert HostGood(w.rows, a.pool, w.hosts[a.pool]);
  }

  /** Every serialised operation keeps the live members registered and the records valid. */
  lemma {:induction false} StepKeepsGood(w: PoolWorld, a: Action)
    requires Good(w) && Enabled(w, a)
    ensures Good(Do(w, a))
  {
    hide Good, Enabled, Do;
    match a {
      case Register(_, _, _) => RegisterKeeps(w, a);
      case Withdraw(_, _, _) => WithdrawKeeps(w, a);
      case Start(_, _, _, _) => StartKeeps(w, a);
      case Restart(_, _, _, _, _) => RestartKeeps(w, a);
      case Stop(_, _) => StopKeeps(w, a);
      case Crash(_) => StopKeeps(w, a);
    }
  }

  ghost predicate StepsTo(w: PoolWorld, a: Action, v: PoolWorld) {
    Enabled(w, a) && v == Do(w, a)
  }

  ghost predicate Step(w: PoolWorld, v: PoolWorld) {
    exists a :: StepsTo(w, a, v)
  }

  ghost predicate StepHere(run: seq<PoolWorld>, i: int)
    requires 0 <= i < |run| - 1
  {
    Step(run[i], run[i + 1])
  }

  ghost predicate IsRun(run: seq<PoolWorld>) {
    && |run| > 0 && run[0] == PoolWorld(map[], "", map[], [])
    && forall i :: 0 <= i < |run| - 1 ==> StepHere(run, i)
  }

  lemma {:induction false} RunStaysGood(run: seq<PoolWorld>, i: nat)
    requires IsRun(run) && i < |run|
    ensures Good(run[i])
  {
    hide Enabled, Do;
    if i > 0 {
      RunStaysGood(run, i - 1);
      hide Good;
      assert StepHere(run, i - 1);
      var a :| StepsTo(run[i - 1], a, run[i]);
      StepKeepsGood(run[i - 1], a);
    }
  }

  // Every member published a proper basis.
  predicate TruthfulMembers(h: Host) {
    forall i :: 0 <= i < |h.members| ==> ValidFingerprint(h.members[i].basis)
  }

  /** Along every serialised run, a record built for a host passes the validator exactly when the
      host's process was alive as the operation began, unless the host went live without its marker
      and its first member published a malformed basis. */
  lemma {:induction false} EveryRecordIsValid(run: seq<PoolWorld>, i: nat, k: nat)
    requires IsRun(run) && i < |run| && k < |run[i].attempts|
    ensures var t := run[i].attempts[k];
            && (ValidRecord(t.record, ForWrite) <==> t.alive && !Misbased(t.host))
            && (TruthfulMembers(t.host) ==> (ValidRecord(t.record, ForWrite) <==> t.alive))
  {
    hide IsRun, ValidRecord, ValidFingerprint;
    RunStaysGood(run, i);
    assert Decided(run[i].attempts[k]);
  }

  /** While a host runs, none of its members leaves the registry or moves to another pool. */
  lemma {:induction false} LiveMembersStayRegistered(run: seq<PoolWorld>, i: nat, pool: string, d: string)
    requires IsRun(run) && i < |run| && Serves(run[i].hosts, pool, d)
    ensures d in run[i].rows && run[i].rows[d].pool == pool
  {
    hide IsRun, AllDecided, SoundHost, HostDirs;
    RunStaysGood(run, i);
    assert HostGood(run[i].rows, pool, run[i].hosts[pool]);
  }

  /** Once the process of a host has died, any of its members can be withdrawn, although the host
      is still marked live: the ownership the guard looks at counts living processes only. */
  lemma {:induction false} CrashedMemberLeaves(
    run: seq<PoolWorld>, i: nat, pool: string, a: string, live: Ownership, revision: string)
    requires IsRun(run) && i < |run| && Serves(run[i].hosts, pool, a) && !Blank(revision)
    requires OwnershipOf(Do(run[i], Crash(pool)).hosts, live)
    ensures var w := Do(run[i], Crash(pool));
            && Enabled(w, Withdraw(a, live, revision))
            && var u := Do(w, Withdraw(a, live, revision));
            && u.rows == run[i].rows - {a} && u.hosts == w.hosts
            && w.hosts[pool].live && !w.hosts[pool].alive
  {
    hide IsRun, AllDecided, SoundHost, HostDirs, Canonical, Blank, GoodFacts, RecordAt, Path;
    RunStaysGood(run, i);
    var w := run[i];
    LiveMembersStayRegistered(run, i, pool, a);
    if a in live {
      var other := live[a];
      assert Serves(Do(w, Crash(pool)).hosts, other, a);
      assert Serves(w.hosts, other, a);
      LiveMembersStayRegistered(run, i, other, a);
      assert false;
    }
  }

  /** Any restart a run can attempt is refused at its first record exactly when the host's process
      has died, or the host went live without its marker and its first member published a malformed
      basis; the refusal leaves every host as it was. */
  lemma {:induction false} RestartIsRefusedIff(run: seq<PoolWorld>, i: nat, a: Action)
    requires IsRun(run) && i < |run| && a.Restart? && Enabled(run[i], a)
    ensures var s := run[i].hosts[a.pool];
            var refused := !ValidRecord(RecordAt(ProbeBegun, s.host, a.next, a.facts), ForWrite);
            && (refused <==> !s.alive || Misbased(s.host))
            && (TruthfulMembers(s.host) ==> (refused <==> !s.alive))
            && (refused ==> Do(run[i], a).hosts == run[i].hosts)
  {
    hide IsRun, ValidRecord, Fingerprinted, SoundHost, Based, RecordAt, GoodFacts, Covered, HostDirs, Records, Path, SnapshotOf,
      LaunchedHost, AllDecided, HostGood, ValidFingerprint;
    RunStaysGood(run, i);
    CoveredIffAlive(run[i], a.pool, a.facts.dirs);
    FingerprintedIff(run[i].hosts[a.pool].host);
    RecordValidIffCovered(ProbeBegun, run[i].hosts[a.pool].host, a.next, a.facts);
  }

  /** The guards do not cover a host whose process died while it is still marked live: once none
      of its members is left in the pool, every restart of the pool is refused. */
  lemma {:induction false} CrashedHostBlocksRestart(
    run: seq<PoolWorld>, i: nat, pool: string, end: Moment, next: Host, f: Facts)
    requires IsRun(run) && i < |run| && pool in run[i].hosts
    requires run[i].hosts[pool].live && !run[i].hosts[pool].alive
    requires forall d :: d in HostDirs(run[i].hosts[pool].host) ==> d !in f.dirs
    requires GoodFacts(f) && SnapshotOf(run[i].rows, pool, f.dirs) && f.dirs != []
    requires Path(end, Nothing) != [] && end != Replaced
    ensures Enabled(run[i], Restart(pool, end, next, f, Nothing))
    ensures !ValidRecord(RecordAt(ProbeBegun, run[i].hosts[pool].host, next, f), ForWrite)
    ensures Do(run[i], Restart(pool, end, next, f, Nothing)).hosts == run[i].hosts
  {
    hide IsRun, ValidRecord, Fingerprinted, RecordAt, GoodFacts, HostDirs, Records, Path, SnapshotOf, LaunchedHost;
    RestartIsRefusedIff(run, i, Restart(pool, end, next, f, Nothing));
  }
}
