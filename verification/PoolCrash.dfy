/** Two runs that end in a refused lifecycle record: a host dies, its member is withdrawn, and the
    workspace registered in the meantime cannot be served; and a running host that went live without
    its marker while its member published a malformed basis. */
module PoolCrash {
  import opened Basics
  import opened Ordering
  import opened RestartRecord
  import opened PoolRegistry
  import opened PoolRecord
  import opened PoolRuns

  function MemberAt(dir: string): Member {
    Member(dir, "/", "p")
  }

  function Fingerprint(): string {
    "sha256:" + seq(64, _ => '0')
  }

  function FirstHost(): Host {
    Host("p", "h", "g", 1, Fingerprint(), [HostMember("/a", "w", "g", "", "", Fingerprint())])
  }

  function FactsOf(dir: string): Facts {
    Facts([dir], "r", "t", Probe(true, "probe/complete", "p", "s", "l", [], true),
          Probe(false, "probe/failure", "p", "s", "l", [], true), "m", "")
  }

  // Register a, start its host, register b, lose the process, withdraw a, restart.
  function Steps(): seq<Action> {
    [Register(MemberAt("/a"), map[], "r"), Start("p", FirstHost(), FactsOf("/a"), true),
     Register(MemberAt("/b"), map["/a" := "p"], "r"), Crash("p"), Withdraw("/a", map[], "r"),
     Restart("p", ProbeFailed, FirstHost(), FactsOf("/b"), Nothing)]
  }

  lemma {:induction false} NothingIsBlank()
    ensures !Blank("p") && !Blank("h") && !Blank("g") && !Blank("w") && !Blank("r") && !Blank("t") && !Blank("m")
    ensures !Blank("s") && !Blank("l") && !Blank("probe/complete") && !Blank("probe/failure")
    ensures Canonical("/a") && Canonical("/b") && Canonical("/") && "/a" != "/b"
  {
    assert !IsSpace("p"[0]) && !IsSpace("h"[0]) && !IsSpace("g"[0]) && !IsSpace("w"[0]) && !IsSpace("r"[0]);
    assert !IsSpace("t"[0]) && !IsSpace("m"[0]) && !IsSpace("s"[0]) && !IsSpace("l"[0]);
    assert !IsSpace("probe/complete"[0]) && !IsSpace("probe/failure"[0]);
    assert "/a"[1] != "/b"[1];
  }

  lemma {:induction false} FactsAreGood(dir: string)
    requires Canonical(dir)
    ensures GoodFacts(FactsOf(dir))
  {
    NothingIsBlank();
    hide Canonical, Blank;
  }

  lemma {:induction false} HostIsLaunched()
    ensures LaunchedHost(FirstHost(), "p", ["/a"], true) && HostDirs(FirstHost()) == ["/a"]
  {
    NothingIsBlank();
    hide Canonical, Blank;
    assert Fingerprint()[..7] == "sha256:" && Fingerprint() != "";
  }

  lemma {:induction false} OneRow(rows: map<string, Row>, dir: string)
    requires rows == map[dir := Row("/", "p")]
    ensures SnapshotOf(rows, "p", [dir])
  {
    LessIrreflexive(dir);
  }

  // Registering a and starting its host.
  lemma {:induction false} HostServes() returns (w: PoolWorld)
    ensures var w0 := PoolWorld(map[], "", map[], []);
            && Enabled(w0, Steps()[0]) && Enabled(Do(w0, Steps()[0]), Steps()[1]) && w == Do(Do(w0, Steps()[0]), Steps()[1])
    ensures w.rows == map["/a" := Row("/", "p")] && w.hosts == map["p" := Served(FirstHost(), true, true)]
    ensures |w.attempts| == 1
  {
    NothingIsBlank();
    HostIsLaunched();
    FactsAreGood("/a");
    OneRow(map["/a" := Row("/", "p")], "/a");
    hide GoodFacts, Canonical, Blank, LaunchedHost, HostDirs, SnapshotOf, RecordAt, FirstHost;
    var w0 := PoolWorld(map[], "", map[], []);
    var w1 := Do(w0, Steps()[0]);
    w := Do(w1, Steps()[1]);
  }

  // Registering b, losing the process and withdrawing a.
  lemma {:induction false} HostOrphaned(w: PoolWorld) returns (u: PoolWorld)
    requires w.rows == map["/a" := Row("/", "p")] && w.hosts == map["p" := Served(FirstHost(), true, true)]
    ensures Enabled(w, Steps()[2]) && Enabled(Do(w, Steps()[2]), Steps()[3])
    ensures Enabled(Do(Do(w, Steps()[2]), Steps()[3]), Steps()[4])
    ensures u == Do(Do(Do(w, Steps()[2]), Steps()[3]), Steps()[4])
    ensures u.rows == map["/b" := Row("/", "p")] && u.hosts == map["p" := Served(FirstHost(), true, false)]
    ensures u.attempts == w.attempts
  {
    NothingIsBlank();
    HostIsLaunched();
    hide Canonical, Blank, HostDirs, LaunchedHost, FirstHost;
    assert Serves(w.hosts, "p", "/a");
    assert OwnershipOf(w.hosts, map["/a" := "p"]);
    var v := Do(w, Steps()[2]);
    assert v.rows == map["/a" := Row("/", "p"), "/b" := Row("/", "p")];
    var c := Do(v, Steps()[3]);
    assert OwnershipOf(c.hosts, map[]);
    u := Do(c, Steps()[4]);
  }

  lemma {:induction false} RestartsInVain(u: PoolWorld)
    requires u.rows == map["/b" := Row("/", "p")] && u.hosts == map["p" := Served(FirstHost(), true, false)]
    ensures Enabled(u, Steps()[5])
  {
    NothingIsBlank();
    HostIsLaunched();
    FactsAreGood("/b");
    OneRow(u.rows, "/b");
    hide Canonical, Blank, HostDirs, LaunchedHost, FirstHost, GoodFacts, SnapshotOf;
  }

  /** The refusal is reachable from an empty registry: six operations end in a record the validator
      does not accept, with the dead host still in place and the registered workspace unserved. */
  lemma {:induction false} RefusalIsReachable() returns (run: seq<PoolWorld>)
    ensures IsRun(run) && |run| == |Steps()| + 1
    ensures forall i :: 0 <= i < |Steps()| ==> StepsTo(run[i], Steps()[i], run[i + 1])
    ensures var u := run[|run| - 1];
            && |u.attempts| == 2 && !ValidRecord(u.attempts[1].record, ForWrite)
            && "p" in u.hosts && u.hosts["p"].live && !u.hosts["p"].alive
            && "/b" in u.rows && u.rows["/b"].pool == "p" && "/b" !in HostDirs(u.hosts["p"].host)
  {
    hide Enabled, Do, ValidRecord, HostDirs, FirstHost;
    var w0 := PoolWorld(map[], "", map[], []);
    var w2 := HostServes();
    var u := HostOrphaned(w2);
    RestartsInVain(u);
    var w1, w3 := Do(w0, Steps()[0]), Do(w2, Steps()[2]);
    var w4 := Do(w3, Steps()[3]);
    run := [w0, w1, w2, w3, w4, u, Do(u, Steps()[5])];
    assert forall i :: 0 <= i < 6 ==> StepsTo(run[i], Steps()[i], run[i + 1]);
    forall i | 0 <= i < |run| - 1
      ensures StepHere(run, i)
    {
      assert StepsTo(run[i], Steps()[i], run[i + 1]);
    }
    HostIsLaunched();
    NothingIsBlank();
    RestartIsRefusedIff(run, 5, Steps()[5]);
    LastAttempt(u);
  }

  lemma {:induction false} LastAttempt(u: PoolWorld)
    requires Enabled(u, Steps()[5]) && !ValidRecord(RecordAt(ProbeBegun, u.hosts["p"].host, FirstHost(), FactsOf("/b")), ForWrite)
    requires u.hosts == map["p" := Served(FirstHost(), true, false)]
    ensures var v := Do(u, Steps()[5]);
            && v.rows == u.rows && v.hosts == u.hosts && |v.attempts| == |u.attempts| + 1
            && !ValidRecord(v.attempts[|u.attempts|].record, ForWrite)
  {
    hide ValidRecord, HostDirs, FirstHost, SnapshotOf, LaunchedHost, GoodFacts, RecordAt, Path;
  }

  // ------------------------------------------------------------ a malformed basis

  function UnmarkedHost(): Host {
    Host("p", "h", "g", 1, "", [HostMember("/a", "w", "g", "", "", "x")])
  }

  // Register a, start its host without reading the marker back, restart.
  function UnmarkedSteps(): seq<Action> {
    [Register(MemberAt("/a"), map[], "r"), Start("p", UnmarkedHost(), FactsOf("/a"), false),
     Restart("p", ProbeFailed, UnmarkedHost(), FactsOf("/a"), Nothing)]
  }

  lemma {:induction false} UnmarkedIsLaunched()
    ensures LaunchedHost(UnmarkedHost(), "p", ["/a"], false) && Misbased(UnmarkedHost())
  {
    NothingIsBlank();
    hide Canonical, Blank;
    assert |"x"| == 1;
  }

  lemma {:induction false} UnmarkedServes() returns (w: PoolWorld)
    ensures var w0 := PoolWorld(map[], "", map[], []);
            && Enabled(w0, UnmarkedSteps()[0]) && Enabled(Do(w0, UnmarkedSteps()[0]), UnmarkedSteps()[1])
            && w == Do(Do(w0, UnmarkedSteps()[0]), UnmarkedSteps()[1])
    ensures Enabled(w, UnmarkedSteps()[2]) && w.hosts == map["p" := Served(UnmarkedHost(), true, true)]
  {
    NothingIsBlank();
    UnmarkedIsLaunched();
    FactsAreGood("/a");
    OneRow(map["/a" := Row("/", "p")], "/a");
    hide GoodFacts, Canonical, Blank, LaunchedHost, HostDirs, SnapshotOf, RecordAt, UnmarkedHost;
    var w0 := PoolWorld(map[], "", map[], []);
    var w1 := Do(w0, UnmarkedSteps()[0]);
    w := Do(w1, UnmarkedSteps()[1]);
  }

  /** A living host can be refused too: three operations from an empty registry, with a member
      whose basis is not empty but no fingerprint. */
  lemma {:induction false} LivingHostIsRefused() returns (run: seq<PoolWorld>, a: Action)
    ensures IsRun(run) && a.Restart? && Enabled(run[|run| - 1], a)
    ensures var s := run[|run| - 1].hosts[a.pool];
            s.live && s.alive && Misbased(s.host)
            && !ValidRecord(RecordAt(ProbeBegun, s.host, a.next, a.facts), ForWrite)
  {
    UnmarkedIsLaunched();
    hide Enabled, Do, ValidRecord, HostDirs, UnmarkedHost, Misbased;
    var w0 := PoolWorld(map[], "", map[], []);
    var w2 := UnmarkedServes();
    var w1 := Do(w0, UnmarkedSteps()[0]);
    run, a := [w0, w1, w2], UnmarkedSteps()[2];
    assert StepsTo(w0, UnmarkedSteps()[0], w1) && StepsTo(w1, UnmarkedSteps()[1], w2);
    assert StepHere(run, 0) && StepHere(run, 1);
    RestartIsRefusedIff(run, 2, a);
  }
}
