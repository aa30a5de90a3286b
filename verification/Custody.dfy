/** Process custody (cli/internal/process/custody.go): the store one mutex guards, one
    operation per lock-held section. */
module Custody {
  import opened Basics
  import opened Keys

  // An opaque random token; only its identity matters.
  datatype Handle = Handle(token: nat)

  datatype Spec = Spec(argv: seq<string>, cwd: string, env: map<string, string>, stdin: Option<string>)

  datatype Phase = Starting | Running | Terminal

  datatype Stop = Graceful | Forced | Uncertain

  datatype Exit = Exit(code: int, signal: Option<string>)

  datatype Cancellation = Cancellation(reason: string, stop: Stop, observedExit: Exit)

  // The channel a tree termination closes: absent, open, closed.
  datatype Channel = NoChannel | Open | Closed

  datatype Row = Row(
    owner: string, key: string, spec: Spec, started: bool,
    phase: Phase, exit: Option<Exit>, cancellation: Option<Cancellation>, launchFailure: Option<string>,
    cancelled: string, stop: Option<Stop>, treeDone: Channel, treeFailed: bool,
    reapClaimed: bool, done: Channel)

  // rows outlive acknowledgement: goroutines keep the row they were started with.
  datatype Store = Store(
    rows: map<Handle, Row>, byHandle: set<Handle>, reservations: map<string, Handle>, closed: bool)

  // ------------------------------------------------------------ launch specifications

  function EnvValue(env: map<string, string>, k: string): string {
    if k in env then env[k] else ""
  }

  // A missing key reads as the empty string, as it does in the source.
  predicate SameSpec(a: Spec, b: Spec) {
    && a.cwd == b.cwd && |a.argv| == |b.argv| && |a.env| == |b.env|
    && (forall i :: 0 <= i < |a.argv| ==> a.argv[i] == b.argv[i])
    && (forall k :: k in a.env ==> EnvValue(b.env, k) == a.env[k])
    && a.stdin == b.stdin
  }

  // Field by field, argument by argument, then key by key.
  method CompareSpecs(a: Spec, b: Spec) returns (same: bool)
    ensures same <==> SameSpec(a, b)
  {
    if a.cwd != b.cwd || |a.argv| != |b.argv| || |a.env| != |b.env| {
      return false;
    }
    for i := 0 to |a.argv|
      invariant forall k :: 0 <= k < i ==> a.argv[k] == b.argv[k]
    {
      if a.argv[i] != b.argv[i] {
        return false;
      }
    }
    var rest := a.env.Keys;
    while rest != {}
      invariant rest <= a.env.Keys
      invariant forall k :: k in a.env.Keys - rest ==> EnvValue(b.env, k) == a.env[k]
      decreases rest
    {
      var k :| k in rest;
      if EnvValue(b.env, k) != a.env[k] {
        return false;
      }
      rest := rest - {k};
    }
    if a.stdin.None? || b.stdin.None? {
      return a.stdin.None? && b.stdin.None?;
    }
    same := a.stdin.value == b.stdin.value;
  }

  // The first check a specification fails; isDirectory is what looking up its cwd reports.
  datatype SpecFault = Fine | NoCommand | BlankArgument(i: nat) | NoDirectory | BlankEnvKey

  predicate Runnable(spec: Spec) {
    |spec.argv| > 0 && spec.cwd != "" && spec.cwd[0] == '/'
  }

  // Argument by argument, then key by key.
  method ValidateSpec(spec: Spec, isDirectory: bool) returns (fault: SpecFault)
    ensures fault == NoCommand <==> !Runnable(spec)
    ensures fault.BlankArgument? ==>
              Runnable(spec) && fault.i < |spec.argv| && Blank(spec.argv[fault.i])
              && forall k :: 0 <= k < fault.i ==> !Blank(spec.argv[k])
    ensures fault in {Fine, NoDirectory, BlankEnvKey} ==> forall k :: 0 <= k < |spec.argv| ==> !Blank(spec.argv[k])
    ensures fault == NoDirectory ==> !isDirectory
    ensures fault == BlankEnvKey ==> isDirectory && exists k :: k in spec.env && Blank(k)
    ensures fault == Fine ==> isDirectory && forall k :: k in spec.env ==> !Blank(k)
  {
    if |spec.argv| == 0 || spec.cwd == "" || spec.cwd[0] != '/' {
      return NoCommand;
    }
    for i := 0 to |spec.argv|
      invariant forall k :: 0 <= k < i ==> !Blank(spec.argv[k])
    {
      if Blank(spec.argv[i]) {
        return BlankArgument(i);
      }
    }
    if !isDirectory {
      return NoDirectory;
    }
    var rest := spec.env.Keys;
    while rest != {}
      invariant rest <= spec.env.Keys && forall k :: k in spec.env.Keys - rest ==> !Blank(k)
      decreases rest
    {
      var k :| k in rest;
      if Blank(k) {
        return BlankEnvKey;
      }
      rest := rest - {k};
    }
    fault := Fine;
  }

  // What a launch asks of its arguments before it looks at the store.
  predicate MayLaunch(owner: string, key: string, spec: Spec, isDirectory: bool) {
    && !Blank(owner) && !Blank(key) && Runnable(spec) && isDirectory
    && (forall i :: 0 <= i < |spec.argv| ==> !Blank(spec.argv[i])) && (forall k :: k in spec.env ==> !Blank(k))
  }

  lemma {:induction false} SameKeys(a: map<string, string>, b: map<string, string>)
    requires |a| == |b| && a.Keys <= b.Keys
    ensures a.Keys == b.Keys
  {
    assert |a.Keys| == |a| && |b.Keys| == |b|;
    if k :| k in b.Keys && k !in a.Keys {
      SubsetSize(a.Keys, b.Keys - {k});
    }
  }

  lemma {:induction false} FreshKey(keys: set<string>) returns (k: string)
    ensures k !in keys
  {
    k := LongerThan(keys);
  }

  lemma {:induction false} LongerThan(keys: set<string>) returns (k: string)
    ensures forall x :: x in keys ==> |x| < |k|
    decreases keys
  {
    if keys == {} {
      k := "";
    } else {
      var x :| x in keys;
      k := LongerThan(keys - {x});
      k := k + x + "+";
    }
  }

  lemma {:induction false} BlankValueBreaksEquality(a: Spec) returns (b: Spec)
    requires "" in a.env.Values
    ensures SameSpec(a, b) && a != b
  {
    var k :| k in a.env && a.env[k] == "";
    var extra := FreshKey(a.env.Keys);
    var rest := map x | x in a.env && x != k :: a.env[x];
    var env := rest[extra := "x"];
    assert rest.Keys == a.env.Keys - {k};
    assert env.Keys == rest.Keys + {extra};
    assert |env| == |env.Keys| == |a.env.Keys| == |a.env|;
    b := a.(env := env);
    assert extra in b.env && extra !in a.env;
  }

  /** Comparing against a specification decides equality exactly when none of its environment
      values is empty. */
  lemma {:induction false} SameSpecIsEqualityIff(a: Spec)
    ensures (forall b :: SameSpec(a, b) <==> a == b) <==> "" !in a.env.Values
  {
    if "" in a.env.Values {
      var b := BlankValueBreaksEquality(a);
    } else {
      forall b | SameSpec(a, b)
        ensures a == b
      {
        forall k | k in a.env
          ensures k in b.env && b.env[k] == a.env[k]
        {
          assert a.env[k] in a.env.Values;
        }
        SameKeys(a.env, b.env);
        assert a.env == b.env;
        assert a.argv == b.argv;
      }
      assert forall b :: a == b ==> SameSpec(a, b);
    }
  }

  // ------------------------------------------------------------ the lock-held sections

  datatype LaunchAnswer = Answered(handle: Handle) | Conflict | Acknowledged | Refused | ShutDown | NoOutput

  function FreshRow(owner: string, key: string, spec: Spec, failure: Option<string>): Row {
    Row(owner, key, spec, failure.None?,
        if failure.None? then Starting else Terminal, None, None, failure,
        "", None, NoChannel, false, false, Open)
  }

  // Reserves the owner and key before starting; an equal repeat converges on the existing row.
  function LaunchAnswerOf(s: Store, owner: string, key: string, spec: Spec, handle: Handle): LaunchAnswer {
    var reservation := Join(owner, key);
    if s.closed then ShutDown
    else if reservation in s.reservations then
      var held := s.reservations[reservation];
      if held !in s.byHandle || held !in s.rows then Acknowledged
      else if !SameSpec(s.rows[held].spec, spec) then Conflict
      else Answered(held)
    else Answered(handle)
  }

  predicate LaunchesAnew(s: Store, owner: string, key: string) {
    !s.closed && Join(owner, key) !in s.reservations
  }

  function AfterLaunch(
    s: Store, owner: string, key: string, spec: Spec, handle: Handle, failure: Option<string>): Store
  {
    if LaunchesAnew(s, owner, key) then
      Store(s.rows[handle := FreshRow(owner, key, spec, failure)], s.byHandle + {handle},
            s.reservations[Join(owner, key) := handle], s.closed)
    else s
  }

  // The wait goroutine's first section.
  function AfterWaitBegins(r: Row): Row {
    if r.cancelled == "" then r.(phase := Running) else r
  }

  // Once the exit is observed: claim the reaping unless a cancellation came first.
  function AfterWaitDecides(r: Row): Row {
    if r.cancelled == "" then r.(reapClaimed := true) else r
  }

  function AfterFinish(r: Row, exit: Exit): Row {
    if r.cancelled != "" then
      r.(phase := Terminal, exit := None, done := Closed,
         cancellation := Some(Cancellation(r.cancelled, if r.stop.Some? then r.stop.value else Uncertain, exit)))
    else
      r.(phase := Terminal, exit := Some(exit), cancellation := None, done := Closed)
  }

  datatype CancelAnswer = NothingToCancel | AwaitReaping | Terminate | AwaitTree

  function CancelAnswerOf(r: Row): CancelAnswer {
    if r.phase == Terminal && r.treeDone == NoChannel then NothingToCancel
    else if r.reapClaimed then AwaitReaping
    else if r.cancelled == "" then (if r.started then Terminate else NothingToCancel)
    else if r.treeDone != NoChannel then AwaitTree
    else NothingToCancel
  }

  function AfterCancel(r: Row): Row {
    if (r.phase == Terminal && r.treeDone == NoChannel) || r.reapClaimed || r.cancelled != "" then r
    else r.(cancelled := "cancelled by owner", treeDone := if r.started then Open else r.treeDone)
  }

  // What a cancel by its owner leaves of a row, and what the call does next.
  ghost predicate CancelLeaves(r: Row, s: Row, answer: CancelAnswer) {
    var over, first := r.phase == Terminal && r.treeDone == NoChannel, r.cancelled == "" && !r.reapClaimed;
    && s == r.(cancelled := s.cancelled, treeDone := s.treeDone)
    && (!over && !r.reapClaimed ==> s.cancelled != "")
    && (s.cancelled != r.cancelled ==> first && s.cancelled == "cancelled by owner")
    && (answer == Terminate <==> first && !over && r.started)
    && (s.treeDone != r.treeDone ==> answer == Terminate)
    && (answer == Terminate ==> s.treeDone == Open)
    && (answer == AwaitReaping <==> !over && r.reapClaimed)
    && (answer == AwaitTree <==> !over && !r.reapClaimed && r.cancelled != "" && r.treeDone != NoChannel)
  }

  function AfterTree(r: Row, stop: Stop, failed: bool): Row {
    r.(stop := Some(stop), treeFailed := failed, treeDone := Closed)
  }

  predicate ShutdownStarts(r: Row) {
    r.phase != Terminal && !r.reapClaimed && r.started && r.treeDone == NoChannel
  }

  predicate ShutdownJoins(r: Row) {
    r.phase != Terminal && !r.reapClaimed && r.started && r.treeDone != NoChannel
  }

  function AfterShutdown(r: Row): Row {
    if r.phase == Terminal || r.reapClaimed then r
    else
      r.(cancelled := if r.cancelled == "" then "Mill shutdown" else r.cancelled,
         treeDone := if ShutdownStarts(r) then Open else r.treeDone)
  }

  function ShutdownStore(s: Store): Store
    requires s.byHandle <= s.rows.Keys
  {
    s.(closed := true, rows := map h | h in s.rows :: if h in s.byHandle then AfterShutdown(s.rows[h]) else s.rows[h])
  }

  predicate MayAcknowledge(s: Store, owner: string, handle: Handle) {
    handle in s.byHandle && handle in s.rows && s.rows[handle].owner == owner && s.rows[handle].phase == Terminal
  }

  function AfterAcknowledge(s: Store, owner: string, handle: Handle, removed: bool): Store {
    if MayAcknowledge(s, owner, handle) && removed then s.(byHandle := s.byHandle - {handle}) else s
  }

  // ------------------------------------------------------------ the maps

  // Reservations and rows correspond one to one, acknowledged rows included.
  ghost predicate GoodMaps(s: Store) {
    && s.byHandle <= s.rows.Keys
    && (forall k :: k in s.reservations ==>
          && s.reservations[k] in s.rows
          && Join(s.rows[s.reservations[k]].owner, s.rows[s.reservations[k]].key) == k)
    && (forall h :: h in s.rows ==>
          && Join(s.rows[h].owner, s.rows[h].key) in s.reservations
          && s.reservations[Join(s.rows[h].owner, s.rows[h].key)] == h)
  }

  lemma {:induction false} LaunchKeepsMaps(
    s: Store, owner: string, key: string, spec: Spec, handle: Handle, failure: Option<string>)
    requires GoodMaps(s) && handle !in s.rows
    ensures GoodMaps(AfterLaunch(s, owner, key, spec, handle, failure))
  {
  }

  lemma {:induction false} ReservedHasRow(s: Store)
    requires GoodMaps(s)
    ensures s.byHandle <= s.rows.Keys && forall k :: k in s.reservations ==> s.reservations[k] in s.rows
  {
  }

  lemma {:induction false} ShutdownKeepsMaps(s: Store)
    requires GoodMaps(s)
    ensures GoodMaps(ShutdownStore(s))
  {
  }

  lemma {:induction false} RowUpdateKeepsMaps(s: Store, h: Handle, r: Row)
    requires GoodMaps(s) && h in s.rows && r.owner == s.rows[h].owner && r.key == s.rows[h].key
    ensures GoodMaps(s.(rows := s.rows[h := r]))
  {
  }

  /** For owners without a NUL the answered row is the caller's own: its owner and key, and a
      matching specification. */
  lemma {:induction false} AnswerIsOwn(s: Store, owner: string, key: string, spec: Spec, handle: Handle)
    requires GoodMaps(s) && handle !in s.rows && NUL !in owner
    requires forall h :: h in s.rows ==> NUL !in s.rows[h].owner
    requires LaunchAnswerOf(s, owner, key, spec, handle).Answered?
    ensures var h := LaunchAnswerOf(s, owner, key, spec, handle).handle;
            var after := AfterLaunch(s, owner, key, spec, handle, None);
            && h in after.byHandle && h in after.rows
            && after.rows[h].owner == owner && after.rows[h].key == key
            && SameSpec(after.rows[h].spec, spec)
  {
    if Join(owner, key) in s.reservations {
      var h := s.reservations[Join(owner, key)];
      JoinSplits(owner, key, s.rows[h].owner, s.rows[h].key);
    }
  }

  // The rows of `done` that satisfy a test, listed.
  ghost predicate Lists(s: Store, done: set<Handle>, list: set<Handle>, test: Row -> bool) {
    forall h :: h in list <==> h in done && h in s.rows && test(s.rows[h])
  }

  // The rows of `done` are marked for shutdown and sorted into the three lists.
  ghost predicate Swept(
    s: Store, done: set<Handle>, rows: map<Handle, Row>, starts: set<Handle>, joins: set<Handle>, waits: set<Handle>)
  {
    && rows.Keys == s.rows.Keys
    && (forall h :: h in s.rows ==> rows[h] == if h in done then AfterShutdown(s.rows[h]) else s.rows[h])
    && Lists(s, done, starts, ShutdownStarts)
    && Lists(s, done, joins, ShutdownJoins)
    && Lists(s, done, waits, ShutdownAwaits)
  }

  predicate ShutdownAwaits(r: Row) {
    r.phase != Terminal
  }

  lemma {:induction false} ListStep(s: Store, done: set<Handle>, list: set<Handle>, test: Row -> bool, h: Handle)
    requires Lists(s, done, list, test) && h in s.rows && h !in done
    ensures Lists(s, done + {h}, list + if test(s.rows[h]) then {h} else {}, test)
  {
  }

  lemma {:induction false} SweepStarts(s: Store)
    ensures Swept(s, {}, s.rows, {}, {}, {})
  {
  }

  lemma {:induction false} SweptRow(
    s: Store, done: set<Handle>, rows: map<Handle, Row>,
    starts: set<Handle>, joins: set<Handle>, waits: set<Handle>, h: Handle)
    requires Swept(s, done, rows, starts, joins, waits) && h in s.rows && h !in done
    ensures h in rows && rows[h] == s.rows[h]
  {
  }

  lemma {:induction false} SweepStep(
    s: Store, done: set<Handle>, rows: map<Handle, Row>,
    starts: set<Handle>, joins: set<Handle>, waits: set<Handle>, h: Handle)
    requires Swept(s, done, rows, starts, joins, waits) && h in s.rows && h !in done
    ensures Swept(s, done + {h}, rows[h := AfterShutdown(s.rows[h])],
                  starts + if ShutdownStarts(s.rows[h]) then {h} else {},
                  joins + if ShutdownJoins(s.rows[h]) then {h} else {},
                  waits + if s.rows[h].phase != Terminal then {h} else {})
  {
    hide AfterShutdown, ShutdownStarts, ShutdownJoins, Lists;
    ListStep(s, done, starts, ShutdownStarts, h);
    ListStep(s, done, joins, ShutdownJoins, h);
    ListStep(s, done, waits, ShutdownAwaits, h);
  }

  lemma {:induction false} SweepEnds(
    s: Store, rows: map<Handle, Row>, starts: set<Handle>, joins: set<Handle>, waits: set<Handle>)
    requires s.byHandle <= s.rows.Keys && Swept(s, s.byHandle, rows, starts, joins, waits)
    ensures Store(rows, s.byHandle, s.reservations, true) == ShutdownStore(s)
    ensures starts == set h | h in s.byHandle && ShutdownStarts(s.rows[h])
    ensures joins == set h | h in s.byHandle && ShutdownJoins(s.rows[h])
    ensures waits == set h | h in s.byHandle && s.rows[h].phase != Terminal
  {
    hide AfterShutdown, ShutdownStarts, ShutdownJoins;
  }

  // ------------------------------------------------------------ the mutable store

  /** The custody store; each method is one section run under its mutex. */
  class CustodyStore {
    var rows: map<Handle, Row>
    var byHandle: set<Handle>
    var reservations: map<string, Handle>
    var closed: bool

    function Now(): Store
      reads this
    {
      Store(rows, byHandle, reservations, closed)
    }

    ghost predicate Valid()
      reads this
    {
      GoodMaps(Now())
    }

    constructor ()
      ensures Valid() && Now() == Store(map[], {}, map[], false)
    {
      rows, byHandle, reservations, closed := map[], {}, map[], false;
    }

    /** Starts a process unless the pair is reserved; `output` says whether a handle and its output
        files could be made, `failure` is what starting the process reported.
        A reserved pair never starts another one, acknowledged or not, and needs no files. */
    method Launch(
      owner: string, key: string, spec: Spec, isDirectory: bool, output: bool, handle: Handle, failure: Option<string>)
      returns (answer: LaunchAnswer)
      requires Valid() && handle !in rows
      modifies this
      ensures Valid()
      ensures answer == Refused <==> !MayLaunch(owner, key, spec, isDirectory)
      ensures answer == NoOutput <==>
                MayLaunch(owner, key, spec, isDirectory) && !output && LaunchesAnew(old(Now()), owner, key)
      ensures answer == Refused || answer == NoOutput ==> Now() == old(Now())
      ensures answer != Refused && answer != NoOutput ==>
                && answer == LaunchAnswerOf(old(Now()), owner, key, spec, handle)
                && Now() == AfterLaunch(old(Now()), owner, key, spec, handle, failure)
      ensures rows != old(rows) ==> Join(owner, key) !in old(reservations) && !old(closed)
    {
      hide GoodMaps, SameSpec, Join, Blank;
      LaunchKeepsMaps(Now(), owner, key, spec, handle, failure);
      ReservedHasRow(Now());
      if Blank(owner) || Blank(key) {
        return Refused;
      }
      var fault := ValidateSpec(spec, isDirectory);
      if fault != Fine {
        return Refused;
      }
      var reservation := Join(owner, key);
      if closed {
        return ShutDown;
      }
      if reservation in reservations {
        var held := reservations[reservation];
        if held !in byHandle {
          return Acknowledged;
        }
        var same := CompareSpecs(rows[held].spec, spec);
        if !same {
          return Conflict;
        }
        return Answered(held);
      }
      if !output {
        return NoOutput;
      }
      rows := rows[handle := FreshRow(owner, key, spec, None).(started := false)];
      byHandle := byHandle + {handle};
      reservations := reservations[reservation := handle];
      if failure.Some? {
        rows := rows[handle := rows[handle].(phase := Terminal, launchFailure := failure)];
      } else {
        rows := rows[handle := rows[handle].(started := true)];
      }
      assert rows == old(rows)[handle := FreshRow(owner, key, spec, failure)];
      assert Now() == AfterLaunch(old(Now()), owner, key, spec, handle, failure);
      answer := Answered(handle);
    }

    method BeginWait(h: Handle)
      requires Valid() && h in rows
      modifies this`rows
      ensures Valid() && rows == old(rows)[h := AfterWaitBegins(old(rows)[h])]
    {
      RowUpdateKeepsMaps(Now(), h, AfterWaitBegins(rows[h]));
      if rows[h].cancelled == "" {
        rows := rows[h := rows[h].(phase := Running)];
      }
      assert rows == old(rows)[h := AfterWaitBegins(old(rows)[h])];
    }

    // Claims the reaping unless a cancellation came first; then its tree must end first.
    method DecideWait(h: Handle) returns (claimed: bool)
      requires Valid() && h in rows
      modifies this`rows
      ensures Valid() && rows == old(rows)[h := AfterWaitDecides(old(rows)[h])]
      ensures claimed == (old(rows)[h].cancelled == "")
    {
      RowUpdateKeepsMaps(Now(), h, AfterWaitDecides(rows[h]));
      claimed := rows[h].cancelled == "";
      if claimed {
        rows := rows[h := rows[h].(reapClaimed := true)];
      }
      assert rows == old(rows)[h := AfterWaitDecides(old(rows)[h])];
    }

    method FinishWait(h: Handle, exit: Exit)
      requires Valid() && h in rows
      modifies this`rows
      ensures Valid() && rows == old(rows)[h := AfterFinish(old(rows)[h], exit)]
    {
      RowUpdateKeepsMaps(Now(), h, AfterFinish(rows[h], exit));
      var row := rows[h];
      if row.cancelled != "" {
        var stop := Uncertain;
        if row.stop.Some? {
          stop := row.stop.value;
        }
        row := row.(phase := Terminal, exit := None, cancellation := Some(Cancellation(row.cancelled, stop, exit)));
      } else {
        row := row.(phase := Terminal, cancellation := None, exit := Some(exit));
      }
      rows := rows[h := row.(done := Closed)];
    }

    method Cancel(owner: string, h: Handle) returns (answer: Option<CancelAnswer>)
      requires Valid()
      modifies this`rows
      ensures Valid()
      ensures h !in byHandle || old(rows)[h].owner != owner ==> answer == None && rows == old(rows)
      ensures h in byHandle && old(rows)[h].owner == owner ==>
                && answer == Some(CancelAnswerOf(old(rows)[h]))
                && rows == old(rows)[h := AfterCancel(old(rows)[h])]
      ensures h in byHandle && old(rows)[h].owner == owner ==> CancelLeaves(old(rows)[h], rows[h], answer.value)
    {
      if h !in byHandle || rows[h].owner != owner {
        return None;
      }
      RowUpdateKeepsMaps(Now(), h, AfterCancel(rows[h]));
      assert rows[h := rows[h]] == rows;
      var row := rows[h];
      if row.phase == Terminal && row.treeDone == NoChannel {
        return Some(NothingToCancel);
      }
      if row.reapClaimed {
        return Some(AwaitReaping);
      }
      if row.cancelled == "" {
        row := row.(cancelled := "cancelled by owner");
        answer := Some(NothingToCancel);
        if row.started {
          row := row.(treeDone := Open);
          answer := Some(Terminate);
        }
        rows := rows[h := row];
      } else {
        answer := Some(if row.treeDone != NoChannel then AwaitTree else NothingToCancel);
      }
    }

    method ResolveTree(h: Handle, stop: Stop, failed: bool)
      requires Valid() && h in rows
      modifies this`rows
      ensures Valid() && rows == old(rows)[h := AfterTree(old(rows)[h], stop, failed)]
    {
      RowUpdateKeepsMaps(Now(), h, AfterTree(rows[h], stop, failed));
      rows := rows[h := rows[h].(treeFailed := failed, stop := Some(stop), treeDone := Closed)];
    }

    method Acknowledge(owner: string, h: Handle, removed: bool) returns (ok: bool)
      requires Valid()
      modifies this`byHandle
      ensures Valid() && Now() == AfterAcknowledge(old(Now()), owner, h, removed)
      ensures ok <==> removed && old(h in byHandle && rows[h].owner == owner && rows[h].phase == Terminal)
      ensures byHandle == (if ok then old(byHandle) - {h} else old(byHandle))
    {
      if h !in byHandle || rows[h].owner != owner || rows[h].phase != Terminal || !removed {
        return false;
      }
      byHandle := byHandle - {h};
      ok := true;
    }

    // One row of the sweep: its new state, and whether its tree is to be terminated or awaited.
    static method MarkForShutdown(before: Row) returns (row: Row, start: bool, join: bool)
      ensures row == AfterShutdown(before) && row.phase == before.phase
      ensures start == ShutdownStarts(before) && join == ShutdownJoins(before)
    {
      row, start, join := before, false, false;
      if row.phase != Terminal && !row.reapClaimed {
        if row.cancelled == "" {
          row := row.(cancelled := "Mill shutdown");
        }
        if row.started {
          start := row.treeDone == NoChannel;
          join := !start;
          if start {
            row := row.(treeDone := Open);
          }
        }
      }
    }

    /** Closes the store and marks every live row: the trees to terminate, the ones to wait
        for, and every row whose end must be seen. */
    method BeginShutdown() returns (starts: set<Handle>, joins: set<Handle>, waits: set<Handle>)
      requires Valid()
      modifies this
      ensures Valid() && Now() == ShutdownStore(old(Now()))
      ensures starts == set h | h in old(byHandle) && ShutdownStarts(old(rows)[h])
      ensures joins == set h | h in old(byHandle) && ShutdownJoins(old(rows)[h])
      ensures waits == set h | h in old(byHandle) && old(rows)[h].phase != Terminal
    {
      hide GoodMaps, AfterShutdown, ShutdownStarts, ShutdownJoins, Swept, ShutdownStore;
      ghost var was := Now();
      ReservedHasRow(was);
      ShutdownKeepsMaps(was);
      closed := true;
      starts, joins, waits := {}, {}, {};
      var rest := byHandle;
      SweepStarts(was);
      assert was.byHandle - rest == {};
      while rest != {}
        invariant rest <= byHandle == was.byHandle && closed && reservations == was.reservations
        invariant Swept(was, was.byHandle - rest, rows, starts, joins, waits)
        decreases rest
      {
        var h :| h in rest;
        SweptRow(was, was.byHandle - rest, rows, starts, joins, waits, h);
        var row, start, join := MarkForShutdown(rows[h]);
        SweepStep(was, was.byHandle - rest, rows, starts, joins, waits, h);
        assert was.byHandle - (rest - {h}) == (was.byHandle - rest) + {h};
        starts := starts + if start then {h} else {};
        joins := joins + if join then {h} else {};
        waits := waits + if row.phase != Terminal then {h} else {};
        rows := rows[h := row];
        rest := rest - {h};
      }
      assert was.byHandle - rest == was.byHandle;
      SweepEnds(was, rows, starts, joins, waits);
    }
  }
}
