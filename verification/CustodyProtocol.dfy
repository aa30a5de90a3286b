/** Every interleaving of the goroutines around the custody store: one waiter per process,
    any number of Cancel and Shutdown calls, launches and acknowledgements
    (cli/internal/process/custody.go). The exit observer succeeds. */
module CustodyProtocol {
  import opened Basics
  import opened Custody

  // Where a row's wait goroutine stands.
  datatype WaitPc = NotBegun | Observing | Observed | AwaitingTree | ReadyToReap | Reaped | Finished

  // Where a tree termination stands.
  datatype Stage = SendTerm | ScanGrace | SendKill | ScanKilled | Resolve(stop: Stop, failed: bool)

  datatype Scan = ScanFailed | Gone | Alive | TimedOut

  // A call of Cancel or Shutdown, or one of the goroutines a Shutdown starts per row.
  datatype TaskId = Call(n: nat) | Target(n: nat, h: Handle)

  datatype Task =
    | Signaller(h: Handle, stage: Stage)
    | TreeWaiter(h: Handle, timed: bool)
    | ReapWaiter(h: Handle)
    | ShutdownWait(targets: set<TaskId>, rows: set<Handle>, failed: bool)
    | Returned(ok: bool)
    | ShutdownReturned(ok: bool)

  datatype Event =
    | Started(owner: string, key: string, h: Handle)
    | Signalled(actor: TaskId, h: Handle, kill: bool, ok: bool)
    | Scanned(actor: TaskId, h: Handle, scan: Scan)
    | Reaping(h: Handle)
    | TreeClosed(h: Handle, stop: Stop)
    | DoneClosed(h: Handle, exit: Exit)

  // signaller remembers which task opened a row's tree channel; log is the whole history.
  datatype World = World(
    store: Store, waits: map<Handle, WaitPc>, signaller: map<Handle, TaskId>, tasks: map<TaskId, Task>, log: seq<Event>)

  datatype Action =
    | Launch(owner: string, key: string, spec: Spec, handle: Handle, failure: Option<string>)
    | Acknowledge(owner: string, h: Handle, removed: bool)
    | Wait(h: Handle, exit: Exit)
    | Cancel(n: nat, owner: string, h: Handle)
    | Signal(t: TaskId, ok: bool, scan: Scan)
    | AwaitTree(t: TaskId, timeout: bool)
    | AwaitReap(t: TaskId, timeout: bool)
    | Shutdown(n: nat)
    | Collect(t: TaskId, target: TaskId)
    | Settle(t: TaskId, h: Handle, timeout: bool, outputsClosed: bool)
    | Finish(t: TaskId)

  const Init := World(Store(map[], {}, map[], false), map[], map[], map[], [])

  // ------------------------------------------------------------ steps

  predicate Enabled(w: World, a: Action) {
    match a
    case Launch(_, _, _, handle, _) => handle !in w.store.rows
    case Acknowledge(_, _, _) => true
    case Wait(h, _) =>
      h in w.waits && h in w.store.rows && w.waits[h] != Finished
      && (w.waits[h] == AwaitingTree ==> w.store.rows[h].treeDone != Open)
    case Cancel(n, owner, h) =>
      Call(n) !in w.tasks && h in w.store.byHandle && h in w.store.rows && w.store.rows[h].owner == owner
    case Signal(t, _, _) => t in w.tasks && w.tasks[t].Signaller? && w.tasks[t].h in w.store.rows
    case AwaitTree(t, timeout) =>
      t in w.tasks && w.tasks[t].TreeWaiter? && w.tasks[t].h in w.store.rows
      && (if timeout then w.tasks[t].timed else w.store.rows[w.tasks[t].h].treeDone == Closed)
    case AwaitReap(t, timeout) =>
      t in w.tasks && w.tasks[t].ReapWaiter? && w.tasks[t].h in w.store.rows
      && (timeout || w.store.rows[w.tasks[t].h].done == Closed)
    case Shutdown(n) =>
      Call(n) !in w.tasks && (forall t :: t in w.tasks && t.Target? ==> t.n != n)
      && w.store.byHandle <= w.store.rows.Keys
    case Collect(t, target) =>
      t in w.tasks && w.tasks[t].ShutdownWait? && target in w.tasks[t].targets
      && target in w.tasks && w.tasks[target].Returned?
    case Settle(t, h, timeout, _) =>
      t in w.tasks && w.tasks[t].ShutdownWait? && w.tasks[t].targets == {} && h in w.tasks[t].rows
      && h in w.store.rows && (timeout || w.store.rows[h].done == Closed)
    case Finish(t) =>
      t in w.tasks && w.tasks[t].ShutdownWait? && w.tasks[t].targets == {} && w.tasks[t].rows == {}
  }

  function WithRow(w: World, h: Handle, r: Row): World {
    w.(store := w.store.(rows := w.store.rows[h := r]))
  }

  function NextPc(pc: WaitPc, r: Row): WaitPc {
    match pc
    case NotBegun => Observing
    case Observing => Observed
    case Observed => if r.cancelled == "" then ReadyToReap else AwaitingTree
    case AwaitingTree => ReadyToReap
    case ReadyToReap => Reaped
    case Reaped => Finished
    case Finished => Finished
  }

  function WaitRow(pc: WaitPc, r: Row, exit: Exit): Row {
    match pc
    case NotBegun => AfterWaitBegins(r)
    case Observed => AfterWaitDecides(r)
    case Reaped => AfterFinish(r, exit)
    case _ => r
  }

  function WaitEvents(pc: WaitPc, h: Handle, exit: Exit): seq<Event> {
    match pc
    case ReadyToReap => [Reaping(h)]
    case Reaped => [DoneClosed(h, exit)]
    case _ => []
  }

  // Terminate, watch the grace period, kill, watch again: each signal or scan may fail.
  function NextStage(stage: Stage, ok: bool, scan: Scan): Stage {
    match stage
    case SendTerm => if ok then ScanGrace else Resolve(Uncertain, true)
    case ScanGrace =>
      (match scan
       case ScanFailed => Resolve(Uncertain, true)
       case Gone => Resolve(Graceful, false)
       case Alive => ScanGrace
       case TimedOut => SendKill)
    case SendKill => if ok then ScanKilled else Resolve(Uncertain, true)
    case ScanKilled =>
      (match scan
       case ScanFailed => Resolve(Uncertain, true)
       case Gone => Resolve(Forced, false)
       case Alive => ScanKilled
       case TimedOut => Resolve(Uncertain, true))
    case Resolve(_, _) => stage
  }

  function StageEvent(t: TaskId, h: Handle, stage: Stage, ok: bool, scan: Scan): Event {
    match stage
    case SendTerm => Signalled(t, h, false, ok)
    case ScanGrace => Scanned(t, h, scan)
    case SendKill => Signalled(t, h, true, ok)
    case ScanKilled => Scanned(t, h, scan)
    case Resolve(stop, _) => TreeClosed(h, stop)
  }

  function CancelTask(answer: CancelAnswer, h: Handle): Task {
    match answer
    case NothingToCancel => Returned(true)
    case AwaitReaping => ReapWaiter(h)
    case Terminate => Signaller(h, SendTerm)
    case AwaitTree => TreeWaiter(h, true)
  }

  function Starts(s: Store): set<Handle>
    requires s.byHandle <= s.rows.Keys
  {
    set h | h in s.byHandle && ShutdownStarts(s.rows[h])
  }

  function Joins(s: Store): set<Handle>
    requires s.byHandle <= s.rows.Keys
  {
    set h | h in s.byHandle && ShutdownJoins(s.rows[h])
  }

  function Waits(s: Store): set<Handle>
    requires s.byHandle <= s.rows.Keys
  {
    set h | h in s.byHandle && ShutdownAwaits(s.rows[h])
  }

  function TargetTasks(s: Store, n: nat): map<TaskId, Task>
    requires s.byHandle <= s.rows.Keys
  {
    map h | h in Starts(s) + Joins(s) :: Target(n, h) := if h in Starts(s) then Signaller(h, SendTerm) else TreeWaiter(h, false)
  }

  function Events(w: World, a: Action): seq<Event>
    requires Enabled(w, a)
  {
    match a
    case Launch(owner, key, _, handle, failure) =>
      if LaunchesAnew(w.store, owner, key) && failure.None? then [Started(owner, key, handle)] else []
    case Wait(h, exit) => WaitEvents(w.waits[h], h, exit)
    case Signal(t, ok, scan) => [StageEvent(t, w.tasks[t].h, w.tasks[t].stage, ok, scan)]
    case _ => []
  }

  function Changed(w: World, a: Action): World
    requires Enabled(w, a)
  {
    match a
    case Launch(owner, key, spec, handle, failure) =>
      w.(store := AfterLaunch(w.store, owner, key, spec, handle, failure),
         waits := if LaunchesAnew(w.store, owner, key) && failure.None? then w.waits[handle := NotBegun] else w.waits)
    case Acknowledge(owner, h, removed) =>
      w.(store := AfterAcknowledge(w.store, owner, h, removed))
    case Wait(h, exit) =>
      WithRow(w, h, WaitRow(w.waits[h], w.store.rows[h], exit))
        .(waits := w.waits[h := NextPc(w.waits[h], w.store.rows[h])])
    case Cancel(n, _, h) =>
      var answer := CancelAnswerOf(w.store.rows[h]);
      WithRow(w, h, AfterCancel(w.store.rows[h]))
        .(tasks := w.tasks[Call(n) := CancelTask(answer, h)],
          signaller := if answer == Terminate then w.signaller[h := Call(n)] else w.signaller)
    case Signal(t, ok, scan) =>
      var task := w.tasks[t];
      if task.stage.Resolve? then
        WithRow(w, task.h, AfterTree(w.store.rows[task.h], task.stage.stop, task.stage.failed))
          .(tasks := w.tasks[t := Returned(!task.stage.failed)])
      else
        w.(tasks := w.tasks[t := Signaller(task.h, NextStage(task.stage, ok, scan))])
    case AwaitTree(t, timeout) =>
      w.(tasks := w.tasks[t := Returned(!timeout && !w.store.rows[w.tasks[t].h].treeFailed)])
    case AwaitReap(t, timeout) =>
      w.(tasks := w.tasks[t := Returned(!timeout)])
    case Shutdown(n) =>
      w.(store := ShutdownStore(w.store),
         signaller := map h | h in w.signaller.Keys + Starts(w.store) ::
                        if h in Starts(w.store) then Target(n, h) else w.signaller[h],
         tasks := (w.tasks + TargetTasks(w.store, n))
                    [Call(n) := ShutdownWait(TargetTasks(w.store, n).Keys, Waits(w.store), false)])
    case Collect(t, target) =>
      w.(tasks := w.tasks[t := w.tasks[t].(targets := w.tasks[t].targets - {target},
                                           failed := w.tasks[t].failed || !w.tasks[target].ok)])
    case Settle(t, h, timeout, outputsClosed) =>
      w.(tasks := w.tasks[t := w.tasks[t].(rows := w.tasks[t].rows - {h},
                                           failed := w.tasks[t].failed || timeout || !outputsClosed
                                                     || w.store.rows[h].phase != Terminal)])
    case Finish(t) =>
      w.(tasks := w.tasks[t := ShutdownReturned(!w.tasks[t].failed)])
  }

  function Do(w: World, a: Action): World
    requires Enabled(w, a)
  {
    Changed(w, a).(log := w.log + Events(w, a))
  }

  // ------------------------------------------------------------ what one row keeps

  // No outcome before the end; exactly one at the end.
  ghost predicate OneOutcome(r: Row) {
    if r.phase != Terminal then r.exit.None? && r.cancellation.None? && r.launchFailure.None?
    else
      || (r.exit.Some? && r.cancellation.None? && r.launchFailure.None?)
      || (r.exit.None? && r.cancellation.Some? && r.launchFailure.None?)
      || (r.exit.None? && r.cancellation.None? && r.launchFailure.Some?)
  }

  ghost predicate RowGood(r: Row) {
    && OneOutcome(r)
    && (r.phase == Terminal <==> r.done == Closed || r.launchFailure.Some?)
    && (r.launchFailure.Some? <==> !r.started) && r.done != NoChannel
    && (!r.started ==> r.cancelled == "" && !r.reapClaimed)
    && (r.cancelled != "" <==> r.treeDone != NoChannel)
    && (r.reapClaimed ==> r.cancelled == "")
    && (r.treeDone == Closed <==> r.stop.Some?) && (r.treeFailed <==> r.stop == Some(Uncertain))
    && (r.exit.Some? ==> r.reapClaimed)
    && (r.cancellation.Some? ==>
          && r.treeDone == Closed && r.cancellation.value.reason == r.cancelled
          && r.cancellation.value.stop == r.stop.value)
  }

  ghost predicate PcGood(r: Row, pc: Option<WaitPc>) {
    && (r.started <==> pc.Some?)
    && (pc.None? ==> r.done == Open)
    && (pc.Some? ==>
          && (pc.value in {NotBegun, Observing, Observed} ==> !r.reapClaimed)
          && (pc.value == AwaitingTree ==> r.cancelled != "")
          && (pc.value in {ReadyToReap, Reaped, Finished} ==> r.reapClaimed || r.treeDone == Closed)
          && (pc.value == Finished <==> r.done == Closed))
  }

  ghost predicate Killed(log: seq<Event>, h: Handle) {
    exists t, ok :: Signalled(t, h, true, ok) in log
  }

  predicate Touches(e: Event, h: Handle) {
    (e.Signalled? || e.Scanned?) && e.h == h
  }

  // The latest signal to a row's group, or scan of it.
  ghost function LastTouch(log: seq<Event>, h: Handle): Option<Event> {
    if log == [] then None
    else if Touches(log[|log| - 1], h) then Some(log[|log| - 1])
    else LastTouch(log[..|log| - 1], h)
  }

  // A signal was delivered, or a scan found the group still alive within its time.
  predicate GoesOn(last: Option<Event>) {
    last.Some? && ((last.value.Signalled? && last.value.ok) || (last.value.Scanned? && last.value.scan == Alive))
  }

  predicate TimeIsUp(last: Option<Event>) {
    last.Some? && last.value.Scanned? && last.value.scan == TimedOut
  }

  predicate FoundGone(last: Option<Event>) {
    last.Some? && last.value.Scanned? && last.value.scan == Gone
  }

  // Nothing more is tried: the group is gone, a signal or scan failed, or it outlived the kill.
  predicate GivesUp(last: Option<Event>, killed: bool) {
    last.Some? && !GoesOn(last) && (TimeIsUp(last) ==> killed)
  }

  // How the group stopped, by what was seen last.
  predicate StoppedAs(last: Option<Event>, killed: bool, stop: Stop) {
    && (stop == Graceful <==> FoundGone(last) && !killed)
    && (stop == Forced <==> FoundGone(last) && killed)
  }

  ghost predicate StageGood(log: seq<Event>, h: Handle, stage: Stage) {
    var last, killed := LastTouch(log, h), Killed(log, h);
    match stage
    case SendTerm => last == None && !killed
    case ScanGrace => GoesOn(last) && !killed
    case SendKill => TimeIsUp(last) && !killed
    case ScanKilled => GoesOn(last) && killed
    case Resolve(stop, failed) => GivesUp(last, killed) && StoppedAs(last, killed, stop) && (failed <==> stop == Uncertain)
  }

  // The recorded stop says whether the kill signal was needed.
  ghost predicate StopIsHonest(log: seq<Event>, h: Handle, stop: Stop) {
    && (stop == Graceful ==> !Killed(log, h))
    && (stop == Forced ==> Killed(log, h))
  }

  ghost predicate SignallerGood(log: seq<Event>, h: Handle, r: Row, sig: Option<TaskId>, tasks: map<TaskId, Task>) {
    && (r.treeDone != NoChannel <==> sig.Some?)
    && (r.treeDone == NoChannel ==> LastTouch(log, h) == None && !Killed(log, h))
    && (r.treeDone == Open ==>
          && sig.value in tasks && tasks[sig.value].Signaller? && tasks[sig.value].h == h
          && StageGood(log, h, tasks[sig.value].stage))
    && (r.stop.Some? ==>
          && GivesUp(LastTouch(log, h), Killed(log, h)) && StoppedAs(LastTouch(log, h), Killed(log, h), r.stop.value)
          && (sig.Some? ==> sig.value in tasks && tasks[sig.value] == Returned(r.stop.value != Uncertain)))
  }

  // The exit the wait observed is the one on record.
  predicate ExitOnRecord(r: Row, exit: Exit) {
    r.exit == Some(exit) || (r.cancellation.Some? && r.cancellation.value.observedExit == exit)
  }

  ghost predicate HistoryGood(log: seq<Event>, h: Handle, r: Row, pc: Option<WaitPc>, sig: Option<TaskId>) {
    && (r.started <==> Started(r.owner, r.key, h) in log)
    && (forall e :: e in log && e.Started? && e.h == h ==> e == Started(r.owner, r.key, h))
    && (Reaping(h) in log <==> pc.Some? && pc.value in {Reaped, Finished})
    && (r.done == Closed <==> exists x :: DoneClosed(h, x) in log)
    && (forall x :: DoneClosed(h, x) in log ==> ExitOnRecord(r, x))
    && (forall s :: TreeClosed(h, s) in log <==> r.stop == Some(s))
    && (forall e :: e in log && Touches(e, h) ==> sig == Some(e.actor))
  }

  ghost function PcOf(w: World, h: Handle): Option<WaitPc> {
    if h in w.waits then Some(w.waits[h]) else None
  }

  ghost function SignallerOf(w: World, h: Handle): Option<TaskId> {
    if h in w.signaller then Some(w.signaller[h]) else None
  }

  ghost predicate HandleGood(w: World, h: Handle)
    requires h in w.store.rows
  {
    && RowGood(w.store.rows[h])
    && PcGood(w.store.rows[h], PcOf(w, h))
    && SignallerGood(w.log, h, w.store.rows[h], SignallerOf(w, h), w.tasks)
    && HistoryGood(w.log, h, w.store.rows[h], PcOf(w, h), SignallerOf(w, h))
  }

  // ------------------------------------------------------------ what tasks rely on

  ghost predicate TaskGood(w: World, t: TaskId)
    requires t in w.tasks
  {
    match w.tasks[t]
    case Signaller(h, _) => h in w.store.rows && w.store.rows[h].treeDone == Open && SignallerOf(w, h) == Some(t)
    case TreeWaiter(h, _) => h in w.store.rows && w.store.rows[h].treeDone != NoChannel
    case ReapWaiter(h) => h in w.store.rows && w.store.rows[h].reapClaimed
    case ShutdownWait(_, rows, failed) =>
      w.store.closed && forall h :: h in w.store.byHandle && h in w.store.rows ==>
                               w.store.rows[h].phase == Terminal || h in rows || failed
    case ShutdownReturned(ok) =>
      w.store.closed && (ok ==> AllTerminal(w.store))
    case Returned(_) => true
  }

  ghost predicate AllTerminal(s: Store) {
    forall h :: h in s.byHandle && h in s.rows ==> s.rows[h].phase == Terminal
  }

  // ------------------------------------------------------------ what the history keeps

  // Facts that happen at most once.
  predicate SameFact(e: Event, f: Event) {
    match e
    case Started(owner, key, h) => f.Started? && (f.h == h || (f.owner == owner && f.key == key))
    case Reaping(h) => f == Reaping(h)
    case TreeClosed(h, _) => f.TreeClosed? && f.h == h
    case DoneClosed(h, _) => f.DoneClosed? && f.h == h
    case _ => false
  }

  // A signal or scan of a group whose leader is being reaped, or anything happening twice.
  predicate Clash(e: Event, f: Event) {
    SameFact(e, f) || (e.Reaping? && Touches(f, e.h))
  }

  // First the terminate signal, then scans; the kill signal only when the grace period is over;
  // and the tree is closed with what was seen last.
  ghost predicate InOrder(past: seq<Event>, e: Event) {
    match e
    case Signalled(_, h, kill, _) =>
      !Killed(past, h) && (if kill then TimeIsUp(LastTouch(past, h)) else LastTouch(past, h) == None)
    case Scanned(_, h, _) => GoesOn(LastTouch(past, h))
    case TreeClosed(h, stop) =>
      GivesUp(LastTouch(past, h), Killed(past, h)) && StoppedAs(LastTouch(past, h), Killed(past, h), stop)
    case _ => true
  }

  ghost predicate InOrderAt(log: seq<Event>, j: int)
    requires 0 <= j < |log|
  {
    InOrder(log[..j], log[j])
  }

  ghost predicate LogGood(log: seq<Event>) {
    && (forall i, j :: 0 <= i < j < |log| ==> !Clash(log[i], log[j]))
    && (forall j :: 0 <= j < |log| ==> InOrderAt(log, j))
  }

  ghost predicate Good(w: World) {
    && GoodMaps(w.store)
    && (forall h :: h in w.store.rows ==> HandleGood(w, h))
    && (forall t :: t in w.tasks ==> TaskGood(w, t))
    && (forall e :: e in w.log ==> e.h in w.store.rows)
    && w.waits.Keys <= w.store.rows.Keys && w.signaller.Keys <= w.store.rows.Keys
    && LogGood(w.log)
  }
}
