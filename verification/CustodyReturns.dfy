/** What Cancel and Shutdown report: success only when the process group was seen gone
    (cli/internal/process/custody.go). */
module CustodyReturns {
  import opened Basics
  import opened Custody
  import opened CustodyProtocol
  import opened CustodyRuns

  // The row's tree was closed, and the group had been seen gone.
  ghost predicate SeenGone(log: seq<Event>, h: Handle) {
    TreeClosed(h, Graceful) in log || TreeClosed(h, Forced) in log
  }

  ghost predicate SameRow(task: Task, h: Handle) {
    (task.Signaller? ==> task.h == h) && (task.TreeWaiter? ==> task.h == h)
  }

  // Every goroutine of this shutdown is still to be collected, or has reported success.
  ghost predicate Collected(tasks: map<TaskId, Task>, n: nat, targets: set<TaskId>) {
    forall t :: t in tasks && t.Target? && t.n == n ==> t in targets || tasks[t] == Returned(true)
  }

  ghost predicate ReturnGood(tasks: map<TaskId, Task>, t: TaskId, log: seq<Event>)
    requires t in tasks
  {
    && (t.Target? ==>
          && Call(t.n) in tasks && (tasks[Call(t.n)].ShutdownWait? || tasks[Call(t.n)].ShutdownReturned?)
          && (tasks[t].Signaller? || tasks[t].TreeWaiter? || tasks[t].Returned?) && SameRow(tasks[t], t.h)
          && (tasks[t] == Returned(true) ==> SeenGone(log, t.h)))
    && match tasks[t]
       case ShutdownWait(targets, _, failed) => t.Call? && (failed || Collected(tasks, t.n, targets))
       case ShutdownReturned(ok) => t.Call? && (ok ==> Collected(tasks, t.n, {}))
       case _ => true
  }

  ghost predicate ReturnsInv(w: World) {
    forall t :: t in w.tasks ==> ReturnGood(w.tasks, t, w.log)
  }

  // One task moves on, towards its return.
  ghost predicate OneMoves(w: World, v: World, t: TaskId) {
    && t in w.tasks && t in v.tasks && v.tasks == w.tasks[t := v.tasks[t]] && !w.tasks[t].Returned? && w.log <= v.log
    && (w.tasks[t].ShutdownWait? <==> v.tasks[t].ShutdownWait? || v.tasks[t].ShutdownReturned?)
    && !w.tasks[t].ShutdownReturned?
  }

  lemma {:induction false} StillSeenGone(log: seq<Event>, more: seq<Event>, h: Handle)
    requires log <= more && SeenGone(log, h)
    ensures SeenGone(more, h)
  {
    forall e | e in log
      ensures e in more
    {
      var i :| 0 <= i < |log| && log[i] == e;
      assert more[i] == e;
    }
  }

  lemma {:induction false} OneKeepsReturns(w: World, v: World, t: TaskId)
    requires ReturnsInv(w) && OneMoves(w, v, t) && ReturnGood(v.tasks, t, v.log)
    ensures ReturnsInv(v)
  {
    hide SeenGone;
    forall s | s in v.tasks && s != t
      ensures ReturnGood(v.tasks, s, v.log)
    {
      assert ReturnGood(w.tasks, s, w.log);
      OtherReturns(w, v, t, s);
    }
  }

  lemma {:induction false} OtherReturns(w: World, v: World, t: TaskId, s: TaskId)
    requires OneMoves(w, v, t) && s in w.tasks && s != t && ReturnGood(w.tasks, s, w.log)
    ensures ReturnGood(v.tasks, s, v.log)
  {
    hide SeenGone;
    if s.Target? && w.tasks[s] == Returned(true) {
      StillSeenGone(w.log, v.log, s.h);
    }
  }

  // ------------------------------------------------------------ the steps

  lemma {:induction false} SignalReturns(w: World, a: Action)
    requires Good(w) && ReturnsInv(w) && Enabled(w, a) && a.Signal?
    ensures ReturnsInv(Do(w, a))
  {
    hide Good, SeenGone;
    var v := Do(w, a);
    assert ReturnGood(w.tasks, a.t, w.log);
    SignallerTask(w, a.t);
    ResolvedIsHonest(w, a.t);
    if v.tasks[a.t] == Returned(true) {
      ClosedNow(w.log, w.tasks[a.t].h, w.tasks[a.t].stage.stop);
    }
    hide ReturnsInv, AfterTree, StageEvent;
    OneKeepsReturns(w, v, a.t);
  }

  lemma {:induction false} ClosedNow(log: seq<Event>, h: Handle, stop: Stop)
    requires stop != Uncertain
    ensures SeenGone(log + [TreeClosed(h, stop)], h)
  {
    assert TreeClosed(h, stop) in log + [TreeClosed(h, stop)];
  }

  lemma {:induction false} ResolvedIsHonest(w: World, t: TaskId)
    requires Good(w) && t in w.tasks && w.tasks[t].Signaller?
    ensures w.tasks[t].stage.Resolve? ==> (w.tasks[t].stage.failed <==> w.tasks[t].stage.stop == Uncertain)
  {
    hide Good, HandleGood, SignallerOf;
    SignallerTask(w, t);
    RowOfGood(w, w.tasks[t].h);
    StageIsGood(w, t, w.tasks[t].h);
    hide LastTouch, Killed, GivesUp, StoppedAs;
  }

  lemma {:induction false} StageIsGood(w: World, t: TaskId, h: Handle)
    requires h in w.store.rows && HandleGood(w, h) && w.store.rows[h].treeDone == Open && SignallerOf(w, h) == Some(t)
    ensures t in w.tasks && w.tasks[t].Signaller? && StageGood(w.log, h, w.tasks[t].stage)
  {
    hide PcGood, HistoryGood, RowGood, StageGood, LastTouch, Killed;
  }

  lemma {:induction false} AwaitReturns(w: World, a: Action)
    requires Good(w) && ReturnsInv(w) && Enabled(w, a) && a.AwaitTree?
    ensures ReturnsInv(Do(w, a))
  {
    hide Good, SeenGone;
    var v := Do(w, a);
    assert v.log == w.log;
    assert ReturnGood(w.tasks, a.t, w.log);
    if v.tasks[a.t] == Returned(true) {
      ClosedIsSeen(w, w.tasks[a.t].h);
    }
    hide ReturnsInv;
    OneKeepsReturns(w, v, a.t);
  }

  lemma {:induction false} ClosedIsSeen(w: World, h: Handle)
    requires Good(w) && h in w.store.rows && w.store.rows[h].treeDone == Closed && !w.store.rows[h].treeFailed
    ensures SeenGone(w.log, h)
  {
    RowOfGood(w, h);
    hide Good, PcGood, SignallerGood, Killed, OneOutcome;
  }

  lemma {:induction false} WaiterReturns(w: World, a: Action)
    requires ReturnsInv(w) && Enabled(w, a) && (a.AwaitReap? || a.Collect? || a.Settle? || a.Finish?)
    ensures ReturnsInv(Do(w, a))
  {
    hide SeenGone;
    var v := Do(w, a);
    assert v.log == w.log;
    assert ReturnGood(w.tasks, a.t, w.log);
    hide ReturnsInv;
    assert ReturnGood(v.tasks, a.t, v.log);
    OneKeepsReturns(w, v, a.t);
  }

  lemma {:induction false} SameTasksReturn(w: World, v: World)
    requires ReturnsInv(w) && v.tasks == w.tasks && w.log <= v.log
    ensures ReturnsInv(v)
  {
    forall s | s in v.tasks
      ensures ReturnGood(v.tasks, s, v.log)
    {
      assert ReturnGood(w.tasks, s, w.log);
      if s.Target? && w.tasks[s] == Returned(true) {
        StillSeenGone(w.log, v.log, s.h);
      }
    }
  }

  lemma {:induction false} CancelReturns(w: World, a: Action)
    requires ReturnsInv(w) && Enabled(w, a) && a.Cancel?
    ensures ReturnsInv(Do(w, a))
  {
    hide Do, SeenGone, CancelAnswerOf, AfterCancel;
    CancelWorld(w, a);
    var v := Do(w, a);
    forall s | s in v.tasks
      ensures ReturnGood(v.tasks, s, v.log)
    {
      if s != Call(a.n) {
        assert ReturnGood(w.tasks, s, w.log);
      }
    }
  }

  lemma {:induction false} ShutdownReturns(w: World, a: Action)
    requires ReturnsInv(w) && Enabled(w, a) && a.Shutdown?
    ensures ReturnsInv(Do(w, a))
  {
    hide Do, SeenGone, TargetTasks, Starts, Joins, Waits, ShutdownStore;
    ShutdownChanges(w, a);
    TargetTasksAre(w.store, a.n);
    var v := Do(w, a);
    forall s | s in v.tasks
      ensures ReturnGood(v.tasks, s, v.log)
    {
      if s in w.tasks {
        assert ReturnGood(w.tasks, s, w.log);
      }
    }
  }

  lemma {:induction false} StepKeepsReturns(w: World, a: Action)
    requires Good(w) && ReturnsInv(w) && Enabled(w, a)
    ensures ReturnsInv(Do(w, a))
  {
    hide Good, ReturnsInv, Enabled;
    match a {
      case Signal(_, _, _) => SignalReturns(w, a);
      case AwaitTree(_, _) => AwaitReturns(w, a);
      case Cancel(_, _, _) => CancelReturns(w, a);
      case Shutdown(_) => ShutdownReturns(w, a);
      case Launch(_, _, _, _, _) => SameTasksReturn(w, Do(w, a));
      case Acknowledge(_, _, _) => SameTasksReturn(w, Do(w, a));
      case Wait(_, _) => SameTasksReturn(w, Do(w, a));
      case _ => WaiterReturns(w, a);
    }
  }

  lemma {:induction false} RunKeepsReturns(run: seq<World>, k: nat)
    requires IsRun(run) && k < |run|
    ensures ReturnsInv(run[k])
  {
    hide Good, Enabled, Do;
    if k > 0 {
      hide ReturnsInv;
      RunKeepsReturns(run, k - 1);
      RunStaysGood(run, k - 1);
      assert StepHere(run, k - 1);
      var a :| StepsTo(run[k - 1], a, run[k]);
      StepKeepsReturns(run[k - 1], a);
    }
  }

  // ------------------------------------------------------------ what a success means

  lemma {:induction false} TasksStay(w: World, a: Action)
    requires Enabled(w, a)
    ensures w.tasks.Keys <= Do(w, a).tasks.Keys
  {
    hide AfterLaunch, AfterAcknowledge, AfterTree, StageEvent, NextStage, CancelAnswerOf, WaitRow, NextPc;
  }

  lemma {:induction false} TasksStayAlong(run: seq<World>, i: nat, k: nat)
    requires IsRun(run) && i <= k < |run|
    ensures run[i].tasks.Keys <= run[k].tasks.Keys
    decreases k
  {
    hide Enabled, Do;
    if i < k {
      TasksStayAlong(run, i, k - 1);
      assert StepHere(run, k - 1);
      var a :| StepsTo(run[k - 1], a, run[k]);
      TasksStay(run[k - 1], a);
    }
  }

  /** A call that terminates a row's tree reports success exactly when the group was seen gone. */
  lemma {:induction false} TerminatorReports(run: seq<World>, k: nat, h: Handle, stop: Stop)
    requires IsRun(run) && k < |run| && TreeClosed(h, stop) in run[k].log
    ensures SignallerOf(run[k], h).Some?
    ensures var t := SignallerOf(run[k], h).value;
            t in run[k].tasks && run[k].tasks[t] == Returned(stop != Uncertain)
  {
    RunStaysGood(run, k);
    hide IsRun, Good;
    KnownRow(run[k], TreeClosed(h, stop));
    RowOfGood(run[k], h);
    hide PcGood, LastTouch, Killed, OneOutcome, GivesUp, StoppedAs;
  }

  lemma {:induction false} KnownRow(w: World, e: Event)
    requires Good(w) && e in w.log
    ensures e.h in w.store.rows
  {
    hide GoodMaps, HandleGood, TaskGood, LogGood;
  }

  /** A shutdown that reports success has seen the group gone of every process that was started,
      unfinished and not yet claimed for reaping when it began. */
  lemma {:induction false} ShutdownSucceeds(run: seq<World>, i: nat, k: nat, n: nat, h: Handle)
    requires IsRun(run) && i < k < |run| && StepsTo(run[i], Shutdown(n), run[i + 1])
    requires h in run[i].store.byHandle && h in run[i].store.rows
    requires var r := run[i].store.rows[h]; r.started && !r.reapClaimed && r.phase != Terminal
    requires Call(n) in run[k].tasks && run[k].tasks[Call(n)] == ShutdownReturned(true)
    ensures SeenGone(run[k].log, h)
  {
    ShutdownTargets(run[i], n, h);
    hide StepsTo, IsRun, SeenGone;
    RunKeepsReturns(run, k);
    TasksStayAlong(run, i + 1, k);
    assert ReturnGood(run[k].tasks, Call(n), run[k].log);
    assert ReturnGood(run[k].tasks, Target(n, h), run[k].log);
  }

  lemma {:induction false} ShutdownTargets(w: World, n: nat, h: Handle)
    requires Enabled(w, Shutdown(n)) && h in w.store.byHandle && h in w.store.rows
    requires var r := w.store.rows[h]; r.started && !r.reapClaimed && r.phase != Terminal
    ensures Target(n, h) in Do(w, Shutdown(n)).tasks
  {
    ShutdownChanges(w, Shutdown(n));
    assert h in Starts(w.store) + Joins(w.store);
    assert Target(n, h) in TargetTasks(w.store, n);
    hide TargetTasks, Starts, Joins, Waits, ShutdownStore, Do;
  }
}
