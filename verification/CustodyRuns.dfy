/** What every run of the custody protocol keeps. */
module CustodyRuns {
  import opened Basics
  import opened Keys
  import opened Custody
  import opened CustodyProtocol

  // ------------------------------------------------------------ rows and stores only move on

  // Ends are final, and so are claims and channels.
  ghost predicate Later(r: Row, s: Row) {
    && s.owner == r.owner && s.key == r.key && s.spec == r.spec && s.started == r.started
    && (r.treeDone != NoChannel ==> s.treeDone != NoChannel)
    && (r.reapClaimed ==> s.reapClaimed) && (r.cancelled != "" ==> s.cancelled == r.cancelled)
    && (r.phase == Terminal ==>
          && s.phase == Terminal && s.exit == r.exit && s.cancellation == r.cancellation
          && s.launchFailure == r.launchFailure)
  }

  ghost predicate StoreLater(s: Store, t: Store) {
    && s.rows.Keys <= t.rows.Keys
    && (forall h :: h in s.rows ==> Later(s.rows[h], t.rows[h]))
    && (s.closed ==> t.closed && t.rows.Keys == s.rows.Keys && t.byHandle <= s.byHandle)
  }

  lemma {:induction false} LaterTransitive(s: Store, t: Store, u: Store)
    requires StoreLater(s, t) && StoreLater(t, u)
    ensures StoreLater(s, u)
  {
    forall h | h in s.rows
      ensures Later(s.rows[h], u.rows[h])
    {
      assert Later(s.rows[h], t.rows[h]) && Later(t.rows[h], u.rows[h]);
    }
  }

  lemma {:induction false} RowStep(s: Store, h: Handle, r: Row)
    requires GoodMaps(s) && h in s.rows && Later(s.rows[h], r)
    ensures GoodMaps(s.(rows := s.rows[h := r])) && StoreLater(s, s.(rows := s.rows[h := r]))
  {
    RowUpdateKeepsMaps(s, h, r);
  }

  // ------------------------------------------------------------ framing

  // Task t of w stands unchanged in v and may go on relying on the same things.
  lemma {:induction false} TaskKept(w: World, v: World, t: TaskId)
    requires t in w.tasks && TaskGood(w, t) && t in v.tasks && v.tasks[t] == w.tasks[t]
    requires StoreLater(w.store, v.store)
    requires w.tasks[t].Signaller? ==>
               var h := w.tasks[t].h;
               h in v.store.rows && v.store.rows[h].treeDone == Open && SignallerOf(v, h) == Some(t)
    requires v.store.byHandle <= w.store.byHandle || !w.store.closed
    ensures TaskGood(v, t)
  {
    hide SignallerOf;
    assert forall h :: h in w.store.rows ==> Later(w.store.rows[h], v.store.rows[h]);
  }

  // The task terminates this row's tree, or has done its work.
  predicate Terminates(task: Task, h: Handle) {
    (task.Signaller? && task.h == h) || task.Returned?
  }

  lemma {:induction false} HandleKept(w: World, v: World, h: Handle, events: seq<Event>)
    requires h in w.store.rows && HandleGood(w, h)
    requires h in v.store.rows && v.store.rows[h] == w.store.rows[h]
    requires PcOf(v, h) == PcOf(w, h) && SignallerOf(v, h) == SignallerOf(w, h)
    requires forall s :: SignallerOf(w, h) == Some(s) && s in w.tasks && Terminates(w.tasks[s], h) ==>
                           s in v.tasks && v.tasks[s] == w.tasks[s]
    requires v.log == w.log + events && forall e :: e in events ==> e.h != h
    ensures HandleGood(v, h)
  {
    hide PcOf, SignallerOf, RowGood, PcGood;
    SameEvents(w.log, events, h);
    assert Killed(v.log, h) <==> Killed(w.log, h);
    SameLastTouch(w.log, events, h);
    HistoryKept(w.log, events, h, w.store.rows[h], PcOf(w, h), SignallerOf(w, h));
    hide Killed, HistoryGood;
    SignallerKept(w.log, v.log, h, w.store.rows[h], SignallerOf(w, h), w.tasks, v.tasks);
  }

  lemma {:induction false} SameEvents(log: seq<Event>, events: seq<Event>, h: Handle)
    requires forall e :: e in events ==> e.h != h
    ensures forall e: Event :: e.h == h ==> (e in log + events <==> e in log)
  {
  }

  lemma {:induction false} SameLastTouch(log: seq<Event>, events: seq<Event>, h: Handle)
    requires forall e :: e in events ==> !Touches(e, h)
    ensures LastTouch(log + events, h) == LastTouch(log, h)
  {
    if events == [] {
      assert log + events == log;
    } else {
      var init := events[..|events| - 1];
      assert (log + events)[..|log + events| - 1] == log + init;
      SameLastTouch(log, init, h);
    }
  }

  lemma {:induction false} HistoryKept(
    log: seq<Event>, events: seq<Event>, h: Handle, r: Row, pc: Option<WaitPc>, sig: Option<TaskId>)
    requires HistoryGood(log, h, r, pc, sig) && forall e :: e in events ==> e.h != h
    ensures HistoryGood(log + events, h, r, pc, sig)
  {
    SameEvents(log, events, h);
  }

  lemma {:induction false} SignallerKept(
    log: seq<Event>, after: seq<Event>, h: Handle, r: Row, sig: Option<TaskId>, tasks: map<TaskId, Task>, later: map<TaskId, Task>)
    requires SignallerGood(log, h, r, sig, tasks)
    requires (Killed(after, h) <==> Killed(log, h)) && LastTouch(after, h) == LastTouch(log, h)
    requires sig.Some? && sig.value in tasks && Terminates(tasks[sig.value], h) ==>
               sig.value in later && later[sig.value] == tasks[sig.value]
    ensures SignallerGood(after, h, r, sig, later)
  {
    hide Killed, LastTouch, GivesUp, StoppedAs;
  }

  lemma {:induction false} LogAppend(log: seq<Event>, e: Event)
    requires LogGood(log) && InOrder(log, e) && forall f :: f in log ==> !Clash(f, e)
    ensures LogGood(log + [e])
  {
    hide Clash, InOrder;
    var after := log + [e];
    forall j | 0 <= j < |after|
      ensures InOrderAt(after, j)
    {
      if j < |log| {
        assert InOrderAt(log, j);
        assert after[..j] == log[..j];
      } else {
        assert after[..j] == log;
      }
    }
    forall i, j | 0 <= i < j < |after|
      ensures !Clash(after[i], after[j])
    {
      assert after[i] in log;
    }
  }

  // ------------------------------------------------------------ the wait goroutine

  ghost predicate Parts(
    log: seq<Event>, h: Handle, r: Row, pc: Option<WaitPc>, sig: Option<TaskId>, tasks: map<TaskId, Task>)
  {
    RowGood(r) && PcGood(r, pc) && SignallerGood(log, h, r, sig, tasks) && HistoryGood(log, h, r, pc, sig)
  }

  lemma {:induction false} WaitRowFacts(r: Row, pc: WaitPc, exit: Exit)
    requires RowGood(r) && PcGood(r, Some(pc)) && pc != Finished && (pc == AwaitingTree ==> r.treeDone != Open)
    ensures var s := WaitRow(pc, r, exit);
            && RowGood(s) && PcGood(s, Some(NextPc(pc, r))) && Later(r, s)
            && s.treeDone == r.treeDone && s.stop == r.stop
            && (s.done == Closed <==> pc == Reaped) && (pc == Reaped ==> ExitOnRecord(s, exit))
  {
  }

  lemma {:induction false} WaitHistory(
    log: seq<Event>, h: Handle, r: Row, pc: WaitPc, sig: Option<TaskId>, s: Row, after: WaitPc, exit: Exit)
    requires HistoryGood(log, h, r, Some(pc), sig) && pc != Finished && r.done != Closed
    requires s.started == r.started && s.owner == r.owner && s.key == r.key && s.stop == r.stop
    requires s.done == Closed <==> pc == Reaped
    requires pc == Reaped ==> ExitOnRecord(s, exit)
    requires after in {Reaped, Finished} <==> pc == ReadyToReap || pc == Reaped
    ensures HistoryGood(log + WaitEvents(pc, h, exit), h, s, Some(after), sig)
    ensures forall e, f :: e in WaitEvents(pc, h, exit) && f in log ==> !Clash(f, e)
  {
    assert pc == Reaped ==> DoneClosed(h, exit) in log + WaitEvents(pc, h, exit);
    var more := log + WaitEvents(pc, h, exit);
    forall e
      ensures e in more <==> e in log || e in WaitEvents(pc, h, exit)
    {
    }
  }

  lemma {:induction false} WaitParts(
    log: seq<Event>, h: Handle, r: Row, pc: WaitPc, sig: Option<TaskId>, tasks: map<TaskId, Task>, exit: Exit)
    requires Parts(log, h, r, Some(pc), sig, tasks) && pc != Finished
    requires pc == AwaitingTree ==> r.treeDone != Open
    ensures Parts(log + WaitEvents(pc, h, exit), h, WaitRow(pc, r, exit), Some(NextPc(pc, r)), sig, tasks)
    ensures forall e, f :: e in WaitEvents(pc, h, exit) && f in log ==> !Clash(f, e)
    ensures Later(r, WaitRow(pc, r, exit)) && WaitRow(pc, r, exit).treeDone == r.treeDone
  {
    var s := WaitRow(pc, r, exit);
    WaitRowFacts(r, pc, exit);
    WaitHistory(log, h, r, pc, sig, s, NextPc(pc, r), exit);
    NoKillIn(log, WaitEvents(pc, h, exit), h);
    SameLastTouch(log, WaitEvents(pc, h, exit), h);
    hide Killed, LastTouch, GivesUp, StoppedAs, RowGood, PcGood, HistoryGood, WaitRow, Later, Clash;
  }

  lemma {:induction false} NoKillIn(log: seq<Event>, events: seq<Event>, h: Handle)
    requires forall e :: e in events ==> !e.Signalled? || !e.kill
    ensures Killed(log + events, h) <==> Killed(log, h)
  {
    if Killed(log, h) {
      var t, ok :| Signalled(t, h, true, ok) in log;
      assert Signalled(t, h, true, ok) in log + events;
    }
  }

  lemma {:induction false} PartsAreGood(w: World, h: Handle)
    requires h in w.store.rows
    ensures HandleGood(w, h) <==> Parts(w.log, h, w.store.rows[h], PcOf(w, h), SignallerOf(w, h), w.tasks)
  {
  }

  // The log stays good when at most one harmless event is added.
  lemma {:induction false} LogExtends(log: seq<Event>, events: seq<Event>)
    requires LogGood(log) && |events| <= 1
    requires forall e, f :: e in events && f in log ==> !Clash(f, e)
    requires forall e :: e in events ==> InOrder(log, e)
    ensures LogGood(log + events)
  {
    hide LogGood, Clash, InOrder;
    if |events| == 0 {
      assert log + events == log;
    } else {
      assert events == [events[0]];
      LogAppend(log, events[0]);
    }
  }

  lemma {:induction false} WaitKeeps(w: World, h: Handle, exit: Exit)
    requires Good(w) && Enabled(w, Wait(h, exit))
    ensures Good(Do(w, Wait(h, exit))) && StoreLater(w.store, Do(w, Wait(h, exit)).store)
  {
    hide HandleGood, TaskGood, LogGood, GoodMaps, Parts, WaitRow, Later, Clash, RowGood;
    var v := Do(w, Wait(h, exit));
    var pc, r := w.waits[h], w.store.rows[h];
    assert HandleGood(w, h);
    PartsAreGood(w, h);
    WaitParts(w.log, h, r, pc, SignallerOf(w, h), w.tasks, exit);
    PartsAreGood(v, h);
    assert |WaitEvents(pc, h, exit)| <= 1 && forall e :: e in WaitEvents(pc, h, exit) ==> e.h == h && InOrder(w.log, e);
    LogExtends(w.log, WaitEvents(pc, h, exit));
    RowStep(w.store, h, WaitRow(pc, r, exit));
    forall g | g in v.store.rows
      ensures HandleGood(v, g)
    {
      if g != h {
        HandleKept(w, v, g, WaitEvents(pc, h, exit));
      }
    }
    forall t | t in v.tasks
      ensures TaskGood(v, t)
    {
      SignallerTask(w, t);
      TaskKept(w, v, t);
    }
  }

  lemma {:induction false} SignallerTask(w: World, t: TaskId)
    requires Good(w) && t in w.tasks
    ensures TaskGood(w, t)
    ensures w.tasks[t].Signaller? ==>
              var h := w.tasks[t].h;
              h in w.store.rows && w.store.rows[h].treeDone == Open && SignallerOf(w, h) == Some(t)
  {
    assert TaskGood(w, t);
  }

  // ------------------------------------------------------------ launch and acknowledge

  lemma {:induction false} NewHandleIsUnknown(w: World, h: Handle)
    requires Good(w) && h !in w.store.rows
    ensures h !in w.waits && h !in w.signaller
    ensures forall e :: e in w.log ==> e.h != h
  {
  }

  lemma {:induction false} FreshParts(
    log: seq<Event>, h: Handle, owner: string, key: string, spec: Spec, failure: Option<string>, tasks: map<TaskId, Task>)
    requires forall e :: e in log ==> e.h != h
    ensures var events := if failure.None? then [Started(owner, key, h)] else [];
            Parts(log + events, h, FreshRow(owner, key, spec, failure),
                  if failure.None? then Some(NotBegun) else None, None, tasks)
  {
    hide LastTouch, GivesUp, StoppedAs, Killed, SignallerGood;
    var events := if failure.None? then [Started(owner, key, h)] else [];
    forall e
      ensures e in log + events <==> e in log || e in events
    {
    }
    UntouchedRow(log + events, h, FreshRow(owner, key, spec, failure), tasks);
  }

  lemma {:induction false} UntouchedRow(log: seq<Event>, h: Handle, r: Row, tasks: map<TaskId, Task>)
    requires forall e :: e in log ==> !Touches(e, h)
    requires r.treeDone == NoChannel && r.stop == None
    ensures SignallerGood(log, h, r, None, tasks)
  {
    SameLastTouch([], log, h);
    assert [] + log == log;
    assert forall t, ok :: Touches(Signalled(t, h, true, ok), h);
  }

  lemma {:induction false} StartNamesRow(w: World, f: Event)
    requires f in w.log && f.Started? && f.h in w.store.rows && HandleGood(w, f.h)
    ensures f.owner == w.store.rows[f.h].owner && f.key == w.store.rows[f.h].key
  {
    hide RowGood, PcGood, SignallerGood;
  }

  // No earlier start had this handle, nor this owner and key.
  lemma {:induction false} StartIsNew(w: World, owner: string, key: string, h: Handle)
    requires Good(w) && h !in w.store.rows && LaunchesAnew(w.store, owner, key)
    ensures forall f :: f in w.log ==> !Clash(f, Started(owner, key, h))
  {
    hide TaskGood, LogGood, HandleGood, Join;
    NewHandleIsUnknown(w, h);
    forall f | f in w.log && f.Started?
      ensures f.owner != owner || f.key != key
    {
      assert f.h in w.store.rows && HandleGood(w, f.h);
      StartNamesRow(w, f);
      assert Join(w.store.rows[f.h].owner, w.store.rows[f.h].key) in w.store.reservations;
    }
  }

  lemma {:induction false} LaunchIsLater(
    s: Store, owner: string, key: string, spec: Spec, handle: Handle, failure: Option<string>)
    requires handle !in s.rows
    ensures StoreLater(s, AfterLaunch(s, owner, key, spec, handle, failure))
  {
  }

  lemma {:induction false} LaunchKeeps(w: World, a: Action)
    requires Good(w) && a.Launch? && Enabled(w, a)
    ensures Good(Do(w, a)) && StoreLater(w.store, Do(w, a).store)
  {
    var Launch(owner, key, spec, h, failure) := a;
    LaunchIsLater(w.store, owner, key, spec, h, failure);
    LaunchKeepsMaps(w.store, owner, key, spec, h, failure);
    var v := Do(w, a);
    if LaunchesAnew(w.store, owner, key) {
      NewHandleIsUnknown(w, h);
      StartIsNew(w, owner, key, h);
      FreshParts(w.log, h, owner, key, spec, failure, w.tasks);
      LaunchAnewKeeps(w, a);
    } else {
      assert v.log == w.log;
      assert v == w;
    }
  }

  lemma {:induction false} LaunchAnewKeeps(w: World, a: Action)
    requires Good(w) && a.Launch? && Enabled(w, a) && LaunchesAnew(w.store, a.owner, a.key)
    requires GoodMaps(Do(w, a).store) && StoreLater(w.store, Do(w, a).store)
    requires a.handle !in w.waits && a.handle !in w.signaller
    requires forall f :: f in w.log ==> !Clash(f, Started(a.owner, a.key, a.handle))
    requires var events := if a.failure.None? then [Started(a.owner, a.key, a.handle)] else [];
             Parts(w.log + events, a.handle, FreshRow(a.owner, a.key, a.spec, a.failure),
                   if a.failure.None? then Some(NotBegun) else None, None, w.tasks)
    ensures Good(Do(w, a))
  {
    hide HandleGood, TaskGood, LogGood, GoodMaps, Parts, Later, Clash, FreshRow, StoreLater, Join;
    var v := Do(w, a);
    var h := a.handle;
    var events := if a.failure.None? then [Started(a.owner, a.key, h)] else [];
    assert v.log == w.log + events;
    LogExtends(w.log, events);
    PartsAreGood(v, h);
    forall g | g in v.store.rows
      ensures HandleGood(v, g)
    {
      if g != h {
        HandleKept(w, v, g, events);
      }
    }
    forall t | t in v.tasks
      ensures TaskGood(v, t)
    {
      SignallerTask(w, t);
      TaskKept(w, v, t);
    }
  }

  lemma {:induction false} AcknowledgeKeeps(w: World, a: Action)
    requires Good(w) && a.Acknowledge? && Enabled(w, a)
    ensures Good(Do(w, a)) && StoreLater(w.store, Do(w, a).store)
  {
    hide HandleGood, TaskGood, LogGood;
    var v := Do(w, a);
    assert w.log + [] == w.log;
    assert v == w.(store := v.store) && v.store.rows == w.store.rows && v.store.closed == w.store.closed;
    assert v.store.byHandle <= w.store.byHandle;
    assert GoodMaps(v.store);
    hide Do, Enabled, GoodMaps;
    assert StoreLater(w.store, v.store);
    forall g | g in v.store.rows
      ensures HandleGood(v, g)
    {
      HandleKept(w, v, g, []);
    }
    forall t | t in v.tasks
      ensures TaskGood(v, t)
    {
      SignallerTask(w, t);
      TaskKept(w, v, t);
    }
  }

  // ------------------------------------------------------------ steps of tasks alone

  // Only task t changes, and it neither is nor becomes a signaller.
  lemma {:induction false} TaskOnlyKeeps(w: World, v: World, t: TaskId, task: Task)
    requires Good(w) && v == w.(tasks := w.tasks[t := task])
    requires t in w.tasks ==> !w.tasks[t].Signaller? && !w.tasks[t].Returned?
    requires !task.Signaller? && TaskGood(v, t)
    ensures Good(v) && StoreLater(w.store, v.store)
  {
    hide HandleGood, TaskGood, LogGood, GoodMaps;
    assert StoreLater(w.store, v.store);
    assert v.log == w.log + [];
    forall g | g in v.store.rows
      ensures HandleGood(v, g)
    {
      HandleKept(w, v, g, []);
    }
    forall s | s in v.tasks && s != t
      ensures TaskGood(v, s)
    {
      SignallerTask(w, s);
      TaskKept(w, v, s);
    }
  }

  lemma {:induction false} WaitersKeep(w: World, a: Action)
    requires Good(w) && Enabled(w, a)
    requires a.AwaitTree? || a.AwaitReap? || a.Collect? || a.Settle? || a.Finish?
    ensures Good(Do(w, a)) && StoreLater(w.store, Do(w, a).store)
  {
    hide TaskGood, LogGood, HandleGood, GoodMaps, Good, StoreLater;
    var v := Do(w, a);
    assert v.log == w.log;
    assert v == w.(tasks := w.tasks[a.t := v.tasks[a.t]]);
    WaiterTaskGood(w, a);
    TaskOnlyKeeps(w, v, a.t, v.tasks[a.t]);
  }

  lemma {:induction false} WaiterTaskGood(w: World, a: Action)
    requires Good(w) && Enabled(w, a)
    requires a.AwaitTree? || a.AwaitReap? || a.Collect? || a.Settle? || a.Finish?
    ensures TaskGood(Do(w, a), a.t)
  {
    hide HandleGood, LogGood, GoodMaps;
    assert TaskGood(w, a.t);
  }

  // ------------------------------------------------------------ cancel

  lemma {:induction false} CancelParts(
    log: seq<Event>, h: Handle, r: Row, pc: Option<WaitPc>, sig: Option<TaskId>,
    tasks: map<TaskId, Task>, t: TaskId)
    requires Parts(log, h, r, pc, sig, tasks) && t !in tasks
    ensures var answer := CancelAnswerOf(r);
            var later := tasks[t := CancelTask(answer, h)];
            && Parts(log, h, AfterCancel(r), pc, if answer == Terminate then Some(t) else sig, later)
            && Later(r, AfterCancel(r))
            && (answer == Terminate <==> r.treeDone == NoChannel && AfterCancel(r).treeDone == Open)
            && (answer != Terminate ==> AfterCancel(r) == r)
            && (answer == CancelAnswer.AwaitTree ==> r.treeDone != NoChannel)
            && (answer == AwaitReaping ==> r.reapClaimed)
  {
    hide Killed;
  }

  lemma {:induction false} CancelKeeps(w: World, a: Action)
    requires Good(w) && a.Cancel? && Enabled(w, a)
    ensures Good(Do(w, a)) && StoreLater(w.store, Do(w, a).store)
  {
    hide Do, Good, HandleGood, TaskGood, GoodMaps, StoreLater, AfterCancel, CancelAnswerOf, CancelTask;
    CancelWorld(w, a);
    hide Enabled;
    CancelledRow(w, Do(w, a), Call(a.n), a.h);
    CancelFrame(w, Do(w, a), Call(a.n), a.h);
  }

  lemma {:induction false} RowOfGood(w: World, h: Handle)
    requires Good(w) && h in w.store.rows
    ensures GoodMaps(w.store) && HandleGood(w, h)
  {
  }

  lemma {:induction false} CancelledRow(w: World, v: World, t: TaskId, h: Handle)
    requires Good(w) && h in w.store.rows && t !in w.tasks
    requires v.store == w.store.(rows := w.store.rows[h := AfterCancel(w.store.rows[h])])
    requires v.tasks == w.tasks[t := CancelTask(CancelAnswerOf(w.store.rows[h]), h)]
    requires SignallerOf(v, h) == if CancelAnswerOf(w.store.rows[h]) == Terminate then Some(t) else SignallerOf(w, h)
    requires v.waits == w.waits && v.log == w.log
    ensures GoodMaps(v.store) && HandleGood(v, h) && StoreLater(w.store, v.store) && TaskGood(v, t)
    ensures w.store.rows[h].treeDone == Open ==> v.store.rows[h].treeDone == Open && SignallerOf(v, h) == SignallerOf(w, h)
  {
    hide Good, HandleGood, TaskGood, GoodMaps, Parts, AfterCancel, CancelAnswerOf, CancelTask, Later, StoreLater, SignallerOf;
    RowOfGood(w, h);
    PartsAreGood(w, h);
    CancelParts(w.log, h, w.store.rows[h], PcOf(w, h), SignallerOf(w, h), w.tasks, t);
    PartsAreGood(v, h);
    RowStep(w.store, h, AfterCancel(w.store.rows[h]));
    CancelTaskGood(v, t, h, CancelAnswerOf(w.store.rows[h]));
  }

  lemma {:induction false} CancelWorld(w: World, a: Action)
    requires a.Cancel? && Enabled(w, a)
    ensures var v := Do(w, a);
            var r := w.store.rows[a.h];
            && v.store == w.store.(rows := w.store.rows[a.h := AfterCancel(r)])
            && v.tasks == w.tasks[Call(a.n) := CancelTask(CancelAnswerOf(r), a.h)]
            && v.signaller == (if CancelAnswerOf(r) == Terminate then w.signaller[a.h := Call(a.n)] else w.signaller)
            && SignallerOf(v, a.h) == (if CancelAnswerOf(r) == Terminate then Some(Call(a.n)) else SignallerOf(w, a.h))
            && v.waits == w.waits && v.log == w.log && Call(a.n) !in w.tasks && a.h in w.store.rows
  {
    hide AfterCancel, CancelAnswerOf, CancelTask;
    assert w.log + [] == w.log;
  }

  lemma {:induction false} CancelFrame(w: World, v: World, t: TaskId, h: Handle)
    requires Good(w) && t !in w.tasks && h in w.store.rows
    requires v.waits == w.waits && v.log == w.log
    requires v.store.byHandle == w.store.byHandle && v.store.rows.Keys == w.store.rows.Keys
    requires forall g :: g in w.store.rows && g != h ==> v.store.rows[g] == w.store.rows[g] && SignallerOf(v, g) == SignallerOf(w, g)
    requires w.store.rows[h].treeDone == Open ==> v.store.rows[h].treeDone == Open && SignallerOf(v, h) == SignallerOf(w, h)
    requires t in v.tasks && v.tasks == w.tasks[t := v.tasks[t]] && TaskGood(v, t)
    requires v.signaller.Keys <= w.signaller.Keys + {h}
    requires GoodMaps(v.store) && HandleGood(v, h) && StoreLater(w.store, v.store)
    ensures Good(v)
  {
    hide HandleGood, TaskGood, LogGood, GoodMaps, StoreLater, SignallerOf;
    assert v.log == w.log + [];
    forall g | g in v.store.rows
      ensures HandleGood(v, g)
    {
      if g != h {
        assert PcOf(v, g) == PcOf(w, g);
        HandleKept(w, v, g, []);
      }
    }
    forall s | s in v.tasks
      ensures TaskGood(v, s)
    {
      if s != t {
        SignallerTask(w, s);
        TaskKept(w, v, s);
      }
    }
  }

  lemma {:induction false} CancelTaskGood(v: World, t: TaskId, h: Handle, answer: CancelAnswer)
    requires t in v.tasks && v.tasks[t] == CancelTask(answer, h) && h in v.store.rows
    requires answer == Terminate ==> v.store.rows[h].treeDone == Open && SignallerOf(v, h) == Some(t)
    requires answer == CancelAnswer.AwaitTree ==> v.store.rows[h].treeDone != NoChannel
    requires answer == AwaitReaping ==> v.store.rows[h].reapClaimed
    ensures TaskGood(v, t)
  {
  }

  // ------------------------------------------------------------ the signaller

  // A group is signalled or scanned only while its tree channel is open, so nobody reaps it.
  lemma {:induction false} TouchIsSafe(
    log: seq<Event>, h: Handle, r: Row, pc: Option<WaitPc>, t: TaskId, tasks: map<TaskId, Task>, e: Event, ok: bool, scan: Scan)
    requires Parts(log, h, r, pc, Some(t), tasks) && r.treeDone == Open
    requires e == StageEvent(t, h, tasks[t].stage, ok, scan)
    ensures InOrder(log, e) && forall f :: f in log ==> !Clash(f, e)
  {
    hide Killed, LastTouch, GivesUp, StoppedAs, GoesOn, TimeIsUp;
    assert Reaping(h) !in log;
  }

  lemma {:induction false} StageParts(
    log: seq<Event>, h: Handle, r: Row, pc: Option<WaitPc>, t: TaskId, tasks: map<TaskId, Task>, ok: bool, scan: Scan)
    requires Parts(log, h, r, pc, Some(t), tasks) && r.treeDone == Open && !tasks[t].stage.Resolve?
    ensures var stage := tasks[t].stage;
            Parts(log + [StageEvent(t, h, stage, ok, scan)], h, r, pc, Some(t),
                  tasks[t := Signaller(h, NextStage(stage, ok, scan))])
  {
    var stage := tasks[t].stage;
    var e := StageEvent(t, h, stage, ok, scan);
    var more := log + [e];
    forall x
      ensures x in more <==> x in log || x == e
    {
    }
    assert HistoryGood(more, h, r, pc, Some(t));
    if stage == SendKill {
      assert Signalled(t, h, true, ok) in more;
    } else {
      NoKillIn(log, [e], h);
    }
    assert more[..|more| - 1] == log;
    assert LastTouch(more, h) == Some(e);
    hide Killed, HistoryGood, LastTouch;
  }

  lemma {:induction false} ResolveParts(
    log: seq<Event>, h: Handle, r: Row, pc: Option<WaitPc>, t: TaskId, tasks: map<TaskId, Task>)
    requires Parts(log, h, r, pc, Some(t), tasks) && r.treeDone == Open && tasks[t].stage.Resolve?
    ensures var stage := tasks[t].stage;
            var s := AfterTree(r, stage.stop, stage.failed);
            Parts(log + [TreeClosed(h, stage.stop)], h, s, pc, Some(t), tasks[t := Returned(!stage.failed)])
            && Later(r, s)
  {
    var e := TreeClosed(h, tasks[t].stage.stop);
    var more := log + [e];
    forall x
      ensures x in more <==> x in log || x == e
    {
    }
    NoKillIn(log, [e], h);
    SameLastTouch(log, [e], h);
    hide Killed, LastTouch;
  }

  lemma {:induction false} SignalKeeps(w: World, a: Action)
    requires Good(w) && a.Signal? && Enabled(w, a)
    ensures Good(Do(w, a)) && StoreLater(w.store, Do(w, a).store)
  {
    hide HandleGood, TaskGood, LogGood, GoodMaps, Parts, AfterTree, Later, Clash;
    var t := a.t;
    var h, stage := w.tasks[t].h, w.tasks[t].stage;
    var r := w.store.rows[h];
    var e := StageEvent(t, h, stage, a.ok, a.scan);
    SignallerTask(w, t);
    assert HandleGood(w, h);
    PartsAreGood(w, h);
    TouchIsSafe(w.log, h, r, PcOf(w, h), t, w.tasks, e, a.ok, a.scan);
    LogExtends(w.log, [e]);
    var v := Do(w, a);
    if stage.Resolve? {
      ResolveParts(w.log, h, r, PcOf(w, h), t, w.tasks);
      RowStep(w.store, h, AfterTree(r, stage.stop, stage.failed));
    } else {
      StageParts(w.log, h, r, PcOf(w, h), t, w.tasks, a.ok, a.scan);
      LaterItself(w.store);
    }
    PartsAreGood(v, h);
    SignalFrame(w, v, t, h, e);
  }

  lemma {:induction false} LaterItself(s: Store)
    ensures StoreLater(s, s)
  {
  }

  lemma {:induction false} SignalFrame(w: World, v: World, t: TaskId, h: Handle, e: Event)
    requires Good(w) && t in w.tasks && w.tasks[t].Signaller? && w.tasks[t].h == h && h in w.store.rows
    requires v.waits == w.waits && v.signaller == w.signaller && v.log == w.log + [e] && e.h == h
    requires v.store.byHandle == w.store.byHandle && v.store.rows.Keys == w.store.rows.Keys
    requires forall g :: g in w.store.rows && g != h ==> v.store.rows[g] == w.store.rows[g]
    requires t in v.tasks && v.tasks == w.tasks[t := v.tasks[t]]
    requires v.tasks[t].Returned? || (v.tasks[t].Signaller? && v.tasks[t].h == h && v.store.rows[h].treeDone == Open)
    requires GoodMaps(v.store) && HandleGood(v, h) && StoreLater(w.store, v.store) && LogGood(v.log)
    ensures Good(v)
  {
    hide HandleGood, TaskGood, LogGood, GoodMaps, StoreLater;
    SignallerTask(w, t);
    forall g | g in v.store.rows
      ensures HandleGood(v, g)
    {
      if g != h {
        HandleKept(w, v, g, [e]);
      }
    }
    forall s | s in v.tasks
      ensures TaskGood(v, s)
    {
      if s != t {
        SignallerTask(w, s);
        TaskKept(w, v, s);
      } else {
        OwnTaskGood(v, t, h);
      }
    }
  }

  lemma {:induction false} OwnTaskGood(v: World, t: TaskId, h: Handle)
    requires t in v.tasks && h in v.store.rows
    requires v.tasks[t].Returned? || (v.tasks[t].Signaller? && v.tasks[t].h == h && v.store.rows[h].treeDone == Open)
    requires SignallerOf(v, h) == Some(t)
    ensures TaskGood(v, t)
  {
  }

  // ------------------------------------------------------------ shutdown

  lemma {:induction false} ShutdownParts(
    log: seq<Event>, h: Handle, r: Row, pc: Option<WaitPc>, sig: Option<TaskId>,
    tasks: map<TaskId, Task>, later: map<TaskId, Task>, n: nat)
    requires Parts(log, h, r, pc, sig, tasks)
    requires forall s :: s in tasks ==> s in later && later[s] == tasks[s]
    requires ShutdownStarts(r) ==> Target(n, h) in later && later[Target(n, h)] == Signaller(h, SendTerm)
    ensures Parts(log, h, AfterShutdown(r), pc, if ShutdownStarts(r) then Some(Target(n, h)) else sig, later)
    ensures Later(r, AfterShutdown(r))
    ensures r.treeDone != NoChannel ==> AfterShutdown(r).treeDone == r.treeDone
    ensures ShutdownStarts(r) ==> AfterShutdown(r).treeDone == Open
  {
    hide Killed;
  }

  ghost predicate ShutdownWorld(w: World, v: World, n: nat) {
    && w.store.byHandle <= w.store.rows.Keys
    && v.store == ShutdownStore(w.store) && v.waits == w.waits && v.log == w.log
    && v.signaller.Keys <= w.signaller.Keys + Starts(w.store)
    && (forall h :: SignallerOf(v, h) == if h in Starts(w.store) then Some(Target(n, h)) else SignallerOf(w, h))
    && (forall s :: s in w.tasks ==> s in v.tasks && v.tasks[s] == w.tasks[s])
    && (forall h :: h in Starts(w.store) ==> Target(n, h) in v.tasks && v.tasks[Target(n, h)] == Signaller(h, SendTerm))
    && (forall s :: s in v.tasks && s !in w.tasks ==>
          || (s == Call(n) && v.tasks[s].ShutdownWait? && v.tasks[s].rows == Waits(w.store))
          || (s.Target? && s.n == n && s.h in Starts(w.store) && v.tasks[s] == Signaller(s.h, SendTerm))
          || (s.Target? && s.n == n && s.h in Joins(w.store) && v.tasks[s] == TreeWaiter(s.h, false)))
  }

  lemma {:induction false} ShutdownIsWorld(w: World, a: Action)
    requires a.Shutdown? && Enabled(w, a)
    ensures ShutdownWorld(w, Do(w, a), a.n)
  {
    hide ShutdownStore, ShutdownStarts, ShutdownJoins, ShutdownAwaits, Starts, Joins, Waits, TargetTasks;
    var v := Do(w, a);
    var more := TargetTasks(w.store, a.n);
    ShutdownChanges(w, a);
    TargetTasksAre(w.store, a.n);
    forall s | s in w.tasks
      ensures s in v.tasks && v.tasks[s] == w.tasks[s]
    {
      assert s !in more;
    }
  }

  lemma {:induction false} ShutdownChanges(w: World, a: Action)
    requires a.Shutdown? && Enabled(w, a)
    ensures var v := Do(w, a);
            && v.store == ShutdownStore(w.store) && v.waits == w.waits && v.log == w.log
            && v.signaller.Keys == w.signaller.Keys + Starts(w.store)
            && (forall h :: h in v.signaller ==>
                  v.signaller[h] == if h in Starts(w.store) then Target(a.n, h) else w.signaller[h])
            && v.tasks == (w.tasks + TargetTasks(w.store, a.n))
                            [Call(a.n) := ShutdownWait(TargetTasks(w.store, a.n).Keys, Waits(w.store), false)]
  {
    hide ShutdownStore, Starts, Joins, Waits, TargetTasks;
    assert w.log + [] == w.log;
  }

  lemma {:induction false} TargetTasksAre(s: Store, n: nat)
    requires s.byHandle <= s.rows.Keys
    ensures var more := TargetTasks(s, n);
            && (forall h :: h in Starts(s) ==> Target(n, h) in more && more[Target(n, h)] == Signaller(h, SendTerm))
            && (forall t :: t in more ==> t.Target? && t.n == n && t.h in Starts(s) + Joins(s))
            && (forall t :: t in more ==>
                  more[t] == if t.h in Starts(s) then Signaller(t.h, SendTerm) else TreeWaiter(t.h, false))
  {
    hide Starts, Joins;
  }

  lemma {:induction false} ShutdownHandle(w: World, v: World, n: nat, h: Handle)
    requires Good(w) && ShutdownWorld(w, v, n) && h in w.store.rows
    ensures HandleGood(v, h) && Later(w.store.rows[h], v.store.rows[h])
    ensures w.store.rows[h].treeDone == Open ==> v.store.rows[h].treeDone == Open && SignallerOf(v, h) == SignallerOf(w, h)
  {
    hide Good, HandleGood, Parts, Later, AfterShutdown, ShutdownJoins, SignallerOf;
    RowOfGood(w, h);
    if h in w.store.byHandle {
      PartsAreGood(w, h);
      ShutdownParts(w.log, h, w.store.rows[h], PcOf(w, h), SignallerOf(w, h), w.tasks, v.tasks, n);
      PartsAreGood(v, h);
    } else {
      assert v.log == w.log + [];
      HandleKept(w, v, h, []);
      LaterItselfRow(w.store.rows[h]);
    }
  }

  lemma {:induction false} LaterItselfRow(r: Row)
    ensures Later(r, r)
  {
  }

  lemma {:induction false} ShutdownTask(w: World, v: World, n: nat, t: TaskId)
    requires Good(w) && ShutdownWorld(w, v, n) && t in v.tasks && t !in w.tasks
    ensures TaskGood(v, t)
  {
    hide Good, HandleGood;
    if t.Target? {
      assert t.h in w.store.byHandle;
    }
  }

  lemma {:induction false} ShutdownKeeps(w: World, a: Action)
    requires Good(w) && a.Shutdown? && Enabled(w, a)
    ensures Good(Do(w, a)) && StoreLater(w.store, Do(w, a).store)
  {
    hide Do, HandleGood, TaskGood, LogGood, GoodMaps, Later, ShutdownWorld, AfterShutdown;
    var v := Do(w, a);
    ShutdownIsWorld(w, a);
    ShutdownFields(w, v, a.n);
    ShutdownKeepsMaps(w.store);
    forall h | h in v.store.rows
      ensures HandleGood(v, h) && Later(w.store.rows[h], v.store.rows[h])
    {
      ShutdownHandle(w, v, a.n, h);
    }
    assert StoreLater(w.store, v.store);
    forall t | t in v.tasks
      ensures TaskGood(v, t)
    {
      if t in w.tasks {
        SignallerTask(w, t);
        if w.tasks[t].Signaller? {
          ShutdownHandle(w, v, a.n, w.tasks[t].h);
        }
        TaskKept(w, v, t);
      } else {
        ShutdownTask(w, v, a.n, t);
      }
    }
  }

  lemma {:induction false} ShutdownFields(w: World, v: World, n: nat)
    requires ShutdownWorld(w, v, n)
    ensures v.store == ShutdownStore(w.store) && v.waits == w.waits && v.log == w.log
    ensures v.store.rows.Keys == w.store.rows.Keys && v.store.byHandle == w.store.byHandle && v.store.closed
    ensures v.signaller.Keys <= w.signaller.Keys + w.store.rows.Keys
    ensures forall s :: s in w.tasks ==> s in v.tasks && v.tasks[s] == w.tasks[s]
  {
    hide AfterShutdown, ShutdownStarts, ShutdownJoins;
  }

  // ------------------------------------------------------------ all runs

  lemma {:induction false} InitIsGood()
    ensures Good(Init)
  {
  }

  /** Every step of every goroutine keeps the invariant, and the store only moves on. */
  lemma {:induction false} StepKeepsGood(w: World, a: Action)
    requires Good(w) && Enabled(w, a)
    ensures Good(Do(w, a)) && StoreLater(w.store, Do(w, a).store)
    ensures w.log <= Do(w, a).log
  {
    hide Good, StoreLater, Enabled;
    if a.Launch? {
      LaunchKeeps(w, a);
    } else if a.Acknowledge? {
      AcknowledgeKeeps(w, a);
    } else if a.Wait? {
      WaitKeeps(w, a.h, a.exit);
    } else if a.Cancel? {
      CancelKeeps(w, a);
    } else if a.Signal? {
      SignalKeeps(w, a);
    } else if a.Shutdown? {
      ShutdownKeeps(w, a);
    } else {
      WaitersKeep(w, a);
    }
  }

  ghost predicate StepsTo(w: World, a: Action, v: World) {
    Enabled(w, a) && v == Do(w, a)
  }

  ghost predicate Step(w: World, v: World) {
    exists a :: StepsTo(w, a, v)
  }

  ghost predicate StepHere(run: seq<World>, i: int)
    requires 0 <= i < |run| - 1
  {
    Step(run[i], run[i + 1])
  }

  // Any interleaving of any number of calls.
  ghost predicate IsRun(run: seq<World>) {
    && |run| > 0 && run[0] == Init
    && forall i :: 0 <= i < |run| - 1 ==> StepHere(run, i)
  }

  lemma {:induction false} RunStaysGood(run: seq<World>, i: nat)
    requires IsRun(run) && i < |run|
    ensures Good(run[i])
  {
    hide Good, Step;
    if i == 0 {
      InitIsGood();
    } else {
      RunStaysGood(run, i - 1);
      assert StepHere(run, i - 1);
      OneStep(run[i - 1], run[i]);
    }
  }

  lemma {:induction false} OneStep(w: World, v: World)
    requires Good(w) && Step(w, v)
    ensures Good(v) && StoreLater(w.store, v.store) && w.log <= v.log
  {
    hide Good, Enabled, Do, StoreLater;
    var a :| StepsTo(w, a, v);
    StepKeepsGood(w, a);
  }

  lemma {:induction false} RunMovesOn(run: seq<World>, i: nat, j: nat)
    requires IsRun(run) && i <= j < |run|
    ensures StoreLater(run[i].store, run[j].store) && run[i].log <= run[j].log
    decreases j
  {
    hide Good, Step, StoreLater;
    if i == j {
      LaterItself(run[i].store);
    } else {
      RunMovesOn(run, i, j - 1);
      RunStaysGood(run, j - 1);
      assert StepHere(run, j - 1);
      OneStep(run[j - 1], run[j]);
      LaterTransitive(run[i].store, run[j - 1].store, run[j].store);
    }
  }

  // ------------------------------------------------------------ main results

  /** In every run, no signal or scan of a row's group comes after the reaping of its leader
      has begun, and all of them come from one and the same call. */
  lemma {:induction false} NoSignalAfterReaping(run: seq<World>, k: nat)
    requires IsRun(run) && k < |run|
    ensures forall i, j, h :: 0 <= i < j < |run[k].log| && run[k].log[i] == Reaping(h) ==> !Touches(run[k].log[j], h)
    ensures forall e, f :: e in run[k].log && f in run[k].log && Touches(e, e.h) && Touches(f, e.h) ==> e.actor == f.actor
  {
    RunStaysGood(run, k);
    var w := run[k];
    hide IsRun, RowGood, PcGood, SignallerGood, TaskGood, GoodMaps;
    forall i, j, h | 0 <= i < j < |w.log| && w.log[i] == Reaping(h)
      ensures !Touches(w.log[j], h)
    {
      assert !Clash(w.log[i], w.log[j]);
    }
    forall e, f | e in w.log && f in w.log && Touches(e, e.h) && Touches(f, e.h)
      ensures e.actor == f.actor
    {
      assert HandleGood(w, e.h);
    }
  }

  ghost predicate SignalledBefore(log: seq<Event>, j: int, h: Handle)
    requires 0 <= j <= |log|
  {
    exists i :: 0 <= i < j && log[i].Signalled? && log[i].h == h && !log[i].kill
  }

  lemma {:induction false} TouchedMeansSignalled(log: seq<Event>, j: nat, h: Handle)
    requires LogGood(log) && j <= |log| && LastTouch(log[..j], h).Some?
    ensures SignalledBefore(log, j, h)
    decreases j
  {
    hide LogGood, Killed;
    if j > 0 {
      assert log[..j][..j - 1] == log[..j - 1];
      OrderAt(log, j - 1);
      if Touches(log[j - 1], h) {
        if log[j - 1].Scanned? || log[j - 1].kill {
          TouchedMeansSignalled(log, j - 1, h);
        }
      } else {
        TouchedMeansSignalled(log, j - 1, h);
      }
    }
  }

  lemma {:induction false} OrderAt(log: seq<Event>, j: nat)
    requires LogGood(log) && j < |log|
    ensures InOrder(log[..j], log[j])
  {
    assert InOrderAt(log, j);
  }

  /** The course of every tree termination: the first thing sent is the terminate signal, once; the
      kill signal follows only on a scan that found the group alive when its grace period was over;
      and the tree is closed as graceful or forced exactly when the last scan found the group gone,
      without or after the kill. */
  lemma {:induction false} TreesEndInOrder(run: seq<World>, k: nat, j: nat)
    requires IsRun(run) && k < |run| && j < |run[k].log|
    ensures var log := run[k].log;
            var e := log[j];
            && (Touches(e, e.h) ==> (e.Signalled? && !e.kill) || SignalledBefore(log, j, e.h))
            && (e.Signalled? && !e.kill ==> LastTouch(log[..j], e.h) == None)
            && (e.Signalled? && e.kill ==> TimeIsUp(LastTouch(log[..j], e.h)) && !Killed(log[..j], e.h))
            && (e.TreeClosed? ==> StoppedAs(LastTouch(log[..j], e.h), Killed(log[..j], e.h), e.stop))
            && (e.TreeClosed? && e.stop == Uncertain ==> GivesUp(LastTouch(log[..j], e.h), Killed(log[..j], e.h)))
  {
    RunStaysGood(run, k);
    hide IsRun, HandleGood, TaskGood, GoodMaps, Killed, LastTouch, LogGood;
    var log := run[k].log;
    OrderAt(log, j);
    if Touches(log[j], log[j].h) && (log[j].Scanned? || log[j].kill) {
      TouchedMeansSignalled(log, j, log[j].h);
    }
  }

  // ------------------------------------------------------------ what a cancellation leads to

  // The row is marked; if it was started, exactly this call terminates its tree.
  ghost predicate Accepted(w: World, v: World, h: Handle, t: TaskId, reason: string)
    requires h in w.store.rows && h in v.store.rows
  {
    && v.store.rows[h].cancelled == (if w.store.rows[h].cancelled == "" then reason else w.store.rows[h].cancelled)
    && (w.store.rows[h].cancelled == "" ==>
          && v.store.rows[h].treeDone == Open && SignallerOf(v, h) == Some(t)
          && t in v.tasks && v.tasks[t] == Signaller(h, SendTerm))
    && (w.store.rows[h].cancelled != "" ==> v.store.rows[h] == w.store.rows[h] && SignallerOf(v, h) == SignallerOf(w, h))
  }

  /** Cancel by the owner marks every started row that is neither terminal nor claimed for reaping,
      and the first such call, and no other, terminates the tree. */
  lemma {:induction false} CancelIsAccepted(w: World, a: Action)
    requires a.Cancel? && Enabled(w, a)
    requires var r := w.store.rows[a.h]; r.started && !r.reapClaimed && r.phase != Terminal
    ensures Accepted(w, Do(w, a), a.h, Call(a.n), "cancelled by owner")
  {
    hide Do;
    CancelWorld(w, a);
    CancelMarks(w.store.rows[a.h]);
    hide AfterCancel, CancelAnswerOf, SignallerOf, Enabled;
  }

  lemma {:induction false} CancelMarks(r: Row)
    requires r.started && !r.reapClaimed && r.phase != Terminal
    ensures r.cancelled == "" ==>
              CancelAnswerOf(r) == Terminate && AfterCancel(r) == r.(cancelled := "cancelled by owner", treeDone := Open)
    ensures r.cancelled != "" ==> CancelAnswerOf(r) != Terminate && AfterCancel(r) == r
  {
  }

  /** Shutdown does the same to every such row it finds. */
  lemma {:induction false} ShutdownCancels(run: seq<World>, i: nat, n: nat, h: Handle)
    requires IsRun(run) && i < |run| && Enabled(run[i], Shutdown(n)) && h in run[i].store.byHandle
    requires h in run[i].store.rows
    requires var r := run[i].store.rows[h]; r.started && !r.reapClaimed && r.phase != Terminal
    ensures h in Do(run[i], Shutdown(n)).store.rows
    ensures Accepted(run[i], Do(run[i], Shutdown(n)), h, Target(n, h), "Mill shutdown")
  {
    RunStaysGood(run, i);
    hide IsRun, Do, TaskGood, GoodMaps, LogGood, SignallerGood, HistoryGood;
    assert HandleGood(run[i], h);
    ShutdownIsWorld(run[i], Shutdown(n));
  }

  /** From then on the row keeps that reason, is never reaped as an ordinary exit, and if it ends it
      ends with a cancellation of that reason and with what the tree termination returned. */
  lemma {:induction false} CancelledEndsCancelled(run: seq<World>, i: nat, j: nat, h: Handle)
    requires IsRun(run) && i <= j < |run| && h in run[i].store.rows
    requires run[i].store.rows[h].cancelled != "" && run[i].store.rows[h].started
    ensures h in run[j].store.rows
    ensures var r, s := run[i].store.rows[h], run[j].store.rows[h];
            && s.cancelled == r.cancelled && !s.reapClaimed && s.exit == None
            && (s.phase == Terminal ==>
                  s.cancellation.Some? && s.cancellation.value.reason == r.cancelled
                  && TreeClosed(h, s.cancellation.value.stop) in run[j].log)
  {
    RunMovesOn(run, i, j);
    RunStaysGood(run, j);
    hide IsRun, TaskGood, GoodMaps, LogGood, SignallerGood;
    assert HandleGood(run[j], h);
    assert Later(run[i].store.rows[h], run[j].store.rows[h]);
  }

  // Whoever opened a tree channel stays its terminator.
  lemma {:induction false} SignallerStays(w: World, a: Action, h: Handle)
    requires Good(w) && Enabled(w, a) && h in w.signaller && h in w.store.rows
    ensures SignallerOf(Do(w, a), h) == SignallerOf(w, h)
  {
    hide Good, Do, SignallerOf, HandleGood, Enabled;
    RowOfGood(w, h);
    SignallerFacts(w, h);
    if a.Cancel? {
      CancelLeavesSignaller(w, a, h);
    } else if a.Shutdown? {
      ShutdownLeavesSignaller(w, a, h);
    } else {
      OthersLeaveSignallers(w, a);
      SameSignaller(w, Do(w, a), h);
    }
  }

  lemma {:induction false} SignallerFacts(w: World, h: Handle)
    requires h in w.store.rows && HandleGood(w, h) && h in w.signaller
    ensures SignallerOf(w, h).Some? && w.store.rows[h].treeDone != NoChannel
    ensures CancelAnswerOf(w.store.rows[h]) != Terminate
  {
    hide HistoryGood, PcGood, LastTouch, Killed, StageGood;
  }

  lemma {:induction false} SameSignaller(w: World, v: World, h: Handle)
    requires v.signaller == w.signaller
    ensures SignallerOf(v, h) == SignallerOf(w, h)
  {
  }

  lemma {:induction false} CancelLeavesSignaller(w: World, a: Action, h: Handle)
    requires a.Cancel? && Enabled(w, a) && h in w.signaller && h in w.store.rows
    requires CancelAnswerOf(w.store.rows[h]) != Terminate
    ensures SignallerOf(Do(w, a), h) == SignallerOf(w, h)
  {
    hide Do, CancelAnswerOf, AfterCancel;
    CancelWorld(w, a);
  }

  lemma {:induction false} ShutdownLeavesSignaller(w: World, a: Action, h: Handle)
    requires a.Shutdown? && Enabled(w, a) && h in w.signaller && h in w.store.rows
    requires w.store.rows[h].treeDone != NoChannel
    ensures SignallerOf(Do(w, a), h) == SignallerOf(w, h)
  {
    hide Do, TargetTasks, ShutdownStore, Waits, Joins;
    ShutdownIsWorld(w, a);
  }

  lemma {:induction false} OthersLeaveSignallers(w: World, a: Action)
    requires Enabled(w, a) && !a.Cancel? && !a.Shutdown?
    ensures Do(w, a).signaller == w.signaller
  {
    hide StageEvent, NextStage, WaitRow, WaitEvents, NextPc, AfterLaunch, AfterAcknowledge, AfterTree;
  }

  lemma {:induction false} SignallerStaysAlong(run: seq<World>, i: nat, j: nat, h: Handle)
    requires IsRun(run) && i <= j < |run| && SignallerOf(run[i], h).Some?
    ensures SignallerOf(run[j], h) == SignallerOf(run[i], h)
    decreases j
  {
    hide Good, Enabled, Do;
    if i < j {
      SignallerStaysAlong(run, i, j - 1, h);
      RunStaysGood(run, j - 1);
      assert StepHere(run, j - 1);
      var a :| StepsTo(run[j - 1], a, run[j]);
      SignallerHasRow(run[j - 1], h);
      SignallerStays(run[j - 1], a, h);
    }
  }

  lemma {:induction false} SignallerHasRow(w: World, h: Handle)
    requires Good(w) && h in w.signaller
    ensures h in w.store.rows
  {
  }

  /** The first accepted cancel of a started row runs its course: from then on every signal and scan
      of the row's group is that very call's, and the row ends, if it does, cancelled by its owner. */
  lemma {:induction false} FirstCancelTerminates(run: seq<World>, i: nat, j: nat, a: Action)
    requires IsRun(run) && i < j < |run| && a.Cancel? && StepsTo(run[i], a, run[i + 1])
    requires var r := run[i].store.rows[a.h]; r.started && !r.reapClaimed && r.phase != Terminal && r.cancelled == ""
    ensures a.h in run[j].store.rows && run[j].store.rows[a.h].cancelled == "cancelled by owner"
    ensures forall e :: e in run[j].log && Touches(e, a.h) ==> e.actor == Call(a.n)
    ensures run[j].store.rows[a.h].phase == Terminal ==>
              run[j].store.rows[a.h].cancellation.Some?
              && run[j].store.rows[a.h].cancellation.value.reason == "cancelled by owner"
  {
    CancelIsAccepted(run[i], a);
    CancelWorld(run[i], a);
    hide Enabled, Do, Good, CancelAnswerOf, StoreLater;
    CancelKeepsStarted(run[i].store.rows[a.h]);
    CancelledEndsCancelled(run, i + 1, j, a.h);
    SignallerStaysAlong(run, i + 1, j, a.h);
    RunStaysGood(run, j);
    RowOfGood(run[j], a.h);
    hide RowGood, PcGood, SignallerGood, SignallerOf, IsRun;
  }

  lemma {:induction false} CancelKeepsStarted(r: Row)
    ensures AfterCancel(r).started == r.started
  {
  }

  /** The exit on record, ordinary or within a cancellation, is the one its wait observed. */
  lemma {:induction false} ExitIsObserved(run: seq<World>, k: nat, h: Handle, exit: Exit)
    requires IsRun(run) && k < |run| && DoneClosed(h, exit) in run[k].log
    ensures h in run[k].store.rows && run[k].store.rows[h].phase == Terminal && ExitOnRecord(run[k].store.rows[h], exit)
  {
    RunStaysGood(run, k);
    hide IsRun, TaskGood, GoodMaps, LogGood, SignallerGood;
    assert DoneClosed(h, exit).h in run[k].store.rows;
    assert HandleGood(run[k], h);
  }

  /** The record invariant: no outcome before the end and exactly one at the end; a
      cancellation carries what the row's tree termination returned, and a graceful stop
      means that no kill signal was ever sent to the group. */
  lemma {:induction false} RecordsAreTruthful(run: seq<World>, k: nat, h: Handle)
    requires IsRun(run) && k < |run| && h in run[k].store.rows
    ensures var r, log := run[k].store.rows[h], run[k].log;
            && OneOutcome(r)
            && (r.cancellation.Some? ==>
                  && TreeClosed(h, r.cancellation.value.stop) in log
                  && StopIsHonest(log, h, r.cancellation.value.stop))
            && (r.exit.Some? ==> !Killed(log, h))
            && (r.launchFailure.Some? ==> forall e :: e in log ==> e.h != h)
  {
    RunStaysGood(run, k);
    hide IsRun;
    assert HandleGood(run[k], h);
    hide Killed, GoodMaps, TaskGood, LogGood, LastTouch;
    var w, r := run[k], run[k].store.rows[h];
    if r.launchFailure.Some? {
      FailedRowIsSilent(w, h);
    }
  }

  // Whatever the history says about a row, its process was started.
  lemma {:induction false} OnlyStartedRowsHaveHistory(w: World, h: Handle, e: Event)
    requires h in w.store.rows && HandleGood(w, h) && e in w.log && e.h == h
    ensures w.store.rows[h].started
  {
    hide Killed;
    match e {
      case Started(_, _, _) =>
      case Signalled(_, _, _, _) => assert Touches(e, h);
      case Scanned(_, _, _) => assert Touches(e, h);
      case Reaping(_) => assert e == Reaping(h);
      case TreeClosed(_, stop) => assert e == TreeClosed(h, stop);
      case DoneClosed(_, exit) => assert e == DoneClosed(h, exit);
    }
  }

  lemma {:induction false} FailedRowIsSilent(w: World, h: Handle)
    requires h in w.store.rows && HandleGood(w, h) && w.store.rows[h].launchFailure.Some?
    ensures forall e :: e in w.log ==> e.h != h
  {
    hide SignallerGood, HistoryGood, PcGood;
    assert !w.store.rows[h].started;
    forall e | e in w.log
      ensures e.h != h
    {
      if e.h == h {
        OnlyStartedRowsHaveHistory(w, h, e);
      }
    }
  }

  /** A terminal record never changes again, whatever happens to its row. */
  lemma {:induction false} TerminalIsFinal(run: seq<World>, i: nat, j: nat, h: Handle)
    requires IsRun(run) && i <= j < |run| && h in run[i].store.rows && run[i].store.rows[h].phase == Terminal
    ensures h in run[j].store.rows
    ensures var r, s := run[i].store.rows[h], run[j].store.rows[h];
            s.phase == Terminal && s.exit == r.exit && s.cancellation == r.cancellation
            && s.launchFailure == r.launchFailure && s.owner == r.owner && s.key == r.key
  {
    RunMovesOn(run, i, j);
    hide IsRun;
    assert Later(run[i].store.rows[h], run[j].store.rows[h]);
  }

  /** Each owner and key start at most one process, each row is reaped once, and each channel
      is closed once, in every run and after acknowledgement too. */
  lemma {:induction false} NothingHappensTwice(run: seq<World>, k: nat)
    requires IsRun(run) && k < |run|
    ensures forall i, j :: 0 <= i < j < |run[k].log| ==> !SameFact(run[k].log[i], run[k].log[j])
  {
    RunStaysGood(run, k);
    hide IsRun, HandleGood, TaskGood, GoodMaps, SameFact;
    forall i, j | 0 <= i < j < |run[k].log|
      ensures !SameFact(run[k].log[i], run[k].log[j])
    {
      assert !Clash(run[k].log[i], run[k].log[j]);
    }
  }

  function PairOf(r: Row): string {
    Join(r.owner, r.key)
  }

  /** Handles and reservations stay one to one in every run, acknowledged rows included: a pair
      names at most one row, and each row is found under its own pair. */
  lemma {:induction false} MapsStayOneToOne(run: seq<World>, k: nat, g: Handle, h: Handle)
    requires IsRun(run) && k < |run| && g in run[k].store.rows && h in run[k].store.rows
    ensures GoodMaps(run[k].store)
    ensures PairOf(run[k].store.rows[g]) == PairOf(run[k].store.rows[h]) ==> g == h
  {
    hide IsRun, HandleGood, TaskGood, LogGood;
    RunStaysGood(run, k);
  }

  /** Nobody waits in vain: while a started row is not finished, its wait goroutine or the call
      that terminates its tree can take a step. */
  lemma {:induction false} WaitIsNeverStuck(run: seq<World>, k: nat, h: Handle) returns (a: Action)
    requires IsRun(run) && k < |run| && h in run[k].waits && run[k].waits[h] != Finished
    ensures Enabled(run[k], a)
    ensures a.Wait? || a.Signal?
    ensures a.Wait? ==> a.h == h
    ensures a.Signal? ==> run[k].waits[h] == AwaitingTree && run[k].tasks[a.t].h == h
  {
    hide IsRun, Good;
    RunStaysGood(run, k);
    a := NextFor(run[k], h);
  }

  lemma {:induction false} NextFor(w: World, h: Handle) returns (a: Action)
    requires Good(w) && h in w.waits && w.waits[h] != Finished
    ensures Enabled(w, a)
    ensures a.Wait? || a.Signal?
    ensures a.Wait? ==> a.h == h
    ensures a.Signal? ==> w.waits[h] == AwaitingTree && w.tasks[a.t].h == h
  {
    hide GoodMaps, TaskGood, LogGood, RowGood, HistoryGood, StageGood, Killed;
    assert h in w.store.rows && HandleGood(w, h);
    if w.waits[h] == AwaitingTree && w.store.rows[h].treeDone == Open {
      a := Signal(w.signaller[h], true, Gone);
    } else {
      a := Wait(h, Exit(0, None));
    }
  }

  /** Once a Shutdown has returned without error, every remaining record is terminal, and no
      later launch starts anything. */
  lemma {:induction false} QuietAfterShutdown(run: seq<World>, i: nat, j: nat, t: TaskId)
    requires IsRun(run) && i <= j < |run| && t in run[i].tasks && run[i].tasks[t] == ShutdownReturned(true)
    ensures AllTerminal(run[j].store)
    ensures forall e :: e in run[j].log && e.Started? ==> e in run[i].log
  {
    hide IsRun, Good, StoreLater;
    RunStaysGood(run, i);
    RunStaysGood(run, j);
    RunMovesOn(run, i, j);
    QuietStore(run[i], run[j], t);
    forall e | e in run[j].log && e.Started?
      ensures e in run[i].log
    {
      NoNewStart(run[i], run[j], e);
    }
  }

  lemma {:induction false} QuietStore(w: World, v: World, t: TaskId)
    requires Good(w) && Good(v) && StoreLater(w.store, v.store)
    requires t in w.tasks && w.tasks[t] == ShutdownReturned(true)
    ensures AllTerminal(v.store) && v.store.rows.Keys == w.store.rows.Keys
  {
    hide LogGood, GoodMaps, HandleGood;
    assert TaskGood(w, t);
    forall h | h in v.store.byHandle && h in v.store.rows
      ensures v.store.rows[h].phase == Terminal
    {
      assert Later(w.store.rows[h], v.store.rows[h]);
    }
  }

  lemma {:induction false} NoNewStart(w: World, v: World, e: Event)
    requires Good(w) && Good(v) && StoreLater(w.store, v.store) && v.store.rows.Keys == w.store.rows.Keys
    requires e in v.log && e.Started?
    ensures e in w.log
  {
    hide LogGood, GoodMaps, HandleGood, TaskGood;
    assert e.h in v.store.rows && HandleGood(v, e.h);
    StartedRow(v, e);
    assert HandleGood(w, e.h) && Later(w.store.rows[e.h], v.store.rows[e.h]);
    RowStarted(w, e.h);
  }

  lemma {:induction false} StartedRow(w: World, e: Event)
    requires e in w.log && e.Started? && e.h in w.store.rows && HandleGood(w, e.h)
    ensures w.store.rows[e.h].started && e == Started(w.store.rows[e.h].owner, w.store.rows[e.h].key, e.h)
  {
  }

  lemma {:induction false} RowStarted(w: World, h: Handle)
    requires h in w.store.rows && HandleGood(w, h) && w.store.rows[h].started
    ensures Started(w.store.rows[h].owner, w.store.rows[h].key, h) in w.log
  {
  }
}
