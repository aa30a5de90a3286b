/** Every step of every caller and goroutine keeps the restart invariant. */
module RestartRuns {
  import opened Basics
  import opened RestartRecord
  import opened RestartProtocol
  import opened RestartInvariant

  // ------------------------------------------------------------ processes and starts

  lemma {:induction false} DieKeeps(w: World, g: nat)
    requires Good(w) && Enabled(w, Die(g))
    ensures Good(Do(w, Die(g)))
  {
    hide EpochInv, FinishInv, DurableInv, TransitionsInv, EvidenceInv, RecordInv, LockInv, CutInv, InvokesInv, LogGood, ClaimInv;
  }

  lemma {:induction false} OnlyTailsRun(w: World)
    requires TransitionsInv(w.transitions, w.runs, w.current, w.epoch)
    requires w.current.Some? ==> w.transitions[w.current.value].state == Failed
    ensures forall t :: t in w.runs ==> Tail(w.runs[t])
  {
    hide RunState;
  }

  lemma {:induction false} TailsIgnoreChildren(
    runs: map<nat, RunPc>, transitions: map<nat, Transition>, child: Option<nat>, children: map<nat, Child>)
    requires forall t :: t in runs ==> Tail(runs[t])
    ensures RunsChild(runs, transitions, child, children)
  {
  }

  lemma {:induction false} BeginStartKeeps(w: World, a: Action)
    requires Good(w) && a.BeginStart? && Enabled(w, a)
    ensures Good(Do(w, a))
  {
    hide EpochInv, FinishInv, DurableInv, TransitionsInv, RunsChild, EvidenceInv, RecordInv, LockInv, CutInv, InvokesInv, LogGood;
  }

  // Facts of one transition's own course.
  predicate OfTransition(e: Event) {
    e.CutoverEntered? || e.FirstWriteRefused?
  }

  lemma {:induction false} LogNeutral(w: World, e: Event)
    requires Good(w) && !OfTransition(e) && !e.FrameSent? && !e.InvokeAdmitted?
    requires Justified(w.log, e, w.priorStop)
    ensures EvidenceInv(w.runs, w.transitions, w.log + [e], w.priorStop)
    ensures RecordInv(w.record, w.log + [e], w.priorStop)
    ensures CutInv(w.transitions, w.log + [e])
    ensures FinishInv(w.transitions, w.runs, w.current, w.log + [e])
    ensures InvokesInv(w.invokes, w.transitions, w.log + [e])
    ensures LogGood(w.log + [e], w.priorStop)
  {
    hide EpochInv, FinishInv, DurableInv, ClaimInv, ChildInv, StartsInv, TransitionsInv, RunsChild, LockInv, LogGood, Justified;
    hide EvidenceInv, InvokesInv, RecordInv, CutInv, FinishInv;
    LogLonger(w, e);
    InvokesLonger(w.invokes, w.transitions, w.log, e);
  }

  // Noting what concerns neither the order of a cutover nor the course of an invocation.
  lemma {:induction false} NotedKeeps(w: World, e: Event)
    requires Good(w) && (e.Took? || e.ConnectionLost?)
    ensures Good(Noted(w, e))
  {
    LogNeutral(w, e);
    hide EpochInv, FinishInv, DurableInv, ClaimInv, ChildInv, StartsInv, TransitionsInv, RunsChild, EvidenceInv, RecordInv, LockInv, CutInv, InvokesInv, LogGood, Justified;
  }

  lemma {:induction false} LogLonger(w: World, e: Event)
    requires EvidenceInv(w.runs, w.transitions, w.log, w.priorStop) && RecordInv(w.record, w.log, w.priorStop)
    requires CutInv(w.transitions, w.log) && LogGood(w.log, w.priorStop)
    requires FinishInv(w.transitions, w.runs, w.current, w.log)
    requires !OfTransition(e) && Justified(w.log, e, w.priorStop)
    ensures EvidenceInv(w.runs, w.transitions, w.log + [e], w.priorStop)
    ensures RecordInv(w.record, w.log + [e], w.priorStop)
    ensures CutInv(w.transitions, w.log + [e])
    ensures FinishInv(w.transitions, w.runs, w.current, w.log + [e])
    ensures LogGood(w.log + [e], w.priorStop)
  {
    hide LogGood, Justified, Validate, EvidenceInv, FinishFacts;
    LogAppend(w.log, e, w.priorStop);
    EvidenceLonger(w.runs, w.transitions, w.log, e, w.priorStop);
    RecordLonger(w.record, w.log, e, w.priorStop);
    hide RecordInv;
  }

  lemma {:induction false} RecordLonger(record: Option<Record>, log: seq<Event>, e: Event, priorStop: Option<string>)
    requires RecordInv(record, log, priorStop)
    ensures RecordInv(record, log + [e], priorStop)
  {
    hide StopEvidence, Validate;
    if record.Some? && StopEvidence(log, priorStop, record.value.generationID) {
      EvidenceGrows(log, e, priorStop, record.value.generationID);
    }
  }

  lemma {:induction false} BackedLonger(u: Transition, t: nat, log: seq<Event>, e: Event, priorStop: Option<string>)
    requires Backed(u, t, log, priorStop)
    ensures Backed(u, t, log + [e], priorStop)
  {
    hide StopEvidence;
    if StopEvidence(log, priorStop, u.generationID) {
      EvidenceGrows(log, e, priorStop, u.generationID);
    }
  }

  lemma {:induction false} EvidenceLonger(
    runs: map<nat, RunPc>, transitions: map<nat, Transition>, log: seq<Event>, e: Event, priorStop: Option<string>)
    requires EvidenceInv(runs, transitions, log, priorStop)
    ensures EvidenceInv(runs, transitions, log + [e], priorStop)
  {
    hide ReadyToLaunch, SoundIds, GoodProbe, Backed, NamesOld;
    forall t | t in runs && t in transitions
      ensures RunEvidence(runs[t], transitions[t], t, log + [e])
      ensures NamesOld(runs[t]) ==> Backed(transitions[t], t, log + [e], priorStop)
    {
      assert RunEvidence(runs[t], transitions[t], t, log);
      if NamesOld(runs[t]) {
        BackedLonger(transitions[t], t, log, e, priorStop);
      }
    }
  }

  lemma {:induction false} InvokesLonger(
    invokes: map<nat, InvokePc>, transitions: map<nat, Transition>, log: seq<Event>, e: Event)
    requires InvokesInv(invokes, transitions, log) && !e.FrameSent? && !e.InvokeAdmitted?
    ensures InvokesInv(invokes, transitions, log + [e])
  {
    hide Matches;
    forall i | i in invokes
      ensures InvokeFacts(i, invokes[i], transitions, log + [e])
    {
      assert InvokeFacts(i, invokes[i], transitions, log);
      InvokeLonger(i, invokes[i], transitions, log, e);
    }
    hide InvokeFacts;
  }

  lemma {:induction false} InvokeLonger(
    i: nat, pc: InvokePc, transitions: map<nat, Transition>, log: seq<Event>, e: Event)
    requires InvokeFacts(i, pc, transitions, log) && !IsFrame(e, i) && !(e.InvokeAdmitted? && e.i == i)
    ensures InvokeFacts(i, pc, transitions, log + [e])
  {
    hide Matches, FrameFirst;
    assert SentFrame(log + [e], i) ==> SentFrame(log, i);
    assert WasAdmitted(log + [e], i) ==> WasAdmitted(log, i);
    if (pc.Awaiting? || (pc.Lost? && pc.delivered)) && pc.boundary.Some? {
      FrameFirstGrows(log, e, i, pc.boundary.value);
    }
    hide SentFrame, WasAdmitted;
  }

  // What a start step does to the claim and the supervised child.
  ghost predicate StartMoved(w: World, v: World, s: nat) {
    && ClaimInv(v.claim, v.starts, v.current) && ChildInv(v.child, v.children)
    && StartsInv(v.starts, v.child, v.children)
    && v == w.(claim := v.claim, starts := v.starts, child := v.child, children := v.children, log := v.log)
    && (v.log == w.log || exists g :: v.log == w.log + [StartStarted(s, g)])
  }

  lemma {:induction false} MovedOn(w: World, v: World, s: nat, pc: StartPc)
    requires ClaimInv(w.claim, w.starts, w.current) && s in w.starts
    requires v == w.(starts := w.starts[s := pc], child := v.child, children := v.children, log := v.log)
    requires ChildInv(v.child, v.children) && StartFacts(pc, v.child, v.children)
    requires v.log == w.log || exists g :: v.log == w.log + [StartStarted(s, g)]
    ensures StartMoved(w, v, s)
  {
    assert w.claim == Some(s);
    hide ChildInv, StartFacts;
  }

  lemma {:induction false} StartMovesChild(w: World, s: nat, a: Answer)
    requires ClaimInv(w.claim, w.starts, w.current) && ChildInv(w.child, w.children) && StartsInv(w.starts, w.child, w.children)
    requires StartEnabled(w, s, a)
    ensures StartMoved(w, StartStep(w, s, a), s)
  {
    hide StartMoved, ClaimInv;
    var v := StartStep(w, s, a);
    assert StartFacts(w.starts[s], w.child, w.children);
    hide StartsInv;
    match w.starts[s] {
      case Claimed =>
        if !a.ok || ChildLives(w.child, w.children) {
          MovedOn(w, v, s, Leaving);
        } else {
          MovedOn(w, v, s, Prepared(a.g));
        }
      case Prepared(g) =>
        if a.ok {
          assert v.log == w.log + [StartStarted(s, g)];
          MovedOn(w, v, s, Booting(g));
        } else {
          MovedOn(w, v, s, Leaving);
        }
      case Booting(g) => MovedOn(w, v, s, if a.ok then Leaving else Discarding(g));
      case Discarding(g) => MovedOn(w, v, s, Leaving);
      case Leaving => ClaimLeaves(w, v, s);
    }
  }

  lemma {:induction false} ClaimLeaves(w: World, v: World, s: nat)
    requires ClaimInv(w.claim, w.starts, w.current) && ChildInv(w.child, w.children) && StartsInv(w.starts, w.child, w.children)
    requires s in w.starts && v == w.(claim := if w.claim == Some(s) then None else w.claim, starts := w.starts - {s})
    ensures StartMoved(w, v, s)
  {
    assert w.claim == Some(s);
    hide ChildInv, StartFacts;
  }

  lemma {:induction false} StepStartKeeps(w: World, s: nat, a: Answer)
    requires Good(w) && StartEnabled(w, s, a)
    ensures Good(StartStep(w, s, a))
  {
    hide EpochInv, FinishInv, DurableInv, StartsInv, ChildInv, RunState, RunChild, EvidenceInv, RecordInv, CutInv, InvokesInv, LogGood, StartStep;
    StartMovesChild(w, s, a);
    assert w.claim == Some(s);
    OnlyTailsRun(w);
    hide EpochInv, FinishInv, DurableInv, TransitionsInv;
    var v := StartStep(w, s, a);
    TailsIgnoreChildren(v.runs, v.transitions, v.child, v.children);
    if v.log != w.log {
      var g :| v.log == w.log + [StartStarted(s, g)];
      LogNeutral(w, StartStarted(s, g));
    }
  }

  lemma {:induction false} SignalOldKeeps(w: World, a: Action)
    requires Good(w) && a.SignalOld? && Enabled(w, a)
    ensures Good(Do(w, a))
  {
    SignalIsJustified(w, a.t);
    hide EpochInv, FinishInv, DurableInv, ClaimInv, ChildInv, StartsInv, TransitionsInv, RunsChild, EvidenceInv, RecordInv, LockInv, CutInv, InvokesInv, LogGood, Justified;
    LogNeutral(w, OldSignalled(a.t));
  }

  lemma {:induction false} SignalIsJustified(w: World, t: nat)
    requires Good(w) && t in w.runs && w.runs[t].StoppingOld?
    ensures Justified(w.log, OldSignalled(t), w.priorStop)
  {
    hide ClaimInv, ChildInv, StartsInv, RunsChild, RecordInv, LockInv, CutInv, InvokesInv, LogGood, GoodProbe, Blank;
    assert RunState(w.runs[t], w.transitions[t]);
    assert RunEvidence(w.runs[t], w.transitions[t], t, w.log);
  }

  lemma {:induction false} ArriveKeeps(w: World, a: Action)
    requires Good(w) && a.Arrive? && Enabled(w, a)
    ensures Good(Do(w, a))
  {
    hide EpochInv, FinishInv, DurableInv, ClaimInv, ChildInv, StartsInv, TransitionsInv, RunsChild, EvidenceInv, RecordInv, CutInv, LogGood;
    hide FrameFirst, Matches;
  }

  // ------------------------------------------------------------ beginning a restart

  // A transition as it is first installed.
  ghost predicate NewlyInstalled(w: World, u: Transition) {
    && u.epoch == w.epoch + 1 && !u.cutover && !Blank(u.id) && u.state != Failed
    && (u.retry <==> u.prior.None?)
    && (u.prior.Some? ==> u.state == Probing && !u.stopped && u.probe.None?)
    && (u.prior.Some? ==> u.generationID == u.prior.value.generationID)
    && (u.retry ==>
          && u.stopped && u.probe.Some? && u.probe.value.success && u.state == Restarting
          && StopEvidence(w.log, w.priorStop, u.generationID))
    && !u.done
  }

  ghost predicate Installs(w: World, v: World, t: nat, u: Transition) {
    && v == w.(current := Some(t), epoch := w.epoch + 1, runs := w.runs[t := FirstWrite],
               transitions := w.transitions[t := u], child := v.child, children := v.children)
    && NewlyInstalled(w, u) && OldRegistered(u, v.child)
  }

  ghost predicate Begun(w: World, v: World, t: nat) {
    if t in v.runs then t in v.transitions && Installs(w, v, t, v.transitions[t])
    else v == w.(current := None, child := v.child)
  }

  lemma {:induction false} ReplacementInstalls(
    w: World, v: World, t: nat, id: string, prior: Old, child: Option<nat>, children: map<nat, Child>)
    requires !Blank(id)
    requires v == w.(current := None, child := child).(epoch := w.epoch + 1, current := Some(t), runs := w.runs[t := FirstWrite],
                   transitions := w.transitions[t := NewTransition(id, prior, w.epoch + 1)], children := children)
    requires if prior.Launched? then child == Some(prior.gen) else child.None?
    ensures Installs(w, v, t, v.transitions[t])
  {
    hide Blank, StopEvidence;
  }

  lemma {:induction false} RetryInstalls(w: World, v: World, t: nat, id: string, r: Record)
    requires !Blank(id) && Retryable(r) && StopEvidence(w.log, w.priorStop, r.generationID)
    requires v == w.(current := None, child := None).(epoch := w.epoch + 1, current := Some(t), runs := w.runs[t := FirstWrite],
                   transitions := w.transitions[t := RetryOf(r, id, w.epoch + 1)])
    ensures Installs(w, v, t, v.transitions[t])
  {
    hide Blank, StopEvidence;
  }

  lemma {:induction false} ChildDrops(child: Option<nat>, children: map<nat, Child>, g: nat, generationID: string)
    requires ChildInv(child, children)
    ensures var c := if ChildLives(child, children) then child else None;
            ChildInv(c, children)
            && (c == Some(g) && g in children ==> ChildInv(c, children[g := children[g].(generationID := generationID)]))
  {
  }

  lemma {:induction false} RestartBegins(w: World, t: nat, id: string, minted: string, status: Status, readable: bool)
    requires MayBegin(w, t, id, minted)
    requires ChildInv(w.child, w.children) && RecordInv(w.record, w.log, w.priorStop)
    ensures var v := RestartStep(w, t, id, minted, status, readable);
            Begun(w, v, t) && ChildInv(v.child, v.children)
  {
    hide StopEvidence, Validate, Blank, ChildInv, Installs, RecordInv, Retryable;
    var v := RestartStep(w, t, id, minted, status, readable);
    var choice := Choose(w, status, readable, minted);
    ChildDrops(w.child, w.children, if w.child.Some? then w.child.value else 0,
               if choice.Replace? then choice.prior.generationID else "");
    match choice {
      case Refuse =>
      case Replace(prior) => ReplacementInstalls(w, v, t, id, prior, v.child, v.children);
      case Retry(r) =>
        RetryHasEvidence(w);
        RetryInstalls(w, v, t, id, r);
    }
  }

  lemma {:induction false} RetryHasEvidence(w: World)
    requires RecordInv(w.record, w.log, w.priorStop) && w.record.Some? && Retryable(w.record.value)
    ensures StopEvidence(w.log, w.priorStop, w.record.value.generationID)
  {
    hide Validate, StopEvidence;
  }

  lemma {:induction false} InstallOpensEpoch(transitions: map<nat, Transition>, epoch: nat, t: nat, u: Transition)
    requires EpochInv(transitions, epoch) && t !in transitions && u.epoch == epoch + 1
    ensures EpochInv(transitions[t := u], epoch + 1)
  {
  }

  // A change that leaves the transition's epoch alone.
  lemma {:induction false} EpochsStay(transitions: map<nat, Transition>, epoch: nat, t: nat, u: Transition)
    requires EpochInv(transitions, epoch) && t in transitions && u.epoch == transitions[t].epoch
    ensures EpochInv(transitions[t := u], epoch)
  {
  }

  lemma {:induction false} InstallKeepsTransitions(w: World, v: World, t: nat)
    requires TransitionsInv(w.transitions, w.runs, w.current, w.epoch) && LockInv(w.admission, w.runs, w.invokes)
    requires t !in w.transitions && t in v.transitions && Installs(w, v, t, v.transitions[t])
    requires forall s :: s in w.runs ==> Tail(w.runs[s])
    ensures TransitionsInv(v.transitions, v.runs, v.current, v.epoch) && LockInv(v.admission, v.runs, v.invokes)
    ensures RunsChild(v.runs, v.transitions, v.child, v.children)
  {
    InstallKeepsChild(w, v, t);
    hide RunsChild, ReadyToLaunch, Blank, StopEvidence, OldRegistered;
    assert RunState(FirstWrite, v.transitions[t]);
    hide RunState;
    assert LockInv(v.admission, v.runs, v.invokes);
    hide LockInv;
  }

  lemma {:induction false} InstallKeepsChild(w: World, v: World, t: nat)
    requires t !in w.transitions && t in v.transitions && Installs(w, v, t, v.transitions[t])
    requires forall s :: s in w.runs ==> Tail(w.runs[s])
    ensures RunsChild(v.runs, v.transitions, v.child, v.children)
  {
    hide NewlyInstalled, OldRegistered;
    TailsIgnoreChildren(w.runs, w.transitions, v.child, v.children);
    assert RunChild(FirstWrite, v.transitions[t], v.child, v.children);
    hide RunChild;
  }

  lemma {:induction false} InstallKeepsHistory(w: World, v: World, t: nat)
    requires EvidenceInv(w.runs, w.transitions, w.log, w.priorStop)
    requires CutInv(w.transitions, w.log) && InvokesInv(w.invokes, w.transitions, w.log)
    requires t !in w.transitions && t !in w.runs && t in v.transitions && Installs(w, v, t, v.transitions[t])
    ensures EvidenceInv(v.runs, v.transitions, v.log, v.priorStop)
    ensures CutInv(v.transitions, v.log) && InvokesInv(v.invokes, v.transitions, v.log)
  {
    hide ReadyToLaunch, Blank, StopEvidence, FrameFirst, Matches, SentFrame, WasAdmitted, OldRegistered;
    var u := v.transitions[t];
    assert RunEvidence(FirstWrite, u, t, v.log);
    hide RunEvidence;
    assert EvidenceInv(v.runs, v.transitions, v.log, v.priorStop);
    hide EpochInv, FinishInv, DurableInv, EvidenceInv;
    assert CutInv(v.transitions, v.log);
    InstallKeepsInvokes(w.invokes, w.transitions, t, u, w.log);
  }

  lemma {:induction false} InstallKeepsInvokes(
    invokes: map<nat, InvokePc>, transitions: map<nat, Transition>, t: nat, u: Transition, log: seq<Event>)
    requires InvokesInv(invokes, transitions, log) && t !in transitions
    ensures InvokesInv(invokes, transitions[t := u], log)
  {
    hide FrameFirst, Matches, SentFrame, WasAdmitted;
    forall i | i in invokes
      ensures InvokeFacts(i, invokes[i], transitions[t := u], log)
    {
      assert InvokeFacts(i, invokes[i], transitions, log);
    }
  }

  lemma {:induction false} BeginRestartKeeps(w: World, t: nat, id: string, minted: string, status: Status, readable: bool)
    requires Good(w) && MayBegin(w, t, id, minted)
    ensures Good(RestartStep(w, t, id, minted, status, readable))
  {
    hide EpochInv, FinishInv, DurableInv, RunState, RunChild, EvidenceInv, RecordInv, CutInv, InvokesInv, LogGood, LockInv, ChildInv, RunsChild;
    OnlyTailsRun(w);
    assert w.starts == map[];
    hide TransitionsInv, RestartStep;
    TailsKeepNothing(w);
    var v := RestartStep(w, t, id, minted, status, readable);
    RestartNames(w, t, id, minted, status, readable);
    RestartBegins(w, t, id, minted, status, readable);
    TailsIgnoreChildren(w.runs, w.transitions, v.child, v.children);
    hide Tail;
    if t in v.runs {
      InstallFinishes(w, v, t);
      InstallOpensEpoch(w.transitions, w.epoch, t, v.transitions[t]);
      InstallKeepsTransitions(w, v, t);
      InstallKeepsHistory(w, v, t);
      hide NewlyInstalled;
      assert ClaimInv(v.claim, v.starts, v.current) && StartsInv(v.starts, v.child, v.children);
    } else {
      RefusedKeepsTransitions(w);
      RefusedFinishes(w);
    }
  }

  // Retired transitions make no claim on the durable record.
  lemma {:induction false} TailsKeepNothing(w: World)
    requires forall t :: t in w.runs ==> Tail(w.runs[t])
    ensures forall t :: t in w.runs && t in w.transitions ==> !KeepsRestarting(w.runs[t], w.transitions[t])
  {
  }

  lemma {:induction false} InstallFinishes(w: World, v: World, t: nat)
    requires FinishInv(w.transitions, w.runs, w.current, w.log) && t !in w.transitions && t !in w.runs
    requires t in v.transitions && Installs(w, v, t, v.transitions[t])
    requires forall s :: s in w.runs && s in w.transitions ==> !KeepsRestarting(w.runs[s], w.transitions[s])
    ensures FinishInv(v.transitions, v.runs, v.current, v.log)
    ensures DurableInv(v.runs, v.transitions, v.record)
  {
    hide StopEvidence, Blank, OldRegistered;
    assert FirstWriteRefused(t) !in w.log;
    assert !KeepsRestarting(FirstWrite, v.transitions[t]);
    hide KeepsRestarting;
  }

  lemma {:induction false} RefusedFinishes(w: World)
    requires FinishInv(w.transitions, w.runs, w.current, w.log)
    requires forall s :: s in w.runs && s in w.transitions ==> !KeepsRestarting(w.runs[s], w.transitions[s])
    ensures FinishInv(w.transitions, w.runs, None, w.log)
    ensures DurableInv(w.runs, w.transitions, w.record)
  {
    hide KeepsRestarting;
  }

  lemma {:induction false} RestartNames(w: World, t: nat, id: string, minted: string, status: Status, readable: bool)
    requires t !in w.runs
    ensures var v := RestartStep(w, t, id, minted, status, readable);
            t in v.runs ==> t in v.transitions
  {
  }

  lemma {:induction false} RefusedKeepsTransitions(w: World)
    requires TransitionsInv(w.transitions, w.runs, w.current, w.epoch)
    requires forall t :: t in w.runs ==> Tail(w.runs[t])
    ensures TransitionsInv(w.transitions, w.runs, None, w.epoch)
  {
    hide RunState;
  }

  // ------------------------------------------------------------ invocations

  lemma {:induction false} InvokeMoves(
    invokes: map<nat, InvokePc>, transitions: map<nat, Transition>, log: seq<Event>, i: nat, pc: InvokePc)
    requires InvokesInv(invokes, transitions, log) && i in invokes && InvokeFacts(i, pc, transitions, log)
    ensures InvokesInv(invokes[i := pc], transitions, log)
  {
    hide InvokeFacts;
  }

  lemma {:induction false} InvokeMovesLogging(
    invokes: map<nat, InvokePc>, transitions: map<nat, Transition>, log: seq<Event>, i: nat, pc: InvokePc, e: Event)
    requires InvokesInv(invokes, transitions, log) && i in invokes
    requires e.FrameSent? || e.InvokeAdmitted? ==> e.i == i
    requires InvokeFacts(i, pc, transitions, log + [e])
    ensures InvokesInv(invokes[i := pc], transitions, log + [e])
  {
    forall j | j in invokes && j != i
      ensures InvokeFacts(j, invokes[j], transitions, log + [e])
    {
      assert InvokeFacts(j, invokes[j], transitions, log);
      InvokeLonger(j, invokes[j], transitions, log, e);
    }
    hide InvokeFacts;
  }

  // While an invocation holds the lock, its boundary has not been cut over.
  lemma {:induction false} BoundaryIsEarly(w: World, i: nat, status: Status)
    requires TransitionsInv(w.transitions, w.runs, w.current, w.epoch) && LockInv(w.admission, w.runs, w.invokes)
    requires i in w.invokes && w.invokes[i] == Holding && TargetOf(w, status).Reach?
    ensures w.current.Some? && w.transitions[w.current.value].prior.Some? ==> !w.transitions[w.current.value].cutover
  {
    hide ReadyToLaunch, Blank;
    if w.current.Some? && w.current.value in w.runs {
      var t := w.current.value;
      assert !Locked(w.runs[t]);
      assert RunState(w.runs[t], w.transitions[t]);
    }
  }

  lemma {:induction false} HoldingAdmits(w: World, i: nat, status: Status)
    requires Good(w) && i in w.invokes && w.invokes[i] == Holding && TargetOf(w, status).Reach?
    ensures var target := TargetOf(w, status);
            var e := InvokeAdmitted(i, w.current);
            && InvokeFacts(i, Admitted(target.weaverID, target.generationID, BoundaryOf(w, target.weaverID, target.generationID)),
                           w.transitions, w.log + [e])
            && Justified(w.log, e, w.priorStop)
  {
    BoundaryIsEarly(w, i, status);
    hide EpochInv, FinishInv, DurableInv, TransitionsInv, LockInv, EvidenceInv, RecordInv, LogGood, CutInv, RunsChild, ChildInv, ClaimInv, StartsInv, Matches, Blank;
    assert InvokeFacts(i, Holding, w.transitions, w.log);
    hide FrameFirst, InvokesInv;
    assert InvokeAdmitted(i, w.current) in w.log + [InvokeAdmitted(i, w.current)];
  }

  lemma {:induction false} SendFacts(w: World, i: nat)
    requires Good(w) && i in w.invokes && w.invokes[i].Admitted?
    ensures var pc := w.invokes[i];
            var e := FrameSent(i, pc.weaverID, pc.generationID);
            && InvokeFacts(i, Sent(pc.weaverID, pc.generationID, pc.boundary), w.transitions, w.log + [e])
            && Justified(w.log, e, w.priorStop)
  {
    hide EpochInv, FinishInv, DurableInv, TransitionsInv, LockInv, EvidenceInv, RecordInv, LogGood, CutInv, RunsChild, ChildInv, ClaimInv, StartsInv, Matches, Blank;
    assert InvokeFacts(i, w.invokes[i], w.transitions, w.log);
    hide FrameFirst, InvokesInv, SentFrame;
  }

  // The lock is about to be released: the cutover can only come later.
  lemma {:induction false} SentFacts(w: World, i: nat)
    requires Good(w) && i in w.invokes && w.invokes[i].Sent?
    ensures var pc := w.invokes[i];
            && InvokeFacts(i, Awaiting(pc.weaverID, pc.generationID, pc.boundary), w.transitions, w.log)
            && InvokeFacts(i, Lost(pc.weaverID, pc.generationID, pc.boundary, true), w.transitions, w.log)
  {
    hide EpochInv, FinishInv, DurableInv, TransitionsInv, LockInv, EvidenceInv, RecordInv, LogGood, RunsChild, ChildInv, ClaimInv, StartsInv, Matches, Blank;
    var pc := w.invokes[i];
    assert InvokeFacts(i, pc, w.transitions, w.log);
    hide InvokesInv, SentFrame, WasAdmitted;
    if pc.boundary.Some? {
      var t := pc.boundary.value;
      assert CutoverEntered(t, w.transitions[t].prior) !in w.log;
      NoCutoverYet(w.log, i, t);
    }
  }

  lemma {:induction false} LostMeansInterrupted(w: World, i: nat)
    requires Good(w) && i in w.invokes && w.invokes[i].Lost? && w.invokes[i].delivered
    requires w.invokes[i].boundary.Some? && w.invokes[i].boundary.value in w.transitions
    requires w.transitions[w.invokes[i].boundary.value].cutover
    ensures Justified(w.log, AnsweredRestarted(i, w.invokes[i].boundary.value), w.priorStop)
  {
    hide EpochInv, FinishInv, DurableInv, TransitionsInv, LockInv, EvidenceInv, RecordInv, LogGood, RunsChild, ChildInv, ClaimInv, StartsInv, Matches, Blank;
    var pc := w.invokes[i];
    var t := pc.boundary.value;
    assert InvokeFacts(i, pc, w.transitions, w.log);
    hide InvokesInv;
    assert CutoverEntered(t, w.transitions[t].prior) in w.log;
    var a :| 0 <= a < |w.log| && w.log[a] == FrameSent(i, pc.weaverID, pc.generationID);
    var b :| 0 <= b < |w.log| && w.log[b] == CutoverEntered(t, w.transitions[t].prior);
    assert IsCutover(w.log[b], t) && IsFrame(w.log[a], i);
    assert InterruptedAt(w.log, i, t, a, b, pc.weaverID, pc.generationID, w.transitions[t].prior.value);
  }

  // Only the lock, the log and one invocation change.
  lemma {:induction false} InvokeFrame(w: World, v: World, i: nat, pc: InvokePc)
    requires Good(w) && i in w.invokes
    requires v == w.(invokes := w.invokes[i := pc], admission := v.admission, log := v.log)
    requires LockInv(v.admission, v.runs, v.invokes) && InvokesInv(v.invokes, v.transitions, v.log)
    requires v.log == w.log || exists e: Event :: AppendsOne(w.log, v.log, e) && !OfTransition(e) && Justified(w.log, e, w.priorStop)
    ensures Good(v)
  {
    hide EpochInv, FinishInv, DurableInv, TransitionsInv, LockInv, EvidenceInv, RecordInv, CutInv, InvokesInv, LogGood, RunsChild, ChildInv, ClaimInv, StartsInv, Justified;
    if v.log != w.log {
      var e: Event :| AppendsOne(w.log, v.log, e) && !OfTransition(e) && Justified(w.log, e, w.priorStop);
      LogLonger(w, e);
    }
  }

  ghost predicate AppendsOne(log: seq<Event>, more: seq<Event>, e: Event) {
    more == log + [e]
  }

  lemma {:induction false} LockMoves(w: World, i: nat, pc: InvokePc, admission: Option<Holder>)
    requires LockInv(w.admission, w.runs, w.invokes) && i in w.invokes
    requires (HoldsLock(w.invokes[i]) && admission == None) || (w.admission == None && admission == Some(Invoker(i)))
             || admission == w.admission
    requires HoldsLock(pc) <==> admission == Some(Invoker(i))
    ensures LockInv(admission, w.runs, w.invokes[i := pc])
  {
  }

  predicate LockChange(w: World, i: nat, pc: InvokePc, admission: Option<Holder>)
    requires i in w.invokes
  {
    && ((HoldsLock(w.invokes[i]) && admission == None) || (w.admission == None && admission == Some(Invoker(i)))
        || admission == w.admission)
    && (HoldsLock(pc) <==> admission == Some(Invoker(i)))
  }

  lemma {:induction false} MoveKeeps(w: World, i: nat, pc: InvokePc, admission: Option<Holder>)
    requires Good(w) && i in w.invokes && LockChange(w, i, pc, admission)
    requires InvokeFacts(i, pc, w.transitions, w.log)
    ensures Good(w.(invokes := w.invokes[i := pc], admission := admission))
  {
    hide LockInv, InvokesInv, InvokeFacts, Good, Justified;
    InvokeOwnFacts(w, i);
    LockMoves(w, i, pc, admission);
    InvokeMoves(w.invokes, w.transitions, w.log, i, pc);
    InvokeFrame(w, w.(invokes := w.invokes[i := pc], admission := admission), i, pc);
  }

  lemma {:induction false} LoggedMoveKeeps(w: World, i: nat, pc: InvokePc, admission: Option<Holder>, e: Event)
    requires Good(w) && i in w.invokes && LockChange(w, i, pc, admission)
    requires (e.FrameSent? || e.InvokeAdmitted? ==> e.i == i) && !OfTransition(e) && Justified(w.log, e, w.priorStop)
    requires InvokeFacts(i, pc, w.transitions, w.log + [e])
    ensures Good(w.(invokes := w.invokes[i := pc], admission := admission, log := w.log + [e]))
  {
    hide LockInv, InvokesInv, InvokeFacts, Good, Justified;
    InvokeOwnFacts(w, i);
    LockMoves(w, i, pc, admission);
    InvokeMovesLogging(w.invokes, w.transitions, w.log, i, pc, e);
    assert AppendsOne(w.log, w.log + [e], e);
    InvokeFrame(w, w.(invokes := w.invokes[i := pc], admission := admission, log := w.log + [e]), i, pc);
  }

  lemma {:induction false} AnswerKeeps(w: World, i: nat, admission: Option<Holder>, e: Event)
    requires Good(w) && i in w.invokes && LockChange(w, i, Ended, admission)
    requires e.AnsweredOtherwise? || (e.AnsweredRestarted? && Justified(w.log, e, w.priorStop))
    ensures Good(w.(invokes := w.invokes[i := Ended], admission := admission, log := w.log + [e]))
  {
    hide Good, Interrupted, InvokeFacts;
    Ends(i, w.transitions, w.log + [e]);
    LoggedMoveKeeps(w, i, Ended, admission, e);
  }

  lemma {:induction false} InvokeArrives(w: World, i: nat, status: Status, ok: bool, gone: bool)
    requires Good(w) && InvokeEnabled(w, i, ok, gone) && w.invokes[i].Arriving?
    ensures Good(InvokeStep(w, i, status, ok, gone))
  {
    hide Good, LockInv, InvokesInv, InvokeFacts, Justified, TargetOf, BoundaryOf, BoundaryFacts, Interrupted;
    InvokeOwnFacts(w, i);
    MoveKeeps(w, i, if gone then Ended else Holding, if gone then w.admission else Some(Invoker(i)));
  }

  lemma {:induction false} InvokeReaches(w: World, i: nat, status: Status, ok: bool, gone: bool)
    requires Good(w) && InvokeEnabled(w, i, ok, gone) && w.invokes[i].Holding? && TargetOf(w, status).Reach?
    ensures Good(InvokeStep(w, i, status, ok, gone))
  {
    hide Good, LockInv, InvokesInv, InvokeFacts, Justified, TargetOf, BoundaryOf, BoundaryFacts, Interrupted;
    InvokeOwnFacts(w, i);
    var target := TargetOf(w, status);
    HoldingAdmits(w, i, status);
    LoggedMoveKeeps(w, i, Admitted(target.weaverID, target.generationID, BoundaryOf(w, target.weaverID, target.generationID)),
                    w.admission, InvokeAdmitted(i, w.current));
  }

  lemma {:induction false} InvokeIsHeld(w: World, i: nat, status: Status, ok: bool, gone: bool)
    requires Good(w) && InvokeEnabled(w, i, ok, gone) && w.invokes[i].Holding? && !TargetOf(w, status).Reach?
    ensures Good(InvokeStep(w, i, status, ok, gone))
  {
    hide Good, LockInv, InvokesInv, InvokeFacts, Justified, TargetOf, BoundaryOf, BoundaryFacts, Interrupted;
    InvokeOwnFacts(w, i);
    if TargetOf(w, status).Await? {
      MoveKeeps(w, i, WaitingFor(TargetOf(w, status).t), None);
    } else {
      AnswerKeeps(w, i, None, AnsweredOtherwise(i));
    }
  }

  lemma {:induction false} InvokeSends(w: World, i: nat, status: Status, ok: bool, gone: bool)
    requires Good(w) && InvokeEnabled(w, i, ok, gone) && w.invokes[i].Admitted?
    ensures Good(InvokeStep(w, i, status, ok, gone))
  {
    hide Good, LockInv, InvokesInv, InvokeFacts, Justified, TargetOf, BoundaryOf, BoundaryFacts, Interrupted;
    InvokeOwnFacts(w, i);
    var pc := w.invokes[i];
    if ok {
      SendFacts(w, i);
      LoggedMoveKeeps(w, i, Sent(pc.weaverID, pc.generationID, pc.boundary), w.admission,
                      FrameSent(i, pc.weaverID, pc.generationID));
    } else {
      var v := Noted(w, ConnectionLost(i));
      NotedKeeps(w, ConnectionLost(i));
      InvokeOwnFacts(v, i);
      Undelivered(i, pc.weaverID, pc.generationID, pc.boundary, v.transitions, v.log);
      MoveKeeps(v, i, Lost(pc.weaverID, pc.generationID, pc.boundary, false), None);
    }
  }

  lemma {:induction false} InvokeReleases(w: World, i: nat, status: Status, ok: bool, gone: bool)
    requires Good(w) && InvokeEnabled(w, i, ok, gone) && w.invokes[i].Sent?
    ensures Good(InvokeStep(w, i, status, ok, gone))
  {
    hide Good, LockInv, InvokesInv, InvokeFacts, Justified, TargetOf, BoundaryOf, BoundaryFacts, Interrupted;
    InvokeOwnFacts(w, i);
    var pc := w.invokes[i];
    if ok {
      SentFacts(w, i);
      MoveKeeps(w, i, Awaiting(pc.weaverID, pc.generationID, pc.boundary), None);
    } else {
      var v := Noted(w, ConnectionLost(i));
      NotedKeeps(w, ConnectionLost(i));
      InvokeOwnFacts(v, i);
      SentFacts(v, i);
      MoveKeeps(v, i, Lost(pc.weaverID, pc.generationID, pc.boundary, true), None);
    }
  }

  lemma {:induction false} InvokeHears(w: World, i: nat, status: Status, ok: bool, gone: bool)
    requires Good(w) && InvokeEnabled(w, i, ok, gone) && w.invokes[i].Awaiting?
    ensures Good(InvokeStep(w, i, status, ok, gone))
  {
    hide Good, LockInv, InvokesInv, InvokeFacts, Justified, TargetOf, BoundaryOf, BoundaryFacts, Interrupted;
    InvokeOwnFacts(w, i);
    var pc := w.invokes[i];
    if ok {
      AnswerKeeps(w, i, w.admission, AnsweredOtherwise(i));
    } else {
      var v := Noted(w, ConnectionLost(i));
      NotedKeeps(w, ConnectionLost(i));
      InvokeOwnFacts(v, i);
      MoveKeeps(v, i, Lost(pc.weaverID, pc.generationID, pc.boundary, true), w.admission);
    }
  }

  lemma {:induction false} InvokeLoses(w: World, i: nat, status: Status, ok: bool, gone: bool)
    requires Good(w) && InvokeEnabled(w, i, ok, gone) && w.invokes[i].Lost?
    ensures Good(InvokeStep(w, i, status, ok, gone))
  {
    hide Good, LockInv, InvokesInv, InvokeFacts, Justified, TargetOf, BoundaryOf, BoundaryFacts, Interrupted;
    InvokeOwnFacts(w, i);
    var pc := w.invokes[i];
    if gone {
      MoveKeeps(w, i, Ended, w.admission);
    } else if pc.delivered && pc.boundary.Some? && w.transitions[pc.boundary.value].cutover {
      LostMeansInterrupted(w, i);
      AnswerKeeps(w, i, w.admission, AnsweredRestarted(i, pc.boundary.value));
    } else {
      AnswerKeeps(w, i, w.admission, AnsweredOtherwise(i));
    }
  }

  lemma {:induction false} InvokeWaits(w: World, i: nat, status: Status, ok: bool, gone: bool)
    requires Good(w) && InvokeEnabled(w, i, ok, gone) && w.invokes[i].WaitingFor?
    ensures Good(InvokeStep(w, i, status, ok, gone))
  {
    hide Good, LockInv, InvokesInv, InvokeFacts, Justified, TargetOf, BoundaryOf, BoundaryFacts, Interrupted;
    InvokeOwnFacts(w, i);
    if !gone && !ok {
      AnswerKeeps(w, i, w.admission, AnsweredOtherwise(i));
    } else {
      MoveKeeps(w, i, if gone then Ended else Arriving, w.admission);
    }
  }

  lemma {:induction false} StepInvokeKeeps(w: World, i: nat, status: Status, ok: bool, gone: bool)
    requires Good(w) && InvokeEnabled(w, i, ok, gone)
    ensures Good(InvokeStep(w, i, status, ok, gone))
  {
    hide Good, InvokeStep, TargetOf;
    match w.invokes[i] {
      case Arriving => InvokeArrives(w, i, status, ok, gone);
      case Holding =>
        if TargetOf(w, status).Reach? {
          InvokeReaches(w, i, status, ok, gone);
        } else {
          InvokeIsHeld(w, i, status, ok, gone);
        }
      case Admitted(_, _, _) => InvokeSends(w, i, status, ok, gone);
      case Sent(_, _, _) => InvokeReleases(w, i, status, ok, gone);
      case Awaiting(_, _, _) => InvokeHears(w, i, status, ok, gone);
      case Lost(_, _, _, _) => InvokeLoses(w, i, status, ok, gone);
      case WaitingFor(_) => InvokeWaits(w, i, status, ok, gone);
    }
  }

  // What an invocation's own state says, and what follows for its next ones.
  lemma {:induction false} InvokeOwnFacts(w: World, i: nat)
    requires Good(w) && i in w.invokes
    ensures LockInv(w.admission, w.runs, w.invokes) && InvokesInv(w.invokes, w.transitions, w.log)
    ensures var pc := w.invokes[i];
            && (pc.Arriving? || pc.Holding? || pc.WaitingFor? ==>
                  InvokeFacts(i, Holding, w.transitions, w.log) && InvokeFacts(i, Arriving, w.transitions, w.log)
                  && forall t :: InvokeFacts(i, WaitingFor(t), w.transitions, w.log))
            && (pc.Awaiting? ==>
                  InvokeFacts(i, Lost(pc.weaverID, pc.generationID, pc.boundary, true), w.transitions, w.log))
            && InvokeFacts(i, Ended, w.transitions, w.log)
    ensures HoldsLock(w.invokes[i]) <==> w.admission == Some(Invoker(i))
  {
    hide EpochInv, FinishInv, DurableInv, TransitionsInv, EvidenceInv, RecordInv, CutInv, LogGood, RunsChild, ChildInv, ClaimInv, StartsInv, SentFrame, WasAdmitted, Matches, FrameFirst;
    assert InvokeFacts(i, w.invokes[i], w.transitions, w.log);
  }

  lemma {:induction false} Undelivered(
    i: nat, weaverID: string, generationID: string, boundary: Option<nat>, transitions: map<nat, Transition>, log: seq<Event>)
    ensures InvokeFacts(i, Lost(weaverID, generationID, boundary, false), transitions, log)
  {
  }

  lemma {:induction false} Ends(i: nat, transitions: map<nat, Transition>, log: seq<Event>)
    ensures InvokeFacts(i, Ended, transitions, log)
  {
  }
}
