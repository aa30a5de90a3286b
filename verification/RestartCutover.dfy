/** The restart goroutine: each of its steps, from the first durable write to the release of
    the admission lock, keeps the restart invariant. */
module RestartCutover {
  import opened Basics
  import opened RestartRecord
  import opened RestartProtocol
  import opened RestartInvariant
  import opened RestartRuns

  function Logged(log: seq<Event>, e: Option<Event>): seq<Event> {
    if e.Some? then log + [e.value] else log
  }

  // One step of a transition that has not retired yet.
  ghost predicate Moved(w: World, v: World, t: nat, pc: RunPc, u: Transition, e: Option<Event>) {
    && t in w.runs && t in w.transitions && !Tail(w.runs[t]) && !w.runs[t].GivingUp?
    && v == w.(runs := w.runs[t := pc], transitions := w.transitions[t := u], child := v.child, children := v.children,
               admission := v.admission, record := v.record, log := Logged(w.log, e))
    && u.epoch == w.transitions[t].epoch && u.retry == w.transitions[t].retry && u.prior == w.transitions[t].prior
    && u.done == w.transitions[t].done && u.id == w.transitions[t].id
  }

  ghost predicate StateMoves(w: World, v: World, t: nat, pc: RunPc, u: Transition)
    requires t in w.runs && t in w.transitions
  {
    && RunState(pc, u) && (Tail(pc) ==> pc.Completing?) && (!Tail(pc) ==> u.state != Failed)
    && RunChild(pc, u, v.child, v.children) && ChildInv(v.child, v.children)
    && (if Locked(w.runs[t]) then Locked(pc) && v.admission == w.admission
        else if Locked(pc) then w.admission == None && v.admission == Some(Cutover(t))
        else v.admission == w.admission)
  }

  ghost predicate EventMoves(w: World, t: nat, u: Transition, e: Option<Event>)
    requires t in w.runs && t in w.transitions
  {
    && (e.Some? ==> Justified(w.log, e.value, w.priorStop) && !e.value.FrameSent? && !e.value.InvokeAdmitted?)
    && (e.Some? && e.value.CutoverEntered? ==> e.value == CutoverEntered(t, u.prior) && u.cutover)
    && (u.prior.Some? ==> (u.cutover <==> w.transitions[t].cutover || e == Some(CutoverEntered(t, u.prior))))
    && (e.Some? && e.value.FirstWriteRefused? ==> e.value.t == t)
    && (u.cutover && !w.transitions[t].cutover ==> u.prior.None? || Locked(w.runs[t]))
  }

  ghost predicate ProofMoves(w: World, v: World, t: nat, pc: RunPc, u: Transition) {
    && RunEvidence(pc, u, t, v.log)
    && (NamesOld(pc) ==> Backed(u, t, v.log, v.priorStop)) && (u.retry ==> u.stopped)
    && RecordInv(v.record, v.log, v.priorStop)
  }

  // A retry gives up exactly when its first write is refused; a cutover owns the record.
  ghost predicate CourseMoves(w: World, v: World, t: nat, pc: RunPc, u: Transition, e: Option<Event>) {
    && !pc.Unlocking? && (u.retry && e == Some(FirstWriteRefused(t)) ==> pc.GivingUp? && u.state == Restarting)
    && (pc.GivingUp? ==> e == Some(FirstWriteRefused(t)))
    && (KeepsRestarting(pc, u) ==> SaysRestarting(v.record, u))
  }

  lemma {:induction false} OthersRetired(w: World, t: nat)
    requires TransitionsInv(w.transitions, w.runs, w.current, w.epoch) && t in w.runs && !Tail(w.runs[t])
    ensures w.current == Some(t) && forall s :: s in w.runs && s != t ==> Tail(w.runs[s])
  {
    hide RunState;
  }

  lemma {:induction false} TransitionsMove(w: World, v: World, t: nat, pc: RunPc, u: Transition, e: Option<Event>)
    requires TransitionsInv(w.transitions, w.runs, w.current, w.epoch)
    requires Moved(w, v, t, pc, u, e) && RunState(pc, u)
    requires (Tail(pc) ==> pc.Completing?) && (!Tail(pc) ==> u.state != Failed)
    ensures TransitionsInv(v.transitions, v.runs, v.current, v.epoch)
  {
    hide Logged, RunState;
    OthersRetired(w, t);
  }

  lemma {:induction false} ChildMoves(w: World, v: World, t: nat, pc: RunPc, u: Transition, e: Option<Event>)
    requires TransitionsInv(w.transitions, w.runs, w.current, w.epoch)
    requires Moved(w, v, t, pc, u, e) && RunChild(pc, u, v.child, v.children)
    ensures RunsChild(v.runs, v.transitions, v.child, v.children)
  {
    OthersRetired(w, t);
    hide EpochInv, FinishInv, DurableInv, TransitionsInv, Logged;
    forall s | s in v.runs && s in v.transitions
      ensures RunChild(v.runs[s], v.transitions[s], v.child, v.children)
    {
      if s != t {
        assert Tail(w.runs[s]);
      }
    }
  }

  lemma {:induction false} LockMovesOn(w: World, v: World, t: nat, pc: RunPc, u: Transition, e: Option<Event>)
    requires LockInv(w.admission, w.runs, w.invokes)
    requires Moved(w, v, t, pc, u, e) && StateMoves(w, v, t, pc, u)
    ensures LockInv(v.admission, v.runs, v.invokes)
  {
    hide RunState, RunChild, ChildInv, HoldsLock;
  }

  lemma {:induction false} CutMoves(w: World, v: World, t: nat, pc: RunPc, u: Transition, e: Option<Event>)
    requires CutInv(w.transitions, w.log) && Moved(w, v, t, pc, u, e) && EventMoves(w, t, u, e)
    ensures CutInv(v.transitions, v.log)
  {
    hide Justified;
    forall f
      ensures f in v.log <==> f in w.log || e == Some(f)
    {
    }
  }

  lemma {:induction false} HistoryMoves(w: World, v: World, t: nat, pc: RunPc, u: Transition, e: Option<Event>)
    requires LogGood(w.log, w.priorStop) && EvidenceInv(w.runs, w.transitions, w.log, w.priorStop)
    requires Moved(w, v, t, pc, u, e) && EventMoves(w, t, u, e) && ProofMoves(w, v, t, pc, u)
    ensures LogGood(v.log, v.priorStop) && EvidenceInv(v.runs, v.transitions, v.log, v.priorStop)
  {
    hide LogGood, Justified, StopEvidence, RecordInv, RunEvidence;
    if e.Some? {
      LogAppend(w.log, e.value, w.priorStop);
      EvidenceLonger(w.runs, w.transitions, w.log, e.value, w.priorStop);
    }
  }

  lemma {:induction false} InvokesMove(w: World, v: World, t: nat, pc: RunPc, u: Transition, e: Option<Event>)
    requires InvokesInv(w.invokes, w.transitions, w.log) && LockInv(w.admission, w.runs, w.invokes)
    requires Moved(w, v, t, pc, u, e) && EventMoves(w, t, u, e)
    ensures InvokesInv(v.invokes, v.transitions, v.log)
  {
    hide Justified;
    if e.Some? {
      InvokesLonger(w.invokes, w.transitions, w.log, e.value);
    }
    forall i | i in w.invokes
      ensures InvokeFacts(i, w.invokes[i], v.transitions, v.log)
    {
      assert InvokeFacts(i, w.invokes[i], w.transitions, v.log);
      HolderExcludesCutover(w, t, i);
      InvokeIgnoresMove(i, w.invokes[i], w.transitions, t, u, v.log, Locked(w.runs[t]));
    }
    hide InvokeFacts;
  }

  lemma {:induction false} HolderExcludesCutover(w: World, t: nat, i: nat)
    requires LockInv(w.admission, w.runs, w.invokes) && t in w.runs && i in w.invokes
    ensures !(Locked(w.runs[t]) && HoldsLock(w.invokes[i]))
  {
    hide Locked, HoldsLock;
    assert Locked(w.runs[t]) ==> w.admission == Some(Cutover(t));
    assert HoldsLock(w.invokes[i]) ==> w.admission == Some(Invoker(i));
  }

  lemma {:induction false} InvokeIgnoresMove(
    i: nat, pc: InvokePc, transitions: map<nat, Transition>, t: nat, u: Transition, log: seq<Event>, locked: bool)
    requires InvokeFacts(i, pc, transitions, log) && t in transitions && u.prior == transitions[t].prior
    requires u.cutover && !transitions[t].cutover ==> u.prior.None? || locked
    requires !(locked && HoldsLock(pc))
    ensures InvokeFacts(i, pc, transitions[t := u], log)
  {
    hide FrameFirst, Matches, SentFrame, WasAdmitted;
  }

  lemma {:induction false} FinishMoves(w: World, v: World, t: nat, pc: RunPc, u: Transition, e: Option<Event>)
    requires FinishInv(w.transitions, w.runs, w.current, w.log)
    requires Moved(w, v, t, pc, u, e) && EventMoves(w, t, u, e) && CourseMoves(w, v, t, pc, u, e)
    ensures FinishInv(v.transitions, v.runs, v.current, v.log)
  {
    hide Justified, KeepsRestarting, SaysRestarting;
    forall f
      ensures f in v.log <==> f in w.log || e == Some(f)
    {
    }
  }

  lemma {:induction false} DurableMoves(w: World, v: World, t: nat, pc: RunPc, u: Transition, e: Option<Event>)
    requires TransitionsInv(w.transitions, w.runs, w.current, w.epoch)
    requires Moved(w, v, t, pc, u, e) && CourseMoves(w, v, t, pc, u, e)
    ensures DurableInv(v.runs, v.transitions, v.record)
  {
    hide TransitionsInv, Logged, SaysRestarting;
    OthersRetired(w, t);
    forall s | s in v.runs && s in v.transitions && s != t
      ensures !KeepsRestarting(v.runs[s], v.transitions[s])
    {
      assert Tail(w.runs[s]);
    }
  }

  /** A step that respects the transition's state, its child, the lock, the log and the durable
      evidence keeps the whole invariant. */
  lemma {:induction false} RunMoves(w: World, v: World, t: nat, pc: RunPc, u: Transition, e: Option<Event>)
    requires Good(w) && Moved(w, v, t, pc, u, e)
    requires StateMoves(w, v, t, pc, u) && EventMoves(w, t, u, e) && ProofMoves(w, v, t, pc, u)
    requires CourseMoves(w, v, t, pc, u, e)
    ensures Good(v)
  {
    hide EpochInv, FinishInv, DurableInv, RunsChild, EvidenceInv, LockInv, CutInv, InvokesInv, LogGood, RecordInv, ChildInv, RunState, RunChild, RunEvidence, Justified, StopEvidence;
    OthersRetired(w, t);
    hide EpochInv, FinishInv, DurableInv, TransitionsInv, Logged;
    TransitionsMove(w, v, t, pc, u, e);
    EpochsStay(w.transitions, w.epoch, t, u);
    FinishMoves(w, v, t, pc, u, e);
    DurableMoves(w, v, t, pc, u, e);
    ChildMoves(w, v, t, pc, u, e);
    LockMovesOn(w, v, t, pc, u, e);
    CutMoves(w, v, t, pc, u, e);
    HistoryMoves(w, v, t, pc, u, e);
    InvokesMove(w, v, t, pc, u, e);
    assert w.starts == map[];
    hide EventMoves, CourseMoves;
  }

  // ------------------------------------------------------------ what a step may rely on

  ghost predicate Standing(w: World, t: nat) {
    && t in w.runs && t in w.transitions
    && RunState(w.runs[t], w.transitions[t])
    && RunChild(w.runs[t], w.transitions[t], w.child, w.children)
    && RunEvidence(w.runs[t], w.transitions[t], t, w.log)
    && ChildInv(w.child, w.children) && RecordInv(w.record, w.log, w.priorStop)
    && (w.transitions[t].retry <==> w.transitions[t].prior.None?)
    && (NamesOld(w.runs[t]) ==> Backed(w.transitions[t], t, w.log, w.priorStop))
    && (KeepsRestarting(w.runs[t], w.transitions[t]) ==> SaysRestarting(w.record, w.transitions[t]))
    && (w.transitions[t].retry ==> w.transitions[t].stopped)
    && (!Tail(w.runs[t]) ==> w.transitions[t].state != Failed)
  }

  lemma {:induction false} StandsWell(w: World, t: nat)
    requires Good(w) && t in w.runs
    ensures Standing(w, t)
  {
    hide LockInv, CutInv, InvokesInv, LogGood, RunState, RunChild, RunEvidence, ChildInv, RecordInv, Backed, SaysRestarting,
      KeepsRestarting, NamesOld, ClaimInv, StartsInv, FinishInv, EpochInv;
  }

  // A new position that relies on nothing the old one did not.
  ghost predicate Follows(before: RunPc, pc: RunPc, u: Transition) {
    && !before.GivingUp? && !pc.GivingUp? && !pc.Unlocking? && (NamesOld(pc) ==> NamesOld(before))
    && (KeepsRestarting(pc, u) ==> KeepsRestarting(before, u))
  }

  // ------------------------------------------------------------ verifying and waiting

  lemma {:induction false} QuietStep(w: World, v: World, t: nat, pc: RunPc)
    requires Good(w) && t in w.runs && Moved(w, v, t, pc, w.transitions[t], None)
    requires StateMoves(w, v, t, pc, w.transitions[t]) && v.record == w.record
    requires RunEvidence(pc, w.transitions[t], t, w.log) && Follows(w.runs[t], pc, w.transitions[t])
    ensures Good(v)
  {
    StandsWell(w, t);
    hide Good, StateMoves, RunEvidence, RecordInv, Backed, RunState, RunChild, ChildInv, NamesOld, KeepsRestarting, SaysRestarting;
    assert ProofMoves(w, v, t, pc, w.transitions[t]);
    assert EventMoves(w, t, w.transitions[t], None);
    assert CourseMoves(w, v, t, pc, w.transitions[t], None);
    hide Moved, EventMoves, ProofMoves, CourseMoves;
    RunMoves(w, v, t, pc, w.transitions[t], None);
  }

  // Only the goroutine's own position changes.
  lemma {:induction false} OnlyPcMoves(w: World, t: nat, pc: RunPc)
    requires Good(w) && t in w.runs && !Tail(w.runs[t]) && t in w.transitions
    requires RunState(pc, w.transitions[t]) && !Tail(pc) && RunChild(pc, w.transitions[t], w.child, w.children)
    requires RunEvidence(pc, w.transitions[t], t, w.log) && Locked(pc) == Locked(w.runs[t])
    requires Follows(w.runs[t], pc, w.transitions[t])
    ensures Good(GoTo(w, t, pc))
  {
    hide Good, RunState, RunChild, RunEvidence, ChildInv, NamesOld, KeepsRestarting, SaysRestarting, Backed, RecordInv;
    StandsWell(w, t);
    assert w.transitions[t := w.transitions[t]] == w.transitions;
    QuietStep(w, GoTo(w, t, pc), t, pc);
  }

  lemma {:induction false} VerifyingKeeps(w: World, t: nat, a: Answer)
    requires Good(w) && RunEnabled(w, t, a) && w.runs[t].Verifying?
    ensures Good(TakeStep(w, t, a))
  {
    hide Good, Blank, SoundIds, GoodProbe, ChildInv, RecordInv, StopEvidence, ReadyToLaunch;
    StandsWell(w, t);
    NotBlankStages();
    var u := w.transitions[t];
    if !a.ok || (!u.retry && a.probe.None?) {
      OnlyPcMoves(w, t, FailingProbe(a.fallback));
    } else if u.retry {
      OnlyPcMoves(w, t, AwaitingAdmission(u.probe.value));
    } else if !a.probe.value.success {
      OnlyPcMoves(w, t, FailingProbe(a.probe.value));
    } else {
      ProbeSucceeds(w, t, a.probe.value);
    }
  }

  lemma {:induction false} ProbeSucceeds(w: World, t: nat, p: Probe)
    requires Good(w) && t in w.runs && w.runs[t].Verifying? && t in w.transitions && !w.transitions[t].retry && p.success
    ensures Good(GoTo(w, t, AwaitingAdmission(p)).(log := w.log + [ProbePassed(t)]))
  {
    hide Good, Blank, SoundIds, GoodProbe, ChildInv, RecordInv, StopEvidence;
    StandsWell(w, t);
    var e := ProbePassed(t);
    var v := GoTo(w, t, AwaitingAdmission(p)).(log := w.log + [e]);
    var u := w.transitions[t];
    assert w.transitions[t := u] == w.transitions;
    assert ProbePassed(t) in v.log;
    RecordAndEvidenceGrow(w, t, e);
    RunMoves(w, v, t, AwaitingAdmission(p), u, Some(e));
  }

  lemma {:induction false} NotBlankStages()
    ensures !Blank("launch") && !Blank("state") && !Blank("probe") && !Blank("stop")
  {
    LaunchIsNotBlank();
  }

  lemma {:induction false} RecordAndEvidenceGrow(w: World, t: nat, e: Event)
    requires RecordInv(w.record, w.log, w.priorStop) && t in w.transitions && Backed(w.transitions[t], t, w.log, w.priorStop)
    ensures RecordInv(w.record, w.log + [e], w.priorStop) && Backed(w.transitions[t], t, w.log + [e], w.priorStop)
  {
    hide RecordInv, Backed;
    RecordLonger(w.record, w.log, e, w.priorStop);
    BackedLonger(w.transitions[t], t, w.log, e, w.priorStop);
  }

  lemma {:induction false} AwaitingKeeps(w: World, t: nat, a: Answer)
    requires Good(w) && RunEnabled(w, t, a) && w.runs[t].AwaitingAdmission?
    ensures Good(TakeStep(w, t, a))
  {
    hide Good, Blank, SoundIds, GoodProbe, ChildInv, RecordInv, StopEvidence;
    StandsWell(w, t);
    assert w.transitions[t := w.transitions[t]] == w.transitions;
    QuietStep(w, TakeStep(w, t, a), t, EnteringCutover(w.runs[t].probe));
  }

  // ------------------------------------------------------------ stopping the old generation

  lemma {:induction false} StoppingOldKeeps(w: World, t: nat, a: Answer)
    requires Good(w) && RunEnabled(w, t, a) && w.runs[t].StoppingOld?
    ensures Good(TakeStep(w, t, a))
  {
    hide Good, Blank, GoodProbe, ChildInv, RecordInv, StopEvidence, ReadyToLaunch;
    StandsWell(w, t);
    NotBlankStages();
    if a.ok {
      OldIsConfirmedGone(w, t, w.runs[t].probe);
    } else {
      OnlyPcMoves(w, t, Failing("stop", true));
    }
  }

  lemma {:induction false} OldIsConfirmedGone(w: World, t: nat, p: Probe)
    requires Good(w) && t in w.runs && w.runs[t] == StoppingOld(p) && t in w.transitions
    requires OldIsGone(w.transitions[t], w.children)
    ensures Good(GoTo(w, t, OldStopped(p)).(transitions := w.transitions[t := w.transitions[t].(stopped := true)],
                                            log := w.log + [OldGone(t, w.transitions[t].generationID)]))
  {
    hide Good, Blank, GoodProbe, ChildInv, RecordInv, StopEvidence;
    StandsWell(w, t);
    var u := w.transitions[t].(stopped := true);
    var e := OldGone(t, u.generationID);
    var v := GoTo(w, t, OldStopped(p)).(transitions := w.transitions[t := u], log := w.log + [e]);
    assert e in v.log;
    GoneIsEvidence(w.log, t, u.generationID, w.priorStop);
    RecordAndEvidenceGrow(w, t, e);
    RunMoves(w, v, t, OldStopped(p), u, Some(e));
  }

  lemma {:induction false} GoneIsEvidence(log: seq<Event>, t: nat, generationID: string, priorStop: Option<string>)
    ensures StopEvidence(log + [OldGone(t, generationID)], priorStop, generationID)
  {
    assert OldGone(t, generationID) in log + [OldGone(t, generationID)];
  }

  lemma {:induction false} ReleasingKeeps(w: World, t: nat, a: Answer)
    requires Good(w) && RunEnabled(w, t, a) && w.runs[t].ReleasingOld?
    ensures Good(TakeStep(w, t, a))
  {
    hide Good, Blank, SoundIds, GoodProbe, RecordInv, StopEvidence;
    StandsWell(w, t);
    assert w.transitions[t := w.transitions[t]] == w.transitions;
    QuietStep(w, TakeStep(w, t, a), t, ReadyToStart(w.runs[t].probe));
  }

  // ------------------------------------------------------------ launching the replacement

  lemma {:induction false} ProvenIsReady(u: Transition, t: nat, probe: Probe, log: seq<Event>)
    requires OldStopProven(u, t, probe, log)
    ensures ReadyToLaunch(u)
  {
  }

  // Along the launch a transition keeps its old identity and its record.
  predicate Launches(pc: RunPc) {
    pc.ReadyToStart? || pc.NewPrepared? || pc.NewBooting? || pc.StoppingNew? || pc.Unregistering? || pc.Publishing?
  }

  lemma {:induction false} LaunchFollows(before: RunPc, pc: RunPc, u: Transition)
    requires Launches(before) && (Launches(pc) || pc.Failing?)
    ensures Follows(before, pc, u)
  {
  }

  lemma {:induction false} LaunchingKeeps(w: World, t: nat, a: Answer)
    requires Good(w) && RunEnabled(w, t, a) && w.runs[t].ReadyToStart?
    ensures Good(TakeStep(w, t, a))
  {
    hide Good, Blank, RecordInv, Backed, NamesOld, KeepsRestarting, SaysRestarting, ReadyToLaunch, OldStopProven, Follows;
    StandsWell(w, t);
    NotBlankStages();
    var p := w.runs[t].probe;
    ProvenIsReady(w.transitions[t], t, p, w.log);
    LaunchFollows(w.runs[t], if a.ok then NewPrepared(a.g, p) else Failing("launch", true), w.transitions[t]);
    assert w.transitions[t := w.transitions[t]] == w.transitions;
    QuietStep(w, TakeStep(w, t, a), t, if a.ok then NewPrepared(a.g, p) else Failing("launch", true));
  }

  lemma {:induction false} PreparedKeeps(w: World, t: nat, a: Answer)
    requires Good(w) && RunEnabled(w, t, a) && w.runs[t].NewPrepared?
    ensures Good(TakeStep(w, t, a))
  {
    hide Good, Blank, RecordInv, Backed, NamesOld, KeepsRestarting, SaysRestarting, ReadyToLaunch, OldStopProven, Follows;
    StandsWell(w, t);
    var u, p, g := w.transitions[t], w.runs[t].probe, w.runs[t].g;
    ProvenIsReady(u, t, p, w.log);
    LaunchFollows(w.runs[t], Unregistering(g), u);
    if a.ok {
      ReplacementStarts(w, t, g, p);
    } else {
      assert w.transitions[t := u] == w.transitions;
      QuietStep(w, TakeStep(w, t, a), t, Unregistering(g));
    }
  }

  lemma {:induction false} ReplacementStarts(w: World, t: nat, g: nat, p: Probe)
    requires Good(w) && t in w.runs && w.runs[t] == NewPrepared(g, p) && t in w.transitions && g in w.children
    ensures Good(GoTo(w, t, NewBooting(g, p)).(children := WithPhase(w.children, g, Alive),
                                               log := w.log + [ReplacementStarted(t, g, w.transitions[t].prior, w.transitions[t].generationID)]))
  {
    hide Good, RecordInv, Backed, OldStopProven, Justified;
    StandsWell(w, t);
    var u := w.transitions[t];
    var e := ReplacementStarted(t, g, u.prior, u.generationID);
    var v := GoTo(w, t, NewBooting(g, p)).(children := WithPhase(w.children, g, Alive), log := w.log + [e]);
    assert w.transitions[t := u] == w.transitions;
    ProvenJustifies(u, t, p, w.log, g, w.priorStop);
    ProvenLonger(u, t, p, w.log, e);
    RecordAndEvidenceGrow(w, t, e);
    RunMoves(w, v, t, NewBooting(g, p), u, Some(e));
  }

  lemma {:induction false} ProvenJustifies(u: Transition, t: nat, p: Probe, log: seq<Event>, g: nat, priorStop: Option<string>)
    requires OldStopProven(u, t, p, log) && Backed(u, t, log, priorStop)
    ensures Justified(log, ReplacementStarted(t, g, u.prior, u.generationID), priorStop)
  {
    hide StopEvidence, CutOver;
  }

  lemma {:induction false} ProvenLonger(u: Transition, t: nat, p: Probe, log: seq<Event>, e: Event)
    requires OldStopProven(u, t, p, log)
    ensures OldStopProven(u, t, p, log + [e])
  {
    hide SoundIds, GoodProbe;
  }

  lemma {:induction false} BootingKeeps(w: World, t: nat, a: Answer)
    requires Good(w) && RunEnabled(w, t, a) && w.runs[t].NewBooting?
    ensures Good(TakeStep(w, t, a))
  {
    hide Good, Blank, RecordInv, Backed, NamesOld, KeepsRestarting, SaysRestarting, ReadyToLaunch, OldStopProven, Follows;
    StandsWell(w, t);
    var p, g := w.runs[t].probe, w.runs[t].g;
    LaunchFollows(w.runs[t], if a.ok then Publishing(g, p) else StoppingNew(g), w.transitions[t]);
    ProvenIsReady(w.transitions[t], t, p, w.log);
    assert w.transitions[t := w.transitions[t]] == w.transitions;
    QuietStep(w, TakeStep(w, t, a), t, if a.ok then Publishing(g, p) else StoppingNew(g));
  }

  lemma {:induction false} StoppingNewKeeps(w: World, t: nat, a: Answer)
    requires Good(w) && RunEnabled(w, t, a) && (w.runs[t].StoppingNew? || w.runs[t].Unregistering?)
    ensures Good(TakeStep(w, t, a))
  {
    hide Good, Blank, RecordInv, Backed, NamesOld, KeepsRestarting, SaysRestarting, ReadyToLaunch, Follows;
    StandsWell(w, t);
    NotBlankStages();
    var v := TakeStep(w, t, a);
    LaunchFollows(w.runs[t], v.runs[t], w.transitions[t]);
    assert w.transitions[t := w.transitions[t]] == w.transitions;
    QuietStep(w, v, t, v.runs[t]);
  }

  // ------------------------------------------------------------ durable writes

  // A record this transition may write: a launch failure only once a stop is proven.
  ghost predicate MayWrite(pc: RunPc, u: Transition, failure: Option<Failure>) {
    u.state == Failed && failure.Some? && failure.value.stage == "launch" ==> ReadyToLaunch(u) && NamesOld(pc)
  }

  lemma {:induction false} WrittenIsSound(
    pc: RunPc, u: Transition, failure: Option<Failure>, a: Answer, t: nat, log: seq<Event>, priorStop: Option<string>)
    requires Accepted(u, failure, a) && MayWrite(pc, u, failure) && !Blank(a.now)
    requires NamesOld(pc) && u.state == Failed ==> Backed(u, t, log, priorStop)
    ensures RecordInv(Some(Written(RecordOf(u, failure), a.now)), log, priorStop)
  {
    WrittenRecordReadsBack(RecordOf(u, failure), a.now);
    hide Validate, StopEvidence, GoodProbe;
  }

  function CutEvent(w: World, t: nat, u: Transition): Option<Event>
    requires t in w.transitions
  {
    if u.prior.Some? && u.cutover && !w.transitions[t].cutover then Some(CutoverEntered(t, u.prior)) else None
  }

  ghost predicate SameTransition(before: Transition, u: Transition) {
    && u.epoch == before.epoch && u.retry == before.retry && u.prior == before.prior && u.stopped == before.stopped
    && u.id == before.id && u.done == before.done && (before.cutover ==> u.cutover)
  }

  // The new position relies on the identity and the record the write leaves behind.
  ghost predicate WriteFollows(from: RunPc, before: Transition, pc: RunPc, u: Transition, accepted: bool) {
    && !from.GivingUp? && !pc.GivingUp? && !pc.Unlocking?
    && (NamesOld(pc) || u.state == Failed ==> u.generationID == before.generationID)
    && (NamesOld(pc) ==> NamesOld(from))
    && (KeepsRestarting(pc, u) ==> if accepted then u.state == Restarting else KeepsRestarting(from, before))
  }

  lemma {:induction false} PutKeeps(w: World, t: nat, u: Transition, failure: Option<Failure>, a: Answer, pc: RunPc)
    requires Good(w) && t in w.runs && t in w.transitions && !Tail(w.runs[t]) && !Blank(a.now)
    requires SameTransition(w.transitions[t], u) && MayWrite(w.runs[t], u, failure)
    requires WriteFollows(w.runs[t], w.transitions[t], pc, u, Accepted(u, failure, a))
    requires u.cutover && !w.transitions[t].cutover ==> u.prior.None? || Locked(w.runs[t])
    requires RunState(pc, u) && (Tail(pc) ==> pc.Completing?) && (!Tail(pc) ==> u.state != Failed)
    requires Locked(pc) == Locked(w.runs[t])
    requires RunChild(pc, u, w.child, w.children)
    requires RunEvidence(pc, u, t, w.log)
    ensures Good(GoTo(Put(w, t, u, failure, a), t, pc))
  {
    hide Good, Blank, RunState, RunChild, RunEvidence, ChildInv, RecordInv, StopEvidence, MayWrite, Accepted, Justified, NamesOld, KeepsRestarting;
    StandsWell(w, t);
    var v := GoTo(Put(w, t, u, failure, a), t, pc);
    var e := CutEvent(w, t, u);
    assert Moved(w, v, t, pc, u, e);
    if Accepted(u, failure, a) {
      WrittenIsSound(w.runs[t], u, failure, a, t, w.log, w.priorStop);
    }
    if e.Some? {
      RecordLonger(v.record, w.log, e.value, w.priorStop);
      if NamesOld(pc) {
        BackedLonger(u, t, w.log, e.value, w.priorStop);
      }
      RunEvidenceLonger(pc, u, t, w.log, e.value);
      CutoverIsJustified(w.log, t, u.prior, w.priorStop);
    }
    RunMoves(w, v, t, pc, u, e);
  }

  lemma {:induction false} CutoverIsJustified(log: seq<Event>, t: nat, prior: Option<Old>, priorStop: Option<string>)
    ensures Justified(log, CutoverEntered(t, prior), priorStop)
  {
  }

  lemma {:induction false} RunEvidenceLonger(pc: RunPc, u: Transition, t: nat, log: seq<Event>, e: Event)
    requires RunEvidence(pc, u, t, log)
    ensures RunEvidence(pc, u, t, log + [e])
  {
    hide ReadyToLaunch, SoundIds, GoodProbe;
  }

  // An accepted first record has identifiers that are not blank, and a retry's probe is sound.
  lemma {:induction false} AcceptedIsSound(u: Transition, a: Answer)
    requires Accepted(u, None, a)
    requires (u.prior.Some? && u.state == Probing) || u.stopped
    requires u.state != Failed
    ensures SoundIds(u) && (u.probe.Some? ==> GoodProbe(u.probe.value))
    ensures u.stopped ==> u.probe.Some? && u.probe.value.success
  {
    assert Blank("");
    hide Blank, GoodProbe;
  }

  lemma {:induction false} FirstWriteKeeps(w: World, t: nat, a: Answer)
    requires Good(w) && RunEnabled(w, t, a) && w.runs[t].FirstWrite?
    ensures Good(TakeStep(w, t, a))
  {
    hide Good, Blank, GoodProbe, ChildInv, RecordInv, StopEvidence, ReadyToLaunch, Accepted;
    StandsWell(w, t);
    var u := w.transitions[t];
    var v := WithState(u, u.state, u.probe);
    if Accepted(v, None, a) {
      AcceptedIsSound(v, a);
      PutKeeps(w, t, v, None, a, Verifying);
    } else {
      RefusalKeeps(w, t, v, if u.prior.Some? && !u.retry then Abandoning else GivingUp);
    }
  }

  // The refused record changes nothing on disk; only the retry stays in the restarting state.
  lemma {:induction false} RefusalKeeps(w: World, t: nat, u: Transition, pc: RunPc)
    requires Good(w) && t in w.runs && t in w.transitions && w.runs[t].FirstWrite?
    requires u == WithState(w.transitions[t], w.transitions[t].state, w.transitions[t].probe)
    requires pc == if u.prior.Some? && !u.retry then Abandoning else GivingUp
    ensures Good(GoTo(w.(transitions := w.transitions[t := u], log := w.log + [FirstWriteRefused(t)]), t, pc))
  {
    hide Good, Blank, GoodProbe, ChildInv, RecordInv, StopEvidence, ReadyToLaunch;
    StandsWell(w, t);
    var e := FirstWriteRefused(t);
    var v := GoTo(w.(transitions := w.transitions[t := u], log := w.log + [e]), t, pc);
    RecordLonger(w.record, w.log, e, w.priorStop);
    assert Moved(w, v, t, pc, u, Some(e));
    RunMoves(w, v, t, pc, u, Some(e));
  }

  lemma {:induction false} EnteringKeeps(w: World, t: nat, a: Answer)
    requires Good(w) && RunEnabled(w, t, a) && w.runs[t].EnteringCutover?
    ensures Good(TakeStep(w, t, a))
  {
    hide Good, Blank, GoodProbe, ChildInv, RecordInv, StopEvidence, ReadyToLaunch, Accepted;
    StandsWell(w, t);
    NotBlankStages();
    var u, p := w.transitions[t], w.runs[t].probe;
    var v := WithState(u, Restarting, Some(p));
    if Accepted(v, None, a) {
      AcceptedProbe(v, a);
      PutKeeps(w, t, v, None, a, if u.prior.Some? then StoppingOld(p) else ReadyToStart(p));
    } else {
      PutKeeps(w, t, v, None, a, Failing("state", true));
    }
  }

  lemma {:induction false} AcceptedProbe(u: Transition, a: Answer)
    requires Accepted(u, None, a) && u.probe.Some?
    ensures GoodProbe(u.probe.value)
  {
    hide Blank;
  }

  lemma {:induction false} OldStoppedKeeps(w: World, t: nat, a: Answer)
    requires Good(w) && RunEnabled(w, t, a) && w.runs[t].OldStopped?
    ensures Good(TakeStep(w, t, a))
  {
    hide Good, Blank, GoodProbe, ChildInv, RecordInv, StopEvidence, ReadyToLaunch, Accepted;
    StandsWell(w, t);
    NotBlankStages();
    var u, p := w.transitions[t], w.runs[t].probe;
    var v := WithState(u, Restarting, Some(p));
    PutKeeps(w, t, v, None, a, if Accepted(v, None, a) then ReleasingOld(p) else Failing("state", true));
  }

  lemma {:induction false} PublishingKeeps(w: World, t: nat, a: Answer)
    requires Good(w) && RunEnabled(w, t, a) && w.runs[t].Publishing?
    ensures Good(TakeStep(w, t, a))
  {
    hide Good, Blank, GoodProbe, ChildInv, RecordInv, StopEvidence, ReadyToLaunch, Accepted, OldStopProven;
    StandsWell(w, t);
    NotBlankStages();
    var u, p := w.transitions[t], w.runs[t].probe;
    var v := WithState(u.(generationID := w.children[w.runs[t].g].generationID), Running, Some(p));
    PutKeeps(w, t, v, None, a, if Accepted(v, None, a) then Completing(false, true) else Failing("state", true));
  }

  lemma {:induction false} FailingProbeKeeps(w: World, t: nat, a: Answer)
    requires Good(w) && RunEnabled(w, t, a) && w.runs[t].FailingProbe?
    ensures Good(TakeStep(w, t, a))
  {
    hide Good, Blank, GoodProbe, ChildInv, RecordInv, StopEvidence, ReadyToLaunch, Accepted;
    StandsWell(w, t);
    NotBlankStages();
    var u, p := w.transitions[t], w.runs[t].probe;
    if u.prior.None? || u.retry {
      OnlyPcMoves(w, t, Failing("probe", false));
    } else {
      PutKeeps(w, t, WithState(u, Running, Some(p)), Some(Failure("probe", a.message)), a, Completing(false, false));
    }
  }

  lemma {:induction false} FailingKeeps(w: World, t: nat, a: Answer)
    requires Good(w) && RunEnabled(w, t, a) && w.runs[t].Failing?
    ensures Good(TakeStep(w, t, a))
  {
    hide Good, Blank, GoodProbe, ChildInv, RecordInv, StopEvidence, Accepted;
    StandsWell(w, t);
    var u := w.transitions[t];
    var Failing(stage, locked) := w.runs[t];
    PutKeeps(w, t, WithState(u, Failed, None), Some(Failure(stage, a.message)), a, Completing(true, locked));
  }

  // ------------------------------------------------------------ the ends

  lemma {:induction false} AbandoningKeeps(w: World, t: nat, a: Answer)
    requires Good(w) && RunEnabled(w, t, a) && w.runs[t].Abandoning?
    ensures Good(TakeStep(w, t, a))
  {
    hide Good, Blank, GoodProbe, ChildInv, RecordInv, StopEvidence;
    StandsWell(w, t);
    var u := w.transitions[t].(state := Running, probe := None);
    var v := TakeStep(w, t, a);
    assert EventMoves(w, t, u, None);
    RunMoves(w, v, t, Completing(false, false), u, None);
  }

  lemma {:induction false} DoneKeepsTransitions(w: World, t: nat, retain: bool, locked: bool)
    requires TransitionsInv(w.transitions, w.runs, w.current, w.epoch)
    requires t in w.runs && w.runs[t] == Completing(retain, locked)
    ensures TransitionsInv(w.transitions[t := w.transitions[t].(done := true)],
                           if locked then w.runs[t := Unlocking] else w.runs - {t},
                           if !retain && w.current == Some(t) then None else w.current, w.epoch)
  {
    hide RunState, ReadyToLaunch;
    var u := w.transitions[t].(done := true);
    CompletingState(w.transitions[t], u, retain, locked);
    assert !retain ==> w.current == Some(t);
  }

  lemma {:induction false} CompletingState(before: Transition, u: Transition, retain: bool, locked: bool)
    requires u == before.(done := true)
    ensures RunState(Completing(retain, locked), before) && retain ==> u.state == Failed
    ensures RunState(Unlocking, u) && Tail(Unlocking)
  {
  }

  // Of a transition that is done, nobody expects anything of the record any more.
  lemma {:induction false} DoneFinishes(w: World, t: nat, runs: map<nat, RunPc>, current: Option<nat>)
    requires FinishInv(w.transitions, w.runs, w.current, w.log) && DurableInv(w.runs, w.transitions, w.record)
    requires t in w.runs && t in w.transitions && (w.runs[t].GivingUp? || w.runs[t].Completing?)
    requires runs == w.runs - {t} || runs == w.runs[t := Unlocking]
    requires current == w.current || current == None
    requires w.runs[t].Completing? && current == Some(t) ==> w.transitions[t].state == Failed
    requires w.runs[t].GivingUp? ==> runs == w.runs - {t}
    ensures FinishInv(w.transitions[t := w.transitions[t].(done := true)], runs, current, w.log)
    ensures DurableInv(runs, w.transitions[t := w.transitions[t].(done := true)], w.record)
  {
    var u := w.transitions[t].(done := true);
    assert !KeepsRestarting(Unlocking, u);
    hide KeepsRestarting;
  }

  lemma {:induction false} GivingUpKeeps(w: World, t: nat, a: Answer)
    requires Good(w) && RunEnabled(w, t, a) && w.runs[t].GivingUp?
    ensures Good(TakeStep(w, t, a))
  {
    hide EpochInv, FinishInv, DurableInv, EvidenceInv, RecordInv, CutInv, InvokesInv, LogGood, ChildInv, StartsInv, RunsChild, TransitionsInv;
    GivenUpTransitions(w, t);
    EpochsStay(w.transitions, w.epoch, t, w.transitions[t].(done := true));
    DoneFinishes(w, t, w.runs - {t}, w.current);
    DoneKeepsRest(w, t, false);
  }

  lemma {:induction false} GivenUpTransitions(w: World, t: nat)
    requires TransitionsInv(w.transitions, w.runs, w.current, w.epoch) && t in w.runs && w.runs[t].GivingUp?
    ensures TransitionsInv(w.transitions[t := w.transitions[t].(done := true)], w.runs - {t}, w.current, w.epoch)
  {
    assert RunState(w.runs[t], w.transitions[t]);
    hide RunState;
  }

  lemma {:induction false} CompletingKeeps(w: World, t: nat, a: Answer)
    requires Good(w) && RunEnabled(w, t, a) && w.runs[t].Completing?
    ensures Good(TakeStep(w, t, a))
  {
    hide EpochInv, FinishInv, DurableInv, EvidenceInv, RecordInv, CutInv, InvokesInv, LogGood, ChildInv, StartsInv, RunsChild, TransitionsInv;
    DoneKeepsTransitions(w, t, w.runs[t].retain, w.runs[t].locked);
    EpochsStay(w.transitions, w.epoch, t, w.transitions[t].(done := true));
    CompletingRetains(w, t);
    DoneFinishes(w, t, if w.runs[t].locked then w.runs[t := Unlocking] else w.runs - {t},
                 if !w.runs[t].retain && w.current == Some(t) then None else w.current);
    DoneKeepsRest(w, t, w.runs[t].locked);
  }

  lemma {:induction false} CompletingRetains(w: World, t: nat)
    requires TransitionsInv(w.transitions, w.runs, w.current, w.epoch) && t in w.runs && w.runs[t].Completing?
    ensures w.runs[t].retain ==> w.transitions[t].state == Failed
  {
    assert RunState(w.runs[t], w.transitions[t]);
    hide RunState;
  }

  lemma {:induction false} DoneKeepsRest(w: World, t: nat, locked: bool)
    requires Good(w) && t in w.runs && t in w.transitions
    ensures var transitions := w.transitions[t := w.transitions[t].(done := true)];
            var runs := if locked then w.runs[t := Unlocking] else w.runs - {t};
            && RunsChild(runs, transitions, w.child, w.children)
            && EvidenceInv(runs, transitions, w.log, w.priorStop)
            && CutInv(transitions, w.log)
            && InvokesInv(w.invokes, transitions, w.log)
  {
    hide EpochInv, FinishInv, DurableInv, RecordInv, LogGood, ChildInv, StartsInv, TransitionsInv, LockInv, ClaimInv;
    hide RunsChild, EvidenceInv, CutInv, InvokesInv;
    DoneKeepsRuns(w, t, if locked then w.runs[t := Unlocking] else w.runs - {t});
    DoneKeepsLog(w, t);
  }

  lemma {:induction false} DoneKeepsRuns(w: World, t: nat, runs: map<nat, RunPc>)
    requires RunsChild(w.runs, w.transitions, w.child, w.children)
    requires EvidenceInv(w.runs, w.transitions, w.log, w.priorStop)
    requires t in w.transitions && (runs == w.runs - {t} || runs == w.runs[t := Unlocking])
    ensures RunsChild(runs, w.transitions[t := w.transitions[t].(done := true)], w.child, w.children)
    ensures EvidenceInv(runs, w.transitions[t := w.transitions[t].(done := true)], w.log, w.priorStop)
  {
    hide RunChild, RunEvidence, Backed;
    TailFacts(w.transitions[t].(done := true), t, w.child, w.children, w.log);
  }

  lemma {:induction false} DoneKeepsLog(w: World, t: nat)
    requires CutInv(w.transitions, w.log) && InvokesInv(w.invokes, w.transitions, w.log) && t in w.transitions
    ensures CutInv(w.transitions[t := w.transitions[t].(done := true)], w.log)
    ensures InvokesInv(w.invokes, w.transitions[t := w.transitions[t].(done := true)], w.log)
  {
    hide InvokeFacts;
    var u := w.transitions[t].(done := true);
    forall i | i in w.invokes
      ensures InvokeFacts(i, w.invokes[i], w.transitions[t := u], w.log)
    {
      InvokeIgnoresMove(i, w.invokes[i], w.transitions, t, u, w.log, false);
    }
  }

  lemma {:induction false} TailFacts(u: Transition, t: nat, child: Option<nat>, children: map<nat, Child>, log: seq<Event>)
    ensures RunChild(Unlocking, u, child, children) && RunEvidence(Unlocking, u, t, log)
  {
  }

  lemma {:induction false} UnlockingKeeps(w: World, t: nat, a: Answer)
    requires Good(w) && RunEnabled(w, t, a) && w.runs[t].Unlocking?
    ensures Good(TakeStep(w, t, a))
  {
    hide RecordInv, CutInv, InvokesInv, LogGood, ChildInv, StartsInv, ClaimInv;
    hide EpochInv, FinishInv, DurableInv, TransitionsInv, RunsChild, EvidenceInv, LockInv;
    UnlockedTransitions(w, t);
    UnlockedFinish(w, t);
    UnlockedRest(w, t);
  }

  lemma {:induction false} UnlockedFinish(w: World, t: nat)
    requires TransitionsInv(w.transitions, w.runs, w.current, w.epoch) && t in w.runs && w.runs[t].Unlocking?
    requires FinishInv(w.transitions, w.runs, w.current, w.log) && DurableInv(w.runs, w.transitions, w.record)
    ensures FinishInv(w.transitions, w.runs - {t}, w.current, w.log)
    ensures DurableInv(w.runs - {t}, w.transitions, w.record)
  {
    hide RunState, KeepsRestarting;
  }

  lemma {:induction false} UnlockedTransitions(w: World, t: nat)
    requires TransitionsInv(w.transitions, w.runs, w.current, w.epoch) && t in w.runs && w.runs[t].Unlocking?
    ensures TransitionsInv(w.transitions, w.runs - {t}, w.current, w.epoch)
  {
    hide RunState;
  }

  lemma {:induction false} UnlockedRest(w: World, t: nat)
    requires LockInv(w.admission, w.runs, w.invokes) && t in w.runs && w.runs[t].Unlocking?
    requires RunsChild(w.runs, w.transitions, w.child, w.children)
    requires EvidenceInv(w.runs, w.transitions, w.log, w.priorStop)
    ensures LockInv(None, w.runs - {t}, w.invokes)
    ensures RunsChild(w.runs - {t}, w.transitions, w.child, w.children)
    ensures EvidenceInv(w.runs - {t}, w.transitions, w.log, w.priorStop)
  {
    hide RunChild, RunEvidence, StopEvidence;
    assert w.admission == Some(Cutover(t));
  }

  lemma {:induction false} TakeStepKeeps(w: World, t: nat, a: Answer)
    requires Good(w) && RunEnabled(w, t, a)
    ensures Good(TakeStep(w, t, a))
  {
    hide Good, TakeStep;
    match w.runs[t] {
      case FirstWrite => FirstWriteKeeps(w, t, a);
      case Abandoning => AbandoningKeeps(w, t, a);
      case GivingUp => GivingUpKeeps(w, t, a);
      case Verifying => VerifyingKeeps(w, t, a);
      case AwaitingAdmission(_) => AwaitingKeeps(w, t, a);
      case EnteringCutover(_) => EnteringKeeps(w, t, a);
      case StoppingOld(_) => StoppingOldKeeps(w, t, a);
      case OldStopped(_) => OldStoppedKeeps(w, t, a);
      case ReleasingOld(_) => ReleasingKeeps(w, t, a);
      case ReadyToStart(_) => LaunchingKeeps(w, t, a);
      case NewPrepared(_, _) => PreparedKeeps(w, t, a);
      case NewBooting(_, _) => BootingKeeps(w, t, a);
      case StoppingNew(_) => StoppingNewKeeps(w, t, a);
      case Unregistering(_) => StoppingNewKeeps(w, t, a);
      case Publishing(_, _) => PublishingKeeps(w, t, a);
      case FailingProbe(_) => FailingProbeKeeps(w, t, a);
      case Failing(_, _) => FailingKeeps(w, t, a);
      case Completing(_, _) => CompletingKeeps(w, t, a);
      case Unlocking => UnlockingKeeps(w, t, a);
    }
  }

  /** Every step of a restart goroutine keeps the invariant. */
  lemma {:induction false} StepRunKeeps(w: World, t: nat, a: Answer)
    requires Good(w) && RunEnabled(w, t, a)
    ensures Good(RunStep(w, t, a))
  {
    hide Good, TakeStep;
    NotedKeeps(w, Took(t, w.runs[t], a));
    StillEnabled(w, t, a, Took(t, w.runs[t], a));
    TakeStepKeeps(Noted(w, Took(t, w.runs[t], a)), t, a);
  }

  lemma {:induction false} StillEnabled(w: World, t: nat, a: Answer, e: Event)
    requires RunEnabled(w, t, a)
    ensures RunEnabled(Noted(w, e), t, a)
  {
    hide Blank, OldIsGone;
  }
}
