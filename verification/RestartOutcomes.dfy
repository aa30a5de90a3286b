/** How restarts end over every run: which finished transitions block the workspace, what a
    refused record leaves behind, and what repeated retries keep. */
module RestartOutcomes {
  import opened Basics
  import opened RestartRecord
  import opened RestartProtocol
  import opened RestartInvariant
  import opened RestartCutover
  import opened RestartTheorems

  // ------------------------------------------------------------ a retry that gets stuck

  // A transition left restarting although nobody runs it any more.
  ghost predicate Stuck(w: World, t: nat) {
    w.current == Some(t) && t in w.transitions && w.transitions[t].state == Restarting && t !in w.runs
  }

  /** When a retry's first record cannot be written, its transition stays behind in the
      restarting state with no goroutine. */
  lemma {:induction false} FailedFirstWriteSticks(w: World, t: nat, a: Answer)
    requires Good(w) && t in w.runs && w.runs[t].FirstWrite? && !Blank(a.message) && !Blank(a.now)
    requires t in w.transitions && w.transitions[t].retry && w.transitions[t].state == Restarting && !a.writeOk
    ensures RunEnabled(w, t, a) && RunEnabled(RunStep(w, t, a), t, a)
    ensures Stuck(RunStep(RunStep(w, t, a), t, a), t)
  {
    hide EpochInv, FinishInv, DurableInv, Validate, ClaimInv, ChildInv, StartsInv, RunsChild, EvidenceInv, RecordInv, LockInv, CutInv, InvokesInv, LogGood, Blank, RunState;
  }

  /** From then on no start, restart or invocation gets the workspace out of it. */
  lemma {:induction false} StuckStays(w: World, t: nat, a: Action)
    requires Good(w) && Stuck(w, t) && Enabled(w, a)
    ensures Stuck(Do(w, a), t)
    ensures !a.BeginStart? && !a.BeginRestart? && !(a.StepRun? && a.t == t)
  {
    hide Good, Do, RunStep, StartStep, InvokeStep, RestartStep;
    if a.StepRun? {
      DoRun(w, a);
      OtherRunsLeaveAlone(w, t, a.t, a.answer);
    } else {
      NoStarts(w, t);
      OthersLeaveAlone(w, t, a);
    }
  }

  lemma {:induction false} NoStarts(w: World, t: nat)
    requires Good(w) && Stuck(w, t)
    ensures w.starts == map[]
  {
    hide EpochInv, FinishInv, DurableInv, ChildInv, StartsInv, RunsChild, EvidenceInv, RecordInv, LockInv, CutInv, InvokesInv, LogGood, TransitionsInv;
  }

  lemma {:induction false} OthersLeaveAlone(w: World, t: nat, a: Action)
    requires Stuck(w, t) && Enabled(w, a) && w.starts == map[] && !a.StepRun?
    ensures Stuck(Do(w, a), t) && !a.BeginStart? && !a.BeginRestart?
  {
    hide RestartStep, StartStep, RunEnabled, InvokeStep;
    if a.StepInvoke? {
      InvokeLeavesAlone(w, a.i, a.status, a.ok, a.gone);
    }
  }

  lemma {:induction false} InvokeLeavesAlone(w: World, i: nat, status: Status, ok: bool, gone: bool)
    requires InvokeEnabled(w, i, ok, gone)
    ensures var v := InvokeStep(w, i, status, ok, gone);
            && v.current == w.current && v.transitions == w.transitions && v.runs == w.runs && v.record == w.record
            && v.children == w.children
  {
    hide TargetOf, BoundaryOf, AtInvoke;
    AtInvokeOnly(w, i);
    AtInvokeOnly(Noted(w, ConnectionLost(i)), i);
    match w.invokes[i] {
      case Arriving =>
      case Holding =>
      case Admitted(_, _, _) =>
      case Sent(_, _, _) =>
      case Awaiting(_, _, _) =>
      case Lost(_, _, _, _) =>
      case WaitingFor(_) =>
    }
  }

  lemma {:induction false} AtInvokeOnly(w: World, i: nat)
    ensures forall pc :: var v := AtInvoke(w, i, pc);
              && v.current == w.current && v.transitions == w.transitions && v.runs == w.runs && v.log == w.log
              && v.record == w.record && v.children == w.children
  {
  }

  lemma {:induction false} DoRun(w: World, a: Action)
    requires a.StepRun? && Enabled(w, a)
    ensures RunEnabled(w, a.t, a.answer) && Do(w, a) == RunStep(w, a.t, a.answer)
  {
    hide RunStep, StartStep, InvokeStep, RestartStep;
  }

  lemma {:induction false} OtherRunsLeaveAlone(w: World, t: nat, s: nat, a: Answer)
    requires Good(w) && Stuck(w, t) && RunEnabled(w, s, a)
    ensures Stuck(RunStep(w, s, a), t)
  {
    hide EpochInv, FinishInv, DurableInv, ChildInv, StartsInv, RunsChild, EvidenceInv, RecordInv, LockInv, CutInv, InvokesInv, LogGood, Blank, RunState;
    assert s in w.runs && s != t;
    assert Tail(w.runs[s]);
  }

  /** In every reachable state the stuck transition is exactly the current, finished retry whose
      first record was refused; there is no other way to get stuck. */
  lemma {:induction false} StuckIff(run: seq<World>, k: nat, t: nat)
    requires IsRun(run) && k < |run|
    ensures Stuck(run[k], t) <==>
            && run[k].current == Some(t) && t in run[k].transitions
            && run[k].transitions[t].done && run[k].transitions[t].retry
            && FirstWriteRefused(t) in run[k].log
  {
    hide IsRun, Good;
    RunStaysGood(run, k);
    StuckHere(run[k], t);
  }

  lemma {:induction false} StuckHere(w: World, t: nat)
    requires Good(w)
    ensures Stuck(w, t) <==>
            && w.current == Some(t) && t in w.transitions && w.transitions[t].done && w.transitions[t].retry
            && FirstWriteRefused(t) in w.log
  {
    hide ClaimInv, EpochInv, DurableInv, ChildInv, StartsInv, RunsChild, EvidenceInv, RecordInv, LockInv, CutInv,
      InvokesInv, LogGood, RunState;
    if t in w.transitions {
      assert FinishFacts(w.transitions[t], PcOf(w.runs, t), w.current == Some(t), FirstWriteRefused(t) in w.log);
    }
  }

  /** So a finished transition has failed, and a new restart may take over from it, exactly when it
      is not a retry whose first record was refused; the restart then always drops it. */
  lemma {:induction false} FinishedIsDroppedIff(
    run: seq<World>, k: nat, t: nat, s: nat, id: string, minted: string, status: Status, readable: bool)
    requires IsRun(run) && k < |run| && run[k].current == Some(t)
    requires t in run[k].transitions && run[k].transitions[t].done
    requires s !in run[k].transitions && !Blank(id) && !Blank(minted)
    ensures var a := BeginRestart(s, id, minted, status, readable);
            var refused := run[k].transitions[t].retry && FirstWriteRefused(t) in run[k].log;
            && (Enabled(run[k], a) <==> !refused) && (run[k].transitions[t].state == Failed <==> !refused)
            && (Enabled(run[k], a) ==> Do(run[k], a).current != Some(t))
  {
    hide IsRun, Good, RestartStep;
    RunStaysGood(run, k);
    FinishedHere(run[k], t, s);
    StuckHere(run[k], t);
    if MayBegin(run[k], s, id, minted) {
      RestartMovesOn(run[k], s, id, minted, status, readable);
    }
  }

  lemma {:induction false} FinishedHere(w: World, t: nat, s: nat)
    requires Good(w) && w.current == Some(t) && t in w.transitions && w.transitions[t].done && s !in w.transitions
    ensures s !in w.runs && w.claim == None
    ensures w.transitions[t].state == Failed || Stuck(w, t)
  {
    hide EpochInv, DurableInv, ChildInv, StartsInv, RunsChild, EvidenceInv, RecordInv, LockInv, CutInv, InvokesInv,
      LogGood, RunState;
    assert FinishFacts(w.transitions[t], PcOf(w.runs, t), w.current == Some(t), FirstWriteRefused(t) in w.log);
  }

  lemma {:induction false} RestartMovesOn(
    w: World, t: nat, id: string, minted: string, status: Status, readable: bool)
    requires MayBegin(w, t, id, minted)
    ensures var v := RestartStep(w, t, id, minted, status, readable); v.current == None || v.current == Some(t)
  {
    hide Choose, Blank;
  }

  // The failed record an earlier Mill might have left.
  function LeftBehind(): Record {
    Record(Failed, "before", "old", "", "", "then", true,
           Some(Probe(true, "probe/complete", "there", "here", "log", [], true)), Some(Failure("launch", "no")))
  }

  function Refusal(): Answer {
    Answer(false, false, None, Probe(false, "", "", "", "", [], true), 0, "", "", "no", "now")
  }

  lemma {:induction false} NothingIsBlank()
    ensures !Blank("before") && !Blank("old") && !Blank("then") && !Blank("no") && !Blank("retry") && !Blank("now")
    ensures !Blank("probe/complete") && !Blank("there") && !Blank("here") && !Blank("log") && Blank("")
  {
    assert !IsSpace("before"[0]) && !IsSpace("old"[0]) && !IsSpace("then"[0]) && !IsSpace("no"[0]);
    assert !IsSpace("probe/complete"[0]) && !IsSpace("there"[0]) && !IsSpace("here"[0]) && !IsSpace("log"[0]);
    assert !IsSpace("retry"[0]) && !IsSpace("now"[0]);
  }

  lemma {:induction false} LeftBehindIsSound()
    ensures SoundRecord(Some(LeftBehind())) && FailedLaunch(LeftBehind())
    ensures !Blank("retry") && !Blank("no") && !Blank("now")
  {
    LaunchIsNotBlank();
    NothingIsBlank();
    hide Blank;
  }

  /** The way there is open: a Mill that finds a failed launch, begins its retry and cannot
      write the first record is stuck. */
  lemma {:induction false} StuckIsReachable() returns (run: seq<World>)
    ensures IsRun(run) && Stuck(run[|run| - 1], 0)
  {
    hide Blank, SoundRecord, Good, Validate;
    LeftBehindIsSound();
    var w0 := Fresh(Some(LeftBehind()));
    var begin := BeginRestart(0, "retry", "retry", Absent, true);
    var w1 := Do(w0, begin);
    assert MayBegin(w0, 0, "retry", "retry") && StepsTo(w0, begin, w1);
    FreshIsGood(w0.record);
    StepKeepsGood(w0, begin);
    FailedFirstWriteSticks(w1, 0, Refusal());
    var w2 := RunStep(w1, 0, Refusal());
    var w3 := RunStep(w2, 0, Refusal());
    assert StepsTo(w1, StepRun(0, Refusal()), w2) && StepsTo(w2, StepRun(0, Refusal()), w3);
    run := [w0, w1, w2, w3];
    assert StepHere(run, 0) && StepHere(run, 1) && StepHere(run, 2);
  }

  // ------------------------------------------------------------ a failure nobody records

  /** After the old generation was stopped, a failure of any stage but the launch is refused by
      the record's own validator: the durable record goes on saying that this very transition is
      restarting, and with no process to be found neither this Mill nor the next one restarts. */
  lemma {:induction false} StoppedFailureIsLost(run: seq<World>, k: nat, t: nat, a: Answer)
    requires IsRun(run) && k < |run| && RunEnabled(run[k], t, a)
    requires run[k].runs[t].Failing? && run[k].runs[t].stage != "launch" && run[k].transitions[t].stopped
    ensures var v := RunStep(run[k], t, a);
            && v.record == run[k].record && SaysRestarting(v.record, run[k].transitions[t])
            && v.transitions[t].state == Failed
            && (!ChildLives(v.child, v.children) ==>
                  forall status: Status, readable, minted :: !status.Published? ==> Choose(v, status, readable, minted) == Refuse)
            && forall status: Status, readable, minted :: !status.Published? ==>
                 Choose(Fresh(v.record), status, readable, minted) == Refuse
  {
    hide IsRun, Good, Blank, GoodProbe;
    RunStaysGood(run, k);
    StandsWell(run[k], t);
    hide Standing, SaysRestarting;
    StageIsRefused(run[k].transitions[t], run[k].runs[t].stage, a);
    SaysSo(run[k], t);
  }

  lemma {:induction false} SaysSo(w: World, t: nat)
    requires Standing(w, t) && w.runs[t].Failing? && w.transitions[t].stopped
    ensures SaysRestarting(w.record, w.transitions[t]) && w.record.Some? && w.record.value.state == Restarting
  {
    hide RunState, RunChild, RunEvidence, ChildInv, RecordInv, Backed;
  }

  lemma {:induction false} StageIsRefused(u: Transition, stage: string, a: Answer)
    requires u.stopped && stage != "launch"
    ensures !Accepted(WithState(u, Failed, None), Some(Failure(stage, a.message)), a)
  {
    hide Blank, GoodProbe;
  }

  // The first write goes through, then the launch source cannot be resolved.
  function Permission(): Answer {
    Refusal().(writeOk := true)
  }

  // From its first write a retry gets to the failing probe stage in three steps.
  lemma {:induction false} ProbeStageFails(w: World, t: nat) returns (w1: World, w2: World, w3: World)
    requires t in w.runs && w.runs[t].FirstWrite? && t in w.transitions && w.transitions[t].retry && w.transitions[t].stopped
    requires w.transitions[t].prior.None?
    requires Accepted(WithState(w.transitions[t], w.transitions[t].state, w.transitions[t].probe), None, Permission())
    ensures StepsTo(w, StepRun(t, Permission()), w1) && StepsTo(w1, StepRun(t, Permission()), w2)
    ensures StepsTo(w2, StepRun(t, Permission()), w3)
    ensures t in w3.runs && w3.runs[t] == Failing("probe", false) && t in w3.transitions && w3.transitions[t].stopped
    ensures w3.child == w.child && w3.children == w.children && RunEnabled(w3, t, Permission())
  {
    NothingIsBlank();
    hide Blank, Accepted, OldIsGone, RecordOf, Written;
    w1 := FirstWriteSucceeds(w, t);
    w2 := RunStep(w1, t, Permission());
    w3 := RunStep(w2, t, Permission());
  }

  lemma {:induction false} FirstWriteSucceeds(w: World, t: nat) returns (v: World)
    requires t in w.runs && w.runs[t].FirstWrite? && t in w.transitions
    requires Accepted(WithState(w.transitions[t], w.transitions[t].state, w.transitions[t].probe), None, Permission())
    ensures StepsTo(w, StepRun(t, Permission()), v)
    ensures v.runs == w.runs[t := Verifying] && t in v.transitions && v.child == w.child && v.children == w.children
    ensures var u := w.transitions[t]; v.transitions[t] == WithState(u, u.state, u.probe)
  {
    NothingIsBlank();
    hide Blank, Accepted, OldIsGone, RecordOf, Written;
    v := RunStep(w, t, Permission());
  }

  lemma {:induction false} RetryBegun() returns (w: World, v: World)
    ensures w == Fresh(Some(LeftBehind())) && StepsTo(w, BeginRestart(0, "retry", "retry", Absent, true), v)
    ensures 0 in v.runs && v.runs[0].FirstWrite? && 0 in v.transitions && v.child == None
    ensures var u := v.transitions[0];
            && u.retry && u.stopped && u.prior.None?
            && Accepted(WithState(u, u.state, u.probe), None, Permission())
  {
    LeftBehindIsSound();
    hide Blank, SoundRecord, Good, Validate, GoodProbe, ReadyToLaunch;
    w := Fresh(Some(LeftBehind()));
    v := RestartStep(w, 0, "retry", "retry", Absent, true);
    FreshIsGood(w.record);
    FailedLaunchIsRetried(w, 0, "retry", "retry");
  }

  /** Such a failure is reachable: a Mill that finds a failed launch, begins its retry, writes the
      first record and cannot resolve the launch source reaches the failing retry-probe stage; its
      record is then lost. */
  lemma {:induction false} LostFailureIsReachable() returns (run: seq<World>)
    ensures IsRun(run)
    ensures var w := run[|run| - 1];
            && RunEnabled(w, 0, Permission())
            && w.runs[0] == Failing("probe", false) && w.transitions[0].stopped && !ChildLives(w.child, w.children)
            && var v := RunStep(w, 0, Permission());
            && v.record == w.record && SaysRestarting(v.record, w.transitions[0]) && v.transitions[0].state == Failed
            && Choose(Fresh(v.record), Absent, true, "") == Refuse
  {
    hide Blank, SoundRecord, Accepted, Fresh, RunStep, RunEnabled, Choose, SaysRestarting, Enabled, Do, LeftBehind, Permission;
    LeftBehindIsSound();
    var w0, w1 := RetryBegun();
    var w2, w3, w4 := ProbeStageFails(w1, 0);
    run := [w0, w1, w2, w3, w4];
    assert StepHere(run, 0) && StepHere(run, 1) && StepHere(run, 2) && StepHere(run, 3);
    StoppedFailureIsLost(run, 4, 0, Permission());
  }

  // ------------------------------------------------------------ what a retry stands on

  // Every launch of this transition replaced the generation of that name.
  ghost predicate KeepsName(w: World, t: nat, generationID: string) {
    && t in w.transitions
    && (t in w.runs && NamesOld(w.runs[t]) ==> w.transitions[t].generationID == generationID)
    && forall e :: e in w.log && e.ReplacementStarted? && e.t == t ==> e.stopped == generationID
  }

  ghost predicate StartsKnown(w: World) {
    forall e :: e in w.log && e.ReplacementStarted? ==> e.t in w.transitions
  }

  // What one action may do to a transition that exists already.
  ghost predicate Undisturbed(w: World, v: World, t: nat)
    requires t in w.transitions
  {
    && t in v.transitions && v.transitions[t].prior == w.transitions[t].prior
    && (t in v.runs && NamesOld(v.runs[t]) ==>
          t in w.runs && NamesOld(w.runs[t]) && v.transitions[t].generationID == w.transitions[t].generationID)
    && forall e :: e in v.log && e.ReplacementStarted? && e.t == t ==>
         e in w.log || (t in w.runs && w.runs[t].NewPrepared? && e.stopped == w.transitions[t].generationID)
  }

  lemma {:induction false} NobodyDisturbs(w: World, a: Action, t: nat)
    requires Enabled(w, a) && t in w.transitions
    ensures Undisturbed(w, Do(w, a), t)
  {
    hide RunStep, StartStep, InvokeStep, RestartStep, RunEnabled, NamesOld, Undisturbed;
    match a {
      case StepRun(s, answer) => RunDisturbsNot(w, s, answer, t);
      case StepStart(s, answer) => StartDisturbsNot(w, s, answer, t);
      case StepInvoke(i, status, ok, gone) => InvokeDisturbsNot(w, i, status, ok, gone, t);
      case BeginRestart(s, id, minted, status, readable) => RestartDisturbsNot(w, s, id, minted, status, readable, t);
      case _ => QuietActions(w, a, t);
    }
  }

  lemma {:induction false} QuietActions(w: World, a: Action, t: nat)
    requires Enabled(w, a) && t in w.transitions && (a.Die? || a.BeginStart? || a.SignalOld? || a.Arrive?)
    ensures Undisturbed(w, Do(w, a), t)
  {
    hide NamesOld;
  }

  lemma {:induction false} StartDisturbsNot(w: World, s: nat, a: Answer, t: nat)
    requires StartEnabled(w, s, a) && t in w.transitions
    ensures Undisturbed(w, StartStep(w, s, a), t)
  {
    hide NamesOld;
  }

  lemma {:induction false} InvokeDisturbsNot(w: World, i: nat, status: Status, ok: bool, gone: bool, t: nat)
    requires InvokeEnabled(w, i, ok, gone) && t in w.transitions
    ensures Undisturbed(w, InvokeStep(w, i, status, ok, gone), t)
  {
    hide NamesOld, InvokeStep;
    InvokeLeavesAlone(w, i, status, ok, gone);
    forall e | e in InvokeStep(w, i, status, ok, gone).log && e.ReplacementStarted?
      ensures e in w.log
    {
      InvokeLaunches(w, i, status, ok, gone, e);
    }
  }

  lemma {:induction false} RestartDisturbsNot(
    w: World, s: nat, id: string, minted: string, status: Status, readable: bool, t: nat)
    requires MayBegin(w, s, id, minted) && t in w.transitions
    ensures Undisturbed(w, RestartStep(w, s, id, minted, status, readable), t)
  {
    hide NamesOld, Choose, Blank;
  }

  // A step of one transition leaves the others alone, and only from one position launches.
  ghost predicate OwnStep(w: World, v: World, s: nat, e: Event) {
    && s in w.runs && s in w.transitions && s in v.transitions
    && v.transitions == w.transitions[s := v.transitions[s]] && v.transitions[s].prior == w.transitions[s].prior
    && (s in v.runs ==> v.runs == w.runs[s := v.runs[s]]) && (s !in v.runs ==> v.runs == w.runs - {s})
    && (s in v.runs && NamesOld(v.runs[s]) ==>
          NamesOld(w.runs[s]) && v.transitions[s].generationID == w.transitions[s].generationID)
    && (e.ReplacementStarted? && e in v.log ==>
          e in w.log || (e.t == s && w.runs[s].NewPrepared? && e.stopped == w.transitions[s].generationID))
    && (Quiet(w.runs[s]) ==>
          v.record == w.record && v.transitions[s].probe == w.transitions[s].probe
          && v.transitions[s].generationID == w.transitions[s].generationID)
  }

  predicate Quiet(pc: RunPc) {
    !pc.FirstWrite? && !Writes(pc) && !pc.Abandoning?
  }

  lemma {:induction false} RunDisturbsNot(w: World, s: nat, a: Answer, t: nat)
    requires RunEnabled(w, s, a) && t in w.transitions
    ensures Undisturbed(w, RunStep(w, s, a), t)
  {
    hide RunStep, RunEnabled, NamesOld;
    var v := RunStep(w, s, a);
    RunStaysOwn(w, s, a, FirstWriteRefused(s));
    forall e | e in v.log && e.ReplacementStarted?
      ensures e in w.log || (e.t == s && w.runs[s].NewPrepared? && e.stopped == w.transitions[s].generationID)
    {
      RunStaysOwn(w, s, a, e);
    }
  }

  predicate Writes(pc: RunPc) {
    pc.EnteringCutover? || pc.OldStopped? || pc.Publishing? || pc.FailingProbe? || pc.Failing?
  }

  lemma {:induction false} RunStaysOwn(w: World, s: nat, a: Answer, e: Event)
    requires RunEnabled(w, s, a)
    ensures OwnStep(w, RunStep(w, s, a), s, e)
  {
    hide RunStep, OwnStep;
    match w.runs[s] {
      case FirstWrite => FirstIsOwn(w, s, a, e);
      case EnteringCutover(_) => CutoverIsOwn(w, s, a, e);
      case OldStopped(_) => CutoverIsOwn(w, s, a, e);
      case Publishing(_, _) => PublishingIsOwn(w, s, a, e);
      case FailingProbe(_) => FailureIsOwn(w, s, a, e);
      case Failing(_, _) => FailureIsOwn(w, s, a, e);
      case Completing(_, _) => EndIsOwn(w, s, a, e);
      case Unlocking => EndIsOwn(w, s, a, e);
      case Abandoning => AbandonIsOwn(w, s, a, e);
      case GivingUp => AbandonIsOwn(w, s, a, e);
      case _ =>
        if Launches(w.runs[s]) {
          LaunchIsOwn(w, s, a, e);
        } else {
          RestIsOwn(w, s, a, e);
        }
    }
  }

  lemma {:induction false} FirstIsOwn(w: World, s: nat, a: Answer, e: Event)
    requires RunEnabled(w, s, a) && w.runs[s].FirstWrite?
    ensures OwnStep(w, RunStep(w, s, a), s, e)
  {
    hide Validate, Blank, Accepted, RecordOf;
  }

  lemma {:induction false} CutoverIsOwn(w: World, s: nat, a: Answer, e: Event)
    requires RunEnabled(w, s, a) && (w.runs[s].EnteringCutover? || w.runs[s].OldStopped?)
    ensures OwnStep(w, RunStep(w, s, a), s, e)
  {
    hide Blank, Accepted, RecordOf;
  }

  lemma {:induction false} PublishingIsOwn(w: World, s: nat, a: Answer, e: Event)
    requires RunEnabled(w, s, a) && w.runs[s].Publishing?
    ensures OwnStep(w, RunStep(w, s, a), s, e)
  {
    hide Blank, Accepted, RecordOf;
  }

  lemma {:induction false} FailureIsOwn(w: World, s: nat, a: Answer, e: Event)
    requires RunEnabled(w, s, a) && (w.runs[s].FailingProbe? || w.runs[s].Failing?)
    ensures OwnStep(w, RunStep(w, s, a), s, e)
  {
    hide Blank, Accepted, RecordOf;
  }

  lemma {:induction false} LaunchIsOwn(w: World, s: nat, a: Answer, e: Event)
    requires RunEnabled(w, s, a) && Launches(w.runs[s]) && !w.runs[s].Publishing?
    ensures OwnStep(w, RunStep(w, s, a), s, e)
  {
    hide Blank, Put;
    assert w.transitions[s := w.transitions[s]] == w.transitions;
  }

  lemma {:induction false} EndIsOwn(w: World, s: nat, a: Answer, e: Event)
    requires RunEnabled(w, s, a) && (w.runs[s].Completing? || w.runs[s].Unlocking?)
    ensures OwnStep(w, RunStep(w, s, a), s, e)
  {
    hide Blank, Put, Launches;
    assert w.transitions[s := w.transitions[s]] == w.transitions;
  }

  lemma {:induction false} AbandonIsOwn(w: World, s: nat, a: Answer, e: Event)
    requires RunEnabled(w, s, a) && (w.runs[s].Abandoning? || w.runs[s].GivingUp?)
    ensures OwnStep(w, RunStep(w, s, a), s, e)
  {
    hide Blank, Put, Launches;
  }

  lemma {:induction false} RestIsOwn(w: World, s: nat, a: Answer, e: Event)
    requires RunEnabled(w, s, a) && (w.runs[s].Verifying? || w.runs[s].AwaitingAdmission? || w.runs[s].StoppingOld?
                                     || w.runs[s].ReleasingOld?)
    ensures OwnStep(w, RunStep(w, s, a), s, e)
  {
    hide Blank, Put, OldIsGone;
    assert w.transitions[s := w.transitions[s]] == w.transitions;
  }

  lemma {:induction false} NameIsKept(w: World, a: Action, t: nat, generationID: string)
    requires KeepsName(w, t, generationID) && Enabled(w, a)
    ensures KeepsName(Do(w, a), t, generationID)
  {
    hide Do, Enabled;
    NobodyDisturbs(w, a, t);
  }

  lemma {:induction false} StartsStayKnown(w: World, a: Action)
    requires StartsKnown(w) && Enabled(w, a)
    ensures StartsKnown(Do(w, a))
  {
    hide Do, Enabled;
    forall e | e in Do(w, a).log && e.ReplacementStarted?
      ensures e.t in Do(w, a).transitions
    {
      LaunchIsKnown(w, a, e);
      NobodyDisturbs(w, a, e.t);
    }
  }

  lemma {:induction false} LaunchIsKnown(w: World, a: Action, e: Event)
    requires StartsKnown(w) && Enabled(w, a) && e in Do(w, a).log && e.ReplacementStarted?
    ensures e.t in w.transitions
  {
    hide RunStep, StartStep, InvokeStep, RestartStep, RunEnabled;
    match a {
      case StepRun(s, answer) => RunStaysOwn(w, s, answer, e);
      case StepStart(s, answer) => StartLaunches(w, s, answer, e);
      case StepInvoke(i, status, ok, gone) => InvokeLaunches(w, i, status, ok, gone, e);
      case BeginRestart(s, id, minted, status, readable) => RestartLaunches(w, s, id, minted, status, readable, e);
      case _ =>
    }
  }

  lemma {:induction false} StartLaunches(w: World, s: nat, a: Answer, e: Event)
    requires StartEnabled(w, s, a) && e in StartStep(w, s, a).log && e.ReplacementStarted?
    ensures e in w.log
  {
  }

  lemma {:induction false} InvokeLaunches(w: World, i: nat, status: Status, ok: bool, gone: bool, e: Event)
    requires InvokeEnabled(w, i, ok, gone) && e in InvokeStep(w, i, status, ok, gone).log && e.ReplacementStarted?
    ensures e in w.log
  {
    hide TargetOf, BoundaryOf, AtInvoke;
    AtInvokeOnly(w, i);
    AtInvokeOnly(Noted(w, ConnectionLost(i)), i);
    match w.invokes[i] {
      case Arriving =>
      case Holding =>
      case Admitted(_, _, _) =>
      case Sent(_, _, _) =>
      case Awaiting(_, _, _) =>
      case Lost(_, _, _, _) =>
      case WaitingFor(_) =>
    }
  }

  lemma {:induction false} RestartLaunches(
    w: World, s: nat, id: string, minted: string, status: Status, readable: bool, e: Event)
    requires MayBegin(w, s, id, minted) && e in RestartStep(w, s, id, minted, status, readable).log
    ensures e in w.log
  {
    hide Choose, Blank;
  }

  lemma {:induction false} RunKnowsStarts(run: seq<World>, i: nat)
    requires IsRun(run) && i < |run|
    ensures StartsKnown(run[i])
  {
    hide Enabled, Do, SoundRecord;
    if i > 0 {
      hide StartsKnown, Fresh;
      RunKnowsStarts(run, i - 1);
      assert StepHere(run, i - 1);
      var a :| StepsTo(run[i - 1], a, run[i]);
      StartsStayKnown(run[i - 1], a);
    }
  }

  lemma {:induction false} NameIsKeptAlong(run: seq<World>, i: nat, k: nat, t: nat, generationID: string)
    requires IsRun(run) && i <= k < |run| && KeepsName(run[i], t, generationID)
    ensures KeepsName(run[k], t, generationID)
  {
    hide Enabled, Do, SoundRecord, Fresh, KeepsName;
    if i < k {
      NameIsKeptAlong(run, i, k - 1, t, generationID);
      assert StepHere(run, k - 1);
      var a :| StepsTo(run[k - 1], a, run[k]);
      NameIsKept(run[k - 1], a, t, generationID);
    }
  }

  /** Whatever a retry launches, however much later, replaces the very generation the failed
      record named when the retry began, and that generation was confirmed gone before. */
  lemma {:induction false} RetryReplacesItsRecord(run: seq<World>, i: nat, k: nat, t: nat, a: Action, j: nat)
    requires IsRun(run) && i < k < |run| && j < |run[k].log|
    requires a.BeginRestart? && a.t == t && StepsTo(run[i], a, run[i + 1])
    requires t in run[i + 1].transitions && run[i + 1].transitions[t].retry
    requires run[k].log[j].ReplacementStarted? && run[k].log[j].t == t
    ensures run[i].record.Some? && Resumable(run[i].record.value)
    ensures run[k].log[j].stopped == run[i].record.value.generationID
    ensures StopEvidence(run[k].log[..j], run[k].priorStop, run[i].record.value.generationID)
  {
    hide IsRun, Good, StopEvidence;
    RunStaysGood(run, i);
    RunKnowsStarts(run, i);
    RetryBegins(run[i], t, a.id, a.minted, a.status, a.readable);
    hide StepsTo, RestartStep;
    NameIsKeptAlong(run, i + 1, k, t, run[i].record.value.generationID);
    assert run[k].log[j] in run[k].log;
    CutoverIsOrdered(run, k, j);
  }

  lemma {:induction false} RetryBegins(w: World, t: nat, id: string, minted: string, status: Status, readable: bool)
    requires Good(w) && StartsKnown(w) && MayBegin(w, t, id, minted)
    requires var v := RestartStep(w, t, id, minted, status, readable); t in v.transitions && v.transitions[t].retry
    ensures w.record.Some? && Resumable(w.record.value)
    ensures KeepsName(RestartStep(w, t, id, minted, status, readable), t, w.record.value.generationID)
  {
    hide EpochInv, ClaimInv, ChildInv, StartsInv, FinishInv, DurableInv, TransitionsInv, RunsChild, EvidenceInv, LockInv,
      CutInv, InvokesInv, LogGood, StopEvidence, Validate, Blank;
  }

  // ------------------------------------------------------------ one retry after another

  ghost predicate SameEvidence(u: Transition, probe: Probe, generationID: string) {
    u.probe == Some(probe) && u.generationID == generationID
  }

  ghost predicate RecordCarries(record: Option<Record>, probe: Probe, generationID: string) {
    && record.Some? && record.value.probe == Some(probe) && record.value.generationID == generationID
    && record.value.oldStopped && (record.value.state == Restarting || FailedLaunch(record.value))
  }

  // The record and every transition at work stand on the same evidence.
  ghost predicate Carries(w: World, probe: Probe, generationID: string) {
    && RecordCarries(w.record, probe, generationID)
    && forall t :: t in w.runs && t in w.transitions && !Tail(w.runs[t]) ==>
                     SameEvidence(w.transitions[t], probe, generationID)
  }

  // Whoever is at work retries a failed launch, and nobody has got to publishing.
  ghost predicate OnlyRetries(w: World) {
    forall t :: t in w.runs && t in w.transitions ==> RetryAtWork(w.runs[t], w.transitions[t])
  }

  predicate RetryAtWork(pc: RunPc, u: Transition) {
    !pc.Publishing? && (Tail(pc) || u.retry)
  }

  lemma {:induction false} RetryStepCarries(w: World, t: nat, a: Answer, probe: Probe, generationID: string)
    requires Standing(w, t) && RunEnabled(w, t, a) && !Tail(w.runs[t])
    requires w.transitions[t].retry && !w.runs[t].Publishing?
    requires RecordCarries(w.record, probe, generationID) && SameEvidence(w.transitions[t], probe, generationID)
    ensures var v := RunStep(w, t, a);
            && RecordCarries(v.record, probe, generationID) && t in v.transitions
            && SameEvidence(v.transitions[t], probe, generationID)
  {
    hide Standing, RunStep, RecordCarries;
    if Quiet(w.runs[t]) {
      RunStaysOwn(w, t, a, FirstWriteRefused(t));
    } else {
      RetryAt(w, t);
      RetryWriteCarries(w, t, a, probe, generationID);
    }
  }

  lemma {:induction false} RetryAt(w: World, t: nat)
    requires Standing(w, t) && w.transitions[t].retry && !w.runs[t].Publishing? && !Quiet(w.runs[t])
    ensures w.runs[t].FirstWrite? || w.runs[t].EnteringCutover? || w.runs[t].FailingProbe? || w.runs[t].Failing?
    ensures w.runs[t].FirstWrite? ==> w.transitions[t].state == Restarting
    ensures w.runs[t].EnteringCutover? ==> w.transitions[t].probe == Some(w.runs[t].probe)
    ensures w.transitions[t].stopped && w.transitions[t].prior.None?
  {
    hide RunChild, ChildInv, RecordInv, Backed, SaysRestarting, Blank, ReadyToLaunch, GoodProbe, KeepsRestarting;
  }

  lemma {:induction false} RetryWriteCarries(w: World, t: nat, a: Answer, probe: Probe, generationID: string)
    requires RunEnabled(w, t, a)
    requires w.runs[t].FirstWrite? || w.runs[t].EnteringCutover? || w.runs[t].FailingProbe? || w.runs[t].Failing?
    requires w.runs[t].FirstWrite? ==> w.transitions[t].state == Restarting
    requires w.runs[t].EnteringCutover? ==> w.transitions[t].probe == Some(w.runs[t].probe)
    requires w.transitions[t].stopped && w.transitions[t].prior.None?
    requires RecordCarries(w.record, probe, generationID) && SameEvidence(w.transitions[t], probe, generationID)
    ensures var v := RunStep(w, t, a);
            && RecordCarries(v.record, probe, generationID) && t in v.transitions
            && SameEvidence(v.transitions[t], probe, generationID)
  {
    hide Accepted, Blank;
    var u := w.transitions[t];
    if w.runs[t].Failing? {
      var stage := w.runs[t].stage;
      if Accepted(WithState(u, Failed, None), Some(Failure(stage, a.message)), a) {
        OnlyLaunchFails(u, stage, a);
      }
    }
  }

  lemma {:induction false} OnlyLaunchFails(u: Transition, stage: string, a: Answer)
    requires u.stopped && Accepted(WithState(u, Failed, None), Some(Failure(stage, a.message)), a)
    ensures stage == "launch"
  {
    hide Blank, GoodProbe;
  }

  lemma {:induction false} ActionCarries(w: World, a: Action, probe: Probe, generationID: string)
    requires Good(w) && Enabled(w, a) && OnlyRetries(w) && OnlyRetries(Do(w, a)) && Carries(w, probe, generationID)
    ensures Carries(Do(w, a), probe, generationID)
  {
    hide Good, RecordCarries, SameEvidence, RunStep, StartStep, InvokeStep, RestartStep, RunEnabled, Tail;
    match a {
      case StepRun(t, answer) => RunCarries(w, t, answer, probe, generationID);
      case StepStart(s, answer) => StartCarries(w, s, answer);
      case StepInvoke(i, status, ok, gone) => InvokeLeavesAlone(w, i, status, ok, gone);
      case BeginRestart(t, id, minted, status, readable) =>
        RestartCarries(w, t, id, minted, status, readable, probe, generationID);
      case _ =>
    }
  }

  lemma {:induction false} StartCarries(w: World, s: nat, a: Answer)
    requires StartEnabled(w, s, a)
    ensures var v := StartStep(w, s, a); v.record == w.record && v.runs == w.runs && v.transitions == w.transitions
  {
    hide WithPhase, Released, ChildLives;
    match w.starts[s] {
      case Claimed =>
      case Prepared(_) =>
      case Booting(_) =>
      case Discarding(_) =>
      case Leaving =>
    }
  }

  lemma {:induction false} RunCarries(w: World, t: nat, a: Answer, probe: Probe, generationID: string)
    requires Good(w) && RunEnabled(w, t, a) && OnlyRetries(w) && Carries(w, probe, generationID)
    ensures Carries(RunStep(w, t, a), probe, generationID)
  {
    hide Good, RunEnabled, RunStep, RecordCarries, SameEvidence;
    RunStaysOwn(w, t, a, FirstWriteRefused(t));
    if Tail(w.runs[t]) {
      TailEnds(w, t, a);
    } else {
      StandsWell(w, t);
      RetryStepCarries(w, t, a, probe, generationID);
    }
    hide NamesOld, Quiet, Writes, Tail, Standing;
  }

  lemma {:induction false} TailEnds(w: World, t: nat, a: Answer)
    requires RunEnabled(w, t, a) && Tail(w.runs[t])
    ensures Quiet(w.runs[t])
    ensures t in RunStep(w, t, a).runs ==> Tail(RunStep(w, t, a).runs[t])
  {
    hide Put;
  }

  lemma {:induction false} RestartCarries(
    w: World, t: nat, id: string, minted: string, status: Status, readable: bool, probe: Probe, generationID: string)
    requires MayBegin(w, t, id, minted) && Carries(w, probe, generationID)
    requires OnlyRetries(RestartStep(w, t, id, minted, status, readable))
    ensures Carries(RestartStep(w, t, id, minted, status, readable), probe, generationID)
  {
    hide Blank, Tail, Choose, RecordCarries;
    RetriesTheRecord(w, status, readable, minted);
    var v := RestartStep(w, t, id, minted, status, readable);
    match Choose(w, status, readable, minted) {
      case Refuse =>
      case Replace(_) => assert RetryAtWork(v.runs[t], v.transitions[t]);
      case Retry(r) => RetryIsSame(r, id, w.epoch + 1, probe, generationID);
    }
  }

  lemma {:induction false} RetriesTheRecord(w: World, status: Status, readable: bool, minted: string)
    ensures Choose(w, status, readable, minted).Retry? ==> w.record == Some(Choose(w, status, readable, minted).record)
  {
    hide Retryable;
  }

  lemma {:induction false} RetryIsSame(r: Record, id: string, epoch: nat, probe: Probe, generationID: string)
    requires RecordCarries(Some(r), probe, generationID)
    ensures SameEvidence(RetryOf(r, id, epoch), probe, generationID)
  {
  }

  /** However often the launch of a stopped generation is retried, while nothing but retries is at
      work and none has got to publishing, the durable record keeps the probe result and the
      generation of the first failure, and says restarting or failed at the launch. */
  lemma {:induction false} RetriesKeepTheRecord(run: seq<World>, i: nat, k: nat, probe: Probe, generationID: string)
    requires IsRun(run) && i <= k < |run|
    requires run[i].record.Some? && Retryable(run[i].record.value)
    requires run[i].record.value.probe == Some(probe) && run[i].record.value.generationID == generationID
    requires forall t :: t in run[i].runs ==> Tail(run[i].runs[t])
    requires forall j :: i <= j <= k ==> OnlyRetries(run[j])
    ensures Carries(run[k], probe, generationID)
  {
    hide Enabled, Do, SoundRecord, Fresh, Good, OnlyRetries;
    if i < k {
      RetriesKeepTheRecord(run, i, k - 1, probe, generationID);
      RunStaysGood(run, k - 1);
      assert StepHere(run, k - 1);
      var a :| StepsTo(run[k - 1], a, run[k]);
      ActionCarries(run[k - 1], a, probe, generationID);
    }
  }
}
