/** What restarts and invocations can reach: every restart that begins with sound identifiers can
    bring its replacement up, and an interrupted invocation can be answered as restarted. */
module RestartReach {
  import opened Basics
  import opened RestartRecord
  import opened RestartProtocol
  import opened RestartInvariant
  import opened RestartCutover
  import opened RestartTheorems
  import opened RestartOutcomes
  import opened RestartAnswers
  import opened RestartEnds

  // ------------------------------------------------------------ a transition takes few steps

  function Remaining(pc: RunPc): nat {
    match pc
    case FirstWrite => 16
    case Verifying => 15
    case AwaitingAdmission(_) => 14
    case EnteringCutover(_) => 13
    case StoppingOld(_) => 12
    case OldStopped(_) => 11
    case ReleasingOld(_) => 10
    case ReadyToStart(_) => 9
    case NewPrepared(_, _) => 8
    case NewBooting(_, _) => 7
    case StoppingNew(_) => 6
    case Unregistering(_) => 5
    case Publishing(_, _) => 4
    case FailingProbe(_) => 4
    case Failing(_, _) => 3
    case Abandoning => 2
    case GivingUp => 2
    case Completing(_, _) => 1
    case Unlocking => 0
  }

  // The step advances the transition, or ends it.
  ghost predicate Advances(w: World, v: World, t: nat)
    requires t in w.runs
  {
    t in v.runs ==> Remaining(v.runs[t]) < Remaining(w.runs[t])
  }

  lemma {:induction false} WritesAdvance(w: World, t: nat, a: Answer)
    requires RunEnabled(w, t, a) && (w.runs[t].FirstWrite? || w.runs[t].EnteringCutover? || w.runs[t].OldStopped?)
    ensures Advances(w, RunStep(w, t, a), t)
  {
    hide Blank, Accepted, RecordOf;
  }

  lemma {:induction false} OutcomesAdvance(w: World, t: nat, a: Answer)
    requires RunEnabled(w, t, a) && (w.runs[t].Publishing? || w.runs[t].FailingProbe? || w.runs[t].Failing?)
    ensures Advances(w, RunStep(w, t, a), t)
  {
    hide Blank, Accepted, RecordOf;
  }

  lemma {:induction false} EarlyAdvance(w: World, t: nat, a: Answer)
    requires RunEnabled(w, t, a)
    requires w.runs[t].Abandoning? || w.runs[t].GivingUp? || w.runs[t].Verifying? || w.runs[t].AwaitingAdmission?
    ensures Advances(w, RunStep(w, t, a), t)
  {
    hide Blank, Put, OldIsGone;
  }

  lemma {:induction false} StopsAdvance(w: World, t: nat, a: Answer)
    requires RunEnabled(w, t, a)
    requires w.runs[t].StoppingOld? || w.runs[t].ReleasingOld? || w.runs[t].Completing? || w.runs[t].Unlocking?
    ensures Advances(w, RunStep(w, t, a), t)
  {
    hide Blank, Put, OldIsGone;
  }

  lemma {:induction false} LaunchesAdvance(w: World, t: nat, a: Answer)
    requires RunEnabled(w, t, a)
    requires || w.runs[t].ReadyToStart? || w.runs[t].NewPrepared? || w.runs[t].NewBooting? || w.runs[t].StoppingNew?
             || w.runs[t].Unregistering?
    ensures Advances(w, RunStep(w, t, a), t)
  {
    hide Blank, Put, OldIsGone;
  }

  /** Every step of a transition advances it, whatever it is answered: a transition is over after at
      most seventeen of its own steps. */
  lemma {:induction false} EveryStepAdvances(w: World, t: nat, a: Answer)
    requires RunEnabled(w, t, a)
    ensures t in w.runs && Advances(w, RunStep(w, t, a), t) && Remaining(w.runs[t]) <= 16
  {
    IsRunning(w, t, a);
    hide RunStep, RunEnabled, Advances;
    match w.runs[t] {
      case FirstWrite => WritesAdvance(w, t, a);
      case EnteringCutover(_) => WritesAdvance(w, t, a);
      case OldStopped(_) => WritesAdvance(w, t, a);
      case Publishing(_, _) => OutcomesAdvance(w, t, a);
      case FailingProbe(_) => OutcomesAdvance(w, t, a);
      case Failing(_, _) => OutcomesAdvance(w, t, a);
      case Abandoning => EarlyAdvance(w, t, a);
      case GivingUp => EarlyAdvance(w, t, a);
      case Verifying => EarlyAdvance(w, t, a);
      case AwaitingAdmission(_) => EarlyAdvance(w, t, a);
      case StoppingOld(_) => StopsAdvance(w, t, a);
      case ReleasingOld(_) => StopsAdvance(w, t, a);
      case Completing(_, _) => StopsAdvance(w, t, a);
      case Unlocking => StopsAdvance(w, t, a);
      case ReadyToStart(_) => LaunchesAdvance(w, t, a);
      case NewPrepared(_, _) => LaunchesAdvance(w, t, a);
      case NewBooting(_, _) => LaunchesAdvance(w, t, a);
      case StoppingNew(_) => LaunchesAdvance(w, t, a);
      case Unregistering(_) => LaunchesAdvance(w, t, a);
    }
  }

  lemma {:induction false} IsRunning(w: World, t: nat, a: Answer)
    requires RunEnabled(w, t, a)
    ensures t in w.runs && t in w.transitions
  {
    hide Blank, OldIsGone;
  }

  // ------------------------------------------------------------ every answer is yes

  function SoundProbe(): Probe {
    Probe(true, "probe/complete", "there", "here", "log", [], true)
  }

  function Yes(g: nat): Answer {
    Answer(true, true, Some(SoundProbe()), Probe(false, "", "", "", "", [], true), g, "weaver", "generation", "no", "now")
  }

  function ProbeAt(pc: RunPc): Option<Probe> {
    match pc
    case AwaitingAdmission(p) => Some(p)
    case EnteringCutover(p) => Some(p)
    case StoppingOld(p) => Some(p)
    case OldStopped(p) => Some(p)
    case ReleasingOld(p) => Some(p)
    case ReadyToStart(p) => Some(p)
    case NewPrepared(_, p) => Some(p)
    case NewBooting(_, p) => Some(p)
    case _ => None
  }

  // Nothing was refused, and nothing need be.
  ghost predicate Promising(w: World, t: nat) {
    && t in w.runs && t in w.transitions
    && FirstWriteRefused(t) !in w.log && NothingRefused(w.log, t, w.transitions[t].retry)
    && (w.runs[t].FirstWrite? ==> SoundIds(w.transitions[t]))
    && (w.transitions[t].retry && (w.runs[t].FirstWrite? || w.runs[t].Verifying?) ==>
          w.transitions[t].probe.Some? && GoodProbe(w.transitions[t].probe.value))
    && (ProbeAt(w.runs[t]).Some? ==> GoodProbe(ProbeAt(w.runs[t]).value))
    && (Locked(w.runs[t]) || w.admission == None)
  }

  lemma {:induction false} YesRefusesNothing(w: World, t: nat, g: nat, stage: string)
    requires Promising(w, t)
    ensures !Refuses(w.transitions[t].retry, w.runs[t], Yes(g), stage)
  {
    assert !IsSpace("generation"[0]);
    hide GoodProbe, NothingRefused, SoundIds;
  }

  lemma {:induction false} YesIsSound()
    ensures GoodProbe(SoundProbe()) && forall g :: !Blank(Yes(g).message) && !Blank(Yes(g).now)
  {
    NothingIsBlank();
    hide Blank;
  }

  // What a step leaves of the promise besides the history.
  ghost predicate KeepsPromise(w: World, v: World, t: nat)
    requires t in w.runs && t in w.transitions
  {
    && t in v.transitions && v.transitions[t].retry == w.transitions[t].retry
    && v.transitions[t].prior == w.transitions[t].prior
    && (t in v.runs ==>
          && (v.runs[t].Verifying? ==> w.runs[t].FirstWrite? && v.transitions[t].probe == w.transitions[t].probe)
          && (ProbeAt(v.runs[t]).Some? ==>
                if w.runs[t].Verifying? then
                  ProbeAt(v.runs[t]) == if w.transitions[t].retry then w.transitions[t].probe else Some(SoundProbe())
                else ProbeAt(v.runs[t]) == ProbeAt(w.runs[t]))
          && (!Locked(v.runs[t]) ==> !Locked(w.runs[t]) && v.admission == w.admission))
  }

  lemma {:induction false} WritesKeepPromise(w: World, t: nat, g: nat)
    requires RunEnabled(w, t, Yes(g)) && (w.runs[t].FirstWrite? || w.runs[t].EnteringCutover? || w.runs[t].OldStopped?)
    ensures KeepsPromise(w, RunStep(w, t, Yes(g)), t)
  {
    hide Blank, Accepted, RecordOf, SoundProbe;
  }

  lemma {:induction false} EarlyKeepsPromise(w: World, t: nat, g: nat)
    requires RunEnabled(w, t, Yes(g)) && (w.runs[t].Verifying? || w.runs[t].AwaitingAdmission?)
    requires SoundProbe().success
    ensures KeepsPromise(w, RunStep(w, t, Yes(g)), t)
  {
    hide Blank, SoundProbe, Put;
  }

  lemma {:induction false} StopsKeepPromise(w: World, t: nat, g: nat)
    requires RunEnabled(w, t, Yes(g))
    requires w.runs[t].StoppingOld? || w.runs[t].ReleasingOld? || w.runs[t].Completing? || w.runs[t].Unlocking?
    ensures KeepsPromise(w, RunStep(w, t, Yes(g)), t)
  {
    hide Blank, OldIsGone, SoundProbe, Put;
  }

  lemma {:induction false} LaunchKeepsPromise(w: World, t: nat, g: nat)
    requires RunEnabled(w, t, Yes(g)) && (w.runs[t].ReadyToStart? || w.runs[t].NewPrepared? || w.runs[t].NewBooting?)
    ensures KeepsPromise(w, RunStep(w, t, Yes(g)), t)
  {
    hide Blank, SoundProbe, Put;
  }

  lemma {:induction false} PublishKeepsPromise(w: World, t: nat, g: nat)
    requires RunEnabled(w, t, Yes(g)) && w.runs[t].Publishing?
    ensures KeepsPromise(w, RunStep(w, t, Yes(g)), t)
  {
    hide Blank, Accepted, RecordOf, SoundProbe;
  }

  // A transition nothing was refused to is on its course, or about to end.
  lemma {:induction false} PromisingPosition(w: World, t: nat)
    requires EndsInv(w) && Promising(w, t)
    ensures OnCourse(w.runs[t]) || w.runs[t].Publishing? || w.runs[t].Completing? || w.runs[t].Unlocking?
  {
    assert CourseInv(t, PcOf(w.runs, t), w.transitions[t], w.children, w.log);
    hide Refused, EndsInv, HasEnded, WasLaunched, BecameReady, GoodProbe, SoundIds, Blank;
    var retry := w.transitions[t].retry;
    assert forall s :: Because(w.log, t, retry, s) ==> Refused(w.log, t, retry, s);
    hide Because;
  }

  lemma {:induction false} YesKeepsPromise(w: World, t: nat, g: nat)
    requires EndsInv(w) && Promising(w, t) && RunEnabled(w, t, Yes(g))
    ensures KeepsPromise(w, RunStep(w, t, Yes(g)), t)
  {
    hide RunStep, RunEnabled, KeepsPromise, EndsInv;
    PromisingPosition(w, t);
    hide Promising;
    match w.runs[t] {
      case FirstWrite => WritesKeepPromise(w, t, g);
      case EnteringCutover(_) => WritesKeepPromise(w, t, g);
      case OldStopped(_) => WritesKeepPromise(w, t, g);
      case Verifying => EarlyKeepsPromise(w, t, g);
      case AwaitingAdmission(_) => EarlyKeepsPromise(w, t, g);
      case StoppingOld(_) => StopsKeepPromise(w, t, g);
      case ReleasingOld(_) => StopsKeepPromise(w, t, g);
      case Completing(_, _) => StopsKeepPromise(w, t, g);
      case Unlocking => StopsKeepPromise(w, t, g);
      case Publishing(_, _) => PublishKeepsPromise(w, t, g);
      case _ => LaunchKeepsPromise(w, t, g);
    }
  }

  // After a yes the history still tells of no refusal.
  lemma {:induction false} YesIsClean(w: World, t: nat, g: nat)
    requires Good(w) && Promising(w, t) && RunEnabled(w, t, Yes(g))
    ensures var v := RunStep(w, t, Yes(g));
            FirstWriteRefused(t) !in v.log && NothingRefused(v.log, t, w.transitions[t].retry)
  {
    var v, a := RunStep(w, t, Yes(g)), Yes(g);
    forall stage
      ensures !Refuses(w.transitions[t].retry, w.runs[t], a, stage)
    {
      YesRefusesNothing(w, t, g, stage);
    }
    hide Good, RunStep, LogStep, NothingRefused, Refuses, RunEnabled;
    RunLogs(w, t, a);
    CourseGrows(w.log, v.log, t, w.runs[t], a, w.transitions[t].retry);
    if w.runs[t].FirstWrite? {
      FirstWriteRefusedIff(w, t, a);
    } else {
      NoFirstRefusal(w.log, v.log, t, w.runs[t], a);
    }
  }

  // Nothing but the end of the old generation may have to be waited for.
  lemma {:induction false} YesIsPossible(w: World, t: nat, g: nat)
    requires Good(w) && EndsInv(w) && Promising(w, t) && g !in w.children
    requires w.runs[t].StoppingOld? ==> OldIsGone(w.transitions[t], w.children)
    ensures RunEnabled(w, t, Yes(g))
  {
    hide EndsInv, Good;
    YesIsSound();
    PromisingPosition(w, t);
    StandsWell(w, t);
    hide Promising, RunState, RunEvidence, ChildInv, RecordInv, Backed, SaysRestarting, KeepsRestarting, NamesOld, OldIsGone;
    assert t in w.runs;
    hide Blank;
  }

  function Distance(w: World, t: nat): nat {
    if t in w.runs && t in w.transitions then
      2 * Remaining(w.runs[t]) + if OldIsGone(w.transitions[t], w.children) then 1 else 2
    else 0
  }

  lemma {:induction false} PromiseIsKept(w: World, t: nat, g: nat)
    requires Good(w) && EndsInv(w) && Promising(w, t) && RunEnabled(w, t, Yes(g))
    ensures var v := RunStep(w, t, Yes(g));
            && FirstWriteRefused(t) !in v.log && t in v.transitions && NothingRefused(v.log, t, v.transitions[t].retry)
            && Distance(v, t) < Distance(w, t)
            && v.transitions[t].prior == w.transitions[t].prior && v.invokes == w.invokes
            && (t in v.runs ==> Promising(v, t))
  {
    hide Good, EndsInv, RunStep, RunEnabled, LogStep, NothingRefused, SoundIds, GoodProbe, OldIsGone, SoundProbe;
    YesIsSound();
    YesKeepsPromise(w, t, g);
    YesIsClean(w, t, g);
    EveryStepAdvances(w, t, Yes(g));
    FirstIsNeverNext(w, t, g);
    RunLeavesInvokes(w, t, Yes(g));
  }

  lemma {:induction false} FirstIsNeverNext(w: World, t: nat, g: nat)
    requires RunEnabled(w, t, Yes(g)) && t in w.runs
    ensures t in RunStep(w, t, Yes(g)).runs ==> !RunStep(w, t, Yes(g)).runs[t].FirstWrite?
  {
    hide RunStep, RunEnabled;
    EveryStepAdvances(w, t, Yes(g));
  }

  // The old generation ends.
  lemma {:induction false} OldEnds(w: World, t: nat) returns (g: nat)
    requires Promising(w, t) && w.runs[t].StoppingOld? && !OldIsGone(w.transitions[t], w.children)
    ensures Enabled(w, Die(g))
    ensures var v := Do(w, Die(g));
            && Promising(v, t) && Distance(v, t) < Distance(w, t)
            && v.transitions == w.transitions && v.invokes == w.invokes
  {
    hide NothingRefused, SoundIds, GoodProbe;
    g := w.transitions[t].prior.value.gen;
  }

  lemma {:induction false} LongerRun(run: seq<World>, a: Action, v: World)
    requires IsRun(run) && StepsTo(run[|run| - 1], a, v)
    ensures IsRun(run + [v])
  {
    hide Enabled, Do, SoundRecord, Fresh;
    var more := run + [v];
    assert more[0] == run[0];
    forall i | 0 <= i < |more| - 1
      ensures StepHere(more, i)
    {
      if i < |run| - 1 {
        assert StepHere(run, i);
        assert more[i] == run[i] && more[i + 1] == run[i + 1];
      }
    }
  }

  ghost predicate Extends(run: seq<World>, more: seq<World>) {
    IsRun(run) && IsRun(more) && run <= more
  }

  /** A transition to which nothing was refused can be brought to its end, whatever happened before:
      then its replacement runs. */
  lemma {:induction false} CanSucceed(run: seq<World>, t: nat) returns (more: seq<World>)
    requires |run| > 0 && IsRun(run) && Promising(run[|run| - 1], t)
    ensures Extends(run, more)
    ensures var w := more[|more| - 1];
            && t in w.transitions && w.transitions[t].done
            && w.transitions[t].state == Running && w.transitions[t].cutover
            && w.transitions[t].prior == run[|run| - 1].transitions[t].prior && w.invokes == run[|run| - 1].invokes
    decreases Distance(run[|run| - 1], t)
  {
    hide IsRun, Good, EndsInv, Promising, RunStep, Do, Enabled, OldIsGone, NothingRefused, Distance;
    var w := run[|run| - 1];
    RunStaysGood(run, |run| - 1);
    RunKeepsCourse(run, |run| - 1);
    IsAtWork(w, t);
    if w.runs[t].StoppingOld? && !OldIsGone(w.transitions[t], w.children) {
      var g := OldEnds(w, t);
      LongerRun(run, Die(g), Do(w, Die(g)));
      more := CanSucceed(run + [Do(w, Die(g))], t);
    } else {
      var g := UnusedNumber(w.children.Keys);
      YesIsPossible(w, t, g);
      PromiseIsKept(w, t, g);
      var v := RunStep(w, t, Yes(g));
      RunIsAction(w, t, Yes(g));
      LongerRun(run, StepRun(t, Yes(g)), v);
      more := run + [v];
      if t in v.runs {
        more := CanSucceed(more, t);
      } else {
        RunStaysGood(more, |more| - 1);
        IsDone(v, t);
        HowTransitionsEnd(more, |more| - 1, t);
      }
    }
  }

  lemma {:induction false} IsAtWork(w: World, t: nat)
    requires Promising(w, t)
    ensures t in w.runs && t in w.transitions
  {
  }

  lemma {:induction false} RunIsAction(w: World, t: nat, a: Answer)
    requires RunEnabled(w, t, a)
    ensures StepsTo(w, StepRun(t, a), RunStep(w, t, a))
  {
    hide RunStep, RunEnabled;
  }

  lemma {:induction false} IsDone(w: World, t: nat)
    requires Good(w) && t in w.transitions && t !in w.runs
    ensures w.transitions[t].done
  {
    hide ClaimInv, EpochInv, DurableInv, ChildInv, StartsInv, RunsChild, EvidenceInv, RecordInv, LockInv, CutInv,
      InvokesInv, LogGood, RunState, TransitionsInv;
    assert FinishFacts(w.transitions[t], PcOf(w.runs, t), w.current == Some(t), FirstWriteRefused(t) in w.log);
  }

  // Every identifier the new transition takes over names something.
  predicate NamesSomething(prior: Old) {
    && !Blank(prior.generationID) && (prior.weaverID != "" ==> !Blank(prior.weaverID))
  }

  /** Whatever happened before, a restart that takes over while nobody holds the admission lock can
      bring its replacement up: when it retries a failed launch, and when it replaces a process
      whose identifiers are not blank. */
  lemma {:induction false} RestartCanSucceed(
    run: seq<World>, t: nat, id: string, minted: string, status: Status, readable: bool) returns (more: seq<World>)
    requires |run| > 0 && IsRun(run) && MayBegin(run[|run| - 1], t, id, minted) && run[|run| - 1].admission == None
    requires var choice := Choose(run[|run| - 1], status, readable, minted);
             choice.Retry? || (choice.Replace? && NamesSomething(choice.prior))
    ensures Extends(run + [RestartStep(run[|run| - 1], t, id, minted, status, readable)], more)
    ensures var w := more[|more| - 1];
            && t in w.transitions && w.transitions[t].done
            && w.transitions[t].state == Running && w.transitions[t].cutover
            && var choice := Choose(run[|run| - 1], status, readable, minted);
               w.transitions[t].prior == if choice.Replace? then Some(choice.prior) else None
  {
    hide IsRun, Good, EndsInv, Promising, RestartStep, MayBegin, Choose, Blank;
    var w := run[|run| - 1];
    var v := RestartStep(w, t, id, minted, status, readable);
    RunStaysGood(run, |run| - 1);
    RestartIsAction(w, t, id, minted, status, readable);
    LongerRun(run, BeginRestart(t, id, minted, status, readable), v);
    var longer := run + [v];
    RunKeepsCourse(longer, |longer| - 1);
    RunStaysGood(longer, |longer| - 1);
    RestartIsPromising(w, t, id, minted, status, readable);
    BeginsSound(w, t, id, minted, status, readable);
    more := CanSucceed(longer, t);
  }

  lemma {:induction false} RestartIsAction(
    w: World, t: nat, id: string, minted: string, status: Status, readable: bool)
    requires MayBegin(w, t, id, minted)
    ensures StepsTo(w, BeginRestart(t, id, minted, status, readable), RestartStep(w, t, id, minted, status, readable))
  {
    hide RestartStep, MayBegin;
  }

  lemma {:induction false} RestartIsPromising(
    w: World, t: nat, id: string, minted: string, status: Status, readable: bool)
    requires Good(w) && MayBegin(w, t, id, minted) && w.admission == None
    requires var choice := Choose(w, status, readable, minted);
             choice.Retry? || (choice.Replace? && NamesSomething(choice.prior))
    requires EndsInv(RestartStep(w, t, id, minted, status, readable))
    ensures Promising(RestartStep(w, t, id, minted, status, readable), t)
  {
    hide Good, EndsInv, Blank, GoodProbe, NothingRefused;
    BeginsSound(w, t, id, minted, status, readable);
    FirstIsClean(RestartStep(w, t, id, minted, status, readable), t);
    hide RestartStep, Choose, NamesSomething;
  }

  lemma {:induction false} FirstIsClean(w: World, t: nat)
    requires EndsInv(w) && t in w.transitions && t in w.runs && w.runs[t].FirstWrite?
    ensures FirstWriteRefused(t) !in w.log && NothingRefused(w.log, t, w.transitions[t].retry)
  {
    hide NothingRefused, HasEnded, Because;
    assert CourseInv(t, PcOf(w.runs, t), w.transitions[t], w.children, w.log);
  }

  lemma {:induction false} BeginsSound(
    w: World, t: nat, id: string, minted: string, status: Status, readable: bool)
    requires Good(w) && MayBegin(w, t, id, minted)
    requires var choice := Choose(w, status, readable, minted);
             choice.Retry? || (choice.Replace? && NamesSomething(choice.prior))
    ensures var v := RestartStep(w, t, id, minted, status, readable);
            && t in v.runs && v.runs[t].FirstWrite? && t in v.transitions && SoundIds(v.transitions[t])
            && v.admission == w.admission
            && (v.transitions[t].retry ==> v.transitions[t].probe.Some? && GoodProbe(v.transitions[t].probe.value))
            && var choice := Choose(w, status, readable, minted);
               v.transitions[t].prior == if choice.Replace? then Some(choice.prior) else None
  {
    hide Good, Blank, GoodProbe, Choose;
    RetriesTheRecord(w, status, readable, minted);
    if Choose(w, status, readable, minted).Retry? {
      RetriesOnlyRetryable(w, status, readable, minted);
      RecordIsRetried(w);
    }
  }

  lemma {:induction false} RetriesOnlyRetryable(w: World, status: Status, readable: bool, minted: string)
    ensures Choose(w, status, readable, minted).Retry? ==> Retryable(Choose(w, status, readable, minted).record)
  {
  }

  lemma {:induction false} RecordIsRetried(w: World)
    requires Good(w) && w.record.Some? && Retryable(w.record.value)
    ensures !Blank(w.record.value.generationID) && GoodProbe(w.record.value.probe.value)
  {
    hide ClaimInv, EpochInv, DurableInv, ChildInv, StartsInv, RunsChild, EvidenceInv, LockInv, CutInv, InvokesInv, LogGood,
      TransitionsInv, FinishInv, Blank, GoodProbe, StopEvidence;
  }

  /** A Mill that has just started and finds a process in the metadata can replace it. */
  lemma {:induction false} SuccessIsReachable() returns (run: seq<World>)
    ensures IsRun(run)
    ensures var w := run[|run| - 1];
            && 0 in w.transitions && w.transitions[0].prior == Some(Discovered("here", "old"))
            && w.transitions[0].state == Running && w.transitions[0].cutover
  {
    hide Blank, RestartStep;
    NothingIsBlank();
    assert SoundRecord(None);
    assert IsRun([Fresh(None)]);
    run := RestartCanSucceed([Fresh(None)], 0, "retry", "retry", Published("here", "old", true), true);
  }

  // ------------------------------------------------------------ a start

  // What a process that came up reports.
  function Up(g: nat, weaverID: string, generationID: string): Answer {
    Yes(g).(weaverID := weaverID, generationID := generationID)
  }

  lemma {:induction false} StartBringsUp(w: World, s: nat, a: Answer) returns (w2: World, w3: World, w4: World, v: World)
    requires s in w.starts && w.starts[s] == Claimed && w.claim == Some(s) && !ChildLives(w.child, w.children)
    requires a.ok && a.g !in w.children
    ensures StepsTo(w, StepStart(s, a), w2) && StepsTo(w2, StepStart(s, a), w3)
    ensures StepsTo(w3, StepStart(s, a), w4) && StepsTo(w4, StepStart(s, a), v)
    ensures v == w.(claim := None, starts := w.starts - {s}, child := Some(a.g),
                    children := w.children[a.g := Child(Alive, a.weaverID, a.generationID)],
                    log := w.log + [StartStarted(s, a.g)])
  {
    w2 := StartStep(w, s, a);
    w3 := StartStep(w2, s, a);
    w4 := StartStep(w3, s, a);
    v := StartStep(w4, s, a);
  }

  /** Whatever happened before, a start that may begin can bring a process up: it then lives, is the
      supervised child under the identity it reported, and the claim is free again. */
  lemma {:induction false} StartCanSucceed(run: seq<World>, s: nat, weaverID: string, generationID: string)
    returns (more: seq<World>, g: nat)
    requires |run| > 0 && IsRun(run) && Enabled(run[|run| - 1], BeginStart(s, Absent))
    ensures Extends(run, more)
    ensures var v := more[|more| - 1];
            && v.claim == None && v.child == Some(g) && IsAlive(v, g) && g !in run[|run| - 1].children
            && v.children[g].weaverID == weaverID && v.children[g].generationID == generationID
  {
    hide IsRun, StepsTo, Do;
    var w := run[|run| - 1];
    g := UnusedNumber(w.children.Keys);
    var w1 := StartBegun(w, s);
    LongerRun(run, BeginStart(s, Absent), w1);
    var a := Up(g, weaverID, generationID);
    var w2, w3, w4, v := StartBringsUp(w1, s, a);
    LongerRun(run + [w1], StepStart(s, a), w2);
    LongerRun(run + [w1] + [w2], StepStart(s, a), w3);
    LongerRun(run + [w1] + [w2] + [w3], StepStart(s, a), w4);
    LongerRun(run + [w1] + [w2] + [w3] + [w4], StepStart(s, a), v);
    more := run + [w1] + [w2] + [w3] + [w4] + [v];
  }

  lemma {:induction false} StartBegun(w: World, s: nat) returns (v: World)
    requires Enabled(w, BeginStart(s, Absent))
    ensures StepsTo(w, BeginStart(s, Absent), v) && v == w.(claim := Some(s), starts := w.starts[s := Claimed])
    ensures !ChildLives(w.child, w.children)
  {
    v := Do(w, BeginStart(s, Absent));
  }

  // ------------------------------------------------------------ an interrupted invocation

  // The connection is lost and the caller still waits: two steps later the answer is restarted.
  lemma {:induction false} InterruptedIsAnswered(w: World, i: nat, t: nat) returns (u: World, v: World)
    requires i in w.invokes && w.invokes[i].Awaiting? && w.invokes[i].boundary == Some(t)
    requires t in w.transitions && w.transitions[t].cutover
    ensures StepsTo(w, StepInvoke(i, Absent, false, false), u) && StepsTo(u, StepInvoke(i, Absent, false, false), v)
    ensures v.log == w.log + [ConnectionLost(i), AnsweredRestarted(i, t)]
  {
    u := InvokeStep(w, i, Absent, false, false);
    v := InvokeStep(u, i, Absent, false, false);
    assert v.log == w.log + [ConnectionLost(i)] + [AnsweredRestarted(i, t)];
  }

  /** Whatever happened before, an invocation that waits for its answer while the transition it was
      admitted under can still go through may yet be answered as restarted for it. */
  lemma {:induction false} CanBeAnsweredRestarted(run: seq<World>, i: nat, t: nat) returns (more: seq<World>)
    requires |run| > 0 && IsRun(run) && Promising(run[|run| - 1], t)
    requires var w := run[|run| - 1]; i in w.invokes && w.invokes[i].Awaiting? && w.invokes[i].boundary == Some(t)
    ensures Extends(run, more) && AnsweredRestarted(i, t) in more[|more| - 1].log
  {
    hide IsRun, Promising, StepsTo;
    more := CanSucceed(run, t);
    RunIsThere(more);
    var u, v := InterruptedIsAnswered(more[|more| - 1], i, t);
    LongerRun(more, StepInvoke(i, Absent, false, false), u);
    LongerRun(more + [u], StepInvoke(i, Absent, false, false), v);
    more := more + [u] + [v];
  }

  lemma {:induction false} RunIsThere(run: seq<World>)
    requires IsRun(run)
    ensures |run| > 0
  {
  }

  lemma {:induction false} InvocationHolds(w: World, i: nat, status: Status) returns (w1: World, w2: World)
    requires i !in w.invokes && w.admission == None
    ensures StepsTo(w, Arrive(i), w1) && StepsTo(w1, StepInvoke(i, status, true, false), w2)
    ensures w2 == w.(invokes := w.invokes[i := Holding], admission := Some(Invoker(i)))
  {
    w1 := Do(w, Arrive(i));
    w2 := InvokeStep(w1, i, status, true, false);
  }

  lemma {:induction false} InvocationIsAdmitted(w: World, i: nat, status: Status) returns (v: World)
    requires i in w.invokes && w.invokes[i] == Holding && TargetOf(w, status).Reach?
    ensures StepsTo(w, StepInvoke(i, status, true, false), v)
    ensures var target := TargetOf(w, status);
            var admitted := Admitted(target.weaverID, target.generationID, BoundaryOf(w, target.weaverID, target.generationID));
            v == w.(invokes := w.invokes[i := admitted], log := w.log + [InvokeAdmitted(i, w.current)])
  {
    hide TargetOf, BoundaryOf;
    v := InvokeStep(w, i, status, true, false);
  }

  lemma {:induction false} InvocationIsSent(w: World, i: nat, status: Status) returns (w1: World, w2: World)
    requires i in w.invokes && w.invokes[i].Admitted?
    ensures StepsTo(w, StepInvoke(i, status, true, false), w1) && StepsTo(w1, StepInvoke(i, status, true, false), w2)
    ensures var pc := w.invokes[i];
            w2 == w.(invokes := w.invokes[i := Awaiting(pc.weaverID, pc.generationID, pc.boundary)], admission := None,
                     log := w.log + [FrameSent(i, pc.weaverID, pc.generationID)])
  {
    w1 := InvokeStep(w, i, status, true, false);
    w2 := InvokeStep(w1, i, status, true, false);
  }

  // From its arrival an invocation can get through to its target undisturbed.
  lemma {:induction false} InvocationGoesOut(run: seq<World>, i: nat, status: Status) returns (more: seq<World>)
    requires |run| > 0 && IsRun(run)
    requires var w := run[|run| - 1]; i !in w.invokes && w.admission == None && TargetOf(w, status).Reach?
    ensures Extends(run, more)
    ensures var w, v := run[|run| - 1], more[|more| - 1];
            var target := TargetOf(w, status);
            var away := Awaiting(target.weaverID, target.generationID, BoundaryOf(w, target.weaverID, target.generationID));
            v == w.(invokes := w.invokes[i := away],
                    log := w.log + [InvokeAdmitted(i, w.current), FrameSent(i, target.weaverID, target.generationID)])
  {
    hide IsRun, StepsTo, TargetOf, BoundaryOf;
    var w1, w2 := InvocationHolds(run[|run| - 1], i, status);
    SameTarget(run[|run| - 1], w2, status);
    var w3 := InvocationIsAdmitted(w2, i, status);
    var w4, w5 := InvocationIsSent(w3, i, status);
    var step := StepInvoke(i, status, true, false);
    LongerRun(run, Arrive(i), w1);
    LongerRun(run + [w1], step, w2);
    LongerRun(run + [w1] + [w2], step, w3);
    LongerRun(run + [w1] + [w2] + [w3], step, w4);
    LongerRun(run + [w1] + [w2] + [w3] + [w4], step, w5);
    more := run + [w1] + [w2] + [w3] + [w4] + [w5];
  }

  lemma {:induction false} SameTarget(w: World, v: World, status: Status)
    requires v.current == w.current && v.transitions == w.transitions && v.epoch == w.epoch
    ensures TargetOf(v, status) == TargetOf(w, status)
    ensures forall weaverID, generationID :: BoundaryOf(v, weaverID, generationID) == BoundaryOf(w, weaverID, generationID)
  {
    hide Matches, Blank;
  }

  lemma {:induction false} FirstWriteLeaves(w: World, t: nat, a: Answer)
    requires RunEnabled(w, t, a) && w.runs[t].FirstWrite?
    ensures var v, u := RunStep(w, t, a), w.transitions[t];
            && v.current == w.current && v.epoch == w.epoch && v.admission == w.admission && v.invokes == w.invokes
            && t in v.transitions && v.transitions[t] == WithState(u, u.state, u.probe) && t in v.runs
  {
    hide Accepted, RecordOf, Blank;
  }

  // What an invocation tells is nothing about a transition.
  lemma {:induction false} InvocationKeepsPromise(w: World, v: World, t: nat)
    requires Promising(w, t) && v.runs == w.runs && v.transitions == w.transitions && v.admission == w.admission
    requires SameNews(w.log, v.log, t)
    ensures Promising(v, t)
  {
    hide Refused, SoundIds, GoodProbe;
    SameRefusals(w.log, v.log, t, w.transitions[t].retry);
    hide SameNews;
  }

  // A Mill that finds a process has begun to replace it.
  lemma {:induction false} Begun() returns (w: World)
    ensures IsRun([Fresh(None), w]) && Promising(w, 0)
    ensures w.runs[0].FirstWrite? && w.current == Some(0) && w.admission == None && w.invokes == map[] && w.epoch == 1
    ensures w.transitions[0].prior == Some(Discovered("here", "old"))
    ensures w.transitions[0].state == Probing && w.transitions[0].epoch == 1
  {
    hide Blank, Promising;
    NothingIsBlank();
    var status := Published("here", "old", true);
    var w0 := Fresh(None);
    w := RestartStep(w0, 0, "retry", "retry", status, true);
    assert SoundRecord(None);
    assert IsRun([w0]);
    RestartIsAction(w0, 0, "retry", "retry", status, true);
    LongerRun([w0], BeginRestart(0, "retry", "retry", status, true), w);
    assert [w0] + [w] == [w0, w];
    RunStaysGood([w0, w], 0);
    RunKeepsCourse([w0, w], 1);
    RestartIsPromising(w0, 0, "retry", "retry", status, true);
  }

  lemma {:induction false} ProbingTarget(w: World)
    requires w.current == Some(0) && 0 in w.transitions && w.transitions[0].state == Probing
    requires w.transitions[0].prior == Some(Discovered("here", "old")) && w.transitions[0].epoch == w.epoch
    ensures TargetOf(w, Published("here", "old", true)) == Reach("here", "old") && BoundaryOf(w, "here", "old") == Some(0)
  {
    NothingIsBlank();
    hide Blank;
  }

  lemma {:induction false} TwoMore(log: seq<Event>, e: Event, f: Event)
    requires OfInvocation(e) && OfInvocation(f)
    ensures forall t :: SameNews(log, log + [e, f], t)
  {
  }

  /** From the start to that answer: a Mill finds a process, restarts it, admits an invocation while
      the restart probes, cuts over and loses the connection. */
  lemma {:induction false} InterruptionIsReachable() returns (run: seq<World>)
    ensures IsRun(run) && AnsweredRestarted(0, 0) in run[|run| - 1].log
  {
    hide IsRun, RunStep, Promising, Good, EndsInv, Blank, SameNews, StepsTo, OldIsGone, RunEnabled, TargetOf, BoundaryOf;
    var w1 := Begun();
    run := [Fresh(None), w1];
    RunStaysGood(run, 1);
    RunKeepsCourse(run, 1);
    IsAtWork(w1, 0);
    var g := UnusedNumber(w1.children.Keys);
    YesIsPossible(w1, 0, g);
    PromiseIsKept(w1, 0, g);
    FirstWriteLeaves(w1, 0, Yes(g));
    RunIsAction(w1, 0, Yes(g));
    var w2 := RunStep(w1, 0, Yes(g));
    LongerRun(run, StepRun(0, Yes(g)), w2);
    ProbingTarget(w2);
    run := InvocationGoesOut(run + [w2], 0, Published("here", "old", true));
    TwoMore(w2.log, InvokeAdmitted(0, w2.current), FrameSent(0, "here", "old"));
    InvocationKeepsPromise(w2, run[|run| - 1], 0);
    run := CanBeAnsweredRestarted(run, 0, 0);
  }
}
