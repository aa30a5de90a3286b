/** What every reachable state of the restart protocol satisfies, one predicate per group of
    fields. */
module RestartInvariant {
  import opened Basics
  import opened RestartRecord
  import opened RestartProtocol

  // A start claim and a transition exclude each other; a claim belongs to one call.
  ghost predicate ClaimInv(claim: Option<nat>, starts: map<nat, StartPc>, current: Option<nat>) {
    && (forall s :: s in starts ==> claim == Some(s))
    && (claim.Some? ==> claim.value in starts && current.None?)
  }

  // A live process is the registered one, so there is at most one.
  ghost predicate ChildInv(child: Option<nat>, children: map<nat, Child>) {
    && (child.Some? ==> child.value in children)
    && (forall g :: g in children && children[g].phase == Alive ==> child == Some(g))
  }

  ghost predicate StartFacts(pc: StartPc, child: Option<nat>, children: map<nat, Child>) {
    match pc
    case Claimed => !ChildLives(child, children)
    case Prepared(g) => child == Some(g) && g in children && children[g].phase == Registered
    case Booting(g) => child == Some(g) && g in children
    case Discarding(g) => g in children && children[g].phase == Dead
    case Leaving => true
  }

  ghost predicate StartsInv(starts: map<nat, StartPc>, child: Option<nat>, children: map<nat, Child>) {
    forall s :: s in starts ==> StartFacts(starts[s], child, children)
  }

  // Past this point a transition launches nothing and may already have been replaced.
  predicate Tail(pc: RunPc) {
    pc.Unlocking? || (pc.Completing? && pc.retain)
  }

  predicate Locked(pc: RunPc) {
    match pc
    case FirstWrite => false
    case Abandoning => false
    case GivingUp => false
    case Verifying => false
    case AwaitingAdmission(_) => false
    case FailingProbe(_) => false
    case Failing(_, locked) => locked
    case Completing(_, locked) => locked
    case _ => true
  }

  // A replacement that has not touched the old generation yet.
  predicate Waits(u: Transition) {
    u.state == Probing && !u.cutover && !u.stopped
  }

  ghost predicate RunState(pc: RunPc, u: Transition) {
    match pc
    case FirstWrite => if u.prior.Some? then Waits(u) && u.probe.None? else u.state == Restarting
    case Abandoning => u.prior.Some? && !u.cutover
    case GivingUp => u.prior.None? && u.state == Restarting
    case Verifying => u.prior.Some? ==> Waits(u)
    case AwaitingAdmission(_) => u.prior.Some? ==> Waits(u)
    case EnteringCutover(_) => u.prior.Some? ==> Waits(u)
    case FailingProbe(_) => u.prior.Some? ==> Waits(u)
    case StoppingOld(_) => u.prior.Some? && u.state == Restarting && u.cutover
    case OldStopped(_) => u.prior.Some? && u.state == Restarting && u.cutover
    case ReleasingOld(_) => u.prior.Some? && u.state == Restarting && u.cutover
    case Failing(stage, locked) =>
      (!locked ==> u.prior.None?) && (stage == "launch" ==> ReadyToLaunch(u))
      && !Blank(stage)
    case Completing(retain, locked) =>
      if retain then u.state == Failed && (!locked ==> u.prior.None?) else locked || !u.cutover
    case Unlocking => true
    case _ => u.state == Restarting && u.cutover
  }

  ghost predicate TransitionsInv(
    transitions: map<nat, Transition>, runs: map<nat, RunPc>, current: Option<nat>, epoch: nat)
  {
    && runs.Keys <= transitions.Keys
    && (current.Some? ==> current.value in transitions && transitions[current.value].epoch == epoch)
    && (forall t :: t in transitions ==> (transitions[t].retry <==> transitions[t].prior.None?))
    && (forall t :: t in runs && !Tail(runs[t]) ==> current == Some(t) && transitions[t].state != Failed)
    && (forall t :: t in runs ==> RunState(runs[t], transitions[t]))
    && (current.Some? && current.value in runs && runs[current.value].Unlocking? ==> transitions[current.value].state == Failed)
    && (current.Some? && current.value !in runs ==>
          transitions[current.value].state == Failed || transitions[current.value].retry)
  }

  function PcOf(runs: map<nat, RunPc>, t: nat): Option<RunPc> {
    if t in runs then Some(runs[t]) else None
  }

  // A finished transition stays visible only as a failure, or as a retry whose first record was
  // refused.
  ghost predicate FinishFacts(u: Transition, pc: Option<RunPc>, isCurrent: bool, refused: bool) {
    && (u.done <==> pc.None? || pc.value.Unlocking?)
    && (pc.Some? && pc.value.GivingUp? ==> refused)
    && (u.retry && refused ==> u.state == Restarting && (pc.Some? ==> pc.value.GivingUp?))
    && (isCurrent && pc.None? && u.state != Failed ==> refused)
  }

  ghost predicate FinishInv(
    transitions: map<nat, Transition>, runs: map<nat, RunPc>, current: Option<nat>, log: seq<Event>)
  {
    && (forall t :: t in transitions ==>
          FinishFacts(transitions[t], PcOf(runs, t), current == Some(t), FirstWriteRefused(t) in log))
    && (forall e :: e in log && e.FirstWriteRefused? ==> e.t in transitions)
  }

  // Every transition opened a new epoch of its own.
  ghost predicate EpochInv(transitions: map<nat, Transition>, epoch: nat) {
    && (forall t :: t in transitions ==> transitions[t].epoch <= epoch)
    && (forall s, t :: s in transitions && t in transitions && s != t ==> transitions[s].epoch != transitions[t].epoch)
  }

  ghost predicate OldRegistered(u: Transition, child: Option<nat>) {
    if u.prior.Some? && u.prior.value.Launched? then child == Some(u.prior.value.gen) else child.None?
  }

  ghost predicate RunChild(pc: RunPc, u: Transition, child: Option<nat>, children: map<nat, Child>) {
    match pc
    case FirstWrite => OldRegistered(u, child)
    case Verifying => OldRegistered(u, child)
    case AwaitingAdmission(_) => OldRegistered(u, child)
    case EnteringCutover(_) => OldRegistered(u, child)
    case StoppingOld(_) => OldRegistered(u, child)
    case OldStopped(_) => OldRegistered(u, child) && OldIsGone(u, children)
    case ReleasingOld(_) => OldRegistered(u, child) && OldIsGone(u, children)
    case ReadyToStart(_) => child.None?
    case NewPrepared(g, _) => child == Some(g) && g in children && children[g].phase == Registered
    case NewBooting(g, _) => child == Some(g) && g in children
    case StoppingNew(g) => child == Some(g) && g in children
    case Unregistering(g) => child == Some(g) && g in children && children[g].phase != Alive
    case Publishing(g, _) => child == Some(g) && g in children
    case _ => true
  }

  ghost predicate RunsChild(
    runs: map<nat, RunPc>, transitions: map<nat, Transition>, child: Option<nat>, children: map<nat, Child>)
  {
    forall t :: t in runs && t in transitions ==> RunChild(runs[t], transitions[t], child, children)
  }

  // This very generation was confirmed gone, now or before this Mill started.
  ghost predicate StopEvidence(log: seq<Event>, priorStop: Option<string>, generationID: string) {
    priorStop == Some(generationID) || exists t :: OldGone(t, generationID) in log
  }

  ghost predicate SoundIds(u: Transition) {
    && !Blank(u.id) && !Blank(u.generationID)
    && (u.prior.Some? ==>
          && (u.prior.value.generationID != "" ==> !Blank(u.prior.value.generationID))
          && (u.prior.value.weaverID != "" ==> !Blank(u.prior.value.weaverID)))
  }

  ghost predicate Probed(u: Transition, t: nat, probe: Probe, log: seq<Event>) {
    SoundIds(u) && probe.success && (u.prior.Some? ==> ProbePassed(t) in log) && (u.retry ==> u.probe == Some(probe))
  }

  ghost predicate CutOver(u: Transition, t: nat, probe: Probe, log: seq<Event>) {
    Probed(u, t, probe, log) && u.probe == Some(probe) && GoodProbe(probe)
  }

  ghost predicate OldStopProven(u: Transition, t: nat, probe: Probe, log: seq<Event>) {
    CutOver(u, t, probe, log) && u.stopped
  }

  // Positions in which the transition still names the generation it replaces or retries.
  predicate NamesOld(pc: RunPc) {
    match pc
    case Completing(_, _) => false
    case Unlocking => false
    case GivingUp => false
    case Abandoning => false
    case Failing(stage, _) => stage == "launch"
    case _ => true
  }

  // A stop the transition relies on is a confirmed stop of the generation it names.
  ghost predicate Backed(u: Transition, t: nat, log: seq<Event>, priorStop: Option<string>) {
    && (u.prior.Some? ==> u.generationID == u.prior.value.generationID)
    && (u.stopped ==>
          && StopEvidence(log, priorStop, u.generationID)
          && (u.prior.Some? ==> OldGone(t, u.generationID) in log))
  }

  ghost predicate RunEvidence(pc: RunPc, u: Transition, t: nat, log: seq<Event>) {
    match pc
    case FirstWrite => !Blank(u.id) && (u.retry ==> u.probe.Some? && u.probe.value.success)
    case Verifying => SoundIds(u) && (u.retry ==> u.probe.Some? && u.probe.value.success)
    case FailingProbe(p) => SoundIds(u)
    case AwaitingAdmission(p) => Probed(u, t, p, log)
    case EnteringCutover(p) => Probed(u, t, p, log)
    case StoppingOld(p) => CutOver(u, t, p, log)
    case OldStopped(p) => OldStopProven(u, t, p, log)
    case ReleasingOld(p) => OldStopProven(u, t, p, log)
    case ReadyToStart(p) => OldStopProven(u, t, p, log)
    case NewPrepared(_, p) => OldStopProven(u, t, p, log)
    case NewBooting(_, p) => OldStopProven(u, t, p, log)
    case Publishing(_, p) => OldStopProven(u, t, p, log)
    case StoppingNew(_) => ReadyToLaunch(u)
    case Unregistering(_) => ReadyToLaunch(u)
    case _ => true
  }

  ghost predicate EvidenceInv(
    runs: map<nat, RunPc>, transitions: map<nat, Transition>, log: seq<Event>, priorStop: Option<string>)
  {
    && (forall t :: t in runs && t in transitions ==> RunEvidence(runs[t], transitions[t], t, log))
    && (forall t :: t in runs && t in transitions && NamesOld(runs[t]) ==> Backed(transitions[t], t, log, priorStop))
    && (forall t :: t in transitions && transitions[t].retry ==> transitions[t].stopped)
  }

  // A retry of this record gets past its own first write.
  ghost predicate Resumable(r: Record) {
    Retryable(r) && !Blank(r.generationID)
  }

  // The durable record always passes its validator, and a launch failure can be retried.
  ghost predicate RecordInv(record: Option<Record>, log: seq<Event>, priorStop: Option<string>) {
    record.Some? ==>
      && Validate(record.value, FromDisk) == Fine
      && (FailedLaunch(record.value) ==>
            Resumable(record.value) && StopEvidence(log, priorStop, record.value.generationID))
  }

  // Positions from which the durable record says restarting until this transition says otherwise.
  predicate KeepsRestarting(pc: RunPc, u: Transition) {
    match pc
    case Verifying => u.retry
    case AwaitingAdmission(_) => u.retry
    case EnteringCutover(_) => u.retry
    case FailingProbe(_) => u.retry
    case StoppingOld(_) => true
    case OldStopped(_) => true
    case ReleasingOld(_) => true
    case ReadyToStart(_) => true
    case NewPrepared(_, _) => true
    case NewBooting(_, _) => true
    case StoppingNew(_) => true
    case Unregistering(_) => true
    case Publishing(_, _) => true
    case Failing(_, _) => u.stopped
    case _ => false
  }

  predicate SaysRestarting(record: Option<Record>, u: Transition) {
    record.Some? && record.value.state == Restarting && record.value.transitionID == u.id
  }

  ghost predicate DurableInv(runs: map<nat, RunPc>, transitions: map<nat, Transition>, record: Option<Record>) {
    forall t :: t in runs && t in transitions && KeepsRestarting(runs[t], transitions[t]) ==>
                  SaysRestarting(record, transitions[t])
  }

  predicate HoldsLock(pc: InvokePc) {
    pc.Holding? || pc.Admitted? || pc.Sent?
  }

  predicate HeldBy(holder: Holder, runs: map<nat, RunPc>, invokes: map<nat, InvokePc>) {
    match holder
    case Cutover(t) => t in runs && Locked(runs[t])
    case Invoker(i) => i in invokes && HoldsLock(invokes[i])
  }

  ghost predicate LockInv(admission: Option<Holder>, runs: map<nat, RunPc>, invokes: map<nat, InvokePc>) {
    && (forall t :: t in runs && Locked(runs[t]) ==> admission == Some(Cutover(t)))
    && (forall i :: i in invokes && HoldsLock(invokes[i]) ==> admission == Some(Invoker(i)))
    && (admission.Some? ==> HeldBy(admission.value, runs, invokes))
  }

  ghost predicate CutInv(transitions: map<nat, Transition>, log: seq<Event>) {
    && (forall t :: t in transitions && transitions[t].prior.Some? ==>
          (transitions[t].cutover <==> CutoverEntered(t, transitions[t].prior) in log))
    && (forall e :: e in log && e.CutoverEntered? ==> e.t in transitions && e.prior == transitions[e.t].prior)
  }

  ghost predicate SentFrame(log: seq<Event>, i: nat) {
    exists e :: e in log && e.FrameSent? && e.i == i
  }

  ghost predicate WasAdmitted(log: seq<Event>, i: nat) {
    exists e :: e in log && e.InvokeAdmitted? && e.i == i
  }

  // Every frame of the invocation comes before the transition's cutover.
  ghost predicate FrameFirst(log: seq<Event>, i: nat, t: nat) {
    forall a, b :: 0 <= a < |log| && 0 <= b < |log| && IsCutover(log[a], t) && IsFrame(log[b], i) ==> b < a
  }

  predicate IsCutover(e: Event, t: nat) {
    e.CutoverEntered? && e.t == t
  }

  predicate IsFrame(e: Event, i: nat) {
    e.FrameSent? && e.i == i
  }

  ghost predicate BoundaryFacts(
    t: nat, weaverID: string, generationID: string, transitions: map<nat, Transition>, log: seq<Event>, i: nat)
  {
    && t in transitions && transitions[t].prior.Some?
    && Matches(transitions[t].prior.value, weaverID, generationID)
    && InvokeAdmitted(i, Some(t)) in log
  }

  ghost predicate InvokeFacts(i: nat, pc: InvokePc, transitions: map<nat, Transition>, log: seq<Event>) {
    match pc
    case Arriving => !SentFrame(log, i) && !WasAdmitted(log, i)
    case Holding => !SentFrame(log, i) && !WasAdmitted(log, i)
    case WaitingFor(_) => !SentFrame(log, i) && !WasAdmitted(log, i)
    case Admitted(w, g, b) =>
      !SentFrame(log, i)
      && (b.Some? ==> BoundaryFacts(b.value, w, g, transitions, log, i) && !transitions[b.value].cutover)
    case Sent(w, g, b) =>
      FrameSent(i, w, g) in log
      && (b.Some? ==> BoundaryFacts(b.value, w, g, transitions, log, i) && !transitions[b.value].cutover)
    case Awaiting(w, g, b) =>
      FrameSent(i, w, g) in log
      && (b.Some? ==> BoundaryFacts(b.value, w, g, transitions, log, i) && FrameFirst(log, i, b.value))
    case Lost(w, g, b, delivered) =>
      delivered ==>
        FrameSent(i, w, g) in log
        && (b.Some? ==> BoundaryFacts(b.value, w, g, transitions, log, i) && FrameFirst(log, i, b.value))
    case Ended => true
  }

  ghost predicate InvokesInv(invokes: map<nat, InvokePc>, transitions: map<nat, Transition>, log: seq<Event>) {
    && (forall i :: i in invokes ==> InvokeFacts(i, invokes[i], transitions, log))
    && (forall e :: e in log && (e.FrameSent? || e.InvokeAdmitted?) ==> e.i in invokes)
  }

  // ------------------------------------------------------------ the history

  // The frame went to the transition's old generation, and the cutover came later.
  ghost predicate InterruptedAt(
    past: seq<Event>, i: nat, t: nat, a: int, b: int, weaverID: string, generationID: string, prior: Old)
  {
    && 0 <= a < b < |past|
    && past[a] == FrameSent(i, weaverID, generationID) && past[b] == CutoverEntered(t, Some(prior))
    && Matches(prior, weaverID, generationID)
  }

  ghost predicate Interrupted(past: seq<Event>, i: nat, t: nat) {
    exists a, b, w, g, prior :: InterruptedAt(past, i, t, a, b, w, g, prior)
  }

  ghost predicate Justified(past: seq<Event>, e: Event, priorStop: Option<string>) {
    match e
    case OldSignalled(t) => ProbePassed(t) in past
    case OldGone(t, _) => ProbePassed(t) in past
    case ReplacementStarted(t, _, prior, stopped) =>
      && StopEvidence(past, priorStop, stopped)
      && (prior.Some? ==> stopped == prior.value.generationID && OldGone(t, stopped) in past)
    case FrameSent(i, _, _) => !SentFrame(past, i)
    case InvokeAdmitted(i, _) => !WasAdmitted(past, i)
    case AnsweredRestarted(i, t) => Interrupted(past, i, t) && InvokeAdmitted(i, Some(t)) in past
    case _ => true
  }

  ghost predicate JustifiedAt(log: seq<Event>, j: int, priorStop: Option<string>)
    requires 0 <= j < |log|
  {
    Justified(log[..j], log[j], priorStop)
  }

  ghost predicate LogGood(log: seq<Event>, priorStop: Option<string>) {
    forall j :: 0 <= j < |log| ==> JustifiedAt(log, j, priorStop)
  }

  ghost predicate Good(w: World) {
    && ClaimInv(w.claim, w.starts, w.current)
    && ChildInv(w.child, w.children)
    && StartsInv(w.starts, w.child, w.children)
    && TransitionsInv(w.transitions, w.runs, w.current, w.epoch)
    && EpochInv(w.transitions, w.epoch)
    && FinishInv(w.transitions, w.runs, w.current, w.log)
    && DurableInv(w.runs, w.transitions, w.record)
    && RunsChild(w.runs, w.transitions, w.child, w.children)
    && EvidenceInv(w.runs, w.transitions, w.log, w.priorStop)
    && RecordInv(w.record, w.log, w.priorStop)
    && LockInv(w.admission, w.runs, w.invokes)
    && CutInv(w.transitions, w.log)
    && InvokesInv(w.invokes, w.transitions, w.log)
    && LogGood(w.log, w.priorStop)
  }

  lemma {:induction false} LogAppend(log: seq<Event>, e: Event, priorStop: Option<string>)
    requires LogGood(log, priorStop) && Justified(log, e, priorStop)
    ensures LogGood(log + [e], priorStop)
  {
    hide Justified;
    var more := log + [e];
    forall j | 0 <= j < |more|
      ensures JustifiedAt(more, j, priorStop)
    {
      if j < |log| {
        assert JustifiedAt(log, j, priorStop);
        assert more[..j] == log[..j];
      } else {
        assert more[..j] == log;
      }
    }
  }

  lemma {:induction false} EvidenceGrows(log: seq<Event>, e: Event, priorStop: Option<string>, generationID: string)
    requires StopEvidence(log, priorStop, generationID)
    ensures StopEvidence(log + [e], priorStop, generationID)
  {
    if priorStop != Some(generationID) {
      var t :| OldGone(t, generationID) in log;
      assert OldGone(t, generationID) in log + [e];
    }
  }

  // Appending an event that is neither of the two kinds an order is kept between.
  lemma {:induction false} FrameFirstGrows(log: seq<Event>, e: Event, i: nat, t: nat)
    requires FrameFirst(log, i, t) && (IsFrame(e, i) ==> forall a :: 0 <= a < |log| ==> !IsCutover(log[a], t))
    ensures FrameFirst(log + [e], i, t)
  {
    var more := log + [e];
    forall a, b | 0 <= a < |more| && 0 <= b < |more| && IsCutover(more[a], t) && IsFrame(more[b], i)
      ensures b < a
    {
      if a < |log| {
        assert more[a] == log[a];
      }
      if b < |log| {
        assert more[b] == log[b];
      }
    }
  }

  lemma {:induction false} NoCutoverYet(log: seq<Event>, i: nat, t: nat)
    requires forall e :: e in log ==> !IsCutover(e, t)
    ensures FrameFirst(log, i, t)
  {
  }
}
