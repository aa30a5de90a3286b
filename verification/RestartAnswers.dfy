/** Which interrupted invocations are answered as restarted: exactly those whose old generation the
    transition they were admitted under has cut over by then (cli/cmd/mill/forward.go). */
module RestartAnswers {
  import opened Basics
  import opened RestartRecord
  import opened RestartProtocol
  import opened RestartInvariant
  import opened RestartRuns
  import opened RestartCutover
  import opened RestartTheorems
  import opened RestartOutcomes

  // Admitted while t was current, sent to the generation t replaces, and t has entered its cutover.
  ghost predicate CutUnder(past: seq<Event>, i: nat, t: nat) {
    && InvokeAdmitted(i, Some(t)) in past
    && exists w, g, prior :: CutAway(past, i, t, w, g, prior)
  }

  ghost predicate CutAway(past: seq<Event>, i: nat, t: nat, weaverID: string, generationID: string, prior: Old) {
    && FrameSent(i, weaverID, generationID) in past && CutoverEntered(t, Some(prior)) in past
    && Matches(prior, weaverID, generationID)
  }

  predicate IsAnswer(e: Event) {
    e.AnsweredRestarted? || e.AnsweredOtherwise?
  }

  ghost predicate Unanswered(log: seq<Event>, i: nat) {
    forall e :: e in log && IsAnswer(e) ==> e.i != i
  }

  ghost predicate AnswerRight(past: seq<Event>, e: Event) {
    && (IsAnswer(e) ==> Unanswered(past, e.i))
    && match e
       case AnsweredRestarted(i, t) => ConnectionLost(i) in past && CutUnder(past, i, t)
       case AnsweredOtherwise(i) => ConnectionLost(i) in past ==> forall t :: !CutUnder(past, i, t)
       case _ => true
  }

  ghost predicate AnswerRightAt(log: seq<Event>, j: int)
    requires 0 <= j < |log|
  {
    AnswerRight(log[..j], log[j])
  }

  // A transition the invocation was admitted under and that replaces its target is its boundary.
  ghost predicate BoundaryIs(
    boundary: Option<nat>, weaverID: string, generationID: string, transitions: map<nat, Transition>, log: seq<Event>,
    i: nat)
  {
    forall t ::
      (t in transitions && transitions[t].prior.Some? && InvokeAdmitted(i, Some(t)) in log
       && Matches(transitions[t].prior.value, weaverID, generationID)) ==> boundary == Some(t)
  }

  ghost predicate LossFacts(i: nat, pc: InvokePc, transitions: map<nat, Transition>, log: seq<Event>) {
    && (!pc.Ended? ==> Unanswered(log, i))
    && match pc
       case Arriving => ConnectionLost(i) !in log
       case Holding => ConnectionLost(i) !in log
       case WaitingFor(_) => ConnectionLost(i) !in log
       case Admitted(w, g, b) => ConnectionLost(i) !in log && BoundaryIs(b, w, g, transitions, log, i)
       case Sent(w, g, b) => ConnectionLost(i) !in log && BoundaryIs(b, w, g, transitions, log, i)
       case Awaiting(w, g, b) => ConnectionLost(i) !in log && BoundaryIs(b, w, g, transitions, log, i)
       case Lost(w, g, b, delivered) =>
         ConnectionLost(i) in log && BoundaryIs(b, w, g, transitions, log, i) && (!delivered ==> !SentFrame(log, i))
       case Ended => true
  }

  ghost predicate AnswersRight(log: seq<Event>) {
    forall j :: 0 <= j < |log| ==> AnswerRightAt(log, j)
  }

  ghost predicate AnswersInv(w: World) {
    && (forall i :: i in w.invokes ==> LossFacts(i, w.invokes[i], w.transitions, w.log))
    && (forall e :: e in w.log && (e.ConnectionLost? || IsAnswer(e)) ==> e.i in w.invokes)
    && (forall e :: e in w.log && e.InvokeAdmitted? && e.during.Some? ==> e.during.value in w.transitions)
    && AnswersRight(w.log)
  }

  predicate OfInvocation(e: Event) {
    e.InvokeAdmitted? || e.FrameSent? || e.ConnectionLost? || e.AnsweredRestarted? || e.AnsweredOtherwise?
  }

  // ------------------------------------------------------------ what concerns no invocation

  ghost predicate GrowsQuietly(log: seq<Event>, more: seq<Event>) {
    && log <= more
    && forall j :: |log| <= j < |more| ==> !OfInvocation(more[j])
  }

  lemma {:induction false} QuietLog(log: seq<Event>, more: seq<Event>)
    requires GrowsQuietly(log, more)
    ensures forall e :: e in log ==> e in more
    ensures forall e :: e in more && OfInvocation(e) ==> e in log
  {
    forall e | e in more && OfInvocation(e)
      ensures e in log
    {
      var j :| 0 <= j < |more| && more[j] == e;
      assert log[j] == e;
    }
    forall e | e in log
      ensures e in more
    {
      var j :| 0 <= j < |log| && log[j] == e;
      assert more[j] == e;
    }
  }

  lemma {:induction false} QuietAnswers(log: seq<Event>, more: seq<Event>)
    requires AnswersRight(log) && GrowsQuietly(log, more)
    ensures AnswersRight(more)
  {
    hide AnswerRight;
    forall j | 0 <= j < |more|
      ensures AnswerRightAt(more, j)
    {
      if j < |log| {
        assert AnswerRightAt(log, j);
        assert more[..j] == log[..j];
      } else {
        NoAnswer(more[..j], more[j]);
      }
    }
  }

  lemma {:induction false} NoAnswer(past: seq<Event>, e: Event)
    requires !OfInvocation(e)
    ensures AnswerRight(past, e)
  {
  }

  ghost predicate PriorsStay(before: map<nat, Transition>, after: map<nat, Transition>) {
    forall t :: t in before ==> t in after && after[t].prior == before[t].prior
  }

  ghost predicate OnlyArrives(before: map<nat, InvokePc>, after: map<nat, InvokePc>) {
    && (forall i :: i in before ==> i in after && after[i] == before[i])
    && (forall i :: i in after && i !in before ==> after[i] == Arriving)
  }

  lemma {:induction false} QuietKeeps(w: World, v: World)
    requires AnswersInv(w) && GrowsQuietly(w.log, v.log) && PriorsStay(w.transitions, v.transitions)
    requires OnlyArrives(w.invokes, v.invokes)
    ensures AnswersInv(v)
  {
    hide AnswersRight, Matches, SentFrame;
    QuietLog(w.log, v.log);
    QuietAnswers(w.log, v.log);
    hide GrowsQuietly;
    forall i | i in v.invokes
      ensures LossFacts(i, v.invokes[i], v.transitions, v.log)
    {
      if i in w.invokes {
        QuietFacts(w, v, i, v.invokes[i]);
      }
    }
    hide LossFacts;
  }

  lemma {:induction false} QuietFacts(w: World, v: World, i: nat, pc: InvokePc)
    requires LossFacts(i, pc, w.transitions, w.log) && PriorsStay(w.transitions, v.transitions)
    requires forall e :: e in w.log && e.InvokeAdmitted? && e.during.Some? ==> e.during.value in w.transitions
    requires forall e :: e in w.log ==> e in v.log
    requires forall e :: e in v.log && OfInvocation(e) ==> e in w.log
    ensures LossFacts(i, pc, v.transitions, v.log)
  {
    hide Matches;
    assert SentFrame(v.log, i) ==> SentFrame(w.log, i);
    hide SentFrame;
  }

  // A step notes where its transition stands, and then at most one thing more.
  ghost predicate Tells(w: World, v: World, t: nat)
    requires t in w.runs
  {
    || v.log == w.log
    || (exists e: Event :: AppendsOne(w.log, v.log, e) && !OfInvocation(e) && !e.Took?
                           && (e.FirstWriteRefused? ==> e.t == t && w.runs[t].FirstWrite?))
  }

  lemma {:induction false} TellsOne(w: World, v: World, t: nat, e: Event)
    requires t in w.runs && v.log == w.log + [e] && !OfInvocation(e) && !e.Took?
    requires e.FirstWriteRefused? ==> e.t == t && w.runs[t].FirstWrite?
    ensures Tells(w, v, t)
  {
    assert AppendsOne(w.log, v.log, e);
  }

  lemma {:induction false} PutTells(w: World, t: nat, u: Transition, failure: Option<Failure>, a: Answer)
    requires t in w.transitions
    ensures var v := Put(w, t, u, failure, a); v.log == w.log || v.log == w.log + [CutoverEntered(t, u.prior)]
  {
    hide Accepted, RecordOf;
  }

  lemma {:induction false} WritingTells(w: World, t: nat, a: Answer)
    requires RunEnabled(w, t, a) && Writes(w.runs[t])
    ensures Tells(w, TakeStep(w, t, a), t)
  {
    hide Accepted, Put, WithState, Tells;
    var v, u := TakeStep(w, t, a), w.transitions[t];
    match w.runs[t] {
      case EnteringCutover(p) =>
        WrittenTells(w, v, t, WithState(u, Restarting, Some(p)), None, a);
      case OldStopped(p) =>
        WrittenTells(w, v, t, WithState(u, Restarting, Some(p)), None, a);
      case Publishing(g, p) =>
        WrittenTells(w, v, t, WithState(u.(generationID := w.children[g].generationID), Running, Some(p)), None, a);
      case FailingProbe(p) =>
        WrittenTells(w, v, t, WithState(u, Running, Some(p)), Some(Failure("probe", a.message)), a);
      case Failing(stage, _) =>
        WrittenTells(w, v, t, WithState(u, Failed, None), Some(Failure(stage, a.message)), a);
    }
  }

  lemma {:induction false} WrittenTells(
    w: World, v: World, t: nat, u: Transition, failure: Option<Failure>, a: Answer)
    requires t in w.runs && t in w.transitions && (v.log == Put(w, t, u, failure, a).log || v.log == w.log)
    ensures Tells(w, v, t)
  {
    hide Put, Tells;
    PutTells(w, t, u, failure, a);
    if v.log == w.log + [CutoverEntered(t, u.prior)] {
      TellsOne(w, v, t, CutoverEntered(t, u.prior));
    } else {
      assert v.log == w.log;
      SameLogTells(w, v, t);
    }
  }

  lemma {:induction false} SameLogTells(w: World, v: World, t: nat)
    requires t in w.runs && v.log == w.log
    ensures Tells(w, v, t)
  {
  }

  lemma {:induction false} TakeStepTells(w: World, t: nat, a: Answer)
    requires Good(w) && RunEnabled(w, t, a)
    ensures Tells(w, TakeStep(w, t, a), t)
  {
    hide Good, Accepted, Put, Tells, Writes;
    var v, u := TakeStep(w, t, a), w.transitions[t];
    match w.runs[t] {
      case FirstWrite => FirstWriteTells(w, t, a);
      case Verifying => VerifyingTells(w, t, a);
      case StoppingOld(_) =>
        if a.ok {
          TellsOne(w, v, t, OldGone(t, u.generationID));
        } else {
          SameLogTells(w, v, t);
        }
      case NewPrepared(g, _) =>
        if a.ok {
          TellsOne(w, v, t, ReplacementStarted(t, g, u.prior, u.generationID));
        } else {
          SameLogTells(w, v, t);
        }
      case _ => RestTells(w, t, a);
    }
  }

  lemma {:induction false} FirstWriteTells(w: World, t: nat, a: Answer)
    requires Good(w) && RunEnabled(w, t, a) && w.runs[t].FirstWrite?
    ensures Tells(w, TakeStep(w, t, a), t)
  {
    hide Accepted, RecordOf, Tells, Good;
    FirstOpensNothing(w, t);
    var v, u := TakeStep(w, t, a), w.transitions[t];
    if Accepted(WithState(u, u.state, u.probe), None, a) {
      WrittenTells(w, v, t, WithState(u, u.state, u.probe), None, a);
    } else {
      TellsOne(w, v, t, FirstWriteRefused(t));
    }
  }

  // The first write never enters the cutover of a replacement.
  lemma {:induction false} FirstOpensNothing(w: World, t: nat)
    requires Good(w) && t in w.runs && w.runs[t].FirstWrite?
    ensures t in w.transitions && (w.transitions[t].prior.Some? ==> w.transitions[t].state == Probing)
  {
    hide ClaimInv, ChildInv, StartsInv, RunsChild, EvidenceInv, RecordInv, LockInv, CutInv, InvokesInv, LogGood, DurableInv,
      FinishInv, EpochInv;
    assert RunState(w.runs[t], w.transitions[t]);
  }

  lemma {:induction false} VerifyingTells(w: World, t: nat, a: Answer)
    requires RunEnabled(w, t, a) && w.runs[t].Verifying?
    ensures Tells(w, TakeStep(w, t, a), t)
  {
    hide Tells;
    var v := TakeStep(w, t, a);
    if v.log == w.log {
      SameLogTells(w, v, t);
    } else {
      TellsOne(w, v, t, ProbePassed(t));
    }
  }

  lemma {:induction false} RestTells(w: World, t: nat, a: Answer)
    requires RunEnabled(w, t, a) && !w.runs[t].FirstWrite? && !w.runs[t].Verifying? && !w.runs[t].StoppingOld?
    requires !w.runs[t].NewPrepared?
    ensures Tells(w, TakeStep(w, t, a), t)
  {
    hide Put, Accepted, Tells;
    if Writes(w.runs[t]) {
      WritingTells(w, t, a);
    } else {
      SameLogTells(w, TakeStep(w, t, a), t);
    }
  }

  lemma {:induction false} RunIsQuiet(w: World, t: nat, a: Answer)
    requires Good(w) && RunEnabled(w, t, a)
    ensures GrowsQuietly(w.log, RunStep(w, t, a).log)
  {
    hide Good, TakeStep;
    NotedKeeps(w, Took(t, w.runs[t], a));
    StillEnabled(w, t, a, Took(t, w.runs[t], a));
    TakeStepTells(Noted(w, Took(t, w.runs[t], a)), t, a);
  }

  // Only steps of invocations concern invocations.
  lemma {:induction false} OthersAreQuiet(w: World, a: Action)
    requires Good(w) && Enabled(w, a) && !a.StepInvoke?
    ensures GrowsQuietly(w.log, Do(w, a).log) && OnlyArrives(w.invokes, Do(w, a).invokes)
  {
    hide Good, RunStep, StartStep, RestartStep, InvokeStep, RunEnabled;
    match a {
      case StepRun(t, answer) =>
        RunIsQuiet(w, t, answer);
        RunLeavesInvokes(w, t, answer);
      case StepStart(s, answer) => StartIsQuiet(w, s, answer);
      case BeginRestart(t, id, minted, status, readable) => RestartIsQuiet(w, t, id, minted, status, readable);
      case _ =>
    }
  }

  lemma {:induction false} RunLeavesInvokes(w: World, t: nat, a: Answer)
    requires RunEnabled(w, t, a)
    ensures RunStep(w, t, a).invokes == w.invokes
  {
    hide Put, Accepted, Blank, OldIsGone;
    PutLeavesInvokes(Noted(w, Took(t, w.runs[t], a)), t);
  }

  lemma {:induction false} PutLeavesInvokes(w: World, t: nat)
    requires t in w.transitions
    ensures forall u, failure, a :: Put(w, t, u, failure, a).invokes == w.invokes
  {
    hide Accepted;
  }

  lemma {:induction false} StartIsQuiet(w: World, s: nat, a: Answer)
    requires StartEnabled(w, s, a)
    ensures GrowsQuietly(w.log, StartStep(w, s, a).log) && StartStep(w, s, a).invokes == w.invokes
  {
    hide WithPhase, Released, ChildLives;
  }

  lemma {:induction false} RestartIsQuiet(w: World, t: nat, id: string, minted: string, status: Status, readable: bool)
    requires MayBegin(w, t, id, minted)
    ensures var v := RestartStep(w, t, id, minted, status, readable); v.log == w.log && v.invokes == w.invokes
  {
    hide Choose, Blank;
  }

  lemma {:induction false} PriorsAreKept(w: World, a: Action)
    requires Enabled(w, a)
    ensures PriorsStay(w.transitions, Do(w, a).transitions)
  {
    hide Do, Enabled;
    forall t | t in w.transitions
      ensures t in Do(w, a).transitions && Do(w, a).transitions[t].prior == w.transitions[t].prior
    {
      NobodyDisturbs(w, a, t);
    }
  }

  lemma {:induction false} OthersKeepAnswers(w: World, a: Action)
    requires Good(w) && AnswersInv(w) && Enabled(w, a) && !a.StepInvoke?
    ensures AnswersInv(Do(w, a))
  {
    hide Good, AnswersInv, Do, Enabled;
    OthersAreQuiet(w, a);
    PriorsAreKept(w, a);
    QuietKeeps(w, Do(w, a));
  }

  // ------------------------------------------------------------ the steps of an invocation

  // The invocation moves, and perhaps tells one thing about itself.
  ghost predicate Speaks(w: World, v: World, i: nat, pc: InvokePc, e: Option<Event>) {
    && i in w.invokes && v.invokes == w.invokes[i := pc] && v.transitions == w.transitions
    && v.log == Logged(w.log, e)
    && (e.Some? ==> OfInvocation(e.value) && e.value.i == i)
  }

  lemma {:induction false} SpeakingKeeps(w: World, v: World, i: nat, pc: InvokePc, e: Option<Event>)
    requires AnswersInv(w) && Speaks(w, v, i, pc, e)
    requires LossFacts(i, pc, v.transitions, v.log) && (e.Some? ==> AnswerRight(w.log, e.value))
    requires e.Some? && e.value.InvokeAdmitted? && e.value.during.Some? ==> e.value.during.value in w.transitions
    ensures AnswersInv(v)
  {
    hide AnswersRight, AnswerRight;
    assert forall f :: f in v.log <==> f in w.log || e == Some(f);
    assert AnswersRight(v.log) by {
      if e.Some? {
        AnswersLonger(w.log, e.value);
      }
    }
    forall j | j in v.invokes
      ensures LossFacts(j, v.invokes[j], v.transitions, v.log)
    {
      if j != i {
        OthersLoseNothing(w, v, i, j, w.invokes[j], e);
      }
    }
    hide LossFacts;
  }

  lemma {:induction false} OthersLoseNothing(w: World, v: World, i: nat, j: nat, pc: InvokePc, e: Option<Event>)
    requires LossFacts(j, pc, w.transitions, w.log) && v.transitions == w.transitions && j != i
    requires forall f :: f in v.log <==> f in w.log || e == Some(f)
    requires e.Some? ==> OfInvocation(e.value) && e.value.i == i
    ensures LossFacts(j, pc, v.transitions, v.log)
  {
    hide Matches;
    assert SentFrame(v.log, j) ==> SentFrame(w.log, j);
    hide SentFrame;
  }

  lemma {:induction false} AnswersLonger(log: seq<Event>, e: Event)
    requires AnswersRight(log) && AnswerRight(log, e)
    ensures AnswersRight(log + [e])
  {
    hide AnswerRight;
    var more := log + [e];
    forall j | 0 <= j < |more|
      ensures AnswerRightAt(more, j)
    {
      if j < |log| {
        assert AnswerRightAt(log, j);
        assert more[..j] == log[..j];
      } else {
        assert more[..j] == log;
      }
    }
  }

  lemma {:induction false} OwnLoss(w: World, i: nat)
    requires AnswersInv(w) && i in w.invokes
    ensures LossFacts(i, w.invokes[i], w.transitions, w.log)
  {
    hide LossFacts;
  }

  // Nothing is said: what holds at the old position holds at the new one.
  lemma {:induction false} SilentMove(w: World, i: nat, pc: InvokePc, admission: Option<Holder>)
    requires AnswersInv(w) && i in w.invokes
    requires LossFacts(i, w.invokes[i], w.transitions, w.log) ==> LossFacts(i, pc, w.transitions, w.log)
    ensures AnswersInv(AtInvoke(w, i, pc).(admission := admission))
  {
    hide AnswersInv, LossFacts;
    OwnLoss(w, i);
    SpeakingKeeps(w, AtInvoke(w, i, pc).(admission := admission), i, pc, None);
  }

  lemma {:induction false} Answered(w: World, i: nat, e: Event, admission: Option<Holder>)
    requires AnswersInv(w) && i in w.invokes && AnswerRight(w.log, e)
    requires (e.AnsweredOtherwise? || e.AnsweredRestarted?) && e.i == i
    ensures AnswersInv(AtInvoke(w, i, Ended).(admission := admission, log := w.log + [e]))
  {
    hide AnswersInv, AnswerRight;
    SpeakingKeeps(w, AtInvoke(w, i, Ended).(admission := admission, log := w.log + [e]), i, Ended, Some(e));
  }

  lemma {:induction false} BeforeLoss(w: World, i: nat)
    requires AnswersInv(w) && i in w.invokes && !w.invokes[i].Lost? && !w.invokes[i].Ended?
    ensures AnswerRight(w.log, AnsweredOtherwise(i))
  {
    OwnLoss(w, i);
    hide AnswersInv, CutUnder, BoundaryIs;
  }

  lemma {:induction false} LosesConnection(w: World, i: nat, delivered: bool, admission: Option<Holder>)
    requires Good(w) && AnswersInv(w) && i in w.invokes
    requires w.invokes[i].Admitted? || w.invokes[i].Sent? || w.invokes[i].Awaiting?
    requires w.invokes[i].Admitted? ==> !delivered
    requires !w.invokes[i].Admitted? ==> delivered
    ensures var pc := w.invokes[i];
            AnswersInv(AtInvoke(Noted(w, ConnectionLost(i)), i, Lost(pc.weaverID, pc.generationID, pc.boundary, delivered))
                         .(admission := admission))
  {
    if w.invokes[i].Admitted? {
      UnsentSaysSo(w, i);
    }
    hide Good, SentFrame;
    var pc, e := w.invokes[i], ConnectionLost(i);
    var lost := Lost(pc.weaverID, pc.generationID, pc.boundary, delivered);
    OwnLoss(w, i);
    hide AnswersInv;
    LossIsNoted(w, i, lost, e);
    hide LossFacts, AnswerRight;
    NoAnswerYet(w.log, i);
    SpeakingKeeps(w, AtInvoke(Noted(w, e), i, lost).(admission := admission), i, lost, Some(e));
  }

  lemma {:induction false} NoAnswerYet(log: seq<Event>, i: nat)
    ensures AnswerRight(log, ConnectionLost(i))
  {
  }

  lemma {:induction false} LossIsNoted(w: World, i: nat, lost: InvokePc, e: Event)
    requires e == ConnectionLost(i) && lost.Lost?
    requires BoundaryIs(lost.boundary, lost.weaverID, lost.generationID, w.transitions, w.log, i) && Unanswered(w.log, i)
    requires !lost.delivered ==> !SentFrame(w.log, i)
    ensures LossFacts(i, lost, w.transitions, w.log + [e])
  {
    hide Matches;
  }

  lemma {:induction false} UnsentSaysSo(w: World, i: nat)
    requires Good(w) && i in w.invokes && w.invokes[i].Admitted?
    ensures !SentFrame(w.log, i)
  {
    hide ClaimInv, ChildInv, StartsInv, RunsChild, EvidenceInv, RecordInv, LockInv, CutInv, LogGood, DurableInv, FinishInv,
      EpochInv, TransitionsInv, SentFrame;
    assert InvokeFacts(i, w.invokes[i], w.transitions, w.log);
  }

  lemma {:induction false} AdmissionBinds(w: World, i: nat, target: Target)
    requires Good(w) && i in w.invokes && w.invokes[i].Holding? && target.Reach?
    requires ConnectionLost(i) !in w.log && Unanswered(w.log, i)
    ensures LossFacts(i, Admitted(target.weaverID, target.generationID, BoundaryOf(w, target.weaverID, target.generationID)),
                      w.transitions, w.log + [InvokeAdmitted(i, w.current)])
    ensures w.current.Some? ==> w.current.value in w.transitions
  {
    NotAdmittedBefore(w, i);
    CurrentIsLatest(w);
    hide Good, Matches;
  }

  lemma {:induction false} NotAdmittedBefore(w: World, i: nat)
    requires Good(w) && i in w.invokes && w.invokes[i].Holding?
    ensures forall during :: InvokeAdmitted(i, during) !in w.log
  {
    hide ClaimInv, ChildInv, StartsInv, RunsChild, EvidenceInv, RecordInv, LockInv, CutInv, LogGood, DurableInv, FinishInv,
      EpochInv, TransitionsInv, SentFrame;
    assert InvokeFacts(i, w.invokes[i], w.transitions, w.log);
  }

  lemma {:induction false} CurrentIsLatest(w: World)
    requires Good(w)
    ensures w.current.Some? ==> w.current.value in w.transitions && w.transitions[w.current.value].epoch == w.epoch
  {
    hide ClaimInv, ChildInv, StartsInv, RunsChild, EvidenceInv, RecordInv, LockInv, CutInv, LogGood, DurableInv, FinishInv,
      EpochInv, InvokesInv;
  }

  lemma {:induction false} HoldingAnswersRight(w: World, i: nat, status: Status, ok: bool, gone: bool)
    requires Good(w) && AnswersInv(w) && InvokeEnabled(w, i, ok, gone) && w.invokes[i].Holding?
    ensures AnswersInv(InvokeStep(w, i, status, ok, gone))
  {
    hide Good, AnswersInv, TargetOf, BoundaryOf;
    var target := TargetOf(w, status);
    match target {
      case Await(t) => SilentMove(w, i, WaitingFor(t), None);
      case NoTarget =>
        BeforeLoss(w, i);
        Answered(w, i, AnsweredOtherwise(i), None);
      case Reach(weaverID, generationID) =>
        OwnLoss(w, i);
        AdmissionBinds(w, i, target);
        var pc := Admitted(weaverID, generationID, BoundaryOf(w, weaverID, generationID));
        NoAnswerToAdmission(w.log, i, w.current);
        hide LossFacts, AnswerRight;
        SpeakingKeeps(w, InvokeStep(w, i, status, ok, gone), i, pc, Some(InvokeAdmitted(i, w.current)));
    }
  }

  lemma {:induction false} NoAnswerToAdmission(log: seq<Event>, i: nat, during: Option<nat>)
    ensures AnswerRight(log, InvokeAdmitted(i, during))
    ensures forall w, g :: AnswerRight(log, FrameSent(i, w, g))
  {
  }

  lemma {:induction false} SendingAnswersRight(w: World, i: nat, status: Status, ok: bool, gone: bool)
    requires Good(w) && AnswersInv(w) && InvokeEnabled(w, i, ok, gone) && w.invokes[i].Admitted?
    ensures AnswersInv(InvokeStep(w, i, status, ok, gone))
  {
    hide Good, AnswersInv;
    var pc := w.invokes[i];
    if ok {
      OwnLoss(w, i);
      var sent := Sent(pc.weaverID, pc.generationID, pc.boundary);
      var e := FrameSent(i, pc.weaverID, pc.generationID);
      NoAnswerToAdmission(w.log, i, None);
      FrameChangesNothing(w, i, sent, e);
      hide LossFacts, AnswerRight;
      SpeakingKeeps(w, InvokeStep(w, i, status, ok, gone), i, sent, Some(e));
    } else {
      LosesConnection(w, i, false, None);
    }
  }

  lemma {:induction false} FrameChangesNothing(w: World, i: nat, sent: InvokePc, e: Event)
    requires e.FrameSent? && sent.Sent? && LossFacts(i, sent, w.transitions, w.log)
    ensures LossFacts(i, sent, w.transitions, w.log + [e])
  {
    hide Matches;
  }

  lemma {:induction false} AwaitingAnswersRight(w: World, i: nat, status: Status, ok: bool, gone: bool)
    requires Good(w) && AnswersInv(w) && InvokeEnabled(w, i, ok, gone) && (w.invokes[i].Sent? || w.invokes[i].Awaiting?)
    ensures AnswersInv(InvokeStep(w, i, status, ok, gone))
  {
    hide Good, AnswersInv;
    var pc := w.invokes[i];
    if !ok {
      LosesConnection(w, i, true, if pc.Sent? then None else w.admission);
    } else if pc.Sent? {
      SilentMove(w, i, Awaiting(pc.weaverID, pc.generationID, pc.boundary), None);
    } else {
      BeforeLoss(w, i);
      Answered(w, i, AnsweredOtherwise(i), w.admission);
    }
  }

  // The frame an invocation has sent is the one its state remembers.
  lemma {:induction false} OnlyFrame(w: World, i: nat, weaverID: string, generationID: string)
    requires Good(w) && i in w.invokes && w.invokes[i].Lost? && w.invokes[i].delivered
    requires FrameSent(i, weaverID, generationID) in w.log
    ensures weaverID == w.invokes[i].weaverID && generationID == w.invokes[i].generationID
  {
    LostWasSent(w, i);
    OnlyLog(w);
    hide Good;
    var a :| 0 <= a < |w.log| && w.log[a] == FrameSent(i, weaverID, generationID);
    var b :| 0 <= b < |w.log| && w.log[b] == FrameSent(i, w.invokes[i].weaverID, w.invokes[i].generationID);
    if a < b {
      NotTwice(w.log, w.priorStop, a, b);
    } else if b < a {
      NotTwice(w.log, w.priorStop, b, a);
    }
  }

  lemma {:induction false} LostWasSent(w: World, i: nat)
    requires Good(w) && i in w.invokes && w.invokes[i].Lost? && w.invokes[i].delivered
    ensures var pc := w.invokes[i];
            && FrameSent(i, pc.weaverID, pc.generationID) in w.log
            && (pc.boundary.Some? ==>
                  BoundaryFacts(pc.boundary.value, pc.weaverID, pc.generationID, w.transitions, w.log, i))
  {
    hide ClaimInv, ChildInv, StartsInv, RunsChild, EvidenceInv, RecordInv, LockInv, CutInv, LogGood, DurableInv, FinishInv,
      EpochInv, TransitionsInv, SentFrame, BoundaryFacts, FrameFirst;
    assert InvokeFacts(i, w.invokes[i], w.transitions, w.log);
  }

  lemma {:induction false} CutoversAreKnown(w: World, t: nat)
    requires Good(w)
    ensures forall prior :: CutoverEntered(t, prior) in w.log ==>
                              t in w.transitions && w.transitions[t].prior == prior
                              && (prior.Some? ==> w.transitions[t].cutover)
    ensures t in w.transitions && w.transitions[t].prior.Some? && w.transitions[t].cutover ==>
              CutoverEntered(t, w.transitions[t].prior) in w.log
  {
    hide ClaimInv, ChildInv, StartsInv, RunsChild, EvidenceInv, RecordInv, LockInv, InvokesInv, LogGood, DurableInv, FinishInv,
      EpochInv, TransitionsInv;
  }

  // What a lost invocation's state says about the history, both ways.
  lemma {:induction false} LostIsCutIff(w: World, i: nat, t: nat)
    requires Good(w) && i in w.invokes && w.invokes[i].Lost? && LossFacts(i, w.invokes[i], w.transitions, w.log)
    ensures CutUnder(w.log, i, t) <==>
            && w.invokes[i].delivered && w.invokes[i].boundary == Some(t)
            && t in w.transitions && w.transitions[t].cutover
  {
    var pc := w.invokes[i];
    CutoversAreKnown(w, t);
    if pc.delivered {
      LostWasSent(w, i);
      hide Good;
      if pc.boundary == Some(t) && w.transitions[t].cutover {
        assert CutAway(w.log, i, t, pc.weaverID, pc.generationID, w.transitions[t].prior.value);
      }
      if CutUnder(w.log, i, t) {
        var x, g, prior :| CutAway(w.log, i, t, x, g, prior);
        OnlyFrame(w, i, x, g);
      }
    } else {
      hide Good, Matches;
    }
  }

  lemma {:induction false} LostAnswersRight(w: World, i: nat, status: Status, ok: bool, gone: bool)
    requires Good(w) && AnswersInv(w) && InvokeEnabled(w, i, ok, gone) && w.invokes[i].Lost?
    ensures AnswersInv(InvokeStep(w, i, status, ok, gone))
  {
    hide Good, AnswersInv;
    OwnLoss(w, i);
    var pc := w.invokes[i];
    if gone {
      SilentMove(w, i, Ended, w.admission);
    } else {
      forall t
        ensures CutUnder(w.log, i, t) <==>
                pc.delivered && pc.boundary == Some(t) && t in w.transitions && w.transitions[t].cutover
      {
        LostIsCutIff(w, i, t);
      }
      hide CutUnder, BoundaryIs;
      var e := if pc.delivered && pc.boundary.Some? && w.transitions[pc.boundary.value].cutover
        then AnsweredRestarted(i, pc.boundary.value) else AnsweredOtherwise(i);
      assert AnswerRight(w.log, e);
      Answered(w, i, e, w.admission);
    }
  }

  lemma {:induction false} WaitingAnswersRight(w: World, i: nat, status: Status, ok: bool, gone: bool)
    requires AnswersInv(w) && InvokeEnabled(w, i, ok, gone) && (w.invokes[i].Arriving? || w.invokes[i].WaitingFor?)
    ensures AnswersInv(InvokeStep(w, i, status, ok, gone))
  {
    hide AnswersInv;
    if gone {
      SilentMove(w, i, Ended, w.admission);
    } else if w.invokes[i].Arriving? {
      SilentMove(w, i, Holding, Some(Invoker(i)));
    } else if ok {
      SilentMove(w, i, Arriving, w.admission);
    } else {
      BeforeLoss(w, i);
      Answered(w, i, AnsweredOtherwise(i), w.admission);
    }
  }

  lemma {:induction false} InvokeKeepsAnswers(w: World, i: nat, status: Status, ok: bool, gone: bool)
    requires Good(w) && AnswersInv(w) && InvokeEnabled(w, i, ok, gone)
    ensures AnswersInv(InvokeStep(w, i, status, ok, gone))
  {
    hide Good, AnswersInv, InvokeStep;
    match w.invokes[i] {
      case Arriving => WaitingAnswersRight(w, i, status, ok, gone);
      case WaitingFor(_) => WaitingAnswersRight(w, i, status, ok, gone);
      case Holding => HoldingAnswersRight(w, i, status, ok, gone);
      case Admitted(_, _, _) => SendingAnswersRight(w, i, status, ok, gone);
      case Sent(_, _, _) => AwaitingAnswersRight(w, i, status, ok, gone);
      case Awaiting(_, _, _) => AwaitingAnswersRight(w, i, status, ok, gone);
      case Lost(_, _, _, _) => LostAnswersRight(w, i, status, ok, gone);
    }
  }

  lemma {:induction false} StepKeepsAnswers(w: World, a: Action)
    requires Good(w) && AnswersInv(w) && Enabled(w, a)
    ensures AnswersInv(Do(w, a))
  {
    hide Good, AnswersInv, InvokeStep, RunStep, StartStep, RestartStep;
    if a.StepInvoke? {
      InvokeKeepsAnswers(w, a.i, a.status, a.ok, a.gone);
    } else {
      OthersKeepAnswers(w, a);
    }
  }

  lemma {:induction false} RunAnswersRight(run: seq<World>, k: nat)
    requires IsRun(run) && k < |run|
    ensures AnswersInv(run[k])
  {
    hide Good, Enabled, Do, SoundRecord;
    if k == 0 {
      var record :| SoundRecord(record) && run[0] == Fresh(record);
    } else {
      hide AnswersInv;
      RunAnswersRight(run, k - 1);
      RunStaysGood(run, k - 1);
      assert StepHere(run, k - 1);
      var a :| StepsTo(run[k - 1], a, run[k]);
      StepKeepsAnswers(run[k - 1], a);
    }
  }

  /** Over every run: an answer says restarted for t exactly when the connection was lost before,
      the invocation was admitted while t was current, its frame went to the generation t
      replaces, and t had entered its cutover by then. */
  lemma {:induction false} AnsweredRestartedIff(run: seq<World>, k: nat, j: nat, i: nat, t: nat)
    requires IsRun(run) && k < |run| && j < |run[k].log|
    requires run[k].log[j] == AnsweredOtherwise(i) || (run[k].log[j].AnsweredRestarted? && run[k].log[j].i == i)
    ensures var past := run[k].log[..j];
            run[k].log[j] == AnsweredRestarted(i, t) <==> ConnectionLost(i) in past && CutUnder(past, i, t)
  {
    RunAnswersRight(run, k);
    var log := run[k].log;
    var e, past := log[j], log[..j];
    assert AnswerRightAt(log, j);
    hide AnswersInv, IsRun, CutAway;
    if e.AnsweredRestarted? && CutUnder(past, i, t) {
      assert InvokeAdmitted(i, Some(t)) in log;
      assert e in log;
      NeverRelabelledByALaterRestart(run, k, i, Some(t), e.t);
    }
  }

  lemma {:induction false} AnsweredBefore(log: seq<Event>, a: nat, b: nat)
    requires AnswersRight(log) && a < b < |log| && IsAnswer(log[a]) && IsAnswer(log[b])
    ensures log[a].i != log[b].i
  {
    assert AnswerRightAt(log, b);
    assert log[..b][a] in log[..b];
  }

  /** No invocation is answered twice. */
  lemma {:induction false} AnsweredOnce(run: seq<World>, k: nat, a: nat, b: nat)
    requires IsRun(run) && k < |run| && a < |run[k].log| && b < |run[k].log|
    requires IsAnswer(run[k].log[a]) && IsAnswer(run[k].log[b]) && run[k].log[a].i == run[k].log[b].i
    ensures a == b
  {
    RunAnswersRight(run, k);
    hide AnswersRight, IsRun;
    if a < b {
      AnsweredBefore(run[k].log, a, b);
    } else if b < a {
      AnsweredBefore(run[k].log, b, a);
    }
  }

  // The invocation has just been answered.
  ghost predicate JustAnswered(before: seq<Event>, log: seq<Event>, i: nat) {
    exists e :: AppendsOne(before, log, e) && IsAnswer(e) && e.i == i
  }

  /** A step that ends an invocation whose caller is still there answers it. */
  lemma {:induction false} EndIsAnswered(w: World, v: World, i: nat, status: Status, ok: bool)
    requires InvokeEnabled(w, i, ok, false) && v == InvokeStep(w, i, status, ok, false)
    requires i in v.invokes && v.invokes[i].Ended?
    ensures JustAnswered(w.log, v.log, i)
  {
    hide InvokeStep, JustAnswered;
    match w.invokes[i] {
      case Arriving => GoesOn(w, i, status, ok);
      case Admitted(_, _, _) => GoesOn(w, i, status, ok);
      case Sent(_, _, _) => GoesOn(w, i, status, ok);
      case Holding => HoldingIsAnswered(w, v, i, status, ok);
      case Awaiting(_, _, _) => OthersAreAnswered(w, v, i, status, ok);
      case WaitingFor(_) => OthersAreAnswered(w, v, i, status, ok);
      case Lost(_, _, _, _) => LostIsAnswered(w, v, i, status, ok);
    }
  }

  lemma {:induction false} GoesOn(w: World, i: nat, status: Status, ok: bool)
    requires InvokeEnabled(w, i, ok, false) && (w.invokes[i].Arriving? || w.invokes[i].Admitted? || w.invokes[i].Sent?)
    ensures i in InvokeStep(w, i, status, ok, false).invokes && !InvokeStep(w, i, status, ok, false).invokes[i].Ended?
  {
  }

  lemma {:induction false} AnswerIsJust(log: seq<Event>, i: nat, e: Event)
    requires IsAnswer(e) && e.i == i
    ensures JustAnswered(log, log + [e], i)
  {
    assert AppendsOne(log, log + [e], e);
  }

  lemma {:induction false} HoldingIsAnswered(w: World, v: World, i: nat, status: Status, ok: bool)
    requires InvokeEnabled(w, i, ok, false) && v == InvokeStep(w, i, status, ok, false) && w.invokes[i].Holding?
    requires i in v.invokes && v.invokes[i].Ended?
    ensures JustAnswered(w.log, v.log, i)
  {
    hide TargetOf, BoundaryOf, JustAnswered;
    AnswerIsJust(w.log, i, AnsweredOtherwise(i));
  }

  lemma {:induction false} OthersAreAnswered(w: World, v: World, i: nat, status: Status, ok: bool)
    requires InvokeEnabled(w, i, ok, false) && v == InvokeStep(w, i, status, ok, false)
    requires w.invokes[i].Awaiting? || w.invokes[i].WaitingFor?
    requires i in v.invokes && v.invokes[i].Ended?
    ensures JustAnswered(w.log, v.log, i)
  {
    hide JustAnswered;
    AnswerIsJust(w.log, i, AnsweredOtherwise(i));
  }

  lemma {:induction false} LostIsAnswered(w: World, v: World, i: nat, status: Status, ok: bool)
    requires InvokeEnabled(w, i, ok, false) && v == InvokeStep(w, i, status, ok, false) && w.invokes[i].Lost?
    ensures JustAnswered(w.log, v.log, i)
  {
    hide JustAnswered;
    AnswerIsJust(w.log, i, AnsweredOtherwise(i));
    if w.invokes[i].boundary.Some? {
      AnswerIsJust(w.log, i, AnsweredRestarted(i, w.invokes[i].boundary.value));
    }
  }
}
