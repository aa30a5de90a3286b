/** How transitions end: with the replacement running exactly when nothing they asked for was
    refused, and otherwise by the stage that was refused (cli/cmd/mill/restart.go). */
module RestartEnds {
  import opened Basics
  import opened RestartRecord
  import opened RestartProtocol
  import opened RestartInvariant
  import opened RestartRuns
  import opened RestartCutover
  import opened RestartTheorems
  import opened RestartOutcomes
  import opened RestartAnswers

  // The stage that fails when a transition at this position gets this answer.
  predicate Refuses(retry: bool, pc: RunPc, a: Answer, stage: string) {
    match pc
    case Verifying => stage == "probe" && (!a.ok || (!retry && (a.probe.None? || !a.probe.value.success)))
    case EnteringCutover(p) => stage == "state" && (!a.writeOk || !GoodProbe(p))
    case StoppingOld(_) => stage == "stop" && !a.ok
    case OldStopped(_) => stage == "state" && !a.writeOk
    case ReadyToStart(_) => stage == "launch" && !a.ok
    case NewPrepared(_, _) => stage == "launch" && !a.ok
    case NewBooting(_, _) => if a.ok then stage == "state" && Blank(a.generationID) else stage == "launch"
    case Publishing(_, _) => stage == "state" && !a.writeOk
    case _ => false
  }

  ghost predicate RefusedBy(log: seq<Event>, t: nat, retry: bool, stage: string, pc: RunPc, a: Answer) {
    Took(t, pc, a) in log && Refuses(retry, pc, a, stage)
  }

  ghost predicate Refused(log: seq<Event>, t: nat, retry: bool, stage: string) {
    exists pc, a :: RefusedBy(log, t, retry, stage, pc, a)
  }

  ghost predicate NothingRefused(log: seq<Event>, t: nat, retry: bool) {
    forall stage :: !Refused(log, t, retry, stage)
  }

  // This stage was refused, and no other.
  ghost predicate Because(log: seq<Event>, t: nat, retry: bool, stage: string) {
    forall s :: Refused(log, t, retry, s) <==> s == stage
  }

  ghost predicate BecameReady(log: seq<Event>, t: nat, g: nat, generationID: string) {
    exists p, a :: ReadyBy(log, t, g, generationID, p, a)
  }

  ghost predicate ReadyBy(log: seq<Event>, t: nat, g: nat, generationID: string, p: Probe, a: Answer) {
    Took(t, NewBooting(g, p), a) in log && a.ok && a.generationID == generationID
  }

  ghost predicate WasLaunched(log: seq<Event>, t: nat, g: nat, prior: Option<Old>) {
    exists stopped :: ReplacementStarted(t, g, prior, stopped) in log
  }

  // The replacement was started, became ready under this name and took over.
  ghost predicate Replaced(log: seq<Event>, t: nat, u: Transition) {
    && u.state == Running && u.cutover && !Blank(u.generationID)
    && exists g :: WasLaunched(log, t, g, u.prior) && BecameReady(log, t, g, u.generationID)
  }

  predicate KeptOld(u: Transition) {
    u.state == Running && !u.cutover
  }

  ghost predicate HasEnded(log: seq<Event>, t: nat, u: Transition) {
    if FirstWriteRefused(t) in log then
      NothingRefused(log, t, u.retry) && if u.retry then u.state == Restarting else KeptOld(u)
    else if NothingRefused(log, t, u.retry) then Replaced(log, t, u)
    else exists stage :: FailedAt(log, t, u, stage)
  }

  // A refused probe leaves the old generation running; everything else fails the transition.
  ghost predicate FailedAt(log: seq<Event>, t: nat, u: Transition, stage: string) {
    Because(log, t, u.retry, stage) && if stage == "probe" && !u.retry then KeptOld(u) else u.state == Failed
  }

  predicate OnCourse(pc: RunPc) {
    || pc.FirstWrite? || pc.Verifying? || pc.AwaitingAdmission? || pc.EnteringCutover? || pc.StoppingOld?
    || pc.OldStopped? || pc.ReleasingOld? || pc.ReadyToStart? || pc.NewPrepared? || pc.NewBooting?
  }

  // published: what the process being published has published.
  ghost predicate CourseFacts(t: nat, pc: RunPc, u: Transition, published: string, log: seq<Event>) {
    if OnCourse(pc) then
      && FirstWriteRefused(t) !in log && NothingRefused(log, t, u.retry)
      && (pc.NewBooting? ==> WasLaunched(log, t, pc.g, u.prior))
    else if pc.Abandoning? || pc.GivingUp? then
      FirstWriteRefused(t) in log && NothingRefused(log, t, u.retry)
    else if pc.Completing? || pc.Unlocking? then
      HasEnded(log, t, u)
    else
      && FirstWriteRefused(t) !in log
      && match pc
         case Publishing(g, _) =>
           && WasLaunched(log, t, g, u.prior) && BecameReady(log, t, g, published)
           && if Blank(published) then Because(log, t, u.retry, "state") else NothingRefused(log, t, u.retry)
         case FailingProbe(_) => Because(log, t, u.retry, "probe")
         case Failing(stage, _) => Because(log, t, u.retry, stage) && (stage == "probe" ==> u.retry)
         case _ => Because(log, t, u.retry, "launch")
  }

  function PublishedBy(pc: RunPc, children: map<nat, Child>): string {
    if pc.Publishing? && pc.g in children then children[pc.g].generationID else ""
  }

  ghost predicate CourseInv(t: nat, pc: Option<RunPc>, u: Transition, children: map<nat, Child>, log: seq<Event>) {
    if pc.None? then HasEnded(log, t, u) else CourseFacts(t, pc.value, u, PublishedBy(pc.value, children), log)
  }

  ghost predicate EndsInv(w: World) {
    && (forall t :: t in w.transitions ==> CourseInv(t, PcOf(w.runs, t), w.transitions[t], w.children, w.log))
    && (forall e :: e in w.log && (e.Took? || e.FirstWriteRefused?) ==> e.t in w.transitions)
  }

  // ------------------------------------------------------------ how the history grows

  ghost predicate LogStep(log: seq<Event>, more: seq<Event>, t: nat, pc: RunPc, a: Answer) {
    && (forall e :: e in log ==> e in more) && Took(t, pc, a) in more
    && (forall e :: e in more && e.Took? ==> e in log || e == Took(t, pc, a))
    && (forall e :: e in more && e.FirstWriteRefused? ==> e in log || (e.t == t && pc.FirstWrite?))
  }

  lemma {:induction false} RefusalsGrow(
    log: seq<Event>, more: seq<Event>, t: nat, pc: RunPc, a: Answer, retry: bool, stage: string)
    requires LogStep(log, more, t, pc, a)
    ensures Refused(more, t, retry, stage) <==> Refused(log, t, retry, stage) || Refuses(retry, pc, a, stage)
  {
    hide Refuses;
    if Refused(more, t, retry, stage) {
      var c, b :| RefusedBy(more, t, retry, stage, c, b);
      assert Took(t, c, b) in log ==> RefusedBy(log, t, retry, stage, c, b);
    }
    if Refused(log, t, retry, stage) {
      var c, b :| RefusedBy(log, t, retry, stage, c, b);
      assert RefusedBy(more, t, retry, stage, c, b);
    }
    if Refuses(retry, pc, a, stage) {
      assert RefusedBy(more, t, retry, stage, pc, a);
    }
  }

  lemma {:induction false} CourseGrows(log: seq<Event>, more: seq<Event>, t: nat, pc: RunPc, a: Answer, retry: bool)
    requires LogStep(log, more, t, pc, a)
    ensures NothingRefused(log, t, retry) && (forall s :: !Refuses(retry, pc, a, s)) ==> NothingRefused(more, t, retry)
    ensures forall s :: NothingRefused(log, t, retry) && Refuses(retry, pc, a, s) ==> Because(more, t, retry, s)
    ensures forall s :: Because(log, t, retry, s) && (forall x :: Refuses(retry, pc, a, x) ==> x == s)
                        ==> Because(more, t, retry, s)
  {
    forall s
      ensures Refused(more, t, retry, s) <==> Refused(log, t, retry, s) || Refuses(retry, pc, a, s)
    {
      RefusalsGrow(log, more, t, pc, a, retry, s);
    }
    hide Refused, LogStep;
  }

  lemma {:induction false} LaunchStays(log: seq<Event>, more: seq<Event>, t: nat)
    requires forall e :: e in log ==> e in more
    ensures forall g, prior :: WasLaunched(log, t, g, prior) ==> WasLaunched(more, t, g, prior)
    ensures forall g, generationID :: BecameReady(log, t, g, generationID) ==> BecameReady(more, t, g, generationID)
  {
    forall g, generationID | BecameReady(log, t, g, generationID)
      ensures BecameReady(more, t, g, generationID)
    {
      var p, a :| ReadyBy(log, t, g, generationID, p, a);
      assert ReadyBy(more, t, g, generationID, p, a);
    }
  }

  // The history says nothing new about this transition but what can only be said of it early.
  ghost predicate SameNews(log: seq<Event>, more: seq<Event>, t: nat) {
    && (forall e :: e in log ==> e in more)
    && (forall e :: e in more && (e.Took? || e.FirstWriteRefused?) && e.t == t ==> e in log)
  }

  lemma {:induction false} SameRefusals(log: seq<Event>, more: seq<Event>, t: nat, retry: bool)
    requires SameNews(log, more, t)
    ensures forall s :: Refused(more, t, retry, s) <==> Refused(log, t, retry, s)
  {
    hide Refuses;
    forall s
      ensures Refused(more, t, retry, s) <==> Refused(log, t, retry, s)
    {
      if Refused(more, t, retry, s) {
        var c, b :| RefusedBy(more, t, retry, s, c, b);
        assert RefusedBy(log, t, retry, s, c, b);
      }
      if Refused(log, t, retry, s) {
        var c, b :| RefusedBy(log, t, retry, s, c, b);
        assert RefusedBy(more, t, retry, s, c, b);
      }
    }
  }

  lemma {:induction false} EndStays(log: seq<Event>, more: seq<Event>, t: nat, u: Transition, v: Transition)
    requires HasEnded(log, t, u) && SameNews(log, more, t) && v == u.(done := v.done)
    ensures HasEnded(more, t, v)
  {
    SameRefusals(log, more, t, u.retry);
    LaunchStays(log, more, t);
    hide Refused, WasLaunched, BecameReady;
    assert NothingRefused(more, t, u.retry) <==> NothingRefused(log, t, u.retry);
    if !(FirstWriteRefused(t) in log) && !NothingRefused(log, t, u.retry) {
      var stage :| FailedAt(log, t, u, stage);
      assert FailedAt(more, t, v, stage);
    }
  }

  lemma {:induction false} CourseStays(t: nat, pc: RunPc, u: Transition, published: string, log: seq<Event>, more: seq<Event>)
    requires CourseFacts(t, pc, u, published, log) && SameNews(log, more, t)
    ensures CourseFacts(t, pc, u, published, more)
  {
    if pc.Completing? || pc.Unlocking? {
      EndStays(log, more, t, u, u);
    } else {
      SameRefusals(log, more, t, u.retry);
      LaunchStays(log, more, t);
      hide Refused, WasLaunched, BecameReady, HasEnded, Blank;
    }
  }

  // ------------------------------------------------------------ one transition's own step

  // Where a transition stands, and what the history says of it.
  ghost predicate OwnCourse(w: World, t: nat) {
    && Standing(w, t) && CourseFacts(t, w.runs[t], w.transitions[t], PublishedBy(w.runs[t], w.children), w.log)
  }

  ghost predicate NextCourse(v: World, t: nat) {
    t in v.transitions && CourseInv(t, PcOf(v.runs, t), v.transitions[t], v.children, v.log)
  }

  lemma {:induction false} RunLogs(w: World, t: nat, a: Answer)
    requires Good(w) && RunEnabled(w, t, a)
    ensures LogStep(w.log, RunStep(w, t, a).log, t, w.runs[t], a)
  {
    hide Good, TakeStep;
    var e := Took(t, w.runs[t], a);
    NotedKeeps(w, e);
    StillEnabled(w, t, a, e);
    TakeStepTells(Noted(w, e), t, a);
    hide OfInvocation;
  }

  // A step that only moves on, or only fails, at a position that may refuse this one stage.
  lemma {:induction false} MovesOn(w: World, v: World, t: nat, a: Answer, stage: string)
    requires t in w.runs && t in w.transitions
    requires OwnCourse(w, t) && OnCourse(w.runs[t]) && LogStep(w.log, v.log, t, w.runs[t], a) && !w.runs[t].FirstWrite?
    requires forall s :: Refuses(w.transitions[t].retry, w.runs[t], a, s) ==> s == stage
    ensures var retry := w.transitions[t].retry;
            && FirstWriteRefused(t) !in v.log
            && if Refuses(retry, w.runs[t], a, stage) then Because(v.log, t, retry, stage) else NothingRefused(v.log, t, retry)
  {
    hide Standing, Refuses;
    CourseGrows(w.log, v.log, t, w.runs[t], a, w.transitions[t].retry);
    hide NothingRefused, Because;
  }

  lemma {:induction false} FirstWriteCourse(w: World, t: nat, a: Answer)
    requires OwnCourse(w, t) && RunEnabled(w, t, a) && w.runs[t].FirstWrite?
    requires LogStep(w.log, RunStep(w, t, a).log, t, w.runs[t], a)
    ensures NextCourse(RunStep(w, t, a), t)
  {
    hide Standing, RunStep, LogStep;
    FirstWriteGoes(w, t, a);
    CourseGrows(w.log, RunStep(w, t, a).log, t, w.runs[t], a, w.transitions[t].retry);
    hide NothingRefused, Because;
  }

  lemma {:induction false} FirstWriteGoes(w: World, t: nat, a: Answer)
    requires RunEnabled(w, t, a) && w.runs[t].FirstWrite?
    ensures var v := RunStep(w, t, a);
            && t in v.transitions && t in v.runs && v.transitions[t].retry == w.transitions[t].retry
            && (FirstWriteRefused(t) !in w.log ==>
                  if v.runs[t].Verifying? then FirstWriteRefused(t) !in v.log
                  else (v.runs[t].Abandoning? || v.runs[t].GivingUp?) && FirstWriteRefused(t) in v.log)
  {
    hide Accepted, RecordOf, Blank;
  }

  lemma {:induction false} EarlyEndCourse(w: World, t: nat, a: Answer)
    requires OwnCourse(w, t) && RunEnabled(w, t, a) && (w.runs[t].Abandoning? || w.runs[t].GivingUp?)
    requires LogStep(w.log, RunStep(w, t, a).log, t, w.runs[t], a)
    ensures NextCourse(RunStep(w, t, a), t)
  {
    hide RunChild, RunEvidence, ChildInv, RecordInv, Backed, SaysRestarting, KeepsRestarting, NamesOld, Blank;
    var v := RunStep(w, t, a);
    CourseGrows(w.log, v.log, t, w.runs[t], a, w.transitions[t].retry);
    hide NothingRefused, Because, Replaced, FailedAt;
  }

  lemma {:induction false} VerifyingGoes(w: World, t: nat, a: Answer)
    requires Standing(w, t) && RunEnabled(w, t, a) && w.runs[t].Verifying?
    ensures var v := RunStep(w, t, a);
            && t in v.transitions && t in v.runs && v.transitions[t] == w.transitions[t]
            && if Refuses(w.transitions[t].retry, w.runs[t], a, "probe") then v.runs[t].FailingProbe?
               else v.runs[t].AwaitingAdmission?
  {
    hide RunChild, RunState, ChildInv, RecordInv, Backed, SaysRestarting, KeepsRestarting, NamesOld, Blank, SoundIds;
  }

  lemma {:induction false} VerifyingCourse(w: World, t: nat, a: Answer)
    requires OwnCourse(w, t) && RunEnabled(w, t, a) && w.runs[t].Verifying?
    requires LogStep(w.log, RunStep(w, t, a).log, t, w.runs[t], a)
    ensures NextCourse(RunStep(w, t, a), t)
  {
    hide RunStep, LogStep, Standing;
    VerifyingGoes(w, t, a);
    MovesOn(w, RunStep(w, t, a), t, a, "probe");
    hide NothingRefused, Because;
  }

  // The cutover's record is accepted exactly when the disk takes it and the probe is well formed.
  lemma {:induction false} CutoverAcceptedIff(u: Transition, t: nat, p: Probe, a: Answer, log: seq<Event>)
    requires Probed(u, t, p, log)
    ensures Accepted(WithState(u, Restarting, Some(p)), None, a) <==> a.writeOk && GoodProbe(p)
  {
    assert Blank("");
    hide Blank, GoodProbe;
  }

  lemma {:induction false} WritingGoes(w: World, t: nat, a: Answer)
    requires Standing(w, t) && RunEnabled(w, t, a) && (w.runs[t].EnteringCutover? || w.runs[t].OldStopped?)
    ensures var v := RunStep(w, t, a);
            && t in v.transitions && t in v.runs && v.transitions[t].retry == w.transitions[t].retry
            && if Refuses(w.transitions[t].retry, w.runs[t], a, "state") then v.runs[t] == Failing("state", true)
               else v.runs[t].StoppingOld? || v.runs[t].ReadyToStart? || v.runs[t].ReleasingOld?
  {
    CutoverAcceptedIff(w.transitions[t], t, w.runs[t].probe, a, w.log);
    hide RunChild, RunState, ChildInv, RecordInv, Backed, SaysRestarting, KeepsRestarting, NamesOld, Blank, SoundIds,
      Accepted, GoodProbe;
  }

  lemma {:induction false} WritingCourse(w: World, t: nat, a: Answer)
    requires OwnCourse(w, t) && RunEnabled(w, t, a) && (w.runs[t].EnteringCutover? || w.runs[t].OldStopped?)
    requires LogStep(w.log, RunStep(w, t, a).log, t, w.runs[t], a)
    ensures NextCourse(RunStep(w, t, a), t)
  {
    hide RunStep, LogStep, Standing;
    WritingGoes(w, t, a);
    MovesOn(w, RunStep(w, t, a), t, a, "state");
    hide NothingRefused, Because, GoodProbe;
  }

  lemma {:induction false} MovingGoes(w: World, t: nat, a: Answer)
    requires RunEnabled(w, t, a)
    requires w.runs[t].AwaitingAdmission? || w.runs[t].StoppingOld? || w.runs[t].ReleasingOld?
    ensures var v := RunStep(w, t, a);
            && t in v.transitions && t in v.runs && v.transitions[t].retry == w.transitions[t].retry
            && if Refuses(w.transitions[t].retry, w.runs[t], a, "stop") then v.runs[t] == Failing("stop", true)
               else v.runs[t].EnteringCutover? || v.runs[t].OldStopped? || v.runs[t].ReadyToStart?
  {
    hide Blank, OldIsGone;
  }

  lemma {:induction false} MovingCourse(w: World, t: nat, a: Answer)
    requires OwnCourse(w, t) && RunEnabled(w, t, a)
    requires w.runs[t].AwaitingAdmission? || w.runs[t].StoppingOld? || w.runs[t].ReleasingOld?
    requires LogStep(w.log, RunStep(w, t, a).log, t, w.runs[t], a)
    ensures NextCourse(RunStep(w, t, a), t)
  {
    hide RunStep, LogStep, Standing;
    MovingGoes(w, t, a);
    MovesOn(w, RunStep(w, t, a), t, a, "stop");
    hide NothingRefused, Because;
  }

  lemma {:induction false} LaunchGoes(w: World, t: nat, a: Answer)
    requires Standing(w, t) && RunEnabled(w, t, a) && (w.runs[t].ReadyToStart? || w.runs[t].NewPrepared?)
    ensures var v := RunStep(w, t, a);
            && t in v.transitions && t in v.runs && v.transitions[t] == w.transitions[t]
            && if Refuses(w.transitions[t].retry, w.runs[t], a, "launch") then
                 v.runs[t] == Failing("launch", true) || v.runs[t].Unregistering?
               else
                 v.runs[t].NewPrepared?
                 || (v.runs[t].NewBooting? && WasLaunched(v.log, t, v.runs[t].g, w.transitions[t].prior))
  {
    hide RunState, RunEvidence, ChildInv, RecordInv, Backed, SaysRestarting, KeepsRestarting, NamesOld, Blank, WasLaunched;
    if w.runs[t].NewPrepared? && a.ok {
      var u, v := w.transitions[t], RunStep(w, t, a);
      var e := ReplacementStarted(t, w.runs[t].g, u.prior, u.generationID);
      assert e in v.log;
      StartIsLaunch(v.log, e);
    }
  }

  lemma {:induction false} StartIsLaunch(log: seq<Event>, e: Event)
    requires e in log && e.ReplacementStarted?
    ensures WasLaunched(log, e.t, e.g, e.prior)
  {
  }

  lemma {:induction false} LaunchCourse(w: World, t: nat, a: Answer)
    requires OwnCourse(w, t) && RunEnabled(w, t, a) && (w.runs[t].ReadyToStart? || w.runs[t].NewPrepared?)
    requires LogStep(w.log, RunStep(w, t, a).log, t, w.runs[t], a)
    ensures NextCourse(RunStep(w, t, a), t)
  {
    hide RunStep, LogStep, Standing, WasLaunched;
    LaunchGoes(w, t, a);
    MovesOn(w, RunStep(w, t, a), t, a, "launch");
    hide NothingRefused, Because;
  }

  lemma {:induction false} BootingGoes(w: World, t: nat, a: Answer)
    requires RunEnabled(w, t, a) && w.runs[t].NewBooting?
    ensures var v := RunStep(w, t, a);
            && t in v.transitions && t in v.runs && v.transitions[t] == w.transitions[t]
            && if a.ok then
                 v.runs[t].Publishing? && v.runs[t].g == w.runs[t].g
                 && PublishedBy(v.runs[t], v.children) == a.generationID
               else v.runs[t].StoppingNew?
  {
    hide Blank;
  }

  lemma {:induction false} BootingCourse(w: World, t: nat, a: Answer)
    requires OwnCourse(w, t) && RunEnabled(w, t, a) && w.runs[t].NewBooting?
    requires LogStep(w.log, RunStep(w, t, a).log, t, w.runs[t], a)
    ensures NextCourse(RunStep(w, t, a), t)
  {
    hide RunStep, Standing, WasLaunched, Blank, BecameReady, PublishedBy;
    var v := RunStep(w, t, a);
    BootingGoes(w, t, a);
    MovesOn(w, v, t, a, if a.ok then "state" else "launch");
    LaunchStays(w.log, v.log, t);
    hide NothingRefused, Because;
    if a.ok {
      BootIsReady(v.log, t, w.runs[t], a);
    }
  }

  lemma {:induction false} BootIsReady(log: seq<Event>, t: nat, pc: RunPc, a: Answer)
    requires Took(t, pc, a) in log && pc.NewBooting? && a.ok
    ensures BecameReady(log, t, pc.g, a.generationID)
  {
    assert ReadyBy(log, t, pc.g, a.generationID, pc.probe, a);
  }

  lemma {:induction false} PublishingGoes(w: World, t: nat, a: Answer)
    requires Standing(w, t) && RunEnabled(w, t, a) && w.runs[t].Publishing?
    ensures var v, published := RunStep(w, t, a), PublishedBy(w.runs[t], w.children);
            && t in v.transitions && t in v.runs
            && v.transitions[t].retry == w.transitions[t].retry && v.transitions[t].prior == w.transitions[t].prior
            && if a.writeOk && !Blank(published) then
                 v.runs[t] == Completing(false, true) && v.transitions[t].generationID == published
                 && v.transitions[t].state == Running && v.transitions[t].cutover
               else v.runs[t] == Failing("state", true)
  {
    ProvenIsReady(w.transitions[t], t, w.runs[t].probe, w.log);
    RunningAcceptedIff(w.transitions[t], w.runs[t].probe, w.children[w.runs[t].g].generationID);
    hide RunChild, ChildInv, RecordInv, Backed, SaysRestarting, KeepsRestarting, NamesOld, Blank, ReadyToLaunch, GoodProbe,
      Validate, RunEvidence;
  }

  lemma {:induction false} PublishingCourse(w: World, t: nat, a: Answer)
    requires OwnCourse(w, t) && RunEnabled(w, t, a) && w.runs[t].Publishing?
    requires LogStep(w.log, RunStep(w, t, a).log, t, w.runs[t], a)
    ensures NextCourse(RunStep(w, t, a), t)
  {
    hide RunStep, Standing, Blank, PublishedBy, WasLaunched, BecameReady;
    var v := RunStep(w, t, a);
    PublishingGoes(w, t, a);
    CourseGrows(w.log, v.log, t, w.runs[t], a, w.transitions[t].retry);
    LaunchStays(w.log, v.log, t);
    hide NothingRefused, Because, LogStep;
    assert FirstWriteRefused(t) !in v.log by {
      NoFirstRefusal(w.log, v.log, t, w.runs[t], a);
    }
  }

  lemma {:induction false} NoFirstRefusal(log: seq<Event>, more: seq<Event>, t: nat, pc: RunPc, a: Answer)
    requires LogStep(log, more, t, pc, a) && !pc.FirstWrite?
    ensures FirstWriteRefused(t) in more <==> FirstWriteRefused(t) in log
  {
  }

  // Positions from which a transition can only fail.
  predicate Falls(pc: RunPc) {
    pc.StoppingNew? || pc.Unregistering? || pc.FailingProbe? || pc.Failing?
  }

  lemma {:induction false} FailingGoes(w: World, t: nat, a: Answer)
    requires Standing(w, t) && RunEnabled(w, t, a) && (w.runs[t].Failing? || w.runs[t].FailingProbe?)
    ensures var v, u := RunStep(w, t, a), w.transitions[t];
            && t in v.transitions && t in v.runs && v.transitions[t].retry == u.retry
            && if w.runs[t].Failing? then v.runs[t].Completing? && v.transitions[t].state == Failed
               else if u.retry then v.runs[t] == Failing("probe", false)
               else v.runs[t].Completing? && KeptOld(v.transitions[t])
  {
    hide RunChild, RunEvidence, ChildInv, RecordInv, Backed, SaysRestarting, KeepsRestarting, NamesOld, Blank, ReadyToLaunch,
      Accepted, RecordOf;
  }

  lemma {:induction false} UnregisteringGoes(w: World, t: nat, a: Answer)
    requires RunEnabled(w, t, a) && (w.runs[t].StoppingNew? || w.runs[t].Unregistering?)
    ensures var v := RunStep(w, t, a);
            && t in v.transitions && t in v.runs && v.transitions[t] == w.transitions[t]
            && (v.runs[t].Unregistering? || v.runs[t] == Failing("launch", true))
  {
    hide Blank;
  }

  function FallingStage(pc: RunPc): string {
    if pc.Failing? then pc.stage else if pc.FailingProbe? then "probe" else "launch"
  }

  lemma {:induction false} FallingKeepsCause(
    log: seq<Event>, more: seq<Event>, t: nat, pc: RunPc, a: Answer, u: Transition, published: string)
    requires CourseFacts(t, pc, u, published, log) && Falls(pc) && LogStep(log, more, t, pc, a)
    ensures FirstWriteRefused(t) !in more && Because(more, t, u.retry, FallingStage(pc))
  {
    hide Blank, Refused, HasEnded;
    NoFirstRefusal(log, more, t, pc, a);
    CourseGrows(log, more, t, pc, a, u.retry);
    hide LogStep;
  }

  lemma {:induction false} FallingCourse(w: World, t: nat, a: Answer)
    requires OwnCourse(w, t) && RunEnabled(w, t, a) && Falls(w.runs[t])
    requires LogStep(w.log, RunStep(w, t, a).log, t, w.runs[t], a)
    ensures NextCourse(RunStep(w, t, a), t)
  {
    hide RunStep, Standing, Blank, PublishedBy, LogStep, Refused;
    var v, u := RunStep(w, t, a), w.transitions[t];
    if w.runs[t].Failing? || w.runs[t].FailingProbe? {
      FailingGoes(w, t, a);
    } else {
      UnregisteringGoes(w, t, a);
    }
    FallingKeepsCause(w.log, v.log, t, w.runs[t], a, u, PublishedBy(w.runs[t], w.children));
    var stage := FallingStage(w.runs[t]);
    assert Refused(v.log, t, u.retry, stage);
    hide Because;
    assert v.runs[t].Completing? ==> FailedAt(v.log, t, v.transitions[t], stage);
  }

  lemma {:induction false} EndingGoes(w: World, t: nat, a: Answer)
    requires RunEnabled(w, t, a) && (w.runs[t].Completing? || w.runs[t].Unlocking?)
    ensures var v := RunStep(w, t, a);
            && t in v.transitions && v.transitions[t] == w.transitions[t].(done := v.transitions[t].done)
            && (t in v.runs ==> v.runs[t].Unlocking?)
            && (forall e :: e in v.log ==> e in w.log || e == Took(t, w.runs[t], a))
  {
    hide Blank;
  }

  lemma {:induction false} EndingCourse(w: World, t: nat, a: Answer)
    requires OwnCourse(w, t) && RunEnabled(w, t, a) && (w.runs[t].Completing? || w.runs[t].Unlocking?)
    requires LogStep(w.log, RunStep(w, t, a).log, t, w.runs[t], a)
    ensures NextCourse(RunStep(w, t, a), t)
  {
    hide RunStep, Standing, Blank, LogStep, Replaced;
    var v, u := RunStep(w, t, a), w.transitions[t];
    EndingGoes(w, t, a);
    CourseGrows(w.log, v.log, t, w.runs[t], a, u.retry);
    NoFirstRefusal(w.log, v.log, t, w.runs[t], a);
    EndGrows(w, v, t, a);
    hide HasEnded;
  }

  lemma {:induction false} EndGrows(w: World, v: World, t: nat, a: Answer)
    requires t in w.runs && (w.runs[t].Completing? || w.runs[t].Unlocking?) && t in w.transitions && t in v.transitions
    requires LogStep(w.log, v.log, t, w.runs[t], a) && v.transitions[t] == w.transitions[t].(done := v.transitions[t].done)
    requires HasEnded(w.log, t, w.transitions[t])
    ensures HasEnded(v.log, t, v.transitions[t])
  {
    hide WasLaunched, BecameReady, Blank;
    var u := w.transitions[t];
    CourseGrows(w.log, v.log, t, w.runs[t], a, u.retry);
    NoFirstRefusal(w.log, v.log, t, w.runs[t], a);
    LaunchStays(w.log, v.log, t);
    if FirstWriteRefused(t) !in w.log && !NothingRefused(w.log, t, u.retry) {
      var stage :| FailedAt(w.log, t, u, stage);
      assert FailedAt(v.log, t, v.transitions[t], stage);
      assert Refused(v.log, t, u.retry, stage);
    }
    hide Because, LogStep;
  }

  lemma {:induction false} OwnStepKeepsCourse(w: World, t: nat, a: Answer)
    requires Good(w) && RunEnabled(w, t, a) && t in w.runs && OwnCourse(w, t)
    ensures NextCourse(RunStep(w, t, a), t)
  {
    hide Good, OwnCourse, NextCourse, RunStep, LogStep, RunEnabled;
    RunLogs(w, t, a);
    match w.runs[t] {
      case FirstWrite => FirstWriteCourse(w, t, a);
      case Abandoning => EarlyEndCourse(w, t, a);
      case GivingUp => EarlyEndCourse(w, t, a);
      case Verifying => VerifyingCourse(w, t, a);
      case AwaitingAdmission(_) => MovingCourse(w, t, a);
      case EnteringCutover(_) => WritingCourse(w, t, a);
      case StoppingOld(_) => MovingCourse(w, t, a);
      case OldStopped(_) => WritingCourse(w, t, a);
      case ReleasingOld(_) => MovingCourse(w, t, a);
      case ReadyToStart(_) => LaunchCourse(w, t, a);
      case NewPrepared(_, _) => LaunchCourse(w, t, a);
      case NewBooting(_, _) => BootingCourse(w, t, a);
      case Publishing(_, _) => PublishingCourse(w, t, a);
      case Completing(_, _) => EndingCourse(w, t, a);
      case Unlocking => EndingCourse(w, t, a);
      case _ => FallingCourse(w, t, a);
    }
  }

  // ------------------------------------------------------------ everybody else's steps

  // What an action leaves of a transition that is not its own.
  ghost predicate LeftAlone(w: World, v: World, t: nat) {
    && t in w.transitions && t in v.transitions && v.transitions[t] == w.transitions[t]
    && PcOf(v.runs, t) == PcOf(w.runs, t) && SameNews(w.log, v.log, t)
    && (t in w.runs ==> PublishedBy(w.runs[t], v.children) == PublishedBy(w.runs[t], w.children))
  }

  lemma {:induction false} LeftOnCourse(w: World, v: World, t: nat)
    requires LeftAlone(w, v, t) && CourseInv(t, PcOf(w.runs, t), w.transitions[t], w.children, w.log)
    ensures CourseInv(t, PcOf(v.runs, t), v.transitions[t], v.children, v.log)
  {
    if t in w.runs {
      CourseStays(t, w.runs[t], w.transitions[t], PublishedBy(w.runs[t], w.children), w.log, v.log);
    } else {
      EndStays(w.log, v.log, t, w.transitions[t], w.transitions[t]);
    }
    hide CourseFacts, HasEnded, SameNews, PublishedBy;
  }

  // A process that is being published keeps its name: only its own transition is at work.
  ghost predicate KeepsPublished(w: World, children: map<nat, Child>, t: nat) {
    t in w.runs ==> PublishedBy(w.runs[t], children) == PublishedBy(w.runs[t], w.children)
  }

  lemma {:induction false} OnlyOnePublishes(w: World, t: nat, a: Answer, s: nat)
    requires Good(w) && RunEnabled(w, t, a) && s != t
    ensures KeepsPublished(w, RunStep(w, t, a).children, s)
  {
    if s in w.runs && w.runs[s].Publishing? {
      NobodyElseWorks(w, t, s);
      hide Good;
      TailLeavesChildren(w, t, a);
    }
  }

  lemma {:induction false} NobodyElseWorks(w: World, t: nat, s: nat)
    requires Good(w) && t in w.runs && s in w.runs && s != t && !Tail(w.runs[s])
    ensures Tail(w.runs[t])
  {
    hide ClaimInv, ChildInv, StartsInv, RunsChild, EvidenceInv, RecordInv, LockInv, CutInv, InvokesInv, LogGood, DurableInv,
      FinishInv, EpochInv;
    OthersRetired(w, s);
  }

  lemma {:induction false} TailLeavesChildren(w: World, t: nat, a: Answer)
    requires RunEnabled(w, t, a) && Tail(w.runs[t])
    ensures RunStep(w, t, a).children == w.children
  {
    hide Blank;
  }

  lemma {:induction false} RunLeavesAlone(w: World, t: nat, a: Answer, s: nat)
    requires Good(w) && RunEnabled(w, t, a) && s in w.transitions && s != t
    ensures LeftAlone(w, RunStep(w, t, a), s)
  {
    hide Good, RunStep, RunEnabled, PublishedBy;
    RunStaysOwn(w, t, a, FirstWriteRefused(t));
    RunLogs(w, t, a);
    OnlyOnePublishes(w, t, a, s);
  }

  // An action that is no transition's own step.
  ghost predicate Elsewhere(w: World, v: World) {
    && (forall t :: t in w.transitions ==> t in v.transitions && v.transitions[t] == w.transitions[t])
    && (forall t :: t in w.runs ==> t in v.runs && v.runs[t] == w.runs[t])
    && (forall t :: t in v.runs && t !in w.runs ==> t !in w.transitions)
    && (forall t :: t in v.transitions && t !in w.transitions ==> t in v.runs && v.runs[t] == FirstWrite)
    && (forall e :: e in w.log ==> e in v.log)
    && (forall e :: e in v.log && (e.Took? || e.FirstWriteRefused?) ==> e in w.log)
  }

  lemma {:induction false} ElsewhereKeepsEnds(w: World, v: World)
    requires EndsInv(w) && Elsewhere(w, v)
    requires forall t :: KeepsPublished(w, v.children, t)
    ensures EndsInv(v)
  {
    forall t | t in v.transitions
      ensures CourseInv(t, PcOf(v.runs, t), v.transitions[t], v.children, v.log)
    {
      if t in w.transitions {
        assert KeepsPublished(w, v.children, t);
        LeftOnCourse(w, v, t);
      } else {
        NewlyOnCourse(w, v, t);
      }
    }
    hide CourseInv;
  }

  lemma {:induction false} NewlyOnCourse(w: World, v: World, t: nat)
    requires EndsInv(w) && Elsewhere(w, v) && t in v.transitions && t !in w.transitions
    ensures CourseInv(t, PcOf(v.runs, t), v.transitions[t], v.children, v.log)
  {
    hide Refuses, CourseInv;
    assert NothingRefused(v.log, t, v.transitions[t].retry) by {
      forall stage
        ensures !Refused(v.log, t, v.transitions[t].retry, stage)
      {
      }
    }
    assert FirstWriteRefused(t) !in v.log;
    FirstIsOnCourse(t, v.transitions[t], v.children, v.log);
  }

  lemma {:induction false} FirstIsOnCourse(t: nat, u: Transition, children: map<nat, Child>, log: seq<Event>)
    requires NothingRefused(log, t, u.retry) && FirstWriteRefused(t) !in log
    ensures CourseInv(t, Some(FirstWrite), u, children, log)
  {
  }

  lemma {:induction false} QuietElsewhere(w: World, a: Action)
    requires Enabled(w, a) && (a.Die? || a.BeginStart? || a.SignalOld? || a.Arrive?)
    ensures Elsewhere(w, Do(w, a)) && forall t :: KeepsPublished(w, Do(w, a).children, t)
  {
  }

  lemma {:induction false} InvokeElsewhere(w: World, i: nat, status: Status, ok: bool, gone: bool)
    requires InvokeEnabled(w, i, ok, gone)
    ensures var v := InvokeStep(w, i, status, ok, gone); Elsewhere(w, v) && v.children == w.children
  {
    hide InvokeStep;
    InvokeLeavesAlone(w, i, status, ok, gone);
    forall e
      ensures e in w.log ==> e in InvokeStep(w, i, status, ok, gone).log
      ensures e in InvokeStep(w, i, status, ok, gone).log && !OfInvocation(e) ==> e in w.log
    {
      InvokeTells(w, i, status, ok, gone, e);
    }
  }

  lemma {:induction false} InvokeTells(w: World, i: nat, status: Status, ok: bool, gone: bool, e: Event)
    requires InvokeEnabled(w, i, ok, gone)
    ensures e in w.log ==> e in InvokeStep(w, i, status, ok, gone).log
    ensures e in InvokeStep(w, i, status, ok, gone).log && !OfInvocation(e) ==> e in w.log
  {
    hide TargetOf, BoundaryOf, AtInvoke;
    AtInvokeOnly(w, i);
    AtInvokeOnly(Noted(w, ConnectionLost(i)), i);
    match w.invokes[i] {
      case Arriving =>
      case Holding =>
      case Admitted(_, _, _) =>
      case Sent(_, _, _) =>
      case Awaiting(_, _, _) =>
      case Lost(_, _, _, _) =>
      case WaitingFor(_) =>
    }
  }

  // While a start or a new restart is under way no transition publishes anything.
  lemma {:induction false} NobodyPublishes(w: World, children: map<nat, Child>)
    requires TransitionsInv(w.transitions, w.runs, w.current, w.epoch)
    requires w.current.Some? ==> w.current.value in w.transitions && w.transitions[w.current.value].state == Failed
    ensures forall t :: KeepsPublished(w, children, t)
  {
    OnlyTailsRun(w);
    hide TransitionsInv;
  }

  lemma {:induction false} StartElsewhere(w: World, s: nat, a: Answer)
    requires StartEnabled(w, s, a)
    ensures Elsewhere(w, StartStep(w, s, a))
  {
    hide WithPhase, Released, ChildLives;
  }

  lemma {:induction false} RestartElsewhere(
    w: World, t: nat, id: string, minted: string, status: Status, readable: bool)
    requires MayBegin(w, t, id, minted)
    ensures Elsewhere(w, RestartStep(w, t, id, minted, status, readable))
  {
    hide RestartStep, Blank;
    RestartInstalls(w, t, id, minted, status, readable);
  }

  lemma {:induction false} RestartInstalls(
    w: World, t: nat, id: string, minted: string, status: Status, readable: bool)
    requires MayBegin(w, t, id, minted)
    ensures var v := RestartStep(w, t, id, minted, status, readable);
            && v.log == w.log
            && if t in v.runs then
                 && t in v.transitions && v.runs == w.runs[t := FirstWrite]
                 && v.transitions == w.transitions[t := v.transitions[t]]
               else v.runs == w.runs && v.transitions == w.transitions
  {
    hide Choose, Blank, ChildLives;
  }

  lemma {:induction false} StartsExclude(w: World, s: nat)
    requires Good(w) && s in w.starts
    ensures w.current.None? && TransitionsInv(w.transitions, w.runs, w.current, w.epoch)
  {
    hide ChildInv, StartsInv, RunsChild, EvidenceInv, RecordInv, LockInv, CutInv, InvokesInv, LogGood, DurableInv,
      FinishInv, EpochInv, TransitionsInv;
  }

  lemma {:induction false} OnlyTransitions(w: World)
    requires Good(w)
    ensures TransitionsInv(w.transitions, w.runs, w.current, w.epoch)
  {
    hide ClaimInv, ChildInv, StartsInv, RunsChild, EvidenceInv, RecordInv, LockInv, CutInv, InvokesInv, LogGood, DurableInv,
      FinishInv, EpochInv, TransitionsInv;
  }

  lemma {:induction false} RunKeepsEnds(w: World, t: nat, a: Answer)
    requires Good(w) && EndsInv(w) && RunEnabled(w, t, a)
    ensures EndsInv(RunStep(w, t, a))
  {
    hide Good, RunStep, OwnCourse, RunEnabled, CourseInv, LeftAlone, NextCourse;
    var v := RunStep(w, t, a);
    StandsOnCourse(w, t, a);
    NextIsCourse(v, t);
    OwnStepKeepsCourse(w, t, a);
    RunStaysOwn(w, t, a, FirstWriteRefused(t));
    RunLogs(w, t, a);
    EventsStayKnown(w, v, t, a);
    hide LogStep;
    forall s | s in v.transitions && s != t
      ensures CourseInv(s, PcOf(v.runs, s), v.transitions[s], v.children, v.log)
    {
      RunLeavesAlone(w, t, a, s);
      LeftOnCourse(w, v, s);
    }
  }

  lemma {:induction false} NextIsCourse(v: World, t: nat)
    ensures NextCourse(v, t) ==> t in v.transitions && CourseInv(t, PcOf(v.runs, t), v.transitions[t], v.children, v.log)
  {
    hide CourseInv;
  }

  lemma {:induction false} StandsOnCourse(w: World, t: nat, a: Answer)
    requires Good(w) && EndsInv(w) && RunEnabled(w, t, a)
    ensures t in w.runs && t in w.transitions && OwnCourse(w, t)
  {
    hide Good, CourseFacts, Standing;
    StandsWell(w, t);
    assert CourseInv(t, PcOf(w.runs, t), w.transitions[t], w.children, w.log);
  }

  lemma {:induction false} EventsStayKnown(w: World, v: World, t: nat, a: Answer)
    requires t in w.runs && LogStep(w.log, v.log, t, w.runs[t], a) && OwnStep(w, v, t, FirstWriteRefused(t))
    requires forall e :: e in w.log && (e.Took? || e.FirstWriteRefused?) ==> e.t in w.transitions
    ensures forall e :: e in v.log && (e.Took? || e.FirstWriteRefused?) ==> e.t in v.transitions
    ensures forall s :: s in v.transitions && s != t ==> s in w.transitions
  {
    hide NamesOld, Quiet;
  }

  /** Every step of every caller and goroutine keeps what the history says of each transition. */
  lemma {:induction false} StepKeepsEnds(w: World, a: Action)
    requires Good(w) && EndsInv(w) && Enabled(w, a)
    ensures EndsInv(Do(w, a))
  {
    hide Good, EndsInv, RunStep, StartStep, RestartStep, InvokeStep, RunEnabled, Elsewhere;
    match a {
      case StepRun(t, answer) => RunKeepsEnds(w, t, answer);
      case StepStart(s, answer) =>
        StartsExclude(w, s);
        StartElsewhere(w, s, answer);
        NobodyPublishes(w, StartStep(w, s, answer).children);
        ElsewhereKeepsEnds(w, StartStep(w, s, answer));
      case StepInvoke(i, status, ok, gone) =>
        InvokeElsewhere(w, i, status, ok, gone);
        ElsewhereKeepsEnds(w, InvokeStep(w, i, status, ok, gone));
      case BeginRestart(t, id, minted, status, readable) =>
        var v := RestartStep(w, t, id, minted, status, readable);
        OnlyTransitions(w);
        RestartElsewhere(w, t, id, minted, status, readable);
        NobodyPublishes(w, v.children);
        ElsewhereKeepsEnds(w, v);
      case _ =>
        QuietElsewhere(w, a);
        ElsewhereKeepsEnds(w, Do(w, a));
    }
  }

  lemma {:induction false} RunKeepsCourse(run: seq<World>, k: nat)
    requires IsRun(run) && k < |run|
    ensures EndsInv(run[k])
  {
    hide Good, Enabled, Do, SoundRecord;
    if k == 0 {
      var record :| SoundRecord(record) && run[0] == Fresh(record);
    } else {
      hide EndsInv;
      RunKeepsCourse(run, k - 1);
      RunStaysGood(run, k - 1);
      assert StepHere(run, k - 1);
      var a :| StepsTo(run[k - 1], a, run[k]);
      StepKeepsEnds(run[k - 1], a);
    }
  }

  // ------------------------------------------------------------ the outcomes

  lemma {:induction false} DoneHasEnded(w: World, t: nat)
    requires Good(w) && EndsInv(w) && t in w.transitions && w.transitions[t].done
    ensures HasEnded(w.log, t, w.transitions[t]) && (w.transitions[t].retry <==> w.transitions[t].prior.None?)
  {
    hide ClaimInv, EpochInv, DurableInv, ChildInv, StartsInv, RunsChild, EvidenceInv, RecordInv, LockInv, CutInv,
      InvokesInv, LogGood, RunState, HasEnded;
    assert FinishFacts(w.transitions[t], PcOf(w.runs, t), w.current == Some(t), FirstWriteRefused(t) in w.log);
    assert CourseInv(t, PcOf(w.runs, t), w.transitions[t], w.children, w.log);
  }

  /** How a transition ends, over every run: the replacement takes over exactly when the first write
      and everything asked for later was answered with yes; the old generation is kept exactly when
      a replacement's first write or probe was refused; the transition fails exactly when a later
      stage, or any stage of a retry, was refused; and only a retry whose first write was refused is
      left restarting. */
  lemma {:induction false} HowTransitionsEnd(run: seq<World>, k: nat, t: nat)
    requires IsRun(run) && k < |run| && t in run[k].transitions && run[k].transitions[t].done
    ensures var u, log := run[k].transitions[t], run[k].log;
            && (u.state == Running && u.cutover <==> FirstWriteRefused(t) !in log && NothingRefused(log, t, u.retry))
            && (KeptOld(u) <==> !u.retry && (FirstWriteRefused(t) in log || Refused(log, t, u.retry, "probe")))
            && (u.state == Failed <==> exists stage :: Refused(log, t, u.retry, stage) && (stage != "probe" || u.retry))
            && (u.state == Restarting <==> u.retry && FirstWriteRefused(t) in log)
  {
    RunStaysGood(run, k);
    RunKeepsCourse(run, k);
    hide IsRun, Good, EndsInv;
    DoneHasEnded(run[k], t);
    EndSays(run[k].log, t, run[k].transitions[t]);
  }

  lemma {:induction false} EndSays(log: seq<Event>, t: nat, u: Transition)
    requires HasEnded(log, t, u)
    ensures u.state == Running && u.cutover <==> FirstWriteRefused(t) !in log && NothingRefused(log, t, u.retry)
    ensures KeptOld(u) <==> !u.retry && (FirstWriteRefused(t) in log || Refused(log, t, u.retry, "probe"))
    ensures u.state == Failed <==> exists stage :: Refused(log, t, u.retry, stage) && (stage != "probe" || u.retry)
    ensures u.state == Restarting <==> u.retry && FirstWriteRefused(t) in log
  {
    hide Refused, WasLaunched, BecameReady, Blank;
    if FirstWriteRefused(t) !in log && !NothingRefused(log, t, u.retry) {
      var stage :| FailedAt(log, t, u, stage);
      assert Refused(log, t, u.retry, stage);
    }
  }

  /** A transition that ends with its replacement carries the generation that process became ready
      with, which is not blank; the process was launched by this transition, and unless it is a
      retry its probe had passed and the old generation was confirmed gone before. */
  lemma {:induction false} SuccessIsEarned(run: seq<World>, k: nat, t: nat) returns (g: nat)
    requires IsRun(run) && k < |run| && t in run[k].transitions && run[k].transitions[t].done
    requires run[k].transitions[t].state == Running && run[k].transitions[t].cutover
    ensures var u, log := run[k].transitions[t], run[k].log;
            && !Blank(u.generationID) && WasLaunched(log, t, g, u.prior) && BecameReady(log, t, g, u.generationID)
            && (u.prior.Some? ==> ProbePassed(t) in log && OldGone(t, u.prior.value.generationID) in log)
  {
    HowTransitionsEnd(run, k, t);
    RunStaysGood(run, k);
    RunKeepsCourse(run, k);
    hide IsRun, Good, EndsInv, BecameReady, Blank, NothingRefused, StopEvidence;
    DoneHasEnded(run[k], t);
    var u, log := run[k].transitions[t], run[k].log;
    g :| WasLaunched(log, t, g, u.prior) && BecameReady(log, t, g, u.generationID);
    if u.prior.Some? {
      var stopped :| ReplacementStarted(t, g, u.prior, stopped) in log;
      var j :| 0 <= j < |log| && log[j] == ReplacementStarted(t, g, u.prior, stopped);
      CutoverIsOrdered(run, k, j);
      var i :| 0 <= i < j && log[..j][i] == OldGone(t, stopped);
      assert log[i] == OldGone(t, stopped);
      CutoverIsOrdered(run, k, i);
      assert ProbePassed(t) in log[..i];
    }
  }

  /** A transition that is about to fail at a stage was refused that very stage and no other, and
      that stage is what its record names. */
  lemma {:induction false} FailureHasItsCause(run: seq<World>, k: nat, t: nat, a: Answer)
    requires IsRun(run) && k < |run| && RunEnabled(run[k], t, a) && run[k].runs[t].Failing?
    ensures Because(run[k].log, t, run[k].transitions[t].retry, run[k].runs[t].stage)
    ensures var v := RunStep(run[k], t, a);
            v.record != run[k].record ==>
              && v.record.Some? && v.record.value.state == Failed
              && v.record.value.failure == Some(Failure(run[k].runs[t].stage, a.message))
  {
    hide IsRun, Good, EndsInv, Because, RunStep, OwnCourse;
    RunStaysGood(run, k);
    RunKeepsCourse(run, k);
    StandsOnCourse(run[k], t, a);
    CourseNamesStage(run[k], t);
    FailingRecords(run[k], t, a);
  }

  lemma {:induction false} CourseNamesStage(w: World, t: nat)
    requires t in w.runs && t in w.transitions && OwnCourse(w, t) && w.runs[t].Failing?
    ensures Because(w.log, t, w.transitions[t].retry, w.runs[t].stage)
  {
    hide Standing, Because;
  }

  lemma {:induction false} FailingRecords(w: World, t: nat, a: Answer)
    requires RunEnabled(w, t, a) && w.runs[t].Failing?
    ensures var v := RunStep(w, t, a);
            v.record != w.record ==>
              && v.record.Some? && v.record.value.state == Failed
              && v.record.value.failure == Some(Failure(w.runs[t].stage, a.message))
  {
    hide Accepted, Blank;
  }

  // The record a transition leaves behind.
  predicate RecordSays(
    r: Option<Record>, u: Transition, state: State, generationID: string, failure: Option<Failure>, now: string)
  {
    && r.Some? && r.value.state == state && r.value.transitionID == u.id && r.value.generationID == generationID
    && r.value.oldStopped == u.stopped && r.value.failure == failure && r.value.updatedAt == now
  }

  /** Each outcome reaches the record when the disk takes it: a published replacement under its own
      generation; a refused probe under the old generation, with the probe's failure; and a failed
      launch under the stopped generation. */
  lemma {:induction false} OutcomeIsRecorded(w: World, t: nat, a: Answer)
    requires Good(w) && RunEnabled(w, t, a) && a.writeOk && t in w.transitions
    ensures var u, pc, v := w.transitions[t], w.runs[t], RunStep(w, t, a);
            && (pc.Publishing? && !Blank(PublishedBy(pc, w.children)) ==>
                  RecordSays(v.record, u, Running, PublishedBy(pc, w.children), None, a.now))
            && (pc.FailingProbe? && u.prior.Some? && GoodProbe(pc.probe) && !pc.probe.success ==>
                  RecordSays(v.record, u, Running, u.prior.value.generationID, Some(Failure("probe", a.message)), a.now))
            && (pc.Failing? && pc.stage == "launch" ==>
                  RecordSays(v.record, u, Failed, u.generationID, Some(Failure("launch", a.message)), a.now))
  {
    hide Good, RunStep, RecordSays, Blank, GoodProbe, Standing;
    StandsWell(w, t);
    if w.runs[t].Publishing? && !Blank(PublishedBy(w.runs[t], w.children)) {
      PublishingRecords(w, t, a);
    } else if w.runs[t].FailingProbe? && w.transitions[t].prior.Some? {
      if GoodProbe(w.runs[t].probe) && !w.runs[t].probe.success {
        ProbeFailureRecords(w, t, a);
      }
    } else if w.runs[t].Failing? && w.runs[t].stage == "launch" {
      LaunchFailureRecords(w, t, a);
    }
  }

  lemma {:induction false} PublishingRecords(w: World, t: nat, a: Answer)
    requires Standing(w, t) && RunEnabled(w, t, a) && a.writeOk && w.runs[t].Publishing?
    requires !Blank(PublishedBy(w.runs[t], w.children))
    ensures RecordSays(RunStep(w, t, a).record, w.transitions[t], Running, PublishedBy(w.runs[t], w.children), None, a.now)
  {
    hide Standing, Accepted, Blank, Put, RecordSays, RecordOf, Written;
    var u, noted := w.transitions[t], Noted(w, Took(t, w.runs[t], a));
    PublishingIsAccepted(w, t, a);
    PutRecords(noted, t, WithState(u.(generationID := w.children[w.runs[t].g].generationID), Running, Some(w.runs[t].probe)),
               None, a);
  }

  lemma {:induction false} PutRecords(w: World, t: nat, u: Transition, failure: Option<Failure>, a: Answer)
    requires t in w.transitions && Accepted(u, failure, a)
    ensures forall v: Transition :: v.id == u.id && v.stopped == u.stopped ==>
              RecordSays(Put(w, t, u, failure, a).record, v, u.state, u.generationID, failure, a.now)
  {
    hide Accepted;
  }

  lemma {:induction false} PublishingIsAccepted(w: World, t: nat, a: Answer)
    requires Standing(w, t) && RunEnabled(w, t, a) && a.writeOk && w.runs[t].Publishing?
    requires !Blank(PublishedBy(w.runs[t], w.children))
    ensures var u, p := w.transitions[t], w.runs[t].probe;
            Accepted(WithState(u.(generationID := w.children[w.runs[t].g].generationID), Running, Some(p)), None, a)
  {
    ProvenIsReady(w.transitions[t], t, w.runs[t].probe, w.log);
    RunningAcceptedIff(w.transitions[t], w.runs[t].probe, w.children[w.runs[t].g].generationID);
    hide RunState, ChildInv, RecordInv, Backed, SaysRestarting, KeepsRestarting, NamesOld, Blank, ReadyToLaunch, GoodProbe,
      Validate, RunEvidence;
  }

  lemma {:induction false} ProbeFailureAccepted(u: Transition, p: Probe, a: Answer)
    requires SoundIds(u) && !u.stopped && GoodProbe(p) && !p.success && a.writeOk && !Blank(a.message)
    ensures Accepted(WithState(u, Running, Some(p)), Some(Failure("probe", a.message)), a)
  {
    hide Blank, GoodProbe;
    NotBlankStages();
    NothingIsBlank();
  }

  lemma {:induction false} ProbeFailureRecords(w: World, t: nat, a: Answer)
    requires Standing(w, t) && RunEnabled(w, t, a) && a.writeOk && w.runs[t].FailingProbe?
    requires w.transitions[t].prior.Some? && GoodProbe(w.runs[t].probe) && !w.runs[t].probe.success
    ensures RecordSays(RunStep(w, t, a).record, w.transitions[t], Running, w.transitions[t].prior.value.generationID,
                  Some(Failure("probe", a.message)), a.now)
  {
    hide RunChild, ChildInv, RecordInv, SaysRestarting, KeepsRestarting, Blank, ReadyToLaunch, GoodProbe, SoundIds, Accepted,
      StopEvidence;
    ProbeFailureAccepted(w.transitions[t], w.runs[t].probe, a);
  }

  lemma {:induction false} LaunchFailureRecords(w: World, t: nat, a: Answer)
    requires Standing(w, t) && RunEnabled(w, t, a) && a.writeOk && w.runs[t].Failing? && w.runs[t].stage == "launch"
    ensures RecordSays(RunStep(w, t, a).record, w.transitions[t], Failed, w.transitions[t].generationID,
                  Some(Failure("launch", a.message)), a.now)
  {
    hide RunChild, ChildInv, RecordInv, SaysRestarting, KeepsRestarting, Blank, GoodProbe, Backed, NamesOld, RunEvidence,
      Validate, ReadyToLaunch;
    NotBlankStages();
    StoppedFailureAcceptedIff(w.transitions[t], "launch", a.message);
  }

  /** The first write is refused exactly when the disk refuses it, or an identifier is blank, or a
      retry carries an ill-formed probe. */
  lemma {:induction false} FirstWriteRefusedIff(w: World, t: nat, a: Answer)
    requires Good(w) && RunEnabled(w, t, a) && w.runs[t].FirstWrite? && FirstWriteRefused(t) !in w.log
    ensures var u := w.transitions[t];
            FirstWriteRefused(t) in RunStep(w, t, a).log <==>
            !a.writeOk || !SoundIds(u) || (u.retry && !GoodProbe(u.probe.value))
  {
    hide Good, RunStep, Accepted, RecordOf, SoundIds, GoodProbe, Blank, RunState, RunEvidence, RunChild, ChildInv, RecordInv,
      Backed, SaysRestarting, KeepsRestarting, NamesOld;
    StandsWell(w, t);
    FirstAcceptedIff(w.transitions[t], t, a, w.log);
    FirstRefusalIsLogged(w, t, a);
  }

  lemma {:induction false} FirstRefusalIsLogged(w: World, t: nat, a: Answer)
    requires RunEnabled(w, t, a) && w.runs[t].FirstWrite? && FirstWriteRefused(t) !in w.log
    ensures var u := w.transitions[t];
            FirstWriteRefused(t) in RunStep(w, t, a).log <==> !Accepted(WithState(u, u.state, u.probe), None, a)
  {
    hide Accepted, RecordOf, Blank;
  }

  lemma {:induction false} FirstAcceptedIff(u: Transition, t: nat, a: Answer, log: seq<Event>)
    requires RunState(FirstWrite, u) && RunEvidence(FirstWrite, u, t, log)
    requires (u.retry <==> u.prior.None?) && (u.retry ==> u.stopped)
    ensures u.retry ==> u.probe.Some?
    ensures Accepted(WithState(u, u.state, u.probe), None, a) <==>
            a.writeOk && SoundIds(u) && (u.retry ==> GoodProbe(u.probe.value))
  {
    assert Blank("");
    hide Blank, GoodProbe;
  }
}
