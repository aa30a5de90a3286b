/** One isolated workspace under concurrent start, restart and invoke callers: every lock-held
    section of the server is one step (cli/cmd/mill/restart.go, restart_process.go,
    lifecycle.go, forward.go). */
module RestartProtocol {
  import opened Basics
  import opened RestartRecord

  datatype Phase = Registered | Alive | Dead

  // A supervised process; its identity is known once it has published it.
  datatype Child = Child(phase: Phase, weaverID: string, generationID: string)

  // The workspace metadata as one read finds it; usable says that pid and identity are sound.
  datatype Status = Absent | Stale | Published(weaverID: string, generationID: string, usable: bool)

  // A start call that holds the claim.
  datatype StartPc = Claimed | Prepared(g: nat) | Booting(g: nat) | Discarding(g: nat) | Leaving

  // A transition: its first write by the caller, then its goroutine.
  datatype RunPc =
    | FirstWrite | Abandoning | GivingUp | Verifying | AwaitingAdmission(probe: Probe) | EnteringCutover(probe: Probe)
    | StoppingOld(probe: Probe) | OldStopped(probe: Probe) | ReleasingOld(probe: Probe)
    | ReadyToStart(probe: Probe) | NewPrepared(g: nat, probe: Probe) | NewBooting(g: nat, probe: Probe)
    | StoppingNew(g: nat) | Unregistering(g: nat) | Publishing(g: nat, probe: Probe)
    | FailingProbe(probe: Probe) | Failing(stage: string, locked: bool)
    | Completing(retain: bool, locked: bool) | Unlocking

  // An invocation; boundary is the transition whose cutover may interrupt it.
  datatype InvokePc =
    | Arriving | Holding
    | Admitted(weaverID: string, generationID: string, boundary: Option<nat>)
    | Sent(weaverID: string, generationID: string, boundary: Option<nat>)
    | Awaiting(weaverID: string, generationID: string, boundary: Option<nat>)
    | Lost(weaverID: string, generationID: string, boundary: Option<nat>, delivered: bool)
    | WaitingFor(t: nat) | Ended

  datatype Holder = Invoker(i: nat) | Cutover(t: nat)

  datatype Event =
    | StartStarted(s: nat, g: nat)
    | FirstWriteRefused(t: nat)
    | ProbePassed(t: nat)
    | CutoverEntered(t: nat, prior: Option<Old>)
    | OldSignalled(t: nat)
    | OldGone(t: nat, generationID: string)
    | ReplacementStarted(t: nat, g: nat, prior: Option<Old>, stopped: string)
    | Took(t: nat, pc: RunPc, answer: Answer)
    | InvokeAdmitted(i: nat, during: Option<nat>)
    | FrameSent(i: nat, weaverID: string, generationID: string)
    | ConnectionLost(i: nat)
    | AnsweredRestarted(i: nat, t: nat)
    | AnsweredOtherwise(i: nat)

  // priorStop: the generation whose stop the record found at the beginning already proved.
  datatype World = World(
    claim: Option<nat>, starts: map<nat, StartPc>,
    child: Option<nat>, children: map<nat, Child>,
    transitions: map<nat, Transition>, current: Option<nat>, runs: map<nat, RunPc>, epoch: nat,
    admission: Option<Holder>, invokes: map<nat, InvokePc>,
    record: Option<Record>, priorStop: Option<string>, log: seq<Event>)

  // What the outside world answers during one step of a transition or a start.
  datatype Answer = Answer(
    ok: bool, writeOk: bool, probe: Option<Probe>, fallback: Probe, g: nat,
    weaverID: string, generationID: string, message: string, now: string)

  datatype Action =
    | Die(g: nat)
    | BeginStart(s: nat, status: Status)
    | StepStart(s: nat, answer: Answer)
    | BeginRestart(t: nat, id: string, minted: string, status: Status, readable: bool)
    | StepRun(t: nat, answer: Answer)
    | SignalOld(t: nat)
    | Arrive(i: nat)
    | StepInvoke(i: nat, status: Status, ok: bool, gone: bool)

  predicate ChildLives(child: Option<nat>, children: map<nat, Child>) {
    child.Some? && child.value in children && children[child.value].phase == Alive
  }

  function WithPhase(children: map<nat, Child>, g: nat, phase: Phase): map<nat, Child>
    requires g in children
  {
    children[g := children[g].(phase := phase)]
  }

  // The supervision entry goes only if it is still this process.
  function Released(child: Option<nat>, g: nat): Option<nat> {
    if child == Some(g) then None else child
  }

  // ------------------------------------------------------------ start

  predicate StartEnabled(w: World, s: nat, a: Answer) {
    && s in w.starts
    && match w.starts[s]
       case Claimed => a.g !in w.children
       case Prepared(g) => g in w.children
       case Booting(g) => g in w.children && (!a.ok ==> w.children[g].phase == Dead)
       case Discarding(_) => true
       case Leaving => true
  }

  function StartStep(w: World, s: nat, a: Answer): World
    requires StartEnabled(w, s, a)
  {
    match w.starts[s]
    case Claimed =>
      if !a.ok || ChildLives(w.child, w.children) then w.(starts := w.starts[s := Leaving])
      else
        w.(child := Some(a.g), children := w.children[a.g := Child(Registered, "", a.generationID)],
           starts := w.starts[s := Prepared(a.g)])
    case Prepared(g) =>
      if a.ok then
        w.(children := WithPhase(w.children, g, Alive), starts := w.starts[s := Booting(g)],
           log := w.log + [StartStarted(s, g)])
      else
        w.(children := WithPhase(w.children, g, Dead), child := Released(w.child, g), starts := w.starts[s := Leaving])
    case Booting(g) =>
      if a.ok then
        w.(children := w.children[g := w.children[g].(weaverID := a.weaverID, generationID := a.generationID)],
           starts := w.starts[s := Leaving])
      else w.(starts := w.starts[s := Discarding(g)])
    case Discarding(g) =>
      w.(child := Released(w.child, g), starts := w.starts[s := Leaving])
    case Leaving =>
      w.(claim := if w.claim == Some(s) then None else w.claim, starts := w.starts - {s})
  }

  // ------------------------------------------------------------ restart: choosing what to do

  datatype Choice = Refuse | Replace(prior: Old) | Retry(record: Record)

  // How a missing generation prints; it names no generation but is not empty either.
  const Missing := "<nil>"

  function NonEmpty(generationID: string, minted: string): string {
    if generationID == "" then minted else generationID
  }

  // A live child is replaced; without one, a retryable failure is retried, or a process found
  // in the metadata is replaced.
  function Choose(w: World, status: Status, readable: bool, minted: string): Choice {
    if ChildLives(w.child, w.children) then
      var c := w.children[w.child.value];
      Replace(Launched(w.child.value, c.weaverID, NonEmpty(c.generationID, minted)))
    else if !readable then Refuse
    else
      var retry := w.record.Some? && w.record.value.state == Failed;
      if retry && !Retryable(w.record.value) then Refuse
      else
        match status
        case Published(weaverID, generationID, usable) =>
          if retry || !usable then Refuse
          else Replace(Discovered(weaverID, NonEmpty(generationID, Missing)))
        case Stale => Refuse
        case Absent => if retry then Retry(w.record.value) else Refuse
  }

  function NewTransition(id: string, prior: Old, epoch: nat): Transition {
    Transition(id, Some(prior), epoch, Probing, false, prior.generationID, None, false, false, false)
  }

  function RestartStep(w: World, t: nat, id: string, minted: string, status: Status, readable: bool): World {
    // A retained failure and a dead child are dropped even when the restart is then refused.
    var v := w.(current := None, child := if ChildLives(w.child, w.children) then w.child else None);
    match Choose(w, status, readable, minted)
    case Refuse => v
    case Replace(prior) =>
      v.(epoch := w.epoch + 1, current := Some(t), runs := w.runs[t := FirstWrite],
         transitions := w.transitions[t := NewTransition(id, prior, w.epoch + 1)],
         children := if prior.Launched? && prior.gen in w.children
                     then w.children[prior.gen := w.children[prior.gen].(generationID := prior.generationID)]
                     else w.children)
    case Retry(r) =>
      v.(epoch := w.epoch + 1, current := Some(t), runs := w.runs[t := FirstWrite],
         transitions := w.transitions[t := RetryOf(r, id, w.epoch + 1)])
  }

  // ------------------------------------------------------------ restart: running a transition

  predicate Accepted(u: Transition, failure: Option<Failure>, a: Answer) {
    a.writeOk && Validate(RecordOf(u, failure), ForWrite) == Fine
  }

  // Puts a transition in a state and writes its record if the validator and the disk allow it.
  function Put(w: World, t: nat, u: Transition, failure: Option<Failure>, a: Answer): World
    requires t in w.transitions
  {
    w.(transitions := w.transitions[t := u],
       record := if Accepted(u, failure, a) then Some(Written(RecordOf(u, failure), a.now)) else w.record,
       log := if u.prior.Some? && u.cutover && !w.transitions[t].cutover then w.log + [CutoverEntered(t, u.prior)]
              else w.log)
  }

  function GoTo(w: World, t: nat, pc: RunPc): World {
    w.(runs := w.runs[t := pc])
  }

  predicate OldIsGone(u: Transition, children: map<nat, Child>) {
    u.prior.Some? && u.prior.value.Launched? && u.prior.value.gen in children ==>
      children[u.prior.value.gen].phase != Alive
  }

  predicate RunEnabled(w: World, t: nat, a: Answer) {
    && t in w.runs && t in w.transitions && !Blank(a.message) && !Blank(a.now)
    && match w.runs[t]
       case Verifying => !a.fallback.success
       case AwaitingAdmission(_) => w.admission == None
       case StoppingOld(_) => a.ok ==> OldIsGone(w.transitions[t], w.children)
       case ReadyToStart(_) => a.g !in w.children
       case NewPrepared(g, _) => g in w.children
       case NewBooting(g, _) => g in w.children
       case StoppingNew(g) => g in w.children && (a.ok ==> w.children[g].phase == Dead)
       case Publishing(g, _) => g in w.children
       case _ => true
  }

  function Verified(w: World, t: nat, a: Answer): World
    requires t in w.transitions
  {
    var u := w.transitions[t];
    if !a.ok then GoTo(w, t, FailingProbe(a.fallback))
    else if u.retry then
      if u.probe.Some? && u.probe.value.success then GoTo(w, t, AwaitingAdmission(u.probe.value))
      else GoTo(w, t, Failing("probe", false))
    else if a.probe.None? then GoTo(w, t, FailingProbe(a.fallback))
    else if !a.probe.value.success then GoTo(w, t, FailingProbe(a.probe.value))
    else GoTo(w, t, AwaitingAdmission(a.probe.value)).(log := w.log + [ProbePassed(t)])
  }

  function TakeStep(w: World, t: nat, a: Answer): World
    requires RunEnabled(w, t, a)
  {
    var u := w.transitions[t];
    match w.runs[t]
    case FirstWrite =>
      var v := WithState(u, u.state, u.probe);
      if Accepted(v, None, a) then GoTo(Put(w, t, v, None, a), t, Verifying)
      else
        GoTo(Put(w, t, v, None, a), t, if u.prior.Some? && !u.retry then Abandoning else GivingUp)
          .(log := w.log + [FirstWriteRefused(t)])
    case Abandoning =>
      GoTo(w.(transitions := w.transitions[t := u.(state := Running, probe := None)]), t, Completing(false, false))
    case GivingUp => w.(transitions := w.transitions[t := u.(done := true)], runs := w.runs - {t})
    case Verifying => Verified(w, t, a)
    case AwaitingAdmission(p) =>
      GoTo(w, t, EnteringCutover(p)).(admission := Some(Cutover(t)))
    case EnteringCutover(p) =>
      var v := WithState(u, Restarting, Some(p));
      GoTo(Put(w, t, v, None, a), t,
           if !Accepted(v, None, a) then Failing("state", true)
           else if u.prior.Some? then StoppingOld(p) else ReadyToStart(p))
    case StoppingOld(p) =>
      if a.ok then
        GoTo(w, t, OldStopped(p))
          .(transitions := w.transitions[t := u.(stopped := true)], log := w.log + [OldGone(t, u.generationID)])
      else GoTo(w, t, Failing("stop", true))
    case OldStopped(p) =>
      var v := WithState(u, Restarting, Some(p));
      GoTo(Put(w, t, v, None, a), t, if Accepted(v, None, a) then ReleasingOld(p) else Failing("state", true))
    case ReleasingOld(p) =>
      GoTo(w, t, ReadyToStart(p))
        .(child := if u.prior.Some? && u.prior.value.Launched? then Released(w.child, u.prior.value.gen) else w.child)
    case ReadyToStart(p) =>
      if !a.ok || w.child.Some? then GoTo(w, t, Failing("launch", true))
      else
        GoTo(w, t, NewPrepared(a.g, p))
          .(child := Some(a.g), children := w.children[a.g := Child(Registered, "", a.generationID)])
    case NewPrepared(g, p) =>
      if a.ok then
        GoTo(w, t, NewBooting(g, p))
          .(children := WithPhase(w.children, g, Alive), log := w.log + [ReplacementStarted(t, g, u.prior, u.generationID)])
      else GoTo(w, t, Unregistering(g)).(children := WithPhase(w.children, g, Dead))
    case NewBooting(g, p) =>
      if a.ok then
        GoTo(w, t, Publishing(g, p))
          .(children := w.children[g := w.children[g].(weaverID := a.weaverID, generationID := a.generationID)])
      else GoTo(w, t, StoppingNew(g))
    case StoppingNew(g) => GoTo(w, t, if a.ok then Unregistering(g) else Failing("launch", true))
    case Unregistering(g) => GoTo(w, t, Failing("launch", true)).(child := Released(w.child, g))
    case Publishing(g, p) =>
      var v := WithState(u.(generationID := w.children[g].generationID), Running, Some(p));
      GoTo(Put(w, t, v, None, a), t, if Accepted(v, None, a) then Completing(false, true) else Failing("state", true))
    case FailingProbe(p) =>
      if u.prior.None? || u.retry then GoTo(w, t, Failing("probe", false))
      else
        var v := WithState(u, Running, Some(p));
        GoTo(Put(w, t, v, Some(Failure("probe", a.message)), a), t, Completing(false, false))
    case Failing(stage, locked) =>
      var v := WithState(u, Failed, None);
      GoTo(Put(w, t, v, Some(Failure(stage, a.message)), a), t, Completing(true, locked))
    case Completing(retain, locked) =>
      w.(current := if !retain && w.current == Some(t) then None else w.current,
         transitions := w.transitions[t := u.(done := true)],
         runs := if locked then w.runs[t := Unlocking] else w.runs - {t})
    case Unlocking => w.(admission := None, runs := w.runs - {t})
  }

  // The history notes where the transition stood and what it was answered.
  function Noted(w: World, e: Event): World {
    w.(log := w.log + [e])
  }

  function RunStep(w: World, t: nat, a: Answer): World
    requires RunEnabled(w, t, a)
  {
    TakeStep(Noted(w, Took(t, w.runs[t], a)), t, a)
  }

  // ------------------------------------------------------------ invoke

  // Ids that are known on both sides must agree.
  predicate Matches(prior: Old, weaverID: string, generationID: string) {
    (prior.weaverID == "" || prior.weaverID == weaverID) && (prior.generationID == "" || prior.generationID == generationID)
  }

  datatype Target = NoTarget | Await(t: nat) | Reach(weaverID: string, generationID: string)

  function TargetOf(w: World, status: Status): Target {
    if w.current.Some? && w.current.value in w.transitions
       && w.transitions[w.current.value].state in {Probing, Restarting, Failed}
    then
      var u := w.transitions[w.current.value];
      if u.state == Restarting then Await(w.current.value)
      else if u.state == Failed || !status.Published? then NoTarget
      else
        var generation := if u.prior.Some? && status.generationID == "" then u.prior.value.generationID else status.generationID;
        if Blank(generation) then NoTarget else Reach(status.weaverID, generation)
    else if !status.Published? || (status.generationID != "" && Blank(status.generationID)) then NoTarget
    else Reach(status.weaverID, status.generationID)
  }

  // The transition whose cutover would interrupt a request to this target.
  function BoundaryOf(w: World, weaverID: string, generationID: string): Option<nat> {
    if w.current.Some? && w.current.value in w.transitions
       && w.transitions[w.current.value].prior.Some? && w.transitions[w.current.value].epoch == w.epoch
       && Matches(w.transitions[w.current.value].prior.value, weaverID, generationID)
    then w.current else None
  }

  predicate InvokeEnabled(w: World, i: nat, ok: bool, gone: bool) {
    && i in w.invokes
    && match w.invokes[i]
       case Arriving => gone || w.admission == None
       case WaitingFor(t) => ok && !gone ==> t in w.transitions && w.transitions[t].done
       case Lost(_, _, boundary, _) => boundary.Some? ==> boundary.value in w.transitions
       case Ended => false
       case _ => true
  }

  function AtInvoke(w: World, i: nat, pc: InvokePc): World {
    w.(invokes := w.invokes[i := pc])
  }

  function InvokeStep(w: World, i: nat, status: Status, ok: bool, gone: bool): World
    requires InvokeEnabled(w, i, ok, gone)
  {
    match w.invokes[i]
    case Arriving =>
      if gone then AtInvoke(w, i, Ended) else AtInvoke(w, i, Holding).(admission := Some(Invoker(i)))
    case Holding =>
      (match TargetOf(w, status)
       case Await(t) => AtInvoke(w, i, WaitingFor(t)).(admission := None)
       case NoTarget => AtInvoke(w, i, Ended).(admission := None, log := w.log + [AnsweredOtherwise(i)])
       case Reach(weaverID, generationID) =>
         AtInvoke(w, i, Admitted(weaverID, generationID, BoundaryOf(w, weaverID, generationID)))
           .(log := w.log + [InvokeAdmitted(i, w.current)]))
    case Admitted(weaverID, generationID, boundary) =>
      if ok then
        AtInvoke(w, i, Sent(weaverID, generationID, boundary)).(log := w.log + [FrameSent(i, weaverID, generationID)])
      else AtInvoke(Noted(w, ConnectionLost(i)), i, Lost(weaverID, generationID, boundary, false)).(admission := None)
    case Sent(weaverID, generationID, boundary) =>
      if ok then AtInvoke(w, i, Awaiting(weaverID, generationID, boundary)).(admission := None)
      else AtInvoke(Noted(w, ConnectionLost(i)), i, Lost(weaverID, generationID, boundary, true)).(admission := None)
    case Awaiting(weaverID, generationID, boundary) =>
      if ok then AtInvoke(w, i, Ended).(log := w.log + [AnsweredOtherwise(i)])
      else AtInvoke(Noted(w, ConnectionLost(i)), i, Lost(weaverID, generationID, boundary, true))
    case Lost(_, _, boundary, delivered) =>
      if gone then AtInvoke(w, i, Ended)
      else if delivered && boundary.Some? && w.transitions[boundary.value].cutover then
        AtInvoke(w, i, Ended).(log := w.log + [AnsweredRestarted(i, boundary.value)])
      else AtInvoke(w, i, Ended).(log := w.log + [AnsweredOtherwise(i)])
    case WaitingFor(t) =>
      if gone then AtInvoke(w, i, Ended)
      else if ok then AtInvoke(w, i, Arriving)
      else AtInvoke(w, i, Ended).(log := w.log + [AnsweredOtherwise(i)])
  }

  // ------------------------------------------------------------ all steps

  // A restart may take over: no claim, and no transition but a retained failure.
  predicate MayBegin(w: World, t: nat, id: string, minted: string) {
    t !in w.transitions && t !in w.runs && w.claim == None && !Blank(id) && !Blank(minted)
    && (w.current.Some? ==> w.current.value in w.transitions && w.transitions[w.current.value].state == Failed)
  }

  predicate Enabled(w: World, a: Action) {
    match a
    case Die(g) => g in w.children && w.children[g].phase == Alive
    case BeginStart(s, status) =>
      s !in w.starts && w.claim == None && w.current == None && status == Absent
      && !ChildLives(w.child, w.children)
    case StepStart(s, answer) => StartEnabled(w, s, answer)
    case BeginRestart(t, id, minted, _, _) =>
      MayBegin(w, t, id, minted)
    case StepRun(t, answer) => RunEnabled(w, t, answer)
    case SignalOld(t) => t in w.runs && w.runs[t].StoppingOld?
    case Arrive(i) => i !in w.invokes
    case StepInvoke(i, _, ok, gone) => InvokeEnabled(w, i, ok, gone)
  }

  function Do(w: World, a: Action): World
    requires Enabled(w, a)
  {
    match a
    case Die(g) => w.(children := WithPhase(w.children, g, Dead))
    case BeginStart(s, _) => w.(claim := Some(s), starts := w.starts[s := Claimed])
    case StepStart(s, answer) => StartStep(w, s, answer)
    case BeginRestart(t, id, minted, status, readable) => RestartStep(w, t, id, minted, status, readable)
    case StepRun(t, answer) => RunStep(w, t, answer)
    case SignalOld(t) => w.(log := w.log + [OldSignalled(t)])
    case Arrive(i) => w.(invokes := w.invokes[i := Arriving])
    case StepInvoke(i, status, ok, gone) => InvokeStep(w, i, status, ok, gone)
  }

  // A Mill that has just started: nothing supervised, perhaps a record from an earlier run.
  function Fresh(record: Option<Record>): World {
    World(None, map[], None, map[], map[], None, map[], 0, None, map[], record,
          if record.Some? && FailedLaunch(record.value) then Some(record.value.generationID) else None, [])
  }
}
