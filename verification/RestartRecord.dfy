/** The durable restart record and its validator (cli/cmd/mill/restart.go,
    cli/cmd/mill/restart_record.go). */
module RestartRecord {
  import opened Basics

  datatype State = Probing | Restarting | Running | Failed | Unknown(text: string)

  // diagnosticsOk says that every diagnostic row is well formed.
  datatype Probe = Probe(
    success: bool, stage: string, probeWorkspace: string, sourceWorkspace: string, log: string,
    completed: seq<string>, diagnosticsOk: bool)

  datatype Failure = Failure(stage: string, message: string)

  datatype Record = Record(
    state: State, transitionID: string, generationID: string, previousGeneration: string, previousWeaver: string,
    updatedAt: string, oldStopped: bool, probe: Option<Probe>, failure: Option<Failure>)

  datatype Mode = ForWrite | FromDisk

  datatype Fault =
    | Fine | NoTransitionID | WriterOwnsUpdatedAt | NoUpdatedAt | UnknownState
    | BlankGeneration | BlankPreviousGeneration | BlankPreviousWeaver
    | StoppedWithoutProbe | StoppedWithoutGeneration | ProbingContradiction | RunningWithoutGeneration
    | FailedWithoutFailure | BlankFailure | RunningFailureNeedsProbe | FailureContradictsState
    | StoppedMayOnlyFailLaunch | BadProbe

  predicate GoodProbe(p: Probe) {
    && !Blank(p.stage) && !Blank(p.probeWorkspace) && !Blank(p.sourceWorkspace) && !Blank(p.log)
    && p.stage == (if p.success then "probe/complete" else "probe/failure")
    && (forall i :: 0 <= i < |p.completed| ==> !Blank(p.completed[i]))
    && p.diagnosticsOk
  }

  function Validate(r: Record, mode: Mode): Fault {
    if Blank(r.transitionID) then NoTransitionID
    else if mode == ForWrite && r.updatedAt != "" then WriterOwnsUpdatedAt
    else if mode == FromDisk && Blank(r.updatedAt) then NoUpdatedAt
    else if r.state.Unknown? then UnknownState
    else if r.generationID != "" && Blank(r.generationID) then BlankGeneration
    else if r.previousGeneration != "" && Blank(r.previousGeneration) then BlankPreviousGeneration
    else if r.previousWeaver != "" && Blank(r.previousWeaver) then BlankPreviousWeaver
    else if r.oldStopped && (r.probe.None? || !r.probe.value.success) then StoppedWithoutProbe
    else if r.oldStopped && r.state != Failed && Blank(r.generationID) then StoppedWithoutGeneration
    else if r.state == Probing && (Blank(r.generationID) || r.probe.Some? || r.failure.Some? || r.oldStopped)
    then ProbingContradiction
    else if r.state == Running && Blank(r.generationID) then RunningWithoutGeneration
    else if r.state == Failed && r.failure.None? then FailedWithoutFailure
    else if r.failure.Some? && (Blank(r.failure.value.stage) || Blank(r.failure.value.message)) then BlankFailure
    else if r.failure.Some? && r.state == Running
            && (r.failure.value.stage != "probe" || r.probe.None? || r.probe.value.success)
    then RunningFailureNeedsProbe
    else if r.failure.Some? && r.state != Running && r.state != Failed then FailureContradictsState
    else if r.oldStopped && r.failure.Some? && r.failure.value.stage != "launch" then StoppedMayOnlyFailLaunch
    else if r.probe.Some? && !GoodProbe(r.probe.value) then BadProbe
    else Fine
  }

  // The only failure a restart may pick up again without a new probe.
  predicate Retryable(r: Record) {
    && r.state == Failed && r.probe.Some? && r.probe.value.success && r.oldStopped
    && r.failure.Some? && r.failure.value.stage == "launch"
  }

  predicate FailedLaunch(r: Record) {
    r.state == Failed && r.failure.Some? && r.failure.value.stage == "launch"
  }

  // ------------------------------------------------------------ transitions and their records

  // The generation a transition replaces: one this Mill launched, or one found in metadata.
  datatype Old = Launched(gen: nat, weaverID: string, generationID: string)
               | Discovered(weaverID: string, generationID: string)

  datatype Transition = Transition(
    id: string, prior: Option<Old>, epoch: nat, state: State, cutover: bool, generationID: string,
    probe: Option<Probe>, retry: bool, stopped: bool, done: bool)

  // Entering the restarting state opens the cutover for good.
  function WithState(t: Transition, state: State, probe: Option<Probe>): Transition {
    t.(state := state, cutover := t.cutover || state == Restarting, probe := if probe.Some? then probe else t.probe)
  }

  // The record written for a transition just put in a state.
  function RecordOf(t: Transition, failure: Option<Failure>): Record {
    Record(t.state, t.id, t.generationID,
           if t.prior.Some? then t.prior.value.generationID else "",
           if t.prior.Some? then t.prior.value.weaverID else "",
           "", t.stopped, t.probe, failure)
  }

  function Written(r: Record, now: string): Record {
    r.(updatedAt := now)
  }

  // A retry carries the stopped generation and its probe over from the failed record.
  function RetryOf(r: Record, id: string, epoch: nat): Transition {
    Transition(id, None, epoch, Restarting, false, r.generationID, r.probe, true, r.oldStopped, false)
  }

  lemma {:induction false} LaunchIsNotBlank()
    ensures !Blank("launch") && !Blank("state") && !Blank("probe") && !Blank("stop")
  {
    assert !IsSpace("launch"[0]) && !IsSpace("state"[0]) && !IsSpace("probe"[0]) && !IsSpace("stop"[0]);
  }

  /** A record accepted for writing reads back as valid once the writer has stamped it. */
  lemma {:induction false} WrittenRecordReadsBack(r: Record, now: string)
    requires Validate(r, ForWrite) == Fine && !Blank(now)
    ensures Validate(Written(r, now), FromDisk) == Fine
  {
    hide Blank, GoodProbe;
  }

  // What a transition carries once the old generation is known to be gone.
  ghost predicate ReadyToLaunch(t: Transition) {
    && !Blank(t.id) && !Blank(t.generationID)
    && t.stopped && t.probe.Some? && t.probe.value.success && GoodProbe(t.probe.value)
    && (t.prior.Some? ==>
          && (t.prior.value.generationID != "" ==> !Blank(t.prior.value.generationID))
          && (t.prior.value.weaverID != "" ==> !Blank(t.prior.value.weaverID)))
  }

  /** The record of a failure after the stop is accepted exactly when the failing stage is the
      launch; the state and probe stages build records the validator refuses. */
  lemma {:induction false} StoppedFailureAcceptedIff(t: Transition, stage: string, message: string)
    requires ReadyToLaunch(t) && !Blank(stage) && !Blank(message)
    ensures Validate(RecordOf(WithState(t, Failed, None), Some(Failure(stage, message))), ForWrite) == Fine
            <==> stage == "launch"
  {
    hide Blank, GoodProbe;
  }

  /** Publishing the replacement is accepted exactly when it published a generation. */
  lemma {:induction false} RunningAcceptedIff(t: Transition, probe: Probe, published: string)
    requires ReadyToLaunch(t) && probe.success && GoodProbe(probe)
    ensures Validate(RecordOf(WithState(t.(generationID := published), Running, Some(probe)), None), ForWrite) == Fine
            <==> !Blank(published)
  {
    hide GoodProbe;
    assert Blank("");
  }

  /** A persisted launch failure is valid, can be retried, and its retry may write its first
      record and reach the launch again with the same probe and generation. */
  lemma {:induction false} LaunchFailureIsRetryable(t: Transition, message: string, now: string, id: string, epoch: nat)
    requires ReadyToLaunch(t) && !Blank(message) && !Blank(now) && !Blank(id)
    ensures var r := Written(RecordOf(WithState(t, Failed, None), Some(Failure("launch", message))), now);
            var u := RetryOf(r, id, epoch);
            && Validate(r, FromDisk) == Fine && Retryable(r)
            && r.probe == t.probe && r.generationID == t.generationID
            && Validate(RecordOf(WithState(u, Restarting, u.probe), None), ForWrite) == Fine
            && ReadyToLaunch(WithState(u, Restarting, u.probe))
            && u.probe == t.probe && u.generationID == t.generationID
  {
    LaunchIsNotBlank();
    hide GoodProbe;
    StoppedFailureAcceptedIff(t, "launch", message);
    WrittenRecordReadsBack(RecordOf(WithState(t, Failed, None), Some(Failure("launch", message))), now);
    assert Blank("");
  }

  // One more retry whose launch fails again: the record it leaves behind.
  function RetriedOnce(r: Record, id: string, epoch: nat, message: string, now: string): Record {
    var u := RetryOf(r, id, epoch);
    Written(RecordOf(WithState(WithState(u, Restarting, u.probe), Failed, None), Some(Failure("launch", message))), now)
  }

  datatype Attempt = Attempt(id: string, epoch: nat, message: string, now: string)

  function Retried(r: Record, attempts: seq<Attempt>): Record {
    if attempts == [] then r
    else
      var a := attempts[|attempts| - 1];
      RetriedOnce(Retried(r, attempts[..|attempts| - 1]), a.id, a.epoch, a.message, a.now)
  }

  ghost predicate RetryState(r: Record, probe: Probe, generationID: string) {
    && Validate(r, FromDisk) == Fine && Retryable(r)
    && r.probe == Some(probe) && r.generationID == generationID && !Blank(generationID)
  }

  /** Any number of failed retries leaves a valid, retryable record with the very same probe
      result and generation identity. */
  lemma {:induction false} RetriesPreserveEvidence(r: Record, probe: Probe, generationID: string, attempts: seq<Attempt>)
    requires RetryState(r, probe, generationID)
    requires forall a :: a in attempts ==> !Blank(a.id) && !Blank(a.message) && !Blank(a.now)
    ensures RetryState(Retried(r, attempts), probe, generationID)
  {
    if attempts != [] {
      var init, a := attempts[..|attempts| - 1], attempts[|attempts| - 1];
      assert a in attempts;
      RetriesPreserveEvidence(r, probe, generationID, init);
      hide Blank, GoodProbe;
      RetryKeepsState(Retried(r, init), probe, generationID, a);
    }
  }

  lemma {:induction false} RetryKeepsState(r: Record, probe: Probe, generationID: string, a: Attempt)
    requires RetryState(r, probe, generationID) && !Blank(a.id) && !Blank(a.message) && !Blank(a.now)
    ensures RetryState(RetriedOnce(r, a.id, a.epoch, a.message, a.now), probe, generationID)
  {
    var u := RetryOf(r, a.id, a.epoch);
    var v := WithState(u, Restarting, u.probe);
    hide Blank, GoodProbe;
    assert ReadyToLaunch(v);
    LaunchFailureIsRetryable(v, a.message, a.now, a.id, a.epoch);
  }
}
