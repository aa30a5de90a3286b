/** What holds over every interleaving of starts, restarts and invocations of one workspace. */
module RestartTheorems {
  import opened Basics
  import opened RestartRecord
  import opened RestartProtocol
  import opened RestartInvariant
  import opened RestartRuns
  import opened RestartCutover

  // A record left by an earlier Mill: valid, and resumable if it tells of a failed launch.
  ghost predicate SoundRecord(record: Option<Record>) {
    record.Some? ==> Validate(record.value, FromDisk) == Fine && (FailedLaunch(record.value) ==> Resumable(record.value))
  }

  lemma {:induction false} FreshIsGood(record: Option<Record>)
    requires SoundRecord(record)
    ensures Good(Fresh(record))
  {
    hide Validate, Resumable;
  }

  lemma {:induction false} RestartKeeps(w: World, a: Action)
    requires Good(w) && a.BeginRestart? && Enabled(w, a)
    ensures Good(Do(w, a))
  {
    hide Good, RestartStep;
    BeginRestartKeeps(w, a.t, a.id, a.minted, a.status, a.readable);
  }

  lemma {:induction false} CallersKeep(w: World, a: Action)
    requires Good(w) && Enabled(w, a) && (a.StepStart? || a.StepRun? || a.StepInvoke?)
    ensures Good(Do(w, a))
  {
    hide Good, StartStep, RunStep, InvokeStep;
    match a {
      case StepStart(s, answer) => StepStartKeeps(w, s, answer);
      case StepRun(t, answer) => StepRunKeeps(w, t, answer);
      case StepInvoke(i, status, ok, gone) => StepInvokeKeeps(w, i, status, ok, gone);
      case _ =>
    }
  }

  /** Every step of every caller keeps the invariant. */
  lemma {:induction false} StepKeepsGood(w: World, a: Action)
    requires Good(w) && Enabled(w, a)
    ensures Good(Do(w, a))
  {
    hide Good, Enabled, Do;
    match a {
      case Die(g) => DieKeeps(w, g);
      case BeginStart(_, _) => BeginStartKeeps(w, a);
      case BeginRestart(_, _, _, _, _) => RestartKeeps(w, a);
      case SignalOld(_) => SignalOldKeeps(w, a);
      case Arrive(_) => ArriveKeeps(w, a);
      case _ => CallersKeep(w, a);
    }
  }

  ghost predicate StepsTo(w: World, a: Action, v: World) {
    Enabled(w, a) && v == Do(w, a)
  }

  ghost predicate Step(w: World, v: World) {
    exists a :: StepsTo(w, a, v)
  }

  ghost predicate StepHere(run: seq<World>, i: int)
    requires 0 <= i < |run| - 1
  {
    Step(run[i], run[i + 1])
  }

  // Any interleaving, from a Mill that has just started.
  ghost predicate IsRun(run: seq<World>) {
    && |run| > 0
    && (exists record :: SoundRecord(record) && run[0] == Fresh(record))
    && forall i :: 0 <= i < |run| - 1 ==> StepHere(run, i)
  }

  lemma {:induction false} RunStaysGood(run: seq<World>, i: nat)
    requires IsRun(run) && i < |run|
    ensures Good(run[i])
  {
    hide Good, Enabled, Do, Fresh, SoundRecord;
    if i == 0 {
      var record :| SoundRecord(record) && run[0] == Fresh(record);
      FreshIsGood(record);
    } else {
      RunStaysGood(run, i - 1);
      assert StepHere(run, i - 1);
      var a :| StepsTo(run[i - 1], a, run[i]);
      StepKeepsGood(run[i - 1], a);
    }
  }

  // ------------------------------------------------------------ processes

  predicate IsAlive(w: World, g: nat) {
    g in w.children && w.children[g].phase == Alive
  }

  /** A start claim and a transition never coexist, and at most one generation launched by this
      Mill is alive: the registered one. */
  lemma {:induction false} OneGenerationAtATime(run: seq<World>, k: nat)
    requires IsRun(run) && k < |run|
    ensures run[k].claim == None || run[k].current == None
    ensures forall g: nat, h: nat :: IsAlive(run[k], g) && IsAlive(run[k], h) ==> g == h
    ensures forall g: nat :: IsAlive(run[k], g) ==> run[k].child == Some(g)
  {
    hide IsRun;
    RunStaysGood(run, k);
  }

  /** Whatever the interleaving: an old generation is signalled only after its transition's
      probe passed, and a replacement is launched only after the very generation its transition
      names was confirmed gone, by that transition itself unless it is a retry. */
  lemma {:induction false} CutoverIsOrdered(run: seq<World>, k: nat, j: nat)
    requires IsRun(run) && k < |run| && j < |run[k].log|
    ensures var past, e := run[k].log[..j], run[k].log[j];
            && (e.OldSignalled? || e.OldGone? ==> ProbePassed(e.t) in past)
            && (e.ReplacementStarted? ==> StopEvidence(past, run[k].priorStop, e.stopped))
            && (e.ReplacementStarted? && e.prior.Some? ==>
                  e.stopped == e.prior.value.generationID && OldGone(e.t, e.stopped) in past)
  {
    hide IsRun, StopEvidence;
    RunStaysGood(run, k);
    assert JustifiedAt(run[k].log, j, run[k].priorStop);
  }

  // ------------------------------------------------------------ invocations

  /** An invocation is answered as restarted for a transition only if its frame went to that
      transition's old generation and the transition entered its cutover afterwards. */
  lemma {:induction false} RestartedMeansInterrupted(run: seq<World>, k: nat, j: nat)
    requires IsRun(run) && k < |run| && j < |run[k].log| && run[k].log[j].AnsweredRestarted?
    ensures Interrupted(run[k].log[..j], run[k].log[j].i, run[k].log[j].t)
  {
    hide IsRun, Interrupted;
    RunStaysGood(run, k);
    assert JustifiedAt(run[k].log, j, run[k].priorStop);
  }

  lemma {:induction false} NotTwice(log: seq<Event>, priorStop: Option<string>, a: nat, b: nat)
    requires LogGood(log, priorStop) && a < b < |log|
    ensures !(log[a].InvokeAdmitted? && log[b].InvokeAdmitted? && log[a].i == log[b].i)
    ensures !(log[a].FrameSent? && log[b].FrameSent? && log[a].i == log[b].i)
  {
    assert JustifiedAt(log, b, priorStop);
    assert log[..b][a] in log[..b];
  }

  /** An invocation is relabelled only for the transition present when it was admitted; one
      admitted while there was none is never relabelled by a later restart. */
  lemma {:induction false} NeverRelabelledByALaterRestart(run: seq<World>, k: nat, i: nat, during: Option<nat>, t: nat)
    requires IsRun(run) && k < |run|
    requires InvokeAdmitted(i, during) in run[k].log && AnsweredRestarted(i, t) in run[k].log
    ensures during == Some(t)
  {
    hide IsRun, Interrupted;
    RunStaysGood(run, k);
    var log := run[k].log;
    var j :| 0 <= j < |log| && log[j] == AnsweredRestarted(i, t);
    assert JustifiedAt(log, j, run[k].priorStop);
    assert InvokeAdmitted(i, Some(t)) in log[..j];
    var a :| 0 <= a < |log| && log[a] == InvokeAdmitted(i, during);
    var b :| 0 <= b < j && log[..j][b] == InvokeAdmitted(i, Some(t));
    hide Good;
    OnlyLog(run[k]);
    if a < b {
      NotTwice(log, run[k].priorStop, a, b);
    } else if b < a {
      NotTwice(log, run[k].priorStop, b, a);
    }
  }

  lemma {:induction false} OnlyLog(w: World)
    requires Good(w)
    ensures LogGood(w.log, w.priorStop)
  {
  }

  /** A request frame is sent at most once per invocation: it is never replayed. */
  lemma {:induction false} FrameSentOnce(run: seq<World>, k: nat, a: nat, b: nat)
    requires IsRun(run) && k < |run| && a < |run[k].log| && b < |run[k].log|
    requires run[k].log[a].FrameSent? && run[k].log[b].FrameSent? && run[k].log[a].i == run[k].log[b].i
    ensures a == b
  {
    hide IsRun, Good;
    RunStaysGood(run, k);
    OnlyLog(run[k]);
    if a < b {
      NotTwice(run[k].log, run[k].priorStop, a, b);
    } else if b < a {
      NotTwice(run[k].log, run[k].priorStop, b, a);
    }
  }

  /** Every transition opens an epoch of its own, so an epoch captured at admission names at most
      one transition, and the current one always has the latest. */
  lemma {:induction false} OneEpochPerTransition(run: seq<World>, k: nat, s: nat, t: nat)
    requires IsRun(run) && k < |run| && s in run[k].transitions && t in run[k].transitions
    ensures run[k].transitions[s].epoch == run[k].transitions[t].epoch ==> s == t
    ensures run[k].current == Some(t) ==> run[k].transitions[s].epoch <= run[k].transitions[t].epoch
  {
    hide IsRun, ClaimInv, ChildInv, StartsInv, FinishInv, DurableInv, RunsChild, EvidenceInv, RecordInv, LockInv, CutInv, InvokesInv, LogGood;
    RunStaysGood(run, k);
  }

  // The transition an invocation finds, as long as it stands in its way.
  predicate Finds(w: World, t: nat, state: State) {
    w.current == Some(t) && t in w.transitions && w.transitions[t].state == state
  }

  /** Where an invocation is sent: it waits exactly for a transition that is restarting; otherwise it
      reaches the published process unless the transition it finds has failed or there is no
      generation to name, and it takes the old generation's name only while that one is probed. */
  lemma {:induction false} TargetIs(w: World, status: Status, t: nat)
    ensures TargetOf(w, status) == Await(t) <==> Finds(w, t, Restarting)
    ensures TargetOf(w, status).Reach? ==>
              status.Published? && TargetOf(w, status).weaverID == status.weaverID
              && (status.generationID != "" ==> TargetOf(w, status).generationID == status.generationID)
    ensures Finds(w, t, Probing) && status.Published? && status.generationID == "" ==>
              TargetOf(w, status) ==
              (var prior := w.transitions[t].prior;
               if prior.Some? && !Blank(prior.value.generationID) then Reach(status.weaverID, prior.value.generationID)
               else NoTarget)
    ensures Finds(w, t, Probing) && status.Published? && status.generationID != "" ==>
              (TargetOf(w, status).Reach? <==> !Blank(status.generationID))
    ensures Finds(w, t, Failed) ==> TargetOf(w, status) == NoTarget
    ensures (w.current == None || Finds(w, t, Running)) ==>
              (TargetOf(w, status).Reach? <==>
                 status.Published? && (status.generationID == "" || !Blank(status.generationID)))
    ensures w.current == None && status.Published? && status.generationID == "" ==>
              TargetOf(w, status) == Reach(status.weaverID, "")
  {
    assert Blank("");
    hide Blank;
  }

  /** What a restart does: it replaces the live child under its name, or under a minted one; without
      a live child it retries a retryable record when nothing is published, or replaces the process
      the metadata names when the record has not failed; everything else is refused. */
  lemma {:induction false} ChoiceIs(
    w: World, status: Status, readable: bool, minted: string, g: nat, weaverID: string, generationID: string, r: Record)
    requires w.child.Some? ==> w.child.value in w.children
    ensures var choice := Choose(w, status, readable, minted);
            var alive := w.child.Some? && IsAlive(w, w.child.value);
            && (choice == Replace(Launched(g, weaverID, generationID)) <==>
                  && alive && w.child == Some(g) && weaverID == w.children[g].weaverID
                  && (w.children[g].generationID != "" ==> generationID == w.children[g].generationID)
                  && (w.children[g].generationID == "" ==> generationID == minted))
            && (choice == Replace(Discovered(weaverID, generationID)) <==>
                  && !alive && readable && status.Published? && status.usable && status.weaverID == weaverID
                  && (status.generationID != "" ==> generationID == status.generationID)
                  && (status.generationID == "" ==> generationID == "<nil>")
                  && (w.record.Some? ==> w.record.value.state != Failed))
            && (choice == Retry(r) <==>
                  !alive && readable && status == Absent && w.record == Some(r) && Retryable(r))
  {
  }

  // ------------------------------------------------------------ the admission lock

  lemma {:induction false} UnusedNumber(used: set<nat>) returns (n: nat)
    ensures n !in used
  {
    n := AboveAll(used);
  }

  lemma {:induction false} AboveAll(used: set<nat>) returns (n: nat)
    ensures forall x :: x in used ==> x < n
    decreases used
  {
    if used == {} {
      n := 0;
    } else {
      var x :| x in used;
      var m := AboveAll(used - {x});
      n := if x < m then m else x + 1;
      assert forall y :: y in used ==> y == x || y in used - {x};
    }
  }

  /** The admission lock is never lost: whoever holds it exists, is in a position that holds it,
      and can always take its next step. */
  lemma {:induction false} LockHolderCanMove(run: seq<World>, k: nat) returns (a: Action)
    requires IsRun(run) && k < |run| && run[k].admission.Some?
    ensures Enabled(run[k], a)
    ensures match run[k].admission.value
            case Cutover(t) => a.StepRun? && a.t == t && Locked(run[k].runs[t])
            case Invoker(i) => a.StepInvoke? && a.i == i && HoldsLock(run[k].invokes[i])
  {
    hide IsRun, Good;
    RunStaysGood(run, k);
    a := HolderMoves(run[k]);
  }

  lemma {:induction false} HolderMoves(w: World) returns (a: Action)
    requires Good(w) && w.admission.Some?
    ensures Enabled(w, a)
    ensures match w.admission.value
            case Cutover(t) => a.StepRun? && a.t == t && Locked(w.runs[t])
            case Invoker(i) => a.StepInvoke? && a.i == i && HoldsLock(w.invokes[i])
  {
    hide EpochInv, FinishInv, DurableInv, ClaimInv, ChildInv, StartsInv, EvidenceInv, RecordInv, CutInv, InvokesInv, LogGood, RunState;
    assert HeldBy(w.admission.value, w.runs, w.invokes);
    match w.admission.value {
      case Invoker(i) =>
        a := StepInvoke(i, Absent, true, false);
      case Cutover(t) =>
        assert RunChild(w.runs[t], w.transitions[t], w.child, w.children);
        var g := UnusedNumber(w.children.Keys);
        NotBlankStages();
        var none := Probe(false, "", "", "", "", [], true);
        a := StepRun(t, Answer(false, true, None, none, g, "", "", "stop", "stop"));
    }
  }

  // ------------------------------------------------------------ the durable record

  /** In every reachable state the durable record passes its validator, and a failed launch it
      tells of can be resumed: its evidence is complete and the generation it names was
      confirmed gone. */
  lemma {:induction false} RecordIsAlwaysSound(run: seq<World>, k: nat)
    requires IsRun(run) && k < |run| && run[k].record.Some?
    ensures Validate(run[k].record.value, FromDisk) == Fine
    ensures FailedLaunch(run[k].record.value) ==>
              Resumable(run[k].record.value)
              && StopEvidence(run[k].log, run[k].priorStop, run[k].record.value.generationID)
  {
    hide IsRun, Validate, StopEvidence;
    RunStaysGood(run, k);
  }

  /** A restart after a failed launch that left neither process nor metadata is a retry: it
      skips the probe, keeps the probe result and the generation identity, and its first write
      passes the validator. */
  lemma {:induction false} FailedLaunchIsRetried(w: World, t: nat, id: string, minted: string)
    requires Good(w) && MayBegin(w, t, id, minted)
    requires w.record.Some? && FailedLaunch(w.record.value) && !ChildLives(w.child, w.children)
    ensures var v := RestartStep(w, t, id, minted, Absent, true);
            && v.current == Some(t) && t in v.runs && t in v.transitions
            && var u := v.transitions[t];
            && u.retry && u.stopped && u.probe == w.record.value.probe && u.generationID == w.record.value.generationID
            && Validate(RecordOf(WithState(u, u.state, u.probe), None), ForWrite) == Fine
            && ReadyToLaunch(WithState(u, u.state, u.probe))
  {
    hide EpochInv, FinishInv, DurableInv, ClaimInv, ChildInv, StartsInv, TransitionsInv, RunsChild, EvidenceInv, LockInv, CutInv, InvokesInv, LogGood, StopEvidence, GoodProbe, Blank;
    RetryIsSound(w.record.value, id, w.epoch + 1);
  }

  lemma {:induction false} RetryIsSound(r: Record, id: string, epoch: nat)
    requires Validate(r, FromDisk) == Fine && Resumable(r) && !Blank(id)
    ensures var u := WithState(RetryOf(r, id, epoch), Restarting, r.probe);
            ReadyToLaunch(u) && Validate(RecordOf(u, None), ForWrite) == Fine
  {
    hide GoodProbe;
    assert Blank("");
  }
}
