/** The server's own fields and its lock-held sections for one workspace, each doing what the
    protocol's step says (cli/cmd/mill/restart.go, cli/cmd/mill/lifecycle.go,
    cli/cmd/mill/restart_process.go, cli/cmd/mill/forward.go). */
module RestartServer {
  import opened Basics
  import opened RestartRecord
  import opened RestartProtocol

  class Server {
    var claim: Option<nat>
    var child: Option<nat>
    var children: map<nat, Child>
    var transitions: map<nat, Transition>
    var current: Option<nat>
    var epoch: nat
    var record: Option<Record>

    // The same fields in a protocol state without callers.
    function Now(): World
      reads this
    {
      World(claim, map[], child, children, transitions, current, map[], epoch, None, map[], record, None, [])
    }

    constructor (record: Option<Record>)
      ensures Now() == World(None, map[], None, map[], map[], None, map[], 0, None, map[], record, None, [])
    {
      this.record := record;
      claim, child, children, transitions, current, epoch := None, None, map[], map[], None, 0;
    }

    // Puts a transition in a state, then writes its record if it is valid.
    method SetTransitionState(t: nat, state: State, probe: Option<Probe>, failure: Option<Failure>, a: Answer)
      returns (ok: bool)
      requires t in transitions
      modifies this`transitions, this`record
      ensures var u := WithState(old(transitions)[t], state, probe);
              && ok == Accepted(u, failure, a)
              && transitions == old(transitions)[t := u]
              && record == if ok then Some(Written(RecordOf(u, failure), a.now)) else old(record)
    {
      hide Validate, Blank;
      var u := transitions[t].(state := state);
      if state == Restarting {
        u := u.(cutover := true);
      }
      if probe.Some? {
        u := u.(probe := probe);
      }
      assert u == WithState(transitions[t], state, probe);
      transitions := transitions[t := u];
      var written := Record(state, u.id, u.generationID, "", "", "", u.stopped, u.probe, failure);
      if u.prior.Some? {
        written := written.(previousGeneration := u.prior.value.generationID, previousWeaver := u.prior.value.weaverID);
      }
      assert written == RecordOf(u, failure);
      hide RecordOf, WithState;
      ok := Validate(written, ForWrite) == Fine && a.writeOk;
      if ok {
        record := Some(written.(updatedAt := a.now));
      }
    }

    // Finishes a transition; only a retained one stays visible.
    method CompleteTransition(t: nat, retain: bool)
      requires t in transitions
      modifies this`transitions, this`current
      ensures transitions == old(transitions)[t := old(transitions)[t].(done := true)]
      ensures current == if !retain && old(current) == Some(t) then None else old(current)
    {
      if !retain && current == Some(t) {
        current := None;
      }
      transitions := transitions[t := transitions[t].(done := true)];
    }

    // Removes the supervision entry only if it is still this process.
    method ReleaseChild(g: nat) returns (owned: bool)
      modifies this`child
      ensures owned == (old(child) == Some(g)) && child == Released(old(child), g)
    {
      if child != Some(g) {
        return false;
      }
      child := None;
      owned := true;
    }

    // Registers a replacement; an existing entry refuses it.
    method RegisterReplacement(g: nat, generationID: string) returns (ok: bool)
      requires g !in children
      modifies this`child, this`children
      ensures ok == old(child).None?
      ensures if ok then child == Some(g) && children == old(children)[g := Child(Registered, "", generationID)]
              else child == old(child) && children == old(children)
    {
      if child.Some? {
        return false;
      }
      children := children[g := Child(Registered, "", generationID)];
      child := Some(g);
      ok := true;
    }

    // Installs a start claim unless a transition, a claim or a live generation is there.
    method BeginStart(s: nat, status: Status) returns (ok: bool)
      modifies this`claim
      ensures ok == (old(claim) == None && current == None && !ChildLives(child, children) && status == Absent)
      ensures claim == if ok then Some(s) else old(claim)
    {
      if claim.Some? || current.Some? {
        return false;
      }
      if child.Some? && child.value in children && children[child.value].phase == Alive {
        return false;
      }
      if status != Absent {
        return false;
      }
      claim := Some(s);
      ok := true;
    }

    // Chooses what a restart replaces or retries; a dead child is dropped on the way.
    method ChooseRestart(minted: string, status: Status, readable: bool) returns (choice: Choice)
      modifies this`child, this`children
      ensures choice == Choose(old(Now()), status, readable, minted)
      ensures child == if ChildLives(old(child), old(children)) then old(child) else None
      ensures children == if choice.Replace? && choice.prior.Launched? && choice.prior.gen in old(children)
                          then old(children)[choice.prior.gen := old(children)[choice.prior.gen].(generationID := choice.prior.generationID)]
                          else old(children)
    {
      if child.Some? && !(child.value in children && children[child.value].phase == Alive) {
        child := None;
      }
      if child.Some? {
        var c := children[child.value];
        var generationID := if c.generationID == "" then minted else c.generationID;
        children := children[child.value := c.(generationID := generationID)];
        return Replace(Launched(child.value, c.weaverID, generationID));
      }
      if !readable {
        return Refuse;
      }
      var retry := record.Some? && record.value.state == Failed;
      if retry && !Retryable(record.value) {
        return Refuse;
      }
      match status {
        case Published(weaverID, generationID, usable) =>
          if retry || !usable {
            return Refuse;
          }
          choice := Replace(Discovered(weaverID, if generationID == "" then Missing else generationID));
        case Stale =>
          choice := Refuse;
        case Absent =>
          choice := if retry then Retry(record.value) else Refuse;
      }
    }

    // Drops a retained failure and installs the transition that was chosen, if any.
    method BeginRestart(t: nat, id: string, minted: string, status: Status, readable: bool) returns (choice: Choice)
      requires claim == None && t !in transitions
      requires current.Some? ==> current.value in transitions && transitions[current.value].state == Failed
      modifies this
      ensures choice == Choose(old(Now()), status, readable, minted)
      ensures Now() == RestartStep(old(Now()), t, id, minted, status, readable).(runs := map[])
    {
      hide Choose, NewTransition, RetryOf, ChildLives;
      current := None;
      KeepsChoice(old(Now()), status, readable, minted);
      choice := ChooseRestart(minted, status, readable);
      if choice.Refuse? {
        return;
      }
      epoch := epoch + 1;
      var u := if choice.Retry? then RetryOf(choice.record, id, epoch) else NewTransition(id, choice.prior, epoch);
      transitions := transitions[t := u];
      current := Some(t);
    }

    // The target an invocation is admitted to, if any.
    method AdmittedInvokeTarget(status: Status) returns (target: Target)
      requires current.Some? ==> current.value in transitions
      ensures target == TargetOf(Now(), status)
    {
      if current.Some? {
        var u := transitions[current.value];
        match u.state {
          case Probing =>
            if !status.Published? {
              return NoTarget;
            }
            var generationID := status.generationID;
            if u.prior.Some? && generationID == "" {
              generationID := u.prior.value.generationID;
            }
            return if Blank(generationID) then NoTarget else Reach(status.weaverID, generationID);
          case Restarting =>
            return Await(current.value);
          case Failed =>
            return NoTarget;
          case _ =>
        }
      }
      if !status.Published? {
        return NoTarget;
      }
      if status.generationID != "" && Blank(status.generationID) {
        return NoTarget;
      }
      target := Reach(status.weaverID, status.generationID);
    }

    // The causal boundary captured while the admission lock is held.
    method AdmissionBoundary(weaverID: string, generationID: string) returns (boundary: Option<nat>)
      requires current.Some? ==> current.value in transitions
      ensures boundary == BoundaryOf(Now(), weaverID, generationID)
    {
      boundary := None;
      if current.Some? {
        var u := transitions[current.value];
        if u.prior.Some? && u.epoch == epoch && Matches(u.prior.value, weaverID, generationID) {
          boundary := current;
        }
      }
    }
  }

  lemma {:induction false} KeepsChoice(w: World, status: Status, readable: bool, minted: string)
    ensures Choose(w.(current := None), status, readable, minted) == Choose(w, status, readable, minted)
    ensures var choice := Choose(w, status, readable, minted);
            choice.Replace? && choice.prior.Launched? ==> ChildLives(w.child, w.children)
  {
  }

  // ------------------------------------------------------------ process identity

  // What must stay attached to a process that may be signalled; the endpoint stands for its
  // start time, socket and directories.
  datatype Identity = Identity(pid: int, weaverID: string, generationID: string, endpoint: seq<string>)

  // Older metadata has no generation and matches any.
  predicate SameIdentity(a: Identity, b: Identity) {
    && a.pid == b.pid && a.weaverID == b.weaverID && a.endpoint == b.endpoint
    && (a.generationID == "" || b.generationID == "" || a.generationID == b.generationID)
  }

  /** Comparing through a third identity is sound exactly when that one names its generation. */
  lemma {:induction false} SameIdentityThroughIff(b: Identity)
    ensures (forall a, c :: SameIdentity(a, b) && SameIdentity(b, c) ==> SameIdentity(a, c)) <==> b.generationID != ""
  {
    if b.generationID == "" {
      var a, c := b.(generationID := "1"), b.(generationID := "2");
      assert SameIdentity(a, b) && SameIdentity(b, c);
      assert "1"[0] != "2"[0];
      assert !SameIdentity(a, c);
    }
  }
}
