/** Relaying a weaver's response frames to the caller (cli/cmd/mill/forward.go,
    relayInvokeWithAdmission after the request frame was written). */
module InvokeRelay {

  // One read from the weaver: a complete line, a line cut off by the end, or no data at all.
  datatype Read = Line(text: string, header: bool, terminator: bool) | Truncated | Closed | Broken

  datatype Fault = NoFault | ClientWrite | CutShort | NoResponse | ReadFailed

  datatype Outcome = Outcome(relayed: seq<string>, responseWritten: bool, clientWriteFailed: bool, fault: Fault)

  // What the k-th read yields; a connection that has nothing more to say is closed.
  function ReadAt(input: seq<Read>, k: nat): Read {
    if k < |input| then input[k] else Closed
  }

  function WriteAt(writes: seq<bool>, k: nat): bool {
    k >= |writes| || writes[k]
  }

  // The first k input are complete lines.
  ghost predicate AllLines(input: seq<Read>, k: nat) {
    forall i :: 0 <= i < k ==> ReadAt(input, i).Line?
  }

  ghost predicate TerminatorAt(input: seq<Read>, k: nat) {
    ReadAt(input, k).Line? && ReadAt(input, k).terminator
  }

  // The response is whole after k lines: one ordinary line, or a stream up to its terminator.
  ghost predicate WholeAfter(input: seq<Read>, k: nat) {
    && k >= 1 && AllLines(input, k)
    && (if ReadAt(input, 0).header then
          TerminatorAt(input, k - 1) && forall i :: 0 <= i < k - 1 ==> !TerminatorAt(input, i)
        else k == 1)
  }

  ghost predicate Whole(input: seq<Read>) {
    exists k :: WholeAfter(input, k)
  }

  ghost predicate Delivered(writes: seq<bool>, k: nat) {
    forall i :: 0 <= i < k ==> WriteAt(writes, i)
  }

  function Texts(input: seq<Read>, k: nat): seq<string>
    decreases k
  {
    if k == 0 then []
    else Texts(input, k - 1) + if ReadAt(input, k - 1).Line? then [ReadAt(input, k - 1).text] else []
  }

  // The caller got exactly the first k lines and then the relay ended for a reason.
  ghost predicate EndedAfter(input: seq<Read>, writes: seq<bool>, k: nat, o: Outcome) {
    && AllLines(input, k) && Delivered(writes, k) && o.relayed == Texts(input, k)
    && match o.fault
       case NoFault => WholeAfter(input, k)
       case ClientWrite => ReadAt(input, k).Line? && !WriteAt(writes, k)
       case CutShort => ReadAt(input, k).Truncated?
       case NoResponse => ReadAt(input, k).Closed?
       case ReadFailed => ReadAt(input, k).Broken?
  }

  // No shorter prefix was already a whole response.
  ghost predicate NotYetWhole(input: seq<Read>, k: nat) {
    forall j :: 1 <= j <= k ==> !WholeAfter(input, j)
  }

  ghost predicate Ended(input: seq<Read>, writes: seq<bool>, o: Outcome) {
    exists k :: EndedAfter(input, writes, k, o) && (o.fault != NoFault ==> NotYetWhole(input, k))
  }

  lemma {:induction false} StreamGoesOn(input: seq<Read>, k: nat)
    requires NotYetWhole(input, k) && AllLines(input, k + 1) && ReadAt(input, 0).header && !TerminatorAt(input, k)
    ensures NotYetWhole(input, k + 1)
  {
    assert !WholeAfter(input, k + 1);
  }

  lemma {:induction false} NoTerminatorYet(input: seq<Read>, k: nat)
    requires NotYetWhole(input, k) && AllLines(input, k) && k >= 1 && ReadAt(input, 0).header
    ensures forall i :: 0 <= i < k ==> !TerminatorAt(input, i)
  {
    if exists i :: 0 <= i < k && TerminatorAt(input, i) {
      var i: nat := FirstTerminator(input, k);
      assert WholeAfter(input, i + 1);
    }
  }

  lemma {:induction false} FirstTerminator(input: seq<Read>, k: nat) returns (i: nat)
    requires exists j :: 0 <= j < k && TerminatorAt(input, j)
    ensures i < k && TerminatorAt(input, i) && forall j :: 0 <= j < i ==> !TerminatorAt(input, j)
  {
    i := 0;
    while !TerminatorAt(input, i)
      invariant i < k && forall j :: 0 <= j < i ==> !TerminatorAt(input, j)
      decreases k - i
    {
      i := i + 1;
    }
  }

  /** Relays complete lines verbatim and in order, stops at the end of the response, and reports
      no fault exactly when the caller received a whole response. */
  method Relay(input: seq<Read>, writes: seq<bool>) returns (o: Outcome)
    ensures Ended(input, writes, o)
    ensures o.fault == NoFault ==> Whole(input) && o.responseWritten
    ensures o.clientWriteFailed <==> o.fault == ClientWrite
    decreases |input|
  {
    hide Texts;
    var relayed: seq<string> := [];
    var streaming, terminated, written := false, false, false;
    NothingYet(input);
    var k := 0;
    while true
      invariant 0 <= k <= |input| && AllLines(input, k) && Delivered(writes, k) && relayed == Texts(input, k)
      invariant NotYetWhole(input, k) && !terminated
      invariant written == (k > 0)
      invariant k > 0 ==> streaming && ReadAt(input, 0).header
      invariant k == 0 ==> !streaming
      decreases |input| - k
    {
      var read := ReadAt(input, k);
      match read {
        case Line(text, header, terminator) =>
          written := true;
          if !streaming && header {
            streaming := true;
          }
          if streaming && terminator {
            terminated := true;
          }
          if !WriteAt(writes, k) {
            o := Outcome(relayed, written, true, ClientWrite);
            assert EndedAfter(input, writes, k, o);
            return;
          }
          OneMoreText(input, k);
          relayed := relayed + [text];
          if !streaming || terminated {
            o := Outcome(relayed, written, false, NoFault);
            if streaming && k > 0 {
              NoTerminatorYet(input, k);
            }
            assert WholeAfter(input, k + 1);
            assert EndedAfter(input, writes, k + 1, o);
            return;
          }
          StreamGoesOn(input, k);
          k := k + 1;
        case Truncated =>
          o := Outcome(relayed, written, false, CutShort);
          assert EndedAfter(input, writes, k, o);
          return;
        case Closed =>
          o := Outcome(relayed, written, false, if !written || (streaming && !terminated) then NoResponse else NoFault);
          assert EndedAfter(input, writes, k, o);
          return;
        case Broken =>
          o := Outcome(relayed, written, false, ReadFailed);
          assert EndedAfter(input, writes, k, o);
          return;
      }
    }
  }

  lemma {:induction false} NothingYet(input: seq<Read>)
    ensures Texts(input, 0) == [] && NotYetWhole(input, 0)
  {
  }

  lemma {:induction false} OneMoreText(input: seq<Read>, k: nat)
    requires ReadAt(input, k).Line?
    ensures Texts(input, k + 1) == Texts(input, k) + [ReadAt(input, k).text]
  {
  }

  /** If the caller can always be written to, the relay ends without a fault exactly when the
      weaver's frames hold a whole response. */
  lemma {:induction false} FaultlessIffWhole(input: seq<Read>, writes: seq<bool>, o: Outcome)
    requires Ended(input, writes, o) && forall i: nat :: WriteAt(writes, i)
    ensures o.fault == NoFault <==> Whole(input)
  {
    var k :| EndedAfter(input, writes, k, o) && (o.fault != NoFault ==> NotYetWhole(input, k));
    if Whole(input) && o.fault != NoFault {
      NoLongerWhole(input, k);
    }
  }

  // When the next read is no line, a response not whole yet never becomes so.
  lemma {:induction false} NoLongerWhole(input: seq<Read>, k: nat)
    requires !ReadAt(input, k).Line? && NotYetWhole(input, k)
    ensures !Whole(input)
  {
    forall j: nat | WholeAfter(input, j)
      ensures j <= k
    {
    }
  }
}
