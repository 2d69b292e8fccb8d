/** tunnel/wsproxy.go, joinStreams: two copying goroutines over a pair of connections.

    Each goroutine is io.Copy's loop (read a chunk, write it, stop at end of stream or on an error)
    followed by the two Close calls. Steps of the two goroutines and of the peers interleave freely. */
module Join {

  type Byte = bv8

  datatype Side = A | B

  function Other(side: Side): Side {
    if side == A then B else A
  }

  /** Why a copy ended: the peer's stream ended, the connection it read from had been closed on this side,
      or the connection failed. */
  datatype Cause = EndOfStream | ClosedHere | ReadFailed | WriteFailed

  datatype Phase =
    | Reading
    | Writing(chunk: seq<Byte>)
    | ClosingDst(cause: Cause)
    | ClosingSrc(cause: Cause)
    | Done(cause: Cause)

  /** The goroutine that reads one side. `sent` is everything that side's peer has sent so far, `eof` says
      it will send no more, `taken` counts the bytes read, `delivered` is what the other side received. */
  datatype Flow = Flow(sent: seq<Byte>, eof: bool, taken: nat, delivered: seq<Byte>, phase: Phase)

  datatype State = State(fromA: Flow, fromB: Flow, closedA: bool, closedB: bool)

  function From(s: State, side: Side): Flow {
    if side == A then s.fromA else s.fromB
  }

  function Set(s: State, side: Side, f: Flow): State {
    if side == A then s.(fromA := f) else s.(fromB := f)
  }

  function IsClosed(s: State, side: Side): bool {
    if side == A then s.closedA else s.closedB
  }

  function Close(s: State, side: Side): State {
    if side == A then s.(closedA := true) else s.(closedB := true)
  }

  const START: State := State(Flow([], false, 0, [], Reading), Flow([], false, 0, [], Reading), false, false)

  datatype Step =
    | PeerSends(src: Side, bytes: seq<Byte>)
    | PeerEnds(src: Side)
    | Read(src: Side, n: nat)
    | ReadsEnd(src: Side)
    | ReadsClosed(src: Side)
    | ReadFails(src: Side)
    | Write(src: Side)
    | WritesClosed(src: Side)
    | WriteFails(src: Side, n: nat)
    | CloseDst(src: Side)
    | CloseSrc(src: Side)

  /** A connection closed on this side may still yield bytes that have arrived (a multiplexed stream closes
      one direction at a time), or say that it is closed; it takes no more. A read on an open connection
      with nothing to read is not a step: it blocks. ReadFails and WriteFails are failures of the
      connection itself; a failing write may have got part of the chunk out. */
  predicate Enabled(s: State, step: Step) {
    var f := From(s, step.src);
    match step
    case PeerSends(_, _) => !f.eof
    case PeerEnds(_) => true
    case Read(_, n) => f.phase.Reading? && 1 <= n && f.taken + n <= |f.sent|
    case ReadsEnd(_) => f.phase.Reading? && f.eof && f.taken == |f.sent|
    case ReadsClosed(src) => f.phase.Reading? && IsClosed(s, src)
    case ReadFails(_) => f.phase.Reading?
    case Write(src) => f.phase.Writing? && !IsClosed(s, Other(src))
    case WritesClosed(src) => f.phase.Writing? && IsClosed(s, Other(src))
    case WriteFails(src, n) => f.phase.Writing? && n <= |f.phase.chunk| && (n > 0 ==> !IsClosed(s, Other(src)))
    case CloseDst(_) => f.phase.ClosingDst?
    case CloseSrc(_) => f.phase.ClosingSrc?
  }

  function Next(s: State, step: Step): State
    requires Enabled(s, step)
  {
    var f := From(s, step.src);
    match step
    case PeerSends(src, bytes) => Set(s, src, f.(sent := f.sent + bytes))
    case PeerEnds(src) => Set(s, src, f.(eof := true))
    case Read(src, n) => Set(s, src, f.(taken := f.taken + n, phase := Writing(f.sent[f.taken..f.taken + n])))
    case ReadsEnd(src) => Set(s, src, f.(phase := ClosingDst(EndOfStream)))
    case ReadsClosed(src) => Set(s, src, f.(phase := ClosingDst(ClosedHere)))
    case ReadFails(src) => Set(s, src, f.(phase := ClosingDst(ReadFailed)))
    case Write(src) => Set(s, src, f.(delivered := f.delivered + f.phase.chunk, phase := Reading))
    case WritesClosed(src) => Set(s, src, f.(phase := ClosingDst(WriteFailed)))
    case WriteFails(src, n) =>
      Set(s, src, f.(delivered := f.delivered + f.phase.chunk[..n], phase := ClosingDst(WriteFailed)))
    case CloseDst(src) => Close(Set(s, src, f.(phase := ClosingSrc(f.phase.cause))), Other(src))
    case CloseSrc(src) => Close(Set(s, src, f.(phase := Done(f.phase.cause))), src)
  }

  ghost predicate IsRun(s: State, steps: seq<Step>)
    decreases |steps|
  {
    steps == [] || (Enabled(s, steps[0]) && IsRun(Next(s, steps[0]), steps[1..]))
  }

  ghost function After(s: State, steps: seq<Step>): State
    requires IsRun(s, steps)
    decreases |steps|
  {
    if steps == [] then s else After(Next(s, steps[0]), steps[1..])
  }

  // ---------------------------------------------------------------------------------------------
  // Safety

  ghost predicate FlowOk(f: Flow) {
    && f.taken <= |f.sent|
    && f.delivered <= f.sent
    && match f.phase
       case Reading => f.delivered == f.sent[..f.taken]
       case Writing(chunk) => f.delivered + chunk == f.sent[..f.taken]
       case ClosingDst(cause) => Ended(f, cause)
       case ClosingSrc(cause) => Ended(f, cause)
       case Done(cause) => Ended(f, cause)
  }

  ghost predicate Ended(f: Flow, cause: Cause)
    requires f.taken <= |f.sent|
  {
    match cause
    case EndOfStream => f.eof && f.delivered == f.sent
    case ClosedHere => f.delivered == f.sent[..f.taken]
    case ReadFailed => f.delivered == f.sent[..f.taken]
    case WriteFailed => true
  }

  ghost predicate ClosedOk(s: State, src: Side) {
    && (From(s, src).phase.ClosingSrc? ==> IsClosed(s, Other(src)))
    && (From(s, src).phase.Done? ==> IsClosed(s, A) && IsClosed(s, B))
    && (EndedBy(From(s, src).phase, ClosedHere) ==> IsClosed(s, src))
  }

  predicate EndedBy(phase: Phase, cause: Cause) {
    phase == ClosingDst(cause) || phase == ClosingSrc(cause) || phase == Done(cause)
  }

  ghost predicate Inv(s: State) {
    FlowOk(s.fromA) && FlowOk(s.fromB) && ClosedOk(s, A) && ClosedOk(s, B)
  }

  lemma FlowKept(s: State, step: Step)
    requires FlowOk(From(s, step.src)) && Enabled(s, step)
    ensures FlowOk(From(Next(s, step), step.src))
  {
    var f, f' := From(s, step.src), From(Next(s, step), step.src);
    match step
    case PeerSends(_, bytes) =>
      assert f'.sent[..f.taken] == f.sent[..f.taken];
    case Read(_, n) =>
      assert f.sent[..f.taken] + f.sent[f.taken..f.taken + n] == f.sent[..f.taken + n];
    case WriteFails(_, n) =>
      assert f.delivered + f.phase.chunk[..n] <= f.delivered + f.phase.chunk;
    case ReadsEnd(_) =>
      assert f.sent[..f.taken] == f.sent;
    case _ =>
  }

  lemma NextKeepsInv(s: State, step: Step)
    requires Inv(s) && Enabled(s, step)
    ensures Inv(Next(s, step))
  {
    FlowKept(s, step);
  }

  lemma {:induction false} RunsKeepInv(s: State, steps: seq<Step>)
    requires Inv(s) && IsRun(s, steps)
    ensures Inv(After(s, steps))
    ensures (s.closedA ==> After(s, steps).closedA) && (s.closedB ==> After(s, steps).closedB)
    decreases |steps|
  {
    if steps != [] {
      NextKeepsInv(s, steps[0]);
      RunsKeepInv(Next(s, steps[0]), steps[1..]);
    }
  }

  /** At every moment each side has received a prefix of what the other has sent, and exactly the bytes
      read when no write has failed; a direction that stopped at the end of the stream has delivered all
      of it, and one that stopped because its connection was closed had it closed on this side; when a
      direction is done both connections are closed. */
  lemma {:induction false} JoinDelivers(steps: seq<Step>, src: Side)
    requires IsRun(START, steps)
    ensures var s := After(START, steps);
            var f := From(s, src);
            && f.delivered <= f.sent
            && (f.phase.Reading? ==> f.taken <= |f.sent| && f.delivered == f.sent[..f.taken])
            && (f.phase == Done(EndOfStream) ==> f.eof && f.delivered == f.sent)
            && (EndedBy(f.phase, ClosedHere) ==> IsClosed(s, src))
            && (f.phase.Done? ==> s.closedA && s.closedB)
  {
    RunsKeepInv(START, steps);
  }

  // ---------------------------------------------------------------------------------------------
  // What the steps of a run say

  /** How many bytes of this direction the writes of a run have put out, failing ones included. */
  ghost function BytesOut(s: State, steps: seq<Step>, src: Side): nat
    requires IsRun(s, steps)
    decreases |steps|
  {
    if steps == [] then 0
    else
      (match steps[0]
       case Write(side) => if side == src then |From(s, side).phase.chunk| else 0
       case WriteFails(side, n) => if side == src then n else 0
       case _ => 0)
      + BytesOut(Next(s, steps[0]), steps[1..], src)
  }

  /** The other side has received as many bytes as were written; JoinDelivers says which. */
  lemma {:induction false} AllOutReceived(s: State, steps: seq<Step>, src: Side)
    requires IsRun(s, steps)
    ensures |From(After(s, steps), src).delivered| == |From(s, src).delivered| + BytesOut(s, steps, src)
    decreases |steps|
  {
    if steps != [] {
      AllOutReceived(Next(s, steps[0]), steps[1..], src);
    }
  }

  /** The step with which a copy ends for this cause. */
  predicate Ends(step: Step, src: Side, cause: Cause) {
    match cause
    case EndOfStream => step == ReadsEnd(src)
    case ClosedHere => step == ReadsClosed(src)
    case ReadFailed => step == ReadFails(src)
    case WriteFailed => step == WritesClosed(src) || (step.WriteFails? && step.src == src)
  }

  lemma NextCause(s: State, step: Step, src: Side, cause: Cause)
    requires Enabled(s, step)
    ensures EndedBy(From(Next(s, step), src).phase, cause)
            <==> EndedBy(From(s, src).phase, cause) || Ends(step, src, cause)
  {
  }

  /** A copy ends for the cause of the step that ended it. */
  lemma {:induction false} CauseIff(s: State, steps: seq<Step>, src: Side, cause: Cause)
    requires IsRun(s, steps)
    ensures EndedBy(From(After(s, steps), src).phase, cause)
            <==> EndedBy(From(s, src).phase, cause) || exists step :: step in steps && Ends(step, src, cause)
    decreases |steps|
  {
    if steps != [] {
      NextCause(s, steps[0], src, cause);
      CauseIff(Next(s, steps[0]), steps[1..], src, cause);
      assert steps[0] in steps && forall step :: step in steps[1..] ==> step in steps;
    }
  }

  // ---------------------------------------------------------------------------------------------
  // Termination

  /** A step of the goroutine that reads this side, not of its peer. */
  predicate OwnStep(step: Step, src: Side) {
    step.src == src && !step.PeerSends? && !step.PeerEnds?
  }

  function StepsLeft(phase: Phase): nat {
    match phase
    case Reading => 4
    case Writing(_) => 3
    case ClosingDst(_) => 2
    case ClosingSrc(_) => 1
    case Done(_) => 0
  }

  function OwnSteps(steps: seq<Step>, src: Side): nat
    decreases |steps|
  {
    if steps == [] then 0 else (if OwnStep(steps[0], src) then 1 else 0) + OwnSteps(steps[1..], src)
  }

  /** With the destination closed, every step of a goroutine brings it nearer its end. */
  lemma NextGetsNearer(s: State, step: Step, src: Side)
    requires Enabled(s, step) && IsClosed(s, Other(src))
    ensures IsClosed(Next(s, step), Other(src))
    ensures StepsLeft(From(Next(s, step), src).phase) + (if OwnStep(step, src) then 1 else 0)
            <= StepsLeft(From(s, src).phase)
  {
  }

  lemma {:induction false} FewStepsLeft(s: State, steps: seq<Step>, src: Side)
    requires IsRun(s, steps) && IsClosed(s, Other(src))
    ensures OwnSteps(steps, src) + StepsLeft(From(After(s, steps), src).phase) <= StepsLeft(From(s, src).phase)
    decreases |steps|
  {
    if steps != [] {
      NextGetsNearer(s, steps[0], src);
      FewStepsLeft(Next(s, steps[0]), steps[1..], src);
    }
  }

  /** The steps of a goroutine that neither its peers nor the network can keep from it: reading what has
      arrived, the end of the stream, or that the connection is closed; failing to write into a closed
      connection; and closing. A write into an open connection may be held up for ever by a peer that
      does not read. */
  predicate Certain(s: State, step: Step, src: Side) {
    && Enabled(s, step) && OwnStep(step, src)
    && (step.Read? || step.ReadsEnd? || step.ReadsClosed? || step.WritesClosed? || step.CloseDst? || step.CloseSrc?)
  }

  ghost predicate CanGo(s: State, src: Side) {
    exists step :: Certain(s, step, src)
  }

  /** Blocked in Read on an open connection with nothing to read, or in Write on an open connection. */
  predicate Blocked(s: State, src: Side) {
    var f := From(s, src);
    || (f.phase.Reading? && !IsClosed(s, src) && !f.eof && f.taken >= |f.sent|)
    || (f.phase.Writing? && !IsClosed(s, Other(src)))
  }

  /** A goroutine has such a step exactly unless it is done or blocked. */
  lemma CanGoIff(s: State, src: Side)
    requires FlowOk(From(s, src))
    ensures CanGo(s, src) <==> !From(s, src).phase.Done? && !Blocked(s, src)
  {
    var f := From(s, src);
    match f.phase
    case Reading =>
      if IsClosed(s, src) {
        assert Certain(s, ReadsClosed(src), src);
      } else if f.taken < |f.sent| {
        assert Certain(s, Read(src, 1), src);
      } else if f.eof {
        assert Certain(s, ReadsEnd(src), src);
      }
    case Writing(_) =>
      if IsClosed(s, Other(src)) {
        assert Certain(s, WritesClosed(src), src);
      }
    case ClosingDst(_) => assert Certain(s, CloseDst(src), src);
    case ClosingSrc(_) => assert Certain(s, CloseSrc(src), src);
    case Done(_) =>
  }

  /** Once one direction is done the other takes at most four more steps, and until it is done it has one
      that nothing can keep from it: so joinStreams returns. */
  lemma {:induction false} JoinEnds(before: seq<Step>, steps: seq<Step>, src: Side)
    requires IsRun(START, before) && IsRun(After(START, before), steps)
    requires From(After(START, before), Other(src)).phase.Done?
    ensures OwnSteps(steps, src) <= 4
    ensures OwnSteps(steps, src) == 4 ==> From(After(After(START, before), steps), src).phase.Done?
    ensures var s := After(After(START, before), steps);
            CanGo(s, src) <==> !From(s, src).phase.Done?
  {
    RunsKeepInv(START, before);
    var s := After(START, before);
    FewStepsLeft(s, steps, src);
    RunsKeepInv(s, steps);
    CanGoIff(After(s, steps), src);
  }

  // ---------------------------------------------------------------------------------------------
  // Why both connections have to be closed

  /** Everything but the Close calls, the peer of this side, and failures of the connections. */
  predicate Quiet(step: Step, src: Side) {
    && !step.CloseDst? && !step.CloseSrc?
    && !step.ReadFails? && !step.WriteFails?
    && !(step.src == src && (step.PeerSends? || step.PeerEnds?))
  }

  /** The peer of A has sent everything and all of it is copied; the peer of B is silent. The goroutine that
      reads A is about to close, the one that reads B waits for bytes. */
  function HalfDone(bytes: seq<Byte>): State {
    State(Flow(bytes, true, |bytes|, bytes, ClosingDst(EndOfStream)), Flow([], false, 0, [], Reading), false, false)
  }

  lemma HalfDoneReached(bytes: seq<Byte>) returns (steps: seq<Step>)
    ensures IsRun(START, steps) && After(START, steps) == HalfDone(bytes)
  {
    if bytes == [] {
      steps := NothingSent();
    } else {
      steps := AllCopied(bytes);
    }
  }

  lemma NothingSent() returns (steps: seq<Step>)
    ensures IsRun(START, steps) && After(START, steps) == HalfDone([])
  {
    steps := [PeerEnds(A), ReadsEnd(A)];
    var s1 := Next(START, steps[0]);
    assert Next(s1, steps[1]) == HalfDone([]);
    LastOf(s1, ReadsEnd(A));
    FirstThen(START, PeerEnds(A), [ReadsEnd(A)]);
    assert steps == [PeerEnds(A)] + [ReadsEnd(A)];
  }

  lemma AllCopied(bytes: seq<Byte>) returns (steps: seq<Step>)
    requires bytes != []
    ensures IsRun(START, steps) && After(START, steps) == HalfDone(bytes)
  {
    steps := [PeerSends(A, bytes), PeerEnds(A), Read(A, |bytes|), Write(A), ReadsEnd(A)];
    var s1 := Next(START, steps[0]);
    assert [] + bytes == bytes;
    var s2 := Next(s1, steps[1]);
    var s3 := Next(s2, steps[2]);
    assert bytes[0..|bytes|] == bytes;
    var s4 := Next(s3, steps[3]);
    assert Next(s4, steps[4]) == HalfDone(bytes);
    LastOf(s4, ReadsEnd(A));
    FirstThen(s3, Write(A), [ReadsEnd(A)]);
    FirstThen(s2, Read(A, |bytes|), [Write(A), ReadsEnd(A)]);
    FirstThen(s1, PeerEnds(A), [Read(A, |bytes|), Write(A), ReadsEnd(A)]);
    FirstThen(START, PeerSends(A, bytes), [PeerEnds(A), Read(A, |bytes|), Write(A), ReadsEnd(A)]);
    assert steps == [PeerSends(A, bytes)] + [PeerEnds(A), Read(A, |bytes|), Write(A), ReadsEnd(A)];
  }

  lemma {:induction false} LastOf(s: State, step: Step)
    requires Enabled(s, step)
    ensures IsRun(s, [step]) && After(s, [step]) == Next(s, step)
  {
    assert [step][1..] == [];
  }

  lemma {:induction false} FirstThen(s: State, step: Step, rest: seq<Step>)
    requires Enabled(s, step) && IsRun(Next(s, step), rest)
    ensures IsRun(s, [step] + rest) && After(s, [step] + rest) == After(Next(s, step), rest)
  {
    assert ([step] + rest)[0] == step && ([step] + rest)[1..] == rest;
  }

  /** Without the Close calls the other direction would hang: from that state, which is reached, it makes no
      step whatever else happens and has none to make. The Close of the connection it reads gives it one. */
  lemma {:induction false} DstCloseIsNeeded(bytes: seq<Byte>, steps: seq<Step>) returns (before: seq<Step>)
    requires IsRun(HalfDone(bytes), steps) && forall step :: step in steps ==> Quiet(step, B)
    ensures IsRun(START, before) && After(START, before) == HalfDone(bytes)
    ensures var s := After(HalfDone(bytes), steps);
            && OwnSteps(steps, B) == 0 && !CanGo(s, B)
            && Enabled(s, CloseDst(A)) && CanGo(Next(s, CloseDst(A)), B)
  {
    before := HalfDoneReached(bytes);
    NothingHappens(HalfDone(bytes), steps);
    HangingGoesOnClose(After(HalfDone(bytes), steps));
  }

  lemma HangingGoesOnClose(s: State)
    requires Hanging(s)
    ensures !CanGo(s, B) && Enabled(s, CloseDst(A)) && CanGo(Next(s, CloseDst(A)), B)
  {
    assert FlowOk(s.fromB);
    CanGoIff(s, B);
    var s' := Next(s, CloseDst(A));
    assert s'.fromB == s.fromB && IsClosed(s', B);
    CanGoIff(s', B);
  }

  predicate Hanging(s: State) {
    && s.fromB == Flow([], false, 0, [], Reading) && !s.closedA && !s.closedB
    && s.fromA.phase == ClosingDst(EndOfStream)
  }

  lemma {:induction false} NothingHappens(s: State, steps: seq<Step>)
    requires Hanging(s) && IsRun(s, steps) && forall step :: step in steps ==> Quiet(step, B)
    ensures Hanging(After(s, steps)) && OwnSteps(steps, B) == 0
    decreases |steps|
  {
    if steps != [] {
      assert steps[0] in steps && forall step :: step in steps[1..] ==> step in steps;
      NothingHappens(Next(s, steps[0]), steps[1..]);
    }
  }

  /** The peer of A is done and has stopped reading, and its goroutine has closed the other connection but
      not yet its own; the goroutine that reads B is in the middle of a write to A. */
  function HalfClosed(bytes: seq<Byte>): State {
    State(Flow([], true, 0, [], ClosingSrc(EndOfStream)), Flow(bytes, false, |bytes|, [], Writing(bytes)), false, true)
  }

  /** The second Close is needed as well: one that has closed only its destination leaves the other
      direction blocked in a write, and closing the source lets it go on. */
  lemma SrcCloseIsNeeded(bytes: seq<Byte>) returns (steps: seq<Step>)
    requires bytes != []
    ensures IsRun(START, steps) && After(START, steps) == HalfClosed(bytes)
    ensures var s := HalfClosed(bytes);
            !CanGo(s, B) && Enabled(s, CloseSrc(A)) && CanGo(Next(s, CloseSrc(A)), B)
  {
    steps := HalfClosedReached(bytes);
    var s := HalfClosed(bytes);
    assert bytes[..|bytes|] == bytes && [] + bytes == bytes;
    assert FlowOk(s.fromB);
    CanGoIff(s, B);
    assert Next(s, CloseSrc(A)).fromB == s.fromB && Next(s, CloseSrc(A)).closedA;
    CanGoIff(Next(s, CloseSrc(A)), B);
  }

  lemma HalfClosedReached(bytes: seq<Byte>) returns (steps: seq<Step>)
    requires bytes != []
    ensures IsRun(START, steps) && After(START, steps) == HalfClosed(bytes)
  {
    steps := [PeerEnds(A), ReadsEnd(A), PeerSends(B, bytes), Read(B, |bytes|), CloseDst(A)];
    var s1 := Next(START, steps[0]);
    var s2 := Next(s1, steps[1]);
    assert [] + bytes == bytes;
    var s3 := Next(s2, steps[2]);
    assert bytes[0..|bytes|] == bytes;
    var s4 := Next(s3, steps[3]);
    assert Next(s4, steps[4]) == HalfClosed(bytes);
    LastOf(s4, CloseDst(A));
    FirstThen(s3, Read(B, |bytes|), [CloseDst(A)]);
    FirstThen(s2, PeerSends(B, bytes), [Read(B, |bytes|), CloseDst(A)]);
    FirstThen(s1, ReadsEnd(A), [PeerSends(B, bytes), Read(B, |bytes|), CloseDst(A)]);
    FirstThen(START, PeerEnds(A), [ReadsEnd(A), PeerSends(B, bytes), Read(B, |bytes|), CloseDst(A)]);
    assert steps == [PeerEnds(A)] + [ReadsEnd(A), PeerSends(B, bytes), Read(B, |bytes|), CloseDst(A)];
  }
}
