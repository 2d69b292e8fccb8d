/** The wait group that counts HTTP requests in progress: tunnel/client.go listenControl, which waits for it
    before it closes the session, and Close, whose goroutine waits for it too.

    The loop adds before it starts the goroutine of a request; the goroutine runs the proxy, marks itself
    done, and closes its stream. All of these interleave, over any number of connections. */
module ClientRequests {

  import opened Base

  type CallId = nat
  type CloserId = nat

  /** A call of Wait: not made yet, blocked, released by the count reaching zero but not yet running again,
      or returned. */
  datatype Waiter = NotYet | Blocked | Released | Passed

  datatype Loop =
    | Reading
    | Opening(http: bool)
    | Adding(call: CallId)
    | Starting(http: bool, call: CallId)
    | Draining(wait: Waiter)
    | Stopped

  /** What the goroutine of one message does next. */
  datatype Stage = Proxying | MarkingDone | ClosingRemote
  datatype Call = Call(http: bool, stage: Stage)

  datatype State = State(
    loop: Loop,
    count: int,                         // the wait group
    calls: map<CallId, Call>,
    closers: map<CloserId, Waiter>,     // the goroutines started by Close
    nextCall: CallId,
    sessionsClosed: nat)                // how often the loop has closed its session

  const START: State := State(Reading, 0, map[], map[], 0, 0)

  datatype Step =
    | Message(http: bool)
    | Opens
    | OpenFails
    | Add
    | Start
    | Undecodable
    | LoopWaits
    | LoopWakes
    | LoopCloses
    | Reconnects
    | ProxyReturns(call: CallId)
    | MarkDone(call: CallId)
    | RemoteCloses(call: CallId)
    | CloseCalled(closer: CloserId)
    | CloserWaits(closer: CloserId)
    | CloserWakes(closer: CloserId)

  predicate Enabled(s: State, step: Step) {
    match step
    case Message(_) => s.loop == Reading
    case Opens => s.loop.Opening?
    case OpenFails => s.loop.Opening?
    case Add => s.loop.Adding?
    case Start => s.loop.Starting?
    case Undecodable => s.loop == Reading
    case LoopWaits => s.loop == Draining(NotYet)
    case LoopWakes => s.loop == Draining(Released)
    case LoopCloses => s.loop == Draining(Passed)
    case Reconnects => s.loop == Stopped
    case ProxyReturns(call) => call in s.calls && s.calls[call].stage == Proxying
    case MarkDone(call) => call in s.calls && s.calls[call].stage == MarkingDone
    case RemoteCloses(call) => call in s.calls && s.calls[call].stage == ClosingRemote
    case CloseCalled(closer) => closer !in s.closers
    case CloserWaits(closer) => closer in s.closers && s.closers[closer] == NotYet
    case CloserWakes(closer) => closer in s.closers && s.closers[closer] == Released
  }

  /** Wait returns at once if it finds zero. */
  function Waits(count: int): Waiter {
    if count == 0 then Passed else Blocked
  }

  /** What the count reaching zero does to a waiter. */
  function Released1(w: Waiter): Waiter {
    if w == Blocked then Released else w
  }

  function ReleasedLoop(loop: Loop): Loop {
    if loop.Draining? then Draining(Released1(loop.wait)) else loop
  }

  function MarkedDone(s: State, call: CallId): State
    requires call in s.calls
  {
    var s1 := s.(count := s.count - 1, calls := s.calls[call := s.calls[call].(stage := ClosingRemote)]);
    if s1.count != 0 then s1
    else s1.(loop := ReleasedLoop(s.loop), closers := map k | k in s.closers :: Released1(s.closers[k]))
  }

  function Next(s: State, step: Step): State
    requires Enabled(s, step)
  {
    match step
    case Message(http) => s.(loop := Opening(http))
    case Opens =>
      s.(loop := if s.loop.http then Adding(s.nextCall) else Starting(false, s.nextCall), nextCall := s.nextCall + 1)
    case OpenFails => s.(loop := Stopped)
    case Add => s.(loop := Starting(true, s.loop.call), count := s.count + 1)
    case Start => s.(loop := Reading, calls := s.calls[s.loop.call := Call(s.loop.http, Proxying)])
    case Undecodable => s.(loop := Draining(NotYet))
    case LoopWaits => s.(loop := Draining(Waits(s.count)))
    case LoopWakes => s.(loop := Draining(Passed))
    case LoopCloses => s.(loop := Stopped, sessionsClosed := s.sessionsClosed + 1)
    case Reconnects => s.(loop := Reading)
    case ProxyReturns(call) =>
      s.(calls := s.calls[call := s.calls[call].(stage := if s.calls[call].http then MarkingDone else ClosingRemote)])
    case MarkDone(call) => MarkedDone(s, call)
    case RemoteCloses(call) => s.(calls := s.calls - {call})
    case CloseCalled(closer) => s.(closers := s.closers[closer := NotYet])
    case CloserWaits(closer) => s.(closers := s.closers[closer := Waits(s.count)])
    case CloserWakes(closer) => s.(closers := s.closers[closer := Passed])
  }

  ghost function After(s: State, steps: seq<Step>): State
    decreases |steps|
  {
    if steps == [] then s
    else
      var p := After(s, steps[..|steps| - 1]);
      if Enabled(p, steps[|steps| - 1]) then Next(p, steps[|steps| - 1]) else p
  }

  ghost predicate IsRun(s: State, steps: seq<Step>)
    decreases |steps|
  {
    steps == [] ||
    (IsRun(s, steps[..|steps| - 1]) && Enabled(After(s, steps[..|steps| - 1]), steps[|steps| - 1]))
  }

  // ---------------------------------------------------------------------------------------------
  // The count

  /** HTTP calls whose goroutine has started and has not marked them done. */
  ghost function Pending(s: State): set<CallId> {
    set c | c in s.calls && s.calls[c].http && s.calls[c].stage != ClosingRemote
  }

  /** The call that has been added and not started yet, if there is one. */
  function InHand(s: State): nat {
    if s.loop.Starting? && s.loop.http then 1 else 0
  }

  ghost predicate NamesFresh(s: State) {
    && (forall c :: c in s.calls ==> c < s.nextCall)
    && (s.loop.Adding? ==> s.loop.call < s.nextCall && s.loop.call !in s.calls)
    && (s.loop.Starting? ==> s.loop.call < s.nextCall && s.loop.call !in s.calls)
    && (forall c :: c in s.calls && s.calls[c].stage == MarkingDone ==> s.calls[c].http)
  }

  /** Whoever is blocked has something to wait for, and once the loop has been let through the count stays
      at zero, because only the loop adds. */
  ghost predicate WaitersOk(s: State) {
    && (s.loop.Draining? && s.loop.wait == Blocked ==> s.count > 0)
    && (s.loop.Draining? && (s.loop.wait == Released || s.loop.wait == Passed) ==> s.count == 0)
    && (forall k :: k in s.closers && s.closers[k] == Blocked ==> s.count > 0)
  }

  ghost predicate Inv(s: State) {
    && s.count == |Pending(s)| + InHand(s)
    && NamesFresh(s)
    && WaitersOk(s)
  }

  /** The steps that change which calls are pending. */
  lemma PendingAfter(s: State, step: Step)
    requires NamesFresh(s) && Enabled(s, step)
    ensures Pending(Next(s, step))
            == match step
               case Start => if s.loop.http then Pending(s) + {s.loop.call} else Pending(s)
               case MarkDone(call) => Pending(s) - {call}
               case _ => Pending(s)
    ensures step.Start? ==> s.loop.call !in Pending(s)
    ensures step.MarkDone? ==> step.call in Pending(s)
  {
    var p, p' := Pending(s), Pending(Next(s, step));
    match step
    case ProxyReturns(call) => assert p' == p;
    case MarkDone(call) => assert p' == p - {call};
    case RemoteCloses(call) => assert p' == p;
    case Start => assert p' == if s.loop.http then p + {s.loop.call} else p;
    case _ =>
  }

  lemma NamesAfter(s: State, step: Step)
    requires NamesFresh(s) && Enabled(s, step)
    ensures NamesFresh(Next(s, step))
  {
  }

  lemma WaitersAfter(s: State, step: Step)
    requires WaitersOk(s) && Enabled(s, step) && (step.MarkDone? ==> s.count > 0)
    requires s.count >= 0
    ensures WaitersOk(Next(s, step))
  {
  }

  lemma NextKeepsInv(s: State, step: Step)
    requires Inv(s) && Enabled(s, step)
    ensures Inv(Next(s, step))
  {
    PendingAfter(s, step);
    NamesAfter(s, step);
    if step.MarkDone? {
      assert |Pending(s) - {step.call}| == |Pending(s)| - 1;
    }
    WaitersAfter(s, step);
  }

  /** On every run the count is the number of HTTP calls between their Add and their Done, so it never goes
      below zero, whatever interleaves. */
  lemma {:induction false} CountedExactly(s: State, steps: seq<Step>)
    requires Inv(s) && IsRun(s, steps)
    ensures Inv(After(s, steps))
  {
    if steps != [] {
      CountedExactly(s, steps[..|steps| - 1]);
      NextKeepsInv(After(s, steps[..|steps| - 1]), steps[|steps| - 1]);
    }
  }

  function Adds(steps: seq<Step>): nat {
    if steps == [] then 0 else Adds(steps[..|steps| - 1]) + if steps[|steps| - 1].Add? then 1 else 0
  }

  function Dones(steps: seq<Step>): nat {
    if steps == [] then 0 else Dones(steps[..|steps| - 1]) + if steps[|steps| - 1].MarkDone? then 1 else 0
  }

  /** And it is what has been added less what has been marked done. */
  lemma {:induction false} AddsLessDones(steps: seq<Step>)
    requires IsRun(START, steps)
    ensures After(START, steps).count == Adds(steps) - Dones(steps) >= 0
  {
    CountedFromStart(steps);
    if steps != [] {
      AddsLessDones(steps[..|steps| - 1]);
    }
  }

  /** When the loop closes its session no HTTP call of this client is in progress, of this connection or of
      an earlier one. */
  lemma {:induction false} DrainedWhenClosed(steps: seq<Step>)
    requires IsRun(START, steps) && Enabled(After(START, steps), LoopCloses)
    ensures var s := After(START, steps);
            && s.count == 0
            && forall c :: c in s.calls && s.calls[c].http ==> s.calls[c].stage == ClosingRemote
  {
    CountedFromStart(steps);
    NonePending(After(START, steps));
  }

  lemma NothingAtStart() returns (s: State)
    ensures s == START && Inv(s)
  {
    s := START;
    assert Pending(s) == {};
  }

  lemma {:induction false} CountedFromStart(steps: seq<Step>)
    requires IsRun(START, steps)
    ensures Inv(After(START, steps))
  {
    var s := NothingAtStart();
    CountedExactly(s, steps);
  }

  lemma NonePending(s: State)
    requires Inv(s) && s.count == 0
    ensures forall c :: c in s.calls && s.calls[c].http ==> s.calls[c].stage == ClosingRemote
  {
    assert Pending(s) == {};
    forall c | c in s.calls && s.calls[c].http ensures s.calls[c].stage == ClosingRemote {
      assert c !in Pending(s);
    }
  }

  // ---------------------------------------------------------------------------------------------
  // The end of the drain

  function StepsLeft(calls: map<CallId, Call>, c: CallId): nat {
    if c !in calls || !calls[c].http then 0
    else match calls[c].stage
      case Proxying => 2
      case MarkingDone => 1
      case ClosingRemote => 0
  }

  /** The steps that bring the calls added so far to their Done. */
  predicate Finishes(s: State, step: Step) {
    || (step.ProxyReturns? && step.call in s.calls && s.calls[step.call].http)
    || step.MarkDone?
  }

  ghost function Finishing(s: State, steps: seq<Step>): nat {
    if steps == [] then 0
    else
      Finishing(s, steps[..|steps| - 1])
      + if Finishes(After(s, steps[..|steps| - 1]), steps[|steps| - 1]) then 1 else 0
  }

  /** Twice for a call whose proxy runs, once for one that is about to be marked done. */
  ghost function Left(s: State): nat {
    |Pending(s)| + |Running(s)|
  }

  ghost function Running(s: State): set<CallId> {
    set c | c in s.calls && s.calls[c].http && s.calls[c].stage == Proxying
  }

  lemma RunningAfter(s: State, step: Step)
    requires Enabled(s, step) && !step.Start?
    ensures Running(Next(s, step))
            == if step.ProxyReturns? && s.calls[step.call].http then Running(s) - {step.call} else Running(s)
  {
    var r, r' := Running(s), Running(Next(s, step));
    match step
    case ProxyReturns(call) => assert r' == if s.calls[call].http then r - {call} else r;
    case MarkDone(call) => assert r' == r;
    case RemoteCloses(call) => assert r' == r;
    case _ =>
  }

  lemma LeftAfter(s: State, step: Step)
    requires NamesFresh(s) && Enabled(s, step) && s.loop.Draining?
    ensures Left(Next(s, step)) == Left(s) - if Finishes(s, step) then 1 else 0
  {
    PendingAfter(s, step);
    RunningAfter(s, step);
    if step.ProxyReturns? && s.calls[step.call].http {
      assert step.call in Running(s);
    }
  }

  lemma DrainingStays(s: State, step: Step)
    requires Enabled(s, step) && s.loop.Draining?
    ensures !step.Add?
    ensures Next(s, step).loop.Draining? <==> !step.LoopCloses?
  {
  }

  lemma {:induction false} OnlyMoreClosed(s: State, steps: seq<Step>)
    ensures s.sessionsClosed <= After(s, steps).sessionsClosed
  {
    if steps != [] {
      OnlyMoreClosed(s, steps[..|steps| - 1]);
    }
  }

  /** From the moment the loop has read its last message until it closes the session nothing is added,
      whatever else happens; every step of a pending call brings the end nearer, and there are no more of
      those than at the beginning. While the loop is blocked some pending call has its next step, and when
      none is left the loop has been let through. */
  lemma {:induction false} DrainEnds(s: State, steps: seq<Step>)
    requires Inv(s) && s.loop.Draining? && IsRun(s, steps)
    requires After(s, steps).sessionsClosed == s.sessionsClosed
    ensures var s' := After(s, steps);
            && s'.loop.Draining? && Adds(steps) == 0
            && Left(s') == Left(s) - Finishing(s, steps)
            && (s'.loop.wait == Blocked ==> exists c :: CanFinish(s', c))
            && (Finishing(s, steps) == Left(s) ==> s'.loop.wait != Blocked && s'.count == 0)
  {
    CountedExactly(s, steps);
    if steps != [] {
      var init, last := steps[..|steps| - 1], steps[|steps| - 1];
      OnlyMoreClosed(s, init);
      DrainEnds(s, init);
      CountedExactly(s, init);
      DrainingStays(After(s, init), last);
      LeftAfter(After(s, init), last);
    }
    SomeCallCanFinish(After(s, steps));
  }

  /** The loop's own last steps. */
  predicate LoopStep(step: Step) {
    step.LoopWaits? || step.LoopWakes? || step.LoopCloses?
  }

  /** Once nothing is counted the loop closes its session in at most two steps of its own, and then stops. */
  lemma {:induction false} DrainedLoopCloses(s: State) returns (steps: seq<Step>)
    requires Inv(s) && s.loop.Draining? && s.count == 0
    ensures IsRun(s, steps) && |steps| <= 2 && forall step :: step in steps ==> LoopStep(step)
    ensures After(s, steps) == s.(loop := Stopped, sessionsClosed := s.sessionsClosed + 1)
  {
    steps := [];
    if s.loop.wait != Passed {
      var first := if s.loop.wait == NotYet then LoopWaits else LoopWakes;
      OneMore(s, steps, first);
      steps := steps + [first];
    }
    OneMore(s, steps, LoopCloses);
    steps := steps + [LoopCloses];
  }

  lemma {:induction false} OneMore(s: State, steps: seq<Step>, step: Step)
    requires IsRun(s, steps) && Enabled(After(s, steps), step)
    ensures IsRun(s, steps + [step]) && After(s, steps + [step]) == Next(After(s, steps), step)
  {
    assert (steps + [step])[..|steps|] == steps;
  }

  ghost predicate CanFinish(s: State, c: CallId) {
    || (Enabled(s, ProxyReturns(c)) && Finishes(s, ProxyReturns(c)))
    || Enabled(s, MarkDone(c))
  }

  lemma SomeCallCanFinish(s: State)
    requires Inv(s) && s.loop.Draining?
    ensures s.count > 0 ==> exists c :: CanFinish(s, c)
  {
    if s.count > 0 {
      var c :| c in Pending(s);
      assert CanFinish(s, c);
    }
  }

  function Undecodables(steps: seq<Step>): nat {
    if steps == [] then 0 else Undecodables(steps[..|steps| - 1]) + if steps[|steps| - 1].Undecodable? then 1 else 0
  }

  function OpenFailures(steps: seq<Step>): nat {
    if steps == [] then 0 else OpenFailures(steps[..|steps| - 1]) + if steps[|steps| - 1].OpenFails? then 1 else 0
  }

  function Reconnections(steps: seq<Step>): nat {
    if steps == [] then 0 else Reconnections(steps[..|steps| - 1]) + if steps[|steps| - 1].Reconnects? then 1 else 0
  }

  /** Each connection ends in one of two ways: with a message that cannot be decoded, and then the loop waits
      and closes its session, or with a stream that cannot be opened, and then it does neither. */
  lemma {:induction false} ConnectionsAccountedFor(steps: seq<Step>)
    requires IsRun(START, steps)
    ensures var s := After(START, steps);
            && Undecodables(steps) == s.sessionsClosed + (if s.loop.Draining? then 1 else 0)
            && Reconnections(steps) + 1
               == Undecodables(steps) + OpenFailures(steps) + (if s.loop.Draining? || s.loop == Stopped then 0 else 1)
  {
    if steps != [] {
      ConnectionsAccountedFor(steps[..|steps| - 1]);
    }
  }

  // ---------------------------------------------------------------------------------------------
  // Close waits too

  /** A call of Wait that has begun and not returned. */
  predicate InWait(s: State, k: CloserId) {
    k in s.closers && (s.closers[k] == Blocked || s.closers[k] == Released)
  }

  /** The goroutine of this Close began to wait while something was counted, and has not run since it was
      let through, if it has been. */
  ghost predicate BeganAndNotBack(steps: seq<Step>, k: CloserId) {
    && CloserWakes(k) !in steps
    && exists i :: 0 <= i < |steps| && steps[i] == CloserWaits(k) && CountAt(steps, i) > 0
  }

  ghost function CountAt(steps: seq<Step>, i: nat): int
    requires i <= |steps|
  {
    After(START, steps[..i]).count
  }

  lemma {:induction false} OnceBackPassed(steps: seq<Step>, k: CloserId)
    requires IsRun(START, steps) && CloserWakes(k) in steps
    ensures k in After(START, steps).closers && After(START, steps).closers[k] == Passed
  {
    var init, last := steps[..|steps| - 1], steps[|steps| - 1];
    WaitGrows(After(START, init), last, k);
    if last != CloserWakes(k) {
      assert steps == init + [last];
      OnceBackPassed(init, k);
    }
  }

  lemma {:induction false} InWaitIff(steps: seq<Step>, k: CloserId)
    requires IsRun(START, steps)
    ensures InWait(After(START, steps), k) <==> BeganAndNotBack(steps, k)
  {
    if steps != [] {
      var init, last := steps[..|steps| - 1], steps[|steps| - 1];
      InWaitIff(init, k);
      CountedFromStart(init);
      assert steps == init + [last];
      BeganGrows(init, last, k);
      WaitGrows(After(START, init), last, k);
      if CloserWakes(k) in init {
        OnceBackPassed(init, k);
      }
    }
  }

  lemma {:induction false} BeganGrows(init: seq<Step>, last: Step, k: CloserId)
    ensures BeganAndNotBack(init + [last], k)
            <==> last != CloserWakes(k)
                 && CloserWakes(k) !in init
                 && (BeganAndNotBack(init, k) || (last == CloserWaits(k) && After(START, init).count > 0))
  {
    var steps := init + [last];
    assert forall i :: 0 <= i <= |init| ==> steps[..i] == init[..i];
    assert init[..|init|] == init;
    assert forall step :: step in steps <==> step in init || step == last;
    if BeganAndNotBack(init, k) {
      var i :| 0 <= i < |init| && init[i] == CloserWaits(k) && CountAt(init, i) > 0;
      assert steps[i] == CloserWaits(k) && CountAt(steps, i) > 0;
    }
    if last == CloserWaits(k) && After(START, init).count > 0 {
      assert steps[|init|] == CloserWaits(k) && CountAt(steps, |init|) > 0;
    }
    if i :| 0 <= i < |steps| && steps[i] == CloserWaits(k) && CountAt(steps, i) > 0 {
      if i < |init| {
        assert init[i] == CloserWaits(k) && CountAt(init, i) > 0;
      }
    }
  }

  lemma WaitGrows(s: State, step: Step, k: CloserId)
    requires Enabled(s, step)
    ensures var s' := Next(s, step);
            && (InWait(s', k) <==> step != CloserWakes(k) && (InWait(s, k) || (step == CloserWaits(k) && s.count != 0)))
            && (k in s.closers && s.closers[k] == Passed ==> k in s'.closers && s'.closers[k] == Passed)
            && (step == CloserWakes(k) ==> k in s'.closers && s'.closers[k] == Passed && InWait(s, k))
            && (step == CloserWaits(k) ==> !InWait(s, k) && s.closers[k] == NotYet)
  {
  }

  /** When an Add from zero can meet a Wait. It never meets the loop's own, nor one that is blocked; it meets
      that of a Close exactly if its goroutine began to wait while a call was counted and has not run again
      since the count reached zero. */
  lemma {:induction false} AddFromZeroMeetsWaitIff(steps: seq<Step>, k: CloserId)
    requires IsRun(START, steps) && Enabled(After(START, steps), Add) && After(START, steps).count == 0
    ensures var s := After(START, steps);
            && !s.loop.Draining?
            && (InWait(s, k) <==> BeganAndNotBack(steps, k))
            && (InWait(s, k) ==> s.closers[k] == Released)
  {
    InWaitIff(steps, k);
    CountedFromStart(steps);
  }

  /** It does happen: Close is called while a request is in progress, the request ends, and before the
      goroutine of that Close runs again the loop reads the next request. */
  lemma AddMeetsTheWaitOfClose(k: CloserId) returns (steps: seq<Step>)
    ensures IsRun(START, steps) && Enabled(After(START, steps), Add)
    ensures After(START, steps).count == 0 && InWait(After(START, steps), k)
  {
    steps := OneCallRuns();
    OneMore(START, steps, CloseCalled(k));
    steps := steps + [CloseCalled(k)];
    OneMore(START, steps, CloserWaits(k));
    steps := steps + [CloserWaits(k)];
    OneMore(START, steps, ProxyReturns(0));
    steps := steps + [ProxyReturns(0)];
    OneMore(START, steps, MarkDone(0));
    steps := steps + [MarkDone(0)];
    OneMore(START, steps, Message(true));
    steps := steps + [Message(true)];
    OneMore(START, steps, Opens);
    steps := steps + [Opens];
  }

  lemma OneCallRuns() returns (steps: seq<Step>)
    ensures IsRun(START, steps)
    ensures After(START, steps) == State(Reading, 1, map[0 := Call(true, Proxying)], map[], 1, 0)
  {
    steps := [];
    OneMore(START, steps, Message(true));
    steps := steps + [Message(true)];
    OneMore(START, steps, Opens);
    steps := steps + [Opens];
    OneMore(START, steps, Add);
    steps := steps + [Add];
    OneMore(START, steps, Start);
    steps := steps + [Start];
  }

  // ---------------------------------------------------------------------------------------------
  // The two places in the code that touch the count

  class Client {
    var reqWg: int
    ghost var state: State

    ghost predicate Valid()
      reads this
    {
      Inv(state) && reqWg == state.count
    }

    constructor ()
      ensures Valid() && state == START
    {
      ghost var s := NothingAtStart();
      reqWg, state := 0, s;
    }

    /** A control message, and whether session.Open gives a stream for it. */
    method OnMessage(http: bool, opens: bool)
      requires Valid() && state.loop == Reading
      modifies this
      ensures Valid()
      ensures var c := old(state.nextCall);
              state == if !opens then old(state).(loop := Stopped)
                       else
                         old(state).(calls := old(state.calls)[c := Call(http, Proxying)], nextCall := c + 1,
                                     count := old(reqWg) + if http then 1 else 0)
    {
      Take(Message(http));
      if !opens {
        Take(OpenFails);
        return;
      }
      Take(Opens);
      if http {
        reqWg := reqWg + 1;
        Take(Add);
      }
      Take(Start);
    }

    /** The rest of the goroutine once the proxy function has returned, when nothing comes in between. */
    method OnProxyReturn(isHTTP: bool, ghost call: CallId)
      requires Valid() && Enabled(state, ProxyReturns(call)) && isHTTP == state.calls[call].http
      modifies this
      ensures Valid() && state.calls == old(state.calls) - {call}
      ensures reqWg == old(reqWg) - if isHTTP then 1 else 0
      ensures reqWg >= 0
    {
      ghost var others := state.calls - {call};
      Take(ProxyReturns(call));
      assert state.calls - {call} == others;
      if isHTTP {
        reqWg := reqWg - 1;
        Take(MarkDone(call));
        assert state.calls - {call} == others;
      }
      Take(RemoteCloses(call));
    }

    ghost method Take(step: Step)
      requires Inv(state) && Enabled(state, step)
      modifies this`state
      ensures Inv(state) && state == Next(old(state), step)
    {
      NextKeepsInv(state, step);
      state := Next(state, step);
    }
  }
}
