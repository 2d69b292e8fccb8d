/** How a dial and a stream find each other: tunnel/server.go dial and handleHTTP, tunnel/client.go
    listenControl, tunnel/httpproxy.go Proxy, tunnel/util.go async.

    A dial sends one control message and starts an acceptor; the client opens one stream per message.
    Neither messages nor streams name the dial they belong to, and an acceptor outlives a dial that has
    timed out. The model follows one session and any number of HTTP dials on it, in every interleaving. */
module DialMatching {

  import opened Base

  type DialId = nat
  type StreamId = nat

  /** What comes back on a stream: the local server's answer to a request, or "no local server". */
  datatype Answer = Local(request: DialId, content: nat) | Unavailable

  /** The client's goroutine for one stream. */
  datatype Handler = Reading | Calling(request: DialId) | Finished

  datatype Stream = Stream(requests: seq<DialId>, handler: Handler, replies: seq<Answer>)

  datatype State = State(
    sent: set<DialId>,               // message sent, acceptor not started
    waiting: set<DialId>,            // acceptors blocked in Accept, also those of timed-out dials
    got: map<DialId, StreamId>,      // what each acceptor was given
    timedOut: set<DialId>,
    taken: set<DialId>,              // dials that returned their stream
    written: set<DialId>,            // requests written to their stream
    failed: set<DialId>,             // dials whose message could not be sent
    answers: map<DialId, Answer>,    // what handleHTTP read
    inTransit: nat,                  // control messages the client has not decoded
    lost: nat,                       // decoded messages for which no stream could be opened
    backlog: seq<StreamId>,          // opened streams nobody has accepted, oldest first
    streams: seq<Stream>,            // every stream ever opened
    calls: set<(DialId, nat)>,       // what the local server answered
    sessionUp: bool,
    clientListens: bool)

  const START: State :=
    State({}, {}, map[], {}, {}, {}, {}, map[], 0, 0, [], [], {}, true, true)

  datatype Step =
    | Send(d: DialId)
    | SendFails(d: DialId)
    | StartAccept(d: DialId)
    | ClientOpens
    | OpenFails
    | ClientStops
    | Accept(d: DialId)
    | AcceptFails(d: DialId)
    | Timeout(d: DialId)
    | Take(d: DialId)
    | Write(d: DialId)
    | HandlerReads(n: StreamId)
    | HandlerFails(n: StreamId)
    | HandlerReplies(n: StreamId, content: nat)
    | ReadAnswer(d: DialId)
    | SessionEnds

  predicate New(s: State, d: DialId) {
    d !in s.sent && d !in s.waiting && d !in s.got && d !in s.failed && d !in s.timedOut
  }

  predicate Enabled(s: State, step: Step) {
    match step
    case Send(d) => New(s, d)
    case SendFails(d) => New(s, d)
    case StartAccept(d) => d in s.sent
    case ClientOpens => s.sessionUp && s.clientListens && s.inTransit > 0
    case OpenFails => s.clientListens && s.inTransit > 0
    case ClientStops => true
    case Accept(d) => d in s.waiting && s.backlog != []
    case AcceptFails(d) => d in s.waiting && !s.sessionUp
    case Timeout(d) => (d in s.waiting || d in s.got) && d !in s.timedOut && d !in s.taken
    case Take(d) => d in s.got && d !in s.timedOut && d !in s.taken
    case Write(d) => d in s.taken && d in s.got && s.got[d] < |s.streams| && d !in s.written
    case HandlerReads(n) => n < |s.streams| && s.streams[n].handler.Reading? && s.streams[n].requests != []
    case HandlerFails(n) => n < |s.streams| && !s.streams[n].handler.Finished?
    case HandlerReplies(n, _) => n < |s.streams| && s.streams[n].handler.Calling?
    case ReadAnswer(d) =>
      && d in s.written && d in s.got && d !in s.answers
      && s.got[d] < |s.streams| && s.streams[s.got[d]].replies != []
    case SessionEnds => true
  }

  function Next(s: State, step: Step): State
    requires Enabled(s, step)
  {
    match step
    case Send(d) => s.(sent := s.sent + {d}, inTransit := s.inTransit + 1)
    case SendFails(d) => s.(failed := s.failed + {d})
    case StartAccept(d) => s.(sent := s.sent - {d}, waiting := s.waiting + {d})
    case ClientOpens =>
      s.(inTransit := s.inTransit - 1,
         backlog := s.backlog + [|s.streams|],
         streams := s.streams + [Stream([], Reading, [])])
    case OpenFails => s.(inTransit := s.inTransit - 1, lost := s.lost + 1, clientListens := false)
    case ClientStops => s.(clientListens := false)
    case Accept(d) =>
      s.(waiting := s.waiting - {d}, got := s.got[d := s.backlog[0]], backlog := s.backlog[1..])
    case AcceptFails(d) => s.(waiting := s.waiting - {d}, failed := s.failed + {d})
    case Timeout(d) => s.(timedOut := s.timedOut + {d})
    case Take(d) => s.(taken := s.taken + {d})
    case Write(d) =>
      var n := s.got[d];
      s.(written := s.written + {d},
         streams := s.streams[n := s.streams[n].(requests := s.streams[n].requests + [d])])
    case HandlerReads(n) =>
      s.(streams := s.streams[n := s.streams[n].(handler := Calling(s.streams[n].requests[0]))])
    case HandlerFails(n) =>
      s.(streams := s.streams[n := s.streams[n].(handler := Finished, replies := s.streams[n].replies + [Unavailable])])
    case HandlerReplies(n, content) =>
      var request := s.streams[n].handler.request;
      s.(calls := s.calls + {(request, content)},
         streams := s.streams[n := s.streams[n].(handler := Finished,
                                                 replies := s.streams[n].replies + [Local(request, content)])])
    case ReadAnswer(d) => s.(answers := s.answers[d := s.streams[s.got[d]].replies[0]])
    case SessionEnds => s.(sessionUp := false)
  }

  ghost predicate IsRun(s: State, steps: seq<Step>)
    decreases |steps|
  {
    steps == [] || (Enabled(s, steps[0]) && IsRun(Next(s, steps[0]), steps[1..]))
  }

  ghost function After(s: State, steps: seq<Step>): State
    requires IsRun(s, steps)
    decreases |steps|
  {
    if steps == [] then s else After(Next(s, steps[0]), steps[1..])
  }

  // ---------------------------------------------------------------------------------------------
  // The invariant

  /** Every stream sits in one place: the backlog once, or with one acceptor. */
  ghost predicate StreamsApart(backlog: seq<StreamId>, got: map<DialId, StreamId>, total: nat) {
    && (forall i :: 0 <= i < |backlog| ==> backlog[i] < total)
    && (forall i, j :: 0 <= i < j < |backlog| ==> backlog[i] != backlog[j])
    && (forall d :: d in got ==> got[d] < total && got[d] !in backlog)
    && (forall d, e :: d in got && e in got && got[d] == got[e] ==> d == e)
  }

  ghost predicate Stages(s: State) {
    && s.sent !! s.waiting && s.sent !! s.got.Keys && s.waiting !! s.got.Keys
    && s.taken <= s.got.Keys && s.written <= s.taken && s.taken !! s.timedOut
  }

  /** Only the dial that was given the stream has put anything on it. */
  ghost predicate Owns(got: map<DialId, StreamId>, written: set<DialId>, r: DialId, n: StreamId) {
    r in written && r in got && got[r] == n
  }

  ghost predicate StreamOk(s: State, n: StreamId)
    requires n < |s.streams|
  {
    var stream := s.streams[n];
    && |stream.requests| <= 1
    && (forall r :: r in stream.requests ==> Owns(s.got, s.written, r, n))
    && (stream.handler.Calling? ==> Owns(s.got, s.written, stream.handler.request, n))
    && (forall a :: a in stream.replies && a.Local? ==>
          Owns(s.got, s.written, a.request, n) && (a.request, a.content) in s.calls)
  }

  ghost predicate AnswersOk(s: State) {
    forall d :: d in s.answers && s.answers[d].Local? ==>
      s.answers[d].request == d && (d, s.answers[d].content) in s.calls
  }

  /** While the session is up, the acceptors waiting and about to wait are as many as the streams opened
      and still to be opened for them, and one more if the client's loop ended because it could not open
      one: it then returns and closes neither the session nor the control stream. */
  predicate Balanced(s: State) {
    && (s.sessionUp ==> |s.waiting| + |s.sent| == s.inTransit + |s.backlog| + s.lost)
    && s.lost <= 1
    && (s.lost > 0 ==> !s.clientListens)
  }

  ghost predicate Inv(s: State) {
    && StreamsApart(s.backlog, s.got, |s.streams|)
    && Stages(s)
    && (forall n :: 0 <= n < |s.streams| ==> StreamOk(s, n))
    && AnswersOk(s)
    && Balanced(s)
  }

  lemma AcceptKeepsApart(backlog: seq<StreamId>, got: map<DialId, StreamId>, total: nat, d: DialId)
    requires StreamsApart(backlog, got, total) && backlog != []
    ensures d !in got ==> StreamsApart(backlog[1..], got[d := backlog[0]], total)
  {
  }

  /** Streams stay as they should be while dials are given streams and new streams are opened. */
  lemma StreamsStayOk(s: State, s': State)
    requires forall n :: 0 <= n < |s.streams| ==> StreamOk(s, n)
    requires |s.streams| <= |s'.streams| && s'.streams[..|s.streams|] == s.streams
    requires forall n :: |s.streams| <= n < |s'.streams| ==> s'.streams[n] == Stream([], Reading, [])
    requires forall d :: d in s.got ==> d in s'.got && s'.got[d] == s.got[d]
    requires s'.written == s.written && s'.calls == s.calls
    ensures forall n :: 0 <= n < |s'.streams| ==> StreamOk(s', n)
  {
    forall n | 0 <= n < |s'.streams| ensures StreamOk(s', n) {
      if n < |s.streams| {
        assert StreamOk(s, n) && s'.streams[n] == s'.streams[..|s.streams|][n];
      }
    }
  }

  lemma OpenKeepsInv(s: State)
    requires Inv(s) && Enabled(s, ClientOpens)
    ensures Inv(Next(s, ClientOpens))
  {
    StreamsStayOk(s, Next(s, ClientOpens));
  }

  lemma AcceptKeepsInv(s: State, d: DialId)
    requires Inv(s) && Enabled(s, Accept(d))
    ensures Inv(Next(s, Accept(d)))
  {
    AcceptKeepsApart(s.backlog, s.got, |s.streams|, d);
    StreamsStayOk(s, Next(s, Accept(d)));
    assert |s.waiting - {d}| == |s.waiting| - 1;
  }

  lemma NonEmptyHasMember(q: seq<DialId>)
    ensures q != [] ==> exists r :: r in q
  {
    if q != [] {
      assert q[0] in q;
    }
  }

  lemma WriteKeepsInv(s: State, d: DialId)
    requires Inv(s) && Enabled(s, Write(d))
    ensures Inv(Next(s, Write(d)))
  {
    var s' := Next(s, Write(d));
    var stream := s.streams[s.got[d]];
    assert StreamOk(s, s.got[d]);
    NonEmptyHasMember(stream.requests);
    forall n | 0 <= n < |s'.streams| ensures StreamOk(s', n) {
      assert StreamOk(s, n);
    }
  }

  lemma HandlerKeepsInv(s: State, step: Step)
    requires Inv(s) && Enabled(s, step)
    requires step.HandlerReads? || step.HandlerFails? || step.HandlerReplies?
    ensures Inv(Next(s, step))
  {
    var s' := Next(s, step);
    assert StreamOk(s, step.n);
    forall n | 0 <= n < |s'.streams| ensures StreamOk(s', n) {
      assert StreamOk(s, n);
    }
  }

  lemma StreamsUntouched(s: State, step: Step)
    requires Inv(s) && Enabled(s, step)
    requires Next(s, step).streams == s.streams && Next(s, step).got == s.got
    requires Next(s, step).written == s.written && Next(s, step).calls == s.calls
    ensures forall n :: 0 <= n < |s.streams| ==> StreamOk(Next(s, step), n)
  {
    forall n | 0 <= n < |s.streams| ensures StreamOk(Next(s, step), n) {
      assert StreamOk(s, n);
    }
  }

  lemma NextKeepsInv(s: State, step: Step)
    requires Inv(s) && Enabled(s, step)
    ensures Inv(Next(s, step))
  {
    match step
    case Write(d) => WriteKeepsInv(s, d);
    case HandlerReads(_) => HandlerKeepsInv(s, step);
    case HandlerFails(_) => HandlerKeepsInv(s, step);
    case HandlerReplies(_, _) => HandlerKeepsInv(s, step);
    case ClientOpens => OpenKeepsInv(s);
    case Accept(d) => AcceptKeepsInv(s, d);
    case ReadAnswer(d) =>
      assert StreamOk(s, s.got[d]);
      assert s.streams[s.got[d]].replies[0] in s.streams[s.got[d]].replies;
      StreamsUntouched(s, step);
    case _ => StreamsUntouched(s, step);
  }

  lemma {:induction false} RunsKeepInv(s: State, steps: seq<Step>)
    requires Inv(s) && IsRun(s, steps)
    ensures Inv(After(s, steps))
    decreases |steps|
  {
    if steps != [] {
      NextKeepsInv(s, steps[0]);
      RunsKeepInv(Next(s, steps[0]), steps[1..]);
    }
  }

  // ---------------------------------------------------------------------------------------------
  // No crosstalk

  /** What an acceptor was given and what a request read are never taken back. */
  lemma {:induction false} RunsOnlyAdd(s: State, steps: seq<Step>)
    requires Inv(s) && IsRun(s, steps)
    ensures forall d :: d in s.got ==> d in After(s, steps).got && After(s, steps).got[d] == s.got[d]
    ensures forall d :: d in s.answers ==> d in After(s, steps).answers && After(s, steps).answers[d] == s.answers[d]
    decreases |steps|
  {
    if steps != [] {
      NextKeepsInv(s, steps[0]);
      RunsOnlyAdd(Next(s, steps[0]), steps[1..]);
    }
  }

  /** Over a whole run no stream is given to two dials, even at different times, and a stream carries the
      request of the dial it was given to and no other. */
  lemma {:induction false} NoStreamServesTwo(before: seq<Step>, after: seq<Step>, d: DialId, e: DialId)
    requires IsRun(START, before) && IsRun(After(START, before), after)
    requires d in After(START, before).got && e in After(After(START, before), after).got
    requires After(START, before).got[d] == After(After(START, before), after).got[e]
    ensures d == e
    ensures var s := After(After(START, before), after);
            s.got[e] < |s.streams| && (s.streams[s.got[e]].requests == [] || s.streams[s.got[e]].requests == [e])
  {
    RunsKeepInv(START, before);
    var s := After(START, before);
    RunsKeepInv(s, after);
    RunsOnlyAdd(s, after);
    var s' := After(s, after);
    assert StreamOk(s', s'.got[e]);
    if s'.streams[s'.got[e]].requests != [] {
      assert s'.streams[s'.got[e]].requests[0] in s'.streams[s'.got[e]].requests;
    }
  }

  /** Whatever a request reads back, unless it is the "no local server" answer, is what the local server
      answered to that very request. */
  lemma {:induction false} NoCrosstalk(steps: seq<Step>, d: DialId)
    requires IsRun(START, steps) && d in After(START, steps).answers
    ensures var s := After(START, steps);
            s.answers[d] == Unavailable
            || (s.answers[d].Local? && s.answers[d].request == d && (d, s.answers[d].content) in s.calls)
  {
    RunsKeepInv(START, steps);
  }

  // ---------------------------------------------------------------------------------------------
  // Which answer a request reads

  /** What the goroutine of the stream has put on it is said by the steps it has made. */
  ghost predicate RepliedBy(steps: seq<Step>, n: StreamId, stream: Stream) {
    && (HandlerFails(n) in steps ==> stream.handler.Finished? && stream.replies == [Unavailable])
    && (forall c :: HandlerReplies(n, c) in steps ==>
          stream.handler.Finished? && |stream.replies| == 1 && stream.replies[0].Local? && stream.replies[0].content == c)
    && (stream.replies == [] || HandlerFails(n) in steps || exists c :: HandlerReplies(n, c) in steps)
    && (stream.handler.Finished? <==> stream.replies != [])
  }

  /** And of a stream that is not open yet nothing. */
  ghost predicate NotYetReplied(steps: seq<Step>, n: StreamId) {
    HandlerFails(n) !in steps && forall c :: HandlerReplies(n, c) !in steps
  }

  ghost predicate RepliesSaid(s: State, steps: seq<Step>) {
    forall n: nat :: if n < |s.streams| then RepliedBy(steps, n, s.streams[n]) else NotYetReplied(steps, n)
  }

  lemma NextReplies(s: State, steps: seq<Step>, step: Step)
    requires RepliesSaid(s, steps) && Enabled(s, step)
    ensures RepliesSaid(Next(s, step), steps + [step])
  {
    var s', steps' := Next(s, step), steps + [step];
    forall n: nat
      ensures if n < |s'.streams| then RepliedBy(steps', n, s'.streams[n]) else NotYetReplied(steps', n)
    {
      assert forall x :: x in steps' <==> x in steps || x == step;
      if n < |s.streams| {
        assert RepliedBy(steps, n, s.streams[n]);
        if step.HandlerReplies? && step.n == n {
          assert HandlerReplies(n, step.content) in steps';
        }
      } else {
        assert NotYetReplied(steps, n);
      }
    }
  }

  lemma {:induction false} RunsReply(done: seq<Step>, s: State, steps: seq<Step>)
    requires RepliesSaid(s, done) && IsRun(s, steps)
    ensures RepliesSaid(After(s, steps), done + steps)
    decreases |steps|
  {
    if steps == [] {
      assert done + steps == done;
    } else {
      NextReplies(s, done, steps[0]);
      RunsReply(done + [steps[0]], Next(s, steps[0]), steps[1..]);
      assert done + [steps[0]] + steps[1..] == done + steps;
    }
  }

  /** Answers are the first reply on the dial's own stream. */
  ghost predicate AnswersAreReplies(s: State) {
    forall d :: d in s.answers ==>
      d in s.got && s.got[d] < |s.streams| && s.streams[s.got[d]].replies != []
      && s.answers[d] == s.streams[s.got[d]].replies[0]
  }

  lemma NextAnswers(s: State, step: Step)
    requires Inv(s) && AnswersAreReplies(s) && Enabled(s, step)
    ensures AnswersAreReplies(Next(s, step))
  {
  }

  lemma {:induction false} RunsAnswer(s: State, steps: seq<Step>)
    requires Inv(s) && AnswersAreReplies(s) && IsRun(s, steps)
    ensures AnswersAreReplies(After(s, steps))
    decreases |steps|
  {
    if steps != [] {
      NextKeepsInv(s, steps[0]);
      NextAnswers(s, steps[0]);
      RunsAnswer(Next(s, steps[0]), steps[1..]);
    }
  }

  /** A request that has read its answer has read "no local server" exactly if the goroutine of its own stream
      failed, and what the local server answered to it exactly if that goroutine replied with it. */
  lemma {:induction false} AnswerIff(steps: seq<Step>, d: DialId, content: nat)
    requires IsRun(START, steps) && d in After(START, steps).answers
    ensures var s := After(START, steps);
            && d in s.got
            && (s.answers[d] == Unavailable <==> HandlerFails(s.got[d]) in steps)
            && (s.answers[d] == Local(d, content) <==> HandlerReplies(s.got[d], content) in steps)
            && (HandlerFails(s.got[d]) in steps ==> HandlerReplies(s.got[d], content) !in steps)
  {
    RunsKeepInv(START, steps);
    RunsReply([], START, steps);
    RunsAnswer(START, steps);
    assert [] + steps == steps;
    var s := After(START, steps);
    assert RepliedBy(steps, s.got[d], s.streams[s.got[d]]);
    assert AnswersOk(s);
    if HandlerFails(s.got[d]) !in steps {
      var c :| HandlerReplies(s.got[d], c) in steps;
    }
  }

  /** A dial that has timed out never returns a stream or reads an answer, whatever comes afterwards. */
  lemma {:induction false} TimedOutForGood(s: State, steps: seq<Step>, d: DialId)
    requires Inv(s) && IsRun(s, steps) && (d in s.timedOut || Timeout(d) in steps)
    ensures d in After(s, steps).timedOut && d !in After(s, steps).taken && d !in After(s, steps).written
    decreases |steps|
  {
    RunsKeepInv(s, steps);
    if steps != [] {
      assert Timeout(d) in steps ==> steps[0] == Timeout(d) || Timeout(d) in steps[1..];
      NextKeepsInv(s, steps[0]);
      TimedOutForGood(Next(s, steps[0]), steps[1..], d);
    }
  }

  /** Nor does one whose message could not be sent ever wait for a stream. */
  ghost predicate NotSent(s: State, d: DialId) {
    d in s.failed && d !in s.sent && d !in s.waiting && d !in s.got
  }

  lemma {:induction false} NotSentForGood(s: State, steps: seq<Step>, d: DialId)
    requires IsRun(s, steps) && (NotSent(s, d) || SendFails(d) in steps)
    ensures NotSent(After(s, steps), d)
    decreases |steps|
  {
    if steps != [] {
      assert SendFails(d) in steps ==> steps[0] == SendFails(d) || SendFails(d) in steps[1..];
      NotSentForGood(Next(s, steps[0]), steps[1..], d);
    }
  }

  /** The session is up until it ends, the client listens until its loop stops or cannot open a stream, and in
      that last case a message is lost. */
  lemma {:induction false} UpIff(s: State, steps: seq<Step>)
    requires IsRun(s, steps)
    ensures After(s, steps).sessionUp <==> s.sessionUp && SessionEnds !in steps
    ensures After(s, steps).clientListens <==> s.clientListens && ClientStops !in steps && OpenFails !in steps
    ensures After(s, steps).lost > 0 <==> s.lost > 0 || OpenFails in steps
    decreases |steps|
  {
    if steps != [] {
      assert forall step :: step in steps <==> step == steps[0] || step in steps[1..];
      UpIff(Next(s, steps[0]), steps[1..]);
    }
  }

  /** Acceptors get the streams in the order in which the client opened them: those in the backlog are the
      latest, in order. */
  ghost predicate OldestFirst(s: State) {
    |s.backlog| <= |s.streams| && forall i :: 0 <= i < |s.backlog| ==> s.backlog[i] == |s.streams| - |s.backlog| + i
  }

  lemma {:induction false} StreamsInOrder(s: State, steps: seq<Step>)
    requires OldestFirst(s) && IsRun(s, steps)
    ensures OldestFirst(After(s, steps))
    decreases |steps|
  {
    if steps != [] {
      StreamsInOrder(Next(s, steps[0]), steps[1..]);
    }
  }

  // ---------------------------------------------------------------------------------------------
  // An undisturbed dial

  predicate Idle(s: State) {
    s.sessionUp && s.clientListens && s.sent == {} && s.waiting == {} && s.inTransit == 0 && s.backlog == []
  }

  function Dials(d: DialId): seq<Step> {
    [Send(d), StartAccept(d), ClientOpens] + [Accept(d), Take(d)]
  }

  function Exchanges(d: DialId, n: StreamId, content: nat): seq<Step> {
    [Write(d), HandlerReads(n), HandlerReplies(n, content), ReadAnswer(d)]
  }

  lemma {:induction false} FirstThen(s: State, step: Step, rest: seq<Step>)
    requires Enabled(s, step) && IsRun(Next(s, step), rest)
    ensures IsRun(s, [step] + rest) && After(s, [step] + rest) == After(Next(s, step), rest)
  {
    assert ([step] + rest)[0] == step && ([step] + rest)[1..] == rest;
  }

  /** Nothing but the stream given to the dial is new. */
  function Given(s: State, d: DialId): State {
    s.(got := s.got[d := |s.streams|], taken := s.taken + {d}, streams := s.streams + [Stream([], Reading, [])])
  }

  lemma {:induction false} AsksForStream(s: State, d: DialId)
    requires Idle(s) && New(s, d)
    ensures var steps := [Send(d), StartAccept(d), ClientOpens];
            IsRun(s, steps) && After(s, steps) == s.(waiting := {d}, backlog := [|s.streams|],
                                                     streams := s.streams + [Stream([], Reading, [])])
  {
    var s1 := Next(s, Send(d));
    var s2 := Next(s1, StartAccept(d));
    assert s2.sent == {} && s2.waiting == {d};
    var s3 := Next(s2, ClientOpens);
    assert IsRun(s3, []) && After(s3, []) == s3;
    FirstThen(s2, ClientOpens, []);
    FirstThen(s1, StartAccept(d), [ClientOpens]);
    FirstThen(s, Send(d), [StartAccept(d)] + [ClientOpens]);
    assert [Send(d)] + ([StartAccept(d)] + [ClientOpens]) == [Send(d), StartAccept(d), ClientOpens];
  }

  lemma {:induction false} TakesStream(s: State, d: DialId, n: StreamId)
    requires s.waiting == {d} && s.backlog == [n] && d !in s.timedOut && d !in s.taken
    ensures var steps := [Accept(d), Take(d)];
            IsRun(s, steps) && After(s, steps) == s.(waiting := {}, backlog := [], got := s.got[d := n], taken := s.taken + {d})
  {
    var s1 := Next(s, Accept(d));
    assert s1.waiting == {} && s1.backlog == [];
    var s2 := Next(s1, Take(d));
    assert IsRun(s2, []) && After(s2, []) == s2;
    FirstThen(s1, Take(d), []);
    FirstThen(s, Accept(d), [Take(d)]);
    assert [Accept(d)] + [Take(d)] == [Accept(d), Take(d)];
  }

  lemma {:induction false} RunThenRun(s: State, first: seq<Step>, second: seq<Step>)
    requires IsRun(s, first) && IsRun(After(s, first), second)
    ensures IsRun(s, first + second) && After(s, first + second) == After(After(s, first), second)
    decreases |first|
  {
    if first == [] {
      assert first + second == second;
    } else {
      RunThenRun(Next(s, first[0]), first[1..], second);
      assert (first + second)[0] == first[0] && (first + second)[1..] == first[1..] + second;
    }
  }

  lemma {:induction false} GetsItsStream(s: State, d: DialId)
    requires Inv(s) && Idle(s) && New(s, d)
    ensures IsRun(s, Dials(d)) && After(s, Dials(d)) == Given(s, d)
    ensures d !in s.written
  {
    AsksForStream(s, d);
    var m := After(s, [Send(d), StartAccept(d), ClientOpens]);
    TakesStream(m, d, |s.streams|);
    RunThenRun(s, [Send(d), StartAccept(d), ClientOpens], [Accept(d), Take(d)]);
  }

  lemma {:induction false} GetsItsAnswer(s: State, d: DialId, n: StreamId, content: nat)
    requires d in s.got && s.got[d] == n && d in s.taken && d !in s.written && d !in s.answers
    requires n < |s.streams| && s.streams[n] == Stream([], Reading, [])
    ensures var steps := Exchanges(d, n, content);
            && IsRun(s, steps)
            && After(s, steps).answers == s.answers[d := Local(d, content)]
            && After(s, steps).calls == s.calls + {(d, content)}
  {
    var s1 := Next(s, Write(d));
    assert s1.streams[n] == Stream([d], Reading, []);
    var s2 := Next(s1, HandlerReads(n));
    var s3 := Next(s2, HandlerReplies(n, content));
    var s4 := Next(s3, ReadAnswer(d));
    assert After(s4, []) == s4 && IsRun(s4, []);
    FirstThen(s3, ReadAnswer(d), []);
    FirstThen(s2, HandlerReplies(n, content), [ReadAnswer(d)]);
    FirstThen(s1, HandlerReads(n), [HandlerReplies(n, content)] + [ReadAnswer(d)]);
    FirstThen(s, Write(d), [HandlerReads(n)] + ([HandlerReplies(n, content)] + [ReadAnswer(d)]));
    assert [Write(d)] + ([HandlerReads(n)] + ([HandlerReplies(n, content)] + [ReadAnswer(d)]))
           == [Write(d), HandlerReads(n), HandlerReplies(n, content), ReadAnswer(d)];
  }

  lemma {:induction false} DialsThenExchanges(s: State, d: DialId, content: nat)
    requires Inv(s) && Idle(s) && New(s, d) && d !in s.answers
    ensures var n := |s.streams|;
            && IsRun(s, Dials(d)) && IsRun(After(s, Dials(d)), Exchanges(d, n, content))
            && After(After(s, Dials(d)), Exchanges(d, n, content)).answers == s.answers[d := Local(d, content)]
            && (d, content) in After(After(s, Dials(d)), Exchanges(d, n, content)).calls
  {
    GetsItsStream(s, d);
    GetsItsAnswer(Given(s, d), d, |s.streams|, content);
  }

  /** After any run that leaves nothing outstanding a new dial on its own gets through: it is given the next
      stream, its request reaches the local server, and it reads the answer. */
  lemma {:induction false} UndisturbedDialIsAnswered(before: seq<Step>, d: DialId, content: nat)
    requires IsRun(START, before) && Idle(After(START, before)) && New(After(START, before), d)
    ensures var s := After(START, before);
            var steps := Dials(d) + Exchanges(d, |s.streams|, content);
            && IsRun(s, steps)
            && After(s, steps).answers == s.answers[d := Local(d, content)]
            && (d, content) in After(s, steps).calls
  {
    RunsKeepInv(START, before);
    RunsAnswer(START, before);
    var s := After(START, before);
    DialsThenExchanges(s, d, content);
    RunThenRun(s, Dials(d), Exchanges(d, |s.streams|, content));
  }

  // ---------------------------------------------------------------------------------------------
  // Balance

  lemma {:induction false} AcceptorsMatchStreams(steps: seq<Step>)
    requires IsRun(START, steps)
    ensures var s := After(START, steps);
            && (s.sessionUp ==> |s.waiting| + |s.sent| == s.inTransit + |s.backlog| + s.lost)
            && s.lost <= 1
            && (s.lost > 0 ==> !s.clientListens)
            && (s.sessionUp <==> SessionEnds !in steps)
            && (s.lost > 0 <==> OpenFails in steps)
  {
    RunsKeepInv(START, steps);
    UpIff(START, steps);
  }

  predicate AllProcessed(s: State) {
    s.sessionUp && s.inTransit == 0 && s.backlog == []
  }

  /** Once every message is processed and every stream accepted, nobody waits, timeouts or not, exactly if
      the client could open a stream for each message; otherwise exactly one acceptor is left behind. */
  lemma {:induction false} NobodyLeftWaitingIff(steps: seq<Step>)
    requires IsRun(START, steps) && AllProcessed(After(START, steps))
    ensures var s := After(START, steps);
            && (s.waiting == {} && s.sent == {} <==> OpenFails !in steps)
            && |s.waiting| + |s.sent| == s.lost
            && s.lost <= 1
  {
    AcceptorsMatchStreams(steps);
    var s := After(START, steps);
    if |s.waiting| + |s.sent| == 0 {
      assert s.waiting == {} && s.sent == {};
    }
  }

  /** A lost message is never made up for. */
  lemma {:induction false} LostForGood(s: State, steps: seq<Step>)
    requires IsRun(s, steps)
    ensures s.lost <= After(s, steps).lost
    decreases |steps|
  {
    if steps != [] {
      LostForGood(Next(s, steps[0]), steps[1..]);
    }
  }

  /** One dial whose stream could not be opened: everything is processed, and its acceptor waits. */
  function OneLost(d: DialId): State {
    START.(waiting := {d}, lost := 1, clientListens := false)
  }

  lemma OneLostReached(d: DialId) returns (steps: seq<Step>)
    ensures IsRun(START, steps) && After(START, steps) == OneLost(d)
    ensures AllProcessed(OneLost(d)) && OneLost(d).waiting == {d}
  {
    steps := [Send(d), StartAccept(d), OpenFails];
    var s1 := Next(START, Send(d));
    var s2 := Next(s1, StartAccept(d));
    assert s2.sent == {} && s2.waiting == {d};
    assert Next(s2, OpenFails) == OneLost(d);
    assert steps[1..] == [StartAccept(d), OpenFails] && steps[1..][1..] == [OpenFails] && [OpenFails][1..] == [];
    assert IsRun(s2, [OpenFails]) && After(s2, [OpenFails]) == OneLost(d);
    assert IsRun(s1, steps[1..]) && After(s1, steps[1..]) == OneLost(d);
  }

  /** However a run goes on after a message was lost, with timeouts and further dials or without, some acceptor
      waits or is about to for as long as the session is up. */
  lemma {:induction false} AcceptorLeftBehind(s: State, steps: seq<Step>)
    requires Inv(s) && s.lost > 0 && IsRun(s, steps)
    ensures After(s, steps).sessionUp ==> After(s, steps).waiting != {} || After(s, steps).sent != {}
  {
    RunsKeepInv(s, steps);
    LostForGood(s, steps);
  }

  /** The steps that settle what has been asked for: start an acceptor, open a stream, accept it. */
  predicate Settles(step: Step) {
    step.StartAccept? || step.ClientOpens? || step.Accept?
  }

  function Unsettled(s: State): nat {
    |s.sent| + 2 * s.inTransit + |s.backlog|
  }

  /** While anything is unsettled and the client listens, one of those steps can happen: acceptors and
      streams never wait for each other in vain. */
  lemma SomethingCanSettle(s: State)
    requires Inv(s) && s.sessionUp && s.clientListens
    ensures (s.sent == {} && s.waiting == {} && s.inTransit == 0 && s.backlog == [])
            <==> forall step :: Settles(step) ==> !Enabled(s, step)
  {
    if s.sent != {} {
      var d :| d in s.sent;
      assert Settles(StartAccept(d)) && Enabled(s, StartAccept(d));
    } else if s.inTransit > 0 {
      assert Settles(ClientOpens) && Enabled(s, ClientOpens);
    } else if s.waiting != {} {
      var d :| d in s.waiting;
      assert |s.waiting| > 0;
      assert Settles(Accept(d)) && Enabled(s, Accept(d));
    }
  }

  /** A run of settling steps is at most Unsettled long, and one that long leaves nobody waiting but the
      acceptor of a lost message. */
  lemma {:induction false} SettlingEnds(s: State, steps: seq<Step>)
    requires Inv(s) && s.sessionUp && IsRun(s, steps)
    requires forall step :: step in steps ==> Settles(step)
    ensures Unsettled(After(s, steps)) == Unsettled(s) - |steps|
    ensures |steps| == Unsettled(s) ==> |After(s, steps).waiting| == s.lost && After(s, steps).sent == {}
    decreases |steps|
  {
    if steps == [] {
    } else {
      assert steps[0] in steps;
      assert forall step :: step in steps[1..] ==> step in steps;
      NextKeepsInv(s, steps[0]);
      SettlingEnds(Next(s, steps[0]), steps[1..]);
    }
  }

  function StillHeld(s: State): nat {
    2 * |s.sent| + |s.waiting|
  }

  lemma OneReleased(s: State, step: Step)
    requires Stages(s) && !s.sessionUp && Enabled(s, step) && (step.StartAccept? || step.AcceptFails?)
    ensures StillHeld(Next(s, step)) == StillHeld(s) - 1 && !Next(s, step).sessionUp
  {
    match step
    case StartAccept(d) =>
      assert |s.sent - {d}| == |s.sent| - 1 && |s.waiting + {d}| == |s.waiting| + 1;
    case AcceptFails(d) => assert |s.waiting - {d}| == |s.waiting| - 1;
  }

  lemma NobodyHeldIff(s: State)
    requires !s.sessionUp
    ensures StillHeld(s) == 0 <==> forall d :: !Enabled(s, StartAccept(d)) && !Enabled(s, AcceptFails(d))
  {
    if s.sent != {} {
      var d :| d in s.sent;
      assert Enabled(s, StartAccept(d));
    }
    if s.waiting != {} {
      var d :| d in s.waiting;
      assert Enabled(s, AcceptFails(d));
    }
  }

  /** Once the session has ended every acceptor is let go: each of these steps brings that nearer by one, and
      one of them is possible until it is so. */
  lemma {:induction false} EndReleasesAcceptors(s: State, steps: seq<Step>)
    requires Inv(s) && !s.sessionUp && IsRun(s, steps)
    requires forall step :: step in steps ==> step.StartAccept? || step.AcceptFails?
    ensures var s' := After(s, steps);
            && StillHeld(s') == StillHeld(s) - |steps|
            && (StillHeld(s') == 0 <==> forall d :: !Enabled(s', StartAccept(d)) && !Enabled(s', AcceptFails(d)))
    decreases |steps|
  {
    if steps == [] {
      NobodyHeldIff(s);
    } else {
      assert steps[0] in steps;
      assert forall step :: step in steps[1..] ==> step in steps;
      NextKeepsInv(s, steps[0]);
      OneReleased(s, steps[0]);
      EndReleasesAcceptors(Next(s, steps[0]), steps[1..]);
    }
  }
}
