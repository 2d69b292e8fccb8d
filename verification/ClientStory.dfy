/** What a client announces over a run of Start, change by change, in terms of its attempts: tunnel/client.go
    Start, connect, listenControl. */
module ClientStory {

  import opened Base
  import opened ClientLoop
  import opened ClientRuns

  type Report = (ClientState, Option<Error>)

  function Shown(changes: seq<Change>): seq<Report> {
    seq(|changes|, i requires 0 <= i < |changes| => (changes[i].current, changes[i].error))
  }

  /** What an attempt announces once it is under way: a completed handshake as a connection, and a control
      message that cannot be decoded as its loss. A stream that cannot be opened is announced by nothing. */
  function AttemptReports(a: Attempt): seq<Report> {
    if a.fetchError.Some? || a.connection.Fails? then []
    else [(Connected, None)] + if a.connection.then_.DecodeFails? then [(Disconnected, Some(a.connection.then_.error))] else []
  }

  /** The error of the last of these attempts. */
  function LastError(env: seq<Attempt>): Option<Error> {
    if env == [] then None else Some(ErrorOf(env[|env| - 1]))
  }

  /** Each attempt begins with a change to Connecting that carries the error of the one before. */
  function AllReports(env: seq<Attempt>): seq<Report> {
    if env == [] then []
    else
      var init := env[..|env| - 1];
      AllReports(init) + ([(Connecting, LastError(init))] + AttemptReports(env[|env| - 1]))
  }

  /** How the loop takes its leave: after a backoff, which begins with a change to Connecting, or right after
      an attempt. */
  function Leave(ending: Ending, afterBackoff: bool, err: Option<Error>): seq<Report> {
    if ending == Running then []
    else
      (if afterBackoff then [(Connecting, err)] else [])
      + [(Closed, if ending == GaveUp then Some(RedialAborted) else err)]
  }

  lemma OneShown(l: Loop, current: ClientState, error: Option<Error>)
    ensures Shown(ChangeState(l, current, error).changes) == Shown(l.changes) + [(current, error)]
  {
  }

  lemma ConnectShown(l: Loop, a: Attempt)
    requires a.fetchError.None?
    ensures Shown(Connect(l, a).0.changes) == Shown(l.changes) + AttemptReports(a)
    ensures Connect(l, a).0.handshakes == l.handshakes + Gain(a)
  {
    if a.connection.Handshakes? {
      OneShown(l, Connected, None);
      if a.connection.then_.DecodeFails? {
        OneShown(ChangeState(l, Connected, None), Disconnected, Some(a.connection.then_.error));
      }
    }
  }

  lemma TryShown(l: Loop, a: Attempt)
    requires l.ending == Running
    ensures var l' := Try(l, a);
            && Shown(l'.changes) == Shown(l.changes) + (AttemptReports(a) + Leave(l'.ending, false, Some(ErrorOf(a))))
            && l'.ending != GaveUp && l'.handshakes == l.handshakes + Gain(a)
  {
    if a.fetchError.None? {
      ConnectShown(Prepared(l, a), a);
      var l1 := Attempted(l, a);
      assert l1.lastErr == Some(ErrorOf(a)) by {
        AttemptedAdds(l, a);
      }
      assert Shown(l1.changes) == Shown(l.changes) + AttemptReports(a);
      OneShown(l1, Closed, l1.lastErr);
    }
  }

  lemma SleepShown(limit: Option<nat>, l: Loop, a: Attempt)
    requires l.ending == Running
    ensures var l' := Sleep(limit, l, a);
            && Shown(l'.changes) == Shown(l.changes) + Leave(l'.ending, false, l.lastErr)
            && l'.handshakes == l.handshakes && (l'.ending == Running ==> l'.lastErr == l.lastErr)
  {
    var l1 := l.(calls := l.calls + 1, nextCalls := l.nextCalls + 1);
    OneShown(SetClosed(l1, true), Closed, Some(RedialAborted));
    OneShown(Closing(l1, a.closeEarly), Closed, l.lastErr);
  }

  /** Up to the end of the backoff. */
  lemma RestShown(limit: Option<nat>, l: Loop, a: Attempt)
    requires l.ending == Running
    ensures var l2 := Rest(limit, ChangeState(l, Connecting, l.lastErr), l.state, a);
            && l2.attempts == l.attempts && l2.handshakes == l.handshakes
            && (l2.ending == Running ==> l2.lastErr == l.lastErr)
            && (l2.ending != Running ==> IsRetry(l.state))
            && Shown(l2.changes) == Shown(l.changes) + [(Connecting, l.lastErr)] + Leave(l2.ending, false, l.lastErr)
  {
    var l1 := ChangeState(l, Connecting, l.lastErr);
    OneShown(l, Connecting, l.lastErr);
    if IsRetry(l.state) {
      SleepShown(limit, l1, a);
      SleepAdds(limit, l1, a);
    }
  }

  lemma LeaveSplit(before: seq<Report>, ending: Ending, err: Option<Error>)
    requires ending != Running
    ensures before + [(Connecting, err)] + Leave(ending, false, err) == before + Leave(ending, true, err)
  {
  }

  lemma AttemptShown(before: seq<Report>, err: Option<Error>, l: Loop, a: Attempt)
    requires l.ending == Running && Shown(l.changes) == before + [(Connecting, err)] + []
    ensures var l' := Try(l, a);
            && Shown(l'.changes)
               == before + ([(Connecting, err)] + AttemptReports(a)) + Leave(l'.ending, false, Some(ErrorOf(a)))
            && l'.attempts == l.attempts + 1 && l'.handshakes == l.handshakes + Gain(a)
  {
    TryShown(l, a);
    TryAdds(l, a);
    SplitInFour(before, [(Connecting, err)], AttemptReports(a), Leave(Try(l, a).ending, false, Some(ErrorOf(a))));
  }

  lemma SplitInFour(w: seq<Report>, x: seq<Report>, y: seq<Report>, z: seq<Report>)
    ensures w + x + [] + (y + z) == w + (x + y) + z
  {
  }

  /** One turn: an attempt, or the end after its backoff. */
  lemma TurnShown(limit: Option<nat>, l: Loop, a: Attempt)
    requires l.ending == Running
    ensures var l' := Iterate(limit, l, a);
            if l'.attempts == l.attempts then
              && l'.ending != Running && IsRetry(l.state) && l'.handshakes == l.handshakes
              && Shown(l'.changes) == Shown(l.changes) + Leave(l'.ending, true, l.lastErr)
            else
              && l'.attempts == l.attempts + 1 && l'.handshakes == l.handshakes + Gain(a)
              && Shown(l'.changes)
                 == Shown(l.changes) + ([(Connecting, l.lastErr)] + AttemptReports(a))
                    + Leave(l'.ending, false, Some(ErrorOf(a)))
  {
    var l2 := Rest(limit, ChangeState(l, Connecting, l.lastErr), l.state, a);
    RestShown(limit, l, a);
    if l2.ending == Running {
      AttemptShown(Shown(l.changes), l.lastErr, l2, a);
    } else {
      LeaveSplit(Shown(l.changes), l2.ending, l.lastErr);
    }
  }

  ghost predicate Told(before: seq<Report>, r: Loop, env: seq<Attempt>) {
    && r.attempts <= |env|
    && (r.ending == Running ==> r.attempts == |env|)
    && r.handshakes == HandshakesIn(env[..r.attempts])
    && Shown(r.changes)
       == before + [(Started, None)] + AllReports(env[..r.attempts])
          + Leave(r.ending, r.nextCalls == r.attempts, LastError(env[..r.attempts]))
  }

  /** On every run the changes announced are exactly these: Started, then for each attempt Connecting with the
      error before it, Connected if its handshake completes, Disconnected with the error if decoding then
      fails, and at the end Closed with the error that goes with it. */
  lemma {:induction false} AnnouncedChangesAre(limit: Option<nat>, l: Loop, env: seq<Attempt>)
    requires Idle(l) && Walk(l.changes, l.state)
    ensures Told(Shown(l.changes), Run(limit, Begin(l), env), env)
  {
    var before := Shown(l.changes);
    if env == [] {
      OneShown(l, Started, None);
    } else {
      var init, a := env[..|env| - 1], env[|env| - 1];
      var p := Run(limit, Begin(l), init);
      AnnouncedChangesAre(limit, l, init);
      EveryRetryHasAReason(limit, l, init);
      EveryRetryHasAReason(limit, l, env);
      assert init + [a] == env;
      if p.ending == Running {
        assert init[..|init|] == init;
        TurnTold(before, limit, p, init, a);
      } else {
        assert init[..p.attempts] == env[..p.attempts];
      }
    }
  }

  lemma TurnTold(before: seq<Report>, limit: Option<nat>, p: Loop, init: seq<Attempt>, a: Attempt)
    requires p.ending == Running && Told(before, p, init) && p.lastErr == LastError(init)
    requires Turns(p, init) == |init|
    requires Turns(Iterate(limit, p, a), init + [a]) <= |init| + 1
    ensures Told(before, Iterate(limit, p, a), init + [a])
  {
    var r, env := Iterate(limit, p, a), init + [a];
    TurnShown(limit, p, a);
    IterateAdds(limit, p, a);
    assert init[..|init|] == init && env[..|init|] == init && env[..|env|] == env;
    if r.attempts == p.attempts {
      LeaveAfter(before, AllReports(init), Leave(r.ending, true, p.lastErr));
    } else {
      OneMoreAttempt(init, a);
      GrownBy(before, AllReports(init), [(Connecting, p.lastErr)] + AttemptReports(a));
    }
  }

  lemma {:induction false} OneMoreAttempt(init: seq<Attempt>, a: Attempt)
    ensures AllReports(init + [a]) == AllReports(init) + ([(Connecting, LastError(init))] + AttemptReports(a))
    ensures HandshakesIn(init + [a]) == HandshakesIn(init) + Gain(a)
    ensures LastError(init + [a]) == Some(ErrorOf(a))
  {
    assert (init + [a])[..|init|] == init;
  }

  lemma LeaveAfter(before: seq<Report>, reports: seq<Report>, leave: seq<Report>)
    ensures before + [(Started, None)] + reports + [] + leave == before + [(Started, None)] + reports + leave
  {
  }

  lemma GrownBy(before: seq<Report>, reports: seq<Report>, more: seq<Report>)
    ensures before + [(Started, None)] + reports + [] + more == before + [(Started, None)] + (reports + more)
  {
  }

  // ---------------------------------------------------------------------------------------------
  // Connections and their losses

  /** The errors of the changes to one state, in order. */
  function ErrorsOf(reports: seq<Report>, state: ClientState): seq<Option<Error>> {
    if reports == [] then []
    else (if reports[0].0 == state then [reports[0].1] else []) + ErrorsOf(reports[1..], state)
  }

  /** The errors of the attempts that got connected and then could not decode a message. */
  function DecodeErrors(env: seq<Attempt>): seq<Option<Error>> {
    if env == [] then []
    else
      var a := env[|env| - 1];
      DecodeErrors(env[..|env| - 1])
      + if a.fetchError.None? && a.connection.Handshakes? && a.connection.then_.DecodeFails?
        then [Some(a.connection.then_.error)] else []
  }

  lemma {:induction false} ErrorsOfBoth(x: seq<Report>, y: seq<Report>, state: ClientState)
    ensures ErrorsOf(x + y, state) == ErrorsOf(x, state) + ErrorsOf(y, state)
  {
    if x == [] {
      assert x + y == y;
    } else {
      ErrorsOfBoth(x[1..], y, state);
      assert (x + y)[0] == x[0] && (x + y)[1..] == x[1..] + y;
      var first := if x[0].0 == state then [x[0].1] else [];
      assert first + (ErrorsOf(x[1..], state) + ErrorsOf(y, state)) == first + ErrorsOf(x[1..], state) + ErrorsOf(y, state);
    }
  }

  /** The attempts that the run has made. */
  function Made(r: Loop, env: seq<Attempt>): seq<Attempt> {
    if r.attempts <= |env| then env[..r.attempts] else env
  }

  lemma {:induction false} AttemptErrors(init: seq<Attempt>, a: Attempt)
    ensures var reports := [(Connecting, LastError(init))] + AttemptReports(a);
            && |ErrorsOf(reports, Connected)| == Gain(a)
            && ErrorsOf(reports, Disconnected)
               == if a.fetchError.None? && a.connection.Handshakes? && a.connection.then_.DecodeFails?
                  then [Some(a.connection.then_.error)] else []
  {
    ErrorsOfBoth([(Connecting, LastError(init))], AttemptReports(a), Connected);
    ErrorsOfBoth([(Connecting, LastError(init))], AttemptReports(a), Disconnected);
    if Gain(a) == 1 && a.connection.then_.DecodeFails? {
      ErrorsOfBoth([(Connected, None)], [(Disconnected, Some(a.connection.then_.error))], Connected);
      ErrorsOfBoth([(Connected, None)], [(Disconnected, Some(a.connection.then_.error))], Disconnected);
    }
  }

  lemma {:induction false} AllErrors(env: seq<Attempt>)
    ensures |ErrorsOf(AllReports(env), Connected)| == HandshakesIn(env)
    ensures ErrorsOf(AllReports(env), Disconnected) == DecodeErrors(env)
  {
    if env != [] {
      var init, a := env[..|env| - 1], env[|env| - 1];
      AllErrors(init);
      AttemptErrors(init, a);
      ErrorsOfBoth(AllReports(init), [(Connecting, LastError(init))] + AttemptReports(a), Connected);
      ErrorsOfBoth(AllReports(init), [(Connecting, LastError(init))] + AttemptReports(a), Disconnected);
    }
  }

  lemma {:induction false} NoneInLeave(ending: Ending, afterBackoff: bool, err: Option<Error>)
    ensures var leave := Leave(ending, afterBackoff, err);
            ErrorsOf(leave, Connected) == [] && ErrorsOf(leave, Disconnected) == []
  {
    var bye := [(Closed, if ending == GaveUp then Some(RedialAborted) else err)];
    ErrorsOfBoth([(Connecting, err)], bye, Connected);
    ErrorsOfBoth([(Connecting, err)], bye, Disconnected);
  }

  /** There are as many changes to Connected as handshakes completed, and the changes to Disconnected carry, in
      order, exactly the decode errors of the attempts that ended in one. */
  lemma {:induction false} ConnectionsAndLosses(limit: Option<nat>, l: Loop, env: seq<Attempt>)
    requires Idle(l) && Walk(l.changes, l.state)
    ensures var r := Run(limit, Begin(l), env);
            var before, made := Shown(l.changes), Made(r, env);
            && r.attempts <= |env|
            && |ErrorsOf(Shown(r.changes), Connected)| == |ErrorsOf(before, Connected)| + HandshakesIn(made)
            && ErrorsOf(Shown(r.changes), Disconnected) == ErrorsOf(before, Disconnected) + DecodeErrors(made)
  {
    AnnouncedChangesAre(limit, l, env);
    var r := Run(limit, Begin(l), env);
    var made := env[..r.attempts];
    var leave := Leave(r.ending, r.nextCalls == r.attempts, LastError(made));
    AllErrors(made);
    NoneInLeave(r.ending, r.nextCalls == r.attempts, LastError(made));
    ErrorsOfFour(Shown(l.changes), AllReports(made), leave, Connected);
    ErrorsOfFour(Shown(l.changes), AllReports(made), leave, Disconnected);
  }

  lemma {:induction false} ErrorsOfFour(before: seq<Report>, reports: seq<Report>, leave: seq<Report>, state: ClientState)
    requires state != Started && ErrorsOf(leave, state) == []
    ensures ErrorsOf(before + [(Started, None)] + reports + leave, state) == ErrorsOf(before, state) + ErrorsOf(reports, state)
  {
    ErrorsOfBoth(before + [(Started, None)] + reports, leave, state);
    ErrorsOfBoth(before + [(Started, None)], reports, state);
    ErrorsOfBoth(before, [(Started, None)], state);
  }
}
