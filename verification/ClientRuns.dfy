/** What holds over every run of a client's Start loop. */
module ClientRuns {

  import opened Base
  import opened ClientLoop

  // ---------------------------------------------------------------------------------------------
  // The path of states

  predicate Edge(from: ClientState, to: ClientState) {
    match from
    case Unknown => to == Started
    case Started => to == Connecting
    case Connecting => to == Connecting || to == Connected || to == Closed
    case Connected => to == Disconnected || to == Connecting || to == Closed
    case Disconnected => to == Connecting || to == Closed
    case Closed => to == Started
  }

  /** The changes form one path in that graph, from Unknown to the current state. */
  ghost predicate Walk(changes: seq<Change>, state: ClientState) {
    && (changes == [] ==> state == Unknown)
    && (changes != [] ==> changes[0].previous == Unknown && changes[|changes| - 1].current == state)
    && (forall i :: 0 <= i < |changes| ==> Edge(changes[i].previous, changes[i].current))
    && (forall i :: 0 < i < |changes| ==> changes[i].previous == changes[i - 1].current)
  }

  lemma WalkOn(l: Loop, current: ClientState, error: Option<Error>)
    requires Walk(l.changes, l.state) && Edge(l.state, current)
    ensures Walk(ChangeState(l, current, error).changes, current)
  {
  }

  predicate InLoop(state: ClientState) {
    state == Started || state == Connecting || state == Connected || state == Disconnected
  }

  lemma ConnectWalks(l: Loop, a: Attempt)
    requires Walk(l.changes, l.state) && l.state == Connecting
    ensures var l' := Connect(l, a).0;
            Walk(l'.changes, l'.state) && InLoop(l'.state) && l'.state != Started && l'.ending == l.ending
  {
    if a.connection.Handshakes? {
      var l1 := l.(closed := if a.closeInHandshake then true else l.closed);
      WalkOn(l1, Connected, None);
      var l2 := ChangeState(l1, Connected, None);
      if a.connection.then_.DecodeFails? {
        WalkOn(l2, Disconnected, Some(a.connection.then_.error));
      }
    }
  }

  /** While the loop runs the client is in one of its four running states, afterwards it is closed. */
  ghost predicate Moving(l: Loop) {
    && Walk(l.changes, l.state)
    && (l.ending == Running ==> InLoop(l.state))
    && (l.ending != Running ==> l.state == Closed)
  }

  lemma FinishWalks(l: Loop)
    requires Walk(l.changes, l.state) && InLoop(l.state) && l.state != Started && l.ending == Running
    ensures Moving(FinishIfClosed(l))
  {
    if l.closed {
      WalkOn(l, Closed, l.lastErr);
    }
  }

  lemma AttemptedWalks(l: Loop, a: Attempt)
    requires Walk(l.changes, l.state) && l.state == Connecting && l.ending == Running
    ensures var l' := Attempted(l, a);
            Walk(l'.changes, l'.state) && InLoop(l'.state) && l'.state != Started && l'.ending == Running
  {
    ConnectWalks(Prepared(l, a), a);
  }

  lemma TryWalks(l: Loop, a: Attempt)
    requires Walk(l.changes, l.state) && l.state == Connecting && l.ending == Running
    ensures Moving(Try(l, a))
  {
    if a.fetchError.None? {
      AttemptedWalks(l, a);
      FinishWalks(Attempted(l, a));
    }
  }

  lemma SleepWalks(limit: Option<nat>, l: Loop, a: Attempt)
    requires Walk(l.changes, l.state) && l.state == Connecting && l.ending == Running
    ensures Moving(Sleep(limit, l, a))
    ensures Sleep(limit, l, a).ending == Running ==> Sleep(limit, l, a).state == Connecting
  {
    var l1 := l.(calls := l.calls + 1, nextCalls := l.nextCalls + 1);
    WalkOn(l1, Closed, Some(RedialAborted));
    FinishWalks(Closing(l1, a.closeEarly));
  }

  lemma IterateWalks(limit: Option<nat>, l: Loop, a: Attempt)
    requires Moving(l)
    ensures Moving(Iterate(limit, l, a))
  {
    if l.ending == Running {
      WalkOn(l, Connecting, l.lastErr);
      var l1 := ChangeState(l, Connecting, l.lastErr);
      if IsRetry(l.state) {
        SleepWalks(limit, l1, a);
        if Sleep(limit, l1, a).ending == Running {
          TryWalks(Sleep(limit, l1, a), a);
        }
      } else {
        TryWalks(Closing(l1, a.closeEarly), a);
      }
    }
  }

  /** The emitted changes are one connected path in the graph; a client whose Start has returned is ready
      for another, so the path goes on over any number of them. */
  lemma {:induction false} StatePath(limit: Option<nat>, l: Loop, env: seq<Attempt>)
    requires Idle(l) && Walk(l.changes, l.state)
    ensures var r := Run(limit, Begin(l), env);
            && Walk(r.changes, r.state)
            && (r.ending == Running <==> InLoop(r.state))
            && (r.ending != Running <==> r.state == Closed)
  {
    if env == [] {
      WalkOn(l, Started, None);
    } else {
      StatePath(limit, l, env[..|env| - 1]);
      IterateWalks(limit, Run(limit, Begin(l), env[..|env| - 1]), env[|env| - 1]);
    }
  }

  // ---------------------------------------------------------------------------------------------
  // The error each attempt hands to the next

  /** Why an attempt came to nothing. There always is a reason: neither connect nor listenControl has a
      way to return without one. */
  function ErrorOf(a: Attempt): Error {
    if a.fetchError.Some? then a.fetchError.value
    else match a.connection
      case Fails(error) => error
      case Handshakes(DecodeFails(error)) => Decoding(error)
      case Handshakes(OpenFails(error)) => error
  }

  /** The errors carried by the changes to Connecting, in order. */
  function ConnectingErrors(changes: seq<Change>): seq<Option<Error>> {
    if changes == [] then []
    else
      var init := ConnectingErrors(changes[..|changes| - 1]);
      var last := changes[|changes| - 1];
      if last.current == Connecting then init + [last.error] else init
  }

  lemma ChangeAdds(l: Loop, current: ClientState, error: Option<Error>)
    ensures ConnectingErrors(ChangeState(l, current, error).changes)
            == ConnectingErrors(l.changes) + if current == Connecting then [error] else []
  {
    var changes := ChangeState(l, current, error).changes;
    assert changes[..|changes| - 1] == l.changes;
  }

  lemma ConnectAdds(l: Loop, a: Attempt)
    requires a.fetchError.None?
    ensures var (l', err) := Connect(l, a);
            ConnectingErrors(l'.changes) == ConnectingErrors(l.changes) && err == Some(ErrorOf(a))
            && l'.nextCalls == l.nextCalls && l'.attempts == l.attempts
  {
    if a.connection.Handshakes? {
      ChangeAdds(l, Connected, None);
      var l1 := ChangeState(l, Connected, None);
      if a.connection.then_.DecodeFails? {
        ChangeAdds(l1, Disconnected, Some(a.connection.then_.error));
      }
    }
  }

  lemma FinishAdds(l: Loop)
    ensures var l' := FinishIfClosed(l);
            ConnectingErrors(l'.changes) == ConnectingErrors(l.changes)
            && l'.lastErr == l.lastErr && l'.nextCalls == l.nextCalls && l'.attempts == l.attempts
            && l'.calls == l.calls && l'.handshakes == l.handshakes
  {
    ChangeAdds(l, Closed, l.lastErr);
  }

  lemma AttemptedAdds(l: Loop, a: Attempt)
    requires a.fetchError.None?
    ensures var l' := Attempted(l, a);
            ConnectingErrors(l'.changes) == ConnectingErrors(l.changes)
            && l'.lastErr == Some(ErrorOf(a)) && l'.nextCalls == l.nextCalls && l'.attempts == l.attempts + 1
  {
    ConnectAdds(Prepared(l, a), a);
  }

  lemma TryAdds(l: Loop, a: Attempt)
    ensures var l' := Try(l, a);
            ConnectingErrors(l'.changes) == ConnectingErrors(l.changes)
            && l'.lastErr == Some(ErrorOf(a)) && l'.nextCalls == l.nextCalls && l'.attempts == l.attempts + 1
  {
    if a.fetchError.None? {
      AttemptedAdds(l, a);
      FinishAdds(Attempted(l, a));
    }
  }

  lemma SleepAdds(limit: Option<nat>, l: Loop, a: Attempt)
    ensures var l' := Sleep(limit, l, a);
            ConnectingErrors(l'.changes) == ConnectingErrors(l.changes)
            && l'.nextCalls == l.nextCalls + 1 && l'.attempts == l.attempts && l'.handshakes == l.handshakes
            && l'.calls == l.calls + 1
  {
    var l1 := l.(calls := l.calls + 1, nextCalls := l.nextCalls + 1);
    ChangeAdds(SetClosed(l1, true), Closed, Some(RedialAborted));
    FinishAdds(Closing(l1, a.closeEarly));
  }

  lemma RestAdds(limit: Option<nat>, l: Loop, previous: ClientState, a: Attempt)
    ensures var l' := Rest(limit, l, previous, a);
            && ConnectingErrors(l'.changes) == ConnectingErrors(l.changes)
            && l'.nextCalls == l.nextCalls + (if IsRetry(previous) then 1 else 0)
  {
    if IsRetry(previous) {
      SleepAdds(limit, l, a);
    }
  }

  lemma IterateAdds(limit: Option<nat>, l: Loop, a: Attempt)
    requires l.ending == Running
    ensures var l' := Iterate(limit, l, a);
            && ConnectingErrors(l'.changes) == ConnectingErrors(l.changes) + [l.lastErr]
            && l'.nextCalls == l.nextCalls + (if IsRetry(l.state) then 1 else 0)
            && (l'.ending == Running ==> l'.lastErr == Some(ErrorOf(a)))
  {
    ChangeAdds(l, Connecting, l.lastErr);
    var l1 := ChangeState(l, Connecting, l.lastErr);
    RestAdds(limit, l1, l.state, a);
    var l2 := Rest(limit, l1, l.state, a);
    if l2.ending == Running {
      TryAdds(l2, a);
    }
  }

  /** None for the first turn, then the error of the turn before. */
  function Expected(env: seq<Attempt>, turns: nat): seq<Option<Error>>
    requires turns <= |env|
  {
    seq(turns, i requires 0 <= i < turns => if i == 0 then None else Some(ErrorOf(env[i - 1])))
  }

  function Turns(r: Loop, env: seq<Attempt>): nat {
    if env == [] then 0 else r.nextCalls + 1
  }

  ghost predicate Reasoned(before: seq<Option<Error>>, r: Loop, env: seq<Attempt>) {
    && Turns(r, env) <= |env|
    && ConnectingErrors(r.changes) == before + Expected(env, Turns(r, env))
    && (r.ending == Running ==>
          Turns(r, env) == |env| && r.lastErr == (if env == [] then None else Some(ErrorOf(env[|env| - 1]))))
  }

  lemma ReasonedOn(before: seq<Option<Error>>, limit: Option<nat>, l: Loop, env: seq<Attempt>, a: Attempt)
    requires Reasoned(before, l, env) && l.ending == Running
    requires if env == [] then !IsRetry(l.state) && l.nextCalls == 0 else IsRetry(l.state)
    ensures Reasoned(before, Iterate(limit, l, a), env + [a])
  {
    IterateAdds(limit, l, a);
    ExpectedGrows(before, env, a);
  }

  lemma ExpectedGrows(before: seq<Option<Error>>, env: seq<Attempt>, a: Attempt)
    ensures before + Expected(env + [a], |env| + 1)
            == before + Expected(env, |env|) + [if env == [] then None else Some(ErrorOf(env[|env| - 1]))]
  {
    var last := [if env == [] then None else Some(ErrorOf(env[|env| - 1]))];
    assert Expected(env + [a], |env| + 1) == Expected(env, |env|) + last;
    assert before + (Expected(env, |env|) + last) == before + Expected(env, |env|) + last;
  }

  /** One change to Connecting per turn of the loop; each but the first carries the error of the attempt
      before it, and each but the first goes with exactly one call of NextBackOff. */
  lemma {:induction false} EveryRetryHasAReason(limit: Option<nat>, l: Loop, env: seq<Attempt>)
    requires Idle(l) && Walk(l.changes, l.state)
    ensures Reasoned(ConnectingErrors(l.changes), Run(limit, Begin(l), env), env)
  {
    if env == [] {
      ChangeAdds(l, Started, None);
    } else {
      var init, a := env[..|env| - 1], env[|env| - 1];
      EveryRetryHasAReason(limit, l, init);
      var p := Run(limit, Begin(l), init);
      StartedOnlyAtFirst(limit, l, init);
      assert init + [a] == env;
      if p.ending == Running {
        ReasonedOn(ConnectingErrors(l.changes), limit, p, init, a);
      } else {
        assert Expected(env, p.nextCalls + 1) == Expected(init, p.nextCalls + 1);
      }
    }
  }

  lemma {:induction false} StartedOnlyAtFirst(limit: Option<nat>, l: Loop, env: seq<Attempt>)
    requires Idle(l) && Walk(l.changes, l.state)
    ensures var r := Run(limit, Begin(l), env);
            && (env == [] ==> r.state == Started && r.nextCalls == 0 && r.ending == Running)
            && (env != [] && r.ending == Running ==> IsRetry(r.state))
  {
    if env != [] {
      var init, a := env[..|env| - 1], env[|env| - 1];
      StatePath(limit, l, init);
      NotStartedAgain(limit, Run(limit, Begin(l), init), a);
    }
  }

  lemma NotStartedAgain(limit: Option<nat>, l: Loop, a: Attempt)
    requires Moving(l)
    ensures Iterate(limit, l, a).ending == Running ==> IsRetry(Iterate(limit, l, a).state)
  {
    if l.ending == Running {
      WalkOn(l, Connecting, l.lastErr);
      var l1 := ChangeState(l, Connecting, l.lastErr);
      SleepWalks(limit, l1, a);
      var l2 := Rest(limit, l1, l.state, a);
      if l2.ending == Running {
        TryStays(l2, a);
      }
    }
  }

  lemma TryStays(l: Loop, a: Attempt)
    requires l.state == Connecting && l.ending == Running && Walk(l.changes, l.state)
    ensures Try(l, a).ending == Running ==> Try(l, a).state != Started && Try(l, a).state != Closed
  {
    if a.fetchError.None? {
      AttemptedWalks(l, a);
    }
  }

  // ---------------------------------------------------------------------------------------------
  // The attempt bound

  function HandshakesIn(env: seq<Attempt>): nat {
    if env == [] then 0
    else HandshakesIn(env[..|env| - 1]) + Gain(env[|env| - 1])
  }

  /** Attempts are paid for: one is free, and each Reset buys N more. */
  predicate Paid(n: nat, l: Loop) {
    && l.attempts <= 1 + n * l.handshakes + l.calls
    && (l.ending == Running ==> l.calls <= n)
    && (l.ending != Running ==> l.attempts <= 1 + n * (l.handshakes + 1))
  }

  function Gain(a: Attempt): nat {
    if a.fetchError.None? && a.connection.Handshakes? then 1 else 0
  }

  lemma AttemptedPays(l: Loop, a: Attempt)
    requires a.fetchError.None?
    ensures var l' := Attempted(l, a);
            && l'.attempts == l.attempts + 1 && l'.handshakes == l.handshakes + Gain(a)
            && l'.calls == (if Gain(a) == 1 then 0 else l.calls) && l'.ending == l.ending
  {
  }

  lemma TryPays(n: nat, l: Loop, a: Attempt)
    requires l.attempts <= n * l.handshakes + l.calls && l.calls <= n && l.ending == Running
    ensures Paid(n, Try(l, a))
    ensures Try(l, a).handshakes == l.handshakes + Gain(a)
  {
    TryCounts(l, a);
    Bought(n, l.handshakes);
  }

  lemma TryCounts(l: Loop, a: Attempt)
    ensures var l' := Try(l, a);
            && l'.attempts == l.attempts + 1 && l'.handshakes == l.handshakes + Gain(a)
            && l'.calls == (if Gain(a) == 1 then 0 else l.calls)
  {
    if a.fetchError.None? {
      AttemptedPays(l, a);
      FinishAdds(Attempted(l, a));
    }
  }

  lemma Bought(n: nat, h: nat)
    ensures n * (h + 1) == n * h + n && n * (h + 2) == n * h + n + n && n * h >= 0
  {
  }

  lemma IteratePays(n: nat, l: Loop, a: Attempt)
    requires Paid(n, l)
    requires l.ending == Running && !IsRetry(l.state) ==> l.attempts == 0
    ensures Paid(n, Iterate(Some(n), l, a))
    ensures Iterate(Some(n), l, a).handshakes <= l.handshakes + Gain(a)
  {
    if l.ending == Running {
      var l1 := ChangeState(l, Connecting, l.lastErr);
      assert n * (l.handshakes + 1) == n * l.handshakes + n;
      if IsRetry(l.state) {
        SleepAdds(Some(n), l1, a);
        var l2 := Sleep(Some(n), l1, a);
        if l2.ending == Running {
          TryPays(n, l2, a);
        }
      } else {
        assert 0 <= n * l.handshakes;
        TryPays(n, Closing(l1, a.closeEarly), a);
      }
    }
  }

  lemma {:induction false} AttemptsPaid(n: nat, l: Loop, env: seq<Attempt>)
    requires Idle(l) && Walk(l.changes, l.state)
    ensures Paid(n, Run(Some(n), Begin(l), env))
    ensures Run(Some(n), Begin(l), env).handshakes <= HandshakesIn(env)
    ensures env == [] ==> Run(Some(n), Begin(l), env).attempts == 0
  {
    if env != [] {
      var init := env[..|env| - 1];
      AttemptsPaid(n, l, init);
      StartedOnlyAtFirst(Some(n), l, init);
      StatePath(Some(n), l, init);
      IteratePays(n, Run(Some(n), Begin(l), init), env[|env| - 1]);
    }
  }

  /** Every turn that leaves the loop running was an attempt. */
  lemma {:induction false} TurnsAreAttempts(limit: Option<nat>, l: Loop, env: seq<Attempt>)
    requires Idle(l)
    ensures var r := Run(limit, Begin(l), env);
            r.ending == Running ==> r.attempts == |env|
  {
    if env != [] {
      TurnsAreAttempts(limit, l, env[..|env| - 1]);
      var p, a := Run(limit, Begin(l), env[..|env| - 1]), env[|env| - 1];
      var l1 := ChangeState(p, Connecting, p.lastErr);
      SleepAdds(limit, l1, a);
      TryAdds(Rest(limit, l1, p.state, a), a);
    }
  }

  /** If the backoff gives up on call N+1 since its last Reset and the environment lets at most S
      handshakes succeed, Start makes at most 1 + N * (S + 1) attempts, and it returns once that many turns
      have been possible and one more. */
  lemma {:induction false} AttemptBound(n: nat, handshakes: nat, l: Loop, env: seq<Attempt>)
    requires Idle(l) && Walk(l.changes, l.state) && HandshakesIn(env) <= handshakes
    ensures var r := Run(Some(n), Begin(l), env);
            && r.attempts <= 1 + n * (handshakes + 1)
            && (|env| > 1 + n * (handshakes + 1) ==> r.ending != Running)
  {
    var r := Run(Some(n), Begin(l), env);
    AttemptsPaid(n, l, env);
    TurnsAreAttempts(Some(n), l, env);
    PaidUpTo(n, r, handshakes);
  }

  lemma PaidUpTo(n: nat, l: Loop, handshakes: nat)
    requires Paid(n, l) && l.handshakes <= handshakes
    ensures l.attempts <= 1 + n * (handshakes + 1)
  {
    MulMonotone(n, l.handshakes + 1, handshakes + 1);
    assert n * (l.handshakes + 1) == n * l.handshakes + n;
  }

  lemma MulMonotone(n: nat, a: nat, b: nat)
    requires a <= b
    ensures n * a <= n * b
  {
    if a < b {
      MulMonotone(n, a, b - 1);
      assert n * b == n * (b - 1) + n;
    }
  }

  // ---------------------------------------------------------------------------------------------
  // The start notification

  /** The channel holds at most one notification, and no notification is ever dropped: setClosed(false)
      empties the channel and it stays empty until that attempt's handshake. */
  lemma {:induction false} NoticesNeverDropped(limit: Option<nat>, l: Loop, env: seq<Attempt>)
    requires Idle(l)
    ensures var r := Run(limit, Begin(l), env);
            r.notices <= 1 && r.dropped == 0
  {
    if env != [] {
      NoticesNeverDropped(limit, l, env[..|env| - 1]);
      var p, a := Run(limit, Begin(l), env[..|env| - 1]), env[|env| - 1];
      if p.ending == Running {
        var l1 := ChangeState(p, Connecting, p.lastErr);
        var l2 := Rest(limit, l1, p.state, a);
        assert l2.notices <= 1 && l2.dropped == 0;
        TryNotices(l2, a);
      }
    }
  }

  lemma TryNotices(l: Loop, a: Attempt)
    requires l.notices <= 1 && l.dropped == 0
    ensures Try(l, a).notices <= 1 && Try(l, a).dropped == 0
    ensures a.fetchError.None? ==>
              Try(l, a).notices == if a.connection.Handshakes? && !a.closeInHandshake && !a.readNotice then 1 else 0
  {
    if a.fetchError.None? {
      assert Prepared(l, a).notices == 0 && !Prepared(l, a).closed;
    }
  }
}
