/** How a client's Start loop ends: tunnel/client.go Start, Close and setClosed. */
module ClientEnds {

  import opened Base
  import opened ClientLoop
  import opened ClientRuns

  // ---------------------------------------------------------------------------------------------
  // The ending in terms of what the environment does

  /** Calls of NextBackOff since the last Reset, after these turns. */
  function Calls(env: seq<Attempt>): nat {
    if |env| == 0 || Gain(env[|env| - 1]) == 1 then 0
    else if |env| == 1 then 0
    else Calls(env[..|env| - 1]) + 1
  }

  /** Whether the closed flag is set after these turns, if they leave the loop running: only a failing fetch
      leaves it as it was, for whatever set it since the last check. */
  predicate Flagged(closed: bool, env: seq<Attempt>) {
    if env == [] then closed
    else
      var last := env[|env| - 1];
      last.fetchError.Some? && (last.closeInFetch || (|env| == 1 && (closed || last.closeEarly)))
  }

  /** How the turn that comes after these ends, if they leave the loop running. */
  function EndOfTurn(limit: Option<nat>, closed: bool, env: seq<Attempt>, a: Attempt): Ending {
    if env != [] && GivesUp(limit, Calls(env) + 1) then GaveUp
    else if env != [] && (Flagged(closed, env) || a.closeEarly) then WasClosed
    else if a.fetchError.None? && (a.closeInHandshake || a.closeLate) then WasClosed
    else Running
  }

  function Fate(limit: Option<nat>, closed: bool, env: seq<Attempt>): Ending {
    if env == [] then Running
    else
      var init := env[..|env| - 1];
      if Fate(limit, closed, init) != Running then Fate(limit, closed, init)
      else EndOfTurn(limit, closed, init, env[|env| - 1])
  }

  predicate EndsAborted(changes: seq<Change>) {
    && changes != []
    && changes[|changes| - 1].current == Closed
    && changes[|changes| - 1].error == Some(RedialAborted)
  }

  predicate EndsWith(changes: seq<Change>, error: Option<Error>) {
    && changes != []
    && changes[|changes| - 1].current == Closed
    && changes[|changes| - 1].error == error
  }

  lemma SleepEnds(limit: Option<nat>, l: Loop, a: Attempt)
    requires l.ending == Running
    ensures var l' := Sleep(limit, l, a);
            && l'.ending == (if GivesUp(limit, l.calls + 1) then GaveUp
                             else if l.closed || a.closeEarly then WasClosed else Running)
            && (l'.ending == GaveUp ==> l'.closed && EndsAborted(l'.changes))
            && (l'.ending == WasClosed ==> EndsWith(l'.changes, l.lastErr))
            && (l'.ending == Running ==> !l'.closed && l'.calls == l.calls + 1 && l'.state == l.state)
  {
  }

  lemma AttemptedEnds(l: Loop, a: Attempt)
    requires l.ending == Running && a.fetchError.None?
    ensures var l' := Attempted(l, a);
            && l'.ending == Running && l'.closed == (a.closeInHandshake || a.closeLate)
            && l'.calls == (if Gain(a) == 1 then 0 else l.calls) && l'.lastErr == Some(ErrorOf(a))
  {
  }

  lemma TryEnds(l: Loop, a: Attempt)
    requires l.ending == Running
    ensures var l' := Try(l, a);
            && l'.ending == (if a.fetchError.None? && (a.closeInHandshake || a.closeLate) then WasClosed else Running)
            && (l'.ending == WasClosed ==> EndsWith(l'.changes, Some(ErrorOf(a))))
            && (l'.ending == Running ==>
                  && l'.calls == (if Gain(a) == 1 then 0 else l.calls)
                  && l'.closed == (a.fetchError.Some? && (l.closed || a.closeInFetch)))
  {
    if a.fetchError.None? {
      AttemptedEnds(l, a);
    }
  }

  /** What the loop knows of these turns while it runs. */
  ghost predicate Tracks(l: Loop, closed: bool, env: seq<Attempt>) {
    && l.ending == Running && l.calls == Calls(env) && l.closed == Flagged(closed, env)
    && (IsRetry(l.state) <==> env != [])
    && l.lastErr == (if env == [] then None else Some(ErrorOf(env[|env| - 1])))
  }

  /** The turn up to the end of its backoff. */
  lemma {:induction false} RestEnds(limit: Option<nat>, l: Loop, closed: bool, env: seq<Attempt>, a: Attempt)
    requires Tracks(l, closed, env)
    ensures var l2 := Rest(limit, ChangeState(l, Connecting, l.lastErr), l.state, a);
            && l2.ending == (if env != [] && GivesUp(limit, Calls(env) + 1) then GaveUp
                             else if env != [] && (Flagged(closed, env) || a.closeEarly) then WasClosed else Running)
            && (l2.ending == GaveUp ==> l2.closed && EndsAborted(l2.changes))
            && (l2.ending == WasClosed ==> EndsWith(l2.changes, l.lastErr))
            && (l2.ending == Running ==>
                  && l2.calls == (if env == [] then 0 else Calls(env) + 1)
                  && l2.closed == (env == [] && (closed || a.closeEarly)))
  {
    if IsRetry(l.state) {
      SleepEnds(limit, ChangeState(l, Connecting, l.lastErr), a);
    }
  }

  lemma {:induction false} OneMoreTurn(closed: bool, env: seq<Attempt>, a: Attempt)
    ensures Calls(env + [a]) == if Gain(a) == 1 then 0 else if env == [] then 0 else Calls(env) + 1
    ensures Flagged(closed, env + [a])
            == (a.fetchError.Some? && (a.closeInFetch || (env == [] && (closed || a.closeEarly))))
  {
    assert (env + [a])[..|env|] == env;
  }

  lemma {:induction false} TurnEnds(limit: Option<nat>, l: Loop, closed: bool, env: seq<Attempt>, a: Attempt)
    requires Tracks(l, closed, env)
    ensures var l' := Iterate(limit, l, a);
            && l'.ending == EndOfTurn(limit, closed, env, a)
            && (l'.ending == GaveUp ==> l'.closed && EndsAborted(l'.changes))
            && (l'.ending == WasClosed ==>
                  EndsWith(l'.changes, if env != [] && (l.closed || a.closeEarly) then l.lastErr else Some(ErrorOf(a))))
            && (l'.ending == Running ==> l'.calls == Calls(env + [a]) && l'.closed == Flagged(closed, env + [a]))
  {
    RestEnds(limit, l, closed, env, a);
    OneMoreTurn(closed, env, a);
    var l2 := Rest(limit, ChangeState(l, Connecting, l.lastErr), l.state, a);
    if l2.ending == Running {
      TryEnds(l2, a);
    }
  }

  lemma TracksOn(limit: Option<nat>, l: Loop, closed: bool, env: seq<Attempt>, a: Attempt)
    requires Tracks(l, closed, env)
    requires Iterate(limit, l, a).ending == Running ==> IsRetry(Iterate(limit, l, a).state)
    ensures var l' := Iterate(limit, l, a);
            && l'.ending == EndOfTurn(limit, closed, env, a)
            && (l'.ending == Running ==> Tracks(l', closed, env + [a]))
            && (l'.ending == GaveUp ==> l'.closed && EndsAborted(l'.changes))
  {
    TurnEnds(limit, l, closed, env, a);
    IterateAdds(limit, l, a);
  }

  ghost predicate Known(limit: Option<nat>, r: Loop, closed: bool, env: seq<Attempt>) {
    && r.ending == Fate(limit, closed, env)
    && (r.ending == Running ==> Tracks(r, closed, env))
    && (r.ending == GaveUp ==> r.closed && EndsAborted(r.changes))
  }

  lemma {:induction false} KnownOn(limit: Option<nat>, l: Loop, closed: bool, env: seq<Attempt>, a: Attempt)
    requires Known(limit, l, closed, env)
    requires Iterate(limit, l, a).ending == Running ==> IsRetry(Iterate(limit, l, a).state)
    ensures Known(limit, Iterate(limit, l, a), closed, env + [a])
  {
    assert (env + [a])[..|env|] == env;
    if l.ending == Running {
      TracksOn(limit, l, closed, env, a);
    }
  }

  /** The loop ends as Fate says, whatever Close calls there are; while it runs the flag and the count are
      what the last turns make them. */
  lemma {:induction false} FateIsKnown(limit: Option<nat>, l: Loop, env: seq<Attempt>)
    requires Idle(l) && Walk(l.changes, l.state)
    ensures var r := Run(limit, Begin(l), env);
            && r.ending == Fate(limit, l.closed, env)
            && (r.ending == Running ==> Tracks(r, l.closed, env))
            && (r.ending == GaveUp ==> r.closed && EndsAborted(r.changes))
  {
    StartedOnlyAtFirst(limit, l, env);
    if env != [] {
      var init, a := env[..|env| - 1], env[|env| - 1];
      FateIsKnown(limit, l, init);
      assert init + [a] == env;
      assert Run(limit, Begin(l), env) == Iterate(limit, Run(limit, Begin(l), init), a);
      KnownOn(limit, Run(limit, Begin(l), init), l.closed, init, a);
    }
  }

  // ---------------------------------------------------------------------------------------------
  // Nobody calls Close

  predicate NobodyCloses(env: seq<Attempt>) {
    forall a :: a in env ==> !a.closeEarly && !a.closeInFetch && !a.closeInHandshake && !a.closeLate
  }

  /** The flag was set before this Start, its first fetch fails, and there is a second turn whose backoff does
      not give up on its first call. */
  predicate StaleFlagSeen(limit: Option<nat>, closed: bool, env: seq<Attempt>) {
    closed && |env| >= 2 && env[0].fetchError.Some? && !GivesUp(limit, 1)
  }

  lemma {:induction false} QuietFate(limit: Option<nat>, closed: bool, env: seq<Attempt>)
    requires NobodyCloses(env)
    ensures Fate(limit, closed, env) == WasClosed <==> StaleFlagSeen(limit, closed, env)
  {
    if env != [] {
      var init, a := env[..|env| - 1], env[|env| - 1];
      assert a in env && forall x :: x in init ==> x in env;
      QuietFate(limit, closed, init);
      if init != [] {
        assert init[|init| - 1] in env;
      }
    }
  }

  /** If nobody closes the client, Start ends without giving up exactly when it finds the flag still set from
      before: a failing first fetch does not get as far as clearing it. It then ends with the error of that
      fetch; giving up ends with ErrRedialAborted and leaves the flag set. */
  lemma {:induction false} EndsByItselfIff(limit: Option<nat>, l: Loop, env: seq<Attempt>)
    requires Idle(l) && Walk(l.changes, l.state) && NobodyCloses(env)
    ensures var r := Run(limit, Begin(l), env);
            && (r.ending == WasClosed <==> StaleFlagSeen(limit, l.closed, env))
            && (r.ending == WasClosed ==> EndsWith(r.changes, env[0].fetchError))
            && (r.ending == GaveUp ==> EndsAborted(r.changes) && r.closed)
  {
    FateIsKnown(limit, l, env);
    QuietFate(limit, l.closed, env);
    if StaleFlagSeen(limit, l.closed, env) {
      StaleFlagEnds(limit, l, env);
    }
  }

  lemma {:induction false} StaleFlagEnds(limit: Option<nat>, l: Loop, env: seq<Attempt>)
    requires Idle(l) && Walk(l.changes, l.state) && NobodyCloses(env) && StaleFlagSeen(limit, l.closed, env)
    ensures Run(limit, Begin(l), env).ending == WasClosed
    ensures EndsWith(Run(limit, Begin(l), env).changes, env[0].fetchError)
  {
    var one, two := env[..1], env[..2];
    assert two[..1] == one && one[..0] == [] && env[0] in env && env[1] in env;
    FateIsKnown(limit, l, one);
    assert Fate(limit, l.closed, []) == Running;
    assert Fate(limit, l.closed, one) == EndOfTurn(limit, l.closed, [], env[0]) == Running;
    assert Calls(one) == 0 && Flagged(l.closed, one);
    TurnEnds(limit, Run(limit, Begin(l), one), l.closed, one, env[1]);
    assert Run(limit, Begin(l), two) == Iterate(limit, Run(limit, Begin(l), one), env[1]);
    EndedStaysEnded(limit, Begin(l), env, 2);
  }

  const NEW: Loop := Loop(Unknown, false, 0, None, 0, [], 0, 0, 0, 0, Running)

  function FailingFetch(token: nat): Attempt {
    Attempt(false, Some(FetchError(token)), false, Fails(ConnectError(0)), false, false, false)
  }

  /** Such a run: the first Start gives up, the second ends with the error of a fetch, and nobody has ever
      called Close. */
  lemma RestartEndsWithAFetchError(token: nat) returns (first: seq<Attempt>, second: seq<Attempt>)
    ensures NobodyCloses(first) && NobodyCloses(second)
    ensures var r := Run(Some(1), Begin(NEW), first);
            && r.ending == GaveUp && Idle(r)
            && Run(Some(1), Begin(r), second).ending == WasClosed
            && EndsWith(Run(Some(1), Begin(r), second).changes, Some(FetchError(token)))
  {
    var f := FailingFetch(token);
    first, second := [f, f, f], [f, f];
    assert first[..2] == [f, f] && first[..2][..1] == [f] && [f][..0] == [];
    assert Calls([f]) == 0 && Calls([f, f]) == 1 by {
      assert [f, f][..1] == [f];
    }
    assert Fate(Some(1), false, [f]) == Running;
    assert Fate(Some(1), false, [f, f]) == Running by {
      assert [f, f][..1] == [f];
    }
    assert Fate(Some(1), false, first) == GaveUp;
    FateIsKnown(Some(1), NEW, first);
    StatePath(Some(1), NEW, first);
    NoticesNeverDropped(Some(1), NEW, first);
    var r := Run(Some(1), Begin(NEW), first);
    EndsByItselfIff(Some(1), r, second);
  }

  lemma {:induction false} CallsWithoutHandshakes(env: seq<Attempt>)
    requires HandshakesIn(env) == 0
    ensures Calls(env) == if env == [] then 0 else |env| - 1
  {
    if |env| > 1 {
      CallsWithoutHandshakes(env[..|env| - 1]);
    }
  }

  lemma {:induction false} GivesUpAfter(n: nat, env: seq<Attempt>)
    requires NobodyCloses(env) && HandshakesIn(env) == 0
    ensures Fate(Some(n), false, env) == if |env| <= n + 1 then Running else GaveUp
  {
    if env != [] {
      var init, a := env[..|env| - 1], env[|env| - 1];
      assert a in env && forall x :: x in init ==> x in env;
      GivesUpAfter(n, init);
      CallsWithoutHandshakes(init);
      if init != [] {
        assert init[|init| - 1] in env;
      }
    }
  }

  /** The bound on the attempts is reached: with a backoff that gives up on call N+1, and neither a handshake nor
      a Close, the loop makes exactly N+1 attempts if it has that many turns, and one turn more ends it. */
  lemma {:induction false} BoundIsReached(n: nat, l: Loop, env: seq<Attempt>)
    requires Idle(l) && Walk(l.changes, l.state) && !l.closed
    requires NobodyCloses(env) && HandshakesIn(env) == 0
    ensures var r := Run(Some(n), Begin(l), env);
            && (r.ending == GaveUp <==> |env| > n + 1) && r.ending != WasClosed
            && r.attempts == if |env| <= n + 1 then |env| else n + 1
  {
    FateIsKnown(Some(n), l, env);
    GivesUpAfter(n, env);
    if |env| <= n + 1 {
      TurnsAreAttempts(Some(n), l, env);
    } else {
      var made := env[..n + 1];
      FirstAttempts(env, n + 1);
      GivesUpAfter(n, made);
      FateIsKnown(Some(n), l, made);
      TurnsAreAttempts(Some(n), l, made);
      GivesUpAtNext(n, l, env);
    }
  }

  lemma {:induction false} FirstAttempts(env: seq<Attempt>, k: nat)
    requires k <= |env| && NobodyCloses(env) && HandshakesIn(env) == 0
    ensures NobodyCloses(env[..k]) && HandshakesIn(env[..k]) == 0
  {
    if k < |env| {
      var init := env[..|env| - 1];
      assert forall x :: x in init ==> x in env;
      FirstAttempts(init, k);
      assert init[..k] == env[..k];
    } else {
      assert env[..k] == env;
    }
  }

  /** The turn after the last attempt ends in the backoff, and nothing happens afterwards. */
  lemma {:induction false} GivesUpAtNext(n: nat, l: Loop, env: seq<Attempt>)
    requires Idle(l) && Walk(l.changes, l.state) && !l.closed
    requires NobodyCloses(env) && HandshakesIn(env) == 0 && |env| > n + 1
    ensures Run(Some(n), Begin(l), env).attempts == Run(Some(n), Begin(l), env[..n + 1]).attempts
  {
    var made, more := env[..n + 1], env[..n + 2];
    FirstAttempts(env, n + 1);
    FirstAttempts(env, n + 2);
    GivesUpAfter(n, made);
    GivesUpAfter(n, more);
    FateIsKnown(Some(n), l, made);
    FateIsKnown(Some(n), l, more);
    assert more[..n + 1] == made && more[n + 1] == env[n + 1];
    var p := Run(Some(n), Begin(l), made);
    GivingUpIsNoAttempt(n, p, env[n + 1]);
    EndedStaysEnded(Some(n), Begin(l), env, n + 2);
  }

  lemma GivingUpIsNoAttempt(n: nat, l: Loop, a: Attempt)
    requires l.ending == Running && Iterate(Some(n), l, a).ending == GaveUp
    ensures Iterate(Some(n), l, a).attempts == l.attempts
  {
    var l1 := ChangeState(l, Connecting, l.lastErr);
    if IsRetry(l.state) {
      SleepEnds(Some(n), l1, a);
      if Sleep(Some(n), l1, a).ending == Running {
        TryEnds(Sleep(Some(n), l1, a), a);
      } else {
        SleepAdds(Some(n), l1, a);
      }
    } else {
      TryEnds(Closing(l1, a.closeEarly), a);
    }
  }

  // ---------------------------------------------------------------------------------------------
  // One call of Close

  /** Where in a turn the call falls. */
  datatype Point = Early | InFetch | InHandshake | Late

  function WithClose(a: Attempt, p: Point): Attempt {
    a.(closeEarly := p == Early, closeInFetch := p == InFetch,
       closeInHandshake := p == InHandshake, closeLate := p == Late)
  }

  /** The backoff gives up in the turn after the first k. */
  predicate GivesUpIn(limit: Option<nat>, before: seq<Attempt>, k: nat)
    requires k <= |before|
  {
    GivesUp(limit, Calls(before[..k]) + 1)
  }

  /** In none of these turns but the first, nor in the next one, does the backoff give up. */
  predicate NoneGivesUp(limit: Option<nat>, before: seq<Attempt>) {
    forall k :: 0 < k <= |before| ==> !GivesUpIn(limit, before, k)
  }

  /** The backoff gives up neither before the turn nor in it, and the call falls where a check comes before
      setClosed(false): in this turn, or after a failing fetch in the next one, if there is one and the
      backoff does not give up in that. */
  predicate TakesEffect(limit: Option<nat>, before: seq<Attempt>, a: Attempt, p: Point, after: seq<Attempt>) {
    var nextTurnChecks := a.fetchError.Some? && after != [] && !GivesUp(limit, Calls(before + [a]) + 1);
    && NoneGivesUp(limit, before)
    && match p
       case Early => before != [] || nextTurnChecks
       case InFetch => nextTurnChecks
       case InHandshake => a.fetchError.None?
       case Late => a.fetchError.None?
  }

  /** Without any call the loop gets through these turns unless the backoff gives up or an old flag is seen. */
  lemma {:induction false} QuietRuns(limit: Option<nat>, closed: bool, env: seq<Attempt>)
    requires NobodyCloses(env)
    ensures Fate(limit, closed, env) == Running
            <==> (env == [] || NoneGivesUp(limit, env[..|env| - 1])) && !StaleFlagSeen(limit, closed, env)
  {
    if env != [] {
      var init, a := env[..|env| - 1], env[|env| - 1];
      assert a in env && forall x :: x in init ==> x in env;
      QuietRuns(limit, closed, init);
      if init != [] {
        NoneGivesUpMore(limit, init);
        QuietTurn(limit, closed, init, a);
      }
    }
  }

  lemma {:induction false} NoneGivesUpMore(limit: Option<nat>, env: seq<Attempt>)
    requires env != []
    ensures NoneGivesUp(limit, env) <==> NoneGivesUp(limit, env[..|env| - 1]) && !GivesUp(limit, Calls(env) + 1)
  {
    var init := env[..|env| - 1];
    forall k | 0 < k <= |init| ensures GivesUpIn(limit, env, k) == GivesUpIn(limit, init, k) {
      assert init[..k] == env[..k];
    }
    assert GivesUpIn(limit, env, |env|) == GivesUp(limit, Calls(env) + 1) by {
      assert env[..|env|] == env;
    }
  }

  lemma {:induction false} QuietTurn(limit: Option<nat>, closed: bool, init: seq<Attempt>, a: Attempt)
    requires init != [] && NobodyCloses(init + [a])
    ensures EndOfTurn(limit, closed, init, a) == Running
            <==> !GivesUp(limit, Calls(init) + 1) && !(|init| == 1 && closed && init[0].fetchError.Some?)
    ensures |init| == 1 ==> Calls(init) == 0
  {
    assert a in init + [a] && forall x :: x in init ==> x in init + [a];
    assert init[|init| - 1] in init;
  }

  lemma {:induction false} CallsIgnoreClose(before: seq<Attempt>, a: Attempt, p: Point)
    ensures Calls(before + [WithClose(a, p)]) == Calls(before + [a])
  {
    assert (before + [a])[..|before|] == before;
    assert (before + [WithClose(a, p)])[..|before|] == before;
  }

  /** After the turn of the call only the very next check can see it. */
  lemma {:induction false} FateAfter(limit: Option<nat>, closed: bool, env: seq<Attempt>, after: seq<Attempt>)
    requires env != [] && NobodyCloses(after)
    ensures Fate(limit, closed, env + after) == WasClosed
            <==> Fate(limit, closed, env) == WasClosed
                 || (Fate(limit, closed, env) == Running && Flagged(closed, env) && after != []
                     && !GivesUp(limit, Calls(env) + 1))
  {
    if after == [] {
      assert env + after == env;
    } else {
      var init, a := after[..|after| - 1], after[|after| - 1];
      var all := env + after;
      assert all[..|all| - 1] == env + init && all[|all| - 1] == a;
      assert a in after && forall x :: x in init ==> x in after;
      FateAfter(limit, closed, env, init);
      if init == [] {
        assert env + init == env;
      } else {
        assert (env + init)[|env + init| - 1] == init[|init| - 1] && init[|init| - 1] in after;
        assert !Flagged(closed, env + init);
      }
    }
  }

  lemma {:induction false} TurnOfTheCall(limit: Option<nat>, closed: bool, before: seq<Attempt>, a: Attempt, p: Point)
    requires NobodyCloses(before)
    ensures var env := before + [WithClose(a, p)];
            && Fate(limit, closed, env)
               == (if Fate(limit, closed, before) != Running then Fate(limit, closed, before)
                   else EndOfTurn(limit, closed, before, WithClose(a, p)))
            && Flagged(closed, env) == (a.fetchError.Some? && (p == InFetch || (before == [] && (closed || p == Early))))
            && Flagged(closed, before) == (closed && (before == [] || (|before| == 1 && before[0].fetchError.Some?)))
  {
    var env := before + [WithClose(a, p)];
    assert env[..|env| - 1] == before;
    if before != [] {
      assert before[|before| - 1] in before;
    }
  }

  /** One call of Close, in whichever Start, turn and point of it: that Start ends by finding the flag set
      exactly when the call takes effect or the flag was left from before and is seen; otherwise the call is
      overwritten, or the loop gave up before it could take effect. */
  lemma {:induction false} CloseEndsStartIff(limit: Option<nat>, l: Loop, before: seq<Attempt>, a: Attempt, p: Point,
                                             after: seq<Attempt>)
    requires Idle(l) && Walk(l.changes, l.state)
    requires NobodyCloses(before) && NobodyCloses(after)
    ensures var env := before + [WithClose(a, p)] + after;
            Run(limit, Begin(l), env).ending == WasClosed
            <==> TakesEffect(limit, before, a, p, after) || StaleFlagSeen(limit, l.closed, env)
  {
    var env := before + [WithClose(a, p)];
    FateIsKnown(limit, l, env + after);
    FateAfter(limit, l.closed, env, after);
    QuietFate(limit, l.closed, before);
    TurnOfTheCall(limit, l.closed, before, a, p);
    CallsIgnoreClose(before, a, p);
    UpToTheTurn(limit, l.closed, before);
    assert (env + after)[0] == env[0];
  }

  lemma {:induction false} UpToTheTurn(limit: Option<nat>, closed: bool, before: seq<Attempt>)
    requires NobodyCloses(before)
    ensures NoneGivesUp(limit, before) && !StaleFlagSeen(limit, closed, before)
            <==> Fate(limit, closed, before) == Running && !(before != [] && GivesUp(limit, Calls(before) + 1))
  {
    QuietRuns(limit, closed, before);
    if before != [] {
      NoneGivesUpMore(limit, before);
    }
  }

  function FailingDial(token: nat): Attempt {
    Attempt(false, None, false, Fails(ConnectError(token)), false, false, false)
  }

  function FailingDials(k: nat): seq<Attempt> {
    seq(k, _ => FailingDial(0))
  }

  lemma {:induction false} ForeverRuns(closed: bool, env: seq<Attempt>)
    requires forall i :: 0 <= i < |env| ==> !env[i].closeEarly && !env[i].closeInHandshake && !env[i].closeLate
    requires forall i :: 0 <= i < |env| ==> env[i].fetchError.None?
    ensures Fate(None, closed, env) == Running
  {
    if env != [] {
      ForeverRuns(closed, env[..|env| - 1]);
    }
  }

  /** A call that is overwritten: it falls between the fetches and setClosed(false) of the first turn, and the
      loop goes on for as many turns as one likes. */
  lemma CloseOverwritten(k: nat)
    ensures var env := [WithClose(FailingDial(0), InFetch)] + FailingDials(k);
            Run(None, Begin(NEW), env).ending == Running && Run(None, Begin(NEW), env).attempts == k + 1
  {
    var env := [WithClose(FailingDial(0), InFetch)] + FailingDials(k);
    ForeverRuns(false, env);
    FateIsKnown(None, NEW, env);
    TurnsAreAttempts(None, NEW, env);
  }
}
