/** The life of a client: tunnel/client.go Start, connect, listenControl, changeState, setClosed and
    startNotifyIfNeeded.

    What the loop cannot decide itself comes as an Attempt per iteration: whether the fetch functions, the
    connection and the control stream fail, and where concurrent calls of Close and reads of the start
    notification fall. A run is any finite sequence of attempts, so what holds of every run holds of every
    moment of an endless one. */
module ClientLoop {

  import opened Base

  datatype Error =
    | FetchError(token: nat)
    | ConnectError(token: nat)
    | DecodeError(token: nat)
    | Decoding(inner: Error)
    | OpenError(token: nat)
    | RedialAborted

  datatype Change = Change(previous: ClientState, current: ClientState, error: Option<Error>)

  /** How the message loop ends: a message cannot be decoded, or a stream cannot be opened. */
  datatype Listened = DecodeFails(error: Error) | OpenFails(error: Error)

  datatype Connection = Fails(error: Error) | Handshakes(then_: Listened)

  datatype Attempt = Attempt(
    closeEarly: bool,         // Close between the change to Connecting and the check after the backoff; in a
                              // first turn, where there is neither, between that change and the fetches
    fetchError: Option<Error>,
    closeInFetch: bool,       // Close after that check and before setClosed(false)
    connection: Connection,
    closeInHandshake: bool,   // Close between setClosed(false) and the start notification
    readNotice: bool,         // somebody reads the start notification
    closeLate: bool)          // Close after the start notification, before the last check

  datatype Ending = Running | GaveUp | WasClosed

  /** The client's fields with, for the proofs, what has happened in this Start: calls of NextBackOff,
      attempts made, handshakes completed, notifications dropped. `calls` counts since the last Reset. */
  datatype Loop = Loop(
    state: ClientState,
    closed: bool,
    notices: nat,
    lastErr: Option<Error>,
    calls: nat,
    changes: seq<Change>,
    nextCalls: nat,
    attempts: nat,
    handshakes: nat,
    dropped: nat,
    ending: Ending)

  function ChangeState(l: Loop, current: ClientState, error: Option<Error>): Loop {
    l.(state := current, changes := l.changes + [Change(l.state, current, error)])
  }

  predicate IsRetry(state: ClientState) {
    state != Started && state != Closed
  }

  function SetClosed(l: Loop, closed: bool): Loop {
    l.(closed := closed, notices := if !closed && l.notices > 0 then l.notices - 1 else l.notices)
  }

  function Closing(l: Loop, close: bool): Loop {
    if close then SetClosed(l, true) else l
  }

  /** The channel has room for one notification; a second one is dropped. */
  function StartNotifyIfNeeded(l: Loop): Loop {
    if l.closed then l
    else if l.notices < 1 then l.(notices := l.notices + 1)
    else l.(dropped := l.dropped + 1)
  }

  function ListenControl(l: Loop, end: Listened): (Loop, Option<Error>) {
    var l1 := ChangeState(l, Connected, None);
    match end
    case DecodeFails(error) => (ChangeState(l1, Disconnected, Some(error)), Some(Decoding(error)))
    case OpenFails(error) => (l1, Some(error))
  }

  function Connect(l: Loop, a: Attempt): (Loop, Option<Error>) {
    match a.connection
    case Fails(error) => (Closing(l, a.closeInHandshake), Some(error))
    case Handshakes(end) =>
      var l1 := Closing(l, a.closeInHandshake).(calls := 0, handshakes := l.handshakes + 1);
      var l2 := StartNotifyIfNeeded(l1);
      var l3 := l2.(notices := if a.readNotice && l2.notices > 0 then l2.notices - 1 else l2.notices);
      ListenControl(l3, end)
  }

  function FinishIfClosed(l: Loop): Loop {
    if l.closed then ChangeState(l, Closed, l.lastErr).(ending := WasClosed) else l
  }

  function Remember(l: Loop, err: Option<Error>): Loop {
    if err.Some? then l.(lastErr := err) else l
  }

  /** Just before connect: setClosed(false) overwrites a Close that came during the fetches. */
  function Prepared(l: Loop, a: Attempt): Loop {
    SetClosed(Closing(l, a.closeInFetch).(attempts := l.attempts + 1), false)
  }

  /** Just before the last check. */
  function Attempted(l: Loop, a: Attempt): Loop {
    var (l1, err) := Connect(Prepared(l, a), a);
    Closing(Remember(l1, err), a.closeLate)
  }

  /** The loop body after the backoff. */
  function Try(l: Loop, a: Attempt): Loop {
    if a.fetchError.Some? then Closing(l, a.closeInFetch).(attempts := l.attempts + 1, lastErr := a.fetchError)
    else FinishIfClosed(Attempted(l, a))
  }

  predicate GivesUp(limit: Option<nat>, calls: nat) {
    limit.Some? && calls > limit.value
  }

  /** The backoff and the check that follows it. */
  function Sleep(limit: Option<nat>, l: Loop, a: Attempt): Loop {
    var l1 := l.(calls := l.calls + 1, nextCalls := l.nextCalls + 1);
    if GivesUp(limit, l1.calls) then
      ChangeState(SetClosed(l1, true), Closed, Some(RedialAborted)).(ending := GaveUp)
    else FinishIfClosed(Closing(l1, a.closeEarly))
  }

  /** The backoff, which a first turn goes without. */
  function Rest(limit: Option<nat>, l: Loop, previous: ClientState, a: Attempt): Loop {
    if IsRetry(previous) then Sleep(limit, l, a) else Closing(l, a.closeEarly)
  }

  /** One turn of the loop; nothing happens once it has ended. The backoff turns negative on call N+1
      since its last Reset when limit is Some(N), and never when it is None. */
  function Iterate(limit: Option<nat>, l: Loop, a: Attempt): Loop {
    if l.ending != Running then l
    else
      var l2 := Rest(limit, ChangeState(l, Connecting, l.lastErr), l.state, a);
      if l2.ending != Running then l2 else Try(l2, a)
  }

  function Begin(l: Loop): Loop {
    ChangeState(l, Started, None).(lastErr := None, calls := 0, nextCalls := 0, attempts := 0, handshakes := 0,
                                   dropped := 0, ending := Running)
  }

  function Run(limit: Option<nat>, l: Loop, env: seq<Attempt>): Loop {
    if env == [] then l else Iterate(limit, Run(limit, l, env[..|env| - 1]), env[|env| - 1])
  }

  /** A client that is not running: new, or ended by an earlier Start. */
  predicate Idle(l: Loop) {
    (l.state == Unknown || l.state == Closed) && l.notices <= 1
  }

  // ---------------------------------------------------------------------------------------------
  // The objects

  class Backoff {
    const limit: Option<nat>
    var calls: nat

    constructor (limit: Option<nat>)
      ensures this.limit == limit && calls == 0
    {
      this.limit, calls := limit, 0;
    }

    method Reset()
      modifies this
      ensures calls == 0
    {
      calls := 0;
    }

    method NextBackOff() returns (duration: int)
      modifies this
      ensures calls == old(calls) + 1
      ensures duration < 0 <==> GivesUp(limit, calls)
    {
      calls := calls + 1;
      if GivesUp(limit, calls) {
        duration := -1;
      } else {
        duration :| duration >= 0;
      }
    }
  }

  class Client {
    const backoff: Backoff
    var state: ClientState
    var closed: bool
    var notices: nat
    var changes: seq<Change>
    var lastErr: Option<Error>       // Start's local variable of that name
    ghost var nextCalls: nat
    ghost var attempts: nat
    ghost var handshakes: nat
    ghost var dropped: nat
    var ending: Ending

    constructor (backoff: Backoff)
      ensures this.backoff == backoff
      ensures Idle(Model())
    {
      this.backoff := backoff;
      state, closed, notices, changes := Unknown, false, 0, [];
      lastErr, nextCalls, attempts, handshakes, dropped, ending := None, 0, 0, 0, 0, Running;
    }

    ghost function Model(): Loop
      reads this, backoff
    {
      Loop(state, closed, notices, lastErr, backoff.calls, changes, nextCalls, attempts, handshakes, dropped, ending)
    }

    method ChangeStateTo(current: ClientState, error: Option<Error>) returns (previous: ClientState)
      modifies this`state, this`changes
      ensures previous == old(state) && Model() == ChangeState(old(Model()), current, error)
    {
      previous := state;
      changes := changes + [Change(previous, current, error)];
      state := current;
    }

    method SetClosedTo(value: bool)
      modifies this`closed, this`notices
      ensures Model() == SetClosed(old(Model()), value)
    {
      closed := value;
      if !value && notices > 0 {
        notices := notices - 1;
      }
    }

    /** A concurrent Close, if there is one at this point. */
    method MaybeClose(close: bool)
      modifies this`closed, this`notices
      ensures Model() == Closing(old(Model()), close)
    {
      if close {
        SetClosedTo(true);
      }
    }

    method NotifyStart()
      modifies this`notices, this`dropped
      ensures Model() == StartNotifyIfNeeded(old(Model()))
    {
      if !closed {
        if notices < 1 {
          notices := notices + 1;
        } else {
          dropped := dropped + 1;
        }
      }
    }

    method Listen(end: Listened) returns (err: Option<Error>)
      modifies this`state, this`changes
      ensures (Model(), err) == ListenControl(old(Model()), end)
    {
      var _ := ChangeStateTo(Connected, None);
      match end {
        case DecodeFails(error) =>
          var _ := ChangeStateTo(Disconnected, Some(error));
          return Some(Decoding(error));
        case OpenFails(error) =>
          return Some(error);
      }
    }

    method ConnectOnce(a: Attempt) returns (err: Option<Error>)
      modifies this`state, this`closed, this`notices, this`changes, this`handshakes, this`dropped, backoff
      ensures (Model(), err) == Connect(old(Model()), a)
    {
      MaybeClose(a.closeInHandshake);
      match a.connection {
        case Fails(error) =>
          return Some(error);
        case Handshakes(end) =>
          backoff.Reset();
          handshakes := handshakes + 1;
          NotifyStart();
          if a.readNotice && notices > 0 {
            notices := notices - 1;
          }
          err := Listen(end);
      }
    }

    method ExitIfClosed()
      modifies this`state, this`changes, this`ending
      ensures Model() == FinishIfClosed(old(Model()))
    {
      if closed {
        var _ := ChangeStateTo(Closed, lastErr);
        ending := WasClosed;
      }
    }

    method Prepare(a: Attempt)
      modifies this`closed, this`notices, this`attempts
      ensures Model() == Prepared(old(Model()), a)
    {
      MaybeClose(a.closeInFetch);
      attempts := attempts + 1;
      SetClosedTo(false);
    }

    method AttemptOnce(a: Attempt)
      modifies this`state, this`closed, this`notices, this`changes, this`handshakes, this`dropped, this`attempts,
               this`lastErr, backoff
      ensures Model() == Attempted(old(Model()), a)
    {
      Prepare(a);
      ghost var prepared := Model();
      var err := ConnectOnce(a);
      ghost var l := Model();
      assert (l, err) == Connect(prepared, a);
      if err.Some? {
        lastErr := err;
      }
      assert Model() == Remember(l, err);
      MaybeClose(a.closeLate);
    }

    method TryOnce(a: Attempt)
      modifies this, backoff
      ensures Model() == Try(old(Model()), a)
    {
      if a.fetchError.Some? {
        MaybeClose(a.closeInFetch);
        attempts := attempts + 1;
        lastErr := a.fetchError;
        return;
      }
      AttemptOnce(a);
      ExitIfClosed();
    }

    method SleepOnce(a: Attempt)
      modifies this, backoff
      ensures Model() == Sleep(backoff.limit, old(Model()), a)
    {
      nextCalls := nextCalls + 1;
      var duration := backoff.NextBackOff();
      if duration < 0 {
        SetClosedTo(true);
        var _ := ChangeStateTo(Closed, Some(RedialAborted));
        ending := GaveUp;
      } else {
        MaybeClose(a.closeEarly);
        ExitIfClosed();
      }
    }

    /** Runs until the loop returns, or for as long as the environment lasts. */
    method Start(env: seq<Attempt>)
      modifies this, backoff
      ensures Model() == Run(backoff.limit, Begin(old(Model())), env)
    {
      ghost var begin := Begin(Model());
      var _ := ChangeStateTo(Started, None);
      backoff.Reset();
      lastErr, nextCalls, attempts, handshakes, dropped, ending := None, 0, 0, 0, 0, Running;
      var i := 0;
      while i < |env| && ending == Running
        invariant 0 <= i <= |env|
        invariant Model() == Run(backoff.limit, begin, env[..i])
      {
        ghost var was := Model();
        var prev := ChangeStateTo(Connecting, lastErr);
        if IsRetry(prev) {
          SleepOnce(env[i]);
        } else {
          MaybeClose(env[i].closeEarly);
        }
        if ending == Running {
          TryOnce(env[i]);
        }
        assert env[..i + 1][..i] == env[..i];
        assert Model() == Iterate(backoff.limit, was, env[i]);
        i := i + 1;
      }
      if i < |env| {
        EndedStaysEnded(backoff.limit, begin, env, i);
      } else {
        assert env[..i] == env;
      }
    }
  }

  lemma {:induction false} EndedStaysEnded(limit: Option<nat>, l: Loop, env: seq<Attempt>, i: nat)
    requires i <= |env| && Run(limit, l, env[..i]).ending != Running
    ensures Run(limit, l, env) == Run(limit, l, env[..i])
  {
    if i == |env| {
      assert env[..i] == env;
    } else {
      var init := env[..|env| - 1];
      assert init[..i] == env[..i];
      EndedStaysEnded(limit, l, init, i);
    }
  }
}
