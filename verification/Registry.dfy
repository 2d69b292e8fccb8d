/** The server's tables and the handlers that change them, one handler run at a time.

    Here one control request, one control message loop that ends, and one dial are single steps; LockLevel
    splits the same code into its critical sections. Sources: tunnel/server.go (checkConnect,
    controlHandler, listenControl, dial, deleteSession, changeState) and tunnel/util.go (callbacks). */
module Registry {

  import opened Base
  import opened VirtualHosts
  import opened Admission

  datatype Failure = NoHost | ControlExists | CannotHijack | AfterHijack | ConnectionLost

  /** A change offered to the StateChanges channel. */
  datatype Change = Change(identifier: string, previous: ClientState, current: ClientState, error: Option<Failure>)

  /** A registered one-shot callback; Nil is a nil function. */
  datatype Callback = Nil | Fn(token: nat)

  /** A running listenControl goroutine: Spawned until it has run onConnect. */
  datatype Phase = Spawned | Listening
  datatype Listener = Listener(identifier: string, phase: Phase)

  datatype State = State(
    hosts: Mapping,
    sessions: map<string, SessionId>,
    controls: map<string, ControlId>,
    states: map<string, ClientState>,
    listeners: map<ControlId, Listener>,
    onConnect: map<string, Callback>,
    onDisconnect: map<string, Callback>,
    changes: seq<Change>,
    called: seq<(string, Callback)>)

  const EMPTY: State := State(map[], map[], map[], map[], map[], map[], map[], [], [])

  // ---------------------------------------------------------------------------------------------
  // Pieces shared by the handlers

  function StateOf(s: State, id: string): ClientState {
    if id in s.states then s.states[id] else Unknown
  }

  function ChangeState(s: State, id: string, current: ClientState, error: Option<Failure>): State {
    s.(states := s.states[id := current],
       changes := s.changes + [Change(id, StateOf(s, id), current, error)])
  }

  /** Popping removes the callback even when it is nil; a nil one is reported, not called. */
  function Call(called: seq<(string, Callback)>, funcs: map<string, Callback>, id: string): seq<(string, Callback)> {
    if id in funcs && funcs[id].Fn? then called + [(id, funcs[id])] else called
  }

  function OnConnect(s: State, id: string): State {
    ChangeState(s.(onConnect := s.onConnect - {id}, called := Call(s.called, s.onConnect, id)), id, Connected, None)
  }

  function OnDisconnect(s: State, id: string, why: Failure): State {
    ChangeState(s.(onDisconnect := s.onDisconnect - {id}, called := Call(s.called, s.onDisconnect, id)),
                id, Closed, Some(why))
  }

  /** Does nothing without a session; otherwise the session goes, and the host with it. */
  ghost function DeleteSession(s: State, id: string): State {
    if id !in s.sessions then s
    else
      var host := HostOf(s.hosts, id);
      s.(sessions := s.sessions - {id},
         hosts := if host.Some? then Released(s.hosts, host.value) else s.hosts)
  }

  // ---------------------------------------------------------------------------------------------
  // The control handler

  /** Where controlHandler fails once no other control is registered, if it does: the response writer cannot
      be hijacked, hijacking fails, writing the response, clearing the deadline, starting the session, the
      client's stream fails or does not come in time, reading its handshake, the handshake itself, answering
      it. */
  datatype Outcome =
    | NoHijacker | HijackFails
    | WriteFails | DeadlineFails | SessionFails
    | AcceptFails | AcceptTimesOut | ReadFails | BadHandshake | ReplyFails
    | Succeeds

  predicate NotHijacked(out: Outcome) {
    out.NoHijacker? || out.HijackFails?
  }

  predicate FailsBeforeSession(out: Outcome) {
    out.WriteFails? || out.DeadlineFails? || out.SessionFails?
  }

  predicate FailsAfterSession(out: Outcome) {
    out.AcceptFails? || out.AcceptTimesOut? || out.ReadFails? || out.BadHandshake? || out.ReplyFails?
  }

  datatype Reply =
    | HttpError(status: nat)
    | Tunnel
    | Dropped(rawConnClosed: bool)

  const HOST_IN_USE: nat := 409
  const BAD_GATEWAY: nat := 502

  /** The connection the request came on, as the handler leaves it. */
  datatype Raw = Http | Taken | Shut

  /** controlHandler under way: `deferred` says that the cleanup function is registered. */
  datatype Progress = Progress(s: State, raw: Raw, deferred: bool)

  function StoreSession(p: Progress, id: string, session: SessionId): Progress {
    p.(s := p.s.(sessions := p.s.sessions[id := session]))
  }

  function SetUpControl(p: Progress, id: string, ctl: ControlId): Progress {
    p.(s := p.s.(controls := p.s.controls[id := ctl], listeners := p.s.listeners[ctl := Listener(id, Spawned)]))
  }

  /** Returning runs the deferred function, which acts on an error only. */
  ghost function Return(p: Progress, id: string, err: Option<Failure>): (State, Raw, Option<Failure>) {
    if p.deferred && err.Some? then (DeleteSession(p.s, id), Shut, err) else (p.s, p.raw, err)
  }

  /** From the hijacked connection on. */
  ghost function Handshake(p: Progress, id: string, out: Outcome, session: SessionId, ctl: ControlId)
    : (State, Raw, Option<Failure>)
  {
    if FailsBeforeSession(out) then Return(p, id, Some(AfterHijack))
    else
      var stored := StoreSession(p, id, session).(deferred := true);
      if FailsAfterSession(out) then Return(stored, id, Some(AfterHijack))
      else Return(SetUpControl(stored, id, ctl), id, None)
  }

  ghost function ControlHandler(s: State, id: string, out: Outcome, session: SessionId, ctl: ControlId)
    : (State, Raw, Option<Failure>)
  {
    if HostOf(s.hosts, id).None? then (s, Http, Some(NoHost))
    else if id in s.controls then
      (DeleteSession(s.(controls := s.controls - {id}), id), Http, Some(ControlExists))
    else if NotHijacked(out) then (s, Http, Some(CannotHijack))
    else Handshake(Progress(s, Taken, false), id, out, session, ctl)
  }

  /** checkConnect: the tests, the claim on the host, then the handler. */
  ghost function Connect(lib: Library, cfg: ServerConfig, s: State, req: ControlRequest, out: Outcome,
                         session: SessionId, ctl: ControlId)
    : (State, Reply)
  {
    var id := req.identifier;
    match Judge(lib, cfg, req)
    case Refused(why) => (s, HttpError(Status(why)))
    case Admitted(domain, rules) =>
      if InUseByAnother(s.hosts, domain, id) then (s, HttpError(HOST_IN_USE))
      else
        var (s', raw, err) := ControlHandler(s.(hosts := Claimed(s.hosts, domain, id, rules)), id, out, session, ctl);
        if err.None? then (s', Tunnel)
        else
          (if id != "" then OnDisconnect(s', id, err.value) else s',
           if err == Some(AfterHijack) then Dropped(raw == Shut) else HttpError(BAD_GATEWAY))
  }

  // ---------------------------------------------------------------------------------------------
  // The listener and dial

  function ListenerStarts(s: State, id: string, ctl: ControlId): State {
    OnConnect(s.(listeners := s.listeners[ctl := Listener(id, Listening)]), id)
  }

  /** The cleanup goes by identifier, so it removes whatever is registered by then. */
  ghost function ListenerEnds(s: State, id: string, ctl: ControlId): State {
    OnDisconnect(DeleteSession(s.(listeners := s.listeners - {ctl}, controls := s.controls - {id}), id),
                 id, ConnectionLost)
  }

  datatype DialReply = NoControl | NoSession | SendFailed | Asked(session: SessionId)

  /** dial up to the point where it waits for the client's stream; DialMatching takes over there. */
  function Dial(s: State, id: string, sent: bool): (State, DialReply) {
    if id !in s.controls then (s, NoControl)
    else if id !in s.sessions then (s, NoSession)
    else if !sent then (s.(controls := s.controls - {id}), SendFailed)
    else (s, Asked(s.sessions[id]))
  }

  // ---------------------------------------------------------------------------------------------
  // Runs

  datatype Event =
    | ConnectEvent(req: ControlRequest, out: Outcome, session: SessionId, ctl: ControlId)
    | StartEvent(id: string, ctl: ControlId)
    | EndEvent(id: string, ctl: ControlId)
    | DialEvent(id: string, sent: bool)
    | OnConnectEvent(id: string, callback: Callback)
    | OnDisconnectEvent(id: string, callback: Callback)

  function Subject(e: Event): string {
    match e
    case ConnectEvent(req, _, _, _) => req.identifier
    case StartEvent(id, _) => id
    case EndEvent(id, _) => id
    case DialEvent(id, _) => id
    case OnConnectEvent(id, _) => id
    case OnDisconnectEvent(id, _) => id
  }

  ghost function Next(lib: Library, cfg: ServerConfig, s: State, e: Event): State {
    match e
    case ConnectEvent(req, out, session, ctl) => Connect(lib, cfg, s, req, out, session, ctl).0
    case StartEvent(id, ctl) => ListenerStarts(s, id, ctl)
    case EndEvent(id, ctl) => ListenerEnds(s, id, ctl)
    case DialEvent(id, sent) => Dial(s, id, sent).0
    case OnConnectEvent(id, callback) => s.(onConnect := s.onConnect[id := callback])
    case OnDisconnectEvent(id, callback) => s.(onDisconnect := s.onDisconnect[id := callback])
  }

  /** A new control is a new object, and only running goroutines act. */
  predicate Enabled(s: State, e: Event) {
    match e
    case ConnectEvent(_, _, _, ctl) => ctl !in s.listeners
    case StartEvent(id, ctl) => ctl in s.listeners && s.listeners[ctl] == Listener(id, Spawned)
    case EndEvent(id, ctl) => ctl in s.listeners && s.listeners[ctl] == Listener(id, Listening)
    case DialEvent(_, _) => true
    case OnConnectEvent(_, _) => true
    case OnDisconnectEvent(_, _) => true
  }

  ghost function After(lib: Library, cfg: ServerConfig, s: State, es: seq<Event>): State
  {
    if es == [] then s else Next(lib, cfg, After(lib, cfg, s, es[..|es| - 1]), es[|es| - 1])
  }

  ghost predicate IsRun(lib: Library, cfg: ServerConfig, s: State, es: seq<Event>) {
    es == [] ||
    (IsRun(lib, cfg, s, es[..|es| - 1]) && Enabled(After(lib, cfg, s, es[..|es| - 1]), es[|es| - 1]))
  }

  lemma {:induction false} OneMoreEvent(lib: Library, cfg: ServerConfig, s: State, es: seq<Event>, e: Event)
    ensures After(lib, cfg, s, es + [e]) == Next(lib, cfg, After(lib, cfg, s, es), e)
    ensures IsRun(lib, cfg, s, es) && Enabled(After(lib, cfg, s, es), e) ==> IsRun(lib, cfg, s, es + [e])
  {
    assert (es + [e])[..|es|] == es;
  }
}
