/** The same handlers one critical section at a time.

    Every thread runs the code of checkConnect and controlHandler, of listenControl, or of dial, and any
    thread may run between two of its sections. deleteSession keeps the lock of the session table while it
    takes the lock of the host table twice. Sources: tunnel/server.go, tunnel/control.go. */
module LockLevel {

  import opened Base
  import opened VirtualHosts
  import opened Admission

  type Tid = nat

  datatype Role = Connector(req: ControlRequest, domain: string, rules: seq<Rule>) | Listener(ctl: ControlId) | Dialer

  /** The section a thread runs next. */
  datatype Section =
    | AddHost | GetHost | GetControl                         // checkConnect, controlHandler
    | Hijack | AddSession | Handshake | AddControl
    | GetSession(ctl: ControlId) | Send(ctl: ControlId)      // dial
    | OnConnect | Listening                                  // listenControl
    | CloseControl(ctl: ControlId) | DeleteControl           // teardown
    | DeleteSession | LookUpHost | DeleteHost(host: string)
    | Report | Finished

  datatype Thread = Thread(id: string, role: Role, next: Section)

  /** A control request whose claim on a host succeeded. */
  datatype Acceptance = Acceptance(req: ControlRequest, domain: string, rules: seq<Rule>)

  datatype State = State(
    hosts: Mapping,
    sessions: map<string, SessionId>,
    controls: map<string, ControlId>,
    closedSessions: set<SessionId>,
    closedControls: set<ControlId>,
    owners: map<ControlId, string>,      // the identifier each control was registered under
    newSession: SessionId,               // names for new sessions and controls
    newControl: ControlId,
    holder: Option<Tid>,                 // the thread inside deleteSession
    threads: map<Tid, Thread>,
    accepted: seq<Acceptance>)

  const START: State := State(map[], map[], map[], {}, {}, map[], 0, 0, None, map[], [])

  datatype Action =
    | NewConnect(t: Tid, req: ControlRequest)
    | NewDial(t: Tid, id: string)
    | Go(t: Tid)
    | Fail(t: Tid)
    | GoAndSpawn(t: Tid, listener: Tid)
    | EmbedderAdds(host: string, id: string, rules: seq<Rule>)
    | EmbedderDeletes(host: string)

  predicate NeedsSessionLock(section: Section) {
    section.AddSession? || section.GetSession? || section.DeleteSession?
  }

  predicate Enabled(lib: Library, cfg: ServerConfig, s: State, a: Action) {
    match a
    case NewConnect(t, req) => t !in s.threads && Judge(lib, cfg, req).Admitted?
    case NewDial(t, _) => t !in s.threads
    case Go(t) =>
      && t in s.threads
      && var next := s.threads[t].next;
      && (NeedsSessionLock(next) ==> s.holder.None?)
      && !next.AddControl? && !next.Listening? && !next.Finished?
      && (next.Send? ==> next.ctl !in s.closedControls)
    case Fail(t) =>
      && t in s.threads
      && var next := s.threads[t].next;
      next.Hijack? || next.AddSession? || next.Handshake? || next.Send? || next.Listening?
    case GoAndSpawn(t, listener) =>
      t in s.threads && s.threads[t].next.AddControl? && listener !in s.threads
    case EmbedderAdds(_, _, _) => true
    case EmbedderDeletes(_) => true
  }

  function At(s: State, t: Tid, next: Section): State
    requires t in s.threads
  {
    s.(threads := s.threads[t := s.threads[t].(next := next)])
  }

  // What a section does to each table, by thread.

  function HostsAfter(hosts: Mapping, th: Thread): Mapping {
    if th.next.AddHost? && th.role.Connector? then Claimed(hosts, th.role.domain, th.id, th.role.rules)
    else if th.next.DeleteHost? then Released(hosts, th.next.host)
    else hosts
  }

  function AcceptedAfter(s: State, th: Thread): seq<Acceptance> {
    if th.next.AddHost? && th.role.Connector? && !InUseByAnother(s.hosts, th.role.domain, th.id)
    then s.accepted + [Acceptance(th.role.req, th.role.domain, th.role.rules)]
    else s.accepted
  }

  predicate ClosesSession(s: State, th: Thread) {
    th.next.DeleteSession? && th.id in s.sessions
  }

  function SessionsAfter(s: State, th: Thread): map<string, SessionId> {
    if th.next.AddSession? then s.sessions[th.id := s.newSession]
    else if ClosesSession(s, th) then s.sessions - {th.id}
    else s.sessions
  }

  function ControlsAfter(s: State, th: Thread): map<string, ControlId> {
    if th.next.DeleteControl? then s.controls - {th.id} else s.controls
  }

  function HolderAfter(s: State, th: Thread, t: Tid): Option<Tid> {
    if ClosesSession(s, th) then Some(t)
    else if th.next.DeleteHost? || (th.next.LookUpHost? && !HostOwned(s.hosts, th.id)) then None
    else s.holder
  }

  function Effect(s: State, th: Thread, t: Tid): (s': State)
    ensures s'.threads == s.threads
  {
    s.(hosts := HostsAfter(s.hosts, th),
       accepted := AcceptedAfter(s, th),
       sessions := SessionsAfter(s, th),
       newSession := s.newSession + (if th.next.AddSession? then 1 else 0),
       closedSessions := if ClosesSession(s, th) then s.closedSessions + {s.sessions[th.id]} else s.closedSessions,
       controls := ControlsAfter(s, th),
       closedControls := if th.next.CloseControl? then s.closedControls + {th.next.ctl} else s.closedControls,
       holder := HolderAfter(s, th, t))
  }

  predicate HostOwned(hosts: Mapping, id: string) {
    exists host :: host in hosts && hosts[host].identifier == id
  }

  /** The section that comes next when nothing goes wrong. */
  ghost function Following(s: State, th: Thread): Section {
    var id := th.id;
    match th.next
    case AddHost =>
      if th.role.Connector? && !InUseByAnother(s.hosts, th.role.domain, id) then GetHost else Finished
    case GetHost => if HostOwned(s.hosts, id) then GetControl else Report
    case GetControl =>
      if th.role.Dialer? then (if id in s.controls then GetSession(s.controls[id]) else Finished)
      else if id in s.controls then CloseControl(s.controls[id]) else Hijack
    case Hijack => AddSession
    case AddSession => Handshake
    case Handshake => AddControl
    case GetSession(ctl) => if id in s.sessions then Send(ctl) else Finished
    case Send(_) => Finished
    case OnConnect => Listening
    case CloseControl(_) => DeleteControl
    case DeleteControl => if th.role.Dialer? then Finished else DeleteSession
    case DeleteSession => if id in s.sessions then LookUpHost else Report
    case LookUpHost => if HostOf(s.hosts, id).Some? then DeleteHost(HostOf(s.hosts, id).value) else Report
    case DeleteHost(_) => Report
    case Report => Finished
    case _ => th.next
  }

  ghost function Goes(s: State, t: Tid): State
    requires t in s.threads
  {
    At(Effect(s, s.threads[t], t), t, Following(s, s.threads[t]))
  }

  /** The section that comes next after a failure of the connection. */
  function Fallback(th: Thread): Section {
    match th.next
    case Hijack => Report
    case AddSession => Report
    case Handshake => DeleteSession
    case Send(ctl) => CloseControl(ctl)
    case Listening => if th.role.Listener? then CloseControl(th.role.ctl) else Finished
    case _ => th.next
  }

  function Registers(s: State, t: Tid, listener: Tid): State
    requires t in s.threads
  {
    var id, ctl := s.threads[t].id, s.newControl;
    var s1 := At(s.(controls := s.controls[id := ctl], owners := s.owners[ctl := id], newControl := ctl + 1), t, Finished);
    s1.(threads := s1.threads[listener := Thread(id, Listener(ctl), OnConnect)])
  }

  ghost function Next(lib: Library, cfg: ServerConfig, s: State, a: Action): State
    requires Enabled(lib, cfg, s, a)
  {
    match a
    case NewConnect(t, req) =>
      var v := Judge(lib, cfg, req);
      s.(threads := s.threads[t := Thread(req.identifier, Connector(req, v.domain, v.rules), AddHost)])
    case NewDial(t, id) => s.(threads := s.threads[t := Thread(id, Dialer, GetControl)])
    case Go(t) => Goes(s, t)
    case Fail(t) => At(s, t, Fallback(s.threads[t]))
    case GoAndSpawn(t, listener) => Registers(s, t, listener)
    case EmbedderAdds(host, id, rules) => s.(hosts := Claimed(s.hosts, host, id, rules))
    case EmbedderDeletes(host) => s.(hosts := Released(s.hosts, host))
  }

  ghost predicate IsRun(lib: Library, cfg: ServerConfig, s: State, actions: seq<Action>)
    decreases |actions|
  {
    actions == [] || (Enabled(lib, cfg, s, actions[0]) && IsRun(lib, cfg, Next(lib, cfg, s, actions[0]), actions[1..]))
  }

  ghost function After(lib: Library, cfg: ServerConfig, s: State, actions: seq<Action>): State
    requires IsRun(lib, cfg, s, actions)
    decreases |actions|
  {
    if actions == [] then s else After(lib, cfg, Next(lib, cfg, s, actions[0]), actions[1..])
  }
}
