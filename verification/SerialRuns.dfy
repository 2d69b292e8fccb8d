/** The other direction of Serial: every run of critical sections in which no handler is interrupted by
    another does what some run of handler steps does. So what is proved of every run of handler steps holds
    of these schedules. */
module SerialRuns {

  import opened Base
  import opened VirtualHosts
  import opened Admission
  import opened LockLevel
  import opened LockSafety
  import opened LockRefinement
  import C = ClientChain
  import R = Registry
  import RS = RegistrySafety
  import Serial

  // ---------------------------------------------------------------------------------------------
  // Listeners

  predicate Listens(th: Thread) {
    th.role.Listener? && (th.next.OnConnect? || th.next.Listening?)
  }

  function PhaseOf(next: Section): R.Phase {
    if next.OnConnect? then R.Spawned else R.Listening
  }

  ghost predicate OneThreadEach(threads: map<Tid, Thread>) {
    forall u, v :: u in threads && v in threads && threads[u].role.Listener? && threads[u].role == threads[v].role ==> u == v
  }

  /** The listener of the handler level that a thread is. */
  predicate IsListener(threads: map<Tid, Thread>, u: Tid, ctl: ControlId, l: R.Listener) {
    && u in threads && Listens(threads[u]) && threads[u].role.ctl == ctl
    && threads[u].id == l.identifier && PhaseOf(threads[u].next) == l.phase
  }

  ghost predicate HasThread(threads: map<Tid, Thread>, ctl: ControlId, l: R.Listener) {
    exists u :: IsListener(threads, u, ctl, l)
  }

  /** The listeners of the handler level are the threads that listen. */
  ghost predicate SameListeners(threads: map<Tid, Thread>, listeners: map<ControlId, R.Listener>) {
    && OneThreadEach(threads)
    && (forall ctl :: ctl in listeners ==> HasThread(threads, ctl, listeners[ctl]))
    && (forall u :: u in threads && Listens(threads[u]) ==>
          threads[u].role.ctl in listeners && IsListener(threads, u, threads[u].role.ctl, listeners[threads[u].role.ctl]))
  }

  lemma MoveElsewhere(threads: map<Tid, Thread>, t: Tid, th: Thread, listeners: map<ControlId, R.Listener>)
    requires SameListeners(threads, listeners) && !Listens(th)
    requires if t in threads then !Listens(threads[t]) && threads[t].role == th.role else !th.role.Listener?
    ensures SameListeners(threads[t := th], listeners)
  {
    forall ctl | ctl in listeners ensures HasThread(threads[t := th], ctl, listeners[ctl]) {
      var u :| IsListener(threads, u, ctl, listeners[ctl]);
      assert IsListener(threads[t := th], u, ctl, listeners[ctl]);
    }
  }

  lemma ListenerStops(threads: map<Tid, Thread>, t: Tid, th: Thread, listeners: map<ControlId, R.Listener>)
    requires SameListeners(threads, listeners) && t in threads && Listens(threads[t])
    requires !Listens(th) && threads[t].role == th.role
    ensures SameListeners(threads[t := th], listeners - {th.role.ctl})
  {
    var listeners' := listeners - {th.role.ctl};
    forall ctl | ctl in listeners' ensures HasThread(threads[t := th], ctl, listeners'[ctl]) {
      var u :| IsListener(threads, u, ctl, listeners[ctl]);
      assert u != t && IsListener(threads[t := th], u, ctl, listeners'[ctl]);
    }
  }

  lemma ListenerStarts(threads: map<Tid, Thread>, t: Tid, th: Thread, listeners: map<ControlId, R.Listener>)
    requires SameListeners(threads, listeners) && t in threads && Listens(threads[t])
    requires Listens(th) && threads[t].role == th.role && threads[t].id == th.id
    ensures SameListeners(threads[t := th], listeners[th.role.ctl := R.Listener(th.id, PhaseOf(th.next))])
  {
    var listeners' := listeners[th.role.ctl := R.Listener(th.id, PhaseOf(th.next))];
    forall ctl | ctl in listeners' ensures HasThread(threads[t := th], ctl, listeners'[ctl]) {
      if ctl == th.role.ctl {
        assert IsListener(threads[t := th], t, ctl, listeners'[ctl]);
      } else {
        var u :| IsListener(threads, u, ctl, listeners[ctl]);
        assert u != t && IsListener(threads[t := th], u, ctl, listeners'[ctl]);
      }
    }
  }

  lemma ListenerSpawned(threads: map<Tid, Thread>, t: Tid, id: string, ctl: ControlId, listeners: map<ControlId, R.Listener>)
    requires SameListeners(threads, listeners) && t !in threads
    requires forall u :: u in threads && threads[u].role.Listener? ==> threads[u].role.ctl != ctl
    ensures SameListeners(threads[t := Thread(id, Listener(ctl), OnConnect)], listeners[ctl := R.Listener(id, R.Spawned)])
  {
    var threads' := threads[t := Thread(id, Listener(ctl), OnConnect)];
    var listeners' := listeners[ctl := R.Listener(id, R.Spawned)];
    forall c | c in listeners' ensures HasThread(threads', c, listeners'[c]) {
      if c == ctl {
        assert IsListener(threads', t, c, listeners'[c]);
      } else {
        var u :| IsListener(threads, u, c, listeners[c]);
        assert IsListener(threads', u, c, listeners'[c]);
      }
    }
  }

  lemma NewNameIsFree(s: State, listeners: map<ControlId, R.Listener>)
    requires Inv(s) && SameListeners(s.threads, listeners)
    ensures forall u :: u in s.threads && s.threads[u].role.Listener? ==> s.threads[u].role.ctl != s.newControl
    ensures s.newControl !in listeners
  {
    forall u | u in s.threads && s.threads[u].role.Listener? ensures s.threads[u].role.ctl != s.newControl {
      assert ThreadOk(s.threads[u], s.owners);
    }
    forall ctl | ctl in listeners ensures ctl != s.newControl {
      var u :| IsListener(s.threads, u, ctl, listeners[ctl]);
    }
  }

  // ---------------------------------------------------------------------------------------------
  // Which handler an event is

  datatype Handler = Request(req: ControlRequest) | Start(id: string, ctl: ControlId) | End(id: string, ctl: ControlId)
                   | Dial(id: string) | Callbacks

  function HandlerOf(th: Thread): Handler {
    match th.role
    case Connector(req, _, _) => Request(req)
    case Listener(ctl) => End(th.id, ctl)
    case Dialer => Dial(th.id)
  }

  function KindOf(e: R.Event): Handler {
    match e
    case ConnectEvent(req, _, _, _) => Request(req)
    case StartEvent(id, ctl) => Start(id, ctl)
    case EndEvent(id, ctl) => End(id, ctl)
    case DialEvent(id, _) => Dial(id)
    case _ => Callbacks
  }

  function Kinds(es: seq<R.Event>): seq<Handler> {
    seq(|es|, i requires 0 <= i < |es| => KindOf(es[i]))
  }

  /** The handler that the action completes, if it completes one. */
  ghost function Completes(lib: Library, cfg: ServerConfig, s: State, a: Action): seq<Handler>
    requires Enabled(lib, cfg, s, a)
  {
    if a.Go? && s.threads[a.t].next.OnConnect? && s.threads[a.t].role.Listener?
    then [Start(s.threads[a.t].id, s.threads[a.t].role.ctl)]
    else if (a.Go? || a.GoAndSpawn?) && Next(lib, cfg, s, a).threads[a.t].next.Finished?
    then [HandlerOf(s.threads[a.t])]
    else []
  }

  /** The handlers that a run completes, in the order in which it does. */
  ghost function Completed(lib: Library, cfg: ServerConfig, s: State, actions: seq<Action>): seq<Handler>
    requires IsRun(lib, cfg, s, actions)
    decreases |actions|
  {
    if actions == [] then []
    else Completes(lib, cfg, s, actions[0]) + Completed(lib, cfg, Next(lib, cfg, s, actions[0]), actions[1..])
  }

  // ---------------------------------------------------------------------------------------------
  // A handler under way

  predicate Tables(s: State, h: Mapping, n: map<string, SessionId>, c: map<string, ControlId>) {
    s.hosts == h && s.sessions == n && s.controls == c
  }

  /** The sessions with the one the handler has stored. */
  function Stored(s: State, r: R.State, id: string): map<string, SessionId> {
    if id in s.sessions then r.sessions[id := s.sessions[id]] else r.sessions
  }

  predicate TearsDownSession(next: Section) {
    next.DeleteSession? || next.LookUpHost? || next.DeleteHost?
  }

  // The tables before a section of a connector, given the state r in which its handler began.

  function SessionsUnder(s: State, r: R.State, next: Section, id: string): map<string, SessionId> {
    if next.LookUpHost? || next.DeleteHost? then r.sessions - {id}
    else if next.Handshake? || next.AddControl? || (next.DeleteSession? && id !in r.controls) then Stored(s, r, id)
    else r.sessions
  }

  function ControlsUnder(r: R.State, next: Section, id: string): map<string, ControlId> {
    if TearsDownSession(next) && id in r.controls then r.controls - {id} else r.controls
  }

  /** A stale control has been found, or none. */
  ghost predicate PathOk(s: State, r: R.State, next: Section, id: string, domain: string) {
    && (next.CloseControl? || next.DeleteControl? ==> id in r.controls)
    && (next.Hijack? || next.AddSession? || next.Handshake? || next.AddControl? ==> id !in r.controls)
    && (next.Handshake? || next.AddControl? || (next.DeleteSession? && id !in r.controls) ==> id in s.sessions)
    && ((next.LookUpHost? || next.DeleteHost?) && id in r.controls ==> id in r.sessions)
    && (next.DeleteHost? ==> next.host == domain)
  }

  ghost predicate UnderConnector(s: State, r: R.State, next: Section, id: string, domain: string, rules: seq<Rule>) {
    if next.AddHost? then Tables(s, r.hosts, r.sessions, r.controls)
    else
      && !InUseByAnother(r.hosts, domain, id)
      && if next.Report? then exists out: R.Outcome :: Fails(s, r, id, domain, rules, out)
         else
           && PathOk(s, r, next, id, domain)
           && Tables(s, Claimed(r.hosts, domain, id, rules), SessionsUnder(s, r, next, id), ControlsUnder(r, next, id))
  }

  /** What a failing handler has left. */
  ghost predicate Fails(s: State, r: R.State, id: string, domain: string, rules: seq<Rule>, out: R.Outcome) {
    && out != R.Succeeds
    && var r' := RS.Settled(r, id, domain, rules, out, 0, 0);
    Tables(s, r'.hosts, r'.sessions, r'.controls)
  }

  ghost predicate UnderListener(s: State, r: R.State, next: Section, id: string) {
    && s.hosts == (if next.Report? && id in r.sessions then Without(r.hosts, id) else r.hosts)
    && s.sessions == (if next.LookUpHost? || next.DeleteHost? || next.Report? then r.sessions - {id} else r.sessions)
    && s.controls == (if TearsDownSession(next) || next.Report? then r.controls - {id} else r.controls)
    && (next.LookUpHost? || next.DeleteHost? ==> id in r.sessions)
    && (next.DeleteHost? ==> IdentifierOf(r.hosts, next.host) == Some(id))
  }

  ghost predicate UnderDialer(s: State, r: R.State, next: Section, id: string) {
    && Tables(s, r.hosts, r.sessions, r.controls)
    && (!next.GetControl? ==> id in r.controls)
    && (next.Send? || next.CloseControl? || next.DeleteControl? ==> id in r.sessions)
  }

  ghost predicate Under(s: State, r: R.State, th: Thread) {
    && C.Fits(th)
    && match th.role
       case Connector(_, domain, rules) => UnderConnector(s, r, th.next, th.id, domain, rules)
       case Listener(_) => UnderListener(s, r, th.next, th.id)
       case Dialer => UnderDialer(s, r, th.next, th.id)
  }

  ghost predicate Sane(lib: Library, cfg: ServerConfig, s: State, r: R.State) {
    && Inv(s) && OneHostEach(s.hosts) && OneHostEach(r.hosts)
    && C.RolesOk(s.threads) && ConnectorsSound(lib, cfg, s.threads)
  }

  /** Between handlers. */
  ghost predicate Between(s: State, r: R.State) {
    && Serial.Quiet(s.threads) && SameTables(s, r) && SameListeners(s.threads, r.listeners)
  }

  ghost predicate OthersRest(threads: map<Tid, Thread>, t: Tid) {
    forall u :: u in threads && u != t ==> C.AtRest(threads[u].next)
  }

  /** A listener that tears down no longer listens. */
  function Remaining(listeners: map<ControlId, R.Listener>, th: Thread): map<ControlId, R.Listener> {
    if th.role.Listener? then listeners - {th.role.ctl} else listeners
  }

  /** The handler of the thread is under way, begun in r. */
  ghost predicate Inside(s: State, r: R.State, t: Tid) {
    && C.Busy(s.threads, t) && OthersRest(s.threads, t)
    && Under(s, r, s.threads[t])
    && SameListeners(s.threads, Remaining(r.listeners, s.threads[t]))
    && (s.threads[t].role.Listener? ==>
          Get(r.listeners, s.threads[t].role.ctl) == Some(R.Listener(s.threads[t].id, R.Listening)))
  }

  // ---------------------------------------------------------------------------------------------
  // The sections of a connector

  lemma ClaimsHost(r: R.State, id: string, domain: string, rules: seq<Rule>)
    requires OneHostEach(r.hosts) && !InUseByAnother(r.hosts, domain, id)
    ensures var m := Claimed(r.hosts, domain, id, rules);
            && HostOf(m, id) == Some(domain) && HostOwned(m, id)
            && Released(m, domain) == Without(r.hosts, id)
  {
    RS.ClaimedOwner(r.hosts, domain, id, rules);
    HostFound(Claimed(r.hosts, domain, id, rules), id);
  }

  /** Each of the outcomes with an early, a late and a stale ending. */
  lemma FailsEarly(s: State, r: R.State, id: string, domain: string, rules: seq<Rule>)
    requires id !in r.controls && Tables(s, Claimed(r.hosts, domain, id, rules), r.sessions, r.controls)
    ensures Fails(s, r, id, domain, rules, R.HijackFails)
  {
    assert r.controls - {id} == r.controls;
  }

  lemma FailsLate(s: State, r: R.State, id: string, domain: string, rules: seq<Rule>)
    requires id in r.controls ==> id in r.sessions
    requires Tables(s, Without(r.hosts, id), r.sessions - {id}, r.controls - {id})
    ensures Fails(s, r, id, domain, rules, R.AcceptFails)
  {
  }

  lemma FailsStale(s: State, r: R.State, id: string, domain: string, rules: seq<Rule>)
    requires id in r.controls && id !in r.sessions
    requires Tables(s, Claimed(r.hosts, domain, id, rules), r.sessions, r.controls - {id})
    ensures Fails(s, r, id, domain, rules, R.HijackFails)
  {
  }

  lemma ConnectorTearsDown(s: State, r: R.State, t: Tid)
    requires t in s.threads && s.threads[t].role.Connector? && Under(s, r, s.threads[t]) && OneHostEach(r.hosts)
    requires TearsDownSession(s.threads[t].next)
    ensures Under(Goes(s, t), r, Goes(s, t).threads[t])
  {
    var th, s' := s.threads[t], Goes(s, t);
    var id, domain, rules := th.id, th.role.domain, th.role.rules;
    ClaimsHost(r, id, domain, rules);
    assert id !in r.controls ==> r.controls - {id} == r.controls;
    if th.next.DeleteHost? {
      FailsLate(s', r, id, domain, rules);
    } else if th.next.DeleteSession? && id !in s.sessions {
      FailsStale(s', r, id, domain, rules);
    } else if th.next.DeleteSession? && id !in r.controls {
      assert Stored(s, r, id) - {id} == r.sessions - {id};
    }
  }

  lemma ConnectorGoes(s: State, r: R.State, t: Tid)
    requires t in s.threads && s.threads[t].role.Connector? && Under(s, r, s.threads[t]) && OneHostEach(r.hosts)
    requires !s.threads[t].next.Report? && !s.threads[t].next.AddControl? && !s.threads[t].next.AddHost?
    ensures Under(Goes(s, t), r, Goes(s, t).threads[t])
  {
    var th := s.threads[t];
    if TearsDownSession(th.next) {
      ConnectorTearsDown(s, r, t);
    } else if th.next.GetHost? {
      ClaimsHost(r, th.id, th.role.domain, th.role.rules);
    }
  }

  lemma ConnectorClaims(s: State, r: R.State, t: Tid)
    requires t in s.threads && s.threads[t].role.Connector? && Under(s, r, s.threads[t]) && s.threads[t].next.AddHost?
    ensures var s' := Goes(s, t);
            if InUseByAnother(r.hosts, s.threads[t].role.domain, s.threads[t].id)
            then s'.threads[t].next == Finished && SameTables(s', r)
            else Under(s', r, s'.threads[t])
  {
  }

  lemma ConnectorFails(s: State, r: R.State, t: Tid)
    requires t in s.threads && s.threads[t].role.Connector? && Under(s, r, s.threads[t])
    requires s.threads[t].next.Hijack? || s.threads[t].next.AddSession? || s.threads[t].next.Handshake?
    ensures var s' := At(s, t, Fallback(s.threads[t]));
            Under(s', r, s'.threads[t])
  {
    var th := s.threads[t];
    if !th.next.Handshake? {
      FailsEarly(At(s, t, Report), r, th.id, th.role.domain, th.role.rules);
    }
  }

  lemma ListenerDropsControl(s: State, r: R.State, t: Tid)
    requires t in s.threads && s.threads[t].role.Listener? && Under(s, r, s.threads[t])
    requires s.threads[t].next.CloseControl? || s.threads[t].next.DeleteControl?
    ensures Under(Goes(s, t), r, Goes(s, t).threads[t])
  {
  }

  lemma ListenerDropsSession(s: State, r: R.State, t: Tid)
    requires t in s.threads && s.threads[t].role.Listener? && Under(s, r, s.threads[t])
    requires s.threads[t].next.DeleteSession?
    ensures Under(Goes(s, t), r, Goes(s, t).threads[t])
  {
    var id := s.threads[t].id;
    assert id !in r.sessions ==> r.sessions - {id} == r.sessions;
  }

  lemma ListenerDropsHost(s: State, r: R.State, t: Tid)
    requires t in s.threads && s.threads[t].role.Listener? && Under(s, r, s.threads[t]) && OneHostEach(r.hosts)
    requires s.threads[t].next.LookUpHost? || s.threads[t].next.DeleteHost?
    ensures Under(Goes(s, t), r, Goes(s, t).threads[t])
  {
    var th := s.threads[t];
    HostFound(r.hosts, th.id);
    if th.next.DeleteHost? {
      assert Released(r.hosts, th.next.host) == Without(r.hosts, th.id);
    }
  }

  lemma ListenerGoes(s: State, r: R.State, t: Tid)
    requires t in s.threads && s.threads[t].role.Listener? && Under(s, r, s.threads[t]) && OneHostEach(r.hosts)
    requires s.threads[t].next != Report
    ensures Under(Goes(s, t), r, Goes(s, t).threads[t])
  {
    match s.threads[t].next
    case DeleteSession => ListenerDropsSession(s, r, t);
    case LookUpHost => ListenerDropsHost(s, r, t);
    case DeleteHost(_) => ListenerDropsHost(s, r, t);
    case _ => ListenerDropsControl(s, r, t);
  }

  // ---------------------------------------------------------------------------------------------
  // One action

  /** The next thing that happens at the handler level, if anything. */
  ghost predicate Follows(lib: Library, cfg: ServerConfig, r: R.State, e: Option<R.Event>, r': R.State) {
    match e
    case None => r' == r
    case Some(x) => R.Enabled(r, x) && r' == R.Next(lib, cfg, r, x)
  }

  ghost predicate Simulates(s: State, r: R.State) {
    Between(s, r) || exists t :: Inside(s, r, t)
  }

  lemma BecomesQuiet(s: State, s': State, t: Tid, r': R.State, listeners: map<ControlId, R.Listener>)
    requires t in s.threads && OthersRest(s.threads, t) && SameListeners(s.threads, listeners)
    requires !Listens(s.threads[t])
    requires s'.threads == s.threads[t := s.threads[t].(next := Finished)]
    requires SameTables(s', r') && r'.listeners == listeners
    ensures Between(s', r')
  {
    MoveElsewhere(s.threads, t, s.threads[t].(next := Finished), listeners);
  }

  lemma StaysInside(s: State, s': State, t: Tid, r: R.State)
    requires Inside(s, r, t) && t in s'.threads
    requires s'.threads == s.threads[t := s.threads[t].(next := s'.threads[t].next)]
    requires Under(s', r, s'.threads[t])
    ensures Inside(s', r, t)
  {
    MoveElsewhere(s.threads, t, s'.threads[t], Remaining(r.listeners, s.threads[t]));
  }

  /** A refused claim. */
  lemma ConflictEnds(lib: Library, cfg: ServerConfig, s: State, r: R.State, t: Tid) returns (e: R.Event)
    requires Sane(lib, cfg, s, r) && Inside(s, r, t) && s.threads[t].role.Connector? && s.threads[t].next == AddHost
    requires InUseByAnother(r.hosts, s.threads[t].role.domain, s.threads[t].id)
    ensures KindOf(e) == HandlerOf(s.threads[t]) && R.Enabled(r, e) && Between(Goes(s, t), R.Next(lib, cfg, r, e))
  {
    var th := s.threads[t];
    e := R.ConnectEvent(th.role.req, R.HijackFails, s.newSession, s.newControl);
    NewNameIsFree(s, r.listeners);
    RS.ConnectEffect(lib, cfg, r, th.role.req, R.HijackFails, s.newSession, s.newControl);
    assert Sound(lib, cfg, th.role.req, th.role.domain, th.role.rules);
    BecomesQuiet(s, Goes(s, t), t, r, r.listeners);
  }

  lemma FailedConnect(lib: Library, cfg: ServerConfig, r: R.State, req: ControlRequest, domain: string, rules: seq<Rule>,
                      out: R.Outcome, session: SessionId, ctl: ControlId)
    requires OneHostEach(r.hosts) && Sound(lib, cfg, req, domain, rules) && out != R.Succeeds
    requires !InUseByAnother(r.hosts, domain, req.identifier)
    ensures var r' := R.Connect(lib, cfg, r, req, out, session, ctl).0;
            var expected := RS.Settled(r, req.identifier, domain, rules, out, 0, 0);
            && r'.listeners == r.listeners
            && r'.hosts == expected.hosts && r'.sessions == expected.sessions && r'.controls == expected.controls
  {
    RS.ConnectEffect(lib, cfg, r, req, out, session, ctl);
    var settled := RS.Settled(r, req.identifier, domain, rules, out, session, ctl);
    assert settled == RS.Settled(r, req.identifier, domain, rules, out, 0, 0);
    RS.ReportKeepsTables(settled, req.identifier, RS.SettledReply(r, req.identifier, out).1);
  }

  lemma FailureLeaves(lib: Library, cfg: ServerConfig, s: State, r: R.State, t: Tid, out: R.Outcome)
    requires Sane(lib, cfg, s, r) && Inside(s, r, t) && s.threads[t].role.Connector? && s.threads[t].next == Report
    requires Fails(s, r, s.threads[t].id, s.threads[t].role.domain, s.threads[t].role.rules, out)
    ensures Between(Goes(s, t), R.Connect(lib, cfg, r, s.threads[t].role.req, out, s.newSession, s.newControl).0)
  {
    var th := s.threads[t];
    assert Sound(lib, cfg, th.role.req, th.role.domain, th.role.rules);
    FailedConnect(lib, cfg, r, th.role.req, th.role.domain, th.role.rules, out, s.newSession, s.newControl);
    BecomesQuiet(s, Goes(s, t), t, R.Connect(lib, cfg, r, th.role.req, out, s.newSession, s.newControl).0, r.listeners);
  }

  /** A failed attempt. */
  lemma FailureEnds(lib: Library, cfg: ServerConfig, s: State, r: R.State, t: Tid) returns (e: R.Event)
    requires Sane(lib, cfg, s, r) && Inside(s, r, t) && s.threads[t].role.Connector? && s.threads[t].next == Report
    ensures KindOf(e) == HandlerOf(s.threads[t]) && R.Enabled(r, e) && Between(Goes(s, t), R.Next(lib, cfg, r, e))
  {
    var th := s.threads[t];
    var out: R.Outcome :| Fails(s, r, th.id, th.role.domain, th.role.rules, out);
    FailureLeaves(lib, cfg, s, r, t, out);
    NewNameIsFree(s, r.listeners);
    e := R.ConnectEvent(th.role.req, out, s.newSession, s.newControl);
  }

  lemma SuccessfulConnect(lib: Library, cfg: ServerConfig, r: R.State, req: ControlRequest, domain: string, rules: seq<Rule>,
                          session: SessionId, ctl: ControlId)
    requires OneHostEach(r.hosts) && Sound(lib, cfg, req, domain, rules) && req.identifier !in r.controls
    requires !InUseByAnother(r.hosts, domain, req.identifier)
    ensures var r' := R.Connect(lib, cfg, r, req, R.Succeeds, session, ctl).0;
            var id := req.identifier;
            && r'.hosts == Claimed(r.hosts, domain, id, rules) && r'.sessions == r.sessions[id := session]
            && r'.controls == r.controls[id := ctl]
            && r'.listeners == r.listeners[ctl := R.Listener(id, R.Spawned)]
  {
    RS.ConnectEffect(lib, cfg, r, req, R.Succeeds, session, ctl);
  }

  lemma SuccessLeaves(lib: Library, cfg: ServerConfig, s: State, r: R.State, t: Tid, listener: Tid)
    requires Sane(lib, cfg, s, r) && Inside(s, r, t) && Enabled(lib, cfg, s, GoAndSpawn(t, listener))
    requires s.threads[t].role.Connector? && s.threads[t].id in s.sessions
    ensures Between(Registers(s, t, listener),
                    R.Connect(lib, cfg, r, s.threads[t].role.req, R.Succeeds, s.sessions[s.threads[t].id], s.newControl).0)
  {
    var th := s.threads[t];
    assert Sound(lib, cfg, th.role.req, th.role.domain, th.role.rules);
    SuccessfulConnect(lib, cfg, r, th.role.req, th.role.domain, th.role.rules, s.sessions[th.id], s.newControl);
    RegistersListener(s, r, t, listener);
    RegistersTables(s, t, listener);
  }

  /** A connection set up. */
  lemma SuccessEnds(lib: Library, cfg: ServerConfig, s: State, r: R.State, t: Tid, listener: Tid) returns (e: R.Event)
    requires Sane(lib, cfg, s, r) && Inside(s, r, t) && Enabled(lib, cfg, s, GoAndSpawn(t, listener))
    requires s.threads[t].role.Connector?
    ensures KindOf(e) == HandlerOf(s.threads[t]) && R.Enabled(r, e) && Between(Registers(s, t, listener), R.Next(lib, cfg, r, e))
  {
    SuccessLeaves(lib, cfg, s, r, t, listener);
    NewNameIsFree(s, r.listeners);
    e := R.ConnectEvent(s.threads[t].role.req, R.Succeeds, s.sessions[s.threads[t].id], s.newControl);
  }

  lemma RegistersTables(s: State, t: Tid, listener: Tid)
    requires t in s.threads
    ensures Tables(Registers(s, t, listener), s.hosts, s.sessions, s.controls[s.threads[t].id := s.newControl])
  {
  }

  lemma RegistersListener(s: State, r: R.State, t: Tid, listener: Tid)
    requires Inv(s) && Inside(s, r, t) && s.threads[t].role.Connector? && listener !in s.threads
    ensures var threads' := Registers(s, t, listener).threads;
            && Serial.Quiet(threads')
            && SameListeners(threads', r.listeners[s.newControl := R.Listener(s.threads[t].id, R.Spawned)])
  {
    var th := s.threads[t].(next := Finished);
    NewNameIsFree(s, r.listeners);
    MoveElsewhere(s.threads, t, th, r.listeners);
    ListenerSpawned(s.threads[t := th], listener, th.id, s.newControl, r.listeners);
  }

  lemma ListenerEnds(lib: Library, cfg: ServerConfig, s: State, r: R.State, t: Tid) returns (e: R.Event)
    requires Sane(lib, cfg, s, r) && Inside(s, r, t) && s.threads[t].role.Listener? && s.threads[t].next == Report
    ensures KindOf(e) == HandlerOf(s.threads[t]) && R.Enabled(r, e) && Between(Goes(s, t), R.Next(lib, cfg, r, e))
  {
    var th := s.threads[t];
    e := R.EndEvent(th.id, th.role.ctl);
    RS.EndEffect(r, th.id, th.role.ctl);
    BecomesQuiet(s, Goes(s, t), t, R.Next(lib, cfg, r, e), r.listeners - {th.role.ctl});
  }

  predicate DialEnds(s: State, th: Thread) {
    || th.next.Send? || th.next.DeleteControl?
    || (th.next.GetControl? && th.id !in s.controls)
    || (th.next.GetSession? && th.id !in s.sessions)
  }

  lemma DialerEnds(lib: Library, cfg: ServerConfig, s: State, r: R.State, t: Tid) returns (e: R.Event)
    requires Inside(s, r, t) && s.threads[t].role.Dialer? && DialEnds(s, s.threads[t])
    ensures KindOf(e) == HandlerOf(s.threads[t])
    ensures R.Enabled(r, e) && Between(Goes(s, t), R.Next(lib, cfg, r, e)) && Goes(s, t).threads[t].next == Finished
  {
    var id, sent := s.threads[t].id, s.threads[t].next.Send?;
    BecomesQuiet(s, Goes(s, t), t, R.Dial(r, id, sent).0, r.listeners);
    e := R.DialEvent(id, sent);
  }

  lemma DialerMoves(s: State, r: R.State, t: Tid)
    requires t in s.threads && s.threads[t].role.Dialer? && Under(s, r, s.threads[t]) && !DialEnds(s, s.threads[t])
    ensures Under(Goes(s, t), r, Goes(s, t).threads[t])
  {
  }

  lemma DialerGoes(lib: Library, cfg: ServerConfig, s: State, r: R.State, t: Tid) returns (e: Option<R.Event>)
    requires Inside(s, r, t) && s.threads[t].role.Dialer?
    ensures GoneOn(lib, cfg, Goes(s, t), r, t, e)
  {
    if DialEnds(s, s.threads[t]) {
      var x := DialerEnds(lib, cfg, s, r, t);
      e := Some(x);
    } else {
      e := None;
      DialerMoves(s, r, t);
      StaysInside(s, Goes(s, t), t, r);
    }
  }

  /** The handler is still under way, or it has returned and was the event e. */
  ghost predicate GoneOn(lib: Library, cfg: ServerConfig, s': State, r: R.State, t: Tid, e: Option<R.Event>) {
    match e
    case None => Inside(s', r, t)
    case Some(x) =>
      && R.Enabled(r, x) && Between(s', R.Next(lib, cfg, r, x))
      && t in s'.threads && s'.threads[t].next == Finished && KindOf(x) == HandlerOf(s'.threads[t])
  }

  lemma InsideGoes(lib: Library, cfg: ServerConfig, s: State, r: R.State, t: Tid) returns (e: Option<R.Event>)
    requires Sane(lib, cfg, s, r) && Inside(s, r, t) && Enabled(lib, cfg, s, Go(t))
    ensures GoneOn(lib, cfg, Goes(s, t), r, t, e)
  {
    var th := s.threads[t];
    match th.role
    case Connector(_, _, _) =>
      if th.next == Report {
        var x := FailureEnds(lib, cfg, s, r, t);
        e := Some(x);
      } else if th.next == AddHost {
        ConnectorClaims(s, r, t);
        if InUseByAnother(r.hosts, th.role.domain, th.id) {
          var x := ConflictEnds(lib, cfg, s, r, t);
          e := Some(x);
        } else {
          e := None;
          StaysInside(s, Goes(s, t), t, r);
        }
      } else {
        ConnectorGoes(s, r, t);
        e := None;
        StaysInside(s, Goes(s, t), t, r);
      }
    case Listener(_) =>
      if th.next == Report {
        var x := ListenerEnds(lib, cfg, s, r, t);
        e := Some(x);
      } else {
        ListenerGoes(s, r, t);
        e := None;
        StaysInside(s, Goes(s, t), t, r);
      }
    case Dialer => e := DialerGoes(lib, cfg, s, r, t);
  }

  lemma InsideFails(lib: Library, cfg: ServerConfig, s: State, r: R.State, t: Tid)
    requires Sane(lib, cfg, s, r) && Inside(s, r, t) && Enabled(lib, cfg, s, Fail(t))
    ensures Inside(At(s, t, Fallback(s.threads[t])), r, t)
  {
    var s' := At(s, t, Fallback(s.threads[t]));
    if s.threads[t].role.Connector? {
      ConnectorFails(s, r, t);
    }
    StaysInside(s, s', t, r);
  }

  /** A listener that starts. */
  lemma StartsListening(lib: Library, cfg: ServerConfig, s: State, r: R.State, t: Tid) returns (e: R.Event)
    requires Sane(lib, cfg, s, r) && Between(s, r) && Enabled(lib, cfg, s, Go(t))
    ensures R.Enabled(r, e) && Between(Goes(s, t), R.Next(lib, cfg, r, e))
    ensures Completes(lib, cfg, s, Go(t)) == [KindOf(e)]
  {
    var th := s.threads[t];
    assert th.next == OnConnect && th.role.Listener?;
    e := R.StartEvent(th.id, th.role.ctl);
    ListenerStarts(s.threads, t, th.(next := Listening), r.listeners);
    assert IsListener(s.threads, t, th.role.ctl, r.listeners[th.role.ctl]);
  }

  lemma LossBegins(s: State, r: R.State, id: string, ctl: ControlId)
    requires SameTables(s, r)
    ensures Under(s, r, Thread(id, Listener(ctl), CloseControl(ctl)))
  {
  }

  /** A handler that begins. */
  lemma LosesConnection(lib: Library, cfg: ServerConfig, s: State, r: R.State, t: Tid)
    requires Sane(lib, cfg, s, r) && Between(s, r) && Enabled(lib, cfg, s, Fail(t))
    ensures Inside(At(s, t, Fallback(s.threads[t])), r, t)
  {
    var th := s.threads[t];
    assert th.next == Listening && th.role.Listener?;
    var s' := At(s, t, CloseControl(th.role.ctl));
    ListenerStops(s.threads, t, s'.threads[t], r.listeners);
    assert IsListener(s.threads, t, th.role.ctl, r.listeners[th.role.ctl]);
    LossBegins(s', r, th.id, th.role.ctl);
  }

  lemma Begins(s: State, r: R.State, t: Tid, th: Thread)
    requires Between(s, r) && t !in s.threads
    requires (th.role.Connector? && th.next.AddHost?) || (th.role.Dialer? && th.next.GetControl?)
    ensures Inside(s.(threads := s.threads[t := th]), r, t)
  {
    MoveElsewhere(s.threads, t, th, r.listeners);
  }

  /** No handler is interrupted: if one is under way the action is its own. */
  ghost predicate Uninterrupted(s: State, a: Action) {
    && !C.ByEmbedder(a)
    && forall u :: C.Busy(s.threads, u) ==> ByThreads(a, {u})
  }

  lemma ActionFollowed(lib: Library, cfg: ServerConfig, s: State, r: R.State, a: Action)
    returns (e: Option<R.Event>, r': R.State)
    requires Sane(lib, cfg, s, r) && Simulates(s, r) && Enabled(lib, cfg, s, a) && Uninterrupted(s, a)
    ensures Follows(lib, cfg, r, e, r') && Simulates(Next(lib, cfg, s, a), r')
    ensures e.Some? ==> Between(Next(lib, cfg, s, a), r')
    ensures Completes(lib, cfg, s, a) == if e.None? then [] else [KindOf(e.value)]
  {
    if t :| Inside(s, r, t) {
      e := InsideFollowed(lib, cfg, s, r, a, t);
      InsideCompletes(lib, cfg, s, r, a, t, e);
      r' := if e.None? then r else R.Next(lib, cfg, r, e.value);
    } else if a.Go? {
      var x := StartsListening(lib, cfg, s, r, a.t);
      e, r' := Some(x), R.Next(lib, cfg, r, x);
    } else {
      e, r' := None, r;
      match a {
        case NewConnect(t, _) => Begins(s, r, t, Next(lib, cfg, s, a).threads[t]);
        case NewDial(t, id) => Begins(s, r, t, Thread(id, Dialer, GetControl));
        case Fail(t) => LosesConnection(lib, cfg, s, r, t);
        case _ =>
      }
    }
  }

  lemma InsideFollowed(lib: Library, cfg: ServerConfig, s: State, r: R.State, a: Action, t: Tid)
    returns (e: Option<R.Event>)
    requires Sane(lib, cfg, s, r) && Inside(s, r, t) && Enabled(lib, cfg, s, a) && Uninterrupted(s, a)
    ensures GoneOn(lib, cfg, Next(lib, cfg, s, a), r, t, e)
  {
    assert ByThreads(a, {t});
    match a
    case Go(_) => e := InsideGoes(lib, cfg, s, r, t);
    case Fail(_) =>
      InsideFails(lib, cfg, s, r, t);
      e := None;
    case GoAndSpawn(_, listener) =>
      var x := SuccessEnds(lib, cfg, s, r, t, listener);
      e := Some(x);
  }

  lemma InsideCompletes(lib: Library, cfg: ServerConfig, s: State, r: R.State, a: Action, t: Tid, e: Option<R.Event>)
    requires Inside(s, r, t) && Enabled(lib, cfg, s, a) && Uninterrupted(s, a)
    requires GoneOn(lib, cfg, Next(lib, cfg, s, a), r, t, e)
    ensures Completes(lib, cfg, s, a) == if e.None? then [] else [KindOf(e.value)]
  {
    assert ByThreads(a, {t});
  }

  lemma SaneNext(lib: Library, cfg: ServerConfig, s: State, r: R.State, a: Action, r': R.State)
    requires Sane(lib, cfg, s, r) && Enabled(lib, cfg, s, a) && OneHostEach(r'.hosts)
    ensures Sane(lib, cfg, Next(lib, cfg, s, a), r')
  {
    LockSafety.NextKeepsInv(lib, cfg, s, a);
    NextKeepsOneHostEach(lib, cfg, s, a);
    C.NextRoles(lib, cfg, s, a);
    NextSound(lib, cfg, s, a);
  }

  // ---------------------------------------------------------------------------------------------
  // One handler, running alone

  lemma FinishedIsOver(lib: Library, cfg: ServerConfig, s: State, a: Action, t: Tid)
    requires t in s.threads && s.threads[t].next == Finished && ByThreads(a, {t})
    ensures !Enabled(lib, cfg, s, a)
  {
  }

  lemma {:induction false} InsideAlone(lib: Library, cfg: ServerConfig, s: State, r: R.State, t: Tid, actions: seq<Action>)
    returns (e: Option<R.Event>)
    requires Sane(lib, cfg, s, r) && Inside(s, r, t)
    requires IsRun(lib, cfg, s, actions) && forall a :: a in actions ==> ByThreads(a, {t})
    ensures GoneOn(lib, cfg, After(lib, cfg, s, actions), r, t, e)
    decreases |actions|
  {
    if actions == [] {
      e := None;
    } else {
      assert actions[0] in actions && forall a :: a in actions[1..] ==> a in actions;
      var s1 := Next(lib, cfg, s, actions[0]);
      e := InsideFollowed(lib, cfg, s, r, actions[0], t);
      if e.None? {
        SaneNext(lib, cfg, s, r, actions[0], r);
        e := InsideAlone(lib, cfg, s1, r, t, actions[1..]);
      } else if actions[1..] != [] {
        assert actions[1] in actions;
        FinishedIsOver(lib, cfg, s1, actions[1], t);
      }
    }
  }

  /** Every way a connector, a dial or the end of a listener can run alone to its end is one handler step from
      the state it began in, the one of its own request, identifier or control, whichever sections it went
      through. */
  lemma {:induction false} SoloRunIsHandlerStep(lib: Library, cfg: ServerConfig, s: State, r: R.State, t: Tid,
                                                actions: seq<Action>)
    returns (e: R.Event)
    requires Sane(lib, cfg, s, r) && Between(s, r)
    requires IsRun(lib, cfg, s, actions) && forall a :: a in actions ==> ByThreads(a, {t})
    requires actions != [] && (t in s.threads ==> s.threads[t].next == Listening)
    requires Serial.Quiet(After(lib, cfg, s, actions).threads)
    ensures R.Enabled(r, e) && Between(After(lib, cfg, s, actions), R.Next(lib, cfg, r, e))
    ensures t in After(lib, cfg, s, actions).threads && KindOf(e) == HandlerOf(After(lib, cfg, s, actions).threads[t])
  {
    assert actions[0] in actions && forall a :: a in actions[1..] ==> a in actions;
    FirstSection(lib, cfg, s, r, t, actions[0]);
    SaneNext(lib, cfg, s, r, actions[0], r);
    var x := InsideAlone(lib, cfg, Next(lib, cfg, s, actions[0]), r, t, actions[1..]);
    NotInsideWhenQuiet(After(lib, cfg, s, actions), r, t);
    e := x.value;
  }

  lemma FirstSection(lib: Library, cfg: ServerConfig, s: State, r: R.State, t: Tid, a: Action)
    requires Sane(lib, cfg, s, r) && Between(s, r) && Enabled(lib, cfg, s, a) && ByThreads(a, {t})
    requires t in s.threads ==> s.threads[t].next == Listening
    ensures Inside(Next(lib, cfg, s, a), r, t)
  {
    match a
    case NewConnect(_, _) => Begins(s, r, t, Next(lib, cfg, s, a).threads[t]);
    case NewDial(_, id) => Begins(s, r, t, Thread(id, Dialer, GetControl));
    case Fail(_) => LosesConnection(lib, cfg, s, r, t);
    case _ =>
  }

  lemma NotInsideWhenQuiet(s: State, r: R.State, t: Tid)
    requires Serial.Quiet(s.threads)
    ensures !Inside(s, r, t)
  {
  }

  // ---------------------------------------------------------------------------------------------
  // Whole runs

  ghost predicate NoneInterrupted(lib: Library, cfg: ServerConfig, s: State, actions: seq<Action>)
    decreases |actions|
  {
    actions == [] ||
    (Enabled(lib, cfg, s, actions[0]) && Uninterrupted(s, actions[0])
     && NoneInterrupted(lib, cfg, Next(lib, cfg, s, actions[0]), actions[1..]))
  }

  lemma {:induction false} UninterruptedIsRun(lib: Library, cfg: ServerConfig, s: State, actions: seq<Action>)
    requires NoneInterrupted(lib, cfg, s, actions)
    ensures IsRun(lib, cfg, s, actions)
    decreases |actions|
  {
    if actions != [] {
      UninterruptedIsRun(lib, cfg, Next(lib, cfg, s, actions[0]), actions[1..]);
    }
  }

  ghost predicate HandlerRun(lib: Library, cfg: ServerConfig, r: R.State, es: seq<R.Event>, r': R.State) {
    R.IsRun(lib, cfg, r, es) && R.After(lib, cfg, r, es) == r'
  }

  lemma OneMore(lib: Library, cfg: ServerConfig, r: R.State, es: seq<R.Event>, m: R.State, e: Option<R.Event>, r': R.State)
    returns (es': seq<R.Event>)
    requires HandlerRun(lib, cfg, r, es, m) && Follows(lib, cfg, m, e, r')
    ensures HandlerRun(lib, cfg, r, es', r')
    ensures Kinds(es') == Kinds(es) + (if e.None? then [] else [KindOf(e.value)])
  {
    if e.None? {
      es' := es;
    } else {
      es' := es + [e.value];
      assert es'[..|es'| - 1] == es;
    }
  }

  lemma OneActionMore(lib: Library, cfg: ServerConfig, s: State, r: R.State, start: R.State, done: seq<R.Event>, a: Action)
    returns (more: seq<R.Event>, r': R.State)
    requires Sane(lib, cfg, s, r) && Simulates(s, r) && Enabled(lib, cfg, s, a) && Uninterrupted(s, a)
    requires HandlerRun(lib, cfg, start, done, r)
    ensures Sane(lib, cfg, Next(lib, cfg, s, a), r') && Simulates(Next(lib, cfg, s, a), r')
    ensures HandlerRun(lib, cfg, start, more, r') && Kinds(more) == Kinds(done) + Completes(lib, cfg, s, a)
  {
    var e;
    e, r' := ActionFollowed(lib, cfg, s, r, a);
    NextKeepsOneHostEach(lib, cfg, s, a);
    SaneNext(lib, cfg, s, r, a, r');
    more := OneMore(lib, cfg, start, done, r, e, r');
  }

  /** From any pair of states that match, a run of sections in which no handler is interrupted is a run of
      handlers: when no handler is under way, the tables and the listeners are those of that run, and while
      one is, they are what that handler has made of them so far. */
  lemma {:induction false} SectionsAreHandlers(lib: Library, cfg: ServerConfig, s: State, r: R.State, start: R.State,
                                               done: seq<R.Event>, actions: seq<Action>)
    returns (es: seq<R.Event>, r': R.State)
    requires Sane(lib, cfg, s, r) && Simulates(s, r) && NoneInterrupted(lib, cfg, s, actions)
    requires HandlerRun(lib, cfg, start, done, r)
    ensures IsRun(lib, cfg, s, actions) && HandlerRun(lib, cfg, start, es, r')
    ensures Simulates(After(lib, cfg, s, actions), r') && Kinds(es) == Kinds(done) + Completed(lib, cfg, s, actions)
    decreases |actions|
  {
    UninterruptedIsRun(lib, cfg, s, actions);
    if actions == [] {
      es, r' := done, r;
    } else {
      var more, r1 := OneActionMore(lib, cfg, s, r, start, done, actions[0]);
      var s1 := Next(lib, cfg, s, actions[0]);
      es, r' := SectionsAreHandlers(lib, cfg, s1, r1, start, more, actions[1..]);
      KindsMore(done, more, es, Completes(lib, cfg, s, actions[0]), Completed(lib, cfg, s1, actions[1..]));
      FirstCompleted(lib, cfg, s, actions);
    }
  }

  lemma KindsMore(done: seq<R.Event>, more: seq<R.Event>, es: seq<R.Event>, first: seq<Handler>, rest: seq<Handler>)
    requires Kinds(more) == Kinds(done) + first && Kinds(es) == Kinds(more) + rest
    ensures Kinds(es) == Kinds(done) + (first + rest)
  {
  }

  lemma {:induction false} FirstCompleted(lib: Library, cfg: ServerConfig, s: State, actions: seq<Action>)
    requires IsRun(lib, cfg, s, actions) && actions != []
    ensures Completed(lib, cfg, s, actions)
            == Completes(lib, cfg, s, actions[0]) + Completed(lib, cfg, Next(lib, cfg, s, actions[0]), actions[1..])
  {
  }

  lemma SaneAtStart(lib: Library, cfg: ServerConfig)
    ensures Sane(lib, cfg, START, R.EMPTY) && Between(START, R.EMPTY)
  {
  }

  lemma QuietMeansBetween(s: State, r: R.State)
    requires Simulates(s, r) && Serial.Quiet(s.threads)
    ensures Between(s, r)
  {
    if t :| Inside(s, r, t) {
      assert C.Busy(s.threads, t);
    }
  }

  /** Every run of sections from the empty server in which no handler is interrupted leads, when none is under
      way, where some run of handlers leads: same hosts, sessions, controls and listeners. The events of that run
      are the requests, starts, ends and dials that the run of sections completes, in that order. */
  lemma {:induction false} LockRunIsHandlerRun(lib: Library, cfg: ServerConfig, actions: seq<Action>)
    returns (es: seq<R.Event>)
    requires NoneInterrupted(lib, cfg, START, actions)
    ensures IsRun(lib, cfg, START, actions) && R.IsRun(lib, cfg, R.EMPTY, es)
    ensures Serial.Quiet(After(lib, cfg, START, actions).threads) ==>
              Between(After(lib, cfg, START, actions), R.After(lib, cfg, R.EMPTY, es))
    ensures Kinds(es) == Completed(lib, cfg, START, actions)
  {
    SaneAtStart(lib, cfg);
    var r';
    es, r' := SectionsAreHandlers(lib, cfg, START, R.EMPTY, R.EMPTY, [], actions);
    if Serial.Quiet(After(lib, cfg, START, actions).threads) {
      QuietMeansBetween(After(lib, cfg, START, actions), r');
    }
  }

  /** And so the chain of the handler level holds of the tables of every such run. */
  lemma {:induction false} ChainBetweenHandlers(lib: Library, cfg: ServerConfig, actions: seq<Action>, id: string)
    requires NoneInterrupted(lib, cfg, START, actions)
    ensures IsRun(lib, cfg, START, actions)
    ensures var s := After(lib, cfg, START, actions);
            Serial.Quiet(s.threads) ==>
              (id in s.controls ==> id in s.sessions) && (id in s.sessions ==> HostOwned(s.hosts, id))
  {
    var es := LockRunIsHandlerRun(lib, cfg, actions);
    var s, r := After(lib, cfg, START, actions), R.After(lib, cfg, R.EMPTY, es);
    RS.RunsKeepChain(lib, cfg, R.EMPTY, es);
    if Serial.Quiet(s.threads) && id in s.sessions {
      assert id in RS.Owners(r.hosts);
      var h :| h in r.hosts && r.hosts[h].identifier == id;
      assert s.hosts[h].identifier == id;
    }
  }
}
