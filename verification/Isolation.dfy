/** Clients whose claims do not overlap cannot be told apart from clients that have the server to
    themselves: handler-level non-interference. */
module Isolation {

  import opened Base
  import opened VirtualHosts
  import opened Admission
  import opened Registry
  import opened RegistrySafety

  /** The part of the server's state that belongs to one identifier. */
  datatype View = View(
    hosts: Mapping,
    session: Option<SessionId>,
    control: Option<ControlId>,
    state: Option<ClientState>,
    onConnect: Option<Callback>,
    onDisconnect: Option<Callback>,
    listeners: map<ControlId, Listener>,
    changes: seq<Change>)

  function ChangesOf(changes: seq<Change>, id: string): seq<Change> {
    if changes == [] then []
    else
      var init := ChangesOf(changes[..|changes| - 1], id);
      var last := changes[|changes| - 1];
      if last.identifier == id then init + [last] else init
  }

  function Only(m: Mapping, id: string): Mapping {
    map h | h in m && m[h].identifier == id :: m[h]
  }

  function ListenersOf(listeners: map<ControlId, Listener>, id: string): map<ControlId, Listener> {
    map c | c in listeners && listeners[c].identifier == id :: listeners[c]
  }

  function ViewOf(s: State, id: string): View {
    View(Only(s.hosts, id), Get(s.sessions, id), Get(s.controls, id), Get(s.states, id),
         Get(s.onConnect, id), Get(s.onDisconnect, id), ListenersOf(s.listeners, id), ChangesOf(s.changes, id))
  }

  // ---------------------------------------------------------------------------------------------
  // Somebody else's event

  lemma {:induction false} ChangeStateView(s: State, o: string, id: string, current: ClientState, error: Option<Failure>)
    ensures var s' := ChangeState(s, o, current, error);
            ViewOf(s', id) == if o != id then ViewOf(s, id)
                              else ViewOf(s, id).(state := Some(current),
                                                  changes := ChangesOf(s.changes, id)
                                                             + [Change(id, StateOf(s, id), current, error)])
  {
    var s' := ChangeState(s, o, current, error);
    assert s'.changes[..|s'.changes| - 1] == s.changes;
  }

  lemma OnDisconnectView(s: State, o: string, id: string, why: Failure)
    ensures var v := ViewOf(s, id);
            ViewOf(OnDisconnect(s, o, why), id)
            == if o != id then v
               else v.(onDisconnect := None, state := Some(Closed),
                       changes := v.changes + [Change(id, StateOf(s, id), Closed, Some(why))])
  {
    var s1 := s.(onDisconnect := s.onDisconnect - {o}, called := Call(s.called, s.onDisconnect, o));
    ChangeStateView(s1, o, id, Closed, Some(why));
  }

  lemma OnConnectView(s: State, o: string, id: string)
    ensures var v := ViewOf(s, id);
            ViewOf(OnConnect(s, o), id)
            == if o != id then v
               else v.(onConnect := None, state := Some(Connected),
                       changes := v.changes + [Change(id, StateOf(s, id), Connected, None)])
  {
    var s1 := s.(onConnect := s.onConnect - {o}, called := Call(s.called, s.onConnect, o));
    ChangeStateView(s1, o, id, Connected, None);
  }

  lemma HostViews(m: Mapping, domain: string, o: string, rules: seq<Rule>, id: string)
    requires !InUseByAnother(m, domain, o)
    ensures Only(Without(m, o), id) == if o == id then map[] else Only(m, id)
    ensures Only(Claimed(m, domain, o, rules), id)
            == if o == id then map[domain := VirtualHost(id, rules)] else Only(m, id)
  {
  }

  lemma SettledHosts(s: State, o: string, domain: string, rules: seq<Rule>, out: Outcome,
                     session: SessionId, ctl: ControlId, id: string)
    requires !InUseByAnother(s.hosts, domain, o)
    ensures var s' := Settled(s, o, domain, rules, out, session, ctl);
            var dropped := if o in s.controls then o in s.sessions else FailsAfterSession(out);
            Only(s'.hosts, id)
            == if o != id then Only(s.hosts, id) else if dropped then map[] else map[domain := VirtualHost(id, rules)]
  {
    HostViews(s.hosts, domain, o, rules, id);
  }

  lemma SettledListeners(s: State, o: string, domain: string, rules: seq<Rule>, out: Outcome,
                         session: SessionId, ctl: ControlId, id: string)
    requires ctl !in s.listeners
    ensures var s' := Settled(s, o, domain, rules, out, session, ctl);
            ListenersOf(s'.listeners, id)
            == if o == id && id !in s.controls && out == Succeeds
               then ListenersOf(s.listeners, id)[ctl := Listener(id, Spawned)]
               else ListenersOf(s.listeners, id)
  {
    if o != id {
      assert ListenersOf(s.listeners[ctl := Listener(o, Spawned)], id) == ListenersOf(s.listeners, id);
    } else {
      ListenerViews(s.listeners, ctl, id, Spawned);
    }
  }

  lemma SettledSessions(s: State, o: string, domain: string, rules: seq<Rule>, out: Outcome,
                        session: SessionId, ctl: ControlId, id: string)
    ensures Get(Settled(s, o, domain, rules, out, session, ctl).sessions, id)
            == if o != id then Get(s.sessions, id)
               else if id in s.controls then None
               else if FailsAfterSession(out) then None
               else if out == Succeeds then Some(session)
               else Get(s.sessions, id)
  {
  }

  lemma SettledControls(s: State, o: string, domain: string, rules: seq<Rule>, out: Outcome,
                        session: SessionId, ctl: ControlId, id: string)
    ensures Get(Settled(s, o, domain, rules, out, session, ctl).controls, id)
            == if o != id then Get(s.controls, id)
               else if id !in s.controls && out == Succeeds then Some(ctl)
               else None
  {
  }

  lemma SettledRest(s: State, o: string, domain: string, rules: seq<Rule>, out: Outcome,
                    session: SessionId, ctl: ControlId)
    ensures var s' := Settled(s, o, domain, rules, out, session, ctl);
            && s'.states == s.states && s'.changes == s.changes
            && s'.onConnect == s.onConnect && s'.onDisconnect == s.onDisconnect
  {
  }

  lemma SettledViewOther(s: State, o: string, domain: string, rules: seq<Rule>, out: Outcome,
                         session: SessionId, ctl: ControlId, id: string)
    requires o != id && ctl !in s.listeners && !InUseByAnother(s.hosts, domain, o)
    ensures ViewOf(Settled(s, o, domain, rules, out, session, ctl), id) == ViewOf(s, id)
  {
    SettledHosts(s, o, domain, rules, out, session, ctl, id);
    SettledListeners(s, o, domain, rules, out, session, ctl, id);
    SettledSessions(s, o, domain, rules, out, session, ctl, id);
    SettledControls(s, o, domain, rules, out, session, ctl, id);
    SettledRest(s, o, domain, rules, out, session, ctl);
  }

  lemma ConnectViewOther(lib: Library, cfg: ServerConfig, s: State, req: ControlRequest, out: Outcome,
                         session: SessionId, ctl: ControlId, id: string)
    requires OneHostEach(s.hosts) && ctl !in s.listeners && req.identifier != id
    ensures ViewOf(Connect(lib, cfg, s, req, out, session, ctl).0, id) == ViewOf(s, id)
  {
    ConnectEffect(lib, cfg, s, req, out, session, ctl);
    if Claims(lib, cfg, s, req) {
      var v := Judge(lib, cfg, req);
      SettledViewOther(s, req.identifier, v.domain, v.rules, out, session, ctl, id);
      OnDisconnectView(Settled(s, req.identifier, v.domain, v.rules, out, session, ctl), req.identifier, id,
                       SettledReply(s, req.identifier, out).1);
    }
  }

  lemma StartViewOther(s: State, o: string, ctl: ControlId, id: string)
    requires Enabled(s, StartEvent(o, ctl)) && o != id
    ensures ViewOf(ListenerStarts(s, o, ctl), id) == ViewOf(s, id)
  {
    var s1 := s.(listeners := s.listeners[ctl := Listener(o, Listening)]);
    OnConnectView(s1, o, id);
    assert ListenersOf(s1.listeners, id) == ListenersOf(s.listeners, id);
  }

  /** The state between the cleanup of a listener and its report. */
  function Cleaned(s: State, id: string, ctl: ControlId): State {
    s.(listeners := s.listeners - {ctl}, controls := s.controls - {id}, sessions := s.sessions - {id},
       hosts := if id in s.sessions then Without(s.hosts, id) else s.hosts)
  }

  lemma CleanedView(s: State, o: string, ctl: ControlId, id: string)
    requires ctl in s.listeners ==> s.listeners[ctl].identifier == o
    ensures ViewOf(Cleaned(s, o, ctl), id)
            == if o != id then ViewOf(s, id)
               else ViewOf(s, id).(listeners := ListenersOf(s.listeners, id) - {ctl}, control := None, session := None,
                                   hosts := if id in s.sessions then map[] else Only(s.hosts, id))
  {
    CleanedHosts(s, o, ctl, id);
    ListenerViews(s.listeners, ctl, id, Listening);
    if o != id {
      CleanedListeners(s, o, ctl, id);
    }
  }

  lemma CleanedHosts(s: State, o: string, ctl: ControlId, id: string)
    ensures Only(Cleaned(s, o, ctl).hosts, id)
            == if o == id && id in s.sessions then map[] else Only(s.hosts, id)
    ensures Get(Cleaned(s, o, ctl).sessions, id) == if o == id then None else Get(s.sessions, id)
    ensures Get(Cleaned(s, o, ctl).controls, id) == if o == id then None else Get(s.controls, id)
  {
  }

  lemma CleanedListeners(s: State, o: string, ctl: ControlId, id: string)
    requires o != id && (ctl in s.listeners ==> s.listeners[ctl].identifier == o)
    ensures ListenersOf(Cleaned(s, o, ctl).listeners, id) == ListenersOf(s.listeners, id)
  {
  }

  lemma EndView(s: State, o: string, ctl: ControlId, id: string)
    requires OneHostEach(s.hosts) && (ctl in s.listeners ==> s.listeners[ctl].identifier == o)
    ensures var v := ViewOf(s, id);
            ViewOf(ListenerEnds(s, o, ctl), id)
            == if o != id then v
               else v.(listeners := v.listeners - {ctl}, control := None, session := None,
                       hosts := if id in s.sessions then map[] else v.hosts,
                       onDisconnect := None, state := Some(Closed),
                       changes := v.changes + [Change(id, StateOf(s, id), Closed, Some(ConnectionLost))])
  {
    EndEffect(s, o, ctl);
    CleanedView(s, o, ctl, id);
    OnDisconnectView(Cleaned(s, o, ctl), o, id, ConnectionLost);
  }

  lemma ListenerViews(listeners: map<ControlId, Listener>, ctl: ControlId, id: string, phase: Phase)
    ensures ListenersOf(listeners[ctl := Listener(id, phase)], id)
            == ListenersOf(listeners, id)[ctl := Listener(id, phase)]
    ensures ListenersOf(listeners - {ctl}, id) == ListenersOf(listeners, id) - {ctl}
  {
  }

  lemma SmallEventView(lib: Library, cfg: ServerConfig, s: State, e: Event, id: string)
    requires e.DialEvent? || e.OnConnectEvent? || e.OnDisconnectEvent?
    ensures var v := ViewOf(s, id);
            ViewOf(Next(lib, cfg, s, e), id)
            == if Subject(e) != id then v
               else match e
                 case DialEvent(_, sent) => if v.control.Some? && v.session.Some? && !sent then v.(control := None) else v
                 case OnConnectEvent(_, callback) => v.(onConnect := Some(callback))
                 case OnDisconnectEvent(_, callback) => v.(onDisconnect := Some(callback))
                 case _ => v
  {
  }

  /** No event of another client changes what belongs to this one, overlapping claims or not. */
  lemma OthersLeaveMyViewAlone(lib: Library, cfg: ServerConfig, s: State, e: Event, id: string)
    requires OneHostEach(s.hosts) && Enabled(s, e) && Subject(e) != id
    ensures ViewOf(Next(lib, cfg, s, e), id) == ViewOf(s, id)
  {
    match e
    case ConnectEvent(req, out, session, ctl) => ConnectViewOther(lib, cfg, s, req, out, session, ctl, id);
    case StartEvent(o, ctl) => StartViewOther(s, o, ctl, id);
    case EndEvent(o, ctl) => EndView(s, o, ctl, id);
    case _ => SmallEventView(lib, cfg, s, e, id);
  }

  // ---------------------------------------------------------------------------------------------
  // One's own event

  lemma SameKeys(s: State, t: State, id: string)
    requires ViewOf(s, id) == ViewOf(t, id)
    ensures (id in s.sessions <==> id in t.sessions) && (id in s.controls <==> id in t.controls)
    ensures StateOf(s, id) == StateOf(t, id)
    ensures ListenersOf(s.listeners, id) == ListenersOf(t.listeners, id)
  {
    assert Get(s.sessions, id) == Get(t.sessions, id) && Get(s.controls, id) == Get(t.controls, id);
    assert Get(s.states, id) == Get(t.states, id);
  }

  lemma SettledViewOwn(s: State, t: State, id: string, domain: string, rules: seq<Rule>, out: Outcome,
                       session: SessionId, ctl: ControlId)
    requires ViewOf(s, id) == ViewOf(t, id) && ctl !in s.listeners && ctl !in t.listeners
    requires !InUseByAnother(s.hosts, domain, id) && !InUseByAnother(t.hosts, domain, id)
    ensures ViewOf(Settled(s, id, domain, rules, out, session, ctl), id)
            == ViewOf(Settled(t, id, domain, rules, out, session, ctl), id)
  {
    SameKeys(s, t, id);
    SettledHosts(s, id, domain, rules, out, session, ctl, id);
    SettledHosts(t, id, domain, rules, out, session, ctl, id);
    SettledListeners(s, id, domain, rules, out, session, ctl, id);
    SettledListeners(t, id, domain, rules, out, session, ctl, id);
    SettledSessions(s, id, domain, rules, out, session, ctl, id);
    SettledControls(s, id, domain, rules, out, session, ctl, id);
    SettledRest(s, id, domain, rules, out, session, ctl);
    SettledSessions(t, id, domain, rules, out, session, ctl, id);
    SettledControls(t, id, domain, rules, out, session, ctl, id);
    SettledRest(t, id, domain, rules, out, session, ctl);
  }

  lemma ConnectSameEffect(lib: Library, cfg: ServerConfig, s: State, t: State, req: ControlRequest, out: Outcome,
                          session: SessionId, ctl: ControlId)
    requires OneHostEach(s.hosts) && OneHostEach(t.hosts) && ViewOf(s, req.identifier) == ViewOf(t, req.identifier)
    requires Claims(lib, cfg, s, req) == Claims(lib, cfg, t, req) && ctl !in s.listeners && ctl !in t.listeners
    ensures ViewOf(Connect(lib, cfg, s, req, out, session, ctl).0, req.identifier)
            == ViewOf(Connect(lib, cfg, t, req, out, session, ctl).0, req.identifier)
  {
    var id := req.identifier;
    SameKeys(s, t, id);
    ConnectEffect(lib, cfg, s, req, out, session, ctl);
    ConnectEffect(lib, cfg, t, req, out, session, ctl);
    if Claims(lib, cfg, s, req) {
      var v := Judge(lib, cfg, req);
      SettledViewOwn(s, t, id, v.domain, v.rules, out, session, ctl);
      var s1 := Settled(s, id, v.domain, v.rules, out, session, ctl);
      var t1 := Settled(t, id, v.domain, v.rules, out, session, ctl);
      SameKeys(s1, t1, id);
      OnDisconnectView(s1, id, id, SettledReply(s, id, out).1);
      OnDisconnectView(t1, id, id, SettledReply(t, id, out).1);
    }
  }

  lemma StartSameEffect(s: State, t: State, ctl: ControlId, id: string)
    requires ViewOf(s, id) == ViewOf(t, id)
    ensures ViewOf(ListenerStarts(s, id, ctl), id) == ViewOf(ListenerStarts(t, id, ctl), id)
  {
    SameKeys(s, t, id);
    var s1 := s.(listeners := s.listeners[ctl := Listener(id, Listening)]);
    var t1 := t.(listeners := t.listeners[ctl := Listener(id, Listening)]);
    ListenerViews(s.listeners, ctl, id, Listening);
    ListenerViews(t.listeners, ctl, id, Listening);
    OnConnectView(s1, id, id);
    OnConnectView(t1, id, id);
  }

  /** The same event of the client has the same effect on two states that look the same to it, as long as
      nobody else holds the host it asks for in either. */
  lemma OwnEventSameEffect(lib: Library, cfg: ServerConfig, s: State, t: State, e: Event, id: string)
    requires OneHostEach(s.hosts) && OneHostEach(t.hosts) && Enabled(s, e) && Enabled(t, e)
    requires Subject(e) == id && ViewOf(s, id) == ViewOf(t, id)
    requires Claim(lib, cfg, e).Some? ==>
               && !InUseByAnother(s.hosts, Claim(lib, cfg, e).value, id)
               && !InUseByAnother(t.hosts, Claim(lib, cfg, e).value, id)
    ensures ViewOf(Next(lib, cfg, s, e), id) == ViewOf(Next(lib, cfg, t, e), id)
  {
    match e
    case ConnectEvent(req, out, session, ctl) => ConnectSameEffect(lib, cfg, s, t, req, out, session, ctl);
    case StartEvent(_, ctl) => StartSameEffect(s, t, ctl, id);
    case EndEvent(_, ctl) =>
      SameKeys(s, t, id);
      EndView(s, id, ctl, id);
      EndView(t, id, ctl, id);
    case _ =>
      SmallEventView(lib, cfg, s, e, id);
      SmallEventView(lib, cfg, t, e, id);
  }

  // ---------------------------------------------------------------------------------------------
  // Whole runs

  /** The domain an event asks for, if its request passes the tests. */
  function Claim(lib: Library, cfg: ServerConfig, e: Event): Option<string> {
    if e.ConnectEvent? && Judge(lib, cfg, e.req).Admitted? then Some(Judge(lib, cfg, e.req).domain) else None
  }

  predicate Disjoint(lib: Library, cfg: ServerConfig, es: seq<Event>) {
    forall i, j :: 0 <= i < |es| && 0 <= j < |es| && Claim(lib, cfg, es[i]).Some?
                   && Claim(lib, cfg, es[i]) == Claim(lib, cfg, es[j])
      ==> Subject(es[i]) == Subject(es[j])
  }

  function OwnEvents(es: seq<Event>, id: string): seq<Event> {
    if es == [] then []
    else
      var init := OwnEvents(es[..|es| - 1], id);
      var last := es[|es| - 1];
      if Subject(last) == id then init + [last] else init
  }

  ghost predicate WasClaimed(lib: Library, cfg: ServerConfig, es: seq<Event>, host: string, id: string) {
    exists e :: e in es && Claim(lib, cfg, e) == Some(host) && Subject(e) == id
  }

  lemma NextHostsWereClaimed(lib: Library, cfg: ServerConfig, s: State, e: Event, host: string)
    requires OneHostEach(s.hosts)
    ensures var s' := Next(lib, cfg, s, e);
            host in s'.hosts ==>
              (host in s.hosts && s'.hosts[host].identifier == s.hosts[host].identifier)
              || (Claim(lib, cfg, e) == Some(host) && s'.hosts[host].identifier == Subject(e))
  {
    match e
    case ConnectEvent(req, out, session, ctl) => ConnectTables(lib, cfg, s, req, out, session, ctl);
    case EndEvent(id, ctl) => EndEffect(s, id, ctl);
    case _ =>
  }

  ghost predicate HostsClaimed(lib: Library, cfg: ServerConfig, hosts: Mapping, es: seq<Event>) {
    forall h :: h in hosts ==> WasClaimed(lib, cfg, es, h, hosts[h].identifier)
  }

  lemma {:induction false} HostsWereClaimed(lib: Library, cfg: ServerConfig, es: seq<Event>)
    requires IsRun(lib, cfg, EMPTY, es)
    ensures HostsClaimed(lib, cfg, After(lib, cfg, EMPTY, es).hosts, es)
  {
    if es != [] {
      var init, e := es[..|es| - 1], es[|es| - 1];
      HostsWereClaimed(lib, cfg, init);
      RunsKeepChain(lib, cfg, EMPTY, init);
      var s, s' := After(lib, cfg, EMPTY, init), After(lib, cfg, EMPTY, es);
      forall h | h in s'.hosts ensures WasClaimed(lib, cfg, es, h, s'.hosts[h].identifier) {
        NextHostsWereClaimed(lib, cfg, s, e, h);
        if h in s.hosts && s'.hosts[h].identifier == s.hosts[h].identifier {
          assert WasClaimed(lib, cfg, init, h, s.hosts[h].identifier);
          var x :| x in init && Claim(lib, cfg, x) == Some(h) && Subject(x) == s.hosts[h].identifier;
          assert x in es;
        }
      }
    }
  }

  lemma {:induction false} NoRival(lib: Library, cfg: ServerConfig, init: seq<Event>, e: Event, id: string)
    requires IsRun(lib, cfg, EMPTY, init) && Disjoint(lib, cfg, init + [e]) && Subject(e) == id && Claim(lib, cfg, e).Some?
    ensures !InUseByAnother(After(lib, cfg, EMPTY, init).hosts, Claim(lib, cfg, e).value, id)
  {
    HostsWereClaimed(lib, cfg, init);
    var s, h := After(lib, cfg, EMPTY, init), Claim(lib, cfg, e).value;
    if h in s.hosts {
      assert WasClaimed(lib, cfg, init, h, s.hosts[h].identifier);
      var x :| x in init && Claim(lib, cfg, x) == Some(h) && Subject(x) == s.hosts[h].identifier;
      var i :| 0 <= i < |init| && init[i] == x;
      assert (init + [e])[i] == x && (init + [e])[|init|] == e;
    }
  }

  ghost predicate Alone(s: State, id: string) {
    && (forall c :: c in s.listeners ==> s.listeners[c].identifier == id)
    && (forall h :: h in s.hosts ==> s.hosts[h].identifier == id)
  }

  lemma {:induction false} OwnRunIsAlone(lib: Library, cfg: ServerConfig, es: seq<Event>, id: string)
    requires IsRun(lib, cfg, EMPTY, OwnEvents(es, id))
    ensures Alone(After(lib, cfg, EMPTY, OwnEvents(es, id)), id)
  {
    if es != [] {
      var init, e := es[..|es| - 1], es[|es| - 1];
      if Subject(e) == id {
        assert OwnEvents(es, id)[..|OwnEvents(es, id)| - 1] == OwnEvents(init, id);
        OwnRunIsAlone(lib, cfg, init, id);
        RunsKeepChain(lib, cfg, EMPTY, OwnEvents(init, id));
        var t, t' := After(lib, cfg, EMPTY, OwnEvents(init, id)), After(lib, cfg, EMPTY, OwnEvents(es, id));
        forall h | h in t'.hosts ensures t'.hosts[h].identifier == id {
          NextHostsWereClaimed(lib, cfg, t, e, h);
        }
        NextListeners(lib, cfg, t, e);
      } else {
        OwnRunIsAlone(lib, cfg, init, id);
      }
    }
  }

  lemma NextListeners(lib: Library, cfg: ServerConfig, s: State, e: Event)
    requires OneHostEach(s.hosts)
    ensures var s' := Next(lib, cfg, s, e);
            forall c :: c in s'.listeners ==>
              (c in s.listeners && s'.listeners[c] == s.listeners[c]) || s'.listeners[c].identifier == Subject(e)
  {
    match e
    case ConnectEvent(req, out, session, ctl) => ConnectTables(lib, cfg, s, req, out, session, ctl);
    case EndEvent(id, ctl) => EndEffect(s, id, ctl);
    case _ =>
  }

  lemma {:induction false} OwnStep(lib: Library, cfg: ServerConfig, init: seq<Event>, e: Event, id: string)
    requires IsRun(lib, cfg, EMPTY, init) && Disjoint(lib, cfg, init + [e]) && Subject(e) == id
    requires Enabled(After(lib, cfg, EMPTY, init), e)
    requires IsRun(lib, cfg, EMPTY, OwnEvents(init, id))
    requires ViewOf(After(lib, cfg, EMPTY, init), id) == ViewOf(After(lib, cfg, EMPTY, OwnEvents(init, id)), id)
    ensures var s, t := After(lib, cfg, EMPTY, init), After(lib, cfg, EMPTY, OwnEvents(init, id));
            Enabled(t, e) && ViewOf(Next(lib, cfg, s, e), id) == ViewOf(Next(lib, cfg, t, e), id)
  {
    var s, t := After(lib, cfg, EMPTY, init), After(lib, cfg, EMPTY, OwnEvents(init, id));
    RunsKeepChain(lib, cfg, EMPTY, init);
    RunsKeepChain(lib, cfg, EMPTY, OwnEvents(init, id));
    OwnRunIsAlone(lib, cfg, init, id);
    OwnEventEnabled(s, t, e, id);
    if Claim(lib, cfg, e).Some? {
      NoRival(lib, cfg, init, e, id);
    }
    OwnEventSameEffect(lib, cfg, s, t, e, id);
  }

  ghost predicate SeesOwnRun(lib: Library, cfg: ServerConfig, es: seq<Event>, id: string) {
    && IsRun(lib, cfg, EMPTY, OwnEvents(es, id))
    && ViewOf(After(lib, cfg, EMPTY, es), id) == ViewOf(After(lib, cfg, EMPTY, OwnEvents(es, id)), id)
  }

  lemma {:induction false} OwnEventsMore(es: seq<Event>, e: Event, id: string)
    ensures OwnEvents(es + [e], id) == if Subject(e) == id then OwnEvents(es, id) + [e] else OwnEvents(es, id)
  {
    assert (es + [e])[..|es|] == es;
  }

  lemma {:induction false} OwnEventLast(lib: Library, cfg: ServerConfig, init: seq<Event>, e: Event, id: string)
    requires IsRun(lib, cfg, EMPTY, init) && Enabled(After(lib, cfg, EMPTY, init), e)
    requires Disjoint(lib, cfg, init + [e]) && Subject(e) == id && SeesOwnRun(lib, cfg, init, id)
    ensures SeesOwnRun(lib, cfg, init + [e], id)
  {
    var own := OwnEvents(init, id);
    OwnEventsMore(init, e, id);
    OwnStep(lib, cfg, init, e, id);
    OneMoreEvent(lib, cfg, EMPTY, init, e);
    OneMoreEvent(lib, cfg, EMPTY, own, e);
  }

  lemma {:induction false} OthersEventLast(lib: Library, cfg: ServerConfig, init: seq<Event>, e: Event, id: string)
    requires IsRun(lib, cfg, EMPTY, init) && Enabled(After(lib, cfg, EMPTY, init), e)
    requires Subject(e) != id && SeesOwnRun(lib, cfg, init, id)
    ensures SeesOwnRun(lib, cfg, init + [e], id)
  {
    OwnEventsMore(init, e, id);
    RunsKeepChain(lib, cfg, EMPTY, init);
    OthersLeaveMyViewAlone(lib, cfg, After(lib, cfg, EMPTY, init), e, id);
    OneMoreEvent(lib, cfg, EMPTY, init, e);
  }

  /** Non-interference: whatever the interleaving, the client's host, session, control, state, callbacks,
      listeners and announced changes are those of a run of its own events alone. */
  lemma {:induction false} NonInterference(lib: Library, cfg: ServerConfig, es: seq<Event>, id: string)
    requires IsRun(lib, cfg, EMPTY, es) && Disjoint(lib, cfg, es)
    ensures IsRun(lib, cfg, EMPTY, OwnEvents(es, id))
    ensures ViewOf(After(lib, cfg, EMPTY, es), id) == ViewOf(After(lib, cfg, EMPTY, OwnEvents(es, id)), id)
  {
    if es != [] {
      var init, e := es[..|es| - 1], es[|es| - 1];
      assert init + [e] == es;
      NonInterference(lib, cfg, init, id);
      assert SeesOwnRun(lib, cfg, init, id);
      if Subject(e) == id {
        OwnEventLast(lib, cfg, init, e, id);
      } else {
        OthersEventLast(lib, cfg, init, e, id);
      }
    }
  }

  lemma OwnEventEnabled(s: State, t: State, e: Event, id: string)
    requires ViewOf(s, id) == ViewOf(t, id) && Enabled(s, e) && Subject(e) == id
    requires forall c :: c in t.listeners ==> t.listeners[c].identifier == id
    ensures Enabled(t, e)
  {
    assert forall c :: c in t.listeners ==> c in ListenersOf(t.listeners, id);
    assert ListenersOf(s.listeners, id) == ListenersOf(t.listeners, id);
    match e
    case StartEvent(_, ctl) => assert ctl in ListenersOf(s.listeners, id);
    case EndEvent(_, ctl) => assert ctl in ListenersOf(s.listeners, id);
    case ConnectEvent(_, _, _, ctl) => assert ctl in t.listeners ==> ctl in ListenersOf(s.listeners, id);
    case _ =>
  }

  // ---------------------------------------------------------------------------------------------
  // The announced changes of one client

  /** Each change starts where the one before it ended, the first from Unknown. */
  predicate OnePath(changes: seq<Change>) {
    && (changes != [] ==> changes[0].previous == Unknown)
    && forall i :: 0 < i < |changes| ==> changes[i].previous == changes[i - 1].current
  }

  predicate Faithful(changes: seq<Change>, state: Option<ClientState>) {
    && OnePath(changes)
    && state == (if changes == [] then None else Some(changes[|changes| - 1].current))
  }

  /** From v to v' the state and the changes stay, or move on together. */
  ghost predicate Announced(v: View, v': View, id: string) {
    || (v'.changes == v.changes && v'.state == v.state)
    || exists change: Change ::
         && v'.changes == v.changes + [change]
         && v'.state == Some(change.current)
         && change.identifier == id
         && change.previous == if v.state.Some? then v.state.value else Unknown
  }

  lemma AnnouncedKeepsFaithful(v: View, v': View, id: string)
    requires Faithful(v.changes, v.state) && Announced(v, v', id)
    ensures Faithful(v'.changes, v'.state)
  {
  }

  lemma DisconnectAnnounced(s: State, s1: State, id: string, why: Failure)
    requires s1.states == s.states && s1.changes == s.changes
    ensures Announced(ViewOf(s, id), ViewOf(s1, id), id)
    ensures Announced(ViewOf(s, id), ViewOf(OnDisconnect(s1, id, why), id), id)
  {
    OnDisconnectView(s1, id, id, why);
    assert ViewOf(s1, id).changes == ViewOf(s, id).changes && ViewOf(s1, id).state == ViewOf(s, id).state;
  }

  lemma ConnectAnnounced(lib: Library, cfg: ServerConfig, s: State, req: ControlRequest, out: Outcome,
                         session: SessionId, ctl: ControlId)
    requires OneHostEach(s.hosts)
    ensures Announced(ViewOf(s, req.identifier), ViewOf(Connect(lib, cfg, s, req, out, session, ctl).0, req.identifier),
                      req.identifier)
  {
    var id := req.identifier;
    ConnectEffect(lib, cfg, s, req, out, session, ctl);
    if Claims(lib, cfg, s, req) {
      var v := Judge(lib, cfg, req);
      SettledRest(s, id, v.domain, v.rules, out, session, ctl);
      DisconnectAnnounced(s, Settled(s, id, v.domain, v.rules, out, session, ctl), id, SettledReply(s, id, out).1);
    }
  }

  lemma NextAnnounced(lib: Library, cfg: ServerConfig, s: State, e: Event, id: string)
    requires OneHostEach(s.hosts) && Enabled(s, e)
    ensures Announced(ViewOf(s, id), ViewOf(Next(lib, cfg, s, e), id), id)
  {
    if Subject(e) != id {
      OthersLeaveMyViewAlone(lib, cfg, s, e, id);
    } else {
      match e
      case ConnectEvent(req, out, session, ctl) => ConnectAnnounced(lib, cfg, s, req, out, session, ctl);
      case StartEvent(_, ctl) =>
        OnConnectView(s.(listeners := s.listeners[ctl := Listener(id, Listening)]), id, id);
      case EndEvent(_, ctl) => EndView(s, id, ctl, id);
      case _ => SmallEventView(lib, cfg, s, e, id);
    }
  }

  /** On every run the changes announced for a client form one path that ends in its recorded state. */
  lemma {:induction false} AnnouncedChangesConnected(lib: Library, cfg: ServerConfig, es: seq<Event>, id: string)
    requires IsRun(lib, cfg, EMPTY, es)
    ensures Faithful(ChangesOf(After(lib, cfg, EMPTY, es).changes, id), Get(After(lib, cfg, EMPTY, es).states, id))
  {
    if es != [] {
      var init, e := es[..|es| - 1], es[|es| - 1];
      AnnouncedChangesConnected(lib, cfg, init, id);
      RunsKeepChain(lib, cfg, EMPTY, init);
      var s := After(lib, cfg, EMPTY, init);
      NextAnnounced(lib, cfg, s, e, id);
      AnnouncedKeepsFaithful(ViewOf(s, id), ViewOf(Next(lib, cfg, s, e), id), id);
    }
  }

  // ---------------------------------------------------------------------------------------------
  // Which changes are announced

  type Report = (ClientState, Option<Failure>)

  function Shown(changes: seq<Change>): seq<Report> {
    seq(|changes|, i requires 0 <= i < |changes| => (changes[i].current, changes[i].error))
  }

  /** Why an attempt that has claimed its host fails, if it does. */
  function WhyConnectFails(s: State, id: string, out: Outcome): Option<Failure> {
    if id in s.controls then Some(ControlExists)
    else if out == NoHijacker || out == HijackFails then Some(CannotHijack)
    else if out == Succeeds then None
    else Some(AfterHijack)
  }

  /** What the event announces for the client: a connection when its listener starts, the end when its control
      loop ends or an attempt fails after the claim, except for a client without a name. */
  function Reports(lib: Library, cfg: ServerConfig, s: State, e: Event, id: string): seq<Report> {
    match e
    case StartEvent(o, _) => if o == id then [(Connected, None)] else []
    case EndEvent(o, _) => if o == id then [(Closed, Some(ConnectionLost))] else []
    case ConnectEvent(req, out, _, _) =>
      if req.identifier == id && id != "" && Claims(lib, cfg, s, req) && WhyConnectFails(s, id, out).Some?
      then [(Closed, WhyConnectFails(s, id, out))] else []
    case _ => []
  }

  ghost function Reported(lib: Library, cfg: ServerConfig, es: seq<Event>, id: string): seq<Report> {
    if es == [] then []
    else
      Reported(lib, cfg, es[..|es| - 1], id)
      + Reports(lib, cfg, After(lib, cfg, EMPTY, es[..|es| - 1]), es[|es| - 1], id)
  }

  lemma {:induction false} EndReported(s: State, s1: State, id: string, why: Failure)
    requires s1.changes == s.changes
    ensures Shown(ChangesOf(OnDisconnect(s1, id, why).changes, id)) == Shown(ChangesOf(s.changes, id)) + [(Closed, Some(why))]
  {
    OnDisconnectView(s1, id, id, why);
    assert ViewOf(s1, id).changes == ChangesOf(s.changes, id);
  }

  lemma ConnectReports(lib: Library, cfg: ServerConfig, s: State, req: ControlRequest, out: Outcome,
                       session: SessionId, ctl: ControlId)
    requires OneHostEach(s.hosts)
    ensures var id := req.identifier;
            Shown(ChangesOf(Connect(lib, cfg, s, req, out, session, ctl).0.changes, id))
            == Shown(ChangesOf(s.changes, id)) + Reports(lib, cfg, s, ConnectEvent(req, out, session, ctl), id)
  {
    ConnectEffect(lib, cfg, s, req, out, session, ctl);
    if Claims(lib, cfg, s, req) {
      var v := Judge(lib, cfg, req);
      SettledReports(s, req.identifier, v.domain, v.rules, out, session, ctl);
    }
  }

  /** A connect that gets past the claim reports its failure, unless it succeeds or the client has no name. */
  lemma {:induction false} SettledReports(s: State, id: string, domain: string, rules: seq<Rule>, out: Outcome,
                       session: SessionId, ctl: ControlId)
    ensures var s', (reply, why) := Settled(s, id, domain, rules, out, session, ctl), SettledReply(s, id, out);
            && s'.changes == s.changes
            && WhyConnectFails(s, id, out) == (if reply == Tunnel then None else Some(why))
            && (Shown(ChangesOf(OnDisconnect(s', id, why).changes, id))
                == Shown(ChangesOf(s.changes, id)) + [(Closed, Some(why))])
  {
    SettledRest(s, id, domain, rules, out, session, ctl);
    EndReported(s, Settled(s, id, domain, rules, out, session, ctl), id, SettledReply(s, id, out).1);
  }

  lemma NextReports(lib: Library, cfg: ServerConfig, s: State, e: Event, id: string)
    requires OneHostEach(s.hosts) && Enabled(s, e)
    ensures Shown(ViewOf(Next(lib, cfg, s, e), id).changes) == Shown(ViewOf(s, id).changes) + Reports(lib, cfg, s, e, id)
  {
    if Subject(e) != id {
      OthersLeaveMyViewAlone(lib, cfg, s, e, id);
    } else {
      match e
      case ConnectEvent(req, out, session, ctl) => ConnectReports(lib, cfg, s, req, out, session, ctl);
      case StartEvent(_, ctl) =>
        OnConnectView(s.(listeners := s.listeners[ctl := Listener(id, Listening)]), id, id);
      case EndEvent(_, ctl) => EndView(s, id, ctl, id);
      case _ => SmallEventView(lib, cfg, s, e, id);
    }
  }

  /** On every run exactly these changes are announced for a client, in the order of their events. */
  lemma {:induction false} AnnouncedChangesAre(lib: Library, cfg: ServerConfig, es: seq<Event>, id: string)
    requires IsRun(lib, cfg, EMPTY, es)
    ensures Shown(ChangesOf(After(lib, cfg, EMPTY, es).changes, id)) == Reported(lib, cfg, es, id)
  {
    if es != [] {
      var init, e := es[..|es| - 1], es[|es| - 1];
      AnnouncedChangesAre(lib, cfg, init, id);
      RunsKeepChain(lib, cfg, EMPTY, init);
      NextReports(lib, cfg, After(lib, cfg, EMPTY, init), e, id);
    }
  }
}
