/** What every handler keeps, and what a whole connect leaves behind. */
module RegistrySafety {

  import opened Base
  import opened VirtualHosts
  import opened Admission
  import opened Registry

  ghost function Owners(m: Mapping): set<string> {
    set h | h in m :: m[h].identifier
  }

  ghost predicate HasListener(listeners: map<ControlId, Listener>, id: string) {
    exists ctl :: ctl in listeners && listeners[ctl].identifier == id
  }

  /** A control implies a session, a session implies a host. Each registered control has its own listener
      running, and each session some listener of its client that will take it down. */
  ghost predicate Linked(owners: set<string>, sessions: set<string>, controls: map<string, ControlId>,
                         listeners: map<ControlId, Listener>)
  {
    && controls.Keys <= sessions <= owners
    && (forall id :: id in controls ==> controls[id] in listeners && listeners[controls[id]].identifier == id)
    && (forall id :: id in sessions ==> HasListener(listeners, id))
  }

  ghost predicate Chain(s: State) {
    OneHostEach(s.hosts) && Linked(Owners(s.hosts), s.sessions.Keys, s.controls, s.listeners)
  }

  // ---------------------------------------------------------------------------------------------
  // What the two changes to the hosts do

  lemma WithoutOwner(m: Mapping, id: string)
    requires OneHostEach(m)
    ensures OneHostEach(Without(m, id))
    ensures Owners(Without(m, id)) == Owners(m) - {id}
    ensures HostsOf(Without(m, id), id) == {}
  {
    forall o | o in Owners(m) - {id} ensures o in Owners(Without(m, id)) {
      var h :| h in m && m[h].identifier == o;
      assert Without(m, id)[h].identifier == o;
    }
  }

  lemma ClaimedOwner(m: Mapping, host: string, id: string, rules: seq<Rule>)
    requires OneHostEach(m) && !InUseByAnother(m, host, id)
    ensures OneHostEach(Claimed(m, host, id, rules))
    ensures Owners(Claimed(m, host, id, rules)) == Owners(m) + {id}
    ensures HostOf(Claimed(m, host, id, rules), id) == Some(host)
    ensures Without(Claimed(m, host, id, rules), id) == Without(m, id)
  {
    var m' := Claimed(m, host, id, rules);
    WithoutOwner(m, id);
    assert host in HostsOf(m', id);
    forall o | o in Owners(m) + {id} ensures o in Owners(m') {
      if o != id {
        var h :| h in m && m[h].identifier == o;
        assert m'[h].identifier == o;
      }
    }
  }

  /** deleteSession, when there is a session, takes away exactly the client's own host. */
  lemma DeleteSessionEffect(s: State, id: string)
    requires OneHostEach(s.hosts)
    ensures DeleteSession(s, id)
            == if id in s.sessions then s.(sessions := s.sessions - {id}, hosts := Without(s.hosts, id)) else s
  {
    if id in s.sessions {
      var host := HostOf(s.hosts, id);
      if host.None? {
        assert forall h :: h in s.hosts && s.hosts[h].identifier == id ==> h in HostsOf(s.hosts, id);
        assert Without(s.hosts, id) == s.hosts;
      } else {
        assert Released(s.hosts, host.value) == Without(s.hosts, id);
      }
    }
  }

  // ---------------------------------------------------------------------------------------------
  // What a whole connect does

  /** A stale control is found together with a session, or the handshake fails after the session is stored. */
  predicate TearsDown(s: State, id: string, out: Outcome) {
    if id in s.controls then id in s.sessions else FailsAfterSession(out)
  }

  predicate SetsUp(s: State, id: string, out: Outcome) {
    id !in s.controls && out == Succeeds
  }

  /** The state after a request that passes the tests and the claim: everything of the client is taken
      down, or set up, or only the claim remains. */
  function Settled(s: State, id: string, domain: string, rules: seq<Rule>, out: Outcome,
                   session: SessionId, ctl: ControlId): State
  {
    if TearsDown(s, id, out) then
      s.(hosts := Without(s.hosts, id), sessions := s.sessions - {id}, controls := s.controls - {id})
    else if SetsUp(s, id, out) then
      s.(hosts := Claimed(s.hosts, domain, id, rules), sessions := s.sessions[id := session],
         controls := s.controls[id := ctl], listeners := s.listeners[ctl := Listener(id, Spawned)])
    else
      s.(hosts := Claimed(s.hosts, domain, id, rules), controls := s.controls - {id})
  }

  function SettledReply(s: State, id: string, out: Outcome): (Reply, Failure) {
    if id in s.controls then (HttpError(BAD_GATEWAY), ControlExists)
    else if NotHijacked(out) then (HttpError(BAD_GATEWAY), CannotHijack)
    else if out == Succeeds then (Tunnel, AfterHijack)
    else (Dropped(FailsAfterSession(out)), AfterHijack)
  }

  function SettledRaw(s: State, id: string, out: Outcome): Raw {
    if id in s.controls || NotHijacked(out) then Http else if FailsAfterSession(out) then Shut else Taken
  }

  predicate Claims(lib: Library, cfg: ServerConfig, s: State, req: ControlRequest) {
    var v := Judge(lib, cfg, req);
    v.Admitted? && !InUseByAnother(s.hosts, v.domain, req.identifier)
  }

  lemma HandlerEffect(s: State, id: string, domain: string, rules: seq<Rule>, out: Outcome,
                      session: SessionId, ctl: ControlId)
    requires OneHostEach(s.hosts) && !InUseByAnother(s.hosts, domain, id)
    ensures ControlHandler(s.(hosts := Claimed(s.hosts, domain, id, rules)), id, out, session, ctl)
            == (Settled(s, id, domain, rules, out, session, ctl), SettledRaw(s, id, out),
                if id !in s.controls && out == Succeeds then None else Some(SettledReply(s, id, out).1))
  {
    ClaimedOwner(s.hosts, domain, id, rules);
    var s1 := s.(hosts := Claimed(s.hosts, domain, id, rules));
    assert id !in s.controls ==> s.controls - {id} == s.controls;
    if id in s.controls {
      DeleteSessionEffect(s1.(controls := s1.controls - {id}), id);
    } else if FailsAfterSession(out) {
      DeleteSessionEffect(s1.(sessions := s1.sessions[id := session]), id);
      assert s1.sessions[id := session] - {id} == s.sessions - {id};
    }
  }

  lemma ConnectEffect(lib: Library, cfg: ServerConfig, s: State, req: ControlRequest, out: Outcome,
                      session: SessionId, ctl: ControlId)
    requires OneHostEach(s.hosts)
    ensures Claims(lib, cfg, s, req) ==>
              var id, v := req.identifier, Judge(lib, cfg, req);
              var (reply, why) := SettledReply(s, id, out);
              var s' := Settled(s, id, v.domain, v.rules, out, session, ctl);
              Connect(lib, cfg, s, req, out, session, ctl)
              == (if reply == Tunnel || id == "" then s' else OnDisconnect(s', id, why), reply)
    ensures !Claims(lib, cfg, s, req) ==>
              && Connect(lib, cfg, s, req, out, session, ctl).0 == s
              && Connect(lib, cfg, s, req, out, session, ctl).1.HttpError?
  {
    if Claims(lib, cfg, s, req) {
      var v := Judge(lib, cfg, req);
      HandlerEffect(s, req.identifier, v.domain, v.rules, out, session, ctl);
    }
  }

  lemma ReportKeepsTables(s: State, id: string, why: Failure)
    ensures var s' := OnDisconnect(s, id, why);
            s'.hosts == s.hosts && s'.sessions == s.sessions && s'.controls == s.controls
  {
  }

  lemma SettledWhenStale(s: State, id: string, domain: string, rules: seq<Rule>, out: Outcome,
                         session: SessionId, ctl: ControlId)
    requires id in s.controls
    ensures var s' := Settled(s, id, domain, rules, out, session, ctl);
            && s'.hosts == (if id in s.sessions then Without(s.hosts, id) else Claimed(s.hosts, domain, id, rules))
            && s'.sessions == s.sessions - {id}
            && s'.controls == s.controls - {id}
  {
    assert id !in s.sessions ==> s.sessions - {id} == s.sessions;
  }

  lemma SettledWhenFree(s: State, id: string, domain: string, rules: seq<Rule>, out: Outcome,
                        session: SessionId, ctl: ControlId)
    requires id !in s.controls
    ensures var s' := Settled(s, id, domain, rules, out, session, ctl);
            && s'.hosts == (if FailsAfterSession(out) then Without(s.hosts, id) else Claimed(s.hosts, domain, id, rules))
            && s'.sessions == (if FailsAfterSession(out) then s.sessions - {id}
                               else if out == Succeeds then s.sessions[id := session] else s.sessions)
            && s'.controls == if out == Succeeds then s.controls[id := ctl] else s.controls
  {
    assert s.controls - {id} == s.controls;
  }

  lemma ConnectSettles(lib: Library, cfg: ServerConfig, s: State, req: ControlRequest, out: Outcome,
                       session: SessionId, ctl: ControlId)
    requires OneHostEach(s.hosts) && Judge(lib, cfg, req).Admitted?
    ensures var v := Judge(lib, cfg, req);
            var s' := Connect(lib, cfg, s, req, out, session, ctl).0;
            var expected := if !Claims(lib, cfg, s, req) then s
                            else Settled(s, req.identifier, v.domain, v.rules, out, session, ctl);
            s'.hosts == expected.hosts && s'.sessions == expected.sessions && s'.controls == expected.controls
  {
    ConnectEffect(lib, cfg, s, req, out, session, ctl);
    if Claims(lib, cfg, s, req) {
      var v := Judge(lib, cfg, req);
      ReportKeepsTables(Settled(s, req.identifier, v.domain, v.rules, out, session, ctl), req.identifier,
                        SettledReply(s, req.identifier, out).1);
    }
  }

  /** The hosts and listeners a connect leaves. */
  lemma ConnectTables(lib: Library, cfg: ServerConfig, s: State, req: ControlRequest, out: Outcome,
                      session: SessionId, ctl: ControlId)
    requires OneHostEach(s.hosts)
    ensures var s' := Connect(lib, cfg, s, req, out, session, ctl).0;
            if !Claims(lib, cfg, s, req) then s' == s
            else
              && (s'.hosts == Without(s.hosts, req.identifier)
                  || s'.hosts == Claimed(s.hosts, Judge(lib, cfg, req).domain, req.identifier, Judge(lib, cfg, req).rules))
              && (s'.listeners == s.listeners || s'.listeners == s.listeners[ctl := Listener(req.identifier, Spawned)])
  {
    ConnectEffect(lib, cfg, s, req, out, session, ctl);
    if Claims(lib, cfg, s, req) {
      var v := Judge(lib, cfg, req);
      SettledTables(s, req.identifier, v.domain, v.rules, out, session, ctl);
    }
  }

  lemma SettledTables(s: State, id: string, domain: string, rules: seq<Rule>, out: Outcome,
                      session: SessionId, ctl: ControlId)
    ensures var s' := Settled(s, id, domain, rules, out, session, ctl);
            && (s'.hosts == Without(s.hosts, id) || s'.hosts == Claimed(s.hosts, domain, id, rules))
            && (s'.listeners == s.listeners || s'.listeners == s.listeners[ctl := Listener(id, Spawned)])
  {
  }

  lemma EndEffect(s: State, id: string, ctl: ControlId)
    requires OneHostEach(s.hosts)
    ensures ListenerEnds(s, id, ctl)
            == OnDisconnect(s.(listeners := s.listeners - {ctl}, controls := s.controls - {id},
                               sessions := s.sessions - {id},
                               hosts := if id in s.sessions then Without(s.hosts, id) else s.hosts),
                            id, ConnectionLost)
  {
    DeleteSessionEffect(s.(listeners := s.listeners - {ctl}, controls := s.controls - {id}), id);
    if id !in s.sessions {
      assert s.sessions - {id} == s.sessions;
    }
  }

  // ---------------------------------------------------------------------------------------------
  // The chain, handler by handler

  lemma LinkedAfterDrop(owners: set<string>, sessions: set<string>, controls: map<string, ControlId>,
                        listeners: map<ControlId, Listener>, id: string, gone: set<ControlId>)
    requires Linked(owners, sessions, controls, listeners)
    requires forall c :: c in gone && c in listeners ==> listeners[c].identifier == id
    ensures Linked(owners - {id}, sessions - {id}, controls - {id}, listeners - gone)
  {
    forall o | o in sessions - {id} ensures HasListener(listeners - gone, o) {
      var c :| c in listeners && listeners[c].identifier == o;
      assert c in listeners - gone && (listeners - gone)[c].identifier == o;
    }
  }

  lemma LinkedAfterAdd(owners: set<string>, sessions: set<string>, controls: map<string, ControlId>,
                       listeners: map<ControlId, Listener>, id: string, ctl: ControlId)
    requires Linked(owners, sessions, controls, listeners) && ctl !in listeners
    ensures Linked(owners + {id}, sessions + {id}, controls[id := ctl], listeners[ctl := Listener(id, Spawned)])
  {
    var listeners' := listeners[ctl := Listener(id, Spawned)];
    forall o | o in sessions + {id} ensures HasListener(listeners', o) {
      if o == id {
        assert listeners'[ctl].identifier == id;
      } else {
        var c :| c in listeners && listeners[c].identifier == o;
        assert c in listeners' && listeners'[c].identifier == o;
      }
    }
  }

  lemma ChainAfterDrop(s: State, id: string)
    requires Chain(s)
    ensures Chain(s.(hosts := Without(s.hosts, id), sessions := s.sessions - {id}, controls := s.controls - {id}))
  {
    WithoutOwner(s.hosts, id);
    LinkedAfterDrop(Owners(s.hosts), s.sessions.Keys, s.controls, s.listeners, id, {});
    assert s.listeners - {} == s.listeners;
    assert (s.sessions - {id}).Keys == s.sessions.Keys - {id};
  }

  lemma ChainAfterClaim(s: State, id: string, domain: string, rules: seq<Rule>)
    requires Chain(s) && !InUseByAnother(s.hosts, domain, id)
    ensures Chain(s.(hosts := Claimed(s.hosts, domain, id, rules)))
  {
    ClaimedOwner(s.hosts, domain, id, rules);
  }

  lemma ChainAfterAdd(s: State, id: string, domain: string, rules: seq<Rule>, session: SessionId, ctl: ControlId)
    requires Chain(s) && ctl !in s.listeners && !InUseByAnother(s.hosts, domain, id)
    ensures Chain(s.(hosts := Claimed(s.hosts, domain, id, rules), sessions := s.sessions[id := session],
                     controls := s.controls[id := ctl], listeners := s.listeners[ctl := Listener(id, Spawned)]))
  {
    ClaimedOwner(s.hosts, domain, id, rules);
    LinkedAfterAdd(Owners(s.hosts), s.sessions.Keys, s.controls, s.listeners, id, ctl);
    assert s.sessions[id := session].Keys == s.sessions.Keys + {id};
  }

  lemma SettledKeepsChain(s: State, id: string, domain: string, rules: seq<Rule>, out: Outcome,
                          session: SessionId, ctl: ControlId)
    requires Chain(s) && ctl !in s.listeners && !InUseByAnother(s.hosts, domain, id)
    ensures Chain(Settled(s, id, domain, rules, out, session, ctl))
  {
    if TearsDown(s, id, out) {
      ChainAfterDrop(s, id);
    } else if SetsUp(s, id, out) {
      ChainAfterAdd(s, id, domain, rules, session, ctl);
    } else {
      ChainAfterClaim(s, id, domain, rules);
      assert s.controls - {id} == s.controls;
    }
  }

  lemma NextKeepsChain(lib: Library, cfg: ServerConfig, s: State, e: Event)
    requires Chain(s) && Enabled(s, e)
    ensures Chain(Next(lib, cfg, s, e))
  {
    match e
    case ConnectEvent(req, out, session, ctl) =>
      ConnectEffect(lib, cfg, s, req, out, session, ctl);
      if Claims(lib, cfg, s, req) {
        var v := Judge(lib, cfg, req);
        SettledKeepsChain(s, req.identifier, v.domain, v.rules, out, session, ctl);
      }
    case StartEvent(id, ctl) =>
      var listeners' := s.listeners[ctl := Listener(id, Listening)];
      forall o | o in s.sessions ensures HasListener(listeners', o) {
        var c :| c in s.listeners && s.listeners[c].identifier == o;
        assert c in listeners' && listeners'[c].identifier == o;
      }
    case EndEvent(id, ctl) =>
      var s1 := s.(listeners := s.listeners - {ctl}, controls := s.controls - {id});
      DeleteSessionEffect(s1, id);
      LinkedAfterDrop(Owners(s.hosts), s.sessions.Keys, s.controls, s.listeners, id, {ctl});
      WithoutOwner(s.hosts, id);
      assert (s.sessions - {id}).Keys == s.sessions.Keys - {id};
    case DialEvent(id, sent) =>
    case OnConnectEvent(id, callback) =>
    case OnDisconnectEvent(id, callback) =>
  }

  /** The registry chain in every reachable state. */
  lemma {:induction false} RunsKeepChain(lib: Library, cfg: ServerConfig, s: State, es: seq<Event>)
    requires Chain(s) && IsRun(lib, cfg, s, es)
    ensures Chain(After(lib, cfg, s, es))
  {
    if es != [] {
      RunsKeepChain(lib, cfg, s, es[..|es| - 1]);
      NextKeepsChain(lib, cfg, After(lib, cfg, s, es[..|es| - 1]), es[|es| - 1]);
    }
  }

  /** dial never finds a control without a session, and the control it finds still has its listener. */
  lemma {:induction false} DialNeverLacksASession(lib: Library, cfg: ServerConfig, es: seq<Event>, id: string, sent: bool)
    requires IsRun(lib, cfg, EMPTY, es)
    ensures var s := After(lib, cfg, EMPTY, es);
            && Dial(s, id, sent).1 != NoSession
            && (id in s.controls ==> Get(s.listeners, s.controls[id]).Some?)
  {
    RunsKeepChain(lib, cfg, EMPTY, es);
  }

  /** The session of the client's most recent connect that was answered with a tunnel. */
  ghost function LastTunnel(lib: Library, cfg: ServerConfig, es: seq<Event>, id: string): Option<SessionId> {
    if es == [] then None
    else
      var init, e := es[..|es| - 1], es[|es| - 1];
      if e.ConnectEvent? && e.req.identifier == id
         && Connect(lib, cfg, After(lib, cfg, EMPTY, init), e.req, e.out, e.session, e.ctl).1 == Tunnel
      then Some(e.session)
      else LastTunnel(lib, cfg, init, id)
  }

  lemma NextSession(lib: Library, cfg: ServerConfig, s: State, e: Event, id: string)
    requires OneHostEach(s.hosts)
    ensures var s' := Next(lib, cfg, s, e);
            if e.ConnectEvent? && e.req.identifier == id && Connect(lib, cfg, s, e.req, e.out, e.session, e.ctl).1 == Tunnel
            then Get(s'.sessions, id) == Some(e.session)
            else Get(s'.sessions, id) == None || Get(s'.sessions, id) == Get(s.sessions, id)
  {
    match e
    case ConnectEvent(req, out, session, ctl) =>
      ConnectEffect(lib, cfg, s, req, out, session, ctl);
      if Claims(lib, cfg, s, req) {
        ConnectSettles(lib, cfg, s, req, out, session, ctl);
        SettledSessions(s, req.identifier, Judge(lib, cfg, req).domain, Judge(lib, cfg, req).rules, out, session, ctl, id);
      }
    case EndEvent(o, ctl) => EndEffect(s, o, ctl);
    case _ =>
  }

  lemma SettledSessions(s: State, o: string, domain: string, rules: seq<Rule>, out: Outcome,
                        session: SessionId, ctl: ControlId, id: string)
    ensures var s' := Settled(s, o, domain, rules, out, session, ctl);
            if o == id && SettledReply(s, o, out).0 == Tunnel then Get(s'.sessions, id) == Some(session)
            else Get(s'.sessions, id) == None || Get(s'.sessions, id) == Get(s.sessions, id)
  {
  }

  /** Every session in the table is the one of its client's last successful connect. */
  lemma {:induction false} SessionsAreLastTunnels(lib: Library, cfg: ServerConfig, es: seq<Event>, id: string)
    requires IsRun(lib, cfg, EMPTY, es)
    ensures id in After(lib, cfg, EMPTY, es).sessions ==>
              LastTunnel(lib, cfg, es, id) == Some(After(lib, cfg, EMPTY, es).sessions[id])
  {
    if es != [] {
      var init := es[..|es| - 1];
      SessionsAreLastTunnels(lib, cfg, init, id);
      RunsKeepChain(lib, cfg, EMPTY, init);
      NextSession(lib, cfg, After(lib, cfg, EMPTY, init), es[|es| - 1], id);
    }
  }

  /** What dial answers on any run: a client without a control is not served, a message that cannot be sent
      drops the control, and otherwise a stream is awaited on the session of the client's last successful
      connect. */
  lemma {:induction false} DialAsksLastSession(lib: Library, cfg: ServerConfig, es: seq<Event>, id: string, sent: bool)
    requires IsRun(lib, cfg, EMPTY, es)
    ensures var s := After(lib, cfg, EMPTY, es);
            var (s', reply) := Dial(s, id, sent);
            && (id !in s.controls ==> reply == NoControl && s' == s)
            && (id in s.controls && !sent ==> reply == SendFailed && s' == s.(controls := s.controls - {id}))
            && (id in s.controls && sent ==>
                  s' == s && reply.Asked? && LastTunnel(lib, cfg, es, id) == Some(reply.session))
  {
    RunsKeepChain(lib, cfg, EMPTY, es);
    SessionsAreLastTunnels(lib, cfg, es, id);
  }

  /** Once no listener of a client is running, it has neither session nor control. */
  lemma {:induction false} NothingOutlivesTheListeners(lib: Library, cfg: ServerConfig, es: seq<Event>, id: string)
    requires IsRun(lib, cfg, EMPTY, es)
    requires !HasListener(After(lib, cfg, EMPTY, es).listeners, id)
    ensures id !in After(lib, cfg, EMPTY, es).sessions && id !in After(lib, cfg, EMPTY, es).controls
  {
    RunsKeepChain(lib, cfg, EMPTY, es);
  }

  // ---------------------------------------------------------------------------------------------
  // One connect

  /** Stopped neither by a host conflict nor by an existing control. */
  ghost predicate GetsPast(s: State, id: string, domain: string) {
    !InUseByAnother(s.hosts, domain, id) && id !in s.controls
  }

  /** A connect that stores a session leaves everything or nothing. */
  lemma AllOrNothing(lib: Library, cfg: ServerConfig, s: State, req: ControlRequest, out: Outcome,
                     session: SessionId, ctl: ControlId)
    requires OneHostEach(s.hosts)
    requires Judge(lib, cfg, req).Admitted? && GetsPast(s, req.identifier, Judge(lib, cfg, req).domain)
    requires FailsAfterSession(out) || out == Succeeds
    ensures var id, v := req.identifier, Judge(lib, cfg, req);
            var (s', reply) := Connect(lib, cfg, s, req, out, session, ctl);
            if out == Succeeds then
              && reply == Tunnel
              && HostOf(s'.hosts, id) == Some(v.domain)
              && s'.hosts[v.domain] == VirtualHost(id, v.rules)
              && Get(s'.sessions, id) == Some(session)
              && Get(s'.controls, id) == Some(ctl)
              && s'.listeners == s.listeners[ctl := Listener(id, Spawned)]
            else
              && reply == Dropped(true)
              && HostsOf(s'.hosts, id) == {}
              && id !in s'.sessions && id !in s'.controls
              && s'.listeners == s.listeners
  {
    var id, v := req.identifier, Judge(lib, cfg, req);
    ConnectEffect(lib, cfg, s, req, out, session, ctl);
    ClaimedOwner(s.hosts, v.domain, id, v.rules);
    WithoutOwner(s.hosts, id);
  }

  predicate AllCompile(lib: Library, rules: seq<PathRule>) {
    forall i :: 0 <= i < |rules| ==> lib.compiles(rules[i].from)
  }

  /** Which answer a request gets, from the request, the settings and the tables: 405, 403, 400 and 409 for the
      test that fails first, 502 if the handler does before the hijack, and otherwise a tunnel or nothing. */
  lemma AnswersIff(lib: Library, cfg: ServerConfig, s: State, req: ControlRequest, out: Outcome,
                   session: SessionId, ctl: ControlId)
    requires OneHostEach(s.hosts)
    ensures var reply := Connect(lib, cfg, s, req, out, session, ctl).1;
            var id := req.identifier;
            var known := cfg.allowedClients == [] || exists i :: 0 <= i < |cfg.allowedClients| && cfg.allowedClients[i] == id;
            var signed := known && req.signature == lib.sign(id, cfg.signatureKey);
            var wellFormed := signed && req.body.Some? && AllCompile(lib, req.body.value.rewrite)
                              && exists i :: 0 <= i < |cfg.allowedHosts|
                                             && lib.matches(cfg.allowedHosts[i], req.body.value.domain);
            var claimed := wellFormed && (req.body.value.domain in s.hosts ==>
                                            s.hosts[req.body.value.domain].identifier == id);
            if req.httpMethod != cfg.controlMethod then reply == HttpError(405)
            else if !signed then reply == HttpError(403)
            else if !wellFormed then reply == HttpError(400)
            else if !claimed then reply == HttpError(409)
            else if id in s.controls || out == NoHijacker || out == HijackFails then reply == HttpError(502)
            else if out == Succeeds then reply == Tunnel
            else reply.Dropped?
  {
    ConnectEffect(lib, cfg, s, req, out, session, ctl);
  }

  /** An HTTP error is written exactly when the connection was not hijacked. */
  lemma HttpErrorIffNotHijacked(lib: Library, cfg: ServerConfig, s: State, req: ControlRequest, out: Outcome,
                                session: SessionId, ctl: ControlId)
    requires OneHostEach(s.hosts)
    ensures var v := Judge(lib, cfg, req);
            Connect(lib, cfg, s, req, out, session, ctl).1.HttpError?
            <==> v.Refused? || !GetsPast(s, req.identifier, v.domain) || NotHijacked(out)
  {
    ConnectEffect(lib, cfg, s, req, out, session, ctl);
  }

  /** A hijacked connection that fails is closed exactly when its session had been stored. An attempt that
      fails before that keeps the host it claimed, and changes neither sessions nor controls. */
  lemma EarlyFailureKeepsHost(lib: Library, cfg: ServerConfig, s: State, req: ControlRequest, out: Outcome,
                              session: SessionId, ctl: ControlId)
    requires OneHostEach(s.hosts)
    requires Judge(lib, cfg, req).Admitted? && GetsPast(s, req.identifier, Judge(lib, cfg, req).domain)
    ensures var (s', reply) := Connect(lib, cfg, s, req, out, session, ctl);
            && (reply.Dropped? <==> !NotHijacked(out) && out != Succeeds)
            && (reply.Dropped? ==> (reply.rawConnClosed <==> FailsAfterSession(out)))
            && (FailsAfterSession(out) <==> out in {AcceptFails, AcceptTimesOut, ReadFails, BadHandshake, ReplyFails})
            && (HostOf(s'.hosts, req.identifier) == Some(Judge(lib, cfg, req).domain) <==> !FailsAfterSession(out))
            && (!FailsAfterSession(out) && out != Succeeds ==>
                  s'.sessions == s.sessions && s'.controls == s.controls)
  {
    var id, v := req.identifier, Judge(lib, cfg, req);
    ConnectEffect(lib, cfg, s, req, out, session, ctl);
    ConnectSettles(lib, cfg, s, req, out, session, ctl);
    SettledWhenFree(s, id, v.domain, v.rules, out, session, ctl);
    ClaimedOwner(s.hosts, v.domain, id, v.rules);
    WithoutOwner(s.hosts, id);
  }

  /** An attempt refused because of a stale control clears the client's host, session and control. */
  lemma StaleControlIsCleared(lib: Library, cfg: ServerConfig, s: State, req: ControlRequest, out: Outcome,
                              session: SessionId, ctl: ControlId)
    requires Chain(s) && Claims(lib, cfg, s, req) && req.identifier in s.controls
    ensures var id := req.identifier;
            var (s', reply) := Connect(lib, cfg, s, req, out, session, ctl);
            && reply == HttpError(BAD_GATEWAY)
            && HostsOf(s'.hosts, id) == {} && id !in s'.sessions && id !in s'.controls
            && s'.listeners == s.listeners
            && GetsPast(s', id, Judge(lib, cfg, req).domain)
  {
    ConnectEffect(lib, cfg, s, req, out, session, ctl);
    WithoutOwner(s.hosts, req.identifier);
  }

  /** Anything but an admitted request of the same client, and one of another client for the same domain. A
      request that fails a test is no rival, whoever it claims to come from. */
  predicate LeavesWayClear(lib: Library, cfg: ServerConfig, id: string, domain: string, e: Event) {
    e.ConnectEvent? && Judge(lib, cfg, e.req).Admitted? ==>
      e.req.identifier != id && Judge(lib, cfg, e.req).domain != domain
  }

  lemma NextLeavesWayClear(lib: Library, cfg: ServerConfig, s: State, e: Event, id: string, domain: string)
    requires Chain(s) && GetsPast(s, id, domain) && LeavesWayClear(lib, cfg, id, domain, e)
    ensures GetsPast(Next(lib, cfg, s, e), id, domain)
  {
    match e
    case ConnectEvent(req, out, session, ctl) =>
      ConnectEffect(lib, cfg, s, req, out, session, ctl);
      if Claims(lib, cfg, s, req) {
        var v := Judge(lib, cfg, req);
        SettledLeavesWayClear(s, req.identifier, v.domain, v.rules, out, session, ctl, id, domain);
      }
    case EndEvent(o, ctl) =>
      DeleteSessionEffect(s.(listeners := s.listeners - {ctl}, controls := s.controls - {o}), o);
    case _ =>
  }

  lemma SettledLeavesWayClear(s: State, o: string, claim: string, rules: seq<Rule>, out: Outcome,
                              session: SessionId, ctl: ControlId, id: string, domain: string)
    requires GetsPast(s, id, domain) && o != id && claim != domain
    ensures GetsPast(Settled(s, o, claim, rules, out, session, ctl), id, domain)
  {
  }

  lemma {:induction false} RunsLeaveWayClear(lib: Library, cfg: ServerConfig, s: State, es: seq<Event>,
                                             id: string, domain: string)
    requires Chain(s) && IsRun(lib, cfg, s, es) && GetsPast(s, id, domain)
    requires forall e :: e in es ==> LeavesWayClear(lib, cfg, id, domain, e)
    ensures Chain(After(lib, cfg, s, es)) && GetsPast(After(lib, cfg, s, es), id, domain)
  {
    if es != [] {
      var init, e := es[..|es| - 1], es[|es| - 1];
      assert forall x :: x in init ==> x in es;
      RunsLeaveWayClear(lib, cfg, s, init, id, domain);
      NextKeepsChain(lib, cfg, After(lib, cfg, s, init), e);
      NextLeavesWayClear(lib, cfg, After(lib, cfg, s, init), e, id, domain);
    }
  }

  lemma ClearWayConnects(lib: Library, cfg: ServerConfig, s: State, req: ControlRequest, session: SessionId, ctl: ControlId)
    requires OneHostEach(s.hosts)
    requires Judge(lib, cfg, req).Admitted? && GetsPast(s, req.identifier, Judge(lib, cfg, req).domain)
    ensures Connect(lib, cfg, s, req, Succeeds, session, ctl).1 == Tunnel
  {
    ConnectEffect(lib, cfg, s, req, Succeeds, session, ctl);
  }

  /** Bounded reconnect: after one refusal caused by a stale control, the client's next attempt for that
      domain is stopped neither by a host conflict nor by an existing control, whatever happens in
      between short of a rival claim. */
  lemma {:induction false} SecondAttemptGetsPast(lib: Library, cfg: ServerConfig, s: State, req: ControlRequest,
                                                 out: Outcome,
                                                 session: SessionId, ctl: ControlId, between: seq<Event>)
    requires Chain(s) && Claims(lib, cfg, s, req) && req.identifier in s.controls && ctl !in s.listeners
    requires IsRun(lib, cfg, Connect(lib, cfg, s, req, out, session, ctl).0, between)
    requires forall e :: e in between ==> LeavesWayClear(lib, cfg, req.identifier, Judge(lib, cfg, req).domain, e)
    ensures var s' := After(lib, cfg, Connect(lib, cfg, s, req, out, session, ctl).0, between);
            forall session', ctl' :: Connect(lib, cfg, s', req, Succeeds, session', ctl').1 == Tunnel
  {
    StaleControlIsCleared(lib, cfg, s, req, out, session, ctl);
    NextKeepsChain(lib, cfg, s, ConnectEvent(req, out, session, ctl));
    var s1 := Connect(lib, cfg, s, req, out, session, ctl).0;
    RunsLeaveWayClear(lib, cfg, s1, between, req.identifier, Judge(lib, cfg, req).domain);
    var s' := After(lib, cfg, s1, between);
    forall session', ctl' ensures Connect(lib, cfg, s', req, Succeeds, session', ctl').1 == Tunnel {
      ClearWayConnects(lib, cfg, s', req, session', ctl');
    }
  }
}
