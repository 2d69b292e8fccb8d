/** When the chain of tables holds between critical sections: as long as no two control requests or teardowns
    of the same client are under way at the same time. Dials may overlap anything, and so may the handlers of
    different clients. */
module ClientChain {

  import opened Base
  import opened VirtualHosts
  import opened Admission
  import opened LockLevel
  import opened LockRefinement
  import LS = LockSafety

  /** A thread that has returned, or a listener outside its teardown. */
  predicate AtRest(section: Section) {
    section.Finished? || section.OnConnect? || section.Listening?
  }

  predicate Busy(threads: map<Tid, Thread>, t: Tid) {
    t in threads && !AtRest(threads[t].next)
  }

  /** A control request or a teardown is under way. */
  predicate Works(threads: map<Tid, Thread>, t: Tid) {
    Busy(threads, t) && !threads[t].role.Dialer?
  }

  /** No two of them belong to one client. */
  ghost predicate OneWorksEach(threads: map<Tid, Thread>) {
    forall t, u :: Works(threads, t) && Works(threads, u) && threads[t].id == threads[u].id ==> t == u
  }

  ghost predicate NobodyWorks(threads: map<Tid, Thread>, id: string) {
    forall t :: Works(threads, t) ==> threads[t].id != id
  }

  // ---------------------------------------------------------------------------------------------
  // What the tables say of one client

  datatype View = View(hosts: set<string>, session: bool, control: Option<ControlId>, live: map<Tid, ControlId>)

  predicate IsLive(th: Thread, id: string) {
    th.id == id && th.role.Listener? && (th.next.OnConnect? || th.next.Listening?)
  }

  /** The listeners of the client that are running, with the controls they listen to. */
  function Live(threads: map<Tid, Thread>, id: string): map<Tid, ControlId> {
    map u | u in threads && IsLive(threads[u], id) :: threads[u].role.ctl
  }

  ghost function ViewOf(s: State, id: string): View {
    View(HostsOf(s.hosts, id), id in s.sessions, Get(s.controls, id), Live(s.threads, id))
  }

  ghost predicate ListenedTo(live: map<Tid, ControlId>, ctl: ControlId) {
    exists u :: u in live && live[u] == ctl
  }

  /** The part of the chain for one client that holds at all times: its control has a session, and its
      session a host. */
  ghost predicate HalfLinked(v: View) {
    (v.control.Some? ==> v.session) && (v.session ==> v.hosts != {})
  }

  /** The chain for one client: in addition its control has its own listener running, and its session some
      listener. */
  ghost predicate Linked(v: View) {
    && HalfLinked(v)
    && (v.control.Some? ==> ListenedTo(v.live, v.control.value))
    && (v.session ==> v.live != map[])
  }

  /** What a dial may do to it: its control is dropped. */
  predicate Loosened(v: View, v': View) {
    v' == v || v' == v.(control := None)
  }

  /** The sections a handler of each kind goes through. */
  predicate Fits(th: Thread) {
    match th.role
    case Connector(_, _, _) =>
      th.next.AddHost? || th.next.GetHost? || th.next.GetControl? || th.next.Hijack? || th.next.AddSession?
      || th.next.Handshake? || th.next.AddControl? || th.next.Report? || TearsDown(th.next)
    case Listener(_) => th.next.Report? || TearsDown(th.next)
    case Dialer =>
      th.next.GetControl? || th.next.GetSession? || th.next.Send? || th.next.CloseControl? || th.next.DeleteControl?
  }

  predicate TearsDown(next: Section) {
    next.CloseControl? || next.DeleteControl? || next.DeleteSession? || next.LookUpHost? || next.DeleteHost?
  }

  /** Before these sections the chain of the client is whole. */
  predicate ChainWhole(th: Thread) {
    && th.role.Connector? && !th.next.Handshake? && !th.next.AddControl? && !th.next.DeleteSession?
    && !th.next.LookUpHost? && !th.next.DeleteHost?
  }

  /** Before these the client of a connector is known to own a host. */
  predicate HostKnown(th: Thread) {
    th.role.Connector? && !th.next.AddHost? && !th.next.Report? && !th.next.DeleteSession? && !th.next.LookUpHost?
    && !th.next.DeleteHost?
  }

  predicate ControlGone(th: Thread) {
    || th.next.Hijack? || th.next.AddSession? || th.next.Handshake? || th.next.AddControl? || th.next.Report?
    || th.next.DeleteSession? || th.next.LookUpHost? || th.next.DeleteHost?
  }

  predicate SessionGone(th: Thread) {
    th.next.LookUpHost? || th.next.DeleteHost? || (th.role.Listener? && th.next.Report?)
  }

  /** What holds of the client before a section of its own control request or teardown. */
  ghost predicate Stage(v: View, th: Thread) {
    && Fits(th)
    && HalfLinked(v)
    && (ChainWhole(th) ==> Linked(v))
    && (HostKnown(th) ==> v.hosts != {})
    && (ControlGone(th) ==> v.control.None?)
    && (SessionGone(th) ==> !v.session)
    && (th.next.Handshake? || th.next.AddControl? ==> v.session)
    && (th.next.DeleteHost? ==> th.next.host in v.hosts)
  }

  ghost predicate StagesOk(s: State) {
    forall t :: Works(s.threads, t) ==> Stage(ViewOf(s, s.threads[t].id), s.threads[t])
  }

  ghost predicate RestsOk(s: State) {
    forall id :: NobodyWorks(s.threads, id) ==> Linked(ViewOf(s, id))
  }

  /** Only listeners listen, only listeners start, and dials stay in dial. */
  ghost predicate RolesOk(threads: map<Tid, Thread>) {
    forall t :: t in threads ==>
      && (threads[t].next.Listening? || threads[t].next.OnConnect? ==> threads[t].role.Listener?)
      && (threads[t].role.Dialer? ==> Fits(threads[t]) || threads[t].next.Finished?)
  }

  ghost predicate ChainInv(s: State) {
    RolesOk(s.threads) && OneWorksEach(s.threads) && StagesOk(s) && RestsOk(s)
  }

  // ---------------------------------------------------------------------------------------------
  // Other clients

  lemma HostsOfOthers(m: Mapping, o: string, host: string, rules: seq<Rule>, id: string)
    requires id != o
    ensures HostsOf(Claimed(m, host, o, rules), id) == HostsOf(m, id)
    ensures host !in HostsOf(m, id) ==> HostsOf(Released(m, host), id) == HostsOf(m, id)
  {
  }

  lemma LiveKept(threads: map<Tid, Thread>, t: Tid, th: Thread, id: string)
    requires t in threads ==> (IsLive(threads[t], id) <==> IsLive(th, id)) && threads[t].role == th.role
    requires t !in threads ==> !IsLive(th, id)
    ensures Live(threads[t := th], id) == Live(threads, id)
  {
  }

  lemma EffectOnHosts(s: State, th: Thread, t: Tid)
    ensures Effect(s, th, t).hosts
            == if th.next.AddHost? && th.role.Connector? then Claimed(s.hosts, th.role.domain, th.id, th.role.rules)
               else if th.next.DeleteHost? then Released(s.hosts, th.next.host)
               else s.hosts
  {
  }

  lemma EffectOnTables(s: State, th: Thread, t: Tid, id: string)
    requires id != th.id
    ensures var s' := Effect(s, th, t);
            (id in s'.sessions <==> id in s.sessions) && Get(s'.controls, id) == Get(s.controls, id)
  {
    LS.EffectOnSessions(s, th, t);
    LS.EffectOnControls(s, th, t);
  }

  lemma GoOtherView(s: State, t: Tid, id: string)
    requires t in s.threads && s.threads[t].id != id
    requires s.threads[t].next.DeleteHost? ==> s.threads[t].next.host !in HostsOf(s.hosts, id)
    ensures ViewOf(Goes(s, t), id) == ViewOf(s, id)
  {
    var th := s.threads[t];
    EffectOnHosts(s, th, t);
    EffectOnTables(s, th, t, id);
    LiveKept(s.threads, t, th.(next := Following(s, th)), id);
    if th.next.AddHost? && th.role.Connector? {
      HostsOfOthers(s.hosts, th.id, th.role.domain, th.role.rules, id);
    } else if th.next.DeleteHost? {
      HostsOfOthers(s.hosts, th.id, th.next.host, [], id);
    }
  }

  lemma RegisterOtherView(s: State, t: Tid, listener: Tid, id: string)
    requires t in s.threads && listener !in s.threads && s.threads[t].id != id
    ensures ViewOf(Registers(s, t, listener), id) == ViewOf(s, id)
  {
    var th := s.threads[t].(next := Finished);
    LiveKept(s.threads, t, th, id);
    LiveKept(s.threads[t := th], listener, Thread(th.id, Listener(s.newControl), OnConnect), id);
  }

  /** The client an action belongs to. */
  function Subject(s: State, a: Action): Option<string> {
    match a
    case NewConnect(_, req) => Some(req.identifier)
    case NewDial(_, id) => Some(id)
    case Go(t) => if t in s.threads then Some(s.threads[t].id) else None
    case Fail(t) => if t in s.threads then Some(s.threads[t].id) else None
    case GoAndSpawn(t, _) => if t in s.threads then Some(s.threads[t].id) else None
    case _ => None
  }

  predicate ByEmbedder(a: Action) {
    a.EmbedderAdds? || a.EmbedderDeletes?
  }

  lemma DeletesOwnHost(s: State, t: Tid, id: string)
    requires RolesOk(s.threads) && StagesOk(s)
    requires t in s.threads && s.threads[t].next.DeleteHost? && s.threads[t].id != id
    ensures s.threads[t].next.host !in HostsOf(s.hosts, id)
  {
    assert Works(s.threads, t);
    assert s.threads[t].next.host in HostsOf(s.hosts, s.threads[t].id);
  }

  lemma OthersViewKept(lib: Library, cfg: ServerConfig, s: State, a: Action, id: string)
    requires RolesOk(s.threads) && StagesOk(s) && Enabled(lib, cfg, s, a)
    requires !ByEmbedder(a) && Subject(s, a) != Some(id)
    ensures ViewOf(Next(lib, cfg, s, a), id) == ViewOf(s, id)
  {
    match a
    case NewConnect(t, req) =>
      LiveKept(s.threads, t, Next(lib, cfg, s, a).threads[t], id);
    case NewDial(t, o) => LiveKept(s.threads, t, Thread(o, Dialer, GetControl), id);
    case Go(t) =>
      if s.threads[t].next.DeleteHost? {
        DeletesOwnHost(s, t, id);
      }
      GoOtherView(s, t, id);
    case Fail(t) => LiveKept(s.threads, t, s.threads[t].(next := Fallback(s.threads[t])), id);
    case GoAndSpawn(t, listener) => RegisterOtherView(s, t, listener, id);
  }

  lemma OtherThreadsKept(lib: Library, cfg: ServerConfig, s: State, a: Action, u: Tid)
    requires Enabled(lib, cfg, s, a) && !ByThreads(a, {u})
    ensures Busy(Next(lib, cfg, s, a).threads, u) <==> Busy(s.threads, u)
    ensures Works(Next(lib, cfg, s, a).threads, u) <==> Works(s.threads, u)
    ensures Busy(s.threads, u) ==> Next(lib, cfg, s, a).threads[u] == s.threads[u]
  {
  }

  // ---------------------------------------------------------------------------------------------
  // The client's own handler

  /** What a section leaves: the next stage, or the chain if the handler is done. */
  ghost predicate Onward(v: View, th: Thread) {
    if AtRest(th.next) then Linked(v) else Stage(v, th)
  }

  lemma OwnHosts(m: Mapping, id: string, host: string, rules: seq<Rule>)
    ensures HostOwned(m, id) <==> HostsOf(m, id) != {}
    ensures !InUseByAnother(m, host, id) ==> HostsOf(Claimed(m, host, id, rules), id) == {host}
    ensures InUseByAnother(m, host, id) ==> Claimed(m, host, id, rules) == m
  {
    assert forall h :: h in HostsOf(m, id) <==> h in m && m[h].identifier == id;
    if !InUseByAnother(m, host, id) {
      assert host in HostsOf(Claimed(m, host, id, rules), id);
    }
  }

  /** The client's own view after a section of its handler. */
  lemma OwnView(s: State, t: Tid)
    requires t in s.threads && !AtRest(s.threads[t].next)
    ensures var v, v', th := ViewOf(s, s.threads[t].id), ViewOf(Goes(s, t), s.threads[t].id), s.threads[t];
            && v'.live == v.live
            && v'.session == (if th.next.AddSession? then true else if th.next.DeleteSession? then false else v.session)
            && v'.control == (if th.next.DeleteControl? then None else v.control)
            && v'.hosts == HostsOf(Effect(s, th, t).hosts, th.id)
  {
    LiveKept(s.threads, t, s.threads[t].(next := Following(s, s.threads[t])), s.threads[t].id);
    OwnTables(s, s.threads[t], t);
  }

  lemma OwnTables(s: State, th: Thread, t: Tid)
    ensures var s', id := Effect(s, th, t), th.id;
            && (id in s'.sessions <==> th.next.AddSession? || (!th.next.DeleteSession? && id in s.sessions))
            && Get(s'.controls, id) == if th.next.DeleteControl? then None else Get(s.controls, id)
  {
    LS.EffectOnSessions(s, th, t);
    LS.EffectOnControls(s, th, t);
  }

  lemma GoConnector(s: State, t: Tid)
    requires t in s.threads && s.threads[t].role.Connector? && !AtRest(s.threads[t].next)
    requires Stage(ViewOf(s, s.threads[t].id), s.threads[t]) && !s.threads[t].next.AddControl?
    ensures Onward(ViewOf(Goes(s, t), s.threads[t].id), Goes(s, t).threads[t])
  {
    var th := s.threads[t];
    OwnView(s, t);
    EffectOnHosts(s, th, t);
    OwnHosts(s.hosts, th.id, th.role.domain, th.role.rules);
    HostFound(s.hosts, th.id);
  }

  lemma GoListener(s: State, t: Tid)
    requires t in s.threads && s.threads[t].role.Listener? && !AtRest(s.threads[t].next)
    requires Stage(ViewOf(s, s.threads[t].id), s.threads[t])
    ensures Onward(ViewOf(Goes(s, t), s.threads[t].id), Goes(s, t).threads[t])
  {
    var th := s.threads[t];
    OwnView(s, t);
    EffectOnHosts(s, th, t);
    OwnHosts(s.hosts, th.id, "", []);
    HostFound(s.hosts, th.id);
  }

  lemma GoDialer(s: State, t: Tid)
    requires t in s.threads && s.threads[t].role.Dialer? && RolesOk(s.threads)
    ensures Loosened(ViewOf(s, s.threads[t].id), ViewOf(Goes(s, t), s.threads[t].id))
  {
    var th := s.threads[t];
    LiveKept(s.threads, t, th.(next := Following(s, th)), th.id);
    OwnTables(s, th, t);
    EffectOnHosts(s, th, t);
  }

  lemma RegistersOnward(s: State, t: Tid, listener: Tid)
    requires t in s.threads && listener !in s.threads && s.threads[t].next.AddControl?
    requires Stage(ViewOf(s, s.threads[t].id), s.threads[t])
    ensures Linked(ViewOf(Registers(s, t, listener), s.threads[t].id))
  {
    var s', id := Registers(s, t, listener), s.threads[t].id;
    var v' := ViewOf(s', id);
    assert listener in v'.live && v'.live[listener] == s.newControl;
    assert v'.control == Some(s.newControl) && v'.hosts == HostsOf(s.hosts, id);
  }

  lemma FailsOnward(s: State, t: Tid)
    requires t in s.threads && !AtRest(s.threads[t].next) && Stage(ViewOf(s, s.threads[t].id), s.threads[t])
    requires s.threads[t].next.Hijack? || s.threads[t].next.AddSession? || s.threads[t].next.Handshake?
             || s.threads[t].next.Send?
    ensures var s' := At(s, t, Fallback(s.threads[t]));
            Onward(ViewOf(s', s.threads[t].id), s'.threads[t])
  {
    LiveKept(s.threads, t, s.threads[t].(next := Fallback(s.threads[t])), s.threads[t].id);
  }

  /** The end of a control loop: the listener is no longer live, and the teardown begins. */
  lemma ConnectionLostOnward(s: State, t: Tid)
    requires t in s.threads && s.threads[t].next.Listening? && s.threads[t].role.Listener?
    requires Linked(ViewOf(s, s.threads[t].id))
    ensures var s' := At(s, t, Fallback(s.threads[t]));
            Onward(ViewOf(s', s.threads[t].id), s'.threads[t])
  {
  }

  // ---------------------------------------------------------------------------------------------
  // One action

  lemma NextRoles(lib: Library, cfg: ServerConfig, s: State, a: Action)
    requires Enabled(lib, cfg, s, a) && RolesOk(s.threads)
    ensures RolesOk(Next(lib, cfg, s, a).threads)
  {
  }

  /** A control request or teardown that begins finds no other of its client under way, so it finds the chain. */
  lemma StartsLinked(lib: Library, cfg: ServerConfig, s: State, a: Action, t: Tid, id: string)
    requires ChainInv(s) && Enabled(lib, cfg, s, a) && ByThreads(a, {t}) && Subject(s, a) == Some(id)
    requires OneWorksEach(Next(lib, cfg, s, a).threads)
    requires !Works(s.threads, t) && Works(Next(lib, cfg, s, a).threads, t)
    ensures Linked(ViewOf(s, id))
  {
    var s' := Next(lib, cfg, s, a);
    forall u | Works(s.threads, u) ensures s.threads[u].id != id {
      OtherThreadsKept(lib, cfg, s, a, u);
    }
    assert NobodyWorks(s.threads, id);
  }

  /** What an action of its thread t does to the acting client. */
  ghost predicate ActsWell(s: State, s': State, t: Tid, id: string) {
    && t in s'.threads && s'.threads[t].id == id
    && (Works(s'.threads, t) ==> Stage(ViewOf(s', id), s'.threads[t]))
    && (!Works(s'.threads, t) && Works(s.threads, t) ==> Linked(ViewOf(s', id)))
    && (!Works(s'.threads, t) && !Works(s.threads, t) ==> Loosened(ViewOf(s, id), ViewOf(s', id)))
  }

  lemma NewActsWell(s: State, t: Tid, th: Thread)
    requires t !in s.threads && (th.role.Connector? && th.next.AddHost? ==> Linked(ViewOf(s, th.id)))
    requires (th.role.Connector? && th.next.AddHost?) || (th.role.Dialer? && th.next.GetControl?)
    ensures ActsWell(s, s.(threads := s.threads[t := th]), t, th.id)
  {
    LiveKept(s.threads, t, th, th.id);
  }

  lemma GoActsWell(lib: Library, cfg: ServerConfig, s: State, t: Tid)
    requires StagesOk(s) && RolesOk(s.threads) && Enabled(lib, cfg, s, Go(t))
    ensures ActsWell(s, Goes(s, t), t, s.threads[t].id)
  {
    var th := s.threads[t];
    if th.role.Dialer? {
      GoDialer(s, t);
    } else if Works(s.threads, t) {
      if th.role.Connector? {
        GoConnector(s, t);
      } else {
        GoListener(s, t);
      }
    } else {
      LiveKept(s.threads, t, th.(next := Following(s, th)), th.id);
      EffectOnHosts(s, th, t);
      OwnTables(s, th, t);
    }
  }

  lemma FailActsWell(lib: Library, cfg: ServerConfig, s: State, t: Tid)
    requires StagesOk(s) && RolesOk(s.threads) && Enabled(lib, cfg, s, Fail(t))
    requires s.threads[t].next.Listening? ==> Linked(ViewOf(s, s.threads[t].id))
    ensures ActsWell(s, At(s, t, Fallback(s.threads[t])), t, s.threads[t].id)
  {
    var th := s.threads[t];
    if th.role.Dialer? {
      LiveKept(s.threads, t, th.(next := Fallback(th)), th.id);
    } else if Works(s.threads, t) {
      FailsOnward(s, t);
    } else {
      ConnectionLostOnward(s, t);
    }
  }

  lemma RegisterActsWell(lib: Library, cfg: ServerConfig, s: State, t: Tid, listener: Tid)
    requires StagesOk(s) && RolesOk(s.threads) && Enabled(lib, cfg, s, GoAndSpawn(t, listener))
    ensures ActsWell(s, Registers(s, t, listener), t, s.threads[t].id)
  {
    assert Works(s.threads, t);
    RegistersOnward(s, t, listener);
  }

  lemma OwnOnward(lib: Library, cfg: ServerConfig, s: State, a: Action, t: Tid, id: string)
    requires ChainInv(s) && Enabled(lib, cfg, s, a) && !ByEmbedder(a)
    requires OneWorksEach(Next(lib, cfg, s, a).threads) && ByThreads(a, {t}) && Subject(s, a) == Some(id)
    ensures ActsWell(s, Next(lib, cfg, s, a), t, id)
  {
    if !Works(s.threads, t) && Works(Next(lib, cfg, s, a).threads, t) {
      StartsLinked(lib, cfg, s, a, t, id);
    }
    match a
    case NewConnect(_, req) =>
      NewActsWell(s, t, Next(lib, cfg, s, a).threads[t]);
    case NewDial(_, _) =>
      NewActsWell(s, t, Thread(id, Dialer, GetControl));
    case Go(_) => GoActsWell(lib, cfg, s, t);
    case Fail(_) => FailActsWell(lib, cfg, s, t);
    case GoAndSpawn(_, listener) => RegisterActsWell(lib, cfg, s, t, listener);
  }

  lemma NextStages(lib: Library, cfg: ServerConfig, s: State, a: Action, t: Tid, id: string)
    requires ChainInv(s) && Enabled(lib, cfg, s, a) && !ByEmbedder(a)
    requires OneWorksEach(Next(lib, cfg, s, a).threads) && ByThreads(a, {t}) && Subject(s, a) == Some(id)
    ensures StagesOk(Next(lib, cfg, s, a))
  {
    var s' := Next(lib, cfg, s, a);
    OwnOnward(lib, cfg, s, a, t, id);
    forall u | Works(s'.threads, u) ensures Stage(ViewOf(s', s'.threads[u].id), s'.threads[u]) {
      if u != t {
        OtherThreadsKept(lib, cfg, s, a, u);
        assert Works(s.threads, u) && s'.threads[u] == s.threads[u];
        if s.threads[u].id != id {
          OthersViewKept(lib, cfg, s, a, s.threads[u].id);
        }
      }
    }
  }

  lemma NextRests(lib: Library, cfg: ServerConfig, s: State, a: Action, t: Tid, id: string)
    requires ChainInv(s) && Enabled(lib, cfg, s, a) && !ByEmbedder(a)
    requires OneWorksEach(Next(lib, cfg, s, a).threads) && ByThreads(a, {t}) && Subject(s, a) == Some(id)
    ensures RestsOk(Next(lib, cfg, s, a))
  {
    var s' := Next(lib, cfg, s, a);
    OwnOnward(lib, cfg, s, a, t, id);
    forall o | NobodyWorks(s'.threads, o) ensures Linked(ViewOf(s', o)) {
      if o != id {
        OthersViewKept(lib, cfg, s, a, o);
        forall u | Works(s.threads, u) ensures s.threads[u].id != o {
          WorkedBefore(lib, cfg, s, a, t, id, u, o);
        }
        assert NobodyWorks(s.threads, o);
      } else if !Works(s.threads, t) {
        forall u | Works(s.threads, u) ensures s.threads[u].id != o {
          OtherThreadsKept(lib, cfg, s, a, u);
        }
        assert NobodyWorks(s.threads, o);
      }
    }
  }

  lemma WorkedBefore(lib: Library, cfg: ServerConfig, s: State, a: Action, t: Tid, id: string, u: Tid, o: string)
    requires Enabled(lib, cfg, s, a) && ByThreads(a, {t}) && Subject(s, a) == Some(id) && o != id
    requires Works(s.threads, u) && NobodyWorks(Next(lib, cfg, s, a).threads, o)
    ensures s.threads[u].id != o
  {
    if u != t {
      OtherThreadsKept(lib, cfg, s, a, u);
      assert Works(Next(lib, cfg, s, a).threads, u);
    }
  }

  function Actor(a: Action): Tid {
    match a
    case NewConnect(t, _) => t
    case NewDial(t, _) => t
    case Go(t) => t
    case Fail(t) => t
    case GoAndSpawn(t, _) => t
    case _ => 0
  }

  lemma NextKeepsChain(lib: Library, cfg: ServerConfig, s: State, a: Action)
    requires ChainInv(s) && Enabled(lib, cfg, s, a) && !ByEmbedder(a)
    requires OneWorksEach(Next(lib, cfg, s, a).threads)
    ensures ChainInv(Next(lib, cfg, s, a))
  {
    var id := Subject(s, a).value;
    NextStages(lib, cfg, s, a, Actor(a), id);
    NextRests(lib, cfg, s, a, Actor(a), id);
    NextRoles(lib, cfg, s, a);
  }

  // ---------------------------------------------------------------------------------------------
  // Runs

  /** A run without embedders in which no two control requests or teardowns of one client overlap. */
  ghost predicate WorkApart(lib: Library, cfg: ServerConfig, s: State, actions: seq<Action>)
    decreases |actions|
  {
    actions == [] ||
    (Enabled(lib, cfg, s, actions[0]) && !ByEmbedder(actions[0])
     && OneWorksEach(Next(lib, cfg, s, actions[0]).threads)
     && WorkApart(lib, cfg, Next(lib, cfg, s, actions[0]), actions[1..]))
  }

  lemma {:induction false} ApartIsRun(lib: Library, cfg: ServerConfig, s: State, actions: seq<Action>)
    requires WorkApart(lib, cfg, s, actions)
    ensures IsRun(lib, cfg, s, actions)
    decreases |actions|
  {
    if actions != [] {
      ApartIsRun(lib, cfg, Next(lib, cfg, s, actions[0]), actions[1..]);
    }
  }

  lemma {:induction false} RunsKeepChain(lib: Library, cfg: ServerConfig, s: State, actions: seq<Action>)
    requires WorkApart(lib, cfg, s, actions) && ChainInv(s)
    ensures IsRun(lib, cfg, s, actions)
    ensures ChainInv(After(lib, cfg, s, actions))
    decreases |actions|
  {
    ApartIsRun(lib, cfg, s, actions);
    if actions != [] {
      NextKeepsChain(lib, cfg, s, actions[0]);
      RunsKeepChain(lib, cfg, Next(lib, cfg, s, actions[0]), actions[1..]);
    }
  }

  lemma ChainAtStart()
    ensures ChainInv(START)
  {
    forall id ensures Linked(ViewOf(START, id)) {
      assert ViewOf(START, id).control == None;
    }
  }

  lemma AlwaysHalfLinked(s: State, id: string)
    requires ChainInv(s)
    ensures HalfLinked(ViewOf(s, id))
  {
    if !NobodyWorks(s.threads, id) {
      var t :| Works(s.threads, t) && s.threads[t].id == id;
      assert Stage(ViewOf(s, id), s.threads[t]);
    }
  }

  /** However dials and the handlers of different clients interleave, section by section: a client has a
      session if it has a control and a host if it has a session, and while none of its control requests and
      teardowns is under way its control has its own listener running. */
  lemma {:induction false} ChainBetweenOwnHandlers(lib: Library, cfg: ServerConfig, actions: seq<Action>, id: string)
    requires WorkApart(lib, cfg, START, actions)
    ensures IsRun(lib, cfg, START, actions)
    ensures var s := After(lib, cfg, START, actions);
            && (id in s.controls ==> id in s.sessions)
            && (id in s.sessions ==> HostOwned(s.hosts, id))
            && (NobodyWorks(s.threads, id) && id in s.controls ==>
                  exists u :: u in s.threads && s.threads[u].role == Listener(s.controls[id]) && s.threads[u].id == id
                              && (s.threads[u].next == OnConnect || s.threads[u].next == Listening))
  {
    ChainAtStart();
    RunsKeepChain(lib, cfg, START, actions);
    var s := After(lib, cfg, START, actions);
    OwnHosts(s.hosts, id, "", []);
    AlwaysHalfLinked(s, id);
    if NobodyWorks(s.threads, id) && id in s.controls {
      var v := ViewOf(s, id);
      assert Linked(v) && v.control == Some(s.controls[id]);
      var u :| u in v.live && v.live[u] == s.controls[id];
      assert u in s.threads && IsLive(s.threads[u], id);
    }
  }

  // ---------------------------------------------------------------------------------------------
  // Dials

  /** No dial is under way together with a control request or a teardown of its client. */
  ghost predicate DialsApart(threads: map<Tid, Thread>) {
    forall t, u :: Busy(threads, t) && threads[t].role.Dialer? && Works(threads, u) ==> threads[t].id != threads[u].id
  }

  ghost predicate AlwaysApart(lib: Library, cfg: ServerConfig, s: State, actions: seq<Action>)
    requires IsRun(lib, cfg, s, actions)
    decreases |actions|
  {
    DialsApart(s.threads) && (actions == [] || AlwaysApart(lib, cfg, Next(lib, cfg, s, actions[0]), actions[1..]))
  }

  ghost predicate DialsOk(s: State) {
    forall t :: t in s.threads && s.threads[t].next.GetSession? ==> s.threads[t].role.Dialer? && s.threads[t].id in s.sessions
  }

  lemma NextDials(lib: Library, cfg: ServerConfig, s: State, a: Action)
    requires ChainInv(s) && DialsApart(s.threads) && DialsOk(s) && Enabled(lib, cfg, s, a) && !ByEmbedder(a)
    ensures DialsOk(Next(lib, cfg, s, a))
  {
    var s' := Next(lib, cfg, s, a);
    forall t | t in s'.threads && s'.threads[t].next.GetSession?
      ensures s'.threads[t].role.Dialer? && s'.threads[t].id in s'.sessions
    {
      if a == Go(t) {
        AlwaysHalfLinked(s, s.threads[t].id);
        OwnTables(s, s.threads[t], t);
      } else {
        assert t in s.threads && s.threads[t] == s'.threads[t];
        SessionKept(lib, cfg, s, a, t);
      }
    }
  }

  /** Only a teardown or a failing control request of its client could take the session away. */
  lemma SessionKept(lib: Library, cfg: ServerConfig, s: State, a: Action, t: Tid)
    requires ChainInv(s) && DialsApart(s.threads) && Enabled(lib, cfg, s, a) && !ByEmbedder(a)
    requires t in s.threads && s.threads[t].role.Dialer? && s.threads[t].next.GetSession?
    requires s.threads[t].id in s.sessions
    ensures s.threads[t].id in Next(lib, cfg, s, a).sessions
  {
    if a.Go? {
      LS.EffectOnSessions(s, s.threads[a.t], a.t);
      assert Busy(s.threads, t);
      if s.threads[a.t].next.DeleteSession? {
        assert Works(s.threads, a.t);
      }
    }
  }

  lemma {:induction false} RunsKeepDials(lib: Library, cfg: ServerConfig, s: State, actions: seq<Action>)
    requires WorkApart(lib, cfg, s, actions) && IsRun(lib, cfg, s, actions) && AlwaysApart(lib, cfg, s, actions)
    requires ChainInv(s) && DialsOk(s)
    ensures DialsOk(After(lib, cfg, s, actions))
    decreases |actions|
  {
    if actions != [] {
      NextDials(lib, cfg, s, actions[0]);
      NextKeepsChain(lib, cfg, s, actions[0]);
      RunsKeepDials(lib, cfg, Next(lib, cfg, s, actions[0]), actions[1..]);
    }
  }

  /** If dials overlap nothing of their own client but each other, a dial that has found a control finds a
      session: its missing-session branch is not taken. */
  lemma {:induction false} DialFindsASession(lib: Library, cfg: ServerConfig, actions: seq<Action>, t: Tid)
    requires WorkApart(lib, cfg, START, actions) && IsRun(lib, cfg, START, actions)
    requires AlwaysApart(lib, cfg, START, actions)
    ensures var s := After(lib, cfg, START, actions);
            t in s.threads && s.threads[t].next.GetSession? ==> Following(s, s.threads[t]).Send?
  {
    ChainAtStart();
    RunsKeepDials(lib, cfg, START, actions);
  }
}
