/** Handlers that do not overlap: every run of Registry, where a handler is one step, is what some run of
    LockLevel does to the tables. SerialRuns has the other direction. */
module Serial {

  import opened Base
  import opened VirtualHosts
  import opened Admission
  import opened LockLevel
  import opened LockSafety
  import opened LockRefinement
  import R = Registry
  import RS = RegistrySafety

  /** The server gets from s to s' without any claim of an embedder. */
  ghost predicate Happens(lib: Library, cfg: ServerConfig, s: State, s': State) {
    exists actions: seq<Action> ::
      (forall a :: a in actions ==> !a.EmbedderAdds?) && IsRun(lib, cfg, s, actions) && After(lib, cfg, s, actions) == s'
  }

  lemma HappensNext(lib: Library, cfg: ServerConfig, s: State, m: State, t: Tid, s': State)
    requires Happens(lib, cfg, s, m) && Reaches(lib, cfg, m, {t}, s')
    ensures Happens(lib, cfg, s, s')
  {
    var first: seq<Action> :| (forall a :: a in first ==> !a.EmbedderAdds?) && IsRun(lib, cfg, s, first)
                              && After(lib, cfg, s, first) == m;
    var second: seq<Action> :| (forall a :: a in second ==> ByThreads(a, {t})) && IsRun(lib, cfg, m, second)
                               && After(lib, cfg, m, second) == s';
    RunThenRun(lib, cfg, s, first, second);
    assert forall a :: a in first + second ==> !a.EmbedderAdds?;
  }

  // ---------------------------------------------------------------------------------------------
  // What a thread that runs alone leaves untouched

  /** Every other thread stays as it is, and the threads that are new are listeners yet to start. */
  ghost predicate OthersStay(threads: map<Tid, Thread>, threads': map<Tid, Thread>, t: Tid) {
    && (forall u :: u in threads && u != t ==> u in threads' && threads'[u] == threads[u])
    && (forall u :: u in threads' && u != t && u !in threads ==> threads'[u].next == OnConnect)
    && (t in threads ==> t in threads' && threads'[t].role == threads[t].role)
    && (t !in threads && t in threads' ==> !threads'[t].role.Listener?)
  }

  lemma NextOthersStay(lib: Library, cfg: ServerConfig, s: State, a: Action, t: Tid)
    requires Enabled(lib, cfg, s, a) && ByThreads(a, {t})
    ensures OthersStay(s.threads, Next(lib, cfg, s, a).threads, t)
  {
  }

  lemma {:induction false} RunOthersStay(lib: Library, cfg: ServerConfig, s: State, actions: seq<Action>, t: Tid)
    requires IsRun(lib, cfg, s, actions) && forall a :: a in actions ==> ByThreads(a, {t})
    ensures OthersStay(s.threads, After(lib, cfg, s, actions).threads, t)
    decreases |actions|
  {
    if actions != [] {
      assert actions[0] in actions && forall a :: a in actions[1..] ==> a in actions;
      NextOthersStay(lib, cfg, s, actions[0], t);
      RunOthersStay(lib, cfg, Next(lib, cfg, s, actions[0]), actions[1..], t);
    }
  }

  // ---------------------------------------------------------------------------------------------
  // Every control ever registered has its listener thread

  ghost predicate ListensTo(threads: map<Tid, Thread>, u: Tid, ctl: ControlId, id: string) {
    u in threads && threads[u].role == Listener(ctl) && threads[u].id == id
  }

  ghost predicate OwnersListened(owners: map<ControlId, string>, threads: map<Tid, Thread>) {
    forall ctl :: ctl in owners ==> exists u :: ListensTo(threads, u, ctl, owners[ctl])
  }

  /** Threads keep their role and their client. */
  ghost predicate RolesKept(threads: map<Tid, Thread>, threads': map<Tid, Thread>) {
    forall u :: u in threads ==> u in threads' && threads'[u].role == threads[u].role && threads'[u].id == threads[u].id
  }

  lemma NextKeepsRoles(lib: Library, cfg: ServerConfig, s: State, a: Action)
    requires Enabled(lib, cfg, s, a)
    ensures RolesKept(s.threads, Next(lib, cfg, s, a).threads)
  {
  }

  lemma NextOwners(lib: Library, cfg: ServerConfig, s: State, a: Action)
    requires Enabled(lib, cfg, s, a)
    ensures var s' := Next(lib, cfg, s, a);
            || s'.owners == s.owners
            || (exists u, id :: ListensTo(s'.threads, u, s.newControl, id) && s'.owners == s.owners[s.newControl := id])
  {
    match a
    case Go(t) => EffectOnControls(s, s.threads[t], t);
    case GoAndSpawn(t, listener) =>
      assert ListensTo(Next(lib, cfg, s, a).threads, listener, s.newControl, s.threads[t].id);
    case _ =>
  }

  lemma NextKeepsListened(lib: Library, cfg: ServerConfig, s: State, a: Action)
    requires Enabled(lib, cfg, s, a) && OwnersListened(s.owners, s.threads)
    ensures OwnersListened(Next(lib, cfg, s, a).owners, Next(lib, cfg, s, a).threads)
  {
    var s' := Next(lib, cfg, s, a);
    NextKeepsRoles(lib, cfg, s, a);
    NextOwners(lib, cfg, s, a);
    forall ctl | ctl in s'.owners ensures exists u :: ListensTo(s'.threads, u, ctl, s'.owners[ctl]) {
      if ctl in s.owners && s'.owners[ctl] == s.owners[ctl] {
        var u :| ListensTo(s.threads, u, ctl, s.owners[ctl]);
        assert ListensTo(s'.threads, u, ctl, s'.owners[ctl]);
      }
    }
  }

  lemma {:induction false} RunKeepsListened(lib: Library, cfg: ServerConfig, s: State, actions: seq<Action>)
    requires IsRun(lib, cfg, s, actions) && OwnersListened(s.owners, s.threads)
    ensures OwnersListened(After(lib, cfg, s, actions).owners, After(lib, cfg, s, actions).threads)
    decreases |actions|
  {
    if actions != [] {
      NextKeepsListened(lib, cfg, s, actions[0]);
      RunKeepsListened(lib, cfg, Next(lib, cfg, s, actions[0]), actions[1..]);
    }
  }

  // ---------------------------------------------------------------------------------------------
  // Between handlers

  /** No handler is under way: every thread has returned or is a listener outside its teardown. */
  ghost predicate Quiet(threads: map<Tid, Thread>) {
    forall u :: u in threads ==> threads[u].next == Finished || threads[u].next == OnConnect || threads[u].next == Listening
  }

  function SectionOf(phase: R.Phase): Section {
    if phase == R.Spawned then OnConnect else Listening
  }

  /** The listeners of the handler level are threads that stand where their phase says. */
  ghost predicate Listens(threads: map<Tid, Thread>, ctl: ControlId, l: R.Listener) {
    exists u :: ListensTo(threads, u, ctl, l.identifier) && threads[u].next == SectionOf(l.phase)
  }

  ghost predicate AllListen(threads: map<Tid, Thread>, listeners: map<ControlId, R.Listener>) {
    forall ctl :: ctl in listeners ==> Listens(threads, ctl, listeners[ctl])
  }

  ghost predicate Matches(s: State, r: R.State) {
    && SameTables(s, r)
    && Inv(s) && OneHostEach(s.hosts) && OwnersListened(s.owners, s.threads)
    && Quiet(s.threads) && AllListen(s.threads, r.listeners)
  }

  lemma NothingPending(threads: map<Tid, Thread>, id: string)
    requires Quiet(threads)
    ensures !DeletePending(threads, id)
  {
  }

  lemma QuietFacts(s: State, id: string)
    requires Inv(s) && Quiet(s.threads)
    ensures s.holder == None
    ensures id in s.controls ==> s.controls[id] !in s.closedControls
  {
    NothingPending(s.threads, id);
  }

  /** What a thread that has run alone and returned leaves. */
  lemma AfterRunningAlone(lib: Library, cfg: ServerConfig, s: State, t: Tid, s': State)
    requires Inv(s) && OneHostEach(s.hosts) && OwnersListened(s.owners, s.threads) && Quiet(s.threads)
    requires Reaches(lib, cfg, s, {t}, s') && t in s'.threads
    requires s'.threads[t].next == Finished || s'.threads[t].next == Listening
    ensures Inv(s') && OneHostEach(s'.hosts) && OwnersListened(s'.owners, s'.threads) && Quiet(s'.threads)
    ensures OthersStay(s.threads, s'.threads, t)
  {
    var actions: seq<Action> :| (forall a :: a in actions ==> ByThreads(a, {t})) && IsRun(lib, cfg, s, actions)
                                && After(lib, cfg, s, actions) == s';
    RunsKeepInv(lib, cfg, s, actions);
    LockSafety.RunsKeepOneHostEach(lib, cfg, s, actions);
    RunKeepsListened(lib, cfg, s, actions);
    RunOthersStay(lib, cfg, s, actions, t);
  }

  lemma StillListen(threads: map<Tid, Thread>, threads': map<Tid, Thread>, t: Tid, listeners: map<ControlId, R.Listener>)
    requires AllListen(threads, listeners) && OthersStay(threads, threads', t)
    requires t in threads && threads[t].role.Listener? ==> threads[t].role.ctl !in listeners
    ensures AllListen(threads', listeners)
  {
    forall ctl | ctl in listeners ensures Listens(threads', ctl, listeners[ctl]) {
      var u :| ListensTo(threads, u, ctl, listeners[ctl].identifier) && threads[u].next == SectionOf(listeners[ctl].phase);
      assert u != t && threads'[u] == threads[u];
      assert ListensTo(threads', u, ctl, listeners[ctl].identifier);
    }
  }

  lemma NobodyListensYet(s: State, u: Tid, id: string)
    requires Inv(s)
    ensures u in s.threads ==> !ListensTo(s.threads, u, s.newControl, id)
  {
    if u in s.threads {
      assert ThreadOk(s.threads[u], s.owners);
    }
  }

  /** The control a handler has just registered is listened to by a thread that has yet to start. */
  lemma NewControlIsListenedTo(s: State, s': State, t: Tid, id: string)
    requires Inv(s) && Inv(s') && OwnersListened(s'.owners, s'.threads) && OthersStay(s.threads, s'.threads, t)
    requires t !in s.threads && Get(s'.controls, id) == Some(s.newControl)
    ensures Listens(s'.threads, s.newControl, R.Listener(id, R.Spawned))
  {
    var ctl := s.newControl;
    assert id in s'.controls && s'.controls[id] == ctl;
    assert OwnedBy(s'.owners, ctl, id);
    var u :| ListensTo(s'.threads, u, ctl, id);
    NobodyListensYet(s, u, id);
    assert u !in s.threads && s'.threads[u].next == OnConnect;
  }

  // ---------------------------------------------------------------------------------------------
  // One handler step

  lemma FreshTids(threads: map<Tid, Thread>) returns (t: Tid)
    ensures t !in threads && t + 1 !in threads
  {
    t := Above(threads.Keys);
  }

  lemma Above(used: set<Tid>) returns (t: Tid)
    ensures forall u :: u in used ==> u < t
  {
    if used == {} {
      t := 0;
    } else {
      var u :| u in used;
      var rest := Above(used - {u});
      t := if u < rest then rest else u + 1;
      forall v | v in used ensures v < t {
        assert v == u || v in used - {u};
      }
    }
  }

  /** The names that are next after the event. */
  function NamesOn(lib: Library, cfg: ServerConfig, names: (SessionId, ControlId), r: R.State, e: R.Event)
    : (SessionId, ControlId)
  {
    match e
    case ConnectEvent(req, out, _, _) =>
      if RS.Claims(lib, cfg, r, req) && req.identifier !in r.controls then NamesAfter(names, out) else names
    case _ => names
  }

  /** The new objects get the names that are next. */
  predicate NamedNext(s: State, e: R.Event) {
    e.ConnectEvent? ==> (e.session, e.ctl) == Names(s)
  }

  ghost predicate Follows(lib: Library, cfg: ServerConfig, s: State, r: R.State, e: R.Event, s': State) {
    Matches(s', R.Next(lib, cfg, r, e)) && Names(s') == NamesOn(lib, cfg, Names(s), r, e)
  }

  lemma ConnectFollows(lib: Library, cfg: ServerConfig, s: State, r: R.State, req: ControlRequest, out: R.Outcome)
    returns (t: Tid, s': State)
    requires Matches(s, r) && Judge(lib, cfg, req).Admitted?
    ensures Reaches(lib, cfg, s, {t}, s')
    ensures Matches(s', R.Connect(lib, cfg, r, req, out, s.newSession, s.newControl).0)
    ensures Names(s') == if RS.Claims(lib, cfg, r, req) && req.identifier !in r.controls then NamesAfter(Names(s), out)
                         else Names(s)
  {
    t := FreshTids(s.threads);
    QuietFacts(s, req.identifier);
    s' := ConnectAlone(lib, cfg, s, t, t + 1, req, out, r);
    AfterRunningAlone(lib, cfg, s, t, s');
    StillListen(s.threads, s'.threads, t, r.listeners);
    ConnectListeners(lib, cfg, s, r, req, out, t, s');
  }

  lemma ConnectListeners(lib: Library, cfg: ServerConfig, s: State, r: R.State, req: ControlRequest, out: R.Outcome,
                         t: Tid, s': State)
    requires OneHostEach(r.hosts) && t !in s.threads
    requires s'.controls == R.Connect(lib, cfg, r, req, out, s.newSession, s.newControl).0.controls
    requires AllListen(s'.threads, r.listeners)
    requires Inv(s) && Inv(s') && OwnersListened(s'.owners, s'.threads) && OthersStay(s.threads, s'.threads, t)
    ensures AllListen(s'.threads, R.Connect(lib, cfg, r, req, out, s.newSession, s.newControl).0.listeners)
  {
    ConnectRegisters(lib, cfg, r, req, out, s.newSession, s.newControl);
    if R.Connect(lib, cfg, r, req, out, s.newSession, s.newControl).0.listeners != r.listeners {
      NewControlIsListenedTo(s, s', t, req.identifier);
    }
  }

  lemma ConnectRegisters(lib: Library, cfg: ServerConfig, r: R.State, req: ControlRequest, out: R.Outcome,
                         session: SessionId, ctl: ControlId)
    requires OneHostEach(r.hosts)
    ensures var r' := R.Connect(lib, cfg, r, req, out, session, ctl).0;
            || r'.listeners == r.listeners
            || (r'.listeners == r.listeners[ctl := R.Listener(req.identifier, R.Spawned)]
                && Get(r'.controls, req.identifier) == Some(ctl))
  {
    RS.ConnectEffect(lib, cfg, r, req, out, session, ctl);
    if RS.Claims(lib, cfg, r, req) {
      var v := Judge(lib, cfg, req);
      SettledRegisters(r, req.identifier, v.domain, v.rules, out, session, ctl);
    }
  }

  lemma SettledRegisters(r: R.State, id: string, domain: string, rules: seq<Rule>, out: R.Outcome,
                         session: SessionId, ctl: ControlId)
    ensures var r' := RS.Settled(r, id, domain, rules, out, session, ctl);
            || r'.listeners == r.listeners
            || (r'.listeners == r.listeners[ctl := R.Listener(id, R.Spawned)] && Get(r'.controls, id) == Some(ctl))
  {
  }

  /** A listener that moves on alone leaves the others listening. */
  lemma OthersListen(s: State, s': State, t: Tid, ctl: ControlId, listeners: map<ControlId, R.Listener>)
    requires AllListen(s.threads, listeners) && OthersStay(s.threads, s'.threads, t)
    requires t in s.threads && s.threads[t].role == Listener(ctl)
    ensures AllListen(s'.threads, listeners - {ctl})
  {
    assert forall c :: c in listeners - {ctl} ==> c in listeners && (listeners - {ctl})[c] == listeners[c];
    StillListen(s.threads, s'.threads, t, listeners - {ctl});
  }

  lemma ListenerThread(s: State, r: R.State, ctl: ControlId) returns (t: Tid)
    requires Matches(s, r) && ctl in r.listeners
    ensures ListensTo(s.threads, t, ctl, r.listeners[ctl].identifier)
    ensures s.threads[t].next == SectionOf(r.listeners[ctl].phase)
  {
    assert Listens(s.threads, ctl, r.listeners[ctl]);
    t :| ListensTo(s.threads, t, ctl, r.listeners[ctl].identifier) && s.threads[t].next == SectionOf(r.listeners[ctl].phase);
  }

  lemma StartMoves(lib: Library, cfg: ServerConfig, s: State, t: Tid, ctl: ControlId, id: string) returns (s': State)
    requires ListensTo(s.threads, t, ctl, id) && s.threads[t].next == OnConnect
    ensures Reaches(lib, cfg, s, {t}, s') && s' == At(s, t, Listening)
  {
    s' := Goes(s, t);
    OneStep(lib, cfg, s, {t}, Go(t));
  }

  lemma StartListeners(s: State, t: Tid, ctl: ControlId, id: string, listeners: map<ControlId, R.Listener>)
    requires ListensTo(s.threads, t, ctl, id) && s.threads[t].next == Listening
    requires AllListen(s.threads, listeners - {ctl})
    ensures AllListen(s.threads, listeners[ctl := R.Listener(id, R.Listening)])
  {
    var listeners' := listeners[ctl := R.Listener(id, R.Listening)];
    forall c | c in listeners' ensures Listens(s.threads, c, listeners'[c]) {
      if c != ctl {
        assert c in listeners - {ctl} && (listeners - {ctl})[c] == listeners'[c];
      }
    }
  }

  lemma StartFollows(lib: Library, cfg: ServerConfig, s: State, r: R.State, id: string, ctl: ControlId)
    returns (t: Tid, s': State)
    requires Matches(s, r) && Get(r.listeners, ctl) == Some(R.Listener(id, R.Spawned))
    ensures Reaches(lib, cfg, s, {t}, s') && Matches(s', R.ListenerStarts(r, id, ctl)) && Names(s') == Names(s)
  {
    t := ListenerThread(s, r, ctl);
    s' := StartMoves(lib, cfg, s, t, ctl, id);
    AfterRunningAlone(lib, cfg, s, t, s');
    OthersListen(s, s', t, ctl, r.listeners);
    StartListeners(s', t, ctl, id, r.listeners);
  }

  lemma EndListeners(r: R.State, id: string, ctl: ControlId)
    requires OneHostEach(r.hosts)
    ensures R.ListenerEnds(r, id, ctl).listeners == r.listeners - {ctl}
  {
    RS.EndEffect(r, id, ctl);
  }

  lemma EndFollows(lib: Library, cfg: ServerConfig, s: State, r: R.State, id: string, ctl: ControlId)
    returns (t: Tid, s': State)
    requires Matches(s, r) && Get(r.listeners, ctl) == Some(R.Listener(id, R.Listening))
    ensures Reaches(lib, cfg, s, {t}, s') && Matches(s', R.ListenerEnds(r, id, ctl)) && Names(s') == Names(s)
  {
    t := ListenerThread(s, r, ctl);
    QuietFacts(s, id);
    s' := ListenerAlone(lib, cfg, s, t, r);
    AfterRunningAlone(lib, cfg, s, t, s');
    OthersListen(s, s', t, ctl, r.listeners);
    EndListeners(r, id, ctl);
  }

  lemma DialListeners(r: R.State, id: string, sent: bool)
    ensures R.Dial(r, id, sent).0.listeners == r.listeners
  {
  }

  lemma DialFollows(lib: Library, cfg: ServerConfig, s: State, r: R.State, id: string, sent: bool)
    returns (t: Tid, s': State)
    requires Matches(s, r)
    ensures Reaches(lib, cfg, s, {t}, s') && Matches(s', R.Dial(r, id, sent).0) && Names(s') == Names(s)
  {
    t := FreshTids(s.threads);
    QuietFacts(s, id);
    s' := DialAlone(lib, cfg, s, t, id, sent, r);
    AfterRunningAlone(lib, cfg, s, t, s');
    StillListen(s.threads, s'.threads, t, r.listeners);
    DialListeners(r, id, sent);
  }

  /** Whatever a handler step does, one thread running alone can do. */
  lemma StepFollows(lib: Library, cfg: ServerConfig, s: State, r: R.State, e: R.Event) returns (t: Tid, s': State)
    requires Matches(s, r) && R.Enabled(r, e) && NamedNext(s, e)
    ensures Reaches(lib, cfg, s, {t}, s') && Follows(lib, cfg, s, r, e, s')
  {
    match e
    case ConnectEvent(req, out, session, ctl) =>
      if Judge(lib, cfg, req).Admitted? {
        t, s' := ConnectFollows(lib, cfg, s, r, req, out);
      } else {
        t, s' := 0, s;
        Stays(lib, cfg, s, {t});
      }
    case StartEvent(id, ctl) => t, s' := StartFollows(lib, cfg, s, r, id, ctl);
    case EndEvent(id, ctl) => t, s' := EndFollows(lib, cfg, s, r, id, ctl);
    case DialEvent(id, sent) => t, s' := DialFollows(lib, cfg, s, r, id, sent);
    case _ =>
      t, s' := 0, s;
      Stays(lib, cfg, s, {t});
  }

  // ---------------------------------------------------------------------------------------------
  // Whole runs

  /** The names that are next after a run: how many sessions have been stored and controls registered. */
  ghost function Stored(lib: Library, cfg: ServerConfig, es: seq<R.Event>): (SessionId, ControlId) {
    if es == [] then (0, 0)
    else NamesOn(lib, cfg, Stored(lib, cfg, es[..|es| - 1]), R.After(lib, cfg, R.EMPTY, es[..|es| - 1]), es[|es| - 1])
  }

  /** Sessions and controls are named in the order in which they come to be. */
  ghost predicate NamedInOrder(lib: Library, cfg: ServerConfig, es: seq<R.Event>) {
    es == [] ||
    (NamedInOrder(lib, cfg, es[..|es| - 1])
     && var last := es[|es| - 1];
     last.ConnectEvent? ==> (last.session, last.ctl) == Stored(lib, cfg, es[..|es| - 1]))
  }

  lemma NothingYet(lib: Library, cfg: ServerConfig)
    ensures Happens(lib, cfg, START, START) && Matches(START, R.EMPTY) && Names(START) == (0, 0)
  {
    assert IsRun(lib, cfg, START, []) && After(lib, cfg, START, []) == START;
  }

  lemma LastEvent(lib: Library, cfg: ServerConfig, es: seq<R.Event>)
    requires es != [] && R.IsRun(lib, cfg, R.EMPTY, es)
    ensures var init, e := es[..|es| - 1], es[|es| - 1];
            var r := R.After(lib, cfg, R.EMPTY, init);
            && R.IsRun(lib, cfg, R.EMPTY, init) && R.Enabled(r, e)
            && R.After(lib, cfg, R.EMPTY, es) == R.Next(lib, cfg, r, e)
  {
  }

  lemma LastStored(lib: Library, cfg: ServerConfig, es: seq<R.Event>)
    requires es != []
    ensures var init, e := es[..|es| - 1], es[|es| - 1];
            Stored(lib, cfg, es) == NamesOn(lib, cfg, Stored(lib, cfg, init), R.After(lib, cfg, R.EMPTY, init), e)
  {
  }

  lemma OneMoreStep(lib: Library, cfg: ServerConfig, s: State, r: R.State, e: R.Event) returns (s': State)
    requires Happens(lib, cfg, START, s) && Matches(s, r) && R.Enabled(r, e) && NamedNext(s, e)
    ensures Happens(lib, cfg, START, s') && Follows(lib, cfg, s, r, e, s')
  {
    var t;
    t, s' := StepFollows(lib, cfg, s, r, e);
    HappensNext(lib, cfg, START, s, t, s');
  }

  /** Every run of handler steps from the empty server is a run of critical sections: it leads to a state
      with the same hosts, sessions and controls, in which no handler is under way and each listener is a
      thread that stands where it should. The names of sessions and controls are only names; here they are
      taken in order. */
  lemma {:induction false} HandlerRunIsLockRun(lib: Library, cfg: ServerConfig, es: seq<R.Event>) returns (s: State)
    requires R.IsRun(lib, cfg, R.EMPTY, es) && NamedInOrder(lib, cfg, es)
    ensures Happens(lib, cfg, START, s)
    ensures Matches(s, R.After(lib, cfg, R.EMPTY, es)) && Names(s) == Stored(lib, cfg, es)
    decreases |es|
  {
    if es == [] {
      s := START;
      NothingYet(lib, cfg);
    } else {
      var init, e := es[..|es| - 1], es[|es| - 1];
      LastEvent(lib, cfg, es);
      LastStored(lib, cfg, es);
      var m := HandlerRunIsLockRun(lib, cfg, init);
      s := OneMoreStep(lib, cfg, m, R.After(lib, cfg, R.EMPTY, init), e);
    }
  }
}
