/** Non-interference one critical section at a time: clients whose admitted claims do not overlap cannot tell,
    section by section, whether they share the server.

    Each client's sections alone are a run, and it leaves the client's host, rules, session, control and
    threads where the shared run leaves them. Only the names of controls may differ, which count all
    clients' controls. */
module SectionIsolation {

  import opened Base
  import opened VirtualHosts
  import opened Admission
  import opened LockLevel
  import opened LockSafety
  import LR = LockRefinement
  import C = ClientChain
  import I = Isolation

  // ---------------------------------------------------------------------------------------------
  // Two states that look the same to a client

  type Renaming = map<ControlId, ControlId>

  predicate SameSection(x: Section, y: Section, names: Renaming) {
    match x
    case GetSession(ctl) => y.GetSession? && Get(names, ctl) == Some(y.ctl)
    case Send(ctl) => y.Send? && Get(names, ctl) == Some(y.ctl)
    case CloseControl(ctl) => y.CloseControl? && Get(names, ctl) == Some(y.ctl)
    case _ => x == y
  }

  predicate SameRole(x: Role, y: Role, names: Renaming) {
    if x.Listener? then y.Listener? && Get(names, x.ctl) == Some(y.ctl) else x == y
  }

  predicate SameThread(x: Thread, y: Thread, names: Renaming) {
    x.id == y.id && SameRole(x.role, y.role, names) && SameSection(x.next, y.next, names)
  }

  /** The threads of the client, and no others. */
  ghost predicate ThreadsMatch(s: map<Tid, Thread>, p: map<Tid, Thread>, id: string, names: Renaming) {
    && (forall t :: t in s && s[t].id == id ==> t in p)
    && (forall t :: t in p ==> t in s && s[t].id == id && SameThread(s[t], p[t], names))
  }

  ghost predicate EntriesMatch(s: State, p: State, id: string, names: Renaming) {
    && (id in s.sessions <==> id in p.sessions)
    && (id in s.controls <==> id in p.controls)
    && (id in s.controls ==> Get(names, s.controls[id]) == Some(p.controls[id]))
  }

  ghost predicate ClosedMatch(s: set<ControlId>, p: set<ControlId>, names: Renaming) {
    forall c :: c in names ==> (c in s <==> names[c] in p)
  }

  /** Different controls of the client have different names. */
  ghost predicate NamesOk(s: State, p: State, id: string, names: Renaming) {
    && (forall c :: c in names ==> c < s.newControl && OwnedBy(s.owners, c, id) && names[c] < p.newControl)
    && (forall c, d :: c in names && d in names && names[c] == names[d] ==> c == d)
  }

  predicate HolderMatches(s: Option<Tid>, p: Option<Tid>, threads: map<Tid, Thread>) {
    p == if s.Some? && s.value in threads then s else None
  }

  ghost predicate Matches(s: State, p: State, id: string, names: Renaming) {
    && p.hosts == I.Only(s.hosts, id)
    && EntriesMatch(s, p, id, names)
    && ThreadsMatch(s.threads, p.threads, id, names)
    && ClosedMatch(s.closedControls, p.closedControls, names)
    && NamesOk(s, p, id, names)
    && HolderMatches(s.holder, p.holder, p.threads)
  }

  // ---------------------------------------------------------------------------------------------
  // Where the claims are

  /** The hosts of the client, of its connectors and of its teardowns are the ones in `mine`. */
  ghost predicate Placed(s: State, id: string, mine: set<string>) {
    && (forall h :: h in s.hosts ==> (h in mine <==> s.hosts[h].identifier == id))
    && (forall t :: t in s.threads ==> PlacedThread(s.threads[t], id, mine))
  }

  predicate PlacedThread(th: Thread, id: string, mine: set<string>) {
    && (th.role.Connector? ==> (th.role.domain in mine <==> th.id == id))
    && (th.next.DeleteHost? ==> (th.next.host in mine <==> th.id == id))
  }

  /** The action's claim, if it makes one, is in `mine` exactly if it is the client's. */
  predicate PlacedAction(lib: Library, cfg: ServerConfig, a: Action, id: string, mine: set<string>) {
    && !C.ByEmbedder(a)
    && (a.NewConnect? && Judge(lib, cfg, a.req).Admitted? ==>
          (Judge(lib, cfg, a.req).domain in mine <==> a.req.identifier == id))
  }

  lemma GoPlaced(s: State, t: Tid, id: string, mine: set<string>)
    requires t in s.threads && Placed(s, id, mine)
    ensures Placed(Goes(s, t), id, mine)
  {
    var th := s.threads[t];
    C.EffectOnHosts(s, th, t);
    assert Goes(s, t).threads == s.threads[t := th.(next := Following(s, th))];
    assert PlacedThread(th, id, mine);
    if th.next.LookUpHost? && HostOf(s.hosts, th.id).Some? {
      assert HostOf(s.hosts, th.id).value in HostsOf(s.hosts, th.id);
    }
    assert PlacedThread(th.(next := Following(s, th)), id, mine);
  }

  lemma NextPlaced(lib: Library, cfg: ServerConfig, s: State, a: Action, id: string, mine: set<string>)
    requires Enabled(lib, cfg, s, a) && Placed(s, id, mine) && PlacedAction(lib, cfg, a, id, mine)
    ensures Placed(Next(lib, cfg, s, a), id, mine)
  {
    match a
    case Go(t) => GoPlaced(s, t, id, mine);
    case _ =>
  }

  ghost predicate Fine(s: State, id: string, mine: set<string>) {
    Inv(s) && OneHostEach(s.hosts) && Placed(s, id, mine)
  }

  // ---------------------------------------------------------------------------------------------
  // Somebody else's section

  lemma OthersHosts(s: State, th: Thread, t: Tid, id: string, mine: set<string>)
    requires Placed(s, id, mine) && PlacedThread(th, id, mine) && th.id != id
    ensures I.Only(Effect(s, th, t).hosts, id) == I.Only(s.hosts, id)
  {
    C.EffectOnHosts(s, th, t);
    if th.next.AddHost? && th.role.Connector? && !InUseByAnother(s.hosts, th.role.domain, th.id) {
      I.HostViews(s.hosts, th.role.domain, th.id, th.role.rules, id);
    }
  }

  lemma OthersGo(lib: Library, cfg: ServerConfig, s: State, p: State, t: Tid, id: string, names: Renaming, mine: set<string>)
    requires Fine(s, id, mine) && Matches(s, p, id, names) && Enabled(lib, cfg, s, Go(t)) && s.threads[t].id != id
    ensures Matches(Goes(s, t), p, id, names)
  {
    var th, s' := s.threads[t], Goes(s, t);
    OthersHosts(s, th, t, id, mine);
    C.EffectOnTables(s, th, t, id);
    assert Get(s'.controls, id) == Get(s.controls, id);
    EffectOnControls(s, th, t);
    OthersHolder(s, th, t, p, id, names);
    assert ThreadOk(th, s.owners);
    assert s'.threads == s.threads[t := th.(next := Following(s, th))];
  }

  lemma OthersHolder(s: State, th: Thread, t: Tid, p: State, id: string, names: Renaming)
    requires Inv(s) && t in s.threads && s.threads[t] == th && th.id != id && ThreadsMatch(s.threads, p.threads, id, names)
    requires HolderMatches(s.holder, p.holder, p.threads) && (NeedsSessionLock(th.next) ==> s.holder.None?)
    ensures HolderMatches(Effect(s, th, t).holder, p.holder, p.threads)
  {
    assert t !in p.threads;
    if InDeleteSession(th.next) {
      assert s.holder == Some(t);
    }
  }

  lemma OthersRegister(s: State, p: State, t: Tid, listener: Tid, id: string, names: Renaming)
    requires Inv(s) && Matches(s, p, id, names) && t in s.threads && listener !in s.threads && s.threads[t].id != id
    ensures Matches(Registers(s, t, listener), p, id, names)
  {
    var s' := Registers(s, t, listener);
    assert s'.threads == s.threads[t := s.threads[t].(next := Finished)]
                           [listener := Thread(s.threads[t].id, Listener(s.newControl), OnConnect)];
    assert Get(s'.controls, id) == Get(s.controls, id);
  }

  lemma OthersAct(lib: Library, cfg: ServerConfig, s: State, p: State, a: Action, id: string, names: Renaming,
                  mine: set<string>)
    requires Fine(s, id, mine) && Matches(s, p, id, names) && Enabled(lib, cfg, s, a)
    requires !C.ByEmbedder(a) && C.Subject(s, a) != Some(id)
    ensures Matches(Next(lib, cfg, s, a), p, id, names)
  {
    match a
    case Go(t) => OthersGo(lib, cfg, s, p, t, id, names, mine);
    case GoAndSpawn(t, listener) => OthersRegister(s, p, t, listener, id, names);
    case _ =>
  }

  // ---------------------------------------------------------------------------------------------
  // The client's own section

  lemma SameHosts(s: State, p: State, id: string)
    requires OneHostEach(s.hosts) && p.hosts == I.Only(s.hosts, id)
    ensures HostOwned(p.hosts, id) <==> HostOwned(s.hosts, id)
    ensures HostOf(p.hosts, id) == HostOf(s.hosts, id)
    ensures forall host :: !InUseByAnother(p.hosts, host, id)
  {
    if HostOwned(s.hosts, id) {
      LR.HostFound(s.hosts, id);
      var h := HostOf(s.hosts, id).value;
      assert h in p.hosts && p.hosts[h].identifier == id;
      LR.HostFound(p.hosts, id);
    } else {
      assert HostsOf(s.hosts, id) == {} && HostsOf(p.hosts, id) == {};
    }
  }

  lemma OwnClaim(s: State, p: State, id: string, mine: set<string>, domain: string, rules: seq<Rule>)
    requires Placed(s, id, mine) && domain in mine && p.hosts == I.Only(s.hosts, id)
    ensures !InUseByAnother(s.hosts, domain, id)
    ensures Claimed(p.hosts, domain, id, rules) == I.Only(Claimed(s.hosts, domain, id, rules), id)
  {
    I.HostViews(s.hosts, domain, id, rules, id);
    assert Without(p.hosts, id) == map[];
  }

  lemma OwnHosts(s: State, p: State, x: Thread, y: Thread, t: Tid, id: string, names: Renaming, mine: set<string>)
    requires Placed(s, id, mine) && PlacedThread(x, id, mine) && x.id == id && SameThread(x, y, names)
    requires p.hosts == I.Only(s.hosts, id)
    ensures Effect(p, y, t).hosts == I.Only(Effect(s, x, t).hosts, id)
    ensures x.next.AddHost? && x.role.Connector? ==> !InUseByAnother(s.hosts, x.role.domain, id)
  {
    C.EffectOnHosts(s, x, t);
    C.EffectOnHosts(p, y, t);
    if x.next.AddHost? && x.role.Connector? {
      OwnClaim(s, p, id, mine, x.role.domain, x.role.rules);
    }
  }

  lemma OwnFollowing(s: State, p: State, x: Thread, y: Thread, id: string, names: Renaming)
    requires OneHostEach(s.hosts) && p.hosts == I.Only(s.hosts, id) && EntriesMatch(s, p, id, names)
    requires x.id == id && SameThread(x, y, names)
    requires x.next.AddHost? && x.role.Connector? ==> !InUseByAnother(s.hosts, x.role.domain, id)
    ensures SameThread(x.(next := Following(s, x)), y.(next := Following(p, y)), names)
  {
    SameHosts(s, p, id);
  }

  lemma OwnEntries(s: State, p: State, x: Thread, y: Thread, t: Tid, id: string, names: Renaming)
    requires EntriesMatch(s, p, id, names) && ClosedMatch(s.closedControls, p.closedControls, names)
    requires x.id == id && SameThread(x, y, names) && NamesOk(s, p, id, names)
    ensures var s', p' := Effect(s, x, t), Effect(p, y, t);
            && EntriesMatch(s', p', id, names) && ClosedMatch(s'.closedControls, p'.closedControls, names)
            && NamesOk(s', p', id, names)
  {
    EffectOnSessions(s, x, t);
    EffectOnSessions(p, y, t);
    EffectOnControls(s, x, t);
    EffectOnControls(p, y, t);
  }

  lemma OwnHolder(s: State, p: State, x: Thread, y: Thread, t: Tid, id: string, names: Renaming)
    requires OneHostEach(s.hosts) && p.hosts == I.Only(s.hosts, id) && EntriesMatch(s, p, id, names)
    requires x.id == id && SameThread(x, y, names) && t in p.threads
    requires HolderMatches(s.holder, p.holder, p.threads)
    ensures HolderMatches(Effect(s, x, t).holder, Effect(p, y, t).holder, p.threads)
  {
    SameHosts(s, p, id);
  }

  lemma OwnGoEnabled(lib: Library, cfg: ServerConfig, s: State, p: State, t: Tid, id: string, names: Renaming)
    requires Matches(s, p, id, names) && Enabled(lib, cfg, s, Go(t)) && s.threads[t].id == id
    ensures Enabled(lib, cfg, p, Go(t))
  {
    assert SameThread(s.threads[t], p.threads[t], names);
  }

  /** The tables match after the effect, and so do the threads. */
  lemma Together(s: State, p: State, t: Tid, next: Section, next': Section, id: string, names: Renaming)
    requires t in s.threads && t in p.threads && p.hosts == I.Only(s.hosts, id) && EntriesMatch(s, p, id, names)
    requires ThreadsMatch(s.threads, p.threads, id, names) && ClosedMatch(s.closedControls, p.closedControls, names)
    requires NamesOk(s, p, id, names) && HolderMatches(s.holder, p.holder, p.threads)
    requires SameThread(s.threads[t].(next := next), p.threads[t].(next := next'), names)
    ensures Matches(At(s, t, next), At(p, t, next'), id, names)
  {
    Moved(s.threads, p.threads, t, s.threads[t].(next := next), p.threads[t].(next := next'), id, names);
  }

  lemma OwnGo(s: State, p: State, t: Tid, id: string, names: Renaming, mine: set<string>)
    requires Fine(s, id, mine) && Matches(s, p, id, names) && t in s.threads && s.threads[t].id == id
    ensures t in p.threads && Matches(Goes(s, t), Goes(p, t), id, names)
  {
    var x, y := s.threads[t], p.threads[t];
    assert SameThread(x, y, names) && PlacedThread(x, id, mine);
    OwnHosts(s, p, x, y, t, id, names, mine);
    OwnFollowing(s, p, x, y, id, names);
    OwnEntries(s, p, x, y, t, id, names);
    OwnHolder(s, p, x, y, t, id, names);
    Together(Effect(s, x, t), Effect(p, y, t), t, Following(s, x), Following(p, y), id, names);
  }

  lemma Moved(s: map<Tid, Thread>, p: map<Tid, Thread>, t: Tid, x: Thread, y: Thread, id: string, names: Renaming)
    requires ThreadsMatch(s, p, id, names) && x.id == id && SameThread(x, y, names)
    ensures ThreadsMatch(s[t := x], p[t := y], id, names)
  {
  }

  lemma OwnFail(lib: Library, cfg: ServerConfig, s: State, p: State, t: Tid, id: string, names: Renaming)
    requires Matches(s, p, id, names) && Enabled(lib, cfg, s, Fail(t)) && s.threads[t].id == id
    ensures Enabled(lib, cfg, p, Fail(t))
    ensures Matches(Next(lib, cfg, s, Fail(t)), Next(lib, cfg, p, Fail(t)), id, names)
  {
    var x, y := s.threads[t], p.threads[t];
    assert SameThread(x.(next := Fallback(x)), y.(next := Fallback(y)), names);
    Moved(s.threads, p.threads, t, x.(next := Fallback(x)), y.(next := Fallback(y)), id, names);
  }

  lemma Renamed(s: map<Tid, Thread>, p: map<Tid, Thread>, id: string, names: Renaming, c: ControlId, d: ControlId)
    requires ThreadsMatch(s, p, id, names) && c !in names
    ensures ThreadsMatch(s, p, id, names[c := d])
  {
  }

  lemma RegisterThreads(s: State, t: Tid, listener: Tid)
    requires t in s.threads
    ensures Registers(s, t, listener).threads
            == s.threads[t := s.threads[t].(next := Finished)]
                 [listener := Thread(s.threads[t].id, Listener(s.newControl), OnConnect)]
  {
  }

  lemma OwnListener(s: State, p: State, t: Tid, listener: Tid, id: string, names: Renaming)
    requires Inv(s) && Matches(s, p, id, names) && t in s.threads && s.threads[t].id == id
    ensures t in p.threads
    ensures ThreadsMatch(Registers(s, t, listener).threads, Registers(p, t, listener).threads, id,
                         names[s.newControl := p.newControl])
  {
    var names' := names[s.newControl := p.newControl];
    var x, y := s.threads[t].(next := Finished), p.threads[t].(next := Finished);
    Renamed(s.threads, p.threads, id, names, s.newControl, p.newControl);
    RegisterThreads(s, t, listener);
    RegisterThreads(p, t, listener);
    Moved(s.threads, p.threads, t, x, y, id, names');
    Moved(s.threads[t := x], p.threads[t := y], listener, Thread(id, Listener(s.newControl), OnConnect),
          Thread(id, Listener(p.newControl), OnConnect), id, names');
  }

  predicate FreshControl(s: State) {
    s.newControl !in s.closedControls && s.newControl !in s.owners
  }

  lemma NewNames(s: State, p: State, t: Tid, listener: Tid, id: string, names: Renaming)
    requires FreshControl(s) && NamesOk(s, p, id, names) && t in s.threads && s.threads[t].id == id && t in p.threads
    ensures NamesOk(Registers(s, t, listener), Registers(p, t, listener), id, names[s.newControl := p.newControl])
  {
    var s' := Registers(s, t, listener);
    assert s'.owners == s.owners[s.newControl := id] && s'.newControl == s.newControl + 1;
    assert Registers(p, t, listener).newControl == p.newControl + 1;
  }

  lemma NewNameClosed(s: State, p: State, t: Tid, listener: Tid, names: Renaming)
    requires FreshControl(s) && FreshControl(p) && t in s.threads && t in p.threads
    requires ClosedMatch(s.closedControls, p.closedControls, names)
    ensures ClosedMatch(Registers(s, t, listener).closedControls, Registers(p, t, listener).closedControls,
                        names[s.newControl := p.newControl])
  {
  }

  lemma NewEntry(s: State, p: State, t: Tid, listener: Tid, id: string, names: Renaming)
    requires EntriesMatch(s, p, id, names) && t in s.threads && t in p.threads
    requires s.threads[t].id == id && p.threads[t].id == id
    ensures EntriesMatch(Registers(s, t, listener), Registers(p, t, listener), id, names[s.newControl := p.newControl])
  {
  }

  lemma OwnRegister(lib: Library, cfg: ServerConfig, s: State, p: State, t: Tid, listener: Tid, id: string, names: Renaming)
    requires Inv(s) && Matches(s, p, id, names) && Enabled(lib, cfg, s, GoAndSpawn(t, listener)) && s.threads[t].id == id
    requires Inv(p)
    ensures Enabled(lib, cfg, p, GoAndSpawn(t, listener))
    ensures Matches(Registers(s, t, listener), Registers(p, t, listener), id, names[s.newControl := p.newControl])
  {
    OwnListener(s, p, t, listener, id, names);
    NewNames(s, p, t, listener, id, names);
    NewNameClosed(s, p, t, listener, names);
    NewEntry(s, p, t, listener, id, names);
    assert SameThread(s.threads[t], p.threads[t], names);
    assert s.holder.Some? ==> s.holder.value in s.threads;
  }

  lemma OwnAct(lib: Library, cfg: ServerConfig, s: State, p: State, a: Action, id: string, names: Renaming, mine: set<string>)
    returns (names': Renaming)
    requires Fine(s, id, mine) && Inv(p) && Matches(s, p, id, names) && Enabled(lib, cfg, s, a)
    requires !C.ByEmbedder(a) && C.Subject(s, a) == Some(id)
    ensures Enabled(lib, cfg, p, a) && Matches(Next(lib, cfg, s, a), Next(lib, cfg, p, a), id, names')
  {
    names' := names;
    match a
    case NewConnect(t, req) =>
      var th := Next(lib, cfg, s, a).threads[t];
      Moved(s.threads, p.threads, t, th, th, id, names);
    case NewDial(t, _) =>
      var th := Thread(id, Dialer, GetControl);
      Moved(s.threads, p.threads, t, th, th, id, names);
    case Go(t) =>
      OwnGoEnabled(lib, cfg, s, p, t, id, names);
      OwnGo(s, p, t, id, names, mine);
    case Fail(t) => OwnFail(lib, cfg, s, p, t, id, names);
    case GoAndSpawn(t, listener) =>
      OwnRegister(lib, cfg, s, p, t, listener, id, names);
      names' := names[s.newControl := p.newControl];
  }

  // ---------------------------------------------------------------------------------------------
  // Whole runs

  /** The actions of one client in a run. */
  ghost function Own(lib: Library, cfg: ServerConfig, s: State, actions: seq<Action>, id: string): seq<Action>
    requires IsRun(lib, cfg, s, actions)
    decreases |actions|
  {
    if actions == [] then []
    else
      var rest := Own(lib, cfg, Next(lib, cfg, s, actions[0]), actions[1..], id);
      if C.Subject(s, actions[0]) == Some(id) then [actions[0]] + rest else rest
  }

  lemma FineNext(lib: Library, cfg: ServerConfig, s: State, a: Action, id: string, mine: set<string>)
    requires Enabled(lib, cfg, s, a) && Fine(s, id, mine) && PlacedAction(lib, cfg, a, id, mine)
    ensures Fine(Next(lib, cfg, s, a), id, mine)
  {
    NextKeepsInv(lib, cfg, s, a);
    NextKeepsOneHostEach(lib, cfg, s, a);
    NextPlaced(lib, cfg, s, a, id, mine);
  }

  lemma {:induction false} Projected(lib: Library, cfg: ServerConfig, s: State, p: State, actions: seq<Action>, id: string,
                                     names: Renaming, mine: set<string>)
    returns (names': Renaming)
    requires IsRun(lib, cfg, s, actions) && Fine(s, id, mine) && Inv(p) && Matches(s, p, id, names)
    requires forall a :: a in actions ==> PlacedAction(lib, cfg, a, id, mine)
    ensures IsRun(lib, cfg, p, Own(lib, cfg, s, actions, id))
    ensures Matches(After(lib, cfg, s, actions), After(lib, cfg, p, Own(lib, cfg, s, actions, id)), id, names')
    decreases |actions|
  {
    names' := names;
    if actions != [] {
      var a, rest := actions[0], actions[1..];
      assert a in actions && forall b :: b in rest ==> b in actions;
      var s1 := Next(lib, cfg, s, a);
      FineNext(lib, cfg, s, a, id, mine);
      if C.Subject(s, a) == Some(id) {
        var names1 := OwnAct(lib, cfg, s, p, a, id, names, mine);
        NextKeepsInv(lib, cfg, p, a);
        names' := Projected(lib, cfg, s1, Next(lib, cfg, p, a), rest, id, names1, mine);
        var own := Own(lib, cfg, s1, rest, id);
        assert ([a] + own)[0] == a && ([a] + own)[1..] == own;
      } else {
        OthersAct(lib, cfg, s, p, a, id, names, mine);
        names' := Projected(lib, cfg, s1, p, rest, id, names, mine);
      }
    }
  }

  /** No two clients are admitted for one domain, and no embedder interferes. */
  ghost predicate ClaimsApart(lib: Library, cfg: ServerConfig, actions: seq<Action>) {
    && (forall a :: a in actions ==> !C.ByEmbedder(a))
    && forall a, b :: a in actions && b in actions && a.NewConnect? && b.NewConnect?
                      && Judge(lib, cfg, a.req).Admitted? && Judge(lib, cfg, b.req).Admitted?
                      && Judge(lib, cfg, a.req).domain == Judge(lib, cfg, b.req).domain
         ==> a.req.identifier == b.req.identifier
  }

  function DomainsOf(lib: Library, cfg: ServerConfig, actions: seq<Action>, id: string): set<string> {
    set a | a in actions && a.NewConnect? && a.req.identifier == id && Judge(lib, cfg, a.req).Admitted?
      :: Judge(lib, cfg, a.req).domain
  }

  /** Whatever the interleaving of all sections: the client's own sections are a run by themselves, and they
      leave its host and rules, its session and control, and each of its threads where the shared run does,
      up to the names of its controls. */
  lemma {:induction false} NonInterference(lib: Library, cfg: ServerConfig, actions: seq<Action>, id: string)
    returns (names: Renaming)
    requires IsRun(lib, cfg, START, actions) && ClaimsApart(lib, cfg, actions)
    ensures IsRun(lib, cfg, START, Own(lib, cfg, START, actions, id))
    ensures Matches(After(lib, cfg, START, actions), After(lib, cfg, START, Own(lib, cfg, START, actions, id)), id, names)
  {
    names := Projected(lib, cfg, START, START, actions, id, map[], DomainsOf(lib, cfg, actions, id));
  }
}
