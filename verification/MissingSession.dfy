/** When dial takes its missing-session branch: tunnel/server.go dial, lines 378-387.

    dial looks up the control in one section and the session in another. Whether the second lookup fails is
    said here by the sections that ran, for every interleaving of every thread, embedders included. */
module MissingSession {

  import opened Base
  import opened VirtualHosts
  import opened Admission
  import opened LockLevel
  import opened LockRefinement
  import opened ClientChain
  import LockSafety
  import RS = RegistrySafety

  // ---------------------------------------------------------------------------------------------
  // What the sections do to the entries of one client

  datatype Table = Sessions | Controls

  datatype Change = Nothing | Stored | Removed

  /** addSession and addControl store; the sections of deleteSession and deleteControl leave no entry. */
  function ChangeOf(s: State, a: Action, id: string, table: Table): Change {
    match a
    case Go(t) =>
      if t !in s.threads || s.threads[t].id != id then Nothing
      else
        var next := s.threads[t].next;
        if table.Sessions? then (if next.AddSession? then Stored else if next.DeleteSession? then Removed else Nothing)
        else if next.DeleteControl? then Removed else Nothing
    case GoAndSpawn(t, _) =>
      if t in s.threads && s.threads[t].id == id && table.Controls? then Stored else Nothing
    case _ => Nothing
  }

  ghost function Changes(lib: Library, cfg: ServerConfig, s: State, actions: seq<Action>, id: string, table: Table)
    : (cs: seq<Change>)
    requires IsRun(lib, cfg, s, actions)
    ensures |cs| == |actions|
    decreases |actions|
  {
    if actions == [] then []
    else [ChangeOf(s, actions[0], id, table)] + Changes(lib, cfg, Next(lib, cfg, s, actions[0]), actions[1..], id, table)
  }

  /** The last change of the entry stored it, or removed it. */
  ghost predicate LastAt(cs: seq<Change>, last: Change, j: int) {
    0 <= j < |cs| && cs[j] == last && forall k :: j < k < |cs| ==> cs[k] == Nothing || cs[k] == last
  }

  ghost predicate Last(cs: seq<Change>, last: Change) {
    exists j :: LastAt(cs, last, j)
  }

  predicate In(s: State, id: string, table: Table) {
    match table
    case Sessions => id in s.sessions
    case Controls => id in s.controls
  }

  lemma NextIn(lib: Library, cfg: ServerConfig, s: State, a: Action, id: string, table: Table)
    requires Enabled(lib, cfg, s, a)
    ensures var c := ChangeOf(s, a, id, table);
            In(Next(lib, cfg, s, a), id, table) <==> c == Stored || (c == Nothing && In(s, id, table))
  {
    if a.Go? {
      OwnTables(s, s.threads[a.t], a.t);
      if s.threads[a.t].id != id {
        EffectOnTables(s, s.threads[a.t], a.t, id);
        assert Get(Effect(s, s.threads[a.t], a.t).controls, id).Some? <==> Get(s.controls, id).Some?;
      }
    }
  }

  lemma LastFromFront(c: Change, cs: seq<Change>, last: Change)
    requires last != Nothing
    ensures Last([c] + cs, last) <==> Last(cs, last) || (c == last && forall d :: d in cs ==> d == Nothing || d == last)
  {
    var all := [c] + cs;
    if j :| LastAt(all, last, j) {
      if j > 0 {
        assert LastAt(cs, last, j - 1) by {
          assert forall k :: 0 <= k < |cs| ==> cs[k] == all[k + 1];
        }
      } else {
        assert forall k :: 0 <= k < |cs| ==> cs[k] == all[k + 1];
      }
    }
    if j :| LastAt(cs, last, j) {
      assert LastAt(all, last, j + 1);
    }
    if c == last && forall d :: d in cs ==> d == Nothing || d == last {
      assert forall k :: 0 < k < |all| ==> all[k] in cs;
      assert LastAt(all, last, 0);
    }
  }

  /** The last change decides; without any the entry is as it was. */
  lemma {:induction false} LastDecides(lib: Library, cfg: ServerConfig, s: State, actions: seq<Action>, id: string,
                                       table: Table)
    requires IsRun(lib, cfg, s, actions)
    ensures var cs := Changes(lib, cfg, s, actions, id, table);
            var was, isNow := In(s, id, table), In(After(lib, cfg, s, actions), id, table);
            && (Last(cs, Stored) ==> isNow) && (Last(cs, Removed) ==> !isNow)
            && (!Last(cs, Stored) && !Last(cs, Removed) ==>
                  isNow == was && forall c :: c in cs ==> c == Nothing)
    decreases |actions|
  {
    if actions != [] {
      var s1, rest := Next(lib, cfg, s, actions[0]), actions[1..];
      var c, cs := ChangeOf(s, actions[0], id, table), Changes(lib, cfg, s1, rest, id, table);
      NextIn(lib, cfg, s, actions[0], id, table);
      LastDecides(lib, cfg, s1, rest, id, table);
      LastFromFront(c, cs, Stored);
      LastFromFront(c, cs, Removed);
    }
  }

  // ---------------------------------------------------------------------------------------------
  // A control is only ever found after a session has been stored

  predicate AfterAddSession(th: Thread) {
    th.next.Handshake? || th.next.AddControl? || th.next.GetSession?
  }

  /** Something that only comes after an addSession of the client. */
  ghost predicate SetUp(s: State, id: string) {
    || id in s.controls
    || exists t :: t in s.threads && s.threads[t].id == id && AfterAddSession(s.threads[t])
  }

  lemma NextSetUp(lib: Library, cfg: ServerConfig, s: State, a: Action, id: string)
    requires Enabled(lib, cfg, s, a) && SetUp(Next(lib, cfg, s, a), id)
    ensures SetUp(s, id) || ChangeOf(s, a, id, Sessions) == Stored
  {
    var s' := Next(lib, cfg, s, a);
    NextIn(lib, cfg, s, a, id, Controls);
    if id in s'.controls {
      if ChangeOf(s, a, id, Controls) == Stored {
        assert s.threads[a.t].next.AddControl?;
      }
    } else {
      var t :| t in s'.threads && s'.threads[t].id == id && AfterAddSession(s'.threads[t]);
      if t in s.threads && s'.threads[t] != s.threads[t] {
        assert a == Go(t) || a == Fail(t) || a.GoAndSpawn?;
      }
    }
  }

  lemma {:induction false} SetUpWasStored(lib: Library, cfg: ServerConfig, s: State, actions: seq<Action>, id: string)
    requires IsRun(lib, cfg, s, actions) && SetUp(After(lib, cfg, s, actions), id) && !SetUp(s, id)
    ensures Stored in Changes(lib, cfg, s, actions, id, Sessions)
    decreases |actions|
  {
    if actions != [] {
      var s1 := Next(lib, cfg, s, actions[0]);
      if SetUp(s1, id) {
        NextSetUp(lib, cfg, s, actions[0], id);
      } else {
        SetUpWasStored(lib, cfg, s1, actions[1..], id);
      }
    }
  }

  // ---------------------------------------------------------------------------------------------
  // The exact conditions

  ghost predicate Misses(s: State, t: Tid) {
    t in s.threads && s.threads[t].next.GetSession? && Following(s, s.threads[t]) == Finished
  }

  /** In any run from the start, a dial that has found a control takes its missing-session branch exactly if,
      of the sections of its client that store or delete a session, a deleteSession came last. There was an
      addSession before. */
  lemma {:induction false} MissesIff(lib: Library, cfg: ServerConfig, actions: seq<Action>, t: Tid)
    requires IsRun(lib, cfg, START, actions)
    requires t in After(lib, cfg, START, actions).threads && After(lib, cfg, START, actions).threads[t].next.GetSession?
    ensures var s := After(lib, cfg, START, actions);
            var cs := Changes(lib, cfg, START, actions, s.threads[t].id, Sessions);
            (Misses(s, t) <==> Last(cs, Removed)) && Stored in cs
  {
    var s := After(lib, cfg, START, actions);
    SetUpWasStored(lib, cfg, START, actions, s.threads[t].id);
    LastDecides(lib, cfg, START, actions, s.threads[t].id, Sessions);
  }

  /** A control without a session is in the tables exactly if addControl came last of the client's sections that
      change its control and deleteSession came last of those that change its session. */
  lemma {:induction false} ControlWithoutSessionIff(lib: Library, cfg: ServerConfig, actions: seq<Action>, id: string)
    requires IsRun(lib, cfg, START, actions)
    ensures var s := After(lib, cfg, START, actions);
            id in s.controls && id !in s.sessions
            <==> Last(Changes(lib, cfg, START, actions, id, Controls), Stored)
                 && Last(Changes(lib, cfg, START, actions, id, Sessions), Removed)
  {
    LastDecides(lib, cfg, START, actions, id, Controls);
    LastDecides(lib, cfg, START, actions, id, Sessions);
    if id in After(lib, cfg, START, actions).controls {
      SetUpWasStored(lib, cfg, START, actions, id);
    }
  }

  lemma {:induction false} DialStandsStill(lib: Library, cfg: ServerConfig, s: State, between: seq<Action>, t: Tid)
    requires IsRun(lib, cfg, s, between) && Go(t) !in between && t in s.threads && s.threads[t].next.GetSession?
    ensures t in After(lib, cfg, s, between).threads && After(lib, cfg, s, between).threads[t] == s.threads[t]
    decreases |between|
  {
    if between != [] {
      assert between[0] in between && forall a :: a in between[1..] ==> a in between;
      DialStandsStill(lib, cfg, Next(lib, cfg, s, between[0]), between[1..], t);
    }
  }

  /** The dial stands before its first lookup, which will find a control. */
  predicate WillFindControl(s: State, t: Tid) {
    t in s.threads && s.threads[t].role.Dialer? && s.threads[t].next.GetControl? && s.threads[t].id in s.controls
  }

  /** Split at the first lookup: the session is missing at the second exactly if deleteSession came last in
      between, or nothing changed the session in between and the control was found without one. */
  lemma {:induction false} MissesBetweenLookupsIff(lib: Library, cfg: ServerConfig, s: State, t: Tid, between: seq<Action>)
    requires WillFindControl(s, t) && IsRun(lib, cfg, Goes(s, t), between) && Go(t) !in between
    ensures var s', id := After(lib, cfg, Goes(s, t), between), s.threads[t].id;
            var cs := Changes(lib, cfg, Goes(s, t), between, id, Sessions);
            && t in s'.threads && s'.threads[t] == Thread(id, Dialer, GetSession(s.controls[id]))
            && (Misses(s', t) <==> Last(cs, Removed) || (id !in s.sessions && forall c :: c in cs ==> c == Nothing))
  {
    var id := s.threads[t].id;
    OwnTables(s, s.threads[t], t);
    DialStandsStill(lib, cfg, Goes(s, t), between, t);
    LastDecides(lib, cfg, Goes(s, t), between, id, Sessions);
    var cs := Changes(lib, cfg, Goes(s, t), between, id, Sessions);
    assert forall j :: 0 <= j < |cs| ==> cs[j] in cs;
  }

  /** As long as no two control requests or teardowns of one client have overlapped, a control is only found
      with its session. Then a dial misses exactly if a deleteSession of its client came last between its two
      lookups, whatever else runs there. */
  lemma {:induction false} DialMissesIff(lib: Library, cfg: ServerConfig, before: seq<Action>, t: Tid, between: seq<Action>)
    requires WorkApart(lib, cfg, START, before) && IsRun(lib, cfg, START, before)
    requires WillFindControl(After(lib, cfg, START, before), t) && Go(t) !in between
    requires IsRun(lib, cfg, Goes(After(lib, cfg, START, before), t), between)
    ensures var s1 := Goes(After(lib, cfg, START, before), t);
            Misses(After(lib, cfg, s1, between), t)
            <==> Last(Changes(lib, cfg, s1, between, s1.threads[t].id, Sessions), Removed)
  {
    var s := After(lib, cfg, START, before);
    ChainBetweenOwnHandlers(lib, cfg, before, s.threads[t].id);
    MissesBetweenLookupsIff(lib, cfg, s, t, between);
  }

  // ---------------------------------------------------------------------------------------------
  // A run in which it does

  predicate OneConnector(threads: map<Tid, Thread>) {
    forall t, u :: t in threads && u in threads && threads[t].role.Connector? && threads[u].role.Connector? ==> t == u
  }

  ghost predicate SomeConnector(threads: map<Tid, Thread>) {
    exists u :: u in threads && threads[u].role.Connector?
  }

  /** One listener, and only once its connector has returned. */
  ghost predicate OneListener(threads: map<Tid, Thread>) {
    && (forall t, u :: t in threads && u in threads && threads[t].role.Listener? && threads[u].role.Listener? ==> t == u)
    && (forall t :: t in threads && threads[t].role.Listener? ==> SomeConnector(threads))
    && (forall t, u :: t in threads && u in threads && threads[t].role.Listener? && threads[u].role.Connector? ==>
          threads[u].next.Finished?)
  }

  lemma {:induction false} RolesStay(lib: Library, cfg: ServerConfig, s: State, actions: seq<Action>)
    requires IsRun(lib, cfg, s, actions) && OneConnector(After(lib, cfg, s, actions).threads)
    ensures OneConnector(s.threads)
    ensures forall t :: t in s.threads ==>
              t in After(lib, cfg, s, actions).threads && After(lib, cfg, s, actions).threads[t].role == s.threads[t].role
    decreases |actions|
  {
    if actions != [] {
      var s1 := Next(lib, cfg, s, actions[0]);
      RolesStay(lib, cfg, s1, actions[1..]);
      forall t | t in s.threads ensures t in s1.threads && s1.threads[t].role == s.threads[t].role {
      }
    }
  }

  lemma OneRequestGoes(lib: Library, cfg: ServerConfig, s: State, a: Action)
    requires Enabled(lib, cfg, s, a) && OneListener(s.threads) && LockSafety.ThreadsOk(s.threads, s.owners)
    requires OneConnector(s.threads) && OneConnector(Next(lib, cfg, s, a).threads)
    ensures OneListener(Next(lib, cfg, s, a).threads)
  {
    var s' := Next(lib, cfg, s, a);
    if u :| u in s.threads && s.threads[u].role.Connector? {
      assert u in s'.threads && s'.threads[u].role.Connector?;
    }
    match a
    case Go(t) => assert s'.threads == s.threads[t := s.threads[t].(next := Following(s, s.threads[t]))];
    case GoAndSpawn(t, listener) => OneRequestRegisters(s, t, listener);
    case _ =>
  }

  lemma OneRequestRegisters(s: State, t: Tid, listener: Tid)
    requires t in s.threads && s.threads[t].next.AddControl? && listener !in s.threads
    requires OneListener(s.threads) && OneConnector(s.threads) && LockSafety.ThreadOk(s.threads[t], s.owners)
    ensures OneListener(Registers(s, t, listener).threads)
  {
    var threads := s.threads[t := s.threads[t].(next := Finished)];
    var threads' := Registers(s, t, listener).threads;
    assert t in threads' && threads'[t].role.Connector?;
    assert threads'
           == threads[listener := Thread(s.threads[t].id, Listener(s.newControl), OnConnect)];
  }

  /** After a single control request there is nothing that could overlap. */
  lemma {:induction false} OneRequestApart(lib: Library, cfg: ServerConfig, s: State, actions: seq<Action>)
    requires IsRun(lib, cfg, s, actions) && forall a :: a in actions ==> !ByEmbedder(a)
    requires OneConnector(After(lib, cfg, s, actions).threads) && OneListener(s.threads) && LockSafety.Inv(s)
    ensures WorkApart(lib, cfg, s, actions)
    decreases |actions|
  {
    if actions != [] {
      assert actions[0] in actions && forall a :: a in actions[1..] ==> a in actions;
      var s1 := Next(lib, cfg, s, actions[0]);
      RolesStay(lib, cfg, s, actions);
      RolesStay(lib, cfg, s1, actions[1..]);
      OneRequestGoes(lib, cfg, s, actions[0]);
      LockSafety.NextKeepsInv(lib, cfg, s, actions[0]);
      NothingOverlaps(s1.threads);
      OneRequestApart(lib, cfg, s1, actions[1..]);
    }
  }

  lemma NothingOverlaps(threads: map<Tid, Thread>)
    requires OneConnector(threads) && OneListener(threads)
    ensures OneWorksEach(threads)
  {
  }

  /** It does happen without any such overlap, to every client: the connection is lost while a dial stands
      between its lookups. */
  lemma DialMeetsTeardown(lib: Library, cfg: ServerConfig, req: ControlRequest) returns (actions: seq<Action>)
    requires Judge(lib, cfg, req).Admitted?
    ensures WorkApart(lib, cfg, START, actions) && IsRun(lib, cfg, START, actions)
    ensures Misses(After(lib, cfg, START, actions), 2)
    ensures After(lib, cfg, START, actions).threads[2].id == req.identifier
  {
    var s := LostUnderADial(lib, cfg, req);
    actions :| (forall a :: a in actions ==> ByThreads(a, THREADS)) && IsRun(lib, cfg, START, actions)
               && After(lib, cfg, START, actions) == s;
    OneRequestApart(lib, cfg, START, actions);
  }

  lemma LostUnderADial(lib: Library, cfg: ServerConfig, req: ControlRequest) returns (s: State)
    requires Judge(lib, cfg, req).Admitted?
    ensures Reaches(lib, cfg, START, THREADS, s) && Misses(s, 2) && s.threads[2].id == req.identifier
    ensures OneConnector(s.threads)
  {
    var s1 := ConnectorSetsUp(lib, cfg, START, 0, req);
    assert s1.hosts.Keys == {Judge(lib, cfg, req).domain};
    var s2 := DialFindsControl(lib, cfg, s1, req.identifier);
    s := ListenerTearsDown(lib, cfg, s2, Judge(lib, cfg, req).domain);
    assert Reaches(lib, cfg, START, THREADS, s) by {
      ReachOn(lib, cfg, START, THREADS, s1, s2);
      ReachOn(lib, cfg, START, THREADS, s2, s);
    }
  }

  lemma DialFindsControl(lib: Library, cfg: ServerConfig, s: State, id: string) returns (s': State)
    requires s.threads.Keys == {0} && s.threads[0].next == AddControl && s.threads[0].id == id
    ensures Reaches(lib, cfg, s, THREADS, s')
    ensures s'.hosts == s.hosts && s'.sessions == s.sessions && s'.holder == s.holder
    ensures s'.threads == map[0 := s.threads[0].(next := Finished), 1 := Thread(id, Listener(s.newControl), OnConnect),
                              2 := Thread(id, Dialer, GetSession(s.newControl))]
  {
    var s1 := Registers(s, 0, 1);
    var s2 := Next(lib, cfg, s1, NewDial(2, id));
    s' := Goes(s2, 2);
    ThreeSteps(lib, cfg, s, THREADS, GoAndSpawn(0, 1), NewDial(2, id), Go(2));
  }

  lemma ListenerTearsDown(lib: Library, cfg: ServerConfig, s: State, host: string) returns (s': State)
    requires s.threads.Keys == {0, 1, 2} && s.threads[1].role.Listener? && s.threads[1].next == OnConnect
    requires s.threads[2].next.GetSession? && s.threads[2].id == s.threads[1].id
    requires s.threads[1].id in s.sessions && s.holder == None
    requires s.hosts.Keys == {host} && s.hosts[host].identifier == s.threads[1].id
    ensures Reaches(lib, cfg, s, THREADS, s') && Misses(s', 2)
    ensures s'.threads == s.threads[1 := s.threads[1].(next := Report)]
  {
    var m := ListenerGetsToDelete(lib, cfg, s, 1);
    assert HostOwned(m.hosts, m.threads[1].id);
    s' := SessionDeleted(lib, cfg, m, 1);
    ReachOn(lib, cfg, s, THREADS, m, s');
  }
}
