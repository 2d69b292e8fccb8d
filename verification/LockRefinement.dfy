/** How the two granularities fit together: whatever a handler step of Registry does to the tables, its
    thread can do when no other thread runs in between; and one that is not left alone can break the chain. */
module LockRefinement {

  import opened Base
  import opened VirtualHosts
  import opened Admission
  import opened LockLevel
  import R = Registry
  import RS = RegistrySafety

  predicate ByThreads(a: Action, ts: set<Tid>) {
    match a
    case NewConnect(t, _) => t in ts
    case NewDial(t, _) => t in ts
    case Go(t) => t in ts
    case Fail(t) => t in ts
    case GoAndSpawn(t, _) => t in ts
    case _ => false
  }

  /** These threads alone take the server from s to s'. */
  ghost predicate Reaches(lib: Library, cfg: ServerConfig, s: State, ts: set<Tid>, s': State) {
    exists actions: seq<Action> ::
      (forall a :: a in actions ==> ByThreads(a, ts)) && IsRun(lib, cfg, s, actions) && After(lib, cfg, s, actions) == s'
  }

  lemma Stays(lib: Library, cfg: ServerConfig, s: State, ts: set<Tid>)
    ensures Reaches(lib, cfg, s, ts, s)
  {
    assert IsRun(lib, cfg, s, []) && After(lib, cfg, s, []) == s;
  }

  lemma StepThen(lib: Library, cfg: ServerConfig, s: State, ts: set<Tid>, a: Action, s': State)
    requires Enabled(lib, cfg, s, a) && ByThreads(a, ts) && Reaches(lib, cfg, Next(lib, cfg, s, a), ts, s')
    ensures Reaches(lib, cfg, s, ts, s')
  {
    var rest: seq<Action> :| (forall x :: x in rest ==> ByThreads(x, ts)) && IsRun(lib, cfg, Next(lib, cfg, s, a), rest)
                             && After(lib, cfg, Next(lib, cfg, s, a), rest) == s';
    var actions := [a] + rest;
    assert actions[0] == a && actions[1..] == rest;
    assert IsRun(lib, cfg, s, actions) && After(lib, cfg, s, actions) == s';
  }

  lemma OneStep(lib: Library, cfg: ServerConfig, s: State, ts: set<Tid>, a: Action)
    requires Enabled(lib, cfg, s, a) && ByThreads(a, ts)
    ensures Reaches(lib, cfg, s, ts, Next(lib, cfg, s, a))
  {
    Stays(lib, cfg, Next(lib, cfg, s, a), ts);
    StepThen(lib, cfg, s, ts, a, Next(lib, cfg, s, a));
  }

  lemma TwoSteps(lib: Library, cfg: ServerConfig, s: State, ts: set<Tid>, a: Action, b: Action)
    requires Enabled(lib, cfg, s, a) && Enabled(lib, cfg, Next(lib, cfg, s, a), b)
    requires ByThreads(a, ts) && ByThreads(b, ts)
    ensures Reaches(lib, cfg, s, ts, Next(lib, cfg, Next(lib, cfg, s, a), b))
  {
    OneStep(lib, cfg, Next(lib, cfg, s, a), ts, b);
    StepThen(lib, cfg, s, ts, a, Next(lib, cfg, Next(lib, cfg, s, a), b));
  }

  lemma ThreeSteps(lib: Library, cfg: ServerConfig, s: State, ts: set<Tid>, a: Action, b: Action, c: Action)
    requires Enabled(lib, cfg, s, a) && Enabled(lib, cfg, Next(lib, cfg, s, a), b)
    requires Enabled(lib, cfg, Next(lib, cfg, Next(lib, cfg, s, a), b), c)
    requires ByThreads(a, ts) && ByThreads(b, ts) && ByThreads(c, ts)
    ensures Reaches(lib, cfg, s, ts, Next(lib, cfg, Next(lib, cfg, Next(lib, cfg, s, a), b), c))
  {
    TwoSteps(lib, cfg, Next(lib, cfg, s, a), ts, b, c);
    StepThen(lib, cfg, s, ts, a, Next(lib, cfg, Next(lib, cfg, Next(lib, cfg, s, a), b), c));
  }

  /** The thread has returned and what the tables hold is h, n and c. */
  ghost predicate Leaves(s: State, t: Tid, h: Mapping, n: map<string, SessionId>, c: map<string, ControlId>) {
    && t in s.threads && s.threads[t].next == Finished && s.holder == None
    && s.hosts == h && s.sessions == n && s.controls == c
  }

  /** The names the next session and the next control will get. */
  function Names(s: State): (SessionId, ControlId) {
    (s.newSession, s.newControl)
  }

  lemma LastStep(lib: Library, cfg: ServerConfig, s: State, t: Tid) returns (s': State)
    requires t in s.threads && s.threads[t].next == Report && s.holder == None
    ensures Reaches(lib, cfg, s, {t}, s') && Leaves(s', t, s.hosts, s.sessions, s.controls) && Names(s') == Names(s)
  {
    s' := Goes(s, t);
    OneStep(lib, cfg, s, {t}, Go(t));
  }

  lemma HostFound(m: Mapping, id: string)
    ensures HostOwned(m, id) <==> HostOf(m, id).Some?
    ensures !HostOwned(m, id) ==> Without(m, id) == m
  {
    assert forall h :: h in HostsOf(m, id) <==> h in m && m[h].identifier == id;
  }

  lemma ReleaseHost(lib: Library, cfg: ServerConfig, s: State, t: Tid) returns (s': State)
    requires t in s.threads && s.threads[t].next == LookUpHost && s.holder == Some(t) && OneHostEach(s.hosts)
    ensures Reaches(lib, cfg, s, {t}, s')
    ensures Leaves(s', t, Without(s.hosts, s.threads[t].id), s.sessions, s.controls) && Names(s') == Names(s)
  {
    var id := s.threads[t].id;
    HostFound(s.hosts, id);
    var s1 := Goes(s, t);
    if HostOwned(s.hosts, id) {
      var s2 := Goes(s1, t);
      assert s2.hosts == Without(s.hosts, id);
      s' := LastStep(lib, cfg, s2, t);
      StepThen(lib, cfg, s1, {t}, Go(t), s');
    } else {
      s' := LastStep(lib, cfg, s1, t);
    }
    StepThen(lib, cfg, s, {t}, Go(t), s');
  }

  lemma TearDown(lib: Library, cfg: ServerConfig, s: State, t: Tid) returns (s': State)
    requires t in s.threads && s.threads[t].next == DeleteSession && s.holder == None && OneHostEach(s.hosts)
    ensures Reaches(lib, cfg, s, {t}, s')
    ensures var id := s.threads[t].id;
            Leaves(s', t, if id in s.sessions then Without(s.hosts, id) else s.hosts, s.sessions - {id}, s.controls)
    ensures Names(s') == Names(s)
  {
    var id := s.threads[t].id;
    var s1 := Goes(s, t);
    if id in s.sessions {
      s' := ReleaseHost(lib, cfg, s1, t);
    } else {
      assert s.sessions - {id} == s.sessions;
      s' := LastStep(lib, cfg, s1, t);
    }
    StepThen(lib, cfg, s, {t}, Go(t), s');
  }

  lemma DropControl(lib: Library, cfg: ServerConfig, s: State, t: Tid) returns (s': State)
    requires t in s.threads && s.threads[t].next.CloseControl? && !s.threads[t].role.Dialer?
    requires s.holder == None && OneHostEach(s.hosts)
    ensures Reaches(lib, cfg, s, {t}, s')
    ensures var id := s.threads[t].id;
            Leaves(s', t, if id in s.sessions then Without(s.hosts, id) else s.hosts, s.sessions - {id}, s.controls - {id})
    ensures Names(s') == Names(s)
  {
    var s1 := Goes(s, t);
    var s2 := Goes(s1, t);
    s' := TearDown(lib, cfg, s2, t);
    StepThen(lib, cfg, s1, {t}, Go(t), s');
    StepThen(lib, cfg, s, {t}, Go(t), s');
  }

  ghost predicate SameTables(s: State, r: R.State) {
    s.hosts == r.hosts && s.sessions == r.sessions && s.controls == r.controls
  }

  /** The end of a listener can, undisturbed, do what the handler step ListenerEnds does. */
  lemma ListenerAlone(lib: Library, cfg: ServerConfig, s: State, t: Tid, r: R.State) returns (s': State)
    requires t in s.threads && s.threads[t].role.Listener? && s.threads[t].next == Listening
    requires s.holder == None && OneHostEach(s.hosts) && SameTables(s, r)
    ensures Reaches(lib, cfg, s, {t}, s') && t in s'.threads && s'.threads[t].next == Finished
    ensures SameTables(s', R.ListenerEnds(r, s.threads[t].id, s.threads[t].role.ctl)) && Names(s') == Names(s)
  {
    var s1 := Next(lib, cfg, s, Fail(t));
    s' := DropControl(lib, cfg, s1, t);
    StepThen(lib, cfg, s, {t}, Fail(t), s');
    RS.EndEffect(r, s.threads[t].id, s.threads[t].role.ctl);
  }

  lemma SendFailsAlone(lib: Library, cfg: ServerConfig, s: State, t: Tid) returns (s': State)
    requires t in s.threads && s.threads[t].next.Send? && s.threads[t].role.Dialer? && s.holder == None
    ensures Reaches(lib, cfg, s, {t}, s')
    ensures Leaves(s', t, s.hosts, s.sessions, s.controls - {s.threads[t].id}) && Names(s') == Names(s)
  {
    var s1 := Next(lib, cfg, s, Fail(t));
    assert s1.threads[t].next.CloseControl?;
    var s2 := Goes(s1, t);
    assert s2.threads[t].next == DeleteControl;
    s' := Goes(s2, t);
    ThreeSteps(lib, cfg, s, {t}, Fail(t), Go(t), Go(t));
  }

  lemma SendAlone(lib: Library, cfg: ServerConfig, s: State, t: Tid, sent: bool) returns (s': State)
    requires t in s.threads && s.threads[t].next.Send? && s.threads[t].role.Dialer? && s.holder == None
    requires sent ==> s.threads[t].next.ctl !in s.closedControls
    ensures Reaches(lib, cfg, s, {t}, s')
    ensures Leaves(s', t, s.hosts, s.sessions, if sent then s.controls else s.controls - {s.threads[t].id})
    ensures Names(s') == Names(s)
  {
    if sent {
      s' := Goes(s, t);
      OneStep(lib, cfg, s, {t}, Go(t));
    } else {
      s' := SendFailsAlone(lib, cfg, s, t);
    }
  }

  /** A dial can, undisturbed, do what the handler step Dial does. */
  lemma DialAlone(lib: Library, cfg: ServerConfig, s: State, t: Tid, id: string, sent: bool, r: R.State)
    returns (s': State)
    requires t !in s.threads && s.holder == None && SameTables(s, r)
    requires sent && id in s.controls ==> s.controls[id] !in s.closedControls
    ensures Reaches(lib, cfg, s, {t}, s') && t in s'.threads && s'.threads[t].next == Finished
    ensures SameTables(s', R.Dial(r, id, sent).0) && Names(s') == Names(s)
  {
    var s1 := Next(lib, cfg, s, NewDial(t, id));
    var s2 := Goes(s1, t);
    if id in s.controls {
      var s3 := Goes(s2, t);
      if id in s.sessions {
        s' := SendAlone(lib, cfg, s3, t, sent);
      } else {
        s' := s3;
        Stays(lib, cfg, s', {t});
      }
      StepThen(lib, cfg, s2, {t}, Go(t), s');
    } else {
      s' := s2;
      Stays(lib, cfg, s', {t});
    }
    StepThen(lib, cfg, s1, {t}, Go(t), s');
    StepThen(lib, cfg, s, {t}, NewDial(t, id), s');
  }

  /** controlHandler once the session is stored. */
  lemma SessionAlone(lib: Library, cfg: ServerConfig, s: State, t: Tid, listener: Tid, succeeds: bool)
    returns (s': State)
    requires t in s.threads && s.threads[t].next == Handshake && s.threads[t].role.Connector?
    requires s.holder == None && OneHostEach(s.hosts) && listener !in s.threads && s.threads[t].id in s.sessions
    ensures Reaches(lib, cfg, s, {t}, s')
    ensures var id := s.threads[t].id;
            if succeeds then Leaves(s', t, s.hosts, s.sessions, s.controls[id := s.newControl])
            else Leaves(s', t, Without(s.hosts, id), s.sessions - {id}, s.controls)
    ensures Names(s') == (s.newSession, s.newControl + if succeeds then 1 else 0)
  {
    if succeeds {
      var s1 := Goes(s, t);
      assert s1.threads[t].next == AddControl;
      s' := Registers(s1, t, listener);
      TwoSteps(lib, cfg, s, {t}, Go(t), GoAndSpawn(t, listener));
    } else {
      var s1 := Next(lib, cfg, s, Fail(t));
      s' := TearDown(lib, cfg, s1, t);
      StepThen(lib, cfg, s, {t}, Fail(t), s');
    }
  }

  /** controlHandler when the connection fails before the session is stored. */
  lemma EarlyFailureAlone(lib: Library, cfg: ServerConfig, s: State, t: Tid, hijacks: bool) returns (s': State)
    requires t in s.threads && s.threads[t].next == Hijack && s.holder == None
    ensures Reaches(lib, cfg, s, {t}, s') && Leaves(s', t, s.hosts, s.sessions, s.controls) && Names(s') == Names(s)
  {
    if hijacks {
      var s1 := Goes(s, t);
      var s2 := Next(lib, cfg, s1, Fail(t));
      s' := Goes(s2, t);
      ThreeSteps(lib, cfg, s, {t}, Go(t), Fail(t), Go(t));
    } else {
      var s1 := Next(lib, cfg, s, Fail(t));
      s' := Goes(s1, t);
      TwoSteps(lib, cfg, s, {t}, Fail(t), Go(t));
    }
  }

  /** controlHandler up to the handshake. */
  lemma StoreSession(lib: Library, cfg: ServerConfig, s: State, t: Tid, s': State)
    requires t in s.threads && s.threads[t].next == Hijack && s.holder == None
    requires var id := s.threads[t].id;
             Reaches(lib, cfg,
                     At(s.(sessions := s.sessions[id := s.newSession], newSession := s.newSession + 1), t, Handshake),
                     {t}, s')
    ensures Reaches(lib, cfg, s, {t}, s')
  {
    var id := s.threads[t].id;
    var s1 := Goes(s, t);
    assert s1 == At(s, t, AddSession);
    assert Goes(s1, t)
           == At(s.(sessions := s.sessions[id := s.newSession], newSession := s.newSession + 1), t, Handshake);
    StepThen(lib, cfg, s1, {t}, Go(t), s');
    StepThen(lib, cfg, s, {t}, Go(t), s');
  }

  /** What the names are after controlHandler has got past the check for another control. */
  function NamesAfter(names: (SessionId, ControlId), out: R.Outcome): (SessionId, ControlId) {
    if R.FailsAfterSession(out) then (names.0 + 1, names.1)
    else if out == R.Succeeds then (names.0 + 1, names.1 + 1)
    else names
  }

  /** controlHandler from the point where no other control is registered. */
  lemma HijackAlone(lib: Library, cfg: ServerConfig, s: State, t: Tid, listener: Tid, out: R.Outcome)
    returns (s': State)
    requires t in s.threads && s.threads[t].next == Hijack && s.threads[t].role.Connector?
    requires s.holder == None && OneHostEach(s.hosts) && listener !in s.threads
    ensures Reaches(lib, cfg, s, {t}, s')
    ensures var id := s.threads[t].id;
            if R.FailsAfterSession(out) then Leaves(s', t, Without(s.hosts, id), s.sessions - {id}, s.controls)
            else if out == R.Succeeds then
              Leaves(s', t, s.hosts, s.sessions[id := s.newSession], s.controls[id := s.newControl])
            else Leaves(s', t, s.hosts, s.sessions, s.controls)
    ensures Names(s') == NamesAfter(Names(s), out)
  {
    var id := s.threads[t].id;
    if R.FailsAfterSession(out) || out == R.Succeeds {
      var s1 := At(s.(sessions := s.sessions[id := s.newSession], newSession := s.newSession + 1), t, Handshake);
      s' := SessionAlone(lib, cfg, s1, t, listener, out == R.Succeeds);
      assert s.sessions[id := s.newSession] - {id} == s.sessions - {id};
      StoreSession(lib, cfg, s, t, s');
    } else {
      s' := EarlyFailureAlone(lib, cfg, s, t, R.FailsBeforeSession(out));
    }
  }

  /** From a claim that has just succeeded to the decision about a control that is already there. */
  lemma FindStep(lib: Library, cfg: ServerConfig, s: State, ts: set<Tid>, t: Tid, s': State)
    requires t in ts && t in s.threads && s.threads[t].next == GetHost && s.threads[t].role.Connector?
    requires HostOwned(s.hosts, s.threads[t].id)
    requires var id := s.threads[t].id;
             Reaches(lib, cfg, At(s, t, if id in s.controls then CloseControl(s.controls[id]) else Hijack), ts, s')
    ensures Reaches(lib, cfg, s, ts, s')
  {
    var id := s.threads[t].id;
    var s1 := Goes(s, t);
    assert s1 == At(s, t, GetControl);
    assert Goes(s1, t) == At(s, t, if id in s.controls then CloseControl(s.controls[id]) else Hijack);
    StepThen(lib, cfg, s1, ts, Go(t), s');
    StepThen(lib, cfg, s, ts, Go(t), s');
  }

  ghost predicate JustClaimed(s: State, t: Tid, r: R.State, domain: string, rules: seq<Rule>) {
    && t in s.threads && s.threads[t].next == GetHost && s.threads[t].role.Connector? && s.holder == None
    && OneHostEach(r.hosts) && !InUseByAnother(r.hosts, domain, s.threads[t].id)
    && s.hosts == Claimed(r.hosts, domain, s.threads[t].id, rules)
    && s.sessions == r.sessions && s.controls == r.controls
  }

  lemma StaleAlone(lib: Library, cfg: ServerConfig, s: State, t: Tid, out: R.Outcome, r: R.State,
                   domain: string, rules: seq<Rule>)
    returns (s': State)
    requires JustClaimed(s, t, r, domain, rules) && s.threads[t].id in s.controls
    ensures Reaches(lib, cfg, s, {t}, s') && t in s'.threads && s'.threads[t].next == Finished && Names(s') == Names(s)
    ensures SameTables(s', RS.Settled(r, s.threads[t].id, domain, rules, out, s.newSession, s.newControl))
  {
    var id := s.threads[t].id;
    RS.ClaimedOwner(r.hosts, domain, id, rules);
    HostFound(s.hosts, id);
    var s1 := At(s, t, CloseControl(s.controls[id]));
    s' := DropControl(lib, cfg, s1, t);
    FindStep(lib, cfg, s, {t}, t, s');
    RS.SettledWhenStale(r, id, domain, rules, out, s.newSession, s.newControl);
  }

  lemma FreeAlone(lib: Library, cfg: ServerConfig, s: State, t: Tid, listener: Tid, out: R.Outcome, r: R.State,
                  domain: string, rules: seq<Rule>)
    returns (s': State)
    requires JustClaimed(s, t, r, domain, rules) && s.threads[t].id !in s.controls && listener !in s.threads
    ensures Reaches(lib, cfg, s, {t}, s') && t in s'.threads && s'.threads[t].next == Finished
    ensures Names(s') == NamesAfter(Names(s), out)
    ensures SameTables(s', RS.Settled(r, s.threads[t].id, domain, rules, out, s.newSession, s.newControl))
  {
    var id := s.threads[t].id;
    RS.ClaimedOwner(r.hosts, domain, id, rules);
    HostFound(s.hosts, id);
    RS.SettledWhenFree(r, id, domain, rules, out, s.newSession, s.newControl);
    s' := HijackAlone(lib, cfg, At(s, t, Hijack), t, listener, out);
    FindStep(lib, cfg, s, {t}, t, s');
  }

  lemma ConnectorClaims(lib: Library, cfg: ServerConfig, s: State, ts: set<Tid>, t: Tid, req: ControlRequest)
    returns (s': State)
    requires t in ts && t !in s.threads && Judge(lib, cfg, req).Admitted?
    requires !InUseByAnother(s.hosts, Judge(lib, cfg, req).domain, req.identifier)
    ensures var id, v := req.identifier, Judge(lib, cfg, req);
            && s'.hosts == Claimed(s.hosts, v.domain, id, v.rules) && HostOwned(s'.hosts, id)
            && s'.sessions == s.sessions && s'.controls == s.controls && s'.holder == s.holder
            && Names(s') == Names(s)
            && s'.threads == s.threads[t := Thread(id, Connector(req, v.domain, v.rules), GetHost)]
    ensures Reaches(lib, cfg, s, ts, s')
  {
    var s1 := Next(lib, cfg, s, NewConnect(t, req));
    s' := ClaimGoes(lib, cfg, s1, t);
    TwoSteps(lib, cfg, s, ts, NewConnect(t, req), Go(t));
  }

  lemma ClaimGoes(lib: Library, cfg: ServerConfig, s: State, t: Tid) returns (s': State)
    requires t in s.threads && s.threads[t].next == AddHost && s.threads[t].role.Connector?
    requires !InUseByAnother(s.hosts, s.threads[t].role.domain, s.threads[t].id)
    ensures s' == Goes(s, t) == Next(lib, cfg, s, Go(t))
    ensures var th := s.threads[t];
            && s'.hosts == Claimed(s.hosts, th.role.domain, th.id, th.role.rules)
            && s'.sessions == s.sessions && s'.controls == s.controls && s'.holder == s.holder
            && Names(s') == Names(s) && s'.threads == s.threads[t := th.(next := GetHost)]
            && HostOwned(s'.hosts, th.id)
  {
    s' := Goes(s, t);
    var th := s.threads[t];
    assert th.role.domain in s'.hosts && s'.hosts[th.role.domain].identifier == th.id;
  }

  lemma ReachOn(lib: Library, cfg: ServerConfig, s: State, ts: set<Tid>, m: State, s': State)
    requires Reaches(lib, cfg, s, ts, m) && Reaches(lib, cfg, m, ts, s')
    ensures Reaches(lib, cfg, s, ts, s')
  {
    var first: seq<Action> :| (forall a :: a in first ==> ByThreads(a, ts)) && IsRun(lib, cfg, s, first)
                              && After(lib, cfg, s, first) == m;
    ReachFrom(lib, cfg, s, ts, first, s');
  }

  lemma {:induction false} ReachFrom(lib: Library, cfg: ServerConfig, s: State, ts: set<Tid>, first: seq<Action>, s': State)
    requires (forall a :: a in first ==> ByThreads(a, ts)) && IsRun(lib, cfg, s, first)
    requires Reaches(lib, cfg, After(lib, cfg, s, first), ts, s')
    ensures Reaches(lib, cfg, s, ts, s')
    decreases |first|
  {
    if first != [] {
      assert first[0] in first && forall a :: a in first[1..] ==> a in first;
      ReachFrom(lib, cfg, Next(lib, cfg, s, first[0]), ts, first[1..], s');
      StepThen(lib, cfg, s, ts, first[0], s');
    }
  }

  /** A control request can, undisturbed, do what the handler step Connect does. */
  lemma ConnectAlone(lib: Library, cfg: ServerConfig, s: State, t: Tid, listener: Tid, req: ControlRequest,
                     out: R.Outcome, r: R.State)
    returns (s': State)
    requires t !in s.threads && listener !in s.threads && t != listener && s.holder == None
    requires OneHostEach(s.hosts) && SameTables(s, r) && Judge(lib, cfg, req).Admitted?
    ensures Reaches(lib, cfg, s, {t}, s') && t in s'.threads && s'.threads[t].next == Finished
    ensures SameTables(s', R.Connect(lib, cfg, r, req, out, s.newSession, s.newControl).0)
    ensures Names(s') == if RS.Claims(lib, cfg, r, req) && req.identifier !in r.controls then NamesAfter(Names(s), out)
                         else Names(s)
  {
    var v := Judge(lib, cfg, req);
    RS.ConnectSettles(lib, cfg, r, req, out, s.newSession, s.newControl);
    if InUseByAnother(s.hosts, v.domain, req.identifier) {
      s' := ConflictAlone(lib, cfg, s, t, req);
    } else {
      var s1 := ConnectorClaims(lib, cfg, s, {t}, t, req);
      s' := ClaimedAlone(lib, cfg, s1, t, listener, out, r, v.domain, v.rules);
      ReachOn(lib, cfg, s, {t}, s1, s');
    }
  }

  lemma ConflictAlone(lib: Library, cfg: ServerConfig, s: State, t: Tid, req: ControlRequest) returns (s': State)
    requires t !in s.threads && s.holder == None && Judge(lib, cfg, req).Admitted?
    requires InUseByAnother(s.hosts, Judge(lib, cfg, req).domain, req.identifier)
    ensures Reaches(lib, cfg, s, {t}, s') && Leaves(s', t, s.hosts, s.sessions, s.controls) && Names(s') == Names(s)
  {
    s' := Goes(Next(lib, cfg, s, NewConnect(t, req)), t);
    TwoSteps(lib, cfg, s, {t}, NewConnect(t, req), Go(t));
  }

  lemma ClaimedAlone(lib: Library, cfg: ServerConfig, s: State, t: Tid, listener: Tid, out: R.Outcome, r: R.State,
                     domain: string, rules: seq<Rule>)
    returns (s': State)
    requires JustClaimed(s, t, r, domain, rules) && listener !in s.threads
    ensures Reaches(lib, cfg, s, {t}, s') && t in s'.threads && s'.threads[t].next == Finished
    ensures SameTables(s', RS.Settled(r, s.threads[t].id, domain, rules, out, s.newSession, s.newControl))
    ensures Names(s') == if s.threads[t].id !in r.controls then NamesAfter(Names(s), out) else Names(s)
  {
    if s.threads[t].id in s.controls {
      s' := StaleAlone(lib, cfg, s, t, out, r, domain, rules);
    } else {
      s' := FreeAlone(lib, cfg, s, t, listener, out, r, domain, rules);
    }
  }

  // ---------------------------------------------------------------------------------------------
  // What the interleaving of sections can do

  const THREADS: set<Tid> := {0, 1, 2, 3}

  /** A connector's way from the hijack to the section before it registers its control. */
  lemma HijackSetsUp(lib: Library, cfg: ServerConfig, s: State, t: Tid) returns (s': State)
    requires t in THREADS && t in s.threads && s.threads[t].next == Hijack && s.holder == None
    ensures s' == At(s.(sessions := s.sessions[s.threads[t].id := s.newSession], newSession := s.newSession + 1),
                     t, AddControl)
    ensures Reaches(lib, cfg, s, THREADS, s')
  {
    var s1 := Goes(s, t);
    assert s1 == At(s, t, AddSession);
    var s2 := Goes(s1, t);
    assert s2.threads[t].next == Handshake;
    s' := Goes(s2, t);
    ThreeSteps(lib, cfg, s, THREADS, Go(t), Go(t), Go(t));
  }

  /** The same way from the moment the claim has succeeded. */
  lemma ClaimerSetsUp(lib: Library, cfg: ServerConfig, s: State, t: Tid) returns (s': State)
    requires t in THREADS && t in s.threads && s.threads[t].next == GetHost && s.threads[t].role.Connector?
    requires s.holder == None && s.threads[t].id !in s.controls && HostOwned(s.hosts, s.threads[t].id)
    ensures s' == At(s.(sessions := s.sessions[s.threads[t].id := s.newSession], newSession := s.newSession + 1),
                     t, AddControl)
    ensures Reaches(lib, cfg, s, THREADS, s')
  {
    s' := HijackSetsUp(lib, cfg, At(s, t, Hijack), t);
    FindStep(lib, cfg, s, THREADS, t, s');
  }

  /** A connector's way from its first section to the one before it registers its control. */
  lemma ConnectorSetsUp(lib: Library, cfg: ServerConfig, s: State, t: Tid, req: ControlRequest) returns (s': State)
    requires t in THREADS && t !in s.threads && s.holder == None && Judge(lib, cfg, req).Admitted?
    requires req.identifier !in s.controls && !InUseByAnother(s.hosts, Judge(lib, cfg, req).domain, req.identifier)
    ensures var id, v := req.identifier, Judge(lib, cfg, req);
            && s'.hosts == Claimed(s.hosts, v.domain, id, v.rules)
            && s'.sessions == s.sessions[id := s.newSession] && s'.controls == s.controls && s'.holder == None
            && s'.threads == s.threads[t := Thread(id, Connector(req, v.domain, v.rules), AddControl)]
    ensures Reaches(lib, cfg, s, THREADS, s')
  {
    var s1 := ConnectorClaims(lib, cfg, s, THREADS, t, req);
    s' := ClaimerSetsUp(lib, cfg, s1, t);
    assert Reaches(lib, cfg, s, THREADS, s') by {
      ReachOn(lib, cfg, s, THREADS, s1, s');
    }
  }

  /** A listener's way from its start to the section where it deletes the session. */
  lemma ListenerGetsToDelete(lib: Library, cfg: ServerConfig, s: State, t: Tid) returns (s': State)
    requires t in THREADS && t in s.threads && s.threads[t].next == OnConnect && s.threads[t].role.Listener?
    ensures s'.hosts == s.hosts && s'.sessions == s.sessions && s'.controls == s.controls - {s.threads[t].id}
    ensures s'.holder == s.holder && s'.threads == s.threads[t := s.threads[t].(next := DeleteSession)]
    ensures Reaches(lib, cfg, s, THREADS, s')
  {
    var s1 := Goes(s, t);
    var s2 := Next(lib, cfg, s1, Fail(t));
    var s3 := Goes(s2, t);
    s' := Goes(s3, t);
    ThreeSteps(lib, cfg, s1, THREADS, Fail(t), Go(t), Go(t));
    StepThen(lib, cfg, s, THREADS, Go(t), s');
  }

  /** The rest of deleteSession when there is a session and a host. */
  lemma SessionDeleted(lib: Library, cfg: ServerConfig, s: State, t: Tid) returns (s': State)
    requires t in THREADS && t in s.threads && s.threads[t].next == DeleteSession && s.holder == None
    requires s.threads[t].id in s.sessions && OneHostEach(s.hosts) && HostOwned(s.hosts, s.threads[t].id)
    ensures s'.hosts == Without(s.hosts, s.threads[t].id) && s'.sessions == s.sessions - {s.threads[t].id}
    ensures s'.controls == s.controls && s'.threads == s.threads[t := s.threads[t].(next := Report)]
    ensures Reaches(lib, cfg, s, THREADS, s')
  {
    var id := s.threads[t].id;
    HostFound(s.hosts, id);
    var host := HostOf(s.hosts, id).value;
    assert Released(s.hosts, host) == Without(s.hosts, id);
    var s1 := Goes(s, t);
    assert s1.threads[t].next == LookUpHost && s1.hosts == s.hosts;
    var s2 := Goes(s1, t);
    assert s2.threads[t].next == DeleteHost(host) && s2.hosts == s.hosts;
    s' := Goes(s2, t);
    ThreeSteps(lib, cfg, s, THREADS, Go(t), Go(t), Go(t));
  }

  lemma ConnectionComesAndGoes(lib: Library, cfg: ServerConfig, s: State, id: string) returns (s': State)
    requires s.threads.Keys == {0} && s.threads[0].next == AddControl && s.threads[0].id == id && s.controls == map[]
    ensures s'.hosts == s.hosts && s'.sessions == s.sessions && s'.controls == map[] && s'.holder == s.holder
    ensures s'.threads.Keys == {0, 1} && s'.threads[1].id == id && s'.threads[1].next == DeleteSession
    ensures Reaches(lib, cfg, s, THREADS, s')
  {
    var s1 := Registers(s, 0, 1);
    s' := ListenerGetsToDelete(lib, cfg, s1, 1);
    assert s1.controls - {id} == map[];
    StepThen(lib, cfg, s, THREADS, GoAndSpawn(0, 1), s');
  }

  /** The client's first connection is lost, and its listener is about to delete the session. */
  lemma FirstConnectionLost(lib: Library, cfg: ServerConfig, req: ControlRequest) returns (s: State)
    requires Judge(lib, cfg, req).Admitted?
    ensures Reaches(lib, cfg, START, THREADS, s) && s.holder == None && s.threads.Keys == {0, 1}
    ensures s.threads[1].id == req.identifier && s.threads[1].next == DeleteSession
    ensures s.controls == map[] && (forall h :: h in s.hosts ==> s.hosts[h].identifier == req.identifier)
    ensures OneHostEach(s.hosts) && req.identifier in s.sessions
    ensures var v := Judge(lib, cfg, req); s.hosts == map[v.domain := VirtualHost(req.identifier, v.rules)]
  {
    var s1 := ConnectorSetsUp(lib, cfg, START, 0, req);
    s := ConnectionComesAndGoes(lib, cfg, s1, req.identifier);
    assert Reaches(lib, cfg, START, THREADS, s) by {
      ReachOn(lib, cfg, START, THREADS, s1, s);
    }
  }

  /** Between sections the chain does not hold: when the listener of a lost connection deletes the session
      just after the client's new connection has stored its own, the new control is registered without a
      session and without a host, and a dial then takes its missing-session branch. */
  lemma ChainBreaksBetweenSections(lib: Library, cfg: ServerConfig, req: ControlRequest) returns (s: State)
    requires Judge(lib, cfg, req).Admitted?
    ensures Reaches(lib, cfg, START, THREADS, s)
    ensures req.identifier in s.controls && req.identifier !in s.sessions && HostsOf(s.hosts, req.identifier) == {}
    ensures Following(s, Thread(req.identifier, Dialer, GetSession(s.controls[req.identifier]))) == Finished
  {
    var s1 := FirstConnectionLost(lib, cfg, req);
    var s2 := SecondConnectionUndone(lib, cfg, s1, req);
    s := RegistersAnyway(lib, cfg, s2, req.identifier);
    assert Reaches(lib, cfg, START, THREADS, s2) by {
      ReachOn(lib, cfg, START, THREADS, s1, s2);
    }
    assert Reaches(lib, cfg, START, THREADS, s) by {
      ReachOn(lib, cfg, START, THREADS, s2, s);
    }
  }

  lemma RegistersAnyway(lib: Library, cfg: ServerConfig, s: State, id: string) returns (s': State)
    requires s.threads.Keys == {0, 1, 2} && s.threads[2].next == AddControl && s.threads[2].id == id
    requires id !in s.sessions && HostsOf(s.hosts, id) == {}
    ensures Reaches(lib, cfg, s, THREADS, s')
    ensures id in s'.controls && id !in s'.sessions && HostsOf(s'.hosts, id) == {}
    ensures Following(s', Thread(id, Dialer, GetSession(s'.controls[id]))) == Finished
  {
    s' := Registers(s, 2, 3);
    OneStep(lib, cfg, s, THREADS, GoAndSpawn(2, 3));
  }

  lemma SecondConnectionUndone(lib: Library, cfg: ServerConfig, s: State, req: ControlRequest) returns (s': State)
    requires Judge(lib, cfg, req).Admitted? && s.holder == None && s.threads.Keys == {0, 1} && s.controls == map[]
    requires s.threads[1].id == req.identifier && s.threads[1].next == DeleteSession
    requires OneHostEach(s.hosts) && forall h :: h in s.hosts ==> s.hosts[h].identifier == req.identifier
    ensures Reaches(lib, cfg, s, THREADS, s') && s'.threads.Keys == {0, 1, 2}
    ensures s'.threads[2].next == AddControl && s'.threads[2].id == req.identifier
    ensures req.identifier !in s'.sessions && HostsOf(s'.hosts, req.identifier) == {}
  {
    var v := Judge(lib, cfg, req);
    var m := ConnectorSetsUp(lib, cfg, s, 2, req);
    assert v.domain in m.hosts && m.hosts[v.domain].identifier == req.identifier;
    RS.ClaimedOwner(s.hosts, v.domain, req.identifier, v.rules);
    RS.WithoutOwner(m.hosts, req.identifier);
    s' := SessionDeleted(lib, cfg, m, 1);
    ReachOn(lib, cfg, s, THREADS, m, s');
  }
}
