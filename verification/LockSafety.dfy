/** What holds between any two critical sections. */
module LockSafety {

  import opened Base
  import opened VirtualHosts
  import opened Admission
  import opened LockLevel

  // ---------------------------------------------------------------------------------------------
  // Hosts

  /** The only three things that ever happen to the host table. */
  ghost predicate HostStep(hosts: Mapping, hosts': Mapping) {
    || hosts' == hosts
    || (exists host :: hosts' == Released(hosts, host))
    || (exists host, id, rules :: hosts' == Claimed(hosts, host, id, rules))
  }

  lemma GoesHosts(s: State, t: Tid)
    requires t in s.threads
    ensures HostStep(s.hosts, Goes(s, t).hosts)
  {
    var th := s.threads[t];
    match th.next
    case AddHost =>
      if th.role.Connector? && !InUseByAnother(s.hosts, th.role.domain, th.id) {
        assert Goes(s, t).hosts == Claimed(s.hosts, th.role.domain, th.id, th.role.rules);
      }
    case DeleteHost(host) => assert Goes(s, t).hosts == Released(s.hosts, host);
    case _ => assert Goes(s, t).hosts == s.hosts;
  }

  lemma HostsAfter(lib: Library, cfg: ServerConfig, s: State, a: Action)
    requires Enabled(lib, cfg, s, a)
    ensures HostStep(s.hosts, Next(lib, cfg, s, a).hosts)
  {
    match a
    case Go(t) => GoesHosts(s, t);
    case Fail(t) => assert Next(lib, cfg, s, a).hosts == s.hosts;
    case GoAndSpawn(t, listener) => assert Next(lib, cfg, s, a).hosts == s.hosts;
    case EmbedderAdds(host, id, rules) => assert Next(lib, cfg, s, a).hosts == Claimed(s.hosts, host, id, rules);
    case EmbedderDeletes(host) => assert Next(lib, cfg, s, a).hosts == Released(s.hosts, host);
    case _ =>
  }

  lemma NextKeepsOneHostEach(lib: Library, cfg: ServerConfig, s: State, a: Action)
    requires Enabled(lib, cfg, s, a) && OneHostEach(s.hosts)
    ensures OneHostEach(Next(lib, cfg, s, a).hosts)
  {
    HostsAfter(lib, cfg, s, a);
  }

  lemma {:induction false} RunsKeepOneHostEach(lib: Library, cfg: ServerConfig, s: State, actions: seq<Action>)
    requires IsRun(lib, cfg, s, actions) && OneHostEach(s.hosts)
    ensures OneHostEach(After(lib, cfg, s, actions).hosts)
    decreases |actions|
  {
    if actions != [] {
      NextKeepsOneHostEach(lib, cfg, s, actions[0]);
      RunsKeepOneHostEach(lib, cfg, Next(lib, cfg, s, actions[0]), actions[1..]);
    }
  }

  lemma NextNoTakeover(lib: Library, cfg: ServerConfig, s: State, a: Action, host: string)
    requires Enabled(lib, cfg, s, a)
    ensures var s' := Next(lib, cfg, s, a);
            host in s.hosts && host in s'.hosts ==> s'.hosts[host].identifier == s.hosts[host].identifier
  {
    HostsAfter(lib, cfg, s, a);
  }

  lemma {:induction false} PrefixIsRun(lib: Library, cfg: ServerConfig, s: State, actions: seq<Action>, k: nat)
    requires IsRun(lib, cfg, s, actions) && k <= |actions|
    ensures IsRun(lib, cfg, s, actions[..k])
    decreases |actions|
  {
    if k > 0 {
      assert actions[..k][0] == actions[0] && actions[..k][1..] == actions[1..][..k - 1];
      PrefixIsRun(lib, cfg, Next(lib, cfg, s, actions[0]), actions[1..], k - 1);
    }
  }

  lemma {:induction false} RunThenRun(lib: Library, cfg: ServerConfig, s: State, first: seq<Action>, second: seq<Action>)
    requires IsRun(lib, cfg, s, first) && IsRun(lib, cfg, After(lib, cfg, s, first), second)
    ensures IsRun(lib, cfg, s, first + second)
    ensures After(lib, cfg, s, first + second) == After(lib, cfg, After(lib, cfg, s, first), second)
    decreases |first|
  {
    if first == [] {
      assert first + second == second;
    } else {
      assert (first + second)[0] == first[0] && (first + second)[1..] == first[1..] + second;
      RunThenRun(lib, cfg, Next(lib, cfg, s, first[0]), first[1..], second);
    }
  }

  /** No takeover: if a host is one client's at the start of a run and another's at the end, then somewhere
      in between nobody owned it. Embedders may add and delete hosts at will. */
  lemma {:induction false} NoTakeover(lib: Library, cfg: ServerConfig, s: State, actions: seq<Action>, host: string)
    returns (k: nat)
    requires IsRun(lib, cfg, s, actions)
    requires host in s.hosts && host in After(lib, cfg, s, actions).hosts
    requires s.hosts[host].identifier != After(lib, cfg, s, actions).hosts[host].identifier
    ensures 0 < k < |actions| && IsRun(lib, cfg, s, actions[..k])
    ensures host !in After(lib, cfg, s, actions[..k]).hosts
    decreases |actions|
  {
    var s1 := Next(lib, cfg, s, actions[0]);
    NextNoTakeover(lib, cfg, s, actions[0], host);
    if host !in s1.hosts {
      k := 1;
      assert actions[..1][0] == actions[0] && actions[..1][1..] == [];
    } else {
      var j := NoTakeover(lib, cfg, s1, actions[1..], host);
      k := j + 1;
      assert actions[..k][0] == actions[0] && actions[..k][1..] == actions[1..][..j];
    }
    PrefixIsRun(lib, cfg, s, actions, k);
  }

  // ---------------------------------------------------------------------------------------------
  // Provenance

  /** The client's most recent accepted request. */
  function LastAccepted(accepted: seq<Acceptance>, id: string): Option<Acceptance> {
    if accepted == [] then None
    else if accepted[|accepted| - 1].req.identifier == id then Some(accepted[|accepted| - 1])
    else LastAccepted(accepted[..|accepted| - 1], id)
  }

  ghost predicate Sound(lib: Library, cfg: ServerConfig, req: ControlRequest, domain: string, rules: seq<Rule>) {
    Judge(lib, cfg, req) == Admitted(domain, rules)
  }

  /** Every entry is what its owner's most recent accepted request asked for, and that request passed every
      test of checkConnect. */
  ghost predicate Traced(lib: Library, cfg: ServerConfig, hosts: Mapping, accepted: seq<Acceptance>) {
    && (forall host :: host in hosts ==>
          LastAccepted(accepted, hosts[host].identifier).Some?
          && LastAccepted(accepted, hosts[host].identifier).value.domain == host
          && LastAccepted(accepted, hosts[host].identifier).value.rules == hosts[host].rewrite)
    && (forall acceptance :: acceptance in accepted ==>
          Sound(lib, cfg, acceptance.req, acceptance.domain, acceptance.rules))
  }

  ghost predicate ConnectorsSound(lib: Library, cfg: ServerConfig, threads: map<Tid, Thread>) {
    forall t :: t in threads && threads[t].role.Connector? ==>
      threads[t].id == threads[t].role.req.identifier
      && Sound(lib, cfg, threads[t].role.req, threads[t].role.domain, threads[t].role.rules)
  }

  lemma ClaimTraced(lib: Library, cfg: ServerConfig, hosts: Mapping, accepted: seq<Acceptance>, acceptance: Acceptance)
    requires Traced(lib, cfg, hosts, accepted)
    requires Sound(lib, cfg, acceptance.req, acceptance.domain, acceptance.rules)
    requires !InUseByAnother(hosts, acceptance.domain, acceptance.req.identifier)
    ensures Traced(lib, cfg, Claimed(hosts, acceptance.domain, acceptance.req.identifier, acceptance.rules),
                   accepted + [acceptance])
  {
    var accepted' := accepted + [acceptance];
    assert accepted'[..|accepted'| - 1] == accepted;
    forall id ensures LastAccepted(accepted', id)
                      == if id == acceptance.req.identifier then Some(acceptance) else LastAccepted(accepted, id) {
    }
  }

  lemma GoesTraced(lib: Library, cfg: ServerConfig, s: State, t: Tid)
    requires t in s.threads && Traced(lib, cfg, s.hosts, s.accepted) && ConnectorsSound(lib, cfg, s.threads)
    ensures Traced(lib, cfg, Goes(s, t).hosts, Goes(s, t).accepted)
  {
    var th := s.threads[t];
    match th.next
    case AddHost =>
      if th.role.Connector? && !InUseByAnother(s.hosts, th.role.domain, th.id) {
        ClaimTraced(lib, cfg, s.hosts, s.accepted, Acceptance(th.role.req, th.role.domain, th.role.rules));
      }
    case DeleteHost(host) =>
      assert Goes(s, t).hosts == Released(s.hosts, host) && Goes(s, t).accepted == s.accepted;
    case _ => assert Goes(s, t).hosts == s.hosts && Goes(s, t).accepted == s.accepted;
  }

  lemma UpdateSound(lib: Library, cfg: ServerConfig, threads: map<Tid, Thread>, t: Tid, th: Thread)
    requires ConnectorsSound(lib, cfg, threads)
    requires th.role.Connector? ==>
               th.id == th.role.req.identifier && Sound(lib, cfg, th.role.req, th.role.domain, th.role.rules)
    ensures ConnectorsSound(lib, cfg, threads[t := th])
  {
  }

  lemma NextSound(lib: Library, cfg: ServerConfig, s: State, a: Action)
    requires Enabled(lib, cfg, s, a) && ConnectorsSound(lib, cfg, s.threads)
    ensures ConnectorsSound(lib, cfg, Next(lib, cfg, s, a).threads)
  {
    match a
    case NewConnect(t, req) =>
      var v := Judge(lib, cfg, req);
      UpdateSound(lib, cfg, s.threads, t, Thread(req.identifier, Connector(req, v.domain, v.rules), AddHost));
    case NewDial(t, id) => UpdateSound(lib, cfg, s.threads, t, Thread(id, Dialer, GetControl));
    case Go(t) => UpdateSound(lib, cfg, s.threads, t, s.threads[t].(next := Following(s, s.threads[t])));
    case Fail(t) => UpdateSound(lib, cfg, s.threads, t, s.threads[t].(next := Fallback(s.threads[t])));
    case GoAndSpawn(t, listener) =>
      var th := s.threads[t].(next := Finished);
      UpdateSound(lib, cfg, s.threads, t, th);
      UpdateSound(lib, cfg, s.threads[t := th], listener, Thread(th.id, Listener(s.newControl), OnConnect));
    case _ =>
  }

  lemma NextTraced(lib: Library, cfg: ServerConfig, s: State, a: Action)
    requires Enabled(lib, cfg, s, a) && !a.EmbedderAdds?
    requires Traced(lib, cfg, s.hosts, s.accepted) && ConnectorsSound(lib, cfg, s.threads)
    ensures Traced(lib, cfg, Next(lib, cfg, s, a).hosts, Next(lib, cfg, s, a).accepted)
    ensures ConnectorsSound(lib, cfg, Next(lib, cfg, s, a).threads)
  {
    NextSound(lib, cfg, s, a);
    match a
    case Go(t) => GoesTraced(lib, cfg, s, t);
    case _ =>
  }

  /** Provenance: as long as no embedder calls AddHost itself, every entry of the host table is the domain
      and the converted rules of its client's most recent accepted control request. */
  lemma {:induction false} Provenance(lib: Library, cfg: ServerConfig, s: State, actions: seq<Action>)
    requires IsRun(lib, cfg, s, actions) && forall a :: a in actions ==> !a.EmbedderAdds?
    requires Traced(lib, cfg, s.hosts, s.accepted) && ConnectorsSound(lib, cfg, s.threads)
    ensures Traced(lib, cfg, After(lib, cfg, s, actions).hosts, After(lib, cfg, s, actions).accepted)
    decreases |actions|
  {
    if actions != [] {
      assert actions[0] in actions;
      assert forall a :: a in actions[1..] ==> a in actions;
      NextTraced(lib, cfg, s, actions[0]);
      Provenance(lib, cfg, Next(lib, cfg, s, actions[0]), actions[1..]);
    }
  }

  // ---------------------------------------------------------------------------------------------
  // Closed sessions and controls

  ghost predicate SessionsOpen(sessions: map<string, SessionId>, closed: set<SessionId>, limit: SessionId) {
    && (forall id :: id in sessions ==> sessions[id] < limit && sessions[id] !in closed)
    && (forall i, j :: i in sessions && j in sessions && sessions[i] == sessions[j] ==> i == j)
    && (forall session :: session in closed ==> session < limit)
  }

  ghost predicate ControlsOwned(controls: map<string, ControlId>, owners: map<ControlId, string>,
                                closed: set<ControlId>, limit: ControlId)
  {
    && (forall id :: id in controls ==> OwnedBy(owners, controls[id], id))
    && closed <= owners.Keys
    && (forall ctl :: ctl in owners ==> ctl < limit)
  }

  predicate OwnedBy(owners: map<ControlId, string>, ctl: ControlId, id: string) {
    ctl in owners && owners[ctl] == id
  }

  /** A thread only handles controls of its own client. */
  predicate ThreadOk(th: Thread, owners: map<ControlId, string>) {
    && (th.role.Listener? ==> OwnedBy(owners, th.role.ctl, th.id))
    && match th.next
       case GetSession(ctl) => OwnedBy(owners, ctl, th.id)
       case Send(ctl) => OwnedBy(owners, ctl, th.id)
       case CloseControl(ctl) => OwnedBy(owners, ctl, th.id)
       case GetHost => th.role.Connector?
       case GetControl => !th.role.Listener?
       case Hijack => th.role.Connector?
       case AddSession => th.role.Connector?
       case Handshake => th.role.Connector?
       case AddControl => th.role.Connector?
       case _ => true
  }

  ghost predicate ThreadsOk(threads: map<Tid, Thread>, owners: map<ControlId, string>) {
    forall t :: t in threads ==> ThreadOk(threads[t], owners)
  }

  /** Some thread is about to run deleteControl for the client. */
  ghost predicate DeletePending(threads: map<Tid, Thread>, id: string) {
    exists t :: t in threads && threads[t].id == id && threads[t].next == DeleteControl
  }

  ghost predicate ClosedArePending(controls: map<string, ControlId>, closed: set<ControlId>, threads: map<Tid, Thread>) {
    forall id :: id in controls && controls[id] in closed ==> DeletePending(threads, id)
  }

  predicate InDeleteSession(section: Section) {
    section.LookUpHost? || section.DeleteHost?
  }

  /** The holder of the session lock is the one thread inside deleteSession. */
  ghost predicate LockHeld(holder: Option<Tid>, threads: map<Tid, Thread>) {
    && (holder.Some? ==> holder.value in threads && InDeleteSession(threads[holder.value].next))
    && (forall t :: t in threads && InDeleteSession(threads[t].next) ==> holder == Some(t))
  }

  ghost predicate Inv(s: State) {
    && SessionsOpen(s.sessions, s.closedSessions, s.newSession)
    && ControlsOwned(s.controls, s.owners, s.closedControls, s.newControl)
    && ThreadsOk(s.threads, s.owners)
    && ClosedArePending(s.controls, s.closedControls, s.threads)
    && LockHeld(s.holder, s.threads)
  }

  lemma OpenAfterAdd(sessions: map<string, SessionId>, closed: set<SessionId>, limit: SessionId, id: string)
    requires SessionsOpen(sessions, closed, limit)
    ensures SessionsOpen(sessions[id := limit], closed, limit + 1)
  {
  }

  lemma OpenAfterClose(sessions: map<string, SessionId>, closed: set<SessionId>, limit: SessionId, id: string)
    requires SessionsOpen(sessions, closed, limit) && id in sessions
    ensures SessionsOpen(sessions - {id}, closed + {sessions[id]}, limit)
  {
  }

  lemma EffectOnSessions(s: State, th: Thread, t: Tid)
    ensures var s' := Effect(s, th, t);
            (s'.sessions, s'.closedSessions, s'.newSession)
            == if th.next.AddSession? then
                 (s.sessions[th.id := s.newSession], s.closedSessions, s.newSession + 1)
               else if th.next.DeleteSession? && th.id in s.sessions then
                 (s.sessions - {th.id}, s.closedSessions + {s.sessions[th.id]}, s.newSession)
               else (s.sessions, s.closedSessions, s.newSession)
  {
  }

  lemma EffectOnControls(s: State, th: Thread, t: Tid)
    ensures var s' := Effect(s, th, t);
            (s'.controls, s'.closedControls, s'.owners, s'.newControl)
            == if th.next.CloseControl? then (s.controls, s.closedControls + {th.next.ctl}, s.owners, s.newControl)
               else if th.next.DeleteControl? then (s.controls - {th.id}, s.closedControls, s.owners, s.newControl)
               else (s.controls, s.closedControls, s.owners, s.newControl)
  {
  }

  lemma ControlsOwnedStill(s: State, th: Thread)
    requires ControlsOwned(s.controls, s.owners, s.closedControls, s.newControl) && ThreadOk(th, s.owners)
    ensures ControlsOwned(s.controls - {th.id}, s.owners, s.closedControls, s.newControl)
    ensures th.next.CloseControl? ==>
              ControlsOwned(s.controls, s.owners, s.closedControls + {th.next.ctl}, s.newControl)
  {
  }

  lemma FollowingOk(s: State, th: Thread)
    requires ControlsOwned(s.controls, s.owners, s.closedControls, s.newControl) && ThreadOk(th, s.owners)
    ensures ThreadOk(th.(next := Following(s, th)), s.owners)
  {
  }

  /** Moving a thread on leaves every other thread's pending deletion alone. */
  lemma PendingAfterMove(controls: map<string, ControlId>, controls': map<string, ControlId>,
                         closed: set<ControlId>, closed': set<ControlId>,
                         threads: map<Tid, Thread>, t: Tid, th: Thread)
    requires ClosedArePending(controls, closed, threads)
    requires t in threads && threads[t].next == DeleteControl ==> threads[t].id !in controls'
    requires forall id :: id in controls' && controls'[id] in closed' ==>
               (id in controls && controls[id] == controls'[id] && controls[id] in closed)
               || (th.id == id && th.next == DeleteControl)
    ensures ClosedArePending(controls', closed', threads[t := th])
  {
    var threads' := threads[t := th];
    forall id | id in controls' && controls'[id] in closed' ensures DeletePending(threads', id) {
      if th.id == id && th.next == DeleteControl {
        assert threads'[t].next == DeleteControl;
      } else {
        assert DeletePending(threads, id);
        var u :| u in threads && threads[u].id == id && threads[u].next == DeleteControl;
        assert u != t && threads'[u] == threads[u];
      }
    }
  }

  lemma GoesSessions(s: State, t: Tid)
    requires t in s.threads && SessionsOpen(s.sessions, s.closedSessions, s.newSession)
    ensures SessionsOpen(Goes(s, t).sessions, Goes(s, t).closedSessions, Goes(s, t).newSession)
  {
    var th := s.threads[t];
    EffectOnSessions(s, th, t);
    OpenAfterAdd(s.sessions, s.closedSessions, s.newSession, th.id);
    if th.id in s.sessions {
      OpenAfterClose(s.sessions, s.closedSessions, s.newSession, th.id);
    }
  }

  lemma GoesControls(s: State, t: Tid)
    requires t in s.threads && ThreadOk(s.threads[t], s.owners)
    requires ControlsOwned(s.controls, s.owners, s.closedControls, s.newControl)
    ensures var s' := Goes(s, t);
            ControlsOwned(s'.controls, s'.owners, s'.closedControls, s'.newControl) && s'.owners == s.owners
  {
    EffectOnControls(s, s.threads[t], t);
    ControlsOwnedStill(s, s.threads[t]);
  }

  lemma GoesPending(s: State, t: Tid)
    requires Inv(s) && t in s.threads
    ensures ClosedArePending(Goes(s, t).controls, Goes(s, t).closedControls, Goes(s, t).threads)
  {
    var th := s.threads[t];
    var s' := Effect(s, th, t);
    assert ThreadOk(th, s.owners);
    EffectOnControls(s, th, t);
    PendingAfterMove(s.controls, s'.controls, s.closedControls, s'.closedControls, s.threads, t,
                     th.(next := Following(s, th)));
  }

  lemma LockAfterMove(holder: Option<Tid>, threads: map<Tid, Thread>, t: Tid, th: Thread)
    requires LockHeld(holder, threads)
    requires InDeleteSession(th.next) ==> holder.None? || holder == Some(t)
    ensures LockHeld(if InDeleteSession(th.next) then Some(t) else if holder == Some(t) then None else holder,
                     threads[t := th])
  {
  }

  lemma GoesLock(lib: Library, cfg: ServerConfig, s: State, t: Tid)
    requires LockHeld(s.holder, s.threads) && Enabled(lib, cfg, s, Go(t))
    ensures LockHeld(Goes(s, t).holder, Goes(s, t).threads)
  {
    var th := s.threads[t];
    assert HostOf(s.hosts, th.id).Some? <==> HostOwned(s.hosts, th.id) by {
      assert forall h :: h in HostsOf(s.hosts, th.id) <==> h in s.hosts && s.hosts[h].identifier == th.id;
    }
    LockAfterMove(s.holder, s.threads, t, th.(next := Following(s, th)));
  }

  lemma MoveKeepsThreads(threads: map<Tid, Thread>, owners: map<ControlId, string>, t: Tid, th: Thread)
    requires ThreadsOk(threads, owners) && ThreadOk(th, owners)
    ensures ThreadsOk(threads[t := th], owners)
  {
  }

  lemma GoKeepsInv(lib: Library, cfg: ServerConfig, s: State, t: Tid)
    requires Inv(s) && Enabled(lib, cfg, s, Go(t))
    ensures Inv(Goes(s, t))
  {
    var th := s.threads[t];
    GoesSessions(s, t);
    GoesControls(s, t);
    FollowingOk(s, th);
    MoveKeepsThreads(s.threads, s.owners, t, th.(next := Following(s, th)));
    GoesPending(s, t);
    GoesLock(lib, cfg, s, t);
  }

  lemma FailKeepsInv(lib: Library, cfg: ServerConfig, s: State, t: Tid)
    requires Inv(s) && Enabled(lib, cfg, s, Fail(t))
    ensures Inv(Next(lib, cfg, s, Fail(t)))
  {
    var th := s.threads[t];
    MoveKeepsThreads(s.threads, s.owners, t, th.(next := Fallback(th)));
    PendingAfterMove(s.controls, s.controls, s.closedControls, s.closedControls, s.threads, t,
                     th.(next := Fallback(th)));
  }

  lemma NewThreadKeepsInv(s: State, t: Tid, th: Thread)
    requires Inv(s) && t !in s.threads && ThreadOk(th, s.owners) && !InDeleteSession(th.next)
    ensures Inv(s.(threads := s.threads[t := th]))
  {
    PendingAfterMove(s.controls, s.controls, s.closedControls, s.closedControls, s.threads, t, th);
  }

  lemma RegisterKeepsInv(lib: Library, cfg: ServerConfig, s: State, t: Tid, listener: Tid)
    requires Inv(s) && Enabled(lib, cfg, s, GoAndSpawn(t, listener))
    ensures Inv(Registers(s, t, listener))
  {
    var id, ctl, th := s.threads[t].id, s.newControl, s.threads[t].(next := Finished);
    var owners := s.owners[ctl := id];
    forall u | u in s.threads ensures ThreadOk(s.threads[u], owners) {
      assert ThreadOk(s.threads[u], s.owners);
    }
    MoveKeepsThreads(s.threads, owners, t, th);
    PendingAfterMove(s.controls, s.controls[id := ctl], s.closedControls, s.closedControls, s.threads, t, th);
    var s1 := At(s.(controls := s.controls[id := ctl], owners := owners, newControl := ctl + 1), t, Finished);
    assert Inv(s1);
    NewThreadKeepsInv(s1, listener, Thread(id, Listener(ctl), OnConnect));
  }

  lemma NextKeepsInv(lib: Library, cfg: ServerConfig, s: State, a: Action)
    requires Inv(s) && Enabled(lib, cfg, s, a)
    ensures Inv(Next(lib, cfg, s, a))
  {
    match a
    case NewConnect(t, req) =>
      var v := Judge(lib, cfg, req);
      NewThreadKeepsInv(s, t, Thread(req.identifier, Connector(req, v.domain, v.rules), AddHost));
    case NewDial(t, id) => NewThreadKeepsInv(s, t, Thread(id, Dialer, GetControl));
    case Go(t) => GoKeepsInv(lib, cfg, s, t);
    case Fail(t) => FailKeepsInv(lib, cfg, s, t);
    case GoAndSpawn(t, listener) => RegisterKeepsInv(lib, cfg, s, t, listener);
    case _ =>
  }

  lemma {:induction false} RunsKeepInv(lib: Library, cfg: ServerConfig, s: State, actions: seq<Action>)
    requires Inv(s) && IsRun(lib, cfg, s, actions)
    ensures Inv(After(lib, cfg, s, actions))
    decreases |actions|
  {
    if actions != [] {
      NextKeepsInv(lib, cfg, s, actions[0]);
      RunsKeepInv(lib, cfg, Next(lib, cfg, s, actions[0]), actions[1..]);
    }
  }

  lemma NextKeepsClosed(lib: Library, cfg: ServerConfig, s: State, a: Action)
    requires Enabled(lib, cfg, s, a)
    ensures s.closedSessions <= Next(lib, cfg, s, a).closedSessions
    ensures s.closedControls <= Next(lib, cfg, s, a).closedControls
  {
    if a.Go? {
      EffectOnSessions(s, s.threads[a.t], a.t);
      EffectOnControls(s, s.threads[a.t], a.t);
    }
  }

  /** A session leaves the table in two ways only: deleteSession closes it, or addSession puts a new one in
      its place, which does not. */
  lemma SessionsLeaveClosedOrReplaced(lib: Library, cfg: ServerConfig, s: State, a: Action, id: string)
    requires Enabled(lib, cfg, s, a) && id in s.sessions
    requires Get(Next(lib, cfg, s, a).sessions, id) != Some(s.sessions[id])
    ensures var s' := Next(lib, cfg, s, a);
            if id in s'.sessions then s'.sessions[id] == s.newSession && s'.closedSessions == s.closedSessions
            else s'.closedSessions == s.closedSessions + {s.sessions[id]} && s'.holder == Some(a.t)
  {
    if a.Go? {
      EffectOnSessions(s, s.threads[a.t], a.t);
    }
  }

  lemma {:induction false} ClosedForGood(lib: Library, cfg: ServerConfig, s: State, actions: seq<Action>)
    requires IsRun(lib, cfg, s, actions)
    ensures s.closedSessions <= After(lib, cfg, s, actions).closedSessions
    ensures s.closedControls <= After(lib, cfg, s, actions).closedControls
    decreases |actions|
  {
    if actions != [] {
      NextKeepsClosed(lib, cfg, s, actions[0]);
      ClosedForGood(lib, cfg, Next(lib, cfg, s, actions[0]), actions[1..]);
    }
  }

  /** A session that deleteSession has closed is in nobody's entry of the table from then on, so getSession
      never returns it again. */
  lemma {:induction false} ClosedSessionsAreGone(lib: Library, cfg: ServerConfig, before: seq<Action>, after: seq<Action>,
                                                 session: SessionId, id: string)
    requires IsRun(lib, cfg, START, before) && IsRun(lib, cfg, After(lib, cfg, START, before), after)
    requires session in After(lib, cfg, START, before).closedSessions
    ensures Get(After(lib, cfg, After(lib, cfg, START, before), after).sessions, id) != Some(session)
  {
    RunsKeepInv(lib, cfg, START, before);
    RunsKeepInv(lib, cfg, After(lib, cfg, START, before), after);
    ClosedForGood(lib, cfg, After(lib, cfg, START, before), after);
  }

  ghost predicate Nowhere(s: State, session: SessionId) {
    session < s.newSession && session !in s.closedSessions && forall id :: Get(s.sessions, id) != Some(session)
  }

  lemma GoesNowhere(s: State, t: Tid, session: SessionId)
    requires t in s.threads && Nowhere(s, session)
    ensures Nowhere(Goes(s, t), session)
  {
    var th, s' := s.threads[t], Goes(s, t);
    EffectOnSessions(s, th, t);
    forall id ensures Get(s'.sessions, id) != Some(session) {
      assert Get(s.sessions, id) != Some(session);
    }
    assert Get(s.sessions, th.id) != Some(session);
  }

  lemma NextNowhere(lib: Library, cfg: ServerConfig, s: State, a: Action, session: SessionId)
    requires Enabled(lib, cfg, s, a) && Nowhere(s, session)
    ensures Nowhere(Next(lib, cfg, s, a), session)
  {
    match a
    case Go(t) => GoesNowhere(s, t, session);
    case _ => assert Next(lib, cfg, s, a).sessions == s.sessions;
  }

  lemma {:induction false} NowhereStaysOpen(lib: Library, cfg: ServerConfig, s: State, actions: seq<Action>, session: SessionId)
    requires IsRun(lib, cfg, s, actions) && Nowhere(s, session)
    ensures Nowhere(After(lib, cfg, s, actions), session)
    decreases |actions|
  {
    if actions != [] {
      NextNowhere(lib, cfg, s, actions[0], session);
      NowhereStaysOpen(lib, cfg, Next(lib, cfg, s, actions[0]), actions[1..], session);
    }
  }

  /** The section that takes a session out of its client's entry, and whether it closes it. */
  ghost predicate TakesOut(s: State, a: Action, id: string, closes: bool) {
    && a.Go? && a.t in s.threads && s.threads[a.t].id == id
    && if closes then s.threads[a.t].next.DeleteSession? else s.threads[a.t].next.AddSession?
  }

  lemma TakenOut(lib: Library, cfg: ServerConfig, s: State, a: Action, id: string) returns (closes: bool)
    requires Inv(s) && Enabled(lib, cfg, s, a) && id in s.sessions
    requires Get(Next(lib, cfg, s, a).sessions, id) != Some(s.sessions[id])
    ensures TakesOut(s, a, id, closes)
    ensures closes ==> s.sessions[id] in Next(lib, cfg, s, a).closedSessions
    ensures !closes ==> Nowhere(Next(lib, cfg, s, a), s.sessions[id])
  {
    SessionsLeaveClosedOrReplaced(lib, cfg, s, a, id);
    EffectOnSessions(s, s.threads[a.t], a.t);
    closes := id !in Next(lib, cfg, s, a).sessions;
  }

  /** A session that has left its client's entry was taken out by a deleteSession, which closed it, or by an
      addSession; and then the server never closes it, however the run goes on. */
  lemma {:induction false} ClosedUnlessReplaced(lib: Library, cfg: ServerConfig, s: State, actions: seq<Action>, id: string)
    returns (k: nat, closes: bool)
    requires Inv(s) && IsRun(lib, cfg, s, actions) && id in s.sessions
    requires Get(After(lib, cfg, s, actions).sessions, id) != Some(s.sessions[id])
    ensures k < |actions| && IsRun(lib, cfg, s, actions[..k])
    ensures Get(After(lib, cfg, s, actions[..k]).sessions, id) == Some(s.sessions[id])
    ensures TakesOut(After(lib, cfg, s, actions[..k]), actions[k], id, closes)
    ensures s.sessions[id] in After(lib, cfg, s, actions).closedSessions <==> closes
    decreases |actions|
  {
    var s1 := Next(lib, cfg, s, actions[0]);
    NextKeepsInv(lib, cfg, s, actions[0]);
    if Get(s1.sessions, id) == Some(s.sessions[id]) {
      var j;
      j, closes := ClosedUnlessReplaced(lib, cfg, s1, actions[1..], id);
      k := j + 1;
      assert actions[..k][0] == actions[0] && actions[..k][1..] == actions[1..][..j];
    } else {
      k := 0;
      closes := TakenOut(lib, cfg, s, actions[0], id);
      if closes {
        ClosedForGood(lib, cfg, s1, actions[1..]);
      } else {
        NowhereStaysOpen(lib, cfg, s1, actions[1..], s.sessions[id]);
      }
    }
  }

  /** A closed control sits in the table only while some thread is about to run deleteControl for its
      client; and once closed it never takes another message. */
  lemma {:induction false} ClosedControlsArePending(lib: Library, cfg: ServerConfig, before: seq<Action>, after: seq<Action>,
                                                    ctl: ControlId, id: string, t: Tid)
    requires IsRun(lib, cfg, START, before) && IsRun(lib, cfg, After(lib, cfg, START, before), after)
    requires ctl in After(lib, cfg, START, before).closedControls
    ensures var s := After(lib, cfg, After(lib, cfg, START, before), after);
            && (Get(s.controls, id) == Some(ctl) ==> DeletePending(s.threads, id))
            && (t in s.threads && s.threads[t].next == Send(ctl) ==>
                  !Enabled(lib, cfg, s, Go(t)) && Enabled(lib, cfg, s, Fail(t)))
  {
    RunsKeepInv(lib, cfg, START, before);
    RunsKeepInv(lib, cfg, After(lib, cfg, START, before), after);
    ClosedForGood(lib, cfg, After(lib, cfg, START, before), after);
  }

  /** Somewhere in the run a thread closed the control. */
  ghost predicate WasClosed(lib: Library, cfg: ServerConfig, s: State, actions: seq<Action>, ctl: ControlId)
    requires IsRun(lib, cfg, s, actions)
    decreases |actions|
  {
    actions != [] &&
    ((actions[0].Go? && s.threads[actions[0].t].next == CloseControl(ctl))
     || WasClosed(lib, cfg, Next(lib, cfg, s, actions[0]), actions[1..], ctl))
  }

  /** A control is closed exactly if some thread has run the section that closes it. */
  lemma {:induction false} ClosedIff(lib: Library, cfg: ServerConfig, s: State, actions: seq<Action>, ctl: ControlId)
    requires IsRun(lib, cfg, s, actions)
    ensures ctl in After(lib, cfg, s, actions).closedControls
            <==> ctl in s.closedControls || WasClosed(lib, cfg, s, actions, ctl)
    decreases |actions|
  {
    if actions != [] {
      if actions[0].Go? {
        EffectOnControls(s, s.threads[actions[0].t], actions[0].t);
      }
      ClosedIff(lib, cfg, Next(lib, cfg, s, actions[0]), actions[1..], ctl);
    }
  }

  /** So no message is sent on a control after that, by any dial that still holds it; the send fails, and
      before that it can go through. */
  lemma {:induction false} SendsIff(lib: Library, cfg: ServerConfig, actions: seq<Action>, ctl: ControlId, t: Tid)
    requires IsRun(lib, cfg, START, actions)
    requires t in After(lib, cfg, START, actions).threads && After(lib, cfg, START, actions).threads[t].next == Send(ctl)
    ensures var s := After(lib, cfg, START, actions);
            && (Enabled(lib, cfg, s, Go(t)) <==> !WasClosed(lib, cfg, START, actions, ctl))
            && Enabled(lib, cfg, s, Fail(t))
  {
    ClosedIff(lib, cfg, START, actions, ctl);
  }

  /** At most one thread is inside deleteSession, and it holds the session lock. */
  lemma {:induction false} OneInsideDeleteSession(lib: Library, cfg: ServerConfig, actions: seq<Action>, t: Tid)
    requires IsRun(lib, cfg, START, actions)
    ensures var s := After(lib, cfg, START, actions);
            t in s.threads && InDeleteSession(s.threads[t].next) <==> s.holder == Some(t)
  {
    RunsKeepInv(lib, cfg, START, actions);
  }

  lemma HeldStep(lib: Library, cfg: ServerConfig, s: State, a: Action, t: Tid)
    requires Inv(s) && s.holder == Some(t) && Enabled(lib, cfg, s, a) && a != Go(t)
    ensures var s' := Next(lib, cfg, s, a);
            s'.sessions == s.sessions && s'.closedSessions == s.closedSessions && s'.holder == Some(t)
    ensures a.Go? ==> !s.threads[a.t].next.GetSession?
  {
    if a.Go? {
      EffectOnSessions(s, s.threads[a.t], a.t);
      assert !InDeleteSession(s.threads[a.t].next);
    }
  }

  /** While a thread is inside deleteSession nobody else stores, deletes or looks up a session, whatever runs
      before that thread goes on. */
  lemma {:induction false} SessionTableHeld(lib: Library, cfg: ServerConfig, s: State, between: seq<Action>, t: Tid, u: Tid)
    requires Inv(s) && s.holder == Some(t) && IsRun(lib, cfg, s, between) && Go(t) !in between
    ensures var s' := After(lib, cfg, s, between);
            && s'.sessions == s.sessions && s'.closedSessions == s.closedSessions && s'.holder == Some(t)
            && (u in s'.threads && s'.threads[u].next.GetSession? ==> !Enabled(lib, cfg, s', Go(u)))
    decreases |between|
  {
    if between != [] {
      assert between[0] in between && forall a :: a in between[1..] ==> a in between;
      HeldStep(lib, cfg, s, between[0], t);
      NextKeepsInv(lib, cfg, s, between[0]);
      SessionTableHeld(lib, cfg, Next(lib, cfg, s, between[0]), between[1..], t, u);
    }
  }

  /** None of its sections needs that lock again. */
  lemma {:induction false} LockHolderCanGo(lib: Library, cfg: ServerConfig, actions: seq<Action>, t: Tid)
    requires IsRun(lib, cfg, START, actions)
    ensures var s := After(lib, cfg, START, actions);
            s.holder == Some(t) ==> Enabled(lib, cfg, s, Go(t))
  {
    OneInsideDeleteSession(lib, cfg, actions, t);
  }
}
