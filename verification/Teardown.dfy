/** What can come between the two sections in which deleteSession looks up a host and deletes it:
    tunnel/server.go deleteSession, lines 692-694.

    Both are sections of the host table alone. The lock of the session table is held across them, but claims
    do not take it, so the entry that is deleted need not be the one that was found. */
module Teardown {

  import opened Base
  import opened VirtualHosts
  import opened Admission
  import opened LockLevel
  import opened LockSafety
  import opened LockRefinement

  // ---------------------------------------------------------------------------------------------
  // What an action does to the hosts

  datatype Change = Nothing | Claim(host: string, id: string) | Free(host: string)

  function ClaimOf(hosts: Mapping, host: string, id: string): Change {
    if InUseByAnother(hosts, host, id) then Nothing else Claim(host, id)
  }

  function ChangeOf(s: State, a: Action): Change {
    match a
    case Go(t) =>
      if t !in s.threads then Nothing
      else
        var th := s.threads[t];
        if th.next.AddHost? && th.role.Connector? then ClaimOf(s.hosts, th.role.domain, th.id)
        else if th.next.DeleteHost? then Free(th.next.host)
        else Nothing
    case EmbedderAdds(host, id, _) => ClaimOf(s.hosts, host, id)
    case EmbedderDeletes(host) => Free(host)
    case _ => Nothing
  }

  /** The owner of a host after a change, given the one before. */
  function OwnerAfter(owner: Option<string>, c: Change, host: string): Option<string> {
    match c
    case Nothing => owner
    case Claim(h, id) => if h == host then Some(id) else if owner == Some(id) then None else owner
    case Free(h) => if h == host then None else owner
  }

  lemma GoOwner(s: State, t: Tid, host: string)
    requires t in s.threads
    ensures IdentifierOf(Goes(s, t).hosts, host) == OwnerAfter(IdentifierOf(s.hosts, host), ChangeOf(s, Go(t)), host)
  {
    var th := s.threads[t];
    match th.next
    case AddHost =>
      if th.role.Connector? && !InUseByAnother(s.hosts, th.role.domain, th.id) {
        assert Goes(s, t).hosts == Claimed(s.hosts, th.role.domain, th.id, th.role.rules);
      }
    case DeleteHost(h) => assert Goes(s, t).hosts == Released(s.hosts, h);
    case _ => assert Goes(s, t).hosts == s.hosts;
  }

  lemma NextOwner(lib: Library, cfg: ServerConfig, s: State, a: Action, host: string)
    requires Enabled(lib, cfg, s, a)
    ensures IdentifierOf(Next(lib, cfg, s, a).hosts, host)
            == OwnerAfter(IdentifierOf(s.hosts, host), ChangeOf(s, a), host)
  {
    match a
    case Go(t) => GoOwner(s, t, host);
    case GoAndSpawn(t, listener) => assert Next(lib, cfg, s, a).hosts == s.hosts;
    case _ =>
  }

  ghost function Changes(lib: Library, cfg: ServerConfig, s: State, actions: seq<Action>): (cs: seq<Change>)
    requires IsRun(lib, cfg, s, actions)
    ensures |cs| == |actions|
    decreases |actions|
  {
    if actions == [] then []
    else [ChangeOf(s, actions[0])] + Changes(lib, cfg, Next(lib, cfg, s, actions[0]), actions[1..])
  }

  // ---------------------------------------------------------------------------------------------
  // Owners over a sequence of changes

  function Owner(owner: Option<string>, cs: seq<Change>, host: string): Option<string> {
    if cs == [] then owner else OwnerAfter(Owner(owner, cs[..|cs| - 1], host), cs[|cs| - 1], host)
  }

  /** A claim goes through only on a host that is free or the claimant's own. */
  predicate ClaimsGoThrough(owner: Option<string>, cs: seq<Change>, host: string) {
    forall i :: 0 <= i < |cs| && cs[i].Claim? && cs[i].host == host ==>
      Owner(owner, cs[..i], host) == None || Owner(owner, cs[..i], host) == Some(cs[i].id)
  }

  lemma {:induction false} OwnerFromFront(owner: Option<string>, c: Change, cs: seq<Change>, host: string)
    ensures Owner(owner, [c] + cs, host) == Owner(OwnerAfter(owner, c, host), cs, host)
    decreases |cs|
  {
    if cs == [] {
      assert [c] + cs == [c] && [c][..0] == [];
    } else {
      assert ([c] + cs)[..|cs|] == [c] + cs[..|cs| - 1];
      OwnerFromFront(owner, c, cs[..|cs| - 1], host);
    }
  }

  /** The changes of a run say who owns the host at its end. */
  lemma {:induction false} RunOwner(lib: Library, cfg: ServerConfig, s: State, actions: seq<Action>, host: string)
    requires IsRun(lib, cfg, s, actions)
    ensures var cs := Changes(lib, cfg, s, actions);
            && IdentifierOf(After(lib, cfg, s, actions).hosts, host) == Owner(IdentifierOf(s.hosts, host), cs, host)
            && ClaimsGoThrough(IdentifierOf(s.hosts, host), cs, host)
    decreases |actions|
  {
    if actions != [] {
      var s1, rest := Next(lib, cfg, s, actions[0]), actions[1..];
      NextOwner(lib, cfg, s, actions[0], host);
      RunOwner(lib, cfg, s1, rest, host);
      var c, cs := ChangeOf(s, actions[0]), Changes(lib, cfg, s1, rest);
      OwnerFromFront(IdentifierOf(s.hosts, host), c, cs, host);
      GoThroughFromFront(IdentifierOf(s.hosts, host), c, cs, host);
    }
  }

  lemma GoThroughFromFront(owner: Option<string>, c: Change, cs: seq<Change>, host: string)
    requires c.Claim? && c.host == host ==> owner == None || owner == Some(c.id)
    requires ClaimsGoThrough(OwnerAfter(owner, c, host), cs, host)
    ensures ClaimsGoThrough(owner, [c] + cs, host)
  {
    var all := [c] + cs;
    forall i | 0 <= i < |all| && all[i].Claim? && all[i].host == host
      ensures Owner(owner, all[..i], host) == None || Owner(owner, all[..i], host) == Some(all[i].id)
    {
      if i == 0 {
        assert all[..0] == [];
      } else {
        assert all[..i] == [c] + cs[..i - 1] && all[i] == cs[i - 1];
        OwnerFromFront(owner, c, cs[..i - 1], host);
      }
    }
  }

  /** The client gives the host up by claiming another, or somebody deletes it. */
  predicate GivesUp(c: Change, host: string, id: string) {
    c == Free(host) || (c.Claim? && c.id == id && c.host != host)
  }

  /** Somebody else claims the host at j and nothing takes it away from them afterwards. */
  predicate TakenAt(cs: seq<Change>, j: int, host: string, id: string) {
    && 0 <= j < |cs| && cs[j].Claim? && cs[j].host == host && cs[j].id != id
    && forall k :: j < k < |cs| ==> !GivesUp(cs[k], host, cs[j].id)
  }

  lemma {:induction false} TakenStays(owner: Option<string>, cs: seq<Change>, j: nat, host: string, id: string)
    requires TakenAt(cs, j, host, id) && ClaimsGoThrough(owner, cs, host)
    ensures Owner(owner, cs, host) == Some(cs[j].id)
    decreases |cs|
  {
    var init, last := cs[..|cs| - 1], cs[|cs| - 1];
    if j < |init| {
      forall i | 0 <= i < |init| ensures init[..i] == cs[..i] {
      }
      assert TakenAt(init, j, host, id);
      TakenStays(owner, init, j, host, id);
    }
  }

  lemma {:induction false} LastTaken(owner: Option<string>, cs: seq<Change>, host: string, id: string)
    requires owner == Some(id) && ClaimsGoThrough(owner, cs, host)
    requires Owner(owner, cs, host).Some? && Owner(owner, cs, host) != Some(id)
    ensures exists i, j :: 0 <= i < j && TakenAt(cs, j, host, id) && GivesUp(cs[i], host, id)
    ensures exists j :: TakenAt(cs, j, host, id) && Owner(owner, cs, host) == Some(cs[j].id)
    decreases |cs|
  {
    var init, last := cs[..|cs| - 1], cs[|cs| - 1];
    var before := Owner(owner, init, host);
    forall i | 0 <= i < |init| ensures init[..i] == cs[..i] {
    }
    if before.Some? && before != Some(id) {
      LastTaken(owner, init, host, id);
      var j :| TakenAt(init, j, host, id) && before == Some(init[j].id);
      assert TakenAt(cs, j, host, id);
      var i, j' :| 0 <= i < j' && TakenAt(init, j', host, id) && GivesUp(init[i], host, id);
      TakenStays(owner, init, j', host, id);
      assert TakenAt(cs, j', host, id) && GivesUp(cs[i], host, id);
    } else {
      assert last.Claim? && last.host == host && last.id != id;
      assert TakenAt(cs, |init|, host, id);
      assert before == None;
      var i := LostAt(owner, init, host, id);
      assert GivesUp(cs[i], host, id);
    }
  }

  lemma {:induction false} LostAt(owner: Option<string>, cs: seq<Change>, host: string, id: string) returns (i: nat)
    requires owner == Some(id) && Owner(owner, cs, host) != Some(id) && ClaimsGoThrough(owner, cs, host)
    ensures i < |cs| && GivesUp(cs[i], host, id)
    decreases |cs|
  {
    var init, last := cs[..|cs| - 1], cs[|cs| - 1];
    forall k | 0 <= k < |init| ensures init[..k] == cs[..k] {
    }
    if Owner(owner, init, host) == Some(id) {
      i := |init|;
    } else {
      i := LostAt(owner, init, host, id);
    }
  }

  // ---------------------------------------------------------------------------------------------
  // Between the two sections

  /** The thread has just found its client's host and stands before the section that deletes it. */
  ghost predicate FoundHost(s: State, t: Tid, host: string) {
    && t in s.threads && s.threads[t].next == DeleteHost(host)
    && IdentifierOf(s.hosts, host) == Some(s.threads[t].id)
  }

  lemma LookUpFinds(s: State, t: Tid)
    requires t in s.threads && s.threads[t].next == LookUpHost && HostOwned(s.hosts, s.threads[t].id)
    ensures var host := HostOf(s.hosts, s.threads[t].id);
            host.Some? && FoundHost(Goes(s, t), t, host.value)
  {
    HostFound(s.hosts, s.threads[t].id);
  }

  lemma {:induction false} StandsStill(lib: Library, cfg: ServerConfig, s: State, between: seq<Action>, t: Tid)
    requires IsRun(lib, cfg, s, between) && Go(t) !in between && t in s.threads && s.threads[t].next.DeleteHost?
    ensures var s' := After(lib, cfg, s, between);
            t in s'.threads && s'.threads[t].next == s.threads[t].next && s'.threads[t].id == s.threads[t].id
    decreases |between|
  {
    if between != [] {
      assert between[0] in between && forall a :: a in between[1..] ==> a in between;
      StandsStill(lib, cfg, Next(lib, cfg, s, between[0]), between[1..], t);
    }
  }

  /** When the section that deletes the host hits another client's entry: exactly if in between the client
      gave the host up, by a claim on another domain or through an embedder, and then another client claimed
      it and kept it. */
  lemma {:induction false} DeletesAnothersIff(lib: Library, cfg: ServerConfig, s: State, t: Tid, host: string,
                                              between: seq<Action>)
    requires FoundHost(s, t, host) && IsRun(lib, cfg, s, between) && Go(t) !in between
    ensures var s' := After(lib, cfg, s, between);
            var id := s.threads[t].id;
            var cs := Changes(lib, cfg, s, between);
            && (InUseByAnother(s'.hosts, host, id) <==> exists j :: TakenAt(cs, j, host, id))
            && (InUseByAnother(s'.hosts, host, id) ==>
                  exists i, j :: 0 <= i < j && TakenAt(cs, j, host, id) && GivesUp(cs[i], host, id))
            && t in s'.threads && host !in Goes(s', t).hosts
  {
    var s', id, cs := After(lib, cfg, s, between), s.threads[t].id, Changes(lib, cfg, s, between);
    RunOwner(lib, cfg, s, between, host);
    StandsStill(lib, cfg, s, between, t);
    GoOwner(s', t, host);
    if InUseByAnother(s'.hosts, host, id) {
      LastTaken(Some(id), cs, host, id);
    }
    if j :| TakenAt(cs, j, host, id) {
      TakenStays(Some(id), cs, j, host, id);
    }
  }

  /** The action may take the host from the client: an embedder, or a connector of the client itself. */
  predicate OwnClaimOrEmbedder(s: State, a: Action, id: string) {
    || a.EmbedderAdds? || a.EmbedderDeletes?
    || (a.Go? && a.t in s.threads && s.threads[a.t].next.AddHost? && s.threads[a.t].id == id)
  }

  ghost predicate Undisturbed(lib: Library, cfg: ServerConfig, s: State, actions: seq<Action>, id: string)
    requires IsRun(lib, cfg, s, actions)
    decreases |actions|
  {
    actions == [] ||
    (!OwnClaimOrEmbedder(s, actions[0], id) && Undisturbed(lib, cfg, Next(lib, cfg, s, actions[0]), actions[1..], id))
  }

  /** Nobody else deletes the host meanwhile, because the thread holds the lock of the session table. */
  lemma {:induction false} NobodyGivesUp(lib: Library, cfg: ServerConfig, s: State, actions: seq<Action>, t: Tid,
                                         host: string, i: nat)
    requires Inv(s) && t in s.threads && s.threads[t].next.DeleteHost? && Go(t) !in actions
    requires IsRun(lib, cfg, s, actions) && Undisturbed(lib, cfg, s, actions, s.threads[t].id) && i < |actions|
    ensures !GivesUp(Changes(lib, cfg, s, actions)[i], host, s.threads[t].id)
    decreases |actions|
  {
    assert actions[0] in actions && forall a :: a in actions[1..] ==> a in actions;
    if i > 0 {
      NextKeepsInv(lib, cfg, s, actions[0]);
      StandsStill(lib, cfg, s, [actions[0]], t);
      assert After(lib, cfg, s, [actions[0]]) == Next(lib, cfg, s, actions[0]);
      NobodyGivesUp(lib, cfg, Next(lib, cfg, s, actions[0]), actions[1..], t, host, i - 1);
    }
  }

  /** So a teardown deletes nothing but its own client's host unless a connector of the same client or an
      embedder claims or deletes in between. */
  lemma {:induction false} TeardownSparesOthers(lib: Library, cfg: ServerConfig, s: State, t: Tid, host: string,
                                                between: seq<Action>)
    requires Inv(s) && FoundHost(s, t, host) && IsRun(lib, cfg, s, between) && Go(t) !in between
    requires Undisturbed(lib, cfg, s, between, s.threads[t].id)
    ensures IdentifierOf(After(lib, cfg, s, between).hosts, host) == Some(s.threads[t].id)
  {
    var id, cs := s.threads[t].id, Changes(lib, cfg, s, between);
    RunOwner(lib, cfg, s, between, host);
    if Owner(Some(id), cs, host) != Some(id) {
      var i := LostAt(Some(id), cs, host, id);
      NobodyGivesUp(lib, cfg, s, between, t, host, i);
    }
  }

  // ---------------------------------------------------------------------------------------------
  // A run in which it happens

  lemma StandsBeforeDelete(lib: Library, cfg: ServerConfig, s: State, t: Tid, host: string) returns (s': State)
    requires t in THREADS && t in s.threads && s.threads[t].next == DeleteSession && s.holder == None
    requires s.threads[t].id in s.sessions && s.hosts.Keys == {host} && s.hosts[host].identifier == s.threads[t].id
    ensures Reaches(lib, cfg, s, THREADS, s') && s'.hosts == s.hosts && s'.controls == s.controls
    ensures s'.threads == s.threads[t := s.threads[t].(next := DeleteHost(host))]
  {
    assert HostOwned(s.hosts, s.threads[t].id);
    var s1 := Goes(s, t);
    LookUpFinds(s1, t);
    s' := Goes(s1, t);
    TwoSteps(lib, cfg, s, THREADS, Go(t), Go(t));
  }

  /** The client's first connection is lost, and its listener stands before the deletion of the first domain.
      The client's next request claims a second domain, another client claims the first, and then the
      deletion goes ahead: it takes the other client's host away. */
  lemma TeardownHitsAnotherClient(lib: Library, cfg: ServerConfig, first: ControlRequest, second: ControlRequest,
                                  rival: ControlRequest)
    returns (s: State, s': State)
    requires Judge(lib, cfg, first).Admitted? && Judge(lib, cfg, second).Admitted? && Judge(lib, cfg, rival).Admitted?
    requires second.identifier == first.identifier != rival.identifier
    requires Judge(lib, cfg, rival).domain == Judge(lib, cfg, first).domain != Judge(lib, cfg, second).domain
    ensures Reaches(lib, cfg, START, THREADS, s) && Enabled(lib, cfg, s, Go(1)) && s' == Next(lib, cfg, s, Go(1))
    ensures var host := Judge(lib, cfg, first).domain;
            && s.threads[1].id == first.identifier && s.threads[1].next == DeleteHost(host)
            && IdentifierOf(s.hosts, host) == Some(rival.identifier) && IdentifierOf(s'.hosts, host) == None
  {
    var host := Judge(lib, cfg, first).domain;
    var s1 := FirstConnectionLost(lib, cfg, first);
    var s2 := StandsBeforeDelete(lib, cfg, s1, 1, host);
    s := RivalsClaim(lib, cfg, s2, second, rival, host);
    s' := Goes(s, 1);
    GoOwner(s, 1, host);
    assert Reaches(lib, cfg, START, THREADS, s) by {
      ReachOn(lib, cfg, START, THREADS, s1, s2);
      ReachOn(lib, cfg, START, THREADS, s2, s);
    }
  }

  lemma RivalsClaim(lib: Library, cfg: ServerConfig, s: State, second: ControlRequest, rival: ControlRequest, host: string)
    returns (s': State)
    requires Judge(lib, cfg, second).Admitted? && Judge(lib, cfg, rival).Admitted?
    requires second.identifier != rival.identifier && Judge(lib, cfg, rival).domain == host != Judge(lib, cfg, second).domain
    requires s.threads.Keys == {0, 1} && s.hosts.Keys == {host} && s.hosts[host].identifier == second.identifier
    ensures Reaches(lib, cfg, s, THREADS, s')
    ensures 1 in s'.threads && s'.threads[1] == s.threads[1]
    ensures IdentifierOf(s'.hosts, host) == Some(rival.identifier)
  {
    var s1 := ConnectorClaims(lib, cfg, s, THREADS, 2, second);
    assert host !in s1.hosts;
    s' := ConnectorClaims(lib, cfg, s1, THREADS, 3, rival);
    ReachOn(lib, cfg, s, THREADS, s1, s');
  }
}
