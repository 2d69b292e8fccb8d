/** Which client gets an HTTP request and with what path: tunnel/server.go, handleHTTP up to the dial, and
    rewriteRequest. */
module Routing {

  import opened Base
  import opened VirtualHosts
  import opened Admission
  import L = LockLevel
  import LS = LockSafety

  class Request {
    var host: string
    var path: string

    constructor (host: string, path: string)
      ensures this.host == host && this.path == path
    {
      this.host, this.path := host, path;
    }
  }

  ghost predicate IsFirstMatch(lib: Library, rules: seq<Rule>, path: string, i: int) {
    && 0 <= i < |rules|
    && lib.matches(rules[i].pattern, path)
    && forall j :: 0 <= j < i ==> !lib.matches(rules[j].pattern, path)
  }

  /** The path is rewritten by the first rule that matches it, or by none. */
  ghost predicate Rewrites(lib: Library, rules: seq<Rule>, path: string, ok: bool, path': string) {
    if ok then
      exists i :: IsFirstMatch(lib, rules, path, i) && path' == lib.replace(rules[i].pattern, path, rules[i].replacement)
    else
      path' == path && forall i :: 0 <= i < |rules| ==> !lib.matches(rules[i].pattern, path)
  }

  method RewriteRequest(lib: Library, vhosts: Storage, r: Request, id: string) returns (ok: bool)
    requires vhosts.Valid()
    modifies r
    ensures HostsOf(vhosts.mapping, id) == {} ==> !ok && r.host == old(r.host) && r.path == old(r.path)
    ensures forall h :: h in HostsOf(vhosts.mapping, id) ==>
              r.host == "" && Rewrites(lib, vhosts.mapping[h].rewrite, old(r.path), ok, r.path)
  {
    var vh, host := vhosts.GetVirtualHost(id);
    if vh.None? {
      return false;
    }
    assert forall h :: h in HostsOf(vhosts.mapping, id) ==> h == host;
    var rules, original := vh.value.rewrite, r.path;
    r.host := "";
    for i := 0 to |rules|
      invariant r.path == original && r.host == ""
      invariant forall j :: 0 <= j < i ==> !lib.matches(rules[j].pattern, original)
    {
      if lib.matches(rules[i].pattern, r.path) {
        assert IsFirstMatch(lib, rules, original, i);
        r.path := lib.replace(rules[i].pattern, original, rules[i].replacement);
        return true;
      }
    }
    return false;
  }

  datatype Reply = EmptyHost | NoVirtualHost | Forbidden | Forward(identifier: string)

  /** The request goes to the owner of the entry, with the first of the entry's rules that matches its path
      applied, or is refused because none does. */
  ghost predicate Served(lib: Library, entry: VirtualHost, r: Request, reply: Reply, path: string)
    reads r
  {
    && (reply == Forbidden || reply == Forward(entry.identifier))
    && r.host == ""
    && Rewrites(lib, entry.rewrite, path, reply.Forward?, r.path)
  }

  /** `lower` is strings.ToLower, and `bare` takes the port off, giving "" when there is none to take. */
  method Route(lib: Library, vhosts: Storage, r: Request, lower: string -> string, bare: string -> string)
    returns (reply: Reply)
    requires vhosts.Valid()
    modifies r
    ensures reply == EmptyHost <==> lower(old(r.host)) == ""
    ensures reply == EmptyHost || reply == NoVirtualHost ==> r.host == old(r.host) && r.path == old(r.path)
    ensures var m, hostPort := vhosts.mapping, lower(old(r.host));
            && (reply == NoVirtualHost <==> hostPort != "" && hostPort !in m && bare(hostPort) !in m)
            && (hostPort != "" && hostPort in m ==> Served(lib, m[hostPort], r, reply, old(r.path)))
            && (hostPort != "" && hostPort !in m && bare(hostPort) in m ==>
                  Served(lib, m[bare(hostPort)], r, reply, old(r.path)))
  {
    var hostPort := lower(r.host);
    if hostPort == "" {
      return EmptyHost;
    }
    var host := bare(hostPort);
    var id, ok := vhosts.GetIdentifier(hostPort);
    if !ok {
      id, ok := vhosts.GetIdentifier(host);
      if !ok {
        return NoVirtualHost;
      }
    }
    ghost var entry := if hostPort in vhosts.mapping then hostPort else host;
    assert entry in HostsOf(vhosts.mapping, id);
    var rewritten := RewriteRequest(lib, vhosts, r, id);
    return if rewritten then Forward(id) else Forbidden;
  }

  /** Rewrites leaves no choice: there is one answer and one path for a request. */
  lemma RewriteIsDetermined(lib: Library, rules: seq<Rule>, path: string, ok: bool, p: string, ok': bool, p': string)
    requires Rewrites(lib, rules, path, ok, p) && Rewrites(lib, rules, path, ok', p')
    ensures ok == ok' && p == p'
  {
    if ok && ok' {
      var i :| IsFirstMatch(lib, rules, path, i) && p == lib.replace(rules[i].pattern, path, rules[i].replacement);
      var j :| IsFirstMatch(lib, rules, path, j) && p' == lib.replace(rules[j].pattern, path, rules[j].replacement);
      assert i == j;
    }
  }

  /** What the control request behind a routed host must have been. */
  ghost predicate Earned(lib: Library, cfg: ServerConfig, req: ControlRequest, host: string, id: string, rules: seq<Rule>) {
    && req.identifier == id
    && req.httpMethod == cfg.controlMethod
    && ClientAllowed(cfg.allowedClients, id)
    && SignatureOk(lib, cfg, id, req.signature)
    && req.body.Some? && req.body.value.domain == host
    && HostAllowed(lib, cfg.allowedHosts, host)
    && Converted(lib, req.body.value.rewrite) == Some(rules)
  }

  /** At every moment of every run without embedder claims, a request is only ever routed to a client whose
      most recent accepted control request asked for exactly the host that routes it, is signed with the
      key, and passed both allow-lists; and the rules that rewrite its path are the ones of that request. */
  lemma {:induction false} RoutedToAdmittedClients(lib: Library, cfg: ServerConfig, actions: seq<L.Action>,
                                                   hostPort: string, bare: string)
    requires L.IsRun(lib, cfg, L.START, actions) && forall a :: a in actions ==> !a.EmbedderAdds?
    requires hostPort in L.After(lib, cfg, L.START, actions).hosts || bare in L.After(lib, cfg, L.START, actions).hosts
    ensures var s := L.After(lib, cfg, L.START, actions);
            var host := if hostPort in s.hosts then hostPort else bare;
            var last := LS.LastAccepted(s.accepted, s.hosts[host].identifier);
            last.Some? && Earned(lib, cfg, last.value.req, host, s.hosts[host].identifier, s.hosts[host].rewrite)
  {
    LS.Provenance(lib, cfg, L.START, actions);
    var s := L.After(lib, cfg, L.START, actions);
    var host := if hostPort in s.hosts then hostPort else bare;
    LastAcceptedIsAccepted(s.accepted, s.hosts[host].identifier);
    var last := LS.LastAccepted(s.accepted, s.hosts[host].identifier).value;
    assert LS.Sound(lib, cfg, last.req, last.domain, last.rules);
  }

  /** The client found for a request whose two lookups fall in different sections, with anything in between:
      by the host with its port in s1, or failing that by the bare host in s2. */
  function FoundClient(s1: L.State, s2: L.State, hostPort: string, bare: string): Option<string> {
    if hostPort in s1.hosts then Some(s1.hosts[hostPort].identifier) else IdentifierOf(s2.hosts, bare)
  }

  /** The same with the lookups in different sections. The client was found by a host that its most recent
      accepted request asked for at that moment; and the rules, which are looked up by the client later, are
      those of its most recent accepted request by then, which may be for another host. */
  lemma {:induction false} RoutedInPieces(lib: Library, cfg: ServerConfig, first: seq<L.Action>, second: seq<L.Action>,
                                          third: seq<L.Action>, hostPort: string, bare: string)
    requires L.IsRun(lib, cfg, L.START, first)
    requires L.IsRun(lib, cfg, L.After(lib, cfg, L.START, first), second)
    requires L.IsRun(lib, cfg, L.After(lib, cfg, L.After(lib, cfg, L.START, first), second), third)
    requires forall a :: a in first + second + third ==> !a.EmbedderAdds?
    ensures var s1 := L.After(lib, cfg, L.START, first);
            var s2 := L.After(lib, cfg, s1, second);
            var s3 := L.After(lib, cfg, s2, third);
            && (FoundClient(s1, s2, hostPort, bare).None? <==> hostPort !in s1.hosts && bare !in s2.hosts)
            && (FoundClient(s1, s2, hostPort, bare).Some? ==>
              var id := FoundClient(s1, s2, hostPort, bare).value;
              && (if hostPort in s1.hosts then EarnedIn(lib, cfg, s1, hostPort, id) else EarnedIn(lib, cfg, s2, bare, id))
              && forall host :: host in s3.hosts && s3.hosts[host].identifier == id ==> EarnedIn(lib, cfg, s3, host, id))
  {
    var s1 := L.After(lib, cfg, L.START, first);
    var s2 := L.After(lib, cfg, s1, second);
    LS.RunThenRun(lib, cfg, L.START, first, second);
    LS.RunThenRun(lib, cfg, L.START, first + second, third);
    EntriesEarned(lib, cfg, first);
    EntriesEarned(lib, cfg, first + second);
    EntriesEarned(lib, cfg, first + second + third);
  }

  /** The entry of the host is what its owner's most recent accepted request earned. */
  ghost predicate EarnedIn(lib: Library, cfg: ServerConfig, s: L.State, host: string, id: string) {
    && host in s.hosts && s.hosts[host].identifier == id
    && var last := LS.LastAccepted(s.accepted, id);
    last.Some? && Earned(lib, cfg, last.value.req, host, id, s.hosts[host].rewrite)
  }

  /** The rewriting in terms of the rules as the client sent them. */
  lemma RewrittenByRules(lib: Library, sent: seq<PathRule>, rules: seq<Rule>, path: string, ok: bool, path': string)
    requires Converted(lib, sent) == Some(rules) && Rewrites(lib, rules, path, ok, path')
    ensures forall i :: 0 <= i < |sent| ==> lib.compiles(sent[i].from)
    ensures ok <==> exists i :: 0 <= i < |sent| && lib.matches(sent[i].from, path)
    ensures !ok ==> path' == path
    ensures forall i :: 0 <= i < |sent| && lib.matches(sent[i].from, path)
                        && (forall j :: 0 <= j < i ==> !lib.matches(sent[j].from, path))
              ==> path' == lib.replace(sent[i].from, path, sent[i].to)
  {
    assert forall i :: 0 <= i < |sent| ==> rules[i] == Rule(sent[i].from, sent[i].to);
    if ok {
      var k :| IsFirstMatch(lib, rules, path, k) && path' == lib.replace(rules[k].pattern, path, rules[k].replacement);
      assert lib.matches(sent[k].from, path);
    } else {
      forall i | 0 <= i < |sent| ensures !lib.matches(sent[i].from, path) {
        assert !lib.matches(rules[i].pattern, path);
      }
    }
  }

  /** End to end: a request that an entry serves is rewritten by the first rule in the body of its client's
      most recent accepted control request that matches the path, and refused exactly if none does. */
  lemma {:induction false} RewrittenByOwnRules(lib: Library, cfg: ServerConfig, actions: seq<L.Action>, host: string,
                                               path: string, ok: bool, path': string)
    requires L.IsRun(lib, cfg, L.START, actions) && forall a :: a in actions ==> !a.EmbedderAdds?
    requires host in L.After(lib, cfg, L.START, actions).hosts
    requires Rewrites(lib, L.After(lib, cfg, L.START, actions).hosts[host].rewrite, path, ok, path')
    ensures var s := L.After(lib, cfg, L.START, actions);
            var last := LS.LastAccepted(s.accepted, s.hosts[host].identifier);
            && last.Some? && last.value.req.body.Some?
            && var sent := last.value.req.body.value.rewrite;
            && (ok <==> exists i :: 0 <= i < |sent| && lib.matches(sent[i].from, path))
            && (!ok ==> path' == path)
            && (forall i :: 0 <= i < |sent| && lib.matches(sent[i].from, path)
                            && (forall j :: 0 <= j < i ==> !lib.matches(sent[j].from, path))
                  ==> path' == lib.replace(sent[i].from, path, sent[i].to))
  {
    var s := L.After(lib, cfg, L.START, actions);
    EntriesEarned(lib, cfg, actions);
    assert EarnedIn(lib, cfg, s, host, s.hosts[host].identifier);
    var last := LS.LastAccepted(s.accepted, s.hosts[host].identifier).value;
    RewrittenByRules(lib, last.req.body.value.rewrite, s.hosts[host].rewrite, path, ok, path');
  }

  lemma {:induction false} EntriesEarned(lib: Library, cfg: ServerConfig, actions: seq<L.Action>)
    requires L.IsRun(lib, cfg, L.START, actions) && forall a :: a in actions ==> !a.EmbedderAdds?
    ensures var s := L.After(lib, cfg, L.START, actions);
            forall host :: host in s.hosts ==> EarnedIn(lib, cfg, s, host, s.hosts[host].identifier)
  {
    var s := L.After(lib, cfg, L.START, actions);
    forall host | host in s.hosts ensures EarnedIn(lib, cfg, s, host, s.hosts[host].identifier) {
      RoutedToAdmittedClients(lib, cfg, actions, host, host);
    }
  }

  lemma {:induction false} LastAcceptedIsAccepted(accepted: seq<L.Acceptance>, id: string)
    ensures var last := LS.LastAccepted(accepted, id);
            last.Some? ==> last.value in accepted && last.value.req.identifier == id
  {
    if accepted != [] && accepted[|accepted| - 1].req.identifier != id {
      LastAcceptedIsAccepted(accepted[..|accepted| - 1], id);
    }
  }
}
