/** The tests a control request passes before it may claim a host: tunnel/server.go, checkConnect,
    convertHTTPPathRules, checkIdentifier, checkHost and isControlRequest. */
module Admission {

  import opened Base
  import opened VirtualHosts

  /** What the code takes from libraries: the HMAC of an identifier, Go's regular expressions and
      path.Clean. Nothing is assumed of them beyond being functions. */
  datatype Library = Library(
    sign: (string, string) -> string,
    compiles: string -> bool,
    matches: (string, string) -> bool,
    replace: (string, string, string) -> string,
    clean: string -> string)

  datatype ServerConfig = ServerConfig(
    signatureKey: string,
    allowedHosts: seq<string>,
    allowedClients: seq<string>,
    controlPath: string,
    controlMethod: string)

  /** A rewrite rule as it travels in the request, before its pattern is compiled. */
  datatype PathRule = PathRule(from: string, to: string)

  datatype HttpConfig = HttpConfig(domain: string, target: string, rewrite: seq<PathRule>)

  /** A control request. The body is None when it is not the JSON of a connection config. */
  datatype ControlRequest = ControlRequest(
    path: string,
    httpMethod: string,
    identifier: string,
    signature: string,
    body: Option<HttpConfig>)

  datatype Refusal = WrongMethod | UnknownClient | BadSignature | BadConfig | BadHost | BadRewriteRule

  datatype Verdict =
    | Refused(why: Refusal)
    | Admitted(domain: string, rules: seq<Rule>)

  function Status(why: Refusal): nat {
    match why
    case WrongMethod => 405
    case UnknownClient | BadSignature => 403
    case BadConfig | BadHost | BadRewriteRule => 400
  }

  predicate IsControlRequest(lib: Library, cfg: ServerConfig, req: ControlRequest) {
    lib.clean(req.path) == cfg.controlPath
  }

  /** An empty list admits every client. */
  predicate ClientAllowed(allowedClients: seq<string>, id: string) {
    |allowedClients| == 0 || id in allowedClients
  }

  predicate HostAllowed(lib: Library, allowedHosts: seq<string>, host: string) {
    exists i :: 0 <= i < |allowedHosts| && lib.matches(allowedHosts[i], host)
  }

  predicate SignatureOk(lib: Library, cfg: ServerConfig, id: string, signature: string) {
    signature == lib.sign(id, cfg.signatureKey)
  }

  /** The compiled rules, in the order given, or None when one pattern does not compile. */
  function Converted(lib: Library, rules: seq<PathRule>): Option<seq<Rule>> {
    if forall i :: 0 <= i < |rules| ==> lib.compiles(rules[i].from)
    then Some(seq(|rules|, i requires 0 <= i < |rules| => Rule(rules[i].from, rules[i].to)))
    else None
  }

  /** The tests in the order checkConnect makes them. */
  function Judge(lib: Library, cfg: ServerConfig, req: ControlRequest): Verdict {
    if req.httpMethod != cfg.controlMethod then Refused(WrongMethod)
    else if !ClientAllowed(cfg.allowedClients, req.identifier) then Refused(UnknownClient)
    else if !SignatureOk(lib, cfg, req.identifier, req.signature) then Refused(BadSignature)
    else if req.body.None? then Refused(BadConfig)
    else if !HostAllowed(lib, cfg.allowedHosts, req.body.value.domain) then Refused(BadHost)
    else match Converted(lib, req.body.value.rewrite)
      case None => Refused(BadRewriteRule)
      case Some(rules) => Admitted(req.body.value.domain, rules)
  }

  method ConvertRules(lib: Library, rules: seq<PathRule>) returns (converted: Option<seq<Rule>>)
    ensures converted == Converted(lib, rules)
    ensures converted.Some? <==> forall i :: 0 <= i < |rules| ==> lib.compiles(rules[i].from)
    ensures converted.Some? ==>
              && |converted.value| == |rules|
              && forall i :: 0 <= i < |rules| ==>
                   converted.value[i].pattern == rules[i].from && converted.value[i].replacement == rules[i].to
  {
    var out := [];
    for i := 0 to |rules|
      invariant |out| == i
      invariant forall j :: 0 <= j < i ==> lib.compiles(rules[j].from) && out[j] == Rule(rules[j].from, rules[j].to)
    {
      if !lib.compiles(rules[i].from) {
        return None;
      }
      out := out + [Rule(rules[i].from, rules[i].to)];
    }
    assert out == Converted(lib, rules).value;
    return Some(out);
  }

  method CheckHost(lib: Library, allowedHosts: seq<string>, host: string) returns (ok: bool)
    ensures ok == HostAllowed(lib, allowedHosts, host)
  {
    for i := 0 to |allowedHosts|
      invariant forall j :: 0 <= j < i ==> !lib.matches(allowedHosts[j], host)
    {
      if lib.matches(allowedHosts[i], host) {
        return true;
      }
    }
    return false;
  }

  method CheckIdentifier(allowedClients: seq<string>, id: string) returns (ok: bool)
    ensures ok == ClientAllowed(allowedClients, id)
  {
    if |allowedClients| == 0 {
      return true;
    }
    for i := 0 to |allowedClients|
      invariant id !in allowedClients[..i]
    {
      if allowedClients[i] == id {
        return true;
      }
    }
    return false;
  }
}
