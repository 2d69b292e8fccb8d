/** server/clientconfig.go: a client config derived from the server's own settings, and what the server
    then makes of a client started with it (server/server.go, client/client.go, tunnel/client.go connect). */
module ClientConfig {

  import opened Base
  import opened VirtualHosts
  import opened Admission

  const DEFAULT_CONTROL_PATH := "/_controlPath"
  const DEFAULT_CONTROL_METHOD := "POST"
  const DEFAULT_TARGET := "http://127.0.0.1:8080"

  /** net.SplitHostPort. */
  datatype Net = Net(split: string -> Option<(string, string)>)

  /** net.JoinHostPort puts an address with colons in brackets. */
  function JoinHostPort(host: string, port: string): string {
    if ':' in host then "[" + host + "]:" + port else host + ":" + port
  }

  datatype Settings = Settings(
    listen: string,
    listenControl: string,
    signatureKey: string,
    allowedHosts: seq<string>,
    allowedClients: seq<string>,
    controlPath: string,
    controlMethod: string)

  datatype Options = Options(identifier: string, domain: string, target: string, address: string, omitKey: bool)

  datatype Client = Client(
    identifier: string,
    serverAddress: string,
    signatureKey: string,
    controlPath: string,
    controlMethod: string,
    http: HttpConfig)

  datatype BuildError = BadAddress | NoDomain | BadPattern | HostRefused | ClientRefused

  datatype Built = Config(client: Client) | Failed(error: BuildError)

  function OrDefault(value: string, default: string): string {
    if value == "" then default else value
  }

  function ClientFacingAddress(net: Net, listen: string, override: string): Option<string> {
    if override != "" then Some(override)
    else match net.split(listen)
      case None => None
      case Some((host, port)) =>
        if host == "" || host == "0.0.0.0" || host == "::" then None else Some(JoinHostPort(host, port))
  }

  /** The patterns are compiled one by one, and only as far as needed. */
  function CheckAgainstAllowedHosts(lib: Library, allowedHosts: seq<string>, domain: string): Option<BuildError> {
    if |allowedHosts| == 0 then Some(HostRefused)
    else if !lib.compiles(allowedHosts[0]) then Some(BadPattern)
    else if lib.matches(allowedHosts[0], domain) then None
    else CheckAgainstAllowedHosts(lib, allowedHosts[1..], domain)
  }

  function CheckAgainstAllowedClients(allowedClients: seq<string>, id: string): Option<BuildError> {
    if ClientAllowed(allowedClients, id) then None else Some(ClientRefused)
  }

  function Build(lib: Library, net: Net, server: Settings, opts: Options): Built {
    var listen := OrDefault(server.listenControl, server.listen);
    match ClientFacingAddress(net, listen, opts.address)
    case None => Failed(BadAddress)
    case Some(address) =>
      if opts.domain == "" then Failed(NoDomain)
      else match CheckAgainstAllowedHosts(lib, server.allowedHosts, opts.domain)
        case Some(error) => Failed(error)
        case None =>
          match CheckAgainstAllowedClients(server.allowedClients, opts.identifier)
          case Some(error) => Failed(error)
          case None =>
            Config(Client(opts.identifier, address, if opts.omitKey then "" else server.signatureKey,
                          OrDefault(server.controlPath, DEFAULT_CONTROL_PATH),
                          OrDefault(server.controlMethod, DEFAULT_CONTROL_METHOD),
                          HttpConfig(opts.domain, OrDefault(opts.target, DEFAULT_TARGET), [PathRule("/", "/")])))
  }

  // ---------------------------------------------------------------------------------------------
  // The server and the client started with these settings

  function Running(server: Settings): ServerConfig {
    ServerConfig(server.signatureKey, server.allowedHosts, server.allowedClients,
                 OrDefault(server.controlPath, DEFAULT_CONTROL_PATH),
                 OrDefault(server.controlMethod, DEFAULT_CONTROL_METHOD))
  }

  /** loadConfig and NewServer let the server start. */
  predicate Starts(lib: Library, server: Settings) {
    && server.listen != "" && server.signatureKey != "" && |server.allowedHosts| > 0
    && forall i :: 0 <= i < |server.allowedHosts| ==> lib.compiles(server.allowedHosts[i])
  }

  /** The client's machine: its name, if that can be found out, and the key in its environment. */
  datatype Machine = Machine(hostName: Option<string>, envKey: string)

  function Identifier(client: Client, machine: Machine): Option<string> {
    if client.identifier == "" then machine.hostName else Some(client.identifier)
  }

  /** The control request a client with this config sends, unless it exits first: for want of a name, a key, a
      domain, a target, a rule or an address. Name and key of the machine replace only what the config leaves
      empty. */
  function RequestOf(lib: Library, client: Client, machine: Machine): Option<ControlRequest> {
    var key := OrDefault(client.signatureKey, machine.envKey);
    match Identifier(client, machine)
    case None => None
    case Some(id) =>
      if key == "" || client.http.domain == "" || client.http.target == "" || |client.http.rewrite| == 0 then None
      else if client.serverAddress == "" || id == "" then None
      else Some(ControlRequest(OrDefault(client.controlPath, DEFAULT_CONTROL_PATH),
                               OrDefault(client.controlMethod, DEFAULT_CONTROL_METHOD),
                               id, lib.sign(id, key), Some(client.http)))
  }

  /** The client sends a request and it gets as far as the claim on its host. */
  predicate GetsToTheClaim(lib: Library, cfg: ServerConfig, req: Option<ControlRequest>) {
    req.Some? && IsControlRequest(lib, cfg, req.value) && Judge(lib, cfg, req.value).Admitted?
  }

  // ---------------------------------------------------------------------------------------------

  /** With patterns that all compile, the check made here is the check the server makes. */
  lemma {:induction false} HostCheckAgrees(lib: Library, allowedHosts: seq<string>, domain: string)
    requires forall i :: 0 <= i < |allowedHosts| ==> lib.compiles(allowedHosts[i])
    ensures CheckAgainstAllowedHosts(lib, allowedHosts, domain)
            == if HostAllowed(lib, allowedHosts, domain) then None else Some(HostRefused)
  {
    if |allowedHosts| > 0 {
      var rest := allowedHosts[1..];
      HostCheckAgrees(lib, rest, domain);
      if lib.matches(allowedHosts[0], domain) {
        assert HostAllowed(lib, allowedHosts, domain);
      } else if HostAllowed(lib, rest, domain) {
        var i :| 0 <= i < |rest| && lib.matches(rest[i], domain);
        assert lib.matches(allowedHosts[i + 1], domain);
      }
    }
  }

  /** Without that, it accepts exactly when some pattern matches and every one up to it compiles. */
  lemma {:induction false} HostCheckIff(lib: Library, allowedHosts: seq<string>, domain: string)
    ensures CheckAgainstAllowedHosts(lib, allowedHosts, domain) == None
            <==> exists i :: MatchesFirst(lib, allowedHosts, domain, i)
  {
    if |allowedHosts| > 0 {
      var rest := allowedHosts[1..];
      HostCheckIff(lib, rest, domain);
      if i :| MatchesFirst(lib, rest, domain, i) {
        assert lib.compiles(allowedHosts[0]) ==> MatchesFirst(lib, allowedHosts, domain, i + 1);
      }
      if i :| MatchesFirst(lib, allowedHosts, domain, i) {
        if i > 0 && !lib.matches(allowedHosts[0], domain) {
          assert MatchesFirst(lib, rest, domain, i - 1);
        }
      }
      if lib.compiles(allowedHosts[0]) && lib.matches(allowedHosts[0], domain) {
        assert MatchesFirst(lib, allowedHosts, domain, 0);
      }
    }
  }

  ghost predicate MatchesFirst(lib: Library, allowedHosts: seq<string>, domain: string, i: int) {
    && 0 <= i < |allowedHosts|
    && lib.matches(allowedHosts[i], domain)
    && forall j :: 0 <= j <= i ==> lib.compiles(allowedHosts[j])
  }

  /** For a server that starts, and an address and a domain that can be used, a config is refused exactly
      when checkHost or checkIdentifier would refuse the client. */
  lemma RefusedIffServerWould(lib: Library, net: Net, server: Settings, opts: Options)
    requires Starts(lib, server) && opts.domain != ""
    requires ClientFacingAddress(net, OrDefault(server.listenControl, server.listen), opts.address).Some?
    ensures Build(lib, net, server, opts).Failed?
            <==> !HostAllowed(lib, server.allowedHosts, opts.domain)
                 || !ClientAllowed(server.allowedClients, opts.identifier)
    ensures Build(lib, net, server, opts).Failed? ==>
              Build(lib, net, server, opts).error
              == if HostAllowed(lib, server.allowedHosts, opts.domain) then ClientRefused else HostRefused
  {
    HostCheckAgrees(lib, server.allowedHosts, opts.domain);
  }

  /** Where the client is sent: to the address given, or else to the control listener's own address, which must
      then name a host. */
  lemma AddressIff(net: Net, server: Settings, opts: Options)
    ensures var listen := if server.listenControl != "" then server.listenControl else server.listen;
            var address := ClientFacingAddress(net, OrDefault(server.listenControl, server.listen), opts.address);
            && (opts.address != "" ==> address == Some(opts.address))
            && (opts.address == "" ==>
                  (address.None? <==> net.split(listen).None? || net.split(listen).value.0 in ["", "0.0.0.0", "::"]))
            && (opts.address == "" && address.Some? ==>
                  var (host, port) := net.split(listen).value;
                  address.value == if ':' in host then "[" + host + "]:" + port else host + ":" + port)
  {
  }

  /** What a generated config holds, and with which error none is generated: the tests in their order. */
  lemma {:induction false} BuildIs(lib: Library, net: Net, server: Settings, opts: Options)
    ensures var address := ClientFacingAddress(net, OrDefault(server.listenControl, server.listen), opts.address);
            match Build(lib, net, server, opts)
            case Failed(error) =>
              && (error == BadAddress <==> address.None?)
              && (error == NoDomain <==> address.Some? && opts.domain == "")
              && (error == ClientRefused ==>
                    server.allowedClients != [] && opts.identifier !in server.allowedClients)
              && (error == BadPattern || error == HostRefused ==>
                    CheckAgainstAllowedHosts(lib, server.allowedHosts, opts.domain) == Some(error))
            case Config(client) =>
              && address == Some(client.serverAddress)
              && client.identifier == opts.identifier
              && client.signatureKey == (if opts.omitKey then "" else server.signatureKey)
              && client.controlPath == (if server.controlPath != "" then server.controlPath else DEFAULT_CONTROL_PATH)
              && client.controlMethod == (if server.controlMethod != "" then server.controlMethod else DEFAULT_CONTROL_METHOD)
              && client.http.domain == opts.domain != ""
              && client.http.target == (if opts.target != "" then opts.target else DEFAULT_TARGET)
              && client.http.rewrite == [PathRule("/", "/")]
              && CheckAgainstAllowedHosts(lib, server.allowedHosts, opts.domain) == None
              && (server.allowedClients == [] || opts.identifier in server.allowedClients)
  {
    var error := CheckAgainstAllowedHosts(lib, server.allowedHosts, opts.domain);
    HostCheckErrors(lib, server.allowedHosts, opts.domain);
  }

  lemma {:induction false} HostCheckErrors(lib: Library, allowedHosts: seq<string>, domain: string)
    ensures CheckAgainstAllowedHosts(lib, allowedHosts, domain) in [None, Some(BadPattern), Some(HostRefused)]
  {
    if |allowedHosts| > 0 {
      HostCheckErrors(lib, allowedHosts[1..], domain);
    }
  }

  /** When a generated config makes a client that gets to the claim: exactly when the client has a name and a
      key, neither empty, the control path is its own cleaned form, the name is one the server admits, and the key signs
      it as the server's does. "/" is taken to be a valid pattern. */
  lemma GeneratedConfigAgreesIff(lib: Library, net: Net, server: Settings, opts: Options, machine: Machine)
    requires Starts(lib, server) && lib.compiles("/") && Build(lib, net, server, opts).Config?
    ensures var cfg := Running(server);
            var client := Build(lib, net, server, opts).client;
            var key := if opts.omitKey then machine.envKey else server.signatureKey;
            GetsToTheClaim(lib, cfg, RequestOf(lib, client, machine))
            <==> key != "" && lib.clean(cfg.controlPath) == cfg.controlPath
                 && exists id :: (id == opts.identifier || (opts.identifier == "" && machine.hostName == Some(id))) && id != ""
                                 && ClientAllowed(server.allowedClients, id)
                                 && lib.sign(id, key) == lib.sign(id, server.signatureKey)
  {
    HostCheckAgrees(lib, server.allowedHosts, opts.domain);
  }

  /** So with a cleaned control path, an identifier given, and the key in the config or in the client's
      environment, every generated config works, and claims the domain it was made for. */
  lemma GeneratedConfigAgrees(lib: Library, net: Net, server: Settings, opts: Options, machine: Machine)
    requires Starts(lib, server) && lib.compiles("/") && Build(lib, net, server, opts).Config?
    requires lib.clean(Running(server).controlPath) == Running(server).controlPath
    requires opts.identifier != "" && (opts.omitKey ==> machine.envKey == server.signatureKey)
    ensures var req := RequestOf(lib, Build(lib, net, server, opts).client, machine);
            && req.Some? && IsControlRequest(lib, Running(server), req.value)
            && Judge(lib, Running(server), req.value) == Admitted(opts.domain, [Rule("/", "/")])
  {
    GeneratedConfigAgreesIff(lib, net, server, opts, machine);
    var rules := Converted(lib, [PathRule("/", "/")]).value;
    assert rules == [Rule("/", "/")];
  }
}
