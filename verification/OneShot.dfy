/** The one-shot callbacks of OnConnect and OnDisconnect over whole runs: tunnel/util.go, callbacks, as
    tunnel/server.go uses them. */
module OneShot {

  import opened Base
  import opened VirtualHosts
  import opened Admission
  import opened Registry
  import opened RegistrySafety

  /** How often the callback has been called for the client. */
  function Calls(called: seq<(string, Callback)>, id: string, fn: Callback): nat {
    multiset(called)[(id, fn)]
  }

  function HeldIn(funcs: map<string, Callback>, id: string, fn: Callback): nat {
    if Get(funcs, id) == Some(fn) then 1 else 0
  }

  /** Registered and neither called nor replaced. */
  function Held(s: State, id: string, fn: Callback): nat {
    HeldIn(s.onConnect, id, fn) + HeldIn(s.onDisconnect, id, fn)
  }

  /** How often the event registers the callback. */
  function Registers(e: Event, id: string, fn: Callback): nat {
    match e
    case OnConnectEvent(o, callback) => if o == id && callback == fn then 1 else 0
    case OnDisconnectEvent(o, callback) => if o == id && callback == fn then 1 else 0
    case _ => 0
  }

  /** A registration takes the place of a callback that has not been called. */
  function Replaces(s: State, e: Event, id: string, fn: Callback): nat {
    match e
    case OnConnectEvent(o, _) => if o == id then HeldIn(s.onConnect, id, fn) else 0
    case OnDisconnectEvent(o, _) => if o == id then HeldIn(s.onDisconnect, id, fn) else 0
    case _ => 0
  }

  function Registrations(es: seq<Event>, id: string, fn: Callback): nat {
    if es == [] then 0 else Registrations(es[..|es| - 1], id, fn) + Registers(es[|es| - 1], id, fn)
  }

  ghost function Replacements(lib: Library, cfg: ServerConfig, es: seq<Event>, id: string, fn: Callback): nat {
    if es == [] then 0
    else
      Replacements(lib, cfg, es[..|es| - 1], id, fn)
      + Replaces(After(lib, cfg, EMPTY, es[..|es| - 1]), es[|es| - 1], id, fn)
  }

  lemma PopConserves(called: seq<(string, Callback)>, funcs: map<string, Callback>, o: string, id: string, fn: Callback)
    requires fn.Fn?
    ensures Calls(Call(called, funcs, o), id, fn) + HeldIn(funcs - {o}, id, fn)
            == Calls(called, id, fn) + HeldIn(funcs, id, fn)
  {
    if o in funcs {
      assert multiset(called + [(o, funcs[o])]) == multiset(called) + multiset{(o, funcs[o])};
    }
  }

  lemma ConnectConserves(lib: Library, cfg: ServerConfig, s: State, req: ControlRequest, out: Outcome,
                         session: SessionId, ctl: ControlId, id: string, fn: Callback)
    requires OneHostEach(s.hosts) && fn.Fn?
    ensures var s' := Connect(lib, cfg, s, req, out, session, ctl).0;
            Calls(s'.called, id, fn) + Held(s', id, fn) == Calls(s.called, id, fn) + Held(s, id, fn)
  {
    ConnectEffect(lib, cfg, s, req, out, session, ctl);
    PopConserves(s.called, s.onDisconnect, req.identifier, id, fn);
    if Claims(lib, cfg, s, req) {
      var v := Judge(lib, cfg, req);
      SettledCallbacks(s, req.identifier, v.domain, v.rules, out, session, ctl);
    }
  }

  lemma SettledCallbacks(s: State, id: string, domain: string, rules: seq<Rule>, out: Outcome,
                         session: SessionId, ctl: ControlId)
    ensures var s' := Settled(s, id, domain, rules, out, session, ctl);
            s'.called == s.called && s'.onConnect == s.onConnect && s'.onDisconnect == s.onDisconnect
  {
  }

  lemma NextConserves(lib: Library, cfg: ServerConfig, s: State, e: Event, id: string, fn: Callback)
    requires OneHostEach(s.hosts) && fn.Fn?
    ensures var s' := Next(lib, cfg, s, e);
            Calls(s'.called, id, fn) + Held(s', id, fn) + Replaces(s, e, id, fn)
            == Calls(s.called, id, fn) + Held(s, id, fn) + Registers(e, id, fn)
  {
    match e
    case ConnectEvent(req, out, session, ctl) => ConnectConserves(lib, cfg, s, req, out, session, ctl, id, fn);
    case StartEvent(o, _) => PopConserves(s.called, s.onConnect, o, id, fn);
    case EndEvent(o, ctl) =>
      EndEffect(s, o, ctl);
      PopConserves(s.called, s.onDisconnect, o, id, fn);
    case _ =>
  }

  /** Every registration of a callback is accounted for exactly once, on every run: it has been called, or
      it is still waiting, or a later registration has taken its place. */
  lemma {:induction false} EveryRegistrationAccountedFor(lib: Library, cfg: ServerConfig, es: seq<Event>,
                                                         id: string, fn: Callback)
    requires IsRun(lib, cfg, EMPTY, es) && fn.Fn?
    ensures var s := After(lib, cfg, EMPTY, es);
            Registrations(es, id, fn)
            == Calls(s.called, id, fn) + Held(s, id, fn) + Replacements(lib, cfg, es, id, fn)
  {
    if es != [] {
      var init := es[..|es| - 1];
      EveryRegistrationAccountedFor(lib, cfg, init, id, fn);
      RunsKeepChain(lib, cfg, EMPTY, init);
      NextConserves(lib, cfg, After(lib, cfg, EMPTY, init), es[|es| - 1], id, fn);
    }
  }

  /** So a callback is called at most as often as it was registered, and once a client's connection has been
      announced its OnConnect callback is no longer waiting. */
  lemma {:induction false} CallbacksRunOnce(lib: Library, cfg: ServerConfig, es: seq<Event>, id: string, fn: Callback)
    requires IsRun(lib, cfg, EMPTY, es) && fn.Fn?
    ensures Calls(After(lib, cfg, EMPTY, es).called, id, fn) <= Registrations(es, id, fn)
    ensures es != [] && es[|es| - 1].StartEvent? && es[|es| - 1].id == id ==>
              id !in After(lib, cfg, EMPTY, es).onConnect
    ensures es != [] && es[|es| - 1].EndEvent? && es[|es| - 1].id == id ==>
              id !in After(lib, cfg, EMPTY, es).onDisconnect
  {
    EveryRegistrationAccountedFor(lib, cfg, es, id, fn);
  }
}
