/** The server as the objects it is made of. Every method is proved to do to its fields what the handler
    functions of Registry say, and to keep closed controls out of the table. */
module Server {

  import opened Base
  import VirtualHosts
  import opened Admission
  import opened Registry

  /** tunnel/control.go: one control connection. `token` is its identity. */
  class Control {
    const token: ControlId
    var identifier: string
    var closed: bool

    constructor (token: ControlId)
      ensures this.token == token && identifier == "" && !closed
    {
      this.token, identifier, closed := token, "", false;
    }

    /** `writes` says whether the connection takes the message; a closed control is not even tried. */
    method Send(writes: bool) returns (sent: bool)
      ensures sent == (!closed && writes)
    {
      if closed {
        return false;
      }
      return writes;
    }

    method Close()
      modifies this`closed
      ensures closed
    {
      closed := true;
    }
  }

  class Controls {
    var table: map<string, Control>

    constructor ()
      ensures table == map[]
    {
      table := map[];
    }

    method GetControl(id: string) returns (ct: Control?)
      ensures ct == if id in table then table[id] else null
    {
      ct := if id in table then table[id] else null;
    }

    method AddControl(id: string, ct: Control)
      modifies this, ct`identifier
      ensures table == old(table)[id := ct] && ct.identifier == id
    {
      ct.identifier := id;
      table := table[id := ct];
    }

    method DeleteControl(id: string)
      modifies this
      ensures table == old(table) - {id}
    {
      table := table - {id};
    }
  }

  /** tunnel/util.go: callbacks that run once. */
  class Callbacks {
    var funcs: map<string, Callback>

    constructor ()
      ensures funcs == map[]
    {
      funcs := map[];
    }

    method Add(id: string, fn: Callback)
      modifies this
      ensures funcs == old(funcs)[id := fn]
    {
      funcs := funcs[id := fn];
    }

    /** The callback to run, if there is one to run. */
    method Pop(id: string) returns (fn: Option<Callback>)
      modifies this
      ensures funcs == old(funcs) - {id}
      ensures fn == if id in old(funcs) && old(funcs)[id].Fn? then Some(old(funcs)[id]) else None
    {
      if id !in funcs {
        assert funcs - {id} == funcs;
        return None;
      }
      fn := if funcs[id].Fn? then Some(funcs[id]) else None;
      funcs := funcs - {id};
    }
  }

  /** The connection of a control request. */
  class RawConn {
    var raw: Raw

    constructor ()
      ensures raw == Http
    {
      raw := Http;
    }
  }

  class Server {
    const lib: Library
    const cfg: ServerConfig
    const virtualHosts: VirtualHosts.Storage
    const controls: Controls
    const onConnect: Callbacks
    const onDisconnect: Callbacks
    var sessions: map<string, SessionId>
    var states: map<string, ClientState>
    var changes: seq<Change>
    var called: seq<(string, Callback)>
    ghost var listeners: map<ControlId, Listener>

    ghost function Model(): State
      reads this, virtualHosts, controls, onConnect, onDisconnect
    {
      State(virtualHosts.mapping, sessions, map id | id in controls.table :: controls.table[id].token, states,
            listeners, onConnect.funcs, onDisconnect.funcs, changes, called)
    }

    ghost predicate Valid()
      reads this, virtualHosts, controls, onConnect, onDisconnect, controls.table.Values
    {
      && onConnect != onDisconnect
      && virtualHosts.Valid()
      && forall id :: id in controls.table ==> !controls.table[id].closed && controls.table[id].identifier == id
    }

    constructor (lib: Library, cfg: ServerConfig)
      ensures Valid() && Model() == EMPTY
      ensures fresh(virtualHosts) && fresh(controls) && fresh(onConnect) && fresh(onDisconnect)
      ensures this.lib == lib && this.cfg == cfg
    {
      this.lib, this.cfg := lib, cfg;
      virtualHosts := new VirtualHosts.Storage();
      controls := new Controls();
      onConnect := new Callbacks();
      onDisconnect := new Callbacks();
      sessions, states, changes, called, listeners := map[], map[], [], [], map[];
    }

    method ChangeState(id: string, current: ClientState, error: Option<Failure>) returns (previous: ClientState)
      modifies this`states, this`changes
      ensures previous == StateOf(old(Model()), id)
      ensures Model() == Registry.ChangeState(old(Model()), id, current, error)
    {
      previous := if id in states then states[id] else Unknown;
      states := states[id := current];
      changes := changes + [Change(id, previous, current, error)];
    }

    method DidConnect(id: string)
      requires onConnect != onDisconnect
      modifies this`states, this`changes, this`called, onConnect
      ensures Model() == Registry.OnConnect(old(Model()), id)
    {
      var fn := onConnect.Pop(id);
      if fn.Some? {
        called := called + [(id, fn.value)];
      }
      var _ := ChangeState(id, Connected, None);
    }

    method DidDisconnect(id: string, why: Failure)
      requires onConnect != onDisconnect
      modifies this`states, this`changes, this`called, onDisconnect
      ensures Model() == Registry.OnDisconnect(old(Model()), id, why)
    {
      var fn := onDisconnect.Pop(id);
      if fn.Some? {
        called := called + [(id, fn.value)];
      }
      var _ := ChangeState(id, Closed, Some(why));
    }

    method DeleteSession(id: string)
      requires virtualHosts.Valid()
      modifies this`sessions, virtualHosts
      ensures virtualHosts.Valid() && Model() == Registry.DeleteSession(old(Model()), id)
    {
      if id !in sessions {
        return;
      }
      sessions := sessions - {id};
      var vh, host := virtualHosts.GetVirtualHost(id);
      if vh.Some? {
        virtualHosts.DeleteHost(host);
      }
    }

    /** newControl, addControl and the start of the listener. */
    method SetUpControl(id: string, ctl: ControlId)
      requires Valid()
      modifies this`listeners, controls
      ensures Valid()
      ensures Model() == old(Model()).(controls := old(Model()).controls[id := ctl],
                                       listeners := old(listeners)[ctl := Listener(id, Spawned)])
    {
      ghost var was := Model();
      var ct := new Control(ctl);
      controls.AddControl(id, ct);
      listeners := listeners[ctl := Listener(id, Spawned)];
      assert Model().controls == was.controls[id := ctl];
    }

    /** controlHandler's answer to a control that is already there. */
    method RemoveStale(id: string, ct: Control)
      requires Valid() && id in controls.table && controls.table[id] == ct
      modifies this`sessions, virtualHosts, controls, ct`closed
      ensures Valid() && ct.closed
      ensures Model() == Registry.DeleteSession(old(Model()).(controls := old(Model()).controls - {id}), id)
    {
      ghost var was := Model();
      ct.Close();
      controls.DeleteControl(id);
      assert Model().controls == was.controls - {id};
      DeleteSession(id);
    }

    /** The end of controlHandler: what it deferred once the session was stored runs on an error. */
    method RunDeferred(conn: RawConn, id: string, deferred: bool, err: Option<Failure>)
      requires Valid()
      modifies this`sessions, virtualHosts, conn
      ensures Valid()
      ensures (Model(), conn.raw, err) == Return(Progress(old(Model()), old(conn.raw), deferred), id, err)
    {
      if deferred && err.Some? {
        DeleteSession(id);
        conn.raw := Shut;
      }
    }

    /** controlHandler from the hijack on. */
    method Handshake(conn: RawConn, id: string, out: Outcome, session: SessionId, ctl: ControlId)
      returns (err: Option<Failure>)
      requires Valid()
      modifies this`sessions, this`listeners, virtualHosts, controls, conn
      ensures Valid()
      ensures (Model(), conn.raw, err)
              == Registry.Handshake(Progress(old(Model()), Taken, false), id, out, session, ctl)
    {
      conn.raw := Taken;
      if FailsBeforeSession(out) {
        err := Some(AfterHijack);
        RunDeferred(conn, id, false, err);
        return;
      }
      sessions := sessions[id := session];
      if FailsAfterSession(out) {
        err := Some(AfterHijack);
      } else {
        SetUpControl(id, ctl);
        err := None;
      }
      RunDeferred(conn, id, true, err);
    }

    /** controlHandler once the host is claimed. */
    method ControlHandler(conn: RawConn, id: string, out: Outcome, session: SessionId, ctl: ControlId)
      returns (err: Option<Failure>)
      requires Valid() && conn.raw == Http
      modifies this`sessions, this`listeners, virtualHosts, controls, controls.table.Values, conn
      ensures Valid()
      ensures (Model(), conn.raw, err) == Registry.ControlHandler(old(Model()), id, out, session, ctl)
    {
      var _, found := virtualHosts.GetHost(id);
      if !found {
        return Some(NoHost);
      }
      var ct := controls.GetControl(id);
      if ct != null {
        RemoveStale(id, ct);
        return Some(ControlExists);
      }
      if NotHijacked(out) {
        return Some(CannotHijack);
      }
      err := Handshake(conn, id, out, session, ctl);
    }

    /** The tests of checkConnect, before it touches any table. */
    method JudgeRequest(req: ControlRequest) returns (v: Verdict)
      ensures v == Judge(lib, cfg, req)
    {
      if req.httpMethod != cfg.controlMethod {
        return Refused(WrongMethod);
      }
      var known := CheckIdentifier(cfg.allowedClients, req.identifier);
      if !known {
        return Refused(UnknownClient);
      }
      if req.signature != lib.sign(req.identifier, cfg.signatureKey) {
        return Refused(BadSignature);
      }
      if req.body.None? {
        return Refused(BadConfig);
      }
      var allowed := CheckHost(lib, cfg.allowedHosts, req.body.value.domain);
      if !allowed {
        return Refused(BadHost);
      }
      var rules := ConvertRules(lib, req.body.value.rewrite);
      return if rules.None? then Refused(BadRewriteRule) else Admitted(req.body.value.domain, rules.value);
    }

    method ReportFailure(conn: RawConn, id: string, err: Failure) returns (reply: Reply)
      requires Valid()
      modifies this`states, this`changes, this`called, onDisconnect
      ensures Valid()
      ensures Model() == if id != "" then Registry.OnDisconnect(old(Model()), id, err) else old(Model())
      ensures reply == if err == AfterHijack then Dropped(conn.raw == Shut) else HttpError(BAD_GATEWAY)
    {
      if id != "" {
        DidDisconnect(id, err);
      }
      return if err == AfterHijack then Dropped(conn.raw == Shut) else HttpError(BAD_GATEWAY);
    }

    method CheckConnect(conn: RawConn, req: ControlRequest, out: Outcome, session: SessionId, ctl: ControlId)
      returns (reply: Reply)
      requires Valid() && conn.raw == Http
      modifies this, virtualHosts, controls, controls.table.Values, onDisconnect, conn
      ensures Valid()
      ensures (Model(), reply) == Connect(lib, cfg, old(Model()), req, out, session, ctl)
    {
      var v := JudgeRequest(req);
      if v.Refused? {
        return HttpError(Status(v.why));
      }
      var claimed := virtualHosts.AddHost(v.domain, req.identifier, v.rules);
      if !claimed {
        return HttpError(HOST_IN_USE);
      }
      var err := ControlHandler(conn, req.identifier, out, session, ctl);
      if err.None? {
        return Tunnel;
      }
      reply := ReportFailure(conn, req.identifier, err.value);
    }

    /** The part of listenControl before its loop. */
    method ListenerStart(ct: Control)
      requires Valid()
      modifies this, onConnect
      ensures Valid()
      ensures Model() == ListenerStarts(old(Model()), old(ct.identifier), ct.token)
    {
      listeners := listeners[ct.token := Listener(ct.identifier, Listening)];
      DidConnect(ct.identifier);
    }

    /** The part of listenControl that follows a message that cannot be decoded. */
    method ListenerEnd(ct: Control)
      requires Valid()
      modifies this, ct`closed, virtualHosts, controls, onDisconnect
      ensures Valid() && ct.closed
      ensures Model() == ListenerEnds(old(Model()), old(ct.identifier), ct.token)
    {
      ghost var was := Model();
      var id := ct.identifier;
      ct.Close();
      controls.DeleteControl(id);
      listeners := listeners - {ct.token};
      assert Model().controls == was.controls - {id};
      DeleteSession(id);
      DidDisconnect(id, ConnectionLost);
    }

    /** dial until it waits for the client's stream. */
    method Dial(id: string, writes: bool) returns (reply: DialReply)
      requires Valid()
      modifies controls, controls.table.Values
      ensures Valid()
      ensures (Model(), reply) == Registry.Dial(old(Model()), id, writes)
      ensures reply == NoControl <==> id !in old(controls.table)
      ensures reply == NoSession <==> id in old(controls.table) && id !in sessions
      ensures reply == SendFailed <==> id in old(controls.table) && id in sessions && !writes
      ensures reply.Asked? <==> id in old(controls.table) && id in sessions && writes
      ensures reply.Asked? ==> reply.session == sessions[id]
      ensures controls.table == if reply == SendFailed then old(controls.table) - {id} else old(controls.table)
      ensures reply == SendFailed ==> old(controls.table)[id].closed
    {
      ghost var was := Model();
      var ct := controls.GetControl(id);
      if ct == null {
        return NoControl;
      }
      if id !in sessions {
        return NoSession;
      }
      var sent := ct.Send(writes);
      if !sent {
        ct.Close();
        controls.DeleteControl(id);
        assert Model().controls == was.controls - {id};
        return SendFailed;
      }
      return Asked(sessions[id]);
    }
  }
}
