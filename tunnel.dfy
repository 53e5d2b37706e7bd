/** The whole-config update of a client (biz/master/client/update_tunnel.go):
    parse, resolve the record, check the server, choose address and port,
    apply the frps URL override, inject metadata, persist, request delivery. */
module Tunnel {
  import opened Model

  /** The request of `UpdateFrpcHander`. `comment` is None when the request
      carries no comment; `frpsUrl` is "" when it carries none. */
  datatype FrpcRequest = FrpcRequest(
    clientId: string,
    serverId: string,
    config: Bytes,
    comment: Option<string>,
    frpsUrl: string)

  datatype Result<T> = Ok(value: T) | Err(why: Failure)

  /** The client map after record resolution (materialization may have written
      to it) and the record the update then works on. */
  datatype Resolution = Resolution(clients: ClientMap, target: Result<ClientEntity>)

  /** A server that is ready: its IP and its parsed config. */
  datatype Backend = Backend(serverIp: string, conf: ServerConfig)

  /** Which frps URL, if any, overrides the server's address. */
  datatype UrlChoice = NoOverride | Override(url: string, parsed: FrpsUrl) | Invalid(url: string)

  /** Everything one whole-config update does: its reply, the client map
      afterwards, and the delivery it requests. */
  datatype Effect = Effect(reply: Reply, clients: ClientMap, push: Option<Push>)

  predicate IsStandalone(c: ClientEntity) { !c.isShadow && c.originClientId == "" }

  predicate IsChild(c: ClientEntity) { !c.isShadow && c.originClientId != "" }

  /** The failures the whole-config update can report. */
  predicate IsFrpcFailure(f: Failure)
  {
    f in {InvalidConfig, ClientNotFound, NoChildClient, ShadowWithoutConfig, CannotShadow,
          ServerNotReady, ServerConfigUnreadable, InvalidFrpsUrl, MarshalFailed}
  }

  /** The status code of the whole-config update's response: SUCCESS on
      success, INVALID for the failures the handler wraps in a response, and
      no response at all for the failures it returns as a bare error. It is
      meant for that handler's replies only, which `UpdateFrpcEffect` keeps
      within `IsFrpcFailure`; the single-proxy update has its own code. */
  function ResponseCode(r: Reply): (c: Option<RespCode>)
    ensures r.Done? <==> c == Some(RespSuccess)
    ensures c == None <==> r.Rejected? && r.why in {ShadowWithoutConfig, ServerConfigUnreadable, MarshalFailed}
  {
    match r
    case Done => Some(RespSuccess)
    case Rejected(f) =>
      if f == ShadowWithoutConfig || f == ServerConfigUnreadable || f == MarshalFailed then None
      else Some(RespInvalid)
  }

  /** Resolve the record to update. A shadow is replaced by its child for the
      server; a shadow that is still without config is refused; a standalone
      record is promoted to shadow; a child is used as it is. */
  function Resolve(env: Collaborators, clients: ClientMap, clientId: string, serverId: string): (r: Resolution)
    ensures clientId !in clients ==> r == Resolution(clients, Err(ClientNotFound))
    ensures clientId in clients && IsChild(clients[clientId]) ==>
      r == Resolution(clients, Ok(clients[clientId]))
    ensures clientId in clients && IsStandalone(clients[clientId]) ==>
      var m := env.makeClientShadowed(clients, serverId, clients[clientId]);
      r == if m.None? then Resolution(clients, Err(CannotShadow)) else Resolution(m.value.clients, Ok(m.value.record))
    ensures clientId in clients && clients[clientId].isShadow ==>
      var m := env.childClientForServer(clients, serverId, clients[clientId]);
      && (m.None? ==> r == Resolution(clients, Err(NoChildClient)))
      && (m.Some? && m.value.record.isShadow ==>
            r == Resolution(m.value.clients,
                            if |m.value.record.configContent| == 0 then Err(ShadowWithoutConfig) else Ok(m.value.record)))
      && (m.Some? && IsChild(m.value.record) ==> r == Resolution(m.value.clients, Ok(m.value.record)))
      && (m.Some? && IsStandalone(m.value.record) ==>
            var s := env.makeClientShadowed(m.value.clients, serverId, m.value.record);
            r == if s.None? then Resolution(m.value.clients, Err(CannotShadow)) else Resolution(s.value.clients, Ok(s.value.record)))
    ensures r.target.Err? && r.target.why == ShadowWithoutConfig ==> clientId in clients && clients[clientId].isShadow
  {
    if clientId !in clients then Resolution(clients, Err(ClientNotFound))
    else
      var first :=
        if clients[clientId].isShadow then env.childClientForServer(clients, serverId, clients[clientId])
        else Some(Materialized(clients, clients[clientId]));
      if first.None? then Resolution(clients, Err(NoChildClient))
      else
        var cli := first.value.record;
        if cli.isShadow && |cli.configContent| == 0 then Resolution(first.value.clients, Err(ShadowWithoutConfig))
        else if IsStandalone(cli) then
          var m := env.makeClientShadowed(first.value.clients, serverId, cli);
          if m.None? then Resolution(first.value.clients, Err(CannotShadow))
          else Resolution(m.value.clients, Ok(m.value.record))
        else Resolution(first.value.clients, Ok(cli))
  }

  /** The server is usable only with a record, an IP and a non-empty config
      that parses. */
  function ReadyServer(env: Collaborators, servers: ServerMap, serverId: string): (r: Result<Backend>)
    ensures r.Ok? <==>
      && serverId in servers && servers[serverId].serverIp != "" && |servers[serverId].configContent| > 0
      && env.loadServerConfig(servers[serverId].configContent).Some?
    ensures r.Ok? ==> r.value == Backend(servers[serverId].serverIp, env.loadServerConfig(servers[serverId].configContent).value)
    ensures r.Err? ==> r.why in {ServerNotReady, ServerConfigUnreadable}
    ensures r.Err? ==> (r.why == ServerNotReady <==>
      serverId !in servers || servers[serverId].serverIp == "" || |servers[serverId].configContent| == 0)
  {
    if serverId !in servers || servers[serverId].serverIp == "" || |servers[serverId].configContent| == 0 then
      Err(ServerNotReady)
    else
      var conf := env.loadServerConfig(servers[serverId].configContent);
      if conf.None? then Err(ServerConfigUnreadable) else Ok(Backend(servers[serverId].serverIp, conf.value))
  }

  /** The connection port chosen by the transport protocol. */
  function SelectPort(protocol: string, conf: ServerConfig): (port: int)
    ensures protocol == "kcp" ==> port == conf.kcpBindPort
    ensures protocol == "quic" ==> port == conf.quicBindPort
    ensures protocol != "kcp" && protocol != "quic" ==> port == conf.bindPort
  {
    if protocol == "kcp" then conf.kcpBindPort
    else if protocol == "quic" then conf.quicBindPort
    else conf.bindPort
  }

  /** The frps URL override: a URL in the request wins over the stored one;
      the chosen URL must validate. */
  function ChooseFrpsUrl(validate: string -> Option<FrpsUrl>, requested: string, stored: string): (r: UrlChoice)
    ensures r.NoOverride? <==> requested == "" && stored == ""
    ensures requested != "" ==> !r.NoOverride? && r.url == requested
    ensures requested == "" && stored != "" ==> !r.NoOverride? && r.url == stored
    ensures r.Override? ==> validate(r.url) == Some(r.parsed)
    ensures r.Invalid? <==> !r.NoOverride? && validate(r.url).None?
  {
    if requested != "" then
      var p := validate(requested);
      if p.Some? then Override(requested, p.value) else Invalid(requested)
    else if stored != "" then
      var p := validate(stored);
      if p.Some? then Override(stored, p.value) else Invalid(stored)
    else NoOverride
  }

  /** The metadata map as parsed: Go's nil map reads as empty. */
  function Metadatas(c: CommonConfig): map<string, string>
  {
    if c.metadatas.Some? then c.metadatas.value else map[]
  }

  /** Set the user and stamp the auth token and the requested client id into
      the metadata, creating the map when it is nil. */
  function InjectMetadata(c: CommonConfig, user: UserInfo, reqClientId: string): (r: CommonConfig)
    ensures r.user == user.userName
    ensures r.metadatas.Some?
    ensures r.metadatas.value.Keys == Metadatas(c).Keys + {FRPAuthTokenKey, FRPClientIDKey}
    ensures r.metadatas.value[FRPAuthTokenKey] == user.token
    ensures r.metadatas.value[FRPClientIDKey] == reqClientId
    ensures forall k :: k in Metadatas(c) && k != FRPAuthTokenKey && k != FRPClientIDKey ==>
      r.metadatas.value[k] == Metadatas(c)[k]
    ensures r.(user := c.user, metadatas := c.metadatas) == c
  {
    c.(user := user.userName,
       metadatas := Some(Metadatas(c)[FRPAuthTokenKey := user.token][FRPClientIDKey := reqClientId]))
  }

  /** The config that is serialized and persisted: the server's address and
      the protocol's port, then the override, then the metadata. */
  function EffectiveConfig(cfg: ClientConfig, backend: Backend, choice: UrlChoice, user: UserInfo, reqClientId: string): (r: ClientConfig)
    requires !choice.Invalid?
    ensures r.proxies == cfg.proxies && r.visitors == cfg.visitors
    ensures r.common.serverAddr == if choice.Override? then choice.parsed.hostname else backend.serverIp
    ensures r.common.serverPort ==
      if choice.Override? then choice.parsed.port else SelectPort(cfg.common.protocol, backend.conf)
    ensures r.common.protocol == if choice.Override? then choice.parsed.scheme else cfg.common.protocol
    ensures r.common.settings == cfg.common.settings
    ensures r.common == InjectMetadata(r.common.(user := cfg.common.user, metadatas := cfg.common.metadatas), user, reqClientId)
  {
    var located := cfg.common.(serverAddr := backend.serverIp, serverPort := SelectPort(cfg.common.protocol, backend.conf));
    var overridden :=
      if choice.Override? then
        located.(serverAddr := choice.parsed.hostname, serverPort := choice.parsed.port, protocol := choice.parsed.scheme)
      else located;
    cfg.(common := InjectMetadata(overridden, user, reqClientId))
  }

  /** The record as persisted: the serialized config, the server binding, the
      comment when one was sent, and the override URL when one applied. */
  function PersistedRecord(cli: ClientEntity, req: FrpcRequest, choice: UrlChoice, raw: Bytes): (r: ClientEntity)
    requires !choice.Invalid?
    ensures r.configContent == raw && r.serverId == req.serverId
    ensures r.comment == if req.comment.Some? then req.comment.value else cli.comment
    ensures r.frpsUrl == if choice.Override? then choice.url else cli.frpsUrl
    ensures r.(configContent := cli.configContent, serverId := cli.serverId, comment := cli.comment, frpsUrl := cli.frpsUrl) == cli
  {
    var withUrl := if choice.Override? then cli.(frpsUrl := choice.url) else cli;
    var persisted := withUrl.(configContent := raw, serverId := req.serverId);
    if req.comment.Some? then persisted.(comment := req.comment.value) else persisted
  }

  /** The delivery requested once the record is written: to the origin record
      of the written one, unless it is missing or stopped. */
  function DeliveryFor(clients: ClientMap, rec: ClientEntity, serverId: string, raw: Bytes): (p: Option<Push>)
    ensures p.Some? <==> rec.originClientId in clients && !clients[rec.originClientId].stopped
    ensures p.Some? ==> p.value == Push(clients[rec.originClientId].clientId, rec.clientId, serverId, raw)
  {
    if rec.originClientId in clients && !clients[rec.originClientId].stopped then
      Some(Push(clients[rec.originClientId].clientId, rec.clientId, serverId, raw))
    else None
  }

  /** The whole-config update as one function of the store it starts from. */
  function UpdateFrpcEffect(env: Collaborators, clients: ClientMap, servers: ServerMap, user: UserInfo, req: FrpcRequest): (e: Effect)
    ensures env.loadClientConfig(req.config).None? ==> e == Effect(Rejected(InvalidConfig), clients, None)
    ensures e.reply.Rejected? ==> IsFrpcFailure(e.reply.why) && e.push == None
    ensures e.reply.Rejected? ==> e.clients == clients || e.clients == Resolve(env, clients, req.clientId, req.serverId).clients
    ensures e.reply.Done? ==>
      && env.loadClientConfig(req.config).Some?
      && Resolve(env, clients, req.clientId, req.serverId).target.Ok?
      && ReadyServer(env, servers, req.serverId).Ok?
  {
    var parsed := env.loadClientConfig(req.config);
    if parsed.None? then Effect(Rejected(InvalidConfig), clients, None)
    else
      var res := Resolve(env, clients, req.clientId, req.serverId);
      if res.target.Err? then Effect(Rejected(res.target.why), res.clients, None)
      else
        var backend := ReadyServer(env, servers, req.serverId);
        if backend.Err? then Effect(Rejected(backend.why), res.clients, None)
        else FinishEffect(env, res.clients, parsed.value, res.target.value, backend.value, user, req)
  }

  /** The rest of the update once the config parsed, the record resolved and
      the server is ready: override, metadata, serialization, write, delivery. */
  function FinishEffect(env: Collaborators, clients: ClientMap, cfg: ClientConfig, cli: ClientEntity, backend: Backend,
                        user: UserInfo, req: FrpcRequest): (e: Effect)
    ensures var choice := ChooseFrpsUrl(env.validateFrpsUrl, req.frpsUrl, cli.frpsUrl);
      e.reply.Done? <==>
        !choice.Invalid? && env.marshalClientConfig(EffectiveConfig(cfg, backend, choice, user, req.clientId)).Some?
    ensures e.reply.Rejected? ==> e.clients == clients && e.push == None && e.reply.why in {InvalidFrpsUrl, MarshalFailed}
    ensures e.reply.Done? ==>
      && cli.clientId in e.clients
      && e.clients == clients[cli.clientId := e.clients[cli.clientId]]
      && e.clients[cli.clientId].serverId == req.serverId
      && e.clients[cli.clientId].originClientId == cli.originClientId
      && e.push == DeliveryFor(e.clients, e.clients[cli.clientId], req.serverId, e.clients[cli.clientId].configContent)
  {
    var choice := ChooseFrpsUrl(env.validateFrpsUrl, req.frpsUrl, cli.frpsUrl);
    if choice.Invalid? then Effect(Rejected(InvalidFrpsUrl), clients, None)
    else
      var raw := env.marshalClientConfig(EffectiveConfig(cfg, backend, choice, user, req.clientId));
      if raw.None? then Effect(Rejected(MarshalFailed), clients, None)
      else
        var rec := PersistedRecord(cli, req, choice, raw.value);
        var written := clients[rec.clientId := rec];
        Effect(Done, written, DeliveryFor(written, rec, req.serverId, raw.value))
  }

  /** Record resolution: look the record up and resolve it, letting
      identity materialization write to the store. */
  method ResolveRecord(st: Store, env: Collaborators, req: FrpcRequest) returns (target: Result<ClientEntity>)
    modifies st
    ensures Resolve(env, old(st.clients), req.clientId, req.serverId) == Resolution(st.clients, target)
    ensures st.servers == old(st.servers) && st.pushes == old(st.pushes)
  {
    if req.clientId !in st.clients {
      return Err(ClientNotFound);
    }
    var cli := st.clients[req.clientId];
    if cli.isShadow {
      var child := env.childClientForServer(st.clients, req.serverId, cli);
      if child.None? {
        return Err(NoChildClient);
      }
      st.clients, cli := child.value.clients, child.value.record;
    }
    if cli.isShadow && |cli.configContent| == 0 {
      return Err(ShadowWithoutConfig);
    }
    if !cli.isShadow && cli.originClientId == "" {
      var shadowed := env.makeClientShadowed(st.clients, req.serverId, cli);
      if shadowed.None? {
        return Err(CannotShadow);
      }
      st.clients, cli := shadowed.value.clients, shadowed.value.record;
    }
    return Ok(cli);
  }

  /** The frps URL override: when the request or the record carries an
      frps URL, validate the winning one and let it overwrite address, port and
      protocol, and store it on the record. */
  method ApplyFrpsUrl(env: Collaborators, cfg: CommonConfig, cli: ClientEntity, requested: string)
    returns (ok: bool, cfg': CommonConfig, cli': ClientEntity)
    ensures var choice := ChooseFrpsUrl(env.validateFrpsUrl, requested, cli.frpsUrl);
      && ok == !choice.Invalid?
      && (ok && choice.Override? ==>
            && cfg' == cfg.(serverAddr := choice.parsed.hostname, serverPort := choice.parsed.port, protocol := choice.parsed.scheme)
            && cli' == cli.(frpsUrl := choice.url))
      && (choice.NoOverride? ==> cfg' == cfg && cli' == cli)
  {
    ok, cfg', cli' := true, cfg, cli;
    if requested != "" || cli.frpsUrl != "" {
      var parsedUrl: Option<FrpsUrl> := None;
      var urlToParse := "";
      if requested != "" {
        parsedUrl := env.validateFrpsUrl(requested);
        if parsedUrl.None? {
          return false, cfg, cli;
        }
        urlToParse := requested;
      }
      if cli.frpsUrl != "" && parsedUrl.None? {
        parsedUrl := env.validateFrpsUrl(cli.frpsUrl);
        if parsedUrl.None? {
          return false, cfg, cli;
        }
        urlToParse := cli.frpsUrl;
      }
      cfg' := cfg'.(serverAddr := parsedUrl.value.hostname, serverPort := parsedUrl.value.port,
                    protocol := parsedUrl.value.scheme);
      cli' := cli'.(frpsUrl := urlToParse);
    }
  }

  /** `UpdateFrpcHander`: the handler works on the store step by step, updating
      the record and the config in place before writing the record back. */
  method UpdateFrpcHandler(st: Store, env: Collaborators, user: UserInfo, req: FrpcRequest) returns (r: Reply)
    modifies st
    ensures var e := UpdateFrpcEffect(env, old(st.clients), old(st.servers), user, req);
      r == e.reply && st.clients == e.clients && st.pushes == old(st.pushes) + PushSeq(e.push)
    ensures st.servers == old(st.servers)
  {
    var parsed := env.loadClientConfig(req.config);
    if parsed.None? {
      return Rejected(InvalidConfig);
    }

    var target := ResolveRecord(st, env, req);
    if target.Err? {
      return Rejected(target.why);
    }

    if req.serverId !in st.servers || st.servers[req.serverId].serverIp == ""
       || |st.servers[req.serverId].configContent| == 0 {
      return Rejected(ServerNotReady);
    }
    var srv := st.servers[req.serverId];
    var srvConf := env.loadServerConfig(srv.configContent);
    if srvConf.None? {
      return Rejected(ServerConfigUnreadable);
    }
    assert ReadyServer(env, st.servers, req.serverId) == Ok(Backend(srv.serverIp, srvConf.value));

    r := WriteRecord(st, env, parsed.value, target.value, srv.serverIp, srvConf.value, user, req);
  }

  /** The config rewrite: the server's address and the protocol's
      port, then the frps URL override, then the user and the metadata. */
  method RewriteConfig(env: Collaborators, cfg: ClientConfig, cli: ClientEntity, serverIp: string,
                       srvConf: ServerConfig, user: UserInfo, req: FrpcRequest)
    returns (ok: bool, cliCfg: ClientConfig, rec: ClientEntity)
    ensures var choice := ChooseFrpsUrl(env.validateFrpsUrl, req.frpsUrl, cli.frpsUrl);
      && ok == !choice.Invalid?
      && (ok ==> cliCfg == EffectiveConfig(cfg, Backend(serverIp, srvConf), choice, user, req.clientId))
      && (ok ==> rec == if choice.Override? then cli.(frpsUrl := choice.url) else cli)
  {
    cliCfg := cfg.(common := cfg.common.(serverAddr := serverIp));
    if cliCfg.common.protocol == "kcp" {
      cliCfg := cliCfg.(common := cliCfg.common.(serverPort := srvConf.kcpBindPort));
    } else if cliCfg.common.protocol == "quic" {
      cliCfg := cliCfg.(common := cliCfg.common.(serverPort := srvConf.quicBindPort));
    } else {
      cliCfg := cliCfg.(common := cliCfg.common.(serverPort := srvConf.bindPort));
    }

    var common;
    ok, common, rec := ApplyFrpsUrl(env, cliCfg.common, cli, req.frpsUrl);
    if !ok {
      return;
    }
    cliCfg := cliCfg.(common := common);

    cliCfg := cliCfg.(common := cliCfg.common.(user := user.userName));
    var metadatas := if cliCfg.common.metadatas.None? then map[] else cliCfg.common.metadatas.value;
    metadatas := metadatas[FRPAuthTokenKey := user.token];
    metadatas := metadatas[FRPClientIDKey := req.clientId];
    cliCfg := cliCfg.(common := cliCfg.common.(metadatas := Some(metadatas)));
  }

  /** The tail of the update: serialization, the write of the record,
      and the delivery request. */
  method WriteRecord(st: Store, env: Collaborators, cfg: ClientConfig, cli: ClientEntity, serverIp: string,
                     srvConf: ServerConfig, user: UserInfo, req: FrpcRequest) returns (r: Reply)
    modifies st
    ensures var e := FinishEffect(env, old(st.clients), cfg, cli, Backend(serverIp, srvConf), user, req);
      r == e.reply && st.clients == e.clients && st.pushes == old(st.pushes) + PushSeq(e.push)
    ensures st.servers == old(st.servers)
  {
    var ok, cliCfg, rec := RewriteConfig(env, cfg, cli, serverIp, srvConf, user, req);
    if !ok {
      return Rejected(InvalidFrpsUrl);
    }
    ghost var choice := ChooseFrpsUrl(env.validateFrpsUrl, req.frpsUrl, cli.frpsUrl);

    var rawCliConf := env.marshalClientConfig(cliCfg);
    if rawCliConf.None? {
      return Rejected(MarshalFailed);
    }

    rec := rec.(configContent := rawCliConf.value, serverId := req.serverId);
    if req.comment.Some? {
      rec := rec.(comment := req.comment.value);
    }
    assert rec == PersistedRecord(cli, req, choice, rawCliConf.value);
    st.clients := st.clients[rec.clientId := rec];

    if rec.originClientId in st.clients && !st.clients[rec.originClientId].stopped {
      var origin := st.clients[rec.originClientId];
      st.pushes := st.pushes + [Push(origin.clientId, rec.clientId, req.serverId, rawCliConf.value)];
    }
    return Done;
  }

  // ---------------------------------------------------------------------------
  // Properties of the whole-config update

  /** A config that does not parse is answered with an INVALID response. */
  lemma ParseFailureAnsweredInvalid(env: Collaborators, clients: ClientMap, servers: ServerMap, user: UserInfo, req: FrpcRequest)
    requires env.loadClientConfig(req.config).None?
    ensures ResponseCode(UpdateFrpcEffect(env, clients, servers, user, req).reply) == Some(RespInvalid)
  {
  }

  /** Which refusal leaves which client map: a parse failure, and only a parse
      failure, is refused as an invalid config and leaves the map as it was;
      every later refusal leaves the map as resolution left it. */
  lemma RejectionWritesOnlyMaterialization(env: Collaborators, clients: ClientMap, servers: ServerMap, user: UserInfo, req: FrpcRequest)
    ensures var e := UpdateFrpcEffect(env, clients, servers, user, req);
      e.reply.Rejected? ==>
        && (e.reply.why == InvalidConfig <==> env.loadClientConfig(req.config).None?)
        && e.clients == if e.reply.why == InvalidConfig then clients else Resolve(env, clients, req.clientId, req.serverId).clients
  {
  }

  /** A parsed config for a resolvable record, sent to a server that is
      missing, has no IP or has no config, is answered INVALID with no write
      beyond materialization. */
  lemma ServerNotReadyRejects(env: Collaborators, clients: ClientMap, servers: ServerMap, user: UserInfo, req: FrpcRequest)
    requires env.loadClientConfig(req.config).Some?
    requires Resolve(env, clients, req.clientId, req.serverId).target.Ok?
    requires req.serverId !in servers || servers[req.serverId].serverIp == "" || |servers[req.serverId].configContent| == 0
    ensures var e := UpdateFrpcEffect(env, clients, servers, user, req);
      && e.reply == Rejected(ServerNotReady)
      && ResponseCode(e.reply) == Some(RespInvalid)
      && e.clients == Resolve(env, clients, req.clientId, req.serverId).clients
      && e.push == None
  {
  }

  /** An override URL that does not validate is answered INVALID before the
      record is written. */
  lemma InvalidUrlRejects(env: Collaborators, clients: ClientMap, servers: ServerMap, user: UserInfo, req: FrpcRequest)
    requires env.loadClientConfig(req.config).Some?
    requires Resolve(env, clients, req.clientId, req.serverId).target.Ok?
    requires ReadyServer(env, servers, req.serverId).Ok?
    requires var cli := Resolve(env, clients, req.clientId, req.serverId).target.value;
      ChooseFrpsUrl(env.validateFrpsUrl, req.frpsUrl, cli.frpsUrl).Invalid?
    ensures var e := UpdateFrpcEffect(env, clients, servers, user, req);
      && e.reply == Rejected(InvalidFrpsUrl)
      && e.clients == Resolve(env, clients, req.clientId, req.serverId).clients
      && e.push == None
  {
  }

  /** A successful update writes exactly one record, the resolved one: its
      config is the serialized effective config, its server is the requested
      one, its comment changes only when one was sent, its frps URL becomes the
      requested URL when one was sent and is otherwise kept. Every other record
      is as resolution left it. */
  lemma SuccessWritesResolvedRecord(env: Collaborators, clients: ClientMap, servers: ServerMap, user: UserInfo, req: FrpcRequest)
    requires UpdateFrpcEffect(env, clients, servers, user, req).reply.Done?
    ensures var res := Resolve(env, clients, req.clientId, req.serverId);
      var e := UpdateFrpcEffect(env, clients, servers, user, req);
      && res.target.Ok?
      && var cli := res.target.value;
      && var rec := e.clients[cli.clientId];
      && e.clients.Keys == res.clients.Keys + {cli.clientId}
      && (forall k :: k in res.clients && k != cli.clientId ==> e.clients[k] == res.clients[k])
      && rec.serverId == req.serverId
      && rec.comment == (if req.comment.Some? then req.comment.value else cli.comment)
      && rec.frpsUrl == (if req.frpsUrl != "" then req.frpsUrl else cli.frpsUrl)
      && rec.(configContent := cli.configContent, serverId := cli.serverId, comment := cli.comment, frpsUrl := cli.frpsUrl) == cli
      && env.loadClientConfig(req.config).Some?
      && ReadyServer(env, servers, req.serverId).Ok?
      && var choice := ChooseFrpsUrl(env.validateFrpsUrl, req.frpsUrl, cli.frpsUrl);
      && !choice.Invalid?
      && Some(rec.configContent) ==
           env.marshalClientConfig(EffectiveConfig(env.loadClientConfig(req.config).value,
                                                   ReadyServer(env, servers, req.serverId).value, choice, user, req.clientId))
  {
  }

  /** Success does not depend on delivery: a successful update requests a
      delivery to the written record's origin exactly when that origin exists
      and is not stopped, carrying the persisted config. */
  lemma DeliveryUnlessStopped(env: Collaborators, clients: ClientMap, servers: ServerMap, user: UserInfo, req: FrpcRequest)
    requires UpdateFrpcEffect(env, clients, servers, user, req).reply.Done?
    ensures var e := UpdateFrpcEffect(env, clients, servers, user, req);
      var cli := Resolve(env, clients, req.clientId, req.serverId).target.value;
      var origin := cli.originClientId;
      && ResponseCode(e.reply) == Some(RespSuccess)
      && (e.push.Some? <==> origin in e.clients && !e.clients[origin].stopped)
      && (e.push.Some? ==>
            e.push.value == Push(e.clients[origin].clientId, cli.clientId, req.serverId, e.clients[cli.clientId].configContent))
  {
  }

  /** The override precedence at the level of the effective config: with both a
      requested and a stored URL the requested one decides the address, port
      and protocol; with only a stored one, the stored one does. */
  lemma OverridePrecedence(validate: string -> Option<FrpsUrl>, cfg: ClientConfig, backend: Backend, user: UserInfo,
                           reqClientId: string, requested: string, stored: string)
    requires requested != "" || stored != ""
    requires !ChooseFrpsUrl(validate, requested, stored).Invalid?
    ensures var url := if requested != "" then requested else stored;
      var c := EffectiveConfig(cfg, backend, ChooseFrpsUrl(validate, requested, stored), user, reqClientId).common;
      && validate(url).Some?
      && c.serverAddr == validate(url).value.hostname
      && c.serverPort == validate(url).value.port
      && c.protocol == validate(url).value.scheme
  {
  }

  /** In a well-formed store no record lives under the empty id, so a written
      record without an origin (a shadow, or a record promoted in place)
      requests no delivery. */
  lemma NoDeliveryWithoutOrigin(env: Collaborators, clients: ClientMap, servers: ServerMap, user: UserInfo, req: FrpcRequest)
    requires UpdateFrpcEffect(env, clients, servers, user, req).reply.Done?
    requires WellFormed(UpdateFrpcEffect(env, clients, servers, user, req).clients)
    requires Resolve(env, clients, req.clientId, req.serverId).target.value.originClientId == ""
    ensures UpdateFrpcEffect(env, clients, servers, user, req).push == None
  {
  }
}
