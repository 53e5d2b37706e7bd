/** The single-proxy update (biz/master/proxy/update_proxy_config.go):
    validate, resolve the record for the server, take exactly one proxy,
    recompute its HTTP load-balancer group, merge it into the record's
    proxies by name, and hand the merged config to the whole-config update. */
module ProxyUpdate {
  import opened Model
  import opened Tunnel

  /** The request of `UpdateProxyConfig`. */
  datatype ProxyRequest = ProxyRequest(clientId: string, serverId: string, config: Bytes)

  /** Where the single-proxy update stands before the hand-off: it stopped (with
      the client map materialization left), or it is ready to call the
      whole-config update with `frpc`, built from the `merged` config. */
  datatype Plan =
    | Abort(clients: ClientMap, why: Failure)
    | Handoff(clients: ClientMap, frpc: FrpcRequest, merged: ClientConfig)

  // ---------------------------------------------------------------------------
  // Merging one proxy into a list by name

  /** The proxies whose name differs from `name`, in their order (`lo.Filter`). */
  function WithoutName(ps: seq<ProxyConfig>, name: string): (r: seq<ProxyConfig>)
    ensures |r| <= |ps|
    ensures forall p :: p in r ==> p in ps && p.name != name
    ensures forall p :: p in ps && p.name != name ==> p in r
  {
    if ps == [] then []
    else (if ps[0].name != name then [ps[0]] else []) + WithoutName(ps[1..], name)
  }

  /** Replace every same-named proxy by `p`, placed last. */
  function MergeProxy(ps: seq<ProxyConfig>, p: ProxyConfig): (r: seq<ProxyConfig>)
    ensures |r| >= 1 && r[|r| - 1] == p
    ensures forall i :: 0 <= i < |r| - 1 ==> r[i].name != p.name
    ensures forall q :: q in ps && q.name != p.name ==> q in r
    ensures forall q :: q in r ==> q == p || (q in ps && q.name != p.name)
  {
    WithoutName(ps, p.name) + [p]
  }

  /** No two proxies share a name. */
  predicate DistinctNames(ps: seq<ProxyConfig>)
  {
    forall i, j :: 0 <= i < j < |ps| ==> ps[i].name != ps[j].name
  }

  /** Filtering distributes over concatenation: the kept proxies stay in order. */
  lemma {:induction false} WithoutNameAppend(a: seq<ProxyConfig>, b: seq<ProxyConfig>, name: string)
    ensures WithoutName(a + b, name) == WithoutName(a, name) + WithoutName(b, name)
  {
    if a == [] {
      assert a + b == b;
    } else {
      var head := if a[0].name != name then [a[0]] else [];
      assert (a + b)[0] == a[0];
      assert (a + b)[1..] == a[1..] + b;
      WithoutNameAppend(a[1..], b, name);
      calc {
        WithoutName(a + b, name);
        head + WithoutName(a[1..] + b, name);
        head + (WithoutName(a[1..], name) + WithoutName(b, name));
        (head + WithoutName(a[1..], name)) + WithoutName(b, name);
        WithoutName(a, name) + WithoutName(b, name);
      }
    }
  }

  /** Filtering a list that holds no proxy of that name changes nothing. */
  lemma {:induction false} WithoutNameAbsent(ps: seq<ProxyConfig>, name: string)
    requires forall i :: 0 <= i < |ps| ==> ps[i].name != name
    ensures WithoutName(ps, name) == ps
  {
    if ps != [] {
      WithoutNameAbsent(ps[1..], name);
    }
  }

  /** Filtering keeps pairwise distinct names distinct. */
  lemma {:induction false} WithoutNameDistinct(ps: seq<ProxyConfig>, name: string)
    requires DistinctNames(ps)
    ensures DistinctNames(WithoutName(ps, name))
  {
    if ps != [] {
      WithoutNameDistinct(ps[1..], name);
      var rest := WithoutName(ps[1..], name);
      if ps[0].name != name {
        forall q | q in rest ensures q.name != ps[0].name {
          var k :| 0 <= k < |ps[1..]| && ps[1..][k] == q;
          assert ps[k + 1] == q;
        }
        var r := [ps[0]] + rest;
        forall i, j | 0 <= i < j < |r| ensures r[i].name != r[j].name {
          if i > 0 {
            assert r[i] == rest[i - 1] && r[j] == rest[j - 1];
          } else {
            assert r[j] == rest[j - 1] && r[j] in rest;
          }
        }
      }
    }
  }

  /** The merge keeps names pairwise distinct. */
  lemma MergeKeepsNamesDistinct(ps: seq<ProxyConfig>, p: ProxyConfig)
    requires DistinctNames(ps)
    ensures DistinctNames(MergeProxy(ps, p))
  {
    WithoutNameDistinct(ps, p.name);
  }

  /** Merging the same proxy twice is merging it once. */
  lemma MergeIdempotent(ps: seq<ProxyConfig>, p: ProxyConfig)
    ensures MergeProxy(MergeProxy(ps, p), p) == MergeProxy(ps, p)
  {
    var kept := WithoutName(ps, p.name);
    assert MergeProxy(ps, p) == kept + [p];
    WithoutNameAppend(kept, [p], p.name);
    assert forall i :: 0 <= i < |kept| ==> kept[i].name != p.name by {
      forall i | 0 <= i < |kept| ensures kept[i].name != p.name {
        assert kept[i] in kept;
      }
    }
    WithoutNameAbsent(kept, p.name);
    assert WithoutName([p], p.name) == [] by {
      assert [p][1..] == [];
    }
    calc {
      MergeProxy(kept + [p], p);
      WithoutName(kept + [p], p.name) + [p];
      (WithoutName(kept, p.name) + WithoutName([p], p.name)) + [p];
      (kept + []) + [p];
      { assert kept + [] == kept; }
      kept + [p];
    }
  }

  /** A proxy whose name is new is simply appended. */
  lemma MergeNewName(ps: seq<ProxyConfig>, p: ProxyConfig)
    requires forall i :: 0 <= i < |ps| ==> ps[i].name != p.name
    ensures MergeProxy(ps, p) == ps + [p]
  {
    WithoutNameAbsent(ps, p.name);
  }

  /** Merging into a concatenation merges into both parts: the proxies that
      are kept keep their original order. */
  lemma MergeKeepsOrder(a: seq<ProxyConfig>, b: seq<ProxyConfig>, p: ProxyConfig)
    ensures MergeProxy(a + b, p) == WithoutName(a, p.name) + WithoutName(b, p.name) + [p]
  {
    WithoutNameAppend(a, b, p.name);
  }

  // ---------------------------------------------------------------------------
  // The worker load-balancer group of an HTTP proxy

  /** The worker id: set only when the annotations are non-empty and both the
      ingress and the worker-id annotation are non-empty. */
  function WorkerId(annotations: map<string, string>): (w: string)
    ensures w != "" <==>
      && FrpProxyAnnotationsKeyIngress in annotations && annotations[FrpProxyAnnotationsKeyIngress] != ""
      && FrpProxyAnnotationsKeyWorkerId in annotations && annotations[FrpProxyAnnotationsKeyWorkerId] != ""
    ensures w != "" ==> w == annotations[FrpProxyAnnotationsKeyWorkerId]
  {
    if |annotations| > 0
       && Lookup(annotations, FrpProxyAnnotationsKeyIngress) != ""
       && |Lookup(annotations, FrpProxyAnnotationsKeyWorkerId)| > 0
    then Lookup(annotations, FrpProxyAnnotationsKeyWorkerId)
    else ""
  }

  /** `UpdateWorkerLoadBalancerGroup`: the proxy is rebuilt as an HTTP proxy
      through the `msg.NewProxy` round trip. With a worker id (taken from the
      annotations of the proxy as parsed) the group key is the id and the group
      is derived from the id and the rebuilt proxy; without one the rebuilt
      proxy is returned. Everything but the load balancer is the round trip's. */
  function UpdateWorkerLoadBalancerGroup(env: Collaborators, p: ProxyConfig): (r: ProxyConfig)
    ensures r.(loadBalancer := env.viaNewProxyMsg(p).loadBalancer) == env.viaNewProxyMsg(p)
    ensures WorkerId(p.annotations) != "" ==>
      r.loadBalancer == LoadBalancer(env.httpIngressLBGroup(WorkerId(p.annotations), env.viaNewProxyMsg(p)), WorkerId(p.annotations))
    ensures WorkerId(p.annotations) == "" ==> r == env.viaNewProxyMsg(p)
  {
    var workerId := WorkerId(p.annotations);
    var httpProxyCfg := env.viaNewProxyMsg(p);
    if |workerId| > 0 then
      httpProxyCfg.(loadBalancer := LoadBalancer(env.httpIngressLBGroup(workerId, httpProxyCfg), workerId))
    else httpProxyCfg
  }

  /** The proxy as it is merged: HTTP proxies go through the worker
      load-balancer step, every other type is taken as parsed. */
  function PrepareProxy(env: Collaborators, p: ProxyConfig): (r: ProxyConfig)
    ensures p.proxyType == ProxyTypeHttp ==> r == UpdateWorkerLoadBalancerGroup(env, p)
    ensures p.proxyType != ProxyTypeHttp ==> r == p
  {
    if p.proxyType == ProxyTypeHttp then UpdateWorkerLoadBalancerGroup(env, p) else p
  }

  /** The status code of the single-proxy update's response: SUCCESS on
      success; every refusal, including one passed on from the whole-config
      update, is a bare error with no response. */
  function ProxyResponseCode(r: Reply): (c: Option<RespCode>)
    ensures r.Done? <==> c == Some(RespSuccess)
    ensures r.Rejected? <==> c == None
  {
    if r.Done? then Some(RespSuccess) else None
  }

  // ---------------------------------------------------------------------------
  // The single-proxy update

  /** The record to work on. A record bound to another server is
      replaced by the child of its origin for the requested server. */
  function ProxyTarget(env: Collaborators, clients: ClientMap, clientId: string, serverId: string): (r: Resolution)
    ensures clientId !in clients ==> r == Resolution(clients, Err(ClientNotFound))
    ensures clientId in clients && clients[clientId].serverId == serverId ==>
      r == Resolution(clients, Ok(clients[clientId]))
    ensures clientId in clients && clients[clientId].serverId != serverId ==>
      var origin := clients[clientId].originClientId;
      if origin !in clients then r == Resolution(clients, Err(OriginNotFound))
      else
        var m := env.childClientForServer(clients, serverId, clients[origin]);
        r == if m.None? then Resolution(clients, Err(NoChildClient)) else Resolution(m.value.clients, Ok(m.value.record))
  {
    if clientId !in clients then Resolution(clients, Err(ClientNotFound))
    else if clients[clientId].serverId == serverId then Resolution(clients, Ok(clients[clientId]))
    else if clients[clientId].originClientId !in clients then Resolution(clients, Err(OriginNotFound))
    else
      var m := env.childClientForServer(clients, serverId, clients[clients[clientId].originClientId]);
      if m.None? then Resolution(clients, Err(NoChildClient))
      else Resolution(m.value.clients, Ok(m.value.record))
  }

  /** The single-proxy update up to the hand-off, as one function of the store. */
  function ProxyPlan(env: Collaborators, clients: ClientMap, servers: ServerMap, req: ProxyRequest): (plan: Plan)
    ensures req.clientId == "" || req.serverId == "" || |req.config| == 0 ==> plan == Abort(clients, RequestInvalid)
    ensures plan.Handoff? ==>
      && req.clientId != "" && req.serverId != "" && |req.config| > 0
      && req.serverId in servers
      && plan.frpc.serverId == req.serverId
      && env.loadProxies(req.config).Some? && |env.loadProxies(req.config).value| == 1
    ensures plan.Abort? ==>
      plan.clients == clients || plan.clients == ProxyTarget(env, clients, req.clientId, req.serverId).clients
  {
    if req.clientId == "" || req.serverId == "" || |req.config| == 0 then Abort(clients, RequestInvalid)
    else
      var res := ProxyTarget(env, clients, req.clientId, req.serverId);
      if res.target.Err? then Abort(res.clients, res.target.why)
      else if req.serverId !in servers then Abort(res.clients, ServerNotFound)
      else if !env.fillClientConfig(res.target.value) then Abort(res.clients, ProxyEntityFailed)
      else
        var parsed := env.loadProxies(req.config);
        if parsed.None? then Abort(res.clients, ProxiesUnreadable)
        else if |parsed.value| != 1 then Abort(res.clients, NotExactlyOneProxy)
        else MergePlan(env, res.clients, res.target.value, PrepareProxy(env, parsed.value[0]), req)
  }

  /** The merge step: index the proxy, merge it into the stored config, serialize. */
  function MergePlan(env: Collaborators, clients: ClientMap, target: ClientEntity, p: ProxyConfig, req: ProxyRequest): (plan: Plan)
    ensures plan.clients == clients
    ensures plan.Handoff? ==>
      && env.indexProxy(target, req.clientId, p)
      && env.storedClientConfig(target.configContent).Some?
      && var stored := env.storedClientConfig(target.configContent).value;
      && plan.merged == stored.(proxies := MergeProxy(stored.proxies, p))
      && plan.frpc.clientId == target.clientId && plan.frpc.serverId == req.serverId
      && plan.frpc.comment == Some(target.comment) && plan.frpc.frpsUrl == target.frpsUrl
  {
    if !env.indexProxy(target, req.clientId, p) then Abort(clients, ProxyIndexFailed)
    else
      var stored := env.storedClientConfig(target.configContent);
      if stored.None? then Abort(clients, ClientConfigUnreadable)
      else
        var merged := stored.value.(proxies := MergeProxy(stored.value.proxies, p));
        var content := env.setConfigContent(merged);
        if content.None? then Abort(clients, SetConfigFailed)
        else
          var raw := env.marshalJsonConfig(target.(configContent := content.value));
          if raw.None? then Abort(clients, MarshalJsonFailed)
          else Handoff(clients, FrpcRequest(target.clientId, req.serverId, raw.value, Some(target.comment), target.frpsUrl), merged)
  }

  /** The reply of the single-proxy update once the whole-config update answered. */
  function HandoffReply(r: Reply): (h: Reply)
    ensures h.Done? <==> r.Done?
    ensures r.Rejected? ==> h == Rejected(HandoffFailed(r.why))
  {
    if r.Done? then Done else Rejected(HandoffFailed(r.why))
  }

  /** The reply of the whole single-proxy update, from the store it starts
      from: the plan's reason on an abort, otherwise the reply to the
      whole-config update on the handed-off request. */
  function ProxyUpdateReply(env: Collaborators, clients: ClientMap, servers: ServerMap, user: UserInfo, req: ProxyRequest): (r: Reply)
    ensures r.Done? ==> ProxyPlan(env, clients, servers, req).Handoff?
    ensures req.clientId == "" || req.serverId == "" || |req.config| == 0 ==> r == Rejected(RequestInvalid)
  {
    var plan := ProxyPlan(env, clients, servers, req);
    if plan.Abort? then Rejected(plan.why)
    else HandoffReply(UpdateFrpcEffect(env, plan.clients, servers, user, plan.frpc).reply)
  }

  /** `UpdateProxyConfig`: works on the request step by step, reassigning the
      record it targets and rebuilding that record's proxies, then hands the
      merged config to the whole-config update. */
  method UpdateProxyConfig(st: Store, env: Collaborators, user: UserInfo, req: ProxyRequest) returns (r: Reply)
    modifies st
    ensures var plan := ProxyPlan(env, old(st.clients), old(st.servers), req);
      && (plan.Abort? ==> r == Rejected(plan.why) && st.clients == plan.clients && st.pushes == old(st.pushes))
      && (plan.Handoff? ==>
            var e := UpdateFrpcEffect(env, plan.clients, old(st.servers), user, plan.frpc);
            r == HandoffReply(e.reply) && st.clients == e.clients && st.pushes == old(st.pushes) + PushSeq(e.push))
    ensures r == ProxyUpdateReply(env, old(st.clients), old(st.servers), user, req)
    ensures st.servers == old(st.servers)
  {
    if req.clientId == "" || req.serverId == "" || |req.config| == 0 {
      return Rejected(RequestInvalid);
    }
    var clientId, serverId := req.clientId, req.serverId;

    if clientId !in st.clients {
      return Rejected(ClientNotFound);
    }
    var clientEntity := st.clients[clientId];
    if clientEntity.serverId != serverId {
      if clientEntity.originClientId !in st.clients {
        return Rejected(OriginNotFound);
      }
      var originClient := st.clients[clientEntity.originClientId];
      var child := env.childClientForServer(st.clients, serverId, originClient);
      if child.None? {
        return Rejected(NoChildClient);
      }
      st.clients, clientEntity := child.value.clients, child.value.record;
    }
    assert ProxyTarget(env, old(st.clients), clientId, serverId) == Resolution(st.clients, Ok(clientEntity));

    if serverId !in st.servers {
      return Rejected(ServerNotFound);
    }
    if !env.fillClientConfig(clientEntity) {
      return Rejected(ProxyEntityFailed);
    }

    var typedProxyCfgs := env.loadProxies(req.config);
    if typedProxyCfgs.None? {
      return Rejected(ProxiesUnreadable);
    }
    if |typedProxyCfgs.value| == 0 || |typedProxyCfgs.value| > 1 {
      return Rejected(NotExactlyOneProxy);
    }
    var typedProxyCfg := typedProxyCfgs.value[0];
    if typedProxyCfg.proxyType == ProxyTypeHttp {
      typedProxyCfg := UpdateWorkerLoadBalancerGroup(env, typedProxyCfg);
    }

    r := MergeAndHandOff(st, env, user, clientEntity, typedProxyCfg, req);
  }

  /** The merge and hand-off: index the proxy, rebuild the record's proxy list, and call
      the whole-config update with the record's own comment and frps URL. */
  method MergeAndHandOff(st: Store, env: Collaborators, user: UserInfo, clientEntity: ClientEntity,
                         typedProxyCfg: ProxyConfig, req: ProxyRequest) returns (r: Reply)
    modifies st
    ensures var plan := MergePlan(env, old(st.clients), clientEntity, typedProxyCfg, req);
      && (plan.Abort? ==> r == Rejected(plan.why) && st.clients == plan.clients && st.pushes == old(st.pushes))
      && (plan.Handoff? ==>
            var e := UpdateFrpcEffect(env, plan.clients, old(st.servers), user, plan.frpc);
            r == HandoffReply(e.reply) && st.clients == e.clients && st.pushes == old(st.pushes) + PushSeq(e.push))
    ensures st.servers == old(st.servers)
  {
    if !env.indexProxy(clientEntity, req.clientId, typedProxyCfg) {
      return Rejected(ProxyIndexFailed);
    }

    var oldCfg := env.storedClientConfig(clientEntity.configContent);
    if oldCfg.None? {
      return Rejected(ClientConfigUnreadable);
    }
    var cfg := oldCfg.value;
    cfg := cfg.(proxies := WithoutName(cfg.proxies, typedProxyCfg.name));
    cfg := cfg.(proxies := cfg.proxies + [typedProxyCfg]);
    var content := env.setConfigContent(cfg);
    if content.None? {
      return Rejected(SetConfigFailed);
    }
    var entity := clientEntity.(configContent := content.value);

    var rawCfg := env.marshalJsonConfig(entity);
    if rawCfg.None? {
      return Rejected(MarshalJsonFailed);
    }

    var frpcReq := FrpcRequest(entity.clientId, req.serverId, rawCfg.value, Some(entity.comment), entity.frpsUrl);
    var reply := UpdateFrpcHandler(st, env, user, frpcReq);
    return HandoffReply(reply);
  }

  // ---------------------------------------------------------------------------
  // Properties of the single-proxy update

  /** An empty client id, server id or config is refused before the store is
      read, and nothing changes. */
  lemma EmptyRequestTouchesNothing(env: Collaborators, clients: ClientMap, servers: ServerMap, req: ProxyRequest)
    requires req.clientId == "" || req.serverId == "" || |req.config| == 0
    ensures ProxyPlan(env, clients, servers, req) == Abort(clients, RequestInvalid)
  {
  }

  /** Zero or several proxy definitions are refused as an invalid config, with
      no write beyond the materialization of the target record. */
  lemma NotExactlyOneRejected(env: Collaborators, clients: ClientMap, servers: ServerMap, req: ProxyRequest)
    requires req.clientId != "" && req.serverId != "" && |req.config| > 0
    requires ProxyTarget(env, clients, req.clientId, req.serverId).target.Ok?
    requires req.serverId in servers
    requires env.fillClientConfig(ProxyTarget(env, clients, req.clientId, req.serverId).target.value)
    requires env.loadProxies(req.config).Some? && |env.loadProxies(req.config).value| != 1
    ensures ProxyPlan(env, clients, servers, req) ==
      Abort(ProxyTarget(env, clients, req.clientId, req.serverId).clients, NotExactlyOneProxy)
  {
  }

  /** What reaches the whole-config update: the target record's id, the same
      server, the record's own comment and frps URL, and a config serialized
      from the stored config whose proxies are the merge of the one parsed
      proxy and whose visitors and common settings are untouched. */
  lemma HandoffCarriesMerge(env: Collaborators, clients: ClientMap, servers: ServerMap, req: ProxyRequest)
    requires ProxyPlan(env, clients, servers, req).Handoff?
    ensures var plan := ProxyPlan(env, clients, servers, req);
      var res := ProxyTarget(env, clients, req.clientId, req.serverId);
      && res.target.Ok?
      && var target := res.target.value;
      && plan.clients == res.clients
      && env.loadProxies(req.config).Some? && |env.loadProxies(req.config).value| == 1
      && var p := PrepareProxy(env, env.loadProxies(req.config).value[0]);
      && env.storedClientConfig(target.configContent).Some?
      && var stored := env.storedClientConfig(target.configContent).value;
      && plan.merged.proxies == MergeProxy(stored.proxies, p)
      && plan.merged.visitors == stored.visitors
      && plan.merged.common == stored.common
      && plan.frpc.clientId == target.clientId
      && plan.frpc.serverId == req.serverId
      && plan.frpc.comment == Some(target.comment)
      && plan.frpc.frpsUrl == target.frpsUrl
      && env.setConfigContent(plan.merged).Some?
      && Some(plan.frpc.config) == env.marshalJsonConfig(target.(configContent := env.setConfigContent(plan.merged).value))
  {
  }

  /** If the stored proxies had pairwise distinct names, so do the merged ones,
      and the merged proxy's name occurs once, last. */
  lemma HandoffNamesDistinct(env: Collaborators, clients: ClientMap, servers: ServerMap, req: ProxyRequest)
    requires ProxyPlan(env, clients, servers, req).Handoff?
    requires var target := ProxyTarget(env, clients, req.clientId, req.serverId).target.value;
      env.storedClientConfig(target.configContent).Some? &&
      DistinctNames(env.storedClientConfig(target.configContent).value.proxies)
    ensures var merged := ProxyPlan(env, clients, servers, req).merged.proxies;
      var p := PrepareProxy(env, env.loadProxies(req.config).value[0]);
      && DistinctNames(merged)
      && merged[|merged| - 1] == p
      && forall i :: 0 <= i < |merged| - 1 ==> merged[i].name != p.name
  {
    HandoffCarriesMerge(env, clients, servers, req);
    var target := ProxyTarget(env, clients, req.clientId, req.serverId).target.value;
    MergeKeepsNamesDistinct(env.storedClientConfig(target.configContent).value.proxies,
                            PrepareProxy(env, env.loadProxies(req.config).value[0]));
  }

  /** An HTTP proxy with a worker annotation, merged into a record that has no
      proxy of its rebuilt name, ends up the only entry of that name, last,
      with the worker id as its group key. */
  lemma HttpWorkerProxyScenario(env: Collaborators, ps: seq<ProxyConfig>, p: ProxyConfig)
    requires p.proxyType == ProxyTypeHttp
    requires FrpProxyAnnotationsKeyIngress in p.annotations && p.annotations[FrpProxyAnnotationsKeyIngress] != ""
    requires FrpProxyAnnotationsKeyWorkerId in p.annotations && p.annotations[FrpProxyAnnotationsKeyWorkerId] != ""
    requires forall i :: 0 <= i < |ps| ==> ps[i].name != env.viaNewProxyMsg(p).name
    ensures var merged := MergeProxy(ps, PrepareProxy(env, p));
      && |merged| == |ps| + 1
      && merged[..|ps|] == ps
      && merged[|ps|].name == env.viaNewProxyMsg(p).name
      && merged[|ps|].loadBalancer.groupKey == p.annotations[FrpProxyAnnotationsKeyWorkerId]
  {
    MergeNewName(ps, PrepareProxy(env, p));
  }

  /** The single-proxy update answers SUCCESS exactly when it hands off and the
      whole-config update succeeds. It throws the whole-config update's
      response away, so even a refusal that update answers INVALID comes back
      with no response. */
  lemma HandoffDropsResponse(env: Collaborators, clients: ClientMap, servers: ServerMap, user: UserInfo, req: ProxyRequest)
    ensures var plan := ProxyPlan(env, clients, servers, req);
      var code := ProxyResponseCode(ProxyUpdateReply(env, clients, servers, user, req));
      var inner := if plan.Handoff? then UpdateFrpcEffect(env, plan.clients, servers, user, plan.frpc).reply else Done;
      && (code == Some(RespSuccess) <==> plan.Handoff? && inner.Done?)
      && (code != Some(RespSuccess) ==> code == None)
      && (plan.Handoff? && ResponseCode(inner) == Some(RespInvalid) ==> code == None)
  {
  }

  /** A shadow record has no origin, so in a well-formed store the single-proxy
      update cannot address a shadow on a server other than its own: the origin
      lookup under the empty id fails. */
  lemma ShadowElsewhereHasNoOrigin(env: Collaborators, clients: ClientMap, clientId: string, serverId: string)
    requires WellFormed(clients)
    requires clientId in clients && clients[clientId].originClientId == "" && clients[clientId].serverId != serverId
    ensures ProxyTarget(env, clients, clientId, serverId) == Resolution(clients, Err(OriginNotFound))
  {
  }
}
