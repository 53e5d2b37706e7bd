/** The records the master keeps, the client configuration it rewrites, and the
    collaborators (codec, URL validator, identity materialization, proxy index)
    whose code is not part of this model. */
module Model {

  type Bytes = seq<bv8>

  datatype Option<T> = None | Some(value: T)

  /** Why a handler gave up. The first group belongs to the whole-config update,
      the second to the single-proxy update. */
  datatype Failure =
    | InvalidConfig            // the submitted client config does not parse
    | ClientNotFound           // no client record with the requested id
    | NoChildClient            // the child for the requested server could not be resolved
    | ShadowWithoutConfig      // a shadow record whose config is still empty
    | CannotShadow             // a standalone record could not be promoted to shadow
    | ServerNotReady           // server missing, without an IP or without a config
    | ServerConfigUnreadable   // the server's stored config does not parse
    | InvalidFrpsUrl           // the frps URL (requested or stored) does not validate
    | MarshalFailed            // the rewritten client config could not be serialized
    | RequestInvalid           // empty client id, server id or config
    | OriginNotFound           // the origin of a mismatched record is missing
    | ServerNotFound           // the requested server is missing
    | ProxyEntityFailed        // the proxy index entity could not be filled from the client
    | ProxiesUnreadable        // the submitted proxy definitions do not parse
    | NotExactlyOneProxy       // zero, or more than one, proxy definition
    | ProxyIndexFailed         // the proxy index row could not be read or written
    | ClientConfigUnreadable   // the record's stored config does not parse
    | SetConfigFailed          // the merged config could not be stored on the record
    | MarshalJsonFailed        // the record's config could not be rendered as JSON
    | HandoffFailed(inner: Failure) // the whole-config update refused the merged config

  /** What a handler returns: success, or the reason it stopped. */
  datatype Reply = Done | Rejected(why: Failure)

  /** The status code carried in the protobuf response, when there is a response. */
  datatype RespCode = RespSuccess | RespInvalid

  /** A client record: a standalone identity, a shadow (origin) or a child. */
  datatype ClientEntity = ClientEntity(
    clientId: string,
    serverId: string,
    isShadow: bool,
    originClientId: string,
    configContent: Bytes,
    frpsUrl: string,
    stopped: bool,
    comment: string)

  type ClientMap = map<string, ClientEntity>

  /** A server (frps) record: its address and its serialized server config. */
  datatype ServerEntity = ServerEntity(serverId: string, serverIp: string, configContent: Bytes)

  type ServerMap = map<string, ServerEntity>

  /** The listening ports of a server config: the default one and the kcp and quic ones. */
  datatype ServerConfig = ServerConfig(bindPort: int, kcpBindPort: int, quicBindPort: int)

  datatype LoadBalancer = LoadBalancer(group: string, groupKey: string)

  /** One proxy definition; `settings` stands for every type-specific field. */
  datatype ProxyConfig = ProxyConfig(
    name: string,
    proxyType: string,
    annotations: map<string, string>,
    loadBalancer: LoadBalancer,
    settings: map<string, string>)

  datatype VisitorConfig = VisitorConfig(name: string, visitorType: string, settings: map<string, string>)

  /** The common part of a client config. `metadatas` is None for Go's nil map;
      `settings` stands for every other common field. */
  datatype CommonConfig = CommonConfig(
    serverAddr: string,
    serverPort: int,
    protocol: string,
    user: string,
    metadatas: Option<map<string, string>>,
    settings: map<string, string>)

  /** A client config in the canonical form that is serialized: common settings,
      then the proxies and the visitors in order. */
  datatype ClientConfig = ClientConfig(
    common: CommonConfig,
    proxies: seq<ProxyConfig>,
    visitors: seq<VisitorConfig>)

  /** A validated frps URL: scheme, host name, and port as an integer. */
  datatype FrpsUrl = FrpsUrl(scheme: string, hostname: string, port: int)

  /** The client map after identity materialization, and the record it produced. */
  datatype Materialized = Materialized(clients: ClientMap, record: ClientEntity)

  /** The caller: the user name and the token the deployed client authenticates with. */
  datatype UserInfo = UserInfo(userName: string, token: string)

  /** A request to deliver a config to a live client (the goroutine's `rpc.CallClient`). */
  datatype Push = Push(target: string, clientId: string, serverId: string, config: Bytes)

  /** Code this model does not contain, taken as given functions. None means failure. */
  datatype Collaborators = Collaborators(
    loadClientConfig: Bytes -> Option<ClientConfig>,      // utils.LoadClientConfigNormal
    marshalClientConfig: ClientConfig -> Option<Bytes>,   // json.Marshal of the canonical form
    loadServerConfig: Bytes -> Option<ServerConfig>,      // ServerEntity.GetConfigContent
    validateFrpsUrl: string -> Option<FrpsUrl>,           // ValidateFrpsUrl, then cast.ToInt of the port
    childClientForServer: (ClientMap, string, ClientEntity) -> Option<Materialized>,
    makeClientShadowed: (ClientMap, string, ClientEntity) -> Option<Materialized>,
    fillClientConfig: ClientEntity -> bool,               // ProxyConfigEntity.FillClientConfig
    loadProxies: Bytes -> Option<seq<ProxyConfig>>,       // utils.LoadProxiesFromContent
    indexProxy: (ClientEntity, string, ProxyConfig) -> bool, // fill, look up and upsert the proxy row
    storedClientConfig: Bytes -> Option<ClientConfig>,    // ClientEntity.GetConfigContent
    setConfigContent: ClientConfig -> Option<Bytes>,      // ClientEntity.SetConfigContent
    marshalJsonConfig: ClientEntity -> Option<Bytes>,     // ClientEntity.MarshalJSONConfig
    viaNewProxyMsg: ProxyConfig -> ProxyConfig,           // MarshalToMsg, then UnmarshalFromMsg into a new HTTPProxyConfig
    httpIngressLBGroup: (string, ProxyConfig) -> string)  // models.HttpIngressLBGroup

  /** The keys of `defs`. Their values are not part of this model; only the fact
      that the two metadata keys differ is used. */
  const FRPAuthTokenKey: string := "auth-token"
  const FRPClientIDKey: string := "client-id"
  const FrpProxyAnnotationsKeyIngress: string := "ingress"
  const FrpProxyAnnotationsKeyWorkerId: string := "worker-id"

  /** v1.ProxyTypeHTTP */
  const ProxyTypeHttp: string := "http"

  /** Go's map index: the value under `k`, or the empty string when `k` is absent. */
  function Lookup(m: map<string, string>, k: string): (v: string)
    ensures v != "" <==> k in m && m[k] != ""
    ensures v != "" ==> v == m[k]
  {
    if k in m then m[k] else ""
  }

  /** Every record is stored under its own id, and no record is stored under
      the empty id. */
  predicate WellFormed(clients: ClientMap)
  {
    "" !in clients && forall k :: k in clients ==> clients[k].clientId == k
  }

  function PushSeq(p: Option<Push>): seq<Push>
  {
    if p.Some? then [p.value] else []
  }

  /** The tenant's store: client and server records, and the deliveries requested so far. */
  class Store {
    var clients: ClientMap
    var servers: ServerMap
    var pushes: seq<Push>

    constructor (clients0: ClientMap, servers0: ServerMap)
      ensures clients == clients0 && servers == servers0 && pushes == []
    {
      clients := clients0;
      servers := servers0;
      pushes := [];
    }
  }
}
