# Config reconciliation on the frp-panel master

This project is a Dafny model of the two master-side handlers of frp-panel. Together they rewrite a
tunnel client's configuration and request its delivery:

- `UpdateFrpcHander` (biz/master/client/update_tunnel.go) is the whole-config update. It parses the
  submitted client config and resolves the record to update: a shadow goes to its child for the
  server, and a standalone record is promoted to shadow. It then checks that the server is ready,
  picks the server address and the port the transport protocol calls for, and applies the frps URL
  override. Next it stamps the auth token and the requested client id into the metadata. Finally it
  persists the record's config, server binding and comment, and requests a delivery to the live
  client unless its origin record is stopped.
- `UpdateProxyConfig` and `UpdateWorkerLoadBalancerGroup` (biz/master/proxy/update_proxy_config.go)
  are the single-proxy update. They validate the request and resolve the record for the server.
  They require exactly one proxy definition and recompute the load-balancer group of an HTTP proxy
  from its worker annotations. They then merge the proxy into the record's stored proxies: every
  same-named proxy is dropped and the new one is appended. The merged config goes to the
  whole-config update.

Files:

- `model.dfy` (module `Model`) holds the records, the client config, the failure reasons and the
  `Store` class. The store holds the tenant's client and server records and the deliveries
  requested so far. `Collaborators` gathers the code this model does not contain as given
  functions: the config codec, the URL validator, identity materialization, the proxy-index steps
  and the load-balancer group name.
- `tunnel.dfy` (module `Tunnel`) is the whole-config update. `UpdateFrpcHandler` is a method on the
  store that updates the record and the config step by step, as the Go code does. It is proved to
  have exactly the effect of the function `UpdateFrpcEffect`, which is composed of the pure steps
  `Resolve`, `ReadyServer`, `SelectPort`, `ChooseFrpsUrl`, `InjectMetadata`, `EffectiveConfig`,
  `PersistedRecord` and `DeliveryFor`. The lemmas state the handler's promises about that function.
- `proxy.dfy` (module `ProxyUpdate`) is the single-proxy update. `UpdateProxyConfig` is a method on
  the store. It is proved to follow `ProxyPlan` up to the hand-off and then to have the effect of
  `UpdateFrpcEffect` on the handed-off request. The merge `MergeProxy` and the worker step
  `UpdateWorkerLoadBalancerGroup` are functions, with lemmas about name uniqueness, idempotence and
  order.

The model follows the code as written on these points:

- The code sends every shadow record through `ChildClientForServer`, whatever server the shadow is
  bound to. It checks "shadow with empty config" only after that call, so the check fires only when
  the call itself returns a shadow.
- A shadow with empty config, an unreadable server config and a marshal failure return a bare
  error with no response. They are not a NOT_READY status. `ResponseCode` records which failures
  carry INVALID and which carry no response. The single case in which the server config comes back
  nil with no error is listed under "Left out".
- Every refusal of the single-proxy update is a bare error with no response, including a refusal
  passed on from the whole-config update (`HandoffDropsResponse`).
- When the record's server differs from the requested one, the single-proxy update looks up the
  record's `OriginClientID`, whatever kind of record it is. A shadow has an empty origin id, so a
  shadow addressed on a server other than its own is refused as "origin not found" in a store where
  no record sits under the empty id (`ShadowElsewhereHasNoOrigin`). The single-proxy update never
  builds a child for a shadow on a new server.
- The client id stamped into the metadata is the requested id, not the id of the record that is
  actually written (which may be a child).
- The server check at update_tunnel.go:83-88 can never fire, because the check at line 76 already
  rejects a server whose config is empty. The model has the one check.

## Model

| member | source | states |
|---|---|---|
| `Tunnel.UpdateFrpcHandler` | biz/master/client/update_tunnel.go:22-215 | the handler's reply, the client map and the requested deliveries are exactly those of `UpdateFrpcEffect` on the old store; servers are never written |
| `Tunnel.ParseFailureAnsweredInvalid` | biz/master/client/update_tunnel.go:31-37 | a config that does not parse is answered with an INVALID response |
| `Tunnel.ResponseCode` | biz/master/client/update_tunnel.go:31-214 | for the whole-config update's replies: success carries SUCCESS; shadow-without-config, unreadable server config and marshal failure carry no response; every other refusal carries INVALID |
| `Tunnel.Resolve` | biz/master/client/update_tunnel.go:39-73 | a missing record is refused; a child is used unchanged with no write; a standalone record is handed to the shadow promotion; a shadow is replaced by its child for the server: refused if there is none or it is still a shadow without config, used if it is a child, and promoted to shadow if it is standalone |
| `Tunnel.ResolveRecord` | biz/master/client/update_tunnel.go:39-73 | the store after resolution and the resolved record are those `Resolve` gives; servers and deliveries are untouched |
| `Tunnel.ReadyServer` | biz/master/client/update_tunnel.go:75-94 | a server is usable exactly when it exists, has an IP and a non-empty config that parses; otherwise the reason is not-ready or an unreadable config |
| `Tunnel.ServerNotReadyRejects` | biz/master/client/update_tunnel.go:75-88 | a missing server, or one without an IP or a config, gives INVALID with no write beyond materialization and no delivery |
| `Tunnel.SelectPort` | biz/master/client/update_tunnel.go:96-104 | protocol kcp selects the KCP bind port, quic the QUIC bind port, and every other protocol the default bind port |
| `Tunnel.ChooseFrpsUrl` | biz/master/client/update_tunnel.go:106-134 | there is an override exactly when the request or the record carries a URL; the requested URL wins over the stored one; an override carries what the validator returned, and the choice is invalid exactly when the winning URL fails validation |
| `Tunnel.ApplyFrpsUrl` | biz/master/client/update_tunnel.go:106-139 | the step succeeds exactly when the choice is valid; an override sets address, port and protocol from the parsed URL and stores the URL on the record; with no URL anywhere nothing changes |
| `Tunnel.OverridePrecedence` | biz/master/client/update_tunnel.go:106-139 | with a requested URL, its host, port and scheme end up in the config; with only a stored one, the stored one's do |
| `Tunnel.InvalidUrlRejects` | biz/master/client/update_tunnel.go:113-131 | an override URL that fails validation gives INVALID before the record is written and requests no delivery |
| `Tunnel.InjectMetadata` | biz/master/client/update_tunnel.go:141-148 | the user is the caller's name; the metadata map exists; its keys are the old ones plus the two control keys; the auth-token key holds the caller's token and the client-id key the requested client id; every other key keeps its value; nothing else changes |
| `Tunnel.EffectiveConfig` | biz/master/client/update_tunnel.go:96-158 | proxies, visitors and other settings are kept; address, port and protocol are the override's when there is one, else the server IP, the protocol's port and the parsed protocol; the metadata is stamped as `InjectMetadata` states |
| `Tunnel.RewriteConfig` | biz/master/client/update_tunnel.go:96-148 | the step-by-step rewrite of the config succeeds exactly when the URL choice is valid and then yields `EffectiveConfig`, with the record's frps URL updated only under an override |
| `Tunnel.PersistedRecord` | biz/master/client/update_tunnel.go:166-171 | the written record has the serialized config and the requested server; its comment changes only when one was sent; its frps URL changes only under an override; nothing else changes |
| `Tunnel.DeliveryFor` | biz/master/client/update_tunnel.go:188-201 | a delivery is requested exactly when the record's origin exists and is not stopped; it goes to the origin's id and carries the record's id, the server and the serialized config |
| `Tunnel.FinishEffect` | biz/master/client/update_tunnel.go:106-214 | the tail of the update succeeds exactly when the URL choice is valid and the effective config serializes; a refusal (invalid URL or marshal failure) writes nothing and requests no delivery; a success writes only the resolved record, bound to the requested server with its origin kept, and requests the delivery `DeliveryFor` gives for it |
| `Tunnel.WriteRecord` | biz/master/client/update_tunnel.go:150-214 | serialization, the write of the record and the delivery request have the effect of `FinishEffect` |
| `Tunnel.SuccessWritesResolvedRecord` | biz/master/client/update_tunnel.go:160-176 | a successful update writes only the resolved record; its server is the requested one; its comment is replaced only when one was sent; its frps URL is the requested URL when one was sent and is otherwise kept; its config is the serialized effective config; every other record is as resolution left it |
| `Tunnel.UpdateFrpcEffect` | biz/master/client/update_tunnel.go:22-214 | a config that does not parse is refused with no write; every refusal is one of the whole-config update's own reasons, requests no delivery and leaves the client map unchanged or as materialization left it; success needs a parsed config, a resolved record and a ready server |
| `Tunnel.NoDeliveryWithoutOrigin` | biz/master/client/update_tunnel.go:188-199 | in a store where every record sits under its own non-empty id, a successful update of a record without an origin requests no delivery |
| `Tunnel.RejectionWritesOnlyMaterialization` | biz/master/client/update_tunnel.go:31-164 | a refusal is an invalid config exactly when the config does not parse; that refusal leaves the client map as it was, and every later refusal leaves it as resolution (identity materialization) left it |
| `Tunnel.DeliveryUnlessStopped` | biz/master/client/update_tunnel.go:188-214 | a successful update answers SUCCESS; it requests a delivery exactly when the written record's origin exists and is not stopped, to that origin, carrying the persisted config |
| `ProxyUpdate.UpdateProxyConfig` | biz/master/proxy/update_proxy_config.go:20-138 | the reply is `ProxyUpdateReply` of the old store; a refusal before the hand-off returns the plan's reason with only materialization written and no delivery; after the hand-off, the reply, client map and deliveries are those of the whole-config update on the planned request |
| `ProxyUpdate.EmptyRequestTouchesNothing` | biz/master/proxy/update_proxy_config.go:21-23 | an empty client id, server id or config is refused and the client map is untouched |
| `ProxyUpdate.ProxyTarget` | biz/master/proxy/update_proxy_config.go:31-52 | a missing record is refused; a record bound to the requested server is used unchanged; otherwise the record's origin must exist and its child for the requested server is used |
| `ProxyUpdate.ShadowElsewhereHasNoOrigin` | biz/master/proxy/update_proxy_config.go:39-45 | in a store where every record is under its own non-empty id, a record without an origin (a shadow) addressed on another server is refused because the origin is not found |
| `ProxyUpdate.NotExactlyOneRejected` | biz/master/proxy/update_proxy_config.go:71-74 | zero, or more than one, proxy definition is refused as an invalid config with no write beyond materialization |
| `ProxyUpdate.ProxyPlan` | biz/master/proxy/update_proxy_config.go:20-121 | an empty client id, server id or config aborts with the map untouched; a hand-off needs a complete request, an existing server and exactly one parsed proxy, and targets the requested server; an abort leaves the map unchanged or as materialization left it |
| `ProxyUpdate.MergePlan` | biz/master/proxy/update_proxy_config.go:82-121 | the map is not written; a hand-off needs the index step and the stored config to succeed, merges the proxy into the stored proxies with every other part of the config kept, and addresses the target record with its own comment and frps URL on the requested server |
| `ProxyUpdate.ProxyResponseCode` | biz/master/proxy/update_proxy_config.go:20-137 | success carries SUCCESS and every refusal carries no response |
| `ProxyUpdate.ProxyUpdateReply` | biz/master/proxy/update_proxy_config.go:20-137 | the single-proxy update succeeds only after a hand-off, and an empty client id, server id or config is refused as an invalid request |
| `ProxyUpdate.HandoffDropsResponse` | biz/master/proxy/update_proxy_config.go:123-137 | the single-proxy update answers SUCCESS exactly when it hands off and the whole-config update succeeds; otherwise it gives no response, even when the whole-config update answered INVALID, whose response is discarded |
| `ProxyUpdate.PrepareProxy` | biz/master/proxy/update_proxy_config.go:78-80 | a non-HTTP proxy is merged as parsed; an HTTP proxy is exactly the worker step's result |
| `ProxyUpdate.WorkerId` | biz/master/proxy/update_proxy_config.go:141-147 | a worker id is found exactly when both the ingress and the worker-id annotation are present and non-empty, and it is the worker-id annotation |
| `Model.Lookup` | biz/master/proxy/update_proxy_config.go:144 | Go's map index: a non-empty value is found exactly when the key is present with a non-empty value, and it is that value |
| `ProxyUpdate.UpdateWorkerLoadBalancerGroup` | biz/master/proxy/update_proxy_config.go:140-163 | the proxy is rebuilt through the `msg.NewProxy` round trip; with a worker id from the parsed annotations, the group key is the id and the group is the group function of the id and the rebuilt proxy; without one the rebuilt proxy is returned; everything but the load balancer is the rebuilt proxy's |
| `ProxyUpdate.WithoutName` | biz/master/proxy/update_proxy_config.go:106-108 | the result holds exactly the proxies whose name differs from the given one and is no longer than the input |
| `ProxyUpdate.WithoutNameAbsent` | biz/master/proxy/update_proxy_config.go:106-108 | filtering a list without a proxy of that name returns it unchanged |
| `ProxyUpdate.WithoutNameAppend` | biz/master/proxy/update_proxy_config.go:106-108 | filtering a concatenation is the concatenation of the filtered parts, so kept proxies keep their order |
| `ProxyUpdate.MergeProxy` | biz/master/proxy/update_proxy_config.go:106-109 | the new proxy is last and no earlier entry has its name; every old proxy of another name is kept; nothing else appears |
| `ProxyUpdate.MergeKeepsOrder` | biz/master/proxy/update_proxy_config.go:106-109 | the merged list is the old proxies of other names in their original order, followed by the new proxy |
| `ProxyUpdate.MergeNewName` | biz/master/proxy/update_proxy_config.go:106-109 | a proxy whose name is new is appended to the unchanged list |
| `ProxyUpdate.WithoutNameDistinct` | biz/master/proxy/update_proxy_config.go:106-108 | filtering keeps pairwise distinct names pairwise distinct |
| `ProxyUpdate.MergeKeepsNamesDistinct` | biz/master/proxy/update_proxy_config.go:106-109 | if the old proxy names are pairwise distinct, so are the merged ones |
| `ProxyUpdate.MergeIdempotent` | biz/master/proxy/update_proxy_config.go:106-109 | merging the same proxy twice gives the list that merging it once gives |
| `ProxyUpdate.MergeAndHandOff` | biz/master/proxy/update_proxy_config.go:82-137 | indexing, merge, serialization and the call of the whole-config update have the effect `MergePlan` and `UpdateFrpcEffect` describe; the whole-config update's refusal is passed on |
| `ProxyUpdate.HandoffCarriesMerge` | biz/master/proxy/update_proxy_config.go:101-129 | the whole-config update receives the target record's id, the same server, the record's own comment and frps URL, and the serialized stored config whose proxies are the merge of the one parsed proxy and whose visitors and common settings are untouched |
| `ProxyUpdate.HandoffNamesDistinct` | biz/master/proxy/update_proxy_config.go:106-109 | distinct stored proxy names stay distinct in the handed-off config, and the merged proxy's name appears once, last |
| `ProxyUpdate.HttpWorkerProxyScenario` | biz/master/proxy/update_proxy_config.go:78-109 | an HTTP proxy with ingress and worker annotations, merged where its rebuilt name is new, is appended last after the unchanged list, under its rebuilt name, with the worker id as its group key |
| `ProxyUpdate.HandoffReply` | biz/master/proxy/update_proxy_config.go:130-137 | the single-proxy update succeeds exactly when the whole-config update does, and passes on its refusal otherwise |

## Left out

- The delivery goroutine (update_tunnel.go:188-209) is modelled as one delivery request, appended to the store's `pushes` right after the write. The asynchrony, `rpc.CallClient`, its error and empty-response logging, and any reordering against later updates are not modelled.
- Every look-up by id is modelled as a map look-up under that id, empty or not. This covers the whole-config update's record look-up (update_tunnel.go:39), the single-proxy update's origin look-up (update_proxy_config.go:41) and the delivery goroutine's origin look-up (update_tunnel.go:190). How the query layer treats an empty id or an empty filter field (for example, whether an empty filter matches any record) is not modelled; the model's conclusions about empty ids rely on no record being stored under the empty id (`WellFormed`).
- `RebuildProxyConfigFromClient` (update_tunnel.go:177-180) rebuilds the per-proxy secondary index. The index is not modelled, and neither is that step's error path.
- Store access is modelled as map look-ups and writes that cannot fail. Persistence errors (for example `UpdateClient` at update_tunnel.go:172-175) and tenant scoping by `userInfo` are not modelled.
- The config codec (`LoadClientConfigNormal`, `json.Marshal`, `LoadProxiesFromContent`, `GetConfigContent`, `SetConfigContent`, `MarshalJSONConfig`) is a set of given functions that may fail. No round trip is claimed for them.
- The `lo.Map` projections at update_tunnel.go:150-158 drop the typed wrappers. The model's `ClientConfig` is already that canonical form, so the projections are the identity here.
- `ValidateFrpsUrl` and the `cast.ToInt` of the port are one given validator that returns scheme, host and integer port, or fails. A validator returning neither a URL nor an error (a nil dereference in Go) is not modelled.
- `ChildClientForServer` and `MakeClientShadowed` are given functions from the client map to a new client map and a record. A failed call is modelled as leaving the map unchanged. That resolving a shadow twice for one server yields the same child, and that a lineage has at most one shadow, depend on their bodies and are not claimed.
- The whole-config update's idempotence under identical input is not claimed: it rests on those materialization functions and on the codec.
- The proxy-index steps of the single-proxy update are each one given success predicate: `fillClientConfig` (update_proxy_config.go:60-64) and `indexProxy` (update_proxy_config.go:82-99). The proxy row itself is not modelled.
- The `msg.NewProxy` round trip of `UpdateWorkerLoadBalancerGroup` (`MarshalToMsg`, then `UnmarshalFromMsg` into a new `HTTPProxyConfig`) is one given function, `viaNewProxyMsg`. Which fields survive it is not modelled. `HttpIngressLBGroup` is a given function too.
- ReadyServer: `GetConfigContent` returning a nil config with no error (update_tunnel.go:90-94) makes the Go handler return neither a response nor an error, which the single-proxy update then takes as success. The model's server-config parser returns a config or fails, so that case is always the refusal `ServerConfigUnreadable`.
- `WellFormed` (each record under its own non-empty id) is not proved to be kept by an update: it depends on the materialization functions. `NoDeliveryWithoutOrigin` assumes it of the map after the update.
- The values of the `defs` keys (`FRPAuthTokenKey`, `FRPClientIDKey` and the two annotation keys) are not part of this model. The model uses placeholder strings, and its proofs rely only on the two metadata keys being distinct.
- Logging and the protobuf response messages are not modelled beyond the status code (`ResponseCode`).
- services/clientrpc/rpc_handler.go (the agent-side control channel: registration, reconnect loop, concurrent dispatch) is not part of this model. It is stream I/O and concurrency.
