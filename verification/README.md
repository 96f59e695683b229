# Cluster-gateway round-tripper, modelled in Dafny

The cluster-gateway round-tripper wraps an HTTP transport. Each outgoing
request may carry a cluster name in its context. From that name and the
round-tripper's configuration, the round-tripper decides whether to:

- reject the request,
- forward it unchanged, or
- forward a copy whose path points at the gateway's
  `/apis/<group>/<version>/clustergateways/<name>/proxy/<path>` endpoint and
  whose Host header is optionally overridden.

The model is purely functional:

- `RoundTripper.Config` is the immutable configuration: the fallback flag, an
  optional host override and an optional `string -> bool` filter. A filter
  option may carry no filter, as a nil filter does in the source, and then
  switches filtering off.
  `RoundTripper.ConfigOption` holds the two functional options.
  `NewClusterGatewayRoundTripperWrapper` applies them in order.
- `RoundTripper.Request` is a value record with verb, host, path and raw
  query. The clone made at `roundtripper.go:94` is modelled by value
  semantics: the caller's request cannot be changed by the call, and the
  forwarded request is a separate value whose relation to the original the
  contracts state.
- The cluster name looked up from the request context is an explicit
  `Option<string>` argument.
- The delegate transport is the result datatype `Outcome`. `Forwarded(r)`
  means the delegate is called once with `r` and its reply is returned
  unchanged. `Rejected(MissingClusterName)` means the delegate is never
  called. So each request reaches the delegate at most once.
- The API group and version come from a configuration package outside this
  model. They are a `GatewayApi` parameter. `DefaultGatewayApi` holds the
  published values `cluster.core.oam.dev` and `v1alpha1`.
- `GatewayPath.ParseProxyPath` reads a proxied path back. It serves as the
  partner of the path rewrite: for cluster names without `/`, the rewritten
  path determines the cluster name and the stripped original path.

Files:

- `wrappers.dfy`: `Option`.
- `strings.dfy`: prefix trimming, joining, and first-occurrence search.
- `roundtripper.dfy`: configuration, construction, routing decision and path
  rewrite.
- `options.dfy`: the order in which options take effect.
- `routing.dfy`: properties that relate several routing calls.
- `gateway_path.dfy`: the path parser and its round trip.

## Model

| member | source | states |
|---|---|---|
| RoundTripper.RoundTrip | pkg/apis/cluster/transport/roundtripper.go:83-100 | The request is rejected with `MissingClusterName`, and the delegate is not called, exactly when there is no cluster name and fallback is off. With no name under fallback, or a name the filter refuses, the original request is forwarded unchanged. Otherwise the forwarded path is `ProxyPath(api, name, TrimPrefix(path, "/"))`. Its host is the override when one is set and the original host when not. Verb and query are carried over. |
| RoundTripper.FormatProxyUrl | pkg/apis/cluster/transport/roundtripper.go:102-112 | Joining the seven segments with `/` gives exactly `ProxyPath`, that is `/apis/<group>/<version>/clustergateways/<name>/proxy/<path without one leading />`. The name is used verbatim. |
| Strings.Join | pkg/apis/cluster/transport/roundtripper.go:104 | A join of one or more elements is as long as all elements together plus one separator between each two, and it starts with the first element. |
| Strings.JoinEndsWithLast | pkg/apis/cluster/transport/roundtripper.go:104 | A join of one or more elements ends with the last element. |
| Strings.JoinAppend | pkg/apis/cluster/transport/roundtripper.go:104 | Joining one more element appends the separator and that element to the join of the others. |
| Strings.TrimPrefix | pkg/apis/cluster/transport/roundtripper.go:103 | When the path starts with the prefix, the result is what follows that single prefix. Otherwise the path is returned unchanged. |
| RoundTripper.NewClusterGatewayRoundTripper | pkg/apis/cluster/transport/roundtripper.go:68-74 | The defaults are fallback enabled, no host override and no filter. |
| RoundTripper.NewStrictClusterGatewayRoundTripper | pkg/apis/cluster/transport/roundtripper.go:76-81 | The fallback policy is the caller's choice. There is no host override and no filter. |
| RoundTripper.ApplyOption | pkg/apis/cluster/transport/roundtripper.go:43-55 | `WithHost` sets the host override. `WithFilter` sets the filter to what it carries, which may be no filter. Each leaves the other field and the fallback flag as they were. |
| RoundTripper.NewClusterGatewayRoundTripperWrapper | pkg/apis/cluster/transport/roundtripper.go:57-66 | After default construction and in-order application of the options, fallback is on. The host is the one from the last `WithHost`, and the filter is the one from the last `WithFilter`. |
| OptionOrder.LastHostWins | pkg/apis/cluster/transport/roundtripper.go:58-66 | A `WithHost` that no later `WithHost` follows decides the host override. Earlier host options and filter options in either position do not matter. |
| OptionOrder.NoHostWithoutOption | pkg/apis/cluster/transport/roundtripper.go:44-48 | There is no host override if and only if no `WithHost` option is given. |
| OptionOrder.LastFilterWins | pkg/apis/cluster/transport/roundtripper.go:58-66 | A `WithFilter` that no later `WithFilter` follows decides the filter, including one that carries no filter. |
| OptionOrder.NoFilterWithoutOption | pkg/apis/cluster/transport/roundtripper.go:51-55 | There is no filter if and only if no `WithFilter` option is given, or the last one given carries no filter. |
| OptionOrder.ClearedFilterProxies | pkg/apis/cluster/transport/roundtripper.go:91-95 | After a filter option that refuses a cluster, a later filter option carrying no filter switches filtering off, and that cluster is proxied. |
| Routing.FilteredLikeFallback | pkg/apis/cluster/transport/roundtripper.go:85-92 | A cluster name the filter refuses gives the same outcome as a request with no name under fallback: the original request is forwarded unchanged. |
| Routing.HostOverrideOnlyChangesHost | pkg/apis/cluster/transport/roundtripper.go:94-98 | Configuring a host override changes only the forwarded host. The decision, the path and all other fields stay as without it. Without the override, the original host is kept. |
| Routing.LeadingSlashOptional | pkg/apis/cluster/transport/roundtripper.go:102-111 | A path `p` that does not start with `/` rewrites to the same path as `"/" + p`. |
| Routing.OnlyOneSlashStripped | pkg/apis/cluster/transport/roundtripper.go:103 | Only one leading `/` is removed, so `"//" + p` keeps a `/` after `proxy/`. |
| Routing.RepeatedRoutingNests | pkg/apis/cluster/transport/roundtripper.go:94-95 | Routing an already rewritten request again with the same cluster name nests the proxy prefix a second time. The path grows strictly, so the rewrite is not idempotent. |
| Routing.PodsExample | pkg/apis/cluster/transport/roundtripper.go:102-112 | With cluster `cluster-a`, the published group and version, and path `/api/v1/pods`, the forwarded path is `/apis/cluster.core.oam.dev/v1alpha1/clustergateways/cluster-a/proxy/api/v1/pods`. |
| GatewayPath.ParseFormatRoundTrip | pkg/apis/cluster/transport/roundtripper.go:102-112 | Parsing a rewritten path recovers the cluster name (when it has no `/`) and the original path without one leading `/`. |
| GatewayPath.ParseSound | pkg/apis/cluster/transport/roundtripper.go:102-112 | A path that parses is a rewritten path for the cluster name and stripped path the parser returns. |
| GatewayPath.FormatInjective | pkg/apis/cluster/transport/roundtripper.go:102-112 | Two cluster names without `/` give the same rewritten path only when the names and the stripped paths are equal. |
| GatewayPath.SlashInNameAmbiguous | pkg/apis/cluster/transport/roundtripper.go:102-112 | Cluster names are not validated, so the restriction to names without `/` is needed: cluster `a/proxy/b` with path `c` and cluster `a` with path `b/proxy/c` give the same rewritten path. |

## Left out

- `URL.Host`, the address the delegate dials, and `URL.RawPath` are not modelled. The source changes neither. `Request.host` is the Host header override (`http.Request.Host`) that the source sets, and `Request.path` is the decoded `URL.Path`.
- The delegate transport's network I/O, responses and errors. A forwarded request is an `Outcome` value and is not interpreted further.
- The cluster-name lookup from the request context (`GetMultiClusterContext`) is not part of this model. Its result is an explicit optional argument.
- The values of the API group and version are defined in a configuration package that is not part of this model. They are a parameter, and the published values appear only in `DefaultGatewayApi`.
- The cloning of the HTTP request, with its headers, body and context. The request is a value record, so the caller's original cannot change.
- The `WrapperFunc` closure and the delegate it captures. The wrapper constructor returns the resulting configuration.
- Concurrent use of the shared configuration. The model is sequential, and the configuration is immutable after construction.
- Go strings are byte sequences, but the model uses `seq<char>`. The only character inspected is the ASCII `/`, so the two agree.
