/** The cluster-gateway round-tripper: a decorator around an HTTP transport
    that, for each outgoing request carrying a cluster name, rewrites the
    request path onto the gateway's `clustergateways/<name>/proxy` endpoint.

    The request is an immutable value. The source rewrites a clone of the
    caller's request; here the caller's `req` is an input the function cannot
    change, and the rewritten request is a new value.

    The delegate transport is the `Outcome`. `Forwarded(r)` is the one
    delegate call with request `r`, whose reply is returned as is, and
    `Rejected` is a call that never reaches the delegate. */
module RoundTripper {
  import opened Wrappers
  import opened Strings

  /** The gateway API group and version that name the proxy endpoint; they
      are configuration constants owned by another package. */
  datatype GatewayApi = GatewayApi(group: string, version: string)

  /** The group and version the gateway is published under by default. */
  const DefaultGatewayApi := GatewayApi("cluster.core.oam.dev", "v1alpha1")

  /** The parts of an outgoing request the round-tripper reads or writes,
      plus two it must carry over untouched. `host` is the request's Host
      header override (`http.Request.Host`, where empty means the URL's
      host is sent), not the address dialled; `path` is the decoded URL path
      (`URL.Path`). */
  datatype Request = Request(verb: string, host: string, path: string, rawQuery: string)

  /** Immutable after construction. `fallback` forwards requests without a
      cluster name to the hosting cluster instead of rejecting them; `host`
      overrides the Host header of proxied requests; `filter` picks the clusters that are proxied. */
  datatype Config = Config(fallback: bool, host: Option<string>, filter: Option<string -> bool>)

  /** The functional options accepted by the wrapper constructor. A filter
      option may carry no filter at all, which switches filtering off. */
  datatype ConfigOption = WithHost(newHost: string) | WithFilter(newFilter: Option<string -> bool>)

  datatype RoundTripError = MissingClusterName

  /** What the decorator does with one request: hand exactly one request to
      the delegate, or fail without calling it. */
  datatype Outcome = Forwarded(sent: Request) | Rejected(err: RoundTripError)

  /** Default construction: fall back to the hosting cluster, no host
      override, no filter. */
  function NewClusterGatewayRoundTripper(): (c: Config)
    ensures c.fallback
    ensures c.host == None && c.filter.None?
  {
    Config(true, None, None)
  }

  /** Strict construction: the caller chooses the fallback policy. */
  function NewStrictClusterGatewayRoundTripper(fallback: bool): (c: Config)
    ensures c.fallback == fallback
    ensures c.host == None && c.filter.None?
  {
    Config(fallback, None, None)
  }

  /** Applies one option; each option overwrites its own field only. */
  function ApplyOption(c: Config, op: ConfigOption): (r: Config)
    ensures r.fallback == c.fallback
    ensures op.WithHost? ==> r.host == Some(op.newHost) && r.filter == c.filter
    ensures op.WithFilter? ==> r.filter == op.newFilter && r.host == c.host
  {
    match op
    case WithHost(h) => c.(host := Some(h))
    case WithFilter(f) => c.(filter := f)
  }

  /** The host of the last `WithHost` option in `ops`, if there is one. */
  function LastHost(ops: seq<ConfigOption>): Option<string>
  {
    if |ops| == 0 then None
    else if ops[|ops| - 1].WithHost? then Some(ops[|ops| - 1].newHost)
    else LastHost(ops[..|ops| - 1])
  }

  /** The filter carried by the last `WithFilter` option in `ops`; none when
      there is no such option or when that option carries none. */
  function LastFilter(ops: seq<ConfigOption>): Option<string -> bool>
  {
    if |ops| == 0 then None
    else if ops[|ops| - 1].WithFilter? then ops[|ops| - 1].newFilter
    else LastFilter(ops[..|ops| - 1])
  }

  /** Default construction followed by the options in order: the last
      option of each kind wins, and the fallback policy stays enabled. */
  method NewClusterGatewayRoundTripperWrapper(ops: seq<ConfigOption>) returns (c: Config)
    ensures c.fallback
    ensures c.host == LastHost(ops)
    ensures c.filter == LastFilter(ops)
  {
    c := NewClusterGatewayRoundTripper();
    for i := 0 to |ops|
      invariant c.fallback
      invariant c.host == LastHost(ops[..i])
      invariant c.filter == LastFilter(ops[..i])
    {
      assert ops[..i + 1][..i] == ops[..i];
      c := ApplyOption(c, ops[i]);
    }
    assert ops[..|ops|] == ops;
  }

  /** The gateway path that proxies `originalPath` to cluster `clusterName`:
      seven segments joined by `/`, the last one the original path with one
      leading `/` removed. */
  function FormatProxyUrl(api: GatewayApi, clusterName: string, originalPath: string): (r: string)
    ensures r == ProxyPath(api, clusterName, TrimPrefix(originalPath, "/"))
  {
    JoinProxySegments(api, clusterName, TrimPrefix(originalPath, "/"));
    Join(["/apis", api.group, api.version, "clustergateways", clusterName, "proxy",
          TrimPrefix(originalPath, "/")], "/")
  }

  /** The fixed part of every proxied path, up to the cluster name. */
  function ProxyPrefix(api: GatewayApi): string
  {
    "/apis/" + api.group + "/" + api.version + "/clustergateways/"
  }

  /** The proxied path for a cluster name and an already stripped path. */
  function ProxyPath(api: GatewayApi, clusterName: string, stripped: string): string
  {
    ProxyPrefix(api) + (clusterName + ("/proxy/" + stripped))
  }

  /** Whether a request with cluster name `name` is rewritten: the
      configured filter, when there is one, must accept the name. */
  predicate Accepts(c: Config, name: string)
  {
    c.filter.None? || c.filter.value(name)
  }

  /** The routing decision for one request whose context holds the cluster
      name `hint`, if any. */
  function RoundTrip(c: Config, api: GatewayApi, hint: Option<string>, req: Request): (o: Outcome)
    ensures o.Rejected? <==> hint.None? && !c.fallback
    ensures o.Rejected? ==> o.err == MissingClusterName
    ensures (hint.None? && c.fallback) || (hint.Some? && !Accepts(c, hint.value)) ==>
              o == Forwarded(req)
    ensures hint.Some? && Accepts(c, hint.value) ==>
              && o.Forwarded?
              && o.sent.path == ProxyPath(api, hint.value, TrimPrefix(req.path, "/"))
              && o.sent.host == c.host.GetOr(req.host)
              && o.sent.verb == req.verb
              && o.sent.rawQuery == req.rawQuery
  {
    match hint
    case None =>
      if !c.fallback then Rejected(MissingClusterName) else Forwarded(req)
    case Some(name) =>
      if c.filter.Some? && !c.filter.value(name) then Forwarded(req)
      else
        var clone := req.(path := FormatProxyUrl(api, name, req.path));
        Forwarded(if c.host.Some? then clone.(host := c.host.value) else clone)
  }

  /** The seven path segments joined by `/` spell out `ProxyPath`. */
  lemma JoinProxySegments(api: GatewayApi, clusterName: string, stripped: string)
    ensures Join(["/apis", api.group, api.version, "clustergateways", clusterName, "proxy", stripped], "/")
            == ProxyPath(api, clusterName, stripped)
  {
    var parts := ["/apis", api.group, api.version, "clustergateways", clusterName, "proxy", stripped];
    assert parts[6..] == [stripped];
    JoinCons(parts[5..], "/");
    JoinCons(parts[4..], "/");
    JoinCons(parts[3..], "/");
    JoinCons(parts[2..], "/");
    JoinCons(parts[1..], "/");
    JoinCons(parts, "/");
    ProxyPathNested(api, clusterName, stripped);
  }

  /** `ProxyPath` as seven segments, each followed by `/`, grouped to the right. */
  lemma ProxyPathNested(api: GatewayApi, clusterName: string, stripped: string)
    ensures ProxyPath(api, clusterName, stripped)
            == "/apis" + ("/" + (api.group + ("/" + (api.version + ("/" + ("clustergateways"
               + ("/" + (clusterName + ("/" + ("proxy" + ("/" + stripped)))))))))))
  {
  }
}
