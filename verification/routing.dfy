/** Properties of the routing decision and of the rewritten path that
    relate several calls or several inputs. */
module Routing {
  import opened Wrappers
  import opened Strings
  import opened RoundTripper

  /** A cluster the filter turns away is handled exactly like a request
      without a cluster name under the fallback policy. */
  lemma FilteredLikeFallback(c: Config, api: GatewayApi, name: string, req: Request)
    requires c.filter.Some? && !c.filter.value(name)
    ensures RoundTrip(c, api, Some(name), req) == RoundTrip(c.(fallback := true), api, None, req)
    ensures RoundTrip(c, api, Some(name), req) == Forwarded(req)
  {
  }

  /** The host override changes the forwarded host and nothing else: the
      decision and the forwarded path are the same with or without it. */
  lemma HostOverrideOnlyChangesHost(c: Config, api: GatewayApi, hint: Option<string>, req: Request)
    ensures var plain := RoundTrip(c.(host := None), api, hint, req);
            var overridden := RoundTrip(c, api, hint, req);
            && plain.Forwarded? == overridden.Forwarded?
            && (plain.Forwarded? ==> plain.sent == overridden.sent.(host := plain.sent.host))
            && (plain.Forwarded? ==> plain.sent.host == req.host)
  {
  }

  /** A path with or without a single leading `/` is proxied to the same place. */
  lemma LeadingSlashOptional(api: GatewayApi, name: string, path: string)
    requires !("/" <= path)
    ensures FormatProxyUrl(api, name, "/" + path) == FormatProxyUrl(api, name, path)
    ensures FormatProxyUrl(api, name, path) == ProxyPath(api, name, path)
  {
  }

  /** Only one leading `/` is removed: `//a` keeps a `/` after `proxy/`. */
  lemma OnlyOneSlashStripped(api: GatewayApi, name: string, path: string)
    ensures FormatProxyUrl(api, name, "//" + path) == ProxyPath(api, name, "/" + path)
  {
    assert "//" + path == "/" + ("/" + path);
    assert TrimPrefix("//" + path, "/") == "/" + path;
  }

  /** Routing a request that has already been rewritten, with the same
      cluster name still attached, nests the proxy prefix a second time:
      the rewrite is not idempotent. */
  lemma RepeatedRoutingNests(c: Config, api: GatewayApi, name: string, req: Request)
    requires Accepts(c, name)
    ensures var once := RoundTrip(c, api, Some(name), req).sent;
            var twice := RoundTrip(c, api, Some(name), once).sent;
            && twice.path == ProxyPath(api, name, ProxyPath(api, name, TrimPrefix(req.path, "/"))[1..])
            && |twice.path| > |once.path|
            && twice.path != once.path
  {
  }

  /** The worked example: cluster `cluster-a`, the default group and
      version, default construction, path `/api/v1/pods`. The expected path
      is written in four pieces, to be read as one string. */
  lemma PodsExample(host: string)
    ensures RoundTrip(NewClusterGatewayRoundTripper(), DefaultGatewayApi, Some("cluster-a"),
                      Request("GET", host, "/api/v1/pods", ""))
         == Forwarded(Request("GET", host,
              "/apis/cluster.core.oam.dev/" + "v1alpha1/clustergateways/" + "cluster-a/proxy/" + "api/v1/pods",
              ""))
  {
    var a := "/apis/" + "cluster.core.oam.dev" + "/";
    assert a == "/apis/cluster.core.oam.dev/";
    var b := "v1alpha1" + "/clustergateways/";
    assert b == "v1alpha1/clustergateways/";
    var c := "cluster-a" + "/proxy/";
    assert c == "cluster-a/proxy/";
    var stripped := TrimPrefix("/api/v1/pods", "/");
    assert stripped == "api/v1/pods";
    PrefixRegroup("cluster.core.oam.dev", "v1alpha1", "cluster-a", stripped);
  }

  /** `ProxyPath` regrouped into the pieces of `PodsExample`. */
  lemma PrefixRegroup(group: string, version: string, name: string, stripped: string)
    ensures ProxyPath(GatewayApi(group, version), name, stripped)
         == ("/apis/" + group + "/") + (version + "/clustergateways/") + (name + "/proxy/") + stripped
  {
  }
}
