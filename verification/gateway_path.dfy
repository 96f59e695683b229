/** Reading a proxied path back: the gateway path format is unambiguous
    for cluster names without `/`, so the cluster name and the stripped
    original path can be recovered from the rewritten path. */
module GatewayPath {
  import opened Wrappers
  import opened Strings
  import opened RoundTripper

  /** The cluster name and the stripped original path of a proxied path, or
      `None` when `path` is not of the proxied form. */
  function ParseProxyPath(api: GatewayApi, path: string): Option<(string, string)>
  {
    var prefix := ProxyPrefix(api);
    if prefix <= path then ParseClusterSegment(path[|prefix|..]) else None
  }

  /** Splits `<name>/proxy/<stripped>` at its first `/`. */
  function ParseClusterSegment(rest: string): Option<(string, string)>
  {
    match IndexOf(rest, '/')
    case None => None
    case Some(k) =>
      if "/proxy/" <= rest[k..] then Some((rest[..k], rest[k + 7..])) else None
  }

  /** The first `/` after a name without `/` is the one that ends it. */
  lemma FirstSlashEndsName(name: string, suffix: string)
    requires '/' !in name
    requires |suffix| > 0 && suffix[0] == '/'
    ensures IndexOf(name + suffix, '/') == Some(|name|)
  {
    var s := name + suffix;
    assert s[|name|] == '/';
    assert forall j :: 0 <= j < |name| ==> s[j] == name[j];
  }

  lemma ParseClusterSegmentRoundTrip(name: string, stripped: string)
    requires '/' !in name
    ensures ParseClusterSegment(name + ("/proxy/" + stripped)) == Some((name, stripped))
  {
    var rest := name + ("/proxy/" + stripped);
    FirstSlashEndsName(name, "/proxy/" + stripped);
    assert rest[|name|..] == "/proxy/" + stripped;
    assert "/proxy/" <= rest[|name|..];
    assert rest[..|name|] == name;
    assert rest[|name| + 7..] == stripped;
  }

  /** Parsing a rewritten path gives back the cluster name and the original
      path with one leading `/` removed. */
  lemma ParseFormatRoundTrip(api: GatewayApi, name: string, path: string)
    requires '/' !in name
    ensures ParseProxyPath(api, FormatProxyUrl(api, name, path)) == Some((name, TrimPrefix(path, "/")))
  {
    var stripped := TrimPrefix(path, "/");
    var prefix := ProxyPrefix(api);
    var rest := name + ("/proxy/" + stripped);
    assert (prefix + rest)[|prefix|..] == rest;
    ParseClusterSegmentRoundTrip(name, stripped);
  }

  /** Whatever parses is exactly a rewritten path: a cluster name without `/`
      followed by the stripped path. */
  lemma ParseSound(api: GatewayApi, path: string)
    requires ParseProxyPath(api, path).Some?
    ensures var (name, stripped) := ParseProxyPath(api, path).value;
            && '/' !in name
            && path == ProxyPath(api, name, stripped)
  {
  }

  /** Two accepted requests are proxied to the same path only when they name
      the same cluster (without `/`) and the same stripped path. */
  lemma FormatInjective(api: GatewayApi, n1: string, p1: string, n2: string, p2: string)
    requires '/' !in n1 && '/' !in n2
    requires FormatProxyUrl(api, n1, p1) == FormatProxyUrl(api, n2, p2)
    ensures n1 == n2 && TrimPrefix(p1, "/") == TrimPrefix(p2, "/")
  {
    ParseFormatRoundTrip(api, n1, p1);
    ParseFormatRoundTrip(api, n2, p2);
  }

  /** Without the `/`-free restriction the format is ambiguous: the source
      does not validate cluster names, and a name containing `/proxy/` yields
      the same path as a shorter name with a longer original path. */
  lemma SlashInNameAmbiguous(api: GatewayApi)
    ensures FormatProxyUrl(api, "a/proxy/b", "c") == FormatProxyUrl(api, "a", "b/proxy/c")
  {
    assert !("/" <= "c") by { assert "c"[0] != '/'; }
    assert !("/" <= "b/proxy/c") by { assert "b/proxy/c"[0] != '/'; }
    assert "a/proxy/b" + ("/proxy/" + "c") == "a" + ("/proxy/" + "b/proxy/c");
  }
}
