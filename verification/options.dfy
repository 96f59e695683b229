/** The order in which the wrapper constructor applies its options: for each
    kind of option, the last one in the list is the one that takes effect. */
module OptionOrder {
  import opened Wrappers
  import opened Strings
  import opened RoundTripper

  /** The last `WithHost` in the list decides the host override, whatever
      precedes it and whatever other options follow it. */
  lemma {:induction false} LastHostWins(ops: seq<ConfigOption>, i: nat)
    requires i < |ops| && ops[i].WithHost?
    requires forall j :: i < j < |ops| ==> !ops[j].WithHost?
    ensures LastHost(ops) == Some(ops[i].newHost)
  {
    if i < |ops| - 1 {
      var init := ops[..|ops| - 1];
      assert forall j :: i < j < |init| ==> init[j] == ops[j];
      LastHostWins(init, i);
    }
  }

  /** There is no host override exactly when no `WithHost` is given. */
  lemma {:induction false} NoHostWithoutOption(ops: seq<ConfigOption>)
    ensures LastHost(ops).None? <==> forall j :: 0 <= j < |ops| ==> !ops[j].WithHost?
  {
    if |ops| > 0 {
      var init := ops[..|ops| - 1];
      NoHostWithoutOption(init);
      assert forall j :: 0 <= j < |init| ==> init[j] == ops[j];
    }
  }

  /** Whether `ops[i]` is the last `WithFilter` option in `ops`. */
  predicate IsLastFilterOption(ops: seq<ConfigOption>, i: int)
  {
    && 0 <= i < |ops|
    && ops[i].WithFilter?
    && forall j :: i < j < |ops| ==> !ops[j].WithFilter?
  }

  /** The last `WithFilter` in the list decides the filter, including a
      `WithFilter` that carries no filter and so switches filtering off. */
  lemma {:induction false} LastFilterWins(ops: seq<ConfigOption>, i: nat)
    requires IsLastFilterOption(ops, i)
    ensures LastFilter(ops) == ops[i].newFilter
  {
    if i < |ops| - 1 {
      var init := ops[..|ops| - 1];
      assert forall j :: i < j < |init| ==> init[j] == ops[j];
      LastFilterWins(init, i);
    }
  }

  /** There is no filter exactly when no `WithFilter` is given, or the last
      one given carries no filter. */
  lemma {:induction false} NoFilterWithoutOption(ops: seq<ConfigOption>)
    ensures LastFilter(ops).None? <==>
            (forall j :: 0 <= j < |ops| ==> !ops[j].WithFilter?)
            || (exists i :: IsLastFilterOption(ops, i) && ops[i].newFilter.None?)
  {
    if |ops| > 0 {
      var n := |ops| - 1;
      var init := ops[..n];
      assert forall j :: 0 <= j < |init| ==> init[j] == ops[j];
      if ops[n].WithFilter? {
        assert IsLastFilterOption(ops, n);
        forall i | IsLastFilterOption(ops, i) ensures i == n { }
      } else {
        NoFilterWithoutOption(init);
        forall i | IsLastFilterOption(init, i) ensures IsLastFilterOption(ops, i) { }
        forall i | IsLastFilterOption(ops, i) ensures IsLastFilterOption(init, i) { }
      }
    }
  }

  /** A later `WithFilter` carrying no filter switches off an earlier filter:
      a cluster the earlier filter refused is proxied again. */
  lemma ClearedFilterProxies(refuse: string -> bool, api: GatewayApi, name: string, req: Request)
    requires !refuse(name)
    ensures var c := ApplyOption(ApplyOption(NewClusterGatewayRoundTripper(), WithFilter(Some(refuse))),
                                 WithFilter(None));
            RoundTrip(c, api, Some(name), req).sent.path
              == ProxyPath(api, name, TrimPrefix(req.path, "/"))
  {
  }
}
