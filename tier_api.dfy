/** api/tier0.go and api/tier1.go: listing tier-0 and tier-1 gateways through the
    shared cursor walk and name/ID filter, and fetching a gateway's routing state. */
module TierApi {
  import opened Common
  import opened Records
  import opened NsxGateway
  import opened Pagination

  function TierName(t: Tier): string { t.displayName }
  function TierId(t: Tier): string { t.id }

  /** `ListT0`: the tier-0 gateways of every page, kept by `t0Filters`. */
  method ListT0(gw: Gateway, t0Filters: seq<string>, ghost n: nat) returns (r: Result<seq<Tier>>)
    requires ChainEnds(gw.listT0, None, n)
    ensures r == Walk(gw.listT0, None, t0Filters, TierName, TierId, n)
  {
    r := WalkPages(gw.listT0, t0Filters, TierName, TierId, n);
  }

  /** `ListT1`: the tier-1 gateways of every page, kept by `t1Filters`. */
  method ListT1(gw: Gateway, t1Filters: seq<string>, ghost n: nat) returns (r: Result<seq<Tier>>)
    requires ChainEnds(gw.listT1, None, n)
    ensures r == Walk(gw.listT1, None, t1Filters, TierName, TierId, n)
  {
    r := WalkPages(gw.listT1, t1Filters, TierName, TierId, n);
  }

  /** When every page call succeeds, a gateway is listed exactly when some fetched page
      holds it and the filter keeps it. */
  lemma ListedTiers(list: Option<string> -> Result<Page<Tier>>, filters: seq<string>, n: nat, t: Tier)
    requires ChainEnds(list, None, n)
    requires Pages(list, None, n).Ok?
    ensures Walk(list, None, filters, TierName, TierId, n).Ok?
    ensures t in Walk(list, None, filters, TierName, TierId, n).value <==>
            && Include(t.displayName, t.id, filters)
            && exists i :: 0 <= i < |Pages(list, None, n).value| && t in Pages(list, None, n).value[i].results
  {
    WalkIsConcatenation(list, None, filters, TierName, TierId, n);
    ConcatKeptMembers(Pages(list, None, n).value, filters, TierName, TierId, t);
  }

  /** `GetT0Status`: the state record, or the call's error unchanged. */
  function GetT0Status(gw: Gateway, tierID: string): (r: Result<GatewayState>)
    ensures gw.t0State(tierID).Ok? ==> r == Ok(gw.t0State(tierID).value)
    ensures gw.t0State(tierID).Err? ==> r == Err(gw.t0State(tierID).error)
  {
    gw.t0State(tierID)
  }

  /** `GetT1Status`: the state record, or the call's error unchanged. */
  function GetT1Status(gw: Gateway, tierID: string): (r: Result<GatewayState>)
    ensures gw.t1State(tierID).Ok? ==> r == Ok(gw.t1State(tierID).value)
    ensures gw.t1State(tierID).Err? ==> r == Err(gw.t1State(tierID).error)
  {
    gw.t1State(tierID)
  }
}
