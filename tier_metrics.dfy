/** metrics/tier.go: the families describing one tier-0 or tier-1 gateway. Both kinds
    share one implementation; the kind only prefixes the family names. */
module GatewayMetrics {
  import opened Common
  import opened Records
  import opened Gauge
  import opened Setter
  import opened GenericMetrics
  import opened Text
  import ApiUtils

  /** The label names every gateway family starts with (id first, then name). */
  const BaseLabels: seq<string> := ["id", "name"]

  /** The label values of one edge node's series: the gateway's, then the last segment
      of the edge path and the node's HA status, empty when absent. */
  function EdgeLabels(labels: seq<string>, node: PerNodeStatus): seq<string> {
    Slice(labels, [ApiUtils.PathToID(ZeroString(node.edgePath)), ZeroString(node.highAvailabilityStatus)])
  }

  /** The edge loop of `TierMetrics.Populate`: one write of 1 per node, in order. */
  function SetEdges(g: GaugeVec, labels: seq<string>, nodes: seq<PerNodeStatus>): GaugeVec
    decreases |nodes|
  {
    if nodes == [] then g
    else SetValue(SetEdges(g, labels, nodes[..|nodes| - 1]), EdgeLabels(labels, nodes[|nodes| - 1]), 1.0)
  }

  /** After the edge loop the family holds its old series plus exactly one series of
      value 1 per node; the options are unchanged. */
  lemma {:induction false} SetEdgesWrites(g: GaugeVec, labels: seq<string>, nodes: seq<PerNodeStatus>, k: seq<string>)
    ensures SetEdges(g, labels, nodes).opts == g.opts
    ensures k in SetEdges(g, labels, nodes).values <==>
              k in g.values || exists i :: 0 <= i < |nodes| && k == EdgeLabels(labels, nodes[i])
    ensures (exists i :: 0 <= i < |nodes| && k == EdgeLabels(labels, nodes[i])) ==>
              SetEdges(g, labels, nodes).values[k] == 1.0
    ensures (forall i :: 0 <= i < |nodes| ==> k != EdgeLabels(labels, nodes[i])) && k in g.values ==>
              SetEdges(g, labels, nodes).values[k] == g.values[k]
    decreases |nodes|
  {
    if nodes != [] {
      var init := nodes[..|nodes| - 1];
      SetEdgesWrites(g, labels, init, k);
      if exists i :: 0 <= i < |init| && k == EdgeLabels(labels, init[i]) {
        var i :| 0 <= i < |init| && k == EdgeLabels(labels, init[i]);
        assert nodes[i] == init[i];
      }
      if exists i :: 0 <= i < |nodes| && k == EdgeLabels(labels, nodes[i]) {
        var i :| 0 <= i < |nodes| && k == EdgeLabels(labels, nodes[i]);
        if i < |init| { assert init[i] == nodes[i]; }
      }
    }
  }

  lemma {:induction false} SetEdgesKeepsConsistent(g: GaugeVec, labels: seq<string>, nodes: seq<PerNodeStatus>)
    requires Consistent(g) && |labels| + 2 == |g.opts.labelNames|
    ensures Consistent(SetEdges(g, labels, nodes))
    decreases |nodes|
  {
    if nodes != [] {
      SetEdgesKeepsConsistent(g, labels, nodes[..|nodes| - 1]);
      SetEdgesWrites(g, labels, nodes[..|nodes| - 1], []);
      SetKeepsConsistent(SetEdges(g, labels, nodes[..|nodes| - 1]), EdgeLabels(labels, nodes[|nodes| - 1]), 1.0);
    }
  }

  lemma {:induction false} SetEdgesSameOutside(g: GaugeVec, labels: seq<string>, nodes: seq<PerNodeStatus>)
    ensures SameOutside(g, SetEdges(g, labels, nodes), labels)
    decreases |nodes|
  {
    if nodes != [] {
      var before := SetEdges(g, labels, nodes[..|nodes| - 1]);
      SetEdgesSameOutside(g, labels, nodes[..|nodes| - 1]);
      SetSameOutside(before, EdgeLabels(labels, nodes[|nodes| - 1]), 1.0, labels);
      SameOutsideTrans(g, before, SetEdges(g, labels, nodes), labels);
    }
  }

  /** The abstract value of a `TierMetrics`: its five families. */
  datatype TierFamilies = TierFamilies(info: GaugeVec, status: GaugeVec, failure: GaugeVec, transport: GaugeVec, edge: GaugeVec)
  {
    /** Each family declares its label names and holds only series of that arity. */
    ghost predicate Declares() {
      && Declared(info, BaseLabels + ["mode"])
      && Declared(status, BaseLabels)
      && Declared(failure, BaseLabels + ["code", "message"])
      && Declared(transport, BaseLabels)
      && Declared(edge, BaseLabels + ["index", "mode"])
    }

    function All(): seq<GaugeVec> { [info, status, failure, transport, edge] }

    /** `TierMetrics.Reset`: all five families cleared. */
    function Reset(): TierFamilies {
      TierFamilies(Gauge.Reset(info), Gauge.Reset(status), Gauge.Reset(failure), Gauge.Reset(transport), Gauge.Reset(edge))
    }

    /** `TierMetrics.Populate` for the gateway labelled `labels`, in HA mode `mode`. */
    function Populate(labels: seq<string>, mode: string, state: LogicalRouterState, routerStatus: LogicalRouterStatus): TierFamilies {
      TierFamilies(
        SetValue(info, Slice(labels, [mode]), 1.0),
        SetV(status, labels, state.state, StatusInSync),
        if state.failureCode.Some?
        then SetValue(failure, Slice(labels, [FormatInt(state.failureCode.value), ZeroString(state.failureMessage)]), 1.0)
        else failure,
        SetValue(transport, labels, |state.details| as real),
        SetEdges(edge, labels, routerStatus.perNodeStatus))
    }
  }

  /** `NewTierMetrics`: the five families of a gateway kind. */
  function NewTierFamilies(namespace: string, kind: string): (r: TierFamilies)
    ensures r.Declares()
    ensures r.info.opts.name == kind + "_info" && r.status.opts.name == kind + "_status"
    ensures r.failure.opts.name == kind + "_failure" && r.transport.opts.name == kind + "_transport"
    ensures r.edge.opts.name == kind + "_edge"
  {
    var labels := BaseLabels;
    TierFamilies(
      NewGaugeVec(namespace, kind + "_info", "Give informations as label about " + kind + ", value is always 1",
                  Slice(labels, ["mode"])),
      NewGaugeVec(namespace, kind + "_status", "Give status of " + kind + ", 1 is is_sync", labels),
      NewGaugeVec(namespace, kind + "_failure", "Give failure details for " + kind + " if any, value is always 1",
                  Slice(labels, ["code", "message"])),
      NewGaugeVec(namespace, kind + "_transport", "Number of transport node associated to " + kind + " ", labels),
      NewGaugeVec(namespace, kind + "_edge",
                  "Current mode as label of edge node associated to " + kind + ", value is always 1",
                  Slice(labels, ["index", "mode"])))
  }

  /** What populating one gateway shows: `info` is 1 under the HA mode, `status` is 1
      exactly for an "in_sync" state, a failure series exists only for a present code
      (printed in decimal, with the message or ""), `transport` counts the details and
      the edge family gains the series of every node. */
  lemma PopulateWrites(f: TierFamilies, labels: seq<string>, mode: string, state: LogicalRouterState,
                       routerStatus: LogicalRouterStatus)
    ensures var r := f.Populate(labels, mode, state, routerStatus);
      && r.info == Set(f.info, labels + [mode], 1.0)
      && labels in r.status.values
      && (r.status.values[labels] == 1.0 <==> state.state == Some(StatusInSync))
      && (r.status.values[labels] == 0.0 <==> state.state != Some(StatusInSync))
      && r.transport == Set(f.transport, labels, |state.details| as real)
      && (state.failureCode.None? ==> r.failure == f.failure)
      && (state.failureCode.Some? ==>
            r.failure == Set(f.failure, labels + [FormatInt(state.failureCode.value), ZeroString(state.failureMessage)], 1.0))
      && r.edge == SetEdges(f.edge, labels, routerStatus.perNodeStatus)
  {
  }

  /** With as many label values as names, every write keeps its family consistent. */
  lemma PopulateKeepsDeclares(f: TierFamilies, labels: seq<string>, mode: string, state: LogicalRouterState,
                              routerStatus: LogicalRouterStatus)
    requires f.Declares() && |labels| == |BaseLabels|
    ensures f.Populate(labels, mode, state, routerStatus).Declares()
  {
    var r := f.Populate(labels, mode, state, routerStatus);
    SetKeepsConsistent(f.info, labels + [mode], 1.0);
    SetKeepsConsistent(f.status, labels, r.status.values[labels]);
    if state.failureCode.Some? {
      SetKeepsConsistent(f.failure, labels + [FormatInt(state.failureCode.value), ZeroString(state.failureMessage)], 1.0);
    }
    SetKeepsConsistent(f.transport, labels, |state.details| as real);
    SetEdgesKeepsConsistent(f.edge, labels, routerStatus.perNodeStatus);
    SetEdgesWrites(f.edge, labels, routerStatus.perNodeStatus, labels);
  }

  /** Populating one gateway touches only series labelled with that gateway's labels. */
  lemma PopulateSameOutside(f: TierFamilies, labels: seq<string>, mode: string, state: LogicalRouterState,
                            routerStatus: LogicalRouterStatus)
    ensures AllSameOutside(f.All(), f.Populate(labels, mode, state, routerStatus).All(), labels)
  {
    var r := f.Populate(labels, mode, state, routerStatus);
    SetSameOutside(f.info, labels + [mode], 1.0, labels);
    SetSameOutside(f.status, labels, r.status.values[labels], labels);
    if state.failureCode.Some? {
      SetSameOutside(f.failure, labels + [FormatInt(state.failureCode.value), ZeroString(state.failureMessage)], 1.0, labels);
    }
    SetSameOutside(f.transport, labels, |state.details| as real, labels);
    SetEdgesSameOutside(f.edge, labels, routerStatus.perNodeStatus);
  }

  /** A reset keeps every declaration and leaves no series. */
  lemma ResetClears(f: TierFamilies)
    requires f.Declares()
    ensures f.Reset().Declares()
    ensures AllCleared(f.Reset().All())
  {
  }

  /** The labels of a gateway: its id, then its display name. */
  function GatewayLabels(config: Tier): seq<string> {
    [config.id, config.displayName]
  }

  /** `TierMetrics`, with the kind ("tier0" or "tier1") it was created for. */
  class TierMetrics {
    const kind: string
    var info: GaugeVec
    var status: GaugeVec
    var failure: GaugeVec
    var transport: GaugeVec
    var edge: GaugeVec

    function Families(): TierFamilies
      reads this
    {
      TierFamilies(info, status, failure, transport, edge)
    }

    ghost predicate Valid()
      reads this
    {
      Families().Declares()
    }

    /** Stores a snapshot into the fields. */
    method Store(f: TierFamilies)
      modifies this
      ensures Families() == f
    {
      info, status, failure, transport, edge := f.info, f.status, f.failure, f.transport, f.edge;
    }

    /** `NewTierMetrics`; `NewTier0Metrics` and `NewTier1Metrics` pass "tier0" and "tier1". */
    constructor(namespace: string, kind: string)
      ensures Valid() && this.kind == kind && Families() == NewTierFamilies(namespace, kind)
    {
      this.kind := kind;
      new;
      Store(NewTierFamilies(namespace, kind));
    }

    /** `TierMetrics.Reset` */
    method Reset()
      requires Valid()
      modifies this
      ensures Valid() && Families() == old(Families()).Reset()
    {
      var next := TierFamilies(Gauge.Reset(info), Gauge.Reset(status), Gauge.Reset(failure),
                               Gauge.Reset(transport), Gauge.Reset(edge));
      Store(next);
    }

    /** `TierMetrics.Populate`: the four gateway-wide writes, then the loop over the
        per-node statuses. */
    method Populate(labels: seq<string>, mode: string, state: LogicalRouterState, routerStatus: LogicalRouterStatus)
      requires Valid() && |labels| == |BaseLabels|
      modifies this
      ensures Valid() && Families() == old(Families()).Populate(labels, mode, state, routerStatus)
    {
      var newFailure := failure;
      if state.failureCode.Some? {
        var failureLabels := Slice(labels, [FormatInt(ZeroInt(state.failureCode)), ZeroString(state.failureMessage)]);
        newFailure := SetValue(failure, failureLabels, 1.0);
      }
      var nodes := routerStatus.perNodeStatus;
      var newEdge := edge;
      var i := 0;
      while i < |nodes|
        invariant 0 <= i <= |nodes|
        invariant newEdge == SetEdges(edge, labels, nodes[..i])
      {
        assert nodes[..i + 1][..i] == nodes[..i];
        var id := ApiUtils.PathToID(ZeroString(nodes[i].edgePath));
        var ha := ZeroString(nodes[i].highAvailabilityStatus);
        newEdge := SetValue(newEdge, Slice(labels, [id, ha]), 1.0);
        i := i + 1;
      }
      assert nodes[..i] == nodes;
      var next := TierFamilies(
        SetValue(info, Slice(labels, [mode]), 1.0),
        SetV(status, labels, state.state, StatusInSync),
        newFailure,
        SetValue(transport, labels, |state.details| as real),
        newEdge);
      PopulateKeepsDeclares(Families(), labels, mode, state, routerStatus);
      Store(next);
    }

    /** `Tier0Metrics.Populate` and `Tier1Metrics.Populate`: the gateway's id and name
        as labels and its HA mode, empty when absent. */
    method PopulateGateway(config: Tier, state: GatewayState)
      requires Valid()
      modifies this
      ensures Valid()
      ensures Families() == old(Families()).Populate(GatewayLabels(config), ZeroString(config.haMode), state.state, state.status)
    {
      var labels := [config.id, config.displayName];
      var mode := ZeroString(config.haMode);
      Populate(labels, mode, state.state, state.status);
    }
  }
}
