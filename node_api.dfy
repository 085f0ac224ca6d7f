/** api/node.go: loading one cluster node's status, configuration and interfaces. */
module NodeApi {
  import opened Common
  import opened Records
  import opened NsxGateway

  /** One interface record: whatever the two per-interface reads return. Their errors
      are dropped, so a failed read contributes the record it came back with. */
  function InterfaceOf(gw: Gateway, nodeID: string, interfaceID: string): Interface {
    Interface(gw.interfaceConfig(nodeID, interfaceID).0, gw.interfaceStats(nodeID, interfaceID).0)
  }

  /** The interface records of the listed ids, in list order. */
  function InterfacesOf(gw: Gateway, nodeID: string, ids: seq<string>): (r: seq<Interface>)
    ensures |r| == |ids|
    decreases |ids|
  {
    if ids == [] then [] else InterfacesOf(gw, nodeID, ids[..|ids| - 1]) + [InterfaceOf(gw, nodeID, ids[|ids| - 1])]
  }

  /** What `GetClusterNodeInfo` returns: status, configuration and interface list in that
      order, the first failure ending it. */
  function NodeInfoOf(gw: Gateway, nodeID: string): Result<NodeInfo> {
    match gw.nodeStatus(nodeID)
    case Err(e) => Err(e)
    case Ok(status) =>
      match gw.nodeConfig(nodeID)
      case Err(e) => Err(e)
      case Ok(config) =>
        match gw.nodeInterfaces(nodeID)
        case Err(e) => Err(e)
        case Ok(ids) => Ok(NodeInfo(InterfacesOf(gw, nodeID, ids), config, status))
  }

  /** The node record holds the status and configuration calls' results and one interface
      per listed id, in list order; it fails exactly when one of the three calls fails,
      with the first failure's error. */
  lemma {:induction false} NodeInfoShape(gw: Gateway, nodeID: string)
    ensures NodeInfoOf(gw, nodeID).Ok? <==>
            gw.nodeStatus(nodeID).Ok? && gw.nodeConfig(nodeID).Ok? && gw.nodeInterfaces(nodeID).Ok?
    ensures gw.nodeStatus(nodeID).Err? ==> NodeInfoOf(gw, nodeID) == Err(gw.nodeStatus(nodeID).error)
    ensures NodeInfoOf(gw, nodeID).Ok? ==>
            var info := NodeInfoOf(gw, nodeID).value;
            var ids := gw.nodeInterfaces(nodeID).value;
            && info.status == gw.nodeStatus(nodeID).value
            && info.config == gw.nodeConfig(nodeID).value
            && |info.interfaces| == |ids|
            && forall i :: 0 <= i < |ids| ==> info.interfaces[i] == InterfaceOf(gw, nodeID, ids[i])
  {
    if NodeInfoOf(gw, nodeID).Ok? {
      InterfacesPointwise(gw, nodeID, gw.nodeInterfaces(nodeID).value);
    }
  }

  lemma {:induction false} InterfacesPointwise(gw: Gateway, nodeID: string, ids: seq<string>)
    ensures forall i :: 0 <= i < |ids| ==> InterfacesOf(gw, nodeID, ids)[i] == InterfaceOf(gw, nodeID, ids[i])
    decreases |ids|
  {
    if ids != [] {
      var init := ids[..|ids| - 1];
      InterfacesPointwise(gw, nodeID, init);
      assert forall i :: 0 <= i < |init| ==> init[i] == ids[i];
    }
  }

  /** `GetClusterNodeInfo`: status, then configuration, then the interface list, each
      failure returning at once; then one record per listed interface. The loop cannot
      fail: its two checks test the list call's error, already known to be nil. */
  method GetClusterNodeInfo(gw: Gateway, nodeID: string) returns (r: Result<NodeInfo>)
    ensures r == NodeInfoOf(gw, nodeID)
  {
    var status := gw.nodeStatus(nodeID);
    if status.Err? {
      return Err(status.error);
    }
    var config := gw.nodeConfig(nodeID);
    if config.Err? {
      return Err(config.error);
    }
    var interfaces := gw.nodeInterfaces(nodeID);
    if interfaces.Err? {
      return Err(interfaces.error);
    }
    var ids := interfaces.value;
    var res: seq<Interface> := [];
    var i := 0;
    while i < |ids|
      invariant 0 <= i <= |ids|
      invariant res == InterfacesOf(gw, nodeID, ids[..i])
    {
      assert ids[..i + 1][..i] == ids[..i];
      var cfg := gw.interfaceConfig(nodeID, ids[i]);
      var stats := gw.interfaceStats(nodeID, ids[i]);
      res := res + [Interface(cfg.0, stats.0)];
      i := i + 1;
    }
    assert ids[..i] == ids;
    return Ok(NodeInfo(res, config.value, status.value));
  }
}
