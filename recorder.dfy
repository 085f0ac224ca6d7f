/** metrics/recorder.go: one scrape. The recorder resets the families it owns, then
    records the cluster, its nodes, every load balancer with its virtual servers and
    pools, and the tier-1 and tier-0 gateways, in that order, under the stop- and
    continue-on-error rules of each stage. */
module ScrapeRecorder {
  import opened Common
  import opened Records
  import opened Gauge
  import opened Setter
  import opened NsxGateway
  import opened Pagination
  import opened Certificates
  import NodeApi
  import LoadBalancerApi
  import TierApi
  import N = ClusterNodeMetrics
  import LBM = LoadBalancerMetrics
  import VSM = VirtualServerMetrics
  import PM = PoolMetrics
  import TM = GatewayMetrics
  import GM = GenericMetrics

  /** `NSXApi` as the recorder uses it: the gateway calls, and the allow-lists of the
      configuration that the list calls apply. */
  datatype Manager = Manager(gw: Gateway, lbFilters: seq<string>, t0Filters: seq<string>, t1Filters: seq<string>)

  /** How many pages each list call walks before its cursor is nil. */
  datatype Fuel = Fuel(lbs: nat, t0s: nat, t1s: nat)

  /** Every list call of the manager reaches a nil cursor within its fuel. */
  predicate ChainsEnd(m: Manager, fuel: Fuel) {
    && ChainEnds(m.gw.listLBs, None, fuel.lbs)
    && ChainEnds(m.gw.listT0, None, fuel.t0s)
    && ChainEnds(m.gw.listT1, None, fuel.t1s)
  }

  const ScrapeErrorHelp: string := "last scrape status, 1 when error"
  const ScrapeDurationHelp: string := "Duration of Vsphere scraping in milliseconds"
  const ClusterControlHelp: string := "Cluster control status, 1 means STABLE"
  const ClusterMgmtHelp: string := "Cluster management status, 1 means STABLE"

  /** The families of a recorder: the two plain gauges as their value, the two cluster
      families, and the families of each object it points to. */
  datatype RecorderState = RecorderState(
    scrapeError: real, scrapeDuration: real, control: GaugeVec, mgmt: GaugeVec,
    node: N.NodeFamilies, interfaces: N.InterfaceFamilies,
    lb: LBM.LBFamilies, vs: VSM.VSFamilies, pool: PM.PoolFamilies,
    tier0: TM.TierFamilies, tier1: TM.TierFamilies)
  {
    ghost predicate Declares() {
      && GM.Declared(control, ["status"]) && GM.Declared(mgmt, ["status"])
      && node.Declares() && interfaces.Declares() && lb.Declares() && vs.Declares() && pool.Declares()
      && tier0.Declares() && tier1.Declares()
    }
  }

  /** What a scrape leaves, and the error `RecordMetrics` returns. */
  datatype Scrape = Scrape(state: RecorderState, err: Option<Error>)

  /** A stage that fails: scrape_error is set to 1 and its error is returned. */
  function Fail(s: RecorderState, e: Error): (r: Scrape)
    ensures r.state.scrapeError == 1.0 && r.err == Some(e)
  {
    Scrape(s.(scrapeError := 1.0), Some(e))
  }

  /** `Recorder.Reset`: the node, load-balancer, virtual-server and pool families are
      cleared and scrape_error is 0. */
  function ResetState(s: RecorderState): RecorderState {
    s.(scrapeError := 0.0, node := s.node.Reset(), interfaces := s.interfaces.Reset(),
       lb := s.lb.Reset(), vs := s.vs.Reset(), pool := s.pool.Reset())
  }

  /** The reset clears the families of nodes, interfaces, load balancers, virtual servers
      and pools (all of a pool's but its member count), and zeroes the error flag; the
      gateway families, the cluster families and the duration keep the previous
      scrape's series. */
  lemma ResetEffects(s: RecorderState)
    requires s.Declares()
    ensures var r := ResetState(s);
      && r.Declares() && r.scrapeError == 0.0
      && AllCleared(r.node.Own()) && AllCleared(r.interfaces.All()) && AllCleared(r.lb.All()) && AllCleared(r.vs.All())
      && AllCleared([r.pool.info, r.pool.alarm, r.pool.status, r.pool.memberMin] + r.pool.network.Families() + r.pool.member.All())
      && r.pool.memberCount == s.pool.memberCount
      && r.tier0 == s.tier0 && r.tier1 == s.tier1 && r.control == s.control && r.mgmt == s.mgmt
      && r.scrapeDuration == s.scrapeDuration
  {
    N.ResetClears(s.node);
    N.InterfaceResetClears(s.interfaces);
    LBM.ResetClears(s.lb);
    VSM.ResetClears(s.vs);
    PM.ResetClears(s.pool);
  }

  // ---- the cluster stage ----

  /** The two cluster families, each under its own status, 1 exactly when it is "STABLE". */
  function ClusterStage(s: RecorderState, cl: ClusterStatus): RecorderState {
    s.(control := SetValue(s.control, [cl.controlClusterStatus], StatusToValue(cl.controlClusterStatus, StatusStable)),
       mgmt := SetValue(s.mgmt, [cl.mgmtClusterStatus], StatusToValue(cl.mgmtClusterStatus, StatusStable)))
  }

  /** The cluster families hold one series per status: 1 exactly when it is "STABLE";
      every other series of the previous scrapes stays. */
  lemma ClusterStageWrites(s: RecorderState, cl: ClusterStatus)
    ensures var r := ClusterStage(s, cl);
      && (r.control.values[[cl.controlClusterStatus]] == 1.0 <==> cl.controlClusterStatus == StatusStable)
      && (r.mgmt.values[[cl.mgmtClusterStatus]] == 1.0 <==> cl.mgmtClusterStatus == StatusStable)
      && (forall k :: k in s.control.values && k != [cl.controlClusterStatus] ==> k in r.control.values && r.control.values[k] == s.control.values[k])
      && (forall k :: k in s.mgmt.values && k != [cl.mgmtClusterStatus] ==> k in r.mgmt.values && r.mgmt.values[k] == s.mgmt.values[k])
      && r.(control := s.control, mgmt := s.mgmt) == s
  {
  }

  // ---- the node stage ----

  /** What the node loop works on: the node and interface families, and whether the
      loop has set scrape_error. */
  datatype NodeScan = NodeScan(node: N.NodeFamilies, interfaces: N.InterfaceFamilies, failed: bool)

  /** The node ids of a cluster: the online nodes' uuids, then the offline nodes'. */
  function NodeIds(cl: ClusterStatus): seq<string> {
    cl.onlineNodes + cl.offlineNodes
  }

  /** The node loop: a node that cannot be fetched sets scrape_error and ends the loop;
      a node whose families cannot be populated sets it and the loop goes on. */
  function NodeLoop(ns: NodeScan, gw: Gateway, ids: seq<string>, c: Codec): NodeScan
    requires Consumes(c)
    decreases |ids|
  {
    if ids == [] then ns
    else match NodeApi.NodeInfoOf(gw, ids[0])
      case Err(_) => ns.(failed := true)
      case Ok(info) =>
        var r := N.PopulateNode(ns.node, ns.interfaces, info, c);
        NodeLoop(NodeScan(r.families, r.interfaces, ns.failed || r.err.Some?), gw, ids[1..], c)
  }

  /** One node that is fetched: its families populated, the error flag raised when that fails. */
  function NodeStep(ns: NodeScan, info: NodeInfo, c: Codec): NodeScan
    requires Consumes(c)
  {
    var r := N.PopulateNode(ns.node, ns.interfaces, info, c);
    NodeScan(r.families, r.interfaces, ns.failed || r.err.Some?)
  }

  /** Once set, the error flag stays set through the node loop. */
  lemma {:induction false} NodeLoopSticky(ns: NodeScan, gw: Gateway, ids: seq<string>, c: Codec)
    requires Consumes(c) && ns.failed
    ensures NodeLoop(ns, gw, ids, c).failed
    decreases |ids|
  {
    if ids != [] && NodeApi.NodeInfoOf(gw, ids[0]).Ok? {
      NodeLoopSticky(NodeStep(ns, NodeApi.NodeInfoOf(gw, ids[0]).value, c), gw, ids[1..], c);
    }
  }

  /** The node loop keeps every node and interface family declared. */
  lemma {:induction false} NodeLoopKeepsDeclares(ns: NodeScan, gw: Gateway, ids: seq<string>, c: Codec)
    requires Consumes(c) && ns.node.Declares() && ns.interfaces.Declares()
    ensures NodeLoop(ns, gw, ids, c).node.Declares() && NodeLoop(ns, gw, ids, c).interfaces.Declares()
    decreases |ids|
  {
    if ids != [] && NodeApi.NodeInfoOf(gw, ids[0]).Ok? {
      N.PopulateKeepsDeclares(ns.node, ns.interfaces, NodeApi.NodeInfoOf(gw, ids[0]).value, c);
      NodeLoopKeepsDeclares(NodeStep(ns, NodeApi.NodeInfoOf(gw, ids[0]).value, c), gw, ids[1..], c);
    }
  }

  /** When none of the first `i` nodes fails to be fetched, the loop runs over them and
      goes on with the rest: a node whose families cannot be populated does not stop it. */
  lemma {:induction false} NodeLoopSplit(ns: NodeScan, gw: Gateway, ids: seq<string>, c: Codec, i: nat)
    requires Consumes(c) && i <= |ids|
    requires forall j :: 0 <= j < i ==> NodeApi.NodeInfoOf(gw, ids[j]).Ok?
    ensures NodeLoop(ns, gw, ids, c) == NodeLoop(NodeLoop(ns, gw, ids[..i], c), gw, ids[i..], c)
    decreases i
  {
    if i > 0 {
      var next := NodeStep(ns, NodeApi.NodeInfoOf(gw, ids[0]).value, c);
      DropFirst(ids, i);
      NodeLoopSplit(next, gw, ids[1..], c, i - 1);
    }
  }

  /** The first node that cannot be fetched ends the loop: what the nodes before it
      left stays, the error flag is set, and no later node is fetched. */
  lemma NodeLoopBreak(ns: NodeScan, gw: Gateway, ids: seq<string>, c: Codec, i: nat)
    requires Consumes(c) && i < |ids| && NodeApi.NodeInfoOf(gw, ids[i]).Err?
    requires forall j :: 0 <= j < i ==> NodeApi.NodeInfoOf(gw, ids[j]).Ok?
    ensures NodeLoop(ns, gw, ids, c) == NodeLoop(ns, gw, ids[..i], c).(failed := true)
  {
    NodeLoopSplit(ns, gw, ids, c, i);
    assert ids[i..][0] == ids[i];
  }

  /** A node that is fetched but cannot be populated sets the error flag, and the loop
      still goes on with every later node. */
  lemma NodePopulateErrorContinues(ns: NodeScan, gw: Gateway, ids: seq<string>, c: Codec, i: nat)
    requires Consumes(c) && i < |ids|
    requires forall j :: 0 <= j <= i ==> NodeApi.NodeInfoOf(gw, ids[j]).Ok?
    requires var before := NodeLoop(ns, gw, ids[..i], c);
      N.PopulateNode(before.node, before.interfaces, NodeApi.NodeInfoOf(gw, ids[i]).value, c).err.Some?
    ensures NodeLoop(ns, gw, ids, c) == NodeLoop(NodeLoop(ns, gw, ids[..i + 1], c), gw, ids[i + 1..], c)
    ensures NodeLoop(ns, gw, ids[..i + 1], c).failed && NodeLoop(ns, gw, ids, c).failed
  {
    var prefix := ids[..i + 1];
    TakeOneMore(ids, i);
    NodeLoopSplit(ns, gw, prefix, c, i);
    assert [ids[i]][1..] == [];
    NodeLoopSplit(ns, gw, ids, c, i + 1);
    NodeLoopSticky(NodeLoop(ns, gw, prefix, c), gw, ids[i + 1..], c);
  }

  /** A loop that ends without the error flag started without it and fetched every node. */
  lemma {:induction false} NodeLoopClean(ns: NodeScan, gw: Gateway, ids: seq<string>, c: Codec)
    requires Consumes(c) && !NodeLoop(ns, gw, ids, c).failed
    ensures !ns.failed
    ensures forall j :: 0 <= j < |ids| ==> NodeApi.NodeInfoOf(gw, ids[j]).Ok?
    decreases |ids|
  {
    if ns.failed {
      NodeLoopSticky(ns, gw, ids, c);
    }
    if ids != [] && NodeApi.NodeInfoOf(gw, ids[0]).Ok? {
      var next := NodeStep(ns, NodeApi.NodeInfoOf(gw, ids[0]).value, c);
      assert NodeLoop(ns, gw, ids, c) == NodeLoop(next, gw, ids[1..], c);
      NodeLoopClean(next, gw, ids[1..], c);
      forall j | 1 <= j < |ids|
        ensures NodeApi.NodeInfoOf(gw, ids[j]).Ok?
      {
        assert ids[1..][j - 1] == ids[j];
      }
    }
  }

  // ---- the load-balancer stage ----

  /** The virtual-server loop of one load balancer. */
  function PopulateVSs(f: VSM.VSFamilies, vss: seq<VSInfo>): VSM.VSFamilies
    decreases |vss|
  {
    if vss == [] then f else PopulateVSs(f, vss[..|vss| - 1]).Populate(vss[|vss| - 1])
  }

  /** The pool loop of one load balancer. */
  function PopulatePools(f: PM.PoolFamilies, ps: seq<PoolInfo>): PM.PoolFamilies
    decreases |ps|
  {
    if ps == [] then f else PopulatePools(f, ps[..|ps| - 1]).Populate(ps[|ps| - 1])
  }

  /** The virtual-server loop keeps every family declared. */
  lemma {:induction false} PopulateVSsKeepsDeclares(f: VSM.VSFamilies, vss: seq<VSInfo>)
    requires f.Declares()
    ensures PopulateVSs(f, vss).Declares()
    decreases |vss|
  {
    if vss != [] {
      PopulateVSsKeepsDeclares(f, vss[..|vss| - 1]);
      VSM.PopulateKeepsDeclares(PopulateVSs(f, vss[..|vss| - 1]), vss[|vss| - 1]);
    }
  }

  /** The pool loop keeps every family declared. */
  lemma {:induction false} PopulatePoolsKeepsDeclares(f: PM.PoolFamilies, ps: seq<PoolInfo>)
    requires f.Declares()
    ensures PopulatePools(f, ps).Declares()
    decreases |ps|
  {
    if ps != [] {
      PopulatePoolsKeepsDeclares(f, ps[..|ps| - 1]);
      PM.PopulateKeepsDeclares(PopulatePools(f, ps[..|ps| - 1]), ps[|ps| - 1]);
    }
  }

  /** What the load-balancer loop works on. */
  datatype LBScan = LBScan(lb: LBM.LBFamilies, vs: VSM.VSFamilies, pool: PM.PoolFamilies)
  {
    ghost predicate Declares() {
      lb.Declares() && vs.Declares() && pool.Declares()
    }
  }

  /** What the load-balancer loop leaves, and its error. */
  datatype LBOutcome = LBOutcome(families: LBScan, err: Option<Error>)

  /** One load balancer whose record was fetched: it, its virtual servers and its pools. */
  function LBStep(f: LBScan, l: LBService, info: LBInfo): LBScan {
    LBScan(f.lb.Populate(l.displayName, l.id, info), PopulateVSs(f.vs, info.virtualServers), PopulatePools(f.pool, info.pools))
  }

  /** The load-balancer loop: each one's record is fetched, then it, its virtual servers
      and its pools are populated; the first fetch that fails ends the loop with its error. */
  function LBLoop(f: LBScan, gw: Gateway, lbs: seq<LBService>): LBOutcome
    decreases |lbs|
  {
    if lbs == [] then LBOutcome(f, None)
    else match LoadBalancerApi.LBInfoOf(gw, lbs[0].id)
      case Err(e) => LBOutcome(f, Some(e))
      case Ok(info) => LBLoop(LBStep(f, lbs[0], info), gw, lbs[1..])
  }

  /** Every listed record can be fetched, load balancer after load balancer. */
  predicate AllFetched(gw: Gateway, lbs: seq<LBService>)
    decreases |lbs|
  {
    lbs == [] || (LoadBalancerApi.LBInfoOf(gw, lbs[0].id).Ok? && AllFetched(gw, lbs[1..]))
  }

  /** The load-balancer loop fails exactly when a record cannot be fetched. */
  lemma {:induction false} LBLoopFetchesAll(f: LBScan, gw: Gateway, lbs: seq<LBService>)
    ensures LBLoop(f, gw, lbs).err.None? <==> AllFetched(gw, lbs)
    decreases |lbs|
  {
    if lbs != [] && LoadBalancerApi.LBInfoOf(gw, lbs[0].id).Ok? {
      LBLoopFetchesAll(LBStep(f, lbs[0], LoadBalancerApi.LBInfoOf(gw, lbs[0].id).value), gw, lbs[1..]);
    }
  }

  /** `AllFetched` says that each record can be fetched. */
  lemma {:induction false} AllFetchedEach(gw: Gateway, lbs: seq<LBService>)
    ensures AllFetched(gw, lbs) <==> forall j :: 0 <= j < |lbs| ==> LoadBalancerApi.LBInfoOf(gw, lbs[j].id).Ok?
    decreases |lbs|
  {
    if lbs != [] {
      AllFetchedEach(gw, lbs[1..]);
      DropFirst(lbs, 1);
    }
  }

  /** The load-balancer loop fails exactly when some record cannot be fetched (and then,
      by `LBLoopBreak`, with the error of the first one). */
  lemma LBLoopErrors(f: LBScan, gw: Gateway, lbs: seq<LBService>)
    ensures LBLoop(f, gw, lbs).err.None? <==> forall j :: 0 <= j < |lbs| ==> LoadBalancerApi.LBInfoOf(gw, lbs[j].id).Ok?
  {
    LBLoopFetchesAll(f, gw, lbs);
    AllFetchedEach(gw, lbs);
  }

  /** When the first `i` records can be fetched, the loop runs over those load balancers
      without an error and goes on with the rest from the families they left. */
  lemma {:induction false} LBLoopSplit(f: LBScan, gw: Gateway, lbs: seq<LBService>, i: nat)
    requires i <= |lbs|
    requires forall j :: 0 <= j < i ==> LoadBalancerApi.LBInfoOf(gw, lbs[j].id).Ok?
    ensures LBLoop(f, gw, lbs[..i]).err.None?
    ensures LBLoop(f, gw, lbs) == LBLoop(LBLoop(f, gw, lbs[..i]).families, gw, lbs[i..])
    decreases i
  {
    if i > 0 {
      var next := LBStep(f, lbs[0], LoadBalancerApi.LBInfoOf(gw, lbs[0].id).value);
      DropFirst(lbs, i);
      assert lbs[..i][0] == lbs[0];
      LBLoopSplit(next, gw, lbs[1..], i - 1);
    }
  }

  /** The first record that cannot be fetched ends the loop with its error, the families
      being what the load balancers before it left. */
  lemma LBLoopBreak(f: LBScan, gw: Gateway, lbs: seq<LBService>, i: nat)
    requires i < |lbs| && LoadBalancerApi.LBInfoOf(gw, lbs[i].id).Err?
    requires forall j :: 0 <= j < i ==> LoadBalancerApi.LBInfoOf(gw, lbs[j].id).Ok?
    ensures LBLoop(f, gw, lbs) == LBOutcome(LBLoop(f, gw, lbs[..i]).families, Some(LoadBalancerApi.LBInfoOf(gw, lbs[i].id).error))
  {
    LBLoopSplit(f, gw, lbs, i);
    assert lbs[i..][0] == lbs[i];
  }

  /** The load-balancer loop keeps every family declared. */
  lemma {:induction false} LBLoopKeepsDeclares(f: LBScan, gw: Gateway, lbs: seq<LBService>)
    requires f.Declares()
    ensures LBLoop(f, gw, lbs).families.Declares()
    decreases |lbs|
  {
    if lbs != [] && LoadBalancerApi.LBInfoOf(gw, lbs[0].id).Ok? {
      var info := LoadBalancerApi.LBInfoOf(gw, lbs[0].id).value;
      LBM.PopulateKeepsDeclares(f.lb, lbs[0].displayName, lbs[0].id, info);
      PopulateVSsKeepsDeclares(f.vs, info.virtualServers);
      PopulatePoolsKeepsDeclares(f.pool, info.pools);
      LBLoopKeepsDeclares(LBStep(f, lbs[0], info), gw, lbs[1..]);
    }
  }

  // ---- the gateway stages ----

  /** What a gateway loop leaves, and its error. */
  datatype TierOutcome = TierOutcome(families: TM.TierFamilies, err: Option<Error>)

  /** A gateway loop: each gateway's state is fetched with `getState` and populated; the
      first fetch that fails ends the loop with its error. */
  function TierLoop(f: TM.TierFamilies, getState: string -> Result<GatewayState>, ts: seq<Tier>): TierOutcome
    decreases |ts|
  {
    if ts == [] then TierOutcome(f, None)
    else match getState(ts[0].id)
      case Err(e) => TierOutcome(f, Some(e))
      case Ok(st) =>
        TierLoop(f.Populate(TM.GatewayLabels(ts[0]), ZeroString(ts[0].haMode), st.state, st.status), getState, ts[1..])
  }

  /** A gateway loop fails exactly when some gateway's state cannot be fetched, and then
      with the error of the first one. */
  lemma {:induction false} TierLoopErrors(f: TM.TierFamilies, getState: string -> Result<GatewayState>, ts: seq<Tier>, i: nat)
    ensures TierLoop(f, getState, ts).err.None? <==> forall j :: 0 <= j < |ts| ==> getState(ts[j].id).Ok?
    ensures i < |ts| && getState(ts[i].id).Err? && (forall j :: 0 <= j < i ==> getState(ts[j].id).Ok?) ==>
              TierLoop(f, getState, ts).err == Some(getState(ts[i].id).error)
    decreases |ts|
  {
    if ts != [] && getState(ts[0].id).Ok? {
      var st := getState(ts[0].id).value;
      var next := f.Populate(TM.GatewayLabels(ts[0]), ZeroString(ts[0].haMode), st.state, st.status);
      TierLoopErrors(next, getState, ts[1..], if i > 0 then i - 1 else 0);
      DropFirst(ts, 1);
      forall j | 1 <= j < |ts|
        ensures getState(ts[j].id).Ok? == getState(ts[1..][j - 1].id).Ok?
      {
        assert ts[1..][j - 1] == ts[j];
      }
    }
  }

  /** A gateway loop keeps every family declared. */
  lemma {:induction false} TierLoopKeepsDeclares(f: TM.TierFamilies, getState: string -> Result<GatewayState>, ts: seq<Tier>)
    requires f.Declares()
    ensures TierLoop(f, getState, ts).families.Declares()
    decreases |ts|
  {
    if ts != [] && getState(ts[0].id).Ok? {
      var st := getState(ts[0].id).value;
      TM.PopulateKeepsDeclares(f, TM.GatewayLabels(ts[0]), ZeroString(ts[0].haMode), st.state, st.status);
      TierLoopKeepsDeclares(f.Populate(TM.GatewayLabels(ts[0]), ZeroString(ts[0].haMode), st.state, st.status), getState, ts[1..]);
    }
  }

  /** What the two gateway stages leave, and their error. */
  datatype TierScan = TierScan(tier0: TM.TierFamilies, tier1: TM.TierFamilies, err: Option<Error>)

  /** The tier-1 list and loop, then the tier-0 list and loop; the first failure ends
      both stages with its error. */
  function TierStages(t0: TM.TierFamilies, t1: TM.TierFamilies, m: Manager, fuel: Fuel): TierScan
    requires ChainsEnd(m, fuel)
  {
    match Walk(m.gw.listT1, None, m.t1Filters, TierApi.TierName, TierApi.TierId, fuel.t1s)
    case Err(e) => TierScan(t0, t1, Some(e))
    case Ok(t1s) =>
      var o1 := TierLoop(t1, m.gw.t1State, t1s);
      if o1.err.Some? then TierScan(t0, o1.families, o1.err)
      else match Walk(m.gw.listT0, None, m.t0Filters, TierApi.TierName, TierApi.TierId, fuel.t0s)
        case Err(e) => TierScan(t0, o1.families, Some(e))
        case Ok(t0s) =>
          var o0 := TierLoop(t0, m.gw.t0State, t0s);
          TierScan(o0.families, o1.families, o0.err)
  }

  /** The gateway stages succeed exactly when both lists can be read and every listed
      gateway's state can be fetched; a tier-1 failure leaves the tier-0 families as
      they were. */
  lemma TierStagesErrors(t0: TM.TierFamilies, t1: TM.TierFamilies, m: Manager, fuel: Fuel)
    requires ChainsEnd(m, fuel)
    ensures var r := TierStages(t0, t1, m, fuel);
      var w1 := Walk(m.gw.listT1, None, m.t1Filters, TierApi.TierName, TierApi.TierId, fuel.t1s);
      var w0 := Walk(m.gw.listT0, None, m.t0Filters, TierApi.TierName, TierApi.TierId, fuel.t0s);
      && (r.err.None? <==> w1.Ok? && w0.Ok? && (forall j :: 0 <= j < |w1.value| ==> m.gw.t1State(w1.value[j].id).Ok?)
                                            && (forall j :: 0 <= j < |w0.value| ==> m.gw.t0State(w0.value[j].id).Ok?))
      && (w1.Err? || TierLoop(t1, m.gw.t1State, w1.value).err.Some? ==> r.err.Some? && r.tier0 == t0)
  {
    var w1 := Walk(m.gw.listT1, None, m.t1Filters, TierApi.TierName, TierApi.TierId, fuel.t1s);
    var w0 := Walk(m.gw.listT0, None, m.t0Filters, TierApi.TierName, TierApi.TierId, fuel.t0s);
    if w1.Ok? {
      TierLoopErrors(t1, m.gw.t1State, w1.value, 0);
      if w0.Ok? {
        TierLoopErrors(t0, m.gw.t0State, w0.value, 0);
      }
    }
  }

  /** The gateway stages keep every family declared. */
  lemma TierStagesKeepDeclares(t0: TM.TierFamilies, t1: TM.TierFamilies, m: Manager, fuel: Fuel)
    requires ChainsEnd(m, fuel) && t0.Declares() && t1.Declares()
    ensures TierStages(t0, t1, m, fuel).tier0.Declares() && TierStages(t0, t1, m, fuel).tier1.Declares()
  {
    var w1 := Walk(m.gw.listT1, None, m.t1Filters, TierApi.TierName, TierApi.TierId, fuel.t1s);
    var w0 := Walk(m.gw.listT0, None, m.t0Filters, TierApi.TierName, TierApi.TierId, fuel.t0s);
    if w1.Ok? {
      TierLoopKeepsDeclares(t1, m.gw.t1State, w1.value);
      if w0.Ok? {
        TierLoopKeepsDeclares(t0, m.gw.t0State, w0.value);
      }
    }
  }

  // ---- the whole scrape ----

  /** Everything after the node stage: the load-balancer list and loop, then the gateway
      stages, then the duration. Each failure sets scrape_error and ends the scrape. */
  function LateStages(s: RecorderState, m: Manager, elapsed: real, fuel: Fuel): Scrape
    requires ChainsEnd(m, fuel)
  {
    match Walk(m.gw.listLBs, None, m.lbFilters, LoadBalancerApi.LBName, LoadBalancerApi.LBId, fuel.lbs)
    case Err(e) => Fail(s, e)
    case Ok(lbs) =>
      var l := LBLoop(LBScan(s.lb, s.vs, s.pool), m.gw, lbs);
      var s1 := s.(lb := l.families.lb, vs := l.families.vs, pool := l.families.pool);
      if l.err.Some? then Fail(s1, l.err.value)
      else
        var t := TierStages(s1.tier0, s1.tier1, m, fuel);
        var s2 := s1.(tier0 := t.tier0, tier1 := t.tier1);
        if t.err.Some? then Fail(s2, t.err.value) else Scrape(s2.(scrapeDuration := elapsed), None)
  }

  /** The node stage of a scrape: the families and the error flag the node loop leaves. */
  function NodeStage(s: RecorderState, gw: Gateway, cl: ClusterStatus, c: Codec): RecorderState
    requires Consumes(c)
  {
    var ns := NodeLoop(NodeScan(s.node, s.interfaces, false), gw, NodeIds(cl), c);
    s.(node := ns.node, interfaces := ns.interfaces, scrapeError := if ns.failed then 1.0 else s.scrapeError)
  }

  /** `Recorder.RecordMetrics`: reset, then the cluster status (whose failure ends the
      scrape at once), the cluster families, the node loop, and the later stages. */
  function Record(s: RecorderState, m: Manager, c: Codec, elapsed: real, fuel: Fuel): Scrape
    requires Consumes(c) && ChainsEnd(m, fuel)
  {
    var r := ResetState(s);
    match m.gw.clusterStatus
    case Err(e) => Fail(r, e)
    case Ok(cl) => LateStages(NodeStage(ClusterStage(r, cl), m.gw, cl, c), m, elapsed, fuel)
  }

  /** Two recorder states that differ at most in their node families and error flag. */
  predicate SameBeyondNodes(a: RecorderState, b: RecorderState) {
    && a.scrapeDuration == b.scrapeDuration && a.control == b.control && a.mgmt == b.mgmt
    && a.lb == b.lb && a.vs == b.vs && a.pool == b.pool && a.tier0 == b.tier0 && a.tier1 == b.tier1
  }

  /** The node stage changes the node families and the error flag, and nothing else; it
      only ever sets the flag, and keeps the node families declared. */
  lemma NodeStageOnlyNodes(s: RecorderState, gw: Gateway, cl: ClusterStatus, c: Codec)
    requires Consumes(c)
    ensures SameBeyondNodes(NodeStage(s, gw, cl, c), s)
    ensures NodeStage(s, gw, cl, c).scrapeError == s.scrapeError || NodeStage(s, gw, cl, c).scrapeError == 1.0
    ensures s.Declares() ==> NodeStage(s, gw, cl, c).Declares()
  {
    if s.Declares() {
      NodeLoopKeepsDeclares(NodeScan(s.node, s.interfaces, false), gw, NodeIds(cl), c);
    }
  }

  /** The later stages do not look at the node families or the error flag. */
  lemma LateStagesIgnoreNodes(a: RecorderState, b: RecorderState, m: Manager, elapsed: real, fuel: Fuel)
    requires ChainsEnd(m, fuel) && SameBeyondNodes(a, b)
    ensures LateStages(a, m, elapsed, fuel).err == LateStages(b, m, elapsed, fuel).err
    ensures SameBeyondNodes(LateStages(a, m, elapsed, fuel).state, LateStages(b, m, elapsed, fuel).state)
  {
  }

  /** Each failure of the later stages sets the error flag and leaves the duration; their
      success sets the duration and leaves the flag. */
  lemma LateStagesOutcome(s: RecorderState, m: Manager, elapsed: real, fuel: Fuel)
    requires ChainsEnd(m, fuel)
    ensures var r := LateStages(s, m, elapsed, fuel);
      && (r.err.Some? ==> r.state.scrapeError == 1.0 && r.state.scrapeDuration == s.scrapeDuration)
      && (r.err.None? ==> r.state.scrapeDuration == elapsed && r.state.scrapeError == s.scrapeError)
  {
  }

  /** The later stages keep every family declared. */
  lemma LateStagesKeepDeclares(s: RecorderState, m: Manager, elapsed: real, fuel: Fuel)
    requires ChainsEnd(m, fuel) && s.Declares()
    ensures LateStages(s, m, elapsed, fuel).state.Declares()
  {
    var r := LateStages(s, m, elapsed, fuel);
    var wl := Walk(m.gw.listLBs, None, m.lbFilters, LoadBalancerApi.LBName, LoadBalancerApi.LBId, fuel.lbs);
    if wl.Ok? {
      LBLoopKeepsDeclares(LBScan(s.lb, s.vs, s.pool), m.gw, wl.value);
      var l := LBLoop(LBScan(s.lb, s.vs, s.pool), m.gw, wl.value);
      var s1 := s.(lb := l.families.lb, vs := l.families.vs, pool := l.families.pool);
      assert s1.Declares();
      if l.err.Some? {
        assert r.state == s1.(scrapeError := 1.0);
      } else {
        TierStagesKeepDeclares(s1.tier0, s1.tier1, m, fuel);
        var t := TierStages(s1.tier0, s1.tier1, m, fuel);
        var s2 := s1.(tier0 := t.tier0, tier1 := t.tier1);
        assert s2.Declares();
        assert r.state == s2.(scrapeError := 1.0) || r.state == s2.(scrapeDuration := elapsed);
      }
    } else {
      assert r.state == s.(scrapeError := 1.0);
    }
  }

  /** Node failures never end the scrape: whatever the node stage meets, the error
      returned and every family outside the node stage are those of the later stages
      run straight after the cluster stage. */
  lemma NodeFailuresDoNotStopScrape(s: RecorderState, m: Manager, c: Codec, elapsed: real, fuel: Fuel)
    requires Consumes(c) && ChainsEnd(m, fuel) && m.gw.clusterStatus.Ok?
    ensures var skipped := LateStages(ClusterStage(ResetState(s), m.gw.clusterStatus.value), m, elapsed, fuel);
      && Record(s, m, c, elapsed, fuel).err == skipped.err
      && SameBeyondNodes(Record(s, m, c, elapsed, fuel).state, skipped.state)
  {
    var cl := m.gw.clusterStatus.value;
    var start := ClusterStage(ResetState(s), cl);
    NodeStageOnlyNodes(start, m.gw, cl, c);
    var a := NodeStage(start, m.gw, cl, c);
    LateStagesIgnoreNodes(a, start, m, elapsed, fuel);
    assert Record(s, m, c, elapsed, fuel) == LateStages(a, m, elapsed, fuel);
  }

  /** Every error returned comes with scrape_error at 1; the duration is set exactly
      when no error is returned, and otherwise keeps the previous scrape's value. */
  lemma RecordOutcome(s: RecorderState, m: Manager, c: Codec, elapsed: real, fuel: Fuel)
    requires Consumes(c) && ChainsEnd(m, fuel)
    ensures var r := Record(s, m, c, elapsed, fuel);
      && (r.err.Some? ==> r.state.scrapeError == 1.0 && r.state.scrapeDuration == s.scrapeDuration)
      && (r.err.None? ==> r.state.scrapeDuration == elapsed)
  {
    if m.gw.clusterStatus.Ok? {
      var cl := m.gw.clusterStatus.value;
      var start := ClusterStage(ResetState(s), cl);
      NodeStageOnlyNodes(start, m.gw, cl, c);
      LateStagesOutcome(NodeStage(start, m.gw, cl, c), m, elapsed, fuel);
    }
  }

  /** A scrape ends without an error exactly when the cluster status, the load-balancer
      list, every listed record, both gateway lists and every listed gateway's state can
      be fetched; failures in the node stage play no part. */
  lemma RecordErrors(s: RecorderState, m: Manager, c: Codec, elapsed: real, fuel: Fuel)
    requires Consumes(c) && ChainsEnd(m, fuel)
    ensures var wl := Walk(m.gw.listLBs, None, m.lbFilters, LoadBalancerApi.LBName, LoadBalancerApi.LBId, fuel.lbs);
      var w1 := Walk(m.gw.listT1, None, m.t1Filters, TierApi.TierName, TierApi.TierId, fuel.t1s);
      var w0 := Walk(m.gw.listT0, None, m.t0Filters, TierApi.TierName, TierApi.TierId, fuel.t0s);
      Record(s, m, c, elapsed, fuel).err.None? <==>
        && m.gw.clusterStatus.Ok? && wl.Ok? && w1.Ok? && w0.Ok?
        && (forall j :: 0 <= j < |wl.value| ==> LoadBalancerApi.LBInfoOf(m.gw, wl.value[j].id).Ok?)
        && (forall j :: 0 <= j < |w1.value| ==> m.gw.t1State(w1.value[j].id).Ok?)
        && (forall j :: 0 <= j < |w0.value| ==> m.gw.t0State(w0.value[j].id).Ok?)
  {
    if m.gw.clusterStatus.Ok? {
      var cl := m.gw.clusterStatus.value;
      var n := NodeStage(ClusterStage(ResetState(s), cl), m.gw, cl, c);
      var wl := Walk(m.gw.listLBs, None, m.lbFilters, LoadBalancerApi.LBName, LoadBalancerApi.LBId, fuel.lbs);
      if wl.Ok? {
        var l := LBLoop(LBScan(n.lb, n.vs, n.pool), m.gw, wl.value);
        LBLoopErrors(LBScan(n.lb, n.vs, n.pool), m.gw, wl.value);
        TierStagesErrors(n.tier0, n.tier1, m, fuel);
      }
    }
  }

  /** The stages run in order: when the load-balancer stage fails, neither gateway kind
      is recorded and both keep the previous scrape's series, which the reset leaves. */
  lemma LBFailureKeepsGateways(s: RecorderState, m: Manager, c: Codec, elapsed: real, fuel: Fuel)
    requires Consumes(c) && ChainsEnd(m, fuel) && m.gw.clusterStatus.Ok?
    requires var wl := Walk(m.gw.listLBs, None, m.lbFilters, LoadBalancerApi.LBName, LoadBalancerApi.LBId, fuel.lbs);
      wl.Err? || exists j :: 0 <= j < |wl.value| && LoadBalancerApi.LBInfoOf(m.gw, wl.value[j].id).Err?
    ensures var r := Record(s, m, c, elapsed, fuel);
      r.err.Some? && r.state.scrapeError == 1.0 && r.state.tier0 == s.tier0 && r.state.tier1 == s.tier1
  {
    var cl := m.gw.clusterStatus.value;
    var n := NodeStage(ClusterStage(ResetState(s), cl), m.gw, cl, c);
    var wl := Walk(m.gw.listLBs, None, m.lbFilters, LoadBalancerApi.LBName, LoadBalancerApi.LBId, fuel.lbs);
    if wl.Ok? {
      LBLoopErrors(LBScan(n.lb, n.vs, n.pool), m.gw, wl.value);
    }
  }

  /** A failed cluster fetch ends the scrape at once: the reset has happened, nothing
      else is recorded, and the error flag is set. */
  lemma ClusterFailureStops(s: RecorderState, m: Manager, c: Codec, elapsed: real, fuel: Fuel)
    requires Consumes(c) && ChainsEnd(m, fuel) && m.gw.clusterStatus.Err?
    ensures var r := Record(s, m, c, elapsed, fuel);
      && r.err == Some(m.gw.clusterStatus.error)
      && r.state == ResetState(s).(scrapeError := 1.0)
  {
  }

  /** A scrape keeps every family declared with its label names and of consistent arity. */
  lemma RecordKeepsDeclares(s: RecorderState, m: Manager, c: Codec, elapsed: real, fuel: Fuel)
    requires Consumes(c) && ChainsEnd(m, fuel) && s.Declares()
    ensures Record(s, m, c, elapsed, fuel).state.Declares()
  {
    ResetEffects(s);
    var r := ResetState(s);
    if m.gw.clusterStatus.Ok? {
      var cl := m.gw.clusterStatus.value;
      SetKeepsConsistent(r.control, [cl.controlClusterStatus], StatusToValue(cl.controlClusterStatus, StatusStable));
      SetKeepsConsistent(r.mgmt, [cl.mgmtClusterStatus], StatusToValue(cl.mgmtClusterStatus, StatusStable));
      var start := ClusterStage(r, cl);
      NodeStageOnlyNodes(start, m.gw, cl, c);
      LateStagesKeepDeclares(NodeStage(start, m.gw, cl, c), m, elapsed, fuel);
    }
  }

  // ---- loops over objects ----

  /** The node loop on the object; the result says whether scrape_error is to be set. */
  method RecordNodes(node: N.NodeMetrics, gw: Gateway, ids: seq<string>, c: Codec) returns (failed: bool)
    requires node.Valid() && Consumes(c)
    modifies node, node.interfaces
    ensures node.Valid()
    ensures NodeScan(node.Families(), node.interfaces.Families(), failed)
         == NodeLoop(NodeScan(old(node.Families()), old(node.interfaces.Families()), false), gw, ids, c)
  {
    failed := false;
    var i := 0;
    while i < |ids|
      invariant 0 <= i <= |ids| && node.Valid()
      invariant NodeLoop(NodeScan(old(node.Families()), old(node.interfaces.Families()), false), gw, ids, c)
             == NodeLoop(NodeScan(node.Families(), node.interfaces.Families(), failed), gw, ids[i..], c)
    {
      assert ids[i..][0] == ids[i] && ids[i..][1..] == ids[i + 1..];
      var info := NodeApi.GetClusterNodeInfo(gw, ids[i]);
      if info.Err? {
        failed := true;
        break;
      }
      var err := node.Populate(info.value, c);
      if err.Some? {
        failed := true;
      }
      i := i + 1;
    }
  }

  /** The virtual-server loop on the object. */
  method PopulateVirtualServers(vs: VSM.VSMetrics, vss: seq<VSInfo>)
    requires vs.Valid()
    modifies vs
    ensures vs.Valid() && vs.Families() == PopulateVSs(old(vs.Families()), vss)
  {
    ghost var start := vs.Families();
    var i := 0;
    while i < |vss|
      invariant 0 <= i <= |vss|
      invariant vs.Valid() && vs.Families() == PopulateVSs(start, vss[..i])
    {
      assert vss[..i + 1][..i] == vss[..i];
      vs.Populate(vss[i]);
      i := i + 1;
    }
    assert vss[..i] == vss;
  }

  /** The pool loop on the object. */
  method PopulatePoolsOf(pool: PM.PoolMetrics, ps: seq<PoolInfo>)
    requires pool.Valid()
    modifies pool, pool.member
    ensures pool.Valid() && pool.Families() == PopulatePools(old(pool.Families()), ps)
  {
    ghost var start := pool.Families();
    var i := 0;
    while i < |ps|
      invariant 0 <= i <= |ps|
      invariant pool.Valid() && pool.Families() == PopulatePools(start, ps[..i])
    {
      assert ps[..i + 1][..i] == ps[..i];
      pool.Populate(ps[i]);
      i := i + 1;
    }
    assert ps[..i] == ps;
  }

  /** The load-balancer loop on the objects. */
  method RecordLoadBalancers(lb: LBM.LBMetrics, vs: VSM.VSMetrics, pool: PM.PoolMetrics, gw: Gateway, lbs: seq<LBService>)
    returns (err: Option<Error>)
    requires lb.Valid() && vs.Valid() && pool.Valid()
    modifies lb, vs, pool, pool.member
    ensures lb.Valid() && vs.Valid() && pool.Valid()
    ensures LBOutcome(LBScan(lb.Families(), vs.Families(), pool.Families()), err)
         == LBLoop(LBScan(old(lb.Families()), old(vs.Families()), old(pool.Families())), gw, lbs)
  {
    var i := 0;
    while i < |lbs|
      invariant 0 <= i <= |lbs| && lb.Valid() && vs.Valid() && pool.Valid()
      invariant LBLoop(LBScan(old(lb.Families()), old(vs.Families()), old(pool.Families())), gw, lbs)
             == LBLoop(LBScan(lb.Families(), vs.Families(), pool.Families()), gw, lbs[i..])
    {
      assert lbs[i..][0] == lbs[i] && lbs[i..][1..] == lbs[i + 1..];
      var info := LoadBalancerApi.GetLBServiceInfo(gw, lbs[i].id);
      if info.Err? {
        return Some(info.error);
      }
      lb.Populate(lbs[i].displayName, lbs[i].id, info.value);
      PopulateVirtualServers(vs, info.value.virtualServers);
      PopulatePoolsOf(pool, info.value.pools);
      i := i + 1;
    }
    return None;
  }

  /** A gateway loop on the object. */
  method RecordGateways(t: TM.TierMetrics, getState: string -> Result<GatewayState>, ts: seq<Tier>) returns (err: Option<Error>)
    requires t.Valid()
    modifies t
    ensures t.Valid() && TierOutcome(t.Families(), err) == TierLoop(old(t.Families()), getState, ts)
  {
    var i := 0;
    while i < |ts|
      invariant 0 <= i <= |ts|
      invariant t.Valid() && TierLoop(old(t.Families()), getState, ts) == TierLoop(t.Families(), getState, ts[i..])
    {
      assert ts[i..][0] == ts[i] && ts[i..][1..] == ts[i + 1..];
      var state := getState(ts[i].id);
      if state.Err? {
        return Some(state.error);
      }
      t.PopulateGateway(ts[i], state.value);
      i := i + 1;
    }
    return None;
  }

  /** The two gateway stages on the objects. */
  method RecordTiers(t0: TM.TierMetrics, t1: TM.TierMetrics, m: Manager, ghost fuel: Fuel) returns (err: Option<Error>)
    requires t0.Valid() && t1.Valid() && t0 != t1 && ChainsEnd(m, fuel)
    modifies t0, t1
    ensures t0.Valid() && t1.Valid()
    ensures TierScan(t0.Families(), t1.Families(), err) == TierStages(old(t0.Families()), old(t1.Families()), m, fuel)
  {
    var t1s := TierApi.ListT1(m.gw, m.t1Filters, fuel.t1s);
    if t1s.Err? {
      return Some(t1s.error);
    }
    err := RecordGateways(t1, m.gw.t1State, t1s.value);
    if err.Some? {
      return err;
    }
    var t0s := TierApi.ListT0(m.gw, m.t0Filters, fuel.t0s);
    if t0s.Err? {
      return Some(t0s.error);
    }
    err := RecordGateways(t0, m.gw.t0State, t0s.value);
  }

  // ---- the recorder ----

  /** `Recorder`: the manager, the scrape gauges and cluster families, and the objects
      holding the node, load-balancer, virtual-server, pool and gateway families. */
  class Recorder {
    const manager: Manager
    var scrapeError: real
    var scrapeDurationSeconds: real
    var clusterControlStatus: GaugeVec
    var clusterMgmtStatus: GaugeVec
    const node: N.NodeMetrics
    const lb: LBM.LBMetrics
    const vs: VSM.VSMetrics
    const pool: PM.PoolMetrics
    const tier0: TM.TierMetrics
    const tier1: TM.TierMetrics

    function State(): RecorderState
      reads this, node, node.interfaces, lb, vs, pool, pool.member, tier0, tier1
    {
      RecorderState(scrapeError, scrapeDurationSeconds, clusterControlStatus, clusterMgmtStatus,
                    node.Families(), node.interfaces.Families(), lb.Families(), vs.Families(), pool.Families(),
                    tier0.Families(), tier1.Families())
    }

    ghost predicate Valid()
      reads this, node, node.interfaces, lb, vs, pool, pool.member, tier0, tier1
    {
      && tier0 != tier1
      && node.Valid() && lb.Valid() && vs.Valid() && pool.Valid() && tier0.Valid() && tier1.Valid()
    }

    /** The struct literal of `NewRecorder`, over the objects it has just created: both
        gauges at 0 and both cluster families empty. */
    constructor(manager: Manager, namespace: string, node: N.NodeMetrics, lb: LBM.LBMetrics, vs: VSM.VSMetrics,
                pool: PM.PoolMetrics, tier0: TM.TierMetrics, tier1: TM.TierMetrics)
      requires tier0 != tier1
      requires node.Valid() && lb.Valid() && vs.Valid() && pool.Valid() && tier0.Valid() && tier1.Valid()
      ensures Valid() && this.manager == manager
      ensures this.node == node && this.lb == lb && this.vs == vs && this.pool == pool
      ensures this.tier0 == tier0 && this.tier1 == tier1
      ensures scrapeError == 0.0 && scrapeDurationSeconds == 0.0
      ensures clusterControlStatus == NewGaugeVec(namespace, "cluster_control_status", ClusterControlHelp, ["status"])
      ensures clusterMgmtStatus == NewGaugeVec(namespace, "cluster_mgmt_status", ClusterMgmtHelp, ["status"])
    {
      this.manager := manager;
      this.node, this.lb, this.vs, this.pool, this.tier0, this.tier1 := node, lb, vs, pool, tier0, tier1;
      scrapeError := 0.0;
      scrapeDurationSeconds := 0.0;
      clusterControlStatus := NewGaugeVec(namespace, "cluster_control_status", ClusterControlHelp, ["status"]);
      clusterMgmtStatus := NewGaugeVec(namespace, "cluster_mgmt_status", ClusterMgmtHelp, ["status"]);
    }

    /** `Recorder.Reset` */
    method Reset()
      requires Valid()
      modifies this, node, node.interfaces, lb, vs, pool, pool.member
      ensures Valid() && State() == ResetState(old(State()))
    {
      node.Reset();
      lb.Reset();
      vs.Reset();
      pool.Reset();
      scrapeError := 0.0;
    }

    /** scrape_error is set to 1. */
    method MarkFailed()
      requires Valid()
      modifies this
      ensures Valid() && State() == old(State()).(scrapeError := 1.0)
    {
      scrapeError := 1.0;
    }

    /** The cluster families, under the statuses just fetched. */
    method RecordCluster(cl: ClusterStatus)
      requires Valid()
      modifies this
      ensures Valid() && State() == ClusterStage(old(State()), cl)
    {
      clusterControlStatus := SetValue(clusterControlStatus, [cl.controlClusterStatus], StatusToValue(cl.controlClusterStatus, StatusStable));
      clusterMgmtStatus := SetValue(clusterMgmtStatus, [cl.mgmtClusterStatus], StatusToValue(cl.mgmtClusterStatus, StatusStable));
    }

    /** The node stage: the cluster's node ids, then the node loop. */
    method RecordNodeStage(cl: ClusterStatus, c: Codec)
      requires Valid() && Consumes(c)
      modifies this, node, node.interfaces
      ensures Valid() && State() == NodeStage(old(State()), manager.gw, cl, c)
    {
      var ids := CollectNodeIds(cl);
      var failed := RecordNodes(node, manager.gw, ids, c);
      if failed {
        scrapeError := 1.0;
      }
    }

    /** The load-balancer list and loop. */
    method RecordLBStage(ghost fuel: Fuel) returns (err: Option<Error>)
      requires Valid() && ChainsEnd(manager, fuel)
      modifies this, lb, vs, pool, pool.member
      ensures Valid()
      ensures var w := Walk(manager.gw.listLBs, None, manager.lbFilters, LoadBalancerApi.LBName, LoadBalancerApi.LBId, fuel.lbs);
        var s := old(State());
        match w
        case Err(e) => State() == s.(scrapeError := 1.0) && err == Some(e)
        case Ok(lbs) =>
          var l := LBLoop(LBScan(s.lb, s.vs, s.pool), manager.gw, lbs);
          && State() == s.(lb := l.families.lb, vs := l.families.vs, pool := l.families.pool,
                           scrapeError := if l.err.Some? then 1.0 else s.scrapeError)
          && err == l.err
    {
      var lbs := LoadBalancerApi.ListLoadBalancers(manager.gw, manager.lbFilters, fuel.lbs);
      if lbs.Err? {
        scrapeError := 1.0;
        return Some(lbs.error);
      }
      err := RecordLoadBalancers(lb, vs, pool, manager.gw, lbs.value);
      if err.Some? {
        scrapeError := 1.0;
      }
    }

    /** The gateway stages, then the duration. */
    method RecordTierStage(elapsed: real, ghost fuel: Fuel) returns (err: Option<Error>)
      requires Valid() && ChainsEnd(manager, fuel)
      modifies this, tier0, tier1
      ensures Valid()
      ensures var s := old(State()); var t := TierStages(s.tier0, s.tier1, manager, fuel);
        && err == t.err
        && State() == s.(tier0 := t.tier0, tier1 := t.tier1,
                         scrapeError := if t.err.Some? then 1.0 else s.scrapeError,
                         scrapeDuration := if t.err.Some? then s.scrapeDuration else elapsed)
    {
      err := RecordTiers(tier0, tier1, manager, fuel);
      if err.Some? {
        scrapeError := 1.0;
      } else {
        scrapeDurationSeconds := elapsed;
      }
    }

    /** The stages after the node loop. */
    method RecordLateStages(elapsed: real, ghost fuel: Fuel) returns (err: Option<Error>)
      requires Valid() && ChainsEnd(manager, fuel)
      modifies this, lb, vs, pool, pool.member, tier0, tier1
      ensures Valid() && Scrape(State(), err) == LateStages(old(State()), manager, elapsed, fuel)
    {
      err := RecordLBStage(fuel);
      if err.Some? {
        return err;
      }
      err := RecordTierStage(elapsed, fuel);
    }

    /** `Recorder.RecordMetrics`; `elapsed` is the time the scrape took. */
    method RecordMetrics(c: Codec, elapsed: real, ghost fuel: Fuel) returns (err: Option<Error>)
      requires Valid() && Consumes(c) && ChainsEnd(manager, fuel)
      modifies this, node, node.interfaces, lb, vs, pool, pool.member, tier0, tier1
      ensures Valid() && Scrape(State(), err) == Record(old(State()), manager, c, elapsed, fuel)
    {
      Reset();
      var cluster := manager.gw.clusterStatus;
      if cluster.Err? {
        MarkFailed();
        return Some(cluster.error);
      }
      RecordCluster(cluster.value);
      RecordNodeStage(cluster.value, c);
      err := RecordLateStages(elapsed, fuel);
    }
  }

  /** `NewNodeMetrics` and `NewLBMetrics`. */
  method NewNodeAndLB(namespace: string) returns (node: N.NodeMetrics, lb: LBM.LBMetrics)
    ensures fresh(node) && fresh(node.interfaces) && fresh(lb)
    ensures node.Valid() && lb.Valid()
  {
    node := new N.NodeMetrics(namespace);
    lb := new LBM.LBMetrics(namespace);
  }

  /** `NewVSMetrics` and `NewPoolMetrics`. */
  method NewVSAndPool(namespace: string) returns (vs: VSM.VSMetrics, pool: PM.PoolMetrics)
    ensures fresh(vs) && fresh(pool) && fresh(pool.member)
    ensures vs.Valid() && pool.Valid()
  {
    vs := new VSM.VSMetrics(namespace);
    pool := new PM.PoolMetrics(namespace);
  }

  /** `NewTier0Metrics` and `NewTier1Metrics`. */
  method NewGateways(namespace: string) returns (tier0: TM.TierMetrics, tier1: TM.TierMetrics)
    ensures fresh(tier0) && fresh(tier1) && tier0 != tier1
    ensures tier0.Valid() && tier1.Valid() && tier0.kind == "tier0" && tier1.kind == "tier1"
  {
    tier0 := new TM.TierMetrics(namespace, "tier0");
    tier1 := new TM.TierMetrics(namespace, "tier1");
  }

  /** `NewRecorder`: the six metric objects, then the recorder over them. */
  method NewRecorder(manager: Manager, namespace: string) returns (r: Recorder)
    ensures fresh(r) && fresh(r.node) && fresh(r.lb) && fresh(r.vs) && fresh(r.pool) && fresh(r.tier0) && fresh(r.tier1)
    ensures r.Valid() && r.manager == manager && r.tier0.kind == "tier0" && r.tier1.kind == "tier1"
    ensures r.scrapeError == 0.0 && r.scrapeDurationSeconds == 0.0
  {
    var node, lb := NewNodeAndLB(namespace);
    var vs, pool := NewVSAndPool(namespace);
    var tier0, tier1 := NewGateways(namespace);
    r := new Recorder(manager, namespace, node, lb, vs, pool, tier0, tier1);
  }

  /** The node ids of a cluster, collected in two loops. */
  method CollectNodeIds(cl: ClusterStatus) returns (ids: seq<string>)
    ensures ids == NodeIds(cl)
  {
    ids := [];
    var i := 0;
    while i < |cl.onlineNodes|
      invariant 0 <= i <= |cl.onlineNodes|
      invariant ids == cl.onlineNodes[..i]
    {
      ids := ids + [cl.onlineNodes[i]];
      i := i + 1;
    }
    var j := 0;
    while j < |cl.offlineNodes|
      invariant 0 <= j <= |cl.offlineNodes|
      invariant ids == cl.onlineNodes + cl.offlineNodes[..j]
    {
      ids := ids + [cl.offlineNodes[j]];
      j := j + 1;
    }
  }
}
