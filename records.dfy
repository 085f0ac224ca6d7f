/** The NSX records the exporter reads, reduced to the fields it uses. Optional Go
    pointers are `Option`s; pointers that the exporter dereferences without a nil
    check are plain fields. Gauge values are opaque numbers (`real`); numbers that
    are printed into labels with `%d` are `int`. */
module Records {
  import opened Common

  // ---- listed resources (LB services, tier-0 and tier-1 gateways) ----

  /** `model.LBService`: the list entry and the configuration of a load balancer. */
  datatype LBService = LBService(
    id: string,
    displayName: string,
    enabled: Option<bool>,
    size: Option<string>)

  /** `model.Tier0` / `model.Tier1`: the fields both gateway kinds share. */
  datatype Tier = Tier(
    id: string,
    displayName: string,
    haMode: Option<string>)

  /** One page of a paginated list call. */
  datatype Page<T> = Page(results: seq<T>, cursor: Option<string>)

  // ---- load-balancer status, statistics and configuration ----

  datatype Alarm = Alarm(errorId: Option<string>, message: Option<string>)

  /** `model.LBStatisticsCounter`: the fourteen optional network counters. */
  datatype Counter = Counter(
    httpRequests: Option<real>, httpRequestRate: Option<real>,
    packetsIn: Option<real>, packetsInRate: Option<real>,
    packetsOut: Option<real>, packetsOutRate: Option<real>,
    bytesIn: Option<real>, bytesInRate: Option<real>,
    bytesOut: Option<real>, bytesOutRate: Option<real>,
    currentSessions: Option<real>, currentSessionRate: Option<real>,
    maxSessions: Option<real>, totalSessions: Option<real>)

  /** `model.LBServiceStatisticsCounter`: layer-4 and layer-7 session figures. */
  datatype ServiceCounter = ServiceCounter(
    l4CurrentSessionRate: Option<real>, l4CurrentSessions: Option<real>,
    l4MaxSessions: Option<real>, l4TotalSessions: Option<real>,
    l7CurrentSessionRate: Option<real>, l7CurrentSessions: Option<real>,
    l7MaxSessions: Option<real>, l7TotalSessions: Option<real>)

  datatype MemberStatus = MemberStatus(
    ipAddress: string,
    port: string,
    status: Option<string>,
    failureCause: Option<string>)

  datatype MemberStats = MemberStats(ipAddress: string, port: string, statistics: Counter)

  datatype VSStatus = VSStatus(virtualServerPath: string, status: Option<string>, alarm: Option<Alarm>)

  /** `model.LBVirtualServerStatistics`; the source-IP persistence figure is part of
      its counter in the SDK and is kept beside the common counter here. */
  datatype VSStats = VSStats(virtualServerPath: string, statistics: Counter,
                             sourceIpPersistenceEntrySize: Option<real>)

  datatype PoolStatus = PoolStatus(
    poolPath: string,
    status: Option<string>,
    alarm: Option<Alarm>,
    members: seq<MemberStatus>)

  datatype PoolStats = PoolStats(poolPath: string, statistics: Counter, members: seq<MemberStats>)

  datatype LBServiceStatus = LBServiceStatus(
    serviceStatus: Option<string>,
    cpuUsage: Option<real>,
    memoryUsage: Option<real>,
    errorMessage: Option<string>,
    alarm: Option<Alarm>,
    virtualServers: seq<VSStatus>,
    pools: seq<PoolStatus>)

  datatype LBServiceStatistics = LBServiceStatistics(
    statistics: ServiceCounter,
    virtualServers: seq<VSStats>,
    pools: seq<PoolStats>)

  /** `model.LBVirtualServer`: the configuration of a virtual server. */
  datatype VirtualServer = VirtualServer(
    displayName: Option<string>,
    id: Option<string>,
    ipAddress: Option<string>,
    poolPath: Option<string>,
    lbServicePath: Option<string>,
    enabled: Option<bool>)

  /** `model.PoolMemberGroup`: only its port is read. */
  datatype PoolMemberGroup = PoolMemberGroup(port: Option<int>)

  /** `model.LBPool`: the configuration of a pool. Its member group is dereferenced
      unconditionally, so the group is a required field and only its port is optional. */
  datatype Pool = Pool(
    displayName: Option<string>,
    id: Option<string>,
    algorithm: Option<string>,
    memberGroup: PoolMemberGroup,
    minActiveMembers: Option<real>)

  // ---- joined load-balancer records (api/load_balancer.go) ----

  datatype MemberInfo = MemberInfo(status: MemberStatus, stats: MemberStats)
  datatype VSInfo = VSInfo(config: VirtualServer, status: VSStatus, stats: VSStats)
  datatype PoolInfo = PoolInfo(config: Pool, status: PoolStatus, stats: PoolStats, members: seq<MemberInfo>)
  datatype LBInfo = LBInfo(
    config: LBService,
    status: LBServiceStatus,
    stats: LBServiceStatistics,
    virtualServers: seq<VSInfo>,
    pools: seq<PoolInfo>)

  // ---- gateway routing state ----

  datatype LogicalRouterState = LogicalRouterState(
    state: Option<string>,
    failureCode: Option<int>,
    failureMessage: Option<string>,
    details: seq<string>)

  datatype PerNodeStatus = PerNodeStatus(edgePath: Option<string>, highAvailabilityStatus: Option<string>)

  datatype LogicalRouterStatus = LogicalRouterStatus(perNodeStatus: seq<PerNodeStatus>)

  /** `model.Tier0GatewayState` / `model.Tier1GatewayState`. */
  datatype GatewayState = GatewayState(state: LogicalRouterState, status: LogicalRouterStatus)

  // ---- cluster and nodes ----

  datatype ClusterStatus = ClusterStatus(
    controlClusterStatus: string,
    mgmtClusterStatus: string,
    onlineNodes: seq<string>,
    offlineNodes: seq<string>)

  /** `model.FileSystemUsage`: the type, the file-system name, and the two sizes. */
  datatype FileSystem = FileSystem(fsType: string, fileSystem: string, total: real, used: real)

  datatype NodeStatus = NodeStatus(
    mgmtClusterStatus: string,
    cpuCores: real,
    fileSystems: seq<FileSystem>,
    loadAverage: seq<real>,
    uptime: real,
    version: string)

  /** `administration.ClusterNodeConfig`, with the PEM certificate blobs of its three
      manager-role listeners. */
  datatype NodeConfig = NodeConfig(
    id: string,
    applianceMgmtListenAddr: string,
    displayName: string,
    apiCertificate: string,
    mgmtClusterCertificate: string,
    mgmtPlaneCertificate: string)

  datatype InterfaceConfig = InterfaceConfig(interfaceId: string, adminStatus: string, linkStatus: string, mtu: int)

  datatype InterfaceStats = InterfaceStats(
    rxBytes: real, rxDropped: real, rxErrors: real, rxFrame: real, rxPackets: real,
    txBytes: real, txCarrier: real, txColls: real, txDropped: real, txErrors: real, txPackets: real)

  datatype Interface = Interface(config: InterfaceConfig, stats: InterfaceStats)

  datatype NodeInfo = NodeInfo(interfaces: seq<Interface>, config: NodeConfig, status: NodeStatus)
}
