/** The NSX management and policy API as the exporter sees it: one total,
    possibly failing function per call. Transport, authentication, retries and
    type conversion happen behind these functions. */
module NsxGateway {
  import opened Common
  import opened Records

  datatype Gateway = Gateway(
    /** `ReadClusterStatus` */
    clusterStatus: Result<ClusterStatus>,
    /** `ReadClusterNodeStatus(nodeID)` */
    nodeStatus: string -> Result<NodeStatus>,
    /** `ReadClusterNodeConfig(nodeID)` */
    nodeConfig: string -> Result<NodeConfig>,
    /** `ListClusterNodeInterfaces(nodeID)`: the listed interface ids */
    nodeInterfaces: string -> Result<seq<string>>,
    /** `ReadClusterNodeInterface(nodeID, interfaceID)`: whatever record comes back, and the error */
    interfaceConfig: (string, string) -> (InterfaceConfig, Option<Error>),
    /** `ReadClusterNodeInterfaceStatistics(nodeID, interfaceID)` */
    interfaceStats: (string, string) -> (InterfaceStats, Option<Error>),
    /** `LbServicesClient.List(cursor, ...)` */
    listLBs: Option<string> -> Result<Page<LBService>>,
    /** `LbServicesClient.Get(lbID)` */
    getLB: string -> Result<LBService>,
    /** `DetailedStatusClient.Get(lbID, ...)`: the results, each one the outcome of its conversion */
    lbStatus: string -> Result<seq<Result<LBServiceStatus>>>,
    /** `StatisticsClient.Get(lbID, ...)`: the results, each one the outcome of its conversion */
    lbStats: string -> Result<seq<Result<LBServiceStatistics>>>,
    /** `LbVirtualServersClient.Get(vsID)` */
    getVirtualServer: string -> Result<VirtualServer>,
    /** `LbPoolsClient.Get(poolID)` */
    getPool: string -> Result<Pool>,
    /** `Tier0sClient.List(cursor, ...)` */
    listT0: Option<string> -> Result<Page<Tier>>,
    /** `Tier1sClient.List(cursor, ...)` */
    listT1: Option<string> -> Result<Page<Tier>>,
    /** `tier_0s.StateClient.Get(tierID, ...)` */
    t0State: string -> Result<GatewayState>,
    /** `tier_1s.StateClient.Get(tierID, ...)` */
    t1State: string -> Result<GatewayState>)
}
