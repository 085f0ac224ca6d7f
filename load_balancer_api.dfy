/** api/load_balancer.go: listing load balancers and joining one load balancer's
    configuration, status and statistics with those of its virtual servers, pools
    and pool members. */
module LoadBalancerApi {
  import opened Common
  import opened Records
  import opened NsxGateway
  import opened ApiUtils
  import opened Pagination

  function LBName(l: LBService): string { l.displayName }
  function LBId(l: LBService): string { l.id }

  /** `ListLoadBalancers`: every listed LB service whose name or id is in `lbFilters`
      (all of them when it is empty), across all pages in order. */
  method ListLoadBalancers(gw: Gateway, lbFilters: seq<string>, ghost n: nat) returns (r: Result<seq<LBService>>)
    requires ChainEnds(gw.listLBs, None, n)
    ensures r == Walk(gw.listLBs, None, lbFilters, LBName, LBId, n)
  {
    r := WalkPages(gw.listLBs, lbFilters, LBName, LBId, n);
  }

  // ---- exactly one status / statistics record ----

  /** `getLBServiceStatus` and `getLBServiceStats` AS WRITTEN: the pair (record, error)
      they return. For zero results, more than one result, or a failed conversion they
      return no record and the call's `err`, which is nil at that point. */
  function ExactlyOneAsWritten<T>(resp: Result<seq<Result<T>>>): (r: (Option<T>, Option<Error>))
    ensures resp.Err? ==> r == (None, Some(resp.error))
    ensures resp.Ok? ==> r.1.None?
    ensures r.0.Some? <==> resp.Ok? && |resp.value| == 1 && resp.value[0].Ok?
  {
    match resp
    case Err(e) => (None, Some(e))
    case Ok(results) =>
      if |results| == 0 then (None, None)
      else if |results| > 1 then (None, None)
      else match results[0]
           case Err(_) => (None, None)
           case Ok(v) => (Some(v), None)
  }

  /** The discrepancy: a successful call with no result yields neither a record nor an
      error, so `GetLBServiceInfo` goes on with a nil status. */
  lemma EmptyResultsGiveNeitherRecordNorError<T>()
    ensures ExactlyOneAsWritten<T>(Ok([])) == (None, None)
  {
  }

  /** The corrected check: exactly one result is required, and each other outcome is an
      error ("not found", "too many results", or the conversion's first error). */
  function ExactlyOne<T>(resp: Result<seq<Result<T>>>): (r: Result<T>)
    ensures r.Ok? <==> resp.Ok? && |resp.value| == 1 && resp.value[0].Ok?
    ensures r.Ok? ==> r.value == resp.value[0].value
    ensures resp.Err? ==> r == Err(resp.error)
    ensures resp.Ok? && |resp.value| == 0 ==> r == Err(Error("not found"))
    ensures resp.Ok? && |resp.value| > 1 ==> r == Err(Error("too many results"))
  {
    match resp
    case Err(e) => Err(e)
    case Ok(results) =>
      if |results| == 0 then Err(Error("not found"))
      else if |results| > 1 then Err(Error("too many results"))
      else results[0]
  }

  /** The corrected check returns a record exactly when the written one does, the same
      record, and fails whenever the written one returns no record. */
  lemma ExactlyOneCorrects<T>(resp: Result<seq<Result<T>>>)
    ensures ExactlyOneAsWritten(resp).0 == (if ExactlyOne(resp).Ok? then Some(ExactlyOne(resp).value) else None)
    ensures ExactlyOneAsWritten(resp).0.None? ==> ExactlyOne(resp).Err?
  {
  }

  /** `getLBServiceStatus`, corrected. */
  function GetLBServiceStatus(gw: Gateway, lbID: string): Result<LBServiceStatus> {
    ExactlyOne(gw.lbStatus(lbID))
  }

  /** `getLBServiceStats`, corrected. */
  function GetLBServiceStats(gw: Gateway, lbID: string): Result<LBServiceStatistics> {
    ExactlyOne(gw.lbStats(lbID))
  }

  // ---- the join, as specification functions ----

  function VSStatsPath(s: VSStats): string { s.virtualServerPath }
  function PoolStatsPath(s: PoolStats): string { s.poolPath }

  /** The `ip:port` key members are joined on. */
  function MemberKey(ipAddress: string, port: string): string { ipAddress + ":" + port }
  function MemberStatsKey(m: MemberStats): string { MemberKey(m.ipAddress, m.port) }

  /** The key identifies the pair as long as ports hold no ':' (they are decimal numbers). */
  lemma MemberKeyInjective(ip1: string, port1: string, ip2: string, port2: string)
    requires ':' !in port1 && ':' !in port2
    ensures MemberKey(ip1, port1) == MemberKey(ip2, port2) <==> ip1 == ip2 && port1 == port2
  {
    var k1, k2 := MemberKey(ip1, port1), MemberKey(ip2, port2);
    if k1 == k2 {
      LastColon(ip1, port1);
      LastColon(ip2, port2);
      assert |port1| == |port2|;
      assert port1 == k1[|k1| - |port1|..] == k2[|k2| - |port2|..] == port2;
      assert ip1 == k1[..|ip1|] == k2[..|ip2|] == ip2;
    }
  }

  /** In a member key the port is everything after the last ':'. */
  lemma LastColon(ip: string, port: string)
    requires ':' !in port
    ensures var k := MemberKey(ip, port);
            k[|k| - |port| - 1] == ':' && forall i :: |k| - |port| <= i < |k| ==> k[i] != ':'
  {
    var k := MemberKey(ip, port);
    assert forall i :: |k| - |port| <= i < |k| ==> k[i] == port[i - (|k| - |port|)];
  }

  /** One member: its statistics are the first entry with the same `ip:port`. */
  function JoinMember(st: MemberStatus, stats: seq<MemberStats>): Result<MemberInfo> {
    var key := MemberKey(st.ipAddress, st.port);
    match FirstIndex(MemberStatsKey, key, stats)
    case None => Err(NotFound(key))
    case Some(k) => Ok(MemberInfo(st, stats[k]))
  }

  function MemberJoiner(stats: seq<MemberStats>): MemberStatus -> Result<MemberInfo> {
    st => JoinMember(st, stats)
  }

  /** One virtual server: configuration by the last segment of its path, statistics by
      the first entry with the identical path. */
  function JoinVirtualServer(gw: Gateway, st: VSStatus, stats: seq<VSStats>): Result<VSInfo> {
    match gw.getVirtualServer(PathToID(st.virtualServerPath))
    case Err(e) => Err(e)
    case Ok(config) =>
      match FirstIndex(VSStatsPath, st.virtualServerPath, stats)
      case None => Err(NotFound(st.virtualServerPath))
      case Some(k) => Ok(VSInfo(config, st, stats[k]))
  }

  function VSJoiner(gw: Gateway, stats: seq<VSStats>): VSStatus -> Result<VSInfo> {
    st => JoinVirtualServer(gw, st, stats)
  }

  /** One pool: configuration and statistics as for virtual servers, then its members. */
  function JoinPool(gw: Gateway, st: PoolStatus, stats: seq<PoolStats>): Result<PoolInfo> {
    match gw.getPool(PathToID(st.poolPath))
    case Err(e) => Err(e)
    case Ok(config) =>
      match FirstIndex(PoolStatsPath, st.poolPath, stats)
      case None => Err(NotFound(st.poolPath))
      case Some(k) =>
        match MapAll(MemberJoiner(stats[k].members), st.members)
        case Err(e) => Err(e)
        case Ok(members) => Ok(PoolInfo(config, st, stats[k], members))
  }

  function PoolJoiner(gw: Gateway, stats: seq<PoolStats>): PoolStatus -> Result<PoolInfo> {
    st => JoinPool(gw, st, stats)
  }

  /** What `GetLBServiceInfo` returns: config, then status, then statistics, then the
      virtual servers in status order, then the pools in status order; the first error
      ends it. */
  function LBInfoOf(gw: Gateway, lbID: string): Result<LBInfo> {
    match gw.getLB(lbID)
    case Err(e) => Err(e)
    case Ok(config) =>
      match GetLBServiceStatus(gw, lbID)
      case Err(e) => Err(e)
      case Ok(status) =>
        match GetLBServiceStats(gw, lbID)
        case Err(e) => Err(e)
        case Ok(stats) =>
          match MapAll(VSJoiner(gw, stats.virtualServers), status.virtualServers)
          case Err(e) => Err(e)
          case Ok(vss) =>
            match MapAll(PoolJoiner(gw, stats.pools), status.pools)
            case Err(e) => Err(e)
            case Ok(pools) => Ok(LBInfo(config, status, stats, vss, pools))
  }

  /** Each joined virtual server carries its status entry, the configuration fetched by
      its path's last segment and a statistics entry with the same path, in status order. */
  predicate VSJoined(gw: Gateway, sts: seq<VSStatus>, stats: seq<VSStats>, vss: seq<VSInfo>) {
    && |vss| == |sts|
    && forall i :: 0 <= i < |vss| ==>
         && vss[i].status == sts[i]
         && gw.getVirtualServer(PathToID(sts[i].virtualServerPath)) == Ok(vss[i].config)
         && vss[i].stats.virtualServerPath == sts[i].virtualServerPath
         && vss[i].stats in stats
  }

  /** Each joined member carries its status entry and a statistics entry of the same
      `ip:port`, in status order. */
  predicate MembersJoined(sts: seq<MemberStatus>, stats: seq<MemberStats>, ms: seq<MemberInfo>) {
    && |ms| == |sts|
    && forall j :: 0 <= j < |ms| ==>
         && ms[j].status == sts[j]
         && MemberStatsKey(ms[j].stats) == MemberKey(sts[j].ipAddress, sts[j].port)
         && ms[j].stats in stats
  }

  /** A joined pool carries its status entry, the configuration fetched by its path's
      last segment, a statistics entry with the same path, and its joined members. */
  predicate PoolJoined(gw: Gateway, st: PoolStatus, stats: seq<PoolStats>, p: PoolInfo) {
    && p.status == st
    && gw.getPool(PathToID(st.poolPath)) == Ok(p.config)
    && p.stats.poolPath == st.poolPath
    && p.stats in stats
    && MembersJoined(st.members, p.stats.members, p.members)
  }

  /** One joined pool per pool status, in status order. */
  predicate PoolsJoined(gw: Gateway, sts: seq<PoolStatus>, stats: seq<PoolStats>, pools: seq<PoolInfo>) {
    && |pools| == |sts|
    && forall i :: 0 <= i < |pools| ==> PoolJoined(gw, sts[i], stats, pools[i])
  }

  lemma VSJoinedAll(gw: Gateway, sts: seq<VSStatus>, stats: seq<VSStats>)
    requires MapAll(VSJoiner(gw, stats), sts).Ok?
    ensures VSJoined(gw, sts, stats, MapAll(VSJoiner(gw, stats), sts).value)
  {
    MapAllOk(VSJoiner(gw, stats), sts);
  }

  lemma MembersJoinedAll(sts: seq<MemberStatus>, stats: seq<MemberStats>)
    requires MapAll(MemberJoiner(stats), sts).Ok?
    ensures MembersJoined(sts, stats, MapAll(MemberJoiner(stats), sts).value)
  {
    MapAllOk(MemberJoiner(stats), sts);
  }

  lemma JoinPoolOk(gw: Gateway, st: PoolStatus, stats: seq<PoolStats>)
    requires JoinPool(gw, st, stats).Ok?
    ensures PoolJoined(gw, st, stats, JoinPool(gw, st, stats).value)
  {
    var k := FirstIndex(PoolStatsPath, st.poolPath, stats).value;
    MembersJoinedAll(st.members, stats[k].members);
  }

  lemma PoolsJoinedAll(gw: Gateway, sts: seq<PoolStatus>, stats: seq<PoolStats>)
    requires MapAll(PoolJoiner(gw, stats), sts).Ok?
    ensures PoolsJoined(gw, sts, stats, MapAll(PoolJoiner(gw, stats), sts).value)
  {
    var pools := MapAll(PoolJoiner(gw, stats), sts).value;
    MapAllOk(PoolJoiner(gw, stats), sts);
    forall i | 0 <= i < |pools|
      ensures PoolJoined(gw, sts[i], stats, pools[i])
    {
      assert pools[i] == JoinPool(gw, sts[i], stats).value;
      JoinPoolOk(gw, sts[i], stats);
    }
  }

  /** The joined record lines up with what it was built from: the fetched configuration,
      and virtual servers and pools joined entry by entry with the status. */
  lemma LBInfoJoined(gw: Gateway, lbID: string)
    requires LBInfoOf(gw, lbID).Ok?
    ensures var info := LBInfoOf(gw, lbID).value;
            && gw.getLB(lbID) == Ok(info.config)
            && GetLBServiceStatus(gw, lbID) == Ok(info.status)
            && GetLBServiceStats(gw, lbID) == Ok(info.stats)
            && VSJoined(gw, info.status.virtualServers, info.stats.virtualServers, info.virtualServers)
            && PoolsJoined(gw, info.status.pools, info.stats.pools, info.pools)
  {
    var info := LBInfoOf(gw, lbID).value;
    VSJoinedAll(gw, info.status.virtualServers, info.stats.virtualServers);
    PoolsJoinedAll(gw, info.status.pools, info.stats.pools);
  }

  /** A virtual server whose path has no statistics entry makes the whole call fail
      once every earlier virtual server joined, with the lookup's error. */
  lemma MissingVSStatsAborts(gw: Gateway, lbID: string, i: nat)
    requires gw.getLB(lbID).Ok? && GetLBServiceStatus(gw, lbID).Ok? && GetLBServiceStats(gw, lbID).Ok?
    requires var sts := GetLBServiceStatus(gw, lbID).value.virtualServers;
             var stats := GetLBServiceStats(gw, lbID).value.virtualServers;
             && i < |sts|
             && MapAll(VSJoiner(gw, stats), sts[..i]).Ok?
             && gw.getVirtualServer(PathToID(sts[i].virtualServerPath)).Ok?
             && forall j :: 0 <= j < |stats| ==> stats[j].virtualServerPath != sts[i].virtualServerPath
    ensures LBInfoOf(gw, lbID) == Err(NotFound(GetLBServiceStatus(gw, lbID).value.virtualServers[i].virtualServerPath))
  {
    var sts := GetLBServiceStatus(gw, lbID).value.virtualServers;
    var stats := GetLBServiceStats(gw, lbID).value.virtualServers;
    MapAllStopsAt(VSJoiner(gw, stats), sts, i);
  }

  /** What `GetLBServiceInfo` AS WRITTEN comes to: a nil dereference, a result, or a
      result whose statistics are nil (a successful call whose statistics came back as
      (nil, nil), for a load balancer with no virtual server and no pool). */
  datatype WrittenOutcome =
    | Crash
    | Returns(r: Result<LBInfo>)
    | NilStats(config: LBService, status: LBServiceStatus)

  /** The loops of `GetLBServiceInfo` as written over a nil statistics record: each
      configuration fetch runs first, and the first one that succeeds is followed by a
      lookup in the nil record's lists, which dereferences it. */
  function NilStatsLoops(gw: Gateway, config: LBService, status: LBServiceStatus): WrittenOutcome {
    if status.virtualServers != [] then
      match gw.getVirtualServer(PathToID(status.virtualServers[0].virtualServerPath))
      case Err(e) => Returns(Err(e))
      case Ok(_) => Crash
    else if status.pools != [] then
      match gw.getPool(PathToID(status.pools[0].poolPath))
      case Err(e) => Returns(Err(e))
      case Ok(_) => Crash
    else NilStats(config, status)
  }

  /** `GetLBServiceInfo` AS WRITTEN, with the written status and statistics fetches: a
      nil status is fetched past, the statistics are fetched, and the loop over the nil
      status's virtual servers dereferences it; a nil statistics record is dereferenced
      only by the lookups inside the loops. */
  function LBInfoAsWritten(gw: Gateway, lbID: string): WrittenOutcome {
    match gw.getLB(lbID)
    case Err(e) => Returns(Err(e))
    case Ok(config) =>
      match ExactlyOneAsWritten(gw.lbStatus(lbID))
      case (_, Some(e)) => Returns(Err(e))
      case (status, None) =>
        match ExactlyOneAsWritten(gw.lbStats(lbID))
        case (_, Some(e)) => Returns(Err(e))
        case (stats, None) =>
          if status.None? then Crash
          else if stats.None? then NilStatsLoops(gw, config, status.value)
          else
            var vss := MapAll(VSJoiner(gw, stats.value.virtualServers), status.value.virtualServers);
            var pools := MapAll(PoolJoiner(gw, stats.value.pools), status.value.pools);
            Returns(if vss.Err? then Err(vss.error)
                    else if pools.Err? then Err(pools.error)
                    else Ok(LBInfo(config, status.value, stats.value, vss.value, pools.value)))
  }

  /** The finding: a load balancer whose detailed status comes back empty, and whose
      statistics call succeeds, crashes the written code instead of failing the call. */
  lemma EmptyStatusCrashes(gw: Gateway, lbID: string)
    requires gw.getLB(lbID).Ok? && gw.lbStatus(lbID) == Ok([]) && gw.lbStats(lbID).Ok?
    ensures LBInfoAsWritten(gw, lbID) == Crash
    ensures LBInfoOf(gw, lbID) == Err(Error("not found"))
  {
  }

  /** With an empty detailed status and a failing statistics call, the written code
      returns the statistics call's error where the corrected one reports the status. */
  lemma EmptyStatusStatsError(gw: Gateway, lbID: string)
    requires gw.getLB(lbID).Ok? && gw.lbStatus(lbID) == Ok([]) && gw.lbStats(lbID).Err?
    ensures LBInfoAsWritten(gw, lbID) == Returns(Err(gw.lbStats(lbID).error))
    ensures LBInfoOf(gw, lbID) == Err(Error("not found"))
  {
  }

  /** A load balancer with no virtual server and no pool whose statistics come back
      empty: the written call succeeds with nil statistics (which `Populate` in
      metrics/load_balancer.go then dereferences), the corrected one fails. */
  lemma NilStatsNoChildrenSucceeds(gw: Gateway, lbID: string)
    requires gw.getLB(lbID).Ok? && GetLBServiceStatus(gw, lbID).Ok?
    requires GetLBServiceStatus(gw, lbID).value.virtualServers == []
    requires GetLBServiceStatus(gw, lbID).value.pools == []
    requires gw.lbStats(lbID) == Ok([])
    ensures LBInfoAsWritten(gw, lbID) == NilStats(gw.getLB(lbID).value, GetLBServiceStatus(gw, lbID).value)
    ensures LBInfoOf(gw, lbID) == Err(Error("not found"))
  {
  }

  /** The corrected call against the written one: the corrected call succeeds exactly
      when the written one returns a record, with the same record; where the written
      one returns an error, crashes, or succeeds with nil statistics, the corrected one
      fails; and once both fetches give a record, the two agree. */
  lemma {:induction false} LBInfoCorrects(gw: Gateway, lbID: string)
    ensures LBInfoOf(gw, lbID).Ok? <==> LBInfoAsWritten(gw, lbID).Returns? && LBInfoAsWritten(gw, lbID).r.Ok?
    ensures LBInfoAsWritten(gw, lbID).Returns? && LBInfoAsWritten(gw, lbID).r.Ok? ==>
              LBInfoOf(gw, lbID) == LBInfoAsWritten(gw, lbID).r
    ensures LBInfoAsWritten(gw, lbID).Returns? && LBInfoAsWritten(gw, lbID).r.Err? ==> LBInfoOf(gw, lbID).Err?
    ensures LBInfoAsWritten(gw, lbID).Crash? ==> LBInfoOf(gw, lbID).Err?
    ensures LBInfoAsWritten(gw, lbID).NilStats? ==> LBInfoOf(gw, lbID).Err?
    ensures ExactlyOneAsWritten(gw.lbStatus(lbID)).0.Some? && ExactlyOneAsWritten(gw.lbStats(lbID)).0.Some? ==>
              LBInfoAsWritten(gw, lbID) == Returns(LBInfoOf(gw, lbID))
  {
    ExactlyOneCorrects(gw.lbStatus(lbID));
    ExactlyOneCorrects(gw.lbStats(lbID));
  }

  /** `GetLBServiceInfo`: the three fetches in order, then the nested join loops; any
      miss aborts the whole call. */
  method GetLBServiceInfo(gw: Gateway, lbID: string) returns (r: Result<LBInfo>)
    ensures r == LBInfoOf(gw, lbID)
  {
    var config := gw.getLB(lbID);
    if config.Err? {
      return Err(config.error);
    }
    var status := GetLBServiceStatus(gw, lbID);
    if status.Err? {
      return Err(status.error);
    }
    var stats := GetLBServiceStats(gw, lbID);
    if stats.Err? {
      return Err(stats.error);
    }
    var virtualServers := VirtualServers(gw, status.value.virtualServers, stats.value.virtualServers);
    if virtualServers.Err? {
      return Err(virtualServers.error);
    }
    var pools := Pools(gw, status.value.pools, stats.value.pools);
    if pools.Err? {
      return Err(pools.error);
    }
    return Ok(LBInfo(config.value, status.value, stats.value, virtualServers.value, pools.value));
  }

  /** The virtual-server loop of `GetLBServiceInfo`. */
  method VirtualServers(gw: Gateway, vsStatuses: seq<VSStatus>, vsStats: seq<VSStats>) returns (r: Result<seq<VSInfo>>)
    ensures r == MapAll(VSJoiner(gw, vsStats), vsStatuses)
  {
    var virtualServers: seq<VSInfo> := [];
    var i := 0;
    while i < |vsStatuses|
      invariant 0 <= i <= |vsStatuses|
      invariant MapAll(VSJoiner(gw, vsStats), vsStatuses[..i]) == Ok(virtualServers)
    {
      var cStatus := vsStatuses[i];
      assert vsStatuses[..i + 1][..i] == vsStatuses[..i];
      var vsConfig := gw.getVirtualServer(PathToID(cStatus.virtualServerPath));
      if vsConfig.Err? {
        MapAllStopsAt(VSJoiner(gw, vsStats), vsStatuses, i);
        return Err(vsConfig.error);
      }
      var st := Search(VSStatsPath, cStatus.virtualServerPath, vsStats);
      if st.Err? {
        MapAllStopsAt(VSJoiner(gw, vsStats), vsStatuses, i);
        return Err(st.error);
      }
      virtualServers := virtualServers + [VSInfo(vsConfig.value, cStatus, st.value)];
      i := i + 1;
    }
    assert vsStatuses[..i] == vsStatuses;
    return Ok(virtualServers);
  }

  /** The pool loop of `GetLBServiceInfo`, with its nested member loop. */
  method Pools(gw: Gateway, poolStatuses: seq<PoolStatus>, poolStats: seq<PoolStats>) returns (r: Result<seq<PoolInfo>>)
    ensures r == MapAll(PoolJoiner(gw, poolStats), poolStatuses)
  {
    var pools: seq<PoolInfo> := [];
    var i := 0;
    while i < |poolStatuses|
      invariant 0 <= i <= |poolStatuses|
      invariant MapAll(PoolJoiner(gw, poolStats), poolStatuses[..i]) == Ok(pools)
    {
      var cStatus := poolStatuses[i];
      assert poolStatuses[..i + 1][..i] == poolStatuses[..i];
      var pool := OnePool(gw, cStatus, poolStats);
      if pool.Err? {
        MapAllStopsAt(PoolJoiner(gw, poolStats), poolStatuses, i);
        return Err(pool.error);
      }
      pools := pools + [pool.value];
      i := i + 1;
    }
    assert poolStatuses[..i] == poolStatuses;
    return Ok(pools);
  }

  /** One pass of the pool loop: configuration, statistics, then the members. */
  method OnePool(gw: Gateway, cStatus: PoolStatus, poolStats: seq<PoolStats>) returns (r: Result<PoolInfo>)
    ensures r == JoinPool(gw, cStatus, poolStats)
  {
    var poolConfig := gw.getPool(PathToID(cStatus.poolPath));
    if poolConfig.Err? {
      return Err(poolConfig.error);
    }
    var st := Search(PoolStatsPath, cStatus.poolPath, poolStats);
    if st.Err? {
      return Err(st.error);
    }
    var members := Members(cStatus.members, st.value.members);
    if members.Err? {
      return Err(members.error);
    }
    return Ok(PoolInfo(poolConfig.value, cStatus, st.value, members.value));
  }

  /** The member loop of `GetLBServiceInfo`: each member status is matched with the
      first statistics entry of the same `ip:port`. */
  method Members(statuses: seq<MemberStatus>, stats: seq<MemberStats>) returns (r: Result<seq<MemberInfo>>)
    ensures r == MapAll(MemberJoiner(stats), statuses)
  {
    var members: seq<MemberInfo> := [];
    var j := 0;
    while j < |statuses|
      invariant 0 <= j <= |statuses|
      invariant MapAll(MemberJoiner(stats), statuses[..j]) == Ok(members)
    {
      var cMember := statuses[j];
      assert statuses[..j + 1][..j] == statuses[..j];
      var id := MemberKey(cMember.ipAddress, cMember.port);
      var mStat := Search(MemberStatsKey, id, stats);
      if mStat.Err? {
        MapAllStopsAt(MemberJoiner(stats), statuses, j);
        return Err(mStat.error);
      }
      members := members + [MemberInfo(cMember, mStat.value)];
      j := j + 1;
    }
    assert statuses[..j] == statuses;
    return Ok(members);
  }
}
