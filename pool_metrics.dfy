/** metrics/pool.go: the families describing one pool and, through the member group
    it owns, each of its joined members. */
module PoolMetrics {
  import opened Common
  import opened Records
  import opened Gauge
  import opened Setter
  import opened GenericMetrics
  import opened Text

  /** The label names every pool family starts with. */
  const BaseLabels: seq<string> := ["name", "id"]

  /** The label names of the member families: the pool's, then the member's address and port. */
  const MemberLabels: seq<string> := BaseLabels + ["ip", "port"]

  /** The label names `pool_status` is declared with AS WRITTEN: one more than
      `Populate` ever writes. */
  const StatusLabelsAsWritten: seq<string> := BaseLabels + ["status"]

  /** The corrected declaration of `pool_status`. */
  const StatusLabels: seq<string> := BaseLabels

  /** The label names `pool_member_status` is declared with AS WRITTEN, given the
      names `names` of its member group: again one more than is written. */
  function MemberStatusLabelsAsWritten(names: seq<string>): seq<string> { names + ["status"] }

  /** The corrected declaration of `pool_member_status`. */
  function MemberStatusLabels(names: seq<string>): seq<string> { names }

  // The help texts of the families.
  const MemberStatusHelp: string := "Gives status of pool, 1 is UP"
  const MemberFailureHelp: string := "Gives failure cause as label if any, value is always 1"
  const StatusHelp: string := "Gives status of pool, 1 is UP"
  const InfoHelp: string := "Give informations as label about pool, value is always 1"
  const AlarmHelp: string := "Give currently firing alarms if any on pool, value is always 1"
  const MemberCountHelp: string := "Current number of member in pool"
  const MemberMinHelp: string := "Minimum number of member to consider pool active"

  // ---- the member group ----

  /** The label values one member is recorded under: the pool's, then its address and
      port (the join only keeps members whose address and port are set). */
  function MemberLabelValues(labels: seq<string>, status: MemberStatus): seq<string> {
    Slice(labels, [status.ipAddress, status.port])
  }

  /** The abstract value of a `MemberMetrics`: its network group, `failure` and `status`. */
  datatype MemberFamilies = MemberFamilies(network: NetworkMetrics, failure: GaugeVec, status: GaugeVec)
  {
    /** The group declares `names` (the failure family one more, the cause) and holds
        only series of those arities. */
    ghost predicate Declares(names: seq<string>) {
      && network.Declares(names)
      && Declared(failure, names + ["cause"])
      && Declared(status, MemberStatusLabels(names))
    }

    /** All sixteen families. */
    function All(): seq<GaugeVec> {
      [failure, status] + network.Families()
    }

    /** `MemberMetrics.Reset`: the network group, `failure` and `status` cleared. */
    function Reset(): MemberFamilies {
      MemberFamilies(network.Reset(), Gauge.Reset(failure), Gauge.Reset(status))
    }

    /** `MemberMetrics.Populate` for one member of the pool labelled `labels`. */
    function Populate(status: MemberStatus, stats: MemberStats, labels: seq<string>): MemberFamilies {
      var memberLabels := MemberLabelValues(labels, status);
      MemberFamilies(
        network.Populate(memberLabels, stats.statistics),
        SetLOf(failure, memberLabels, [StrLabel(status.failureCause)]),
        SetV(this.status, memberLabels, status.status, StatusUp))
    }
  }

  /** `NewMemberMetrics`: the member families under `labels` extended by address and
      port, with the corrected status declaration. */
  function NewMemberFamilies(namespace: string, labels: seq<string>): (r: MemberFamilies)
    ensures r.Declares(labels + ["ip", "port"])
    ensures r.status.opts.name == "pool_member_status" && r.failure.opts.name == "pool_member_failure"
  {
    var names := Slice(labels, ["ip", "port"]);
    NewNetworkDeclares(namespace, "pool_member", names);
    MemberFamilies(
      NewNetworkMetrics(namespace, "pool_member", names),
      NewGaugeVec(namespace, "pool_member_failure", MemberFailureHelp, Slice(names, ["cause"])),
      NewGaugeVec(namespace, "pool_member_status", MemberStatusHelp, MemberStatusLabels(names)))
  }

  /** What populating one member shows: `status` is 1 exactly for an "UP" member, a
      failure series (with the cause as last label) exists only for a present cause,
      and the network counters are written under the member's labels. */
  lemma MemberPopulateWrites(m: MemberFamilies, status: MemberStatus, stats: MemberStats, labels: seq<string>)
    ensures var r := m.Populate(status, stats, labels); var key := labels + [status.ipAddress, status.port];
      && key in r.status.values
      && (r.status.values[key] == 1.0 <==> status.status == Some(StatusUp))
      && (r.status.values[key] == 0.0 <==> status.status != Some(StatusUp))
      && r.status == Set(m.status, key, r.status.values[key])
      && (status.failureCause.None? ==> r.failure == m.failure)
      && (status.failureCause.Some? ==> r.failure == Set(m.failure, key + [status.failureCause.value], 1.0))
      && r.network == m.network.Populate(key, stats.statistics)
  {
    if status.failureCause.Some? {
      assert Present([StrLabel(status.failureCause)]) == [status.failureCause.value];
    }
  }

  /** With the corrected declaration a member's writes keep every family consistent. */
  lemma MemberPopulateKeepsDeclares(m: MemberFamilies, names: seq<string>, status: MemberStatus,
                                    stats: MemberStats, labels: seq<string>)
    requires m.Declares(names) && |labels| + 2 == |names|
    ensures m.Populate(status, stats, labels).Declares(names)
  {
    var r := m.Populate(status, stats, labels);
    var key := MemberLabelValues(labels, status);
    SetKeepsConsistent(m.status, key, r.status.values[key]);
    if status.failureCause.Some? {
      assert Present([StrLabel(status.failureCause)]) == [status.failureCause.value];
      SetKeepsConsistent(m.failure, key + [status.failureCause.value], 1.0);
    }
    NetworkPopulateKeepsDeclares(m.network, names, key, stats.statistics);
  }

  /** A member's writes stay under the labels of its pool. */
  lemma MemberPopulateSameOutside(m: MemberFamilies, status: MemberStatus, stats: MemberStats, labels: seq<string>)
    ensures AllSameOutside(m.All(), m.Populate(status, stats, labels).All(), labels)
  {
    var r := m.Populate(status, stats, labels);
    var key := MemberLabelValues(labels, status);
    SetSameOutside(m.status, key, r.status.values[key], labels);
    if status.failureCause.Some? {
      assert Present([StrLabel(status.failureCause)]) == [status.failureCause.value];
      SetSameOutside(m.failure, key + [status.failureCause.value], 1.0, labels);
    }
    assert AllSameOutside([m.failure, m.status], [r.failure, r.status], labels);
    NetworkPopulateSameOutside(m.network, key, stats.statistics, labels);
    AllSameOutsideConcat([m.failure, m.status], [r.failure, r.status], m.network.Families(), r.network.Families(), labels);
  }

  /** The member-status arity finding: declared as written, `pool_member_status`
      cannot hold the series a member writes to it. */
  lemma MemberStatusAsWrittenInconsistent(m: MemberFamilies, names: seq<string>, status: MemberStatus,
                                          stats: MemberStats, labels: seq<string>)
    requires m.status.opts.labelNames == MemberStatusLabelsAsWritten(names) && |labels| + 2 == |names|
    ensures !Consistent(m.Populate(status, stats, labels).status)
  {
    var key := MemberLabelValues(labels, status);
    SetOtherArityInconsistent(m.status, key, m.Populate(status, stats, labels).status.values[key]);
  }

  /** A reset member group keeps its declarations and holds nothing. */
  lemma MemberResetClears(m: MemberFamilies, names: seq<string>)
    requires m.Declares(names)
    ensures m.Reset().Declares(names)
    ensures AllCleared(m.Reset().All())
  {
    NetworkResetClears(m.network, names);
    var r := m.Reset();
    assert AllCleared([r.failure, r.status]);
    AllClearedConcat([r.failure, r.status], r.network.Families());
  }

  /** The member loop of `PoolMetrics.Populate`: each joined member, in order. */
  function PopulateMembers(m: MemberFamilies, members: seq<MemberInfo>, labels: seq<string>): MemberFamilies
    decreases |members|
  {
    if members == [] then m
    else
      var last := members[|members| - 1];
      PopulateMembers(m, members[..|members| - 1], labels).Populate(last.status, last.stats, labels)
  }

  lemma {:induction false} PopulateMembersKeepsDeclares(m: MemberFamilies, names: seq<string>,
                                                        members: seq<MemberInfo>, labels: seq<string>)
    requires m.Declares(names) && |labels| + 2 == |names|
    ensures PopulateMembers(m, members, labels).Declares(names)
    decreases |members|
  {
    if members != [] {
      var last := members[|members| - 1];
      PopulateMembersKeepsDeclares(m, names, members[..|members| - 1], labels);
      MemberPopulateKeepsDeclares(PopulateMembers(m, members[..|members| - 1], labels), names,
                                  last.status, last.stats, labels);
    }
  }

  /** The members of one pool write only series labelled with that pool's name and id. */
  lemma {:induction false} PopulateMembersSameOutside(m: MemberFamilies, members: seq<MemberInfo>, labels: seq<string>)
    ensures AllSameOutside(m.All(), PopulateMembers(m, members, labels).All(), labels)
    decreases |members|
  {
    if members == [] {
      assert AllSameOutside(m.All(), m.All(), labels);
    } else {
      var last := members[|members| - 1];
      var before := PopulateMembers(m, members[..|members| - 1], labels);
      PopulateMembersSameOutside(m, members[..|members| - 1], labels);
      MemberPopulateSameOutside(before, last.status, last.stats, labels);
      AllSameOutsideTrans(m.All(), before.All(), before.Populate(last.status, last.stats, labels).All(), labels);
    }
  }

  /** Every joined member has a status series under the pool labels plus its address
      and port; unless a later member shares that address and port, it is 1 exactly
      when that member is "UP". */
  lemma {:induction false} PopulateMembersStatus(m: MemberFamilies, members: seq<MemberInfo>, labels: seq<string>, i: nat)
    requires i < |members|
    requires forall j :: i < j < |members| ==>
               MemberLabelValues(labels, members[j].status) != MemberLabelValues(labels, members[i].status)
    ensures var r := PopulateMembers(m, members, labels); var key := MemberLabelValues(labels, members[i].status);
      && key in r.status.values
      && (r.status.values[key] == 1.0 <==> members[i].status.status == Some(StatusUp))
    decreases |members|
  {
    var init := members[..|members| - 1];
    var last := members[|members| - 1];
    var before := PopulateMembers(m, init, labels);
    var key := MemberLabelValues(labels, members[i].status);
    MemberPopulateWrites(before, last.status, last.stats, labels);
    if i < |members| - 1 {
      assert init[i] == members[i];
      forall j | i < j < |init|
        ensures MemberLabelValues(labels, init[j].status) != MemberLabelValues(labels, init[i].status)
      {
        assert init[j] == members[j];
      }
      PopulateMembersStatus(m, init, labels, i);
      assert MemberLabelValues(labels, last.status) != key;
    }
  }

  // ---- the pool ----

  /** The label values a pool is recorded under: its name and id, empty when absent. */
  function Labels(p: PoolInfo): seq<string> {
    [ZeroString(p.config.displayName), ZeroString(p.config.id)]
  }

  /** The label values of `pool_info`: the member-group port in decimal (0 when absent)
      and the algorithm (empty when absent). */
  function InfoLabels(p: PoolInfo): seq<string> {
    Slice(Labels(p), [FormatInt(ZeroInt(p.config.memberGroup.port)), ZeroString(p.config.algorithm)])
  }

  /** The abstract value of a `PoolMetrics`: its network group, five families and its
      member group. */
  datatype PoolFamilies = PoolFamilies(
    network: NetworkMetrics, info: GaugeVec, alarm: GaugeVec, status: GaugeVec,
    memberCount: GaugeVec, memberMin: GaugeVec, member: MemberFamilies)
  {
    /** Each family declares its label names and holds only series of that arity. */
    ghost predicate Declares() {
      && network.Declares(BaseLabels)
      && Declared(info, BaseLabels + ["port", "algorithm"])
      && Declared(alarm, BaseLabels + ["error_id", "message"])
      && Declared(status, StatusLabels)
      && Declared(memberCount, BaseLabels)
      && Declared(memberMin, BaseLabels)
      && member.Declares(MemberLabels)
    }

    /** `PoolMetrics.Reset`: everything but `memberCount`. */
    function Reset(): PoolFamilies {
      PoolFamilies(network.Reset(), Gauge.Reset(info), Gauge.Reset(alarm), Gauge.Reset(status),
                   memberCount, Gauge.Reset(memberMin), member.Reset())
    }

    /** `PoolMetrics.Populate` for one joined pool record. */
    function Populate(p: PoolInfo): PoolFamilies {
      var labels := Labels(p);
      PoolFamilies(
        network.Populate(labels, p.stats.statistics),
        SetValue(info, InfoLabels(p), 1.0),
        if p.status.alarm.Some?
        then SetValue(alarm, Slice(labels, [ZeroString(p.status.alarm.value.errorId),
                                            ZeroString(p.status.alarm.value.message)]), 1.0)
        else alarm,
        SetV(status, labels, p.status.status, StatusUp),
        SetValue(memberCount, labels, |p.status.members| as real),
        SetP(memberMin, labels, p.config.minActiveMembers),
        PopulateMembers(member, p.members, labels))
    }
  }

  /** The five families of the pool itself. */
  function Plain(f: PoolFamilies): seq<GaugeVec> {
    [f.info, f.alarm, f.status, f.memberCount, f.memberMin]
  }

  /** All thirty-five families. */
  function All(f: PoolFamilies): seq<GaugeVec> {
    Plain(f) + f.network.Families() + f.member.All()
  }

  /** The families `NewPoolMetrics` registers, with the corrected status declarations. */
  function NewPoolFamilies(namespace: string): (r: PoolFamilies)
    ensures r.Declares()
    ensures r.info.opts.name == "pool_info" && r.alarm.opts.name == "pool_alarm"
    ensures r.status.opts.name == "pool_status" && r.memberCount.opts.name == "pool_member"
    ensures r.memberMin.opts.name == "pool_member_min"
  {
    var labels := BaseLabels;
    NewNetworkDeclares(namespace, "pool", labels);
    PoolFamilies(
      NewNetworkMetrics(namespace, "pool", labels),
      NewGaugeVec(namespace, "pool_info", InfoHelp, Slice(labels, ["port", "algorithm"])),
      NewGaugeVec(namespace, "pool_alarm", AlarmHelp, Slice(labels, ["error_id", "message"])),
      NewGaugeVec(namespace, "pool_status", StatusHelp, StatusLabels),
      NewGaugeVec(namespace, "pool_member", MemberCountHelp, labels),
      NewGaugeVec(namespace, "pool_member_min", MemberMinHelp, labels),
      NewMemberFamilies(namespace, labels))
  }

  /** What populating one pool shows: `status` is 1 exactly for an "UP" pool, the info
      series carries the port and algorithm, `memberCount` is the number of members in
      the status (not of joined members), `memberMin` and the alarm are written only
      when present, and the member group sees every joined member in order. */
  lemma PopulateWrites(f: PoolFamilies, p: PoolInfo)
    ensures var r := f.Populate(p); var labels := Labels(p);
      && labels in r.status.values
      && (r.status.values[labels] == 1.0 <==> p.status.status == Some(StatusUp))
      && (r.status.values[labels] == 0.0 <==> p.status.status != Some(StatusUp))
      && r.info == Set(f.info, labels + [FormatInt(ZeroInt(p.config.memberGroup.port)), ZeroString(p.config.algorithm)], 1.0)
      && r.memberCount == Set(f.memberCount, labels, |p.status.members| as real)
    ensures var r := f.Populate(p); var labels := Labels(p);
      && (p.status.alarm.None? ==> r.alarm == f.alarm)
      && (p.status.alarm.Some? ==>
            r.alarm == Set(f.alarm, labels + [ZeroString(p.status.alarm.value.errorId),
                                              ZeroString(p.status.alarm.value.message)], 1.0))
      && (p.config.minActiveMembers.None? ==> r.memberMin == f.memberMin)
      && (p.config.minActiveMembers.Some? ==> r.memberMin == Set(f.memberMin, labels, p.config.minActiveMembers.value))
      && r.network == f.network.Populate(labels, p.stats.statistics)
      && r.member == PopulateMembers(f.member, p.members, labels)
  {
  }

  lemma PlainSameOutside(f: PoolFamilies, p: PoolInfo)
    ensures AllSameOutside(Plain(f), Plain(f.Populate(p)), Labels(p))
  {
    var labels := Labels(p);
    var r := f.Populate(p);
    SetSameOutside(f.info, InfoLabels(p), 1.0, labels);
    if p.status.alarm.Some? {
      SetSameOutside(f.alarm, labels + [ZeroString(p.status.alarm.value.errorId),
                                        ZeroString(p.status.alarm.value.message)], 1.0, labels);
    }
    SetSameOutside(f.status, labels, r.status.values[labels], labels);
    SetSameOutside(f.memberCount, labels, |p.status.members| as real, labels);
    SetPSameOutside(f.memberMin, labels, p.config.minActiveMembers, labels);
  }

  /** Populating one pool, members included, touches only series labelled with its
      name and id. */
  lemma PopulateSameOutside(f: PoolFamilies, p: PoolInfo)
    ensures AllSameOutside(All(f), All(f.Populate(p)), Labels(p))
  {
    var labels := Labels(p);
    var r := f.Populate(p);
    PlainSameOutside(f, p);
    NetworkPopulateSameOutside(f.network, labels, p.stats.statistics, labels);
    PopulateMembersSameOutside(f.member, p.members, labels);
    AllSameOutsideConcat(Plain(f), Plain(r), f.network.Families(), r.network.Families(), labels);
    AllSameOutsideConcat(Plain(f) + f.network.Families(), Plain(r) + r.network.Families(),
                         f.member.All(), r.member.All(), labels);
  }

  /** With the corrected declarations every write has its family's arity. */
  lemma PopulateKeepsDeclares(f: PoolFamilies, p: PoolInfo)
    requires f.Declares()
    ensures f.Populate(p).Declares()
  {
    var labels := Labels(p);
    var r := f.Populate(p);
    SetKeepsConsistent(f.info, InfoLabels(p), 1.0);
    if p.status.alarm.Some? {
      SetKeepsConsistent(f.alarm, labels + [ZeroString(p.status.alarm.value.errorId),
                                            ZeroString(p.status.alarm.value.message)], 1.0);
    }
    SetKeepsConsistent(f.status, labels, r.status.values[labels]);
    SetKeepsConsistent(f.memberCount, labels, |p.status.members| as real);
    SetPKeepsConsistent(f.memberMin, labels, p.config.minActiveMembers);
    NetworkPopulateKeepsDeclares(f.network, BaseLabels, labels, p.stats.statistics);
    PopulateMembersKeepsDeclares(f.member, MemberLabels, p.members, labels);
  }

  /** The pool-status arity finding: declared as written, `pool_status` cannot hold the
      series `Populate` writes to it. */
  lemma StatusAsWrittenInconsistent(f: PoolFamilies, p: PoolInfo)
    requires f.status.opts.labelNames == StatusLabelsAsWritten
    ensures !Consistent(f.Populate(p).status)
  {
    var labels := Labels(p);
    SetOtherArityInconsistent(f.status, labels, f.Populate(p).status.values[labels]);
  }

  /** A reset keeps every declaration and clears every family except `memberCount`,
      which keeps all its series, those of pools gone since included. */
  lemma ResetClears(f: PoolFamilies)
    requires f.Declares()
    ensures f.Reset().Declares()
    ensures f.Reset().memberCount == f.memberCount
    ensures var r := f.Reset();
      AllCleared([r.info, r.alarm, r.status, r.memberMin] + r.network.Families() + r.member.All())
  {
    NetworkResetClears(f.network, BaseLabels);
    MemberResetClears(f.member, MemberLabels);
    var r := f.Reset();
    assert AllCleared([r.info, r.alarm, r.status, r.memberMin]);
    AllClearedConcat([r.info, r.alarm, r.status, r.memberMin], r.network.Families());
    AllClearedConcat([r.info, r.alarm, r.status, r.memberMin] + r.network.Families(), r.member.All());
  }

  // ---- the objects ----

  /** `MemberMetrics`: the member families, updated in place. `names` are the label
      names the group was created with. */
  class MemberMetrics {
    var network: NetworkMetrics
    var failure: GaugeVec
    var status: GaugeVec
    ghost var names: seq<string>

    function Families(): MemberFamilies
      reads this
    {
      MemberFamilies(network, failure, status)
    }

    ghost predicate Valid()
      reads this
    {
      Families().Declares(names)
    }

    /** Stores a snapshot into the fields. */
    method Store(f: MemberFamilies)
      modifies this
      ensures Families() == f && names == old(names)
    {
      network, failure, status := f.network, f.failure, f.status;
    }

    /** `NewMemberMetrics` */
    constructor(namespace: string, labels: seq<string>)
      ensures Valid() && names == labels + ["ip", "port"]
      ensures Families() == NewMemberFamilies(namespace, labels)
    {
      names := labels + ["ip", "port"];
      new;
      Store(NewMemberFamilies(namespace, labels));
    }

    /** `MemberMetrics.Reset` */
    method Reset()
      requires Valid()
      modifies this
      ensures Valid() && names == old(names) && Families() == old(Families()).Reset()
    {
      var next := MemberFamilies(network.Reset(), Gauge.Reset(failure), Gauge.Reset(status));
      MemberResetClears(Families(), names);
      Store(next);
    }

    /** `MemberMetrics.Populate`, under the labels of the member's pool. */
    method Populate(memberStatus: MemberStatus, stats: MemberStats, labels: seq<string>)
      requires Valid() && |labels| + 2 == |names|
      modifies this
      ensures Valid() && names == old(names)
      ensures Families() == old(Families()).Populate(memberStatus, stats, labels)
    {
      var memberLabels := MemberLabelValues(labels, memberStatus);
      var newFailure := SetL(failure, memberLabels, [StrLabel(memberStatus.failureCause)]);
      var next := MemberFamilies(
        network.Populate(memberLabels, stats.statistics),
        newFailure,
        SetV(status, memberLabels, memberStatus.status, StatusUp));
      MemberPopulateKeepsDeclares(Families(), names, memberStatus, stats, labels);
      Store(next);
    }
  }

  /** `PoolMetrics`: the pool families, updated in place, and the member group it
      points to. */
  class PoolMetrics {
    var network: NetworkMetrics
    var info: GaugeVec
    var alarm: GaugeVec
    var status: GaugeVec
    var memberCount: GaugeVec
    var memberMin: GaugeVec
    const member: MemberMetrics

    function Families(): PoolFamilies
      reads this, member
    {
      PoolFamilies(network, info, alarm, status, memberCount, memberMin, member.Families())
    }

    ghost predicate Valid()
      reads this, member
    {
      member.names == MemberLabels && Families().Declares()
    }

    /** Stores the pool's own families, leaving the member group alone. */
    method Store(f: PoolFamilies)
      modifies this
      ensures network == f.network && info == f.info && alarm == f.alarm && status == f.status
      ensures memberCount == f.memberCount && memberMin == f.memberMin
    {
      network, info, alarm, status, memberCount, memberMin :=
        f.network, f.info, f.alarm, f.status, f.memberCount, f.memberMin;
    }

    /** `NewPoolMetrics` */
    constructor(namespace: string)
      ensures Valid() && Families() == NewPoolFamilies(namespace)
      ensures fresh(member)
    {
      member := new MemberMetrics(namespace, BaseLabels);
      new;
      Store(NewPoolFamilies(namespace));
    }

    /** `PoolMetrics.Reset` */
    method Reset()
      requires Valid()
      modifies this, member
      ensures Valid() && Families() == old(Families()).Reset()
    {
      ResetClears(Families());
      var next := PoolFamilies(network.Reset(), Gauge.Reset(info), Gauge.Reset(alarm), Gauge.Reset(status),
                               memberCount, Gauge.Reset(memberMin), member.Families());
      Store(next);
      member.Reset();
    }

    /** The first half of `PoolMetrics.Populate`: the pool's own families. */
    method PopulateOwn(p: PoolInfo)
      modifies this
      ensures Families() == old(Families()).Populate(p).(member := old(Families()).member)
    {
      var labels := Labels(p);
      var newAlarm := alarm;
      if p.status.alarm.Some? {
        var alarmLabels := Slice(labels, [ZeroString(p.status.alarm.value.errorId),
                                          ZeroString(p.status.alarm.value.message)]);
        newAlarm := SetValue(alarm, alarmLabels, 1.0);
      }
      var own := PoolFamilies(
        network.Populate(labels, p.stats.statistics),
        SetValue(info, InfoLabels(p), 1.0),
        newAlarm,
        SetV(status, labels, p.status.status, StatusUp),
        SetValue(memberCount, labels, |p.status.members| as real),
        SetP(memberMin, labels, p.config.minActiveMembers),
        member.Families());
      Store(own);
    }

    /** The second half of `PoolMetrics.Populate`: the loop handing each joined member,
        in order, to the member group. */
    method PopulateMembersOf(members: seq<MemberInfo>, labels: seq<string>)
      requires member.Valid() && member.names == MemberLabels && |labels| == |BaseLabels|
      modifies member
      ensures member.Valid() && member.names == MemberLabels
      ensures member.Families() == PopulateMembers(old(member.Families()), members, labels)
    {
      ghost var start := member.Families();
      var i := 0;
      while i < |members|
        invariant 0 <= i <= |members|
        invariant member.Valid() && member.names == MemberLabels
        invariant member.Families() == PopulateMembers(start, members[..i], labels)
      {
        assert members[..i + 1][..i] == members[..i];
        member.Populate(members[i].status, members[i].stats, labels);
        i := i + 1;
      }
      assert members[..i] == members;
    }

    /** `PoolMetrics.Populate`: the pool's own families, then each joined member in turn. */
    method Populate(p: PoolInfo)
      requires Valid()
      modifies this, member
      ensures Valid() && Families() == old(Families()).Populate(p)
    {
      ghost var before := Families();
      PopulateKeepsDeclares(before, p);
      PopulateOwn(p);
      PopulateMembersOf(p.members, Labels(p));
      assert Families() == before.Populate(p);
    }
  }
}
