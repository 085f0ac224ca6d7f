/** metrics/virtual_server.go: the families describing one virtual server. */
module VirtualServerMetrics {
  import opened Common
  import opened Records
  import opened Gauge
  import opened Setter
  import opened GenericMetrics
  import ApiUtils

  /** The label names every virtual-server family starts with. */
  const BaseLabels: seq<string> := ["name", "id"]

  /** The label names `virtual_server_status` is declared with AS WRITTEN: one more
      than `Populate` ever writes. */
  const StatusLabelsAsWritten: seq<string> := BaseLabels + ["status"]

  /** The corrected declaration, the label names the file's header comment lists. */
  const StatusLabels: seq<string> := BaseLabels

  // The help texts of the families.
  const EnableHelp: string := "Tells if virtual server is enabled, 1 is enabled"
  const StatusHelp: string := "Gives status of virtual server, 1 is UP"
  const InfoHelp: string := "Give informations as label about virtual server, value is always 1"
  const AlarmHelp: string := "Give currently firing alarms if any on virtual server, value is always 1"
  const SourceIpHelp: string := "Number of source IP persistence entries in virtual server"

  /** The label values a virtual server is recorded under: its name and id, empty when absent. */
  function Labels(vs: VSInfo): seq<string> {
    [ZeroString(vs.config.displayName), ZeroString(vs.config.id)]
  }

  /** The label values of `virtual_server_info`: the address, and the ids of the pool and
      of the load balancer, taken from the last segment of their paths. */
  function InfoLabels(vs: VSInfo): seq<string> {
    Slice(Labels(vs), [ZeroString(vs.config.ipAddress),
                       ApiUtils.PathToID(ZeroString(vs.config.poolPath)),
                       ApiUtils.PathToID(ZeroString(vs.config.lbServicePath))])
  }

  /** The info series carries the server's labels, its address and two slash-free ids. */
  lemma InfoLabelsShape(vs: VSInfo)
    ensures |InfoLabels(vs)| == 5 && InfoLabels(vs)[..2] == Labels(vs)
    ensures InfoLabels(vs)[2] == ZeroString(vs.config.ipAddress)
    ensures InfoLabels(vs)[3] == ApiUtils.PathToID(ZeroString(vs.config.poolPath))
    ensures InfoLabels(vs)[4] == ApiUtils.PathToID(ZeroString(vs.config.lbServicePath))
    ensures '/' !in InfoLabels(vs)[3] && '/' !in InfoLabels(vs)[4]
  {
    ApiUtils.PathToIDNoSlash(ZeroString(vs.config.poolPath));
    ApiUtils.PathToIDNoSlash(ZeroString(vs.config.lbServicePath));
  }

  /** The abstract value of a `VSMetrics`: the embedded network group and five families. */
  datatype VSFamilies = VSFamilies(
    network: NetworkMetrics, enable: GaugeVec, status: GaugeVec, info: GaugeVec, alarm: GaugeVec, ip: GaugeVec)
  {
    /** Each family declares its label names and holds only series of that arity. */
    ghost predicate Declares() {
      && network.Declares(BaseLabels)
      && Declared(enable, BaseLabels)
      && Declared(status, StatusLabels)
      && Declared(info, BaseLabels + ["ip", "pool_id", "lb_id"])
      && Declared(alarm, BaseLabels + ["error_id", "message"])
      && Declared(ip, BaseLabels)
    }

    /** All nineteen families. */
    function All(): seq<GaugeVec> {
      Plain(this) + network.Families()
    }

    /** `VSMetrics.Reset`: the network group, then the five families, then the HTTP
        pair of the network group a second time. */
    function Reset(): VSFamilies {
      var cleared := network.Reset();
      VSFamilies(cleared.(http := cleared.http.Reset()), Gauge.Reset(enable), Gauge.Reset(status),
                 Gauge.Reset(info), Gauge.Reset(alarm), Gauge.Reset(ip))
    }

    /** `VSMetrics.Populate` for one joined virtual-server record. */
    function Populate(vs: VSInfo): VSFamilies {
      var labels := Labels(vs);
      VSFamilies(
        network.Populate(labels, vs.stats.statistics),
        SetB(enable, labels, vs.config.enabled),
        SetV(status, labels, vs.status.status, StatusUp),
        SetValue(info, InfoLabels(vs), 1.0),
        if vs.status.alarm.Some?
        then SetValue(alarm, Slice(labels, [ZeroString(vs.status.alarm.value.errorId),
                                            ZeroString(vs.status.alarm.value.message)]), 1.0)
        else alarm,
        SetP(ip, labels, vs.stats.sourceIpPersistenceEntrySize))
    }
  }

  /** The five families of the virtual server itself. */
  function Plain(f: VSFamilies): seq<GaugeVec> {
    [f.enable, f.status, f.info, f.alarm, f.ip]
  }

  /** The families `NewVSMetrics` registers, with the corrected status declaration. */
  function NewVSFamilies(namespace: string): (r: VSFamilies)
    ensures r.enable.opts.name == "virtual_server_enable" && r.status.opts.name == "virtual_server_status"
    ensures r.info.opts.name == "virtual_server_info" && r.alarm.opts.name == "virtual_server_alarm"
    ensures r.ip.opts.name == "virtual_server_source_ip"
    ensures r.Declares()
  {
    var labels := BaseLabels;
    NewNetworkDeclares(namespace, "virtual_server", labels);
    VSFamilies(
      NewNetworkMetrics(namespace, "virtual_server", labels),
      NewGaugeVec(namespace, "virtual_server_enable", EnableHelp, labels),
      NewGaugeVec(namespace, "virtual_server_status", StatusHelp, StatusLabels),
      NewGaugeVec(namespace, "virtual_server_info", InfoHelp, Slice(labels, ["ip", "pool_id", "lb_id"])),
      NewGaugeVec(namespace, "virtual_server_alarm", AlarmHelp, Slice(labels, ["error_id", "message"])),
      NewGaugeVec(namespace, "virtual_server_source_ip", SourceIpHelp, labels))
  }

  /** What populating one virtual server shows: `enable` is 1 exactly for an enabled
      server, `status` 1 exactly for an "UP" one, the info series names its address,
      pool id and load-balancer id, the alarm series exists only for a present alarm,
      and every present network counter is written under the server's labels. */
  lemma PopulateWrites(f: VSFamilies, vs: VSInfo)
    ensures var r := f.Populate(vs); var labels := Labels(vs);
      && labels in r.enable.values
      && (r.enable.values[labels] == 1.0 <==> vs.config.enabled == Some(true))
      && (r.enable.values[labels] == 0.0 <==> vs.config.enabled != Some(true))
      && labels in r.status.values
      && (r.status.values[labels] == 1.0 <==> vs.status.status == Some(StatusUp))
      && (r.status.values[labels] == 0.0 <==> vs.status.status != Some(StatusUp))
      && r.info == Set(f.info, InfoLabels(vs), 1.0)
    ensures var r := f.Populate(vs); var labels := Labels(vs);
      && (vs.status.alarm.None? ==> r.alarm == f.alarm)
      && (vs.status.alarm.Some? ==>
            r.alarm == Set(f.alarm, labels + [ZeroString(vs.status.alarm.value.errorId),
                                              ZeroString(vs.status.alarm.value.message)], 1.0))
      && (vs.stats.sourceIpPersistenceEntrySize.None? ==> r.ip == f.ip)
      && (vs.stats.sourceIpPersistenceEntrySize.Some? ==>
            r.ip == Set(f.ip, labels, vs.stats.sourceIpPersistenceEntrySize.value))
      && r.network == f.network.Populate(labels, vs.stats.statistics)
  {
  }

  lemma PlainSameOutside(f: VSFamilies, vs: VSInfo)
    ensures AllSameOutside(Plain(f), Plain(f.Populate(vs)), Labels(vs))
  {
    var labels := Labels(vs);
    var r := f.Populate(vs);
    SetSameOutside(f.enable, labels, r.enable.values[labels], labels);
    SetSameOutside(f.status, labels, r.status.values[labels], labels);
    SetSameOutside(f.info, InfoLabels(vs), 1.0, labels);
    if vs.status.alarm.Some? {
      SetSameOutside(f.alarm, labels + [ZeroString(vs.status.alarm.value.errorId),
                                        ZeroString(vs.status.alarm.value.message)], 1.0, labels);
    }
    SetPSameOutside(f.ip, labels, vs.stats.sourceIpPersistenceEntrySize, labels);
  }

  /** Populating one virtual server touches only series labelled with its name and id. */
  lemma PopulateSameOutside(f: VSFamilies, vs: VSInfo)
    ensures AllSameOutside(f.All(), f.Populate(vs).All(), Labels(vs))
  {
    var labels := Labels(vs);
    var r := f.Populate(vs);
    PlainSameOutside(f, vs);
    NetworkPopulateSameOutside(f.network, labels, vs.stats.statistics, labels);
    AllSameOutsideConcat(Plain(f), Plain(r), f.network.Families(), r.network.Families(), labels);
  }

  /** With the corrected declaration every write has its family's arity. */
  lemma PopulateKeepsDeclares(f: VSFamilies, vs: VSInfo)
    requires f.Declares()
    ensures f.Populate(vs).Declares()
  {
    var labels := Labels(vs);
    var r := f.Populate(vs);
    SetKeepsConsistent(f.enable, labels, r.enable.values[labels]);
    SetKeepsConsistent(f.status, labels, r.status.values[labels]);
    SetKeepsConsistent(f.info, InfoLabels(vs), 1.0);
    if vs.status.alarm.Some? {
      SetKeepsConsistent(f.alarm, labels + [ZeroString(vs.status.alarm.value.errorId),
                                            ZeroString(vs.status.alarm.value.message)], 1.0);
    }
    SetPKeepsConsistent(f.ip, labels, vs.stats.sourceIpPersistenceEntrySize);
    NetworkPopulateKeepsDeclares(f.network, BaseLabels, labels, vs.stats.statistics);
  }

  /** The arity finding: declared as written, the status family cannot hold the series
      `Populate` writes to it. */
  lemma StatusAsWrittenInconsistent(f: VSFamilies, vs: VSInfo)
    requires f.status.opts.labelNames == StatusLabelsAsWritten
    ensures !Consistent(f.Populate(vs).status)
  {
    var labels := Labels(vs);
    SetOtherArityInconsistent(f.status, labels, f.Populate(vs).status.values[labels]);
  }

  /** After a reset no family holds a series and every declaration stays; the second
      reset of the HTTP pair changes nothing. */
  lemma ResetClears(f: VSFamilies)
    requires f.Declares()
    ensures f.Reset().Declares()
    ensures forall i :: 0 <= i < |f.Reset().All()| ==> f.Reset().All()[i].values == map[]
    ensures f.Reset().network == f.network.Reset()
  {
    NetworkResetClears(f.network, BaseLabels);
    var r := f.Reset();
    assert AllCleared(Plain(r));
    assert AllCleared(r.network.Families());
    AllClearedConcat(Plain(r), r.network.Families());
  }

  /** `VSMetrics`: the virtual-server families, updated in place. */
  class VSMetrics {
    var network: NetworkMetrics
    var enable: GaugeVec
    var status: GaugeVec
    var info: GaugeVec
    var alarm: GaugeVec
    var ip: GaugeVec

    function Families(): VSFamilies
      reads this
    {
      VSFamilies(network, enable, status, info, alarm, ip)
    }

    ghost predicate Valid()
      reads this
    {
      Families().Declares()
    }

    /** Stores a snapshot into the fields. */
    method Store(f: VSFamilies)
      modifies this
      ensures Families() == f
    {
      network, enable, status, info, alarm, ip := f.network, f.enable, f.status, f.info, f.alarm, f.ip;
    }

    /** `NewVSMetrics` */
    constructor(namespace: string)
      ensures Valid() && Families() == NewVSFamilies(namespace)
    {
      new;
      Store(NewVSFamilies(namespace));
    }

    /** `VSMetrics.Reset` */
    method Reset()
      requires Valid()
      modifies this
      ensures Valid() && Families() == old(Families()).Reset()
    {
      var cleared := network.Reset();
      var next := VSFamilies(cleared, Gauge.Reset(enable), Gauge.Reset(status), Gauge.Reset(info),
                             Gauge.Reset(alarm), Gauge.Reset(ip));
      next := next.(network := next.network.(http := next.network.http.Reset()));
      ResetClears(Families());
      Store(next);
    }

    /** `VSMetrics.Populate` */
    method Populate(vs: VSInfo)
      requires Valid()
      modifies this
      ensures Valid() && Families() == old(Families()).Populate(vs)
    {
      var labels := Labels(vs);
      var newAlarm := alarm;
      if vs.status.alarm.Some? {
        var alarmLabels := Slice(labels, [ZeroString(vs.status.alarm.value.errorId),
                                          ZeroString(vs.status.alarm.value.message)]);
        newAlarm := SetValue(alarm, alarmLabels, 1.0);
      }
      var next := VSFamilies(
        network.Populate(labels, vs.stats.statistics),
        SetB(enable, labels, vs.config.enabled),
        SetV(status, labels, vs.status.status, StatusUp),
        SetValue(info, InfoLabels(vs), 1.0),
        newAlarm,
        SetP(ip, labels, vs.stats.sourceIpPersistenceEntrySize));
      PopulateKeepsDeclares(Families(), vs);
      Store(next);
    }
  }
}
