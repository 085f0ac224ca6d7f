/** metrics/load_balancer.go: the families describing one load balancer. */
module LoadBalancerMetrics {
  import opened Common
  import opened Records
  import opened Gauge
  import opened Setter
  import opened GenericMetrics

  /** The label names every load-balancer family starts with. */
  const BaseLabels: seq<string> := ["name", "id"]

  /** The label names the `load_balancer_status` family is declared with AS WRITTEN:
      one more than `Populate` ever writes. */
  const StatusLabelsAsWritten: seq<string> := BaseLabels + ["status"]

  /** The corrected declaration, the label names the file's header comment lists. */
  const StatusLabels: seq<string> := BaseLabels

  // The help texts of the families.
  const EnableHelp: string := "Tells if load balancer is enabled, 1 is enabled"
  const StatusHelp: string := "Gives status of load balancer, 1 is UP"
  const InfoHelp: string := "Give informations as label about load balancer, value is always 1"
  const CpuHelp: string := "CPU usage percentage of load balancer"
  const MemoryHelp: string := "Memory usage percentage of load balancer"
  const ErrorHelp: string := "Current error message for load balancer if any, value is always 1"
  const AlarmHelp: string := "Give currently firing alarms if any on load balancer, value is always 1"
  const VirtualServerCountHelp: string := "Give number of virtual server associated to load balancer"

  /** The abstract value of an `LBMetrics`: its ten families. */
  datatype LBFamilies = LBFamilies(
    enable: GaugeVec, status: GaugeVec, info: GaugeVec, cpu: GaugeVec, memory: GaugeVec,
    error: GaugeVec, alarm: GaugeVec, vsCount: GaugeVec,
    sessionL4: SessionMetrics, sessionL7: SessionMetrics)
  {
    /** Each family declares its label names and holds only series of that arity. */
    ghost predicate Declares() {
      && Declared(enable, BaseLabels)
      && Declared(status, StatusLabels)
      && Declared(info, BaseLabels + ["size"])
      && Declared(cpu, BaseLabels)
      && Declared(memory, BaseLabels)
      && Declared(error, BaseLabels + ["message"])
      && Declared(alarm, BaseLabels + ["error_id", "message"])
      && Declared(vsCount, BaseLabels)
      && sessionL4.Declares(BaseLabels)
      && sessionL7.Declares(BaseLabels)
    }

    /** All sixteen families. */
    function All(): seq<GaugeVec> {
      Plain(this) + sessionL4.Families() + sessionL7.Families()
    }

    /** `LBMetrics.Reset`: all ten families cleared. */
    function Reset(): (r: LBFamilies)
      ensures r.enable == Gauge.Reset(enable) && r.status == Gauge.Reset(status) && r.info == Gauge.Reset(info)
      ensures r.cpu == Gauge.Reset(cpu) && r.memory == Gauge.Reset(memory) && r.error == Gauge.Reset(error)
      ensures r.alarm == Gauge.Reset(alarm) && r.vsCount == Gauge.Reset(vsCount)
      ensures r.sessionL4 == sessionL4.Reset() && r.sessionL7 == sessionL7.Reset()
    {
      LBFamilies(Gauge.Reset(enable), Gauge.Reset(status), Gauge.Reset(info), Gauge.Reset(cpu),
                 Gauge.Reset(memory), Gauge.Reset(error), Gauge.Reset(alarm), Gauge.Reset(vsCount),
                 sessionL4.Reset(), sessionL7.Reset())
    }

    /** `LBMetrics.Populate` for the load balancer listed as `name`/`id`: `enable` and
        `status` are always written, as 1 for an enabled and for an "UP" service and 0
        otherwise; `info` is 1 under the size (empty when absent); usage figures, the
        error message, the alarm and the session figures are written only when
        present; `vsCount` is the number of virtual servers in the status. */
    function Populate(name: string, id: string, lb: LBInfo): LBFamilies
    {
      var labels := [name, id];
      var c := lb.stats.statistics;
      LBFamilies(
        SetB(enable, labels, lb.config.enabled),
        SetV(status, labels, lb.status.serviceStatus, StatusUp),
        SetValue(info, Slice(labels, [ZeroString(lb.config.size)]), 1.0),
        SetP(cpu, labels, lb.status.cpuUsage),
        SetP(memory, labels, lb.status.memoryUsage),
        SetLOf(error, labels, [StrLabel(lb.status.errorMessage)]),
        if lb.status.alarm.Some?
        then SetValue(alarm, Slice(labels, [ZeroString(lb.status.alarm.value.errorId),
                                            ZeroString(lb.status.alarm.value.message)]), 1.0)
        else alarm,
        SetValue(vsCount, labels, |lb.status.virtualServers| as real),
        sessionL4.Record(labels, c.l4CurrentSessionRate, c.l4CurrentSessions, c.l4MaxSessions, c.l4TotalSessions),
        sessionL7.Record(labels, c.l7CurrentSessionRate, c.l7CurrentSessions, c.l7MaxSessions, c.l7TotalSessions))
    }
  }

  /** The families `NewLBMetrics` registers, with the corrected status declaration. */
  function NewLBFamilies(namespace: string): (r: LBFamilies)
    ensures r.Declares()
    ensures r.enable.opts.name == "load_balancer_enable" && r.status.opts.name == "load_balancer_status"
    ensures r.info.opts.name == "load_balancer_info" && r.cpu.opts.name == "load_balancer_cpu"
    ensures r.memory.opts.name == "load_balancer_mem" && r.error.opts.name == "load_balancer_error"
    ensures r.alarm.opts.name == "load_balancer_alarm" && r.vsCount.opts.name == "load_balancer_virtual_server"
  {
    var labels := BaseLabels;
    LBFamilies(
      NewGaugeVec(namespace, "load_balancer_enable", EnableHelp, labels),
      NewGaugeVec(namespace, "load_balancer_status", StatusHelp, StatusLabels),
      NewGaugeVec(namespace, "load_balancer_info", InfoHelp, Slice(labels, ["size"])),
      NewGaugeVec(namespace, "load_balancer_cpu", CpuHelp, labels),
      NewGaugeVec(namespace, "load_balancer_mem", MemoryHelp, labels),
      NewGaugeVec(namespace, "load_balancer_error", ErrorHelp, Slice(labels, ["message"])),
      NewGaugeVec(namespace, "load_balancer_alarm", AlarmHelp, Slice(labels, ["error_id", "message"])),
      NewGaugeVec(namespace, "load_balancer_virtual_server", VirtualServerCountHelp, labels),
      NewSessionMetrics(namespace, "load_balancer", "l4", labels),
      NewSessionMetrics(namespace, "load_balancer", "l7", labels))
  }

  /** A figure read from a pointer: when present the series under `labels` holds it,
      when absent the family is left as it was. */
  predicate WrittenIfPresent(before: GaugeVec, after: GaugeVec, labels: seq<string>, v: Option<real>) {
    && (v.None? ==> after == before)
    && (v.Some? ==> labels in after.values && after.values[labels] == v.value
                    && after == Set(before, labels, v.value))
  }

  /** The figures `Populate` reads from pointers: the cpu and memory usage and each L4
      and L7 session figure is written under the balancer's labels when present, and
      leaves its family as it was when absent. */
  lemma PopulateWritesFigures(f: LBFamilies, name: string, id: string, lb: LBInfo)
    ensures var r := f.Populate(name, id, lb);
      && WrittenIfPresent(f.cpu, r.cpu, [name, id], lb.status.cpuUsage)
      && WrittenIfPresent(f.memory, r.memory, [name, id], lb.status.memoryUsage)
    ensures var r := f.Populate(name, id, lb);
            var c := lb.stats.statistics;
      && WrittenIfPresent(f.sessionL4.rate, r.sessionL4.rate, [name, id], c.l4CurrentSessionRate)
      && WrittenIfPresent(f.sessionL4.current, r.sessionL4.current, [name, id], c.l4CurrentSessions)
      && WrittenIfPresent(f.sessionL4.max, r.sessionL4.max, [name, id], c.l4MaxSessions)
      && WrittenIfPresent(f.sessionL4.total, r.sessionL4.total, [name, id], c.l4TotalSessions)
      && WrittenIfPresent(f.sessionL7.rate, r.sessionL7.rate, [name, id], c.l7CurrentSessionRate)
      && WrittenIfPresent(f.sessionL7.current, r.sessionL7.current, [name, id], c.l7CurrentSessions)
      && WrittenIfPresent(f.sessionL7.max, r.sessionL7.max, [name, id], c.l7MaxSessions)
      && WrittenIfPresent(f.sessionL7.total, r.sessionL7.total, [name, id], c.l7TotalSessions)
  {
    var r := f.Populate(name, id, lb);
    var c := lb.stats.statistics;
    assert r.cpu == SetP(f.cpu, [name, id], lb.status.cpuUsage);
    assert r.memory == SetP(f.memory, [name, id], lb.status.memoryUsage);
    assert r.sessionL4 == f.sessionL4.Record([name, id], c.l4CurrentSessionRate, c.l4CurrentSessions, c.l4MaxSessions, c.l4TotalSessions);
    assert r.sessionL7 == f.sessionL7.Record([name, id], c.l7CurrentSessionRate, c.l7CurrentSessions, c.l7MaxSessions, c.l7TotalSessions);
  }

  /** What populating one load balancer shows: `enable` is 1 exactly for an enabled
      balancer, `status` 1 exactly for an "UP" service, `info` carries the size (empty
      when absent), `vsCount` is the number of virtual servers in the status, and an
      error series exists exactly when the status carries an error message (the
      figures read from pointers are those of `PopulateWritesFigures`). */
  lemma PopulateWrites(f: LBFamilies, name: string, id: string, lb: LBInfo)
    ensures var r := f.Populate(name, id, lb);
      && [name, id] in r.enable.values
      && (r.enable.values[[name, id]] == 1.0 <==> lb.config.enabled == Some(true))
      && (r.enable.values[[name, id]] == 0.0 <==> lb.config.enabled != Some(true))
      && [name, id] in r.status.values
      && (r.status.values[[name, id]] == 1.0 <==> lb.status.serviceStatus == Some(StatusUp))
      && (r.status.values[[name, id]] == 0.0 <==> lb.status.serviceStatus != Some(StatusUp))
      && [name, id, ZeroString(lb.config.size)] in r.info.values
      && r.info.values[[name, id, ZeroString(lb.config.size)]] == 1.0
      && r.vsCount.values[[name, id]] == |lb.status.virtualServers| as real
    ensures var r := f.Populate(name, id, lb);
      && (lb.status.errorMessage.None? ==> r.error == f.error)
      && (lb.status.errorMessage.Some? ==> r.error == Set(f.error, [name, id, lb.status.errorMessage.value], 1.0))
      && (lb.status.alarm.None? ==> r.alarm == f.alarm)
      && (lb.status.alarm.Some? ==>
            r.alarm == Set(f.alarm, [name, id, ZeroString(lb.status.alarm.value.errorId),
                                     ZeroString(lb.status.alarm.value.message)], 1.0))
  {
    var labels := [name, id];
    assert labels + [ZeroString(lb.config.size)] == [name, id, ZeroString(lb.config.size)];
    if lb.status.errorMessage.Some? {
      assert Present([StrLabel(lb.status.errorMessage)]) == [lb.status.errorMessage.value];
      assert labels + [lb.status.errorMessage.value] == [name, id, lb.status.errorMessage.value];
    }
    if lb.status.alarm.Some? {
      assert labels + [ZeroString(lb.status.alarm.value.errorId), ZeroString(lb.status.alarm.value.message)]
          == [name, id, ZeroString(lb.status.alarm.value.errorId), ZeroString(lb.status.alarm.value.message)];
    }
  }


  /** The eight plain families. */
  function Plain(f: LBFamilies): seq<GaugeVec> {
    [f.enable, f.status, f.info, f.cpu, f.memory, f.error, f.alarm, f.vsCount]
  }

  lemma PlainSameOutside(f: LBFamilies, name: string, id: string, lb: LBInfo)
    ensures AllSameOutside(Plain(f), Plain(f.Populate(name, id, lb)), [name, id])
  {
    var labels := [name, id];
    var r := f.Populate(name, id, lb);
    SetSameOutside(f.enable, labels, r.enable.values[labels], labels);
    SetSameOutside(f.status, labels, r.status.values[labels], labels);
    SetSameOutside(f.info, labels + [ZeroString(lb.config.size)], 1.0, labels);
    SetPSameOutside(f.cpu, labels, lb.status.cpuUsage, labels);
    SetPSameOutside(f.memory, labels, lb.status.memoryUsage, labels);
    if lb.status.errorMessage.Some? {
      assert Present([StrLabel(lb.status.errorMessage)]) == [lb.status.errorMessage.value];
      SetSameOutside(f.error, labels + [lb.status.errorMessage.value], 1.0, labels);
    }
    if lb.status.alarm.Some? {
      SetSameOutside(f.alarm, labels + [ZeroString(lb.status.alarm.value.errorId),
                                        ZeroString(lb.status.alarm.value.message)], 1.0, labels);
    }
    SetSameOutside(f.vsCount, labels, |lb.status.virtualServers| as real, labels);
  }

  /** Populating one load balancer touches only series labelled with its name and id,
      so the series of the other balancers of a scrape are left as they were. */
  lemma PopulateSameOutside(f: LBFamilies, name: string, id: string, lb: LBInfo)
    ensures AllSameOutside(f.All(), f.Populate(name, id, lb).All(), [name, id])
  {
    var labels := [name, id];
    var r := f.Populate(name, id, lb);
    var c := lb.stats.statistics;
    PlainSameOutside(f, name, id, lb);
    RecordSameOutside(f.sessionL4, labels, c.l4CurrentSessionRate, c.l4CurrentSessions, c.l4MaxSessions, c.l4TotalSessions, labels);
    RecordSameOutside(f.sessionL7, labels, c.l7CurrentSessionRate, c.l7CurrentSessions, c.l7MaxSessions, c.l7TotalSessions, labels);
    AllSameOutsideConcat(Plain(f), Plain(r), f.sessionL4.Families(), r.sessionL4.Families(), labels);
    AllSameOutsideConcat(Plain(f) + f.sessionL4.Families(), Plain(r) + r.sessionL4.Families(),
                         f.sessionL7.Families(), r.sessionL7.Families(), labels);
  }

  /** After a reset no family holds a series, and every family keeps its declaration. */
  lemma ResetClears(f: LBFamilies)
    requires f.Declares()
    ensures f.Reset().Declares()
    ensures forall i :: 0 <= i < |f.Reset().All()| ==> f.Reset().All()[i].values == map[]
  {
  }

  /** With the corrected declaration every write has its family's arity, so populating
      keeps all families consistent. */
  lemma PopulateKeepsDeclares(f: LBFamilies, name: string, id: string, lb: LBInfo)
    requires f.Declares()
    ensures f.Populate(name, id, lb).Declares()
  {
    var labels := [name, id];
    SetKeepsConsistent(f.enable, labels, f.Populate(name, id, lb).enable.values[labels]);
    SetKeepsConsistent(f.status, labels, f.Populate(name, id, lb).status.values[labels]);
    SetKeepsConsistent(f.info, labels + [ZeroString(lb.config.size)], 1.0);
    if lb.status.errorMessage.Some? {
      assert Present([StrLabel(lb.status.errorMessage)]) == [lb.status.errorMessage.value];
      SetKeepsConsistent(f.error, labels + [lb.status.errorMessage.value], 1.0);
    }
    if lb.status.alarm.Some? {
      SetKeepsConsistent(f.alarm, labels + [ZeroString(lb.status.alarm.value.errorId),
                                            ZeroString(lb.status.alarm.value.message)], 1.0);
    }
    SetKeepsConsistent(f.vsCount, labels, |lb.status.virtualServers| as real);
    SetPKeepsConsistent(f.cpu, labels, lb.status.cpuUsage);
    SetPKeepsConsistent(f.memory, labels, lb.status.memoryUsage);
    var c := lb.stats.statistics;
    RecordKeepsDeclares(f.sessionL4, BaseLabels, labels, c.l4CurrentSessionRate, c.l4CurrentSessions, c.l4MaxSessions, c.l4TotalSessions);
    RecordKeepsDeclares(f.sessionL7, BaseLabels, labels, c.l7CurrentSessionRate, c.l7CurrentSessions, c.l7MaxSessions, c.l7TotalSessions);
  }

  /** The arity finding: declared as written, the status family cannot hold the series
      `Populate` writes to it (the real family panics on the first load balancer). */
  lemma StatusAsWrittenInconsistent(f: LBFamilies, name: string, id: string, lb: LBInfo)
    requires f.status.opts.labelNames == StatusLabelsAsWritten
    ensures !Consistent(f.Populate(name, id, lb).status)
  {
    var labels := [name, id];
    SetOtherArityInconsistent(f.status, labels, f.Populate(name, id, lb).status.values[labels]);
  }

  /** `LBMetrics`: the load-balancer families, updated in place. */
  class LBMetrics {
    var enable: GaugeVec
    var status: GaugeVec
    var info: GaugeVec
    var cpu: GaugeVec
    var memory: GaugeVec
    var error: GaugeVec
    var alarm: GaugeVec
    var vsCount: GaugeVec
    var sessionL4: SessionMetrics
    var sessionL7: SessionMetrics

    function Families(): LBFamilies
      reads this
    {
      LBFamilies(enable, status, info, cpu, memory, error, alarm, vsCount, sessionL4, sessionL7)
    }

    ghost predicate Valid()
      reads this
    {
      Families().Declares()
    }

    /** `NewLBMetrics` */
    constructor(namespace: string)
      ensures Valid() && Families() == NewLBFamilies(namespace)
    {
      new;
      Store(NewLBFamilies(namespace));
    }

    /** `LBMetrics.Reset` */
    method Reset()
      requires Valid()
      modifies this
      ensures Valid() && Families() == old(Families()).Reset()
    {
      var next := LBFamilies(
        Gauge.Reset(enable), Gauge.Reset(status), Gauge.Reset(info), Gauge.Reset(cpu),
        Gauge.Reset(memory), Gauge.Reset(error), Gauge.Reset(alarm), Gauge.Reset(vsCount),
        sessionL4.Reset(), sessionL7.Reset());
      ResetClears(Families());
      Store(next);
    }

    /** `LBMetrics.Populate` */
    method Populate(name: string, id: string, lb: LBInfo)
      requires Valid()
      modifies this
      ensures Valid() && Families() == old(Families()).Populate(name, id, lb)
    {
      var labels := [name, id];
      var infoLabels := Slice(labels, [ZeroString(lb.config.size)]);
      var newError := SetL(error, labels, [StrLabel(lb.status.errorMessage)]);
      var newAlarm := alarm;
      if lb.status.alarm.Some? {
        var alarmLabels := Slice(labels, [ZeroString(lb.status.alarm.value.errorId),
                                          ZeroString(lb.status.alarm.value.message)]);
        newAlarm := SetValue(alarm, alarmLabels, 1.0);
      }
      var c := lb.stats.statistics;
      var next := LBFamilies(
        SetB(enable, labels, lb.config.enabled),
        SetV(status, labels, lb.status.serviceStatus, StatusUp),
        SetValue(info, infoLabels, 1.0),
        SetP(cpu, labels, lb.status.cpuUsage),
        SetP(memory, labels, lb.status.memoryUsage),
        newError,
        newAlarm,
        SetValue(vsCount, labels, |lb.status.virtualServers| as real),
        sessionL4.Record(labels, c.l4CurrentSessionRate, c.l4CurrentSessions, c.l4MaxSessions, c.l4TotalSessions),
        sessionL7.Record(labels, c.l7CurrentSessionRate, c.l7CurrentSessions, c.l7MaxSessions, c.l7TotalSessions));
      assert next == Families().Populate(name, id, lb);
      PopulateKeepsDeclares(Families(), name, id, lb);
      Store(next);
    }

    /** Stores a snapshot into the fields. */
    method Store(f: LBFamilies)
      modifies this
      ensures Families() == f
    {
      enable, status, info, cpu, memory := f.enable, f.status, f.info, f.cpu, f.memory;
      error, alarm, vsCount, sessionL4, sessionL7 := f.error, f.alarm, f.vsCount, f.sessionL4, f.sessionL7;
    }
  }
}
