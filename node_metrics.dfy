/** metrics/node.go: the families describing one cluster node and its interfaces. */
module ClusterNodeMetrics {
  import opened Common
  import opened Records
  import opened Gauge
  import opened Setter
  import opened GenericMetrics
  import opened Text
  import opened Certificates

  /** The label names every node family starts with. */
  const NodeLabels: seq<string> := ["uuid", "ip", "name"]

  /** The label names every interface family starts with. */
  const InterfaceLabels: seq<string> := NodeLabels + ["dev"]

  /** How many counters an interface has. */
  const CounterCount: nat := 11

  // The help texts of the families.
  const InterfaceHelp: string := "Information about cluster node interface, value is always 1"
  const RxByteHelp: string := "Number of bytes received"
  const RxDroppedHelp: string := "Number of packets dropped"
  const RxErrorHelp: string := "Number of receive errors"
  const RxFrameHelp: string := "Number of framing errors"
  const RxPacketHelp: string := "Number of packets received"
  const TxByteHelp: string := "Number of bytes transmitted"
  const TxCarrierHelp: string := "Number of carrier losses detected"
  const TxCollHelp: string := "Number of collisions detected"
  const TxDroppedHelp: string := "Number of packets dropped"
  const TxErrorHelp: string := "Number of transmit errors"
  const TxPacketHelp: string := "Number of packets transmitted"
  const StatusHelp: string := "Cluster node status, 1 means CONNECTED"
  const CpuHelp: string := "Number of CPU core"
  const FsTotalHelp: string := "Total filesystem space in kB"
  const FsUsedHelp: string := "Used filesystem space in kB"
  const Load1Help: string := "Current load average (load 1 minute)"
  const Load5Help: string := "Current load average (load 5 minutes)"
  const Load15Help: string := "Current load average (load 15 minutes)"
  const MemTotalHelp: string := "Total available memory in kB"
  const MemUsedHelp: string := "Used memory in kB"
  const MemCacheHelp: string := "Cached memory in kB"
  const UptimeHelp: string := "Uptime expressed in millisecond since start"
  const VersionHelp: string := "Node current version, value always 1"
  const CertificatesHelp: string := "Node SSL certificate validity end date expressed in number of second since EPOCH"

  // ---- interfaces ----

  /** The eleven counters of an interface, in the order of `Counters()`. */
  function CounterValues(s: InterfaceStats): (vs: seq<real>)
    ensures |vs| == CounterCount
  {
    [s.rxBytes, s.rxDropped, s.rxErrors, s.rxFrame, s.rxPackets,
     s.txBytes, s.txCarrier, s.txColls, s.txDropped, s.txErrors, s.txPackets]
  }

  /** The label values of an interface's counters: the node's, then the interface id. */
  function InterfaceLabelValues(labels: seq<string>, iface: Interface): seq<string> {
    Slice(labels, [iface.config.interfaceId])
  }

  /** The label values of an interface's info series: admin and link status, and the
      MTU in decimal. */
  function InterfaceInfoLabels(labels: seq<string>, iface: Interface): seq<string> {
    Slice(InterfaceLabelValues(labels, iface), [iface.config.adminStatus, iface.config.linkStatus, FormatInt(iface.config.mtu)])
  }

  /** The abstract value of an `InterfaceMetrics`: the info family and eleven counters. */
  datatype InterfaceFamilies = InterfaceFamilies(
    info: GaugeVec, rxByte: GaugeVec, rxDropped: GaugeVec, rxError: GaugeVec, rxFrame: GaugeVec, rxPacket: GaugeVec,
    txByte: GaugeVec, txCarrier: GaugeVec, txColl: GaugeVec, txDropped: GaugeVec, txError: GaugeVec, txPacket: GaugeVec)
  {
    /** The counter families, in the order of `CounterValues`. */
    function Counters(): (cs: seq<GaugeVec>)
      ensures |cs| == CounterCount
    {
      [rxByte, rxDropped, rxError, rxFrame, rxPacket, txByte, txCarrier, txColl, txDropped, txError, txPacket]
    }

    function All(): seq<GaugeVec> { [info] + Counters() }

    /** Each family declares its label names and holds only series of that arity. */
    ghost predicate Declares() {
      && Declared(info, InterfaceLabels + ["admin", "link", "mtu"])
      && forall k :: 0 <= k < CounterCount ==> Declared(Counters()[k], InterfaceLabels)
    }

    /** `InterfaceMetrics.Reset`: all twelve families cleared. */
    function Reset(): InterfaceFamilies {
      InterfaceFamilies(Gauge.Reset(info), Gauge.Reset(rxByte), Gauge.Reset(rxDropped), Gauge.Reset(rxError),
                        Gauge.Reset(rxFrame), Gauge.Reset(rxPacket), Gauge.Reset(txByte), Gauge.Reset(txCarrier),
                        Gauge.Reset(txColl), Gauge.Reset(txDropped), Gauge.Reset(txError), Gauge.Reset(txPacket))
    }

    /** The body of the interface loop of `NodeMetrics.Populate`, for one interface of
        the node labelled `labels`. */
    function Record(labels: seq<string>, iface: Interface): InterfaceFamilies {
      var l := InterfaceLabelValues(labels, iface);
      var s := iface.stats;
      InterfaceFamilies(
        SetValue(info, InterfaceInfoLabels(labels, iface), 1.0),
        SetValue(rxByte, l, s.rxBytes), SetValue(rxDropped, l, s.rxDropped), SetValue(rxError, l, s.rxErrors),
        SetValue(rxFrame, l, s.rxFrame), SetValue(rxPacket, l, s.rxPackets), SetValue(txByte, l, s.txBytes),
        SetValue(txCarrier, l, s.txCarrier), SetValue(txColl, l, s.txColls), SetValue(txDropped, l, s.txDropped),
        SetValue(txError, l, s.txErrors), SetValue(txPacket, l, s.txPackets))
    }
  }

  /** `NewInterfaceMetrics` */
  function NewInterfaceFamilies(namespace: string): (r: InterfaceFamilies)
    ensures r.Declares()
    ensures r.info.opts.name == "cluster_node_interface"
  {
    var l := InterfaceLabels;
    InterfaceFamilies(
      NewGaugeVec(namespace, "cluster_node_interface", InterfaceHelp, InterfaceLabels + ["admin", "link", "mtu"]),
      NewGaugeVec(namespace, "cluster_node_interface_rx_byte", RxByteHelp, l),
      NewGaugeVec(namespace, "cluster_node_interface_rx_dropped", RxDroppedHelp, l),
      NewGaugeVec(namespace, "cluster_node_interface_rx_error", RxErrorHelp, l),
      NewGaugeVec(namespace, "cluster_node_interface_rx_frame", RxFrameHelp, l),
      NewGaugeVec(namespace, "cluster_node_interface_rx_packet", RxPacketHelp, l),
      NewGaugeVec(namespace, "cluster_node_interface_tx_byte", TxByteHelp, l),
      NewGaugeVec(namespace, "cluster_node_interface_tx_carrier", TxCarrierHelp, l),
      NewGaugeVec(namespace, "cluster_node_interface_tx_coll", TxCollHelp, l),
      NewGaugeVec(namespace, "cluster_node_interface_tx_dropped", TxDroppedHelp, l),
      NewGaugeVec(namespace, "cluster_node_interface_tx_error", TxErrorHelp, l),
      NewGaugeVec(namespace, "cluster_node_interface_tx_packet", TxPacketHelp, l))
  }

  /** One interface gives an info series of 1 under its admin and link status and MTU,
      and each of the eleven counters under the node labels plus the interface id. */
  lemma InterfaceRecordWrites(f: InterfaceFamilies, labels: seq<string>, iface: Interface)
    ensures f.Record(labels, iface).info == Set(f.info, labels + [iface.config.interfaceId, iface.config.adminStatus,
                                                                iface.config.linkStatus, FormatInt(iface.config.mtu)], 1.0)
    ensures forall k :: 0 <= k < CounterCount ==>
              f.Record(labels, iface).Counters()[k] == Set(f.Counters()[k], labels + [iface.config.interfaceId],
                                                           CounterValues(iface.stats)[k])
  {
    assert InterfaceInfoLabels(labels, iface) == labels + [iface.config.interfaceId, iface.config.adminStatus,
                                                           iface.config.linkStatus, FormatInt(iface.config.mtu)];
  }

  lemma InterfaceRecordKeepsDeclares(f: InterfaceFamilies, labels: seq<string>, iface: Interface)
    requires f.Declares() && |labels| == |NodeLabels|
    ensures f.Record(labels, iface).Declares()
  {
    var r := f.Record(labels, iface);
    SetKeepsConsistent(f.info, InterfaceInfoLabels(labels, iface), 1.0);
    forall k | 0 <= k < CounterCount
      ensures Declared(r.Counters()[k], InterfaceLabels)
    {
      SetKeepsConsistent(f.Counters()[k], InterfaceLabelValues(labels, iface), CounterValues(iface.stats)[k]);
    }
  }

  /** The interface loop: every interface of the node, in order. */
  function RecordInterfaces(f: InterfaceFamilies, labels: seq<string>, ifaces: seq<Interface>): InterfaceFamilies
    decreases |ifaces|
  {
    if ifaces == [] then f
    else RecordInterfaces(f, labels, ifaces[..|ifaces| - 1]).Record(labels, ifaces[|ifaces| - 1])
  }

  lemma {:induction false} RecordInterfacesKeepsDeclares(f: InterfaceFamilies, labels: seq<string>, ifaces: seq<Interface>)
    requires f.Declares() && |labels| == |NodeLabels|
    ensures RecordInterfaces(f, labels, ifaces).Declares()
    decreases |ifaces|
  {
    if ifaces != [] {
      RecordInterfacesKeepsDeclares(f, labels, ifaces[..|ifaces| - 1]);
      InterfaceRecordKeepsDeclares(RecordInterfaces(f, labels, ifaces[..|ifaces| - 1]), labels, ifaces[|ifaces| - 1]);
    }
  }

  /** Every interface of the loop has its info series, valued 1, under its id, admin
      and link status and MTU. */
  lemma {:induction false} RecordInterfacesInfo(f: InterfaceFamilies, labels: seq<string>, ifaces: seq<Interface>, i: nat)
    requires i < |ifaces|
    ensures var r := RecordInterfaces(f, labels, ifaces); var key := InterfaceInfoLabels(labels, ifaces[i]);
      key in r.info.values && r.info.values[key] == 1.0
    decreases |ifaces|
  {
    var init := ifaces[..|ifaces| - 1];
    InterfaceRecordWrites(RecordInterfaces(f, labels, init), labels, ifaces[|ifaces| - 1]);
    if i < |ifaces| - 1 {
      assert init[i] == ifaces[i];
      RecordInterfacesInfo(f, labels, init, i);
    }
  }

  /** An interface that no later interface of the loop shares its id with has each of its
      eleven counters under the node labels plus its id. */
  lemma {:induction false} RecordInterfacesUnshadowed(f: InterfaceFamilies, labels: seq<string>, ifaces: seq<Interface>, i: nat, k: nat)
    requires i < |ifaces| && k < CounterCount
    requires forall j :: i < j < |ifaces| ==> ifaces[j].config.interfaceId != ifaces[i].config.interfaceId
    ensures var r := RecordInterfaces(f, labels, ifaces); var key := labels + [ifaces[i].config.interfaceId];
      key in r.Counters()[k].values && r.Counters()[k].values[key] == CounterValues(ifaces[i].stats)[k]
    decreases |ifaces|
  {
    var init := ifaces[..|ifaces| - 1];
    var last := ifaces[|ifaces| - 1];
    InterfaceRecordWrites(RecordInterfaces(f, labels, init), labels, last);
    if i < |ifaces| - 1 {
      assert init[i] == ifaces[i];
      forall j | i < j < |init|
        ensures init[j].config.interfaceId != init[i].config.interfaceId
      {
        assert init[j] == ifaces[j];
      }
      RecordInterfacesUnshadowed(f, labels, init, i, k);
      var key := labels + [ifaces[i].config.interfaceId];
      assert labels + [last.config.interfaceId] != key by {
        assert (labels + [last.config.interfaceId])[|labels|] == last.config.interfaceId;
      }
    }
  }

  /** After a reset no interface family holds a series, and every declaration stays. */
  lemma InterfaceResetClears(f: InterfaceFamilies)
    requires f.Declares()
    ensures f.Reset().Declares() && AllCleared(f.Reset().All())
  {
    var r := f.Reset();
    assert forall k :: 0 <= k < CounterCount ==> r.Counters()[k] == Gauge.Reset(f.Counters()[k]);
  }

  // ---- the node's own families ----

  /** The label values a node is recorded under: its id, management listen address and
      display name. */
  function NodeLabelValues(config: NodeConfig): seq<string> {
    [config.id, config.applianceMgmtListenAddr, config.displayName]
  }

  /** The fs_total writes of the filesystem loop, one per filesystem, labelled by its
      type and name. */
  function FsTotalWrites(labels: seq<string>, fss: seq<FileSystem>): (ws: seq<Write>)
    ensures |ws| == |fss|
    ensures forall i :: 0 <= i < |fss| ==> ws[i] == Write(labels + [fss[i].fsType, fss[i].fileSystem], fss[i].total)
  {
    seq(|fss|, i requires 0 <= i < |fss| => Write(Slice(labels, [fss[i].fsType, fss[i].fileSystem]), fss[i].total))
  }

  /** The fs_used writes of the filesystem loop. */
  function FsUsedWrites(labels: seq<string>, fss: seq<FileSystem>): (ws: seq<Write>)
    ensures |ws| == |fss|
    ensures forall i :: 0 <= i < |fss| ==> ws[i] == Write(labels + [fss[i].fsType, fss[i].fileSystem], fss[i].used)
  {
    seq(|fss|, i requires 0 <= i < |fss| => Write(Slice(labels, [fss[i].fsType, fss[i].fileSystem]), fss[i].used))
  }

  /** The filesystem loop: both families written for every filesystem, in order. */
  method RecordFileSystems(total: GaugeVec, used: GaugeVec, labels: seq<string>, fss: seq<FileSystem>)
    returns (newTotal: GaugeVec, newUsed: GaugeVec)
    ensures newTotal == SetEach(total, FsTotalWrites(labels, fss))
    ensures newUsed == SetEach(used, FsUsedWrites(labels, fss))
  {
    newTotal, newUsed := total, used;
    var i := 0;
    while i < |fss|
      invariant 0 <= i <= |fss|
      invariant newTotal == SetEach(total, FsTotalWrites(labels, fss)[..i])
      invariant newUsed == SetEach(used, FsUsedWrites(labels, fss)[..i])
    {
      assert FsTotalWrites(labels, fss)[..i + 1][..i] == FsTotalWrites(labels, fss)[..i];
      assert FsUsedWrites(labels, fss)[..i + 1][..i] == FsUsedWrites(labels, fss)[..i];
      var fsLabels := Slice(labels, [fss[i].fsType, fss[i].fileSystem]);
      newTotal := SetValue(newTotal, fsLabels, fss[i].total);
      newUsed := SetValue(newUsed, fsLabels, fss[i].used);
      i := i + 1;
    }
    assert FsTotalWrites(labels, fss)[..i] == FsTotalWrites(labels, fss);
    assert FsUsedWrites(labels, fss)[..i] == FsUsedWrites(labels, fss);
  }

  // ---- certificates ----

  /** The kinds of the three certificate blobs, in the order they are recorded. */
  const CertKinds: seq<string> := ["api", "mgmt_cluster", "mgmt_plane"]

  /** The blob of kind `CertKinds[k]`: the api, management-cluster and management-plane
      listeners' certificates. */
  function CertBlob(config: NodeConfig, k: nat): string
    requires k < |CertKinds|
  {
    if k == 0 then config.apiCertificate
    else if k == 1 then config.mgmtClusterCertificate
    else config.mgmtPlaneCertificate
  }

  /** The certificate writes of one blob: one per entry, labelled by the blob's kind and
      the entry's index in decimal, valued with its expiry. */
  function CertWrites(labels: seq<string>, kind: string, certs: seq<Certificate>): (ws: seq<Write>)
    ensures |ws| == |certs|
    ensures forall i :: 0 <= i < |certs| ==>
              ws[i] == Write(labels + [kind, FormatInt(certs[i].index)], certs[i].notAfter.GetOr(0) as real)
  {
    seq(|certs|, i requires 0 <= i < |certs| =>
      Write(Slice(labels, [kind, FormatInt(certs[i].index)]), certs[i].notAfter.GetOr(0) as real))
  }

  /** The loop over the entries of one processed blob. */
  method WriteCertificates(g: GaugeVec, labels: seq<string>, kind: string, certs: seq<Certificate>) returns (r: GaugeVec)
    ensures r == SetEach(g, CertWrites(labels, kind, certs))
  {
    var ws := CertWrites(labels, kind, certs);
    r := g;
    var i := 0;
    while i < |certs|
      invariant 0 <= i <= |certs|
      invariant r == SetEach(g, ws[..i])
    {
      assert ws[..i + 1][..i] == ws[..i];
      var certLabels := Slice(labels, [kind, FormatInt(certs[i].index)]);
      r := SetValue(r, certLabels, certs[i].notAfter.GetOr(0) as real);
      i := i + 1;
    }
    assert ws[..i] == ws;
  }

  /** What the certificate stages leave: the family, and the error that stops `Populate`. */
  datatype CertOutcome = CertOutcome(certificates: GaugeVec, err: Option<Error>)

  /** One certificate stage: process the blob; on an error nothing of it is recorded and
      the error is returned, otherwise every entry is written. */
  function CertStage(g: GaugeVec, labels: seq<string>, kind: string, content: string, c: Codec): CertOutcome
    requires Consumes(c)
  {
    var p := ProcessFrom(c, content, 0);
    if p.err.Some? then CertOutcome(g, p.err)
    else CertOutcome(SetEach(g, CertWrites(labels, kind, p.certs)), None)
  }

  /** Distinct entries of one blob are written under distinct label values. */
  lemma CertWritesDistinct(labels: seq<string>, kind: string, certs: seq<Certificate>, i: nat)
    requires i < |certs| && forall j :: 0 <= j < |certs| ==> certs[j].index == j
    ensures var ws := CertWrites(labels, kind, certs); forall j :: i < j < |ws| ==> ws[j].labels != ws[i].labels
  {
    var ws := CertWrites(labels, kind, certs);
    forall j | i < j < |ws|
      ensures ws[j].labels != ws[i].labels
    {
      if ws[j].labels == ws[i].labels {
        assert ws[j].labels[|labels| + 1] == FormatInt(j);
        assert ws[i].labels[|labels| + 1] == FormatInt(i);
        FormatIntInjective(j, i);
      }
    }
  }

  /** A stage that succeeds writes one series per certificate of the blob, under its
      kind and index, valued with its expiry; one that fails writes nothing. */
  lemma CertStageWrites(g: GaugeVec, labels: seq<string>, kind: string, content: string, c: Codec, i: nat)
    requires Consumes(c)
    ensures CertStage(g, labels, kind, content, c).err == ProcessFrom(c, content, 0).err
    ensures ProcessFrom(c, content, 0).err.Some? ==> CertStage(g, labels, kind, content, c).certificates == g
    ensures var p := ProcessFrom(c, content, 0); var key := labels + [kind, FormatInt(i)];
      p.err.None? && i < |p.certs| ==>
        && p.certs[i].notAfter.Some?
        && key in CertStage(g, labels, kind, content, c).certificates.values
        && CertStage(g, labels, kind, content, c).certificates.values[key] == p.certs[i].notAfter.value as real
  {
    var p := ProcessFrom(c, content, 0);
    if p.err.None? && i < |p.certs| {
      ProcessNoError(c, content, 0);
      ProcessIndices(c, content, 0);
      CertWritesDistinct(labels, kind, p.certs, i);
      SetEachUnshadowed(g, CertWrites(labels, kind, p.certs), i);
    }
  }

  /** A stage writes only series of its own kind. */
  lemma CertStageSameOutside(g: GaugeVec, labels: seq<string>, kind: string, content: string, c: Codec)
    requires Consumes(c)
    ensures SameOutside(g, CertStage(g, labels, kind, content, c).certificates, labels + [kind])
  {
    var p := ProcessFrom(c, content, 0);
    if p.err.None? {
      var ws := CertWrites(labels, kind, p.certs);
      forall i | 0 <= i < |ws|
        ensures labels + [kind] <= ws[i].labels
      {
        assert ws[i].labels == (labels + [kind]) + [FormatInt(p.certs[i].index)];
      }
      SetEachSameOutside(g, ws, labels + [kind]);
    }
  }

  /** A stage of one kind keeps the series of another kind. */
  lemma CertStageKeepsOtherKind(g: GaugeVec, labels: seq<string>, kind: string, content: string, c: Codec, key: seq<string>)
    requires Consumes(c) && |key| > |labels| && key[..|labels|] == labels && key[|labels|] != kind
    ensures var h := CertStage(g, labels, kind, content, c).certificates;
      (key in h.values <==> key in g.values) && (key in g.values ==> h.values[key] == g.values[key])
  {
    CertStageSameOutside(g, labels, kind, content, c);
    assert key[|labels|] != (labels + [kind])[|labels|];
  }

  /** The three certificate stages of `NodeMetrics.Populate`, in order; the first error
      stops them, after the earlier stages have written. */
  function CertStages(g: GaugeVec, labels: seq<string>, config: NodeConfig, c: Codec): CertOutcome
    requires Consumes(c)
  {
    var api := CertStage(g, labels, CertKinds[0], CertBlob(config, 0), c);
    if api.err.Some? then api
    else
      var cluster := CertStage(api.certificates, labels, CertKinds[1], CertBlob(config, 1), c);
      if cluster.err.Some? then cluster
      else CertStage(cluster.certificates, labels, CertKinds[2], CertBlob(config, 2), c)
  }

  /** The stages fail exactly when one of the blobs does, and then with the error of the
      first blob that fails. */
  lemma CertStagesErrors(g: GaugeVec, labels: seq<string>, config: NodeConfig, c: Codec, k: nat)
    requires Consumes(c) && k < |CertKinds|
    ensures CertStages(g, labels, config, c).err.None? <==>
              forall j :: 0 <= j < |CertKinds| ==> ProcessFrom(c, CertBlob(config, j), 0).err.None?
    ensures (forall j :: 0 <= j < k ==> ProcessFrom(c, CertBlob(config, j), 0).err.None?)
            && ProcessFrom(c, CertBlob(config, k), 0).err.Some? ==>
              CertStages(g, labels, config, c).err == ProcessFrom(c, CertBlob(config, k), 0).err
  {
    var g1 := CertStage(g, labels, CertKinds[0], CertBlob(config, 0), c).certificates;
    var g2 := CertStage(g1, labels, CertKinds[1], CertBlob(config, 1), c).certificates;
    CertStageWrites(g, labels, CertKinds[0], CertBlob(config, 0), c, 0);
    CertStageWrites(g1, labels, CertKinds[1], CertBlob(config, 1), c, 0);
    CertStageWrites(g2, labels, CertKinds[2], CertBlob(config, 2), c, 0);
  }

  /** Without an error every entry of every blob is recorded under its kind and index,
      valued with its expiry: a later stage never overwrites an earlier one. */
  lemma CertStagesWrites(g: GaugeVec, labels: seq<string>, config: NodeConfig, c: Codec, k: nat, i: nat)
    requires Consumes(c) && k < |CertKinds|
    ensures var r := CertStages(g, labels, config, c); var p := ProcessFrom(c, CertBlob(config, k), 0);
      var key := labels + [CertKinds[k], FormatInt(i)];
      r.err.None? && i < |p.certs| ==>
        && p.certs[i].notAfter.Some?
        && key in r.certificates.values && r.certificates.values[key] == p.certs[i].notAfter.value as real
  {
    var r := CertStages(g, labels, config, c);
    var p := ProcessFrom(c, CertBlob(config, k), 0);
    var key := labels + [CertKinds[k], FormatInt(i)];
    if r.err.None? && i < |p.certs| {
      var g1 := CertStage(g, labels, CertKinds[0], CertBlob(config, 0), c).certificates;
      var g2 := CertStage(g1, labels, CertKinds[1], CertBlob(config, 1), c).certificates;
      CertStagesErrors(g, labels, config, c, 0);
      assert key[..|labels|] == labels && key[|labels|] == CertKinds[k];
      if k == 0 {
        CertStageWrites(g, labels, CertKinds[0], CertBlob(config, 0), c, i);
        CertStageKeepsOtherKind(g1, labels, CertKinds[1], CertBlob(config, 1), c, key);
        CertStageKeepsOtherKind(g2, labels, CertKinds[2], CertBlob(config, 2), c, key);
      } else if k == 1 {
        CertStageWrites(g1, labels, CertKinds[1], CertBlob(config, 1), c, i);
        CertStageKeepsOtherKind(g2, labels, CertKinds[2], CertBlob(config, 2), c, key);
      } else {
        CertStageWrites(g2, labels, CertKinds[2], CertBlob(config, 2), c, i);
      }
    }
  }

  lemma CertStageKeepsConsistent(g: GaugeVec, labels: seq<string>, kind: string, content: string, c: Codec)
    requires Consumes(c) && Declared(g, NodeLabels + ["type", "index"]) && |labels| == |NodeLabels|
    ensures Declared(CertStage(g, labels, kind, content, c).certificates, NodeLabels + ["type", "index"])
  {
    var p := ProcessFrom(c, content, 0);
    if p.err.None? {
      SetEachKeepsConsistent(g, CertWrites(labels, kind, p.certs));
      SetEachLastWins(g, CertWrites(labels, kind, p.certs), labels);
    }
  }

  lemma CertStagesKeepConsistent(g: GaugeVec, labels: seq<string>, config: NodeConfig, c: Codec)
    requires Consumes(c) && Declared(g, NodeLabels + ["type", "index"]) && |labels| == |NodeLabels|
    ensures Declared(CertStages(g, labels, config, c).certificates, NodeLabels + ["type", "index"])
  {
    var g1 := CertStage(g, labels, CertKinds[0], CertBlob(config, 0), c).certificates;
    var g2 := CertStage(g1, labels, CertKinds[1], CertBlob(config, 1), c).certificates;
    CertStageKeepsConsistent(g, labels, CertKinds[0], CertBlob(config, 0), c);
    CertStageKeepsConsistent(g1, labels, CertKinds[1], CertBlob(config, 1), c);
    CertStageKeepsConsistent(g2, labels, CertKinds[2], CertBlob(config, 2), c);
  }

  // ---- the node ----

  /** The abstract value of a `NodeMetrics`'s own thirteen families; the interface group
      it points to is an `InterfaceFamilies` of its own. */
  datatype NodeFamilies = NodeFamilies(
    status: GaugeVec, cpu: GaugeVec, fsTotal: GaugeVec, fsUsed: GaugeVec,
    load1: GaugeVec, load5: GaugeVec, load15: GaugeVec,
    memTotal: GaugeVec, memUsed: GaugeVec, memCache: GaugeVec,
    uptime: GaugeVec, version: GaugeVec, certificates: GaugeVec)
  {
    /** Each family declares its label names and holds only series of that arity. */
    ghost predicate Declares() {
      && Declared(status, NodeLabels) && Declared(cpu, NodeLabels)
      && Declared(fsTotal, NodeLabels + ["type", "mount"]) && Declared(fsUsed, NodeLabels + ["type", "mount"])
      && Declared(load1, NodeLabels) && Declared(load5, NodeLabels) && Declared(load15, NodeLabels)
      && Declared(memTotal, NodeLabels) && Declared(memUsed, NodeLabels) && Declared(memCache, NodeLabels)
      && Declared(uptime, NodeLabels) && Declared(version, NodeLabels + ["version"])
      && Declared(certificates, NodeLabels + ["type", "index"])
    }

    /** The thirteen families of the node itself. */
    function Own(): seq<GaugeVec> {
      [status, cpu, fsTotal, fsUsed, load1, load5, load15, memTotal, memUsed, memCache, uptime, version, certificates]
    }

    /** `NodeMetrics.Reset` on the thirteen families: all cleared. */
    function Reset(): NodeFamilies {
      NodeFamilies(Gauge.Reset(status), Gauge.Reset(cpu), Gauge.Reset(fsTotal), Gauge.Reset(fsUsed),
                   Gauge.Reset(load1), Gauge.Reset(load5), Gauge.Reset(load15),
                   Gauge.Reset(memTotal), Gauge.Reset(memUsed), Gauge.Reset(memCache),
                   Gauge.Reset(uptime), Gauge.Reset(version), Gauge.Reset(certificates))
    }

    /** The part of `NodeMetrics.Populate` before the certificates: status, CPU, the
        filesystem loop, load average (only with exactly three values), uptime and
        version. The memory families are never written. */
    function System(labels: seq<string>, s: NodeStatus): NodeFamilies {
      var three := |s.loadAverage| == 3;
      this.(
        status := SetValue(status, labels, StatusToValue(s.mgmtClusterStatus, StatusConnected)),
        cpu := SetValue(cpu, labels, s.cpuCores),
        fsTotal := SetEach(fsTotal, FsTotalWrites(labels, s.fileSystems)),
        fsUsed := SetEach(fsUsed, FsUsedWrites(labels, s.fileSystems)),
        load1 := if three then SetValue(load1, labels, s.loadAverage[0]) else load1,
        load5 := if three then SetValue(load5, labels, s.loadAverage[1]) else load5,
        load15 := if three then SetValue(load15, labels, s.loadAverage[2]) else load15,
        uptime := SetValue(uptime, labels, s.uptime),
        version := SetValue(version, Slice(labels, [s.version]), 1.0))
    }
  }

  /** The families `NewNodeMetrics` registers. */
  function NewNodeFamilies(namespace: string): (r: NodeFamilies)
    ensures r.Declares()
    ensures r.status.opts.name == "cluster_node_status" && r.certificates.opts.name == "cluster_node_certificates"
  {
    var l := NodeLabels;
    NodeFamilies(
      NewGaugeVec(namespace, "cluster_node_status", StatusHelp, l),
      NewGaugeVec(namespace, "cluster_node_cpu", CpuHelp, l),
      NewGaugeVec(namespace, "cluster_node_fs_total", FsTotalHelp, NodeLabels + ["type", "mount"]),
      NewGaugeVec(namespace, "cluster_node_fs_used", FsUsedHelp, NodeLabels + ["type", "mount"]),
      NewGaugeVec(namespace, "cluster_node_load1", Load1Help, l),
      NewGaugeVec(namespace, "cluster_node_load5", Load5Help, l),
      NewGaugeVec(namespace, "cluster_node_load15", Load15Help, l),
      NewGaugeVec(namespace, "cluster_node_mem_total", MemTotalHelp, l),
      NewGaugeVec(namespace, "cluster_node_mem_used", MemUsedHelp, l),
      NewGaugeVec(namespace, "cluster_node_mem_cache", MemCacheHelp, l),
      NewGaugeVec(namespace, "cluster_node_uptime", UptimeHelp, l),
      NewGaugeVec(namespace, "cluster_node_version", VersionHelp, NodeLabels + ["version"]),
      NewGaugeVec(namespace, "cluster_node_certificates", CertificatesHelp, NodeLabels + ["type", "index"]))
  }

  /** What `NodeMetrics.Populate` leaves in the node's families and in its interface
      group, and the error it returns. */
  datatype NodeOutcome = NodeOutcome(families: NodeFamilies, interfaces: InterfaceFamilies, err: Option<Error>)

  /** `NodeMetrics.Populate`: the system part, then the certificate stages, and, unless
      one of them fails, the interfaces. */
  function PopulateNode(f: NodeFamilies, ifs: InterfaceFamilies, info: NodeInfo, c: Codec): NodeOutcome
    requires Consumes(c)
  {
    var labels := NodeLabelValues(info.config);
    var base := f.System(labels, info.status);
    var certs := CertStages(base.certificates, labels, info.config, c);
    if certs.err.Some? then NodeOutcome(base.(certificates := certs.certificates), ifs, certs.err)
    else NodeOutcome(base.(certificates := certs.certificates), RecordInterfaces(ifs, labels, info.interfaces), None)
  }

  /** What the system part shows: `status` is 1 exactly for a "CONNECTED" node, CPU and
      uptime are written, `version` is 1 under the version, the memory families are left
      alone, and the interfaces and certificates too. */
  lemma SystemWrites(f: NodeFamilies, labels: seq<string>, s: NodeStatus)
    ensures var r := f.System(labels, s);
      && labels in r.status.values
      && (r.status.values[labels] == 1.0 <==> s.mgmtClusterStatus == StatusConnected)
      && (r.status.values[labels] == 0.0 <==> s.mgmtClusterStatus != StatusConnected)
      && r.cpu == Set(f.cpu, labels, s.cpuCores) && r.uptime == Set(f.uptime, labels, s.uptime)
      && r.version == Set(f.version, labels + [s.version], 1.0)
      && r.memTotal == f.memTotal && r.memUsed == f.memUsed && r.memCache == f.memCache
      && r.certificates == f.certificates
  {
  }

  /** The load families are written only when the load average has exactly three values. */
  lemma SystemLoad(f: NodeFamilies, labels: seq<string>, s: NodeStatus)
    ensures var r := f.System(labels, s);
      && (|s.loadAverage| == 3 ==>
            r.load1 == Set(f.load1, labels, s.loadAverage[0]) && r.load5 == Set(f.load5, labels, s.loadAverage[1])
            && r.load15 == Set(f.load15, labels, s.loadAverage[2]))
      && (|s.loadAverage| != 3 ==> r.load1 == f.load1 && r.load5 == f.load5 && r.load15 == f.load15)
  {
  }

  /** A filesystem that no later one repeats (same type and name) has both sizes
      recorded under its type and name. */
  lemma SystemFileSystems(f: NodeFamilies, labels: seq<string>, s: NodeStatus, i: nat)
    requires i < |s.fileSystems|
    requires forall j :: i < j < |s.fileSystems| ==>
               s.fileSystems[j].fsType != s.fileSystems[i].fsType || s.fileSystems[j].fileSystem != s.fileSystems[i].fileSystem
    ensures var r := f.System(labels, s); var fs := s.fileSystems[i]; var key := labels + [fs.fsType, fs.fileSystem];
      && key in r.fsTotal.values && r.fsTotal.values[key] == fs.total
      && key in r.fsUsed.values && r.fsUsed.values[key] == fs.used
  {
    var fss := s.fileSystems;
    var tw := FsTotalWrites(labels, fss);
    var uw := FsUsedWrites(labels, fss);
    forall j | i < j < |fss|
      ensures tw[j].labels != tw[i].labels && uw[j].labels != uw[i].labels
    {
      assert tw[j].labels[|labels|] == fss[j].fsType && tw[j].labels[|labels| + 1] == fss[j].fileSystem;
      assert tw[i].labels[|labels|] == fss[i].fsType && tw[i].labels[|labels| + 1] == fss[i].fileSystem;
    }
    SetEachUnshadowed(f.fsTotal, tw, i);
    SetEachUnshadowed(f.fsUsed, uw, i);
  }

  /** The order of `Populate`: the system part is written whatever happens; the
      certificate stages follow and their error is the one returned; the interfaces are
      written only when there is none. */
  lemma PopulateStages(f: NodeFamilies, ifs: InterfaceFamilies, info: NodeInfo, c: Codec)
    requires Consumes(c)
    ensures var r := PopulateNode(f, ifs, info, c); var labels := NodeLabelValues(info.config);
      var base := f.System(labels, info.status); var certs := CertStages(f.certificates, labels, info.config, c);
      && r.err == certs.err
      && r.families.certificates == certs.certificates
      && r.families.(certificates := f.certificates) == base
      && (r.err.Some? ==> r.interfaces == ifs)
      && (r.err.None? ==> r.interfaces == RecordInterfaces(ifs, labels, info.interfaces))
  {
  }

  lemma SystemKeepsDeclares(f: NodeFamilies, labels: seq<string>, s: NodeStatus)
    requires f.Declares() && |labels| == |NodeLabels|
    ensures f.System(labels, s).Declares()
  {
    SetKeepsConsistent(f.status, labels, StatusToValue(s.mgmtClusterStatus, StatusConnected));
    SetKeepsConsistent(f.cpu, labels, s.cpuCores);
    SetEachKeepsConsistent(f.fsTotal, FsTotalWrites(labels, s.fileSystems));
    SetEachKeepsConsistent(f.fsUsed, FsUsedWrites(labels, s.fileSystems));
    SetEachLastWins(f.fsTotal, FsTotalWrites(labels, s.fileSystems), labels);
    SetEachLastWins(f.fsUsed, FsUsedWrites(labels, s.fileSystems), labels);
    if |s.loadAverage| == 3 {
      SetKeepsConsistent(f.load1, labels, s.loadAverage[0]);
      SetKeepsConsistent(f.load5, labels, s.loadAverage[1]);
      SetKeepsConsistent(f.load15, labels, s.loadAverage[2]);
    }
    SetKeepsConsistent(f.uptime, labels, s.uptime);
    SetKeepsConsistent(f.version, labels + [s.version], 1.0);
  }

  /** Populating keeps every family consistent, whichever stage stops it. */
  lemma PopulateKeepsDeclares(f: NodeFamilies, ifs: InterfaceFamilies, info: NodeInfo, c: Codec)
    requires Consumes(c) && f.Declares() && ifs.Declares()
    ensures PopulateNode(f, ifs, info, c).families.Declares() && PopulateNode(f, ifs, info, c).interfaces.Declares()
  {
    var labels := NodeLabelValues(info.config);
    var base := f.System(labels, info.status);
    SystemKeepsDeclares(f, labels, info.status);
    CertStagesKeepConsistent(base.certificates, labels, info.config, c);
    RecordInterfacesKeepsDeclares(ifs, labels, info.interfaces);
  }

  /** After a reset no node family holds a series, and every declaration stays. */
  lemma ResetClears(f: NodeFamilies)
    requires f.Declares()
    ensures f.Reset().Declares() && AllCleared(f.Reset().Own())
  {
  }

  // ---- the objects ----

  /** `InterfaceMetrics`: the interface families, updated in place. */
  class InterfaceMetrics {
    var info: GaugeVec
    var rxByte: GaugeVec
    var rxDropped: GaugeVec
    var rxError: GaugeVec
    var rxFrame: GaugeVec
    var rxPacket: GaugeVec
    var txByte: GaugeVec
    var txCarrier: GaugeVec
    var txColl: GaugeVec
    var txDropped: GaugeVec
    var txError: GaugeVec
    var txPacket: GaugeVec

    function Families(): InterfaceFamilies
      reads this
    {
      InterfaceFamilies(info, rxByte, rxDropped, rxError, rxFrame, rxPacket,
                        txByte, txCarrier, txColl, txDropped, txError, txPacket)
    }

    ghost predicate Valid()
      reads this
    {
      Families().Declares()
    }

    /** Stores a snapshot into the fields. */
    method Store(f: InterfaceFamilies)
      modifies this
      ensures Families() == f
    {
      info, rxByte, rxDropped, rxError, rxFrame, rxPacket := f.info, f.rxByte, f.rxDropped, f.rxError, f.rxFrame, f.rxPacket;
      txByte, txCarrier, txColl, txDropped, txError, txPacket := f.txByte, f.txCarrier, f.txColl, f.txDropped, f.txError, f.txPacket;
    }

    /** `NewInterfaceMetrics` */
    constructor(namespace: string)
      ensures Valid() && Families() == NewInterfaceFamilies(namespace)
    {
      new;
      Store(NewInterfaceFamilies(namespace));
    }

    /** `InterfaceMetrics.Reset` */
    method Reset()
      requires Valid()
      modifies this
      ensures Valid() && Families() == old(Families()).Reset()
    {
      InterfaceResetClears(Families());
      Store(Families().Reset());
    }

    /** The twelve writes of the interface loop for one interface. */
    method Record(labels: seq<string>, iface: Interface)
      requires Valid() && |labels| == |NodeLabels|
      modifies this
      ensures Valid() && Families() == old(Families()).Record(labels, iface)
    {
      var l := Slice(labels, [iface.config.interfaceId]);
      var infoLabels := Slice(l, [iface.config.adminStatus, iface.config.linkStatus, FormatInt(iface.config.mtu)]);
      var s := iface.stats;
      var next := InterfaceFamilies(
        SetValue(info, infoLabels, 1.0),
        SetValue(rxByte, l, s.rxBytes), SetValue(rxDropped, l, s.rxDropped), SetValue(rxError, l, s.rxErrors),
        SetValue(rxFrame, l, s.rxFrame), SetValue(rxPacket, l, s.rxPackets), SetValue(txByte, l, s.txBytes),
        SetValue(txCarrier, l, s.txCarrier), SetValue(txColl, l, s.txColls), SetValue(txDropped, l, s.txDropped),
        SetValue(txError, l, s.txErrors), SetValue(txPacket, l, s.txPackets));
      InterfaceRecordKeepsDeclares(Families(), labels, iface);
      Store(next);
    }

    /** The interface loop of `NodeMetrics.Populate`. */
    method RecordAll(labels: seq<string>, ifaces: seq<Interface>)
      requires Valid() && |labels| == |NodeLabels|
      modifies this
      ensures Valid() && Families() == RecordInterfaces(old(Families()), labels, ifaces)
    {
      ghost var start := Families();
      var i := 0;
      while i < |ifaces|
        invariant 0 <= i <= |ifaces|
        invariant Valid()
        invariant Families() == RecordInterfaces(start, labels, ifaces[..i])
      {
        assert ifaces[..i + 1][..i] == ifaces[..i];
        Record(labels, ifaces[i]);
        i := i + 1;
      }
      assert ifaces[..i] == ifaces;
    }
  }

  /** `NodeMetrics`: the node families, updated in place, and the interface group it
      points to. */
  class NodeMetrics {
    var status: GaugeVec
    var cpu: GaugeVec
    var fsTotal: GaugeVec
    var fsUsed: GaugeVec
    var load1: GaugeVec
    var load5: GaugeVec
    var load15: GaugeVec
    var memTotal: GaugeVec
    var memUsed: GaugeVec
    var memCache: GaugeVec
    var uptime: GaugeVec
    var version: GaugeVec
    var certificates: GaugeVec
    const interfaces: InterfaceMetrics

    function Families(): NodeFamilies
      reads this
    {
      NodeFamilies(status, cpu, fsTotal, fsUsed, load1, load5, load15, memTotal, memUsed, memCache,
                   uptime, version, certificates)
    }

    ghost predicate Valid()
      reads this, interfaces
    {
      Families().Declares() && interfaces.Valid()
    }

    /** Stores a snapshot into the node's own fields. */
    method Store(f: NodeFamilies)
      modifies this
      ensures Families() == f
    {
      status, cpu, fsTotal, fsUsed, load1, load5, load15, memTotal, memUsed, memCache, uptime, version, certificates :=
        f.status, f.cpu, f.fsTotal, f.fsUsed, f.load1, f.load5, f.load15, f.memTotal, f.memUsed, f.memCache, f.uptime, f.version, f.certificates;
    }

    /** `NewNodeMetrics` */
    constructor(namespace: string)
      ensures Valid() && Families() == NewNodeFamilies(namespace)
      ensures interfaces.Families() == NewInterfaceFamilies(namespace) && fresh(interfaces)
    {
      interfaces := new InterfaceMetrics(namespace);
      new;
      Store(NewNodeFamilies(namespace));
    }

    /** `NodeMetrics.Reset` */
    method Reset()
      requires Valid()
      modifies this, interfaces
      ensures Valid() && Families() == old(Families()).Reset()
      ensures interfaces.Families() == old(interfaces.Families()).Reset()
    {
      ResetClears(Families());
      Store(Families().Reset());
      interfaces.Reset();
    }

    /** The writes before the certificates. */
    method PopulateSystem(labels: seq<string>, s: NodeStatus)
      modifies this
      ensures Families() == old(Families()).System(labels, s)
    {
      var newStatus := SetValue(status, labels, StatusToValue(s.mgmtClusterStatus, StatusConnected));
      var newCpu := SetValue(cpu, labels, s.cpuCores);
      var newTotal, newUsed := RecordFileSystems(fsTotal, fsUsed, labels, s.fileSystems);
      var l1, l5, l15 := load1, load5, load15;
      if |s.loadAverage| == 3 {
        l1 := SetValue(load1, labels, s.loadAverage[0]);
        l5 := SetValue(load5, labels, s.loadAverage[1]);
        l15 := SetValue(load15, labels, s.loadAverage[2]);
      }
      var newUptime := SetValue(uptime, labels, s.uptime);
      var versionLabels := Slice(labels, [s.version]);
      var newVersion := SetValue(version, versionLabels, 1.0);
      Store(NodeFamilies(newStatus, newCpu, newTotal, newUsed, l1, l5, l15, memTotal, memUsed, memCache,
                         newUptime, newVersion, certificates));
    }

    /** One certificate stage: process the blob and, unless that fails, write every
        entry's expiry under the blob's kind and the entry's index. */
    method RecordCertificates(labels: seq<string>, kind: string, content: string, c: Codec) returns (err: Option<Error>)
      requires Consumes(c)
      modifies this
      ensures Families() == old(Families()).(certificates := CertStage(old(certificates), labels, kind, content, c).certificates)
      ensures err == CertStage(old(certificates), labels, kind, content, c).err
    {
      var certs, e := ProcessCertificates(c, content);
      if e.Some? {
        return e;
      }
      certificates := WriteCertificates(certificates, labels, kind, certs);
      return None;
    }

    /** The three certificate stages, the first error returned at once. */
    method PopulateCertificates(labels: seq<string>, config: NodeConfig, c: Codec) returns (err: Option<Error>)
      requires Consumes(c)
      modifies this
      ensures Families() == old(Families()).(certificates := CertStages(old(certificates), labels, config, c).certificates)
      ensures err == CertStages(old(certificates), labels, config, c).err
    {
      err := RecordCertificates(labels, "api", config.apiCertificate, c);
      if err.Some? {
        return err;
      }
      err := RecordCertificates(labels, "mgmt_cluster", config.mgmtClusterCertificate, c);
      if err.Some? {
        return err;
      }
      err := RecordCertificates(labels, "mgmt_plane", config.mgmtPlaneCertificate, c);
    }

    /** `NodeMetrics.Populate`: the system part, the certificate stages, then, unless they
        returned an error, the interface loop. */
    method Populate(info: NodeInfo, c: Codec) returns (err: Option<Error>)
      requires Valid() && Consumes(c)
      modifies this, interfaces
      ensures Valid()
      ensures var r := PopulateNode(old(Families()), old(interfaces.Families()), info, c);
        Families() == r.families && interfaces.Families() == r.interfaces && err == r.err
    {
      PopulateKeepsDeclares(Families(), interfaces.Families(), info, c);
      var labels := [info.config.id, info.config.applianceMgmtListenAddr, info.config.displayName];
      PopulateSystem(labels, info.status);
      err := PopulateCertificates(labels, info.config, c);
      if err.Some? {
        return err;
      }
      interfaces.RecordAll(labels, info.interfaces);
    }
  }
}
