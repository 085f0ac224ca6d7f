/** metrics/generic.go: the family groups several metric sets share. In the exporter
    they are values embedded in (or pointed to by) one owner each, so they are modelled
    as values with functional `Populate` and `Reset`. */
module GenericMetrics {
  import opened Common
  import opened Text
  import opened Records
  import opened Gauge
  import opened Setter

  /** The object name as help texts spell it, with spaces for underscores. */
  function Spelled(obj: string): string { ReplaceChar(obj, '_', ' ') }

  /** `object_suffix`, the shape of every generic family name. */
  function FamilyName(obj: string, suffix: string): string { obj + "_" + suffix }

  /** Names of one object differ when their suffixes do. */
  lemma FamilyNameInjective(obj: string, a: string, b: string)
    requires FamilyName(obj, a) == FamilyName(obj, b)
    ensures a == b
  {
    assert a == FamilyName(obj, a)[|obj| + 1..];
    assert b == FamilyName(obj, b)[|obj| + 1..];
  }

  /** `TotalMetrics`: a total and a maximum. */
  datatype TotalMetrics = TotalMetrics(total: GaugeVec, max: GaugeVec) {
    /** `TotalMetrics.Reset` */
    function Reset(): (r: TotalMetrics)
      ensures r.total == Gauge.Reset(total) && r.max == Gauge.Reset(max)
    {
      TotalMetrics(Gauge.Reset(total), Gauge.Reset(max))
    }
  }

  /** `RateMetrics`: a current figure and its rate. */
  datatype RateMetrics = RateMetrics(current: GaugeVec, rate: GaugeVec) {
    /** `RateMetrics.Reset` */
    function Reset(): (r: RateMetrics)
      ensures r.current == Gauge.Reset(current) && r.rate == Gauge.Reset(rate)
    {
      RateMetrics(Gauge.Reset(current), Gauge.Reset(rate))
    }
  }

  /** `SessionMetrics`: session rate, current, total and maximum. */
  datatype SessionMetrics = SessionMetrics(rate: GaugeVec, current: GaugeVec, total: GaugeVec, max: GaugeVec) {
    /** `SessionMetrics.Reset` */
    function Reset(): (r: SessionMetrics)
      ensures r.rate == Gauge.Reset(rate) && r.current == Gauge.Reset(current)
      ensures r.total == Gauge.Reset(total) && r.max == Gauge.Reset(max)
    {
      SessionMetrics(Gauge.Reset(rate), Gauge.Reset(current), Gauge.Reset(total), Gauge.Reset(max))
    }

    ghost predicate Declares(labels: seq<string>) {
      Declared(rate, labels) && Declared(current, labels) && Declared(total, labels) && Declared(max, labels)
    }

    /** The four families. */
    function Families(): seq<GaugeVec> { [rate, current, total, max] }

    /** The four `setp` writes an owner makes with a session figure set: each present
        figure is written under `labels`, each absent one leaves its family alone. */
    function Record(labels: seq<string>, rateValue: Option<real>, currentValue: Option<real>,
                    maxValue: Option<real>, totalValue: Option<real>): (r: SessionMetrics)
      ensures r.rate == SetP(rate, labels, rateValue) && r.current == SetP(current, labels, currentValue)
      ensures r.max == SetP(max, labels, maxValue) && r.total == SetP(total, labels, totalValue)
    {
      SessionMetrics(SetP(rate, labels, rateValue), SetP(current, labels, currentValue),
                     SetP(total, labels, totalValue), SetP(max, labels, maxValue))
    }
  }

  /** `NewTotalMetrics`: families `object_kind_total` and `object_kind_max`. */
  function NewTotalMetrics(namespace: string, obj: string, kind: string, labels: seq<string>): (r: TotalMetrics)
    ensures r.total.opts == Opts(namespace, FamilyName(obj, kind + "_total"),
                                 "Total number of " + kind + " in " + Spelled(obj), labels)
    ensures r.max.opts == Opts(namespace, FamilyName(obj, kind + "_max"),
                               "Maximum number of " + kind + " in " + Spelled(obj), labels)
    ensures r.total.values == map[] && r.max.values == map[]
  {
    TotalMetrics(
      NewGaugeVec(namespace, FamilyName(obj, kind + "_total"), "Total number of " + kind + " in " + Spelled(obj), labels),
      NewGaugeVec(namespace, FamilyName(obj, kind + "_max"), "Maximum number of " + kind + " in " + Spelled(obj), labels))
  }

  /** `NewRateMetrics`: families `object_kind` and `object_kind_rate`. */
  function NewRateMetrics(namespace: string, obj: string, kind: string, labels: seq<string>): (r: RateMetrics)
    ensures r.current.opts == Opts(namespace, FamilyName(obj, kind),
                                   "Current number of " + kind + " in " + Spelled(obj), labels)
    ensures r.rate.opts == Opts(namespace, FamilyName(obj, kind + "_rate"),
                                "Number of " + kind + " per second in " + Spelled(obj), labels)
    ensures r.current.values == map[] && r.rate.values == map[]
  {
    RateMetrics(
      NewGaugeVec(namespace, FamilyName(obj, kind), "Current number of " + kind + " in " + Spelled(obj), labels),
      NewGaugeVec(namespace, FamilyName(obj, kind + "_rate"), "Number of " + kind + " per second in " + Spelled(obj), labels))
  }

  /** `NewSessionMetrics`: families `object_session_kind_{rate,current,total,max}`; these
      help texts keep the object name as it is. */
  function NewSessionMetrics(namespace: string, obj: string, kind: string, labels: seq<string>): (r: SessionMetrics)
    ensures r.rate.opts == Opts(namespace, obj + "_session_" + kind + "_rate",
                                "Number of new " + kind + " session per second for " + obj, labels)
    ensures r.current.opts == Opts(namespace, obj + "_session_" + kind + "_current",
                                   "Current number of " + kind + " session for " + obj, labels)
    ensures r.total.opts == Opts(namespace, obj + "_session_" + kind + "_total",
                                 "Total number of " + kind + " session for " + obj, labels)
    ensures r.max.opts == Opts(namespace, obj + "_session_" + kind + "_max",
                               "Maximum number of " + kind + " session for " + obj, labels)
    ensures r.Declares(labels)
  {
    SessionMetrics(
      NewGaugeVec(namespace, obj + "_session_" + kind + "_rate", "Number of new " + kind + " session per second for " + obj, labels),
      NewGaugeVec(namespace, obj + "_session_" + kind + "_current", "Current number of " + kind + " session for " + obj, labels),
      NewGaugeVec(namespace, obj + "_session_" + kind + "_total", "Total number of " + kind + " session for " + obj, labels),
      NewGaugeVec(namespace, obj + "_session_" + kind + "_max", "Maximum number of " + kind + " session for " + obj, labels))
  }

  /** The family declares `labels` and holds only series of that arity. */
  ghost predicate Declared(g: GaugeVec, labels: seq<string>) {
    g.opts.labelNames == labels && Consistent(g)
  }

  /** How many families a `NetworkMetrics` holds: six rate pairs and one total pair. */
  const NetworkFamilyCount: nat := 14

  /** The name suffixes of the network families, in the order of `Families()`. */
  const NetworkSuffixes: seq<string> := [
    "http_request", "http_request_rate", "in_packet", "in_packet_rate",
    "out_packet", "out_packet_rate", "in_byte", "in_byte_rate",
    "out_byte", "out_byte_rate", "session", "session_rate",
    "session_max", "session_total"]

  /** `NetworkMetrics`: rate pairs for HTTP requests, packets and bytes in and out and
      sessions, plus the session total and maximum. */
  datatype NetworkMetrics = NetworkMetrics(
    http: RateMetrics, inPacket: RateMetrics, outPacket: RateMetrics,
    inByte: RateMetrics, outByte: RateMetrics, session: RateMetrics,
    sessionTotal: TotalMetrics)
  {
    /** The fourteen families, in the order `Populate` writes them. */
    function Families(): (fs: seq<GaugeVec>)
      ensures |fs| == NetworkFamilyCount
    {
      [http.current, http.rate, inPacket.current, inPacket.rate,
       outPacket.current, outPacket.rate, inByte.current, inByte.rate,
       outByte.current, outByte.rate, session.current, session.rate,
       sessionTotal.max, sessionTotal.total]
    }

    /** Every family declares `labels` and holds only series of that arity. */
    ghost predicate Declares(labels: seq<string>) {
      forall i :: 0 <= i < NetworkFamilyCount ==> Declared(Families()[i], labels)
    }

    /** `NetworkMetrics.Reset`: all seven groups, that is all fourteen families, cleared. */
    function Reset(): (r: NetworkMetrics)
      ensures forall i :: 0 <= i < NetworkFamilyCount ==> r.Families()[i] == Gauge.Reset(Families()[i])
    {
      NetworkMetrics(http.Reset(), inPacket.Reset(), outPacket.Reset(), inByte.Reset(), outByte.Reset(),
                     session.Reset(), sessionTotal.Reset())
    }

    /** `NetworkMetrics.Populate`: each counter goes through `setp` into its family, so a
        present counter is written under `labels` and an absent one leaves its family
        as it was. */
    function Populate(labels: seq<string>, c: Counter): (r: NetworkMetrics)
      ensures forall i :: 0 <= i < NetworkFamilyCount ==>
                && (Readings(c)[i].None? ==> r.Families()[i] == Families()[i])
                && (Readings(c)[i].Some? ==> r.Families()[i] == Set(Families()[i], labels, Readings(c)[i].value))
    {
      NetworkMetrics(
        RateMetrics(SetP(http.current, labels, c.httpRequests), SetP(http.rate, labels, c.httpRequestRate)),
        RateMetrics(SetP(inPacket.current, labels, c.packetsIn), SetP(inPacket.rate, labels, c.packetsInRate)),
        RateMetrics(SetP(outPacket.current, labels, c.packetsOut), SetP(outPacket.rate, labels, c.packetsOutRate)),
        RateMetrics(SetP(inByte.current, labels, c.bytesIn), SetP(inByte.rate, labels, c.bytesInRate)),
        RateMetrics(SetP(outByte.current, labels, c.bytesOut), SetP(outByte.rate, labels, c.bytesOutRate)),
        RateMetrics(SetP(session.current, labels, c.currentSessions), SetP(session.rate, labels, c.currentSessionRate)),
        TotalMetrics(SetP(sessionTotal.total, labels, c.totalSessions), SetP(sessionTotal.max, labels, c.maxSessions)))
    }
  }

  /** The fourteen counters, in the order of `Families()`. */
  function Readings(c: Counter): (rs: seq<Option<real>>)
    ensures |rs| == NetworkFamilyCount
  {
    [c.httpRequests, c.httpRequestRate, c.packetsIn, c.packetsInRate,
     c.packetsOut, c.packetsOutRate, c.bytesIn, c.bytesInRate,
     c.bytesOut, c.bytesOutRate, c.currentSessions, c.currentSessionRate,
     c.maxSessions, c.totalSessions]
  }

  /** `NewNetworkMetrics`: six rate pairs and the session totals, all under `labels`. */
  function NewNetworkMetrics(namespace: string, obj: string, labels: seq<string>): (r: NetworkMetrics)
    ensures forall i :: 0 <= i < NetworkFamilyCount ==>
              && r.Families()[i].opts.namespace == namespace
              && r.Families()[i].opts.labelNames == labels
              && r.Families()[i].values == map[]
  {
    NetworkMetrics(
      NewRateMetrics(namespace, obj, "http_request", labels),
      NewRateMetrics(namespace, obj, "in_packet", labels),
      NewRateMetrics(namespace, obj, "out_packet", labels),
      NewRateMetrics(namespace, obj, "in_byte", labels),
      NewRateMetrics(namespace, obj, "out_byte", labels),
      NewRateMetrics(namespace, obj, "session", labels),
      NewTotalMetrics(namespace, obj, "session", labels))
  }

  /** A new group declares `labels` and holds no series. */
  lemma NewNetworkDeclares(namespace: string, obj: string, labels: seq<string>)
    ensures NewNetworkMetrics(namespace, obj, labels).Declares(labels)
  {
    var n := NewNetworkMetrics(namespace, obj, labels);
    forall i | 0 <= i < NetworkFamilyCount
      ensures Declared(n.Families()[i], labels)
    {
      assert n.Families()[i].values == map[];
    }
  }

  /** The network families of `obj` are named `obj_` followed by their suffix. */
  lemma NetworkNames(namespace: string, obj: string, labels: seq<string>)
    ensures forall i :: 0 <= i < NetworkFamilyCount ==>
              NewNetworkMetrics(namespace, obj, labels).Families()[i].opts.name == FamilyName(obj, NetworkSuffixes[i])
  {
  }

  /** No two network families of one object share a name, so they can all be registered. */
  lemma NetworkNamesDistinct(namespace: string, obj: string, labels: seq<string>, i: nat, j: nat)
    requires i < NetworkFamilyCount && j < NetworkFamilyCount && i != j
    ensures NewNetworkMetrics(namespace, obj, labels).Families()[i].opts.name
            != NewNetworkMetrics(namespace, obj, labels).Families()[j].opts.name
  {
    NetworkNames(namespace, obj, labels);
    SuffixesDistinct(i, j);
    if FamilyName(obj, NetworkSuffixes[i]) == FamilyName(obj, NetworkSuffixes[j]) {
      FamilyNameInjective(obj, NetworkSuffixes[i], NetworkSuffixes[j]);
    }
  }

  lemma SuffixesDistinct(i: nat, j: nat)
    requires i < NetworkFamilyCount && j < NetworkFamilyCount && i != j
    ensures NetworkSuffixes[i] != NetworkSuffixes[j]
  {
  }

  /** Populating with as many label values as the group declares names keeps every family consistent. */
  lemma NetworkPopulateKeepsDeclares(n: NetworkMetrics, names: seq<string>, labels: seq<string>, c: Counter)
    requires n.Declares(names) && |labels| == |names|
    ensures n.Populate(labels, c).Declares(names)
  {
    var r := n.Populate(labels, c);
    forall i | 0 <= i < NetworkFamilyCount
      ensures Declared(r.Families()[i], names)
    {
      if Readings(c)[i].Some? {
        SetKeepsConsistent(n.Families()[i], labels, Readings(c)[i].value);
      }
    }
  }

  /** Every present counter is written under `labels`; absent ones leave their family alone. */
  lemma NetworkPopulateWrites(n: NetworkMetrics, labels: seq<string>, c: Counter)
    ensures forall i :: 0 <= i < NetworkFamilyCount && Readings(c)[i].Some? ==>
              labels in n.Populate(labels, c).Families()[i].values
              && n.Populate(labels, c).Families()[i].values[labels] == Readings(c)[i].value
    ensures forall i :: 0 <= i < NetworkFamilyCount && Readings(c)[i].None? ==>
              n.Populate(labels, c).Families()[i] == n.Families()[i]
  {
  }

  /** Populating twice with the same record is populating once. */
  lemma NetworkPopulateIdempotent(n: NetworkMetrics, labels: seq<string>, c: Counter)
    ensures n.Populate(labels, c).Populate(labels, c) == n.Populate(labels, c)
  {
    var once := n.Populate(labels, c);
    forall i | 0 <= i < NetworkFamilyCount && Readings(c)[i].Some?
      ensures Set(once.Families()[i], labels, Readings(c)[i].value) == once.Families()[i]
    {
      SetIdempotent(n.Families()[i], labels, Readings(c)[i].value);
    }
    assert once.Populate(labels, c).Families() == once.Families();
  }

  /** A reset group declares the same labels and holds nothing. */
  lemma NetworkResetClears(n: NetworkMetrics, names: seq<string>)
    requires n.Declares(names)
    ensures n.Reset().Declares(names)
    ensures forall i :: 0 <= i < NetworkFamilyCount ==> n.Reset().Families()[i].values == map[]
  {
  }

  // ---- confinement: an owner's writes stay under its own labels ----

  lemma SetPSameOutside(g: GaugeVec, labels: seq<string>, value: Option<real>, prefix: seq<string>)
    requires prefix <= labels
    ensures SameOutside(g, SetP(g, labels, value), prefix)
  {
  }

  lemma SetPKeepsConsistent(g: GaugeVec, labels: seq<string>, value: Option<real>)
    requires Consistent(g) && |labels| == |g.opts.labelNames|
    ensures Consistent(SetP(g, labels, value))
  {
    if value.Some? {
      SetKeepsConsistent(g, labels, value.value);
    }
  }

  /** Session writes with as many label values as the group declares names keep it consistent. */
  lemma RecordKeepsDeclares(s: SessionMetrics, names: seq<string>, labels: seq<string>, rateValue: Option<real>,
                            currentValue: Option<real>, maxValue: Option<real>, totalValue: Option<real>)
    requires s.Declares(names) && |labels| == |names|
    ensures s.Record(labels, rateValue, currentValue, maxValue, totalValue).Declares(names)
  {
    SetPKeepsConsistent(s.rate, labels, rateValue);
    SetPKeepsConsistent(s.current, labels, currentValue);
    SetPKeepsConsistent(s.total, labels, totalValue);
    SetPKeepsConsistent(s.max, labels, maxValue);
  }

  /** The session writes under `labels` touch no series outside `prefix`. */
  lemma RecordSameOutside(s: SessionMetrics, labels: seq<string>, rateValue: Option<real>, currentValue: Option<real>,
                          maxValue: Option<real>, totalValue: Option<real>, prefix: seq<string>)
    requires prefix <= labels
    ensures AllSameOutside(s.Families(), s.Record(labels, rateValue, currentValue, maxValue, totalValue).Families(), prefix)
  {
    SetPSameOutside(s.rate, labels, rateValue, prefix);
    SetPSameOutside(s.current, labels, currentValue, prefix);
    SetPSameOutside(s.total, labels, totalValue, prefix);
    SetPSameOutside(s.max, labels, maxValue, prefix);
  }

  /** Populating a network group under `labels` touches no series outside `prefix`. */
  lemma NetworkPopulateSameOutside(n: NetworkMetrics, labels: seq<string>, c: Counter, prefix: seq<string>)
    requires prefix <= labels
    ensures AllSameOutside(n.Families(), n.Populate(labels, c).Families(), prefix)
  {
    var r := n.Populate(labels, c);
    forall i | 0 <= i < NetworkFamilyCount
      ensures SameOutside(n.Families()[i], r.Families()[i], prefix)
    {
      if Readings(c)[i].Some? {
        SetSameOutside(n.Families()[i], labels, Readings(c)[i].value, prefix);
      }
    }
  }
}
