/** A Prometheus gauge family (`prometheus.GaugeVec`) as the exporter uses it: the
    declared options and label names, and one value per sequence of label values.
    `WithLabelValues(labels...).Set(v)` is a map update and `Reset()` empties the map.
    Writing with a number of label values other than the declared number is not
    refused here; `Consistent` states when every stored series has the declared arity. */
module Gauge {
  import opened Common

  datatype Opts = Opts(namespace: string, name: string, help: string, labelNames: seq<string>)

  datatype GaugeVec = GaugeVec(opts: Opts, values: map<seq<string>, real>)

  /** `promauto.NewGaugeVec(opts, labelNames)`: a family with no series yet. */
  function NewGaugeVec(namespace: string, name: string, help: string, labelNames: seq<string>): (g: GaugeVec)
    ensures g.opts == Opts(namespace, name, help, labelNames) && g.values == map[]
  {
    GaugeVec(Opts(namespace, name, help, labelNames), map[])
  }

  /** `WithLabelValues(labels...).Set(v)`: the series `labels` now holds `v`; every other
      series and the options are untouched. */
  function Set(g: GaugeVec, labels: seq<string>, v: real): (r: GaugeVec)
    ensures r.opts == g.opts
    ensures labels in r.values && r.values[labels] == v
    ensures forall k :: k != labels ==> (k in r.values <==> k in g.values)
    ensures forall k :: k != labels && k in g.values ==> r.values[k] == g.values[k]
  {
    g.(values := g.values[labels := v])
  }

  /** `Reset()`: every series is dropped, the options stay. */
  function Reset(g: GaugeVec): (r: GaugeVec)
    ensures r.opts == g.opts && r.values == map[]
  {
    g.(values := map[])
  }

  /** The family holds a series under `k`. */
  predicate Holds(g: GaugeVec, k: seq<string>) {
    k in g.values
  }

  /** Every stored series has exactly as many label values as the family declares names.
      (The quantifier fires on `Holds` only, so that a context with many families and
      many map lookups stays small.) */
  ghost predicate Consistent(g: GaugeVec) {
    forall k {:trigger Holds(g, k)} :: Holds(g, k) ==> |k| == |g.opts.labelNames|
  }

  /** A write with the declared arity keeps the family consistent. */
  lemma SetKeepsConsistent(g: GaugeVec, labels: seq<string>, v: real)
    requires Consistent(g) && |labels| == |g.opts.labelNames|
    ensures Consistent(Set(g, labels, v))
  {
    var r := Set(g, labels, v);
    forall k | Holds(r, k)
      ensures |k| == |r.opts.labelNames|
    {
      if k != labels {
        assert Holds(g, k);
      }
    }
  }

  /** A write with another arity leaves a series the family cannot hold (the real
      `WithLabelValues` panics there). */
  lemma SetOtherArityInconsistent(g: GaugeVec, labels: seq<string>, v: real)
    requires |labels| != |g.opts.labelNames|
    ensures !Consistent(Set(g, labels, v))
  {
    assert Holds(Set(g, labels, v), labels);
  }

  /** Writing the same value twice is writing it once. */
  lemma SetIdempotent(g: GaugeVec, labels: seq<string>, v: real)
    ensures Set(Set(g, labels, v), labels, v) == Set(g, labels, v)
  {
    assert Set(Set(g, labels, v), labels, v).values == Set(g, labels, v).values;
  }

  /** Writes to different series commute. */
  lemma SetCommutes(g: GaugeVec, l1: seq<string>, v1: real, l2: seq<string>, v2: real)
    requires l1 != l2
    ensures Set(Set(g, l1, v1), l2, v2) == Set(Set(g, l2, v2), l1, v1)
  {
    assert Set(Set(g, l1, v1), l2, v2).values == Set(Set(g, l2, v2), l1, v1).values;
  }

  // ---- a sequence of writes ----

  /** One `WithLabelValues(labels...).Set(value)`. */
  datatype Write = Write(labels: seq<string>, value: real)

  /** The writes performed in order. */
  function SetEach(g: GaugeVec, ws: seq<Write>): GaugeVec
    decreases |ws|
  {
    if ws == [] then g else Set(SetEach(g, ws[..|ws| - 1]), ws[|ws| - 1].labels, ws[|ws| - 1].value)
  }

  /** The value of the last write to `key`, if any. */
  function LastWrite(ws: seq<Write>, key: seq<string>): Option<real>
    decreases |ws|
  {
    if ws == [] then None
    else if ws[|ws| - 1].labels == key then Some(ws[|ws| - 1].value)
    else LastWrite(ws[..|ws| - 1], key)
  }

  /** `LastWrite` finds a write exactly when there is one, and it is the value of the
      write to `key` after which no other write to `key` follows. */
  lemma {:induction false} LastWriteFound(ws: seq<Write>, key: seq<string>)
    ensures LastWrite(ws, key).Some? <==> exists i :: 0 <= i < |ws| && ws[i].labels == key
    ensures LastWrite(ws, key).Some? ==>
              exists i :: 0 <= i < |ws| && ws[i].labels == key && ws[i].value == LastWrite(ws, key).value
                          && forall j :: i < j < |ws| ==> ws[j].labels != key
    decreases |ws|
  {
    if ws != [] {
      var init := ws[..|ws| - 1];
      LastWriteFound(init, key);
      assert forall i :: 0 <= i < |init| ==> init[i] == ws[i];
      if ws[|ws| - 1].labels != key && LastWrite(init, key).Some? {
        var i :| 0 <= i < |init| && init[i].labels == key && init[i].value == LastWrite(init, key).value
                 && forall j :: i < j < |init| ==> init[j].labels != key;
        assert forall j :: i < j < |ws| ==> ws[j].labels != key;
      }
    }
  }

  /** After a sequence of writes each series holds its last written value; series never
      written keep what they held. */
  lemma {:induction false} SetEachLastWins(g: GaugeVec, ws: seq<Write>, key: seq<string>)
    ensures SetEach(g, ws).opts == g.opts
    ensures key in SetEach(g, ws).values <==> key in g.values || LastWrite(ws, key).Some?
    ensures LastWrite(ws, key).Some? ==> SetEach(g, ws).values[key] == LastWrite(ws, key).value
    ensures LastWrite(ws, key).None? && key in g.values ==> SetEach(g, ws).values[key] == g.values[key]
    decreases |ws|
  {
    if ws != [] {
      SetEachLastWins(g, ws[..|ws| - 1], key);
    }
  }

  /** A write that no later write of the sequence shadows survives it. */
  lemma {:induction false} SetEachUnshadowed(g: GaugeVec, ws: seq<Write>, i: nat)
    requires i < |ws|
    requires forall j :: i < j < |ws| ==> ws[j].labels != ws[i].labels
    ensures ws[i].labels in SetEach(g, ws).values && SetEach(g, ws).values[ws[i].labels] == ws[i].value
    decreases |ws|
  {
    var init := ws[..|ws| - 1];
    if i < |ws| - 1 {
      assert init[i] == ws[i];
      forall j | i < j < |init|
        ensures init[j].labels != init[i].labels
      {
        assert init[j] == ws[j];
      }
      SetEachUnshadowed(g, init, i);
    }
  }

  /** Writes of the declared arity keep a family consistent. */
  lemma {:induction false} SetEachKeepsConsistent(g: GaugeVec, ws: seq<Write>)
    requires Consistent(g)
    requires forall i :: 0 <= i < |ws| ==> |ws[i].labels| == |g.opts.labelNames|
    ensures Consistent(SetEach(g, ws))
    decreases |ws|
  {
    if ws != [] {
      SetEachKeepsConsistent(g, ws[..|ws| - 1]);
      SetEachLastWins(g, ws[..|ws| - 1], ws[|ws| - 1].labels);
      SetKeepsConsistent(SetEach(g, ws[..|ws| - 1]), ws[|ws| - 1].labels, ws[|ws| - 1].value);
    }
  }

  // ---- writes confined to one object's series ----

  /** `h` differs from `g` only in series whose label values start with `prefix`:
      the options, and every other series, are the same. */
  ghost predicate SameOutside(g: GaugeVec, h: GaugeVec, prefix: seq<string>) {
    && h.opts == g.opts
    && (forall k :: !(prefix <= k) ==> (k in h.values <==> k in g.values))
    && (forall k :: !(prefix <= k) && k in g.values ==> h.values[k] == g.values[k])
  }

  /** A write to a series under `prefix` leaves the series outside it alone. */
  lemma SetSameOutside(g: GaugeVec, labels: seq<string>, v: real, prefix: seq<string>)
    requires prefix <= labels
    ensures SameOutside(g, Set(g, labels, v), prefix)
  {
  }

  /** Confinement composes along a sequence of operations. */
  lemma SameOutsideTrans(f: GaugeVec, g: GaugeVec, h: GaugeVec, prefix: seq<string>)
    requires SameOutside(f, g, prefix) && SameOutside(g, h, prefix)
    ensures SameOutside(f, h, prefix)
  {
  }

  /** Family by family, `hs` differs from `gs` only under `prefix`. */
  ghost predicate AllSameOutside(gs: seq<GaugeVec>, hs: seq<GaugeVec>, prefix: seq<string>) {
    |hs| == |gs| && forall i :: 0 <= i < |gs| ==> SameOutside(gs[i], hs[i], prefix)
  }

  lemma AllSameOutsideConcat(gs1: seq<GaugeVec>, hs1: seq<GaugeVec>, gs2: seq<GaugeVec>, hs2: seq<GaugeVec>, prefix: seq<string>)
    requires AllSameOutside(gs1, hs1, prefix) && AllSameOutside(gs2, hs2, prefix)
    ensures AllSameOutside(gs1 + gs2, hs1 + hs2, prefix)
  {
    forall i | 0 <= i < |gs1 + gs2|
      ensures SameOutside((gs1 + gs2)[i], (hs1 + hs2)[i], prefix)
    {
      if i >= |gs1| {
        assert (gs1 + gs2)[i] == gs2[i - |gs1|] && (hs1 + hs2)[i] == hs2[i - |gs1|];
      }
    }
  }

  /** Writes all under `prefix` leave the series outside it alone. */
  lemma {:induction false} SetEachSameOutside(g: GaugeVec, ws: seq<Write>, prefix: seq<string>)
    requires forall i :: 0 <= i < |ws| ==> prefix <= ws[i].labels
    ensures SameOutside(g, SetEach(g, ws), prefix)
    decreases |ws|
  {
    if ws != [] {
      var before := SetEach(g, ws[..|ws| - 1]);
      SetEachSameOutside(g, ws[..|ws| - 1], prefix);
      SetSameOutside(before, ws[|ws| - 1].labels, ws[|ws| - 1].value, prefix);
      SameOutsideTrans(g, before, SetEach(g, ws), prefix);
    }
  }

  /** Family-by-family confinement composes along a sequence of operations. */
  lemma AllSameOutsideTrans(fs: seq<GaugeVec>, gs: seq<GaugeVec>, hs: seq<GaugeVec>, prefix: seq<string>)
    requires AllSameOutside(fs, gs, prefix) && AllSameOutside(gs, hs, prefix)
    ensures AllSameOutside(fs, hs, prefix)
  {
    forall i | 0 <= i < |fs|
      ensures SameOutside(fs[i], hs[i], prefix)
    {
      SameOutsideTrans(fs[i], gs[i], hs[i], prefix);
    }
  }

  /** No family of `gs` holds a series. */
  ghost predicate AllCleared(gs: seq<GaugeVec>) {
    forall i :: 0 <= i < |gs| ==> gs[i].values == map[]
  }

  lemma AllClearedConcat(gs: seq<GaugeVec>, hs: seq<GaugeVec>)
    requires AllCleared(gs) && AllCleared(hs)
    ensures AllCleared(gs + hs)
  {
    forall i | 0 <= i < |gs + hs|
      ensures (gs + hs)[i].values == map[]
    {
      if i >= |gs| {
        assert (gs + hs)[i] == hs[i - |gs|];
      }
    }
  }
}
