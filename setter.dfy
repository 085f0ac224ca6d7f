/** metrics/setter.go: the helpers every `Populate` is written with. They coalesce
    absent (nil) record fields: take a zero value, skip the write, or write 0/1. */
module Setter {
  import opened Common
  import opened Text
  import opened Gauge

  const StatusStable: string := "STABLE"
  const StatusConnected: string := "CONNECTED"
  const StatusUp: string := "UP"
  const StatusInSync: string := "in_sync"

  /** `zero`: the pointee, or the type's zero value for a nil pointer. */
  function Zero<T>(value: Option<T>, zeroValue: T): (r: T)
    ensures value.Some? ==> r == value.value
    ensures value.None? ==> r == zeroValue
  {
    value.GetOr(zeroValue)
  }

  /** `zero` at `*string`. */
  function ZeroString(value: Option<string>): string { Zero(value, "") }

  /** `zero` at `*int64`. */
  function ZeroInt(value: Option<int>): int { Zero(value, 0) }

  /** `set`: one unconditional write. */
  function SetValue(g: GaugeVec, labels: seq<string>, v: real): GaugeVec { Set(g, labels, v) }

  /** `setp`: writes the pointee, and leaves the family as it was for a nil pointer. */
  function SetP(g: GaugeVec, labels: seq<string>, value: Option<real>): (r: GaugeVec)
    ensures value.None? ==> r == g
    ensures value.Some? ==> r == Set(g, labels, value.value)
  {
    match value
    case None => g
    case Some(v) => Set(g, labels, v)
  }

  /** `setb`: always writes the series `labels`, and nothing else: 1 exactly when the
      flag is present and true, 0 otherwise. */
  function SetB(g: GaugeVec, labels: seq<string>, value: Option<bool>): (r: GaugeVec)
    ensures labels in r.values && r == Set(g, labels, r.values[labels])
    ensures r.values[labels] == 1.0 <==> value == Some(true)
    ensures r.values[labels] == 0.0 <==> value != Some(true)
  {
    var v := if value.Some? && value.value then 1.0 else 0.0;
    Set(g, labels, v)
  }

  /** `setv`: always writes the series `labels`, and nothing else: 1 exactly when the
      value is present and equals `expected`, 0 otherwise. */
  function SetV(g: GaugeVec, labels: seq<string>, value: Option<string>, expected: string): (r: GaugeVec)
    ensures labels in r.values && r == Set(g, labels, r.values[labels])
    ensures r.values[labels] == 1.0 <==> value == Some(expected)
    ensures r.values[labels] == 0.0 <==> value != Some(expected)
  {
    var v := if value.Some? && value.value == expected then 1.0 else 0.0;
    Set(g, labels, v)
  }

  /** `statusToValue`: 1 for the expected status, 0 for any other. */
  function StatusToValue(value: string, expected: string): (r: real)
    ensures r == 1.0 <==> value == expected
    ensures r == 0.0 <==> value != expected
  {
    if value == expected then 1.0 else 0.0
  }

  /** `slice`: a new sequence, `s` followed by `vals`. */
  function Slice(s: seq<string>, vals: seq<string>): (r: seq<string>)
    ensures |r| == |s| + |vals|
    ensures r[..|s|] == s && r[|s|..] == vals
  {
    s + vals
  }

  // ---- `setl` ----

  /** A value `setl` can take: an `int64` is printed with `%d`, anything else
      (the exporter passes strings) with `%s`. */
  datatype LabelValue = Int64Label(i: int) | StringLabel(s: string)

  /** A `*string` handed to `setl`. */
  function StrLabel(value: Option<string>): Option<LabelValue> {
    match value
    case None => None
    case Some(s) => Some(StringLabel(s))
  }

  function Format(v: LabelValue): string {
    match v
    case Int64Label(i) => FormatInt(i)
    case StringLabel(s) => s
  }

  /** The formatted values of the non-nil entries, in order. */
  function Present(values: seq<Option<LabelValue>>): (r: seq<string>)
    ensures |r| <= |values|
    ensures |r| == |values| <==> forall i :: 0 <= i < |values| ==> values[i].Some?
    ensures (forall i :: 0 <= i < |values| ==> values[i].Some?) ==>
              forall i :: 0 <= i < |values| ==> r[i] == Format(values[i].value)
    decreases |values|
  {
    if values == [] then []
    else
      var init := Present(values[..|values| - 1]);
      assert forall i :: 0 <= i < |values| - 1 ==> values[..|values| - 1][i] == values[i];
      match values[|values| - 1]
      case None => init
      case Some(v) => init + [Format(v)]
  }

  /** What `setl` does: the series `labels` extended by every value is set to 1 when no
      value is nil; otherwise nothing is written. */
  function SetLOf(g: GaugeVec, labels: seq<string>, values: seq<Option<LabelValue>>): (r: GaugeVec)
    ensures (forall i :: 0 <= i < |values| ==> values[i].Some?) ==>
              r == Set(g, labels + Present(values), 1.0)
    ensures (exists i :: 0 <= i < |values| && values[i].None?) ==> r == g
  {
    var extended := labels + Present(values);
    if |extended| == |labels| + |values| then Set(g, extended, 1.0) else g
  }

  /** `setl`: the loop that extends the labels by each non-nil value, then writes 1 when
      every value was there. */
  method SetL(g: GaugeVec, labels: seq<string>, values: seq<Option<LabelValue>>) returns (r: GaugeVec)
    ensures r == SetLOf(g, labels, values)
  {
    var oLen := |labels|;
    var extended := labels;
    var i := 0;
    while i < |values|
      invariant 0 <= i <= |values|
      invariant extended == labels + Present(values[..i])
    {
      assert values[..i + 1][..i] == values[..i];
      if values[i].Some? {
        extended := Slice(extended, [Format(values[i].value)]);
      }
      i := i + 1;
    }
    assert values[..i] == values;
    if |extended| == oLen + |values| {
      return Set(g, extended, 1.0);
    }
    return g;
  }
}
