/**
  The metric families the exporter publishes, their label schemas, and the
  registry of samples as a map from series key to value. Every update of a
  cycle is a write of one value under one key; the registry is overwritten
  in place and never pruned.
*/
module Metrics {
  import opened Wrappers

  const StatusMetric := "meraki_device_status"
  const LossMetric := "meraki_device_uplink_loss"
  const LatencyMetric := "meraki_device_uplink_latency"
  const TimingMetric := "request_processing_seconds"

  /** Label names of the device status gauge, in declaration order. */
  const StatusLabelNames: seq<string> :=
    ["serial", "name", "networkId", "productType", "model", "orgName", "orgId"]

  /** Label names shared by the uplink loss and latency gauges. */
  const UplinkLabelNames: seq<string> :=
    ["serial", "networkId", "uplink", "ip", "orgName", "orgId"]

  /** The label schema declared for a metric family; none for a name that
      is not one of the four families. */
  function LabelSchema(metric: string): (r: Option<seq<string>>)
    ensures r.Some? <==> metric in {StatusMetric, LossMetric, LatencyMetric, TimingMetric}
    ensures metric == TimingMetric ==> r == Some([])
  {
    if metric == StatusMetric then Some(StatusLabelNames)
    else if metric == LossMetric || metric == LatencyMetric then Some(UplinkLabelNames)
    else if metric == TimingMetric then Some([])
    else None
  }

  /** A sample's identity: its metric family and its label values, in the
      order of that family's label names. */
  datatype SeriesKey = SeriesKey(metric: string, labels: seq<string>)

  /** The single sample of the unlabelled processing-time gauge. */
  const TimingKey := SeriesKey(TimingMetric, [])

  type Gauges = map<SeriesKey, real>

  /** A key names a declared family and carries one value per label name. */
  predicate KeyWellFormed(k: SeriesKey)
  {
    LabelSchema(k.metric).Some? && |k.labels| == |LabelSchema(k.metric).value|
  }

  /** Every sample in the registry has fully populated labels. */
  predicate WellFormed(g: Gauges)
  {
    forall k :: k in g ==> KeyWellFormed(k)
  }

  /** One `set` of a gauge sample. */
  datatype Write = Write(key: SeriesKey, value: real)

  /** The set of keys a sequence of writes touches. */
  function WrittenKeys(ws: seq<Write>): set<SeriesKey>
  {
    set j | 0 <= j < |ws| :: ws[j].key
  }

  /** No write of `ws` is under key `k`. */
  predicate Untouched(ws: seq<Write>, k: SeriesKey)
  {
    forall j :: 0 <= j < |ws| ==> ws[j].key != k
  }

  /** The registry after performing the writes in order: every old key and
      every written key has a sample. */
  function ApplyWrites(g: Gauges, ws: seq<Write>): (r: Gauges)
    ensures g.Keys <= r.Keys
    ensures forall j :: 0 <= j < |ws| ==> ws[j].key in r
  {
    if ws == [] then g
    else
      var w := ws[|ws| - 1];
      ApplyWrites(g, ws[..|ws| - 1])[w.key := w.value]
  }

  /** Writing is overwriting: the registry after the writes is the old
      registry overridden by the map of the writes on their own. */
  lemma {:induction false} ApplyWritesIsOverride(g: Gauges, ws: seq<Write>)
    ensures ApplyWrites(g, ws) == g + ApplyWrites(map[], ws)
  {
    if ws != [] {
      var w := ws[|ws| - 1];
      ApplyWritesIsOverride(g, ws[..|ws| - 1]);
      var m := ApplyWrites(map[], ws[..|ws| - 1]);
      assert (g + m)[w.key := w.value] == g + m[w.key := w.value];
    }
  }

  /** Performing two batches of writes is performing their concatenation. */
  lemma {:induction false} ApplyWritesAppend(g: Gauges, a: seq<Write>, b: seq<Write>)
    ensures ApplyWrites(g, a + b) == ApplyWrites(ApplyWrites(g, a), b)
  {
    if b == [] {
      assert a + b == a;
    } else {
      var n := |b| - 1;
      assert (a + b)[..|a + b| - 1] == a + b[..n];
      assert (a + b)[|a + b| - 1] == b[n];
      ApplyWritesAppend(g, a, b[..n]);
    }
  }

  /** One more write. */
  lemma ApplyWritesSnoc(g: Gauges, ws: seq<Write>, w: Write)
    ensures ApplyWrites(g, ws + [w]) == ApplyWrites(g, ws)[w.key := w.value]
  {
    assert (ws + [w])[..|ws|] == ws;
  }

  /** Two writes in a row. */
  lemma ApplyTwoWrites(g: Gauges, a: Write, b: Write)
    ensures ApplyWrites(g, [a, b]) == g[a.key := a.value][b.key := b.value]
  {
    assert [a, b][..1] == [a];
    assert [a][..0] == [];
    assert ApplyWrites(g, [a]) == g[a.key := a.value];
  }

  /** No entry is removed, and the entries afterwards are exactly the old
      ones and the written ones. */
  lemma {:induction false} ApplyWritesKeys(g: Gauges, ws: seq<Write>)
    ensures ApplyWrites(g, ws).Keys == g.Keys + WrittenKeys(ws)
  {
    if ws != [] {
      var n := |ws| - 1;
      ApplyWritesKeys(g, ws[..n]);
      assert WrittenKeys(ws) == WrittenKeys(ws[..n]) + {ws[n].key} by {
        assert forall j :: 0 <= j < n ==> ws[..n][j] == ws[j];
      }
    }
  }

  /** A key that no write touches keeps its entry, or its absence. */
  lemma {:induction false} ApplyWritesUntouched(g: Gauges, ws: seq<Write>, k: SeriesKey)
    requires Untouched(ws, k)
    ensures k in ApplyWrites(g, ws) <==> k in g
    ensures k in g ==> ApplyWrites(g, ws)[k] == g[k]
  {
    if ws != [] {
      var n := |ws| - 1;
      assert Untouched(ws[..n], k) by {
        assert forall j :: 0 <= j < n ==> ws[..n][j] == ws[j];
      }
      ApplyWritesUntouched(g, ws[..n], k);
    }
  }

  /** The last write under a key determines that key's value. */
  lemma {:induction false} LastWriteWins(g: Gauges, ws: seq<Write>, i: nat)
    requires i < |ws|
    requires Untouched(ws[i + 1..], ws[i].key)
    ensures ws[i].key in ApplyWrites(g, ws)
    ensures ApplyWrites(g, ws)[ws[i].key] == ws[i].value
  {
    var n := |ws| - 1;
    if i < n {
      var later, laterBefore := ws[i + 1..], ws[..n][i + 1..];
      assert forall j :: 0 <= j < |laterBefore| ==> laterBefore[j] == later[j];
      assert ws[n] == later[n - i - 1];
      LastWriteWins(g, ws[..n], i);
    }
  }

  /** A write that no later write, in its own batch or the next, overrides
      is what the key holds after both batches. */
  lemma LastWriteWinsAcross(g: Gauges, d: seq<Write>, u: seq<Write>, i: nat)
    requires i < |d|
    requires Untouched(d[i + 1..], d[i].key) && Untouched(u, d[i].key)
    ensures d[i].key in ApplyWrites(g, d + u)
    ensures ApplyWrites(g, d + u)[d[i].key] == d[i].value
  {
    LastWriteWins(g, d, i);
    ApplyWritesAppend(g, d, u);
    ApplyWritesUntouched(ApplyWrites(g, d), u, d[i].key);
  }

  /** Performing the same writes twice leaves what performing them once left. */
  lemma ApplyWritesIdempotent(g: Gauges, ws: seq<Write>)
    ensures ApplyWrites(ApplyWrites(g, ws), ws) == ApplyWrites(g, ws)
  {
    var m := ApplyWrites(map[], ws);
    ApplyWritesIsOverride(g, ws);
    ApplyWritesIsOverride(g + m, ws);
    assert (g + m) + m == g + m;
  }

  /** Performing writes that avoid `k` and then setting `k`, twice over,
      leaves what doing it once with the second value leaves. */
  lemma ApplyWritesThenSetTwice(g: Gauges, ws: seq<Write>, k: SeriesKey, a: real, b: real)
    requires Untouched(ws, k)
    ensures ApplyWrites(ApplyWrites(g, ws)[k := a], ws)[k := b] == ApplyWrites(g, ws)[k := b]
  {
    var m := ApplyWrites(map[], ws);
    ApplyWritesUntouched(map[], ws, k);
    ApplyWritesIsOverride(g, ws);
    var first := (g + m)[k := a];
    ApplyWritesIsOverride(first, ws);
    assert (first + m)[k := b] == (g + m)[k := b];
  }

  /** Writes under well-formed keys keep the registry well formed. */
  lemma ApplyWritesWellFormed(g: Gauges, ws: seq<Write>)
    requires WellFormed(g)
    requires forall j :: 0 <= j < |ws| ==> KeyWellFormed(ws[j].key)
    ensures WellFormed(ApplyWrites(g, ws))
  {
    ApplyWritesKeys(g, ws);
  }
}
