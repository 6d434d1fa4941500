/** The Prometheus side (`Publisher`): on every scrape the cached Results are
    turned into gauge samples; a gauge is created on first use per (name,
    label names) pair and its per-label-values children keep the last value
    set. */
module Publishing {
  import opened Builtins
  import opened LabeledMetrics
  import opened RunResults
  import opened Cache

  /** A key of `Publisher.gauges`: a metric name and its extra label names. */
  datatype GaugeKey = GaugeKey(name: string, labelNames: seq<string>)

  /** A `prometheus_client.Gauge`: its name, its documentation string, its
      label names, and the value of each child, by tuple of label values. */
  datatype Gauge = Gauge(name: string, documentation: string, labelNames: seq<string>, children: map<seq<string>, real>)

  const ServerIdLabel := "server_id"
  const LabelSuffix := "_label"
  const TimestampSuffix := "_timestamp"

  /** The gauge `_get_gauge` creates for a key: named and documented by the
      metric name, labelled by `server_id` and then the key's label names. */
  ghost predicate BuiltFor(key: GaugeKey, g: Gauge)
  {
    && g.name == key.name
    && g.documentation == key.name
    && g.labelNames == [ServerIdLabel] + key.labelNames
    && forall vs :: vs in g.children ==> |vs| == |g.labelNames|
  }

  /** Every gauge sits under the key it was built for, and every child has
      one value per label name. */
  ghost predicate GaugesValid(gs: map<GaugeKey, Gauge>)
  {
    forall k :: k in gs ==> BuiltFor(k, gs[k])
  }

  /** The gauge `_get_gauge` registers for a key not seen before. */
  function NewGauge(key: GaugeKey): Gauge
  {
    Gauge(key.name, key.name, [ServerIdLabel] + key.labelNames, map[])
  }

  /** `Publisher._get_gauge`: the gauge already registered under the key, or
      a new one stored under it. */
  function Ensure(gs: map<GaugeKey, Gauge>, key: GaugeKey): (r: (map<GaugeKey, Gauge>, Gauge))
    ensures key in r.0 && r.0[key] == r.1
    ensures r.0.Keys == gs.Keys + {key}
    ensures forall k :: k in gs ==> r.0[k] == gs[k]
    ensures key !in gs ==> r.1.children == map[]
  {
    if key in gs then (gs, gs[key]) else (gs[key := NewGauge(key)], NewGauge(key))
  }

  /** `_get_gauge` keeps every gauge as built for its key, the one it
      returns included: named and documented by the metric name, labelled by
      `server_id` and then the key's label names. */
  lemma EnsureKeepsValid(gs: map<GaugeKey, Gauge>, key: GaugeKey)
    requires GaugesValid(gs)
    ensures GaugesValid(Ensure(gs, key).0) && BuiltFor(key, Ensure(gs, key).1)
  {
  }

  /** `gauge.labels(...).set(value)` on one gauge key. */
  datatype Sample = Sample(key: GaugeKey, labelValues: seq<string>, value: real)

  /** The sample has one label value per label name of its gauge. */
  predicate WellShaped(s: Sample)
  {
    |s.labelValues| == 1 + |s.key.labelNames|
  }

  /** `Publisher._set_metric(server_id, metric_name, value)` as the sample
      it sets: a labelled value goes to the gauge with the extra label
      `{metric_name}_label`, set to the value's label; a plain value goes to
      the gauge labelled by the server id alone. */
  function SampleFor(serverId: string, metricName: string, value: MetricValue): (s: Sample)
    ensures WellShaped(s) && s.key.name == metricName && s.labelValues[0] == serverId
    ensures value.Labeled? ==> s == Sample(GaugeKey(metricName, [metricName + LabelSuffix]), [serverId, value.labeled.labelText], value.labeled.value)
    ensures value.Plain? ==> s == Sample(GaugeKey(metricName, []), [serverId], value.number)
  {
    match value
    case Labeled(m) => Sample(GaugeKey(metricName, [metricName + LabelSuffix]), [serverId, m.labelText], m.value)
    case Plain(x) => Sample(GaugeKey(metricName, []), [serverId], x)
  }

  /** The gauges after setting one sample. */
  function Apply(gs: map<GaugeKey, Gauge>, s: Sample): (r: map<GaugeKey, Gauge>)
    ensures r.Keys == gs.Keys + {s.key}
    ensures forall k :: k in gs && k != s.key ==> r[k] == gs[k]
    ensures r[s.key].children == (if s.key in gs then gs[s.key].children else map[])[s.labelValues := s.value]
  {
    var g := if s.key in gs then gs[s.key] else NewGauge(s.key);
    gs[s.key := g.(children := g.children[s.labelValues := s.value])]
  }

  /** The gauges after setting the samples in order. */
  function ApplyAll(gs: map<GaugeKey, Gauge>, samples: seq<Sample>): map<GaugeKey, Gauge>
    decreases |samples|
  {
    if samples == [] then gs
    else Apply(ApplyAll(gs, samples[..|samples| - 1]), samples[|samples| - 1])
  }

  lemma {:induction false} ApplyAllAppend(gs: map<GaugeKey, Gauge>, a: seq<Sample>, b: seq<Sample>)
    ensures ApplyAll(gs, a + b) == ApplyAll(ApplyAll(gs, a), b)
    decreases |b|
  {
    if b == [] {
      assert a + b == a;
    } else {
      var n := |b| - 1;
      assert (a + b)[..|a + b| - 1] == a + b[..n];
      ApplyAllAppend(gs, a, b[..n]);
    }
  }

  lemma ApplyKeepsValid(gs: map<GaugeKey, Gauge>, s: Sample)
    requires GaugesValid(gs) && WellShaped(s)
    ensures GaugesValid(Apply(gs, s))
  {
  }

  lemma ApplyAllSingle(gs: map<GaugeKey, Gauge>, s: Sample)
    ensures ApplyAll(gs, [s]) == Apply(gs, s)
  {
    assert [s][..0] == [];
  }

  /** Setting well-shaped samples keeps every gauge as it was built, with
      one value per label name in each child. */
  lemma {:induction false} ApplyAllKeepsValid(gs: map<GaugeKey, Gauge>, samples: seq<Sample>)
    requires GaugesValid(gs)
    requires forall i :: 0 <= i < |samples| ==> WellShaped(samples[i])
    ensures GaugesValid(ApplyAll(gs, samples))
    decreases |samples|
  {
    if samples != [] {
      ApplyAllKeepsValid(gs, samples[..|samples| - 1]);
      ApplyKeepsValid(ApplyAll(gs, samples[..|samples| - 1]), samples[|samples| - 1]);
    }
  }

  lemma {:induction false} ApplyAllKeeps(gs: map<GaugeKey, Gauge>, samples: seq<Sample>)
    ensures forall k :: k in gs ==> k in ApplyAll(gs, samples) && gs[k].children.Keys <= ApplyAll(gs, samples)[k].children.Keys
    decreases |samples|
  {
    if samples != [] {
      ApplyAllKeeps(gs, samples[..|samples| - 1]);
    }
  }

  lemma {:induction false} ApplyAllRegisters(gs: map<GaugeKey, Gauge>, samples: seq<Sample>)
    ensures forall i :: 0 <= i < |samples| ==> samples[i].key in ApplyAll(gs, samples)
    decreases |samples|
  {
    if samples != [] {
      var n := |samples| - 1;
      ApplyAllRegisters(gs, samples[..n]);
      assert forall i :: 0 <= i < n ==> samples[..n][i] == samples[i];
    }
  }

  lemma {:induction false} ApplyAllAddsOnlySampled(gs: map<GaugeKey, Gauge>, samples: seq<Sample>)
    ensures forall k :: k in ApplyAll(gs, samples) ==> k in gs || exists i :: 0 <= i < |samples| && samples[i].key == k
    decreases |samples|
  {
    if samples != [] {
      var n := |samples| - 1;
      var prefix := samples[..n];
      ApplyAllAddsOnlySampled(gs, prefix);
      forall k | k in ApplyAll(gs, samples) && k !in gs
        ensures exists i :: 0 <= i < |samples| && samples[i].key == k
      {
        if k != samples[n].key {
          var i :| 0 <= i < |prefix| && prefix[i].key == k;
          assert samples[i].key == k;
        }
      }
    }
  }

  /** Gauges are never unregistered and children never removed; every
      sample's gauge is registered afterwards, and nothing else is added. */
  lemma ApplyAllGrows(gs: map<GaugeKey, Gauge>, samples: seq<Sample>)
    ensures forall k :: k in gs ==> k in ApplyAll(gs, samples) && gs[k].children.Keys <= ApplyAll(gs, samples)[k].children.Keys
    ensures forall i :: 0 <= i < |samples| ==> samples[i].key in ApplyAll(gs, samples)
    ensures forall k :: k in ApplyAll(gs, samples) ==> k in gs || exists i :: 0 <= i < |samples| && samples[i].key == k
  {
    ApplyAllKeeps(gs, samples);
    ApplyAllRegisters(gs, samples);
    ApplyAllAddsOnlySampled(gs, samples);
  }

  /** A child reads the value of the last sample set on it. */
  lemma {:induction false} LastSampleWins(gs: map<GaugeKey, Gauge>, samples: seq<Sample>, i: nat)
    requires i < |samples|
    requires forall j :: i < j < |samples| ==>
               samples[j].key != samples[i].key || samples[j].labelValues != samples[i].labelValues
    ensures samples[i].key in ApplyAll(gs, samples)
    ensures samples[i].labelValues in ApplyAll(gs, samples)[samples[i].key].children
    ensures ApplyAll(gs, samples)[samples[i].key].children[samples[i].labelValues] == samples[i].value
    decreases |samples|
  {
    var n := |samples| - 1;
    if i < n {
      LastSampleWins(gs, samples[..n], i);
    }
  }

  /** A child no sample is set on keeps the value it had. */
  lemma {:induction false} UnsampledChildUnchanged(gs: map<GaugeKey, Gauge>, samples: seq<Sample>, key: GaugeKey, values: seq<string>)
    requires key in gs && values in gs[key].children
    requires forall j :: 0 <= j < |samples| ==> samples[j].key != key || samples[j].labelValues != values
    ensures key in ApplyAll(gs, samples) && values in ApplyAll(gs, samples)[key].children
    ensures ApplyAll(gs, samples)[key].children[values] == gs[key].children[values]
    decreases |samples|
  {
    if samples != [] {
      UnsampledChildUnchanged(gs, samples[..|samples| - 1], key, values);
    }
  }

  /** The samples of one Result's metrics, in the dict's order, each named
      `{resolver_id}_{metric}`. A key of a dict is always mapped; the guard
      only makes the function total on arbitrary `Dict` values. */
  function MetricSamples(serverId: string, resolverId: string, metrics: Dict<string, MetricValue>, ks: seq<string>): seq<Sample>
    decreases |ks|
  {
    if ks == [] then []
    else
      var k := ks[|ks| - 1];
      MetricSamples(serverId, resolverId, metrics, ks[..|ks| - 1])
        + (if k in metrics.items then [SampleFor(serverId, resolverId + "_" + k, metrics.items[k])] else [])
  }

  /** The sample of a Result's timestamp, in seconds since the epoch. */
  function TimestampSample(serverId: string, resolverId: string, result: Result): Sample
  {
    SampleFor(serverId, resolverId + TimestampSuffix, Plain(result.timestamp as real))
  }

  /** The samples of one cached Result: its timestamp first, then its metrics. */
  function ResultSamples(serverId: string, resolverId: string, result: Result): seq<Sample>
  {
    [TimestampSample(serverId, resolverId, result)] + MetricSamples(serverId, resolverId, result.metrics, result.metrics.keys)
  }

  /** The samples of one server's Results, in the order of its resolver ids. */
  function ServerSamples(serverId: string, results: Dict<string, Result>, ks: seq<string>): seq<Sample>
    decreases |ks|
  {
    if ks == [] then []
    else
      var k := ks[|ks| - 1];
      ServerSamples(serverId, results, ks[..|ks| - 1])
        + (if k in results.items then ResultSamples(serverId, k, results.items[k]) else [])
  }

  /** The samples of the whole cache, in the order of its server ids. */
  function CacheSamples(d: CacheData, ks: seq<string>): seq<Sample>
    decreases |ks|
  {
    if ks == [] then []
    else
      var k := ks[|ks| - 1];
      CacheSamples(d, ks[..|ks| - 1])
        + (if k in d.items then ServerSamples(k, d.items[k], d.items[k].keys) else [])
  }

  /** The samples a scrape sets, for the cache contents it reads. */
  function Snapshot(d: CacheData): seq<Sample>
  {
    CacheSamples(d, d.keys)
  }

  lemma {:induction false} MetricSamplesFrom(serverId: string, resolverId: string, metrics: Dict<string, MetricValue>, ks: seq<string>)
    ensures forall i :: 0 <= i < |MetricSamples(serverId, resolverId, metrics, ks)| ==>
              var s := MetricSamples(serverId, resolverId, metrics, ks)[i];
              WellShaped(s) && s.labelValues[0] == serverId
    ensures forall k :: k in ks && k in metrics.items ==>
              SampleFor(serverId, resolverId + "_" + k, metrics.items[k]) in MetricSamples(serverId, resolverId, metrics, ks)
    decreases |ks|
  {
    if ks != [] {
      var n := |ks| - 1;
      MetricSamplesFrom(serverId, resolverId, metrics, ks[..n]);
      forall k | k in ks && k in metrics.items
        ensures SampleFor(serverId, resolverId + "_" + k, metrics.items[k]) in MetricSamples(serverId, resolverId, metrics, ks)
      {
        if k != ks[n] {
          var j :| 0 <= j < |ks| && ks[j] == k;
          assert ks[..n][j] == k;
        }
      }
    }
  }

  lemma {:induction false} ServerSamplesFrom(serverId: string, results: Dict<string, Result>, ks: seq<string>)
    ensures forall i :: 0 <= i < |ServerSamples(serverId, results, ks)| ==>
              var s := ServerSamples(serverId, results, ks)[i];
              WellShaped(s) && s.labelValues[0] == serverId
    ensures forall k :: k in ks && k in results.items ==>
              TimestampSample(serverId, k, results.items[k]) in ServerSamples(serverId, results, ks)
    ensures forall k, m :: k in ks && k in results.items && m in results.items[k].metrics.keys && m in results.items[k].metrics.items ==>
              SampleFor(serverId, k + "_" + m, results.items[k].metrics.items[m]) in ServerSamples(serverId, results, ks)
    decreases |ks|
  {
    if ks != [] {
      var n := |ks| - 1;
      var k := ks[n];
      ServerSamplesFrom(serverId, results, ks[..n]);
      if k in results.items {
        MetricSamplesFrom(serverId, k, results.items[k].metrics, results.items[k].metrics.keys);
      }
      forall k' | k' in ks && k' in results.items && k' != k ensures k' in ks[..n] {
        var j :| 0 <= j < |ks| && ks[j] == k';
        assert ks[..n][j] == k';
      }
    }
  }

  /** A scrape covers the cache: every cached Result contributes its
      timestamp sample and one sample per metric, every sample is well
      shaped, and every sample is labelled by the id of a cached server. */
  lemma {:induction false} SnapshotCoversCache(d: CacheData, ks: seq<string>)
    ensures forall i :: 0 <= i < |CacheSamples(d, ks)| ==>
              var s := CacheSamples(d, ks)[i];
              WellShaped(s) && s.labelValues[0] in ks && s.labelValues[0] in d.items
    ensures forall s, r :: s in ks && s in d.items && r in d.items[s].keys && r in d.items[s].items ==>
              TimestampSample(s, r, d.items[s].items[r]) in CacheSamples(d, ks)
    ensures forall s, r, m ::
              (s in ks && s in d.items && r in d.items[s].keys && r in d.items[s].items
               && m in d.items[s].items[r].metrics.keys && m in d.items[s].items[r].metrics.items) ==>
              SampleFor(s, r + "_" + m, d.items[s].items[r].metrics.items[m]) in CacheSamples(d, ks)
    decreases |ks|
  {
    if ks != [] {
      var n := |ks| - 1;
      var k := ks[n];
      SnapshotCoversCache(d, ks[..n]);
      if k in d.items {
        ServerSamplesFrom(k, d.items[k], d.items[k].keys);
      }
      forall s | s in ks && s != k ensures s in ks[..n] {
        var j :| 0 <= j < |ks| && ks[j] == s;
        assert ks[..n][j] == s;
      }
    }
  }

  /** Setting the samples of a whole scrape keeps every gauge valid. */
  lemma SnapshotKeepsValid(gs: map<GaugeKey, Gauge>, d: CacheData)
    requires GaugesValid(gs)
    ensures GaugesValid(ApplyAll(gs, Snapshot(d)))
  {
    SnapshotCoversCache(d, d.keys);
    ApplyAllKeepsValid(gs, Snapshot(d));
  }

  /** No two samples of the run set the same child of the same gauge. */
  ghost predicate DistinctChildren(ss: seq<Sample>)
  {
    forall i, j :: 0 <= i < j < |ss| ==> ss[i].key != ss[j].key || ss[i].labelValues != ss[j].labelValues
  }

  /** A sample whose child no other sample of the run sets is read back
      after the run. */
  lemma OnlySampleWins(gs: map<GaugeKey, Gauge>, samples: seq<Sample>, s: Sample)
    requires s in samples && DistinctChildren(samples)
    ensures s.key in ApplyAll(gs, samples) && s.labelValues in ApplyAll(gs, samples)[s.key].children
    ensures ApplyAll(gs, samples)[s.key].children[s.labelValues] == s.value
  {
    var i :| 0 <= i < |samples| && samples[i] == s;
    LastSampleWins(gs, samples, i);
  }

  /** The number a metric value sets its gauge child to. */
  function Reading(v: MetricValue): real
  {
    match v
    case Plain(x) => x
    case Labeled(m) => m.value
  }

  /** When no two samples of a scrape meet on one child (no metric named
      `timestamp`, no two labelled values colliding), the gauges after the
      scrape read back what is cached: every Result's timestamp under
      `{resolver_id}_timestamp` and each of its metrics under
      `{resolver_id}_{metric}`, in the child of its server id (and label). */
  lemma ScrapeReadsCache(gs: map<GaugeKey, Gauge>, d: CacheData, server: string, resolver: string)
    requires WellFormed(d)
    requires server in d.items && resolver in d.items[server].items
    requires DistinctChildren(Snapshot(d))
    ensures var after, result := ApplyAll(gs, Snapshot(d)), d.items[server].items[resolver];
      var t := GaugeKey(resolver + TimestampSuffix, []);
      t in after && [server] in after[t].children && after[t].children[[server]] == result.timestamp as real
    ensures var after, result := ApplyAll(gs, Snapshot(d)), d.items[server].items[resolver];
      forall m :: m in result.metrics.items && m in result.metrics.keys ==>
        var smp := SampleFor(server, resolver + "_" + m, result.metrics.items[m]);
        smp.key in after && smp.labelValues in after[smp.key].children
        && after[smp.key].children[smp.labelValues] == Reading(result.metrics.items[m])
  {
    var result := d.items[server].items[resolver];
    SnapshotCoversCache(d, d.keys);
    OnlySampleWins(gs, Snapshot(d), TimestampSample(server, resolver, result));
    forall m | m in result.metrics.items && m in result.metrics.keys
      ensures var smp := SampleFor(server, resolver + "_" + m, result.metrics.items[m]);
        var after := ApplyAll(gs, Snapshot(d));
        smp.key in after && smp.labelValues in after[smp.key].children
        && after[smp.key].children[smp.labelValues] == Reading(result.metrics.items[m])
    {
      OnlySampleWins(gs, Snapshot(d), SampleFor(server, resolver + "_" + m, result.metrics.items[m]));
    }
  }

  /** One more metric key extends the samples of a Result's metrics. */
  lemma MetricSamplesStep(serverId: string, resolverId: string, metrics: Dict<string, MetricValue>, ks: seq<string>, i: nat)
    requires i < |ks|
    ensures MetricSamples(serverId, resolverId, metrics, ks[..i + 1])
      == MetricSamples(serverId, resolverId, metrics, ks[..i])
         + (if ks[i] in metrics.items then [SampleFor(serverId, resolverId + "_" + ks[i], metrics.items[ks[i]])] else [])
  {
    assert ks[..i + 1][..i] == ks[..i];
  }

  /** One more resolver id extends the samples of a server's Results. */
  lemma ServerSamplesStep(serverId: string, results: Dict<string, Result>, ks: seq<string>, i: nat)
    requires i < |ks|
    ensures ServerSamples(serverId, results, ks[..i + 1])
      == ServerSamples(serverId, results, ks[..i])
         + (if ks[i] in results.items then ResultSamples(serverId, ks[i], results.items[ks[i]]) else [])
  {
    assert ks[..i + 1][..i] == ks[..i];
  }

  /** One more server id extends the samples of the cache. */
  lemma CacheSamplesStep(d: CacheData, ks: seq<string>, i: nat)
    requires i < |ks|
    ensures CacheSamples(d, ks[..i + 1])
      == CacheSamples(d, ks[..i])
         + (if ks[i] in d.items then ServerSamples(ks[i], d.items[ks[i]], d.items[ks[i]].keys) else [])
  {
    assert ks[..i + 1][..i] == ks[..i];
  }

  /** `Publisher`: the gauges created so far, and the cache it reads. */
  class Publisher {
    var gauges: map<GaugeKey, Gauge>
    const cache: ResultCache

    ghost predicate Valid()
      reads this
    {
      GaugesValid(gauges)
    }

    constructor (cache: ResultCache)
      ensures Valid() && gauges == map[] && this.cache == cache
    {
      gauges := map[];
      this.cache := cache;
    }

    /** `_get_gauge(name, label_names)` */
    method GetGauge(name: string, labelNames: seq<string>) returns (g: Gauge)
      modifies this
      ensures (gauges, g) == Ensure(old(gauges), GaugeKey(name, labelNames))
    {
      var key := GaugeKey(name, labelNames);
      if key !in gauges {
        gauges := gauges[key := NewGauge(key)];
      }
      g := gauges[key];
    }

    /** `_set_metric(server_id, metric_name, value)` */
    method SetMetric(serverId: string, metricName: string, value: MetricValue)
      modifies this
      ensures gauges == Apply(old(gauges), SampleFor(serverId, metricName, value))
    {
      var key, values, x;
      match value {
        case Labeled(m) =>
          key, values, x := GaugeKey(metricName, [metricName + LabelSuffix]), [serverId, m.labelText], m.value;
        case Plain(n) =>
          key, values, x := GaugeKey(metricName, []), [serverId], n;
      }
      var g := GetGauge(key.name, key.labelNames);
      gauges := gauges[key := g.(children := g.children[values := x])];
    }

    /** The samples of one cached Result: its timestamp, then its metrics. */
    method PublishResult(serverId: string, resolverId: string, result: Result)
      modifies this
      ensures gauges == ApplyAll(old(gauges), ResultSamples(serverId, resolverId, result))
    {
      ghost var start := gauges;
      SetMetric(serverId, resolverId + TimestampSuffix, Plain(result.timestamp as real));
      ghost var mid := gauges;
      var ks := result.metrics.keys;
      var i := 0;
      assert ks[..0] == [];
      while i < |ks|
        invariant 0 <= i <= |ks|
        invariant gauges == ApplyAll(mid, MetricSamples(serverId, resolverId, result.metrics, ks[..i]))
      {
        var k := ks[i];
        MetricSamplesStep(serverId, resolverId, result.metrics, ks, i);
        ghost var done := MetricSamples(serverId, resolverId, result.metrics, ks[..i]);
        if k in result.metrics.items {
          var sample := SampleFor(serverId, resolverId + "_" + k, result.metrics.items[k]);
          ApplyAllAppend(mid, done, [sample]);
          ApplyAllSingle(ApplyAll(mid, done), sample);
          SetMetric(serverId, resolverId + "_" + k, result.metrics.items[k]);
        } else {
          assert done + [] == done;
        }
        i := i + 1;
      }
      assert ks[..i] == ks;
      assert mid == ApplyAll(start, [TimestampSample(serverId, resolverId, result)]);
      ApplyAllAppend(start, [TimestampSample(serverId, resolverId, result)], MetricSamples(serverId, resolverId, result.metrics, ks));
    }

    /** The samples of one server's cached Results. */
    method PublishServer(serverId: string, results: Dict<string, Result>)
      modifies this
      ensures gauges == ApplyAll(old(gauges), ServerSamples(serverId, results, results.keys))
    {
      ghost var start := gauges;
      var ks := results.keys;
      var i := 0;
      assert ks[..0] == [];
      while i < |ks|
        invariant 0 <= i <= |ks|
        invariant gauges == ApplyAll(start, ServerSamples(serverId, results, ks[..i]))
      {
        var k := ks[i];
        ServerSamplesStep(serverId, results, ks, i);
        if k in results.items {
          ApplyAllAppend(start, ServerSamples(serverId, results, ks[..i]), ResultSamples(serverId, k, results.items[k]));
          PublishResult(serverId, k, results.items[k]);
        } else {
          assert ServerSamples(serverId, results, ks[..i]) + [] == ServerSamples(serverId, results, ks[..i]);
        }
        i := i + 1;
      }
      assert ks[..i] == ks;
    }

    /** `_metrics`: sets the samples of everything cached, server by server
        and resolver by resolver, in dict order; the response rendering is
        Prometheus' own. */
    method Metrics()
      requires Valid()
      modifies this
      ensures Valid()
      ensures gauges == ApplyAll(old(gauges), Snapshot(cache.data))
    {
      ghost var start := gauges;
      var d := cache.GetAll();
      var ks := d.keys;
      var i := 0;
      assert ks[..0] == [];
      while i < |ks|
        invariant 0 <= i <= |ks|
        invariant gauges == ApplyAll(start, CacheSamples(d, ks[..i]))
      {
        var k := ks[i];
        CacheSamplesStep(d, ks, i);
        if k in d.items {
          ApplyAllAppend(start, CacheSamples(d, ks[..i]), ServerSamples(k, d.items[k], d.items[k].keys));
          PublishServer(k, d.items[k]);
        } else {
          assert CacheSamples(d, ks[..i]) + [] == CacheSamples(d, ks[..i]);
        }
        i := i + 1;
      }
      assert ks[..i] == ks;
      SnapshotKeepsValid(start, d);
    }
  }
}
