/**
 The body `sendMetricToGrafana` posts: one data point of a cumulative,
 monotonic Sum metric in the JSON shape of an OpenTelemetry
 ExportMetricsServiceRequest, tagged with the caller's attributes and the
 deployment's `source`. The POST itself is not part of this model.
 */
module Otlp {
  import opened Js

  datatype AnyValue = AnyValue(stringValue: string)
  datatype KeyValue = KeyValue(key: string, value: AnyValue)
  datatype NumberDataPoint = NumberDataPoint(asInt: Num, timeUnixNano: int, attributes: seq<KeyValue>)
  datatype Sum = Sum(dataPoints: seq<NumberDataPoint>, aggregationTemporality: string, isMonotonic: bool)
  datatype Metric = Metric(name: string, unit: string, sum: Sum)
  datatype ScopeMetrics = ScopeMetrics(metrics: seq<Metric>)
  datatype ResourceMetrics = ResourceMetrics(scopeMetrics: seq<ScopeMetrics>)
  datatype ExportMetricsServiceRequest = ExportMetricsServiceRequest(resourceMetrics: seq<ResourceMetrics>)

  const Cumulative := "AGGREGATION_TEMPORALITY_CUMULATIVE"
  const SourceKey := "source"
  const NanosPerMilli := 1000000

  /**
   `{ ...attributes, source }`: the caller's attributes with `source` set
   last-wins; every other key reads as the caller's. (The key order is stated
   by `AttributeOrder`.)
   */
  function WithSource(attributes: Object<string>, source: string): (r: Object<string>)
    ensures Get(r, SourceKey) == Some(source)
    ensures forall k :: k != SourceKey ==> Get(r, k) == Get(attributes, k)
  {
    Put(attributes, SourceKey, source)
  }

  /** The `{key, value: {stringValue}}` entries of `o` for the keys `ks`, in the order of `ks`. */
  function Entries(o: Object<string>, ks: seq<string>): (r: seq<KeyValue>)
    requires forall k :: k in ks ==> k in o.keys
    ensures |r| == |ks|
  {
    if ks == [] then []
    else
      var k := ks[|ks| - 1];
      Entries(o, ks[..|ks| - 1]) + [KeyValue(k, AnyValue(Get(o, k).value))]
  }

  /** One entry per key, in the object's key order. */
  function AttributeList(o: Object<string>): seq<KeyValue>
  {
    Entries(o, o.keys)
  }

  /** The entries for one more key are the entries so far followed by that key's entry. */
  lemma EntriesGrow(o: Object<string>, ks: seq<string>, i: nat)
    requires forall k :: k in ks ==> k in o.keys
    requires i < |ks|
    ensures Entries(o, ks[..i + 1]) == Entries(o, ks[..i]) + [KeyValue(ks[i], AnyValue(Get(o, ks[i]).value))]
  {
    assert ks[..i + 1][..i] == ks[..i];
  }

  /** The i-th entry carries the i-th key and the value stored under it. */
  lemma {:induction false} EntryAt(o: Object<string>, ks: seq<string>, i: nat)
    requires forall k :: k in ks ==> k in o.keys
    requires i < |ks|
    ensures Entries(o, ks)[i] == KeyValue(ks[i], AnyValue(Get(o, ks[i]).value))
    decreases |ks|
  {
    var last := |ks| - 1;
    if i < last {
      assert ks[..last][i] == ks[i];
      EntryAt(o, ks[..last], i);
    }
  }

  /** Two objects that agree on the keys `ks` give the same entries for them. */
  lemma {:induction false} EntriesAgree(o: Object<string>, o': Object<string>, ks: seq<string>)
    requires forall k :: k in ks ==> k in o.keys && k in o'.keys && Get(o, k) == Get(o', k)
    ensures Entries(o, ks) == Entries(o', ks)
    decreases |ks|
  {
    if ks != [] {
      EntriesAgree(o, o', ks[..|ks| - 1]);
    }
  }

  function AttributeKeys(list: seq<KeyValue>): seq<string>
  {
    seq(|list|, i requires 0 <= i < |list| => list[i].key)
  }

  /** The request with exactly one resource, scope, metric and data point around the given point. */
  function Envelope(name: string, value: Num, timeUnixNano: int, attributes: seq<KeyValue>): ExportMetricsServiceRequest
  {
    var point := NumberDataPoint(value, timeUnixNano, attributes);
    var metric := Metric(name, "1", Sum([point], Cumulative, true));
    ExportMetricsServiceRequest([ResourceMetrics([ScopeMetrics([metric])])])
  }

  /** The data point a request carries, as read back from it. */
  datatype Point = Point(name: string, value: Num, timeUnixNano: int, attributes: seq<KeyValue>)

  /**
   Reads the single data point of a request that has exactly one resource,
   scope, metric and data point, with unit "1", cumulative temporality and
   `isMonotonic` set; None for a request of any other shape.
   */
  function SinglePoint(req: ExportMetricsServiceRequest): Option<Point>
  {
    if |req.resourceMetrics| != 1 then None
    else
      var rm := req.resourceMetrics[0];
      if |rm.scopeMetrics| != 1 then None
      else
        var sm := rm.scopeMetrics[0];
        if |sm.metrics| != 1 then None
        else
          var m := sm.metrics[0];
          if m.unit != "1" || m.sum.aggregationTemporality != Cumulative || !m.sum.isMonotonic
             || |m.sum.dataPoints| != 1
          then None
          else
            var p := m.sum.dataPoints[0];
            Some(Point(m.name, p.asInt, p.timeUnixNano, p.attributes))
  }

  /**
   The body posted for one call of `sendMetricToGrafana(name, value, attributes)`
   when the configured source is `source` and the clock reads `nowMs`. Reading
   it back gives exactly the point that was sent: its name, its value, the
   clock reading in nanoseconds and the merged attributes.
   */
  function Payload(name: string, value: Num, attributes: Object<string>, source: string, nowMs: int)
    : (r: ExportMetricsServiceRequest)
    ensures SinglePoint(r) == Some(Point(name, value, nowMs * NanosPerMilli, AttributeList(WithSource(attributes, source))))
  {
    var attrs := AttributeList(WithSource(attributes, source));
    EnvelopeRoundTrip(name, value, nowMs * NanosPerMilli, attrs);
    Envelope(name, value, nowMs * NanosPerMilli, attrs)
  }

  /** `SinglePoint` reads back exactly what `Envelope` wraps. */
  lemma EnvelopeRoundTrip(name: string, value: Num, timeUnixNano: int, attributes: seq<KeyValue>)
    ensures SinglePoint(Envelope(name, value, timeUnixNano, attributes)) == Some(Point(name, value, timeUnixNano, attributes))
  {
  }

  /**
   `sendMetricToGrafana` up to the `fetch` call: merge in `source`, push one
   entry per key of the merged object, in key order, into the attribute list,
   and wrap that list in the envelope.
   */
  method SendMetric(metricName: string, metricValue: Num, attributes: Object<string>, source: string, nowMs: int)
    returns (metric: ExportMetricsServiceRequest)
    ensures metric == Payload(metricName, metricValue, attributes, source, nowMs)
  {
    var merged := WithSource(attributes, source);
    var keys := merged.keys;
    var pushed: seq<KeyValue> := [];
    for i := 0 to |keys|
      invariant pushed == Entries(merged, keys[..i])
    {
      var key := keys[i];
      EntriesGrow(merged, keys, i);
      pushed := pushed + [KeyValue(key, AnyValue(Get(merged, key).value))];
    }
    assert keys[..|keys|] == keys;
    metric := Envelope(metricName, metricValue, nowMs * NanosPerMilli, pushed);
  }

  /** The entries list exactly the keys asked for. */
  lemma EntriesKeys(o: Object<string>, ks: seq<string>)
    requires forall k :: k in ks ==> k in o.keys
    ensures AttributeKeys(Entries(o, ks)) == ks
  {
    forall i | 0 <= i < |ks|
      ensures AttributeKeys(Entries(o, ks))[i] == ks[i]
    {
      EntryAt(o, ks, i);
    }
  }

  /**
   The attribute list keeps the merged object's key order: the caller's keys
   as given, then `source` unless the caller already had it.
   */
  lemma AttributeOrder(attributes: Object<string>, source: string)
    ensures AttributeKeys(AttributeList(WithSource(attributes, source)))
         == if SourceKey in attributes.keys then attributes.keys else attributes.keys + [SourceKey]
  {
    EntriesKeys(WithSource(attributes, source), WithSource(attributes, source).keys);
  }

  /** No key is listed twice and none is dropped. */
  lemma AttributeKeysDistinct(attributes: Object<string>, source: string)
    ensures Distinct(AttributeKeys(AttributeList(WithSource(attributes, source))))
    ensures forall k :: k in attributes.keys ==> k in AttributeKeys(AttributeList(WithSource(attributes, source)))
  {
    EntriesKeys(WithSource(attributes, source), WithSource(attributes, source).keys);
  }

  /**
   Every listed attribute carries the merged value: `source` always the
   configured one (it overrides a caller's `source`), any other key the
   caller's value.
   */
  lemma {:induction false} AttributeValues(attributes: Object<string>, source: string, i: nat)
    requires i < |AttributeList(WithSource(attributes, source))|
    ensures var kv := AttributeList(WithSource(attributes, source))[i];
            if kv.key == SourceKey then kv.value == AnyValue(source)
            else Get(attributes, kv.key) == Some(kv.value.stringValue)
  {
    var merged := WithSource(attributes, source);
    EntryAt(merged, merged.keys, i);
  }

  /** With no caller attributes the list is exactly the `source` entry. */
  lemma EmptyAttributes(source: string)
    ensures AttributeList(WithSource(Empty(), source)) == [KeyValue(SourceKey, AnyValue(source))]
  {
  }

  /** A caller without a `source` key gets its own entries unchanged, then `source` last. */
  lemma SourceLastWhenAbsent(attributes: Object<string>, source: string)
    requires SourceKey !in attributes.keys
    ensures AttributeList(WithSource(attributes, source))
         == AttributeList(attributes) + [KeyValue(SourceKey, AnyValue(source))]
  {
    var merged := WithSource(attributes, source);
    assert merged.keys[..|merged.keys| - 1] == attributes.keys;
    EntriesAgree(merged, attributes, attributes.keys);
  }
}
