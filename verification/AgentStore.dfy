/** The agent's accumulator of gauges and counters (internal/agent/store.go). Each method is one section
    under the store's mutex. */
module AgentStore {
  import opened Metrics

  class Store {
    var gauges: map<string, Float>
    var counters: map<string, int64>

    constructor ()
      ensures View() == EMPTY
    {
      gauges, counters := map[], map[];
    }

    ghost function View(): Maps
      reads this
    {
      Maps(gauges, counters)
    }

    method SetGauge(name: string, value: Float)
      modifies this
      ensures View() == ApplyOne(old(View()), GaugeMetric(name, value))
    {
      gauges := gauges[name := value];
    }

    method IncCounter(name: string, delta: int64)
      modifies this
      ensures View() == ApplyOne(old(View()), CounterMetric(name, delta))
    {
      counters := counters[name := Wrap((if name in counters then counters[name] else 0) + delta)];
    }

    /** Lists everything collected and takes the counters away, so that no increment is ever listed
        twice; gauges stay. */
    method SnapshotMetrics() returns (metrics: seq<Metric>)
      modifies this
      ensures IsListing(metrics, old(View()))
      ensures View() == Maps(old(gauges), map[])
    {
      var listed := ListGauges();
      var taken := TakeCounters();
      metrics := listed + taken;
      assert metrics[..|gauges|] == listed && metrics[|gauges|..] == taken;
    }

    /** The first loop of SnapshotMetrics. */
    method ListGauges() returns (listed: seq<Metric>)
      ensures Lists(listed, GaugeTable(gauges), gauges.Keys)
    {
      listed := [];
      var rest := gauges.Keys;
      ghost var t := GaugeTable(gauges);
      assert t.Keys - rest == {};
      while rest != {}
        invariant rest <= t.Keys && Lists(listed, t, t.Keys - rest)
        decreases |rest|
      {
        var name :| name in rest;
        ListsStep(listed, t, rest, name);
        listed := listed + [GaugeMetric(name, gauges[name])];
        rest := rest - {name};
      }
      assert t.Keys - rest == t.Keys;
    }

    /** The second loop of SnapshotMetrics: lists each counter and deletes it. */
    method TakeCounters() returns (taken: seq<Metric>)
      modifies this`counters
      ensures Lists(taken, CounterTable(old(counters)), old(counters).Keys)
      ensures counters == map[]
    {
      taken := [];
      var rest := counters.Keys;
      ghost var t := CounterTable(counters);
      assert t.Keys - rest == {};
      while rest != {}
        invariant rest == counters.Keys <= t.Keys
        invariant forall name | name in counters :: t[name] == CounterMetric(name, counters[name])
        invariant Lists(taken, t, t.Keys - rest)
        decreases |rest|
      {
        var name :| name in rest;
        ListsStep(taken, t, rest, name);
        taken := taken + [CounterMetric(name, counters[name])];
        counters := counters - {name};
        rest := rest - {name};
      }
      assert t.Keys - rest == t.Keys;
    }
  }
}
