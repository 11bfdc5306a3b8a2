/** The in-memory repository (internal/repository/memory.go, internal/repository/idempotency.go:17-30).
    Each public method is one section under the storage mutex. */
module MemoryStorage {
  import opened Metrics
  import opened Snapshots

  /** The storage file. Renaming a finished temporary file over it replaces the content in one step. */
  class Disk {
    var content: Option<seq<Record>>

    constructor ()
      ensures content == None
    {
      content := None;
    }
  }

  class MemStorage {
    var gauges: map<string, Float>
    var counters: map<string, int64>
    var receipts: map<string, string>

    ghost function View(): Image
      reads this
    {
      Image(Maps(gauges, counters), receipts)
    }

    constructor ()
      ensures View() == BLANK
    {
      gauges, counters, receipts := map[], map[], map[];
    }

    /** fault stands for a file that cannot be read or parsed; then there is no storage. */
    static method NewMemStorageWithRestore(disk: Disk, restore: bool, fault: bool) returns (storage: MemStorage?)
      ensures storage == null <==> restore && fault
      ensures storage != null ==> fresh(storage)
      ensures storage != null ==>
        storage.View() == if restore && disk.content.Some? then Load(disk.content.value) else BLANK
    {
      storage := new MemStorage();
      if !restore {
        return;
      }
      var ok := storage.LoadFromFile(disk, fault);
      if !ok {
        return null;
      }
    }

    method UpdateGauge(name: string, value: Float)
      modifies this
      ensures View() == old(View()).(maps := ApplyOne(old(View()).maps, GaugeMetric(name, value)))
    {
      gauges := gauges[name := value];
    }

    method UpdateCounter(name: string, value: int64)
      modifies this
      ensures View() == old(View()).(maps := ApplyOne(old(View()).maps, CounterMetric(name, value)))
    {
      counters := counters[name := Wrap((if name in counters then counters[name] else 0) + value)];
    }

    method UpdateMetrics(metrics: seq<Metric>)
      modifies this
      ensures View() == old(View()).(maps := ApplyAll(old(View()).maps, metrics))
    {
      UpdateMetricsLocked(metrics);
    }

    method UpdateMetricsLocked(metrics: seq<Metric>)
      modifies this`gauges, this`counters
      ensures View() == old(View()).(maps := ApplyAll(old(View()).maps, metrics))
    {
      var i := 0;
      while i < |metrics|
        invariant 0 <= i <= |metrics|
        invariant Maps(gauges, counters) == ApplyAll(old(Maps(gauges, counters)), metrics[..i])
      {
        var metric := metrics[i];
        assert metrics[..i + 1][..i] == metrics[..i];
        match metric.kind {
          case Gauge =>
            if metric.value.Some? {
              gauges := gauges[metric.id := metric.value.value];
            }
          case Counter =>
            if metric.delta.Some? {
              counters := counters[metric.id :=
                Wrap((if metric.id in counters then counters[metric.id] else 0) + metric.delta.value)];
            }
          case Unknown(_) =>
        }
        i := i + 1;
      }
      assert metrics[..i] == metrics;
    }

    method UpdateMetricsOnce(key: string, fingerprint: string, metrics: seq<Metric>)
        returns (applied: bool, conflict: bool)
      modifies this
      ensures View() == ApplyOnce(old(View()), key, fingerprint, metrics).0
      ensures applied <==> ApplyOnce(old(View()), key, fingerprint, metrics).1 == Applied
      ensures conflict <==> ApplyOnce(old(View()), key, fingerprint, metrics).1 == Conflict
      ensures applied <==> key !in old(receipts)
      ensures conflict <==> key in old(receipts) && old(receipts)[key] != fingerprint
      ensures applied ==> receipts == old(receipts)[key := fingerprint] && View().maps == ApplyAll(old(View()).maps, metrics)
      ensures !applied ==> View() == old(View())
    {
      if key in receipts {
        if receipts[key] != fingerprint {
          return false, true;
        }
        return false, false;
      }
      UpdateMetricsLocked(metrics);
      receipts := receipts[key := fingerprint];
      return true, false;
    }

    method GetGauge(name: string) returns (value: Float, ok: bool)
      ensures ok <==> name in View().maps.gauges
      ensures ok ==> value == View().maps.gauges[name]
    {
      if name in gauges { return gauges[name], true; }
      return Finite(0.0), false;
    }

    method GetCounter(name: string) returns (value: int64, ok: bool)
      ensures ok <==> name in View().maps.counters
      ensures value == Count(View().maps.counters, name)
    {
      if name in counters { return counters[name], true; }
      return 0, false;
    }

    method SnapshotMetricsLocked() returns (metrics: seq<Metric>)
      ensures IsListing(metrics, View().maps)
    {
      var gs := ListGauges();
      var cs := ListCounters();
      metrics := gs + cs;
      assert metrics[..|gauges|] == gs && metrics[|gauges|..] == cs;
    }

    /** The first loop of snapshotMetricsLocked. */
    method ListGauges() returns (listed: seq<Metric>)
      ensures Lists(listed, GaugeTable(gauges), gauges.Keys)
    {
      listed := [];
      var rest := gauges.Keys;
      ghost var t := GaugeTable(gauges);
      assert t.Keys - rest == {};
      while rest != {}
        invariant rest <= t.Keys && Lists(listed, t, t.Keys - rest)
        decreases |rest|
      {
        var name :| name in rest;
        ListsStep(listed, t, rest, name);
        listed := listed + [GaugeMetric(name, gauges[name])];
        rest := rest - {name};
      }
      assert t.Keys - rest == t.Keys;
    }

    /** The second loop of snapshotMetricsLocked. */
    method ListCounters() returns (listed: seq<Metric>)
      ensures Lists(listed, CounterTable(counters), counters.Keys)
    {
      listed := [];
      var rest := counters.Keys;
      ghost var t := CounterTable(counters);
      assert t.Keys - rest == {};
      while rest != {}
        invariant rest <= t.Keys && Lists(listed, t, t.Keys - rest)
        decreases |rest|
      {
        var name :| name in rest;
        ListsStep(listed, t, rest, name);
        listed := listed + [CounterMetric(name, counters[name])];
        rest := rest - {name};
      }
      assert t.Keys - rest == t.Keys;
    }

    method FileSnapshot() returns (records: seq<Record>)
      ensures IsFileSnapshot(records, View())
    {
      var metrics := SnapshotMetricsLocked();
      records := Records(metrics);
      SnapshotAssembled(records, metrics, View());
    }

    /** The loop of fileSnapshot, and the receipts on the first record. */
    method Records(metrics: seq<Metric>) returns (records: seq<Record>)
      ensures |records| == |metrics|
      ensures forall i | 0 <= i < |records| :: records[i] == Record(metrics[i], if i == 0 then receipts else map[])
    {
      records := [];
      var i := 0;
      while i < |metrics|
        invariant 0 <= i <= |metrics| && |records| == i
        invariant forall j | 0 <= j < i :: records[j] == Record(metrics[j], map[])
      {
        records := records + [Record(metrics[i], map[])];
        i := i + 1;
      }
      if |records| > 0 && |receipts| > 0 {
        records := records[0 := records[0].(receipts := receipts)];
      }
    }

    /** SaveToFile; fault stands for any failing file-system call. On failure the file is untouched. */
    method SaveToFile(disk: Disk, fault: bool) returns (ok: bool)
      modifies disk
      ensures ok <==> !fault && AllFinite(View().maps)
      ensures ok ==> disk.content.Some? && IsFileSnapshot(disk.content.value, View())
      ensures !ok ==> disk.content == old(disk.content)
    {
      var records := FileSnapshot();
      EncodableIff(records, View());
      if fault || !Encodable(records) {
        return false;
      }
      disk.content := Some(records);
      return true;
    }

    /** loadFromFile. A missing file leaves the storage as it was, and so does one that cannot be read or parsed, which is
        an error. */
    method LoadFromFile(disk: Disk, fault: bool) returns (ok: bool)
      modifies this
      ensures ok <==> !fault
      ensures View() == if ok && disk.content.Some? then Load(disk.content.value) else old(View())
    {
      if fault {
        return false;
      }
      if disk.content.None? {
        return true;
      }
      var metrics := disk.content.value;
      gauges, counters, receipts := map[], map[], map[];
      var i := 0;
      while i < |metrics|
        invariant 0 <= i <= |metrics| && View() == Load(metrics[..i])
      {
        var metric := metrics[i].metric;
        assert metrics[..i + 1][..i] == metrics[..i];
        receipts := receipts + metrics[i].receipts;
        match metric.kind {
          case Gauge =>
            if metric.value.Some? {
              gauges := gauges[metric.id := metric.value.value];
            }
          case Counter =>
            if metric.delta.Some? {
              counters := counters[metric.id := metric.delta.value];
            }
          case Unknown(_) =>
        }
        i := i + 1;
      }
      assert metrics[..i] == metrics;
      return true;
    }
  }
}
