/** The state a server keeps in memory, the batch update guarded by a receipt, and the file form of that
    state (internal/repository/idempotency.go, internal/repository/memory.go). */
module Snapshots {
  import opened Metrics

  /** Metrics and receipts; a receipt maps an idempotency key to the fingerprint applied under it. */
  datatype Image = Image(maps: Maps, receipts: map<string, string>)

  const BLANK: Image := Image(EMPTY, map[])

  datatype Verdict = Applied | Duplicate | Conflict

  function ApplyOnce(img: Image, key: string, fingerprint: string, xs: seq<Metric>): (Image, Verdict) {
    if key in img.receipts then
      (img, if img.receipts[key] == fingerprint then Duplicate else Conflict)
    else
      (Image(ApplyAll(img.maps, xs), img.receipts[key := fingerprint]), Applied)
  }

  // ---------------------------------------------------------------- file records

  /** One element of the JSON array: a metric, and on the first element the receipts. */
  datatype Record = Record(metric: Metric, receipts: map<string, string>)

  function MetricsOf(rs: seq<Record>): (xs: seq<Metric>)
    ensures |xs| == |rs| && forall i | 0 <= i < |rs| :: xs[i] == rs[i].metric
  {
    if rs == [] then [] else MetricsOf(rs[..|rs| - 1]) + [rs[|rs| - 1].metric]
  }

  /** What fileSnapshot may produce from img, over every map iteration order. */
  ghost predicate IsFileSnapshot(rs: seq<Record>, img: Image) {
    && IsListing(MetricsOf(rs), img.maps)
    && forall i | 0 <= i < |rs| :: rs[i].receipts == if i == 0 then img.receipts else map[]
  }

  lemma SnapshotAssembled(rs: seq<Record>, xs: seq<Metric>, img: Image)
    requires IsListing(xs, img.maps) && |rs| == |xs|
    requires forall i | 0 <= i < |rs| :: rs[i] == Record(xs[i], if i == 0 then img.receipts else map[])
    ensures IsFileSnapshot(rs, img)
  {
    assert MetricsOf(rs) == xs;
  }

  lemma SomeSnapshot(img: Image) returns (rs: seq<Record>)
    ensures IsFileSnapshot(rs, img)
  {
    var xs := SomeListing(img.maps);
    rs := seq(|xs|, i requires 0 <= i < |xs| => Record(xs[i], if i == 0 then img.receipts else map[]));
    SnapshotAssembled(rs, xs, img);
  }

  /** JSON has no encoding for infinities and NaN, so such a snapshot cannot be written. */
  predicate Encodable(rs: seq<Record>) {
    forall r | r in rs :: r.metric.value.Some? ==> r.metric.value.value.Finite?
  }

  /** JSON has an encoding for the batch: so it can be fingerprinted, and so it can come from a JSON body. */
  predicate FiniteValues(xs: seq<Metric>) { forall x | x in xs && x.value.Some? :: x.value.value.Finite? }

  predicate AllFinite(m: Maps) { forall name | name in m.gauges :: m.gauges[name].Finite? }

  function LoadOne(img: Image, r: Record): Image {
    var maps :=
      match r.metric.kind
      case Gauge =>
        if r.metric.value.Some?
        then img.maps.(gauges := img.maps.gauges[r.metric.id := r.metric.value.value]) else img.maps
      case Counter =>
        if r.metric.delta.Some?
        then img.maps.(counters := img.maps.counters[r.metric.id := r.metric.delta.value]) else img.maps
      case Unknown(_) => img.maps;
    Image(maps, img.receipts + r.receipts)
  }

  function Load(rs: seq<Record>): Image {
    if rs == [] then BLANK else LoadOne(Load(rs[..|rs| - 1]), rs[|rs| - 1])
  }

  predicate Writes(r: Record, kind: Kind, name: string) {
    r.metric.kind == kind && r.metric.id == name && Effective(r.metric)
  }

  /** Of any file, also one with repetitions, the last record with a value counts for each gauge, counter and receipt. */
  lemma {:induction false} LastRecordCounts(rs: seq<Record>, i: nat)
    requires i < |rs|
    ensures var r, m := rs[i], Load(rs).maps;
      && (Writes(r, Gauge, r.metric.id) && (forall j | i < j < |rs| :: !Writes(rs[j], Gauge, r.metric.id)) ==>
            r.metric.id in m.gauges && m.gauges[r.metric.id] == r.metric.value.value)
      && (Writes(r, Counter, r.metric.id) && (forall j | i < j < |rs| :: !Writes(rs[j], Counter, r.metric.id)) ==>
            r.metric.id in m.counters && m.counters[r.metric.id] == r.metric.delta.value)
    ensures forall key | key in rs[i].receipts && forall j | i < j < |rs| :: key !in rs[j].receipts ::
      key in Load(rs).receipts && Load(rs).receipts[key] == rs[i].receipts[key]
  {
    if i < |rs| - 1 {
      LastRecordCounts(rs[..|rs| - 1], i);
    }
  }

  predicate AnyWrites(rs: seq<Record>, kind: Kind, name: string) {
    exists i :: 0 <= i < |rs| && Writes(rs[i], kind, name)
  }

  predicate AnyReceipt(rs: seq<Record>, key: string) { exists i :: 0 <= i < |rs| && key in rs[i].receipts }

  lemma AnyAppend(rs: seq<Record>, r: Record, kind: Kind, name: string)
    ensures AnyWrites(rs + [r], kind, name) <==> AnyWrites(rs, kind, name) || Writes(r, kind, name)
    ensures AnyReceipt(rs + [r], name) <==> AnyReceipt(rs, name) || name in r.receipts
  {
    var rs' := rs + [r];
    assert rs'[|rs|] == r && forall i | 0 <= i < |rs| :: rs'[i] == rs[i];
  }

  /** And nothing else is loaded. */
  lemma {:induction false} NothingElseLoads(rs: seq<Record>, name: string)
    ensures name in Load(rs).maps.gauges <==> AnyWrites(rs, Gauge, name)
    ensures name in Load(rs).maps.counters <==> AnyWrites(rs, Counter, name)
    ensures name in Load(rs).receipts <==> AnyReceipt(rs, name)
  {
    if rs != [] {
      var init, last := rs[..|rs| - 1], rs[|rs| - 1];
      assert rs == init + [last];
      NothingElseLoads(init, name);
      AnyAppend(init, last, Gauge, name);
      AnyAppend(init, last, Counter, name);
    }
  }

  lemma {:induction false} LoadReceipts(rs: seq<Record>, receipts: map<string, string>)
    requires forall i | 0 <= i < |rs| :: rs[i].receipts == if i == 0 then receipts else map[]
    ensures Load(rs).receipts == if rs == [] then map[] else receipts
  {
    if rs != [] {
      LoadReceipts(rs[..|rs| - 1], receipts);
    }
  }

  /** Loading overwrites where updating adds; without repeats that is the same. */
  lemma {:induction false} LoadIsApply(rs: seq<Record>)
    requires Distinct(MetricsOf(rs))
    ensures Load(rs).maps == ApplyAll(EMPTY, MetricsOf(rs))
  {
    if rs != [] {
      var init, last := rs[..|rs| - 1], rs[|rs| - 1].metric;
      var xs, ys := MetricsOf(rs), MetricsOf(init);
      assert xs == ys + [last] && xs[..|xs| - 1] == ys;
      assert Distinct(ys);
      LoadIsApply(init);
      if last.kind == Counter { NotBefore(ys, last); }
      LoadOneApplies(Load(init), rs[|rs| - 1]);
    }
  }

  lemma LoadOneApplies(img: Image, r: Record)
    requires r.metric.kind == Counter ==> r.metric.id !in img.maps.counters
    ensures LoadOne(img, r).maps == ApplyOne(img.maps, r.metric)
  {
    if r.metric.kind == Counter && r.metric.delta.Some? {
      FirstIncrement(img.maps, r.metric);
    }
  }

  lemma NotBefore(ys: seq<Metric>, last: Metric)
    requires Distinct(ys + [last]) && last.kind == Counter
    ensures last.id !in ApplyAll(EMPTY, ys).counters
  {
    ApplyCounters(EMPTY, ys, last.id);
    forall x | x in ys ensures x.id != last.id || x.kind != Counter {
      var i :| 0 <= i < |ys| && ys[i] == x;
      assert (ys + [last])[i] == x && (ys + [last])[|ys|] == last;
    }
  }

  lemma RestoreName(rs: seq<Record>, m: Maps, name: string)
    requires IsListing(MetricsOf(rs), m)
    ensures name in Load(rs).maps.gauges <==> name in m.gauges
    ensures name in Load(rs).maps.counters <==> name in m.counters
    ensures name in m.gauges ==> Load(rs).maps.gauges[name] == m.gauges[name]
    ensures name in m.counters ==> Load(rs).maps.counters[name] == m.counters[name]
  {
    var xs := MetricsOf(rs);
    ListingDistinct(xs, m);
    LoadIsApply(rs);
    ListingUses(xs, m, name);
    ListingCounter(xs, m, name);
    ApplyGauges(EMPTY, xs, name);
    if name in m.gauges {
      ListingGauge(xs, m, EMPTY, name);
    }
  }

  lemma RestoreMaps(rs: seq<Record>, m: Maps)
    requires IsListing(MetricsOf(rs), m)
    ensures Load(rs).maps == m
  {
    var loaded := Load(rs).maps;
    assert loaded.gauges == m.gauges by {
      forall name
        ensures (name in loaded.gauges <==> name in m.gauges) && (name in m.gauges ==> loaded.gauges[name] == m.gauges[name])
      {
        RestoreName(rs, m, name);
      }
      SameMap(loaded.gauges, m.gauges);
    }
    assert loaded.counters == m.counters by {
      forall name
        ensures (name in loaded.counters <==> name in m.counters)
          && (name in m.counters ==> loaded.counters[name] == m.counters[name])
      {
        RestoreName(rs, m, name);
      }
      SameMap(loaded.counters, m.counters);
    }
  }

  /** Restoring a snapshot gives back the gauges, the counters and the receipts it was taken from. It fails
      to exactly when there were receipts but no metric to carry them. */
  lemma RestoreRoundTrip(rs: seq<Record>, img: Image)
    requires IsFileSnapshot(rs, img)
    ensures Load(rs).maps == img.maps
    ensures Load(rs) == img <==> (img.maps == EMPTY ==> img.receipts == map[])
  {
    RestoreMaps(rs, img.maps);
    LoadReceipts(rs, img.receipts);
    assert rs == [] <==> img.maps == EMPTY;
  }

  lemma RecordListed(rs: seq<Record>, img: Image, r: Record)
    requires IsFileSnapshot(rs, img) && r in rs
    ensures Listed(img.maps, r.metric)
  {
    var i :| 0 <= i < |rs| && rs[i] == r;
    assert MetricsOf(rs)[i] == r.metric;
    ListingMembers(MetricsOf(rs), img.maps, r.metric);
  }

  lemma RecordOf(rs: seq<Record>, img: Image, name: string) returns (r: Record)
    requires IsFileSnapshot(rs, img) && name in img.maps.gauges
    ensures r in rs && r.metric == GaugeMetric(name, img.maps.gauges[name])
  {
    var x := GaugeMetric(name, img.maps.gauges[name]);
    ListingMembers(MetricsOf(rs), img.maps, x);
    var i :| 0 <= i < |rs| && MetricsOf(rs)[i] == x;
    r := rs[i];
  }

  /** A snapshot can be written exactly when every gauge is finite. */
  lemma EncodableIff(rs: seq<Record>, img: Image)
    requires IsFileSnapshot(rs, img)
    ensures Encodable(rs) <==> AllFinite(img.maps)
  {
    if AllFinite(img.maps) {
      forall r | r in rs && r.metric.value.Some? ensures r.metric.value.value.Finite? {
        RecordListed(rs, img, r);
      }
    }
    if Encodable(rs) {
      forall name | name in img.maps.gauges ensures img.maps.gauges[name].Finite? {
        var r := RecordOf(rs, img, name);
        assert r.metric.value.Some?;
      }
    }
  }

  /** Updates through the batch routes leave every gauge finite. */
  lemma {:induction false} AcceptedStaysFinite(m: Maps, xs: seq<Metric>)
    requires AllFinite(m) && FiniteValues(xs)
    ensures AllFinite(ApplyAll(m, xs))
  {
    if xs != [] {
      AcceptedStaysFinite(m, xs[..|xs| - 1]);
      assert xs[|xs| - 1] in xs;
    }
  }
}
