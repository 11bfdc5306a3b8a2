/** Metric values, the two-map view of a store, and what a batch of updates does to it
    (internal/model/metrics.go, internal/repository/memory.go). */
module Metrics {

  datatype Option<+T> = None | Some(value: T)

  // ---------------------------------------------------------------- Go's int64

  const TWO63: int := 0x8000_0000_0000_0000
  const TWO64: int := 0x1_0000_0000_0000_0000

  type int64 = x: int | -TWO63 <= x < TWO63

  /** Two's-complement truncation: the representative of x that an int64 holds. */
  function Wrap(x: int): (r: int64)
    ensures (x - r) % TWO64 == 0
    ensures -TWO63 <= x < TWO63 ==> r == x
  {
    (x + TWO63) % TWO64 - TWO63
  }

  lemma WrapCongruent(x: int, y: int)
    ensures Wrap(x) == Wrap(y) <==> (x - y) % TWO64 == 0
  {
  }

  /** Wrapping early or late makes no difference. */
  /** One more than the largest int64 is the smallest. */
  lemma WrapsAround()
    ensures Wrap(9223372036854775807 + 1) == -9223372036854775808 && Wrap(-9223372036854775808 - 1) == 9223372036854775807
  {
  }

  lemma WrapAdd(x: int, y: int)
    ensures Wrap(Wrap(x) + y) == Wrap(x + y)
  {
    WrapCongruent(Wrap(x) + y, x + y);
  }

  // ---------------------------------------------------------------- metrics

  /** A float64, as far as JSON and the stores can tell values apart. */
  datatype Float = Finite(value: real) | Infinite(negative: bool) | NaN

  datatype Kind = Gauge | Counter | Unknown(name: string)

  datatype Metric = Metric(id: string, kind: Kind, delta: Option<int64>, value: Option<Float>, hash: string)

  function GaugeMetric(name: string, v: Float): Metric { Metric(name, Gauge, None, Some(v), "") }

  function CounterMetric(name: string, d: int64): Metric { Metric(name, Counter, Some(d), None, "") }

  /** The metric carries the value its type calls for, so a store acts on it. */
  predicate Effective(x: Metric) {
    (x.kind == Gauge && x.value.Some?) || (x.kind == Counter && x.delta.Some?)
  }

  predicate Valid(x: Metric) { x.id != "" && Effective(x) }

  predicate AllValid(xs: seq<Metric>) { forall x | x in xs :: Valid(x) }

  predicate UsesGauge(xs: seq<Metric>, name: string) {
    exists x | x in xs :: x.id == name && x.kind == Gauge && x.value.Some?
  }

  predicate UsesCounter(xs: seq<Metric>, name: string) {
    exists x | x in xs :: x.id == name && x.kind == Counter && x.delta.Some?
  }

  // ---------------------------------------------------------------- the two maps

  datatype Maps = Maps(gauges: map<string, Float>, counters: map<string, int64>)

  const EMPTY: Maps := Maps(map[], map[])

  /** Go's zero value for an absent key. */
  function Count(counters: map<string, int64>, name: string): int64 {
    if name in counters then counters[name] else 0
  }

  function ApplyOne(m: Maps, x: Metric): Maps {
    match x.kind
    case Gauge => if x.value.Some? then m.(gauges := m.gauges[x.id := x.value.value]) else m
    case Counter =>
      if x.delta.Some? then m.(counters := m.counters[x.id := Wrap(Count(m.counters, x.id) + x.delta.value)]) else m
    case Unknown(_) => m
  }

  function ApplyAll(m: Maps, xs: seq<Metric>): Maps {
    if xs == [] then m else ApplyOne(ApplyAll(m, xs[..|xs| - 1]), xs[|xs| - 1])
  }

  /** The first increment of a counter sets it. */
  lemma FirstIncrement(m: Maps, x: Metric)
    requires x.kind == Counter && x.delta.Some? && x.id !in m.counters
    ensures ApplyOne(m, x) == m.(counters := m.counters[x.id := x.delta.value])
  {
  }

  /** What one metric adds to the counter called name, as an unbounded integer. */
  function Delta1(x: Metric, name: string): int {
    if x.id == name && x.kind == Counter && x.delta.Some? then x.delta.value else 0
  }

  function Delta(xs: seq<Metric>, name: string): int {
    if xs == [] then 0 else Delta(xs[..|xs| - 1], name) + Delta1(xs[|xs| - 1], name)
  }

  lemma {:induction false} DeltaConcat(xs: seq<Metric>, ys: seq<Metric>, name: string)
    ensures Delta(xs + ys, name) == Delta(xs, name) + Delta(ys, name)
  {
    if ys == [] {
      assert xs + ys == xs;
    } else {
      DeltaConcat(xs, ys[..|ys| - 1], name);
      assert (xs + ys)[..|xs + ys| - 1] == xs + ys[..|ys| - 1];
    }
  }

  lemma UsesAppend(init: seq<Metric>, last: Metric, name: string)
    ensures UsesGauge(init + [last], name) <==> UsesGauge(init, name) || UsesGauge([last], name)
    ensures UsesCounter(init + [last], name) <==> UsesCounter(init, name) || UsesCounter([last], name)
  {
  }

  /** A batch moves every counter by the sum of its deltas, modulo 2^64, and touches no other. */
  lemma {:induction false} ApplyCounters(m: Maps, xs: seq<Metric>, name: string)
    ensures Count(ApplyAll(m, xs).counters, name) == Wrap(Count(m.counters, name) + Delta(xs, name))
    ensures name in ApplyAll(m, xs).counters <==> name in m.counters || UsesCounter(xs, name)
  {
    if xs != [] {
      var init, last := xs[..|xs| - 1], xs[|xs| - 1];
      ApplyCounters(m, init, name);
      WrapAdd(Count(m.counters, name) + Delta(init, name), Delta1(last, name));
      assert xs == init + [last];
      UsesAppend(init, last, name);
    }
  }

  /** Gauges named by a batch are exactly those added; the others keep their value. */
  lemma {:induction false} ApplyGauges(m: Maps, xs: seq<Metric>, name: string)
    ensures name in ApplyAll(m, xs).gauges <==> name in m.gauges || UsesGauge(xs, name)
    ensures name in m.gauges && !UsesGauge(xs, name) ==> ApplyAll(m, xs).gauges[name] == m.gauges[name]
  {
    if xs != [] {
      var init, last := xs[..|xs| - 1], xs[|xs| - 1];
      ApplyGauges(m, init, name);
      assert xs == init + [last];
      UsesAppend(init, last, name);
    }
  }

  lemma SameMap<V>(a: map<string, V>, b: map<string, V>)
    requires forall name :: (name in a <==> name in b) && (name in b ==> a[name] == b[name])
    ensures a == b
  {
  }

  lemma DeltaAppend(xs: seq<Metric>, x: Metric, name: string)
    ensures Delta(xs + [x], name) == Delta(xs, name) + Delta1(x, name)
  {
    assert (xs + [x])[..|xs|] == xs;
  }

  // ---------------------------------------------------------------- order independence

  lemma {:induction false} DeltaSplit(xs: seq<Metric>, i: nat, name: string)
    requires i < |xs|
    ensures Delta(xs, name) == Delta(xs[..i] + xs[i + 1..], name) + Delta1(xs[i], name)
  {
    assert xs == xs[..i] + [xs[i]] + xs[i + 1..];
    DeltaConcat(xs[..i] + [xs[i]], xs[i + 1..], name);
    DeltaConcat(xs[..i], [xs[i]], name);
    DeltaConcat(xs[..i], xs[i + 1..], name);
  }

  lemma RemoveAt(xs: seq<Metric>, i: nat)
    requires i < |xs|
    ensures multiset(xs[..i] + xs[i + 1..]) == multiset(xs) - multiset{xs[i]}
  {
    assert xs == xs[..i] + [xs[i]] + xs[i + 1..];
  }

  lemma {:induction false} DeltaPermuted(xs: seq<Metric>, ys: seq<Metric>, name: string)
    requires multiset(xs) == multiset(ys)
    ensures Delta(xs, name) == Delta(ys, name)
    decreases |xs|
  {
    if xs == [] {
      assert |multiset(ys)| == 0;
    } else {
      var k := |xs| - 1;
      assert xs[k] in multiset(ys);
      var i :| 0 <= i < |ys| && ys[i] == xs[k];
      RemoveAt(xs, k);
      RemoveAt(ys, i);
      DeltaSplit(xs, k, name);
      DeltaSplit(ys, i, name);
      DeltaPermuted(xs[..k] + xs[k + 1..], ys[..i] + ys[i + 1..], name);
    }
  }

  /** Counters depend on which metrics were applied, never on the order they arrived in. */
  lemma {:induction false} CounterOrderIrrelevant(m: Maps, xs: seq<Metric>, ys: seq<Metric>)
    requires multiset(xs) == multiset(ys)
    ensures ApplyAll(m, xs).counters == ApplyAll(m, ys).counters
  {
    var a, b := ApplyAll(m, xs).counters, ApplyAll(m, ys).counters;
    forall x ensures x in xs <==> x in ys { assert x in multiset(xs) <==> x in multiset(ys); }
    forall name ensures name in a <==> name in b
                ensures Count(a, name) == Count(b, name)
    {
      ApplyCounters(m, xs, name);
      ApplyCounters(m, ys, name);
      DeltaPermuted(xs, ys, name);
    }
    assert forall name | name in a :: Count(a, name) == a[name];
    assert forall name | name in b :: Count(b, name) == b[name];
  }

  /** No two entries of a batch name the same metric of the same type. */
  predicate Distinct(xs: seq<Metric>) {
    forall i, j | 0 <= i < j < |xs| :: xs[i].id != xs[j].id || xs[i].kind != xs[j].kind
  }

  lemma {:induction false} GaugeOf(m: Maps, xs: seq<Metric>, i: nat)
    requires Distinct(xs) && i < |xs| && xs[i].kind == Gauge && xs[i].value.Some?
    ensures xs[i].id in ApplyAll(m, xs).gauges && ApplyAll(m, xs).gauges[xs[i].id] == xs[i].value.value
  {
    var init := xs[..|xs| - 1];
    if i < |xs| - 1 {
      assert init[i] == xs[i];
      GaugeOf(m, init, i);
    }
  }

  lemma {:induction false} DeltaOf(xs: seq<Metric>, i: nat)
    requires Distinct(xs) && i < |xs| && xs[i].kind == Counter && xs[i].delta.Some?
    ensures Delta(xs, xs[i].id) == xs[i].delta.value
  {
    DeltaSplit(xs, i, xs[i].id);
    DeltaAbsent(xs[..i] + xs[i + 1..], xs[i].id);
  }

  lemma {:induction false} DeltaAbsent(xs: seq<Metric>, name: string)
    requires !UsesCounter(xs, name)
    ensures Delta(xs, name) == 0
  {
    if xs != [] {
      var init := xs[..|xs| - 1];
      assert forall x | x in init :: x in xs;
      DeltaAbsent(init, name);
    }
  }

  /** A batch without repeated names has one effect, whatever order a map iteration gave it. */
  lemma {:induction false} BatchOrderIrrelevant(m: Maps, xs: seq<Metric>, ys: seq<Metric>)
    requires Distinct(xs) && Distinct(ys) && multiset(xs) == multiset(ys)
    ensures ApplyAll(m, xs) == ApplyAll(m, ys)
  {
    CounterOrderIrrelevant(m, xs, ys);
    var a, b := ApplyAll(m, xs).gauges, ApplyAll(m, ys).gauges;
    forall x ensures x in xs <==> x in ys { assert x in multiset(xs) <==> x in multiset(ys); }
    forall name ensures name in a <==> name in b
                ensures name in a ==> a[name] == b[name]
    {
      ApplyGauges(m, xs, name);
      ApplyGauges(m, ys, name);
      if UsesGauge(xs, name) {
        var i :| 0 <= i < |xs| && xs[i].id == name && xs[i].kind == Gauge && xs[i].value.Some?;
        assert xs[i] in ys;
        var j :| 0 <= j < |ys| && ys[j] == xs[i];
        GaugeOf(m, xs, i);
        GaugeOf(m, ys, j);
      }
    }
  }

  // ---------------------------------------------------------------- snapshots

  function GaugeTable(gauges: map<string, Float>): (t: map<string, Metric>)
    ensures t.Keys == gauges.Keys
  {
    map name | name in gauges :: GaugeMetric(name, gauges[name])
  }

  function CounterTable(counters: map<string, int64>): (t: map<string, Metric>)
    ensures t.Keys == counters.Keys
  {
    map name | name in counters :: CounterMetric(name, counters[name])
  }

  /** xs holds the entries of t called names, one each, in whatever order an iteration took. */
  ghost predicate Lists(xs: seq<Metric>, t: map<string, Metric>, names: set<string>)
    ensures Lists(xs, t, names) ==> |xs| == |names|
  {
    if xs == [] then names == {}
    else
      var x := xs[|xs| - 1];
      x.id in names && x.id in t && x == t[x.id] && Lists(xs[..|xs| - 1], t, names - {x.id})
  }

  /** One iteration of a loop over t: name was in rest, its entry has been appended. */
  lemma ListsStep(xs: seq<Metric>, t: map<string, Metric>, rest: set<string>, name: string)
    requires Lists(xs, t, t.Keys - rest) && name in t && name in rest && t[name].id == name
    ensures Lists(xs + [t[name]], t, t.Keys - (rest - {name}))
  {
    assert (xs + [t[name]])[..|xs|] == xs;
    assert t.Keys - (rest - {name}) - {name} == t.Keys - rest;
  }

  lemma {:induction false} ListAll(t: map<string, Metric>, names: set<string>) returns (xs: seq<Metric>)
    requires names <= t.Keys && forall name | name in names :: t[name].id == name
    ensures Lists(xs, t, names)
    decreases |names|
  {
    if names == {} {
      return [];
    }
    var name :| name in names;
    var init := ListAll(t, names - {name});
    xs := init + [t[name]];
    assert xs[..|xs| - 1] == init;
  }

  lemma {:induction false} ListsMembers(xs: seq<Metric>, t: map<string, Metric>, names: set<string>, x: Metric)
    requires Lists(xs, t, names)
    ensures x in xs <==> x.id in names && x.id in t && t[x.id] == x
  {
    if xs != [] {
      var init, last := xs[..|xs| - 1], xs[|xs| - 1];
      ListsMembers(init, t, names - {last.id}, x);
      assert xs == init + [last];
    } else {
      assert x !in xs;
    }
  }

  lemma {:induction false} ListsDistinct(xs: seq<Metric>, t: map<string, Metric>, names: set<string>)
    requires Lists(xs, t, names)
    ensures Distinct(xs)
  {
    if xs != [] {
      var init, last := xs[..|xs| - 1], xs[|xs| - 1];
      ListsDistinct(init, t, names - {last.id});
      forall i | 0 <= i < |init| ensures xs[i].id != last.id {
        assert init[i] in init;
        ListsMembers(init, t, names - {last.id}, init[i]);
      }
    }
  }

  /** xs lists two maps: every gauge, then every counter, each map in some iteration order. */
  ghost predicate IsListing(xs: seq<Metric>, m: Maps) {
    && |xs| == |m.gauges| + |m.counters|
    && Lists(xs[..|m.gauges|], GaugeTable(m.gauges), m.gauges.Keys)
    && Lists(xs[|m.gauges|..], CounterTable(m.counters), m.counters.Keys)
  }

  /** Every store can be listed. */
  lemma SomeListing(m: Maps) returns (xs: seq<Metric>)
    ensures IsListing(xs, m)
  {
    var gs := ListAll(GaugeTable(m.gauges), m.gauges.Keys);
    var cs := ListAll(CounterTable(m.counters), m.counters.Keys);
    xs := gs + cs;
    assert xs[..|m.gauges|] == gs && xs[|m.gauges|..] == cs;
  }

  predicate OfKind(xs: seq<Metric>, kind: Kind) { forall x | x in xs :: x.kind == kind }

  lemma Halves(xs: seq<Metric>, n: nat)
    requires n <= |xs|
    ensures xs[..n] + xs[n..] == xs
  {
  }

  lemma DistinctHalves(gs: seq<Metric>, cs: seq<Metric>)
    requires Distinct(gs) && OfKind(gs, Gauge) && Distinct(cs) && OfKind(cs, Counter)
    ensures Distinct(gs + cs)
  {
    forall i, j | 0 <= i < j < |gs + cs|
      ensures (gs + cs)[i].id != (gs + cs)[j].id || (gs + cs)[i].kind != (gs + cs)[j].kind
    {
      if i < |gs| <= j {
        assert gs[i] in gs && cs[j - |gs|] in cs;
      }
    }
  }

  lemma GaugeHalf(gs: seq<Metric>, gauges: map<string, Float>)
    requires Lists(gs, GaugeTable(gauges), gauges.Keys)
    ensures Distinct(gs) && OfKind(gs, Gauge)
  {
    ListsDistinct(gs, GaugeTable(gauges), gauges.Keys);
    forall x | x in gs ensures x.kind == Gauge {
      ListsMembers(gs, GaugeTable(gauges), gauges.Keys, x);
    }
  }

  lemma CounterHalf(cs: seq<Metric>, counters: map<string, int64>)
    requires Lists(cs, CounterTable(counters), counters.Keys)
    ensures Distinct(cs) && OfKind(cs, Counter)
  {
    ListsDistinct(cs, CounterTable(counters), counters.Keys);
    forall x | x in cs ensures x.kind == Counter {
      ListsMembers(cs, CounterTable(counters), counters.Keys, x);
    }
  }

  lemma ListingDistinct(xs: seq<Metric>, m: Maps)
    requires IsListing(xs, m)
    ensures Distinct(xs)
  {
    var gs, cs := xs[..|m.gauges|], xs[|m.gauges|..];
    GaugeHalf(gs, m.gauges);
    CounterHalf(cs, m.counters);
    DistinctHalves(gs, cs);
    Halves(xs, |m.gauges|);
  }

  /** What a listing contains, told from the maps alone. */
  predicate Listed(m: Maps, x: Metric) {
    || (x.id in m.gauges && x == GaugeMetric(x.id, m.gauges[x.id]))
    || (x.id in m.counters && x == CounterMetric(x.id, m.counters[x.id]))
  }

  lemma ListingMembers(xs: seq<Metric>, m: Maps, x: Metric)
    requires IsListing(xs, m)
    ensures x in xs <==> Listed(m, x)
  {
    var k := |m.gauges|;
    assert xs == xs[..k] + xs[k..];
    ListsMembers(xs[..k], GaugeTable(m.gauges), m.gauges.Keys, x);
    ListsMembers(xs[k..], CounterTable(m.counters), m.counters.Keys, x);
  }

  lemma ListingUses(xs: seq<Metric>, m: Maps, name: string)
    requires IsListing(xs, m)
    ensures UsesCounter(xs, name) <==> name in m.counters
    ensures UsesGauge(xs, name) <==> name in m.gauges
  {
    forall x ensures x in xs <==> Listed(m, x) { ListingMembers(xs, m, x); }
    if name in m.counters { assert Listed(m, CounterMetric(name, m.counters[name])); }
    if name in m.gauges { assert Listed(m, GaugeMetric(name, m.gauges[name])); }
  }

  /** Applying a listing moves each counter by the value listed ... */
  lemma ListingDelta(xs: seq<Metric>, m: Maps, name: string)
    requires IsListing(xs, m)
    ensures Delta(xs, name) == Count(m.counters, name)
  {
    ListingDistinct(xs, m);
    ListingUses(xs, m, name);
    if name in m.counters {
      ListingMembers(xs, m, CounterMetric(name, m.counters[name]));
      var i :| 0 <= i < |xs| && xs[i] == CounterMetric(name, m.counters[name]);
      DeltaOf(xs, i);
    } else {
      DeltaAbsent(xs, name);
    }
  }

  lemma CountFromEmpty(xs: seq<Metric>, d: int64, name: string)
    requires Delta(xs, name) == d
    ensures Count(ApplyAll(EMPTY, xs).counters, name) == d
    ensures name in ApplyAll(EMPTY, xs).counters <==> UsesCounter(xs, name)
  {
    ApplyCounters(EMPTY, xs, name);
  }

  lemma ListingCounter(xs: seq<Metric>, m: Maps, name: string)
    requires IsListing(xs, m)
    ensures name in ApplyAll(EMPTY, xs).counters <==> name in m.counters
    ensures Count(ApplyAll(EMPTY, xs).counters, name) == Count(m.counters, name)
  {
    ListingUses(xs, m, name);
    ListingDelta(xs, m, name);
    CountFromEmpty(xs, Count(m.counters, name), name);
  }

  /** ... and sets each gauge listed. */
  lemma ListingGauge(xs: seq<Metric>, m: Maps, m0: Maps, name: string)
    requires IsListing(xs, m) && name in m.gauges
    ensures name in ApplyAll(m0, xs).gauges && ApplyAll(m0, xs).gauges[name] == m.gauges[name]
  {
    ListingDistinct(xs, m);
    ListingMembers(xs, m, GaugeMetric(name, m.gauges[name]));
    var i :| 0 <= i < |xs| && xs[i] == GaugeMetric(name, m.gauges[name]);
    GaugeOf(m0, xs, i);
  }
}
