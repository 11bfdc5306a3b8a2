/** The PostgreSQL table: one row per metric name with a type tag, the two upserts, and how the table compares
    with the two maps of the in-memory store (internal/repository/postgres.go, internal/repository/idempotency.go). */
module PostgresRows {
  import opened Metrics

  datatype Row = Row(kind: Kind, gauge: Option<Float>, counter: Option<int64>)

  type Table = map<string, Row>

  /** The names that PostgreSQL takes as a TEXT primary key: none with U+0000, and none too long for its index, which
      depends on how well it compresses. */
  type Names = string -> bool

  /** COALESCE(metrics.counter_value, 0) of the row in conflict, if there is one. */
  function Base(t: Table, name: string): int64 {
    if name in t && t[name].counter.Some? then t[name].counter.value else 0
  }

  predicate InRange(x: int) { -TWO63 <= x < TWO63 }

  /** One upsert; None is the error for a name that does not fit or a BIGINT sum out of range. Other metrics are skipped. */
  function Upsert(fits: Names, t: Table, x: Metric): Option<Table> {
    if Effective(x) && !fits(x.id) then None
    else if x.kind == Gauge && x.value.Some? then Some(t[x.id := Row(Gauge, x.value, None)])
    else if x.kind == Counter && x.delta.Some? then
      if InRange(Base(t, x.id) + x.delta.value)
      then Some(t[x.id := Row(Counter, None, Some(Base(t, x.id) + x.delta.value))]) else None
    else Some(t)
  }

  /** updateMetricsTx: all upserts in order, or an error at the first that fails. */
  function ApplyRows(fits: Names, t: Table, xs: seq<Metric>): Option<Table> {
    if xs == [] then Some(t)
    else
      var r := ApplyRows(fits, t, xs[..|xs| - 1]);
      if r.None? then None else Upsert(fits, r.value, xs[|xs| - 1])
  }

  // ---------------------------------------------------------------- the getters

  predicate IsGauge(t: Table, name: string) { name in t && t[name].kind == Gauge && t[name].gauge.Some? }

  predicate IsCounter(t: Table, name: string) { name in t && t[name].kind == Counter && t[name].counter.Some? }

  function AllGauges(t: Table): map<string, Float> { map name | name in t && IsGauge(t, name) :: t[name].gauge.value }

  function AllCounters(t: Table): map<string, int64> {
    map name | name in t && IsCounter(t, name) :: t[name].counter.value
  }

  /** The four getters of the two stores answer alike. */
  predicate Agree(t: Table, m: Maps) { AllGauges(t) == m.gauges && AllCounters(t) == m.counters }

  // ---------------------------------------------------------------- simulation

  predicate Mixed(xs: seq<Metric>, name: string) { UsesGauge(xs, name) && UsesCounter(xs, name) }

  /** How the row of a name used with one type only relates to the maps: as a gauge, as a counter that has reached
      total, or not at all. */
  predicate RowOk(t: Table, m: Maps, name: string, asGauge: bool, asCounter: bool, total: int) {
    if asGauge then name in m.gauges && name in t && t[name] == Row(Gauge, Some(m.gauges[name]), None)
    else if asCounter then
      name in m.counters && name in t && t[name] == Row(Counter, None, Some(m.counters[name])) && m.counters[name] == total
    else name !in t && name !in m.counters && total == 0
  }

  lemma RowStep(fits: Names, t: Table, m: Maps, x: Metric, name: string, g: bool, c: bool, total: int)
    requires RowOk(t, m, name, g, c, total) && Upsert(fits, t, x).Some?
    requires !((g || UsesGauge([x], name)) && (c || UsesCounter([x], name)))
    ensures RowOk(Upsert(fits, t, x).value, ApplyOne(m, x), name, g || UsesGauge([x], name), c || UsesCounter([x], name),
              total + Delta1(x, name))
  {
    assert UsesGauge([x], name) <==> x.id == name && x.kind == Gauge && x.value.Some? by {
      assert x in [x];
    }
    assert UsesCounter([x], name) <==> x.id == name && x.kind == Counter && x.delta.Some? by {
      assert x in [x];
    }
  }

  predicate Simulated(fits: Names, xs: seq<Metric>, name: string) {
    var r := ApplyRows(fits, map[], xs);
    r.Some? && RowOk(r.value, ApplyAll(EMPTY, xs), name, UsesGauge(xs, name), UsesCounter(xs, name), Delta(xs, name))
  }

  lemma SimulatedAppend(fits: Names, init: seq<Metric>, last: Metric, name: string)
    requires ApplyRows(fits, map[], init + [last]).Some? && !Mixed(init + [last], name) && Simulated(fits, init, name)
    ensures Simulated(fits, init + [last], name)
  {
    assert (init + [last])[..|init|] == init;
    UsesAppend(init, last, name);
    RowStep(fits, ApplyRows(fits, map[], init).value, ApplyAll(EMPTY, init), last, name,
      UsesGauge(init, name), UsesCounter(init, name), Delta(init, name));
  }

  lemma {:induction false} RowSimulates(fits: Names, xs: seq<Metric>, name: string)
    requires ApplyRows(fits, map[], xs).Some? && !Mixed(xs, name)
    ensures Simulated(fits, xs, name)
  {
    if xs != [] {
      var init, last := xs[..|xs| - 1], xs[|xs| - 1];
      assert xs == init + [last];
      UsesAppend(init, last, name);
      RowSimulates(fits, init, name);
      SimulatedAppend(fits, init, last, name);
    }
  }

  /** A history that PostgreSQL accepts leaves both stores with the same answers exactly when no name was used
      both as a gauge and as a counter. */
  lemma StoresAgreeIff(fits: Names, xs: seq<Metric>)
    requires ApplyRows(fits, map[], xs).Some?
    ensures Agree(ApplyRows(fits, map[], xs).value, ApplyAll(EMPTY, xs)) <==> forall name :: !Mixed(xs, name)
  {
    var t, m := ApplyRows(fits, map[], xs).value, ApplyAll(EMPTY, xs);
    if name :| Mixed(xs, name) {
      ApplyGauges(EMPTY, xs, name);
      ApplyCounters(EMPTY, xs, name);
      assert name in m.gauges && name in m.counters;
      assert !(name in AllGauges(t) && name in AllCounters(t));
    } else {
      forall name
        ensures (name in AllGauges(t) <==> name in m.gauges) && (name in m.gauges ==> AllGauges(t)[name] == m.gauges[name])
        ensures (name in AllCounters(t) <==> name in m.counters)
          && (name in m.counters ==> AllCounters(t)[name] == m.counters[name])
      {
        NameAgrees(fits, xs, name);
      }
      SameMap(AllGauges(t), m.gauges);
      SameMap(AllCounters(t), m.counters);
    }
  }

  /** What a row holds after any history that is accepted, with both types mixed as one likes: the sum of the deltas since
      the last gauge of that name, or else that gauge. i is the position behind it, or 0 if there is none. */
  lemma {:induction false} RowHolds(fits: Names, xs: seq<Metric>, i: nat, name: string)
    requires ApplyRows(fits, map[], xs).Some? && i <= |xs| && !UsesGauge(xs[i..], name)
    requires i > 0 ==> xs[i - 1].id == name && xs[i - 1].kind == Gauge && xs[i - 1].value.Some?
    ensures var t := ApplyRows(fits, map[], xs).value;
      if UsesCounter(xs[i..], name) then
        name in t && t[name].kind == Counter && t[name].gauge == None
        && t[name].counter.Some? && t[name].counter.value == Delta(xs[i..], name)
      else if i > 0 then name in t && t[name] == Row(Gauge, xs[i - 1].value, None)
      else name !in t
  {
    if i < |xs| {
      var init, last := xs[..|xs| - 1], xs[|xs| - 1];
      assert xs[i..] == init[i..] + [last];
      UsesAppend(init[i..], last, name);
      DeltaAppend(init[i..], last, name);
      RowHolds(fits, init, i, name);
      if !UsesCounter(init[i..], name) { DeltaAbsent(init[i..], name); }
      RowNext(fits, ApplyRows(fits, map[], init).value, last, name);
    }
  }

  lemma RowNext(fits: Names, t: Table, x: Metric, name: string)
    requires Upsert(fits, t, x).Some? && !UsesGauge([x], name)
    ensures var u := Upsert(fits, t, x).value;
      if UsesCounter([x], name) then
        name in u && u[name].kind == Counter && u[name].gauge == None
        && u[name].counter.Some? && u[name].counter.value == Base(t, name) + Delta1(x, name)
      else (name in u <==> name in t) && (name in t ==> u[name] == t[name]) && Delta1(x, name) == 0
  {
    assert x in [x];
  }

  lemma NameAgrees(fits: Names, xs: seq<Metric>, name: string)
    requires ApplyRows(fits, map[], xs).Some? && !Mixed(xs, name)
    ensures var t, m := ApplyRows(fits, map[], xs).value, ApplyAll(EMPTY, xs);
      && (name in AllGauges(t) <==> name in m.gauges) && (name in m.gauges ==> AllGauges(t)[name] == m.gauges[name])
      && (name in AllCounters(t) <==> name in m.counters)
      && (name in m.counters ==> AllCounters(t)[name] == m.counters[name])
  {
    ApplyGauges(EMPTY, xs, name);
    ApplyCounters(EMPTY, xs, name);
    RowSimulates(fits, xs, name);
  }

  predicate NamesFit(fits: Names, xs: seq<Metric>) { forall x | x in xs && Effective(x) :: fits(x.id) }

  /** Without mixed names PostgreSQL accepts a history exactly when its names fit and no running total of a counter leaves
      int64; the in-memory store takes any name and would wrap there. */
  lemma {:induction false} AcceptedIff(fits: Names, xs: seq<Metric>)
    requires forall name :: !Mixed(xs, name)
    ensures ApplyRows(fits, map[], xs).Some? <==>
      NamesFit(fits, xs) && forall k, name | 0 <= k <= |xs| :: InRange(Delta(xs[..k], name))
  {
    if xs != [] {
      var n := |xs| - 1;
      var init, last := xs[..n], xs[n];
      assert xs == init + [last];
      forall name ensures !Mixed(init, name) {
        assert !Mixed(xs, name);
        assert UsesGauge(init, name) ==> UsesGauge(xs, name);
        assert UsesCounter(init, name) ==> UsesCounter(xs, name);
      }
      AcceptedIff(fits, init);
      assert NamesFit(fits, xs) <==> NamesFit(fits, init) && NamesFit(fits, [last]);
      assert forall k | 0 <= k <= n :: init[..k] == xs[..k];
      assert xs[..|xs|] == xs;
      if ApplyRows(fits, map[], init).Some? {
        LastUpsert(fits, init, last);
      }
    }
  }

  lemma LastUpsert(fits: Names, init: seq<Metric>, last: Metric)
    requires ApplyRows(fits, map[], init).Some? && !Mixed(init + [last], last.id)
    requires forall name :: InRange(Delta(init, name))
    ensures ApplyRows(fits, map[], init + [last]).Some? <==>
      NamesFit(fits, [last]) && forall name :: InRange(Delta(init + [last], name))
  {
    var xs := init + [last];
    assert xs[..|xs| - 1] == init;
    LastInRange(fits, init, last);
    forall name ensures Delta(xs, name) == Delta(init, name) + Delta1(last, name) {
      DeltaAppend(init, last, name);
    }
    assert ApplyRows(fits, map[], xs).Some? <==> NamesFit(fits, [last]) && InRange(Delta(xs, last.id));
    if InRange(Delta(xs, last.id)) {
      forall name ensures InRange(Delta(xs, name)) {
        assert name != last.id ==> Delta(xs, name) == Delta(init, name);
      }
    }
  }

  lemma LastInRange(fits: Names, init: seq<Metric>, last: Metric)
    requires ApplyRows(fits, map[], init).Some? && !Mixed(init + [last], last.id) && InRange(Delta(init, last.id))
    ensures Upsert(fits, ApplyRows(fits, map[], init).value, last).Some? <==>
      NamesFit(fits, [last]) && InRange(Delta(init, last.id) + Delta1(last, last.id))
  {
    var xs := init + [last];
    UsesAppend(init, last, last.id);
    RowSimulates(fits, init, last.id);
    assert last in [last];
    if !UsesCounter(init, last.id) { DeltaAbsent(init, last.id); }
  }

  // ---------------------------------------------------------------- locality, for concurrent transactions

  /** The names that xs writes. */
  function Written(xs: seq<Metric>): set<string> {
    if xs == [] then {} else Written(xs[..|xs| - 1]) + if Effective(xs[|xs| - 1]) then {xs[|xs| - 1].id} else {}
  }

  predicate SameOn(t: Table, u: Table, names: set<string>) {
    forall name | name in names :: (name in t <==> name in u) && (name in t ==> t[name] == u[name])
  }

  /** What xs does depends only on the rows it writes, and it changes no other row. */
  lemma {:induction false} RowsLocal(fits: Names, t: Table, u: Table, xs: seq<Metric>, names: set<string>)
    requires Written(xs) <= names && SameOn(t, u, names)
    ensures ApplyRows(fits, t, xs).Some? <==> ApplyRows(fits, u, xs).Some?
    ensures ApplyRows(fits, t, xs).Some? ==> SameOn(ApplyRows(fits, t, xs).value, ApplyRows(fits, u, xs).value, names)
  {
    if xs != [] {
      RowsLocal(fits, t, u, xs[..|xs| - 1], names);
    }
  }

  lemma {:induction false} RowsUntouched(fits: Names, t: Table, xs: seq<Metric>, name: string)
    requires ApplyRows(fits, t, xs).Some?
    ensures name in Written(xs) ==> name in ApplyRows(fits, t, xs).value
    ensures name !in Written(xs) ==>
      (name in ApplyRows(fits, t, xs).value <==> name in t) && (name in t ==> ApplyRows(fits, t, xs).value[name] == t[name])
  {
    if xs != [] {
      RowsUntouched(fits, t, xs[..|xs| - 1], name);
    }
  }

  lemma {:induction false} WrittenAt(xs: seq<Metric>, i: nat)
    requires i < |xs| && Effective(xs[i])
    ensures xs[i].id in Written(xs)
  {
    if i < |xs| - 1 {
      WrittenAt(xs[..|xs| - 1], i);
    }
  }

  /** What fails on the way to the k-th upsert fails in all. */
  lemma {:induction false} ErrorStays(fits: Names, t: Table, xs: seq<Metric>, k: nat)
    requires k <= |xs| && ApplyRows(fits, t, xs[..k]).None?
    ensures ApplyRows(fits, t, xs).None?
  {
    if k == |xs| {
      assert xs[..k] == xs;
    } else {
      assert xs[..|xs| - 1][..k] == xs[..k];
      ErrorStays(fits, t, xs[..|xs| - 1], k);
    }
  }
}
