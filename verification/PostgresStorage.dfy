/** The PostgreSQL repository as its callers see it: one attempt of a batch, and the retry loop around attempts whose
    commit may take effect although its reply is lost (internal/repository/idempotency.go:33-94,
    internal/repository/postgres.go:91-118, 232-242). */
module PostgresStorage {
  import opened Metrics
  import opened Retry
  import opened PostgresRows
  import opened PostgresTx
  import AgentProtocol

  /** What goes wrong in one attempt: its at-th statement fails, counting from BEGIN as 0, and the transaction is rolled
      back; or the COMMIT is carried out but answered with an error. retriable tells errors of the connection
      class, which are retried, from others. */
  datatype Fault = Clean | Fails(at: nat, retriable: bool) | ReplyLost(retriable: bool)

  /** Rejected is the error of an upsert that PostgreSQL never accepts. */
  datatype Reply = Done(applied: bool) | Conflict | Rejected | Broken(retriable: bool)

  datatype Tables = Tables(rows: Table, receipts: map<string, string>)

  /** Nothing happened, or all of the batch together with its receipt. */
  predicate AllOrNothing(fits: Names, db: Tables, db': Tables, key: string, fingerprint: string, metrics: seq<Metric>) {
    db' == db || AppliedOnce(fits, db, db', key, fingerprint, metrics)
  }

  predicate AppliedOnce(fits: Names, db: Tables, db': Tables, key: string, fingerprint: string, metrics: seq<Metric>) {
    key !in db.receipts && ApplyRows(fits, db.rows, metrics) == Some(db'.rows)
    && db'.receipts == db.receipts[key := fingerprint]
  }

  predicate Fault0(fault: Fault, statement: nat) { fault.Fails? && fault.at == statement }

  /** Every one of the first n attempts failed with an error that is retried. */
  predicate AllRetriable(faults: nat -> Fault, n: nat) { forall k: nat | k < n :: faults(k) != Clean && faults(k).retriable }

  predicate Retries(reply: Reply) { reply.Broken? && reply.retriable }

  predicate NoneLost(faults: nat -> Fault, n: nat) { forall k: nat | k < n :: !faults(k).ReplyLost? }

  /** How many commit replies were lost among the first n attempts. */
  function Lost(faults: nat -> Fault, n: nat): nat {
    if n == 0 then 0 else Lost(faults, n - 1) + if faults(n - 1).ReplyLost? then 1 else 0
  }

  /** Whether an attempt without a key has changed the table, told from its reply and its fault. */
  predicate TookEffect(reply: Reply, fault: Fault) { reply.Done? || (reply.Broken? && fault.ReplyLost?) }

  class Storage {
    var rows: Table
    var receipts: map<string, string>
    const fits: Names

    constructor (fits: Names)
      ensures View() == Tables(map[], map[]) && this.fits == fits
    {
      this.fits := fits;
      rows, receipts := map[], map[];
    }

    ghost function View(): Tables
      reads this
    {
      Tables(rows, receipts)
    }

    /** The upserts of one transaction, on the transaction's own version of the table. first numbers the first of them;
        next is the number of the statement that follows the last one carried out. */
    method UpdateMetricsTx(metrics: seq<Metric>, fault: Fault, first: nat)
        returns (version: Table, next: nat, error: Option<Reply>)
      ensures error.None? ==> ApplyRows(fits, rows, metrics) == Some(version)
      ensures error == Some(Rejected) ==> ApplyRows(fits, rows, metrics).None?
      ensures error.Some? ==> error.value == Rejected || (fault.Fails? && error.value == Broken(fault.retriable))
    {
      version, next := rows, first;
      var i := 0;
      while i < |metrics|
        invariant 0 <= i <= |metrics| && ApplyRows(fits, rows, metrics[..i]) == Some(version)
      {
        assert metrics[..i + 1][..i] == metrics[..i];
        if Effective(metrics[i]) {
          if Fault0(fault, next) {
            return version, next, Some(Broken(fault.retriable));
          }
          var r := Upsert(fits, version, metrics[i]);
          if r.None? {
            ErrorStays(fits, rows, metrics, i + 1);
            return version, next, Some(Rejected);
          }
          version, next := r.value, next + 1;
        }
        i := i + 1;
      }
      assert metrics[..i] == metrics;
      error := None;
    }

    /** One attempt. */
    method TryOnce(key: string, fingerprint: string, metrics: seq<Metric>, fault: Fault) returns (reply: Reply)
      modifies this
      ensures AllOrNothing(fits, old(View()), View(), key, fingerprint, metrics)
      ensures reply == Done(true) ==> AppliedOnce(fits, old(View()), View(), key, fingerprint, metrics)
      ensures reply == Done(false) ==> key in old(receipts) && old(receipts)[key] == fingerprint
      ensures reply == Conflict ==> key in old(receipts) && old(receipts)[key] != fingerprint
      ensures reply == Rejected ==> key !in old(receipts) && ApplyRows(fits, old(rows), metrics).None?
      ensures reply.Broken? ==> fault != Clean && reply.retriable == fault.retriable
      ensures reply.Broken? && View() != old(View()) ==> fault.ReplyLost?
      ensures reply.Broken? && fault.ReplyLost? ==> AppliedOnce(fits, old(View()), View(), key, fingerprint, metrics)
    {
      if Fault0(fault, 0) || Fault0(fault, 1) || Fault0(fault, 2) {
        return Broken(fault.retriable);
      }
      if key in receipts {
        if Fault0(fault, 3) {
          return Broken(fault.retriable);
        }
        return if receipts[key] != fingerprint then Conflict else Done(false);
      }
      var version, next, error := UpdateMetricsTx(metrics, fault, 3);
      if error.Some? {
        return error.value;
      }
      if Fault0(fault, next) {
        return Broken(fault.retriable);
      }
      rows, receipts := version, receipts[key := fingerprint];
      return if fault.ReplyLost? then Broken(fault.retriable) else Done(true);
    }

    /** All attempts, faults(k) being what goes wrong in the k-th. The batch takes effect at most once over all of them, and
        under a new key it does so exactly if the last attempt says so or some commit reply was lost; success means that
        the receipt is there; a conflict is never with the call's own earlier attempt. A success under a new key
        reports applied exactly if no commit reply was lost before. */
    method UpdateMetricsOnce(key: string, fingerprint: string, metrics: seq<Metric>, faults: nat -> Fault)
        returns (reply: Reply, attempts: nat)
      modifies this
      ensures 1 <= attempts <= MAX_ATTEMPTS
      ensures AllOrNothing(fits, old(View()), View(), key, fingerprint, metrics)
      ensures reply.Done? ==> key in receipts && receipts[key] == fingerprint
      ensures reply == Done(true) ==> AppliedOnce(fits, old(View()), View(), key, fingerprint, metrics)
      ensures reply.Done? && key !in old(receipts) ==> (reply == Done(true) <==> NoneLost(faults, attempts - 1))
      ensures key !in old(receipts) && reply != Rejected ==>
        (View() != old(View()) <==> reply == Done(true) || !NoneLost(faults, attempts))
      ensures reply == Conflict ==> key in old(receipts) && old(receipts)[key] != fingerprint
      ensures reply == Rejected ==> View() == old(View()) && ApplyRows(fits, rows, metrics).None?
      ensures AllRetriable(faults, attempts - 1) && (reply == Broken(true) ==> attempts == 4)
      ensures faults(attempts - 1) == Clean ==> !reply.Broken?
      ensures reply.Broken? ==> faults(attempts - 1) != Clean && reply.retriable == faults(attempts - 1).retriable
    {
      reply := TryOnce(key, fingerprint, metrics, faults(0));
      attempts := 1;
      var i := 0;
      while i < |DELAYS| && Retries(reply)
        invariant 0 <= i <= |DELAYS| && attempts == i + 1
        invariant AllOrNothing(fits, old(View()), View(), key, fingerprint, metrics)
        invariant reply.Done? ==> key in receipts && receipts[key] == fingerprint
        invariant reply == Done(true) ==> AppliedOnce(fits, old(View()), View(), key, fingerprint, metrics)
        invariant reply == Conflict ==> key in old(receipts) && old(receipts)[key] != fingerprint
        invariant reply == Rejected ==> View() == old(View()) && ApplyRows(fits, rows, metrics).None?
        invariant reply.Broken? ==> faults(i) != Clean && reply.retriable == faults(i).retriable
        invariant AllRetriable(faults, i)
        invariant key !in old(receipts) && reply.Broken? ==> (key in receipts <==> !NoneLost(faults, i + 1))
        invariant key !in old(receipts) && reply.Done? ==> (reply == Done(true) <==> NoneLost(faults, i))
      {
        reply := TryOnce(key, fingerprint, metrics, faults(i + 1));
        i, attempts := i + 1, attempts + 1;
      }
    }

    /** A batch without a key has no receipt, so every attempt whose commit took effect counts: once for each lost
        reply, and once more for an attempt that succeeded. */
    method UpdateMetrics(metrics: seq<Metric>, faults: nat -> Fault) returns (reply: Reply, attempts: nat, ghost times: nat)
      modifies this`rows
      ensures 1 <= attempts <= MAX_ATTEMPTS && times <= attempts
      ensures Repeated(fits, old(rows), metrics, times) == Some(rows)
      ensures times == Lost(faults, attempts - 1) + if TookEffect(reply, faults(attempts - 1)) then 1 else 0
      ensures AllRetriable(faults, attempts - 1) && (reply == Broken(true) ==> attempts == 4)
      ensures reply.Broken? ==> faults(attempts - 1) != Clean && reply.retriable == faults(attempts - 1).retriable
    {
      reply, attempts, times := Broken(true), 0, 0;
      while attempts < MAX_ATTEMPTS && Retries(reply)
        invariant attempts <= MAX_ATTEMPTS && times <= attempts && (attempts == 0 ==> Retries(reply) && times == 0)
        invariant Repeated(fits, old(rows), metrics, times) == Some(rows)
        invariant attempts > 0 ==> AllRetriable(faults, attempts - 1)
        invariant attempts > 0 && reply.Broken? ==>
          faults(attempts - 1) != Clean && reply.retriable == faults(attempts - 1).retriable
        invariant attempts > 0 ==>
          times == Lost(faults, attempts - 1) + if TookEffect(reply, faults(attempts - 1)) then 1 else 0
        decreases MAX_ATTEMPTS - attempts
      {
        var fault := faults(attempts);
        attempts := attempts + 1;
        if Fault0(fault, 0) {
          reply := Broken(fault.retriable);
        } else {
          var version, next, error := UpdateMetricsTx(metrics, fault, 1);
          if error.Some? {
            reply := error.value;
          } else if Fault0(fault, next) {
            reply := Broken(fault.retriable);
          } else {
            rows, times := version, times + 1;
            reply := if fault.ReplyLost? then Broken(fault.retriable) else Done(true);
          }
        }
      }
    }

    /** fault says that the query failed and its retries too; an error and an absent metric look alike. */
    method GetGauge(name: string, fault: bool) returns (value: Float, ok: bool)
      ensures ok <==> !fault && name in AllGauges(rows)
      ensures ok ==> value == AllGauges(rows)[name]
    {
      if fault || name !in rows || rows[name].kind != Gauge || rows[name].gauge.None? {
        return Finite(0.0), false;
      }
      return rows[name].gauge.value, true;
    }

    method GetCounter(name: string, fault: bool) returns (value: int64, ok: bool)
      ensures ok <==> !fault && name in AllCounters(rows)
      ensures value == if ok then AllCounters(rows)[name] else 0
    {
      if fault || name !in rows || rows[name].kind != Counter || rows[name].counter.None? {
        return 0, false;
      }
      return rows[name].counter.value, true;
    }

    /** The rows come in any order; the loop keeps those that the query selects. */
    method GetAllGauges(fault: bool) returns (gauges: map<string, Float>)
      ensures gauges == if fault then map[] else AllGauges(rows)
    {
      gauges := map[];
      if fault {
        return;
      }
      var rest := rows.Keys;
      while rest != {}
        invariant rest <= rows.Keys && gauges.Keys == AllGauges(rows).Keys - rest
        invariant forall name | name in gauges :: gauges[name] == AllGauges(rows)[name]
        decreases |rest|
      {
        var name :| name in rest;
        if rows[name].kind == Gauge && rows[name].gauge.Some? {
          gauges := gauges[name := rows[name].gauge.value];
        }
        rest := rest - {name};
      }
    }

    method GetAllCounters(fault: bool) returns (counters: map<string, int64>)
      ensures counters == if fault then map[] else AllCounters(rows)
    {
      counters := map[];
      if fault {
        return;
      }
      var rest := rows.Keys;
      while rest != {}
        invariant rest <= rows.Keys && counters.Keys == AllCounters(rows).Keys - rest
        invariant forall name | name in counters :: counters[name] == AllCounters(rows)[name]
        decreases |rest|
      {
        var name :| name in rest;
        if rows[name].kind == Counter && rows[name].counter.Some? {
          counters := counters[name := rows[name].counter.value];
        }
        rest := rest - {name};
      }
    }
  }

  /** metrics applied to t so many times. */
  function Repeated(fits: Names, t: Table, metrics: seq<Metric>, times: nat): Option<Table> {
    if times == 0 then Some(t)
    else
      var r := Repeated(fits, t, metrics, times - 1);
      if r.None? then None else ApplyRows(fits, r.value, metrics)
  }

  // ---------------------------------------------------------------- an attempt is a stretch of the interleaving

  /** The committed state is what the storage holds. */
  ghost predicate Matches(storage: Storage, c: Config, db: Db)
    reads storage
  {
    storage.rows == db.rows && storage.receipts == db.receipts && storage.fits == c.fits
  }

  /** What the reply tells the caller. */
  function Told(reply: Reply, b: Batch): seq<Answer> {
    match reply
    case Done(applied) => [if applied then Took(b) else Known(b)]
    case Conflict => [Refused(b)]
    case _ => []
  }

  predicate Commits(reply: Reply, fault: Fault) { reply == Done(true) || (reply.Broken? && fault.ReplyLost?) }

  /** The steps of an attempt that was answered in this way. */
  function StepsOf(t: nat, b: Batch, reply: Reply, fault: Fault): seq<Event> {
    if Commits(reply, fault) then Statements(t, b, |b.metrics|) + [Commit(t, reply.Broken?)]
    else if reply.Done? || reply == Conflict then Statements(t, b, 0)
    else [Begin(t, b), Abort(t)]
  }

  /** An attempt with nothing in its way does what the transaction t can do among the others, gives the answer that is
      recorded there, and leaves the committed state of the interleaving. */
  method TryOnceRefines(storage: Storage, c: Config, ghost db: Db, t: nat, key: string, metrics: seq<Metric>, fault: Fault)
      returns (reply: Reply, ghost z: Db)
    requires Matches(storage, c, db) && key != "" && NoneInTheWay(db, t, AgentProtocol.Batch(key, metrics))
    modifies storage
    ensures Matches(storage, c, z)
    ensures var b := AgentProtocol.Batch(key, metrics);
      && After(c, db, StepsOf(t, b, reply, fault)) == Some(z)
      && z.answers == db.answers + Told(reply, b)
      && z.commits == db.commits + (if Commits(reply, fault) then [b] else [])
  {
    ghost var b := AgentProtocol.Batch(key, metrics);
    reply := storage.TryOnce(key, c.fingerprint(metrics), metrics, fault);
    if Commits(reply, fault) {
      var _ := CommitStretch(c, db, t, b, reply.Broken?);
    } else if reply.Done? || reply == Conflict {
      InsertStretch(c, db, t, b);
    } else {
      AbortStretch(c, db, t, b);
    }
    z := After(c, db, StepsOf(t, b, reply, fault)).value;
  }
}
