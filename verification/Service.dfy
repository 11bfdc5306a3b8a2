/** The service layer over the in-memory repository: receipts, saves and acknowledgement in order
    (internal/service/metrics.go, internal/service/persistence.go, internal/delivery/delivery.go). */
module Service {
  import opened Metrics
  import opened Snapshots
  import opened MemoryStorage
  import opened AgentProtocol
  import opened ServerProtocol

  const MAX_KEY: nat := 128

  predicate KeyChar(c: char) {
    'a' <= c <= 'z' || 'A' <= c <= 'Z' || '0' <= c <= '9' || c == '-' || c == '_' || c == '.'
  }

  predicate IsKey(key: string) {
    1 <= |key| <= MAX_KEY && forall i | 0 <= i < |key| :: KeyChar(key[i])
  }

  method ValidKey(key: string) returns (ok: bool)
    ensures ok <==> IsKey(key)
    ensures ok <==> 1 <= |key| <= 128 && forall c | c in key ::
      'a' <= c <= 'z' || 'A' <= c <= 'Z' || '0' <= c <= '9' || c == '-' || c == '_' || c == '.'
  {
    if |key| == 0 || |key| > MAX_KEY {
      return false;
    }
    var i := 0;
    while i < |key|
      invariant 0 <= i <= |key| && forall j | 0 <= j < i :: KeyChar(key[j])
    {
      if !KeyChar(key[i]) {
        assert key[i] in key;
        return false;
      }
      i := i + 1;
    }
    return true;
  }

  /** Saves of one storage into one file. The ticker goroutine is in module Shutdown; here once and err are what
      close leaves behind. */
  class Persistence {
    const storage: MemStorage
    const disk: Disk
    var once: bool
    var err: bool

    constructor (storage: MemStorage, disk: Disk)
      ensures this.storage == storage && this.disk == disk && !once
    {
      this.storage, this.disk, once, err := storage, disk, false, false;
    }

    method Save(fault: bool) returns (ok: bool)
      modifies disk
      ensures ok <==> !fault && AllFinite(storage.View().maps)
      ensures ok ==> disk.content.Some? && IsFileSnapshot(disk.content.value, storage.View())
      ensures !ok ==> disk.content == old(disk.content)
    {
      ok := storage.SaveToFile(disk, fault);
    }

    /** The first call saves; every later call repeats its answer and leaves the file alone. */
    method Close(fault: bool) returns (ok: bool)
      modifies this, disk
      ensures once && ok == !err
      ensures old(once) ==> err == old(err) && disk.content == old(disk.content)
      ensures !old(once) && ok ==> disk.content.Some? && IsFileSnapshot(disk.content.value, storage.View())
      ensures !old(once) && !ok ==> disk.content == old(disk.content)
    {
      if !once {
        once := true;
        var saved := Save(fault);
        err := !saved;
      }
      return !err;
    }
  }

  datatype ServiceError = Nil | InvalidKey | NoFingerprint | ConflictingKey | SaveFailed

  /** The protocol's update step for a request that gets past the service's own checks. */
  function Step(img: Image, key: string, fingerprint: seq<Metric> -> string, xs: seq<Metric>): (Image, Verdict) {
    Update(Config(fingerprint, true), img, Batch(key, xs))
  }

  /** A keyed batch needs a fingerprint, which is computed from its JSON form. */
  predicate Admitted(key: string, xs: seq<Metric>) { xs != [] && (key == "" || (IsKey(key) && FiniteValues(xs))) }

  /** Memory after UpdateMetricsOnce, whatever happens to the save that follows. */
  function Stored(img: Image, key: string, fingerprint: seq<Metric> -> string, xs: seq<Metric>): Image {
    if Admitted(key, xs) then Step(img, key, fingerprint, xs).0 else img
  }

  /** Whether the call gets as far as the save. */
  predicate GetsToSave(img: Image, key: string, fingerprint: seq<Metric> -> string, xs: seq<Metric>) {
    Admitted(key, xs) && Step(img, key, fingerprint, xs).1 != Conflict
  }

  class MetricsService {
    const repo: MemStorage
    const persistence: Persistence
    const saveOnUpdate: bool
    const fingerprint: seq<Metric> -> string

    ghost predicate Valid() { persistence.storage == repo }

    /** The file holds a snapshot of memory. */
    ghost predicate FileIsCurrent()
      reads repo, persistence.disk
    {
      persistence.disk.content.Some? && IsFileSnapshot(persistence.disk.content.value, repo.View())
    }

    constructor (repo: MemStorage, persistence: Persistence, interval: nat, fingerprint: seq<Metric> -> string)
      requires persistence.storage == repo
      ensures Valid() && this.repo == repo && this.persistence == persistence && this.fingerprint == fingerprint
      ensures saveOnUpdate <==> interval == 0
    {
      this.repo, this.persistence, this.fingerprint := repo, persistence, fingerprint;
      saveOnUpdate := interval == 0;
    }

    method Save(fault: bool) returns (ok: bool)
      requires Valid()
      modifies persistence.disk
      ensures !saveOnUpdate ==> ok && persistence.disk.content == old(persistence.disk.content)
      ensures !ok ==> persistence.disk.content == old(persistence.disk.content)
      ensures saveOnUpdate ==> ok == (!fault && AllFinite(repo.View().maps))
      ensures saveOnUpdate && ok ==> FileIsCurrent()
    {
      if saveOnUpdate {
        ok := persistence.Save(fault);
      } else {
        ok := true;
      }
    }

    /** Nil is returned only for updates that are in memory and, when every update is saved, also in the file.
        A duplicate is saved again; an unusable or conflicting key, and a keyed batch with a value that is not finite,
        change nothing at all. */
    method UpdateMetricsOnce(key: string, metrics: seq<Metric>, fault: bool) returns (applied: bool, err: ServiceError)
      requires Valid()
      modifies repo, persistence.disk
      ensures repo.View() == Stored(old(repo.View()), key, fingerprint, metrics)
      ensures applied <==> Admitted(key, metrics) && Step(old(repo.View()), key, fingerprint, metrics).1 == Applied
      ensures err == InvalidKey <==> metrics != [] && key != "" && !IsKey(key)
      ensures err == NoFingerprint <==> metrics != [] && IsKey(key) && !FiniteValues(metrics)
      ensures err == ConflictingKey <==>
        Admitted(key, metrics) && Step(old(repo.View()), key, fingerprint, metrics).1 == Conflict
      ensures err == SaveFailed <==>
        GetsToSave(old(repo.View()), key, fingerprint, metrics) && saveOnUpdate && (fault || !AllFinite(repo.View().maps))
      ensures err == Nil && saveOnUpdate && metrics != [] ==> FileIsCurrent()
      ensures metrics == [] || err != Nil || !saveOnUpdate ==>
        persistence.disk.content == old(persistence.disk.content)
    {
      if metrics == [] {
        return false, Nil;
      }
      if key == "" {
        repo.UpdateMetrics(metrics);
        var saved := Save(fault);
        return true, if saved then Nil else SaveFailed;
      }
      var valid := ValidKey(key);
      if !valid {
        return false, InvalidKey;
      }
      if !FiniteValues(metrics) {
        return false, NoFingerprint;
      }
      var conflict;
      applied, conflict := repo.UpdateMetricsOnce(key, fingerprint(metrics), metrics);
      if conflict {
        return false, ConflictingKey;
      }
      var saved := Save(fault);
      return applied, if saved then Nil else SaveFailed;
    }
  }

  /** A restart that finds the file of the protocol's server has its memory after the crash: what the file holds, and
      nothing at all without one. A file that cannot be read or parsed keeps the server down. */
  method RestartRefines(disk: Disk, c: Config, ghost s: Server, fault: bool) returns (storage: MemStorage?)
    requires disk.content == s.disk
    ensures storage == null <==> fault
    ensures storage != null ==> fresh(storage) && storage.View() == ServerNext(c, s, Crash).img
    ensures storage != null && disk.content.None? ==>
      storage.gauges == map[] && storage.counters == map[] && storage.receipts == map[]
    ensures storage != null && disk.content.Some? ==> storage.View() == Load(disk.content.value)
  {
    storage := MemStorage.NewMemStorageWithRestore(disk, true, fault);
  }

  /** A retry after a failed save: the batch is not applied again, nothing is audited for it, and once the save
      works the file restores to memory with the batch counted once. */
  method RetryAfterFailedSave(service: MetricsService, key: string, metrics: seq<Metric>)
      returns (first: ServiceError, applied: bool, second: ServiceError)
    requires service.Valid() && service.saveOnUpdate && IsKey(key) && Acceptable(metrics) && FiniteValues(metrics)
    requires key !in service.repo.receipts
    requires AllFinite(service.repo.View().maps)
    requires service.repo.receipts != map[] ==> service.repo.View().maps != EMPTY
    modifies service.repo, service.persistence.disk
    ensures first == SaveFailed && !applied && second == Nil
    ensures service.repo.View().maps == ApplyAll(old(service.repo.View().maps), metrics)
    ensures service.persistence.disk.content.Some?
      && Load(service.persistence.disk.content.value) == service.repo.View()
  {
    ghost var before := service.repo.View();
    var done;
    done, first := service.UpdateMetricsOnce(key, metrics, true);
    applied, second := service.UpdateMetricsOnce(key, metrics, false);
    AcceptedStaysFinite(before.maps, metrics);
    AcceptedIsNotEmpty(before.maps, metrics);
    RestoreRoundTrip(service.persistence.disk.content.value, service.repo.View());
  }

  /** A batch that passed validation leaves something behind to carry its receipt. */
  lemma AcceptedIsNotEmpty(m: Maps, xs: seq<Metric>)
    requires Acceptable(xs)
    ensures ApplyAll(m, xs) != EMPTY
  {
    var x := xs[0];
    assert x in xs && Valid(x);
    ApplyCounters(m, xs, x.id);
    ApplyGauges(m, xs, x.id);
    assert UsesGauge(xs, x.id) || UsesCounter(xs, x.id);
  }

  /** The batch routes let only finite gauges through, but the URL route parses "NaN" and "Inf". After it, no snapshot
      can be written until the gauge gets a finite value, and one can exactly if all the other gauges are finite. */
  lemma GaugeRouteCanBlockSaves(img: Image, name: string, v: Float, rs: seq<Record>)
    requires IsFileSnapshot(rs, img.(maps := ApplyOne(img.maps, GaugeMetric(name, v))))
    ensures Encodable(rs) <==> v.Finite? && forall n | n in img.maps.gauges && n != name :: img.maps.gauges[n].Finite?
  {
    var after := img.(maps := ApplyOne(img.maps, GaugeMetric(name, v)));
    EncodableIff(rs, after);
    assert name in after.maps.gauges;
    assert forall n | n in img.maps.gauges && n != name ::
      n in after.maps.gauges && after.maps.gauges[n] == img.maps.gauges[n];
  }

  // ---------------------------------------------------------------- a call is a stretch of the protocol

  /** The protocol's state is what the service holds. */
  ghost predicate Matches(service: MetricsService, c: Config, s: Server)
    reads service.repo, service.persistence.disk
  {
    && service.repo.View() == s.img && service.persistence.disk.content == s.disk
    && service.fingerprint == c.fingerprint && service.saveOnUpdate == c.sync
  }

  /** What the handler t does up to the end of its save. */
  function SaveSteps(t: nat, b: Batch, records: seq<Record>, ok: bool): seq<ServerEvent> {
    [Handle(t, b)] + [BeginSave(Some(t), records)] + [EndSave(ok)]
  }

  /** What it does in a call that ends with err; records is what its save writes. */
  function StepsOf(sync: bool, t: nat, b: Batch, err: ServiceError, records: seq<Record>): seq<ServerEvent> {
    match err
    case InvalidKey => []
    case NoFingerprint => []
    case ConflictingKey => [Handle(t, b)]
    case SaveFailed => SaveSteps(t, b, records, false)
    case Nil => (if sync then SaveSteps(t, b, records, true) else [Handle(t, b)]) + [Reply(t)]
  }

  /** Handle from s, if it leaves a handler. */
  predicate Handled(c: Config, s: Server, t: nat, b: Batch) {
    && t !in s.handlers && Acceptable(b.metrics) && (b.id == "" || FiniteValues(b.metrics))
    && Update(c, s.img, b).1 != Conflict
  }

  lemma HandleStretch(c: Config, s: Server, t: nat, b: Batch)
    requires t !in s.handlers && Acceptable(b.metrics) && (b.id == "" || FiniteValues(b.metrics))
    ensures ServerAfter(c, s, [Handle(t, b)]) == Some(AfterHandle(c, s, t, b))
  {
    ServerAfterOne(c, s, [], Handle(t, b));
    assert [] + [Handle(t, b)] == [Handle(t, b)];
  }

  lemma SaveStretch(c: Config, s: Server, t: nat, b: Batch, records: seq<Record>, ok: bool)
    requires Handled(c, s, t, b) && c.sync && s.saver == NoSave && IsFileSnapshot(records, Update(c, s.img, b).0)
    requires ok ==> Encodable(records)
    ensures ServerAfter(c, s, SaveSteps(t, b, records, ok)) == Some(AfterSave(c, s, t, b, records, ok))
  {
    HandleStretch(c, s, t, b);
    ServerAfterOne(c, s, [Handle(t, b)], BeginSave(Some(t), records));
    ServerAfterOne(c, s, [Handle(t, b)] + [BeginSave(Some(t), records)], EndSave(ok));
  }

  /** The state after the handler's save. */
  function AfterSave(c: Config, s: Server, t: nat, b: Batch, records: seq<Record>, ok: bool): (z: Server)
    requires Handled(c, s, t, b)
    ensures c.sync && ok ==> t in z.handlers && z.handlers[t].stage == Stage.Saved
  {
    AfterEndSave(AfterBeginSave(AfterHandle(c, s, t, b), Some(t), records), ok)
  }

  /** What the protocol makes of a call that got as far as the save. */
  function Ended(c: Config, s: Server, t: nat, b: Batch, err: ServiceError, records: seq<Record>): Server
    requires Handled(c, s, t, b)
  {
    var h := AfterHandle(c, s, t, b);
    var saved := if c.sync then AfterSave(c, s, t, b, records, err == Nil) else h;
    if err == Nil then AfterReply(saved, t) else saved
  }

  lemma CallStretch(c: Config, s: Server, t: nat, b: Batch, err: ServiceError, records: seq<Record>)
    requires Handled(c, s, t, b) && s.saver == NoSave && (err == Nil || (err == SaveFailed && c.sync))
    requires c.sync ==> IsFileSnapshot(records, Update(c, s.img, b).0) && (err == Nil ==> Encodable(records))
    ensures ServerAfter(c, s, StepsOf(c.sync, t, b, err, records)) == Some(Ended(c, s, t, b, err, records))
  {
    if c.sync {
      SaveStretch(c, s, t, b, records, err == Nil);
      if err == Nil {
        ReplyStretch(c, s, SaveSteps(t, b, records, true), t);
      }
    } else {
      HandleStretch(c, s, t, b);
      ReplyStretch(c, s, [Handle(t, b)], t);
    }
  }

  lemma ReplyStretch(c: Config, s: Server, events: seq<ServerEvent>, t: nat)
    requires var m := ServerAfter(c, s, events);
      m.Some? && t in m.value.handlers && m.value.handlers[t].stage == Stage.Saved
    ensures ServerAfter(c, s, events + [Reply(t)]) == Some(AfterReply(ServerAfter(c, s, events).value, t))
  {
    ServerAfterOne(c, s, events, Reply(t));
  }

  /** The end of the call: the handler is gone, with an acknowledgement and its audit event exactly if err is Nil. */
  lemma EndedMatches(c: Config, s: Server, t: nat, b: Batch, err: ServiceError, records: seq<Record>)
    requires Handled(c, s, t, b) && s.saver == NoSave && (err == Nil || (err == SaveFailed && c.sync))
    ensures var z := Ended(c, s, t, b, err, records);
      && z.img == Update(c, s.img, b).0 && z.handlers == s.handlers && z.saver == NoSave
      && z.disk == (if err == Nil && c.sync then Some(records) else s.disk)
      && z.replied == s.replied + (if err == Nil then {b.id} else {})
      && z.audits == s.audits + (if err == Nil && Update(c, s.img, b).1 == Applied then [b.id] else [])
  {
    var h := AfterHandle(c, s, t, b);
    assert h.handlers - {t} == s.handlers;
  }

  /** UpdateMetricsOnce, called in a state that matches, with the save mutex free, leaves a state that matches one the
      protocol reaches by the steps of one handler. It is acknowledged there exactly if the answer is Nil, and audited
      exactly if the batch was then applied. */
  method UpdateMetricsOnceRefines(service: MetricsService, c: Config, ghost s: Server, t: nat, key: string,
                                  metrics: seq<Metric>, fault: bool)
      returns (applied: bool, err: ServiceError, ghost records: seq<Record>, ghost z: Server)
    requires service.Valid() && Matches(service, c, s) && t !in s.handlers && s.saver == NoSave && Acceptable(metrics)
    modifies service.repo, service.persistence.disk
    ensures ServerAfter(c, s, StepsOf(c.sync, t, Batch(key, metrics), err, records)) == Some(z) && Matches(service, c, z)
    ensures z.handlers == s.handlers && z.saver == NoSave
    ensures z.replied == s.replied + (if err == Nil then {key} else {})
    ensures z.audits == s.audits + (if err == Nil && applied then [key] else [])
  {
    ghost var b := Batch(key, metrics);
    applied, err := service.UpdateMetricsOnce(key, metrics, fault);
    if err == InvalidKey || err == NoFingerprint {
      records, z := [], s;
    } else if err == ConflictingKey {
      records, z := [], s;
      HandleStretch(c, s, t, b);
    } else {
      assert Handled(c, s, t, b);
      records := WrittenRecords(service, err);
      z := Ended(c, s, t, b, err, records);
      CallStretch(c, s, t, b, err, records);
      EndedMatches(c, s, t, b, err, records);
    }
  }

  /** The snapshot of a save: what the file now holds, or what it would have held. */
  lemma WrittenRecords(service: MetricsService, err: ServiceError) returns (records: seq<Record>)
    requires service.saveOnUpdate && err == Nil ==> service.FileIsCurrent() && AllFinite(service.repo.View().maps)
    ensures IsFileSnapshot(records, service.repo.View())
    ensures service.saveOnUpdate && err == Nil ==>
      service.persistence.disk.content == Some(records) && Encodable(records)
  {
    if service.saveOnUpdate && err == Nil {
      records := service.persistence.disk.content.value;
      EncodableIff(records, service.repo.View());
    } else {
      records := SomeSnapshot(service.repo.View());
    }
  }
}
