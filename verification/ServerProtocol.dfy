/** The server as a step relation: request handlers, the storage mutex, serialized saves, and restart from the
    storage file (internal/service/metrics.go, internal/service/persistence.go, internal/repository). */
module ServerProtocol {
  import opened Metrics
  import opened Snapshots
  import opened AgentProtocol

  /** sync is a store interval of zero: every update saves before it is acknowledged. */
  datatype Config = Config(fingerprint: seq<Metric> -> string, sync: bool)

  datatype Stage = Unsaved | InSave | Saved

  /** A request past UpdateMetricsOnce of the repository; applied is what that call returned. */
  datatype Handler = Handler(request: Batch, applied: bool, stage: Stage)

  /** The holder of the save mutex: the snapshot it took, of the first version updates, and for which handler. */
  datatype Saver = NoSave | Saving(version: nat, records: seq<Record>, owner: Option<nat>)

  /** Handlers are keyed by goroutine. log lists the updates that memory reflects, durable counts those of
      them the file reflects; audits, replied and crashed record history. */
  datatype Server = Server(
    img: Image, disk: Option<seq<Record>>, handlers: map<nat, Handler>, saver: Saver,
    log: seq<Batch>, durable: nat, audits: seq<string>, replied: set<string>, crashed: bool)

  datatype ServerEvent =
    | Handle(t: nat, request: Batch)
    | BeginSave(owner: Option<nat>, records: seq<Record>)
    | EndSave(ok: bool)
    | Reply(t: nat)
    | Crash

  const COLD: Server := Server(BLANK, None, map[], NoSave, [], 0, [], {}, false)

  /** What the HTTP and gRPC validation lets through to the service. */
  predicate Acceptable(xs: seq<Metric>) {
    xs != [] && AllValid(xs)
  }

  ghost predicate ServerEnabled(c: Config, s: Server, e: ServerEvent) {
    match e
    case Handle(t, b) => t !in s.handlers && Acceptable(b.metrics) && (b.id == "" || FiniteValues(b.metrics))
    case BeginSave(owner, records) =>
      s.saver == NoSave && IsFileSnapshot(records, s.img)
      && (owner.Some? ==> owner.value in s.handlers && s.handlers[owner.value].stage == Unsaved)
    case EndSave(ok) => s.saver.Saving? && (ok ==> Encodable(s.saver.records))
    case Reply(t) => t in s.handlers && s.handlers[t].stage == Saved
    case Crash => true
  }

  function Update(c: Config, img: Image, b: Batch): (Image, Verdict) {
    if b.id == "" then (img.(maps := ApplyAll(img.maps, b.metrics)), Applied)
    else ApplyOnce(img, b.id, c.fingerprint(b.metrics), b.metrics)
  }

  /** The repository call. A conflicting key is answered with an error at once and leaves no handler. */
  function AfterHandle(c: Config, s: Server, t: nat, b: Batch): Server {
    var (img, verdict) := Update(c, s.img, b);
    if verdict == Conflict then s
    else
      s.(img := img, log := if verdict == Applied then s.log + [b] else s.log,
         handlers := s.handlers[t := Handler(b, verdict == Applied, if c.sync then Unsaved else Saved)])
  }

  function WithStage(s: Server, t: nat, stage: Stage): map<nat, Handler>
    requires t in s.handlers
  {
    s.handlers[t := s.handlers[t].(stage := stage)]
  }

  /** persistence.save up to its snapshot; owner is None for the ticker and for the final save. */
  function AfterBeginSave(s: Server, owner: Option<nat>, records: seq<Record>): Server
    requires owner.Some? ==> owner.value in s.handlers
  {
    s.(saver := Saving(|s.log|, records, owner),
       handlers := if owner.Some? then WithStage(s, owner.value, InSave) else s.handlers)
  }

  /** The rename, or the failure of any step before it; a handler whose save failed answers with an error. */
  function AfterEndSave(s: Server, ok: bool): Server
    requires s.saver.Saving?
  {
    var owner := s.saver.owner;
    var mine := owner.Some? && owner.value in s.handlers;
    if ok then
      s.(disk := Some(s.saver.records), durable := s.saver.version, saver := NoSave,
         handlers := if mine then WithStage(s, owner.value, Saved) else s.handlers)
    else
      s.(saver := NoSave, handlers := if mine then s.handlers - {owner.value} else s.handlers)
  }

  /** The audit event of an applied batch, then the acknowledgement. */
  function AfterReply(s: Server, t: nat): Server
    requires t in s.handlers
  {
    var h := s.handlers[t];
    s.(handlers := s.handlers - {t},
       audits := if h.applied then s.audits + [h.request.id] else s.audits,
       replied := s.replied + {h.request.id})
  }

  function DiskImage(disk: Option<seq<Record>>): Image {
    if disk.Some? then Load(disk.value) else BLANK
  }

  /** Loss of everything but the file, and a restart that restores it. */
  function AfterCrash(s: Server): Server {
    s.(img := DiskImage(s.disk), handlers := map[], saver := NoSave, crashed := true,
       log := if s.durable <= |s.log| then s.log[..s.durable] else s.log)
  }

  ghost function ServerNext(c: Config, s: Server, e: ServerEvent): Server
    requires ServerEnabled(c, s, e)
  {
    match e
    case Handle(t, b) => AfterHandle(c, s, t, b)
    case BeginSave(owner, records) => AfterBeginSave(s, owner, records)
    case EndSave(ok) => AfterEndSave(s, ok)
    case Reply(t) => AfterReply(s, t)
    case Crash => AfterCrash(s)
  }

  /** The state that the events lead to from s, or None if one of them cannot happen. */
  ghost function ServerAfter(c: Config, s: Server, events: seq<ServerEvent>): Option<Server> {
    if events == [] then Some(s)
    else
      var r := ServerAfter(c, s, events[..|events| - 1]);
      if r.None? || !ServerEnabled(c, r.value, events[|events| - 1]) then None
      else Some(ServerNext(c, r.value, events[|events| - 1]))
  }

  lemma ServerAfterOne(c: Config, s: Server, events: seq<ServerEvent>, e: ServerEvent)
    requires ServerAfter(c, s, events).Some? && ServerEnabled(c, ServerAfter(c, s, events).value, e)
    ensures ServerAfter(c, s, events + [e]) == Some(ServerNext(c, ServerAfter(c, s, events).value, e))
  {
    assert (events + [e])[..|events|] == events;
  }

  // ---------------------------------------------------------------- replaying an update history

  function Replay(c: Config, log: seq<Batch>): Image {
    if log == [] then BLANK
    else
      var img, b := Replay(c, log[..|log| - 1]), log[|log| - 1];
      Image(ApplyAll(img.maps, b.metrics),
            if b.id == "" then img.receipts else img.receipts[b.id := c.fingerprint(b.metrics)])
  }

  /** The idempotency keys of a history. */
  function Keys(log: seq<Batch>): set<string> {
    if log == [] then {} else Keys(log[..|log| - 1]) + KeyOf(log[|log| - 1])
  }

  function KeyOf(b: Batch): set<string> { if b.id == "" then {} else {b.id} }

  lemma {:induction false} KeysMember(log: seq<Batch>, id: string)
    ensures id in Keys(log) <==> id != "" && exists i :: 0 <= i < |log| && log[i].id == id
  {
    if log != [] {
      var n := |log| - 1;
      KeysMember(log[..n], id);
      if i :| 0 <= i < |log| && log[i].id == id {
        if i < n { assert log[..n][i].id == id; }
      }
    }
  }

  lemma KeysAppend(log: seq<Batch>, b: Batch)
    ensures Keys(log + [b]) == Keys(log) + KeyOf(b)
  {
    assert (log + [b])[..|log|] == log;
  }

  lemma {:induction false} KeysPrefix(log: seq<Batch>, j: nat, k: nat)
    requires j <= k <= |log|
    ensures Keys(log[..j]) <= Keys(log[..k]) <= Keys(log)
    decreases |log|
  {
    if k == |log| {
      assert log[..k] == log;
      if j < |log| {
        KeysPrefix(log[..|log| - 1], j, |log| - 1);
        assert log[..|log| - 1][..j] == log[..j];
      }
    } else {
      KeysPrefix(log[..|log| - 1], j, k);
      assert log[..|log| - 1][..j] == log[..j] && log[..|log| - 1][..k] == log[..k];
    }
  }

  predicate LogOk(log: seq<Batch>) {
    && (forall b | b in log :: Acceptable(b.metrics))
    && (forall i, j | 0 <= i < j < |log| && log[i].id != "" :: log[i].id != log[j].id)
  }

  /** Receipts are kept for exactly the keyed updates, and each is the fingerprint of what was applied. */
  lemma {:induction false} ReplayReceipts(c: Config, log: seq<Batch>)
    requires LogOk(log)
    ensures Replay(c, log).receipts.Keys == Keys(log)
    ensures forall b | b in log && b.id != "" ::
      b.id in Keys(log) && Replay(c, log).receipts[b.id] == c.fingerprint(b.metrics)
  {
    if log != [] {
      var init, last := log[..|log| - 1], log[|log| - 1];
      assert log == init + [last];
      ReplayReceipts(c, init);
    }
  }

  /** Counters after a history are the sums of all its deltas, modulo 2^64. */
  lemma {:induction false} ReplayCounters(c: Config, log: seq<Batch>, name: string)
    ensures Count(Replay(c, log).maps.counters, name) == Wrap(SumDelta(log, name))
    ensures name in Replay(c, log).maps.counters <==> exists b | b in log :: UsesCounter(b.metrics, name)
  {
    if log != [] {
      var init, last := log[..|log| - 1], log[|log| - 1];
      assert log == init + [last];
      ReplayCounters(c, init, name);
      ApplyCounters(Replay(c, init).maps, last.metrics, name);
      WrapAdd(SumDelta(init, name), Delta(last.metrics, name));
    }
  }

  lemma {:induction false} ReplayGauges(c: Config, log: seq<Batch>, name: string)
    ensures name in Replay(c, log).maps.gauges <==> exists b | b in log :: UsesGauge(b.metrics, name)
  {
    if log != [] {
      var init, last := log[..|log| - 1], log[|log| - 1];
      assert log == init + [last];
      ReplayGauges(c, init, name);
      ApplyGauges(Replay(c, init).maps, last.metrics, name);
    }
  }

  lemma {:induction false} ReplayFinite(c: Config, log: seq<Batch>)
    requires forall b | b in log :: FiniteValues(b.metrics)
    ensures AllFinite(Replay(c, log).maps)
  {
    if log != [] {
      var last := log[|log| - 1];
      assert last in log;
      ReplayFinite(c, log[..|log| - 1]);
      AcceptedStaysFinite(Replay(c, log[..|log| - 1]).maps, last.metrics);
    }
  }

  /** Validated batches are never empty, so receipts never outlive the metrics that carry them in the file. */
  lemma ReplayCarriesReceipts(c: Config, log: seq<Batch>)
    requires LogOk(log)
    ensures Replay(c, log).maps == EMPTY ==> Replay(c, log).receipts == map[]
  {
    if log != [] {
      var b := log[0];
      var x := b.metrics[0];
      assert b in log && x in b.metrics;
      if x.kind == Gauge {
        assert UsesGauge(b.metrics, x.id);
        ReplayGauges(c, log, x.id);
      } else {
        assert UsesCounter(b.metrics, x.id);
        ReplayCounters(c, log, x.id);
      }
    }
  }

  // ---------------------------------------------------------------- what every step keeps

  /** The keys that survive whatever happens next: those in the file when every update is saved first, all
      those in memory as long as nothing crashed. */
  function Kept(c: Config, s: Server): set<string>
    requires s.durable <= |s.log|
  {
    if c.sync then Keys(s.log[..s.durable]) else Keys(s.log)
  }

  /** Acknowledgements are lost only by a crash of a server that does not save first. */
  predicate Trusted(c: Config, s: Server) { c.sync || !s.crashed }

  /** Memory is the replay of the history, the file that of a prefix of it, a running save that of a
      prefix at least as long. */
  ghost predicate StorageOk(c: Config, s: Server) {
    && LogOk(s.log)
    && s.img == Replay(c, s.log)
    && s.durable <= |s.log|
    && DiskImage(s.disk) == Replay(c, s.log[..s.durable])
    && (s.saver.Saving? ==>
          && s.durable <= s.saver.version <= |s.log|
          && IsFileSnapshot(s.saver.records, Replay(c, s.log[..s.saver.version])))
  }

  /** The keys covered by the save in progress. */
  function SavingKeys(s: Server): set<string> {
    if s.saver.Saving? && s.saver.version <= |s.log| then Keys(s.log[..s.saver.version]) else {}
  }

  /** A handler's key is in memory, in the running save, or kept for good, as its stage demands. */
  predicate HandlerOk(h: Handler, live: set<string>, saving: set<string>, kept: set<string>) {
    h.request.id != "" ==>
      && h.request.id in live
      && (h.stage == InSave ==> h.request.id in saving)
      && (h.stage == Saved ==> h.request.id in kept)
  }

  predicate HandlersOk(c: Config, s: Server)
    requires s.durable <= |s.log|
  {
    && (forall t | t in s.handlers :: HandlerOk(s.handlers[t], Keys(s.log), SavingKeys(s), Kept(c, s)))
    && (forall t | t in s.handlers && s.handlers[t].stage == InSave :: s.saver.Saving? && s.saver.owner == Some(t))
    && (s.saver.Saving? && s.saver.owner.Some? ==>
          s.saver.owner.value in s.handlers && s.handlers[s.saver.owner.value].stage == InSave)
  }

  predicate RepliesOk(c: Config, s: Server)
    requires s.durable <= |s.log|
  {
    Trusted(c, s) ==> s.replied - {""} <= Kept(c, s)
  }

  predicate Applying(s: Server, t: nat) {
    t in s.handlers && s.handlers[t].applied && s.handlers[t].request.id != ""
  }

  predicate NoAuditTwice(audits: seq<string>) {
    forall i, j | 0 <= i < j < |audits| && audits[i] != "" :: audits[i] != audits[j]
  }

  /** At most one handler or audit event per key stands for the application of that key. */
  ghost predicate AuditsOk(c: Config, s: Server)
    requires s.durable <= |s.log|
  {
    Trusted(c, s) ==>
      && NoAuditTwice(s.audits)
      && (forall id | id in s.audits && id != "" :: id in Kept(c, s))
      && (forall t, u | Applying(s, t) && Applying(s, u) && t != u ::
            s.handlers[t].request.id != s.handlers[u].request.id)
      && (forall t | Applying(s, t) :: s.handlers[t].request.id !in s.audits)
  }

  ghost predicate ServerInv(c: Config, s: Server) {
    StorageOk(c, s) && HandlersOk(c, s) && RepliesOk(c, s) && AuditsOk(c, s)
  }

  // ---- Handle

  lemma LogAppend(log: seq<Batch>, b: Batch)
    requires LogOk(log) && Acceptable(b.metrics) && b.id !in Keys(log)
    ensures LogOk(log + [b])
  {
    KeysMember(log, b.id);
  }

  /** The receipt decides: a key not in the history is applied, any other leaves the image alone. */
  lemma VerdictOf(c: Config, s: Server, b: Batch)
    requires StorageOk(c, s)
    ensures Update(c, s.img, b).1 == Applied <==> b.id !in Keys(s.log)
    ensures Update(c, s.img, b).1 == Conflict <==>
      exists x :: x in s.log && x.id == b.id != "" && c.fingerprint(x.metrics) != c.fingerprint(b.metrics)
    ensures Update(c, s.img, b).0 == if b.id in Keys(s.log) then s.img else Replay(c, s.log + [b])
  {
    ReplayReceipts(c, s.log);
    KeysMember(s.log, b.id);
    if b.id in Keys(s.log) {
      var i :| 0 <= i < |s.log| && s.log[i].id == b.id;
      assert s.log[i] in s.log;
    }
    assert (s.log + [b])[..|s.log|] == s.log;
  }

  lemma AppendStorage(c: Config, s: Server, b: Batch, s': Server)
    requires StorageOk(c, s) && Acceptable(b.metrics) && b.id !in Keys(s.log)
    requires s'.log == s.log + [b] && s'.img == Replay(c, s.log + [b])
    requires s'.disk == s.disk && s'.durable == s.durable && s'.saver == s.saver
    ensures StorageOk(c, s')
  {
    LogAppend(s.log, b);
    PrefixOfAppend(s.log, b, s.durable);
    if s.saver.Saving? {
      PrefixOfAppend(s.log, b, s.saver.version);
    }
  }

  lemma PrefixOfAppend(log: seq<Batch>, b: Batch, k: nat)
    requires k <= |log|
    ensures (log + [b])[..k] == log[..k]
  {
  }

  /** A new entry in the history leaves every earlier prefix alone and adds its key to the live ones. */
  lemma AppendKeys(c: Config, s: Server, s': Server, b: Batch)
    requires s.durable <= |s.log| && s'.log == s.log + [b] && s'.durable == s.durable && s'.saver == s.saver
    requires s.saver.Saving? ==> s.saver.version <= |s.log|
    ensures Keys(s'.log) == Keys(s.log) + KeyOf(b) && SavingKeys(s') == SavingKeys(s)
    ensures Kept(c, s') == if c.sync then Kept(c, s) else Kept(c, s) + KeyOf(b)
  {
    KeysAppend(s.log, b);
    assert s'.log[..s.durable] == s.log[..s.durable];
    if s.saver.Saving? {
      assert s'.log[..s.saver.version] == s.log[..s.saver.version];
    }
  }

  lemma KeptLive(c: Config, s: Server)
    requires s.durable <= |s.log|
    ensures Kept(c, s) <= Keys(s.log)
  {
    KeysPrefix(s.log, s.durable, |s.log|);
  }

  lemma NewHandlerOk(c: Config, s: Server, s': Server, t: nat, h: Handler)
    requires s.durable <= |s.log| && s'.durable <= |s'.log| && HandlersOk(c, s)
    requires t !in s.handlers && s'.handlers == s.handlers[t := h] && s'.saver == s.saver
    requires Keys(s.log) <= Keys(s'.log) && SavingKeys(s) == SavingKeys(s') && Kept(c, s) <= Kept(c, s')
    requires h.stage != InSave && HandlerOk(h, Keys(s'.log), SavingKeys(s'), Kept(c, s'))
    ensures HandlersOk(c, s')
  {
  }

  lemma NewHandlerAudit(c: Config, s: Server, s': Server, t: nat, h: Handler)
    requires s.durable <= |s.log| && s'.durable <= |s'.log| && HandlersOk(c, s) && AuditsOk(c, s)
    requires t !in s.handlers && s'.handlers == s.handlers[t := h]
    requires s'.audits == s.audits && s'.crashed == s.crashed && Kept(c, s) <= Kept(c, s')
    requires h.applied ==> h.request.id !in Keys(s.log)
    ensures AuditsOk(c, s')
  {
    KeptLive(c, s);
    forall u | Applying(s, u) && h.applied && h.request.id != "" ensures s.handlers[u].request.id != h.request.id {
      assert HandlerOk(s.handlers[u], Keys(s.log), SavingKeys(s), Kept(c, s));
    }
  }

  lemma HandleOk(c: Config, s: Server, t: nat, b: Batch)
    requires ServerInv(c, s) && ServerEnabled(c, s, Handle(t, b))
    ensures ServerInv(c, AfterHandle(c, s, t, b))
  {
    VerdictOf(c, s, b);
    var s', v := AfterHandle(c, s, t, b), Update(c, s.img, b).1;
    if v != Conflict {
      var h := Handler(b, v == Applied, if c.sync then Unsaved else Saved);
      if v == Applied {
        AppendStorage(c, s, b, s');
        AppendKeys(c, s, s', b);
      }
      NewHandlerOk(c, s, s', t, h);
      NewHandlerAudit(c, s, s', t, h);
    }
  }

  // ---- saves

  /** Audit accounting does not look at stages, and forgetting a handler only helps. */
  lemma FewerHandlersAudit(c: Config, s: Server, s': Server)
    requires s.durable <= |s.log| && s'.durable <= |s'.log| && AuditsOk(c, s)
    requires forall t | t in s'.handlers ::
      t in s.handlers && s'.handlers[t].request == s.handlers[t].request && s'.handlers[t].applied == s.handlers[t].applied
    requires s'.audits == s.audits && s'.crashed == s.crashed && Kept(c, s) <= Kept(c, s')
    ensures AuditsOk(c, s')
  {
    assert forall t | Applying(s', t) :: Applying(s, t);
  }

  lemma BeginSaveOk(c: Config, s: Server, owner: Option<nat>, records: seq<Record>)
    requires ServerInv(c, s) && ServerEnabled(c, s, BeginSave(owner, records))
    ensures ServerInv(c, AfterBeginSave(s, owner, records))
  {
    BeginSaveStorage(c, s, owner, records);
    BeginSaveHandlers(c, s, owner, records);
    BeginSaveHistory(c, s, owner, records);
  }

  lemma BeginSaveHistory(c: Config, s: Server, owner: Option<nat>, records: seq<Record>)
    requires s.durable <= |s.log| && RepliesOk(c, s) && AuditsOk(c, s) && (owner.Some? ==> owner.value in s.handlers)
    ensures RepliesOk(c, AfterBeginSave(s, owner, records)) && AuditsOk(c, AfterBeginSave(s, owner, records))
  {
    FewerHandlersAudit(c, s, AfterBeginSave(s, owner, records));
  }

  lemma BeginSaveStorage(c: Config, s: Server, owner: Option<nat>, records: seq<Record>)
    requires StorageOk(c, s) && IsFileSnapshot(records, s.img) && (owner.Some? ==> owner.value in s.handlers)
    ensures StorageOk(c, AfterBeginSave(s, owner, records))
  {
    assert s.log[..|s.log|] == s.log;
  }

  lemma BeginSaveHandlers(c: Config, s: Server, owner: Option<nat>, records: seq<Record>)
    requires s.durable <= |s.log| && HandlersOk(c, s) && s.saver == NoSave
    requires owner.Some? ==> owner.value in s.handlers && s.handlers[owner.value].stage == Unsaved
    ensures HandlersOk(c, AfterBeginSave(s, owner, records))
  {
    var s' := AfterBeginSave(s, owner, records);
    assert s.log[..|s.log|] == s.log;
    assert SavingKeys(s') == Keys(s.log) && Kept(c, s') == Kept(c, s);
    forall t | t in s'.handlers ensures HandlerOk(s'.handlers[t], Keys(s'.log), SavingKeys(s'), Kept(c, s')) {
      assert HandlerOk(s.handlers[t], Keys(s.log), SavingKeys(s), Kept(c, s));
    }
  }

  lemma EndSaveOk(c: Config, s: Server, ok: bool)
    requires ServerInv(c, s) && ServerEnabled(c, s, EndSave(ok))
    ensures ServerInv(c, AfterEndSave(s, ok))
  {
    if ok {
      EndSaveStorage(c, s);
    }
    EndSaveHandlers(c, s, ok);
    EndSaveHistory(c, s, ok);
  }

  lemma EndSaveHistory(c: Config, s: Server, ok: bool)
    requires s.saver.Saving? && s.durable <= s.saver.version <= |s.log| && RepliesOk(c, s) && AuditsOk(c, s)
    ensures RepliesOk(c, AfterEndSave(s, ok)) && AuditsOk(c, AfterEndSave(s, ok))
  {
    KeysPrefix(s.log, s.durable, s.saver.version);
    FewerHandlersAudit(c, s, AfterEndSave(s, ok));
  }

  /** The file now restores to the state that the save began from. */
  lemma EndSaveStorage(c: Config, s: Server)
    requires StorageOk(c, s) && s.saver.Saving?
    ensures StorageOk(c, AfterEndSave(s, true))
  {
    PrefixOk(s.log, s.saver.version);
    ReplayCarriesReceipts(c, s.log[..s.saver.version]);
    RestoreRoundTrip(s.saver.records, Replay(c, s.log[..s.saver.version]));
  }

  lemma EndSaveHandlers(c: Config, s: Server, ok: bool)
    requires s.saver.Saving? && s.durable <= s.saver.version <= |s.log| && HandlersOk(c, s)
    ensures HandlersOk(c, AfterEndSave(s, ok))
  {
    var s' := AfterEndSave(s, ok);
    KeysPrefix(s.log, s.durable, s.saver.version);
    KeysPrefix(s.log, s.saver.version, |s.log|);
    forall t | t in s'.handlers ensures HandlerOk(s'.handlers[t], Keys(s'.log), SavingKeys(s'), Kept(c, s')) {
      assert HandlerOk(s.handlers[t], Keys(s.log), SavingKeys(s), Kept(c, s));
    }
  }

  lemma PrefixOk(log: seq<Batch>, k: nat)
    requires LogOk(log) && k <= |log|
    ensures LogOk(log[..k])
  {
  }

  // ---- replies and crashes

  lemma ReplyOk(c: Config, s: Server, t: nat)
    requires ServerInv(c, s) && ServerEnabled(c, s, Reply(t))
    ensures ServerInv(c, AfterReply(s, t))
  {
    ReplyHandlers(c, s, t);
    ReplyAudits(c, s, t);
  }

  lemma ReplyHandlers(c: Config, s: Server, t: nat)
    requires s.durable <= |s.log| && HandlersOk(c, s) && RepliesOk(c, s)
    requires t in s.handlers && s.handlers[t].stage == Saved
    ensures HandlersOk(c, AfterReply(s, t)) && RepliesOk(c, AfterReply(s, t))
  {
    var s' := AfterReply(s, t);
    assert HandlerOk(s.handlers[t], Keys(s.log), SavingKeys(s), Kept(c, s));
    assert Kept(c, s') == Kept(c, s) && SavingKeys(s') == SavingKeys(s);
  }

  lemma ReplyAudits(c: Config, s: Server, t: nat)
    requires s.durable <= |s.log| && HandlersOk(c, s) && AuditsOk(c, s)
    requires t in s.handlers && s.handlers[t].stage == Saved
    ensures AuditsOk(c, AfterReply(s, t))
  {
    var s' := AfterReply(s, t);
    assert HandlerOk(s.handlers[t], Keys(s.log), SavingKeys(s), Kept(c, s));
    assert forall u | Applying(s', u) :: Applying(s, u);
    assert s.handlers[t].applied && s.handlers[t].request.id != "" ==> Applying(s, t);
  }

  lemma CrashOk(c: Config, s: Server)
    requires ServerInv(c, s)
    ensures ServerInv(c, AfterCrash(s))
  {
    var s' := AfterCrash(s);
    PrefixOk(s.log, s.durable);
    assert s'.log[..s'.durable] == s'.log;
  }

  lemma ServerStepKeepsInv(c: Config, s: Server, e: ServerEvent)
    requires ServerInv(c, s) && ServerEnabled(c, s, e)
    ensures ServerInv(c, ServerNext(c, s, e))
  {
    match e
    case Handle(t, b) => HandleOk(c, s, t, b);
    case BeginSave(owner, records) => BeginSaveOk(c, s, owner, records);
    case EndSave(ok) => EndSaveOk(c, s, ok);
    case Reply(t) => ReplyOk(c, s, t);
    case Crash => CrashOk(c, s);
  }
}
