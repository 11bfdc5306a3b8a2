/** What the delivery protocol guarantees in every state of every run. */
module DeliveryTheorems {
  import opened Metrics
  import opened Snapshots
  import opened AgentProtocol
  import A = AgentInvariant
  import opened ServerProtocol
  import opened Delivery

  lemma InitialOk(c: Setup)
    ensures SystemInv(c, Initial(c))
  {
    A.StartOk(c.limit);
  }

  lemma {:induction false} RunKeepsSystemInv(c: Setup, states: seq<System>, steps: seq<Step>, k: nat)
    requires IsSystemRun(c, states, steps) && k <= |steps|
    ensures SystemInv(c, states[k])
  {
    if k == 0 {
      InitialOk(c);
    } else {
      RunKeepsSystemInv(c, states, steps, k - 1);
      match steps[k - 1]
      case AgentStep(e) => AgentStepOk(c, states[k - 1], e);
      case ServerStep(e) => ServerStepOk(c, states[k - 1], e);
      case ForeignRequest(b) => ForeignOk(c, states[k - 1], b);
    }
  }

  // ---------------------------------------------------------------- conservation

  /** Deltas of the batches whose id is among keys, or of those whose id is not. */
  function Part(bs: seq<Batch>, keys: set<string>, within: bool, name: string): int {
    if bs == [] then 0
    else
      var b := bs[|bs| - 1];
      Part(bs[..|bs| - 1], keys, within, name) + if (b.id in keys) == within then Delta(b.metrics, name) else 0
  }

  /** Deltas that other clients added. */
  function ForeignDelta(created: seq<Batch>, log: seq<Batch>, name: string): int {
    if log == [] then 0
    else
      var b := log[|log| - 1];
      ForeignDelta(created, log[..|log| - 1], name) + if b in created then 0 else Delta(b.metrics, name)
  }

  lemma {:induction false} PartsSum(bs: seq<Batch>, keys: set<string>, name: string)
    ensures SumDelta(bs, name) == Part(bs, keys, true, name) + Part(bs, keys, false, name)
  {
    if bs != [] {
      PartsSum(bs[..|bs| - 1], keys, name);
    }
  }

  lemma {:induction false} PartUnaffected(bs: seq<Batch>, keys: set<string>, more: set<string>, within: bool, name: string)
    requires forall b | b in bs :: b.id !in more
    ensures Part(bs, keys + more, within, name) == Part(bs, keys, within, name)
  {
    if bs != [] {
      var init := bs[..|bs| - 1];
      assert forall b | b in init :: b in bs;
      PartUnaffected(init, keys, more, within, name);
      assert bs[|bs| - 1] in bs;
    }
  }

  lemma {:induction false} PartAdd(bs: seq<Batch>, keys: set<string>, i: nat, name: string)
    requires A.Identified(bs) && i < |bs| && bs[i].id !in keys
    ensures Part(bs, keys + {bs[i].id}, true, name) == Part(bs, keys, true, name) + Delta(bs[i].metrics, name)
  {
    var n := |bs| - 1;
    if i == n {
      assert forall b | b in bs[..n] :: b.id != bs[n].id;
      PartUnaffected(bs[..n], keys, {bs[n].id}, true, name);
    } else {
      PartAdd(bs[..n], keys, i, name);
    }
  }

  /** The history adds up to what others added and what the receipted batches of the agent carry. */
  lemma {:induction false} LogSplits(created: seq<Batch>, log: seq<Batch>, name: string)
    requires LogOk(log) && A.Identified(created)
    requires forall b, x | b in log && x in created && b.id == x.id :: b == x
    ensures SumDelta(log, name) == ForeignDelta(created, log, name) + Part(created, Keys(log), true, name)
  {
    if log == [] {
      PartNone(created, name);
    } else {
      var init, b := log[..|log| - 1], log[|log| - 1];
      assert log == init + [b];
      LogSplits(created, init, name);
      KeysMember(init, b.id);
      if b in created {
        var i :| 0 <= i < |created| && created[i] == b;
        PartAdd(created, Keys(init), i, name);
        assert Keys(log) == Keys(init) + {b.id};
      } else {
        PartUnaffected(created, Keys(init), KeyOf(b), true, name);
      }
    }
  }

  lemma {:induction false} PartNone(bs: seq<Batch>, name: string)
    ensures Part(bs, {}, true, name) == 0
  {
    if bs != [] {
      PartNone(bs[..|bs| - 1], name);
    }
  }

  lemma OwnEntries(c: Setup, s: System, b: Batch, x: Batch)
    requires SystemInv(c, s) && b in s.server.log && x in s.agent.created && b.id == x.id
    ensures b == x
  {
    assert FromKnown(s, b);
  }

  lemma Congruence(total: int, batched: int, stored: int, received: int, open: int, foreign: int, logged: int)
    requires (total - batched - stored) % TWO64 == 0
    requires batched == received + open && logged == foreign + received
    ensures Wrap(total) == Wrap(stored + open + Wrap(logged) - foreign)
  {
    WrapCongruent(total, stored + open + Wrap(logged) - foreign);
  }

  /** Every increment ever made is in the agent's store, in a batch without a receipt, or in the server's value,
      exactly once, modulo 2^64 and net of what other clients added. */
  ghost predicate Conserved(s: System, name: string) {
    Wrap(Total(s.agent.totals, name)) == Wrap(
      Count(s.agent.store.counters, name) + Part(s.agent.created, s.server.img.receipts.Keys, false, name)
      + Count(s.server.img.maps.counters, name) - ForeignDelta(s.agent.created, s.server.log, name))
  }

  /** Counters are conserved in any run, whatever the network does, and across any server crashes. */
  lemma CountersConserved(c: Setup, states: seq<System>, steps: seq<Step>, k: nat, name: string)
    requires IsSystemRun(c, states, steps) && k <= |steps|
    ensures Conserved(states[k], name)
  {
    RunKeepsSystemInv(c, states, steps, k);
    ConservedIn(c, states[k], name);
  }

  lemma ReceivedParts(c: Setup, s: System, name: string)
    requires SystemInv(c, s)
    ensures SumDelta(s.server.log, name) == ForeignDelta(s.agent.created, s.server.log, name)
      + Part(s.agent.created, Keys(s.server.log), true, name)
  {
    forall b, x | b in s.server.log && x in s.agent.created && b.id == x.id ensures b == x {
      OwnEntries(c, s, b, x);
    }
    LogSplits(s.agent.created, s.server.log, name);
  }

  lemma ConservedIn(c: Setup, s: System, name: string)
    requires SystemInv(c, s)
    ensures Conserved(s, name)
  {
    var created, log := s.agent.created, s.server.log;
    ReceivedParts(c, s, name);
    ReplayReceipts(c.server, log);
    ReplayCounters(c.server, log, name);
    PartsSum(created, Keys(log), name);
    assert A.CounterBalance(s.agent.store, created, s.agent.totals, name);
    Congruence(Total(s.agent.totals, name), SumDelta(created, name), Count(s.agent.store.counters, name),
      Part(created, Keys(log), true, name), Part(created, Keys(log), false, name),
      ForeignDelta(created, log, name), SumDelta(log, name));
  }

  // ---------------------------------------------------------------- custody and bounds

  /** Every batch created is acknowledged, or is in exactly one hand with its id and metrics; no other batch
      is anywhere, and no id names two batches. */
  lemma BatchCustody(c: Setup, states: seq<System>, steps: seq<Step>, k: nat, b: Batch)
    requires IsSystemRun(c, states, steps) && k <= |steps|
    ensures var a := states[k].agent;
      && Times(a.acked, b) + A.InHand(a, b) == (if b in a.created then 1 else 0)
      && (b in a.created ==> forall x | x in a.created && x.id == b.id :: x == b)
  {
    RunKeepsSystemInv(c, states, steps, k);
    var a := states[k].agent;
    assert A.Accounted(a, b);
    TimesDistinct(a.created, b);
  }

  lemma {:induction false} TimesDistinct(bs: seq<Batch>, b: Batch)
    requires A.Identified(bs)
    ensures Times(bs, b) == if b in bs then 1 else 0
  {
    if bs != [] {
      var n := |bs| - 1;
      assert bs == bs[..n] + [bs[n]];
      TimesDistinct(bs[..n], b);
    }
  }

  /** A batch the server has no receipt for is still in one of the agent's hands, unless a crash without
      synchronous saves has lost the receipt. */
  lemma NothingLost(c: Setup, states: seq<System>, steps: seq<Step>, k: nat, b: Batch)
    requires IsSystemRun(c, states, steps) && k <= |steps| && Trusted(c.server, states[k].server)
    requires b in states[k].agent.created && b.id !in states[k].server.img.receipts
    ensures A.InHand(states[k].agent, b) == 1
  {
    RunKeepsSystemInv(c, states, steps, k);
    BatchCustody(c, states, steps, k, b);
    ReplayReceipts(c.server, states[k].server.log);
    KeptLive(c.server, states[k].server);
    assert b !in states[k].agent.acked;
  }

  function IsBusy(w: Worker): nat { if w.Busy? then 1 else 0 }

  lemma {:induction false} BusyPrefix(ws: seq<Worker>, k: nat)
    requires k <= |ws| && forall i | k <= i < |ws| :: !ws[i].Busy?
    ensures Sum(ws, IsBusy) == Sum(ws[..k], IsBusy)
  {
    if k < |ws| {
      BusyPrefix(ws[..|ws| - 1], k);
      assert ws[..|ws| - 1][..k] == ws[..k];
    } else {
      assert ws[..k] == ws;
    }
  }

  /** The channel never exceeds the rate limit, no more than rateLimit sends are under way, and the enqueuer
      never has anything left to push once the channel is closed. */
  lemma RateLimited(c: Setup, states: seq<System>, steps: seq<Step>, k: nat)
    requires IsSystemRun(c, states, steps) && k <= |steps| && c.limit > 0
    ensures var a := states[k].agent;
      && |a.jobs| <= c.limit && Sum(a.workers, IsBusy) <= c.limit
      && (a.closed ==> !Enabled(c.limit, a, Push))
  {
    RunKeepsSystemInv(c, states, steps, k);
    LimitKept(c, states[k].agent);
  }

  lemma LimitKept(c: Setup, a: Agent)
    requires A.Inv(c.limit, a) && c.limit > 0
    ensures |a.jobs| <= c.limit && Sum(a.workers, IsBusy) <= c.limit
    ensures a.closed ==> !Enabled(c.limit, a, Push)
  {
    SumBound(a.workers[..c.limit], IsBusy, 1);
    if a.workers[c.limit].Busy? {
      assert a.workers[..c.limit + 1] == a.workers;
      assert forall i | 0 <= i < c.limit :: !a.workers[..c.limit][i].Busy?;
      SumZero(a.workers[..c.limit], IsBusy);
    } else {
      BusyPrefix(a.workers, c.limit);
    }
  }

  // ---------------------------------------------------------------- acknowledgements and the file

  /** With synchronous saves every acknowledged batch is in the file, as it was sent, so a server that
      crashes at any moment restarts with its receipt. */
  lemma AcknowledgedIsDurable(c: Setup, states: seq<System>, steps: seq<Step>, k: nat, b: Batch)
    requires IsSystemRun(c, states, steps) && k <= |steps| && c.server.sync && b in states[k].agent.acked
    ensures var receipts := DiskImage(states[k].server.disk).receipts;
      b.id in receipts && receipts[b.id] == c.server.fingerprint(b.metrics)
  {
    RunKeepsSystemInv(c, states, steps, k);
    var s := states[k];
    AckedCreated(c.limit, s.agent, b);
    var kept := s.server.log[..s.server.durable];
    PrefixOk(s.server.log, s.server.durable);
    ReplayReceipts(c.server, kept);
    KeysMember(kept, b.id);
    var i :| 0 <= i < |kept| && kept[i].id == b.id;
    assert kept[i] in s.server.log;
    OwnEntries(c, s, kept[i], b);
  }

  /** The file always restores to the state after a prefix of the update history: metrics and receipts agree,
      and each keyed update of that prefix counts once. */
  lemma FileIsAPrefix(c: Setup, states: seq<System>, steps: seq<Step>, k: nat, name: string)
    requires IsSystemRun(c, states, steps) && k <= |steps|
    ensures var v := states[k].server;
      && v.durable <= |v.log| && LogOk(v.log[..v.durable])
      && DiskImage(v.disk) == Replay(c.server, v.log[..v.durable])
      && DiskImage(v.disk).receipts.Keys == Keys(v.log[..v.durable])
      && Count(DiskImage(v.disk).maps.counters, name) == Wrap(SumDelta(v.log[..v.durable], name))
  {
    RunKeepsSystemInv(c, states, steps, k);
    var v := states[k].server;
    PrefixOk(v.log, v.durable);
    ReplayReceipts(c.server, v.log[..v.durable]);
    ReplayCounters(c.server, v.log[..v.durable], name);
  }

  /** After a crash at any moment the server holds in memory what its file holds, or nothing without one, and no more of the
      history than the file had; everything under way is forgotten. */
  lemma RestartHolds(c: Setup, states: seq<System>, steps: seq<Step>, k: nat)
    requires IsSystemRun(c, states, steps) && k < |steps| && steps[k] == ServerStep(Crash)
    ensures var v, w := states[k].server, states[k + 1].server;
      && w.img == (if v.disk.None? then Image(Maps(map[], map[]), map[]) else Load(v.disk.value))
      && w.img == Replay(c.server, w.log)
      && v.durable <= |v.log| && w.log == v.log[..v.durable]
      && w.disk == v.disk && w.handlers == map[] && w.saver == NoSave && w.crashed
  {
    RunKeepsSystemInv(c, states, steps, k);
    RunKeepsSystemInv(c, states, steps, k + 1);
  }

  /** The file of w holds what the file of v holds, and possibly more of the same history. */
  predicate FileExtends(v: Server, w: Server) {
    && v.durable <= |v.log| && v.durable <= w.durable <= |w.log|
    && w.log[..v.durable] == v.log[..v.durable]
  }

  lemma StepKeepsFile(c: Setup, s: System, step: Step)
    requires SystemInv(c, s) && Possible(c, s, step)
    ensures FileExtends(s.server, Result(c, s, step).server)
  {
    if step.ServerStep? {
      ServerStepKeepsFile(c.server, s.server, step.se);
    }
  }

  lemma ServerStepKeepsFile(c: Config, s: Server, e: ServerEvent)
    requires s.durable <= |s.log| && (s.saver.Saving? ==> s.durable <= s.saver.version <= |s.log|)
    requires ServerEnabled(c, s, e)
    ensures FileExtends(s, ServerNext(c, s, e))
  {
    var s' := ServerNext(c, s, e);
    assert s'.log[..s.durable] == s.log[..s.durable];
  }

  lemma FileExtendsItself(c: Setup, states: seq<System>, steps: seq<Step>, k: nat)
    requires IsSystemRun(c, states, steps) && k <= |steps|
    ensures FileExtends(states[k].server, states[k].server)
  {
    RunKeepsSystemInv(c, states, steps, k);
  }

  lemma FileExtendsTransitive(u: Server, v: Server, w: Server)
    requires FileExtends(u, v) && FileExtends(v, w)
    ensures FileExtends(u, w)
  {
    var j, k := u.durable, v.durable;
    assert w.log[..j] == w.log[..k][..j] && v.log[..j] == v.log[..k][..j];
  }

  lemma FileGrowsAt(c: Setup, states: seq<System>, steps: seq<Step>, k: nat, u: Server)
    requires IsSystemRun(c, states, steps) && k < |steps| && FileExtends(u, states[k].server)
    ensures FileExtends(u, states[k + 1].server)
  {
    RunKeepsSystemInv(c, states, steps, k);
    StepKeepsFile(c, states[k], steps[k]);
    FileExtendsTransitive(u, states[k].server, states[k + 1].server);
  }

  /** A running save can be encoded exactly if the gauges of its snapshot are finite; that is so as long as no update
      up to then, keyless from the URL route, has set one that is not. */
  lemma SavesEncodable(c: Setup, states: seq<System>, steps: seq<Step>, k: nat)
    requires IsSystemRun(c, states, steps) && k <= |steps| && states[k].server.saver.Saving?
    ensures var s := states[k].server;
      && s.saver.version <= |s.log|
      && (Encodable(s.saver.records) <==> AllFinite(Replay(c.server, s.log[..s.saver.version]).maps))
      && ((forall b | b in s.log[..s.saver.version] :: FiniteValues(b.metrics)) ==> Encodable(s.saver.records))
  {
    RunKeepsSystemInv(c, states, steps, k);
    var s := states[k].server;
    var prefix := s.log[..s.saver.version];
    if forall b | b in prefix :: FiniteValues(b.metrics) {
      ReplayFinite(c.server, prefix);
    }
    EncodableIff(s.saver.records, Replay(c.server, prefix));
  }

  /** What the file holds is never given up: later files hold a longer prefix of the same history. */
  lemma {:induction false} FileOnlyGrows(c: Setup, states: seq<System>, steps: seq<Step>, j: nat, k: nat)
    requires IsSystemRun(c, states, steps) && j <= k <= |steps|
    ensures FileExtends(states[j].server, states[k].server)
    decreases k
  {
    if j == k {
      FileExtendsItself(c, states, steps, k);
    } else {
      FileOnlyGrows(c, states, steps, j, k - 1);
      FileGrowsAt(c, states, steps, k - 1, states[j].server);
    }
  }

  // ---------------------------------------------------------------- conflicts and audit

  /** A request that carries one of the agent's batches is applied or recognised, never refused as a conflict. */
  lemma OwnRetryNeverConflicts(c: Setup, states: seq<System>, steps: seq<Step>, k: nat, b: Batch)
    requires IsSystemRun(c, states, steps) && k <= |steps| && b in states[k].agent.created
    ensures Update(c.server, states[k].server.img, b).1 != Conflict
  {
    RunKeepsSystemInv(c, states, steps, k);
    var s := states[k];
    VerdictOf(c.server, s.server, b);
    ReplayReceipts(c.server, s.server.log);
    KeysMember(s.server.log, b.id);
    if b.id in Keys(s.server.log) {
      var i :| 0 <= i < |s.server.log| && s.server.log[i].id == b.id;
      OwnEntries(c, s, s.server.log[i], b);
    }
  }

  /** No key is audited twice, and every audited key has its receipt; across crashes too, if every update is
      saved before it is acknowledged. */
  lemma AuditedAtMostOnce(c: Setup, states: seq<System>, steps: seq<Step>, k: nat)
    requires IsSystemRun(c, states, steps) && k <= |steps| && Trusted(c.server, states[k].server)
    ensures NoAuditTwice(states[k].server.audits)
    ensures forall id | id in states[k].server.audits && id != "" :: id in states[k].server.img.receipts
  {
    RunKeepsSystemInv(c, states, steps, k);
    ReplayReceipts(c.server, states[k].server.log);
    KeptLive(c.server, states[k].server);
  }

  // ---------------------------------------------------------------- the end of Run

  /** If Run returns nil, nothing is left on the agent ... */
  lemma NothingLeftBehind(c: Setup, states: seq<System>, steps: seq<Step>, k: nat)
    requires IsSystemRun(c, states, steps) && k <= |steps|
    requires states[k].agent.final.Returned? && states[k].agent.final.ok
    ensures var a := states[k].agent;
      a.pending == [] && a.jobs == [] && a.store.counters == map[] && forall b | b in a.created :: b in a.acked
  {
    RunKeepsSystemInv(c, states, steps, k);
    var a := states[k].agent;
    forall b | b in a.created ensures b in a.acked {
      ReturnedAcked(c.limit, a, b);
    }
    if c.limit > 0 {
      assert a.workers[0] == Exited;
    }
  }

  /** ... and, with no other writer and no acknowledged update lost to a crash, the server holds exactly the
      agent's totals, wrapped to 64 bits, and the agent's latest gauges. */
  lemma ServerMatchesAgent(c: Setup, states: seq<System>, steps: seq<Step>, k: nat)
    requires IsSystemRun(c, states, steps) && k <= |steps|
    requires states[k].agent.final.Returned? && states[k].agent.final.ok
    requires states[k].alone && Trusted(c.server, states[k].server)
    ensures states[k].server.img.maps.gauges == states[k].agent.store.gauges
    ensures states[k].server.img.maps.counters.Keys == states[k].agent.totals.Keys
    ensures forall name | name in states[k].agent.totals ::
      Count(states[k].server.img.maps.counters, name) == Wrap(states[k].agent.totals[name])
  {
    RunKeepsSystemInv(c, states, steps, k);
    NothingLeftBehind(c, states, steps, k);
    var s := states[k];
    AllApplied(c, s);
    forall name
      ensures name in s.server.img.maps.counters <==> name in s.agent.totals
      ensures Count(s.server.img.maps.counters, name) == Wrap(Total(s.agent.totals, name))
    {
      FinalCounter(c, s, name);
    }
    forall name
      ensures name in s.server.img.maps.gauges <==> name in s.agent.store.gauges
      ensures name in s.agent.store.gauges ==> s.server.img.maps.gauges[name] == s.agent.store.gauges[name]
    {
      FinalGauge(c, s, name);
    }
    SameMap(s.server.img.maps.gauges, s.agent.store.gauges);
  }

  ghost predicate Settled(c: Setup, s: System) {
    SystemInv(c, s) && s.alone && forall b :: b in s.agent.created <==> b in s.server.log
  }

  lemma AllApplied(c: Setup, s: System)
    requires SystemInv(c, s) && s.alone && Trusted(c.server, s.server)
    requires forall b | b in s.agent.created :: b in s.agent.acked
    ensures Settled(c, s)
  {
    KeptLive(c.server, s.server);
    forall b | b in s.agent.created ensures b in s.server.log {
      KeysMember(s.server.log, b.id);
      var i :| 0 <= i < |s.server.log| && s.server.log[i].id == b.id;
      OwnEntries(c, s, s.server.log[i], b);
    }
    forall b | b in s.server.log ensures b in s.agent.created {
      assert FromKnown(s, b);
    }
  }

  lemma {:induction false} NoForeign(created: seq<Batch>, log: seq<Batch>, name: string)
    requires forall b | b in log :: b in created
    ensures ForeignDelta(created, log, name) == 0
  {
    if log != [] {
      NoForeign(created, log[..|log| - 1], name);
    }
  }

  lemma {:induction false} NoneOutside(bs: seq<Batch>, keys: set<string>, name: string)
    requires forall b | b in bs :: b.id in keys
    ensures Part(bs, keys, false, name) == 0
  {
    if bs != [] {
      assert forall b | b in bs[..|bs| - 1] :: b in bs;
      NoneOutside(bs[..|bs| - 1], keys, name);
      assert bs[|bs| - 1] in bs;
    }
  }

  lemma SameWrap(total: int, batched: int, logged: int)
    requires (total - batched - 0) % TWO64 == 0 && batched == logged
    ensures Wrap(logged) == Wrap(total)
  {
    WrapCongruent(total, logged);
  }

  /** Histories with the same batches add up alike, in whatever order they were applied. */
  lemma SameSum(created: seq<Batch>, log: seq<Batch>, name: string)
    requires LogOk(log) && A.Identified(created) && forall b :: b in created <==> b in log
    ensures SumDelta(log, name) == SumDelta(created, name)
  {
    LogSplits(created, log, name);
    NoForeign(created, log, name);
    PartsSum(created, Keys(log), name);
    forall b | b in created ensures b.id in Keys(log) {
      KeysMember(log, b.id);
    }
    NoneOutside(created, Keys(log), name);
  }

  lemma AgentBalance(c: Setup, s: System, name: string)
    requires SystemInv(c, s) && s.agent.store.counters == map[]
    ensures (Total(s.agent.totals, name) - SumDelta(s.agent.created, name) - 0) % TWO64 == 0
    ensures name in s.agent.totals <==> A.Mentions(s.agent.created, name)
  {
    assert A.CounterBalance(s.agent.store, s.agent.created, s.agent.totals, name);
  }

  lemma FinalCounter(c: Setup, s: System, name: string)
    requires Settled(c, s) && s.agent.store.counters == map[]
    ensures name in s.server.img.maps.counters <==> name in s.agent.totals
    ensures Count(s.server.img.maps.counters, name) == Wrap(Total(s.agent.totals, name))
  {
    var log, created := s.server.log, s.agent.created;
    AgentBalance(c, s, name);
    ReplayCounters(c.server, log, name);
    SameSum(created, log, name);
    SameWrap(Total(s.agent.totals, name), SumDelta(created, name), SumDelta(log, name));
  }

  /** The batch of the final ReportOnce is the last entry of the history. */
  lemma FinalBatchIsLast(c: Setup, s: System)
    requires Settled(c, s) && Trusted(c.server, s.server) && A.Reported(s.agent.final) && s.agent.created != []
    ensures s.server.log != [] && s.server.log[|s.server.log| - 1] == LastCreated(s.agent)
  {
    var log, last := s.server.log, LastCreated(s.agent);
    assert last in s.agent.created;
    var i :| 0 <= i < |log| && log[i] == last;
  }

  lemma FinalGauge(c: Setup, s: System, name: string)
    requires Settled(c, s) && Trusted(c.server, s.server)
    requires s.agent.final.Returned? && s.agent.final.ok
    ensures name in s.server.img.maps.gauges <==> name in s.agent.store.gauges
    ensures name in s.agent.store.gauges ==> s.server.img.maps.gauges[name] == s.agent.store.gauges[name]
  {
    var log, l := s.server.log, s.agent.final.listed;
    assert A.LastListed(s.agent, l);
    if name in s.agent.store.gauges {
      FinalBatchIsLast(c, s);
      var init := Replay(c.server, log[..|log| - 1]).maps;
      ListingGauge(LastCreated(s.agent).metrics, l, init, name);
    } else {
      ReplayGauges(c.server, log, name);
    }
  }
}
