/** ReportOnce and enqueueReport as they are written (internal/agent/agent.go:182-218, 278-297, 325-364), and the
    proof that a ReportOnce is a run of the protocol. */
module ReportAgent {
  import opened Metrics
  import opened Retry
  import opened AgentProtocol
  import AgentStore

  /** A call of sendBatch: whether the payload could be marshalled, compressed and encrypted, and the outcome of every
      attempt. */
  datatype Sending = Sending(prepared: bool, operation: nat -> Outcome)

  /** An empty batch is not sent at all. */
  predicate Delivered(b: Batch, s: Sending) {
    b.metrics == [] || (s.prepared && Drive(s.operation, 0).1 == Success)
  }

  /** Some attempt succeeds after retriable failures only, and it is one of the first four. */
  predicate GetsThrough(s: Sending) {
    s.prepared && exists k: nat :: k < 4 && s.operation(k) == Success && forall j: nat | j < k :: s.operation(j) == Retriable
  }

  lemma DeliveredIff(b: Batch, s: Sending)
    ensures Delivered(b, s) <==> b.metrics == [] || GetsThrough(s)
  {
    var (n, err) := Drive(s.operation, 0);
    if err == Success {
      assert s.operation(n - 1) == Success;
    }
    if k: nat :| k < 4 && s.operation(k) == Success && forall j: nat | j < k :: s.operation(j) == Retriable {
      assert s.operation(n - 1) != Retriable || n == 4;
      assert n - 1 == k;
    }
  }

  /** The batches of bs whose send fails, in order; sends(i) drives the i-th. */
  function Failing(bs: seq<Batch>, sends: nat -> Sending): seq<Batch> {
    if bs == [] then []
    else
      var n := |bs| - 1;
      Failing(bs[..n], sends) + if Delivered(bs[n], sends(n)) then [] else [bs[n]]
  }

  /** Exactly the batches that do not get through are among them. */
  lemma {:induction false} FailingAt(bs: seq<Batch>, sends: nat -> Sending, b: Batch)
    ensures b in Failing(bs, sends) <==> exists i: nat :: i < |bs| && bs[i] == b && b.metrics != [] && !GetsThrough(sends(i))
  {
    if bs != [] {
      var n := |bs| - 1;
      FailingAt(bs[..n], sends, b);
      DeliveredIff(bs[n], sends(n));
      if b in Failing(bs[..n], sends) {
        var i: nat :| i < n && bs[..n][i] == b && b.metrics != [] && !GetsThrough(sends(i));
        assert bs[i] == b;
      }
      if i: nat :| i < |bs| && bs[i] == b && b.metrics != [] && !GetsThrough(sends(i)) {
        if i < n { assert bs[..n][i] == b; }
      }
    }
  }

  predicate AllGetThrough(bs: seq<Batch>, sends: nat -> Sending) {
    forall i: nat | i < |bs| && bs[i].metrics != [] :: GetsThrough(sends(i))
  }

  lemma NoneFailing(bs: seq<Batch>, sends: nat -> Sending)
    ensures Failing(bs, sends) == [] <==> AllGetThrough(bs, sends)
  {
    if Failing(bs, sends) == [] {
      forall i: nat | i < |bs| && bs[i].metrics != [] ensures GetsThrough(sends(i)) {
        FailingAt(bs, sends, bs[i]);
      }
    } else {
      FailingAt(bs, sends, Failing(bs, sends)[0]);
    }
  }

  class Agent {
    var pending: seq<Batch>
    const store: AgentStore.Store

    constructor (store: AgentStore.Store)
      ensures pending == [] && this.store == store
    {
      pending := [];
      this.store := store;
    }

    method TakePending() returns (batches: seq<Batch>)
      modifies this`pending
      ensures batches == old(pending) && pending == []
    {
      batches := pending;
      pending := [];
    }

    method Requeue(batch: Batch)
      modifies this`pending
      ensures pending == old(pending) + [batch]
    {
      pending := pending + [batch];
    }

    method SendBatch(batch: Batch, sending: Sending) returns (ok: bool)
      ensures ok <==> Delivered(batch, sending)
      ensures ok <==> batch.metrics == [] || GetsThrough(sending)
    {
      DeliveredIff(batch, sending);
      if batch.metrics == [] {
        return true;
      }
      if !sending.prepared {
        return false;
      }
      var err, _, _ := DoWithSleeper(sending.operation);
      return err == Success;
    }

    /** The loop over the batches taken. */
    method SendPending(batches: seq<Batch>, sends: nat -> Sending) returns (failed: bool)
      requires pending == []
      modifies this`pending
      ensures pending == Failing(batches, sends) && (failed <==> pending != [])
    {
      failed := false;
      var i := 0;
      while i < |batches|
        invariant 0 <= i <= |batches|
        invariant pending == Failing(batches[..i], sends) && (failed <==> pending != [])
      {
        var sent := SendBatch(batches[i], sends(i));
        assert batches[..i + 1][..i] == batches[..i];
        if !sent {
          Requeue(batches[i]);
          failed := true;
        }
        i := i + 1;
      }
      assert batches[..i] == batches;
    }

    /** A report worker on the batches that it receives: those that do not get through are pending again. */
    method ReportWorker(received: seq<Batch>, sends: nat -> Sending)
      modifies this`pending
      ensures pending == old(pending) + Failing(received, sends)
      ensures forall b :: b in pending <==>
        b in old(pending)
        || exists i: nat :: i < |received| && received[i] == b && b.metrics != [] && !GetsThrough(sends(i))
    {
      var i := 0;
      while i < |received|
        invariant 0 <= i <= |received| && pending == old(pending) + Failing(received[..i], sends)
      {
        var sent := SendBatch(received[i], sends(i));
        assert received[..i + 1][..i] == received[..i];
        if !sent {
          Requeue(received[i]);
        }
        i := i + 1;
      }
      assert received[..i] == received;
      forall b {
        FailingAt(received, sends, b);
      }
    }

    /** sends(k) drives the k-th call of sendBatch and id is what rand.Text returns. Old batches go first; the
        store is snapshot only when all of them got through; whatever fails is pending again, unchanged. */
    method ReportOnce(sends: nat -> Sending, id: string) returns (ok: bool, metrics: seq<Metric>)
      modifies this`pending, store
      ensures old(Failing(pending, sends)) != [] ==>
        !ok && pending == old(Failing(pending, sends)) && store.View() == old(store.View())
      ensures old(Failing(pending, sends)) == [] ==>
        && IsListing(metrics, old(store.View())) && store.View() == Maps(old(store.gauges), map[])
        && (ok <==> metrics == [] || Delivered(Batch(id, metrics), sends(|old(pending)|)))
        && pending == if ok then [] else [Batch(id, metrics)]
      ensures ok <==>
        old(AllGetThrough(pending, sends)) && (metrics == [] || GetsThrough(sends(|old(pending)|)))
      ensures forall b :: b in pending <==>
        || (exists i: nat :: i < |old(pending)| && old(pending)[i] == b && b.metrics != [] && !GetsThrough(sends(i)))
        || (old(AllGetThrough(pending, sends)) && metrics != [] && b == Batch(id, metrics)
            && !GetsThrough(sends(|old(pending)|)))
    {
      NoneFailing(pending, sends);
      forall b {
        FailingAt(pending, sends, b);
      }
      var batches := TakePending();
      var failed := SendPending(batches, sends);
      if failed {
        return false, [];
      }
      metrics := store.SnapshotMetrics();
      if metrics == [] {
        return true, metrics;
      }
      var batch := Batch(id, metrics);
      ok := SendBatch(batch, sends(|batches|));
      if !ok {
        Requeue(batch);
      }
    }

    /** The loop that puts the rest of a report back after cancellation. */
    method RequeueAll(rest: seq<Batch>)
      modifies this`pending
      ensures pending == old(pending) + rest
    {
      var j := 0;
      while j < |rest|
        invariant 0 <= j <= |rest| && pending == old(pending) + rest[..j]
      {
        Requeue(rest[j]);
        j := j + 1;
      }
    }

    /** The batches that one call of EnqueueReport sets out to push. */
    ghost predicate IsReport(batches: seq<Batch>, pending0: seq<Batch>, store0: Maps, id: string) {
      if pending0 != [] then batches == pending0
      else if batches == [] then store0 == EMPTY
      else |batches| == 1 && batches[0].id == id && batches[0].metrics != [] && IsListing(batches[0].metrics, store0)
    }

    /** What there is to send: the pending batches, or else a fresh batch of what the store holds. */
    method TakeReport(id: string) returns (batches: seq<Batch>)
      modifies this`pending, store
      ensures pending == [] && IsReport(batches, old(pending), old(store.View()), id)
      ensures store.View() == if old(pending) != [] then old(store.View()) else Maps(old(store.gauges), map[])
    {
      batches := TakePending();
      if batches == [] {
        var metrics := store.SnapshotMetrics();
        if metrics == [] {
          return [];
        }
        batches := [Batch(id, metrics)];
      }
    }

    /** accepts(i) says that the i-th select sends on the channel, rather than seeing the cancellation. Batches
        are pushed in order up to the first refusal; all the others are pending again. */
    method EnqueueReport(accepts: nat -> bool, id: string) returns (pushed: seq<Batch>, ghost batches: seq<Batch>)
      modifies this`pending, store
      ensures IsReport(batches, old(pending), old(store.View()), id)
      ensures batches == pushed + pending
      ensures forall j | 0 <= j < |pushed| :: accepts(j)
      ensures pending != [] ==> !accepts(|pushed|)
      ensures store.View() == if old(pending) != [] then old(store.View()) else Maps(old(store.gauges), map[])
    {
      var todo := TakeReport(id);
      pushed, batches := [], todo;
      var i := 0;
      while i < |todo|
        invariant 0 <= i <= |todo| && pushed == todo[..i] && pending == []
        invariant forall j | 0 <= j < i :: accepts(j)
        modifies this`pending
      {
        if accepts(i) {
          pushed := pushed + [todo[i]];
        } else {
          RequeueAll(todo[i..]);
          return;
        }
        i := i + 1;
      }
    }
  }

  // ---------------------------------------------------------------- ReportOnce is a run of the protocol

  type State = AgentProtocol.Agent

  /** n steps of r lead from a to z. */
  ghost predicate Reaches<S(!new)>(r: (S, S) -> bool, a: S, z: S, n: nat) {
    if n == 0 then a == z else exists m :: r(a, m) && Reaches(r, m, z, n - 1)
  }

  lemma {:induction false} ReachesOn<S(!new)>(r: (S, S) -> bool, a: S, m: S, z: S, j: nat, k: nat)
    requires Reaches(r, a, m, j) && Reaches(r, m, z, k)
    ensures Reaches(r, a, z, j + k)
    decreases j
  {
    if j > 0 {
      var m' :| r(a, m') && Reaches(r, m', m, j - 1);
      ReachesOn(r, m', m, z, j - 1, k);
    }
  }

  lemma ReachesFirst<S(!new)>(r: (S, S) -> bool, a: S, m: S, m': S, z: S, n: nat)
    requires r(a, m) && r(m, m') && Reaches(r, m', z, n)
    ensures Reaches(r, a, z, n + 2)
  {
    assert Reaches(r, m, z, n + 1);
  }

  /** One step of the agent's protocol. */
  ghost function Protocol(limit: nat): (State, State) -> bool {
    (a: State, z: State) => exists e :: Enabled(limit, a, e) && z == Next(limit, a, e)
  }

  lemma IsStep(limit: nat, a: State, e: Event)
    requires Enabled(limit, a, e)
    ensures Protocol(limit)(a, Next(limit, a, e))
  {
  }

  /** What the protocol makes of a whole sendBatch in a slot. */
  function AfterSend(limit: nat, slot: nat, a: State, delivered: bool): State
    requires slot < |a.workers| && a.workers[slot].Busy?
  {
    if delivered then AfterAcknowledge(limit, a, slot) else AfterGiveUp(limit, a, slot)
  }

  /** Each attempt and its outcome are two steps. */
  function SendSteps(operation: nat -> Outcome, k: nat): nat
    requires k < MAX_ATTEMPTS
  {
    2 * (Drive(operation, k).0 - k)
  }

  predicate SendingAt(slot: nat, a: State, k: nat, waiting: bool) {
    slot < |a.workers| && a.workers[slot].Busy?
    && a.workers[slot].sender.attempts == k && a.workers[slot].sender.waiting == waiting
  }

  /** r lets the slot attempt, back off after a retriable failure, and settle. */
  ghost predicate AllowsSends(limit: nat, slot: nat, r: (State, State) -> bool) {
    && (forall a: State, k: nat | k < MAX_ATTEMPTS && SendingAt(slot, a, k, false) ::
          r(a, WithSender(a, slot, k + 1, true)))
    && (forall a: State, k: nat | k < MAX_ATTEMPTS && SendingAt(slot, a, k, true) ::
          r(a, WithSender(a, slot, k, false)))
    && (forall a: State, k: nat, ok | SendingAt(slot, a, k, true) :: r(a, AfterSend(limit, slot, a, ok)))
  }

  lemma ProtocolAllowsSends(limit: nat, slot: nat)
    ensures AllowsSends(limit, slot, Protocol(limit))
  {
    forall a: State, k: nat | k < MAX_ATTEMPTS && SendingAt(slot, a, k, false)
      ensures Protocol(limit)(a, WithSender(a, slot, k + 1, true))
    {
      IsStep(limit, a, Attempt(slot));
    }
    forall a: State, k: nat | k < MAX_ATTEMPTS && SendingAt(slot, a, k, true)
      ensures Protocol(limit)(a, WithSender(a, slot, k, false))
    {
      IsStep(limit, a, Backoff(slot));
    }
    forall a: State, k: nat, ok | SendingAt(slot, a, k, true) ensures Protocol(limit)(a, AfterSend(limit, slot, a, ok)) {
      IsStep(limit, a, if ok then Acknowledge(slot) else GiveUp(slot));
    }
  }

  lemma SettleRound(limit: nat, slot: nat, r: (State, State) -> bool, a: State, b: Batch, k: nat, ok: bool)
    requires AllowsSends(limit, slot, r) && k < MAX_ATTEMPTS && WorkerIs(a, slot, Busy(Sender(b, k, false)))
    ensures Reaches(r, a, AfterSend(limit, slot, a, ok), 2)
  {
    var a1 := WithSender(a, slot, k + 1, true);
    assert SendingAt(slot, a, k, false) && SendingAt(slot, a1, k + 1, true);
    SameSlot(limit, slot, a, a1, b, ok);
    assert r(a1, AfterSend(limit, slot, a1, ok));
    ReachesFirst(r, a, a1, AfterSend(limit, slot, a, ok), AfterSend(limit, slot, a, ok), 0);
  }

  lemma BackoffRound(limit: nat, slot: nat, r: (State, State) -> bool, a: State, b: Batch, k: nat, a2: State, ok: bool, n: nat)
    requires AllowsSends(limit, slot, r) && k + 1 < MAX_ATTEMPTS && WorkerIs(a, slot, Busy(Sender(b, k, false)))
    requires a2 == WithSender(a, slot, k + 1, false) && Reaches(r, a2, AfterSend(limit, slot, a2, ok), n)
    ensures Reaches(r, a, AfterSend(limit, slot, a, ok), n + 2)
  {
    var a1 := WithSender(a, slot, k + 1, true);
    assert SendingAt(slot, a, k, false) && SendingAt(slot, a1, k + 1, true);
    assert WithSender(a1, slot, k + 1, false) == a2;
    SameSlot(limit, slot, a, a2, b, ok);
    ReachesFirst(r, a, a1, a2, AfterSend(limit, slot, a, ok), n);
  }

  /** Backing off until last attempts have been made, and settling. */
  lemma {:induction false} SendRounds(limit: nat, slot: nat, r: (State, State) -> bool, a: State, b: Batch, k: nat, last: nat, ok: bool)
    requires AllowsSends(limit, slot, r)
    requires k < last <= MAX_ATTEMPTS && WorkerIs(a, slot, Busy(Sender(b, k, false)))
    ensures Reaches(r, a, AfterSend(limit, slot, a, ok), 2 * (last - k))
    decreases last - k
  {
    if k + 1 < last {
      var a2 := WithSender(a, slot, k + 1, false);
      SendRounds(limit, slot, r, a2, b, k + 1, last, ok);
      BackoffRound(limit, slot, r, a, b, k, a2, ok, 2 * (last - k - 1));
    } else {
      SettleRound(limit, slot, r, a, b, k, ok);
    }
  }

  /** The sender of the protocol can do what DoWithSleeper does, attempt by attempt. */
  lemma SendFollows(limit: nat, slot: nat, r: (State, State) -> bool, a: State, b: Batch, operation: nat -> Outcome, k: nat)
    requires AllowsSends(limit, slot, r)
    requires k < MAX_ATTEMPTS && WorkerIs(a, slot, Busy(Sender(b, k, false)))
    ensures Reaches(r, a, AfterSend(limit, slot, a, Drive(operation, k).1 == Success), SendSteps(operation, k))
  {
    SendRounds(limit, slot, r, a, b, k, Drive(operation, k).0, Drive(operation, k).1 == Success);
  }

  /** The outcome of a send does not depend on what its slot held in between. */
  lemma SameSlot(limit: nat, slot: nat, a: State, a': State, b: Batch, delivered: bool)
    requires slot < |a.workers| && a.workers[slot].Busy? && a.workers[slot].sender.batch == b
    requires slot < |a'.workers| && a'.workers[slot].Busy? && a'.workers[slot].sender.batch == b
    requires a' == a.(workers := a'.workers) && a'.workers[slot := Idle] == a.workers[slot := Idle]
    ensures AfterSend(limit, slot, a, delivered) == AfterSend(limit, slot, a', delivered)
  {
  }

  /** The state of ReportOnce after the first i of the pending batches. */
  function Midway(a: State, sends: nat -> Sending, i: nat): State
    requires i <= |a.pending|
  {
    a.(final := Draining(a.pending[i..], Failing(a.pending[..i], sends) != []),
       pending := Failing(a.pending[..i], sends), acked := a.acked + Passing(a.pending[..i], sends))
  }

  /** The batches that get through. */
  function Passing(bs: seq<Batch>, sends: nat -> Sending): seq<Batch> {
    if bs == [] then []
    else
      var n := |bs| - 1;
      Passing(bs[..n], sends) + if Delivered(bs[n], sends(n)) then [bs[n]] else []
  }

  ghost predicate ReadyToReport(limit: nat, a: State) {
    && a.final == NotYet && Enabled(limit, a, StartFinal) && WorkerIs(a, limit, Idle)
    && forall b | b in a.pending :: b.metrics != []
  }

  ghost predicate Leads(limit: nat, a: State, z: State) {
    exists n :: Reaches(Protocol(limit), a, z, n)
  }

  lemma LeadsOn(limit: nat, a: State, m: State, z: State)
    requires Leads(limit, a, m) && Leads(limit, m, z)
    ensures Leads(limit, a, z)
  {
    var j :| Reaches(Protocol(limit), a, m, j);
    var k :| Reaches(Protocol(limit), m, z, k);
    ReachesOn(Protocol(limit), a, m, z, j, k);
  }

  lemma LeadsStep(limit: nat, a: State, e: Event)
    requires Enabled(limit, a, e)
    ensures Leads(limit, a, Next(limit, a, e))
  {
    IsStep(limit, a, e);
    assert Reaches(Protocol(limit), Next(limit, a, e), Next(limit, a, e), 0);
    assert Reaches(Protocol(limit), a, Next(limit, a, e), 1);
  }

  lemma LeadsSend(limit: nat, slot: nat, a: State, b: Batch, s: Sending)
    requires WorkerIs(a, slot, Busy(Sender(b, 0, false))) && b.metrics != []
    ensures Leads(limit, a, AfterSend(limit, slot, a, Delivered(b, s)))
  {
    if s.prepared {
      ProtocolAllowsSends(limit, slot);
      SendFollows(limit, slot, Protocol(limit), a, b, s.operation, 0);
    } else {
      LeadsStep(limit, a, GiveUp(slot));
    }
  }

  lemma MidwayNext(limit: nat, a: State, sends: nat -> Sending, i: nat)
    requires a.final == NotYet && WorkerIs(a, limit, Idle) && i < |a.pending|
    ensures AfterSend(limit, limit, AfterNextFinal(limit, Midway(a, sends, i)), Delivered(a.pending[i], sends(i)))
      == Midway(a, sends, i + 1)
  {
    var t := AfterNextFinal(limit, Midway(a, sends, i));
    assert a.pending[i..][1..] == a.pending[i + 1..];
    assert a.pending[..i + 1][..i] == a.pending[..i];
    assert t.workers[limit := Idle] == a.workers;
  }

  /** One round of the loop over the pending batches. */
  lemma MidwayStep(limit: nat, a: State, sends: nat -> Sending, i: nat)
    requires ReadyToReport(limit, a) && i < |a.pending|
    ensures Leads(limit, Midway(a, sends, i), Midway(a, sends, i + 1))
  {
    var m := Midway(a, sends, i);
    LeadsStep(limit, m, NextFinal);
    LeadsSend(limit, limit, AfterNextFinal(limit, m), a.pending[i], sends(i));
    MidwayNext(limit, a, sends, i);
    LeadsOn(limit, m, AfterNextFinal(limit, m), Midway(a, sends, i + 1));
  }

  lemma {:induction false} MidwayRun(limit: nat, a: State, sends: nat -> Sending, i: nat)
    requires ReadyToReport(limit, a) && i <= |a.pending|
    ensures Leads(limit, a, Midway(a, sends, i))
  {
    if i == 0 {
      LeadsStep(limit, a, StartFinal);
      assert a.pending[0..] == a.pending && a.pending[..0] == [] && a.acked + [] == a.acked;
    } else {
      MidwayRun(limit, a, sends, i - 1);
      MidwayStep(limit, a, sends, i - 1);
      LeadsOn(limit, a, Midway(a, sends, i - 1), Midway(a, sends, i));
    }
  }

  /** The state in which Agent.ReportOnce, started in a, leaves the protocol. */
  function Report(limit: nat, a: State, sends: nat -> Sending, metrics: seq<Metric>, id: string): State
    requires limit < |a.workers|
  {
    var m := Midway(a, sends, |a.pending|);
    if m.final.failed then m.(final := Returned(false, EMPTY))
    else
      var t := AfterFinalSnapshot(limit, m.(final := Snapping), metrics, id);
      if metrics == [] then t else AfterSend(limit, limit, t, Delivered(Batch(id, metrics), sends(|a.pending|)))
  }

  /** Report is what Agent.ReportOnce promises: the failed batches pending, the store untouched or taken, and nil
      exactly when every batch got through. */
  lemma ReportMatches(limit: nat, a: State, sends: nat -> Sending, metrics: seq<Metric>, id: string)
    requires limit < |a.workers|
    ensures var z, failing := Report(limit, a, sends, metrics, id), Failing(a.pending, sends);
      var sent := metrics == [] || Delivered(Batch(id, metrics), sends(|a.pending|));
      && z.final.Returned?
      && (failing != [] ==> !z.final.ok && z.pending == failing && z.store == a.store)
      && (failing == [] ==>
            && z.final.ok == (!a.collectErr && sent)
            && z.store.gauges == a.store.gauges && (metrics != [] ==> z.store.counters == map[])
            && z.pending == if sent then [] else [Batch(id, metrics)])
  {
    assert a.pending[..|a.pending|] == a.pending;
  }

  lemma FinalReportRun(limit: nat, p: State, s: Sending, metrics: seq<Metric>, id: string)
    requires Enabled(limit, p, FinalSnapshot(metrics, id)) && metrics != []
    ensures Leads(limit, p,
                  AfterSend(limit, limit, AfterFinalSnapshot(limit, p, metrics, id), Delivered(Batch(id, metrics), s)))
  {
    var t := AfterFinalSnapshot(limit, p, metrics, id);
    LeadsStep(limit, p, FinalSnapshot(metrics, id));
    LeadsSend(limit, limit, t, Batch(id, metrics), s);
    LeadsOn(limit, p, t, AfterSend(limit, limit, t, Delivered(Batch(id, metrics), s)));
  }

  /** What ReportOnce does is a run of the protocol: from the moment Run calls it, for every outcome of every
      attempt, the protocol can reach the state in which ReportOnce leaves the agent. */
  lemma ReportOnceIsARun(limit: nat, a: State, sends: nat -> Sending, metrics: seq<Metric>, id: string)
    requires ReadyToReport(limit, a) && IsListing(metrics, a.store) && FreshId(a.created, id)
    ensures Leads(limit, a, Report(limit, a, sends, metrics, id))
  {
    var n := |a.pending|;
    var m := Midway(a, sends, n);
    assert a.pending[n..] == [];
    MidwayRun(limit, a, sends, n);
    LeadsStep(limit, m, EndPending);
    LeadsOn(limit, a, m, Next(limit, m, EndPending));
    if !m.final.failed {
      var p := m.(final := Snapping);
      if metrics == [] {
        LeadsStep(limit, p, FinalSnapshot(metrics, id));
      } else {
        FinalReportRun(limit, p, sends(n), metrics, id);
      }
      LeadsOn(limit, a, p, Report(limit, a, sends, metrics, id));
    }
  }

  // ---------------------------------------------------------------- so is an enqueueReport

  lemma LeadsNowhere(limit: nat, a: State)
    ensures Leads(limit, a, a)
  {
    assert Reaches(Protocol(limit), a, a, 0);
  }

  function AfterPushes(a: State, rest: seq<Batch>, k: nat): State
    requires k <= |rest|
  {
    a.(jobs := a.jobs + rest[..k], enq := if k == |rest| then Resting else Pushing(rest[k..]))
  }

  lemma {:induction false} PushRun(limit: nat, a: State, rest: seq<Batch>, k: nat)
    requires a.enq == Pushing(rest) && k <= |rest| && rest != [] && |a.jobs| + k <= limit
    ensures Leads(limit, a, AfterPushes(a, rest, k))
  {
    if k == 0 {
      assert AfterPushes(a, rest, 0) == a;
      LeadsNowhere(limit, a);
    } else {
      PushRun(limit, a, rest, k - 1);
      var m := AfterPushes(a, rest, k - 1);
      LeadsStep(limit, m, Push);
      assert a.jobs + rest[..k - 1] + [rest[k - 1]] == a.jobs + rest[..k];
      assert Next(limit, m, Push) == AfterPushes(a, rest, k);
      LeadsOn(limit, a, m, AfterPushes(a, rest, k));
    }
  }

  function Requeued(a: State, rest: seq<Batch>): State { a.(pending := a.pending + rest, enq := Resting) }

  lemma RequeuedFirst(a: State, rest: seq<Batch>)
    requires a.enq == Aborting(rest) && rest != []
    ensures |rest| == 1 ==> AfterRequeueRest(a) == Requeued(a, rest)
    ensures Requeued(AfterRequeueRest(a), rest[1..]) == Requeued(a, rest)
  {
    assert rest == [rest[0]] + rest[1..];
    assert a.pending + [rest[0]] + rest[1..] == a.pending + rest;
  }

  lemma {:induction false} RequeueRun(limit: nat, a: State, rest: seq<Batch>)
    requires a.enq == Aborting(rest) && rest != []
    ensures Leads(limit, a, Requeued(a, rest))
    decreases |rest|
  {
    LeadsStep(limit, a, RequeueRest);
    RequeuedFirst(a, rest);
    if |rest| > 1 {
      RequeueRun(limit, AfterRequeueRest(a), rest[1..]);
      LeadsOn(limit, a, AfterRequeueRest(a), Requeued(a, rest));
    }
  }

  /** The batches that enqueueReport sets out to push. */
  function Todo(a: State, metrics: seq<Metric>, id: string): seq<Batch> {
    if a.pending != [] then a.pending else if metrics == [] then [] else [Batch(id, metrics)]
  }

  /** The state after enqueueReport has pushed k of them. */
  function Enqueued(a: State, metrics: seq<Metric>, id: string, k: nat): State
    requires k <= |Todo(a, metrics, id)|
  {
    var todo := Todo(a, metrics, id);
    var a1 := if a.pending == [] && metrics != [] then AfterCreate(a, Batch(id, metrics)) else a;
    a1.(jobs := a.jobs + todo[..k], pending := todo[k..], enq := Resting)
  }

  lemma TodoRun(limit: nat, a: State, metrics: seq<Metric>, id: string)
    requires a.enq == Resting && IsListing(metrics, a.store) && FreshId(a.created, id) && Todo(a, metrics, id) != []
    ensures Leads(limit, a, Enqueued(a, metrics, id, 0).(pending := [], enq := Pushing(Todo(a, metrics, id))))
  {
    var m := Next(limit, a, TakePending);
    LeadsStep(limit, a, TakePending);
    assert a.jobs + [] == a.jobs;
    if a.pending == [] {
      LeadsStep(limit, m, Collect(metrics, id));
      LeadsOn(limit, a, m, Next(limit, m, Collect(metrics, id)));
    }
  }

  lemma StopRun(limit: nat, a: State, rest: seq<Batch>)
    requires a.enq == Pushing(rest) && rest != [] && a.canceled
    ensures Leads(limit, a, a.(pending := a.pending + rest, enq := Resting))
  {
    var m := Next(limit, a, Abort);
    LeadsStep(limit, a, Abort);
    RequeueRun(limit, m, rest);
    LeadsOn(limit, a, m, a.(pending := a.pending + rest, enq := Resting));
  }

  lemma NothingToReport(limit: nat, a: State, metrics: seq<Metric>, id: string)
    requires a.enq == Resting && IsListing(metrics, a.store) && FreshId(a.created, id) && Todo(a, metrics, id) == []
    ensures Leads(limit, a, Enqueued(a, metrics, id, 0))
  {
    var m := Next(limit, a, TakePending);
    LeadsStep(limit, a, TakePending);
    LeadsStep(limit, m, Collect(metrics, id));
    assert a.jobs + [] == a.jobs;
    LeadsOn(limit, a, m, Enqueued(a, metrics, id, 0));
  }

  /** In a stretch without steps of others, enqueueReport does what a run of the protocol can do, whether the loop ends
      or a cancellation stops it after k pushes. */
  lemma EnqueueReportIsARun(limit: nat, a: State, metrics: seq<Metric>, id: string, k: nat)
    requires a.enq == Resting && IsListing(metrics, a.store) && FreshId(a.created, id)
    requires k <= |Todo(a, metrics, id)| && |a.jobs| + k <= limit && (k < |Todo(a, metrics, id)| ==> a.canceled)
    ensures Leads(limit, a, Enqueued(a, metrics, id, k))
  {
    var todo, z := Todo(a, metrics, id), Enqueued(a, metrics, id, k);
    if todo == [] {
      NothingToReport(limit, a, metrics, id);
    } else {
      var m := Enqueued(a, metrics, id, 0).(pending := [], enq := Pushing(todo));
      TodoRun(limit, a, metrics, id);
      PushesRun(limit, m, todo, k);
      assert m.jobs == a.jobs;
      LeadsOn(limit, a, m, z);
    }
  }

  lemma PushesRun(limit: nat, a: State, todo: seq<Batch>, k: nat)
    requires a.enq == Pushing(todo) && todo != [] && a.pending == [] && k <= |todo|
    requires |a.jobs| + k <= limit && (k < |todo| ==> a.canceled)
    ensures Leads(limit, a, a.(jobs := a.jobs + todo[..k], pending := todo[k..], enq := Resting))
  {
    var p, z := AfterPushes(a, todo, k), a.(jobs := a.jobs + todo[..k], pending := todo[k..], enq := Resting);
    PushRun(limit, a, todo, k);
    if k < |todo| {
      StopRun(limit, p, todo[k..]);
      assert p.pending + todo[k..] == todo[k..];
      assert p.(pending := p.pending + todo[k..], enq := Resting) == z;
      LeadsOn(limit, a, p, z);
    } else {
      assert p == z;
    }
  }

  /** Enqueued is what Agent.EnqueueReport promises of its pushes, the pending batches and the store. */
  lemma EnqueuedMatches(a: State, metrics: seq<Metric>, id: string, k: nat)
    requires IsListing(metrics, a.store) && k <= |Todo(a, metrics, id)|
    ensures var z := Enqueued(a, metrics, id, k);
      && |z.jobs| == |a.jobs| + k && z.jobs[..|a.jobs|] == a.jobs
      && z.jobs[|a.jobs|..] + z.pending == Todo(a, metrics, id)
      && z.store == if a.pending != [] then a.store else Maps(a.store.gauges, map[])
  {
    var z, todo := Enqueued(a, metrics, id, k), Todo(a, metrics, id);
    assert z.jobs[|a.jobs|..] == todo[..k];
    assert todo[..k] + todo[k..] == todo;
  }

  // ---------------------------------------------------------------- the methods refine the protocol

  /** The protocol's state is what the agent holds. */
  ghost predicate Matches(agent: Agent, a: State)
    reads agent, agent.store
  {
    agent.pending == a.pending && agent.store.View() == a.store
  }

  lemma ReportedStore(limit: nat, a: State, sends: nat -> Sending, metrics: seq<Metric>, id: string)
    requires limit < |a.workers| && IsListing(metrics, a.store)
    ensures Report(limit, a, sends, metrics, id).store
      == if Failing(a.pending, sends) != [] then a.store else Maps(a.store.gauges, map[])
  {
    ReportMatches(limit, a, sends, metrics, id);
  }

  /** ReportOnce, called in a state that matches, leaves a state that matches one the protocol can reach, and its answer
      is the protocol's. */
  method ReportOnceRefines(agent: Agent, limit: nat, ghost a: State, sends: nat -> Sending, id: string)
      returns (ok: bool, ghost z: State)
    requires Matches(agent, a) && ReadyToReport(limit, a) && FreshId(a.created, id)
    modifies agent`pending, agent.store
    ensures Leads(limit, a, z) && Matches(agent, z)
    ensures z.final.Returned? && z.final.ok == (ok && !a.collectErr)
  {
    var metrics;
    ok, metrics := agent.ReportOnce(sends, id);
    ghost var listing := metrics;
    if Failing(a.pending, sends) != [] {
      listing := SomeListing(a.store);
    }
    z := Report(limit, a, sends, listing, id);
    ReportOnceIsARun(limit, a, sends, listing, id);
    ReportMatches(limit, a, sends, listing, id);
    ReportedStore(limit, a, sends, listing, id);
  }

  /** A report worker that receives a batch leaves pending what the protocol leaves there, whether the batch is acknowledged
      or pending again. */
  method ReportWorkerRefines(agent: Agent, limit: nat, ghost a: State, slot: nat, b: Batch, sending: Sending)
      returns (ghost z: State)
    requires Matches(agent, a) && slot < limit && WorkerIs(a, slot, Idle)
    requires a.jobs != [] && a.jobs[0] == b && b.metrics != []
    modifies agent`pending
    ensures Leads(limit, a, z) && Matches(agent, z) && WorkerIs(z, slot, Idle) && z.jobs == a.jobs[1..]
    ensures GetsThrough(sending) ==> z.acked == a.acked + [b] && z.pending == a.pending
    ensures !GetsThrough(sending) ==> z.acked == a.acked && z.pending == a.pending + [b]
  {
    agent.ReportWorker([b], _ => sending);
    ghost var m := AfterReceive(a, slot);
    LeadsStep(limit, a, Receive(slot));
    LeadsSend(limit, slot, m, b, sending);
    z := AfterSend(limit, slot, m, Delivered(b, sending));
    LeadsOn(limit, a, m, z);
    DeliveredIff(b, sending);
    assert Failing([b], _ => sending) == if Delivered(b, sending) then [] else [b];
  }

  /** So does enqueueReport, as far as the channel has room; what it pushed is what the channel has gained. */
  method EnqueueReportRefines(agent: Agent, limit: nat, ghost a: State, accepts: nat -> bool, id: string)
      returns (pushed: seq<Batch>, ghost z: State)
    requires Matches(agent, a) && a.enq == Resting && |a.jobs| <= limit && FreshId(a.created, id)
    requires forall i: nat :: if accepts(i) then |a.jobs| + i < limit else a.canceled
    modifies agent`pending, agent.store
    ensures Leads(limit, a, z) && Matches(agent, z)
    ensures z.jobs == a.jobs + pushed && z.enq == Resting
  {
    ghost var batches;
    pushed, batches := agent.EnqueueReport(accepts, id);
    ghost var metrics := ReportListing(agent, a, id, batches);
    z := Enqueued(a, metrics, id, |pushed|);
    if |pushed| > 0 { assert accepts(|pushed| - 1); }
    if |pushed| < |batches| { assert !accepts(|pushed|); }
    EnqueueReportIsARun(limit, a, metrics, id, |pushed|);
    EnqueuedParts(a, metrics, id, batches, pushed, agent.pending);
  }

  /** The listing behind a report. */
  lemma ReportListing(agent: Agent, a: State, id: string, batches: seq<Batch>) returns (metrics: seq<Metric>)
    requires agent.IsReport(batches, a.pending, a.store, id)
    ensures IsListing(metrics, a.store) && Todo(a, metrics, id) == batches
  {
    if a.pending != [] {
      metrics := SomeListing(a.store);
    } else if batches == [] {
      metrics := [];
      var listing := SomeListing(a.store);
      assert listing == [];
    } else {
      metrics := batches[0].metrics;
      assert batches == [Batch(id, metrics)];
    }
  }

  lemma EnqueuedParts(a: State, metrics: seq<Metric>, id: string, batches: seq<Batch>, pushed: seq<Batch>, rest: seq<Batch>)
    requires IsListing(metrics, a.store) && Todo(a, metrics, id) == batches && batches == pushed + rest
    ensures var z := Enqueued(a, metrics, id, |pushed|);
      && z.jobs == a.jobs + pushed && z.pending == rest && z.enq == Resting
      && z.store == if a.pending != [] then a.store else Maps(a.store.gauges, map[])
  {
    EnqueuedMatches(a, metrics, id, |pushed|);
    assert batches[..|pushed|] == pushed && batches[|pushed|..] == rest;
  }
}
