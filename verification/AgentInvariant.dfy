/** What every step of the agent keeps: custody of batches, the shape of shutdown, the balance of counters. */
module AgentInvariant {
  import opened Metrics
  import opened Retry
  import opened AgentProtocol

  // ---------------------------------------------------------------- custody

  /** Weight of a worker that counts b when the worker is sending it. */
  function Carries(b: Batch): Worker -> nat {
    (w: Worker) => if w.Busy? && w.sender.batch == b then 1 else 0
  }

  function EnqueuerRest(q: Enqueuer): seq<Batch> {
    if q.Pushing? || q.Aborting? then q.rest else []
  }

  function FinalRest(f: Final): seq<Batch> {
    if f.Draining? then f.rest else []
  }

  /** In how many hands b is: pending, the enqueuer's slice, the channel, the senders, ReportOnce's slice. */
  function InHand(a: Agent, b: Batch): nat {
    Times(a.pending, b) + Times(EnqueuerRest(a.enq), b) + Times(a.jobs, b) + Sum(a.workers, Carries(b))
    + Times(FinalRest(a.final), b)
  }

  /** b is acknowledged or in hand exactly as often as it was created. */
  predicate Accounted(a: Agent, b: Batch) {
    Times(a.created, b) == Times(a.acked, b) + InHand(a, b)
  }

  // ---------------------------------------------------------------- shape of a run

  predicate SenderOk(w: Worker) {
    w.Busy? ==> if w.sender.waiting then 1 <= w.sender.attempts <= MAX_ATTEMPTS else w.sender.attempts < MAX_ATTEMPTS
  }

  predicate ReportersGone(limit: nat, a: Agent) {
    a.enq == Left && !a.collecting && limit <= |a.workers| && forall i | 0 <= i < limit :: a.workers[i] == Exited
  }

  /** How the goroutines stand to each other: the channel is bounded and is closed exactly by a report loop
      that has returned, workers leave only once it is drained, and ReportOnce runs alone. */
  predicate Shape(limit: nat, a: Agent) {
    && |a.workers| == limit + 1
    && |a.jobs| <= limit
    && (a.closed <==> a.enq == Left)
    && (forall i | 0 <= i <= limit :: SenderOk(a.workers[i]))
    && (forall i | 0 <= i < limit && a.workers[i] == Exited :: a.closed && a.jobs == [])
    && (a.final != NotYet ==> ReportersGone(limit, a))
    && a.workers[limit] != Exited
    && (a.workers[limit].Busy? ==> a.final.Closing? || a.final.Draining?)
    && (a.final.Closing? ==> a.workers[limit].Busy?)
  }

  // ---------------------------------------------------------------- history

  /** Batches are never empty and no id is used twice. */
  predicate Identified(created: seq<Batch>) {
    && (forall b | b in created :: b.id != "" && b.metrics != [])
    && (forall i, j | 0 <= i < j < |created| :: created[i].id != created[j].id)
  }

  predicate Mentions(bs: seq<Batch>, name: string) {
    exists b | b in bs :: UsesCounter(b.metrics, name)
  }

  /** Increments of a counter that are neither in the store nor in a batch. */
  function Unplaced(store: Maps, created: seq<Batch>, totals: map<string, int>, name: string): int {
    Total(totals, name) - SumDelta(created, name) - Count(store.counters, name)
  }

  /** What was ever added to a counter is in the store or in some batch, modulo 2^64. */
  ghost predicate CounterBalance(store: Maps, created: seq<Batch>, totals: map<string, int>, name: string) {
    && Unplaced(store, created, totals, name) % TWO64 == 0
    && (name in totals <==> name in store.counters || Mentions(created, name))
  }

  /** Batches report only gauges that the store still has. */
  ghost predicate GaugesKnown(store: Maps, created: seq<Batch>) {
    forall b, name | b in created && UsesGauge(b.metrics, name) :: name in store.gauges
  }

  /** l is the snapshot that the last batch lists, and the store has not moved since. */
  ghost predicate LastListed(a: Agent, l: Maps) {
    && a.pending == [] && a.store == Maps(l.gauges, map[])
    && if l == EMPTY then true else a.created != [] && IsListing(a.created[|a.created| - 1].metrics, l)
  }

  /** The final ReportOnce: no failure so far means nothing pending; its own batch lists the whole store. */
  ghost predicate FinalOk(limit: nat, a: Agent) {
    match a.final
    case NotYet => true
    case Draining(_, failed) => !failed ==> a.pending == []
    case Snapping => a.pending == []
    case Closing(l) =>
      LastListed(a, l) && l != EMPTY
      && limit < |a.workers| && a.workers[limit].Busy?
      && a.workers[limit].sender.batch == a.created[|a.created| - 1]
    case Returned(ok, l) => ok ==> !a.collectErr && LastListed(a, l)
  }

  ghost predicate Inv(limit: nat, a: Agent) {
    && Shape(limit, a)
    && (forall b :: Accounted(a, b))
    && Identified(a.created)
    && (forall name :: CounterBalance(a.store, a.created, a.totals, name))
    && GaugesKnown(a.store, a.created)
    && FinalOk(limit, a)
  }

  /** A step that moves no batch. */
  lemma SameHands(a: Agent, a': Agent)
    requires forall b :: Accounted(a, b)
    requires a'.pending == a.pending && a'.jobs == a.jobs && a'.workers == a.workers
    requires EnqueuerRest(a'.enq) == EnqueuerRest(a.enq) && FinalRest(a'.final) == FinalRest(a.final)
    requires a'.created == a.created && a'.acked == a.acked
    ensures forall b :: Accounted(a', b)
  {
    assert forall b :: Accounted(a, b) ==> Accounted(a', b);
  }

  // ---------------------------------------------------------------- history events

  lemma IncrementOk(limit: nat, a: Agent, name: string, d: int64)
    requires Inv(limit, a) && Enabled(limit, a, Increment(name, d))
    ensures Inv(limit, AfterIncrement(a, name, d))
  {
    var a' := AfterIncrement(a, name, d);
    forall n ensures CounterBalance(a'.store, a'.created, a'.totals, n) {
      assert CounterBalance(a.store, a.created, a.totals, n);
      assert Unplaced(a'.store, a'.created, a'.totals, n) - Unplaced(a.store, a.created, a.totals, n)
        == if n == name then Count(a.store.counters, n) + d - Wrap(Count(a.store.counters, n) + d) else 0;
    }
    SameHands(a, a');
  }

  lemma SetGaugeOk(limit: nat, a: Agent, name: string, v: Float)
    requires Inv(limit, a) && Enabled(limit, a, SetGauge(name, v))
    ensures Inv(limit, a.(store := ApplyOne(a.store, GaugeMetric(name, v))))
  {
    var a' := a.(store := ApplyOne(a.store, GaugeMetric(name, v)));
    SameHands(a, a');
    assert forall n ::
      CounterBalance(a.store, a.created, a.totals, n) ==> CounterBalance(a'.store, a'.created, a'.totals, n);
  }

  lemma MentionsAppend(bs: seq<Batch>, b: Batch, name: string)
    ensures Mentions(bs + [b], name) <==> Mentions(bs, name) || UsesCounter(b.metrics, name)
  {
    assert b in bs + [b];
  }

  lemma SumDeltaAppend(bs: seq<Batch>, b: Batch, name: string)
    ensures SumDelta(bs + [b], name) == SumDelta(bs, name) + Delta(b.metrics, name)
  {
    assert (bs + [b])[..|bs|] == bs;
  }

  /** A batch takes over exactly what the counters held. */
  lemma CreateBalance(store: Maps, created: seq<Batch>, totals: map<string, int>, b: Batch, name: string)
    requires CounterBalance(store, created, totals, name)
    requires Delta(b.metrics, name) == Count(store.counters, name)
    requires UsesCounter(b.metrics, name) <==> name in store.counters
    ensures CounterBalance(Maps(store.gauges, map[]), created + [b], totals, name)
  {
    SumDeltaAppend(created, b, name);
    assert Unplaced(Maps(store.gauges, map[]), created + [b], totals, name) == Unplaced(store, created, totals, name);
    MentionsAppend(created, b, name);
  }

  lemma CreateHistory(store: Maps, created: seq<Batch>, totals: map<string, int>, b: Batch)
    requires Identified(created) && GaugesKnown(store, created)
    requires forall name :: CounterBalance(store, created, totals, name)
    requires IsListing(b.metrics, store) && FreshId(created, b.id) && b.metrics != []
    ensures Identified(created + [b]) && GaugesKnown(Maps(store.gauges, map[]), created + [b])
    ensures forall name :: CounterBalance(Maps(store.gauges, map[]), created + [b], totals, name)
  {
    CreateIdentified(created, b);
    CreateBalances(store, created, totals, b);
    CreateGauges(store, created, b);
  }

  lemma CreateIdentified(created: seq<Batch>, b: Batch)
    requires Identified(created) && FreshId(created, b.id) && b.metrics != []
    ensures Identified(created + [b])
  {
    assert forall i | 0 <= i < |created| :: created[i] in created;
  }

  lemma CreateBalances(store: Maps, created: seq<Batch>, totals: map<string, int>, b: Batch)
    requires IsListing(b.metrics, store) && forall name :: CounterBalance(store, created, totals, name)
    ensures forall name :: CounterBalance(Maps(store.gauges, map[]), created + [b], totals, name)
  {
    forall name ensures CounterBalance(Maps(store.gauges, map[]), created + [b], totals, name) {
      ListingDelta(b.metrics, store, name);
      ListingUses(b.metrics, store, name);
      CreateBalance(store, created, totals, b, name);
    }
  }

  lemma CreateGauges(store: Maps, created: seq<Batch>, b: Batch)
    requires GaugesKnown(store, created) && IsListing(b.metrics, store)
    ensures GaugesKnown(Maps(store.gauges, map[]), created + [b])
  {
    forall b', name | b' in created + [b] && UsesGauge(b'.metrics, name) ensures name in store.gauges {
      if b' == b { ListingUses(b.metrics, store, name); }
    }
  }

  lemma EmptyListing(metrics: seq<Metric>, m: Maps)
    requires IsListing(metrics, m)
    ensures metrics == [] <==> m == EMPTY
  {
  }

  lemma CollectOk(limit: nat, a: Agent, metrics: seq<Metric>, id: string)
    requires Inv(limit, a) && Enabled(limit, a, Collect(metrics, id))
    ensures Inv(limit, AfterCollect(a, metrics, id))
  {
    var a', batch := AfterCollect(a, metrics, id), Batch(id, metrics);
    if metrics != [] {
      CreateHistory(a.store, a.created, a.totals, batch);
    }
    forall b ensures Accounted(a', b) {
      assert Accounted(a, b);
      TimesAppend(a.created, batch, b);
      TimesAppend([], batch, b);
    }
  }

  // ---------------------------------------------------------------- events of the enqueuer

  lemma TakePendingOk(limit: nat, a: Agent)
    requires Inv(limit, a) && Enabled(limit, a, TakePending)
    ensures Inv(limit, AfterTakePending(a))
  {
    var a' := AfterTakePending(a);
    if a.pending == [] {
      assert a' == a.(enq := Collecting);
    }
    assert forall b :: Accounted(a, b) ==> Accounted(a', b);
  }

  lemma AbortOk(limit: nat, a: Agent)
    requires Inv(limit, a) && Enabled(limit, a, Abort)
    ensures Inv(limit, AfterAbort(a))
  {
    assert forall b :: Accounted(a, b) ==> Accounted(AfterAbort(a), b);
  }

  lemma PushOk(limit: nat, a: Agent)
    requires Inv(limit, a) && Enabled(limit, a, Push)
    ensures Inv(limit, AfterPush(a))
  {
    forall b ensures Accounted(AfterPush(a), b) {
      assert Accounted(a, b);
      TimesFirst(a.enq.rest, b);
      TimesAppend(a.jobs, a.enq.rest[0], b);
    }
  }

  lemma RequeueRestOk(limit: nat, a: Agent)
    requires Inv(limit, a) && Enabled(limit, a, RequeueRest)
    ensures Inv(limit, AfterRequeueRest(a))
  {
    forall b ensures Accounted(AfterRequeueRest(a), b) {
      assert Accounted(a, b);
      TimesFirst(a.enq.rest, b);
      TimesAppend(a.pending, a.enq.rest[0], b);
    }
  }

  // Cancellation, the end of collection and the return of the report loop move no batch.

  lemma CancelOk(limit: nat, a: Agent, failed: bool)
    requires Inv(limit, a) && Enabled(limit, a, Cancel(failed))
    ensures Inv(limit, a.(canceled := true, collectErr := a.collectErr || failed))
  {
    var a' := a.(canceled := true, collectErr := a.collectErr || failed);
    CancelShape(limit, a, failed);
    SameHands(a, a');
  }

  lemma CancelShape(limit: nat, a: Agent, failed: bool)
    requires Shape(limit, a) && FinalOk(limit, a) && Enabled(limit, a, Cancel(failed))
    ensures var a' := a.(canceled := true, collectErr := a.collectErr || failed); Shape(limit, a') && FinalOk(limit, a')
  {
  }

  lemma StopCollectingOk(limit: nat, a: Agent)
    requires Inv(limit, a) && Enabled(limit, a, StopCollecting)
    ensures Inv(limit, a.(collecting := false))
  {
    var a' := a.(collecting := false);
    SameHands(a, a');
  }

  lemma LeaveOk(limit: nat, a: Agent)
    requires Inv(limit, a) && Enabled(limit, a, Leave)
    ensures Inv(limit, a.(enq := Left, closed := true))
  {
    var a' := a.(enq := Left, closed := true);
    SameHands(a, a');
  }

  // ---------------------------------------------------------------- events of the workers

  lemma ReceiveOk(limit: nat, a: Agent, i: nat)
    requires Inv(limit, a) && Enabled(limit, a, Receive(i))
    ensures Inv(limit, AfterReceive(a, i))
  {
    forall b ensures Accounted(AfterReceive(a, i), b) {
      assert Accounted(a, b);
      TimesFirst(a.jobs, b);
      SumUpdate(a.workers, i, AfterReceive(a, i).workers[i], Carries(b));
    }
  }

  lemma ExitOk(limit: nat, a: Agent, i: nat)
    requires Inv(limit, a) && Enabled(limit, a, Exit(i))
    ensures Inv(limit, a.(workers := a.workers[i := Exited]))
  {
    var a' := a.(workers := a.workers[i := Exited]);
    forall b ensures Accounted(a', b) {
      assert Accounted(a, b);
      SumUpdate(a.workers, i, Exited, Carries(b));
    }
  }

  lemma WithSenderOk(limit: nat, a: Agent, i: nat, attempts: nat, waiting: bool)
    requires Inv(limit, a) && i < |a.workers| && a.workers[i].Busy?
    requires SenderOk(Busy(Sender(a.workers[i].sender.batch, attempts, waiting)))
    ensures Inv(limit, WithSender(a, i, attempts, waiting))
  {
    var a' := WithSender(a, i, attempts, waiting);
    forall b ensures Accounted(a', b) {
      assert Accounted(a, b);
      SumUpdate(a.workers, i, a'.workers[i], Carries(b));
    }
  }

  lemma GiveUpOk(limit: nat, a: Agent, i: nat)
    requires Inv(limit, a) && Enabled(limit, a, GiveUp(i))
    ensures Inv(limit, AfterGiveUp(limit, a, i))
  {
    GiveUpShape(limit, a, i);
    GiveUpFinal(limit, a, i);
    forall b ensures Accounted(AfterGiveUp(limit, a, i), b) {
      GiveUpAccounted(limit, a, i, b);
    }
  }

  lemma GiveUpShape(limit: nat, a: Agent, i: nat)
    requires Shape(limit, a) && i < |a.workers| && a.workers[i].Busy?
    ensures Shape(limit, AfterGiveUp(limit, a, i))
  {
  }

  lemma GiveUpFinal(limit: nat, a: Agent, i: nat)
    requires Shape(limit, a) && FinalOk(limit, a) && i < |a.workers| && a.workers[i].Busy?
    ensures FinalOk(limit, AfterGiveUp(limit, a, i))
  {
  }

  lemma GiveUpAccounted(limit: nat, a: Agent, i: nat, b: Batch)
    requires Accounted(a, b) && i < |a.workers| && a.workers[i].Busy?
    ensures Accounted(AfterGiveUp(limit, a, i), b)
  {
    TimesAppend(a.pending, a.workers[i].sender.batch, b);
    SumUpdate(a.workers, i, Idle, Carries(b));
  }

  lemma AcknowledgeOk(limit: nat, a: Agent, i: nat)
    requires Inv(limit, a) && Enabled(limit, a, Acknowledge(i))
    ensures Inv(limit, AfterAcknowledge(limit, a, i))
  {
    AcknowledgeShape(limit, a, i);
    AcknowledgeFinal(limit, a, i);
    forall b ensures Accounted(AfterAcknowledge(limit, a, i), b) {
      AcknowledgeAccounted(limit, a, i, b);
    }
  }

  lemma AcknowledgeShape(limit: nat, a: Agent, i: nat)
    requires Shape(limit, a) && i < |a.workers| && a.workers[i].Busy?
    ensures Shape(limit, AfterAcknowledge(limit, a, i))
  {
  }

  lemma AcknowledgeFinal(limit: nat, a: Agent, i: nat)
    requires Shape(limit, a) && FinalOk(limit, a) && i < |a.workers| && a.workers[i].Busy?
    ensures FinalOk(limit, AfterAcknowledge(limit, a, i))
  {
  }

  lemma AcknowledgeAccounted(limit: nat, a: Agent, i: nat, b: Batch)
    requires Accounted(a, b) && i < |a.workers| && a.workers[i].Busy?
    ensures Accounted(AfterAcknowledge(limit, a, i), b)
  {
    TimesAppend(a.acked, a.workers[i].sender.batch, b);
    SumUpdate(a.workers, i, Idle, Carries(b));
  }

  // ---------------------------------------------------------------- events of the final report

  lemma StartFinalOk(limit: nat, a: Agent)
    requires Inv(limit, a) && Enabled(limit, a, StartFinal)
    ensures Inv(limit, Next(limit, a, StartFinal))
  {
    assert forall b :: Accounted(a, b) ==> Accounted(Next(limit, a, StartFinal), b);
  }

  lemma NextFinalOk(limit: nat, a: Agent)
    requires Inv(limit, a) && Enabled(limit, a, NextFinal)
    ensures Inv(limit, AfterNextFinal(limit, a))
  {
    forall b ensures Accounted(AfterNextFinal(limit, a), b) {
      assert Accounted(a, b);
      TimesFirst(a.final.rest, b);
      SumUpdate(a.workers, limit, AfterNextFinal(limit, a).workers[limit], Carries(b));
    }
  }

  lemma EndPendingOk(limit: nat, a: Agent)
    requires Inv(limit, a) && Enabled(limit, a, EndPending)
    ensures Inv(limit, Next(limit, a, EndPending))
  {
    SameHands(a, Next(limit, a, EndPending));
  }

  lemma FinalSnapshotOk(limit: nat, a: Agent, metrics: seq<Metric>, id: string)
    requires Inv(limit, a) && Enabled(limit, a, FinalSnapshot(metrics, id))
    ensures Inv(limit, AfterFinalSnapshot(limit, a, metrics, id))
  {
    EmptyListing(metrics, a.store);
    if metrics == [] {
      var a' := AfterFinalSnapshot(limit, a, metrics, id);
      assert forall b :: Accounted(a, b) ==> Accounted(a', b);
    } else {
      FinalBatchOk(limit, a, metrics, id);
    }
  }

  lemma FinalBatchOk(limit: nat, a: Agent, metrics: seq<Metric>, id: string)
    requires Inv(limit, a) && Enabled(limit, a, FinalSnapshot(metrics, id)) && metrics != [] && a.store != EMPTY
    ensures Inv(limit, AfterFinalSnapshot(limit, a, metrics, id))
  {
    var a', batch := AfterFinalSnapshot(limit, a, metrics, id), Batch(id, metrics);
    CreateHistory(a.store, a.created, a.totals, batch);
    FinalBatchShape(limit, a, metrics, id);
    forall b ensures Accounted(a', b) {
      assert Accounted(a, b);
      TimesAppend(a.created, batch, b);
      SumUpdate(a.workers, limit, a'.workers[limit], Carries(b));
    }
  }

  lemma FinalBatchShape(limit: nat, a: Agent, metrics: seq<Metric>, id: string)
    requires Shape(limit, a) && FinalOk(limit, a) && a.final == Snapping && a.workers[limit] == Idle
    requires IsListing(metrics, a.store) && metrics != [] && a.store != EMPTY
    ensures Shape(limit, AfterFinalSnapshot(limit, a, metrics, id))
    ensures FinalOk(limit, AfterFinalSnapshot(limit, a, metrics, id))
  {
    var a' := AfterFinalSnapshot(limit, a, metrics, id);
    assert a'.created[|a'.created| - 1] == Batch(id, metrics);
  }

  // ---------------------------------------------------------------- every step, every run

  lemma StartOk(limit: nat)
    ensures Inv(limit, Start(limit))
  {
    var a := Start(limit);
    forall b ensures Accounted(a, b) {
      SumZero(a.workers, Carries(b));
    }
  }

  predicate CollectorEvent(e: Event) { e.SetGauge? || e.Increment? || e.Cancel? || e.StopCollecting? }

  predicate ReportLoopEvent(e: Event) {
    e.TakePending? || e.Collect? || e.Push? || e.Abort? || e.RequeueRest? || e.Leave?
  }

  predicate SenderEvent(e: Event) {
    e.Receive? || e.Exit? || e.Attempt? || e.Backoff? || e.GiveUp? || e.Acknowledge?
  }

  lemma ReportLoopStep(limit: nat, a: Agent, e: Event)
    requires Inv(limit, a) && Enabled(limit, a, e) && ReportLoopEvent(e)
    ensures Inv(limit, Next(limit, a, e))
  {
    match e
    case TakePending => TakePendingOk(limit, a);
    case Collect(metrics, id) => CollectOk(limit, a, metrics, id);
    case Push => PushOk(limit, a);
    case Abort => AbortOk(limit, a);
    case RequeueRest => RequeueRestOk(limit, a);
    case Leave => LeaveOk(limit, a);
  }

  lemma ChannelStep(limit: nat, a: Agent, e: Event)
    requires Inv(limit, a) && Enabled(limit, a, e) && (e.Receive? || e.Exit?)
    ensures Inv(limit, Next(limit, a, e))
  {
    if e.Receive? {
      ReceiveOk(limit, a, e.i);
    } else {
      ExitOk(limit, a, e.i);
    }
  }

  lemma CollectorStep(limit: nat, a: Agent, e: Event)
    requires Inv(limit, a) && Enabled(limit, a, e) && CollectorEvent(e)
    ensures Inv(limit, Next(limit, a, e))
  {
    match e
    case SetGauge(name, v) => SetGaugeOk(limit, a, name, v);
    case Increment(name, d) => IncrementOk(limit, a, name, d);
    case Cancel(failed) => CancelOk(limit, a, failed);
    case StopCollecting => StopCollectingOk(limit, a);
  }

  lemma SenderStep(limit: nat, a: Agent, e: Event)
    requires Inv(limit, a) && Enabled(limit, a, e) && SenderEvent(e) && !e.Receive? && !e.Exit?
    ensures Inv(limit, Next(limit, a, e))
  {
    match e
    case Attempt(i) => AttemptOk(limit, a, i);
    case Backoff(i) => BackoffOk(limit, a, i);
    case _ => SettleStep(limit, a, e);
  }

  lemma SettleStep(limit: nat, a: Agent, e: Event)
    requires Inv(limit, a) && Enabled(limit, a, e) && (e.GiveUp? || e.Acknowledge?)
    ensures Inv(limit, Next(limit, a, e))
  {
    match e
    case GiveUp(i) => GiveUpOk(limit, a, i);
    case Acknowledge(i) => AcknowledgeOk(limit, a, i);
  }

  lemma AttemptOk(limit: nat, a: Agent, i: nat)
    requires Inv(limit, a) && Enabled(limit, a, Attempt(i))
    ensures Inv(limit, Next(limit, a, Attempt(i)))
  {
    AttemptNext(limit, a, i);
    WithSenderOk(limit, a, i, a.workers[i].sender.attempts + 1, true);
  }

  lemma AttemptNext(limit: nat, a: Agent, i: nat)
    requires Enabled(limit, a, Attempt(i))
    ensures Next(limit, a, Attempt(i)) == WithSender(a, i, a.workers[i].sender.attempts + 1, true)
  {
  }

  lemma BackoffOk(limit: nat, a: Agent, i: nat)
    requires Inv(limit, a) && Enabled(limit, a, Backoff(i))
    ensures Inv(limit, Next(limit, a, Backoff(i)))
  {
    BackoffNext(limit, a, i);
    WithSenderOk(limit, a, i, a.workers[i].sender.attempts, false);
  }

  lemma BackoffNext(limit: nat, a: Agent, i: nat)
    requires Enabled(limit, a, Backoff(i))
    ensures Next(limit, a, Backoff(i)) == WithSender(a, i, a.workers[i].sender.attempts, false)
  {
  }

  lemma FinalStep(limit: nat, a: Agent, e: Event)
    requires Inv(limit, a) && Enabled(limit, a, e)
    requires e.StartFinal? || e.NextFinal? || e.EndPending? || e.FinalSnapshot?
    ensures Inv(limit, Next(limit, a, e))
  {
    match e
    case StartFinal => StartFinalOk(limit, a);
    case NextFinal => NextFinalOk(limit, a);
    case EndPending => EndPendingOk(limit, a);
    case FinalSnapshot(metrics, id) => FinalSnapshotOk(limit, a, metrics, id);
  }

  lemma StepKeepsInv(limit: nat, a: Agent, e: Event)
    requires Inv(limit, a) && Enabled(limit, a, e)
    ensures Inv(limit, Next(limit, a, e))
  {
    if CollectorEvent(e) {
      CollectorStep(limit, a, e);
    } else if ReportLoopEvent(e) {
      ReportLoopStep(limit, a, e);
    } else if e.Receive? || e.Exit? {
      ChannelStep(limit, a, e);
    } else if SenderEvent(e) {
      SenderStep(limit, a, e);
    } else {
      FinalStep(limit, a, e);
    }
  }

  // ---------------------------------------------------------------- what a step adds to history

  /** The final ReportOnce has sent its own batch, or is sending it. */
  predicate Reported(f: Final) { f.Closing? || (f.Returned? && f.ok && f.listed != EMPTY) }

  /** From a to a': no batch more, or the one of e's snapshot; none less; Reported only by a snapshot. */
  predicate HistoryStep(a: Agent, e: Event, a': Agent) {
    && (a'.acked == a.acked || (e.Acknowledge? && e.i < |a.workers| && a.workers[e.i].Busy?
                                && a'.acked == a.acked + [a.workers[e.i].sender.batch]))
    && (a'.created == a.created
        || ((e.Collect? || e.FinalSnapshot?) && a'.created == a.created + [Batch(e.id, e.metrics)]))
    && (Reported(a'.final) ==> e.FinalSnapshot? || (a'.created == a.created && Reported(a.final)))
  }

  lemma ReportLoopHistory(limit: nat, a: Agent, e: Event)
    requires Shape(limit, a) && Enabled(limit, a, e) && ReportLoopEvent(e)
    ensures HistoryStep(a, e, Next(limit, a, e))
  {
    if e.Collect? {
      CollectHistory(limit, a, e.metrics, e.id);
    } else {
      EnqueueHistory(limit, a, e);
    }
  }

  lemma CollectHistory(limit: nat, a: Agent, metrics: seq<Metric>, id: string)
    requires Shape(limit, a) && Enabled(limit, a, Collect(metrics, id))
    ensures HistoryStep(a, Collect(metrics, id), AfterCollect(a, metrics, id))
  {
  }

  lemma EnqueueHistory(limit: nat, a: Agent, e: Event)
    requires Shape(limit, a) && Enabled(limit, a, e) && ReportLoopEvent(e) && !e.Collect?
    ensures HistoryStep(a, e, Next(limit, a, e))
  {
  }

  lemma SenderHistory(limit: nat, a: Agent, e: Event)
    requires Shape(limit, a) && FinalOk(limit, a) && Enabled(limit, a, e) && SenderEvent(e)
    ensures HistoryStep(a, e, Next(limit, a, e))
  {
  }

  lemma StepHistory(limit: nat, a: Agent, e: Event)
    requires Inv(limit, a) && Enabled(limit, a, e)
    ensures HistoryStep(a, e, Next(limit, a, e))
    ensures e.FinalSnapshot? && Reported(Next(limit, a, e).final) ==>
      Next(limit, a, e).created == a.created + [Batch(e.id, e.metrics)]
  {
    if ReportLoopEvent(e) {
      ReportLoopHistory(limit, a, e);
    } else if SenderEvent(e) {
      SenderHistory(limit, a, e);
    } else if e.FinalSnapshot? {
      EmptyListing(e.metrics, a.store);
    }
  }

  lemma {:induction false} RunKeepsInv(limit: nat, states: seq<Agent>, events: seq<Event>, k: nat)
    requires IsRun(limit, states, events) && Inv(limit, states[0]) && k <= |events|
    ensures Inv(limit, states[k])
  {
    if k > 0 {
      RunKeepsInv(limit, states, events, k - 1);
      StepKeepsInv(limit, states[k - 1], events[k - 1]);
    }
  }
}
