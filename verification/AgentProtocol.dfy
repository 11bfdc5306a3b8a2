/** The agent's goroutines as a step relation (internal/agent/agent.go): the collectors, the report loop with
    its enqueuer, the bounded jobs channel, the report workers and the final ReportOnce. One step is one
    section under a mutex, one channel operation or one network event. */
module AgentProtocol {
  import opened Metrics
  import opened Retry

  /** Keyless updates carry the empty id. */
  datatype Batch = Batch(id: string, metrics: seq<Metric>)

  /** A call of sendBatch: attempts begun so far, and whether the latest one is still unanswered. */
  datatype Sender = Sender(batch: Batch, attempts: nat, waiting: bool)

  datatype Worker = Idle | Busy(sender: Sender) | Exited

  /** Where the report loop is: between reports, past an empty takePending, inside the enqueue loop, putting
      the remainder back after cancellation, or returned. */
  datatype Enqueuer = Resting | Collecting | Pushing(rest: seq<Batch>) | Aborting(rest: seq<Batch>) | Left

  /** Where the final ReportOnce of Run is. listed is the snapshot it took. */
  datatype Final =
    | NotYet
    | Draining(rest: seq<Batch>, failed: bool)
    | Snapping
    | Closing(listed: Maps)
    | Returned(ok: bool, listed: Maps)

  /** Slots 0..limit-1 are the report workers; the last slot is the goroutine that runs ReportOnce.
      created, acked and totals record history. */
  datatype Agent = Agent(
    store: Maps, pending: seq<Batch>, enq: Enqueuer, jobs: seq<Batch>, closed: bool, workers: seq<Worker>,
    final: Final, canceled: bool, collecting: bool, collectErr: bool,
    created: seq<Batch>, acked: seq<Batch>, totals: map<string, int>)

  datatype Event =
    | SetGauge(name: string, value: Float)
    | Increment(name: string, delta: int64)
    | Cancel(collectorFailed: bool)
    | StopCollecting
    | TakePending
    | Collect(metrics: seq<Metric>, id: string)
    | Push
    | Abort
    | RequeueRest
    | Leave
    | Receive(i: nat)
    | Exit(i: nat)
    | Attempt(i: nat)
    | Backoff(i: nat)
    | GiveUp(i: nat)
    | Acknowledge(i: nat)
    | StartFinal
    | NextFinal
    | EndPending
    | FinalSnapshot(metrics: seq<Metric>, id: string)

  function Start(limit: nat): Agent {
    Agent(EMPTY, [], Resting, [], false, seq(limit + 1, _ => Idle), NotYet, false, true, false, [], [], map[])
  }

  // ---------------------------------------------------------------- when a step can happen

  /** rand.Text never repeats a value. */
  predicate FreshId(created: seq<Batch>, id: string) {
    id != "" && forall b | b in created :: b.id != id
  }

  predicate WorkerIs(a: Agent, i: nat, w: Worker) { i < |a.workers| && a.workers[i] == w }

  predicate Sending(a: Agent, i: nat, waiting: bool) {
    i < |a.workers| && a.workers[i].Busy? && a.workers[i].sender.waiting == waiting
  }

  ghost predicate Enabled(limit: nat, a: Agent, e: Event) {
    match e
    case SetGauge(_, _) => a.collecting
    case Increment(_, _) => a.collecting
    case Cancel(failed) => failed ==> a.collecting
    case StopCollecting => a.canceled
    case TakePending => a.enq == Resting
    case Collect(metrics, id) => a.enq == Collecting && IsListing(metrics, a.store) && FreshId(a.created, id)
    case Push => a.enq.Pushing? && a.enq.rest != [] && |a.jobs| < limit
    case Abort => a.enq.Pushing? && a.canceled
    case RequeueRest => a.enq.Aborting? && a.enq.rest != []
    case Leave => a.enq == Resting && a.canceled
    case Receive(i) => i < limit && WorkerIs(a, i, Idle) && a.jobs != []
    case Exit(i) => i < limit && WorkerIs(a, i, Idle) && a.jobs == [] && a.closed
    case Attempt(i) => Sending(a, i, false) && a.workers[i].sender.attempts < MAX_ATTEMPTS
    case Backoff(i) => Sending(a, i, true) && a.workers[i].sender.attempts < MAX_ATTEMPTS
    case GiveUp(i) => Sending(a, i, true) || (Sending(a, i, false) && a.workers[i].sender.attempts == 0)
    case Acknowledge(i) => Sending(a, i, true)
    case StartFinal =>
      a.final == NotYet && a.enq == Left && !a.collecting
      && limit <= |a.workers| && forall i | 0 <= i < limit :: a.workers[i] == Exited
    case NextFinal => a.final.Draining? && a.final.rest != [] && WorkerIs(a, limit, Idle)
    case EndPending => a.final.Draining? && a.final.rest == [] && WorkerIs(a, limit, Idle)
    case FinalSnapshot(metrics, id) =>
      a.final == Snapping && IsListing(metrics, a.store) && FreshId(a.created, id) && WorkerIs(a, limit, Idle)
  }

  // ---------------------------------------------------------------- what a step does

  function AfterIncrement(a: Agent, name: string, d: int64): Agent {
    a.(store := ApplyOne(a.store, CounterMetric(name, d)), totals := a.totals[name := Total(a.totals, name) + d])
  }

  function AfterTakePending(a: Agent): Agent {
    if a.pending == [] then a.(enq := Collecting) else a.(enq := Pushing(a.pending), pending := [])
  }

  /** SnapshotMetrics, and delivery.New on what it returned. */
  function AfterCreate(a: Agent, b: Batch): Agent {
    a.(store := Maps(a.store.gauges, map[]), created := a.created + [b])
  }

  function AfterCollect(a: Agent, metrics: seq<Metric>, id: string): Agent {
    if metrics == [] then a.(enq := Resting)
    else AfterCreate(a, Batch(id, metrics)).(enq := Pushing([Batch(id, metrics)]))
  }

  function AfterPush(a: Agent): Agent
    requires a.enq.Pushing? && a.enq.rest != []
  {
    var rest := a.enq.rest[1..];
    a.(jobs := a.jobs + [a.enq.rest[0]], enq := if rest == [] then Resting else Pushing(rest))
  }

  function AfterAbort(a: Agent): Agent
    requires a.enq.Pushing?
  {
    a.(enq := if a.enq.rest == [] then Resting else Aborting(a.enq.rest))
  }

  function AfterRequeueRest(a: Agent): Agent
    requires a.enq.Aborting? && a.enq.rest != []
  {
    var rest := a.enq.rest[1..];
    a.(pending := a.pending + [a.enq.rest[0]], enq := if rest == [] then Resting else Aborting(rest))
  }

  function AfterReceive(a: Agent, i: nat): Agent
    requires i < |a.workers| && a.jobs != []
  {
    a.(jobs := a.jobs[1..], workers := a.workers[i := Busy(Sender(a.jobs[0], 0, false))])
  }

  function WithSender(a: Agent, i: nat, attempts: nat, waiting: bool): Agent
    requires i < |a.workers| && a.workers[i].Busy?
  {
    a.(workers := a.workers[i := Busy(Sender(a.workers[i].sender.batch, attempts, waiting))])
  }

  /** A failed send in the ReportOnce slot decides the report. */
  function AfterGiveUp(limit: nat, a: Agent, i: nat): Agent
    requires i < |a.workers| && a.workers[i].Busy?
  {
    var final :=
      if i != limit then a.final
      else match a.final
           case Draining(rest, _) => Draining(rest, true)
           case Closing(l) => Returned(false, l)
           case _ => a.final;
    a.(pending := a.pending + [a.workers[i].sender.batch], workers := a.workers[i := Idle], final := final)
  }

  function AfterAcknowledge(limit: nat, a: Agent, i: nat): Agent
    requires i < |a.workers| && a.workers[i].Busy?
  {
    var final := if i == limit && a.final.Closing? then Returned(!a.collectErr, a.final.listed) else a.final;
    a.(acked := a.acked + [a.workers[i].sender.batch], workers := a.workers[i := Idle], final := final)
  }

  function AfterNextFinal(limit: nat, a: Agent): Agent
    requires a.final.Draining? && a.final.rest != [] && limit < |a.workers|
  {
    a.(final := Draining(a.final.rest[1..], a.final.failed),
       workers := a.workers[limit := Busy(Sender(a.final.rest[0], 0, false))])
  }

  function AfterFinalSnapshot(limit: nat, a: Agent, metrics: seq<Metric>, id: string): Agent
    requires limit < |a.workers|
  {
    if metrics == [] then a.(final := Returned(!a.collectErr, a.store))
    else
      AfterCreate(a, Batch(id, metrics)).(final := Closing(a.store),
        workers := a.workers[limit := Busy(Sender(Batch(id, metrics), 0, false))])
  }

  ghost function Next(limit: nat, a: Agent, e: Event): Agent
    requires Enabled(limit, a, e)
  {
    match e
    case SetGauge(name, v) => a.(store := ApplyOne(a.store, GaugeMetric(name, v)))
    case Increment(name, d) => AfterIncrement(a, name, d)
    case Cancel(failed) => a.(canceled := true, collectErr := a.collectErr || failed)
    case StopCollecting => a.(collecting := false)
    case TakePending => AfterTakePending(a)
    case Collect(metrics, id) => AfterCollect(a, metrics, id)
    case Push => AfterPush(a)
    case Abort => AfterAbort(a)
    case RequeueRest => AfterRequeueRest(a)
    case Leave => a.(enq := Left, closed := true)
    case Receive(i) => AfterReceive(a, i)
    case Exit(i) => a.(workers := a.workers[i := Exited])
    case Attempt(i) => WithSender(a, i, a.workers[i].sender.attempts + 1, true)
    case Backoff(i) => WithSender(a, i, a.workers[i].sender.attempts, false)
    case GiveUp(i) => AfterGiveUp(limit, a, i)
    case Acknowledge(i) => AfterAcknowledge(limit, a, i)
    case StartFinal => a.(final := Draining(a.pending, false), pending := [])
    case NextFinal => AfterNextFinal(limit, a)
    case EndPending => a.(final := if a.final.failed then Returned(false, EMPTY) else Snapping)
    case FinalSnapshot(metrics, id) => AfterFinalSnapshot(limit, a, metrics, id)
  }

  /** A run: events[k] takes states[k] to states[k + 1]. */
  ghost predicate IsRun(limit: nat, states: seq<Agent>, events: seq<Event>) {
    && |states| == |events| + 1
    && forall k | 0 <= k < |events| ::
         Enabled(limit, states[k], events[k]) && states[k + 1] == Next(limit, states[k], events[k])
  }

  // ---------------------------------------------------------------- sums over hands and history

  function Total(totals: map<string, int>, name: string): int {
    if name in totals then totals[name] else 0
  }

  /** How often b occurs in bs. */
  function Times(bs: seq<Batch>, b: Batch): nat { multiset(bs)[b] }

  function Sum(ws: seq<Worker>, weight: Worker -> nat): nat {
    if ws == [] then 0 else Sum(ws[..|ws| - 1], weight) + weight(ws[|ws| - 1])
  }

  lemma {:induction false} SumUpdate(ws: seq<Worker>, i: nat, w: Worker, weight: Worker -> nat)
    requires i < |ws|
    ensures Sum(ws[i := w], weight) + weight(ws[i]) == Sum(ws, weight) + weight(w)
  {
    var n := |ws| - 1;
    if i == n {
      assert ws[i := w][..n] == ws[..n];
    } else {
      SumUpdate(ws[..n], i, w, weight);
      assert ws[i := w][..n] == ws[..n][i := w];
    }
  }

  lemma {:induction false} SumBound(ws: seq<Worker>, weight: Worker -> nat, bound: nat)
    requires forall i | 0 <= i < |ws| :: weight(ws[i]) <= bound
    ensures Sum(ws, weight) <= bound * |ws|
  {
    if ws != [] {
      SumBound(ws[..|ws| - 1], weight, bound);
    }
  }

  lemma {:induction false} SumAtLeast(ws: seq<Worker>, weight: Worker -> nat, i: nat)
    requires i < |ws|
    ensures weight(ws[i]) <= Sum(ws, weight)
  {
    if i < |ws| - 1 {
      SumAtLeast(ws[..|ws| - 1], weight, i);
    }
  }

  lemma {:induction false} SumZero(ws: seq<Worker>, weight: Worker -> nat)
    ensures Sum(ws, weight) == 0 <==> forall i | 0 <= i < |ws| :: weight(ws[i]) == 0
  {
    if ws != [] {
      var init := ws[..|ws| - 1];
      SumZero(init, weight);
      assert forall i | 0 <= i < |init| :: init[i] == ws[i];
    }
  }

  lemma TimesAppend(bs: seq<Batch>, x: Batch, b: Batch)
    ensures Times(bs + [x], b) == Times(bs, b) + (if x == b then 1 else 0)
  {
  }

  lemma TimesFirst(bs: seq<Batch>, b: Batch)
    requires bs != []
    ensures Times(bs, b) == Times(bs[1..], b) + (if bs[0] == b then 1 else 0)
  {
    assert bs == [bs[0]] + bs[1..];
  }

  function SumDelta(bs: seq<Batch>, name: string): int {
    if bs == [] then 0 else SumDelta(bs[..|bs| - 1], name) + Delta(bs[|bs| - 1].metrics, name)
  }
}
