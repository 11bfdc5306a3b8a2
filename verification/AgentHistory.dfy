/** What the steps of a run add up to: who acknowledged what, in which order the channel passed batches on, what came
    back to pending, and what Run answers (internal/agent/agent.go:182-236, 278-316). */
module AgentHistory {
  import opened Metrics
  import opened AgentProtocol
  import A = AgentInvariant

  /** The batch that a worker is sending. */
  function Sent(a: Agent, i: nat): seq<Batch> {
    if i < |a.workers| && a.workers[i].Busy? then [a.workers[i].sender.batch] else []
  }

  /** The batch whose acknowledgement is the step e. */
  function Acked(a: Agent, e: Event): seq<Batch> { if e.Acknowledge? then Sent(a, e.i) else [] }

  /** The batch that e sends on the channel. */
  function Pushed(a: Agent, e: Event): seq<Batch> {
    if e.Push? && a.enq.Pushing? && a.enq.rest != [] then [a.enq.rest[0]] else []
  }

  /** The batch that a worker holds once it has received. */
  function Received(e: Event, a': Agent): seq<Batch> { if e.Receive? then Sent(a', e.i) else [] }

  /** The batch that e makes pending again. */
  function Returned(a: Agent, e: Event): seq<Batch> {
    if e.GiveUp? then Sent(a, e.i)
    else if e.RequeueRest? && a.enq.Aborting? && a.enq.rest != [] then [a.enq.rest[0]] else []
  }

  predicate Takes(e: Event) { e.TakePending? || e.StartFinal? }

  /** Acknowledged batches are kept count of, the channel is a queue, and pending batches stay until all are taken. */
  predicate Recorded(a: Agent, e: Event, a': Agent) {
    && a'.acked == a.acked + Acked(a, e)
    && Received(e, a') + a'.jobs == a.jobs + Pushed(a, e)
    && a'.pending == if Takes(e) then [] else a.pending + Returned(a, e)
  }

  lemma SenderRecorded(limit: nat, a: Agent, e: Event)
    requires Enabled(limit, a, e) && A.SenderEvent(e)
    ensures Recorded(a, e, Next(limit, a, e))
  {
    match e
    case Receive(i) => assert a.jobs == [a.jobs[0]] + a.jobs[1..];
    case _ =>
  }

  lemma PushRecorded(limit: nat, a: Agent)
    requires Enabled(limit, a, Push)
    ensures Recorded(a, Push, AfterPush(a))
  {
  }

  lemma RequeueRecorded(limit: nat, a: Agent)
    requires Enabled(limit, a, RequeueRest)
    ensures Recorded(a, RequeueRest, AfterRequeueRest(a))
  {
  }

  lemma CollectRecorded(limit: nat, a: Agent, metrics: seq<Metric>, id: string)
    requires Enabled(limit, a, Collect(metrics, id))
    ensures Recorded(a, Collect(metrics, id), AfterCollect(a, metrics, id))
  {
    Unmoved(a, Collect(metrics, id), AfterCollect(a, metrics, id));
  }

  lemma LoopRecorded(limit: nat, a: Agent, e: Event)
    requires Enabled(limit, a, e) && A.ReportLoopEvent(e)
    ensures Recorded(a, e, Next(limit, a, e))
  {
    match e
    case Push => PushRecorded(limit, a);
    case RequeueRest => RequeueRecorded(limit, a);
    case Collect(metrics, id) => CollectRecorded(limit, a, metrics, id);
    case _ =>
  }

  lemma CollectorRecorded(limit: nat, a: Agent, e: Event)
    requires Enabled(limit, a, e) && A.CollectorEvent(e)
    ensures Recorded(a, e, Next(limit, a, e))
  {
    Unmoved(a, e, Next(limit, a, e));
  }

  lemma FinalRecorded(limit: nat, a: Agent, e: Event)
    requires Enabled(limit, a, e) && (e.NextFinal? || e.EndPending?)
    ensures Recorded(a, e, Next(limit, a, e))
  {
    Unmoved(a, e, Next(limit, a, e));
  }

  lemma SnapshotRecorded(limit: nat, a: Agent, metrics: seq<Metric>, id: string)
    requires limit < |a.workers|
    ensures Recorded(a, FinalSnapshot(metrics, id), AfterFinalSnapshot(limit, a, metrics, id))
  {
    Unmoved(a, FinalSnapshot(metrics, id), AfterFinalSnapshot(limit, a, metrics, id));
  }

  /** A step that touches none of the three. */
  lemma Unmoved(a: Agent, e: Event, a': Agent)
    requires !A.SenderEvent(e) && !e.Push? && !e.RequeueRest? && !Takes(e)
    requires a'.acked == a.acked && a'.jobs == a.jobs && a'.pending == a.pending
    ensures Recorded(a, e, a')
  {
  }

  lemma StepRecorded(limit: nat, a: Agent, e: Event)
    requires Enabled(limit, a, e)
    ensures Recorded(a, e, Next(limit, a, e))
  {
    if A.SenderEvent(e) {
      SenderRecorded(limit, a, e);
    } else if A.ReportLoopEvent(e) {
      LoopRecorded(limit, a, e);
    } else if A.CollectorEvent(e) {
      CollectorRecorded(limit, a, e);
    } else if e.FinalSnapshot? {
      SnapshotRecorded(limit, a, e.metrics, e.id);
    } else if !e.StartFinal? {
      FinalRecorded(limit, a, e);
    }
  }

  // ---------------------------------------------------------------- over a run

  function AckedIn(states: seq<Agent>, events: seq<Event>, k: nat): seq<Batch>
    requires k <= |events| && |states| == |events| + 1
  {
    if k == 0 then [] else AckedIn(states, events, k - 1) + Acked(states[k - 1], events[k - 1])
  }

  function PushedIn(states: seq<Agent>, events: seq<Event>, k: nat): seq<Batch>
    requires k <= |events| && |states| == |events| + 1
  {
    if k == 0 then [] else PushedIn(states, events, k - 1) + Pushed(states[k - 1], events[k - 1])
  }

  function ReceivedIn(states: seq<Agent>, events: seq<Event>, k: nat): seq<Batch>
    requires k <= |events| && |states| == |events| + 1
  {
    if k == 0 then [] else ReceivedIn(states, events, k - 1) + Received(events[k - 1], states[k])
  }

  /** What came back since all pending batches were last taken. */
  function ReturnedIn(states: seq<Agent>, events: seq<Event>, k: nat): seq<Batch>
    requires k <= |events| && |states| == |events| + 1
  {
    if k == 0 || Takes(events[k - 1]) then []
    else ReturnedIn(states, events, k - 1) + Returned(states[k - 1], events[k - 1])
  }

  ghost predicate FromStart(limit: nat, states: seq<Agent>, events: seq<Event>) {
    IsRun(limit, states, events) && states[0] == Start(limit)
  }

  lemma RecordedAt(limit: nat, states: seq<Agent>, events: seq<Event>, k: nat)
    requires IsRun(limit, states, events) && k < |events|
    ensures Recorded(states[k], events[k], states[k + 1])
  {
    StepRecorded(limit, states[k], events[k]);
  }

  /** A batch counts as acknowledged exactly if the send of a worker or of the final report that carried it was. */
  lemma {:induction false} AcknowledgedExactly(limit: nat, states: seq<Agent>, events: seq<Event>, k: nat)
    requires FromStart(limit, states, events) && k <= |events|
    ensures states[k].acked == AckedIn(states, events, k)
  {
    if k > 0 {
      AcknowledgedExactly(limit, states, events, k - 1);
      RecordedAt(limit, states, events, k - 1);
    }
  }

  /** Batches leave the channel in the order in which they were pushed, each once. */
  lemma {:induction false} ChannelInOrder(limit: nat, states: seq<Agent>, events: seq<Event>, k: nat)
    requires FromStart(limit, states, events) && k <= |events|
    ensures ReceivedIn(states, events, k) + states[k].jobs == PushedIn(states, events, k)
  {
    if k > 0 {
      ChannelInOrder(limit, states, events, k - 1);
      ChannelStep(limit, states, events, k - 1);
    }
  }

  lemma ChannelStep(limit: nat, states: seq<Agent>, events: seq<Event>, k: nat)
    requires IsRun(limit, states, events) && k < |events|
    requires ReceivedIn(states, events, k) + states[k].jobs == PushedIn(states, events, k)
    ensures ReceivedIn(states, events, k + 1) + states[k + 1].jobs == PushedIn(states, events, k + 1)
  {
    RecordedAt(limit, states, events, k);
    PassedOn(ReceivedIn(states, events, k), states[k].jobs, Received(events[k], states[k + 1]), states[k + 1].jobs,
      Pushed(states[k], events[k]));
  }

  lemma PassedOn(received: seq<Batch>, jobs: seq<Batch>, out: seq<Batch>, jobs': seq<Batch>, pushed: seq<Batch>)
    requires out + jobs' == jobs + pushed
    ensures received + out + jobs' == received + jobs + pushed
  {
    assert received + out + jobs' == received + (out + jobs');
    assert received + jobs + pushed == received + (jobs + pushed);
  }

  /** Pending are the batches put back by failed sends and cancelled reports since all were last taken at once, in that
      order, and no others. */
  lemma {:induction false} PendingExactly(limit: nat, states: seq<Agent>, events: seq<Event>, k: nat)
    requires FromStart(limit, states, events) && k <= |events|
    ensures states[k].pending == ReturnedIn(states, events, k)
  {
    if k > 0 {
      PendingExactly(limit, states, events, k - 1);
      RecordedAt(limit, states, events, k - 1);
    }
  }

  // ---------------------------------------------------------------- what the collectors have measured

  /** The sum of all increments of a counter. */
  function Incremented(events: seq<Event>, name: string, k: nat): int
    requires k <= |events|
  {
    if k == 0 then 0
    else
      var e := events[k - 1];
      Incremented(events, name, k - 1) + if e.Increment? && e.name == name then e.delta else 0
  }

  /** The value a gauge was last set to. */
  function LastSet(events: seq<Event>, name: string, k: nat): Option<Float>
    requires k <= |events|
  {
    if k == 0 then None
    else
      var e := events[k - 1];
      if e.SetGauge? && e.name == name then Some(e.value) else LastSet(events, name, k - 1)
  }

  predicate Measured(a: Agent, name: string, sum: int, gauge: Option<Float>) {
    && Total(a.totals, name) == sum
    && (if name in a.store.gauges then gauge == Some(a.store.gauges[name]) else gauge == None)
  }

  lemma StepMeasured(limit: nat, a: Agent, e: Event, name: string, sum: int, gauge: Option<Float>)
    requires Enabled(limit, a, e) && Measured(a, name, sum, gauge)
    ensures Measured(Next(limit, a, e), name, sum + (if e.Increment? && e.name == name then e.delta else 0),
                     if e.SetGauge? && e.name == name then Some(e.value) else gauge)
  {
    if A.SenderEvent(e) {
      SenderMeasures(limit, a, e);
    } else if A.ReportLoopEvent(e) {
      LoopMeasures(limit, a, e);
    } else if A.CollectorEvent(e) {
      CollectorMeasures(limit, a, e, name, sum, gauge);
    } else {
      FinalMeasures(limit, a, e);
    }
  }

  predicate SameMeasures(a: Agent, a': Agent) { a'.totals == a.totals && a'.store.gauges == a.store.gauges }

  lemma SenderMeasures(limit: nat, a: Agent, e: Event)
    requires Enabled(limit, a, e) && A.SenderEvent(e)
    ensures SameMeasures(a, Next(limit, a, e))
  {
  }

  lemma CollectMeasures(a: Agent, metrics: seq<Metric>, id: string)
    ensures SameMeasures(a, AfterCollect(a, metrics, id))
  {
  }

  lemma LoopMeasures(limit: nat, a: Agent, e: Event)
    requires Enabled(limit, a, e) && A.ReportLoopEvent(e)
    ensures SameMeasures(a, Next(limit, a, e))
  {
    match e
    case Collect(metrics, id) => CollectMeasures(a, metrics, id);
    case _ =>
  }

  lemma SnapshotMeasures(limit: nat, a: Agent, metrics: seq<Metric>, id: string)
    requires limit < |a.workers|
    ensures SameMeasures(a, AfterFinalSnapshot(limit, a, metrics, id))
  {
  }

  lemma FinalMeasures(limit: nat, a: Agent, e: Event)
    requires Enabled(limit, a, e) && (e.StartFinal? || e.NextFinal? || e.EndPending? || e.FinalSnapshot?)
    ensures SameMeasures(a, Next(limit, a, e))
  {
    match e
    case FinalSnapshot(metrics, id) => SnapshotMeasures(limit, a, metrics, id);
    case _ =>
  }

  lemma CollectorMeasures(limit: nat, a: Agent, e: Event, name: string, sum: int, gauge: Option<Float>)
    requires Enabled(limit, a, e) && A.CollectorEvent(e) && Measured(a, name, sum, gauge)
    ensures Measured(Next(limit, a, e), name, sum + (if e.Increment? && e.name == name then e.delta else 0),
                     if e.SetGauge? && e.name == name then Some(e.value) else gauge)
  {
  }

  /** In any run the totals of the counters are the sums of their increments, and the gauges are what they were last set
      to; so the totals and gauges that the server ends up with are these. */
  lemma {:induction false} TotalsAndGauges(limit: nat, states: seq<Agent>, events: seq<Event>, k: nat, name: string)
    requires FromStart(limit, states, events) && k <= |events|
    ensures Measured(states[k], name, Incremented(events, name, k), LastSet(events, name, k))
  {
    if k > 0 {
      TotalsAndGauges(limit, states, events, k - 1, name);
      StepMeasured(limit, states[k - 1], events[k - 1], name, Incremented(events, name, k - 1), LastSet(events, name, k - 1));
    }
  }

  // ---------------------------------------------------------------- what Run answers

  /** A collector failed on the way to step k. */
  predicate CollectorFailed(events: seq<Event>, k: nat)
    requires k <= |events|
  {
    exists j :: 0 <= j < k && events[j] == Cancel(true)
  }

  /** A send of ReportOnce failed on the way to step k. */
  predicate ReportFailed(limit: nat, events: seq<Event>, k: nat)
    requires k <= |events|
  {
    exists j :: 0 <= j < k && events[j] == GiveUp(limit)
  }

  /** The final report knows of every failure there was. */
  predicate Knows(a: Agent, collector: bool, report: bool) {
    && a.collectErr == collector
    && match a.final
       case NotYet => !report
       case Draining(_, failed) => failed == report
       case Snapping => !report
       case Closing(_) => !report
       case Returned(ok, _) => ok == (!collector && !report)
  }

  lemma StepKnows(limit: nat, a: Agent, e: Event, collector: bool, report: bool)
    requires A.Shape(limit, a) && Enabled(limit, a, e) && Knows(a, collector, report)
    ensures Knows(Next(limit, a, e), collector || e == Cancel(true), report || e == GiveUp(limit))
  {
    if A.SenderEvent(e) {
      SenderKnows(limit, a, e, collector, report);
    } else if A.ReportLoopEvent(e) {
      LoopKnows(limit, a, e, collector, report);
    }
  }

  lemma SenderKnows(limit: nat, a: Agent, e: Event, collector: bool, report: bool)
    requires A.Shape(limit, a) && Enabled(limit, a, e) && Knows(a, collector, report) && A.SenderEvent(e)
    ensures Knows(Next(limit, a, e), collector, report || e == GiveUp(limit))
  {
  }

  lemma LoopKnows(limit: nat, a: Agent, e: Event, collector: bool, report: bool)
    requires Enabled(limit, a, e) && Knows(a, collector, report) && A.ReportLoopEvent(e)
    ensures Knows(Next(limit, a, e), collector, report)
  {
  }

  lemma {:induction false} RunKnows(limit: nat, states: seq<Agent>, events: seq<Event>, k: nat)
    requires FromStart(limit, states, events) && k <= |events|
    ensures Knows(states[k], CollectorFailed(events, k), ReportFailed(limit, events, k))
  {
    if k > 0 {
      RunKnows(limit, states, events, k - 1);
      KnowsNext(limit, states, events, k - 1, CollectorFailed(events, k - 1), ReportFailed(limit, events, k - 1));
      assert CollectorFailed(events, k) <==> CollectorFailed(events, k - 1) || events[k - 1] == Cancel(true);
      assert ReportFailed(limit, events, k) <==> ReportFailed(limit, events, k - 1) || events[k - 1] == GiveUp(limit);
    }
  }

  lemma KnowsNext(limit: nat, states: seq<Agent>, events: seq<Event>, k: nat, collector: bool, report: bool)
    requires FromStart(limit, states, events) && k < |events| && Knows(states[k], collector, report)
    ensures Knows(states[k + 1], collector || events[k] == Cancel(true), report || events[k] == GiveUp(limit))
  {
    A.StartOk(limit);
    A.RunKeepsInv(limit, states, events, k);
    StepKnows(limit, states[k], events[k], collector, report);
  }

  /** Run returns nil exactly if no collector failed and every send of its final report, old batches included, got
      through; failures of report workers before that do not count. */
  lemma RunAnswers(limit: nat, states: seq<Agent>, events: seq<Event>, k: nat)
    requires FromStart(limit, states, events) && k <= |events| && states[k].final.Returned?
    ensures states[k].final.ok <==> forall j | 0 <= j < k :: events[j] != Cancel(true) && events[j] != GiveUp(limit)
  {
    RunKnows(limit, states, events, k);
  }
}
