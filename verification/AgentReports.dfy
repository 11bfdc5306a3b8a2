/** What one call of enqueueReport does in the middle of a run, while workers, collectors and cancellation go on around
    it (internal/agent/agent.go:278-297). */
module AgentReports {
  import opened Metrics
  import opened AgentProtocol
  import A = AgentInvariant

  /** The batches that the call set out with, those it has sent on the channel and those it has put back, in order. */
  datatype Ledger = Ledger(report: seq<Batch>, pushed: seq<Batch>, requeued: seq<Batch>)

  const NOTHING: Ledger := Ledger([], [], [])

  function Book(l: Ledger, a: Agent, e: Event): Ledger {
    match e
    case TakePending => l.(report := l.report + a.pending)
    case Collect(metrics, id) => if metrics == [] then l else l.(report := l.report + [Batch(id, metrics)])
    case Push => if A.EnqueuerRest(a.enq) == [] then l else l.(pushed := l.pushed + [A.EnqueuerRest(a.enq)[0]])
    case RequeueRest => if A.EnqueuerRest(a.enq) == [] then l else l.(requeued := l.requeued + [A.EnqueuerRest(a.enq)[0]])
    case _ => l
  }

  /** The ledger from step j to step k of a run. */
  function Booked(states: seq<Agent>, events: seq<Event>, j: nat, k: nat): Ledger
    requires j <= k <= |events| && |states| == |events| + 1
  {
    if k == j then NOTHING else Book(Booked(states, events, j, k - 1), states[k - 1], events[k - 1])
  }

  /** Nothing is lost, repeated or reordered; batches are put back only after the last push. */
  predicate LedgerOk(l: Ledger, q: Enqueuer) {
    && l.report == l.pushed + l.requeued + A.EnqueuerRest(q)
    && (q == Collecting ==> l.report == [])
    && (q.Pushing? ==> l.requeued == [])
  }

  /** The first of the rest moves on. */
  lemma Shift(done: seq<Batch>, rest: seq<Batch>)
    requires rest != []
    ensures done + rest == done + [rest[0]] + rest[1..]
  {
    assert rest == [rest[0]] + rest[1..];
  }

  lemma PushBooked(limit: nat, a: Agent, l: Ledger)
    requires Enabled(limit, a, Push) && LedgerOk(l, a.enq)
    ensures LedgerOk(Book(l, a, Push), AfterPush(a).enq)
  {
    Shift(l.pushed, a.enq.rest);
  }

  lemma RequeueBooked(limit: nat, a: Agent, l: Ledger)
    requires Enabled(limit, a, RequeueRest) && LedgerOk(l, a.enq)
    ensures LedgerOk(Book(l, a, RequeueRest), AfterRequeueRest(a).enq)
  {
    var rest := a.enq.rest;
    Shift(l.requeued, rest);
    assert Book(l, a, RequeueRest) == l.(requeued := l.requeued + [rest[0]]);
    assert A.EnqueuerRest(AfterRequeueRest(a).enq) == rest[1..];
    assert l.pushed + l.requeued + rest == l.pushed + (l.requeued + rest);
  }

  lemma CollectBooked(limit: nat, a: Agent, l: Ledger, metrics: seq<Metric>, id: string)
    requires Enabled(limit, a, Collect(metrics, id)) && LedgerOk(l, a.enq)
    ensures LedgerOk(Book(l, a, Collect(metrics, id)), AfterCollect(a, metrics, id).enq)
  {
    assert l.report == [] && l.pushed == [] && l.requeued == [];
    assert AfterCollect(a, metrics, id).enq == if metrics == [] then Resting else Pushing([Batch(id, metrics)]);
  }

  /** The enqueuer is moved only by its own steps. */
  lemma OthersLeaveEnqueuer(limit: nat, a: Agent, e: Event)
    requires Enabled(limit, a, e) && !A.ReportLoopEvent(e)
    ensures Next(limit, a, e).enq == a.enq
  {
  }

  predicate Inside(q: Enqueuer) { q == Collecting || q.Pushing? || q.Aborting? }

  lemma StepBooked(limit: nat, a: Agent, e: Event, l: Ledger)
    requires Enabled(limit, a, e) && LedgerOk(l, a.enq) && Inside(a.enq)
    ensures LedgerOk(Book(l, a, e), Next(limit, a, e).enq)
  {
    if A.ReportLoopEvent(e) {
      match e
      case Collect(metrics, id) => CollectBooked(limit, a, l, metrics, id);
      case Push => PushBooked(limit, a, l);
      case Abort =>
      case RequeueRest => RequeueBooked(limit, a, l);
    } else {
      OthersLeaveEnqueuer(limit, a, e);
    }
  }

  lemma FirstBooked(limit: nat, a: Agent)
    requires Enabled(limit, a, TakePending)
    ensures LedgerOk(Book(NOTHING, a, TakePending), AfterTakePending(a).enq)
  {
  }

  /** Step j starts a call of enqueueReport that is not over before step k. */
  predicate InCall(states: seq<Agent>, events: seq<Event>, j: nat, k: nat)
    requires j < k <= |events| && |states| == |events| + 1
  {
    if k == j + 1 then events[j] == TakePending else InCall(states, events, j, k - 1) && Inside(states[k - 1].enq)
  }

  lemma InCallBefore(states: seq<Agent>, events: seq<Event>, j: nat, k: nat)
    requires j < k - 1 && k <= |events| && |states| == |events| + 1 && InCall(states, events, j, k)
    ensures InCall(states, events, j, k - 1) && Inside(states[k - 1].enq)
  {
  }

  /** What the call that began with step j has pushed, what it has put back and what it still holds after step k - 1
      are, in this order, the report it set out with. */
  predicate InOrder(states: seq<Agent>, events: seq<Event>, j: nat, k: nat)
    requires j <= k <= |events| && |states| == |events| + 1
  {
    LedgerOk(Booked(states, events, j, k), states[k].enq)
  }

  lemma BookedFirst(limit: nat, states: seq<Agent>, events: seq<Event>, j: nat)
    requires IsRun(limit, states, events) && j < |events| && events[j] == TakePending
    ensures InOrder(states, events, j, j + 1)
  {
    FirstBooked(limit, states[j]);
    assert Booked(states, events, j, j) == NOTHING;
  }

  /** Step k keeps every ledger in order. */
  ghost predicate KeepsOrder(states: seq<Agent>, events: seq<Event>, k: nat)
    requires k < |events| && |states| == |events| + 1
  {
    forall l | Inside(states[k].enq) && LedgerOk(l, states[k].enq) ::
      LedgerOk(Book(l, states[k], events[k]), states[k + 1].enq)
  }

  lemma RunKeepsOrder(limit: nat, states: seq<Agent>, events: seq<Event>, k: nat)
    requires IsRun(limit, states, events) && k < |events|
    ensures KeepsOrder(states, events, k)
  {
    forall l | Inside(states[k].enq) && LedgerOk(l, states[k].enq)
      ensures LedgerOk(Book(l, states[k], events[k]), states[k + 1].enq)
    {
      StepBooked(limit, states[k], events[k], l);
    }
  }

  lemma BookedNext(states: seq<Agent>, events: seq<Event>, j: nat, k: nat)
    requires j < k - 1 && k <= |events| && |states| == |events| + 1 && KeepsOrder(states, events, k - 1)
    requires InCall(states, events, j, k) && InOrder(states, events, j, k - 1)
    ensures InOrder(states, events, j, k)
  {
    InCallBefore(states, events, j, k);
  }

  lemma {:induction false} OrderFrom(states: seq<Agent>, events: seq<Event>, j: nat, k: nat)
    requires j < k <= |events| && |states| == |events| + 1 && InCall(states, events, j, k)
    requires InOrder(states, events, j, j + 1)
    requires forall m: nat | j < m < k :: KeepsOrder(states, events, m)
    ensures InOrder(states, events, j, k)
    decreases k
  {
    if j + 1 < k {
      InCallBefore(states, events, j, k);
      OrderFrom(states, events, j, k - 1);
      BookedNext(states, events, j, k);
    }
  }

  lemma {:induction false} InCallStart(states: seq<Agent>, events: seq<Event>, j: nat, k: nat)
    requires j < k <= |events| && |states| == |events| + 1 && InCall(states, events, j, k)
    ensures events[j] == TakePending
    decreases k
  {
    if j + 1 < k {
      InCallStart(states, events, j, k - 1);
    }
  }

  /** In any run the ledger of a call of enqueueReport stays in order until it is done, whatever others do. */
  lemma ReportInOrder(limit: nat, states: seq<Agent>, events: seq<Event>, j: nat, k: nat)
    requires IsRun(limit, states, events) && j < k <= |events| && InCall(states, events, j, k)
    ensures InOrder(states, events, j, k)
  {
    InCallStart(states, events, j, k);
    BookedFirst(limit, states, events, j);
    forall m: nat | j < m < k ensures KeepsOrder(states, events, m) {
      RunKeepsOrder(limit, states, events, m);
    }
    OrderFrom(states, events, j, k);
  }

  /** When it is done, every batch of the report has been pushed or put back, in order, the pushed ones first. */
  lemma ReportDone(limit: nat, states: seq<Agent>, events: seq<Event>, j: nat, k: nat)
    requires IsRun(limit, states, events) && j < k <= |events| && InCall(states, events, j, k) && states[k].enq == Resting
    ensures var l := Booked(states, events, j, k); l.report == l.pushed + l.requeued
  {
    ReportInOrder(limit, states, events, j, k);
    AtRest(Booked(states, events, j, k));
  }

  lemma AtRest(l: Ledger)
    requires LedgerOk(l, Resting)
    ensures l.report == l.pushed + l.requeued
  {
    assert l.pushed + l.requeued + [] == l.pushed + l.requeued;
  }
}
