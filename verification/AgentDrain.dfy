/** The drain after the report loop has closed the jobs channel: it ends, and how much it can still send
    (internal/agent/agent.go:256-316, internal/retry/retry.go:17-33). */
module AgentDrain {
  import opened AgentProtocol
  import opened AgentInvariant
  import opened Retry

  /** Attempts a worker may still make for the batch it holds. */
  function AttemptsLeft(w: Worker): nat {
    if w.Busy? && w.sender.attempts < MAX_ATTEMPTS then MAX_ATTEMPTS - w.sender.attempts else 0
  }

  function Budget(limit: nat, a: Agent): nat
    requires limit <= |a.workers|
  {
    MAX_ATTEMPTS * |a.jobs| + Sum(a.workers[..limit], AttemptsLeft)
  }

  /** Steps a worker may still take before it exits, if it receives nothing more. */
  function StepsLeft(w: Worker): nat {
    match w
    case Exited => 0
    case Idle => 1
    case Busy(s) => 2 * AttemptsLeft(w) + (if s.waiting then 3 else 2)
  }

  function Work(limit: nat, a: Agent): nat
    requires limit <= |a.workers|
  {
    10 * |a.jobs| + Sum(a.workers[..limit], StepsLeft)
  }

  predicate ReportWorkerEvent(limit: nat, e: Event) { SenderEvent(e) && e.i < limit }

  function Attempts(limit: nat, events: seq<Event>): nat {
    if events == [] then 0
    else
      var e := events[|events| - 1];
      Attempts(limit, events[..|events| - 1]) + if e.Attempt? && e.i < limit then 1 else 0
  }

  function WorkerSteps(limit: nat, events: seq<Event>): nat {
    if events == [] then 0
    else
      var e := events[|events| - 1];
      WorkerSteps(limit, events[..|events| - 1]) + if ReportWorkerEvent(limit, e) then 1 else 0
  }

  lemma SumUpdatePrefix(ws: seq<Worker>, limit: nat, i: nat, w: Worker, weight: Worker -> nat)
    requires limit <= |ws| && i < |ws|
    ensures Sum(ws[i := w][..limit], weight) + (if i < limit then weight(ws[i]) else 0)
      == Sum(ws[..limit], weight) + if i < limit then weight(w) else 0
  {
    if i < limit {
      SumUpdate(ws[..limit], i, w, weight);
      assert ws[i := w][..limit] == ws[..limit][i := w];
    } else {
      assert ws[i := w][..limit] == ws[..limit];
    }
  }

  /** What one event does to the worker it concerns, and to the channel. */
  predicate WeightsMove(a: Agent, e: Event, a': Agent)
    requires SenderEvent(e) && e.i < |a.workers|
  {
    && e.i < |a'.workers| && a'.workers == a.workers[e.i := a'.workers[e.i]] && a'.closed == a.closed
    && |a'.jobs| == |a.jobs| - (if e.Receive? then 1 else 0)
    && var w, w' := a.workers[e.i], a'.workers[e.i];
      && AttemptsLeft(w') == (if e.Receive? then 4 else if e.Attempt? then AttemptsLeft(w) - 1
                              else if e.Backoff? then AttemptsLeft(w) else 0)
      && StepsLeft(w') + 1 <= StepsLeft(w) + if e.Receive? then 10 else 0
  }

  lemma SenderWeights(limit: nat, a: Agent, e: Event)
    requires Shape(limit, a) && Enabled(limit, a, e) && SenderEvent(e)
    ensures WeightsMove(a, e, Next(limit, a, e))
  {
    if e.Receive? || e.Exit? {
      ChannelWeights(limit, a, e);
    } else {
      AttemptWeights(limit, a, e);
    }
  }

  lemma ChannelWeights(limit: nat, a: Agent, e: Event)
    requires Enabled(limit, a, e) && (e.Receive? || e.Exit?)
    ensures WeightsMove(a, e, Next(limit, a, e))
  {
  }

  lemma AttemptWeights(limit: nat, a: Agent, e: Event)
    requires Shape(limit, a) && Enabled(limit, a, e) && SenderEvent(e) && !e.Receive? && !e.Exit?
    ensures WeightsMove(a, e, Next(limit, a, e))
  {
    assert SenderOk(a.workers[e.i]);
  }

  lemma OtherEvents(limit: nat, a: Agent, e: Event)
    requires Shape(limit, a) && a.closed && Enabled(limit, a, e) && !SenderEvent(e)
    ensures var a' := Next(limit, a, e);
      a'.closed && a'.jobs == a.jobs && |a'.workers| == limit + 1 && a'.workers[..limit] == a.workers[..limit]
  {
  }

  /** After the channel is closed every step of a report worker spends work, and every attempt its budget;
      no other step adds to either. */
  lemma DrainStep(limit: nat, a: Agent, e: Event)
    requires Shape(limit, a) && a.closed && Enabled(limit, a, e)
    ensures var a' := Next(limit, a, e);
      && a'.closed && |a'.workers| == limit + 1
      && Budget(limit, a') + (if e.Attempt? && e.i < limit then 1 else 0) <= Budget(limit, a)
      && Work(limit, a') + (if ReportWorkerEvent(limit, e) then 1 else 0) <= Work(limit, a)
  {
    if SenderEvent(e) {
      SenderWeights(limit, a, e);
      var w' := Next(limit, a, e).workers[e.i];
      SumUpdatePrefix(a.workers, limit, e.i, w', AttemptsLeft);
      SumUpdatePrefix(a.workers, limit, e.i, w', StepsLeft);
    } else {
      OtherEvents(limit, a, e);
    }
  }

  /** Between a0 and a at most so many attempts and worker steps were taken as the budgets went down. */
  predicate Spent(limit: nat, a0: Agent, a: Agent, attempts: nat, steps: nat) {
    && limit <= |a0.workers| && limit <= |a.workers|
    && attempts + Budget(limit, a) <= Budget(limit, a0)
    && steps + Work(limit, a) <= Work(limit, a0)
  }

  lemma SpendMore(limit: nat, a0: Agent, a: Agent, e: Event, attempts: nat, steps: nat)
    requires Inv(limit, a) && a.closed && Enabled(limit, a, e) && Spent(limit, a0, a, attempts, steps)
    ensures Next(limit, a, e).closed
    ensures Spent(limit, a0, Next(limit, a, e), attempts + (if e.Attempt? && e.i < limit then 1 else 0),
                  steps + if ReportWorkerEvent(limit, e) then 1 else 0)
  {
    DrainStep(limit, a, e);
  }

  /** What has been spent after k steps of a run. */
  predicate SpentAt(limit: nat, states: seq<Agent>, events: seq<Event>, k: nat)
    requires k <= |events| && k < |states|
  {
    states[k].closed
    && Spent(limit, states[0], states[k], Attempts(limit, events[..k]), WorkerSteps(limit, events[..k]))
  }

  lemma {:induction false} DrainRun(limit: nat, states: seq<Agent>, events: seq<Event>, k: nat)
    requires IsRun(limit, states, events) && Inv(limit, states[0]) && states[0].closed && k <= |events|
    ensures SpentAt(limit, states, events, k)
  {
    if k > 0 {
      DrainRun(limit, states, events, k - 1);
      DrainRunStep(limit, states, events, k - 1);
    }
  }

  lemma DrainRunStep(limit: nat, states: seq<Agent>, events: seq<Event>, k: nat)
    requires IsRun(limit, states, events) && Inv(limit, states[0]) && k < |events| && SpentAt(limit, states, events, k)
    ensures SpentAt(limit, states, events, k + 1)
  {
    RunKeepsInv(limit, states, events, k);
    SpendMore(limit, states[0], states[k], events[k], Attempts(limit, events[..k]), WorkerSteps(limit, events[..k]));
    CountOneMore(limit, events, k);
  }

  lemma CountOneMore(limit: nat, events: seq<Event>, k: nat)
    requires k < |events|
    ensures var e := events[k];
      && Attempts(limit, events[..k + 1]) == Attempts(limit, events[..k]) + (if e.Attempt? && e.i < limit then 1 else 0)
      && WorkerSteps(limit, events[..k + 1]) == WorkerSteps(limit, events[..k]) + if ReportWorkerEvent(limit, e) then 1 else 0
  {
    assert events[..k + 1][..k] == events[..k];
  }

  /** From the moment the channel is closed, any run makes at most 8 * rateLimit further send attempts and at
      most 20 * rateLimit further worker steps. */
  lemma DrainIsBounded(limit: nat, states: seq<Agent>, events: seq<Event>)
    requires IsRun(limit, states, events) && Inv(limit, states[0]) && states[0].closed
    ensures Attempts(limit, events) <= 8 * limit
    ensures WorkerSteps(limit, events) <= 20 * limit
  {
    DrainRun(limit, states, events, |events|);
    assert events[..|events|] == events;
    var a := states[0];
    SumBound(a.workers[..limit], AttemptsLeft, MAX_ATTEMPTS);
    assert forall i | 0 <= i < limit :: SenderOk(a.workers[i]);
    SumBound(a.workers[..limit], StepsLeft, 10);
  }

  /** The drain cannot get stuck: until every worker has exited, some worker can take a step. */
  lemma DrainNeverStuck(limit: nat, a: Agent) returns (e: Event)
    requires Inv(limit, a) && a.closed && exists i :: 0 <= i < limit && a.workers[i] != Exited
    ensures ReportWorkerEvent(limit, e) && Enabled(limit, a, e)
  {
    var i :| 0 <= i < limit && a.workers[i] != Exited;
    assert SenderOk(a.workers[i]);
    match a.workers[i]
    case Idle => e := if a.jobs == [] then Exit(i) else Receive(i);
    case Busy(s) => e := if s.waiting then GiveUp(i) else Attempt(i);
  }
}
