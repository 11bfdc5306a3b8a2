/** From what the collectors measured to what the server holds, over whole runs. */
module EndToEnd {
  import opened Metrics
  import opened AgentProtocol
  import H = AgentHistory
  import opened ServerProtocol
  import opened Delivery
  import T = DeliveryTheorems

  /** The steps that the agent took. */
  function AgentEvents(steps: seq<Step>, k: nat): seq<Event>
    requires k <= |steps|
  {
    if k == 0 then []
    else AgentEvents(steps, k - 1) + if steps[k - 1].AgentStep? then [steps[k - 1].ae] else []
  }

  /** They make a run of the agent by itself. */
  lemma {:induction false} AgentPart(c: Setup, states: seq<System>, steps: seq<Step>, k: nat) returns (agents: seq<Agent>)
    requires IsSystemRun(c, states, steps) && k <= |steps|
    ensures var events := AgentEvents(steps, k);
      H.FromStart(c.limit, agents, events) && agents[|events|] == states[k].agent
  {
    if k == 0 {
      agents := [Start(c.limit)];
    } else {
      var before := AgentPart(c, states, steps, k - 1);
      agents := before;
      if steps[k - 1].AgentStep? {
        agents := before + [states[k].agent];
        OneMore(c.limit, before, AgentEvents(steps, k - 1), steps[k - 1].ae, states[k].agent);
      }
    }
  }

  lemma OneMore(limit: nat, agents: seq<Agent>, events: seq<Event>, e: Event, a: Agent)
    requires H.FromStart(limit, agents, events) && Enabled(limit, agents[|events|], e)
    requires a == Next(limit, agents[|events|], e)
    ensures H.FromStart(limit, agents + [a], events + [e])
  {
    var agents', events' := agents + [a], events + [e];
    forall k | 0 <= k < |events'| ensures Enabled(limit, agents'[k], events'[k]) && agents'[k + 1] == Next(limit, agents'[k], events'[k]) {
      if k < |events| {
        assert agents'[k] == agents[k] && agents'[k + 1] == agents[k + 1] && events'[k] == events[k];
      }
    }
  }

  /** If Run returns nil and nobody else wrote, every counter of the server is the sum of the increments that the collectors
      made, wrapped to 64 bits, and every gauge is what they last set it to; whatever was lost, repeated or reordered on
      the way, and however often the server crashed, if updates are saved before they are acknowledged. */
  lemma MeasuredIsStored(c: Setup, states: seq<System>, steps: seq<Step>, k: nat, name: string)
    requires IsSystemRun(c, states, steps) && k <= |steps|
    requires states[k].agent.final.Returned? && states[k].agent.final.ok
    requires states[k].alone && Trusted(c.server, states[k].server)
    ensures var events, stored := AgentEvents(steps, k), states[k].server.img.maps;
      && Count(stored.counters, name) == Wrap(H.Incremented(events, name, |events|))
      && (if name in stored.gauges then H.LastSet(events, name, |events|) == Some(stored.gauges[name])
          else H.LastSet(events, name, |events|) == None)
  {
    var agents := AgentPart(c, states, steps, k);
    var events := AgentEvents(steps, k);
    H.TotalsAndGauges(c.limit, agents, events, |events|, name);
    T.ServerMatchesAgent(c, states, steps, k);
  }

  /** Run returns nil exactly if no collector failed and no send of the final report was given up. */
  lemma RunAnswers(c: Setup, states: seq<System>, steps: seq<Step>, k: nat)
    requires IsSystemRun(c, states, steps) && k <= |steps| && states[k].agent.final.Returned?
    ensures states[k].agent.final.ok <==>
      forall e | e in AgentEvents(steps, k) :: e != Cancel(true) && e != GiveUp(c.limit)
  {
    var agents := AgentPart(c, states, steps, k);
    var events := AgentEvents(steps, k);
    H.RunAnswers(c.limit, agents, events, |events|);
    assert forall j | 0 <= j < |events| :: events[j] in events;
  }
}
