/** Agent, network and server together. The network keeps every request and every acknowledgement ever sent, so
    it may lose, delay, duplicate and reorder them; other clients may send what they like under other keys. */
module Delivery {
  import opened Metrics
  import opened Snapshots
  import opened AgentProtocol
  import A = AgentInvariant
  import opened ServerProtocol

  datatype Setup = Setup(limit: nat, server: Config)

  /** requests are the messages under way, foreign the keys used by other clients; alone says that no other
      client has written. */
  datatype System = System(agent: Agent, server: Server, requests: set<Batch>, foreign: set<string>, alone: bool)

  datatype Step = AgentStep(ae: Event) | ServerStep(se: ServerEvent) | ForeignRequest(b: Batch)

  function Initial(c: Setup): System {
    System(Start(c.limit), COLD, {}, {}, true)
  }

  ghost predicate Possible(c: Setup, s: System, step: Step) {
    match step
    case AgentStep(e) =>
      && Enabled(c.limit, s.agent, e)
      && (e.Collect? || e.FinalSnapshot? ==> e.id !in s.foreign)
      && (e.Acknowledge? ==> s.agent.workers[e.i].sender.batch.id in s.server.replied)
    case ServerStep(e) =>
      && ServerEnabled(c.server, s.server, e)
      && (e.Handle? ==> e.request in s.requests)
    case ForeignRequest(b) => forall x | x in s.agent.created :: x.id != b.id
  }

  ghost function Result(c: Setup, s: System, step: Step): System
    requires Possible(c, s, step)
  {
    match step
    case AgentStep(e) =>
      s.(agent := Next(c.limit, s.agent, e),
         requests := if e.Attempt? then s.requests + {s.agent.workers[e.i].sender.batch} else s.requests)
    case ServerStep(e) => s.(server := ServerNext(c.server, s.server, e))
    case ForeignRequest(b) => s.(requests := s.requests + {b}, foreign := s.foreign + {b.id}, alone := false)
  }

  ghost predicate IsSystemRun(c: Setup, states: seq<System>, steps: seq<Step>) {
    && |states| == |steps| + 1 && states[0] == Initial(c)
    && forall k | 0 <= k < |steps| :: Possible(c, states[k], steps[k]) && states[k + 1] == Result(c, states[k], steps[k])
  }

  // ---------------------------------------------------------------- what the agent's state alone implies

  function LastCreated(a: Agent): Batch
    requires a.created != []
  {
    a.created[|a.created| - 1]
  }

  /** A batch that nobody holds has been acknowledged. */
  lemma NotInHand(a: Agent, b: Batch)
    requires A.Accounted(a, b) && b in a.created && A.InHand(a, b) == 0
    ensures b in a.acked
  {
    assert b in multiset(a.created);
  }

  /** Once ReportOnce is sending its own batch, every older batch has been acknowledged. */
  lemma ClosingAcked(limit: nat, a: Agent, b: Batch)
    requires A.Inv(limit, a) && a.final.Closing? && b in a.created && b != LastCreated(a)
    ensures b in a.acked
  {
    EmptyHanded(limit, a, b);
    NotInHand(a, b);
  }

  /** After a successful return, every batch has. */
  lemma ReturnedAcked(limit: nat, a: Agent, b: Batch)
    requires A.Inv(limit, a) && a.final.Returned? && a.final.ok && b in a.created
    ensures b in a.acked
  {
    EmptyHanded(limit, a, b);
    NotInHand(a, b);
  }

  lemma EmptyHanded(limit: nat, a: Agent, b: Batch)
    requires A.Shape(limit, a) && A.FinalOk(limit, a)
    requires (a.final.Closing? && b != LastCreated(a)) || (a.final.Returned? && a.final.ok)
    ensures A.InHand(a, b) == 0
  {
    SumZero(a.workers, A.Carries(b));
  }

  lemma AckedCreated(limit: nat, a: Agent, b: Batch)
    requires A.Inv(limit, a) && b in a.acked
    ensures b in a.created
  {
    assert A.Accounted(a, b);
    assert b in multiset(a.acked) && Times(a.created, b) > 0;
  }

  lemma SentCreated(limit: nat, a: Agent, i: nat)
    requires A.Inv(limit, a) && i < |a.workers| && a.workers[i].Busy?
    ensures a.workers[i].sender.batch in a.created
  {
    var b := a.workers[i].sender.batch;
    assert A.Accounted(a, b);
    SumAtLeast(a.workers, A.Carries(b), i);
    assert Times(a.created, b) > 0;
  }

  // ---------------------------------------------------------------- the invariant of the whole

  /** Everything under the agent's keys is one of its batches, and the keys of others are others'. */
  predicate FromKnown(s: System, b: Batch) {
    b in s.agent.created || (!s.alone && (b.id == "" || b.id in s.foreign))
  }

  ghost predicate OriginOk(s: System) {
    && (forall b | b in s.requests :: FromKnown(s, b))
    && (forall b | b in s.server.log :: FromKnown(s, b))
    && (forall b | b in s.agent.created :: b.id !in s.foreign)
    && (s.alone ==> s.foreign == {})
  }

  ghost predicate AcksOk(s: System) {
    forall b | b in s.agent.acked :: b.id in s.server.replied
  }

  /** The batch of the final ReportOnce can only be the newest update. */
  ghost predicate LastIsNewest(c: Setup, s: System) {
    s.alone && Trusted(c.server, s.server) && s.agent.created != [] && A.Reported(s.agent.final) ==>
      forall k | 0 <= k < |s.server.log| - 1 :: s.server.log[k] != LastCreated(s.agent)
  }

  ghost predicate SystemInv(c: Setup, s: System) {
    && A.Inv(c.limit, s.agent) && ServerInv(c.server, s.server)
    && OriginOk(s) && AcksOk(s) && LastIsNewest(c, s)
  }

  lemma AgentStepOk(c: Setup, s: System, e: Event)
    requires SystemInv(c, s) && Possible(c, s, AgentStep(e))
    ensures SystemInv(c, Result(c, s, AgentStep(e)))
  {
    var a' := Next(c.limit, s.agent, e);
    A.StepKeepsInv(c.limit, s.agent, e);
    A.StepHistory(c.limit, s.agent, e);
    if e.Attempt? {
      SentCreated(c.limit, s.agent, e.i);
    }
    AgentStepLinks(c, s, e, a', Result(c, s, AgentStep(e)));
  }

  lemma AgentStepLinks(c: Setup, s: System, e: Event, a': Agent, s': System)
    requires OriginOk(s) && AcksOk(s) && LastIsNewest(c, s) && A.HistoryStep(s.agent, e, a')
    requires e.Collect? || e.FinalSnapshot? ==> e.id !in s.foreign && FreshId(s.agent.created, e.id)
    requires e.Acknowledge? && e.i < |s.agent.workers| && s.agent.workers[e.i].Busy? ==>
      s.agent.workers[e.i].sender.batch.id in s.server.replied
    requires e.FinalSnapshot? && A.Reported(a'.final) ==> a'.created == s.agent.created + [Batch(e.id, e.metrics)]
    requires s' == s.(agent := a', requests := s'.requests)
    requires forall b | b in s'.requests :: b in s.requests || b in s.agent.created
    ensures OriginOk(s') && AcksOk(s') && LastIsNewest(c, s')
  {
    assert forall b | b in s.agent.created :: b in a'.created;
    if e.FinalSnapshot? && A.Reported(a'.final) && s.alone {
      var b := Batch(e.id, e.metrics);
      assert LastCreated(a') == b;
      forall k | 0 <= k < |s.server.log| ensures s.server.log[k] != b {
        assert FromKnown(s, s.server.log[k]);
      }
    }
  }

  lemma ForeignOk(c: Setup, s: System, b: Batch)
    requires SystemInv(c, s) && Possible(c, s, ForeignRequest(b))
    ensures SystemInv(c, Result(c, s, ForeignRequest(b)))
  {
  }

  lemma ServerStepOk(c: Setup, s: System, e: ServerEvent)
    requires SystemInv(c, s) && Possible(c, s, ServerStep(e))
    ensures SystemInv(c, Result(c, s, ServerStep(e)))
  {
    ServerStepKeepsInv(c.server, s.server, e);
    ServerHistory(c.server, s.server, e);
    var s' := Result(c, s, ServerStep(e));
    if e.Handle? && s'.server.log != s.server.log {
      HandleLast(c, s, e.t, e.request);
    }
    ServerStepLinks(c, s, e, s');
  }

  lemma ServerStepLinks(c: Setup, s: System, e: ServerEvent, s': System)
    requires OriginOk(s) && AcksOk(s) && LastIsNewest(c, s) && s' == s.(server := s'.server)
    requires e.Handle? ==> e.request in s.requests
    requires HistoryMoves(s.server, e, s'.server)
    requires e.Handle? && s'.server.log != s.server.log ==> LastIsNewest(c, s')
    ensures OriginOk(s') && AcksOk(s') && LastIsNewest(c, s')
  {
    assert forall b | b in s'.server.log :: b in s.server.log || (e.Handle? && b == e.request);
  }

  /** The update history grows by the request handled, under a new key, or is cut back by a crash. */
  predicate HistoryMoves(s: Server, e: ServerEvent, s': Server) {
    && s.replied <= s'.replied
    && (s'.log == s.log
        || (e.Handle? && e.request.id !in Keys(s.log) && s'.log == s.log + [e.request])
        || (e.Crash? && s.durable <= |s.log| && s'.log == s.log[..s.durable]))
    && (s.crashed ==> s'.crashed)
  }

  lemma ServerHistory(c: Config, s: Server, e: ServerEvent)
    requires ServerInv(c, s) && ServerEnabled(c, s, e)
    ensures HistoryMoves(s, e, ServerNext(c, s, e))
  {
    if e.Handle? {
      VerdictOf(c, s, e.request);
    }
  }

  lemma HandleLast(c: Setup, s: System, t: nat, b: Batch)
    requires SystemInv(c, s) && Possible(c, s, ServerStep(Handle(t, b))) && b.id !in Keys(s.server.log)
    ensures LastIsNewest(c, Result(c, s, ServerStep(Handle(t, b))))
  {
    var s' := Result(c, s, ServerStep(Handle(t, b)));
    if s.alone && Trusted(c.server, s.server) && s.agent.created != [] && A.Reported(s.agent.final) {
      assert FromKnown(s, b);
      var last := LastCreated(s.agent);
      if b != last {
        if s.agent.final.Closing? { ClosingAcked(c.limit, s.agent, b); } else { ReturnedAcked(c.limit, s.agent, b); }
        KeptLive(c.server, s.server);
        assert false;
      }
      forall k | 0 <= k < |s.server.log| ensures s.server.log[k] != last {
        KeysMember(s.server.log, last.id);
      }
    }
  }
}
