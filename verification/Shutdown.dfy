/** Serving on one or two transports until cancellation or failure, draining them, and the final save
    (internal/server/server.go:22-39, internal/server/grpc.go:31-58, internal/service/persistence.go). One step is one
    channel operation, one lock, or one return of a blocking call. */
module Shutdown {
  import opened Metrics
  import opened Snapshots

  /** A server: its Serve has not returned; Shutdown or GracefulStop has been called; handlers at work; that call
      has returned. Until then open connections can start handlers, even after Serve has returned. */
  datatype Transport = Transport(running: bool, stopping: bool, active: nat, drained: bool)

  /** What Serve returned: http.ErrServerClosed and its like, or another error. */
  datatype Result = Stopped | Failed

  datatype Side = Http | Rpc

  datatype Owner = Ticker | Handler(side: Side) | Final

  /** The holder of the save mutex and the snapshot it took. */
  datatype Saver = NoSave | Saving(records: seq<Record>, owner: Owner)

  datatype Phase = Selecting | Draining | Collecting | Closing | FinalSaving | Returned(ok: bool)

  /** both says whether there is a gRPC server; if not, rpc stands for one that is already down. Serve never returns
      nil, so the second receive of serve, made when the first result is nil, is made exactly when there was none.
      results is the channel, consumed what was received from it and remaining the counter beside it. ticking says that
      persistence.run has not returned, stop that its channel is closed. flushes counts the calls of flush. */
  datatype State = State(
    both: bool, memory: Image, file: Option<seq<Record>>, http: Transport, rpc: Transport,
    results: seq<Result>, consumed: seq<Result>, remaining: int, canceled: bool, shutdownFailed: bool,
    phase: Phase, ticking: bool, stop: bool, saver: Saver, flushes: nat)

  datatype Event =
    | Cancel
    | Accept(side: Side)
    | Update(side: Side, memory: Image)
    | Finish(side: Side)
    | BeginSave(owner: Owner, records: seq<Record>)
    | EndSave(ok: bool)
    | ServeReturns(side: Side, result: Result)
    | SeeCancel
    | SeeResult
    | CallStop(side: Side)
    | StopReturns(side: Side, failed: bool)
    | WaitDone
    | Receive
    | CallFlush
    | TickerStops

  /** sync: every update is saved by its handler and there is no ticker. */
  function Start(both: bool, memory: Image, file: Option<seq<Record>>, sync: bool): State {
    State(both, memory, file, Transport(true, false, 0, false), if both then Transport(true, false, 0, false) else DOWN,
      [], [], if both then 2 else 1, false, false, Selecting, !sync, false, NoSave, 0)
  }

  const DOWN: Transport := Transport(false, true, 0, true)

  function On(s: State, side: Side): Transport { if side == Http then s.http else s.rpc }

  function With(s: State, side: Side, t: Transport): (s': State)
    ensures s' == s.(http := s'.http, rpc := s'.rpc)
  {
    if side == Http then s.(http := t) else s.(rpc := t)
  }

  /** Handlers that the save mutex does not hold up. */
  predicate CanFinish(s: State, side: Side) {
    On(s, side).active > if s.saver.Saving? && s.saver.owner == Handler(side) then 1 else 0
  }

  ghost predicate CanSave(s: State, owner: Owner) {
    match owner
    case Ticker => s.ticking
    case Handler(side) => On(s, side).active > 0
    case Final => s.phase == Closing && !s.ticking
  }

  ghost predicate Enabled(s: State, e: Event) {
    match e
    case Cancel => true
    case Accept(side) => !On(s, side).drained
    case Update(side, _) => CanFinish(s, side)
    case Finish(side) => CanFinish(s, side)
    case BeginSave(owner, records) => s.saver == NoSave && CanSave(s, owner) && IsFileSnapshot(records, s.memory)
    case EndSave(ok) => s.saver.Saving? && (ok ==> Encodable(s.saver.records))
    case ServeReturns(side, result) => On(s, side).running && (result == Stopped ==> On(s, side).stopping)
    case SeeCancel => s.phase == Selecting && s.canceled
    case SeeResult => s.phase == Selecting && s.results != []
    case CallStop(side) => s.phase == Draining && !On(s, side).stopping
    case StopReturns(side, _) => On(s, side).stopping && !On(s, side).drained && On(s, side).active == 0
    case WaitDone => s.phase == Draining && s.http.drained && s.rpc.drained
    case Receive => s.phase == Collecting && s.remaining > 0 && s.results != []
    case CallFlush => s.phase == Collecting && s.remaining == 0
    case TickerStops => s.ticking && s.stop && !(s.saver.Saving? && s.saver.owner == Ticker)
  }

  function AfterReceive(s: State): (s': State)
    requires s.results != []
    ensures s'.http == s.http && s'.rpc == s.rpc
  {
    s.(results := s.results[1..], consumed := s.consumed + [s.results[0]], remaining := s.remaining - 1)
  }

  predicate NoFailure(s: State) { !s.shutdownFailed && forall r | r in s.consumed :: r == Stopped }

  function AfterEndSave(s: State, ok: bool): (s': State)
    requires s.saver.Saving?
    ensures s'.http == s.http && s'.rpc == s.rpc
  {
    var s1 := s.(saver := NoSave, file := if ok then Some(s.saver.records) else s.file);
    if s.saver.owner == Final then s1.(phase := Returned(ok && NoFailure(s))) else s1
  }

  ghost function Next(s: State, e: Event): State
    requires Enabled(s, e)
  {
    match e
    case Cancel => s.(canceled := true)
    case Accept(side) => With(s, side, On(s, side).(active := On(s, side).active + 1))
    case Update(_, memory) => s.(memory := memory)
    case Finish(side) => With(s, side, On(s, side).(active := On(s, side).active - 1))
    case BeginSave(owner, records) =>
      s.(saver := Saving(records, owner), phase := if owner == Final then FinalSaving else s.phase)
    case EndSave(ok) => AfterEndSave(s, ok)
    case ServeReturns(side, result) => With(s, side, On(s, side).(running := false)).(results := s.results + [result])
    case SeeCancel => s.(phase := Draining)
    case SeeResult => AfterReceive(s).(phase := Draining)
    case CallStop(side) => With(s, side, On(s, side).(stopping := true))
    case StopReturns(side, failed) =>
      With(s, side, On(s, side).(drained := true)).(shutdownFailed := s.shutdownFailed || (failed && side == Http))
    case WaitDone => s.(phase := Collecting)
    case Receive => AfterReceive(s)
    case CallFlush => s.(phase := Closing, stop := true, flushes := s.flushes + 1)
    case TickerStops => s.(ticking := false)
  }

  ghost predicate IsRun(states: seq<State>, events: seq<Event>, sync: bool) {
    && |states| == |events| + 1 && states[0] == Start(states[0].both, states[0].memory, states[0].file, sync)
    && forall k | 0 <= k < |events| ::
         Enabled(states[k], events[k]) && states[k + 1] == Next(states[k], events[k])
  }

  // ---------------------------------------------------------------- invariant

  predicate TransportOk(t: Transport) { t.drained ==> t.stopping && t.active == 0 }

  predicate Flushing(s: State) { s.phase == Closing || s.phase == FinalSaving || s.phase.Returned? }

  function Ended(t: Transport): nat { if t.running then 0 else 1 }

  /** How many results of Serve there will be. */
  function Results(s: State): nat { if s.both then 2 else 1 }

  predicate ChannelOk(s: State) {
    && s.remaining + |s.consumed| == Results(s)
    && |s.results| + |s.consumed| == Ended(s.http) + (if s.both then Ended(s.rpc) else 0)
    && (s.phase == Selecting ==> s.remaining == Results(s))
    && (Flushing(s) ==> s.remaining == 0)
  }

  predicate DrainOk(s: State) {
    && TransportOk(s.http) && TransportOk(s.rpc)
    && (s.phase == Selecting ==> !s.http.stopping && (s.both ==> !s.rpc.stopping))
    && (!s.both ==> s.rpc == DOWN)
    && (s.phase == Collecting || Flushing(s) ==> s.http.drained && s.rpc.drained)
  }

  ghost predicate SaveOk(s: State) {
    && (s.stop <==> Flushing(s))
    && s.flushes == (if s.stop then 1 else 0)
    && (s.saver.Saving? ==>
          match s.saver.owner
          case Ticker => s.ticking
          case Handler(side) => On(s, side).active > 0
          case Final => s.phase == FinalSaving)
    && (s.phase == FinalSaving ==>
          s.saver.Saving? && s.saver.owner == Final && !s.ticking && IsFileSnapshot(s.saver.records, s.memory))
    && (s.phase.Returned? ==> s.saver == NoSave && !s.ticking)
    && (s.phase.Returned? && s.phase.ok ==>
          NoFailure(s) && s.file.Some? && IsFileSnapshot(s.file.value, s.memory))
  }

  ghost predicate Inv(s: State) { ChannelOk(s) && DrainOk(s) && SaveOk(s) }

  lemma AcceptStep(s: State, side: Side)
    requires Inv(s) && Enabled(s, Accept(side))
    ensures Inv(Next(s, Accept(side)))
  {
  }

  lemma HandlerStep(s: State, side: Side, e: Event)
    requires Inv(s) && Enabled(s, e) && (e == Finish(side) || (e.Update? && e.side == side))
    ensures Inv(Next(s, e))
  {
  }

  lemma BeginSaveStep(s: State, owner: Owner, records: seq<Record>)
    requires Inv(s) && Enabled(s, BeginSave(owner, records))
    ensures Inv(Next(s, BeginSave(owner, records)))
  {
  }

  lemma EndSaveStep(s: State, ok: bool)
    requires Inv(s) && Enabled(s, EndSave(ok))
    ensures Inv(AfterEndSave(s, ok))
  {
  }

  lemma ServeStep(s: State, side: Side, result: Result)
    requires Inv(s) && Enabled(s, ServeReturns(side, result))
    ensures Inv(Next(s, ServeReturns(side, result)))
  {
    var s' := Next(s, ServeReturns(side, result));
    assert ChannelOk(s');
    SameSaves(s, s');
  }

  /** A change of one transport that keeps its handlers and moves nothing else that saves depend on. */
  lemma SameSaves(s: State, s': State)
    requires SaveOk(s) && s'.http.active == s.http.active && s'.rpc.active == s.rpc.active
    requires s'.memory == s.memory && s'.file == s.file && s'.phase == s.phase && s'.ticking == s.ticking
    requires s'.stop == s.stop && s'.saver == s.saver && s'.flushes == s.flushes
    requires s.phase.Returned? ==> NoFailure(s) == NoFailure(s')
    ensures SaveOk(s')
  {
  }

  lemma StopStep(s: State, side: Side)
    requires Inv(s) && Enabled(s, CallStop(side))
    ensures Inv(Next(s, CallStop(side)))
  {
  }

  lemma StoppedStep(s: State, side: Side, failed: bool)
    requires Inv(s) && Enabled(s, StopReturns(side, failed))
    ensures Inv(Next(s, StopReturns(side, failed)))
  {
    SameSaves(s, Next(s, StopReturns(side, failed)));
  }

  lemma MainStep(s: State, e: Event)
    requires Inv(s) && Enabled(s, e) && MainEvent(e)
    ensures Inv(Next(s, e))
  {
  }

  predicate MainEvent(e: Event) {
    e.SeeCancel? || e.SeeResult? || e.WaitDone? || e.Receive? || e.CallFlush? || e.Cancel? || e.TickerStops?
  }

  lemma StepKeepsInv(s: State, e: Event)
    requires Inv(s) && Enabled(s, e)
    ensures Inv(Next(s, e))
  {
    if MainEvent(e) {
      MainStep(s, e);
    } else {
      match e
      case Accept(side) => AcceptStep(s, side);
      case Update(side, _) => HandlerStep(s, side, e);
      case Finish(side) => HandlerStep(s, side, e);
      case BeginSave(owner, records) => BeginSaveStep(s, owner, records);
      case EndSave(ok) => EndSaveStep(s, ok);
      case ServeReturns(side, result) => ServeStep(s, side, result);
      case CallStop(side) => StopStep(s, side);
      case StopReturns(side, failed) => StoppedStep(s, side, failed);
    }
  }

  lemma {:induction false} RunKeepsInv(states: seq<State>, events: seq<Event>, sync: bool, k: nat)
    requires IsRun(states, events, sync) && k <= |events|
    ensures Inv(states[k])
  {
    if k > 0 {
      RunKeepsInv(states, events, sync, k - 1);
      StepKeepsInv(states[k - 1], events[k - 1]);
    }
  }

  // ---------------------------------------------------------------- order of shutdown

  /** Storage is flushed once, after all transports have drained and every result of Serve has been received. */
  lemma FlushAfterDrain(states: seq<State>, events: seq<Event>, sync: bool, k: nat)
    requires IsRun(states, events, sync) && k <= |events|
    ensures var s := states[k];
      if s.flushes == 0 then !s.stop && !Flushing(s)
      else
        && s.flushes == 1 && Flushing(s)
        && s.http == DOWN && s.rpc == DOWN && s.results == [] && |s.consumed| == Results(s)
  {
    RunKeepsInv(states, events, sync, k);
  }

  /** Success means that every server stopped in order and that the file restores to memory as it is; it
      does so literally unless there are receipts and not one metric. */
  lemma NilMeansSaved(states: seq<State>, events: seq<Event>, sync: bool, k: nat)
    requires IsRun(states, events, sync) && k <= |events| && states[k].phase == Returned(true)
    ensures var s := states[k];
      && (if s.both then s.consumed == [Stopped, Stopped] else s.consumed == [Stopped]) && !s.shutdownFailed
      && s.file.Some? && Load(s.file.value).maps == s.memory.maps
      && (Load(s.file.value) == s.memory <==> (s.memory.maps == EMPTY ==> s.memory.receipts == map[]))
  {
    RunKeepsInv(states, events, sync, k);
    var s := states[k];
    assert s.consumed[0] in s.consumed && (s.both ==> s.consumed[1] in s.consumed);
    RestoreRoundTrip(s.file.value, s.memory);
  }

  lemma ReturnedStays(s: State, e: Event)
    requires Inv(s) && Enabled(s, e) && s.phase.Returned?
    ensures Next(s, e) == s.(canceled := Next(s, e).canceled)
  {
    assert TransportOk(s.http) && TransportOk(s.rpc);
    assert s.http.active == 0 && s.rpc.active == 0 && !s.http.running && !s.rpc.running;
  }

  /** Nothing moves after the return: no handler, no ticker, no save. */
  lemma {:induction false} NothingAfterReturn(states: seq<State>, events: seq<Event>, sync: bool, j: nat, k: nat)
    requires IsRun(states, events, sync) && j <= k <= |events| && states[j].phase.Returned?
    ensures states[k] == states[j].(canceled := states[k].canceled)
    decreases k - j
  {
    if j < k {
      RunKeepsInv(states, events, sync, j);
      ReturnedStays(states[j], events[j]);
      NothingAfterReturn(states, events, sync, j + 1, k);
    }
  }

  function Stage(p: Phase): nat {
    match p
    case Selecting => 0
    case Draining => 1
    case Collecting => 2
    case Closing => 3
    case FinalSaving => 4
    case Returned(_) => 5
  }

  /** Phases are passed in order, and the ticker goroutine does not come back. */
  predicate Later(s: State, s': State) {
    Stage(s.phase) <= Stage(s'.phase) && (s'.ticking ==> s.ticking)
  }

  lemma StepLater(s: State, e: Event)
    requires SaveOk(s) && Enabled(s, e)
    ensures Later(s, Next(s, e))
  {
    if MainEvent(e) {
      MainLater(s, e);
    } else if e.BeginSave? {
      BeginLater(s, e.owner, e.records);
    } else if e.EndSave? {
      EndLater(s, e.ok);
    } else {
      TrafficLater(s, e);
    }
  }

  lemma TrafficLater(s: State, e: Event)
    requires Enabled(s, e) && !MainEvent(e) && !e.BeginSave? && !e.EndSave?
    ensures Next(s, e).phase == s.phase && Next(s, e).ticking == s.ticking
  {
    match e
    case Accept(side) => assert With(s, side, On(s, side).(active := On(s, side).active + 1)).phase == s.phase;
    case Finish(side) => assert With(s, side, On(s, side).(active := On(s, side).active - 1)).phase == s.phase;
    case ServeReturns(side, _) => assert With(s, side, On(s, side).(running := false)).phase == s.phase;
    case CallStop(side) => assert With(s, side, On(s, side).(stopping := true)).phase == s.phase;
    case StopReturns(side, _) => assert With(s, side, On(s, side).(drained := true)).phase == s.phase;
    case Update(_, _) =>
  }

  lemma MainLater(s: State, e: Event)
    requires Enabled(s, e) && MainEvent(e)
    ensures Later(s, Next(s, e))
  {
  }

  lemma BeginLater(s: State, owner: Owner, records: seq<Record>)
    requires Enabled(s, BeginSave(owner, records))
    ensures Later(s, Next(s, BeginSave(owner, records)))
  {
  }

  lemma EndLater(s: State, ok: bool)
    requires SaveOk(s) && Enabled(s, EndSave(ok))
    ensures Later(s, AfterEndSave(s, ok))
  {
  }

  lemma LaterThan(u: State, v: State, w: State)
    requires Later(u, v) && Later(v, w)
    ensures Later(u, w)
  {
  }

  lemma {:induction false} RunLater(states: seq<State>, events: seq<Event>, sync: bool, j: nat, k: nat)
    requires IsRun(states, events, sync) && j <= k <= |events|
    ensures Later(states[j], states[k])
    decreases k - j
  {
    if j < k {
      RunKeepsInv(states, events, sync, j);
      StepLater(states[j], events[j]);
      RunLater(states, events, sync, j + 1, k);
      LaterThan(states[j], states[j + 1], states[k]);
    }
  }

  lemma NoSaveAfter(s: State, owner: Owner)
    requires Inv(s) && Stage(s.phase) >= Stage(FinalSaving) && !s.ticking
    ensures !CanSave(s, owner)
  {
  }

  lemma FinalSaveBegins(s: State, records: seq<Record>)
    requires Inv(s) && Enabled(s, BeginSave(Final, records))
    ensures Next(s, BeginSave(Final, records)).phase == FinalSaving && !Next(s, BeginSave(Final, records)).ticking
  {
  }

  /** The final save begins once, when every periodic save has ended, and no save of any kind follows it. */
  lemma FinalSaveIsLast(states: seq<State>, events: seq<Event>, sync: bool, j: nat, k: nat)
    requires IsRun(states, events, sync) && j < |events| && k < |events|
    requires events[j].BeginSave? && events[k].BeginSave? && events[k].owner == Final
    ensures j <= k && (events[j].owner == Final ==> j == k)
    ensures states[k].saver == NoSave && !states[k].ticking
  {
    if k < j {
      NoneBetween(states, events, sync, k, j);
    } else if j < k && events[j].owner == Final {
      NoneBetween(states, events, sync, j, k);
    }
  }

  lemma NoneBetween(states: seq<State>, events: seq<Event>, sync: bool, j: nat, k: nat)
    requires IsRun(states, events, sync) && j < k < |events|
    requires events[j].BeginSave? && events[j].owner == Final
    ensures !events[k].BeginSave?
  {
    RunKeepsInv(states, events, sync, j);
    FinalSaveBegins(states[j], events[j].records);
    RunLater(states, events, sync, j + 1, k);
    RunKeepsInv(states, events, sync, k);
    if events[k].BeginSave? {
      NoSaveAfter(states[k], events[k].owner);
    }
  }

  // ---------------------------------------------------------------- what the program answers

  function Serve(served: seq<Result>, e: Event): seq<Result> {
    if e.ServeReturns? then served + [e.result] else served
  }

  /** The results of Serve, in the order in which they came. */
  function Served(events: seq<Event>, k: nat): seq<Result>
    requires k <= |events|
  {
    if k == 0 then [] else Serve(Served(events, k - 1), events[k - 1])
  }

  /** Every Serve that returned had been told to stop. */
  predicate ServesStopped(events: seq<Event>, k: nat)
    requires k <= |events|
  {
    forall j | 0 <= j < k && events[j].ServeReturns? :: events[j].result == Stopped
  }

  /** HTTP shutdown has reported a failure. */
  predicate StopFailed(events: seq<Event>, k: nat)
    requires k <= |events|
  {
    exists j :: 0 <= j < k && events[j] == StopReturns(Http, true)
  }

  predicate SavesFinally(s: State, e: Event) { e == EndSave(true) && s.saver.Saving? && s.saver.owner == Final }

  /** The final save has ended in success. */
  predicate FinallySaved(states: seq<State>, events: seq<Event>, k: nat)
    requires k <= |events| && |states| == |events| + 1
  {
    exists j :: 0 <= j < k && SavesFinally(states[j], events[j])
  }

  predicate AllStopped(results: seq<Result>) { forall r | r in results :: r == Stopped }

  /** The program knows of everything that has failed; success of the final save is its last word. */
  predicate Knows(s: State, served: seq<Result>, failed: bool, saved: bool) {
    && s.consumed + s.results == served
    && s.shutdownFailed == failed
    && (if s.phase.Returned? then s.phase.ok == (AllStopped(s.consumed) && !failed && saved) else !saved)
  }

  predicate KnowsAfter(s: State, e: Event, s': State, served: seq<Result>, failed: bool, saved: bool) {
    Knows(s', Serve(served, e), failed || e == StopReturns(Http, true), saved || SavesFinally(s, e))
  }

  lemma StepKnows(s: State, e: Event, served: seq<Result>, failed: bool, saved: bool)
    requires Inv(s) && Enabled(s, e) && Knows(s, served, failed, saved)
    ensures KnowsAfter(s, e, Next(s, e), served, failed, saved)
  {
    if s.phase.Returned? {
      ReturnedKnows(s, e, served, failed, saved);
    } else if MainEvent(e) {
      MainKnows(s, e, served, failed, saved);
    } else if e.BeginSave? || e.EndSave? {
      SaveKnows(s, e, served, failed, saved);
    } else {
      TrafficKnows(s, e, served, failed, saved);
    }
  }

  lemma ReturnedKnows(s: State, e: Event, served: seq<Result>, failed: bool, saved: bool)
    requires Inv(s) && Enabled(s, e) && Knows(s, served, failed, saved) && s.phase.Returned?
    ensures KnowsAfter(s, e, Next(s, e), served, failed, saved)
  {
    ReturnedStays(s, e);
    ReturnedQuiet(s, e);
  }

  lemma ReturnedQuiet(s: State, e: Event)
    requires Inv(s) && Enabled(s, e) && s.phase.Returned?
    ensures !e.ServeReturns? && !e.StopReturns? && !e.EndSave?
  {
  }

  lemma MainKnows(s: State, e: Event, served: seq<Result>, failed: bool, saved: bool)
    requires Enabled(s, e) && Knows(s, served, failed, saved) && !s.phase.Returned? && MainEvent(e)
    ensures KnowsAfter(s, e, Next(s, e), served, failed, saved)
  {
    if s.results != [] {
      assert s.consumed + s.results == s.consumed + [s.results[0]] + s.results[1..];
    }
  }

  lemma SaveKnows(s: State, e: Event, served: seq<Result>, failed: bool, saved: bool)
    requires Enabled(s, e) && Knows(s, served, failed, saved) && !s.phase.Returned? && (e.BeginSave? || e.EndSave?)
    ensures KnowsAfter(s, e, Next(s, e), served, failed, saved)
  {
    if e.BeginSave? {
      BeginLater(s, e.owner, e.records);
    }
  }

  lemma TrafficKnows(s: State, e: Event, served: seq<Result>, failed: bool, saved: bool)
    requires Enabled(s, e) && Knows(s, served, failed, saved) && !s.phase.Returned?
    requires !MainEvent(e) && !e.BeginSave? && !e.EndSave?
    ensures KnowsAfter(s, e, Next(s, e), served, failed, saved)
  {
    TrafficLater(s, e);
    if e.ServeReturns? {
      assert s.consumed + (s.results + [e.result]) == s.consumed + s.results + [e.result];
    }
  }

  lemma {:induction false} RunKnows(states: seq<State>, events: seq<Event>, sync: bool, k: nat)
    requires IsRun(states, events, sync) && k <= |events|
    ensures Knows(states[k], Served(events, k), StopFailed(events, k), FinallySaved(states, events, k))
  {
    if k > 0 {
      RunKnows(states, events, sync, k - 1);
      KnowsNext(states, events, sync, k - 1);
      OneMore(states, events, k - 1);
    }
  }

  lemma OneMore(states: seq<State>, events: seq<Event>, k: nat)
    requires k < |events| && |states| == |events| + 1
    ensures StopFailed(events, k + 1) <==> StopFailed(events, k) || events[k] == StopReturns(Http, true)
    ensures FinallySaved(states, events, k + 1) <==> FinallySaved(states, events, k) || SavesFinally(states[k], events[k])
  {
  }

  lemma KnowsNext(states: seq<State>, events: seq<Event>, sync: bool, k: nat)
    requires IsRun(states, events, sync) && k < |events|
    requires Knows(states[k], Served(events, k), StopFailed(events, k), FinallySaved(states, events, k))
    ensures KnowsAfter(states[k], events[k], states[k + 1], Served(events, k), StopFailed(events, k),
                       FinallySaved(states, events, k))
  {
    RunKeepsInv(states, events, sync, k);
    StepKnows(states[k], events[k], Served(events, k), StopFailed(events, k), FinallySaved(states, events, k));
  }

  lemma AllStoppedAppend(results: seq<Result>, r: Result)
    ensures AllStopped(results + [r]) <==> AllStopped(results) && r == Stopped
  {
    assert r in results + [r];
    assert forall x | x in results :: x in results + [r];
  }

  lemma {:induction false} ServedMembers(events: seq<Event>, k: nat)
    requires k <= |events|
    ensures AllStopped(Served(events, k)) <==> ServesStopped(events, k)
  {
    if k > 0 {
      ServedMembers(events, k - 1);
      if events[k - 1].ServeReturns? {
        AllStoppedAppend(Served(events, k - 1), events[k - 1].result);
      }
    }
  }

  /** The program answers nil exactly if every Serve ended because it was told to, HTTP shutdown reported no failure, and
      the final save succeeded. */
  lemma AnswerIff(states: seq<State>, events: seq<Event>, sync: bool, k: nat)
    requires IsRun(states, events, sync) && k <= |events| && states[k].phase.Returned?
    ensures states[k].phase.ok <==>
      ServesStopped(events, k) && !StopFailed(events, k) && FinallySaved(states, events, k)
  {
    RunKnows(states, events, sync, k);
    AllReceived(states, events, sync, k);
    ServedMembers(events, k);
  }

  lemma AllReceived(states: seq<State>, events: seq<Event>, sync: bool, k: nat)
    requires IsRun(states, events, sync) && k <= |events| && states[k].phase.Returned?
    ensures states[k].consumed + states[k].results == states[k].consumed
  {
    FlushAfterDrain(states, events, sync, k);
    RunKeepsInv(states, events, sync, k);
  }

  // ---------------------------------------------------------------- shutdown never gets stuck

  /** Steps of the program itself: no new requests, no further updates or saves by others. */
  predicate Internal(e: Event) {
    !e.Cancel? && !e.Accept? && !e.Update? && (e.BeginSave? ==> e.owner == Final)
  }

  function TransportWork(t: Transport): nat {
    (if t.running then 1 else 0) + (if t.stopping then 0 else 1) + t.active + (if t.drained then 0 else 1)
  }

  /** A bound on the internal steps still to come. */
  function Work(s: State): int { TransportWork(s.http) + TransportWork(s.rpc) + MainWork(s) }

  function MainWork(s: State): int {
    s.remaining + (if s.ticking then 1 else 0) + (if s.saver.Saving? then 1 else 0) + 2 * (5 - Stage(s.phase))
  }

  predicate Asked(s: State) { s.phase != Selecting || s.canceled || s.results != [] }

  /** Every internal step uses up some of it. */
  lemma InternalSpends(s: State, e: Event)
    requires Inv(s) && Enabled(s, e) && Internal(e)
    ensures 0 <= Work(Next(s, e)) < Work(s)
  {
    StepKeepsInv(s, e);
    WorkLeft(Next(s, e));
    if e.Finish? || e.ServeReturns? || e.CallStop? || e.StopReturns? {
      TransportSpends(s, e);
    } else {
      MainSpends(s, e);
    }
  }

  lemma WorkLeft(s: State)
    requires ChannelOk(s)
    ensures 0 <= Work(s)
  {
  }

  lemma TransportSpends(s: State, e: Event)
    requires Enabled(s, e) && (e.Finish? || e.ServeReturns? || e.CallStop? || e.StopReturns?)
    ensures Work(Next(s, e)) < Work(s)
  {
    match e
    case Finish(side) => FinishSpends(s, side);
    case CallStop(side) => CallStopSpends(s, side);
    case ServeReturns(side, result) => ServeSpends(s, side, result);
    case StopReturns(side, failed) => StoppedSpends(s, side, failed);
  }

  lemma FinishSpends(s: State, side: Side)
    requires Enabled(s, Finish(side))
    ensures Work(Next(s, Finish(side))) < Work(s)
  {
    var t := On(s, side);
    assert t.active > 0;
    LessWork(s, side, t.(active := t.active - 1));
  }

  lemma CallStopSpends(s: State, side: Side)
    requires Enabled(s, CallStop(side))
    ensures Work(Next(s, CallStop(side))) < Work(s)
  {
    LessWork(s, side, On(s, side).(stopping := true));
  }

  lemma ServeSpends(s: State, side: Side, result: Result)
    requires Enabled(s, ServeReturns(side, result))
    ensures Work(Next(s, ServeReturns(side, result))) < Work(s)
  {
    var s' := With(s, side, On(s, side).(running := false));
    LessWork(s, side, On(s, side).(running := false));
    SameWork(s', s'.(results := s.results + [result]));
  }

  lemma StoppedSpends(s: State, side: Side, failed: bool)
    requires Enabled(s, StopReturns(side, failed))
    ensures Work(Next(s, StopReturns(side, failed))) < Work(s)
  {
    var s' := With(s, side, On(s, side).(drained := true));
    LessWork(s, side, On(s, side).(drained := true));
    SameWork(s', Next(s, StopReturns(side, failed)));
  }

  lemma SameWork(s: State, s': State)
    requires s'.http == s.http && s'.rpc == s.rpc && s'.remaining == s.remaining
    requires s'.ticking == s.ticking && s'.saver == s.saver && s'.phase == s.phase
    ensures Work(s') == Work(s)
  {
  }

  /** One transport is a step further down. */
  predicate Lower(t: Transport, t': Transport) {
    || (t.active > 0 && t' == t.(active := t.active - 1)) || (t.running && t' == t.(running := false))
    || (!t.stopping && t' == t.(stopping := true)) || (!t.drained && t' == t.(drained := true))
  }

  lemma LowerWork(t: Transport, t': Transport)
    requires Lower(t, t')
    ensures TransportWork(t') < TransportWork(t)
  {
  }

  lemma LessWork(s: State, side: Side, t': Transport)
    requires Lower(On(s, side), t')
    ensures Work(With(s, side, t')) < Work(s)
  {
    LowerWork(On(s, side), t');
    var s' := With(s, side, t');
    assert MainWork(s') == MainWork(s);
    if side == Http {
      assert s'.http == t' && s'.rpc == s.rpc;
    } else {
      assert s'.http == s.http && s'.rpc == t';
    }
  }

  predicate SameTransports(s: State, s': State) { s'.http == s.http && s'.rpc == s.rpc }

  lemma MainSpends(s: State, e: Event)
    requires Inv(s) && Enabled(s, e) && Internal(e) && (MainEvent(e) || e.BeginSave? || e.EndSave?)
    ensures Work(Next(s, e)) < Work(s)
  {
    if MainEvent(e) {
      MainEventSpends(s, e);
    } else if e.BeginSave? {
      BeginSpends(s, e);
    } else {
      EndSpends(s, e);
    }
  }

  lemma MainEventSpends(s: State, e: Event)
    requires Enabled(s, e) && Internal(e) && MainEvent(e)
    ensures MainWork(Next(s, e)) < MainWork(s) && SameTransports(s, Next(s, e))
  {
  }

  lemma BeginSpends(s: State, e: Event)
    requires SaveOk(s) && Enabled(s, e) && Internal(e) && e.BeginSave?
    ensures MainWork(Next(s, e)) < MainWork(s) && SameTransports(s, Next(s, e))
  {
  }

  lemma EndSpends(s: State, e: Event)
    requires SaveOk(s) && Enabled(s, e) && e.EndSave?
    ensures MainWork(Next(s, e)) < MainWork(s) && SameTransports(s, Next(s, e))
  {
  }

  /** One transport on its way down. */
  lemma DrainProgress(s: State, side: Side) returns (e: Event)
    requires Inv(s) && s.phase == Draining && s.saver == NoSave && !On(s, side).drained
    ensures Enabled(s, e) && Internal(e) && Orderly(s, e)
  {
    e := if !On(s, side).stopping then CallStop(side)
         else if On(s, side).active > 0 then Finish(side) else StopReturns(side, false);
  }

  lemma CollectProgress(s: State) returns (e: Event)
    requires Inv(s) && s.phase == Collecting
    ensures Enabled(s, e) && Internal(e) && Orderly(s, e)
  {
    e := if s.remaining == 0 then CallFlush
         else if s.results != [] then Receive
         else ServeReturns(if s.http.running then Http else Rpc, Stopped);
  }

  lemma CloseProgress(s: State) returns (e: Event)
    requires Inv(s) && s.phase == Closing && s.saver == NoSave
    ensures Enabled(s, e) && Internal(e) && Orderly(s, e)
  {
    if s.ticking {
      e := TickerStops;
    } else {
      var records := SomeSnapshot(s.memory);
      e := BeginSave(Final, records);
    }
  }

  /** A step that brings no failure of its own: the final save fails only if it has to. */
  predicate Orderly(s: State, e: Event) {
    && (e.ServeReturns? ==> e.result == Stopped) && (e.StopReturns? ==> !e.failed)
    && (e.EndSave? && s.saver.Saving? && s.saver.owner == Final && Encodable(s.saver.records) ==> e.ok)
  }

  /** Once asked to stop, the program always has an orderly step of its own to take, until it returns. */
  lemma Progress(s: State) returns (e: Event)
    requires Inv(s) && Asked(s) && !s.phase.Returned?
    ensures Enabled(s, e) && Internal(e) && Orderly(s, e)
  {
    if s.saver.Saving? {
      e := EndSave(Encodable(s.saver.records));
    } else {
      match s.phase
      case Selecting => e := if s.canceled then SeeCancel else SeeResult;
      case Draining =>
        if !s.http.drained {
          e := DrainProgress(s, Http);
        } else if !s.rpc.drained {
          e := DrainProgress(s, Rpc);
        } else {
          e := WaitDone;
        }
      case Collecting => e := CollectProgress(s);
      case Closing => e := CloseProgress(s);
    }
  }

  lemma AskedStays(s: State, e: Event)
    requires Inv(s) && Enabled(s, e) && Asked(s)
    ensures Asked(Next(s, e))
  {
    StepLater(s, e);
  }

  ghost predicate IsShutdown(states: seq<State>, events: seq<Event>) {
    && |states| == |events| + 1
    && forall k | 0 <= k < |events| ::
         Enabled(states[k], events[k]) && Internal(events[k]) && states[k + 1] == Next(states[k], events[k])
  }

  lemma {:induction false} ShutdownSpends(states: seq<State>, events: seq<Event>, k: nat)
    requires IsShutdown(states, events) && Inv(states[0]) && Asked(states[0]) && k <= |events|
    ensures Inv(states[k]) && Asked(states[k]) && k + Work(states[k]) <= Work(states[0])
  {
    if k > 0 {
      ShutdownSpends(states, events, k - 1);
      ShutdownStep(states[k - 1], events[k - 1]);
    }
  }

  lemma ShutdownStep(s: State, e: Event)
    requires Inv(s) && Asked(s) && Enabled(s, e) && Internal(e)
    ensures Inv(Next(s, e)) && Asked(Next(s, e)) && Work(Next(s, e)) + 1 <= Work(s)
  {
    StepKeepsInv(s, e);
    AskedStays(s, e);
    InternalSpends(s, e);
  }

  /** However the program's own steps are scheduled, there are at most Work of them from the moment it is asked to
      stop, and where no further one is possible it has returned. */
  lemma ShutdownTerminates(states: seq<State>, events: seq<Event>)
    requires IsShutdown(states, events) && Inv(states[0]) && Asked(states[0])
    ensures |events| <= Work(states[0])
    ensures (forall e :: Internal(e) ==> !Enabled(states[|events|], e)) ==> states[|events|].phase.Returned?
  {
    var last := states[|events|];
    ShutdownSpends(states, events, |events|);
    WorkLeft(last);
    if !last.phase.Returned? {
      var e := Progress(last);
      assert Internal(e) && Enabled(last, e);
    }
  }

  lemma PrependStep(s: State, e: Event, states: seq<State>, events: seq<Event>)
    requires IsShutdown(states, events) && Enabled(s, e) && Internal(e) && states[0] == Next(s, e)
    ensures IsShutdown([s] + states, [e] + events)
  {
    var states', events' := [s] + states, [e] + events;
    forall k | 0 <= k < |events'|
      ensures Enabled(states'[k], events'[k]) && Internal(events'[k]) && states'[k + 1] == Next(states'[k], events'[k])
    {
      if k > 0 {
        assert states'[k] == states[k - 1] && events'[k] == events[k - 1] && states'[k + 1] == states[k];
      }
    }
  }

  lemma ProgressTo(s: State) returns (e: Event, s': State)
    requires Inv(s) && Asked(s) && !s.phase.Returned?
    ensures Enabled(s, e) && Internal(e) && s' == Next(s, e)
    ensures Inv(s') && Asked(s') && 0 <= Work(s') < Work(s)
    ensures Spotless(s) ==> Spotless(s')
  {
    e := Progress(s);
    s' := Next(s, e);
    StepKeepsInv(s, e);
    AskedStays(s, e);
    InternalSpends(s, e);
    if Spotless(s) {
      StaysSpotless(s, e);
    }
  }

  /** Nothing has failed so far, and memory can be written to a file. */
  predicate Spotless(s: State) {
    && AllStopped(s.consumed + s.results) && !s.shutdownFailed && AllFinite(s.memory.maps)
    && (s.phase.Returned? ==> s.phase.ok)
  }

  lemma StaysSpotless(s: State, e: Event)
    requires Inv(s) && Enabled(s, e) && Internal(e) && Orderly(s, e) && Spotless(s) && !s.phase.Returned?
    ensures Spotless(Next(s, e))
  {
    if MainEvent(e) {
      MainSpotless(s, e);
    } else if e.EndSave? {
      SaveSpotless(s, e.ok);
    } else if e.BeginSave? {
      BeginLater(s, e.owner, e.records);
    } else {
      TrafficSpotless(s, e);
    }
  }

  lemma MainSpotless(s: State, e: Event)
    requires Enabled(s, e) && MainEvent(e) && Spotless(s) && !s.phase.Returned?
    ensures Spotless(Next(s, e))
  {
    if s.results != [] {
      assert s.consumed + s.results == s.consumed + [s.results[0]] + s.results[1..];
    }
  }

  lemma TrafficSpotless(s: State, e: Event)
    requires Enabled(s, e) && Internal(e) && Orderly(s, e) && Spotless(s) && !s.phase.Returned?
    requires !MainEvent(e) && !e.BeginSave? && !e.EndSave?
    ensures Spotless(Next(s, e))
  {
    TrafficLater(s, e);
    if e.ServeReturns? {
      assert s.consumed + (s.results + [e.result]) == s.consumed + s.results + [e.result];
    }
  }

  lemma SaveSpotless(s: State, ok: bool)
    requires Inv(s) && Enabled(s, EndSave(ok)) && Orderly(s, EndSave(ok)) && Spotless(s) && !s.phase.Returned?
    ensures Spotless(AfterEndSave(s, ok))
  {
    if s.saver.owner == Final {
      EncodableIff(s.saver.records, s.memory);
      assert forall r | r in s.consumed :: r in s.consumed + s.results;
    }
  }

  /** So from every state in which it has been asked to stop, the program can get to the return; and to a return of nil,
      if nothing has failed so far and all gauges are finite. */
  lemma {:induction false} ShutdownCompletes(s: State) returns (states: seq<State>, events: seq<Event>)
    requires Inv(s) && Asked(s)
    ensures IsShutdown(states, events) && states[0] == s && states[|events|].phase.Returned? && |events| <= Work(s)
    ensures Spotless(s) ==> states[|events|].phase == Returned(true)
    decreases Work(s)
  {
    if s.phase.Returned? {
      WorkLeft(s);
      return [s], [];
    }
    var e, s' := ProgressTo(s);
    var rest, more := ShutdownCompletes(s');
    PrependStep(s, e, rest, more);
    states, events := [s] + rest, [e] + more;
  }
}
