/** The supervisor composed with the motion executor: what the delivery guarantees holds
    of the supervisor. */
module MissionExecutor {
  import opened Types
  import opened CommandCoordinator
  import opened CoordinatorRuns
  import opened Mission
  import opened MissionMoves
  import opened MissionSync
  import opened MissionInvariant
  import opened MissionRuns
  import opened MissionDelivery
  import opened DeferredDone
  import Delivery

  // ----- The composed system -----

  /** The supervisor, the delivery system around its coordinator, the reports of the
      executor in the order they were made, how many of them have arrived, and the
      actions whose DONE a camera gate has swallowed. */
  datatype World = World(m: State, system: Delivery.System, log: seq<DeliveryFeedback>, read: nat, lost: set<ActionId>)

  /** One frame of the supervisor, with report `at` or none; an order that arrives at
      the executor; the end of the running order, which is always reported; and any
      other truthful report. */
  datatype Event =
    | Look(input: Input, at: nat)
    | Arrive(order: Order)
    | Finish(done: DeliveryFeedback)
    | Report(feedback: DeliveryFeedback)

  function Start(config: Config): World {
    World(Mission.Initial(config), Delivery.Start(config.command), [], 0, {})
  }

  /** This frame hears the report at this position. */
  predicate Hears(w: World, i: Input, at: nat) { at < |w.log| && i.feedback == w.log[at] }

  /** Messages arrive in any order, any number of times, or never. */
  predicate Enabled(w: World, e: Event) {
    match e
    case Look(i, at) => i.feedback == NO_FEEDBACK || Hears(w, i, at)
    case Arrive(order) => order in w.system.sent
    case Finish(done) =>
      var x := w.system.executor;
      x.finished < |x.started| && done.done && done.actionId == x.started[x.finished].id && Delivery.Truthful(Delivery.Finish(x), done)
    case Report(feedback) => Delivery.Truthful(w.system.executor, feedback)
  }

  /** A camera gate takes a DONE away for good. */
  predicate Swallows(config: Config, m: State, i: Input) {
    var a := AdmittedOf(config, m, i);
    i.feedback.done && a.hold && a.state.gate.cameraOnly
  }

  /** The delivery system after one frame of the supervisor; what the gate lets through
      counts as reported. */
  function AfterLook(config: Config, w: World, i: Input): Delivery.System {
    var f := GivenFrame(config, w.m, i);
    Delivery.Next(config.command, w.system.(reported := w.system.reported + {f.feedback}), Delivery.Tick(f))
  }

  function Next(config: Config, w: World, e: Event): World
    requires Enabled(w, e)
  {
    match e
    case Look(i, at) =>
      w.(m := Mission.Compute(config, w.m, i).state,
         system := AfterLook(config, w, i),
         read := if at == w.read && Hears(w, i, at) then w.read + 1 else w.read,
         lost := if Swallows(config, w.m, i) then w.lost + {i.feedback.actionId} else w.lost)
    case Arrive(order) => w.(system := Delivery.Next(config.command, w.system, Delivery.Deliver(order)))
    case Finish(done) =>
      w.(system := w.system.(executor := Delivery.Finish(w.system.executor), reported := w.system.reported + {done}), log := w.log + [done])
    case Report(feedback) =>
      w.(system := w.system.(reported := w.system.reported + {feedback}), log := w.log + [feedback])
  }

  function RunWorld(config: Config, events: seq<Event>): Option<World> {
    if events == [] then Some(Start(config))
    else
      var before := RunWorld(config, events[..|events| - 1]);
      var e := events[|events| - 1];
      if before.Some? && Enabled(before.value, e) then Some(Next(config, before.value, e)) else None
  }

  // ----- The delivery inside -----

  /** The supervisor and the delivery system agree, and every report stands in the log;
      a DONE that the gate holds back was reported. */
  ghost predicate Joined(w: World) {
    && Base(w.m) && w.system.history.state == w.m.coordinator
    && (forall f :: f in w.log ==> f in w.system.reported)
    && w.read <= |w.log|
    && (Deferring(w.m) ==> w.m.gate.deferred.done && w.m.gate.deferred in w.system.reported)
  }

  /** The DONE that a gate holds back in this frame, if it does. */
  function Held(m: State, i: Input): DeliveryFeedback { if Deferring(m) then m.gate.deferred else i.feedback }

  lemma OpenGateHolds(config: Config, m: State, i: Input)
    requires Deferring(m) ==> m.gate.deferred.done
    ensures var n := OpenGate(config, m, i); Deferring(n) ==> n.gate.deferred == Held(m, i) && Held(m, i).done
  {
    hide InFixedChain, CommittedToCamera;
  }

  lemma PassGateLets(config: Config, n: State, i: Input)
    ensures var a := PassGate(config, n, i);
            && (a.input.feedback == i.feedback || a.input.feedback == NO_FEEDBACK
                || (Deferring(n) && (a.input.feedback == n.gate.deferred || a.input.feedback == StillRunning(n.gate.deferred))))
            && (Deferring(a.state) ==> Deferring(n) && a.state.gate.deferred == n.gate.deferred)
  {
    AddToGateKeeps(config, n.gate, i);
    hide AddToGate, GateReady, GateGuide;
  }

  /** What reaches the coordinator is the feedback of the frame, a DONE held back or the
      acknowledgement that stands in for it, or nothing. */
  lemma DeliveredFrom(config: Config, m: State, i: Input)
    requires Deferring(m) ==> m.gate.deferred.done
    ensures var a, held := AdmittedOf(config, m, i), Held(m, i);
            && (a.input.feedback == i.feedback || a.input.feedback == NO_FEEDBACK
                || (held.done && (a.input.feedback == held || a.input.feedback == StillRunning(held))))
            && (Deferring(a.state) ==> a.state.gate.deferred == held && held.done)
  {
    hide OpenGate, PassGate;
    OpenGateHolds(config, m, i);
    PassGateLets(config, OpenGate(config, m, i), i);
  }

  lemma GivenFeedback(config: Config, m: State, i: Input)
    ensures GivenFrame(config, m, i).feedback == Delivered(config, m, i)
  {
    hide AdmittedOf, Dispatch, ObserveActive, ExecutionOf, RequestIn, CameraOf;
  }

  /** A frame leaves the gate as the admission left it, up to its first-frame mark. */
  lemma GateAfter(config: Config, m: State, i: Input)
    requires Base(m)
    ensures var g, g' := AdmittedOf(config, m, i).state.gate, Mission.Compute(config, m, i).state.gate;
            g' == g.(firstFrame := g'.firstFrame)
  {
    hide AdmittedOf, Mission.Compute, MissionFrame, ObserveActive, Conclude, Shape, Linked, WellFormed, FrameGood, ProfileOf;
    FrameIs(config, m, i);
    AdmittedBase(config, m, i);
    var a := AdmittedOf(config, m, i);
    if Holds(a) {
      ObserveActiveSame(config, a.state, a.input);
      ConcludeKeepsGate(config, ObserveActive(config, a.state, a.input), a.input, NO_REQUEST, NoCamera);
    } else {
      MissionFrameKeeps(config, a.state, a.input, a.hold);
    }
  }

  // ----- The delivery results, for the supervisor -----

  lemma NothingIsTruthful(x: Delivery.Executor)
    ensures Delivery.Truthful(x, NO_FEEDBACK)
  {
  }

  /** Who has finished has been accepted. */
  lemma StandInIsTruthful(x: Delivery.Executor, done: DeliveryFeedback)
    requires Delivery.Truthful(x, done) && done.done
    ensures Delivery.Truthful(x, StillRunning(done))
  {
    var k :| 0 <= k < |x.started[..x.finished]| && x.started[..x.finished][k].id == done.actionId;
    assert x.Known()[k].id == done.actionId;
  }

  ghost predicate AllTruthful(s: Delivery.System) { forall f :: f in s.reported ==> Delivery.Truthful(s.executor, f) }

  /** Some run of the delivery system ends here. */
  ghost predicate IsDelivery(config: CommandConfig, s: Delivery.System) {
    exists events :: Delivery.RunSystem(config, events) == Some(s)
  }

  lemma DeliveryGoesOn(config: CommandConfig, s: Delivery.System, e: Delivery.Event)
    requires IsDelivery(config, s) && Delivery.Enabled(s, e)
    ensures IsDelivery(config, Delivery.Next(config, s, e))
  {
    hide Delivery.Next, Delivery.Enabled;
    var events :| Delivery.RunSystem(config, events) == Some(s);
    assert (events + [e])[..|events + [e]| - 1] == events;
    assert Delivery.RunSystem(config, events + [e]) == Some(Delivery.Next(config, s, e));
  }

  /** Every step of the composed system is made of steps of the delivery system. */
  lemma LookDelivers(config: Config, w: World, i: Input, at: nat)
    requires Joined(w) && IsDelivery(config.command, w.system) && AllTruthful(w.system) && Enabled(w, Look(i, at))
    ensures var w' := Next(config, w, Look(i, at)); Joined(w') && IsDelivery(config.command, w'.system)
  {
    hide Mission.Compute, GivenFrame, AdmittedOf, IsDelivery, Base, Delivery.Truthful, CoordinatorRuns.Step, Delivery.RunSystem;
    var f, s := GivenFrame(config, w.m, i), w.system;
    GivenFeedback(config, w.m, i);
    DeliveredFrom(config, w.m, i);
    NothingIsTruthful(s.executor);
    if Held(w.m, i).done && Held(w.m, i) in s.reported { StandInIsTruthful(s.executor, Held(w.m, i)); }
    assert i.feedback == NO_FEEDBACK || i.feedback in s.reported;
    DeliveryGoesOn(config.command, s, Delivery.Report(f.feedback));
    DeliveryGoesOn(config.command, s.(reported := s.reported + {f.feedback}), Delivery.Tick(f));
    GivenFrameIsStep(config, w.m, i);
    FrameKeepsBase(config, w.m, i);
    GateAfter(config, w.m, i);
  }

  lemma OtherDelivers(config: Config, w: World, e: Event)
    requires Joined(w) && IsDelivery(config.command, w.system) && Enabled(w, e) && !e.Look?
    ensures var w' := Next(config, w, e); Joined(w') && IsDelivery(config.command, w'.system)
  {
    hide Mission.Compute, IsDelivery, Base, Delivery.Truthful, Delivery.RunSystem, Delivery.Finish, Delivery.Receive, AfterLook;
    match e {
      case Arrive(order) => DeliveryGoesOn(config.command, w.system, Delivery.Deliver(order));
      case Finish(done) =>
        DeliveryGoesOn(config.command, w.system, Delivery.FinishRunning);
        DeliveryGoesOn(config.command, w.system.(executor := Delivery.Finish(w.system.executor)), Delivery.Report(done));
      case Report(feedback) => DeliveryGoesOn(config.command, w.system, Delivery.Report(feedback));
    }
  }

  lemma IssuedStays(config: Config, w: World, e: Event)
    requires Enabled(w, e)
    ensures w.system.history.issued <= Next(config, w, e).system.history.issued
  {
    hide Mission.Compute, GivenFrame, CoordinatorRuns.Step, Delivery.Finish, Delivery.Receive, Swallows;
  }

  lemma DeliveryHolds(config: CommandConfig, s: Delivery.System)
    requires IsDelivery(config, s) && |s.history.issued| <= ID_MODULUS - 1
    ensures Delivery.Inv(config, s) && AllTruthful(s)
  {
    var events :| Delivery.RunSystem(config, events) == Some(s);
    Delivery.Reachable(config, events);
    hide Delivery.InStep, Delivery.BitsSound, Delivery.Truthful, Delivery.RunSystem, Chained;
  }

  /** The identifiers of the run are still distinct. */
  predicate Distinct(w: World) { |w.system.history.issued| <= ID_MODULUS - 1 }

  lemma StartDelivers(config: Config)
    ensures Joined(Start(config)) && IsDelivery(config.command, Start(config).system)
  {
    InitialBase(config);
    assert Delivery.RunSystem(config.command, []) == Some(Delivery.Start(config.command));
    hide Base;
  }

  lemma {:induction false} WorldDelivers(config: Config, events: seq<Event>)
    requires RunWorld(config, events).Some? && Distinct(RunWorld(config, events).value)
    ensures var w := RunWorld(config, events).value;
            Joined(w) && IsDelivery(config.command, w.system) && Delivery.Inv(config.command, w.system) && AllTruthful(w.system)
  {
    hide Joined, IsDelivery, Delivery.Inv, AllTruthful, Enabled, Next, Start;
    var w := RunWorld(config, events).value;
    if events == [] {
      StartDelivers(config);
    } else {
      var before, e := RunWorld(config, events[..|events| - 1]).value, events[|events| - 1];
      IssuedStays(config, before, e);
      WorldDelivers(config, events[..|events| - 1]);
      if e.Look? { LookDelivers(config, before, e.input, e.at); } else { OtherDelivers(config, before, e); }
    }
    DeliveryHolds(config.command, w.system);
  }

  /** Whatever the supervisor does and however often orders are lost or repeated: the
      executor has started a duplicate-free prefix of the orders the supervisor issued,
      in issue order and with their payload; and when nothing is pending, it has
      executed them all. */
  lemma SupervisorExactlyOnce(config: Config, events: seq<Event>)
    requires RunWorld(config, events).Some? && Distinct(RunWorld(config, events).value)
    ensures var w := RunWorld(config, events).value;
            var started, issued := w.system.executor.started, w.system.history.issued;
            && started <= issued
            && (forall i, j :: 0 <= i < j < |started| ==> started[i].id != started[j].id)
            && (w.m.coordinator.pendingId == 0 ==> started == issued && w.system.executor.Idle() && w.system.executor.slot.None?)
  {
    WorldDelivers(config, events);
    hide Mission.Compute, RunWorld, Delivery.Inv, AllTruthful, Base;
    var w := RunWorld(config, events).value;
    var trace :| Delivery.RunSystem(config.command, trace) == Some(w.system);
    hide Delivery.RunSystem;
    Delivery.ExactlyOnceInOrder(config.command, trace);
    if w.m.coordinator.pendingId == 0 { Delivery.IdleMeansAllExecuted(config.command, trace); }
  }
}
