/** Over a feedback channel that keeps the order of its reports, the executor finishes
    actions in order as far as the supervisor can tell, unless a camera gate has
    swallowed a DONE: when a composed run is legal. */
module MissionOrder {
  import opened Types
  import opened SlidingWindow
  import opened CommandCoordinator
  import opened CoordinatorRuns
  import opened Mission
  import opened MissionMoves
  import opened MissionSync
  import opened MissionInvariant
  import opened MissionRuns
  import opened MissionDelivery
  import opened DeferredDone
  import opened MissionExecutor
  import Delivery

  /** The feedback channel keeps its order and loses nothing: a report arrives only after
      all reports made before it have arrived, though it may be repeated later. */
  predicate InOrder(w: World, e: Event) { e.Look? && e.input.feedback != NO_FEEDBACK ==> e.at <= w.read }

  predicate DoneRead(w: World, id: ActionId)
    requires w.read <= |w.log|
  {
    exists b :: 0 <= b < w.read && w.log[b].done && w.log[b].actionId == id
  }

  // ----- Feedback in order -----

  /** The report says that this order is done. */
  predicate Ends(f: DeliveryFeedback, order: Order) { f.done && f.actionId == order.id }

  /** Before the report of one order's end stands that of every order started before it. */
  ghost predicate EndsInOrder(started: seq<Order>, finished: nat, log: seq<DeliveryFeedback>)
    requires finished <= |started|
  {
    && (forall a, x, y :: 0 <= a < |log| && 0 <= y < x < finished && Ends(log[a], started[x]) ==> EndedBefore(log, a, started[y]))
    && (forall x :: 0 <= x < finished ==> EndedBefore(log, |log|, started[x]))
  }

  ghost predicate EndedBefore(log: seq<DeliveryFeedback>, a: nat, order: Order)
    requires a <= |log|
  {
    exists b :: 0 <= b < a && Ends(log[b], order)
  }

  lemma EndedStays(log: seq<DeliveryFeedback>, a: nat, order: Order, f: DeliveryFeedback)
    requires a <= |log| && EndedBefore(log, a, order)
    ensures EndedBefore(log + [f], a, order)
  {
    var b :| 0 <= b < a && Ends(log[b], order);
    assert (log + [f])[b] == log[b];
  }

  /** One more report keeps the order, if whatever it says is done was finished. */
  lemma ReportInOrder(started: seq<Order>, finished: nat, log: seq<DeliveryFeedback>, f: DeliveryFeedback)
    requires finished <= |started| && EndsInOrder(started, finished, log)
    ensures EndsInOrder(started, finished, log + [f])
  {
    var log' := log + [f];
    forall a, x, y | 0 <= a < |log'| && 0 <= y < x < finished && Ends(log'[a], started[x])
      ensures EndedBefore(log', a, started[y])
    {
      if a < |log| {
        assert Ends(log[a], started[x]);
        EndedStays(log, a, started[y], f);
      } else {
        assert EndedBefore(log, |log|, started[y]);
        EndedStays(log, |log|, started[y], f);
      }
    }
    forall x | 0 <= x < finished
      ensures EndedBefore(log', |log'|, started[x])
    {
      assert EndedBefore(log, |log|, started[x]);
      EndedStays(log, |log|, started[x], f);
      var b :| 0 <= b < |log| && Ends(log'[b], started[x]);
      assert 0 <= b < |log'|;
    }
  }

  /** The end of the next order, reported at once. No earlier report can have spoken of
      it: whatever was reported done had finished. */
  lemma FinishInOrder(started: seq<Order>, started': seq<Order>, finished: nat, log: seq<DeliveryFeedback>, done: DeliveryFeedback)
    requires finished < |started| && started <= started' && EndsInOrder(started, finished, log) && Ends(done, started[finished])
    requires forall a :: 0 <= a < |log| ==> !Ends(log[a], started[finished])
    ensures EndsInOrder(started', finished + 1, log + [done])
  {
    var log' := log + [done];
    ReportInOrder(started, finished, log, done);
    assert forall x :: 0 <= x <= finished ==> started'[x] == started[x];
    forall a, x, y | 0 <= a < |log'| && 0 <= y < x < finished + 1 && Ends(log'[a], started'[x])
      ensures EndedBefore(log', a, started'[y])
    {
      if x < finished {
        assert Ends(log'[a], started[x]) && EndedBefore(log', a, started[y]);
      } else {
        assert a == |log|;
        assert EndedBefore(log, |log|, started[y]);
        EndedStays(log, |log|, started[y], done);
      }
    }
    forall x | 0 <= x < finished + 1
      ensures EndedBefore(log', |log'|, started'[x])
    {
      if x < finished { assert EndedBefore(log', |log'|, started[x]); } else { assert Ends(log'[|log|], started'[x]); }
    }
  }

  // ----- When a frame is legal -----

  ghost predicate Ordered(w: World) {
    var x := w.system.executor;
    x.finished <= |x.started| && EndsInOrder(x.started, x.finished, w.log)
  }

  /** While no ACK has timed out: no DONE of the queued action has arrived, and one of
      the pending action is held back by the gate or was swallowed. */
  ghost predicate Clear(w: World)
    requires w.read <= |w.log|
  {
    var c := w.m.coordinator;
    !c.timedOut ==>
      && (c.queuedId != 0 ==> !DoneRead(w, c.queuedId))
      && (c.pendingId != 0 && DoneRead(w, c.pendingId) ==> Deferring(w.m) || c.pendingId in w.lost)
  }

  /** The orders and reports of the composed system. */
  ghost predicate Tracked(config: Config, w: World) {
    && Joined(w) && Distinct(w) && Delivery.Inv(config.command, w.system) && AllTruthful(w.system)
  }

  lemma StartedAreDistinct(config: Config, w: World, x: nat, y: nat)
    requires Tracked(config, w) && x < |w.system.executor.started| && y < |w.system.executor.started|
    requires w.system.executor.started[x].id == w.system.executor.started[y].id
    ensures x == y
  {
    var started, known, issued := w.system.executor.started, w.system.executor.Known(), w.system.history.issued;
    assert started[x] == known[x] == issued[x] && started[y] == known[y] == issued[y];
    Delivery.UniquePosition(config.command, w.system.history, x, y);
    hide AllTruthful, Delivery.BitsSound, Chained;
  }

  lemma RunningNotReported(config: Config, w: World, a: nat)
    requires Tracked(config, w) && w.system.executor.finished < |w.system.executor.started| && a < |w.log|
    ensures !Ends(w.log[a], w.system.executor.started[w.system.executor.finished])
  {
    var x, f := w.system.executor, w.log[a];
    if Ends(f, x.started[x.finished]) {
      assert Delivery.Truthful(x, f);
      var k :| 0 <= k < |x.started[..x.finished]| && x.started[..x.finished][k].id == f.actionId;
      StartedAreDistinct(config, w, k, x.finished);
    }
  }

  lemma OtherOrdered(config: Config, w: World, e: Event)
    requires Tracked(config, w) && Ordered(w) && Enabled(w, e) && !e.Look?
    ensures Ordered(Next(config, w, e))
  {
    hide Mission.Compute, AfterLook, EndsInOrder, Base, Delivery.Inv, AllTruthful, Delivery.Truthful;
    var x := w.system.executor;
    match e {
      case Arrive(order) => MoreStarted(x.started, Delivery.Receive(x, order).started, x.finished, w.log);
      case Finish(done) =>
        forall a: nat | a < |w.log|
          ensures !Ends(w.log[a], x.started[x.finished])
        {
          RunningNotReported(config, w, a);
        }
        FinishInOrder(x.started, Delivery.Finish(x).started, x.finished, w.log, done);
      case Report(feedback) => ReportInOrder(x.started, x.finished, w.log, feedback);
    }
  }

  lemma MoreStarted(started: seq<Order>, started': seq<Order>, finished: nat, log: seq<DeliveryFeedback>)
    requires finished <= |started| && started <= started' && EndsInOrder(started, finished, log)
    ensures EndsInOrder(started', finished, log)
  {
    assert forall x :: 0 <= x < finished ==> started'[x] == started[x];
  }

  /** With reports in order, DONE of the queued action comes after that of the pending one. */
  lemma QueuedDoneComesSecond(config: Config, w: World, i: Input, at: nat)
    requires Tracked(config, w) && Ordered(w) && Hears(w, i, at) && at <= w.read
    requires w.m.coordinator.queuedId != 0 && i.feedback.done && i.feedback.actionId == w.m.coordinator.queuedId
    ensures DoneRead(w, w.m.coordinator.pendingId)
  {
    var h, x := w.system.history, w.system.executor;
    var n, o := |h.issued|, Outstanding(h.state);
    assert o == [PendingOrder(h.state), QueuedOrder(h.state)];
    assert h.issued[n - 2] == h.issued[n - 2..][0] && h.issued[n - 1] == h.issued[n - 2..][1];
    Delivery.FeedbackPosition(config.command, h, x, i.feedback, n - 1);
    assert x.started <= x.Known();
    assert x.started[n - 1] == h.issued[n - 1] && x.started[n - 2] == h.issued[n - 2];
    assert Ends(w.log[at], x.started[n - 1]);
    assert EndedBefore(w.log, at, x.started[n - 2]);
  }

  lemma ReadIsAllocated(config: Config, w: World, id: ActionId)
    requires Tracked(config, w) && DoneRead(w, id)
    ensures Allocated(w.system.history, id)
  {
    var b :| 0 <= b < w.read && w.log[b].done && w.log[b].actionId == id;
    HeardIsAllocated(config, w, w.log[b]);
  }

  lemma HeardIsAllocated(config: Config, w: World, f: DeliveryFeedback)
    requires Tracked(config, w) && f in w.log && f.done
    ensures Allocated(w.system.history, f.actionId)
  {
    var x := w.system.executor;
    assert Delivery.Truthful(x, f);
    var k :| 0 <= k < |x.started[..x.finished]| && x.started[..x.finished][k].id == f.actionId;
    assert x.Known()[k] == x.started[k] == w.system.history.issued[k];
  }

  /** What one coordinator step does to the identifiers in flight: the action that takes
      DONE makes room for the queued one, and whatever else appears is new. */
  ghost predicate IdsMove(c: CoordinatorState, feedback: DeliveryFeedback, c': CoordinatorState) {
    var kept := if TakesDone(c, feedback) then c.queuedId else c.pendingId;
    && (c'.pendingId == 0 || c'.pendingId == kept || IsNew(c, c', c'.pendingId))
    && (c'.queuedId == 0 || (!TakesDone(c, feedback) && c'.queuedId == c.queuedId) || IsNew(c, c', c'.queuedId))
  }

  predicate IsNew(c: CoordinatorState, c': CoordinatorState, id: ActionId) { id == c.nextId && c'.nextId != c.nextId }

  lemma StepMovesIds(config: CommandConfig, c: CoordinatorState, f: Frame)
    requires WellFormed(c)
    ensures IdsMove(c, f.feedback, CoordinatorRuns.Step(config, c, f).state)
  {
    var a := Absorb(config, c, f.feedback, f.nowSec);
    AbsorbKeepsOrders(config, c, f.feedback, f.nowSec);
    EmitAppendsOrder(a, f);
    hide Absorb, Emit;
  }

  /** A raw DONE of the pending action, or one held back already: it is held back after
      the frame, or ends the action, or has been swallowed. */
  lemma DoneOfPending(config: Config, m: State, i: Input)
    requires Inv(m) && Allowed(m, i) && !m.coordinator.timedOut && m.coordinator.pendingId != 0
    requires Deferring(m) || (i.feedback.done && i.feedback.actionId == m.coordinator.pendingId)
    ensures || Deferring(Mission.Compute(config, m, i).state) || TakesDone(m.coordinator, Delivered(config, m, i))
            || (i.feedback.done && i.feedback.actionId == m.coordinator.pendingId && Swallows(config, m, i))
  {
    hide Mission.Compute, Inv, Allowed, Push, Count;
    if Deferring(m) {
      OpenFrame(config, m, i);
    } else if Deferring(OpenGate(config, m, i)) {
      OpeningFrame(config, m, i);
    } else {
      hide OpenGate, AddToGate, GateReady, GateGuide;
      AddToGateKeeps(config, OpenGate(config, m, i).gate, i);
    }
  }

  /** Reports speak of orders already issued. */
  lemma NewIsNotRead(config: Config, w: World, i: Input, at: nat, id: ActionId)
    requires Tracked(config, w) && Enabled(w, Look(i, at)) && Distinct(Next(config, w, Look(i, at)))
    requires IsNew(w.m.coordinator, Next(config, w, Look(i, at)).m.coordinator, id)
    ensures !DoneRead(w, id) && !(i.feedback.done && i.feedback.actionId == id)
  {
    hide Mission.Compute, GivenFrame, CoordinatorRuns.Step, Base, AllTruthful, Delivery.InStep, Delivery.BitsSound, Chained, DoneRead,
         Allocated, Swallows;
    var h := w.system.history;
    GivenFrameIsStep(config, w.m, i);
    assert |AfterLook(config, w, i).history.issued| == |h.issued| + 1;
    if DoneRead(w, id) {
      ReadIsAllocated(config, w, id);
      FreshIdsAreNew(config.command, h, id);
    }
    if i.feedback.done && i.feedback.actionId == id {
      HeardIsAllocated(config, w, i.feedback);
      FreshIdsAreNew(config.command, h, id);
    }
  }

  /** What has been read after the frame. */
  lemma ReadAfter(config: Config, w: World, i: Input, at: nat, id: ActionId)
    requires w.read <= |w.log| && Enabled(w, Look(i, at)) && InOrder(w, Look(i, at))
    requires var w' := Next(config, w, Look(i, at)); DoneRead(w', id)
    ensures DoneRead(w, id) || (i.feedback.done && i.feedback.actionId == id)
  {
    hide Mission.Compute, AfterLook, Swallows;
    var w' := Next(config, w, Look(i, at));
    var b :| 0 <= b < w'.read && w'.log[b].done && w'.log[b].actionId == id;
    if b < w.read { assert w.log[b].done; }
  }

  lemma PendingStaysClear(config: Config, w: World, i: Input, at: nat)
    requires w.read <= |w.log| && Clear(w) && MissionInvariant.Inv(w.m) && Allowed(w.m, i) && Enabled(w, Look(i, at))
    requires !w.m.coordinator.timedOut && w.m.coordinator.pendingId != 0 && !TakesDone(w.m.coordinator, Delivered(config, w.m, i))
    requires DoneRead(w, w.m.coordinator.pendingId) || (i.feedback.done && i.feedback.actionId == w.m.coordinator.pendingId)
    ensures var w' := Next(config, w, Look(i, at)); Deferring(w'.m) || w.m.coordinator.pendingId in w'.lost
  {
    hide Mission.Compute, AfterLook, MissionInvariant.Inv, Allowed, DoneRead, Swallows, Delivered, TakesDone;
    var p := w.m.coordinator.pendingId;
    if Deferring(w.m) || (i.feedback.done && i.feedback.actionId == p) { DoneOfPending(config, w.m, i); }
  }

  /** A legal frame keeps the account of the DONEs that have arrived. */
  lemma ClearLook(config: Config, w: World, i: Input, at: nat)
    requires Tracked(config, w) && Clear(w) && MissionInvariant.Inv(w.m) && Allowed(w.m, i)
    requires Enabled(w, Look(i, at)) && InOrder(w, Look(i, at)) && Distinct(Next(config, w, Look(i, at)))
    ensures Clear(Next(config, w, Look(i, at)))
  {
    hide Mission.Compute, AfterLook, GivenFrame, Shape, Sync, Delivery.Inv, AllTruthful, DoneRead, Swallows, Delivered, TakesDone, Distinct;
    var w' := Next(config, w, Look(i, at));
    var c, c', f := w.m.coordinator, w'.m.coordinator, Delivered(config, w.m, i);
    GivenFeedback(config, w.m, i);
    GivenFrameIsStep(config, w.m, i);
    StepMovesIds(config.command, c, GivenFrame(config, w.m, i));
    CoordinatorBasics(config.command, c, GivenFrame(config, w.m, i));
    if !c'.timedOut {
      if c'.queuedId != 0 && DoneRead(w', c'.queuedId) {
        ReadAfter(config, w, i, at, c'.queuedId);
        if IsNew(c, c', c'.queuedId) { NewIsNotRead(config, w, i, at, c'.queuedId); }
      }
      if c'.pendingId != 0 && DoneRead(w', c'.pendingId) {
        ReadAfter(config, w, i, at, c'.pendingId);
        if IsNew(c, c', c'.pendingId) { NewIsNotRead(config, w, i, at, c'.pendingId); }
        if !TakesDone(c, f) && c'.pendingId == c.pendingId { PendingStaysClear(config, w, i, at); }
      }
    }
  }

  // ----- Whole runs -----

  /** All reports of the run have arrived in order. */
  predicate RunInOrder(config: Config, events: seq<Event>) {
    events == [] ||
    var init, e := events[..|events| - 1], events[|events| - 1];
    RunInOrder(config, init) && (RunWorld(config, init).Some? ==> InOrder(RunWorld(config, init).value, e))
  }

  /** DONE of the queued action arrives after a camera gate has swallowed that of the
      pending one. */
  predicate LateDone(w: World, i: Input) {
    var c := w.m.coordinator;
    && !c.timedOut && c.queuedId != 0 && i.feedback.done && i.feedback.actionId == c.queuedId
    && c.pendingId in w.lost
  }

  predicate NoLateDone(config: Config, events: seq<Event>) {
    events == [] ||
    var init, e := events[..|events| - 1], events[|events| - 1];
    NoLateDone(config, init) && (e.Look? && RunWorld(config, init).Some? ==> !LateDone(RunWorld(config, init).value, e.input))
  }

  /** The inputs of the supervisor in the run, and the steps it makes on them. */
  function InputsOf(events: seq<Event>): seq<Input> {
    if events == [] then []
    else
      var init, e := InputsOf(events[..|events| - 1]), events[|events| - 1];
      if e.Look? then init + [e.input] else init
  }

  function StepsOf(config: Config, events: seq<Event>): seq<Step> {
    if events == [] then []
    else
      var init, e := StepsOf(config, events[..|events| - 1]), events[|events| - 1];
      if e.Look? then init + [Mission.Compute(config, EndOf(config, init), e.input)] else init
  }

  lemma {:induction false} WorldRuns(config: Config, events: seq<Event>)
    requires RunWorld(config, events).Some?
    ensures IsRun(config, InputsOf(events), StepsOf(config, events))
    ensures EndOf(config, StepsOf(config, events)) == RunWorld(config, events).value.m
  {
    hide Mission.Compute, Mission.Initial, AfterLook, Enabled, EndOf, IsStep, Swallows, Delivery.Finish, Delivery.Receive;
    if events == [] {
      BeforeStart(config, []);
      StartEnds(config);
    } else {
      var init, e := events[..|events| - 1], events[|events| - 1];
      WorldRuns(config, init);
      if e.Look? {
        var s := Mission.Compute(config, EndOf(config, StepsOf(config, init)), e.input);
        LongerRun(config, InputsOf(init), StepsOf(config, init), e.input, s);
      }
    }
  }

  lemma StartEnds(config: Config)
    ensures EndOf(config, []) == Start(config).m
  {
    hide Mission.Initial;
  }

  /** The composed system up to some point: what it has tracked, and that it is legal as
      far as it goes. */
  ghost predicate Sane(config: Config, w: World, legal: bool) {
    Tracked(config, w) && Ordered(w) && (legal ==> MissionInvariant.Inv(w.m) && Clear(w))
  }

  lemma StartIsSane(config: Config)
    ensures Ordered(Start(config)) && MissionInvariant.Inv(Start(config).m) && Clear(Start(config))
  {
    InitialInv(config);
    hide MissionInvariant.Inv;
  }

  /** In a legal state a frame breaks the order exactly by a late DONE. */
  lemma IllegalIsLate(config: Config, w: World, i: Input, at: nat)
    requires Sane(config, w, true) && Enabled(w, Look(i, at)) && InOrder(w, Look(i, at))
    ensures Allowed(w.m, i) <==> !LateDone(w, i)
  {
    hide Shape, Sync, Delivery.Inv, AllTruthful, DoneRead, EndsInOrder, WellFormed;
    var c := w.m.coordinator;
    if !Allowed(w.m, i) {
      QueuedDoneComesSecond(config, w, i, at);
      TwoIsNotDeferred(w.m);
    }
  }

  lemma TwoIsNotDeferred(m: State)
    requires MissionInvariant.Inv(m) && !m.coordinator.timedOut && m.coordinator.queuedId != 0
    ensures !Deferring(m) && m.coordinator.pendingId != 0
  {
    hide Shape, Sync;
  }

  /** A composed run whose reports arrive in order is a legal run of the supervisor if
      and only if no DONE of a queued action arrives after a camera gate has swallowed
      that of the pending one. */
  lemma {:induction false} LegalUnlessSwallowed(config: Config, events: seq<Event>)
    requires RunWorld(config, events).Some? && Distinct(RunWorld(config, events).value) && RunInOrder(config, events)
    ensures LegalRun(config, InputsOf(events), StepsOf(config, events)) <==> NoLateDone(config, events)
    ensures Sane(config, RunWorld(config, events).value, NoLateDone(config, events))
  {
    hide Mission.Compute, Mission.Initial, Enabled, InOrder, LateDone, Next, Start, EndOf, Joined, Delivery.Inv, AllTruthful, Ordered,
         Clear, MissionInvariant.Inv, Allowed, IsStep, IsAllowed, IsDelivery;
    var w := RunWorld(config, events).value;
    WorldDelivers(config, events);
    if events == [] {
      StartIsSane(config);
    } else {
      var init, e := events[..|events| - 1], events[|events| - 1];
      var before := RunWorld(config, init).value;
      IssuedStays(config, before, e);
      LegalUnlessSwallowed(config, init);
      WorldRuns(config, init);
      if e.Look? {
        LookIsSane(config, before, e.input, e.at, NoLateDone(config, init));
        var s := Mission.Compute(config, EndOf(config, StepsOf(config, init)), e.input);
        LongerRun(config, InputsOf(init), StepsOf(config, init), e.input, s);
      } else {
        OtherIsSane(config, before, e, NoLateDone(config, init));
      }
    }
  }

  lemma LookIsSane(config: Config, w: World, i: Input, at: nat, legal: bool)
    requires Sane(config, w, legal) && Enabled(w, Look(i, at)) && InOrder(w, Look(i, at)) && Distinct(Next(config, w, Look(i, at)))
    ensures legal ==> (Allowed(w.m, i) <==> !LateDone(w, i))
    ensures var w' := Next(config, w, Look(i, at));
            Ordered(w') && (legal && Allowed(w.m, i) ==> MissionInvariant.Inv(w'.m) && Clear(w'))
  {
    hide Mission.Compute, GivenFrame, CoordinatorRuns.Step, MissionInvariant.Inv, Clear, Allowed, LateDone, Delivery.Inv, AllTruthful,
         Joined, EndsInOrder, Swallows, FrameGood;
    if legal {
      IllegalIsLate(config, w, i, at);
      if Allowed(w.m, i) {
        ComputeKeeps(config, w.m, i);
        ClearLook(config, w, i, at);
      }
    }
  }

  lemma OtherIsSane(config: Config, w: World, e: Event, legal: bool)
    requires Sane(config, w, legal) && Enabled(w, e) && !e.Look? && Distinct(Next(config, w, e))
    ensures var w' := Next(config, w, e);
            Ordered(w') && (legal ==> MissionInvariant.Inv(w'.m) && Clear(w'))
  {
    hide Mission.Compute, AfterLook, MissionInvariant.Inv, Ordered, Delivery.Inv, AllTruthful, DoneRead, Base, Delivery.Finish,
         Delivery.Receive, Delivery.Truthful;
    OtherOrdered(config, w, e);
    OtherReads(config, w, e, w.m.coordinator.queuedId);
    OtherReads(config, w, e, w.m.coordinator.pendingId);
  }

  lemma OtherReads(config: Config, w: World, e: Event, id: ActionId)
    requires w.read <= |w.log| && Enabled(w, e) && !e.Look?
    ensures var w' := Next(config, w, e); w'.read <= |w'.log| && (DoneRead(w', id) ==> DoneRead(w, id))
  {
    hide Mission.Compute, AfterLook, Delivery.Finish, Delivery.Receive, Delivery.Truthful;
    var w' := Next(config, w, e);
    assert forall b :: 0 <= b < w.read ==> w'.log[b] == w.log[b];
  }

  lemma LostStays(config: Config, w: World, e: Event)
    requires Enabled(w, e)
    ensures w.lost <= Next(config, w, e).lost
  {
    hide Mission.Compute, AfterLook, Delivery.Finish, Delivery.Receive, Swallows;
  }

  lemma {:induction false} NothingLost(config: Config, events: seq<Event>)
    requires RunWorld(config, events).Some? && RunWorld(config, events).value.lost == {}
    ensures NoLateDone(config, events)
  {
    hide Next, Enabled, Start;
    if events != [] {
      LostStays(config, RunWorld(config, events[..|events| - 1]).value, events[|events| - 1]);
      NothingLost(config, events[..|events| - 1]);
    }
  }

  /** What the results about legal runs assume is what an executor that reports every end
      gives, over a channel that keeps the order, as long as no camera gate swallows a
      DONE. */
  lemma InOrderIsLegal(config: Config, events: seq<Event>)
    requires RunWorld(config, events).Some? && Distinct(RunWorld(config, events).value) && RunInOrder(config, events)
    requires RunWorld(config, events).value.lost == {}
    ensures LegalRun(config, InputsOf(events), StepsOf(config, events))
    ensures EndOf(config, StepsOf(config, events)) == RunWorld(config, events).value.m
  {
    hide Mission.Compute, LegalRun, RunWorld, NoLateDone, EndOf;
    NothingLost(config, events);
    LegalUnlessSwallowed(config, events);
    WorldRuns(config, events);
  }
}
