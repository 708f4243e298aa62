/** A composed run in which a camera gate swallows DONE of the running walk while the
    next one is queued: the reports arrive in order and none is lost, and yet DONE of
    the queued action is the next one the supervisor can hear. */
module SwallowedDone {
  import opened Types
  import opened CommandCoordinator
  import opened CoordinatorRuns
  import opened Mission
  import opened MissionSync
  import opened MissionRuns
  import opened MissionDelivery
  import opened MissionExecutor
  import opened MissionOrder
  import opened TimeoutExamples
  import opened ConfigValidation
  import opened SlidingWindow
  import opened LineFit
  import Delivery
  import LineP2p
  import Line = LineRecovery
  import Features = LineFeatures
  import Ball = BallController
  import Hurdle = HurdleController
  import Goal = GoalController

  /** A gate of one second, and no object missions. */
  const GATED := CONFIG.(postMotionObservationSec := 1.0, enableBall := false)

  lemma GatedIsValid()
    ensures ValidConfig(GATED)
  {
  }

  const ACK_ONE := DeliveryFeedback(1, true, false, false)
  const READY_ONE := DeliveryFeedback(1, true, false, true)
  const DONE_ONE := DeliveryFeedback(1, true, true, false)
  const DONE_TWO := DeliveryFeedback(2, true, true, false)

  const POINTS := [Point2(320.0, 470.0), Point2(320.0, 460.0), Point2(320.0, 450.0)]

  /** LINE walks, is told so, sees the line at READY while the camera turns, and the
      camera settles on the view below just when the walk ends. */
  const ACKED := Idle(0.1).(advanceLineFsm := true, feedback := ACK_ONE)
  const READIED := Idle(1.0).(advanceLineFsm := true, feedback := READY_ONE, lineCenters := POINTS,
                              camera := CameraFeedback(TransitionView, false))
  const SETTLED := Idle(1.1).(feedback := DONE_ONE, camera := CameraFeedback(DownView, true))
  const NEXT_DONE := Idle(1.2).(feedback := DONE_TWO, camera := CameraFeedback(DownView, true))

  // ----- The frames -----

  /** LINE walks action 1; the bits are those the coordinator has. */
  ghost predicate Walking(m: State, acked: bool) {
    var c := m.coordinator;
    && m.active.LineMission? && !m.hasBall && !m.gate.active && m.line.fsm.mode.Normal? && m.line.readyId == 0 && !m.line.failurePending
    && m.line.accumulator == (if acked then LineP2p.Accumulator(1, 0.1, [], [0.1], None) else LineP2p.EMPTY)
    && c.pendingId == 1 && c.pendingMission.LineMission? && IsLongLineAction(c.pendingRequest.action)
    && c.pendingRequest.category.LocomotionCategory?
    && c.pendingIssuedSec == 0.0 && c.pendingAck == acked && !c.pendingReady && c.queuedId == 0 && !c.timedOut && c.nextId == 2
    && m.last.actionId == 1 && m.last.mission.LineMission? && m.last.category.LocomotionCategory? && IsLongLineAction(m.last.action)
    && (if acked then m.last.phase.WaitingActionDone? else m.last.phase.WaitingActionAck?)
  }

  /** Without a camera edge or DONE every frame without a gate is a mission frame. */
  lemma Ungated(m: State, i: Input)
    requires !m.gate.active && !i.feedback.done && !CameraSettles(m.previousCamera, i.camera)
    ensures Mission.Compute(GATED, m, i) == MissionFrame(GATED, m.(previousCamera := i.camera), i, false)
    ensures AdmittedOf(GATED, m, i) == Admitted(m.(previousCamera := i.camera), i, false)
  {
    hide MissionFrame;
  }

  lemma FirstWalk(m: State)
    requires m == Mission.Initial(GATED)
    ensures var s := Mission.Compute(GATED, m, WALK);
            Walking(s.state, false) && s.command.commandType.ActionCommand? && s.command == s.state.last
  {
    hide Mission.Compute, OpenGate, PassGate, ComputeLine, Goal.Compute;
    Ungated(m, WALK);
    FirstLine();
  }

  lemma FirstLine()
    ensures var out := ComputeLine(GATED, LineSide(Line.INITIAL, LineP2p.EMPTY, 0, false), IDLE_COMMAND, WALK);
            && LongWalk(out.request) && out.line.fsm.mode.Normal?
            && out.line.readyId == 0 && !out.line.failurePending && out.line.accumulator == LineP2p.EMPTY
  {
    hide Features.FeaturesOf, Push, Count;
  }

  lemma WalkIsAcked(m: State)
    requires Walking(m, false)
    ensures Walking(Mission.Compute(GATED, m, ACKED).state, true)
    ensures Mission.Compute(GATED, m, ACKED).command.commandType.HoldCommand?
  {
    hide Mission.Compute, OpenGate, PassGate, ComputeLine, Goal.Compute;
    Ungated(m, ACKED);
    AckedLine(m);
  }

  lemma AckedLine(m: State)
    requires Walking(m, false)
    ensures var out := ComputeLine(GATED, m.line, m.last, ACKED);
            && out.request.action.NoAction? && out.line.fsm.mode.Normal? && out.line.readyId == 0 && !out.line.failurePending
            && out.line.accumulator == LineP2p.Accumulator(1, 0.1, [], [0.1], None)
  {
    assert !GuideSeen(GATED, ACKED).valid;
    hide GuideSeen, Push, Count;
  }

  lemma SumsOfThree(p: Point2, q: Point2, r: Point2, m: real)
    ensures SumV([p, q, r]) == p.v + q.v + r.v
    ensures Variance([p, q, r], m) == Square(p.v - m) + Square(q.v - m) + Square(r.v - m)
  {
    var three, two := [p, q, r], [p, q];
    assert three[..2] == two && two[..1] == [p] && [p][..0] == [];
    assert SumV([p]) == p.v && Variance([p], m) == Square(p.v - m);
    hide Square;
    assert SumV(two) == p.v + q.v && Variance(two, m) == Square(p.v - m) + Square(q.v - m);
  }

  lemma PointsFit()
    ensures Fits(POINTS)
  {
    SumsOfThree(POINTS[0], POINTS[1], POINTS[2], 460.0);
    assert Mean(1380.0, 3) == 460.0;
    hide SumV, Variance;
  }

  lemma PointsStaySorted()
    ensures Features.SortPoints(Features.ClampPoints(POINTS, 640, 480)) == POINTS
  {
    assert Features.ClampPoints(POINTS, 640, 480) == POINTS;
    assert Features.IsSorted(POINTS);
    hide Features.SortPoints, Features.ClampPoints, Features.IsSorted;
    Features.SortPointsSorted(POINTS);
    Features.SortedIsUnique(Features.SortPoints(POINTS), POINTS);
  }

  lemma LineIsSeen()
    ensures GuideSeen(GATED, READIED).valid
  {
    PointsFit();
    PointsStaySorted();
    assert POINTS[..3] == POINTS;
    hide Features.SortPoints, Features.ClampPoints, Features.Confidence, Features.FarFit, Fits, SumV, Variance, Covariance;
  }

  lemma WalkIsJudged(guide: LineGuide)
    requires guide.valid
    ensures var a := LineP2p.Accumulator(1, 0.1, [LineP2p.Sample(1.0, guide)], [0.1, 1.0], None);
            LineP2p.FinishGuide(a, 1, 1.0, 0.25).Some?
  {
    var samples, w := [LineP2p.Sample(1.0, guide)], LineP2p.MotionWindow(0.1, 1.0, 0.25);
    assert samples[..0] == [] && LineP2p.Contains(w, 1.0);
    assert LineP2p.InWindow(samples, w) == samples;
    assert LineP2p.Total(samples, LineP2p.Rising(w)) >= 1.0;
    hide LineP2p.Sum, LineP2p.Curved, LineP2p.InWindow, LineP2p.Total;
  }

  lemma NormalWalksOn(s: Line.State, guide: LineGuide)
    requires s.mode.Normal? && guide.valid
    ensures var out := Line.Compute(GATED.line, s, guide, 1.0, false, false);
            LongWalk(out.request) && out.request.lineQueueEligible && out.state.mode.Normal?
  {
    hide LineP2p.Score, Push, Count;
  }

  lemma ReadyLine(m: State)
    requires Walking(m, true)
    ensures var out := ComputeLine(GATED, m.line, m.last, READIED);
            LongWalk(out.request) && out.request.lineQueueEligible && !out.line.fsm.mode.FinalHold?
  {
    hide GuideSeen, LineP2p.FinishGuide, LineP2p.FinishState, Line.Compute, ContinueLine;
    var guide := GuideSeen(GATED, READIED);
    LineIsSeen();
    WalkIsJudged(guide);
    var a := LineP2p.Accumulator(1, 0.1, [LineP2p.Sample(1.0, guide)], [0.1, 1.0], None);
    assert Watch(m.line, 1, 1.0, guide) == a by {
      assert [] + [LineP2p.Sample(1.0, guide)] == [LineP2p.Sample(1.0, guide)] && [0.1] + [1.0] == [0.1, 1.0];
    }
    MissionSync.FinishIsValid(a, 1, 1.0, 0.25);
    NormalWalksOn(m.line.fsm, LineP2p.FinishGuide(a, 1, 1.0, 0.25).value);
  }

  /** Action 2 waits behind action 1, and the camera turns. */
  ghost predicate Queued(m: State) {
    var c := m.coordinator;
    && m.active.LineMission? && !m.hasBall && !m.gate.active && !m.line.fsm.mode.FinalHold?
    && m.previousCamera == CameraFeedback(TransitionView, false)
    && c.pendingId == 1 && c.pendingAck && c.queuedId == 2 && !c.queuedAck && c.queuedIssuedSec == 1.0 && c.nextId == 3 && !c.timedOut
  }

  lemma ReadyQueues(m: State)
    requires Walking(m, true)
    ensures var s := Mission.Compute(GATED, m, READIED);
            Queued(s.state) && s.command.commandType.ActionCommand? && s.command.actionId == 2 && s.command == s.state.last
  {
    hide Mission.Compute, OpenGate, PassGate, ComputeLine, Goal.Compute;
    Ungated(m, READIED);
    ReadyLine(m);
  }

  /** The camera settles in the frame that hears DONE of action 1: a camera gate opens
      and takes it away. */
  lemma SettlingSwallows(m: State)
    requires Queued(m)
    ensures Swallows(GATED, m, SETTLED)
    ensures var s := Mission.Compute(GATED, m, SETTLED);
            s.state.coordinator == m.coordinator && s.command.commandType.ActionCommand? && s.command.actionId == 2
  {
    hide ComputeLine, Goal.Compute, Ball.Compute, Hurdle.Compute;
  }

  // ----- The composed run -----

  /** The run leads here, with its reports in order. */
  ghost predicate Reaches(events: seq<Event>, w: World) { RunWorld(GATED, events) == Some(w) && RunInOrder(GATED, events) }

  lemma Goes(events: seq<Event>, w: World, e: Event)
    requires Reaches(events, w) && Enabled(w, e) && InOrder(w, e)
    ensures Reaches(events + [e], Next(GATED, w, e))
  {
    hide Next, Enabled, InOrder;
    assert (events + [e])[..|events + [e]| - 1] == events;
  }

  ghost predicate Coherent(w: World, n: nat) {
    Base(w.m) && w.system.history.state == w.m.coordinator && |w.system.history.issued| <= n
  }

  /** What a frame does to the rest of the system. */
  lemma LookEffects(w: World, i: Input, at: nat, n: nat)
    requires Coherent(w, n) && Enabled(w, Look(i, at))
    ensures var w', s := Next(GATED, w, Look(i, at)), Mission.Compute(GATED, w.m, i);
            && Coherent(w', n + 1) && w'.m == s.state && w'.log == w.log && w'.system.executor == w.system.executor
            && (s.command.commandType.ActionCommand? ==> OrderOf(s.command) in w'.system.sent)
            && w'.read == (if at == w.read && Hears(w, i, at) then w.read + 1 else w.read)
            && w'.lost == (if Swallows(GATED, w.m, i) then w.lost + {i.feedback.actionId} else w.lost)
  {
    hide Mission.Compute, GivenFrame, Base, Swallows, Hears, CoordinatorRuns.Step;
    GivenFrameIsStep(GATED, w.m, i);
    FrameKeepsBase(GATED, w.m, i);
  }

  /** The executor, the reports and the swallowed DONEs. */
  ghost predicate Outside(w: World, x: Delivery.Executor, log: seq<DeliveryFeedback>, read: nat, lost: set<ActionId>) {
    w.system.executor == x && w.log == log && w.read == read && w.lost == lost
  }

  lemma NoSwallow(m: State, i: Input)
    requires !i.feedback.done
    ensures !Swallows(GATED, m, i)
  {
    hide AdmittedOf;
  }

  lemma WalkArrives(w: World, one: Order)
    requires Coherent(w, 1) && Outside(w, Delivery.Executor([], 0, None), [], 0, {}) && one in w.system.sent && one.id == 1
    ensures Enabled(w, Arrive(one))
    ensures var w' := Next(GATED, w, Arrive(one));
            Coherent(w', 1) && w'.m == w.m && Outside(w', Delivery.Executor([one], 0, None), [], 0, {})
  {
    hide Base;
  }

  lemma Reported(w: World, f: DeliveryFeedback, n: nat, one: Order, log: seq<DeliveryFeedback>, read: nat)
    requires Coherent(w, n) && Outside(w, Delivery.Executor([one], 0, None), log, read, {}) && one.id == 1
    requires f == ACK_ONE || f == READY_ONE
    ensures Enabled(w, Report(f))
    ensures var w' := Next(GATED, w, Report(f));
            Coherent(w', n) && w'.m == w.m && Outside(w', Delivery.Executor([one], 0, None), log + [f], read, {})
  {
    hide Base;
    var x := w.system.executor;
    assert x.Known()[0].id == 1 && x.started[0].id == 1;
  }

  lemma SecondArrives(w: World, one: Order, two: Order, n: nat)
    requires Coherent(w, n) && Outside(w, Delivery.Executor([one], 0, None), [ACK_ONE, READY_ONE], 2, {})
    requires one.id == 1 && two.id == 2 && two in w.system.sent
    ensures Enabled(w, Arrive(two))
    ensures var w' := Next(GATED, w, Arrive(two));
            && Coherent(w', n) && w'.m == w.m
            && Outside(w', Delivery.Executor([one], 0, Some(two)), [ACK_ONE, READY_ONE], 2, {})
  {
    hide Base;
  }

  lemma FirstEnds(w: World, one: Order, two: Order, n: nat)
    requires Coherent(w, n) && Outside(w, Delivery.Executor([one], 0, Some(two)), [ACK_ONE, READY_ONE], 2, {}) && one.id == 1
    ensures Enabled(w, Finish(DONE_ONE))
    ensures var w' := Next(GATED, w, Finish(DONE_ONE));
            && Coherent(w', n) && w'.m == w.m
            && Outside(w', Delivery.Executor([one, two], 1, None), [ACK_ONE, READY_ONE, DONE_ONE], 2, {})
  {
    hide Base;
    var x := Delivery.Finish(w.system.executor);
    assert x.started == [one, two] && x.Known()[0].id == 1 && x.started[..1][0].id == 1;
  }

  lemma SecondEnds(w: World, one: Order, two: Order, n: nat)
    requires Coherent(w, n) && Outside(w, Delivery.Executor([one, two], 1, None), [ACK_ONE, READY_ONE, DONE_ONE], 3, {1}) && two.id == 2
    ensures Enabled(w, Finish(DONE_TWO))
    ensures var w' := Next(GATED, w, Finish(DONE_TWO));
            && Coherent(w', n) && w'.m == w.m
            && Outside(w', Delivery.Executor([one, two], 2, None), [ACK_ONE, READY_ONE, DONE_ONE, DONE_TWO], 3, {1})
  {
    hide Base;
    var x := Delivery.Finish(w.system.executor);
    assert x.Known()[1].id == 2 && x.started[..2][1].id == 2;
  }

  lemma StartsCoherent()
    ensures Reaches([], Start(GATED)) && Coherent(Start(GATED), 0)
    ensures Outside(Start(GATED), Delivery.Executor([], 0, None), [], 0, {}) && Start(GATED).m == Mission.Initial(GATED)
  {
    InitialBase(GATED);
    hide Base;
  }

  lemma Moves(events: seq<Event>, w: World, e: Event) returns (events': seq<Event>, w': World)
    requires Reaches(events, w) && Enabled(w, e) && InOrder(w, e)
    ensures events' == events + [e] && w' == Next(GATED, w, e) && Reaches(events', w')
  {
    hide Reaches, Next, Enabled, InOrder;
    Goes(events, w, e);
    events', w' := events + [e], Next(GATED, w, e);
  }

  /** A frame that hears the next report, or nothing, and no DONE. */
  lemma Looks(events: seq<Event>, w: World, i: Input, n: nat, x: Delivery.Executor, log: seq<DeliveryFeedback>, read: nat)
    returns (events': seq<Event>, w': World)
    requires Reaches(events, w) && Coherent(w, n) && Outside(w, x, log, read, {}) && !i.feedback.done
    requires i.feedback == NO_FEEDBACK || (read < |log| && i.feedback == log[read])
    requires i.feedback == NO_FEEDBACK ==> read == |log|
    ensures var s := Mission.Compute(GATED, w.m, i);
            && Reaches(events', w') && Coherent(w', n + 1) && w'.m == s.state
            && Outside(w', x, log, if i.feedback == NO_FEEDBACK then read else read + 1, {})
            && (s.command.commandType.ActionCommand? ==> OrderOf(s.command) in w'.system.sent)
  {
    hide Reaches, Next, Coherent, Mission.Compute, Swallows;
    NoSwallow(w.m, i);
    LookEffects(w, i, read, n);
    events', w' := Moves(events, w, Look(i, read));
  }

  /** Up to the acknowledged walk. */
  lemma WalkBegins() returns (events: seq<Event>, w: World, one: Order)
    ensures Reaches(events, w) && Coherent(w, 2) && Walking(w.m, true) && one.id == 1
    ensures Outside(w, Delivery.Executor([one], 0, None), [ACK_ONE], 1, {})
  {
    hide Mission.Compute, Mission.Initial, Reaches, Next, Enabled, Start, Coherent, Outside;
    StartsCoherent();
    events, w := [], Start(GATED);
    FirstWalk(w.m);
    one := OrderOf(Mission.Compute(GATED, w.m, WALK).command);
    events, w := Looks(events, w, WALK, 0, Delivery.Executor([], 0, None), [], 0);
    WalkArrives(w, one);
    events, w := Moves(events, w, Arrive(one));
    Reported(w, ACK_ONE, 1, one, [], 0);
    events, w := Moves(events, w, Report(ACK_ONE));
    assert [] + [ACK_ONE] == [ACK_ONE];
    WalkIsAcked(w.m);
    events, w := Looks(events, w, ACKED, 1, Delivery.Executor([one], 0, None), [ACK_ONE], 0);
  }

  /** Up to the end of the first walk, with the second one stored. */
  lemma WalkEnds() returns (events: seq<Event>, w: World, one: Order, two: Order)
    ensures Reaches(events, w) && Coherent(w, 3) && Queued(w.m) && one.id == 1 && two.id == 2
    ensures Outside(w, Delivery.Executor([one, two], 1, None), [ACK_ONE, READY_ONE, DONE_ONE], 2, {})
  {
    hide Mission.Compute, Mission.Initial, Reaches, Next, Enabled, Start, Coherent, Outside, Walking, Queued;
    events, w, one := WalkBegins();
    Reported(w, READY_ONE, 2, one, [ACK_ONE], 1);
    events, w := Moves(events, w, Report(READY_ONE));
    assert [ACK_ONE] + [READY_ONE] == [ACK_ONE, READY_ONE];
    ReadyQueues(w.m);
    two := OrderOf(Mission.Compute(GATED, w.m, READIED).command);
    events, w := Looks(events, w, READIED, 2, Delivery.Executor([one], 0, None), [ACK_ONE, READY_ONE], 1);
    SecondArrives(w, one, two, 3);
    events, w := Moves(events, w, Arrive(two));
    FirstEnds(w, one, two, 3);
    events, w := Moves(events, w, Finish(DONE_ONE));
  }

  lemma Swallowed(w: World, x: Delivery.Executor)
    requires Coherent(w, 3) && Queued(w.m) && Outside(w, x, [ACK_ONE, READY_ONE, DONE_ONE], 2, {})
    ensures Enabled(w, Look(SETTLED, 2)) && InOrder(w, Look(SETTLED, 2))
    ensures var w' := Next(GATED, w, Look(SETTLED, 2));
            && Coherent(w', 4) && w'.m.coordinator == w.m.coordinator
            && Outside(w', x, [ACK_ONE, READY_ONE, DONE_ONE], 3, {1})
  {
    hide Mission.Compute, Next, Coherent, Swallows;
    SettlingSwallows(w.m);
    LookEffects(w, SETTLED, 2, 3);
  }

  /** The reports arrive in order and all of them arrive, and yet the supervisor hears
      DONE of action 2 while it still waits for that of action 1: the run is not legal. */
  lemma OrderBrokenBySwallowing() returns (events: seq<Event>)
    ensures RunWorld(GATED, events).Some? && RunInOrder(GATED, events) && Distinct(RunWorld(GATED, events).value)
    ensures !LegalRun(GATED, InputsOf(events), StepsOf(GATED, events))
  {
    hide Mission.Compute, Mission.Initial, Next, Coherent, Outside, Queued, Reaches, Enabled;
    var w: World, one: Order, two: Order;
    events, w, one, two := WalkEnds();
    Swallowed(w, Delivery.Executor([one, two], 1, None));
    var c := w.m.coordinator;
    assert c.pendingId == 1 && c.queuedId == 2 && !c.timedOut by { QueuedIs(w.m); }
    events, w := Moves(events, w, Look(SETTLED, 2));
    SecondEnds(w, one, two, 4);
    events, w := Moves(events, w, Finish(DONE_TWO));
    BreaksOrder(events, w, Delivery.Executor([one, two], 2, None));
    events := events + [Look(NEXT_DONE, 3)];
  }

  lemma QueuedIs(m: State)
    requires Queued(m)
    ensures m.coordinator.pendingId == 1 && m.coordinator.queuedId == 2 && !m.coordinator.timedOut
  {
  }

  lemma BreaksOrder(events: seq<Event>, w: World, x: Delivery.Executor)
    requires Reaches(events, w) && Coherent(w, 4) && Outside(w, x, [ACK_ONE, READY_ONE, DONE_ONE, DONE_TWO], 3, {1})
    requires w.m.coordinator.pendingId == 1 && w.m.coordinator.queuedId == 2 && !w.m.coordinator.timedOut
    ensures var all := events + [Look(NEXT_DONE, 3)];
            && RunWorld(GATED, all).Some? && RunInOrder(GATED, all) && Distinct(RunWorld(GATED, all).value)
            && !LegalRun(GATED, InputsOf(all), StepsOf(GATED, all))
  {
    hide Mission.Compute, Mission.Initial, Next, Coherent, LegalRun, InputsOf, StepsOf, Swallows;
    var e := Look(NEXT_DONE, 3);
    var all := events + [e];
    LookEffects(w, NEXT_DONE, 3, 4);
    Goes(events, w, e);
    assert all[..|all| - 1] == events;
    assert LateDone(w, NEXT_DONE);
    FiveAreDistinct(Next(GATED, w, e));
    LegalUnlessSwallowed(GATED, all);
  }

  lemma FiveAreDistinct(w: World)
    requires Coherent(w, 5)
    ensures Distinct(w)
  {
    hide Base;
  }
}
