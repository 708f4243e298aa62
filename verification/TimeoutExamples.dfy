/** Two concrete runs that show why the results about camera motions and the final
    hold need a working delivery: after an ACK timeout the coordinator is frozen, but
    late feedback still moves the missions. */
module TimeoutExamples {
  import opened Types
  import opened CommandCoordinator
  import opened Mission
  import opened ConfigValidation
  import opened MissionRuns
  import opened LineP2p
  import opened SlidingWindow
  import Line = LineRecovery
  import Features = LineFeatures
  import Ball = BallController
  import Hurdle = HurdleController
  import Goal = GoalController

  const FEATURES := Features.Config(20, 3, -1.0, 5, 40.0, 3, 20.0, (x: real) => x, (x: real) => x, (x: real) => x)

  const LINE := Line.Config(1, 1, Steering(1.0, 1.0, 0.1), 0.25, 0.0, 0.0, 1, 0, 0, 15)

  const BALL := Ball.Config(1, 1, 1, 1.0, 0.5, 0.1, 1.0, 0.0, 1, 1, 1, 0.0, 0.5, 0.5, 0.1, 0.1, 0.0, 1.0, 1, 0.1, 0.0, 1.0)

  const HURDLE := Hurdle.Config(1, 1, 1, 1.0, 1.0, 1.0, 1, 1, 0.0, 1, 1.0, 0.1, 0.0, 1.0)

  const GEOMETRY := Goal.Geometry((x: real, z: real, y: real) => x, (x: real, z: real, y: real) => z,
                                  (x: real, z: real, y: real) => y, (x: real) => x)

  const GOAL := Goal.Config(1, 1, 1, 1.0, 0.0, 0.5, 0.1, 1.0, 1.0, 0.1, 0.0, 30.0, 1.0, 1, 0.1, 0.0, 1.0, GEOMETRY)

  /** Windows of one frame, no gate, an ACK timeout of one second. */
  const CONFIG := Config(FEATURES, LINE, BALL, HURDLE, GOAL, CommandConfig(1, 1.0), 0.0, true, false, false, false)

  lemma ConfigIsValid()
    ensures ValidConfig(CONFIG)
  {
  }

  const AHEAD := LineGuide(0.0, 0.0, 0.0, 1.0, true, false)

  function Idle(nowSec: real): Input {
    Input([], None, None, None, None, Goal.PoseObservation(false, 0.0, 0.0, 0.0, 0.0), 640, 480, nowSec,
          CameraFeedback(ForwardView, true), NO_FEEDBACK, true, false, None)
  }

  const BALL_SEEN := ObjectTarget(1.0, 0.0, 0.0, Point2(320.0, 240.0), Point2(0.0, 0.0), 10.0, 10.0, 100.0, false)

  /** A walk is issued at time 0 and never acknowledged in time. */
  const WALK := Idle(0.0).(advanceLineFsm := true, guideOverride := Some(AHEAD))
  const LATE := Idle(10.0)

  /** Its feedback arrives together with the first sight of a ball. */
  const BALL_AND_DONE := Idle(11.0).(ball := Some(BALL_SEEN), feedback := DeliveryFeedback(1, true, true, false))

  /** LINE is walking action 1, which nobody has acknowledged. */
  ghost predicate WalkingOne(m: State) {
    && m.active.LineMission? && !m.hasBall && m.line.fsm.mode.Normal? && m.line.fsm.evidence.NoEvidence? && m.line.fsm.retries == 0
    && m.line.readyId == 0 && !m.line.failurePending && m.line.accumulator.actionId == 0
    && !m.gate.active && m.ball.mode.LineFollow? && !m.ball.hasBall && m.ball.ignoreUntilSec == 0.0
    && m.coordinator.pendingId == 1 && m.coordinator.queuedId == 0 && m.coordinator.pendingMission.LineMission?
    && m.coordinator.pendingRequest == ActionRequest(StepForwardFive, LocomotionCategory, 0, true)
    && m.last.actionId == 1 && m.last.mission.LineMission? && m.last.category.LocomotionCategory? && m.last.action.StepForwardFive?
  }

  ghost predicate Unacknowledged(m: State) {
    WalkingOne(m) && !m.coordinator.timedOut && !m.coordinator.pendingAck && m.coordinator.pendingIssuedSec == 0.0
  }

  ghost predicate Overdue(m: State) {
    WalkingOne(m) && m.coordinator.timedOut && m.last.phase.ActionAckTimedOut?
  }

  /** Without a gate every frame is a mission frame. */
  lemma Ungated(m: State, i: Input)
    requires !m.gate.active
    ensures Mission.Compute(CONFIG, m, i) == MissionFrame(CONFIG, m.(previousCamera := i.camera), i, false)
  {
    hide MissionFrame;
  }

  lemma NoBallNoMission(s: Ball.State, i: Ball.Input)
    requires s.mode.LineFollow? && !s.hasBall && s.ignoreUntilSec == 0.0 && i.target.None?
    ensures var out := Ball.Compute(BALL, s, i);
            out.state.mode.LineFollow? && !out.state.hasBall && out.state.ignoreUntilSec == 0.0 && out.result.mode.LineFollow?
  {
    hide Push, Count;
  }

  /** Nothing has happened yet. */
  ghost predicate Fresh(m: State) {
    && m.active.LineMission? && !m.hasBall && !m.gate.active && m.line == LineSide(Line.INITIAL, EMPTY, 0, false)
    && m.ball.mode.LineFollow? && !m.ball.hasBall && m.ball.ignoreUntilSec == 0.0
    && m.coordinator == CommandCoordinator.Initial(CommandConfig(1, 1.0)) && m.last == IDLE_COMMAND
  }

  lemma InitialIsFresh()
    ensures Fresh(Mission.Initial(CONFIG))
  {
  }

  lemma WalkStarts(m: State)
    requires Fresh(m)
    ensures Unacknowledged(Mission.Compute(CONFIG, m, WALK).state)
  {
    hide Mission.Compute, OpenGate, PassGate, ComputeLine, Ball.Compute, Hurdle.Compute, Goal.Compute;
    Ungated(m, WALK);
    WalkLine();
    NoBallNoMission(m.ball, BallInput(WALK, ActionExecution(false, false)));
  }

  lemma WalkLine()
    ensures var out := ComputeLine(CONFIG, LineSide(Line.INITIAL, EMPTY, 0, false), IDLE_COMMAND, WALK);
            && out.request == ActionRequest(StepForwardFive, LocomotionCategory, 0, true)
            && out.line.fsm.mode.Normal? && out.line.fsm.evidence.NoEvidence? && out.line.fsm.retries == 0
            && out.line.readyId == 0 && !out.line.failurePending && out.line.accumulator.actionId == 0
  {
    hide Features.FeaturesOf, Push, Count;
  }

  lemma WalkIsOverdue(m: State)
    requires Unacknowledged(m)
    ensures Overdue(Mission.Compute(CONFIG, m, LATE).state)
  {
    hide Mission.Compute, OpenGate, PassGate, Features.FeaturesOf, Ball.Compute, Hurdle.Compute, Goal.Compute;
    Ungated(m, LATE);
    NoBallNoMission(m.ball, BallInput(LATE, ActionExecution(false, true)));
  }

  lemma BallMeetsLateDone(m: State)
    requires Overdue(m)
    ensures var s := Mission.Compute(CONFIG, m, BALL_AND_DONE);
            s.command.camera.CameraDown? && s.command.actionId == 1 && s.state.coordinator.timedOut
  {
    hide Mission.Compute, OpenGate, PassGate, Features.FeaturesOf, Ball.Compute, Hurdle.Compute, Goal.Compute;
    Ungated(m, BALL_AND_DONE);
    BallIsAcquired(m.ball, BallInput(BALL_AND_DONE, ActionExecution(true, false)));
  }

  lemma BallIsAcquired(s: Ball.State, i: Ball.Input)
    requires s.mode.LineFollow? && !s.hasBall && s.ignoreUntilSec == 0.0
    requires i.target == Some(BALL_SEEN) && i.width == 640 && i.height == 480 && i.nowSec >= 0.0 && !Busy(i.execution)
    ensures var out := Ball.Compute(BALL, s, i);
            && out.result.mode.WaitCameraDown? && out.result.camera.CameraDown? && out.result.action.action.NoAction?
            && out.state.mode.WaitCameraDown? && !out.state.hasBall && !out.result.hasBall
  {
    var t := Ball.Track(BALL, s.tracker, i.target, i.width, i.height);
    assert t.hits == [true] && t.upper == [true] && t.tilt == [true];
    assert Count([true]) == 1;
  }

  /** After an ACK timeout a camera motion is commanded while action 1 is still named
      and pending: the executor may be walking while the camera moves. */
  lemma CameraOverlapsAfterTimeout() returns (steps: seq<Step>)
    ensures LegalRun(CONFIG, [WALK, LATE, BALL_AND_DONE], steps)
    ensures steps[2].command.camera.CameraDown? && steps[2].command.actionId == 1 && steps[2].state.coordinator.timedOut
  {
    hide Mission.Compute, Mission.Initial, Overdue, Unacknowledged, Fresh, Allowed, Idle;
    var inputs := [WALK, LATE, BALL_AND_DONE];
    steps := RunExists(CONFIG, inputs);
    InitialIsFresh();
    assert IsStep(CONFIG, inputs, steps, 0) && IsStep(CONFIG, inputs, steps, 1) && IsStep(CONFIG, inputs, steps, 2);
    WalkStarts(Before(CONFIG, steps, 0));
    WalkIsOverdue(Before(CONFIG, steps, 1));
    BallMeetsLateDone(Before(CONFIG, steps, 2));
    FirstFramesAllowed(Before(CONFIG, steps, 0));
    FirstFramesAllowed(Before(CONFIG, steps, 1));
    OverdueIsAllowed(Before(CONFIG, steps, 2), BALL_AND_DONE);
    AllAllowed(inputs, steps);
  }

  /** Frames allowed one by one make a legal run. */
  lemma AllAllowed(inputs: seq<Input>, steps: seq<Step>)
    requires IsRun(CONFIG, inputs, steps) && forall k :: 0 <= k < |inputs| ==> Allowed(Before(CONFIG, steps, k), inputs[k])
    ensures LegalRun(CONFIG, inputs, steps)
  {
    hide Mission.Compute, Mission.Initial, Allowed, Before, IsStep;
  }

  lemma OverdueIsAllowed(m: State, i: Input)
    requires Overdue(m)
    ensures Allowed(m, i)
  {
  }

  // ----- Leaving the final hold -----

  /** DONE without ACK, READY with ACK: late and duplicated feedback of action 1. */
  function Done(nowSec: real): Input {
    Idle(nowSec).(advanceLineFsm := true, feedback := DeliveryFeedback(1, false, true, false))
  }

  function Ready(nowSec: real): Input {
    Idle(nowSec).(advanceLineFsm := true, feedback := DeliveryFeedback(1, true, false, true))
  }

  /** The coordinator is frozen on action 1 and LINE is in the given mode. */
  ghost predicate Frozen(m: State, mode: Line.Mode, failurePending: bool) {
    && m.coordinator.timedOut && m.coordinator.pendingId == 1 && m.coordinator.queuedId == 0 && m.coordinator.pendingMission.LineMission?
    && m.coordinator.pendingRequest == ActionRequest(StepForwardFive, LocomotionCategory, 0, true)
    && m.active.LineMission? && !m.hasBall && !m.gate.active
    && m.line.fsm.mode == mode && m.line.fsm.evidence.NoEvidence? && m.line.fsm.retries == 0
    && (Line.Observing(mode) ==> m.line.fsm.observation == Line.NO_OBSERVATION.(active := true, startSec := 11.0))
    && m.line.failurePending == failurePending && m.line.accumulator.actionId == 0
    && (mode.FinalHold? && !failurePending ==> m.line.readyId == 0)
    && m.ball.mode.LineFollow? && !m.ball.hasBall && m.ball.ignoreUntilSec == 0.0
    && m.last.actionId == 1 && m.last.mission.LineMission? && m.last.category.LocomotionCategory? && m.last.action.StepForwardFive?
    && m.last.phase.ActionAckTimedOut?
  }

  lemma NoCentersNoGuide(i: Input)
    requires i.lineCenters == []
    ensures GuideSeen(CONFIG, i) == INVALID_GUIDE
  {
  }

  lemma LateDoneStartsObservation(m: State)
    requires Overdue(m)
    ensures var s := Mission.Compute(CONFIG, m, Done(11.0)).state; Frozen(s, Line.FailureObserve, false) && s.line.readyId == 0
  {
    hide Mission.Compute, OpenGate, PassGate, ComputeLine, Ball.Compute, Hurdle.Compute, Goal.Compute;
    Ungated(m, Done(11.0));
    LateDoneLine(m);
    NoBallNoMission(m.ball, BallInput(Done(11.0), ActionExecution(true, false)));
  }

  lemma LateDoneLine(m: State)
    requires Overdue(m)
    ensures var line := ComputeLine(CONFIG, m.line, m.last, Done(11.0)).line;
            && line.fsm.mode.FailureObserve? && line.fsm.evidence.NoEvidence? && line.fsm.retries == 0
            && line.fsm.observation == Line.NO_OBSERVATION.(active := true, startSec := 11.0)
            && !line.failurePending && line.readyId == 0 && line.accumulator.actionId == 0
  {
    NoCentersNoGuide(Done(11.0));
    hide GuideSeen, Push, Count;
  }

  lemma SecondDoneGivesUp(m: State)
    requires Frozen(m, Line.FailureObserve, false) && m.line.readyId == 0
    ensures Frozen(Mission.Compute(CONFIG, m, Done(12.0)).state, Line.FinalHold, false)
  {
    hide Mission.Compute, OpenGate, PassGate, ComputeLine, Ball.Compute, Hurdle.Compute, Goal.Compute;
    Ungated(m, Done(12.0));
    SecondDoneLine(m);
  }

  lemma SecondDoneLine(m: State)
    requires Frozen(m, Line.FailureObserve, false) && m.line.readyId == 0
    ensures var line := ComputeLine(CONFIG, m.line, m.last, Done(12.0)).line;
            && line.fsm.mode.FinalHold? && line.fsm.evidence.NoEvidence? && line.fsm.retries == 0
            && !line.failurePending && line.readyId == 0 && line.accumulator.actionId == 0
  {
    NoCentersNoGuide(Done(12.0));
    hide GuideSeen, Push, Count;
  }

  lemma LateReadyFails(m: State)
    requires Frozen(m, Line.FinalHold, false)
    ensures Frozen(Mission.Compute(CONFIG, m, Ready(13.0)).state, Line.FinalHold, true)
  {
    hide Mission.Compute, OpenGate, PassGate, ComputeLine, Ball.Compute, Hurdle.Compute, Goal.Compute;
    Ungated(m, Ready(13.0));
    LateReadyLine(m);
  }

  lemma LateReadyLine(m: State)
    requires Frozen(m, Line.FinalHold, false)
    ensures var line := ComputeLine(CONFIG, m.line, m.last, Ready(13.0)).line;
            line.fsm == m.line.fsm && line.failurePending && line.accumulator.actionId == 0
  {
    NoCentersNoGuide(Ready(13.0));
    NothingToAverage(Watch(m.line, 1, 13.0, INVALID_GUIDE));
    hide GuideSeen, FinishGuide, StatsOf;
  }

  lemma NothingToAverage(a: Accumulator)
    requires a.samples == []
    ensures FinishGuide(a, 1, 13.0, LINE.readyLeadSec).None?
  {
  }

  lemma ThirdDoneLeavesHold(m: State)
    requires Frozen(m, Line.FinalHold, true)
    ensures Mission.Compute(CONFIG, m, Done(14.0)).state.line.fsm.mode.FailureObserve?
  {
    hide Mission.Compute, OpenGate, PassGate, ComputeLine, Ball.Compute, Hurdle.Compute, Goal.Compute;
    Ungated(m, Done(14.0));
    ThirdDoneLine(m);
  }

  lemma ThirdDoneLine(m: State)
    requires Frozen(m, Line.FinalHold, true)
    ensures ComputeLine(CONFIG, m.line, m.last, Done(14.0)).line.fsm.mode.FailureObserve?
  {
    NoCentersNoGuide(Done(14.0));
    hide GuideSeen, Push, Count;
  }

  const GIVING_UP := [WALK, LATE, Done(11.0), Done(12.0), Ready(13.0), Done(14.0)]

  lemma FrozenIsAllowed(m: State, i: Input)
    requires m.coordinator.timedOut
    ensures Allowed(m, i)
  {
  }

  lemma FirstFramesAllowed(m: State)
    ensures Allowed(m, WALK) && Allowed(m, LATE)
  {
  }

  /** After an ACK timeout the final hold can be left again: it is reached in the
      fourth frame and gone after the sixth. */
  lemma FinalHoldLeftAfterTimeout() returns (steps: seq<Step>)
    ensures LegalRun(CONFIG, GIVING_UP, steps)
    ensures steps[3].state.line.fsm.mode.FinalHold? && steps[3].state.coordinator.timedOut
    ensures steps[5].state.line.fsm.mode.FailureObserve?
  {
    hide Mission.Compute, Mission.Initial, Unacknowledged, Fresh, Allowed, Idle, Done, Ready;
    steps := RunExists(CONFIG, GIVING_UP);
    InitialIsFresh();
    assert IsStep(CONFIG, GIVING_UP, steps, 0) && IsStep(CONFIG, GIVING_UP, steps, 1) && IsStep(CONFIG, GIVING_UP, steps, 2);
    assert IsStep(CONFIG, GIVING_UP, steps, 3) && IsStep(CONFIG, GIVING_UP, steps, 4) && IsStep(CONFIG, GIVING_UP, steps, 5);
    WalkStarts(Before(CONFIG, steps, 0));
    WalkIsOverdue(Before(CONFIG, steps, 1));
    LateDoneStartsObservation(Before(CONFIG, steps, 2));
    SecondDoneGivesUp(Before(CONFIG, steps, 3));
    LateReadyFails(Before(CONFIG, steps, 4));
    ThirdDoneLeavesHold(Before(CONFIG, steps, 5));
    forall k | 0 <= k < 6
      ensures Allowed(Before(CONFIG, steps, k), GIVING_UP[k])
    {
      if k < 2 { FirstFramesAllowed(Before(CONFIG, steps, k)); } else { FrozenIsAllowed(Before(CONFIG, steps, k), GIVING_UP[k]); }
    }
    AllAllowed(GIVING_UP, steps);
  }
}
