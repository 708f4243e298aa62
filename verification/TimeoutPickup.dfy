/** A run of six frames in which a pickup is verified without any RECATCH: the ACK of
    PICK_BALL has timed out, and its two late DONE reports end two steps of BALL. */
module TimeoutPickup {
  import opened Types
  import opened CommandCoordinator
  import opened Mission
  import opened MissionMoves
  import opened MissionRuns
  import opened MissionFrozen
  import opened TimeoutExamples
  import opened SlidingWindow
  import Features = LineFeatures
  import Ball = BallController
  import Hurdle = HurdleController
  import Goal = GoalController

  const LOOKING_DOWN := CameraFeedback(DownView, true)

  /** A ball comes into sight, the camera turns down, and the ball is in reach. */
  const SIGHT := Idle(0.0).(ball := Some(BALL_SEEN))
  const TILTED := Idle(0.5).(camera := LOOKING_DOWN)
  const ALIGNED := Idle(0.6).(camera := LOOKING_DOWN, ball := Some(BALL_SEEN))

  const PICKING := [SIGHT, TILTED, ALIGNED, LATE, Done(11.0), Done(12.0)]

  /** BALL is in this mode and its controller has just said so. */
  ghost predicate Fetching(m: State, mode: Ball.Mode) {
    && m.active.BallMission? && !m.gate.active && m.ball.mode == m.results.ball.mode == mode && !m.ball.hasBall && !m.hasBall
  }

  ghost predicate Unasked(m: State) {
    m.coordinator == CommandCoordinator.Initial(CommandConfig(1, 1.0)) && m.last.actionId == 0
  }

  ghost predicate Picking(m: State) {
    && m.coordinator.pendingId == 1 && m.coordinator.queuedId == 0 && m.coordinator.nextId == 2
    && m.coordinator.pendingMission.BallMission? && m.coordinator.pendingRequest == MissionRequest(PickBall, 0)
    && m.last.actionId == 1
  }

  ghost predicate NotYetOverdue(m: State) {
    !m.coordinator.timedOut && !m.coordinator.pendingAck && m.coordinator.pendingIssuedSec == 0.6
  }

  lemma SightIsEntry(m: State)
    requires Fresh(m)
    ensures var m' := Mission.Compute(CONFIG, m, SIGHT).state; Fetching(m', Ball.WaitCameraDown) && Unasked(m')
  {
    hide Mission.Compute, OpenGate, PassGate, Ball.Compute, Hurdle.Compute, Goal.Compute, Features.FeaturesOf;
    Ungated(m, SIGHT);
    BallIsAcquired(m.ball, BallInput(SIGHT, ActionExecution(false, false)));
  }

  lemma CameraIsDown(s: Ball.State, e: ActionExecution)
    requires s.mode.WaitCameraDown?
    ensures var out := Ball.Compute(BALL, s, BallInput(TILTED, e));
            && out.state.mode.FineAdjust? && out.result.mode.FineAdjust? && out.state.hasBall == s.hasBall == out.result.hasBall
            && out.result.camera.NoCamera? && out.result.action.action.NoAction?
            && out.state.tracker == Ball.ClearTracking(s.tracker).(lastSeenU := BALL.farUDesNorm) && out.state.settleUntilSec == 0.5
  {
  }

  ghost predicate Aligning(m: State) {
    m.ball.settleUntilSec == 0.5 && m.ball.tracker.lost == 0 && !m.ball.tracker.hasSmoothed
  }

  lemma TiltIsFineAdjust(m: State)
    requires Fetching(m, Ball.WaitCameraDown) && Unasked(m)
    ensures var m' := Mission.Compute(CONFIG, m, TILTED).state; Fetching(m', Ball.FineAdjust) && Unasked(m') && Aligning(m')
  {
    hide Mission.Compute, OpenGate, PassGate, Ball.Compute, ComputeLine;
    Ungated(m, TILTED);
    CameraIsDown(m.ball, ActionExecution(false, false));
  }

  lemma BallIsInReach(s: Ball.State)
    requires s.mode.FineAdjust? && s.settleUntilSec == 0.5 && !s.tracker.hasSmoothed
    ensures var out := Ball.Compute(BALL, s, BallInput(ALIGNED, ActionExecution(false, false)));
            && out.state.mode.Pickup? && out.result.mode.Pickup? && out.state.hasBall == s.hasBall == out.result.hasBall
            && out.result.camera.NoCamera? && out.result.action == MissionRequest(PickBall, 0)
  {
    hide Push, Count;
    var t := Ball.Track(BALL, s.tracker, ALIGNED.ball, 640, 480).tracked;
    assert t.u == 0.5 && t.v == 0.5 && t.visible;
  }

  lemma AlignedIsPickup(m: State)
    requires Fetching(m, Ball.FineAdjust) && Unasked(m) && Aligning(m)
    ensures var m' := Mission.Compute(CONFIG, m, ALIGNED).state; Fetching(m', Ball.Pickup) && Picking(m') && NotYetOverdue(m')
  {
    hide Mission.Compute, OpenGate, PassGate, Ball.Compute, ComputeLine;
    Ungated(m, ALIGNED);
    BallIsInReach(m.ball);
  }

  lemma PickIsOverdue(m: State)
    requires Fetching(m, Ball.Pickup) && Picking(m) && NotYetOverdue(m)
    ensures var m' := Mission.Compute(CONFIG, m, LATE).state; Fetching(m', Ball.Pickup) && Picking(m') && m'.coordinator.timedOut
  {
    hide Mission.Compute, OpenGate, PassGate, ComputeLine, Ball.Track;
    Ungated(m, LATE);
  }

  /** DONE of the frozen PICK_BALL ends the present step, whatever it waits for. */
  lemma LateDoneMovesOn(m: State, nowSec: real)
    requires Fetching(m, m.ball.mode) && Picking(m) && m.coordinator.timedOut && (m.ball.mode.Pickup? || m.ball.mode.VerifyPickup?)
    ensures var m' := Mission.Compute(CONFIG, m, Done(nowSec)).state;
            && Fetching(m', if m.ball.mode.Pickup? then Ball.VerifyPickup else Ball.VerifyObservation)
            && Picking(m') && m'.coordinator.timedOut
  {
    hide Mission.Compute, OpenGate, PassGate, ComputeLine, Ball.Track;
    Ungated(m, Done(nowSec));
  }

  lemma DisownsRecatch(m: State)
    requires Fetching(m, Ball.VerifyPickup) && Picking(m)
    ensures OwnAction(ProfileOf(m)).Recatch? && !OwnsItsAction(ProfileOf(m), m.coordinator)
  {
  }

  lemma FirstFramesAllowed(m: State)
    ensures Allowed(m, SIGHT) && Allowed(m, TILTED) && Allowed(m, ALIGNED) && Allowed(m, LATE)
  {
  }

  lemma PickupGoesOn(m0: State, m1: State, m2: State, m3: State)
    requires Fresh(m0) && m1 == Mission.Compute(CONFIG, m0, SIGHT).state && m2 == Mission.Compute(CONFIG, m1, TILTED).state
    requires m3 == Mission.Compute(CONFIG, m2, ALIGNED).state
    ensures Fetching(m3, Ball.Pickup) && Picking(m3) && NotYetOverdue(m3)
  {
    hide Mission.Compute, Fresh, Fetching, Unasked, Aligning, Picking, NotYetOverdue;
    SightIsEntry(m0);
    TiltIsFineAdjust(m1);
    AlignedIsPickup(m2);
  }

  lemma PickupSkipsRecatch(m3: State, m4: State, m5: State, m6: State)
    requires Fetching(m3, Ball.Pickup) && Picking(m3) && NotYetOverdue(m3)
    requires m4 == Mission.Compute(CONFIG, m3, LATE).state && m5 == Mission.Compute(CONFIG, m4, Done(11.0)).state
    requires m6 == Mission.Compute(CONFIG, m5, Done(12.0)).state
    ensures m4.coordinator.timedOut
    ensures Fetching(m5, Ball.VerifyPickup) && Picking(m5) && m5.coordinator.timedOut
    ensures Fetching(m6, Ball.VerifyObservation) && Picking(m6)
  {
    hide Mission.Compute, Picking, NotYetOverdue, Done;
    PickIsOverdue(m3);
    LateDoneMovesOn(m4, 11.0);
    LateDoneMovesOn(m5, 12.0);
  }

  lemma PickingFrame(steps: seq<Step>, k: nat)
    requires IsRun(CONFIG, PICKING, steps) && k < 6
    ensures Before(CONFIG, steps, k + 1) == Mission.Compute(CONFIG, Before(CONFIG, steps, k), PICKING[k]).state
    ensures k == 0 ==> Before(CONFIG, steps, k) == Mission.Initial(CONFIG)
  {
    hide Mission.Compute, Mission.Initial, Idle, Done;
    assert IsStep(CONFIG, PICKING, steps, k);
  }

  lemma PickingAllowed(steps: seq<Step>)
    requires IsRun(CONFIG, PICKING, steps)
    requires Before(CONFIG, steps, 4).coordinator.timedOut && Before(CONFIG, steps, 5).coordinator.timedOut
    ensures LegalRun(CONFIG, PICKING, steps)
  {
    hide Mission.Compute, Before, Allowed, Idle, Done;
    forall k | 0 <= k < 6
      ensures Allowed(Before(CONFIG, steps, k), PICKING[k])
    {
      if k < 4 { FirstFramesAllowed(Before(CONFIG, steps, k)); } else { FrozenIsAllowed(Before(CONFIG, steps, k), PICKING[k]); }
    }
    AllAllowed(PICKING, steps);
  }

  /** After an ACK timeout BALL waits for RECATCH while PICK_BALL is what is in flight,
      and the DONE of PICK_BALL ends that wait: a single identifier was ever allocated,
      so RECATCH was never asked of the executor. */
  lemma RecatchSkippedAfterTimeout() returns (steps: seq<Step>)
    ensures LegalRun(CONFIG, PICKING, steps)
    ensures var m := Before(CONFIG, steps, 5);
            && m.coordinator.timedOut && m.active.BallMission? && m.ball.mode.VerifyPickup?
            && OwnAction(ProfileOf(m)).Recatch? && !OwnsItsAction(ProfileOf(m), m.coordinator)
    ensures var m := Before(CONFIG, steps, 6);
            && m.active.BallMission? && m.ball.mode.VerifyObservation?
            && m.coordinator.nextId == 2 && m.coordinator.pendingRequest.action.PickBall?
  {
    hide Mission.Compute, Mission.Initial, Before, LegalRun, Fresh, NotYetOverdue, Idle, Done, OwnAction, OwnsItsAction, ProfileOf;
    steps := RunExists(CONFIG, PICKING);
    InitialIsFresh();
    var m := k requires 0 <= k <= 6 => Before(CONFIG, steps, k);
    PickingFrame(steps, 0);
    PickingFrame(steps, 1);
    PickingFrame(steps, 2);
    PickupGoesOn(m(0), m(1), m(2), m(3));
    PickingFrame(steps, 3);
    PickingFrame(steps, 4);
    PickingFrame(steps, 5);
    PickupSkipsRecatch(m(3), m(4), m(5), m(6));
    DisownsRecatch(m(5));
    PickingAllowed(steps);
  }
}
