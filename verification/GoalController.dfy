/** The GOAL mission: camera to the goal, search, approach, fine alignment, shoot,
    camera back, heading recovery. */
module GoalController {
  import opened Types
  import opened SlidingWindow
  import opened CruiseSelector

  datatype Mode =
    | LineFollow
    | WaitCameraGoal
    | Search
    | Approach
    | FineAdjust
    | Shooting
    | ReturnCamera
    | HeadingRecovery
    | Failed
    | RecoverySearch

  /** The trigonometry of the backboard, as arbitrary functions of (x, z, yaw). */
  datatype Geometry = Geometry(
    rimX: (real, real, real) -> real,
    rimDistance: (real, real, real) -> real,
    shootYawRad: (real, real, real) -> real,
    wrapAngle: real -> real)

  datatype Config = Config(
    stableWindow: int,
    stableMinHits: int,
    lostFrames: int,
    smoothAlpha: real,
    postPickupWaitSec: real,
    targetUNorm: real,
    approachUDeadband: real,
    fineAdjustStartZM: real,
    throwingRangeM: real,
    positionToleranceM: real,
    fineSettleDurationSec: real,
    shootYawLimitDeg: real,
    recoveryTimeoutSec: real,
    recoveryReacquireMinHits: int,
    recoveryCenterToleranceNorm: real,
    recoverySettleDurationSec: real,
    cameraMotionTimeoutSec: real,
    geometry: Geometry)

  datatype PoseObservation = PoseObservation(valid: bool, x: real, z: real, yaw: real, confidence: real)

  datatype TrackedPose = TrackedPose(stable: bool, visible: bool, x: real, z: real, yaw: real, confidence: real)

  datatype Tracked = Tracked(stable: bool, visible: bool, u: real, v: real, h: real, confidence: real)

  const NOT_TRACKED := Tracked(false, false, 0.0, 0.0, 0.0, 0.0)
  const NO_POSE := TrackedPose(false, false, 0.0, 0.0, 0.0, 0.0)

  datatype Result = Result(
    active: bool,
    camera: CameraRequest,
    mode: Mode,
    tracked: Tracked,
    pose: TrackedPose,
    shootYawRad: real,
    action: ActionRequest)

  const IDLE_RESULT := Result(false, NoCamera, LineFollow, NOT_TRACKED, NO_POSE, 0.0, NO_REQUEST)

  datatype Tracker = Tracker(
    hits: seq<bool>,
    lost: nat,
    hasSmoothed: bool,
    tracked: Tracked,
    lastSeenU: real,
    seenAfterCamera: bool)

  datatype PoseTracker = PoseTracker(
    hits: seq<bool>,
    fineEnter: seq<bool>,
    lost: nat,
    hasSmoothed: bool,
    tracked: TrackedPose)

  /** Possession and the entry conditions derived from it. */
  datatype Possession = Possession(
    hasBall: bool,
    consumed: bool,
    armed: bool,
    lineWaitActive: bool,
    lineWaitStartSec: real,
    triggerLatched: bool)

  datatype State = State(
    mode: Mode,
    board: Tracker,
    pose: PoseTracker,
    ball: Possession,
    stateEnterSec: real,
    settleUntilSec: real,
    shootYawRad: real,
    fineLatched: bool,
    recoveryVisible: nat)

  datatype Step = Step(state: State, result: Result)

  datatype Input = Input(
    backboard: Option<ObjectTarget>,
    pose: PoseObservation,
    width: int,
    height: int,
    nowSec: real,
    lineReferenceValid: bool,
    camera: CameraFeedback,
    execution: ActionExecution)

  const PI: real := 3.14159265358979323846

  const EMPTY_POSE_TRACKER := PoseTracker([], [], 0, false, NO_POSE)

  const INITIAL :=
    State(LineFollow, Tracker([], 0, false, NOT_TRACKED, 0.5, false), EMPTY_POSE_TRACKER,
          Possession(false, false, false, false, 0.0, false), 0.0, 0.0, 0.0, false, 0)

  // ----- Possession -----

  function TakeBall(b: Possession, mode: Mode, hasBall: bool): Possession {
    if !hasBall then
      b.(hasBall := false, armed := false, lineWaitActive := false, consumed := b.consumed && !mode.LineFollow?)
    else if !b.consumed then b.(hasBall := true)
    else b
  }

  function UpdateBallState(b: Possession, mode: Mode, hasBall: bool, ballInLineFollow: bool): Possession {
    var b := TakeBall(b, mode, hasBall);
    var armed := b.hasBall && !b.consumed && ballInLineFollow;
    b.(armed := armed, lineWaitActive := b.lineWaitActive && armed)
  }

  function StartAfterPickup(s: State): State { s.(ball := TakeBall(s.ball, s.mode, true).(armed := true)) }

  // ----- Tracking -----

  predicate Detected(target: Option<ObjectTarget>, width: int, height: int) {
    target.Some? && width > 1 && height > 1
  }

  function Observed(target: ObjectTarget, width: int, height: int): Tracked {
    var center := if target.centerRectified then target.rectifiedCenter else target.center;
    Tracked(false, true,
            Clamp(center.u / Denom(width as real), 0.0, 1.0),
            Clamp(center.v / Denom(height as real), 0.0, 1.0),
            Clamp(target.heightPx / Denom(height as real), 0.0, 1.0),
            target.confidence)
  }

  function Follow(config: Config, hasSmoothed: bool, tracked: Tracked, observed: Tracked): Tracked {
    if !hasSmoothed then observed
    else observed.(stable := tracked.stable,
                   u := Smooth(tracked.u, observed.u, config.smoothAlpha),
                   v := Smooth(tracked.v, observed.v, config.smoothAlpha))
  }

  function Track(config: Config, t: Tracker, mode: Mode, target: Option<ObjectTarget>, width: int, height: int): Tracker {
    var detected := Detected(target, width, height);
    var hits := Push(t.hits, detected, config.stableWindow);
    var stable := Count(hits) >= Max(1, config.stableMinHits);
    var tracked := if detected then Follow(config, t.hasSmoothed, t.tracked, Observed(target.value, width, height))
                   else t.tracked.(visible := false);
    Tracker(hits,
            if detected then 0 else t.lost + 1,
            t.hasSmoothed || detected,
            tracked.(stable := stable),
            if detected then tracked.u else t.lastSeenU,
            t.seenAfterCamera || (detected && stable && !mode.LineFollow?))
  }

  predicate PoseDetected(backboard: Option<ObjectTarget>, pose: PoseObservation) {
    backboard.Some? && pose.valid && pose.z > 0.0
  }

  function FollowPose(config: Config, hasSmoothed: bool, tracked: TrackedPose, pose: PoseObservation): TrackedPose {
    if !hasSmoothed then TrackedPose(tracked.stable, true, pose.x, pose.z, pose.yaw, pose.confidence)
    else TrackedPose(tracked.stable, true,
                     Smooth(tracked.x, pose.x, config.smoothAlpha),
                     Smooth(tracked.z, pose.z, config.smoothAlpha),
                     config.geometry.wrapAngle(tracked.yaw + Clamp(config.smoothAlpha, 0.0, 1.0)
                                               * config.geometry.wrapAngle(pose.yaw - tracked.yaw)),
                     pose.confidence)
  }

  function TrackPose(config: Config, t: PoseTracker, backboard: Option<ObjectTarget>, pose: PoseObservation): PoseTracker {
    var detected := PoseDetected(backboard, pose);
    var hits := Push(t.hits, detected, config.stableWindow);
    var tracked := if detected then FollowPose(config, t.hasSmoothed, t.tracked, pose) else t.tracked.(visible := false);
    PoseTracker(hits,
                Push(t.fineEnter, detected && pose.z <= config.fineAdjustStartZM, config.stableWindow),
                if detected then 0 else t.lost + 1,
                t.hasSmoothed || detected,
                tracked.(stable := Count(hits) >= Max(1, config.stableMinHits)))
  }

  function ClearTracking(s: State): State {
    s.(board := Tracker([], 0, false, NOT_TRACKED, s.board.lastSeenU, s.board.seenAfterCamera), pose := EMPTY_POSE_TRACKER)
  }

  // ----- Actions -----

  /** Rounds to the nearest integer, halves away from zero. */
  function RoundHalfAway(x: real): int {
    if x >= 0.0 then (x + 0.5).Floor else -(-x + 0.5).Floor
  }

  function YawDegrees(yawRad: real): real { yawRad * 180.0 / PI }

  function ShootRequest(yawRad: real): ActionRequest {
    MissionRequest(Shoot, RoundHalfAway(Clamp(YawDegrees(yawRad), -180.0, 180.0)))
  }

  function ShootYaw(config: Config, x: real, z: real, yaw: real): real { config.geometry.shootYawRad(x, z, yaw) }

  function FineAction(config: Config, pose: PoseObservation): ActionRequest {
    if !pose.valid || pose.z <= 0.0 then NO_REQUEST
    else
      var error := config.geometry.rimDistance(pose.x, pose.z, pose.yaw) - config.throwingRangeM;
      var yaw := ShootYaw(config, pose.x, pose.z, pose.yaw);
      if error > config.positionToleranceM then Locomotion(StepForwardHalf, 0)
      else if error < -config.positionToleranceM then Locomotion(StepBack, 0)
      else if AbsReal(YawDegrees(yaw)) <= config.shootYawLimitDeg then ShootRequest(yaw)
      else Locomotion(if config.geometry.rimX(pose.x, pose.z, pose.yaw) > 0.0 then RightSideStep else LeftSideStep, 0)
  }

  function CruiseRequest(config: Config, visible: bool, u: real): ActionRequest {
    Locomotion(CruiseAction(SelectCruiseDecision(true, visible, u - config.targetUNorm, config.approachUDeadband).direction), 0)
  }

  function SearchRecoveryAction(config: Config, lastSeenU: real): ActionRequest {
    var error := lastSeenU - config.targetUNorm;
    if AbsReal(error) <= config.recoveryCenterToleranceNorm then NO_REQUEST
    else Locomotion(if error < 0.0 then TurnLeft else TurnRight, 15)
  }

  // ----- The mode machine -----

  predicate CameraMoving(mode: Mode) { mode.WaitCameraGoal? || mode.ReturnCamera? }

  predicate PoseReady(config: Config, p: PoseTracker) {
    p.tracked.stable && p.tracked.visible && Count(p.fineEnter) >= Max(1, config.stableMinHits)
  }

  predicate Directional(config: Config, t: Tracker) {
    t.seenAfterCamera && AbsReal(t.lastSeenU - config.targetUNorm) > config.recoveryCenterToleranceNorm
  }

  function BaseResult(config: Config, s: State): Result {
    Result(!s.mode.LineFollow? && !s.mode.HeadingRecovery?, NoCamera, s.mode, s.board.tracked, s.pose.tracked,
           if s.pose.tracked.visible then ShootYaw(config, s.pose.tracked.x, s.pose.tracked.z, s.pose.tracked.yaw)
           else s.shootYawRad,
           NO_REQUEST)
  }

  /** On the line with the ball: wait, then turn the camera once no action is in flight. */
  function TryEnter(config: Config, s: State, i: Input): State {
    if !(s.mode.LineFollow? && s.ball.hasBall && s.ball.armed) then s
    else if !i.lineReferenceValid then s.(ball := s.ball.(lineWaitActive := false))
    else
      var start := if s.ball.lineWaitActive then s.ball.lineWaitStartSec else i.nowSec;
      var latched := s.ball.triggerLatched || i.nowSec - start >= config.postPickupWaitSec;
      var s := s.(ball := s.ball.(lineWaitActive := true, lineWaitStartSec := start, triggerLatched := latched));
      if latched && !Busy(i.execution) then s.(mode := WaitCameraGoal, stateEnterSec := i.nowSec) else s
  }

  function WaitCameraGoalStep(config: Config, s: State, i: Input): Step {
    var r := BaseResult(config, s);
    if i.camera.actualMode.GoalView? && i.camera.settled then
      var cleared := ClearTracking(s);
      Step(cleared.(mode := Search, recoveryVisible := 0,
                    board := cleared.board.(lastSeenU := config.targetUNorm, seenAfterCamera := false)),
           r.(mode := Search, tracked := NOT_TRACKED, pose := NO_POSE))
    else if i.nowSec - s.stateEnterSec >= config.cameraMotionTimeoutSec then
      Step(s.(mode := Failed), r.(mode := Failed))
    else
      Step(s, r.(camera := CameraGoal))
  }

  function SearchStep(config: Config, s: State, i: Input): Step {
    var r := BaseResult(config, s);
    if !s.board.tracked.visible && s.board.lost >= Max(1, config.lostFrames) && Directional(config, s.board) then
      Step(s.(mode := RecoverySearch, stateEnterSec := i.nowSec, recoveryVisible := 0, settleUntilSec := i.nowSec),
           r.(mode := RecoverySearch))
    else if PoseReady(config, s.pose) then
      Step(s.(mode := FineAdjust, settleUntilSec := i.nowSec + config.fineSettleDurationSec), r.(mode := FineAdjust))
    else if s.board.tracked.stable && s.board.tracked.visible then
      Step(s.(mode := Approach), r.(mode := Approach, action := CruiseRequest(config, true, s.board.tracked.u)))
    else
      Step(s, r)
  }

  function ApproachStep(config: Config, s: State, i: Input): Step {
    var r := BaseResult(config, s);
    var s := s.(fineLatched := s.fineLatched || PoseReady(config, s.pose));
    if s.fineLatched then
      if Busy(i.execution) then Step(s, r)
      else Step(s.(mode := FineAdjust, settleUntilSec := i.nowSec + config.fineSettleDurationSec), r.(mode := FineAdjust))
    else if s.board.lost >= Max(1, config.lostFrames) then
      if Directional(config, s.board) then
        Step(ClearTracking(s.(mode := RecoverySearch, stateEnterSec := i.nowSec, recoveryVisible := 0, settleUntilSec := i.nowSec)),
             r.(mode := RecoverySearch))
      else
        Step(ClearTracking(s.(mode := Search)), r.(mode := Search))
    else
      Step(s, r.(action := CruiseRequest(config, s.board.tracked.visible, s.board.tracked.u)))
  }

  function FineAdjustStep(config: Config, s: State, i: Input): Step {
    var r := BaseResult(config, s);
    if Busy(i.execution) then Step(s, r)
    else if i.execution.done then Step(s.(settleUntilSec := i.nowSec + config.fineSettleDurationSec), r)
    else if i.nowSec + EPSILON < s.settleUntilSec then Step(s, r)
    else if s.pose.lost >= Max(1, config.lostFrames) then
      var mode := if s.board.tracked.visible then Approach else Search;
      Step(s.(mode := mode, fineLatched := false), r.(mode := mode))
    else
      var action := FineAction(config, i.pose);
      if action.action.Shoot? then
        var yaw := ShootYaw(config, i.pose.x, i.pose.z, i.pose.yaw);
        Step(s.(mode := Shooting, shootYawRad := yaw), r.(mode := Shooting, shootYawRad := yaw, action := action))
      else
        Step(s, r.(action := action))
  }

  function ShootingStep(config: Config, s: State, i: Input): Step {
    if i.execution.done then
      Step(s.(mode := ReturnCamera, ball := s.ball.(hasBall := false, consumed := true)),
           BaseResult(config, s).(mode := ReturnCamera, camera := CameraForward))
    else
      Step(s, BaseResult(config, s).(action := ShootRequest(s.shootYawRad)))
  }

  function ReturnCameraStep(config: Config, s: State, i: Input): Step {
    var r := BaseResult(config, s);
    if i.camera.actualMode.ForwardView? && i.camera.settled then
      Step(s.(mode := HeadingRecovery), r.(mode := HeadingRecovery, active := false))
    else
      Step(s, r.(camera := CameraForward))
  }

  function HeadingRecoveryStep(config: Config, s: State, i: Input): Step {
    if i.lineReferenceValid then Step(s.(mode := LineFollow), IDLE_RESULT)
    else Step(s, BaseResult(config, s))
  }

  function RecoverySearchStep(config: Config, s: State, i: Input): Step {
    var r := BaseResult(config, s);
    if Busy(i.execution) then Step(s, r)
    else if i.execution.done then Step(s.(settleUntilSec := i.nowSec + config.recoverySettleDurationSec), r)
    else if i.nowSec + EPSILON < s.settleUntilSec then Step(s, r)
    else
      var seen := if s.board.tracked.visible then s.recoveryVisible + 1 else 0;
      var s := s.(recoveryVisible := seen);
      if seen >= Max(1, config.recoveryReacquireMinHits) then Step(s.(mode := Search), r.(mode := Search))
      else if i.nowSec - s.stateEnterSec >= config.recoveryTimeoutSec then Step(s.(mode := Failed), r.(mode := Failed))
      else if s.board.tracked.visible then Step(s, r)
      else Step(s, r.(action := SearchRecoveryAction(config, s.board.lastSeenU)))
  }

  function ModeStep(config: Config, s: State, i: Input): Step {
    match s.mode
    case LineFollow => Step(s, BaseResult(config, s))
    case WaitCameraGoal => WaitCameraGoalStep(config, s, i)
    case Search => SearchStep(config, s, i)
    case Approach => ApproachStep(config, s, i)
    case FineAdjust => FineAdjustStep(config, s, i)
    case Shooting => ShootingStep(config, s, i)
    case ReturnCamera => ReturnCameraStep(config, s, i)
    case HeadingRecovery => HeadingRecoveryStep(config, s, i)
    case Failed => Step(s, BaseResult(config, s))
    case RecoverySearch => RecoverySearchStep(config, s, i)
  }

  function ObserveOnly(config: Config, s: State, backboard: Option<ObjectTarget>, pose: PoseObservation,
                       width: int, height: int): State
  {
    if CameraMoving(s.mode) then s
    else s.(board := Track(config, s.board, s.mode, backboard, width, height), pose := TrackPose(config, s.pose, backboard, pose))
  }

  function Compute(config: Config, s: State, i: Input): Step {
    ModeStep(config, TryEnter(config, ObserveOnly(config, s, i.backboard, i.pose, i.width, i.height), i), i)
  }

  function ResetState(config: Config, s: State): State {
    State(LineFollow, Tracker([], 0, false, NOT_TRACKED, config.targetUNorm, false), EMPTY_POSE_TRACKER,
          Possession(false, false, false, false, s.ball.lineWaitStartSec, false), 0.0, 0.0, 0.0, false, 0)
  }

  // ----- The controller object -----

  /** The controller; its many tracker fields are grouped as the state groups them. */
  class GoalController {
    const config: Config
    var mode: Mode
    var board: Tracker
    var pose: PoseTracker
    var ball: Possession
    var stateEnterSec: real
    var settleUntilSec: real
    var shootYawRad: real
    var fineLatched: bool
    var recoveryVisible: nat

    function View(): State
      reads this
    {
      State(mode, board, pose, ball, stateEnterSec, settleUntilSec, shootYawRad, fineLatched, recoveryVisible)
    }

    constructor (config: Config)
      ensures this.config == config && View() == INITIAL
    {
      this.config := config;
      mode, board, pose := LineFollow, Tracker([], 0, false, NOT_TRACKED, 0.5, false), EMPTY_POSE_TRACKER;
      ball := Possession(false, false, false, false, 0.0, false);
      stateEnterSec, settleUntilSec, shootYawRad := 0.0, 0.0, 0.0;
      fineLatched, recoveryVisible := false, 0;
    }

    method SetHasBall(value: bool)
      modifies `ball
      ensures ball == TakeBall(old(ball), mode, value)
    {
      if !value {
        ball := ball.(hasBall := false, armed := false, lineWaitActive := false);
        if mode.LineFollow? { ball := ball.(consumed := false); }
        return;
      }
      if !ball.consumed { ball := ball.(hasBall := true); }
    }

    method TakeBallState(ballHeld: bool, ballInLineFollow: bool)
      modifies `ball
      ensures ball == UpdateBallState(old(ball), mode, ballHeld, ballInLineFollow)
    {
      SetHasBall(ballHeld);
      ball := ball.(armed := ball.hasBall && !ball.consumed && ballInLineFollow);
      if !ball.armed { ball := ball.(lineWaitActive := false); }
    }

    method StartCarrying()
      modifies `ball
      ensures View() == StartAfterPickup(old(View()))
    {
      SetHasBall(true);
      ball := ball.(armed := true);
    }

    method UpdateGoalTracker(target: Option<ObjectTarget>, width: int, height: int)
      modifies `board
      ensures board == Track(config, old(board), mode, target, width, height)
    {
      hide Follow, Observed, Push, Count;
      var detected := target.Some? && width > 1 && height > 1;
      var hitHistory := PushBounded(board.hits, detected, config.stableWindow);
      board := board.(hits := hitHistory);
      if detected {
        var tracked := Follow(config, board.hasSmoothed, board.tracked, Observed(target.value, width, height));
        board := board.(lost := 0, tracked := tracked, hasSmoothed := true, lastSeenU := tracked.u);
      } else {
        board := board.(lost := board.lost + 1, tracked := board.tracked.(visible := false));
      }
      var hits := CountHits(board.hits);
      var stable := hits >= Max(1, config.stableMinHits);
      board := board.(tracked := board.tracked.(stable := stable));
      if detected && stable && !mode.LineFollow? { board := board.(seenAfterCamera := true); }
    }

    method UpdatePoseTracker(backboard: Option<ObjectTarget>, observation: PoseObservation)
      modifies `pose
      ensures pose == TrackPose(config, old(pose), backboard, observation)
    {
      hide FollowPose, Push, Count;
      var detected := backboard.Some? && observation.valid && observation.z > 0.0;
      var hitHistory := PushBounded(pose.hits, detected, config.stableWindow);
      var fineEnter := PushBounded(pose.fineEnter, detected && observation.z <= config.fineAdjustStartZM, config.stableWindow);
      pose := pose.(hits := hitHistory, fineEnter := fineEnter);
      if detected {
        var tracked := FollowPose(config, pose.hasSmoothed, pose.tracked, observation);
        pose := pose.(lost := 0, tracked := tracked, hasSmoothed := true);
      } else {
        pose := pose.(lost := pose.lost + 1, tracked := pose.tracked.(visible := false));
      }
      var hits := CountHits(pose.hits);
      pose := pose.(tracked := pose.tracked.(stable := hits >= Max(1, config.stableMinHits)));
    }

    method ClearObservationHistory()
      modifies `board, `pose
      ensures View() == ClearTracking(old(View()))
    {
      board := board.(hits := [], lost := 0, hasSmoothed := false, tracked := NOT_TRACKED);
      pose := EMPTY_POSE_TRACKER;
    }

    method Reset()
      modifies this
      ensures View() == ResetState(config, old(View()))
    {
      mode, stateEnterSec, settleUntilSec, shootYawRad := LineFollow, 0.0, 0.0, 0.0;
      ball := ball.(hasBall := false, consumed := false, armed := false, lineWaitActive := false, triggerLatched := false);
      fineLatched, recoveryVisible := false, 0;
      board := board.(lastSeenU := config.targetUNorm, seenAfterCamera := false);
      ClearObservationHistory();
    }

    method Observe(backboard: Option<ObjectTarget>, observation: PoseObservation, width: int, height: int)
      modifies `board, `pose
      ensures View() == ObserveOnly(config, old(View()), backboard, observation, width, height)
    {
      hide Track, TrackPose;
      if !CameraMoving(mode) {
        UpdateGoalTracker(backboard, width, height);
        UpdatePoseTracker(backboard, observation);
      }
    }

    method TryEnterGoal(i: Input)
      modifies `mode, `stateEnterSec, `ball
      ensures View() == TryEnter(config, old(View()), i)
    {
      if mode.LineFollow? && ball.hasBall && ball.armed {
        if !i.lineReferenceValid {
          ball := ball.(lineWaitActive := false);
        } else {
          if !ball.lineWaitActive {
            ball := ball.(lineWaitActive := true, lineWaitStartSec := i.nowSec);
          }
          var waited := i.nowSec - ball.lineWaitStartSec >= config.postPickupWaitSec;
          ball := ball.(triggerLatched := ball.triggerLatched || waited);
          if ball.triggerLatched && (!i.execution.active || i.execution.done) {
            mode, stateEnterSec := WaitCameraGoal, i.nowSec;
          }
        }
      }
    }

    method DoWaitCameraGoal(i: Input) returns (result: Result)
      requires mode.WaitCameraGoal?
      modifies this
      ensures Step(View(), result) == WaitCameraGoalStep(config, old(View()), i)
    {
      result := BaseResult(config, View()).(camera := CameraGoal);
      if i.camera.actualMode.GoalView? && i.camera.settled {
        mode := Search;
        ClearObservationHistory();
        board := board.(lastSeenU := config.targetUNorm, seenAfterCamera := false);
        recoveryVisible := 0;
        result := result.(mode := mode, camera := NoCamera, tracked := NOT_TRACKED, pose := NO_POSE);
      } else if i.nowSec - stateEnterSec >= config.cameraMotionTimeoutSec {
        mode := Failed;
        result := result.(mode := mode, camera := NoCamera);
      }
    }

    method DoSearch(i: Input) returns (result: Result)
      requires mode.Search?
      modifies `mode, `stateEnterSec, `recoveryVisible, `settleUntilSec
      ensures Step(View(), result) == SearchStep(config, old(View()), i)
    {
      result := BaseResult(config, View());
      if !board.tracked.visible && board.lost >= Max(1, config.lostFrames) && Directional(config, board) {
        mode, stateEnterSec, recoveryVisible, settleUntilSec := RecoverySearch, i.nowSec, 0, i.nowSec;
        result := result.(mode := mode);
        return;
      }
      if PoseReady(config, pose) {
        mode, settleUntilSec := FineAdjust, i.nowSec + config.fineSettleDurationSec;
        result := result.(mode := mode);
      } else if board.tracked.stable && board.tracked.visible {
        mode := Approach;
        result := result.(mode := mode, action := CruiseRequest(config, true, board.tracked.u));
      }
    }

    method DoApproach(i: Input) returns (result: Result)
      requires mode.Approach?
      modifies this
      ensures Step(View(), result) == ApproachStep(config, old(View()), i)
    {
      result := BaseResult(config, View());
      fineLatched := fineLatched || PoseReady(config, pose);
      if fineLatched {
        if i.execution.active && !i.execution.done { return; }
        mode, settleUntilSec := FineAdjust, i.nowSec + config.fineSettleDurationSec;
        result := result.(mode := mode);
        return;
      }
      if board.lost >= Max(1, config.lostFrames) {
        if Directional(config, board) {
          mode, stateEnterSec, recoveryVisible, settleUntilSec := RecoverySearch, i.nowSec, 0, i.nowSec;
        } else {
          mode := Search;
        }
        ClearObservationHistory();
        result := result.(mode := mode);
        return;
      }
      result := result.(action := CruiseRequest(config, board.tracked.visible, board.tracked.u));
    }

    method DoFineAdjust(i: Input) returns (result: Result)
      requires mode.FineAdjust?
      modifies `mode, `settleUntilSec, `fineLatched, `shootYawRad
      ensures Step(View(), result) == FineAdjustStep(config, old(View()), i)
    {
      result := BaseResult(config, View());
      if i.execution.active && !i.execution.done { return; }
      if i.execution.done {
        settleUntilSec := i.nowSec + config.fineSettleDurationSec;
        return;
      }
      if i.nowSec + EPSILON < settleUntilSec { return; }
      if pose.lost >= Max(1, config.lostFrames) {
        mode := if board.tracked.visible then Approach else Search;
        result := result.(mode := mode);
        fineLatched := false;
        return;
      }
      result := result.(action := FineAction(config, i.pose));
      if result.action.action.Shoot? {
        shootYawRad := ShootYaw(config, i.pose.x, i.pose.z, i.pose.yaw);
        mode := Shooting;
        result := result.(mode := mode, shootYawRad := shootYawRad);
      }
    }

    method DoShooting(i: Input) returns (result: Result)
      requires mode.Shooting?
      modifies `mode, `ball
      ensures Step(View(), result) == ShootingStep(config, old(View()), i)
    {
      result := BaseResult(config, View()).(action := ShootRequest(shootYawRad));
      if i.execution.done {
        ball := ball.(hasBall := false, consumed := true);
        mode := ReturnCamera;
        result := result.(mode := mode, action := NO_REQUEST, camera := CameraForward);
      }
    }

    method DoReturn(i: Input) returns (result: Result)
      requires mode.ReturnCamera? || mode.HeadingRecovery?
      modifies `mode
      ensures Step(View(), result) == if old(mode).ReturnCamera? then ReturnCameraStep(config, old(View()), i)
                                      else HeadingRecoveryStep(config, old(View()), i)
    {
      result := BaseResult(config, View());
      if mode.ReturnCamera? {
        result := result.(camera := CameraForward);
        if i.camera.actualMode.ForwardView? && i.camera.settled {
          mode := HeadingRecovery;
          result := result.(mode := mode, active := false, camera := NoCamera);
        }
      } else if i.lineReferenceValid {
        mode := LineFollow;
        result := IDLE_RESULT;
      }
    }

    method DoRecoverySearch(i: Input) returns (result: Result)
      requires mode.RecoverySearch?
      modifies `mode, `settleUntilSec, `recoveryVisible
      ensures Step(View(), result) == RecoverySearchStep(config, old(View()), i)
    {
      result := BaseResult(config, View());
      if i.execution.active && !i.execution.done { return; }
      if i.execution.done {
        settleUntilSec := i.nowSec + config.recoverySettleDurationSec;
        return;
      }
      if i.nowSec + EPSILON < settleUntilSec { return; }
      recoveryVisible := if board.tracked.visible then recoveryVisible + 1 else 0;
      if recoveryVisible >= Max(1, config.recoveryReacquireMinHits) {
        mode := Search;
        result := result.(mode := mode);
        return;
      }
      if i.nowSec - stateEnterSec >= config.recoveryTimeoutSec {
        mode := Failed;
        result := result.(mode := mode);
        return;
      }
      if !board.tracked.visible {
        result := result.(action := SearchRecoveryAction(config, board.lastSeenU));
      }
    }

    method StepMode(i: Input) returns (result: Result)
      modifies this
      ensures Step(View(), result) == ModeStep(config, old(View()), i)
    {
      match mode {
        case LineFollow => result := BaseResult(config, View());
        case WaitCameraGoal => result := DoWaitCameraGoal(i);
        case Search => result := DoSearch(i);
        case Approach => result := DoApproach(i);
        case FineAdjust => result := DoFineAdjust(i);
        case Shooting => result := DoShooting(i);
        case ReturnCamera => result := DoReturn(i);
        case HeadingRecovery => result := DoReturn(i);
        case Failed => result := BaseResult(config, View());
        case RecoverySearch => result := DoRecoverySearch(i);
      }
    }

    method Process(i: Input) returns (result: Result)
      modifies this
      ensures Step(View(), result) == Compute(config, old(View()), i)
    {
      Observe(i.backboard, i.pose, i.width, i.height);
      TryEnterGoal(i);
      result := StepMode(i);
    }
  }
}
