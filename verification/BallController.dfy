/** The BALL mission: approach, camera down, fine alignment, pick, verify, return. */
module BallController {
  import opened Types
  import opened SlidingWindow
  import opened CruiseSelector

  datatype Mode =
    | LineFollow
    | Approach
    | WaitCameraDown
    | FineAdjust
    | Pickup
    | VerifyPickup
    | VerifyObservation
    | StandUp
    | BackAway
    | ReturnCamera
    | LineRecovery
    | RecoveryForward
    | RecoveryDown
    | Failed

  datatype Config = Config(
    stableWindow: int,
    stableMinHits: int,
    lostFrames: int,
    smoothAlpha: real,
    farUDesNorm: real,
    approachUDeadband: real,
    upperAcquireVNorm: real,
    tiltDownVNorm: real,
    tiltDownWindow: int,
    tiltDownMinHits: int,
    pickupMaxAttempts: int,
    ballIgnoreDurationSec: real,
    fineTargetUNorm: real,
    fineTargetVNorm: real,
    fineUDeadband: real,
    fineVDeadband: real,
    fineSettleDurationSec: real,
    recoveryTimeoutSec: real,
    recoveryReacquireMinHits: int,
    recoveryCenterToleranceNorm: real,
    recoverySettleDurationSec: real,
    cameraMotionTimeoutSec: real)

  datatype Tracked = Tracked(
    stable: bool,
    visible: bool,
    center: Point2,
    u: real,
    v: real,
    h: real,
    area: real,
    confidence: real)

  const NOT_TRACKED := Tracked(false, false, Point2(0.0, 0.0), 0.0, 0.0, 0.0, 0.0, 0.0)

  datatype Result = Result(
    active: bool,
    hasBall: bool,
    pickupFailed: bool,
    attempts: nat,
    camera: CameraRequest,
    mode: Mode,
    tracked: Tracked,
    action: ActionRequest)

  const IDLE_RESULT := Result(false, false, false, 0, NoCamera, LineFollow, NOT_TRACKED, NO_REQUEST)

  /** Everything ClearTracking discards, and the last seen position it keeps. */
  datatype Tracker = Tracker(
    hits: seq<bool>,
    upper: seq<bool>,
    tilt: seq<bool>,
    lost: nat,
    recoveryVisible: nat,
    hasSmoothed: bool,
    tracked: Tracked,
    lastSeenU: real)

  datatype State = State(
    mode: Mode,
    tracker: Tracker,
    stateEnterSec: real,
    settleUntilSec: real,
    ignoreUntilSec: real,
    triggerLatched: bool,
    backAwayIssued: bool,
    hasBall: bool,
    pickupFailed: bool,
    attempts: nat)

  datatype Step = Step(state: State, result: Result)

  /** One camera frame as the controller sees it. */
  datatype Input = Input(
    target: Option<ObjectTarget>,
    width: int,
    height: int,
    nowSec: real,
    camera: CameraFeedback,
    execution: ActionExecution)

  const INITIAL := State(LineFollow, Tracker([], [], [], 0, 0, false, NOT_TRACKED, 0.5), 0.0, 0.0, 0.0, false, false, false, false, 0)

  // ----- Tracking -----

  predicate Detected(target: Option<ObjectTarget>, width: int, height: int) {
    target.Some? && width > 1 && height > 1
  }

  function Observed(target: ObjectTarget, width: int, height: int): Tracked {
    var center := if target.centerRectified then target.rectifiedCenter else target.center;
    Tracked(false, true, center,
            Clamp(center.u / Denom(width as real), 0.0, 1.0),
            Clamp(center.v / Denom(height as real), 0.0, 1.0),
            Clamp(target.heightPx / Denom(height as real), 0.0, 1.0),
            Clamp(target.areaPx / Denom(width as real * height as real), 0.0, 1.0),
            target.confidence)
  }

  function Follow(config: Config, t: Tracker, observed: Tracked): Tracked {
    if !t.hasSmoothed then observed
    else observed.(stable := t.tracked.stable,
                   u := Smooth(t.tracked.u, observed.u, config.smoothAlpha),
                   v := Smooth(t.tracked.v, observed.v, config.smoothAlpha),
                   h := Smooth(t.tracked.h, observed.h, config.smoothAlpha))
  }

  predicate IsUpper(config: Config, target: Option<ObjectTarget>, width: int, height: int) {
    Detected(target, width, height) && target.value.center.v / Denom(height as real) <= config.upperAcquireVNorm
  }

  predicate IsLow(config: Config, target: Option<ObjectTarget>, width: int, height: int) {
    Detected(target, width, height) && target.value.center.v / Denom(height as real) >= config.tiltDownVNorm
  }

  function Track(config: Config, t: Tracker, target: Option<ObjectTarget>, width: int, height: int): Tracker {
    var detected := Detected(target, width, height);
    var hits := Push(t.hits, detected, config.stableWindow);
    var tracked := if detected then Follow(config, t, Observed(target.value, width, height))
                   else t.tracked.(visible := false);
    Tracker(hits,
            Push(t.upper, IsUpper(config, target, width, height), config.stableWindow),
            Push(t.tilt, IsLow(config, target, width, height), config.tiltDownWindow),
            if detected then 0 else t.lost + 1,
            t.recoveryVisible,
            t.hasSmoothed || detected,
            tracked.(stable := Count(hits) >= Max(1, config.stableMinHits)),
            if detected then tracked.u else t.lastSeenU)
  }

  function ClearTracking(t: Tracker): Tracker {
    Tracker([], [], [], 0, 0, false, NOT_TRACKED, t.lastSeenU)
  }

  // ----- Actions -----

  function FarAction(config: Config, t: Tracked): ActionRequest {
    Locomotion(CruiseAction(SelectCruiseDecision(true, t.visible, t.u - config.farUDesNorm, config.approachUDeadband).direction), 0)
  }

  function FineAction(config: Config, t: Tracked): ActionRequest {
    if !t.visible then NO_REQUEST
    else if t.u - config.fineTargetUNorm < -config.fineUDeadband then Locomotion(LeftSideStep, 0)
    else if t.u - config.fineTargetUNorm > config.fineUDeadband then Locomotion(RightSideStep, 0)
    else if t.v - config.fineTargetVNorm < -config.fineVDeadband then Locomotion(StepForwardHalf, 0)
    else if t.v - config.fineTargetVNorm > config.fineVDeadband then Locomotion(StepBack, 0)
    else MissionRequest(PickBall, 0)
  }

  function RecoveryAction(config: Config, lastSeenU: real): ActionRequest {
    var error := lastSeenU - config.farUDesNorm;
    if AbsReal(error) <= config.recoveryCenterToleranceNorm then NO_REQUEST
    else Locomotion(if error < 0.0 then TurnLeft else TurnRight, 15)
  }

  // ----- The mode machine -----

  predicate CameraMoving(mode: Mode) { mode.WaitCameraDown? || mode.ReturnCamera? }

  function BaseResult(s: State): Result {
    Result(!s.mode.LineFollow? && !s.mode.LineRecovery?, s.hasBall, s.pickupFailed, s.attempts,
           NoCamera, s.mode, s.tracker.tracked, NO_REQUEST)
  }

  predicate Acquired(config: Config, s: State) {
    && s.mode.LineFollow? && s.tracker.tracked.stable && s.tracker.tracked.visible
    && Count(s.tracker.upper) >= Max(1, config.stableMinHits)
  }

  function Acquire(config: Config, s: State, nowSec: real): State {
    if Acquired(config, s)
    then s.(mode := Approach, stateEnterSec := nowSec, attempts := 0, pickupFailed := false, hasBall := false)
    else s
  }

  function EnterRecovery(s: State, mode: Mode, nowSec: real): State {
    s.(mode := mode, stateEnterSec := nowSec, tracker := s.tracker.(recoveryVisible := 0))
  }

  function ApproachStep(config: Config, s: State, i: Input): Step {
    var r := BaseResult(s);
    if s.tracker.lost >= Max(1, config.lostFrames) then
      Step(EnterRecovery(s, RecoveryForward, i.nowSec), r.(mode := RecoveryForward))
    else
      var s := s.(triggerLatched := s.triggerLatched || Count(s.tracker.tilt) >= Max(1, config.tiltDownMinHits));
      if !s.triggerLatched then Step(s, r.(action := FarAction(config, s.tracker.tracked)))
      else if Busy(i.execution) then Step(s, r)
      else Step(s.(mode := WaitCameraDown, stateEnterSec := i.nowSec), r.(mode := WaitCameraDown, camera := CameraDown))
  }

  function WaitCameraDownStep(config: Config, s: State, i: Input): Step {
    var r := BaseResult(s);
    if i.camera.actualMode.DownView? && i.camera.settled then
      Step(s.(mode := FineAdjust, tracker := ClearTracking(s.tracker).(lastSeenU := config.farUDesNorm),
              settleUntilSec := i.nowSec + config.fineSettleDurationSec),
           r.(mode := FineAdjust, tracked := NOT_TRACKED))
    else if i.nowSec - s.stateEnterSec >= config.cameraMotionTimeoutSec then
      Step(s.(mode := Failed), r.(mode := Failed))
    else
      Step(s, r.(camera := CameraDown))
  }

  function FineAdjustStep(config: Config, s: State, i: Input): Step {
    var r := BaseResult(s);
    if Busy(i.execution) then Step(s, r)
    else if i.execution.done then Step(s.(settleUntilSec := i.nowSec + config.fineSettleDurationSec), r)
    else if i.nowSec + EPSILON < s.settleUntilSec then Step(s, r)
    else if s.tracker.lost >= Max(1, config.lostFrames) then
      Step(EnterRecovery(s, RecoveryDown, i.nowSec), r.(mode := RecoveryDown))
    else
      var action := FineAction(config, s.tracker.tracked);
      if action.action.PickBall? then
        Step(s.(mode := Pickup, attempts := s.attempts + 1), r.(mode := Pickup, attempts := s.attempts + 1, action := action))
      else
        Step(s, r.(action := action))
  }

  function PickupStep(s: State, i: Input): Step {
    if i.execution.done then
      Step(s.(mode := VerifyPickup, tracker := ClearTracking(s.tracker)),
           BaseResult(s).(mode := VerifyPickup, action := MissionRequest(Recatch, 0)))
    else
      Step(s, BaseResult(s).(action := MissionRequest(PickBall, 0)))
  }

  function VerifyPickupStep(s: State, i: Input): Step {
    if i.execution.done then
      Step(s.(mode := VerifyObservation, tracker := ClearTracking(s.tracker)), BaseResult(s).(mode := VerifyObservation))
    else
      Step(s, BaseResult(s).(action := MissionRequest(Recatch, 0)))
  }

  function VerifyObservationStep(config: Config, s: State, i: Input): Step {
    var r := BaseResult(s);
    if |s.tracker.hits| < Max(1, config.stableWindow) then Step(s, r)
    else if Count(s.tracker.hits) < Max(1, config.stableMinHits) then
      Step(s.(mode := StandUp, hasBall := true),
           r.(mode := StandUp, hasBall := true, action := MissionRequest(DefaultPosition, 0)))
    else if s.attempts < Max(1, config.pickupMaxAttempts) then
      Step(s.(mode := FineAdjust, tracker := ClearTracking(s.tracker), settleUntilSec := i.nowSec + config.fineSettleDurationSec),
           r.(mode := FineAdjust))
    else
      Step(s.(mode := StandUp, pickupFailed := true),
           r.(mode := StandUp, pickupFailed := true, action := MissionRequest(DefaultPosition, 0)))
  }

  function StandUpStep(s: State, i: Input): Step {
    var r := BaseResult(s);
    if !i.execution.done then Step(s, r.(action := MissionRequest(DefaultPosition, 0)))
    else if s.hasBall then
      Step(s.(mode := BackAway, backAwayIssued := true), r.(mode := BackAway, action := Locomotion(StepBack, 0)))
    else
      Step(s.(mode := ReturnCamera), r.(mode := ReturnCamera, camera := CameraForward))
  }

  function BackAwayStep(s: State, i: Input): Step {
    var r := BaseResult(s);
    if i.execution.done && s.backAwayIssued then
      Step(s.(mode := ReturnCamera), r.(mode := ReturnCamera, camera := CameraForward))
    else
      Step(s.(backAwayIssued := true), r.(action := Locomotion(StepBack, 0)))
  }

  function ReturnCameraStep(s: State, i: Input): Step {
    var r := BaseResult(s);
    if i.camera.actualMode.ForwardView? && i.camera.settled then
      Step(s.(mode := LineRecovery), r.(mode := LineRecovery, active := false))
    else
      Step(s, r.(camera := CameraForward))
  }

  function RecoveryStep(config: Config, s: State, i: Input): Step {
    var r := BaseResult(s);
    if Busy(i.execution) then Step(s, r)
    else if i.execution.done then Step(s.(settleUntilSec := i.nowSec + config.recoverySettleDurationSec), r)
    else if i.nowSec + EPSILON < s.settleUntilSec then Step(s, r)
    else
      var seen := if s.tracker.tracked.visible then s.tracker.recoveryVisible + 1 else 0;
      var s := s.(tracker := s.tracker.(recoveryVisible := seen));
      if seen >= Max(1, config.recoveryReacquireMinHits) then
        var mode := if s.mode.RecoveryDown? then FineAdjust else Approach;
        Step(s.(mode := mode, settleUntilSec := i.nowSec + config.fineSettleDurationSec), r.(mode := mode))
      else if i.nowSec - s.stateEnterSec >= config.recoveryTimeoutSec then
        Step(s.(mode := Failed), r.(mode := Failed))
      else
        Step(s, r.(action := RecoveryAction(config, s.tracker.lastSeenU)))
  }

  function ModeStep(config: Config, s: State, i: Input): Step {
    match s.mode
    case LineFollow => Step(s, BaseResult(s))
    case Approach => ApproachStep(config, s, i)
    case WaitCameraDown => WaitCameraDownStep(config, s, i)
    case FineAdjust => FineAdjustStep(config, s, i)
    case Pickup => PickupStep(s, i)
    case VerifyPickup => VerifyPickupStep(s, i)
    case VerifyObservation => VerifyObservationStep(config, s, i)
    case StandUp => StandUpStep(s, i)
    case BackAway => BackAwayStep(s, i)
    case ReturnCamera => ReturnCameraStep(s, i)
    case LineRecovery => Step(s, BaseResult(s))
    case RecoveryForward => RecoveryStep(config, s, i)
    case RecoveryDown => RecoveryStep(config, s, i)
    case Failed => Step(s, BaseResult(s))
  }

  predicate Ignoring(s: State, nowSec: real) {
    s.mode.LineFollow? && (s.hasBall || nowSec < s.ignoreUntilSec)
  }

  /** No evidence is gathered while the camera moves. */
  function ObserveOnly(config: Config, s: State, target: Option<ObjectTarget>, width: int, height: int): State {
    if CameraMoving(s.mode) then s else s.(tracker := Track(config, s.tracker, target, width, height))
  }

  function Compute(config: Config, s: State, i: Input): Step {
    if Ignoring(s, i.nowSec) then Step(s, IDLE_RESULT.(hasBall := s.hasBall))
    else ModeStep(config, Acquire(config, ObserveOnly(config, s, i.target, i.width, i.height), i.nowSec), i)
  }

  function ClearHistory(s: State): State { s.(tracker := ClearTracking(s.tracker)) }

  function ClearEntryEvidence(s: State): State { if s.mode.LineFollow? then ClearHistory(s) else s }

  function CompleteLineRecovery(config: Config, s: State, nowSec: real): State {
    if !s.mode.LineRecovery? then s
    else s.(mode := LineFollow, stateEnterSec := 0.0, settleUntilSec := 0.0, triggerLatched := false, backAwayIssued := false,
            ignoreUntilSec := nowSec + config.ballIgnoreDurationSec, tracker := ClearTracking(s.tracker))
  }

  // ----- The controller object -----

  /** The controller; what ClearTracking discards is grouped in `tracker`. */
  class BallController {
    const config: Config
    var mode: Mode
    var tracker: Tracker
    var stateEnterSec: real
    var settleUntilSec: real
    var ignoreUntilSec: real
    var triggerLatched: bool
    var backAwayIssued: bool
    var hasBall: bool
    var pickupFailed: bool
    var attempts: nat

    function View(): State
      reads this
    {
      State(mode, tracker, stateEnterSec, settleUntilSec, ignoreUntilSec, triggerLatched, backAwayIssued,
            hasBall, pickupFailed, attempts)
    }

    constructor (config: Config)
      ensures this.config == config && View() == INITIAL
    {
      this.config := config;
      mode, tracker := LineFollow, Tracker([], [], [], 0, 0, false, NOT_TRACKED, 0.5);
      stateEnterSec, settleUntilSec, ignoreUntilSec := 0.0, 0.0, 0.0;
      triggerLatched, backAwayIssued, hasBall, pickupFailed, attempts := false, false, false, false, 0;
    }

    method FollowTarget(target: ObjectTarget, width: int, height: int)
      modifies `tracker
      ensures tracker == old(tracker).(lost := 0, hasSmoothed := true, lastSeenU := tracker.tracked.u,
                                       tracked := Follow(config, old(tracker), Observed(target, width, height)))
    {
      var observed := Observed(target, width, height);
      if !tracker.hasSmoothed {
        tracker := tracker.(tracked := observed, hasSmoothed := true);
      } else {
        var t := tracker.tracked;
        tracker := tracker.(tracked := observed.(stable := t.stable,
                                                 u := Smooth(t.u, observed.u, config.smoothAlpha),
                                                 v := Smooth(t.v, observed.v, config.smoothAlpha),
                                                 h := Smooth(t.h, observed.h, config.smoothAlpha)));
      }
      tracker := tracker.(lost := 0, lastSeenU := tracker.tracked.u);
    }

    /** The two histories that look at the raw, unrectified row of the ball. */
    method RecordPlacement(target: Option<ObjectTarget>, width: int, height: int)
      modifies `tracker
      ensures tracker == old(tracker).(
                           upper := Push(old(tracker).upper, IsUpper(config, target, width, height), config.stableWindow),
                           tilt := Push(old(tracker).tilt, IsLow(config, target, width, height), config.tiltDownWindow))
    {
      var detected := target.Some? && width > 1 && height > 1;
      var high := detected && target.value.center.v / Denom(height as real) <= config.upperAcquireVNorm;
      var upper := PushBounded(tracker.upper, high, config.stableWindow);
      var low := detected && target.value.center.v / Denom(height as real) >= config.tiltDownVNorm;
      var tilt := PushBounded(tracker.tilt, low, config.tiltDownWindow);
      tracker := tracker.(upper := upper, tilt := tilt);
    }

    method UpdateTracker(target: Option<ObjectTarget>, width: int, height: int)
      modifies `tracker
      ensures tracker == Track(config, old(tracker), target, width, height)
    {
      hide Push, Count, Observed, Smooth;
      var detected := target.Some? && width > 1 && height > 1;
      var hitHistory := PushBounded(tracker.hits, detected, config.stableWindow);
      tracker := tracker.(hits := hitHistory);
      if detected {
        FollowTarget(target.value, width, height);
      } else {
        tracker := tracker.(lost := tracker.lost + 1, tracked := tracker.tracked.(visible := false));
      }
      var hits := CountHits(tracker.hits);
      tracker := tracker.(tracked := tracker.tracked.(stable := hits >= Max(1, config.stableMinHits)));
      RecordPlacement(target, width, height);
    }

    method ClearObservationHistory()
      modifies `tracker
      ensures tracker == ClearTracking(old(tracker))
    {
      tracker := tracker.(hits := [], upper := [], tilt := [], lost := 0, recoveryVisible := 0,
                          hasSmoothed := false, tracked := NOT_TRACKED);
    }

    method ResetToLine()
      modifies this
      ensures View() == old(View()).(mode := LineFollow, stateEnterSec := 0.0, settleUntilSec := 0.0, triggerLatched := false,
                                     backAwayIssued := false, tracker := ClearTracking(old(tracker)))
    {
      ClearObservationHistory();
      mode, stateEnterSec, settleUntilSec := LineFollow, 0.0, 0.0;
      triggerLatched, backAwayIssued := false, false;
    }

    method Observe(target: Option<ObjectTarget>, width: int, height: int)
      modifies `tracker
      ensures View() == ObserveOnly(config, old(View()), target, width, height)
    {
      if !CameraMoving(mode) {
        UpdateTracker(target, width, height);
      }
    }

    method TryAcquire(nowSec: real)
      modifies `mode, `stateEnterSec, `attempts, `pickupFailed, `hasBall
      ensures View() == Acquire(config, old(View()), nowSec)
    {
      if mode.LineFollow? {
        var upperHits := CountHits(tracker.upper);
        if tracker.tracked.stable && tracker.tracked.visible && upperHits >= Max(1, config.stableMinHits) {
          mode := Approach;
          stateEnterSec := nowSec;
          attempts := 0;
          pickupFailed := false;
          hasBall := false;
        }
      }
    }

    method DoApproach(i: Input) returns (result: Result)
      requires mode.Approach?
      modifies `mode, `stateEnterSec, `tracker, `triggerLatched
      ensures Step(View(), result) == ApproachStep(config, old(View()), i)
    {
      result := BaseResult(View());
      if tracker.lost >= Max(1, config.lostFrames) {
        mode, stateEnterSec, tracker := RecoveryForward, i.nowSec, tracker.(recoveryVisible := 0);
        result := result.(mode := mode);
        return;
      }
      var tiltHits := CountHits(tracker.tilt);
      triggerLatched := triggerLatched || tiltHits >= Max(1, config.tiltDownMinHits);
      if triggerLatched {
        if i.execution.active && !i.execution.done { return; }
        mode, stateEnterSec := WaitCameraDown, i.nowSec;
        result := result.(mode := mode, camera := CameraDown);
        return;
      }
      result := result.(action := FarAction(config, tracker.tracked));
    }

    method DoWaitCameraDown(i: Input) returns (result: Result)
      requires mode.WaitCameraDown?
      modifies this
      ensures Step(View(), result) == WaitCameraDownStep(config, old(View()), i)
    {
      result := BaseResult(View()).(camera := CameraDown);
      if i.camera.actualMode.DownView? && i.camera.settled {
        ClearObservationHistory();
        tracker := tracker.(lastSeenU := config.farUDesNorm);
        mode := FineAdjust;
        settleUntilSec := i.nowSec + config.fineSettleDurationSec;
        result := result.(tracked := NOT_TRACKED, mode := mode, camera := NoCamera);
      } else if i.nowSec - stateEnterSec >= config.cameraMotionTimeoutSec {
        mode := Failed;
        result := result.(mode := mode, camera := NoCamera);
      }
    }

    method DoFineAdjust(i: Input) returns (result: Result)
      requires mode.FineAdjust?
      modifies `mode, `stateEnterSec, `tracker, `settleUntilSec, `attempts
      ensures Step(View(), result) == FineAdjustStep(config, old(View()), i)
    {
      result := BaseResult(View());
      if i.execution.active && !i.execution.done { return; }
      if i.execution.done {
        settleUntilSec := i.nowSec + config.fineSettleDurationSec;
        return;
      }
      if i.nowSec + EPSILON < settleUntilSec { return; }
      if tracker.lost >= Max(1, config.lostFrames) {
        mode, stateEnterSec, tracker := RecoveryDown, i.nowSec, tracker.(recoveryVisible := 0);
        result := result.(mode := mode);
        return;
      }
      result := result.(action := FineAction(config, tracker.tracked));
      if result.action.action.PickBall? {
        attempts := attempts + 1;
        mode := Pickup;
        result := result.(attempts := attempts, mode := mode);
      }
    }

    method DoVerify(i: Input) returns (result: Result)
      requires mode.Pickup? || mode.VerifyPickup?
      modifies this
      ensures Step(View(), result) == if old(mode).Pickup? then PickupStep(old(View()), i) else VerifyPickupStep(old(View()), i)
    {
      result := BaseResult(View());
      if mode.Pickup? {
        result := result.(action := MissionRequest(PickBall, 0));
        if i.execution.done {
          mode := VerifyPickup;
          ClearObservationHistory();
          result := result.(mode := mode, action := MissionRequest(Recatch, 0));
        }
      } else {
        result := result.(action := MissionRequest(Recatch, 0));
        if i.execution.done {
          mode := VerifyObservation;
          ClearObservationHistory();
          result := result.(mode := mode, action := NO_REQUEST);
        }
      }
    }

    method DoVerifyObservation(i: Input) returns (result: Result)
      requires mode.VerifyObservation?
      modifies this
      ensures Step(View(), result) == VerifyObservationStep(config, old(View()), i)
    {
      result := BaseResult(View());
      if |tracker.hits| < Max(1, config.stableWindow) { return; }
      var hits := CountHits(tracker.hits);
      if hits < Max(1, config.stableMinHits) {
        hasBall, mode := true, StandUp;
        result := result.(mode := mode, hasBall := true, action := MissionRequest(DefaultPosition, 0));
      } else if attempts < Max(1, config.pickupMaxAttempts) {
        ClearObservationHistory();
        mode, settleUntilSec := FineAdjust, i.nowSec + config.fineSettleDurationSec;
        result := result.(mode := mode);
      } else {
        pickupFailed, mode := true, StandUp;
        result := result.(pickupFailed := true, mode := mode, action := MissionRequest(DefaultPosition, 0));
      }
    }

    method DoReturn(i: Input) returns (result: Result)
      requires mode.StandUp? || mode.BackAway? || mode.ReturnCamera?
      modifies `mode, `backAwayIssued
      ensures Step(View(), result) == match old(mode)
                                      case StandUp => StandUpStep(old(View()), i)
                                      case BackAway => BackAwayStep(old(View()), i)
                                      case _ => ReturnCameraStep(old(View()), i)
    {
      result := BaseResult(View());
      if mode.StandUp? {
        result := result.(action := MissionRequest(DefaultPosition, 0));
        if i.execution.done && hasBall {
          mode := BackAway;
          result := result.(mode := mode, action := Locomotion(StepBack, 0));
          backAwayIssued := true;
        } else if i.execution.done {
          mode := ReturnCamera;
          result := result.(mode := mode, action := NO_REQUEST, camera := CameraForward);
        }
      } else if mode.BackAway? {
        if i.execution.done && backAwayIssued {
          mode := ReturnCamera;
          result := result.(mode := mode, camera := CameraForward);
          return;
        }
        result := result.(action := Locomotion(StepBack, 0));
        backAwayIssued := true;
      } else {
        result := result.(camera := CameraForward);
        if i.camera.actualMode.ForwardView? && i.camera.settled {
          mode := LineRecovery;
          result := result.(mode := mode, active := false, camera := NoCamera);
        }
      }
    }

    method DoRecovery(i: Input) returns (result: Result)
      requires mode.RecoveryForward? || mode.RecoveryDown?
      modifies `mode, `settleUntilSec, `tracker
      ensures Step(View(), result) == RecoveryStep(config, old(View()), i)
    {
      hide BaseResult, RecoveryAction, Max;
      result := BaseResult(View());
      if i.execution.active && !i.execution.done { return; }
      if i.execution.done {
        settleUntilSec := i.nowSec + config.recoverySettleDurationSec;
        return;
      }
      if i.nowSec + EPSILON < settleUntilSec { return; }
      tracker := tracker.(recoveryVisible := if tracker.tracked.visible then tracker.recoveryVisible + 1 else 0);
      if tracker.recoveryVisible >= Max(1, config.recoveryReacquireMinHits) {
        mode := if mode.RecoveryDown? then FineAdjust else Approach;
        result := result.(mode := mode);
        settleUntilSec := i.nowSec + config.fineSettleDurationSec;
        return;
      }
      if i.nowSec - stateEnterSec >= config.recoveryTimeoutSec {
        mode := Failed;
        result := result.(mode := mode);
        return;
      }
      result := result.(action := RecoveryAction(config, tracker.lastSeenU));
    }

    method StepMode(i: Input) returns (result: Result)
      modifies this
      ensures Step(View(), result) == ModeStep(config, old(View()), i)
    {
      match mode {
        case Approach => result := DoApproach(i);
        case WaitCameraDown => result := DoWaitCameraDown(i);
        case FineAdjust => result := DoFineAdjust(i);
        case Pickup => result := DoVerify(i);
        case VerifyPickup => result := DoVerify(i);
        case VerifyObservation => result := DoVerifyObservation(i);
        case StandUp => result := DoReturn(i);
        case BackAway => result := DoReturn(i);
        case ReturnCamera => result := DoReturn(i);
        case RecoveryForward => result := DoRecovery(i);
        case RecoveryDown => result := DoRecovery(i);
        case LineFollow => result := BaseResult(View());
        case LineRecovery => result := BaseResult(View());
        case Failed => result := BaseResult(View());
      }
    }

    method Process(i: Input) returns (result: Result)
      modifies this
      ensures Step(View(), result) == Compute(config, old(View()), i)
    {
      if mode.LineFollow? && (hasBall || i.nowSec < ignoreUntilSec) {
        result := IDLE_RESULT.(hasBall := hasBall);
        return;
      }
      Observe(i.target, i.width, i.height);
      TryAcquire(i.nowSec);
      result := StepMode(i);
    }

    method ClearEntry()
      modifies this
      ensures View() == ClearEntryEvidence(old(View()))
    {
      if mode.LineFollow? { ClearObservationHistory(); }
    }

    method FinishLineRecovery(nowSec: real)
      modifies this
      ensures View() == CompleteLineRecovery(config, old(View()), nowSec)
    {
      if !mode.LineRecovery? { return; }
      ignoreUntilSec := nowSec + config.ballIgnoreDurationSec;
      ResetToLine();
    }

    method SetHasBall(value: bool)
      modifies `hasBall
      ensures View() == old(View()).(hasBall := value)
    {
      hasBall := value;
    }
  }
}
