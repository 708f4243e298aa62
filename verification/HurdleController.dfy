/** The HURDLE mission: approach, camera down, contact step, cross, return. */
module HurdleController {
  import opened Types
  import opened SlidingWindow

  datatype Mode =
    | LineFollow
    | Approach
    | WaitCameraDown
    | Contact
    | Cross
    | ReturnCamera
    | RecoveryForward
    | Failed

  datatype Config = Config(
    stableWindow: int,
    stableMinHits: int,
    lostFrames: int,
    smoothAlpha: real,
    acquireMinVNorm: real,
    tiltTriggerVNorm: real,
    tiltTriggerWindow: int,
    tiltTriggerMinHits: int,
    hurdleIgnoreDurationSec: real,
    recoveryReacquireMinHits: int,
    recoveryTimeoutSec: real,
    recoveryCenterToleranceNorm: real,
    recoverySettleDurationSec: real,
    cameraMotionTimeoutSec: real)

  datatype Tracked = Tracked(stable: bool, visible: bool, u: real, v: real, h: real, bottom: real, confidence: real)

  const NOT_TRACKED := Tracked(false, false, 0.0, 0.0, 0.0, 0.0, 0.0)

  datatype Result = Result(active: bool, camera: CameraRequest, mode: Mode, tracked: Tracked, action: ActionRequest)

  const IDLE_RESULT := Result(false, NoCamera, LineFollow, NOT_TRACKED, NO_REQUEST)

  datatype Tracker = Tracker(
    hits: seq<bool>,
    acquire: seq<bool>,
    tilt: seq<bool>,
    lost: nat,
    recoveryVisible: nat,
    hasSmoothed: bool,
    tracked: Tracked,
    lastSeenU: real)

  datatype State = State(
    mode: Mode,
    tracker: Tracker,
    stateEnterSec: real,
    settleUntilSec: real,
    ignoreUntilSec: real,
    closeLatched: bool)

  datatype Step = Step(state: State, result: Result)

  datatype Input = Input(
    target: Option<ObjectTarget>,
    width: int,
    height: int,
    nowSec: real,
    camera: CameraFeedback,
    execution: ActionExecution)

  const INITIAL := State(LineFollow, Tracker([], [], [], 0, 0, false, NOT_TRACKED, 0.5), 0.0, 0.0, 0.0, false)

  // ----- Tracking -----

  predicate Detected(target: Option<ObjectTarget>, width: int, height: int) {
    target.Some? && width > 1 && height > 1
  }

  function Observed(target: ObjectTarget, width: int, height: int): Tracked {
    var center := if target.centerRectified then target.rectifiedCenter else target.center;
    Tracked(false, true,
            Clamp(center.u / Denom(width as real), 0.0, 1.0),
            Clamp(center.v / Denom(height as real), 0.0, 1.0),
            Clamp(target.heightPx / Denom(height as real), 0.0, 1.0),
            Clamp((target.boxY + target.boxHeight) / Denom(height as real), 0.0, 1.0),
            target.confidence)
  }

  function Follow(config: Config, t: Tracker, observed: Tracked): Tracked {
    if !t.hasSmoothed then observed
    else observed.(stable := t.tracked.stable,
                   u := Smooth(t.tracked.u, observed.u, config.smoothAlpha),
                   v := Smooth(t.tracked.v, observed.v, config.smoothAlpha))
  }

  /** The raw, unrectified row of the target reaches the threshold. */
  predicate AtLeast(threshold: real, target: Option<ObjectTarget>, width: int, height: int) {
    Detected(target, width, height) && target.value.center.v / Denom(height as real) >= threshold
  }

  function Track(config: Config, t: Tracker, target: Option<ObjectTarget>, width: int, height: int): Tracker {
    var detected := Detected(target, width, height);
    var hits := Push(t.hits, detected, config.stableWindow);
    var tracked := if detected then Follow(config, t, Observed(target.value, width, height))
                   else t.tracked.(visible := false);
    Tracker(hits,
            Push(t.acquire, AtLeast(config.acquireMinVNorm, target, width, height), config.stableWindow),
            Push(t.tilt, AtLeast(config.tiltTriggerVNorm, target, width, height), config.tiltTriggerWindow),
            if detected then 0 else t.lost + 1,
            t.recoveryVisible,
            t.hasSmoothed || detected,
            tracked.(stable := Count(hits) >= Max(1, config.stableMinHits)),
            if detected then Observed(target.value, width, height).u else t.lastSeenU)
  }

  function ClearTracking(t: Tracker): Tracker {
    Tracker([], [], [], 0, 0, false, NOT_TRACKED, t.lastSeenU)
  }

  function RecoveryAction(config: Config, lastSeenU: real): ActionRequest {
    var error := lastSeenU - 0.5;
    if AbsReal(error) <= config.recoveryCenterToleranceNorm then NO_REQUEST
    else Locomotion(if error < 0.0 then TurnLeft else TurnRight, 15)
  }

  // ----- The mode machine -----

  predicate CameraMoving(mode: Mode) { mode.WaitCameraDown? || mode.ReturnCamera? }

  function BaseResult(s: State): Result {
    Result(!s.mode.LineFollow?, NoCamera, s.mode, s.tracker.tracked, NO_REQUEST)
  }

  predicate Acquired(config: Config, s: State) {
    && s.mode.LineFollow? && s.tracker.tracked.stable && s.tracker.tracked.visible
    && Count(s.tracker.acquire) >= Max(1, config.stableMinHits)
  }

  function Acquire(config: Config, s: State, nowSec: real): State {
    if Acquired(config, s) then s.(mode := Approach, stateEnterSec := nowSec) else s
  }

  function ApproachStep(config: Config, s: State, i: Input): Step {
    var r := BaseResult(s);
    if s.tracker.lost >= Max(1, config.lostFrames) then
      Step(s.(mode := RecoveryForward, stateEnterSec := i.nowSec, tracker := s.tracker.(recoveryVisible := 0)),
           r.(mode := RecoveryForward))
    else
      var s := s.(closeLatched := s.closeLatched || Count(s.tracker.tilt) >= Max(1, config.tiltTriggerMinHits));
      if !s.closeLatched then Step(s, r.(action := Locomotion(StepForwardFive, 0)))
      else if Busy(i.execution) then Step(s, r)
      else Step(s.(mode := WaitCameraDown, stateEnterSec := i.nowSec), r.(mode := WaitCameraDown, camera := CameraDown))
  }

  function WaitCameraDownStep(config: Config, s: State, i: Input): Step {
    var r := BaseResult(s);
    if i.camera.actualMode.DownView? && i.camera.settled then
      Step(s.(mode := Contact, tracker := ClearTracking(s.tracker).(lastSeenU := 0.5)),
           r.(mode := Contact, tracked := NOT_TRACKED, action := Locomotion(StepForwardOne, 0)))
    else if i.nowSec - s.stateEnterSec >= config.cameraMotionTimeoutSec then
      Step(s.(mode := Failed), r.(mode := Failed))
    else
      Step(s, r.(camera := CameraDown))
  }

  function ContactStep(s: State, i: Input): Step {
    if i.execution.done then
      Step(s.(mode := Cross), BaseResult(s).(mode := Cross, action := MissionRequest(CrossHurdle, 0)))
    else
      Step(s, BaseResult(s).(action := Locomotion(StepForwardOne, 0)))
  }

  function CrossStep(s: State, i: Input): Step {
    if i.execution.done then
      Step(s.(mode := ReturnCamera), BaseResult(s).(mode := ReturnCamera, camera := CameraForward))
    else
      Step(s, BaseResult(s).(action := MissionRequest(CrossHurdle, 0)))
  }

  function BackToLine(s: State, ignoreUntilSec: real): State {
    State(LineFollow, ClearTracking(s.tracker).(lastSeenU := 0.5), 0.0, 0.0, ignoreUntilSec, false)
  }

  function ReturnCameraStep(config: Config, s: State, i: Input): Step {
    if i.camera.actualMode.ForwardView? && i.camera.settled then
      Step(BackToLine(s, i.nowSec + config.hurdleIgnoreDurationSec), IDLE_RESULT)
    else
      Step(s, BaseResult(s).(camera := CameraForward))
  }

  function RecoveryStep(config: Config, s: State, i: Input): Step {
    var r := BaseResult(s);
    if Busy(i.execution) then Step(s, r)
    else if i.execution.done then Step(s.(settleUntilSec := i.nowSec + config.recoverySettleDurationSec), r)
    else if i.nowSec + EPSILON < s.settleUntilSec then Step(s, r)
    else
      var seen := if s.tracker.tracked.visible then s.tracker.recoveryVisible + 1 else 0;
      var s := s.(tracker := s.tracker.(recoveryVisible := seen));
      if seen >= Max(1, config.recoveryReacquireMinHits) then
        Step(s.(mode := Approach), r.(mode := Approach))
      else if i.nowSec - s.stateEnterSec >= config.recoveryTimeoutSec then
        Step(s.(mode := Failed), r.(mode := Failed))
      else
        Step(s, r.(action := RecoveryAction(config, s.tracker.lastSeenU)))
  }

  function ModeStep(config: Config, s: State, i: Input): Step {
    match s.mode
    case LineFollow => Step(s, BaseResult(s))
    case Approach => ApproachStep(config, s, i)
    case WaitCameraDown => WaitCameraDownStep(config, s, i)
    case Contact => ContactStep(s, i)
    case Cross => CrossStep(s, i)
    case ReturnCamera => ReturnCameraStep(config, s, i)
    case RecoveryForward => RecoveryStep(config, s, i)
    case Failed => Step(s, BaseResult(s))
  }

  predicate Ignoring(s: State, nowSec: real) { s.mode.LineFollow? && nowSec < s.ignoreUntilSec }

  function ObserveOnly(config: Config, s: State, target: Option<ObjectTarget>, width: int, height: int): State {
    if CameraMoving(s.mode) then s else s.(tracker := Track(config, s.tracker, target, width, height))
  }

  function Compute(config: Config, s: State, i: Input): Step {
    if Ignoring(s, i.nowSec) then Step(s, IDLE_RESULT)
    else ModeStep(config, Acquire(config, ObserveOnly(config, s, i.target, i.width, i.height), i.nowSec), i)
  }

  function ClearHistory(s: State): State { s.(tracker := ClearTracking(s.tracker)) }

  function ResetState(s: State): State { BackToLine(s, 0.0) }

  // ----- The controller object -----

  /** The controller; what ClearTracking discards is grouped in `tracker`. */
  class HurdleController {
    const config: Config
    var mode: Mode
    var tracker: Tracker
    var stateEnterSec: real
    var settleUntilSec: real
    var ignoreUntilSec: real
    var closeLatched: bool

    function View(): State
      reads this
    {
      State(mode, tracker, stateEnterSec, settleUntilSec, ignoreUntilSec, closeLatched)
    }

    constructor (config: Config)
      ensures this.config == config && View() == INITIAL
    {
      this.config := config;
      mode, tracker := LineFollow, Tracker([], [], [], 0, 0, false, NOT_TRACKED, 0.5);
      stateEnterSec, settleUntilSec, ignoreUntilSec := 0.0, 0.0, 0.0;
      closeLatched := false;
    }

    method FollowTarget(target: ObjectTarget, width: int, height: int)
      modifies `tracker
      ensures tracker == old(tracker).(lost := 0, hasSmoothed := true, lastSeenU := Observed(target, width, height).u,
                                       tracked := Follow(config, old(tracker), Observed(target, width, height)))
    {
      var observed := Observed(target, width, height);
      tracker := tracker.(lost := 0, lastSeenU := observed.u);
      if !tracker.hasSmoothed {
        tracker := tracker.(tracked := observed, hasSmoothed := true);
      } else {
        var t := tracker.tracked;
        tracker := tracker.(tracked := observed.(stable := t.stable,
                                                 u := Smooth(t.u, observed.u, config.smoothAlpha),
                                                 v := Smooth(t.v, observed.v, config.smoothAlpha)));
      }
    }

    method RecordPlacement(target: Option<ObjectTarget>, width: int, height: int)
      modifies `tracker
      ensures tracker == old(tracker).(
                           acquire := Push(old(tracker).acquire, AtLeast(config.acquireMinVNorm, target, width, height),
                                           config.stableWindow),
                           tilt := Push(old(tracker).tilt, AtLeast(config.tiltTriggerVNorm, target, width, height),
                                        config.tiltTriggerWindow))
    {
      var acquire, near := false, false;
      if target.Some? && width > 1 && height > 1 {
        var rawV := target.value.center.v / Denom(height as real);
        acquire := rawV >= config.acquireMinVNorm;
        near := rawV >= config.tiltTriggerVNorm;
      }
      var acquireHistory := PushBounded(tracker.acquire, acquire, config.stableWindow);
      var tiltHistory := PushBounded(tracker.tilt, near, config.tiltTriggerWindow);
      tracker := tracker.(acquire := acquireHistory, tilt := tiltHistory);
    }

    method UpdateTracker(target: Option<ObjectTarget>, width: int, height: int)
      modifies `tracker
      ensures tracker == Track(config, old(tracker), target, width, height)
    {
      hide Push, Count, Observed, Smooth;
      var detected := target.Some? && width > 1 && height > 1;
      var hitHistory := PushBounded(tracker.hits, detected, config.stableWindow);
      tracker := tracker.(hits := hitHistory);
      if detected {
        FollowTarget(target.value, width, height);
      } else {
        tracker := tracker.(lost := tracker.lost + 1, tracked := tracker.tracked.(visible := false));
      }
      var hits := CountHits(tracker.hits);
      tracker := tracker.(tracked := tracker.tracked.(stable := hits >= Max(1, config.stableMinHits)));
      RecordPlacement(target, width, height);
    }

    method ClearObservationHistory()
      modifies `tracker
      ensures tracker == ClearTracking(old(tracker))
    {
      tracker := tracker.(hits := [], acquire := [], tilt := [], lost := 0, recoveryVisible := 0,
                          hasSmoothed := false, tracked := NOT_TRACKED);
    }

    method ResetToLine()
      modifies this
      ensures View() == BackToLine(old(View()), old(ignoreUntilSec))
    {
      ClearObservationHistory();
      mode, tracker := LineFollow, tracker.(lastSeenU := 0.5);
      stateEnterSec, settleUntilSec := 0.0, 0.0;
      closeLatched := false;
    }

    method Reset()
      modifies this
      ensures View() == ResetState(old(View()))
    {
      ResetToLine();
      ignoreUntilSec := 0.0;
    }

    method Observe(target: Option<ObjectTarget>, width: int, height: int)
      modifies `tracker
      ensures View() == ObserveOnly(config, old(View()), target, width, height)
    {
      if !CameraMoving(mode) {
        UpdateTracker(target, width, height);
      }
    }

    method TryAcquire(nowSec: real)
      modifies `mode, `stateEnterSec
      ensures View() == Acquire(config, old(View()), nowSec)
    {
      if mode.LineFollow? {
        var acquireHits := CountHits(tracker.acquire);
        if tracker.tracked.stable && tracker.tracked.visible && acquireHits >= Max(1, config.stableMinHits) {
          mode, stateEnterSec := Approach, nowSec;
        }
      }
    }

    method DoApproach(i: Input) returns (result: Result)
      requires mode.Approach?
      modifies `mode, `stateEnterSec, `tracker, `closeLatched
      ensures Step(View(), result) == ApproachStep(config, old(View()), i)
    {
      result := BaseResult(View());
      if tracker.lost >= Max(1, config.lostFrames) {
        mode, stateEnterSec, tracker := RecoveryForward, i.nowSec, tracker.(recoveryVisible := 0);
        result := result.(mode := mode);
        return;
      }
      var closeHits := CountHits(tracker.tilt);
      closeLatched := closeLatched || closeHits >= Max(1, config.tiltTriggerMinHits);
      if closeLatched {
        if i.execution.active && !i.execution.done { return; }
        mode, stateEnterSec := WaitCameraDown, i.nowSec;
        result := result.(mode := mode, camera := CameraDown);
        return;
      }
      result := result.(action := Locomotion(StepForwardFive, 0));
    }

    method DoWaitCameraDown(i: Input) returns (result: Result)
      requires mode.WaitCameraDown?
      modifies this
      ensures Step(View(), result) == WaitCameraDownStep(config, old(View()), i)
    {
      result := BaseResult(View()).(camera := CameraDown);
      if i.camera.actualMode.DownView? && i.camera.settled {
        ClearObservationHistory();
        tracker := tracker.(lastSeenU := 0.5);
        mode := Contact;
        result := result.(mode := mode, tracked := NOT_TRACKED, camera := NoCamera, action := Locomotion(StepForwardOne, 0));
      } else if i.nowSec - stateEnterSec >= config.cameraMotionTimeoutSec {
        mode := Failed;
        result := result.(mode := mode, camera := NoCamera);
      }
    }

    method DoCrossing(i: Input) returns (result: Result)
      requires mode.Contact? || mode.Cross?
      modifies `mode
      ensures Step(View(), result) == if old(mode).Contact? then ContactStep(old(View()), i) else CrossStep(old(View()), i)
    {
      result := BaseResult(View());
      if mode.Contact? {
        result := result.(action := Locomotion(StepForwardOne, 0));
        if i.execution.done {
          mode := Cross;
          result := result.(mode := mode, action := MissionRequest(CrossHurdle, 0));
        }
      } else {
        result := result.(action := MissionRequest(CrossHurdle, 0));
        if i.execution.done {
          mode := ReturnCamera;
          result := result.(mode := mode, action := NO_REQUEST, camera := CameraForward);
        }
      }
    }

    method DoReturnCamera(i: Input) returns (result: Result)
      requires mode.ReturnCamera?
      modifies this
      ensures Step(View(), result) == ReturnCameraStep(config, old(View()), i)
    {
      result := BaseResult(View()).(camera := CameraForward);
      if i.camera.actualMode.ForwardView? && i.camera.settled {
        ignoreUntilSec := i.nowSec + config.hurdleIgnoreDurationSec;
        ResetToLine();
        result := IDLE_RESULT;
      }
    }

    method DoRecovery(i: Input) returns (result: Result)
      requires mode.RecoveryForward?
      modifies `mode, `settleUntilSec, `tracker
      ensures Step(View(), result) == RecoveryStep(config, old(View()), i)
    {
      result := BaseResult(View());
      if i.execution.active && !i.execution.done { return; }
      if i.execution.done {
        settleUntilSec := i.nowSec + config.recoverySettleDurationSec;
        return;
      }
      if i.nowSec + EPSILON < settleUntilSec { return; }
      tracker := tracker.(recoveryVisible := if tracker.tracked.visible then tracker.recoveryVisible + 1 else 0);
      if tracker.recoveryVisible >= Max(1, config.recoveryReacquireMinHits) {
        mode := Approach;
        result := result.(mode := mode);
        return;
      }
      if i.nowSec - stateEnterSec >= config.recoveryTimeoutSec {
        mode := Failed;
        result := result.(mode := mode);
        return;
      }
      result := result.(action := RecoveryAction(config, tracker.lastSeenU));
    }

    method StepMode(i: Input) returns (result: Result)
      modifies this
      ensures Step(View(), result) == ModeStep(config, old(View()), i)
    {
      match mode {
        case Approach => result := DoApproach(i);
        case WaitCameraDown => result := DoWaitCameraDown(i);
        case Contact => result := DoCrossing(i);
        case Cross => result := DoCrossing(i);
        case ReturnCamera => result := DoReturnCamera(i);
        case RecoveryForward => result := DoRecovery(i);
        case LineFollow => result := BaseResult(View());
        case Failed => result := BaseResult(View());
      }
    }

    method Process(i: Input) returns (result: Result)
      modifies this
      ensures Step(View(), result) == Compute(config, old(View()), i)
    {
      if mode.LineFollow? && i.nowSec < ignoreUntilSec {
        return IDLE_RESULT;
      }
      Observe(i.target, i.width, i.height);
      TryAcquire(i.nowSec);
      result := StepMode(i);
    }
  }
}
