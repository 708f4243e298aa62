/** What the BALL controller decides in every frame of every run, told by the sightings
    since the last clear, the clock and the action feedback alone. */
module BallDecisions {
  import opened Types
  import opened SlidingWindow
  import opened Asking
  import opened Steering
  import opened TrackerRefinement
  import opened BallController
  import opened BallProperties

  // ----- What is seen -----

  /** A sighting, in pixels: the rectified position is tracked, the raw row decides about
      upper and low. */
  lemma SightingMeaning(config: Config, target: Option<ObjectTarget>, width: int, height: int)
    ensures var x := SightingOf(config, target, width, height);
            && (x.detected <==> target.Some? && width > 1 && height > 1)
            && (!x.detected ==> !x.first && !x.second)
            && (x.detected ==>
                  var t := target.value;
                  var center := if t.centerRectified then t.rectifiedCenter else t.center;
                  && Normalises(x.u, center.u, width) && Normalises(x.v, center.v, height)
                  && (x.first <==> t.center.v <= config.upperAcquireVNorm * height as real)
                  && (x.second <==> t.center.v >= config.tiltDownVNorm * height as real))
  {
    hide Normalises;
    if Detected(target, width, height) {
      var t := target.value;
      var center := if t.centerRectified then t.rectifiedCenter else t.center;
      ClampNormalises(center.u, width);
      ClampNormalises(center.v, height);
      QuotientCompares(t.center.v, height, config.upperAcquireVNorm);
      QuotientCompares(t.center.v, height, config.tiltDownVNorm);
      hide Clamp;
    }
  }

  /** The sightings a decision rests on, and the position they amount to. */
  predicate Visible(seen: seq<Sighting>) { seen != [] && seen[|seen| - 1].detected }

  function U(config: Config, seen: seq<Sighting>): real { Mean(Us(seen), config.smoothAlpha) }

  function V(config: Config, seen: seq<Sighting>): real { Mean(Vs(seen), config.smoothAlpha) }

  /** The ball is seen steadily, and often enough in the upper part of the image. */
  predicate Appears(config: Config, seen: seq<Sighting>) {
    && Visible(seen)
    && Often(DetectedBits(seen), config.stableWindow, config.stableMinHits)
    && Often(FirstBits(seen), config.stableWindow, config.stableMinHits)
  }

  predicate Nears(config: Config, seen: seq<Sighting>) { Often(SecondBits(seen), config.tiltDownWindow, config.tiltDownMinHits) }

  ghost predicate IsLost(config: Config, seen: seq<Sighting>) { Missing(DetectedBits(seen), config.lostFrames) }

  // ----- What is decided, mode by mode -----

  /** Walk towards the ball until it is near; then, once no action runs, lower the camera. */
  ghost predicate Approaches(config: Config, latched: bool, seen: seq<Sighting>, i: Input, out: Step) {
    var mode', a, near := out.state.mode, Ask(out.result.camera, out.result.action), latched || Nears(config, seen);
    if IsLost(config, seen) then mode' == RecoveryForward && Quiet(a) && out.state.triggerLatched == latched
    else
      && out.state.triggerLatched == near
      && if near then
           if i.execution.active && !i.execution.done then mode' == Approach && Quiet(a)
           else mode' == WaitCameraDown && MovesCamera(a, CameraDown)
         else
           && mode' == Approach && a.camera.NoCamera?
           && a.action == Locomotion(if Visible(seen) then WalkTowards(U(config, seen) - config.farUDesNorm, config.approachUDeadband)
                                     else NoAction, 0)
  }

  /** Nothing is in flight and the robot has come to rest. */
  predicate MayDecide(s: State, i: Input) {
    !i.execution.active && !i.execution.done && i.nowSec - s.settleUntilSec >= -0.000000001
  }

  /** PICK exactly when a visible ball has both errors within their deadbands; otherwise
      one step that reduces the lateral error first, then the other one. */
  ghost predicate FineAdjusts(config: Config, s: State, seen: seq<Sighting>, i: Input, out: Step) {
    var mode', a := out.state.mode, Ask(out.result.camera, out.result.action);
    var du, dv := U(config, seen) - config.fineTargetUNorm, V(config, seen) - config.fineTargetVNorm;
    if !MayDecide(s, i) then mode' == FineAdjust && Quiet(a)
    else if IsLost(config, seen) then mode' == RecoveryDown && Quiet(a)
    else if !Visible(seen) then mode' == FineAdjust && Quiet(a)
    else if -config.fineUDeadband <= du <= config.fineUDeadband && -config.fineVDeadband <= dv <= config.fineVDeadband then
      mode' == Pickup && Asks(a, PICK) && out.state.attempts == s.attempts + 1
    else
      && mode' == FineAdjust
      && Asks(a, Locomotion(if du < -config.fineUDeadband then LeftSideStep
                            else if du > config.fineUDeadband then RightSideStep
                            else if dv < -config.fineVDeadband then StepForwardHalf
                            else StepBack, 0))
  }

  /** The camera motion is waited for, up to the timeout. */
  ghost predicate WaitsForFloor(config: Config, s: State, i: Input, out: Step) {
    var mode', a := out.state.mode, Ask(out.result.camera, out.result.action);
    if i.camera.settled && i.camera.actualMode == DownView then mode' == FineAdjust && Quiet(a)
    else if i.nowSec - s.stateEnterSec >= config.cameraMotionTimeoutSec then mode' == Failed && Quiet(a)
    else mode' == WaitCameraDown && MovesCamera(a, CameraDown)
  }

  /** A full window after RECATCH decides: few balls in it mean success; otherwise the
      pick is repeated while attempts remain. */
  ghost predicate Verifies(config: Config, s: State, seen: seq<Sighting>, i: Input, out: Step) {
    var s', a := out.state, Ask(out.result.camera, out.result.action);
    if |seen| < Max(1, config.stableWindow) then s'.mode == VerifyObservation && Quiet(a) && s'.hasBall == s.hasBall
    else if !Often(DetectedBits(seen), config.stableWindow, config.stableMinHits) then
      s'.mode == StandUp && Asks(a, STAND_UP) && s'.hasBall
    else
      && s'.hasBall == s.hasBall
      && if s.attempts < Max(1, config.pickupMaxAttempts) then s'.mode == FineAdjust && Quiet(a)
         else s'.mode == StandUp && Asks(a, STAND_UP) && s'.pickupFailed
  }

  ghost predicate ReturnsCamera(i: Input, out: Step) {
    var mode', a := out.state.mode, Ask(out.result.camera, out.result.action);
    if i.camera.settled && i.camera.actualMode == ForwardView then mode' == LineRecovery && Quiet(a)
    else mode' == ReturnCamera && MovesCamera(a, CameraForward)
  }

  /** Go back to `home` after enough frames in a row that show the ball at rest, give up
      after the timeout, and otherwise turn to the side where the ball was last. */
  ghost predicate Recovers(config: Config, s: State, seen: seq<Sighting>, i: Input, out: Step, home: Mode) {
    var mode', a := out.state.mode, Ask(out.result.camera, out.result.action);
    var inView := if Visible(seen) then s.tracker.recoveryVisible + 1 else 0;
    if !MayDecide(s, i) then mode' == s.mode && Quiet(a) && out.state.tracker.recoveryVisible == s.tracker.recoveryVisible
    else
      && out.state.tracker.recoveryVisible == inView
      && if inView >= Max(1, config.recoveryReacquireMinHits) then mode' == home && Quiet(a)
         else if i.nowSec - s.stateEnterSec >= config.recoveryTimeoutSec then mode' == Failed && Quiet(a)
         else
           && mode' == s.mode && a.camera.NoCamera?
           && a.action == TurnTowards(out.state.tracker.lastSeenU - config.farUDesNorm, config.recoveryCenterToleranceNorm)
  }

  /** On the line: nothing while a ball is held or ignored, and otherwise the approach
      begins as soon as a ball appears. */
  ghost predicate Watches(config: Config, s: State, seen: seq<Sighting>, i: Input, out: Step) {
    if s.hasBall || i.nowSec < s.ignoreUntilSec then out.state == s && Quiet(Ask(out.result.camera, out.result.action))
    else if Appears(config, seen) then Approaches(config, s.triggerLatched, seen, i, out) && out.state.attempts == 0
    else out.state.mode == LineFollow && Quiet(Ask(out.result.camera, out.result.action))
  }

  /** Modes that Moves determines already end with the DONE of their own action. */
  ghost predicate Decided(config: Config, s: State, seen: seq<Sighting>, i: Input, out: Step) {
    match s.mode
    case LineFollow => Watches(config, s, seen, i, out)
    case Approach => Approaches(config, s.triggerLatched, seen, i, out)
    case WaitCameraDown => WaitsForFloor(config, s, i, out)
    case FineAdjust => FineAdjusts(config, s, seen, i, out)
    case VerifyObservation => Verifies(config, s, seen, i, out)
    case ReturnCamera => ReturnsCamera(i, out)
    case RecoveryForward => Recovers(config, s, seen, i, out, Approach)
    case RecoveryDown => Recovers(config, s, seen, i, out, FineAdjust)
    case _ => true
  }

  /** The clocks: when the present wait began, and until when the robot rests. */
  ghost predicate Clocked(config: Config, s: State, i: Input, s': State) {
    && (s'.mode in {WaitCameraDown, RecoveryForward, RecoveryDown} ==>
          s'.stateEnterSec == if s'.mode == s.mode then s.stateEnterSec else i.nowSec)
    && (s'.mode == FineAdjust ==>
          s'.settleUntilSec == if s.mode != FineAdjust || i.execution.done then i.nowSec + config.fineSettleDurationSec
                               else s.settleUntilSec)
    && (s'.mode in {RecoveryForward, RecoveryDown} ==>
          s'.settleUntilSec == if s'.mode == s.mode && i.execution.done then i.nowSec + config.recoverySettleDurationSec
                               else s.settleUntilSec)
    && (s.mode == RecoveryForward && s'.mode == Approach ==> s'.settleUntilSec == i.nowSec + config.fineSettleDurationSec)
    && (s.mode == Approach ==> s'.settleUntilSec == s.settleUntilSec)
    && (s'.mode in {RecoveryForward, RecoveryDown} && s'.mode != s.mode ==> s'.tracker.recoveryVisible == 0)
  }

  // ----- The tracker tells what was seen -----

  ghost predicate Tells(config: Config, t: Tracker, seen: seq<Sighting>) {
    && t.tracked.visible == Visible(seen)
    && (Visible(seen) ==> t.tracked.u == U(config, seen) && t.tracked.v == V(config, seen))
    && (t.lost >= Max(1, config.lostFrames) <==> IsLost(config, seen))
    && (t.tracked.stable <==> Often(DetectedBits(seen), config.stableWindow, config.stableMinHits))
    && (Count(t.hits) >= Max(1, config.stableMinHits) <==> Often(DetectedBits(seen), config.stableWindow, config.stableMinHits))
    && (|t.hits| < Max(1, config.stableWindow) <==> |seen| < Max(1, config.stableWindow))
    && (Count(t.upper) >= Max(1, config.stableMinHits) <==> Often(FirstBits(seen), config.stableWindow, config.stableMinHits))
    && (Count(t.tilt) >= Max(1, config.tiltDownMinHits) <==> Nears(config, seen))
  }

  lemma RefinedTells(config: Config, t: Tracker, seen: seq<Sighting>)
    requires Refines(WindowsOf(config), FieldsOf(t), seen)
    ensures Tells(config, t, seen)
  {
    hide Count, Missing, TrailingMisses, Mean, BoundsU, BoundsV;
    MissingIff(DetectedBits(seen), config.lostFrames);
    if Visible(seen) { assert seen[|seen| - 1].detected; }
  }

  lemma ApproachDecides(config: Config, s: State, seen: seq<Sighting>, i: Input)
    requires s.mode == Approach && Tells(config, s.tracker, seen)
    ensures Approaches(config, s.triggerLatched, seen, i, ApproachStep(config, s, i))
  {
    hide Count, IsLost, Nears, Often, Mean;
  }

  lemma FineAdjustDecides(config: Config, s: State, seen: seq<Sighting>, i: Input)
    requires s.mode == FineAdjust && Tells(config, s.tracker, seen)
    ensures FineAdjusts(config, s, seen, i, FineAdjustStep(config, s, i))
  {
    hide Count, IsLost, Nears, Often, Mean;
  }

  lemma CameraDecides(config: Config, s: State, i: Input)
    ensures s.mode == WaitCameraDown ==> WaitsForFloor(config, s, i, WaitCameraDownStep(config, s, i))
    ensures s.mode == ReturnCamera ==> ReturnsCamera(i, ReturnCameraStep(s, i))
  {
  }

  lemma VerifyDecides(config: Config, s: State, seen: seq<Sighting>, i: Input)
    requires s.mode == VerifyObservation && Tells(config, s.tracker, seen)
    ensures Verifies(config, s, seen, i, VerifyObservationStep(config, s, i))
  {
    hide Count, IsLost, Nears, Often, Mean;
  }

  lemma RecoveryDecides(config: Config, s: State, seen: seq<Sighting>, i: Input)
    requires s.mode in {RecoveryForward, RecoveryDown} && Tells(config, s.tracker, seen)
    ensures Recovers(config, s, seen, i, RecoveryStep(config, s, i), if s.mode == RecoveryDown then FineAdjust else Approach)
  {
    hide Count, IsLost, Nears, Often, Mean;
  }

  lemma ObservedTells(config: Config, s: State, since: seq<Sighting>, i: Input)
    requires Refines(WindowsOf(config), FieldsOf(s.tracker), since) && !CameraMoving(s.mode)
    ensures var n := ObserveOnly(config, s, i.target, i.width, i.height);
            && Tells(config, n.tracker, since + [SightingOf(config, i.target, i.width, i.height)])
            && n == s.(tracker := n.tracker) && n.tracker.recoveryVisible == s.tracker.recoveryVisible
  {
    var n, x := ObserveOnly(config, s, i.target, i.width, i.height), SightingOf(config, i.target, i.width, i.height);
    ObserveFields(config, s, i.target, i.width, i.height);
    hide Refines, Tells, FieldsOf, WindowsOf, SightingOf, Advance, Observed, IsUpper, IsLow, Push, Count;
    AdvanceRefines(WindowsOf(config), FieldsOf(s.tracker), since, x);
    RefinedTells(config, n.tracker, since + [x]);
  }

  lemma AppearsIff(config: Config, s: State, seen: seq<Sighting>)
    requires s.mode == LineFollow && Tells(config, s.tracker, seen)
    ensures Acquired(config, s) <==> Appears(config, seen)
  {
    hide Often, Visible, Count, Mean, IsLost, Nears;
  }

  /** A frame on the line is skipped, only observes, or begins the approach. */
  lemma ComputeOnLine(config: Config, s: State, i: Input)
    requires s.mode == LineFollow
    ensures var n := ObserveOnly(config, s, i.target, i.width, i.height);
            Compute(config, s, i)
            == if s.hasBall || i.nowSec < s.ignoreUntilSec then Step(s, IDLE_RESULT.(hasBall := s.hasBall))
               else if Acquired(config, n) then ApproachStep(config, Acquire(config, n, i.nowSec), i)
               else Step(n, BaseResult(n))
  {
    hide Track, Count, ApproachStep;
  }

  lemma WatchDecides(config: Config, s: State, since: seq<Sighting>, i: Input)
    requires s.mode == LineFollow && Refines(WindowsOf(config), FieldsOf(s.tracker), since)
    ensures Watches(config, s, since + [SightingOf(config, i.target, i.width, i.height)], i, Compute(config, s, i))
  {
    hide Refines, SightingOf, ObserveOnly, FieldsOf, Tells, Appears, Acquired, Approaches, ApproachStep, Compute;
    var seen, n := since + [SightingOf(config, i.target, i.width, i.height)], ObserveOnly(config, s, i.target, i.width, i.height);
    ObservedTells(config, s, since, i);
    AppearsIff(config, n, seen);
    ComputeOnLine(config, s, i);
    if Acquired(config, n) {
      var m := Acquire(config, n, i.nowSec);
      ApproachDecides(config, m, seen, i);
      ApproachKeepsAttempts(config, m, i);
    }
  }

  lemma ApproachKeepsAttempts(config: Config, s: State, i: Input)
    ensures ApproachStep(config, s, i).state.attempts == s.attempts
  {
    hide Count, FarAction, BaseResult;
  }

  /** Whatever the state: a step is decided by what has been seen since the last clear. */
  lemma StepDecides(config: Config, s: State, since: seq<Sighting>, i: Input)
    requires Refines(WindowsOf(config), FieldsOf(s.tracker), since)
    ensures Decided(config, s, since + [SightingOf(config, i.target, i.width, i.height)], i, Compute(config, s, i))
  {
    hide Refines, SightingOf, Watches, Approaches, FineAdjusts, Verifies, Recovers, WaitsForFloor, ReturnsCamera, Tells,
         ApproachStep, FineAdjustStep, VerifyObservationStep, RecoveryStep, WaitCameraDownStep, ReturnCameraStep,
         PickupStep, VerifyPickupStep, StandUpStep, BackAwayStep, Track, Count, FieldsOf;
    var seen, n := since + [SightingOf(config, i.target, i.width, i.height)], ObserveOnly(config, s, i.target, i.width, i.height);
    if !CameraMoving(s.mode) { ObservedTells(config, s, since, i); }
    match s.mode {
      case LineFollow => WatchDecides(config, s, since, i);
      case Approach => ApproachDecides(config, n, seen, i);
      case WaitCameraDown => CameraDecides(config, s, i);
      case FineAdjust =>
        FineAdjustDecides(config, n, seen, i);
        FineIgnoresTracker(config, s, n, seen, i, FineAdjustStep(config, n, i));
      case VerifyObservation =>
        VerifyDecides(config, n, seen, i);
        VerifyIgnoresTracker(config, s, n, seen, i, VerifyObservationStep(config, n, i));
      case ReturnCamera => CameraDecides(config, s, i);
      case RecoveryForward =>
        RecoveryDecides(config, n, seen, i);
        RecoveryIgnoresTracker(config, s, n, seen, i, RecoveryStep(config, n, i), Approach);
      case RecoveryDown =>
        RecoveryDecides(config, n, seen, i);
        RecoveryIgnoresTracker(config, s, n, seen, i, RecoveryStep(config, n, i), FineAdjust);
      case _ =>
    }
  }

  lemma FineIgnoresTracker(config: Config, s: State, n: State, seen: seq<Sighting>, i: Input, out: Step)
    requires n == s.(tracker := n.tracker) && FineAdjusts(config, n, seen, i, out)
    ensures FineAdjusts(config, s, seen, i, out)
  {
    hide IsLost, Mean, Visible;
  }

  lemma VerifyIgnoresTracker(config: Config, s: State, n: State, seen: seq<Sighting>, i: Input, out: Step)
    requires n == s.(tracker := n.tracker) && Verifies(config, n, seen, i, out)
    ensures Verifies(config, s, seen, i, out)
  {
    hide Often;
  }

  lemma RecoveryIgnoresTracker(config: Config, s: State, n: State, seen: seq<Sighting>, i: Input, out: Step, home: Mode)
    requires n == s.(tracker := n.tracker) && n.tracker.recoveryVisible == s.tracker.recoveryVisible
    requires Recovers(config, n, seen, i, out, home)
    ensures Recovers(config, s, seen, i, out, home)
  {
    hide Visible, TurnTowards;
  }

  /** Every frame of every run decides exactly as the sightings since the last clear,
      the clock and the action feedback call for. */
  lemma RunDecides(config: Config, events: seq<Event>, i: Input)
    ensures var j := Run(config, events);
            Decided(config, j.state, j.since + [SightingOf(config, i.target, i.width, i.height)], i, Compute(config, j.state, i))
  {
    hide Refines, Compute, Decided, SightingOf, Run;
    TrackerRefined(config, events);
    StepDecides(config, Run(config, events).state, Run(config, events).since, i);
  }

  // ----- What is published -----

  /** The sizes of a detected ball, as shares of the image. */
  lemma SizesMeaning(target: ObjectTarget, width: int, height: int)
    requires width > 1 && height > 1
    ensures var o := Observed(target, width, height);
            && Normalises(o.h, target.heightPx, height) && Normalises(o.area, target.areaPx, width * height)
            && o.confidence == target.confidence
            && o.center == (if target.centerRectified then target.rectifiedCenter else target.center)
  {
    hide Normalises, Clamp;
    assert width * height > 1;
    assert width as real * height as real == (width * height) as real;
    ClampNormalises(target.heightPx, height);
    ClampNormalises(target.areaPx, width * height);
  }

  /** The height is smoothed like the position: it moves by the configured fraction. */
  predicate MovesBy(x': real, x: real, observed: real, alpha: real) { x' - x == Fraction(alpha) * (observed - x) }

  /** The published track is what the sightings amount to; sizes and confidence are those
      of the last detection. */
  ghost predicate Published(config: Config, s: State, seen: seq<Sighting>, i: Input, r: Tracked) {
    && r.visible == Visible(seen)
    && (r.stable <==> Often(DetectedBits(seen), config.stableWindow, config.stableMinHits))
    && if Visible(seen) then
         i.target.Some? &&
         var o := Observed(i.target.value, i.width, i.height);
         && r.u == U(config, seen) && r.v == V(config, seen)
         && r.center == o.center && r.area == o.area && r.confidence == o.confidence
         && if s.tracker.hasSmoothed then MovesBy(r.h, s.tracker.tracked.h, o.h, config.smoothAlpha) else r.h == o.h
       else r == s.tracker.tracked.(visible := false, stable := r.stable)
  }

  lemma TrackStep(config: Config, t: Tracker, target: Option<ObjectTarget>, width: int, height: int)
    ensures var r := Track(config, t, target, width, height).tracked;
            if Detected(target, width, height) then
              var o := Observed(target.value, width, height);
              && r.center == o.center && r.area == o.area && r.confidence == o.confidence
              && if t.hasSmoothed then MovesBy(r.h, t.tracked.h, o.h, config.smoothAlpha) else r.h == o.h
            else r == t.tracked.(visible := false, stable := r.stable)
  {
    hide Push, Count, Clamp, Denom;
    if Detected(target, width, height) {
      SmoothMoves(t.tracked.h, Observed(target.value, width, height).h, config.smoothAlpha);
    }
    hide Smooth, MovesBy;
  }

  lemma SmoothMoves(x: real, observed: real, alpha: real)
    ensures MovesBy(Smooth(x, observed, alpha), x, observed, alpha)
  {
  }

  lemma TrackPublishes(config: Config, s: State, since: seq<Sighting>, i: Input)
    requires Refines(WindowsOf(config), FieldsOf(s.tracker), since) && !CameraMoving(s.mode)
    ensures Published(config, s, since + [SightingOf(config, i.target, i.width, i.height)], i,
                      ObserveOnly(config, s, i.target, i.width, i.height).tracker.tracked)
  {
    hide Refines, FieldsOf, WindowsOf, Track, Often, Mean, IsLost, Nears, IsUpper, IsLow, MovesBy, Observed;
    ObservedTells(config, s, since, i);
    TrackStep(config, s.tracker, i.target, i.width, i.height);
  }

  /** A step publishes the track of its frame, and its flags are those of its state. */
  ghost predicate Reports(n: State, out: Step) {
    && out.result.tracked == (if n.mode.WaitCameraDown? && out.state.mode.FineAdjust? then NOT_TRACKED else n.tracker.tracked)
    && (out.result.active <==> !out.state.mode.LineFollow? && !out.state.mode.LineRecovery?)
    && out.result.attempts == out.state.attempts && out.result.pickupFailed == out.state.pickupFailed
  }

  lemma ApproachReports(config: Config, s: State, i: Input)
    requires s.mode in {Approach, WaitCameraDown}
    ensures Reports(s, if s.mode == Approach then ApproachStep(config, s, i) else WaitCameraDownStep(config, s, i))
  {
    hide Count, FarAction, ClearTracking, Max;
  }

  lemma PickupReports(config: Config, s: State, i: Input)
    requires s.mode in {FineAdjust, Pickup, VerifyPickup, VerifyObservation}
    ensures Reports(s, match s.mode
                       case FineAdjust => FineAdjustStep(config, s, i)
                       case Pickup => PickupStep(s, i)
                       case VerifyPickup => VerifyPickupStep(s, i)
                       case _ => VerifyObservationStep(config, s, i))
  {
    hide Count, FineAction, ClearTracking, Max;
  }

  lemma ReturnReports(config: Config, s: State, i: Input)
    requires s.mode in {StandUp, BackAway, ReturnCamera, RecoveryForward, RecoveryDown}
    ensures Reports(s, match s.mode
                       case StandUp => StandUpStep(s, i)
                       case BackAway => BackAwayStep(s, i)
                       case ReturnCamera => ReturnCameraStep(s, i)
                       case _ => RecoveryStep(config, s, i))
  {
    hide RecoveryAction, Max;
  }

  lemma ModeStepReports(config: Config, s: State, i: Input)
    ensures Reports(s, ModeStep(config, s, i))
  {
    hide ApproachStep, WaitCameraDownStep, FineAdjustStep, PickupStep, VerifyPickupStep, VerifyObservationStep, StandUpStep,
         BackAwayStep, ReturnCameraStep, RecoveryStep;
    match s.mode {
      case Approach => ApproachReports(config, s, i);
      case WaitCameraDown => ApproachReports(config, s, i);
      case FineAdjust => PickupReports(config, s, i);
      case Pickup => PickupReports(config, s, i);
      case VerifyPickup => PickupReports(config, s, i);
      case VerifyObservation => PickupReports(config, s, i);
      case StandUp => ReturnReports(config, s, i);
      case BackAway => ReturnReports(config, s, i);
      case ReturnCamera => ReturnReports(config, s, i);
      case RecoveryForward => ReturnReports(config, s, i);
      case RecoveryDown => ReturnReports(config, s, i);
      case _ =>
    }
  }

  /** Outside camera motions, and unless the ball is ignored, every frame of every run
      publishes what the sightings since the last clear amount to; the flags are always
      those of the state; and a new engagement starts without attempts, failure or ball. */
  lemma RunPublishes(config: Config, events: seq<Event>, i: Input)
    ensures var j, out := Run(config, events), Compute(config, Run(config, events).state, i);
            var seen := j.since + [SightingOf(config, i.target, i.width, i.height)];
            if Ignoring(j.state, i.nowSec) then out.result == IDLE_RESULT.(hasBall := j.state.hasBall)
            else
              && (out.result.active <==> !out.state.mode.LineFollow? && !out.state.mode.LineRecovery?)
              && out.result.attempts == out.state.attempts && out.result.pickupFailed == out.state.pickupFailed
              && (!CameraMoving(j.state.mode) ==>
                    Published(config, j.state, seen, i, out.result.tracked))
              && (j.state.mode.LineFollow? && !out.state.mode.LineFollow? ==>
                    out.state.attempts == 0 && !out.state.pickupFailed && !out.state.hasBall)
  {
    var j := Run(config, events);
    var n := ObserveOnly(config, j.state, i.target, i.width, i.height);
    var m := Acquire(config, n, i.nowSec);
    TrackerRefined(config, events);
    if !CameraMoving(j.state.mode) { TrackPublishes(config, j.state, j.since, i); }
    ModeStepReports(config, m, i);
    ModeStepBookkeeps(config, m, i);
    if m.mode.Approach? { EngagesAfresh(config, m, i); }
    hide ModeStep, Refines, Published, Run, SightingOf, Track, Count;
  }

  /** The approach does not touch the outcome of the engagement. */
  lemma EngagesAfresh(config: Config, s: State, i: Input)
    requires s.mode.Approach?
    ensures var s' := ModeStep(config, s, i).state;
            s'.attempts == s.attempts && s'.pickupFailed == s.pickupFailed && s'.hasBall == s.hasBall
  {
    hide Count, FarAction, BaseResult;
  }

  // ----- The clocks -----

  lemma ApproachClocks(config: Config, s: State, i: Input)
    requires s.mode in {Approach, WaitCameraDown}
    ensures Clocked(config, s, i, (if s.mode == Approach then ApproachStep(config, s, i) else WaitCameraDownStep(config, s, i)).state)
  {
    hide Count, FarAction, BaseResult, ClearTracking, Max;
  }

  lemma FineClocks(config: Config, s: State, i: Input)
    requires s.mode in {FineAdjust, VerifyObservation}
    ensures Clocked(config, s, i,
                    (if s.mode == FineAdjust then FineAdjustStep(config, s, i) else VerifyObservationStep(config, s, i)).state)
  {
    hide Count, FineAction, BaseResult, ClearTracking, Max;
  }

  lemma RecoveryClocks(config: Config, s: State, i: Input)
    requires s.mode in {RecoveryForward, RecoveryDown}
    ensures Clocked(config, s, i, RecoveryStep(config, s, i).state)
  {
    hide RecoveryAction, BaseResult, Max;
  }

  lemma ModeStepClocks(config: Config, s: State, i: Input)
    requires !s.mode.LineFollow?
    ensures Clocked(config, s, i, ModeStep(config, s, i).state)
  {
    hide ApproachStep, WaitCameraDownStep, FineAdjustStep, VerifyObservationStep, RecoveryStep;
    match s.mode {
      case Approach => ApproachClocks(config, s, i);
      case WaitCameraDown => ApproachClocks(config, s, i);
      case FineAdjust => FineClocks(config, s, i);
      case VerifyObservation => FineClocks(config, s, i);
      case RecoveryForward => RecoveryClocks(config, s, i);
      case RecoveryDown => RecoveryClocks(config, s, i);
      case _ =>
    }
  }

  /** When a wait began and until when the robot rests is the time of the frame that
      began it, or of the last DONE, plus the configured duration. */
  lemma StepClocks(config: Config, s: State, i: Input)
    ensures Clocked(config, s, i, Compute(config, s, i).state)
  {
    var n := Acquire(config, ObserveOnly(config, s, i.target, i.width, i.height), i.nowSec);
    if !Ignoring(s, i.nowSec) && !n.mode.LineFollow? { ModeStepClocks(config, n, i); }
    hide Track, Count, ModeStep;
    FreshTracksAreNotLost(config, s, i);
  }

  // ----- After the return -----

  /** On the line, ignoring the ball until a given time, with a fresh engagement ahead. */
  predicate Ignores(s: State, untilSec: real) {
    s.mode == LineFollow && s.ignoreUntilSec == untilSec && !s.triggerLatched && !s.backAwayIssued
  }

  lemma IgnoringGoesOn(config: Config, s: State, e: Event, untilSec: real)
    requires Ignores(s, untilSec) && (e.Frame? ==> e.input.nowSec < untilSec)
    ensures Ignores(Apply(config, s, e), untilSec)
  {
    hide Track, Count, ModeStep;
  }

  /** From the frame in which LINE has been recovered, and for the configured time, no
      ball is engaged, whatever is seen. */
  lemma {:induction false} IgnoredAfterRecovery(config: Config, events: seq<Event>, n: nat, k: nat)
    requires n < k <= |events| && events[n].FinishRecovery? && Run(config, events[..n]).state.mode == LineRecovery
    requires forall j :: n < j < k && events[j].Frame? ==>
               events[j].input.nowSec < events[n].nowSec + config.ballIgnoreDurationSec
    ensures Ignores(Run(config, events[..k]).state, events[n].nowSec + config.ballIgnoreDurationSec)
  {
    hide Run, Record, Ignores, Apply;
    assert events[..k] == events[..k - 1] + [events[k - 1]];
    RunAppend(config, events[..k - 1], events[k - 1]);
    RecordApplies(config, Run(config, events[..k - 1]), events[k - 1]);
    if k == n + 1 {
      BeginsIgnoring(config, Run(config, events[..n]).state, events[n].nowSec);
    } else {
      IgnoredAfterRecovery(config, events, n, k - 1);
      IgnoringGoesOn(config, Run(config, events[..k - 1]).state, events[k - 1], events[n].nowSec + config.ballIgnoreDurationSec);
    }
  }

  lemma RecordApplies(config: Config, j: Journal, e: Event)
    ensures Record(config, j, e).state == Apply(config, j.state, e)
  {
    hide Apply, Sees, Clears;
  }

  lemma BeginsIgnoring(config: Config, s: State, nowSec: real)
    requires s.mode == LineRecovery
    ensures Ignores(Apply(config, s, FinishRecovery(nowSec)), nowSec + config.ballIgnoreDurationSec)
  {
  }

  // ----- Where the ball was last -----

  /** The camera has come to rest on the floor in this event. */
  predicate LooksDown(s: State, e: Event, s': State) { e.Frame? && s.mode == WaitCameraDown && s'.mode == FineAdjust }

  /** Where the ball was last, told by the run: the mean position of the sightings up to
      the last one that shows the ball, or the point aimed at if the camera has moved
      down since, or the middle of the image if there has been neither. */
  function LastSeen(config: Config, events: seq<Event>): real {
    if events == [] then 0.5
    else
      var j, e := Run(config, events[..|events| - 1]), events[|events| - 1];
      var seen := j.since + Sees(config, j.state, e);
      if LooksDown(j.state, e, Run(config, events).state) then config.farUDesNorm
      else if Sees(config, j.state, e) != [] && Visible(seen) then U(config, seen)
      else LastSeen(config, events[..|events| - 1])
  }

  lemma ApproachKeepsSide(config: Config, s: State, i: Input)
    requires s.mode in {Approach, WaitCameraDown}
    ensures var s' := (if s.mode == Approach then ApproachStep(config, s, i) else WaitCameraDownStep(config, s, i)).state;
            s'.tracker.lastSeenU == if LooksDown(s, Frame(i), s') then config.farUDesNorm else s.tracker.lastSeenU
  {
    hide Count, FarAction, BaseResult, Max;
  }

  lemma FineKeepsSide(config: Config, s: State, i: Input)
    ensures FineAdjustStep(config, s, i).state.tracker.lastSeenU == s.tracker.lastSeenU
    ensures VerifyObservationStep(config, s, i).state.tracker.lastSeenU == s.tracker.lastSeenU
  {
    hide Count, FineAction, BaseResult, Max;
  }

  lemma ModeStepKeepsSide(config: Config, s: State, i: Input)
    ensures var s' := ModeStep(config, s, i).state;
            s'.tracker.lastSeenU == if LooksDown(s, Frame(i), s') then config.farUDesNorm else s.tracker.lastSeenU
  {
    hide ApproachStep, WaitCameraDownStep, FineAdjustStep, VerifyObservationStep, RecoveryStep, BaseResult;
    match s.mode {
      case Approach => ApproachKeepsSide(config, s, i);
      case WaitCameraDown => ApproachKeepsSide(config, s, i);
      case FineAdjust => FineKeepsSide(config, s, i);
      case VerifyObservation => FineKeepsSide(config, s, i);
      case RecoveryForward => RecoveryKeepsTracker(config, s, i);
      case RecoveryDown => RecoveryKeepsTracker(config, s, i);
      case _ =>
    }
  }

  /** An observation moves the side to the smoothed position, if it shows the ball. */
  lemma ObservingMovesSide(config: Config, s: State, target: Option<ObjectTarget>, width: int, height: int)
    requires !CameraMoving(s.mode)
    ensures var t, x := ObserveOnly(config, s, target, width, height).tracker, SightingOf(config, target, width, height);
            t.lastSeenU == (if x.detected then t.tracked.u else s.tracker.lastSeenU) && t.tracked.visible == x.detected
  {
    hide Count, Push, Clamp, Denom, Smooth, IsUpper, IsLow;
  }

  lemma FrameMovesSide(config: Config, s: State, i: Input)
    ensures var n, s' := ObserveOnly(config, s, i.target, i.width, i.height), Compute(config, s, i).state;
            s'.tracker.lastSeenU == if LooksDown(s, Frame(i), s') then config.farUDesNorm
                                    else if Ignoring(s, i.nowSec) then s.tracker.lastSeenU else n.tracker.lastSeenU
  {
    var n := ObserveOnly(config, s, i.target, i.width, i.height);
    ModeStepKeepsSide(config, Acquire(config, n, i.nowSec), i);
    hide ModeStep, Track, Count;
  }

  lemma EventMovesSide(config: Config, j: Journal, e: Event)
    requires Refines(WindowsOf(config), FieldsOf(j.state.tracker), j.since)
    ensures var s', sees := Apply(config, j.state, e), Sees(config, j.state, e);
            s'.tracker.lastSeenU == if LooksDown(j.state, e, s') then config.farUDesNorm
                                    else if sees != [] && Visible(j.since + sees) then U(config, j.since + sees)
                                    else j.state.tracker.lastSeenU
  {
    hide Refines, FieldsOf, WindowsOf, ObserveOnly, SightingOf, Compute, Mean;
    match e {
      case Frame(i) =>
        FrameMovesSide(config, j.state, i);
        if !CameraMoving(j.state.mode) { LastShown(config, j, i.target, i.width, i.height); }
        CameraSeesNothing(config, j.state, i);
      case Observe(target, width, height) =>
        if !CameraMoving(j.state.mode) { LastShown(config, j, target, width, height); }
        CameraObservesNothing(config, j.state, target, width, height);
      case _ =>
    }
  }

  lemma CameraSeesNothing(config: Config, s: State, i: Input)
    ensures CameraMoving(s.mode) ==> ObserveOnly(config, s, i.target, i.width, i.height) == s
  {
  }

  lemma CameraObservesNothing(config: Config, s: State, target: Option<ObjectTarget>, width: int, height: int)
    ensures CameraMoving(s.mode) ==> ObserveOnly(config, s, target, width, height) == s
  {
  }

  lemma LastShown(config: Config, j: Journal, target: Option<ObjectTarget>, width: int, height: int)
    requires Refines(WindowsOf(config), FieldsOf(j.state.tracker), j.since) && !CameraMoving(j.state.mode)
    ensures var n, seen := ObserveOnly(config, j.state, target, width, height), j.since + [SightingOf(config, target, width, height)];
            n.tracker.lastSeenU == if Visible(seen) then U(config, seen) else j.state.tracker.lastSeenU
  {
    hide Refines, FieldsOf, WindowsOf, ObserveOnly, SightingOf, Mean;
    var i := Input(target, width, height, 0.0, CameraFeedback(ForwardView, true), ActionExecution(false, false));
    ObservedTells(config, j.state, j.since, i);
    ObservingMovesSide(config, j.state, target, width, height);
  }

  /** The side in the state is where the run last showed the ball. */
  lemma {:induction false} SideIsLastSeen(config: Config, events: seq<Event>)
    ensures Run(config, events).state.tracker.lastSeenU == LastSeen(config, events)
  {
    if events != [] {
      var init, e := events[..|events| - 1], events[|events| - 1];
      SideIsLastSeen(config, init);
      TrackerRefined(config, init);
      EventMovesSide(config, Run(config, init), e);
      hide Apply, Sees, Refines, LooksDown, Visible;
    }
  }

  /** Recovery turns go to the side where the ball was last seen since the camera came
      to rest, and there is none when that was central: in every run, every frame of a
      recovery that decides and does not leave the mode asks for exactly that turn. */
  lemma TurnsToLastSide(config: Config, events: seq<Event>, i: Input)
    requires Run(config, events).state.mode in {RecoveryForward, RecoveryDown}
    ensures var s, out := Run(config, events).state, Compute(config, Run(config, events).state, i);
            if MayDecide(s, i) && out.state.mode == s.mode then
              out.result.action == TurnTowards(LastSeen(config, events + [Frame(i)]) - config.farUDesNorm,
                                               config.recoveryCenterToleranceNorm)
            else out.result.action.action.NoAction?
  {
    hide Compute, Run, LastSeen, Visible, TurnTowards, SightingOf;
    RunDecides(config, events, i);
    RunAppend(config, events, Frame(i));
    SideIsLastSeen(config, events + [Frame(i)]);
  }
}
