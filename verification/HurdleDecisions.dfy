/** What the HURDLE controller decides in every frame of every run, told by the sightings
    since the last clear, the clock and the action feedback alone. */
module HurdleDecisions {
  import opened Types
  import opened SlidingWindow
  import opened Asking
  import opened Steering
  import opened TrackerRefinement
  import opened HurdleController
  import opened HurdleProperties

  // ----- What is seen -----

  /** A sighting, in pixels: the rectified position is tracked, the raw row decides about
      entering and about nearness. */
  lemma SightingMeaning(config: Config, target: Option<ObjectTarget>, width: int, height: int)
    ensures var x := SightingOf(config, target, width, height);
            && (x.detected <==> target.Some? && width > 1 && height > 1)
            && (!x.detected ==> !x.first && !x.second)
            && (x.detected ==>
                  var t := target.value;
                  var center := if t.centerRectified then t.rectifiedCenter else t.center;
                  && Normalises(x.u, center.u, width) && Normalises(x.v, center.v, height)
                  && (x.first <==> t.center.v >= config.acquireMinVNorm * height as real)
                  && (x.second <==> t.center.v >= config.tiltTriggerVNorm * height as real))
  {
    hide Normalises;
    if Detected(target, width, height) {
      var t := target.value;
      var center := if t.centerRectified then t.rectifiedCenter else t.center;
      ClampNormalises(center.u, width);
      ClampNormalises(center.v, height);
      QuotientCompares(t.center.v, height, config.acquireMinVNorm);
      QuotientCompares(t.center.v, height, config.tiltTriggerVNorm);
      hide Clamp;
    }
  }

  predicate Visible(seen: seq<Sighting>) { seen != [] && seen[|seen| - 1].detected }

  /** The hurdle is seen steadily, and often low enough in the image. */
  predicate Appears(config: Config, seen: seq<Sighting>) {
    && Visible(seen)
    && Often(DetectedBits(seen), config.stableWindow, config.stableMinHits)
    && Often(FirstBits(seen), config.stableWindow, config.stableMinHits)
  }

  predicate Nears(config: Config, seen: seq<Sighting>) {
    Often(SecondBits(seen), config.tiltTriggerWindow, config.tiltTriggerMinHits)
  }

  ghost predicate IsLost(config: Config, seen: seq<Sighting>) { Missing(DetectedBits(seen), config.lostFrames) }

  // ----- What is decided, mode by mode -----

  /** Walk on until the hurdle is near; then, once no action runs, lower the camera. */
  ghost predicate Approaches(config: Config, latched: bool, seen: seq<Sighting>, i: Input, out: Step) {
    var mode', a, near := out.state.mode, Ask(out.result.camera, out.result.action), latched || Nears(config, seen);
    if IsLost(config, seen) then mode' == RecoveryForward && Quiet(a) && out.state.closeLatched == latched
    else
      && out.state.closeLatched == near
      && if !near then mode' == Approach && Asks(a, Locomotion(StepForwardFive, 0))
         else if i.execution.active && !i.execution.done then mode' == Approach && Quiet(a)
         else mode' == WaitCameraDown && MovesCamera(a, CameraDown)
  }

  /** With the camera down, one contact step follows at once. */
  ghost predicate WaitsForFloor(config: Config, s: State, i: Input, out: Step) {
    var mode', a := out.state.mode, Ask(out.result.camera, out.result.action);
    if i.camera.settled && i.camera.actualMode == DownView then mode' == Contact && Asks(a, CONTACT)
    else if i.nowSec - s.stateEnterSec >= config.cameraMotionTimeoutSec then mode' == Failed && Quiet(a)
    else mode' == WaitCameraDown && MovesCamera(a, CameraDown)
  }

  ghost predicate ReturnsCamera(config: Config, i: Input, out: Step) {
    var mode', a := out.state.mode, Ask(out.result.camera, out.result.action);
    if i.camera.settled && i.camera.actualMode == ForwardView then
      mode' == LineFollow && Quiet(a) && out.state.ignoreUntilSec == i.nowSec + config.hurdleIgnoreDurationSec
    else mode' == ReturnCamera && MovesCamera(a, CameraForward)
  }

  /** Nothing is in flight and the robot has come to rest. */
  predicate MayDecide(s: State, i: Input) {
    !i.execution.active && !i.execution.done && i.nowSec - s.settleUntilSec >= -0.000000001
  }

  /** Go on after enough frames in a row that show the hurdle at rest, give up after the
      timeout, and otherwise turn to the side where the hurdle was last. */
  ghost predicate Recovers(config: Config, s: State, seen: seq<Sighting>, i: Input, out: Step) {
    var mode', a := out.state.mode, Ask(out.result.camera, out.result.action);
    var inView := if Visible(seen) then s.tracker.recoveryVisible + 1 else 0;
    if !MayDecide(s, i) then
      mode' == RecoveryForward && Quiet(a) && out.state.tracker.recoveryVisible == s.tracker.recoveryVisible
    else
      && out.state.tracker.recoveryVisible == inView
      && if inView >= Max(1, config.recoveryReacquireMinHits) then mode' == Approach && Quiet(a)
         else if i.nowSec - s.stateEnterSec >= config.recoveryTimeoutSec then mode' == Failed && Quiet(a)
         else
           && mode' == RecoveryForward && a.camera.NoCamera?
           && a.action == TurnTowards(out.state.tracker.lastSeenU - 0.5, config.recoveryCenterToleranceNorm)
  }

  ghost predicate Watches(config: Config, s: State, seen: seq<Sighting>, i: Input, out: Step) {
    if i.nowSec < s.ignoreUntilSec then out.state == s && Quiet(Ask(out.result.camera, out.result.action))
    else if Appears(config, seen) then Approaches(config, s.closeLatched, seen, i, out)
    else out.state.mode == LineFollow && Quiet(Ask(out.result.camera, out.result.action))
  }

  ghost predicate Decided(config: Config, s: State, seen: seq<Sighting>, i: Input, out: Step) {
    match s.mode
    case LineFollow => Watches(config, s, seen, i, out)
    case Approach => Approaches(config, s.closeLatched, seen, i, out)
    case WaitCameraDown => WaitsForFloor(config, s, i, out)
    case ReturnCamera => ReturnsCamera(config, i, out)
    case RecoveryForward => Recovers(config, s, seen, i, out)
    case _ => true
  }

  /** The clocks: when the present wait began, and until when the robot rests. */
  ghost predicate Clocked(config: Config, s: State, i: Input, s': State) {
    && (s'.mode in {WaitCameraDown, RecoveryForward} ==>
          s'.stateEnterSec == if s'.mode == s.mode then s.stateEnterSec else i.nowSec)
    && (s'.mode in {Approach, RecoveryForward} && !s.mode.LineFollow? ==>
          s'.settleUntilSec == if s.mode == s'.mode == RecoveryForward && i.execution.done then i.nowSec + config.recoverySettleDurationSec
                               else s.settleUntilSec)
    && (s.mode == LineFollow && s'.mode == Approach ==> s'.settleUntilSec == s.settleUntilSec)
    && (s'.mode == RecoveryForward && s.mode != RecoveryForward ==> s'.tracker.recoveryVisible == 0)
    && (s.mode == ReturnCamera && s'.mode == LineFollow ==> s'.settleUntilSec == 0.0 && !s'.closeLatched)
  }

  // ----- The tracker tells what was seen -----

  ghost predicate Tells(config: Config, t: Tracker, seen: seq<Sighting>) {
    && t.tracked.visible == Visible(seen)
    && (t.lost >= Max(1, config.lostFrames) <==> IsLost(config, seen))
    && (t.tracked.stable <==> Often(DetectedBits(seen), config.stableWindow, config.stableMinHits))
    && (Count(t.acquire) >= Max(1, config.stableMinHits) <==> Often(FirstBits(seen), config.stableWindow, config.stableMinHits))
    && (Count(t.tilt) >= Max(1, config.tiltTriggerMinHits) <==> Nears(config, seen))
  }

  lemma RefinedTells(config: Config, t: Tracker, seen: seq<Sighting>)
    requires Refines(WindowsOf(config), FieldsOf(t), seen)
    ensures Tells(config, t, seen)
  {
    hide Count, Missing, TrailingMisses, Mean, BoundsU, BoundsV, Weighed;
    MissingIff(DetectedBits(seen), config.lostFrames);
  }

  lemma ApproachDecides(config: Config, s: State, seen: seq<Sighting>, i: Input)
    requires s.mode == Approach && Tells(config, s.tracker, seen)
    ensures Approaches(config, s.closeLatched, seen, i, ApproachStep(config, s, i))
  {
    hide Count, IsLost, Nears, Often;
  }

  lemma CameraDecides(config: Config, s: State, i: Input)
    ensures s.mode == WaitCameraDown ==> WaitsForFloor(config, s, i, WaitCameraDownStep(config, s, i))
    ensures s.mode == ReturnCamera ==> ReturnsCamera(config, i, ReturnCameraStep(config, s, i))
  {
  }

  lemma RecoveryDecides(config: Config, s: State, seen: seq<Sighting>, i: Input)
    requires s.mode == RecoveryForward && Tells(config, s.tracker, seen)
    ensures Recovers(config, s, seen, i, RecoveryStep(config, s, i))
  {
    hide Count, IsLost, Nears, Often;
  }

  lemma ObservedTells(config: Config, s: State, since: seq<Sighting>, i: Input)
    requires Refines(WindowsOf(config), FieldsOf(s.tracker), since) && !CameraMoving(s.mode)
    ensures var n := ObserveOnly(config, s, i.target, i.width, i.height);
            && Tells(config, n.tracker, since + [SightingOf(config, i.target, i.width, i.height)])
            && n == s.(tracker := n.tracker) && n.tracker.recoveryVisible == s.tracker.recoveryVisible
  {
    var n, x := ObserveOnly(config, s, i.target, i.width, i.height), SightingOf(config, i.target, i.width, i.height);
    ObserveFields(config, s, i.target, i.width, i.height);
    hide Refines, Tells, FieldsOf, WindowsOf, SightingOf, Advance, Observed, AtLeast, Push, Count;
    AdvanceRefines(WindowsOf(config), FieldsOf(s.tracker), since, x);
    RefinedTells(config, n.tracker, since + [x]);
  }

  lemma AppearsIff(config: Config, s: State, seen: seq<Sighting>)
    requires s.mode == LineFollow && Tells(config, s.tracker, seen)
    ensures Acquired(config, s) <==> Appears(config, seen)
  {
    hide Often, Visible, Count, IsLost, Nears;
  }

  /** A frame on the line is skipped, only observes, or begins the approach. */
  lemma ComputeOnLine(config: Config, s: State, i: Input)
    requires s.mode == LineFollow
    ensures var n := ObserveOnly(config, s, i.target, i.width, i.height);
            Compute(config, s, i)
            == if i.nowSec < s.ignoreUntilSec then Step(s, IDLE_RESULT)
               else if Acquired(config, n) then ApproachStep(config, Acquire(config, n, i.nowSec), i)
               else Step(n, BaseResult(n))
  {
    hide Track, Count, ApproachStep;
  }

  lemma WatchDecides(config: Config, s: State, since: seq<Sighting>, i: Input)
    requires s.mode == LineFollow && Refines(WindowsOf(config), FieldsOf(s.tracker), since)
    ensures Watches(config, s, since + [SightingOf(config, i.target, i.width, i.height)], i, Compute(config, s, i))
  {
    hide Refines, SightingOf, ObserveOnly, FieldsOf, Tells, Appears, Acquired, Approaches, ApproachStep, Compute;
    var seen, n := since + [SightingOf(config, i.target, i.width, i.height)], ObserveOnly(config, s, i.target, i.width, i.height);
    ObservedTells(config, s, since, i);
    AppearsIff(config, n, seen);
    ComputeOnLine(config, s, i);
    if Acquired(config, n) { ApproachDecides(config, Acquire(config, n, i.nowSec), seen, i); }
  }

  lemma RecoveryIgnoresTracker(config: Config, s: State, n: State, seen: seq<Sighting>, i: Input, out: Step)
    requires n == s.(tracker := n.tracker) && n.tracker.recoveryVisible == s.tracker.recoveryVisible
    requires Recovers(config, n, seen, i, out)
    ensures Recovers(config, s, seen, i, out)
  {
    hide Visible, TurnTowards;
  }

  /** Whatever the state: a step is decided by what has been seen since the last clear. */
  lemma StepDecides(config: Config, s: State, since: seq<Sighting>, i: Input)
    requires Refines(WindowsOf(config), FieldsOf(s.tracker), since)
    ensures Decided(config, s, since + [SightingOf(config, i.target, i.width, i.height)], i, Compute(config, s, i))
  {
    hide Refines, SightingOf, Watches, Approaches, Recovers, WaitsForFloor, ReturnsCamera, Tells,
         ApproachStep, RecoveryStep, WaitCameraDownStep, ReturnCameraStep, ContactStep, CrossStep, Track, Count, FieldsOf;
    var seen, n := since + [SightingOf(config, i.target, i.width, i.height)], ObserveOnly(config, s, i.target, i.width, i.height);
    if !CameraMoving(s.mode) { ObservedTells(config, s, since, i); }
    match s.mode {
      case LineFollow => WatchDecides(config, s, since, i);
      case Approach => ApproachDecides(config, n, seen, i);
      case WaitCameraDown => CameraDecides(config, s, i);
      case ReturnCamera => CameraDecides(config, s, i);
      case RecoveryForward =>
        RecoveryDecides(config, n, seen, i);
        RecoveryIgnoresTracker(config, s, n, seen, i, RecoveryStep(config, n, i));
      case _ =>
    }
  }

  /** Every frame of every run decides exactly as the sightings since the last clear,
      the clock and the action feedback call for. */
  lemma RunDecides(config: Config, events: seq<Event>, i: Input)
    ensures var j := Run(config, events);
            Decided(config, j.state, j.since + [SightingOf(config, i.target, i.width, i.height)], i, Compute(config, j.state, i))
  {
    hide Refines, Compute, Decided, SightingOf, Run;
    TrackerRefined(config, events);
    StepDecides(config, Run(config, events).state, Run(config, events).since, i);
  }

  // ----- What is published -----

  /** The sizes of a detected hurdle, as shares of the image. */
  lemma SizesMeaning(target: ObjectTarget, width: int, height: int)
    requires width > 1 && height > 1
    ensures var o := Observed(target, width, height);
            && Normalises(o.h, target.heightPx, height) && Normalises(o.bottom, target.boxY + target.boxHeight, height)
            && o.confidence == target.confidence
  {
    hide Normalises, Clamp;
    ClampNormalises(target.heightPx, height);
    ClampNormalises(target.boxY + target.boxHeight, height);
  }

  /** The published track is what the sightings amount to; sizes and confidence are those
      of the last detection. */
  ghost predicate Published(config: Config, s: State, seen: seq<Sighting>, i: Input, r: Tracked) {
    && r.visible == Visible(seen)
    && (r.stable <==> Often(DetectedBits(seen), config.stableWindow, config.stableMinHits))
    && if Visible(seen) then
         i.target.Some? &&
         var o := Observed(i.target.value, i.width, i.height);
         && r.u == Mean(Us(seen), config.smoothAlpha) && r.v == Mean(Vs(seen), config.smoothAlpha)
         && r.h == o.h && r.bottom == o.bottom && r.confidence == o.confidence
       else r == s.tracker.tracked.(visible := false, stable := r.stable)
  }

  lemma TrackStep(config: Config, t: Tracker, target: Option<ObjectTarget>, width: int, height: int)
    ensures var r := Track(config, t, target, width, height).tracked;
            if Detected(target, width, height) then
              var o := Observed(target.value, width, height);
              r.h == o.h && r.bottom == o.bottom && r.confidence == o.confidence
            else r == t.tracked.(visible := false, stable := r.stable)
  {
    hide Push, Count, Clamp, Denom, Smooth;
  }

  lemma MeansOf(config: Config, t: Tracker, seen: seq<Sighting>)
    requires Refines(WindowsOf(config), FieldsOf(t), seen) && Visible(seen)
    ensures t.tracked.u == Mean(Us(seen), config.smoothAlpha) && t.tracked.v == Mean(Vs(seen), config.smoothAlpha)
  {
    hide Histories, Mean, BoundsU, BoundsV;
    assert seen[|seen| - 1].detected;
  }

  lemma TrackPublishes(config: Config, s: State, since: seq<Sighting>, i: Input)
    requires Refines(WindowsOf(config), FieldsOf(s.tracker), since) && !CameraMoving(s.mode)
    ensures Published(config, s, since + [SightingOf(config, i.target, i.width, i.height)], i,
                      ObserveOnly(config, s, i.target, i.width, i.height).tracker.tracked)
  {
    var seen, n := since + [SightingOf(config, i.target, i.width, i.height)], ObserveOnly(config, s, i.target, i.width, i.height);
    ObserveFields(config, s, i.target, i.width, i.height);
    AdvanceRefines(WindowsOf(config), FieldsOf(s.tracker), since, SightingOf(config, i.target, i.width, i.height));
    hide Refines, FieldsOf, WindowsOf, Track, Often, Mean, IsLost, Nears, AtLeast, Observed, Advance;
    ObservedTells(config, s, since, i);
    TrackStep(config, s.tracker, i.target, i.width, i.height);
    if Visible(seen) { MeansOf(config, n.tracker, seen); }
  }

  /** A step publishes the track of its frame, and whether the controller is active. */
  ghost predicate Reports(n: State, out: Step) {
    && (out.state.mode == LineFollow || out.result.tracked == if out.state.mode == Contact && n.mode == WaitCameraDown then NOT_TRACKED
                                                               else n.tracker.tracked)
    && (out.result.active <==> out.state.mode != LineFollow)
  }

  lemma ModeStepReports(config: Config, s: State, i: Input)
    ensures Reports(s, ModeStep(config, s, i))
  {
    hide Count, RecoveryAction, ClearTracking, Max;
  }

  /** Outside camera motions, and unless the hurdle is ignored, every frame of every run
      that is not back on the line publishes what the sightings since the last clear
      amount to. */
  lemma RunPublishes(config: Config, events: seq<Event>, i: Input)
    ensures var j, out := Run(config, events), Compute(config, Run(config, events).state, i);
            && (out.result.active <==> out.state.mode != LineFollow)
            && (!CameraMoving(j.state.mode) && out.state.mode != LineFollow ==>
                  Published(config, j.state, j.since + [SightingOf(config, i.target, i.width, i.height)], i, out.result.tracked))
  {
    var j := Run(config, events);
    var n := ObserveOnly(config, j.state, i.target, i.width, i.height);
    TrackerRefined(config, events);
    if !CameraMoving(j.state.mode) { TrackPublishes(config, j.state, j.since, i); }
    ModeStepReports(config, Acquire(config, n, i.nowSec), i);
    if Acquire(config, n, i.nowSec).mode == Approach { LeavesLineStepwise(config, Acquire(config, n, i.nowSec), i); }
    hide ModeStep, Refines, Published, Run, SightingOf, Track, Count;
  }

  lemma LeavesLineStepwise(config: Config, s: State, i: Input)
    requires s.mode == Approach
    ensures ModeStep(config, s, i).state.mode != Contact
  {
  }

  // ----- The clocks -----

  lemma ApproachClocks(config: Config, s: State, i: Input)
    requires s.mode in {Approach, WaitCameraDown, RecoveryForward}
    ensures Clocked(config, s, i,
                    (if s.mode == Approach then ApproachStep(config, s, i)
                     else if s.mode == WaitCameraDown then WaitCameraDownStep(config, s, i) else RecoveryStep(config, s, i)).state)
  {
    hide Count, BaseResult, ClearTracking, Max, RecoveryAction;
  }

  lemma ModeStepClocks(config: Config, s: State, i: Input)
    requires !s.mode.LineFollow?
    ensures Clocked(config, s, i, ModeStep(config, s, i).state)
  {
    hide ApproachStep, WaitCameraDownStep, RecoveryStep;
    match s.mode {
      case Approach => ApproachClocks(config, s, i);
      case WaitCameraDown => ApproachClocks(config, s, i);
      case RecoveryForward => ApproachClocks(config, s, i);
      case _ =>
    }
  }

  /** When a wait began and until when the robot rests is the time of the frame that
      began it, or of the last DONE, plus the configured duration. */
  lemma StepClocks(config: Config, s: State, i: Input)
    ensures Clocked(config, s, i, Compute(config, s, i).state)
  {
    var n := Acquire(config, ObserveOnly(config, s, i.target, i.width, i.height), i.nowSec);
    if !Ignoring(s, i.nowSec) && !n.mode.LineFollow? { ModeStepClocks(config, n, i); }
    hide Track, Count, ModeStep;
    FreshTracksAreNotLost(config, s, i);
  }

  // ----- After the return -----

  /** On the line, ignoring the hurdle until a given time, with a fresh approach ahead. */
  predicate Ignores(s: State, untilSec: real) { s.mode == LineFollow && s.ignoreUntilSec == untilSec && !s.closeLatched }

  lemma IgnoringGoesOn(config: Config, s: State, e: Event, untilSec: real)
    requires Ignores(s, untilSec) && !e.ResetController? && (e.Frame? ==> e.input.nowSec < untilSec)
    ensures Ignores(Apply(config, s, e), untilSec)
  {
    hide Track, Count, ModeStep;
  }

  /** From the frame in which the camera looks forward again, and for the configured time,
      no hurdle is engaged, whatever is seen. */
  lemma {:induction false} IgnoredAfterCrossing(config: Config, events: seq<Event>, n: nat, k: nat)
    requires n < k <= |events| && events[n].Frame?
    requires Run(config, events[..n]).state.mode == ReturnCamera && Run(config, events[..n + 1]).state.mode == LineFollow
    requires forall j :: n < j < k ==> !events[j].ResetController?
    requires forall j :: n < j < k && events[j].Frame? ==>
               events[j].input.nowSec < events[n].input.nowSec + config.hurdleIgnoreDurationSec
    ensures Ignores(Run(config, events[..k]).state, events[n].input.nowSec + config.hurdleIgnoreDurationSec)
  {
    hide Run, Record, Ignores, Apply;
    assert events[..k] == events[..k - 1] + [events[k - 1]];
    RunAppend(config, events[..k - 1], events[k - 1]);
    RecordApplies(config, Run(config, events[..k - 1]), events[k - 1]);
    if k == n + 1 {
      BeginsIgnoring(config, Run(config, events[..n]).state, events[n].input);
    } else {
      IgnoredAfterCrossing(config, events, n, k - 1);
      IgnoringGoesOn(config, Run(config, events[..k - 1]).state, events[k - 1], events[n].input.nowSec + config.hurdleIgnoreDurationSec);
    }
  }

  lemma RecordApplies(config: Config, j: Journal, e: Event)
    ensures Record(config, j, e).state == Apply(config, j.state, e)
  {
    hide Apply, Sees, Clears;
  }

  lemma BeginsIgnoring(config: Config, s: State, i: Input)
    requires s.mode == ReturnCamera && Apply(config, s, Frame(i)).mode == LineFollow
    ensures Ignores(Apply(config, s, Frame(i)), i.nowSec + config.hurdleIgnoreDurationSec)
  {
    hide Track, Count;
  }

  /** A reset leaves nothing to wait for: no track, no memory of nearness, no ignoring. */
  lemma ResetForgets(s: State)
    ensures var s' := ResetState(s);
            && s'.mode == LineFollow && s'.ignoreUntilSec == 0.0 && s'.settleUntilSec == 0.0 && !s'.closeLatched
            && FieldsOf(s'.tracker) == CLEARED && s'.tracker.lastSeenU == 0.5
  {
  }

  // ----- Where the hurdle was last -----

  /** The camera has come to rest, or the controller has gone back to the line. */
  predicate Recentres(s: State, e: Event, s': State) {
    match e
    case Frame(_) => Forgets(s.mode, s'.mode)
    case ResetController => true
    case _ => false
  }

  /** Where the hurdle was last, told by the run: the column of the last sighting that
      shows it, or the middle of the image if the camera has come to rest since. */
  function LastSeen(config: Config, events: seq<Event>): real {
    if events == [] then 0.5
    else
      var j, e := Run(config, events[..|events| - 1]), events[|events| - 1];
      var sees := Sees(config, j.state, e);
      if Recentres(j.state, e, Run(config, events).state) then 0.5
      else if Visible(sees) then sees[|sees| - 1].u
      else LastSeen(config, events[..|events| - 1])
  }

  lemma ModeStepKeepsSide(config: Config, s: State, i: Input)
    ensures var s' := ModeStep(config, s, i).state;
            s'.tracker.lastSeenU == if Forgets(s.mode, s'.mode) then 0.5 else s.tracker.lastSeenU
  {
    hide Count, RecoveryAction, BaseResult, Max;
  }

  lemma FrameMovesSide(config: Config, s: State, i: Input)
    ensures var n, s' := ObserveOnly(config, s, i.target, i.width, i.height), Compute(config, s, i).state;
            s'.tracker.lastSeenU == if Forgets(s.mode, s'.mode) then 0.5
                                    else if Ignoring(s, i.nowSec) then s.tracker.lastSeenU else n.tracker.lastSeenU
  {
    var n := ObserveOnly(config, s, i.target, i.width, i.height);
    ModeStepKeepsSide(config, Acquire(config, n, i.nowSec), i);
    hide ModeStep, Track, Count;
  }

  lemma ObservingMovesSide(config: Config, s: State, target: Option<ObjectTarget>, width: int, height: int)
    ensures var t, x := ObserveOnly(config, s, target, width, height).tracker, SightingOf(config, target, width, height);
            t.lastSeenU == if x.detected && !CameraMoving(s.mode) then x.u else s.tracker.lastSeenU
  {
    hide Count, Push, Clamp, Denom, Smooth, AtLeast;
  }

  lemma EventMovesSide(config: Config, s: State, e: Event)
    ensures var s', sees := Apply(config, s, e), Sees(config, s, e);
            s'.tracker.lastSeenU == if Recentres(s, e, s') then 0.5
                                    else if Visible(sees) then sees[|sees| - 1].u
                                    else s.tracker.lastSeenU
  {
    hide ObserveOnly, SightingOf, Compute;
    match e {
      case Frame(i) =>
        FrameMovesSide(config, s, i);
        ObservingMovesSide(config, s, i.target, i.width, i.height);
      case Observe(target, width, height) => ObservingMovesSide(config, s, target, width, height);
      case _ =>
    }
  }

  /** The side in the state is where the run last showed the hurdle. */
  lemma {:induction false} SideIsLastSeen(config: Config, events: seq<Event>)
    ensures Run(config, events).state.tracker.lastSeenU == LastSeen(config, events)
  {
    if events != [] {
      var init, e := events[..|events| - 1], events[|events| - 1];
      SideIsLastSeen(config, init);
      EventMovesSide(config, Run(config, init).state, e);
      hide Apply, Sees, Recentres, Visible;
    }
  }

  /** Recovery turns go to the side where the hurdle was last seen since the camera came
      to rest, and there is none when that was central: in every run, every frame of a
      recovery that decides and does not leave the mode asks for exactly that turn. */
  lemma TurnsToLastSide(config: Config, events: seq<Event>, i: Input)
    requires Run(config, events).state.mode == RecoveryForward
    ensures var s, out := Run(config, events).state, Compute(config, Run(config, events).state, i);
            if MayDecide(s, i) && out.state.mode == s.mode then
              out.result.action == TurnTowards(LastSeen(config, events + [Frame(i)]) - 0.5, config.recoveryCenterToleranceNorm)
            else out.result.action.action.NoAction?
  {
    hide Compute, Run, LastSeen, Visible, TurnTowards, SightingOf;
    RunDecides(config, events, i);
    RunAppend(config, events, Frame(i));
    SideIsLastSeen(config, events + [Frame(i)]);
  }

  lemma RunAppend(config: Config, events: seq<Event>, e: Event)
    ensures Run(config, events + [e]) == Record(config, Run(config, events), e)
  {
    hide Record;
    assert (events + [e])[..|events|] == events;
  }
}
