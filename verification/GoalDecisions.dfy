/** What the GOAL controller decides in every frame of every run, told by what was seen of
    the backboard and its pose since the last clear, the clock and the feedback alone. */
module GoalDecisions {
  import opened Types
  import opened SlidingWindow
  import opened Asking
  import opened Steering
  import opened TrackerRefinement
  import opened GoalController
  import opened GoalProperties

  // ----- What is seen -----

  /** A sighting of the backboard, in pixels, and one of its pose: only with a backboard,
      and with a positive depth. */
  lemma SightingMeaning(config: Config, backboard: Option<ObjectTarget>, pose: PoseObservation, width: int, height: int)
    ensures var look := Look(config, backboard, pose, width, height);
            && (look.board.detected <==> backboard.Some? && width > 1 && height > 1)
            && (look.board.detected ==>
                  var t := backboard.value;
                  var center := if t.centerRectified then t.rectifiedCenter else t.center;
                  Normalises(look.board.u, center.u, width) && Normalises(look.board.v, center.v, height))
            && (look.pose.detected <==> backboard.Some? && pose.valid && pose.z > 0.0)
            && (look.pose.first <==> look.pose.detected && pose.z <= config.fineAdjustStartZM)
            && (look.pose.detected ==> look.pose.u == pose.x && look.pose.v == pose.z)
  {
    hide Normalises;
    if Detected(backboard, width, height) {
      var t := backboard.value;
      var center := if t.centerRectified then t.rectifiedCenter else t.center;
      ClampNormalises(center.u, width);
      ClampNormalises(center.v, height);
      hide Clamp;
    }
  }

  predicate Visible(seen: seq<Sighting>) { seen != [] && seen[|seen| - 1].detected }

  function U(config: Config, seen: seq<Sighting>): real { Mean(Us(seen), config.smoothAlpha) }

  predicate Steady(config: Config, seen: seq<Sighting>) { Often(DetectedBits(seen), config.stableWindow, config.stableMinHits) }

  ghost predicate IsLost(config: Config, seen: seq<Sighting>) { Missing(DetectedBits(seen), config.lostFrames) }

  /** The pose is seen steadily, and often near enough to align. */
  predicate IsNear(config: Config, poses: seq<Sighting>) {
    Visible(poses) && Steady(config, poses) && Often(FirstBits(poses), config.stableWindow, config.stableMinHits)
  }

  /** The backboard was seen since the camera came up, and then off to one side. */
  predicate OffToOneSide(config: Config, s: State) {
    var error := s.board.lastSeenU - config.targetUNorm;
    s.board.seenAfterCamera && !(-config.recoveryCenterToleranceNorm <= error <= config.recoveryCenterToleranceNorm)
  }

  // ----- What is decided, mode by mode -----

  predicate MayDecide(s: State, i: Input) {
    !i.execution.active && !i.execution.done && i.nowSec - s.settleUntilSec >= -0.000000001
  }

  /** Carrying the ball along a valid line for the configured time, with no action
      running: the camera is turned to the goal. */
  ghost predicate Watches(config: Config, s: State, i: Input, out: Step) {
    var b, a := out.state.ball, Ask(out.result.camera, out.result.action);
    if !s.ball.hasBall || !s.ball.armed then out.state.mode == LineFollow && b == s.ball && Quiet(a)
    else if !i.lineReferenceValid then out.state.mode == LineFollow && b == s.ball.(lineWaitActive := false) && Quiet(a)
    else
      var start := if s.ball.lineWaitActive then s.ball.lineWaitStartSec else i.nowSec;
      var due := s.ball.triggerLatched || i.nowSec - start >= config.postPickupWaitSec;
      && b == s.ball.(lineWaitActive := true, lineWaitStartSec := start, triggerLatched := due)
      && if due && (!i.execution.active || i.execution.done) then WaitsForGoal(config, i.nowSec, i, out)
         else out.state.mode == LineFollow && Quiet(a)
  }

  ghost predicate WaitsForGoal(config: Config, enterSec: real, i: Input, out: Step) {
    var mode', a := out.state.mode, Ask(out.result.camera, out.result.action);
    if i.camera.settled && i.camera.actualMode == GoalView then mode' == Search && Quiet(a)
    else if i.nowSec - enterSec >= config.cameraMotionTimeoutSec then mode' == Failed && Quiet(a)
    else mode' == WaitCameraGoal && MovesCamera(a, CameraGoal)
  }

  ghost predicate Searches(config: Config, s: State, boards: seq<Sighting>, poses: seq<Sighting>, i: Input, out: Step) {
    var mode', a := out.state.mode, Ask(out.result.camera, out.result.action);
    && out.state.fineLatched == s.fineLatched
    && if IsLost(config, boards) && OffToOneSide(config, s) then mode' == RecoverySearch && Quiet(a)
       else if IsNear(config, poses) then mode' == FineAdjust && Quiet(a)
       else if Visible(boards) && Steady(config, boards) then
         mode' == Approach && Asks(a, Locomotion(WalkTowards(U(config, boards) - config.targetUNorm, config.approachUDeadband), 0))
       else mode' == Search && Quiet(a)
  }

  /** Walk towards the backboard until it is near; search for it again when it is lost. */
  ghost predicate Approaches(config: Config, s: State, boards: seq<Sighting>, poses: seq<Sighting>, i: Input, out: Step) {
    var mode', a, near := out.state.mode, Ask(out.result.camera, out.result.action), s.fineLatched || IsNear(config, poses);
    && out.state.fineLatched == near
    && if near then (if i.execution.active && !i.execution.done then mode' == Approach && Quiet(a) else mode' == FineAdjust && Quiet(a))
       else if IsLost(config, boards) then mode' == (if OffToOneSide(config, s) then RecoverySearch else Search) && Quiet(a)
       else
         && mode' == Approach && a.camera.NoCamera?
         && a.action == Locomotion(if Visible(boards) then WalkTowards(U(config, boards) - config.targetUNorm, config.approachUDeadband)
                                   else NoAction, 0)
  }

  /** The yaw of a SHOOT: the given angle in whole degrees, halves away from zero. */
  predicate Aims(request: ActionRequest, yawRad: real) {
    var degrees := yawRad * 180.0 / 3.14159265358979323846;
    var x := if degrees < -180.0 then -180.0 else if degrees > 180.0 then 180.0 else degrees;
    && request == MissionRequest(Shoot, request.yawDeg)
    && (if x >= 0.0 then x - 0.5 < request.yawDeg as real <= x + 0.5 else x - 0.5 <= request.yawDeg as real < x + 0.5)
  }

  predicate Aligned(config: Config, pose: PoseObservation) {
    var range := config.geometry.rimDistance(pose.x, pose.z, pose.yaw) - config.throwingRangeM;
    var degrees := config.geometry.shootYawRad(pose.x, pose.z, pose.yaw) * 180.0 / 3.14159265358979323846;
    && -config.positionToleranceM <= range <= config.positionToleranceM
    && -config.shootYawLimitDeg <= degrees <= config.shootYawLimitDeg
  }

  /** SHOOT exactly when a valid pose has the rim at throwing range and within the yaw
      limit; otherwise one step that first corrects the range and then goes to the side
      of the rim. */
  ghost predicate FineAdjusts(config: Config, s: State, boards: seq<Sighting>, poses: seq<Sighting>, i: Input, out: Step) {
    var mode', a, p := out.state.mode, Ask(out.result.camera, out.result.action), i.pose;
    var range := config.geometry.rimDistance(p.x, p.z, p.yaw) - config.throwingRangeM;
    var yaw := config.geometry.shootYawRad(p.x, p.z, p.yaw);
    if !MayDecide(s, i) then mode' == FineAdjust && Quiet(a)
    else if IsLost(config, poses) then
      mode' == (if Visible(boards) then Approach else Search) && Quiet(a) && !out.state.fineLatched
    else if !p.valid || p.z <= 0.0 then mode' == FineAdjust && Quiet(a)
    else if Aligned(config, p) then
      mode' == Shooting && a.camera.NoCamera? && Aims(a.action, yaw) && out.state.shootYawRad == yaw
    else
      && mode' == FineAdjust
      && Asks(a, Locomotion(if range > config.positionToleranceM then StepForwardHalf
                            else if range < -config.positionToleranceM then StepBack
                            else if config.geometry.rimX(p.x, p.z, p.yaw) > 0.0 then RightSideStep
                            else LeftSideStep, 0))
  }

  /** SHOOT is repeated with the yaw it began with. */
  ghost predicate Shoots(s: State, i: Input, out: Step) {
    var mode', a := out.state.mode, Ask(out.result.camera, out.result.action);
    if i.execution.done then mode' == ReturnCamera && MovesCamera(a, CameraForward)
    else mode' == Shooting && a.camera.NoCamera? && Aims(a.action, s.shootYawRad) && out.state.shootYawRad == s.shootYawRad
  }

  ghost predicate ReturnsCamera(i: Input, out: Step) {
    var mode', a := out.state.mode, Ask(out.result.camera, out.result.action);
    if i.camera.settled && i.camera.actualMode == ForwardView then mode' == HeadingRecovery && Quiet(a)
    else mode' == ReturnCamera && MovesCamera(a, CameraForward)
  }

  /** Search again after enough frames in a row that show the backboard at rest, give up
      after the timeout, and otherwise turn to the side where it was last. */
  ghost predicate Recovers(config: Config, s: State, boards: seq<Sighting>, i: Input, out: Step) {
    var mode', a := out.state.mode, Ask(out.result.camera, out.result.action);
    var inView := if Visible(boards) then s.recoveryVisible + 1 else 0;
    if !MayDecide(s, i) then mode' == RecoverySearch && Quiet(a) && out.state.recoveryVisible == s.recoveryVisible
    else
      && out.state.recoveryVisible == inView
      && if inView >= Max(1, config.recoveryReacquireMinHits) then mode' == Search && Quiet(a)
         else if i.nowSec - s.stateEnterSec >= config.recoveryTimeoutSec then mode' == Failed && Quiet(a)
         else
           && mode' == RecoverySearch && a.camera.NoCamera?
           && if Visible(boards) then Quiet(a)
              else a.action == TurnTowards(out.state.board.lastSeenU - config.targetUNorm, config.recoveryCenterToleranceNorm)
  }

  ghost predicate Decided(config: Config, s: State, boards: seq<Sighting>, poses: seq<Sighting>, i: Input, out: Step) {
    match s.mode
    case LineFollow => Watches(config, s, i, out)
    case WaitCameraGoal => WaitsForGoal(config, s.stateEnterSec, i, out)
    case Search => Searches(config, s, boards, poses, i, out)
    case Approach => Approaches(config, s, boards, poses, i, out)
    case FineAdjust => FineAdjusts(config, s, boards, poses, i, out)
    case Shooting => Shoots(s, i, out)
    case ReturnCamera => ReturnsCamera(i, out)
    case RecoverySearch => Recovers(config, s, boards, i, out)
    case _ => true
  }

  /** The clocks: when the present wait began, and until when the robot rests. */
  ghost predicate Clocked(config: Config, s: State, i: Input, s': State) {
    && (s'.mode in {WaitCameraGoal, RecoverySearch} ==>
          s'.stateEnterSec == if s'.mode == s.mode then s.stateEnterSec else i.nowSec)
    && (s'.mode == FineAdjust ==>
          s'.settleUntilSec == if s.mode != FineAdjust || i.execution.done then i.nowSec + config.fineSettleDurationSec
                               else s.settleUntilSec)
    && (s'.mode == RecoverySearch ==>
          s'.settleUntilSec == if s.mode != RecoverySearch then i.nowSec
                               else if i.execution.done then i.nowSec + config.recoverySettleDurationSec
                               else s.settleUntilSec)
    && (s'.mode == RecoverySearch && s.mode != RecoverySearch ==> s'.recoveryVisible == 0)
  }

  // ----- The trackers tell what was seen -----

  ghost predicate TellsBoard(config: Config, t: Tracker, seen: seq<Sighting>) {
    && t.tracked.visible == Visible(seen)
    && (Visible(seen) ==> t.tracked.u == U(config, seen))
    && (t.lost >= Max(1, config.lostFrames) <==> IsLost(config, seen))
    && (t.tracked.stable <==> Steady(config, seen))
  }

  ghost predicate TellsPose(config: Config, t: PoseTracker, seen: seq<Sighting>) {
    && t.tracked.visible == Visible(seen)
    && (t.lost >= Max(1, config.lostFrames) <==> IsLost(config, seen))
    && (t.tracked.stable <==> Steady(config, seen))
    && (Count(t.fineEnter) >= Max(1, config.stableMinHits) <==> Often(FirstBits(seen), config.stableWindow, config.stableMinHits))
  }

  lemma BoardTells(config: Config, board: Tracker, boards: seq<Sighting>)
    requires Refines(WindowsOf(config), BoardFields(board), boards)
    ensures TellsBoard(config, board, boards)
  {
    hide Count, Missing, TrailingMisses, Mean, BoundsU, BoundsV;
    MissingIff(DetectedBits(boards), config.lostFrames);
    if Visible(boards) { assert boards[|boards| - 1].detected; }
  }

  lemma PoseTells(config: Config, pose: PoseTracker, poses: seq<Sighting>)
    requires Refines(WindowsOf(config), PoseFields(pose), poses)
    ensures TellsPose(config, pose, poses)
  {
    hide Count, Missing, TrailingMisses, Mean, BoundsU, BoundsV, Weighed;
    MissingIff(DetectedBits(poses), config.lostFrames);
  }

  /** Both trackers after a frame, and what the frame leaves alone. */
  ghost predicate Observes(config: Config, s: State, n: State, boards: seq<Sighting>, poses: seq<Sighting>) {
    && TellsBoard(config, n.board, boards) && TellsPose(config, n.pose, poses)
    && n == s.(board := n.board, pose := n.pose)
    && (!Visible(boards) ==> n.board.lastSeenU == s.board.lastSeenU && n.board.seenAfterCamera == s.board.seenAfterCamera)
  }

  lemma NearIff(config: Config, p: PoseTracker, poses: seq<Sighting>)
    requires TellsPose(config, p, poses)
    ensures PoseReady(config, p) <==> IsNear(config, poses)
  {
    hide Count, Often, Visible, Steady, IsLost;
  }

  lemma OffIff(config: Config, s: State)
    ensures Directional(config, s.board) <==> OffToOneSide(config, s)
  {
  }

  /** A lost target is not visible, and a frame that does not show it keeps its side. */
  lemma LostKeepsSide(config: Config, s: State, n: State, boards: seq<Sighting>, poses: seq<Sighting>)
    requires Observes(config, s, n, boards, poses)
    ensures IsLost(config, boards) ==> !Visible(boards) && (OffToOneSide(config, n) <==> OffToOneSide(config, s))
  {
    hide TellsBoard, TellsPose;
    if IsLost(config, boards) { assert !DetectedBits(boards)[|boards| - 1]; }
  }

  lemma SearchDecides(config: Config, s: State, n: State, boards: seq<Sighting>, poses: seq<Sighting>, i: Input)
    requires s.mode == Search && Observes(config, s, n, boards, poses)
    ensures Searches(config, s, boards, poses, i, SearchStep(config, n, i))
  {
    hide Count, IsLost, Often, Mean, PoseReady, Directional, IsNear, OffToOneSide, Steady;
    NearIff(config, n.pose, poses);
    OffIff(config, n);
    LostKeepsSide(config, s, n, boards, poses);
  }

  lemma ApproachDecides(config: Config, s: State, n: State, boards: seq<Sighting>, poses: seq<Sighting>, i: Input)
    requires s.mode == Approach && Observes(config, s, n, boards, poses)
    ensures Approaches(config, s, boards, poses, i, ApproachStep(config, n, i))
  {
    hide Count, IsLost, Often, Mean, PoseReady, Directional, IsNear, OffToOneSide, Steady;
    NearIff(config, n.pose, poses);
    OffIff(config, n);
    LostKeepsSide(config, s, n, boards, poses);
  }

  lemma ShootAims(yawRad: real)
    ensures Aims(ShootRequest(yawRad), yawRad)
  {
  }

  lemma FineAdjustDecides(config: Config, s: State, n: State, boards: seq<Sighting>, poses: seq<Sighting>, i: Input)
    requires s.mode == FineAdjust && Observes(config, s, n, boards, poses)
    ensures FineAdjusts(config, s, boards, poses, i, FineAdjustStep(config, n, i))
  {
    ShootAims(config.geometry.shootYawRad(i.pose.x, i.pose.z, i.pose.yaw));
    assert FineAction(config, i.pose).action.Shoot? <==> i.pose.valid && i.pose.z > 0.0 && Aligned(config, i.pose);
    hide Count, IsLost, Often, Mean, Steady, Aims, RoundHalfAway, BaseResult;
  }

  lemma CameraDecides(config: Config, s: State, i: Input)
    ensures s.mode == WaitCameraGoal ==> WaitsForGoal(config, s.stateEnterSec, i, WaitCameraGoalStep(config, s, i))
    ensures s.mode == ReturnCamera ==> ReturnsCamera(i, ReturnCameraStep(config, s, i))
  {
  }

  lemma ShootingDecides(config: Config, s: State, n: State, i: Input)
    requires s.mode == Shooting && n == s.(board := n.board, pose := n.pose)
    ensures Shoots(s, i, ShootingStep(config, n, i))
  {
    ShootAims(s.shootYawRad);
    hide Aims, RoundHalfAway;
  }

  lemma RecoveryDecides(config: Config, s: State, n: State, boards: seq<Sighting>, poses: seq<Sighting>, i: Input)
    requires s.mode == RecoverySearch && Observes(config, s, n, boards, poses)
    ensures Recovers(config, s, boards, i, RecoverySearchStep(config, n, i))
  {
    hide Count, IsLost, Often, Mean, Steady;
  }

  lemma ObservedTells(config: Config, s: State, boards: seq<Sighting>, poses: seq<Sighting>, i: Input)
    requires Refines(WindowsOf(config), BoardFields(s.board), boards) && Refines(WindowsOf(config), PoseFields(s.pose), poses)
    requires !CameraMoving(s.mode)
    ensures var look := Look(config, i.backboard, i.pose, i.width, i.height);
            Observes(config, s, ObserveOnly(config, s, i.backboard, i.pose, i.width, i.height), boards + [look.board], poses + [look.pose])
  {
    var look := Look(config, i.backboard, i.pose, i.width, i.height);
    var n := ObserveOnly(config, s, i.backboard, i.pose, i.width, i.height);
    TrackAdvances(config, s.board, s.mode, i.backboard, i.width, i.height);
    TrackPoseAdvances(config, s.pose, i.backboard, i.pose);
    KeepsSide(config, s.board, s.mode, i.backboard, i.width, i.height);
    hide Refines, TellsBoard, TellsPose, BoardFields, PoseFields, WindowsOf, BoardSighting, PoseSighting, Advance, Track, TrackPose;
    AdvanceRefines(WindowsOf(config), BoardFields(s.board), boards, look.board);
    AdvanceRefines(WindowsOf(config), PoseFields(s.pose), poses, look.pose);
    BoardTells(config, n.board, boards + [look.board]);
    PoseTells(config, n.pose, poses + [look.pose]);
  }

  lemma KeepsSide(config: Config, t: Tracker, mode: Mode, target: Option<ObjectTarget>, width: int, height: int)
    ensures var t', x := Track(config, t, mode, target, width, height), BoardSighting(target, width, height);
            if x.detected then
              && t'.lastSeenU == t'.tracked.u
              && (t'.seenAfterCamera <==> t.seenAfterCamera || (t'.tracked.stable && !mode.LineFollow?))
            else t'.lastSeenU == t.lastSeenU && t'.seenAfterCamera == t.seenAfterCamera
  {
    hide Push, Count, Clamp, Denom, Smooth;
  }

  lemma WatchDecides(config: Config, s: State, i: Input)
    requires s.mode == LineFollow
    ensures Watches(config, s, i, Compute(config, s, i))
  {
    hide Track, TrackPose, WaitCameraGoalStep, WaitsForGoal;
    var n := TryEnter(config, ObserveOnly(config, s, i.backboard, i.pose, i.width, i.height), i);
    CameraDecides(config, n, i);
    WaitKeepsBall(config, n, i);
  }

  lemma WaitKeepsBall(config: Config, s: State, i: Input)
    ensures WaitCameraGoalStep(config, s, i).state.ball == s.ball
  {
  }

  /** Whatever the state: a step is decided by what has been seen since the last clear. */
  lemma StepDecides(config: Config, s: State, boards: seq<Sighting>, poses: seq<Sighting>, i: Input)
    requires Refines(WindowsOf(config), BoardFields(s.board), boards) && Refines(WindowsOf(config), PoseFields(s.pose), poses)
    ensures var look := Look(config, i.backboard, i.pose, i.width, i.height);
            Decided(config, s, boards + [look.board], poses + [look.pose], i, Compute(config, s, i))
  {
    hide Refines, Look, Watches, Searches, Approaches, FineAdjusts, Recovers, WaitsForGoal, ReturnsCamera, Shoots, Observes,
         SearchStep, ApproachStep, FineAdjustStep, ShootingStep, RecoverySearchStep, WaitCameraGoalStep, ReturnCameraStep,
         HeadingRecoveryStep, Track, TrackPose, BoardFields, PoseFields;
    var look, n := Look(config, i.backboard, i.pose, i.width, i.height), ObserveOnly(config, s, i.backboard, i.pose, i.width, i.height);
    var boards', poses' := boards + [look.board], poses + [look.pose];
    if !CameraMoving(s.mode) { ObservedTells(config, s, boards, poses, i); }
    match s.mode {
      case LineFollow => WatchDecides(config, s, i);
      case WaitCameraGoal => CameraDecides(config, s, i);
      case Search => SearchDecides(config, s, n, boards', poses', i);
      case Approach => ApproachDecides(config, s, n, boards', poses', i);
      case FineAdjust => FineAdjustDecides(config, s, n, boards', poses', i);
      case Shooting => ShootingDecides(config, s, n, i);
      case ReturnCamera => CameraDecides(config, s, i);
      case RecoverySearch => RecoveryDecides(config, s, n, boards', poses', i);
      case _ =>
    }
  }

  /** Every frame of every run decides exactly as what was seen since the last clear, the
      clock and the action feedback call for. */
  lemma RunDecides(config: Config, events: seq<Event>, i: Input)
    ensures var j, look := Run(config, events), Look(config, i.backboard, i.pose, i.width, i.height);
            Decided(config, j.state, j.board + [look.board], j.pose + [look.pose], i, Compute(config, j.state, i))
  {
    hide Refines, Compute, Decided, Look, Run;
    TrackersRefined(config, events);
    StepDecides(config, Run(config, events).state, Run(config, events).board, Run(config, events).pose, i);
  }

  // ----- Possession -----

  /** What GOAL makes of being told who has the ball. A ball that was shot is not taken
      again until the controller is told, on the line, that it is gone; the entry is armed
      exactly while an unshot ball is carried along the line. */
  lemma ToldBall(b: Possession, mode: Mode, told: bool, onLine: bool)
    ensures var b' := UpdateBallState(b, mode, told, onLine);
            && (b'.hasBall <==> told && (b.hasBall || !b.consumed))
            && (b'.consumed <==> b.consumed && (told || mode != LineFollow))
            && (b'.armed <==> b'.hasBall && !b'.consumed && onLine)
            && (b'.lineWaitActive <==> b.lineWaitActive && b'.armed)
            && b'.lineWaitStartSec == b.lineWaitStartSec && b'.triggerLatched == b.triggerLatched
  {
  }

  /** Losing the ball ends the entry and its wait; taking one changes nothing else, and
      starting with a ball arms the entry at once. */
  lemma TakenBall(s: State)
    ensures var lost := TakeBall(s.ball, s.mode, false);
            && !lost.hasBall && !lost.armed && !lost.lineWaitActive
            && (lost.consumed <==> s.ball.consumed && s.mode != LineFollow)
            && lost.lineWaitStartSec == s.ball.lineWaitStartSec && lost.triggerLatched == s.ball.triggerLatched
    ensures TakeBall(s.ball, s.mode, true) == s.ball.(hasBall := s.ball.hasBall || !s.ball.consumed)
    ensures StartAfterPickup(s) == s.(ball := s.ball.(hasBall := s.ball.hasBall || !s.ball.consumed, armed := true))
  {
  }

  /** Back on the line the controller holds no ball and starts afresh. */
  lemma ResetForgets(config: Config, s: State)
    ensures var s' := ResetState(config, s);
            && s'.mode == LineFollow && !s'.ball.hasBall && !s'.ball.consumed && !s'.ball.armed
            && !s'.ball.lineWaitActive && !s'.ball.triggerLatched && !s'.fineLatched && s'.settleUntilSec == 0.0
            && BoardFields(s'.board) == CLEARED && PoseFields(s'.pose) == CLEARED
            && !s'.board.seenAfterCamera && s'.board.lastSeenU == config.targetUNorm
  {
  }

  // ----- What is published -----

  /** The sizes of a detected backboard, as shares of the image. */
  lemma SizesMeaning(target: ObjectTarget, width: int, height: int)
    requires width > 1 && height > 1
    ensures var o := Observed(target, width, height);
            Normalises(o.h, target.heightPx, height) && o.confidence == target.confidence
  {
    hide Normalises, Clamp;
    ClampNormalises(target.heightPx, height);
  }

  /** The published backboard and pose are what was seen amounts to. */
  ghost predicate Published(config: Config, s: State, boards: seq<Sighting>, poses: seq<Sighting>, i: Input,
                            t: Tracked, p: TrackedPose) {
    BoardPublished(config, s.board, boards, i, t) && PosePublished(config, s.pose, poses, i, p)
  }

  ghost predicate BoardPublished(config: Config, before: Tracker, boards: seq<Sighting>, i: Input, t: Tracked) {
    && t.visible == Visible(boards) && (t.stable <==> Steady(config, boards))
    && if Visible(boards) then
         i.backboard.Some? &&
         var o := Observed(i.backboard.value, i.width, i.height);
         && t.u == U(config, boards) && t.v == Mean(Vs(boards), config.smoothAlpha) && t.h == o.h && t.confidence == o.confidence
       else t == before.tracked.(visible := false, stable := t.stable)
  }

  ghost predicate PosePublished(config: Config, before: PoseTracker, poses: seq<Sighting>, i: Input, p: TrackedPose) {
    && p.visible == Visible(poses) && (p.stable <==> Steady(config, poses))
    && if Visible(poses) then
         && p.x == U(config, poses) && p.z == Mean(Vs(poses), config.smoothAlpha) && p.confidence == i.pose.confidence
         && (!before.hasSmoothed ==> p.yaw == i.pose.yaw)
       else p == before.tracked.(visible := false, stable := p.stable)
  }

  lemma TrackStep(config: Config, t: Tracker, mode: Mode, target: Option<ObjectTarget>, width: int, height: int)
    ensures var r := Track(config, t, mode, target, width, height).tracked;
            if Detected(target, width, height) then
              var o := Observed(target.value, width, height);
              r.h == o.h && r.confidence == o.confidence
            else r == t.tracked.(visible := false, stable := r.stable)
  {
    hide Push, Count, Clamp, Denom, Smooth;
  }

  lemma TrackPoseStep(config: Config, t: PoseTracker, backboard: Option<ObjectTarget>, pose: PoseObservation)
    ensures var r := TrackPose(config, t, backboard, pose).tracked;
            if PoseDetected(backboard, pose) then r.confidence == pose.confidence && (!t.hasSmoothed ==> r.yaw == pose.yaw)
            else r == t.tracked.(visible := false, stable := r.stable)
  {
    hide Push, Count, Smooth, Clamp;
  }

  lemma MeansOf(w: Windows, f: Fields, seen: seq<Sighting>)
    requires Refines(w, f, seen) && Visible(seen)
    ensures f.u == Mean(Us(seen), w.alpha) && f.v == Mean(Vs(seen), w.alpha)
  {
    hide Histories, Mean, BoundsU, BoundsV;
    assert seen[|seen| - 1].detected;
  }

  lemma BoardIsPublished(config: Config, before: Tracker, mode: Mode, boards: seq<Sighting>, i: Input)
    requires Refines(WindowsOf(config), BoardFields(before), boards)
    ensures BoardPublished(config, before, boards + [BoardSighting(i.backboard, i.width, i.height)], i,
                           Track(config, before, mode, i.backboard, i.width, i.height).tracked)
  {
    var t, x := Track(config, before, mode, i.backboard, i.width, i.height), BoardSighting(i.backboard, i.width, i.height);
    TrackAdvances(config, before, mode, i.backboard, i.width, i.height);
    AdvanceRefines(WindowsOf(config), BoardFields(before), boards, x);
    TrackStep(config, before, mode, i.backboard, i.width, i.height);
    BoardTells(config, t, boards + [x]);
    if x.detected { MeansOf(WindowsOf(config), BoardFields(t), boards + [x]); }
    hide Refines, Track, Steady, Mean, IsLost, Advance, Observed;
  }

  lemma PoseIsPublished(config: Config, before: PoseTracker, poses: seq<Sighting>, i: Input)
    requires Refines(WindowsOf(config), PoseFields(before), poses)
    ensures PosePublished(config, before, poses + [PoseSighting(config, i.backboard, i.pose)], i,
                          TrackPose(config, before, i.backboard, i.pose).tracked)
  {
    var t, x := TrackPose(config, before, i.backboard, i.pose), PoseSighting(config, i.backboard, i.pose);
    TrackPoseAdvances(config, before, i.backboard, i.pose);
    AdvanceRefines(WindowsOf(config), PoseFields(before), poses, x);
    TrackPoseStep(config, before, i.backboard, i.pose);
    PoseTells(config, t, poses + [x]);
    if x.detected { MeansOf(WindowsOf(config), PoseFields(t), poses + [x]); }
    hide Refines, TrackPose, Steady, Mean, IsLost, Advance;
  }

  lemma BothPublished(config: Config, s: State, boards: seq<Sighting>, poses: seq<Sighting>, i: Input)
    requires Refines(WindowsOf(config), BoardFields(s.board), boards) && Refines(WindowsOf(config), PoseFields(s.pose), poses)
    requires !CameraMoving(s.mode)
    ensures var n := ObserveOnly(config, s, i.backboard, i.pose, i.width, i.height);
            var look := Look(config, i.backboard, i.pose, i.width, i.height);
            Published(config, s, boards + [look.board], poses + [look.pose], i, n.board.tracked, n.pose.tracked)
  {
    hide Refines, Track, TrackPose, BoardSighting, PoseSighting, BoardPublished, PosePublished;
    BoardIsPublished(config, s.board, s.mode, boards, i);
    PoseIsPublished(config, s.pose, poses, i);
  }

  /** The yaw to shoot at, of the tracked pose while it is visible, and otherwise the one
      remembered. */
  function YawShown(config: Config, s: State): real {
    var p := s.pose.tracked;
    if p.visible then config.geometry.shootYawRad(p.x, p.z, p.yaw) else s.shootYawRad
  }

  /** A step publishes what its frame has tracked, unless the camera has just come to rest
      or the controller is back on the line, and whether the controller is active. */
  ghost predicate Reports(config: Config, n: State, out: Step) {
    && (out.result.active <==> out.state.mode != LineFollow && out.state.mode != HeadingRecovery)
    && (n.mode != WaitCameraGoal && out.state.mode != LineFollow ==>
          && out.result.tracked == n.board.tracked && out.result.pose == n.pose.tracked
          && out.result.shootYawRad == if out.state.mode == Shooting && n.mode == FineAdjust then out.state.shootYawRad
                                       else YawShown(config, n))
    && (n.mode == WaitCameraGoal && out.state.mode == Search ==> out.result.tracked == NOT_TRACKED && out.result.pose == NO_POSE)
  }

  lemma SearchReports(config: Config, s: State, i: Input)
    requires s.mode in {WaitCameraGoal, Search, Approach, FineAdjust}
    ensures Reports(config, s, match s.mode
                               case WaitCameraGoal => WaitCameraGoalStep(config, s, i)
                               case Search => SearchStep(config, s, i)
                               case Approach => ApproachStep(config, s, i)
                               case _ => FineAdjustStep(config, s, i))
  {
    hide Count, PoseReady, Directional, CruiseRequest, FineAction, Max;
  }

  lemma ModeStepReports(config: Config, s: State, i: Input)
    requires s.mode != LineFollow
    ensures Reports(config, s, ModeStep(config, s, i))
  {
    if s.mode in {WaitCameraGoal, Search, Approach, FineAdjust} {
      SearchReports(config, s, i);
      hide ModeStep;
    }
    hide SearchStep, ApproachStep, FineAdjustStep, WaitCameraGoalStep, ShootRequest, SearchRecoveryAction, Max;
  }

  /** Outside camera motions and the line, every frame of every run publishes what was
      seen since the last clear. */
  lemma RunPublishes(config: Config, events: seq<Event>, i: Input)
    requires Run(config, events).state.mode != LineFollow
    ensures var j, look := Run(config, events), Look(config, i.backboard, i.pose, i.width, i.height);
            var out := Compute(config, j.state, i);
            && (out.result.active <==> out.state.mode != LineFollow && out.state.mode != HeadingRecovery)
            && (!CameraMoving(j.state.mode) && out.state.mode != LineFollow ==>
                  Published(config, j.state, j.board + [look.board], j.pose + [look.pose], i, out.result.tracked, out.result.pose))
  {
    var j := Run(config, events);
    var n := ObserveOnly(config, j.state, i.backboard, i.pose, i.width, i.height);
    TrackersRefined(config, events);
    if !CameraMoving(j.state.mode) { BothPublished(config, j.state, j.board, j.pose, i); }
    ModeStepReports(config, n, i);
    hide ModeStep, Refines, Published, Run, Look, Track, TrackPose, YawShown;
  }

  // ----- The clocks -----

  lemma SearchClocks(config: Config, s: State, i: Input)
    requires s.mode in {WaitCameraGoal, Search, Approach}
    ensures Clocked(config, s, i,
                    (if s.mode == WaitCameraGoal then WaitCameraGoalStep(config, s, i)
                     else if s.mode == Search then SearchStep(config, s, i) else ApproachStep(config, s, i)).state)
  {
    hide Count, PoseReady, Directional, CruiseRequest, BaseResult, Max;
  }

  lemma RestClocks(config: Config, s: State, i: Input)
    requires s.mode in {FineAdjust, RecoverySearch}
    ensures Clocked(config, s, i,
                    (if s.mode == FineAdjust then FineAdjustStep(config, s, i) else RecoverySearchStep(config, s, i)).state)
  {
    hide FineAction, SearchRecoveryAction, BaseResult, Max;
  }

  lemma ModeStepClocks(config: Config, s: State, i: Input)
    requires !s.mode.LineFollow?
    ensures Clocked(config, s, i, ModeStep(config, s, i).state)
  {
    hide WaitCameraGoalStep, SearchStep, ApproachStep, FineAdjustStep, RecoverySearchStep;
    match s.mode {
      case WaitCameraGoal => SearchClocks(config, s, i);
      case Search => SearchClocks(config, s, i);
      case Approach => SearchClocks(config, s, i);
      case FineAdjust => RestClocks(config, s, i);
      case RecoverySearch => RestClocks(config, s, i);
      case _ =>
    }
  }

  /** When a wait began and until when the robot rests is the time of the frame that
      began it, or of the last DONE, plus the configured duration. */
  lemma StepClocks(config: Config, s: State, i: Input)
    ensures Clocked(config, s, i, Compute(config, s, i).state)
  {
    var n := TryEnter(config, ObserveOnly(config, s, i.backboard, i.pose, i.width, i.height), i);
    if !n.mode.LineFollow? { ModeStepClocks(config, n, i); }
    if s.mode.LineFollow? && !n.mode.LineFollow? { EnteringClocks(config, n, i); }
    hide Track, TrackPose, ModeStep;
  }

  lemma EnteringClocks(config: Config, s: State, i: Input)
    requires s.mode == WaitCameraGoal
    ensures ModeStep(config, s, i).state.mode in {WaitCameraGoal, Search, Failed}
    ensures ModeStep(config, s, i).state.stateEnterSec == s.stateEnterSec
  {
  }

  // ----- Where the backboard was last -----

  /** The camera has come to rest on the goal, or the controller has gone back to the line. */
  predicate Recentres(s: State, e: Event, s': State) {
    match e
    case Frame(_) => (s.mode == WaitCameraGoal || s.mode == LineFollow) && s'.mode == Search
    case ResetController => true
    case _ => false
  }

  /** Where the backboard was last, told by the run: the mean position of the sightings up
      to the last one that shows it, or the point aimed at if the camera has come to rest
      since, or the middle of the image if there has been neither. */
  function LastSeen(config: Config, events: seq<Event>): real {
    if events == [] then 0.5
    else
      var j, e := Run(config, events[..|events| - 1]), events[|events| - 1];
      var sees := Boards(Sees(config, j.state, e));
      if Recentres(j.state, e, Run(config, events).state) then config.targetUNorm
      else if Visible(sees) then U(config, j.board + sees)
      else LastSeen(config, events[..|events| - 1])
  }

  /** Since the camera came to rest the backboard has been seen steadily, away from the line. */
  ghost predicate SeenSteadily(config: Config, events: seq<Event>) {
    if events == [] then false
    else
      var j, e := Run(config, events[..|events| - 1]), events[|events| - 1];
      var sees := Boards(Sees(config, j.state, e));
      && !Recentres(j.state, e, Run(config, events).state)
      && (SeenSteadily(config, events[..|events| - 1])
          || (j.state.mode != LineFollow && Visible(sees) && Steady(config, j.board + sees)))
  }

  lemma SearchKeepsSide(config: Config, s: State, i: Input)
    requires s.mode in {WaitCameraGoal, Search, Approach, FineAdjust, RecoverySearch}
    ensures var s' := ModeStep(config, s, i).state;
            && s'.board.lastSeenU == (if Recentres(s, Frame(i), s') then config.targetUNorm else s.board.lastSeenU)
            && s'.board.seenAfterCamera == (!Recentres(s, Frame(i), s') && s.board.seenAfterCamera)
  {
    hide Count, PoseReady, Directional, CruiseRequest, FineAction, SearchRecoveryAction, BaseResult, Max;
  }

  lemma ModeStepKeepsSide(config: Config, s: State, i: Input)
    requires s.mode != LineFollow
    ensures var s' := ModeStep(config, s, i).state;
            && s'.board.lastSeenU == (if Recentres(s, Frame(i), s') then config.targetUNorm else s.board.lastSeenU)
            && s'.board.seenAfterCamera == (!Recentres(s, Frame(i), s') && s.board.seenAfterCamera)
  {
    if s.mode in {WaitCameraGoal, Search, Approach, FineAdjust, RecoverySearch} {
      SearchKeepsSide(config, s, i);
      hide ModeStep;
    }
    hide SearchStep, ApproachStep, FineAdjustStep, RecoverySearchStep, WaitCameraGoalStep, BaseResult, ShootRequest;
  }

  lemma FrameMovesSide(config: Config, s: State, i: Input)
    ensures var n, s' := ObserveOnly(config, s, i.backboard, i.pose, i.width, i.height), Compute(config, s, i).state;
            && s'.board.lastSeenU == (if Recentres(s, Frame(i), s') then config.targetUNorm else n.board.lastSeenU)
            && s'.board.seenAfterCamera == (!Recentres(s, Frame(i), s') && n.board.seenAfterCamera)
  {
    var n := TryEnter(config, ObserveOnly(config, s, i.backboard, i.pose, i.width, i.height), i);
    if n.mode.LineFollow? {
      assert ModeStep(config, n, i).state == n;
    } else {
      ModeStepKeepsSide(config, n, i);
    }
    hide ModeStep, Track, TrackPose;
  }

  lemma LastShown(config: Config, s: State, boards: seq<Sighting>, backboard: Option<ObjectTarget>, pose: PoseObservation,
                  width: int, height: int)
    requires Refines(WindowsOf(config), BoardFields(s.board), boards)
    ensures var n, x := ObserveOnly(config, s, backboard, pose, width, height), BoardSighting(backboard, width, height);
            if !CameraMoving(s.mode) && x.detected then
              && n.board.lastSeenU == U(config, boards + [x])
              && (n.board.seenAfterCamera
                  <==> s.board.seenAfterCamera || (s.mode != LineFollow && Steady(config, boards + [x])))
            else n.board.lastSeenU == s.board.lastSeenU && n.board.seenAfterCamera == s.board.seenAfterCamera
  {
    TrackAdvances(config, s.board, s.mode, backboard, width, height);
    KeepsSide(config, s.board, s.mode, backboard, width, height);
    hide Refines, BoardFields, WindowsOf, BoardSighting, Advance, Track, TrackPose, Mean, Steady;
    var n, x := ObserveOnly(config, s, backboard, pose, width, height), BoardSighting(backboard, width, height);
    if !CameraMoving(s.mode) {
      AdvanceRefines(WindowsOf(config), BoardFields(s.board), boards, x);
      BoardTells(config, n.board, boards + [x]);
    }
  }

  lemma EventMovesSide(config: Config, j: Journal, e: Event)
    requires Refines(WindowsOf(config), BoardFields(j.state.board), j.board)
    ensures var s', sees := Apply(config, j.state, e), Boards(Sees(config, j.state, e));
            && s'.board.lastSeenU == (if Recentres(j.state, e, s') then config.targetUNorm
                                      else if Visible(sees) then U(config, j.board + sees)
                                      else j.state.board.lastSeenU)
            && (s'.board.seenAfterCamera
                <==> && !Recentres(j.state, e, s')
                     && (j.state.board.seenAfterCamera
                         || (j.state.mode != LineFollow && Visible(sees) && Steady(config, j.board + sees))))
  {
    hide Refines, BoardFields, WindowsOf, ObserveOnly, BoardSighting, PoseSighting, Compute, Mean, Steady;
    match e {
      case Frame(i) =>
        FrameMovesSide(config, j.state, i);
        LastShown(config, j.state, j.board, i.backboard, i.pose, i.width, i.height);
        SeesOne(config, j.state, i.backboard, i.pose, i.width, i.height);
      case Observe(backboard, pose, width, height) =>
        LastShown(config, j.state, j.board, backboard, pose, width, height);
        SeesOne(config, j.state, backboard, pose, width, height);
      case _ =>
    }
  }

  lemma SeesOne(config: Config, s: State, backboard: Option<ObjectTarget>, pose: PoseObservation, width: int, height: int)
    ensures Boards([Look(config, backboard, pose, width, height)]) == [BoardSighting(backboard, width, height)]
    ensures Boards([]) == []
  {
  }

  /** The side in the state is where the run last showed the backboard, and whether it was
      seen steadily since the camera came up. */
  lemma {:induction false} SideIsLastSeen(config: Config, events: seq<Event>)
    ensures Run(config, events).state.board.lastSeenU == LastSeen(config, events)
    ensures Run(config, events).state.board.seenAfterCamera <==> SeenSteadily(config, events)
  {
    if events != [] {
      var init, e := events[..|events| - 1], events[|events| - 1];
      SideIsLastSeen(config, init);
      TrackersRefined(config, init);
      EventMovesSide(config, Run(config, init), e);
      hide Apply, Sees, Refines, Recentres, Visible, Steady, Mean;
    }
  }

  /** Recovery turns go to the side where the backboard was last seen since the camera
      came to rest, and there is none when that was central or while it is visible: in
      every run, every frame of a recovery that decides and does not leave the mode asks
      for exactly that turn. */
  lemma TurnsToLastSide(config: Config, events: seq<Event>, i: Input)
    requires Run(config, events).state.mode == RecoverySearch
    ensures var j, out := Run(config, events), Compute(config, Run(config, events).state, i);
            if MayDecide(j.state, i) && out.state.mode == j.state.mode
               && !Visible(j.board + [BoardSighting(i.backboard, i.width, i.height)]) then
              out.result.action
              == TurnTowards(LastSeen(config, events + [Frame(i)]) - config.targetUNorm, config.recoveryCenterToleranceNorm)
            else out.result.action.action.NoAction?
  {
    hide Compute, Run, LastSeen, SeenSteadily, Visible, TurnTowards, BoardSighting, PoseSighting;
    RunDecides(config, events, i);
    RunAppend(config, events, Frame(i));
    SideIsLastSeen(config, events + [Frame(i)]);
  }

  lemma RunAppend(config: Config, events: seq<Event>, e: Event)
    ensures Run(config, events + [e]) == Record(config, Run(config, events), e)
  {
    hide Record;
    assert (events + [e])[..|events|] == events;
  }

  // ----- Aim -----

  /** Event n began the shooting from an aligned pose, and the yaw of that pose is the
      one in use. */
  ghost predicate AimedBy(config: Config, events: seq<Event>, n: nat, yawRad: real) {
    && n < |events| && events[n].Frame?
    && var p := events[n].input.pose;
       && p.valid && p.z > 0.0 && Aligned(config, p) && yawRad == config.geometry.shootYawRad(p.x, p.z, p.yaw)
  }

  lemma ShootingGoesOn(config: Config, s: State, e: Event)
    requires s.mode == Shooting && Apply(config, s, e).mode == Shooting
    ensures Apply(config, s, e).shootYawRad == s.shootYawRad
  {
    hide Track, TrackPose, ShootRequest, BaseResult, UpdateBallState, TakeBall;
  }

  lemma ShootingBegins(config: Config, j: Journal, e: Event)
    requires BothRefined(config, j) && j.state.mode != Shooting && Apply(config, j.state, e).mode == Shooting
    ensures e.Frame?
    ensures var p := e.input.pose;
            && p.valid && p.z > 0.0 && Aligned(config, p)
            && Apply(config, j.state, e).shootYawRad == config.geometry.shootYawRad(p.x, p.z, p.yaw)
  {
    hide Refines, Compute, Track, TrackPose, UpdateBallState, TakeBall, Look, Aligned, Aims;
    if e.Frame? {
      var look := Look(config, e.input.backboard, e.input.pose, e.input.width, e.input.height);
      ComputeMoves(config, j.state, e.input);
      StepDecides(config, j.state, j.board, j.pose, e.input);
    }
  }

  /** Whenever the robot shoots, it began to from an aligned pose, and it still aims at
      the yaw of that pose. */
  lemma {:induction false} ShootingIsAimed(config: Config, events: seq<Event>) returns (n: nat)
    requires Run(config, events).state.mode == Shooting
    ensures AimedBy(config, events, n, Run(config, events).state.shootYawRad)
    ensures forall k :: n < k <= |events| ==> Run(config, events[..k]).state.mode == Shooting
  {
    hide Apply, Sees, Clears, Aligned, Refines;
    if events == [] {
      assert false;
    } else {
      var init, e := events[..|events| - 1], events[|events| - 1];
      TrackersRefined(config, init);
      assert events[..|events|] == events;
      if Run(config, init).state.mode == Shooting {
        n := ShootingIsAimed(config, init);
        ShootingGoesOn(config, Run(config, init).state, e);
        forall k | n < k <= |events|
          ensures Run(config, events[..k]).state.mode == Shooting
        {
          if k < |events| { assert init[..k] == events[..k]; }
        }
      } else {
        n := |events| - 1;
        ShootingBegins(config, Run(config, init), e);
      }
    }
  }

  /** Every SHOOT asked for carries, in whole degrees, the yaw of an aligned pose: of
      this frame's if the shooting begins here, and otherwise of the frame in which it
      began. */
  lemma EveryShootIsAimed(config: Config, events: seq<Event>, i: Input) returns (n: nat, yawRad: real)
    requires Compute(config, Run(config, events).state, i).result.action.action.Shoot?
    ensures AimedBy(config, events + [Frame(i)], n, yawRad)
    ensures Aims(Compute(config, Run(config, events).state, i).result.action, yawRad)
    ensures forall k :: n < k <= |events| ==> Run(config, events[..k]).state.mode == Shooting
  {
    hide Compute, Aligned, Aims, Look, Refines, Run;
    ComputeMoves(config, Run(config, events).state, i);
    RunDecides(config, events, i);
    if Run(config, events).state.mode == Shooting {
      n := ShootingIsAimed(config, events);
      yawRad := Run(config, events).state.shootYawRad;
    } else {
      n, yawRad := |events|, config.geometry.shootYawRad(i.pose.x, i.pose.z, i.pose.yaw);
    }
  }
}
