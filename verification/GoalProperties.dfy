/** What the GOAL controller keeps over whole runs. */
module GoalProperties {
  import opened Types
  import opened SlidingWindow
  import opened Asking
  import opened GoalController
  import opened TrackerRefinement

  // ----- The mode machine, without its perception -----

  predicate AsksShoot(a: Ask) { a.camera.NoCamera? && a.action.action.Shoot? && a.action.category.MissionCategory? }

  /** The possible moves of one step. The ball is lost by a completed SHOOT only. */
  predicate Moves(mode: Mode, ball: Possession, e: ActionExecution, lineRef: bool, mode': Mode, ball': Possession, r: Result) {
    var a := Ask(r.camera, r.action);
    && r.mode == mode'
    && !r.action.lineQueueEligible && (mode'.LineFollow? ==> !r.active)
    && (if mode.Shooting? && e.done then !ball'.hasBall && ball'.consumed
        else ball'.hasBall == ball.hasBall && ball'.consumed == ball.consumed)
    && match mode
       case LineFollow =>
         || (mode' == LineFollow && Quiet(a))
         || (&& ball.hasBall && ball.armed && lineRef && !Busy(e)
             && ((mode' == WaitCameraGoal && MovesCamera(a, CameraGoal)) || ((mode' == Search || mode' == Failed) && Quiet(a))))
       case WaitCameraGoal =>
         (mode' == WaitCameraGoal && MovesCamera(a, CameraGoal)) || ((mode' == Search || mode' == Failed) && Quiet(a))
       case Search =>
         || ((mode' == Search || mode' == RecoverySearch || mode' == FineAdjust) && Quiet(a))
         || (mode' == Approach && OnlyWalks(a))
       case Approach =>
         || (mode' == Approach && OnlyWalks(a))
         || (mode' == FineAdjust && !Busy(e) && Quiet(a))
         || ((mode' == RecoverySearch || mode' == Search) && Quiet(a))
       case FineAdjust =>
         || (mode' == FineAdjust && (Quiet(a) || (Free(e) && OnlyWalks(a))))
         || ((mode' == Approach || mode' == Search) && Free(e) && Quiet(a))
         || (mode' == Shooting && Free(e) && AsksShoot(a))
       case Shooting =>
         (mode' == Shooting && !e.done && AsksShoot(a)) || (mode' == ReturnCamera && e.done && MovesCamera(a, CameraForward))
       case ReturnCamera =>
         (mode' == ReturnCamera && MovesCamera(a, CameraForward)) || (mode' == HeadingRecovery && Quiet(a))
       case HeadingRecovery =>
         if lineRef then mode' == LineFollow && Quiet(a) else mode' == HeadingRecovery && Quiet(a)
       case Failed => mode' == Failed && Quiet(a)
       case RecoverySearch =>
         || (mode' == RecoverySearch && (Quiet(a) || (Free(e) && OnlyWalks(a))))
         || ((mode' == Search || mode' == Failed) && Free(e) && Quiet(a))
  }

  ghost predicate StepMoves(s: State, i: Input, out: Step) {
    Moves(s.mode, s.ball, i.execution, i.lineReferenceValid, out.state.mode, out.state.ball, out.result)
  }

  lemma SearchMoves(config: Config, s: State, i: Input)
    requires s.mode.Search? || s.mode.Approach?
    ensures StepMoves(s, i, if s.mode.Search? then SearchStep(config, s, i) else ApproachStep(config, s, i))
  {
    hide Count;
  }

  lemma FineAdjustMoves(config: Config, s: State, i: Input)
    requires s.mode.FineAdjust?
    ensures StepMoves(s, i, FineAdjustStep(config, s, i))
  {
    hide RoundHalfAway, YawDegrees;
  }

  lemma CameraMoves(config: Config, s: State, i: Input)
    requires s.mode.WaitCameraGoal? || s.mode.ReturnCamera? || s.mode.Shooting?
    ensures StepMoves(s, i, if s.mode.WaitCameraGoal? then WaitCameraGoalStep(config, s, i)
                            else if s.mode.ReturnCamera? then ReturnCameraStep(config, s, i) else ShootingStep(config, s, i))
  {
    hide RoundHalfAway, YawDegrees;
  }

  lemma RecoveryMoves(config: Config, s: State, i: Input)
    requires s.mode.HeadingRecovery? || s.mode.RecoverySearch? || s.mode.Failed?
    ensures StepMoves(s, i, if s.mode.HeadingRecovery? then HeadingRecoveryStep(config, s, i)
                            else if s.mode.RecoverySearch? then RecoverySearchStep(config, s, i)
                            else Step(s, BaseResult(config, s)))
  {
  }

  lemma ModeStepMoves(config: Config, s: State, i: Input)
    requires !s.mode.LineFollow?
    ensures StepMoves(s, i, ModeStep(config, s, i))
  {
    hide StepMoves, SearchStep, ApproachStep, FineAdjustStep, WaitCameraGoalStep, ReturnCameraStep, ShootingStep,
         HeadingRecoveryStep, RecoverySearchStep, BaseResult;
    match s.mode {
      case Search => SearchMoves(config, s, i);
      case Approach => SearchMoves(config, s, i);
      case FineAdjust => FineAdjustMoves(config, s, i);
      case WaitCameraGoal => CameraMoves(config, s, i);
      case ReturnCamera => CameraMoves(config, s, i);
      case Shooting => CameraMoves(config, s, i);
      case HeadingRecovery => RecoveryMoves(config, s, i);
      case RecoverySearch => RecoveryMoves(config, s, i);
      case Failed => RecoveryMoves(config, s, i);
    }
  }

  /** Every step of the controller is one of the possible moves. */
  lemma ComputeMoves(config: Config, s: State, i: Input)
    ensures var out := Compute(config, s, i);
            Moves(s.mode, s.ball, i.execution, i.lineReferenceValid, out.state.mode, out.state.ball, out.result)
  {
    var observed := ObserveOnly(config, s, i.backboard, i.pose, i.width, i.height);
    var entered := TryEnter(config, observed, i);
    if !entered.mode.LineFollow? { ModeStepMoves(config, entered, i); }
    hide Track, TrackPose;
    if entered.mode.LineFollow? || s.mode.LineFollow? {
      assert entered.ball.hasBall == s.ball.hasBall && entered.ball.consumed == s.ball.consumed;
      if entered.mode.LineFollow? {
        assert ModeStep(config, entered, i) == Step(entered, BaseResult(config, entered));
      } else {
        assert entered.mode.WaitCameraGoal?;
        hide ModeStep;
      }
    } else {
      hide ModeStep;
    }
  }

  // ----- Whole runs -----

  /** Everything the program does to the controller. */
  datatype Event =
    | Frame(input: Input)
    | Observe(backboard: Option<ObjectTarget>, pose: PoseObservation, width: int, height: int)
    | ClearObservations
    | ResetController
    | BallState(hasBall: bool, inLineFollow: bool)
    | StartCarrying

  function Apply(config: Config, s: State, e: Event): State {
    match e
    case Frame(i) => Compute(config, s, i).state
    case Observe(backboard, pose, width, height) => ObserveOnly(config, s, backboard, pose, width, height)
    case ClearObservations => ClearTracking(s)
    case ResetController => ResetState(config, s)
    case BallState(hasBall, inLineFollow) => s.(ball := UpdateBallState(s.ball, s.mode, hasBall, inLineFollow))
    case StartCarrying => StartAfterPickup(s)
  }

  // ----- Tracker refinement -----

  function BoardSighting(backboard: Option<ObjectTarget>, width: int, height: int): Sighting {
    if Detected(backboard, width, height) then
      var o := Observed(backboard.value, width, height);
      Sighting(true, true, true, o.u, o.v)
    else Sighting(false, false, false, 0.0, 0.0)
  }

  function PoseSighting(config: Config, backboard: Option<ObjectTarget>, pose: PoseObservation): Sighting {
    if PoseDetected(backboard, pose) then Sighting(true, pose.z <= config.fineAdjustStartZM, true, pose.x, pose.z)
    else Sighting(false, false, false, 0.0, 0.0)
  }

  /** One frame seen by both trackers. */
  datatype View = View(board: Sighting, pose: Sighting)

  function Look(config: Config, backboard: Option<ObjectTarget>, pose: PoseObservation, width: int, height: int): View {
    View(BoardSighting(backboard, width, height), PoseSighting(config, backboard, pose))
  }

  function Sees(config: Config, s: State, e: Event): seq<View> {
    match e
    case Frame(i) => if CameraMoving(s.mode) then [] else [Look(config, i.backboard, i.pose, i.width, i.height)]
    case Observe(backboard, pose, width, height) =>
      if CameraMoving(s.mode) then [] else [Look(config, backboard, pose, width, height)]
    case _ => []
  }

  predicate Forgets(mode: Mode, mode': Mode) {
    || ((mode.LineFollow? || mode.WaitCameraGoal?) && mode'.Search?)
    || (mode.Approach? && (mode'.Search? || mode'.RecoverySearch?))
  }

  predicate Clears(s: State, e: Event, s': State) {
    match e
    case Frame(_) => Forgets(s.mode, s'.mode)
    case ClearObservations => true
    case ResetController => true
    case _ => false
  }

  /** A run: the state and what both trackers saw since their last clear. */
  datatype Journal = Journal(state: State, board: seq<Sighting>, pose: seq<Sighting>)

  function Boards(views: seq<View>): seq<Sighting> { seq(|views|, k requires 0 <= k < |views| => views[k].board) }

  function Poses(views: seq<View>): seq<Sighting> { seq(|views|, k requires 0 <= k < |views| => views[k].pose) }

  function Record(config: Config, j: Journal, e: Event): Journal {
    var s', seen := Apply(config, j.state, e), Sees(config, j.state, e);
    if Clears(j.state, e, s') then Journal(s', [], []) else Journal(s', j.board + Boards(seen), j.pose + Poses(seen))
  }

  function Run(config: Config, events: seq<Event>): Journal {
    if events == [] then Journal(INITIAL, [], [])
    else Record(config, Run(config, events[..|events| - 1]), events[|events| - 1])
  }

  function WindowsOf(config: Config): Windows {
    Windows(config.stableWindow, config.stableWindow, config.stableMinHits, config.smoothAlpha)
  }

  function BoardFields(t: Tracker): Fields {
    Fields(t.hits, t.hits, t.hits, t.lost, t.tracked.visible, t.tracked.stable, t.hasSmoothed, t.tracked.u, t.tracked.v)
  }

  function PoseFields(t: PoseTracker): Fields {
    Fields(t.hits, t.fineEnter, t.hits, t.lost, t.tracked.visible, t.tracked.stable, t.hasSmoothed, t.tracked.x, t.tracked.z)
  }

  lemma TrackAdvances(config: Config, t: Tracker, mode: Mode, target: Option<ObjectTarget>, width: int, height: int)
    ensures BoardFields(Track(config, t, mode, target, width, height))
         == Advance(WindowsOf(config), BoardFields(t), BoardSighting(target, width, height))
  {
    hide Push, Count, Clamp, Denom, Smooth, Max;
  }

  lemma TrackPoseAdvances(config: Config, t: PoseTracker, backboard: Option<ObjectTarget>, pose: PoseObservation)
    ensures PoseFields(TrackPose(config, t, backboard, pose))
         == Advance(WindowsOf(config), PoseFields(t), PoseSighting(config, backboard, pose))
  {
    hide Push, Count, Clamp, Smooth, Max;
  }

  /** How one step of the mode machine moves the two trackers. */
  ghost predicate FieldsMove(board: Tracker, pose: PoseTracker, s': State, forget: bool) {
    && BoardFields(s'.board) == (if forget then CLEARED else BoardFields(board))
    && PoseFields(s'.pose) == (if forget then CLEARED else PoseFields(pose))
  }

  lemma SearchFields(config: Config, s: State, i: Input)
    requires s.mode.Search? || s.mode.Approach? || s.mode.FineAdjust?
    ensures var s' := ModeStep(config, s, i).state; FieldsMove(s.board, s.pose, s', Forgets(s.mode, s'.mode))
  {
    hide Count, FineAction, CruiseRequest;
  }

  lemma ModeStepFields(config: Config, s: State, i: Input)
    ensures var s' := ModeStep(config, s, i).state; FieldsMove(s.board, s.pose, s', Forgets(s.mode, s'.mode))
  {
    if s.mode.Search? || s.mode.Approach? || s.mode.FineAdjust? {
      SearchFields(config, s, i);
      hide ModeStep;
    }
    hide Count, SearchStep, ApproachStep, FineAdjustStep, SearchRecoveryAction, ShootRequest;
  }

  lemma FrameFields(config: Config, s: State, i: Input)
    ensures var s', observed := Compute(config, s, i).state, ObserveOnly(config, s, i.backboard, i.pose, i.width, i.height);
            FieldsMove(observed.board, observed.pose, s', Forgets(s.mode, s'.mode))
  {
    var observed := ObserveOnly(config, s, i.backboard, i.pose, i.width, i.height);
    var entered := TryEnter(config, observed, i);
    ModeStepFields(config, entered, i);
    assert entered.mode.LineFollow? ==> ModeStep(config, entered, i).state.mode.LineFollow?;
    hide ModeStep, Track, TrackPose, FieldsMove;
    assert entered.board == observed.board && entered.pose == observed.pose;
    assert entered.mode == s.mode || (s.mode.LineFollow? && entered.mode.WaitCameraGoal?);
    hide TryEnter, ObserveOnly;
  }

  /** A tracker is cleared, advanced by the one thing seen, or left alone. */
  function Moved(w: Windows, f: Fields, cleared: bool, seen: seq<Sighting>): Fields
    requires |seen| <= 1
  {
    if cleared then CLEARED else if seen == [] then f else Advance(w, f, seen[0])
  }

  ghost predicate BothMoved(config: Config, s: State, s': State, cleared: bool, seen: seq<View>)
    requires |seen| <= 1
  {
    && BoardFields(s'.board) == Moved(WindowsOf(config), BoardFields(s.board), cleared, Boards(seen))
    && PoseFields(s'.pose) == Moved(WindowsOf(config), PoseFields(s.pose), cleared, Poses(seen))
  }

  lemma ObserveMoved(config: Config, s: State, backboard: Option<ObjectTarget>, pose: PoseObservation, width: int, height: int)
    requires !CameraMoving(s.mode)
    ensures BothMoved(config, s, ObserveOnly(config, s, backboard, pose, width, height), false,
                      [Look(config, backboard, pose, width, height)])
  {
    TrackAdvances(config, s.board, s.mode, backboard, width, height);
    TrackPoseAdvances(config, s.pose, backboard, pose);
    hide Track, TrackPose, Advance, BoardSighting, PoseSighting, WindowsOf, BoardFields, PoseFields;
  }

  lemma ApplyMoved(config: Config, s: State, e: Event)
    ensures var s', seen := Apply(config, s, e), Sees(config, s, e);
            |seen| <= 1 && BothMoved(config, s, s', Clears(s, e, s'), seen)
  {
    match e {
      case Frame(i) =>
        if !CameraMoving(s.mode) { ObserveMoved(config, s, i.backboard, i.pose, i.width, i.height); }
        FrameFields(config, s, i);
        hide Advance, Look, WindowsOf, BoardFields, PoseFields, Compute, Track, TrackPose, Forgets;
      case Observe(backboard, pose, width, height) =>
        if !CameraMoving(s.mode) { ObserveMoved(config, s, backboard, pose, width, height); }
        hide Advance, Look, WindowsOf, Track, TrackPose, BoardFields, PoseFields;
      case _ =>
        hide UpdateBallState, TakeBall;
    }
  }

  ghost predicate BothRefined(config: Config, j: Journal) {
    && Refines(WindowsOf(config), BoardFields(j.state.board), j.board)
    && Refines(WindowsOf(config), PoseFields(j.state.pose), j.pose)
  }

  lemma MovedRefines(w: Windows, f: Fields, since: seq<Sighting>, cleared: bool, seen: seq<Sighting>)
    requires |seen| <= 1 && Refines(w, f, since)
    ensures Refines(w, Moved(w, f, cleared, seen), if cleared then [] else since + seen)
  {
    hide Refines, Advance;
    ClearedRefines(w);
    if seen == [] {
      assert since + seen == since;
    } else {
      AdvanceRefines(w, f, since, seen[0]);
      assert seen == [seen[0]];
    }
  }

  lemma RecordRefines(config: Config, j: Journal, e: Event)
    requires BothRefined(config, j)
    ensures BothRefined(config, Record(config, j, e))
  {
    var s', seen := Apply(config, j.state, e), Sees(config, j.state, e);
    var cleared, w := Clears(j.state, e, s'), WindowsOf(config);
    ApplyMoved(config, j.state, e);
    MovedRefines(w, BoardFields(j.state.board), j.board, cleared, Boards(seen));
    MovedRefines(w, PoseFields(j.state.pose), j.pose, cleared, Poses(seen));
    hide Apply, Sees, Clears, WindowsOf, Refines, Moved, BoardFields, PoseFields, Boards, Poses;
  }

  /** Any interleaving of frames, observations, clears and resets: both trackers are
      what their sightings since the last clear determine. */
  lemma {:induction false} TrackersRefined(config: Config, events: seq<Event>)
    ensures BothRefined(config, Run(config, events))
  {
    if events == [] {
      ClearedRefines(WindowsOf(config));
    } else {
      TrackersRefined(config, events[..|events| - 1]);
      hide BothRefined, Record;
      RecordRefines(config, Run(config, events[..|events| - 1]), events[|events| - 1]);
    }
  }

  lemma BoardsInUnit(config: Config, s: State, e: Event)
    ensures BoundsU(Boards(Sees(config, s, e)), 0.0, 1.0) && BoundsV(Boards(Sees(config, s, e)), 0.0, 1.0)
  {
    hide PoseSighting;
  }

  lemma {:induction false} SightingsInUnit(config: Config, events: seq<Event>)
    ensures BoundsU(Run(config, events).board, 0.0, 1.0) && BoundsV(Run(config, events).board, 0.0, 1.0)
  {
    if events != [] {
      var j, e := Run(config, events[..|events| - 1]), events[|events| - 1];
      SightingsInUnit(config, events[..|events| - 1]);
      BoardsInUnit(config, j.state, e);
      hide Run, Apply, Clears, BothRefined, Sees, Boards, Poses;
    }
  }

  /** The smoothed position of the backboard never leaves the image. */
  lemma SmoothedInUnit(config: Config, events: seq<Event>)
    requires Run(config, events).state.board.hasSmoothed
    ensures var t := Run(config, events).state.board.tracked; 0.0 <= t.u <= 1.0 && 0.0 <= t.v <= 1.0
  {
    TrackersRefined(config, events);
    SightingsInUnit(config, events);
  }

  // ----- Possession -----

  /** A held ball leaves GOAL by DONE of its SHOOT, by being told so, or by a reset,
      and in no other way. */
  lemma BallLeavesByShoot(config: Config, s: State, e: Event)
    requires s.ball.hasBall && !Apply(config, s, e).ball.hasBall
    ensures || (e.Frame? && s.mode.Shooting? && e.input.execution.done)
            || (e.BallState? && !e.hasBall)
            || e.ResetController?
  {
    if e.Frame? { ComputeMoves(config, s, e.input); }
    hide Compute, Track, TrackPose;
  }
}
