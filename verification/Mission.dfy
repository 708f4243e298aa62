/** The mission supervisor: one frame of camera, perception and delivery feedback in,
    one command out. LINE watches for objects, an object mission runs alone, and a
    gate holds back DONE while fresh evidence is collected after a motion. */
module Mission {
  import opened Types
  import opened SlidingWindow
  import opened CommandCoordinator
  import opened LineP2p
  import Line = LineRecovery
  import Features = LineFeatures
  import Ball = BallController
  import Hurdle = HurdleController
  import Goal = GoalController

  datatype Config = Config(
    features: Features.Config,
    line: Line.Config,
    ball: Ball.Config,
    hurdle: Hurdle.Config,
    goal: Goal.Config,
    command: CommandConfig,
    postMotionObservationSec: real,
    enableBall: bool,
    enableHurdle: bool,
    enableGoal: bool,
    initialHasBall: bool)

  datatype Input = Input(
    lineCenters: seq<Point2>,
    lineImageCenterU: Option<real>,
    ball: Option<ObjectTarget>,
    hurdle: Option<ObjectTarget>,
    backboard: Option<ObjectTarget>,
    goalPose: Goal.PoseObservation,
    width: int,
    height: int,
    nowSec: real,
    camera: CameraFeedback,
    feedback: DeliveryFeedback,
    allowNewLineAction: bool,
    advanceLineFsm: bool,
    guideOverride: Option<LineGuide>)

  /** The post-motion gate and the DONE it holds back. */
  datatype Gate = Gate(
    active: bool,
    cameraOnly: bool,
    firstFrame: bool,
    mission: MissionType,
    startSec: real,
    deferred: DeliveryFeedback,
    hits: seq<bool>,
    frames: nat,
    lineValid: nat,
    offsetSum: real,
    headingSum: real,
    confidenceSum: real)

  const NO_GATE := Gate(false, false, false, LineMission, 0.0, NO_FEEDBACK, [], 0, 0, 0.0, 0.0, 0.0)

  /** Everything LINE keeps besides the controllers of the objects. */
  datatype LineSide = LineSide(fsm: Line.State, accumulator: Accumulator, readyId: ActionId, failurePending: bool)

  /** The latest results of the object controllers. */
  datatype Results = Results(ball: Ball.Result, hurdle: Hurdle.Result, goal: Goal.Result)

  const NO_RESULTS := Results(Ball.IDLE_RESULT, Hurdle.IDLE_RESULT, Goal.IDLE_RESULT)

  datatype State = State(
    active: MissionType,
    hasBall: bool,
    line: LineSide,
    gate: Gate,
    previousCamera: CameraFeedback,
    ball: Ball.State,
    hurdle: Hurdle.State,
    goal: Goal.State,
    results: Results,
    coordinator: CoordinatorState,
    last: ControlCommand)

  function Initial(config: Config): State {
    State(LineMission, config.initialHasBall, LineSide(Line.INITIAL, EMPTY, 0, false), NO_GATE,
          CameraFeedback(ForwardView, true), Ball.INITIAL, Hurdle.INITIAL,
          if config.initialHasBall then Goal.StartAfterPickup(Goal.INITIAL) else Goal.INITIAL,
          NO_RESULTS, CommandCoordinator.Initial(config.command), IDLE_COMMAND)
  }

  // ----- The post-motion gate -----

  /** The camera has just settled on a view other than the forward one. */
  predicate CameraSettles(previous: CameraFeedback, camera: CameraFeedback) {
    && (!previous.settled || previous.actualMode.TransitionView?)
    && camera.settled && (camera.actualMode.DownView? || camera.actualMode.GoalView?)
  }

  predicate CommittedToCamera(m: State) {
    || (m.active.BallMission? && m.results.ball.mode.WaitCameraDown?)
    || (m.active.HurdleMission? && m.results.hurdle.mode.WaitCameraDown?)
    || (m.active.GoalMission? && m.results.goal.mode.WaitCameraGoal?)
  }

  /** Motions that are followed by a fixed next motion. */
  predicate InFixedChain(m: State) {
    var action, mission := m.last.action, m.last.mission;
    || action.PickBall? || action.Recatch? || action.DefaultPosition? || action.Shoot?
    || (mission.BallMission? && action.StepBack? && m.results.ball.mode.BackAway?)
    || (mission.HurdleMission? && (action.StepForwardOne? || action.CrossHurdle?))
  }

  predicate ShouldDeferDone(config: Config, m: State, feedback: DeliveryFeedback) {
    && feedback.done && config.postMotionObservationSec > 0.0
    && feedback.actionId != 0 && feedback.actionId == m.last.actionId
    && !(m.last.mission.LineMission? && m.active.LineMission? && (IsLongLineAction(m.last.action) || !m.line.fsm.mode.Normal?))
    && !CommittedToCamera(m)
    && !InFixedChain(m)
  }

  /** A gate opens; after a motion nothing seen while moving counts any more. */
  function BeginGate(m: State, nowSec: real, cameraOnly: bool, done: DeliveryFeedback): State {
    var m := m.(gate := NO_GATE.(active := true, cameraOnly := cameraOnly, firstFrame := true, mission := m.active,
                                 startSec := nowSec, deferred := done));
    if cameraOnly then m
    else m.(ball := Ball.ClearHistory(m.ball), hurdle := Hurdle.ClearHistory(m.hurdle), goal := Goal.ClearTracking(m.goal),
            line := m.line.(fsm := m.line.fsm.(stability := [])))
  }

  function OpenGate(config: Config, m: State, i: Input): State {
    var settles := CameraSettles(m.previousCamera, i.camera);
    var m := m.(previousCamera := i.camera);
    var m := if !m.gate.active && config.postMotionObservationSec > 0.0 && settles then BeginGate(m, i.nowSec, true, NO_FEEDBACK) else m;
    if !m.gate.active && ShouldDeferDone(config, m, i.feedback) then BeginGate(m, i.nowSec, false, i.feedback) else m
  }

  predicate GateDetects(mission: MissionType, i: Input) {
    match mission
    case BallMission => i.ball.Some?
    case HurdleMission => i.hurdle.Some?
    case GoalMission => i.backboard.Some?
    case _ => false
  }

  const GATE_WINDOW: int := 10
  const GATE_HITS: int := 7

  function AddToGate(config: Config, g: Gate, i: Input): Gate {
    var g := g.(frames := g.frames + 1);
    if !g.mission.LineMission? then g.(hits := Push(g.hits, GateDetects(g.mission, i), GATE_WINDOW))
    else
      var guide := if i.guideOverride.Some? then i.guideOverride.value
                   else Features.FeaturesOf(i.lineCenters, i.width, i.height, config.features).guide;
      if guide.valid then
        g.(lineValid := g.lineValid + 1, offsetSum := g.offsetSum + guide.offset,
           headingSum := g.headingSum + guide.headingRad, confidenceSum := g.confidenceSum + guide.confidence)
      else g
  }

  predicate GateReady(config: Config, g: Gate, nowSec: real) {
    && g.active && nowSec - g.startSec + EPSILON >= config.postMotionObservationSec
    && (|| g.mission.LineMission?
        || (g.cameraOnly && g.mission.HurdleMission?)
        || (|g.hits| >= GATE_WINDOW && Count(g.hits) >= GATE_HITS))
  }

  function GateGuide(config: Config, g: Gate): LineGuide {
    if g.lineValid < Max(1, config.line.failureMinValidSamples) then INVALID_GUIDE
    else
      var n := g.lineValid as real;
      LineGuide(g.offsetSum / n, g.headingSum / n, 0.0, g.confidenceSum / n, true, false)
  }

  /** A frame after the gate has looked at it: the feedback it lets through, and
      whether it holds the mission. */
  datatype Admitted = Admitted(state: State, input: Input, hold: bool)

  function PassGate(config: Config, m: State, i: Input): Admitted {
    if !m.gate.active then Admitted(m, i, false)
    else
      var g := if !m.gate.firstFrame || !m.gate.cameraOnly then AddToGate(config, m.gate, i) else m.gate;
      if GateReady(config, g, i.nowSec) then
        var i := if g.cameraOnly then i else i.(feedback := g.deferred);
        var i := if g.mission.LineMission? then i.(guideOverride := Some(GateGuide(config, g))) else i;
        Admitted(m.(gate := g.(active := false)), i, false)
      else if !g.cameraOnly && g.deferred.actionId != 0 then
        Admitted(m.(gate := g), i.(feedback := DeliveryFeedback(g.deferred.actionId, true, false, false)), true)
      else
        Admitted(m.(gate := g), i.(feedback := NO_FEEDBACK), true)
  }

  // ----- LINE -----

  function LineConfigFor(config: Config, i: Input): Features.Config {
    if i.lineImageCenterU.Some? && 0.0 <= i.lineImageCenterU.value < i.width as real
    then config.features.(imageCenterU := i.lineImageCenterU.value)
    else config.features
  }

  function GuideSeen(config: Config, i: Input): LineGuide {
    Features.FeaturesOf(i.lineCenters, i.width, i.height, LineConfigFor(config, i)).guide
  }

  datatype LineOut = LineOut(line: LineSide, referenceValid: bool, request: ActionRequest)

  /** What the last command and this feedback say about the LINE walk in flight. */
  datatype LineFlight = LineFlight(pending: bool, feedback: bool, done: bool, active: bool, walking: bool)

  function FlightOf(last: ControlCommand, feedback: DeliveryFeedback): LineFlight {
    var pending := last.actionId != 0 && last.mission.LineMission? && last.category.LocomotionCategory?;
    var queuedWait := pending && (last.phase.WaitingQueuedActionAck? || last.phase.WaitingQueuedActionStart?);
    var matching := pending && feedback.actionId == last.actionId;
    var started := last.phase.WaitingActionDone? || (matching && feedback.acknowledged);
    LineFlight(pending, matching, matching && feedback.done, pending && !(matching && feedback.done),
               pending && !queuedWait && started && IsLongLineAction(last.action))
  }

  function Watch(line: LineSide, id: ActionId, nowSec: real, guide: LineGuide): Accumulator {
    var a := if !ActiveFor(line.accumulator, id) && line.readyId != id then BeginFor(id, nowSec) else line.accumulator;
    AddFrame(a, id, nowSec, guide)
  }

  function RunLine(config: Config, line: LineSide, guide: LineGuide, nowSec: real, active: bool, done: bool): LineOut {
    var out := Line.Compute(config.line, line.fsm, guide, nowSec, active, done);
    LineOut(line.(fsm := out.state), out.referenceValid, out.request)
  }

  /** READY or DONE of a long walk: judge the frames seen during it. */
  function JudgeWalk(config: Config, line: LineSide, id: ActionId, decision: LineGuide, nowSec: real, ready: bool, done: bool): LineOut {
    var remaining := if ready && !done then config.line.readyLeadSec else 0.0;
    var aggregate := FinishGuide(line.accumulator, id, nowSec, remaining);
    var line := LineSide(line.fsm, FinishState(line.accumulator, id, nowSec, remaining),
                         if ready then id else line.readyId, aggregate.None? && ready && !done);
    if line.failurePending then LineOut(line, false, NO_REQUEST)
    else RunLine(config, line, if aggregate.Some? then aggregate.value else decision.(valid := false), nowSec, false, done)
  }

  function ContinueLine(config: Config, line: LineSide, f: LineFlight, guide: LineGuide, decision: LineGuide, nowSec: real): LineOut {
    if f.done && line.failurePending then
      LineOut(line.(failurePending := false, fsm := Line.FailAfterDone(line.fsm, guide, nowSec)), false, NO_REQUEST)
    else RunLine(config, line, decision, nowSec, f.active, f.done)
  }

  function ComputeLine(config: Config, line: LineSide, last: ControlCommand, i: Input): LineOut {
    var guide := GuideSeen(config, i);
    if !i.advanceLineFsm then LineOut(line, false, NO_REQUEST)
    else
      var f := FlightOf(last, i.feedback);
      var decision := if i.guideOverride.Some? then i.guideOverride.value else guide;
      if f.walking then
        var line := line.(accumulator := Watch(line, last.actionId, i.nowSec, guide));
        if f.feedback && (i.feedback.ready || f.done) && line.readyId != last.actionId then
          JudgeWalk(config, line, last.actionId, decision, i.nowSec, i.feedback.ready, f.done)
        else ContinueLine(config, line, f, guide, decision, i.nowSec)
      else
        ContinueLine(config, if f.pending then line else line.(accumulator := Cleared(line.accumulator)), f, guide, decision, i.nowSec)
  }

  function BeginLineReacquisition(line: LineSide): LineSide { line.(fsm := Line.Reacquire(line.fsm), failurePending := false) }

  // ----- Entering and finishing missions -----

  function EnterMission(config: Config, m: State, mission: MissionType): State {
    var m := m.(active := mission, line := m.line.(accumulator := Cleared(m.line.accumulator), readyId := 0, failurePending := false));
    match mission
    case BallMission =>
      m.(hurdle := Hurdle.ResetState(m.hurdle), goal := Goal.ResetState(config.goal, m.goal),
         results := m.results.(hurdle := Hurdle.IDLE_RESULT, goal := Goal.IDLE_RESULT))
    case HurdleMission =>
      m.(goal := Goal.ResetState(config.goal, m.goal), hasBall := false,
         results := m.results.(ball := Ball.IDLE_RESULT, goal := Goal.IDLE_RESULT))
    case GoalMission =>
      m.(hurdle := Hurdle.ResetState(m.hurdle), results := m.results.(hurdle := Hurdle.IDLE_RESULT))
    case _ => m
  }

  function FinishMission(m: State): State { m.(active := LineMission, results := NO_RESULTS) }

  // ----- One mission step -----

  function ExecutionOf(last: ControlCommand, feedback: DeliveryFeedback): ActionExecution {
    var done := last.actionId != 0 && feedback.actionId == last.actionId && feedback.done;
    ActionExecution(done, last.actionId != 0 && !done)
  }

  function BallInput(i: Input, e: ActionExecution): Ball.Input { Ball.Input(i.ball, i.width, i.height, i.nowSec, i.camera, e) }

  function HurdleInput(i: Input, e: ActionExecution): Hurdle.Input {
    Hurdle.Input(i.hurdle, i.width, i.height, i.nowSec, i.camera, e)
  }

  function GoalInput(i: Input, e: ActionExecution, lineReference: bool): Goal.Input {
    Goal.Input(i.backboard, i.goalPose, i.width, i.height, i.nowSec, lineReference, i.camera, e)
  }

  /** A mission step: the new state and the LINE request, should LINE be active. */
  datatype Dispatched = Dispatched(state: State, lineRequest: ActionRequest)

  function TryGoal(config: Config, m: State, i: Input, e: ActionExecution, lineReference: bool): State {
    if !config.enableGoal then m
    else
      var armed := m.goal.(ball := Goal.UpdateBallState(m.goal.ball, m.goal.mode, true, true));
      var out := Goal.Compute(config.goal, armed, GoalInput(i, e, lineReference));
      var m := m.(goal := out.state, results := m.results.(goal := out.result));
      if out.result.mode.LineFollow? then m else EnterMission(config, m, GoalMission)
  }

  function TryBall(config: Config, m: State, i: Input, e: ActionExecution): State {
    if !config.enableBall then m
    else
      var out := Ball.Compute(config.ball, m.ball, BallInput(i, e));
      var m := m.(ball := out.state, results := m.results.(ball := out.result));
      if out.result.mode.LineFollow? then m else EnterMission(config, m, BallMission)
  }

  function TryHurdle(config: Config, m: State, i: Input, e: ActionExecution): State {
    if !config.enableHurdle then m
    else
      var out := Hurdle.Compute(config.hurdle, m.hurdle, HurdleInput(i, e));
      var m := m.(hurdle := out.state, results := m.results.(hurdle := out.result));
      if out.result.mode.LineFollow? then m else EnterMission(config, m, HurdleMission)
  }

  function StepLineMission(config: Config, m: State, i: Input, e: ActionExecution): Dispatched {
    var out := ComputeLine(config, m.line, m.last, i);
    var m := m.(line := out.line, results := NO_RESULTS);
    if m.line.fsm.mode.FinalHold? then Dispatched(m, out.request)
    else if m.hasBall then Dispatched(TryGoal(config, m, i, e, out.referenceValid), out.request)
    else
      var m := TryHurdle(config, m, i, e);
      Dispatched(if m.active.HurdleMission? then m else TryBall(config, m, i, e), out.request)
  }

  function StepBallMission(config: Config, m: State, i: Input, e: ActionExecution): Dispatched {
    var before := m.results.ball.mode;
    var line := if before.LineRecovery? then ComputeLine(config, m.line, m.last, i) else LineOut(m.line, false, NO_REQUEST);
    var out := Ball.Compute(config.ball, m.ball, BallInput(i, e));
    var mode := out.result.mode;
    var m := m.(line := line.line, ball := out.state, results := m.results.(ball := out.result), hasBall := out.result.hasBall);
    var m := if !before.LineRecovery? && mode.LineRecovery? then m.(line := BeginLineReacquisition(m.line)) else m;
    if mode.LineRecovery? && line.referenceValid then
      var m := m.(ball := Ball.CompleteLineRecovery(config.ball, m.ball, i.nowSec),
                  goal := if m.hasBall && config.enableGoal
                          then m.goal.(ball := Goal.UpdateBallState(m.goal.ball, m.goal.mode, out.result.hasBall, false)) else m.goal);
      Dispatched(FinishMission(m), line.request)
    else if mode.LineFollow? && !out.result.active then
      Dispatched(FinishMission(m.(line := BeginLineReacquisition(m.line))), line.request)
    else Dispatched(m, line.request)
  }

  function StepHurdleMission(config: Config, m: State, i: Input, e: ActionExecution): Dispatched {
    var out := Hurdle.Compute(config.hurdle, m.hurdle, HurdleInput(i, e));
    var m := m.(hurdle := out.state, results := m.results.(hurdle := out.result));
    if out.result.mode.LineFollow? && !out.result.active then
      Dispatched(FinishMission(m.(ball := Ball.ClearEntryEvidence(m.ball), line := BeginLineReacquisition(m.line))), NO_REQUEST)
    else Dispatched(m, NO_REQUEST)
  }

  function StepGoalMission(config: Config, m: State, i: Input, e: ActionExecution): Dispatched {
    var before := m.results.goal.mode;
    var line := if before.HeadingRecovery? then ComputeLine(config, m.line, m.last, i) else LineOut(m.line, false, NO_REQUEST);
    var out := Goal.Compute(config.goal, m.goal, GoalInput(i, e, line.referenceValid));
    var mode, held := out.result.mode, out.state.ball.hasBall;
    var m := m.(line := line.line, goal := out.state, results := m.results.(goal := out.result), hasBall := held,
                ball := m.ball.(hasBall := held));
    var m := if !before.HeadingRecovery? && mode.HeadingRecovery? then m.(line := BeginLineReacquisition(m.line)) else m;
    Dispatched(if mode.LineFollow? && !out.result.active then FinishMission(m) else m, line.request)
  }

  function Dispatch(config: Config, m: State, i: Input, e: ActionExecution): Dispatched {
    match m.active
    case LineMission => StepLineMission(config, m, i, e)
    case BallMission => StepBallMission(config, m, i, e)
    case HurdleMission => StepHurdleMission(config, m, i, e)
    case GoalMission => StepGoalMission(config, m, i, e)
    case NoMission =>
      var out := ComputeLine(config, m.line, m.last, i);
      Dispatched(m.(active := LineMission, line := out.line), out.request)
  }

  // ----- One frame -----

  /** The request of the active mission, and its camera motion. */
  function RequestOf(active: MissionType, r: Results, lineRequest: ActionRequest): ActionRequest {
    match active
    case BallMission => r.ball.action
    case HurdleMission => r.hurdle.action
    case GoalMission => r.goal.action
    case _ => lineRequest
  }

  function CameraOf(active: MissionType, r: Results): CameraRequest {
    match active
    case BallMission => r.ball.camera
    case HurdleMission => r.hurdle.camera
    case GoalMission => r.goal.camera
    case _ => NoCamera
  }

  datatype Step = Step(state: State, command: ControlCommand)

  /** Hands the request to the coordinator. */
  function Conclude(config: Config, m: State, i: Input, request: ActionRequest, camera: CameraRequest): Step {
    var out := CommandCoordinator.Compute(config.command, m.coordinator, m.active, request, camera, i.feedback, i.nowSec);
    Step(m.(coordinator := out.state, last := out.command), out.command)
  }

  /** Only the controller of the active mission keeps looking. */
  function ObserveActive(config: Config, m: State, i: Input): State {
    match m.active
    case BallMission => m.(ball := Ball.ObserveOnly(config.ball, m.ball, i.ball, i.width, i.height))
    case HurdleMission => m.(hurdle := Hurdle.ObserveOnly(config.hurdle, m.hurdle, i.hurdle, i.width, i.height))
    case GoalMission => m.(goal := Goal.ObserveOnly(config.goal, m.goal, i.backboard, i.goalPose, i.width, i.height))
    case _ => m
  }

  function HoldFrame(config: Config, m: State, i: Input): Step {
    Conclude(config, ObserveActive(config, m, i), i, NO_REQUEST, NoCamera)
  }

  function ForgetReady(line: LineSide, i: Input): LineSide {
    if i.advanceLineFsm && i.feedback.done && i.feedback.actionId == line.readyId then line.(readyId := 0) else line
  }

  /** The request that reaches the coordinator: none while the gate holds, and no new
      LINE action where none is allowed. */
  function RequestIn(d: Dispatched, i: Input, hold: bool): ActionRequest {
    if hold || (d.state.active.LineMission? && !i.allowNewLineAction) then NO_REQUEST
    else RequestOf(d.state.active, d.state.results, d.lineRequest)
  }

  function MissionFrame(config: Config, m: State, i: Input, hold: bool): Step {
    var m := m.(gate := m.gate.(firstFrame := false));
    var d := Dispatch(config, m, i, ExecutionOf(m.last, i.feedback));
    var camera := if hold then NoCamera else CameraOf(d.state.active, d.state.results);
    var out := Conclude(config, d.state, i, RequestIn(d, i, hold), camera);
    out.(state := out.state.(line := ForgetReady(out.state.line, i)))
  }

  /** One call of the supervisor. */
  function Compute(config: Config, m: State, i: Input): Step {
    var a := PassGate(config, OpenGate(config, m, i), i);
    if a.hold && !(a.state.gate.cameraOnly && a.state.gate.firstFrame)
    then HoldFrame(config, a.state, a.input)
    else MissionFrame(config, a.state, a.input, a.hold)
  }
}
