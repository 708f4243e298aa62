/** What the supervisor commands in a frame, told by what its machines ask for. */
module MissionCommands {
  import opened Types
  import opened CommandCoordinator
  import opened CoordinatorRuns
  import opened Mission
  import opened MissionMoves
  import opened MissionSync
  import opened MissionInvariant
  import opened MissionRuns
  import opened MissionDelivery
  import Steering
  import Line = LineRecovery
  import LineDecisions
  import Ball = BallController
  import Hurdle = HurdleController
  import Goal = GoalController

  // ----- What the active mission asks for -----

  /** The camera motion and the action of the active object mission. */
  function AskedCamera(m: State): CameraRequest {
    match m.active
    case BallMission => m.results.ball.camera
    case HurdleMission => m.results.hurdle.camera
    case GoalMission => m.results.goal.camera
    case _ => NoCamera
  }

  function AskedAction(m: State): ActionRequest {
    match m.active
    case BallMission => m.results.ball.action
    case HurdleMission => m.results.hurdle.action
    case GoalMission => m.results.goal.action
    case _ => NO_REQUEST
  }

  /** What the coordinator is given in a frame after which m is the state; `line` is what
      LINE asks for. */
  function Given(m: State, a: Admitted, line: ActionRequest): Frame {
    Frame(m.active,
          if a.hold then NO_REQUEST
          else if !m.active.LineMission? then AskedAction(m)
          else if a.input.allowNewLineAction then line else NO_REQUEST,
          if a.hold then NoCamera else AskedCamera(m),
          a.input.feedback,
          a.input.nowSec)
  }

  /** What LINE asks for in this frame, if it is asked. */
  function LineAsked(config: Config, m: State, a: Admitted): ActionRequest {
    Dispatch(config, a.state.(gate := a.state.gate.(firstFrame := false)), a.input, ExecutionOf(a.state.last, a.input.feedback)).lineRequest
  }

  lemma ObservingGives(config: Config, m: State, i: Input)
    ensures var n := ObserveActive(config, m, i);
            FrameOf(n, i, NO_REQUEST, NoCamera) == Frame(m.active, NO_REQUEST, NoCamera, i.feedback, i.nowSec)
            && HoldFrame(config, m, i).state.active == m.active
  {
    hide Ball.ObserveOnly, Hurdle.ObserveOnly, Goal.ObserveOnly, CommandCoordinator.Compute;
  }

  lemma MissionFrameGives(config: Config, m: State, i: Input, hold: bool)
    requires !m.active.NoMission? && Shape(ProfileOf(m), m.results)
    ensures var n := m.(gate := m.gate.(firstFrame := false));
            var d, s := Dispatch(config, n, i, ExecutionOf(n.last, i.feedback)), MissionFrame(config, m, i, hold).state;
            && s.active == d.state.active && s.results == d.state.results
            && FrameOf(d.state, i, RequestIn(d, i, hold), if hold then NoCamera else CameraOf(d.state.active, d.state.results))
               == Given(s, Admitted(m, i, hold), d.lineRequest)
  {
    var n := m.(gate := m.gate.(firstFrame := false));
    ProfileIgnoresGate(m, n);
    hide Dispatch, ExecutionOf, CommandCoordinator.Compute, ProfileOf, Shape, DispatchMoves;
    DispatchIsMove(config, n, i, ExecutionOf(n.last, i.feedback));
    MoveKeepsActive(config, n, i, ExecutionOf(n.last, i.feedback));
  }

  lemma MoveKeepsActive(config: Config, m: State, i: Input, e: ActionExecution)
    requires Shape(ProfileOf(m), m.results)
    ensures !Dispatch(config, m, i, e).state.active.NoMission?
  {
    hide Dispatch, LineOutOf, ProfileOf, Shape, DispatchMoves;
    DispatchIsMove(config, m, i, e);
    var d := Dispatch(config, m, i, e);
    MoveKeepsShape(ProfileOf(m), m.results, e, LineOutOf(config, m, i), ProfileOf(d.state), d.state.results, d.lineRequest);
    ShapeIsActive(ProfileOf(d.state), d.state.results);
    ProfileActive(d.state);
  }

  lemma ShapeIsActive(p: Profile, r: Results)
    requires Shape(p, r)
    ensures !p.active.NoMission?
  {
  }

  /** In every frame the coordinator is given what the mission active at its end asks for:
      nothing while the gate holds, and no new LINE action where none is allowed. */
  lemma GivenIs(config: Config, m: State, i: Input)
    requires Base(m)
    ensures var a, s := AdmittedOf(config, m, i), Mission.Compute(config, m, i).state;
            GivenFrame(config, m, i) == Given(s, a, if a.hold then NO_REQUEST else LineAsked(config, m, a))
  {
    hide AdmittedOf, Mission.Compute, HoldFrame, MissionFrame, Shape, Linked, WellFormed, ProfileOf, Dispatch, ObserveActive, ExecutionOf,
         RequestIn, CameraOf;
    FrameIs(config, m, i);
    AdmittedBase(config, m, i);
    ShapeIsActive(ProfileOf(m), m.results);
    ProfileActive(m);
    var a := AdmittedOf(config, m, i);
    ProfileActive(a.state);
    if Holds(a) { ObservingGives(config, a.state, a.input); } else { MissionFrameGives(config, a.state, a.input, a.hold); }
  }

  /** Over every run the command moves the camera exactly as the active mission asks,
      and not at all while the gate holds. */
  lemma CommandCamera(config: Config, inputs: seq<Input>, steps: seq<Step>, k: nat)
    requires IsRun(config, inputs, steps) && k < |inputs|
    ensures steps[k].command.camera
         == if AdmittedOf(config, Before(config, steps, k), inputs[k]).hold then NoCamera else AskedCamera(steps[k].state)
  {
    hide Mission.Compute, Before, AdmittedOf, GivenFrame, CoordinatorRuns.Step, Base, AskedCamera, AskedAction;
    var m, i := Before(config, steps, k), inputs[k];
    RunBase(config, inputs, steps, k);
    RunStep(config, inputs, steps, k);
    GivenFrameIsStep(config, m, i);
    GivenIs(config, m, i);
    CameraPasses(config.command, m.coordinator, GivenFrame(config, m, i));
  }

  // ----- From the request to the command -----

  /** The command for a request when nothing is outstanding any more. */
  function CommandFor(f: Frame, id: ActionId): ControlCommand {
    if f.request.action.NoAction? then IDLE_COMMAND.(mission := f.mission, camera := f.camera)
    else ControlCommand(ActionCommand, f.mission, WaitingActionAck, f.request.action, f.request.category, id, f.request.yawDeg, f.camera)
  }

  lemma FreshStep(config: CommandConfig, c: CoordinatorState, f: Frame)
    requires WellFormed(c) && c.pendingId == 0 && c.suppressed.NoAction?
    ensures CoordinatorRuns.Step(config, c, f).command == CommandFor(f, c.nextId)
  {
  }

  /** DONE of the only action in flight makes room for the next one. */
  lemma NextStep(config: CommandConfig, c: CoordinatorState, f: Frame)
    requires WellFormed(c) && !c.timedOut && c.queuedId == 0 && TakesDone(c, f.feedback)
    requires f.request.category.MissionCategory? ==> f.request.action != c.pendingRequest.action && f.request.action != c.suppressed
    ensures CoordinatorRuns.Step(config, c, f).command == CommandFor(f, c.nextId)
  {
    var a := Absorb(config, c, f.feedback, f.nowSec);
    assert a.pendingId == 0 && !a.timedOut && a.nextId == c.nextId;
    assert a.suppressed == c.suppressed || a.suppressed == c.pendingRequest.action;
    assert a.suppressed == c.suppressed || c.pendingRequest.category.MissionCategory?;
    hide Absorb;
  }

  lemma NothingIsSuppressed(m: State)
    requires Inv(m) && m.coordinator.pendingId == 0
    ensures WellFormed(m.coordinator) && !m.coordinator.timedOut && m.coordinator.suppressed.NoAction?
  {
    hide Shape, InSync;
    EmptyIsUnsuppressed(ProfileOf(m), m.coordinator.suppressed);
  }

  /** With nothing in flight, what the active mission asks for is commanded at once, under
      the next identifier: over every legal run no request is dropped or changed. */
  lemma RequestIsCommanded(config: Config, inputs: seq<Input>, steps: seq<Step>, k: nat)
    requires LegalRun(config, inputs, steps) && k < |inputs| && Before(config, steps, k).coordinator.pendingId == 0
    ensures var m := Before(config, steps, k);
            var a := AdmittedOf(config, m, inputs[k]);
            steps[k].command == CommandFor(Given(steps[k].state, a, if a.hold then NO_REQUEST else LineAsked(config, m, a)),
                                           m.coordinator.nextId)
  {
    hide Mission.Compute, Before, AdmittedOf, GivenFrame, CoordinatorRuns.Step, Inv, Base, Given, CommandFor, LineAsked, Allowed;
    var m, i := Before(config, steps, k), inputs[k];
    RunInv(config, inputs, steps, k);
    RunBase(config, inputs, steps, k);
    RunStep(config, inputs, steps, k);
    NothingIsSuppressed(m);
    GivenFrameIsStep(config, m, i);
    GivenIs(config, m, i);
    FreshStep(config.command, m.coordinator, GivenFrame(config, m, i));
  }

  // ----- LINE -----

  /** The guide LINE decides on when it does not judge a walk: the one of the gate, if it
      gives one, and what this frame shows otherwise. */
  function LineGuideOf(config: Config, a: Admitted): LineGuide {
    if a.input.guideOverride.Some? then a.input.guideOverride.value else GuideSeen(config, a.input)
  }

  lemma IdleLineDecides(config: Config, line: LineSide, last: ControlCommand, i: Input)
    requires last.actionId == 0 && i.advanceLineFsm && line.fsm.mode.Normal?
    requires (if i.guideOverride.Some? then i.guideOverride.value else GuideSeen(config, i)).valid
    ensures ComputeLine(config, line, last, i).request
         == LineDecisions.WalkFor(config.line, if i.guideOverride.Some? then i.guideOverride.value else GuideSeen(config, i))
  {
    hide GuideSeen, Line.Compute, LineDecisions.WalkFor;
    var decision := if i.guideOverride.Some? then i.guideOverride.value else GuideSeen(config, i);
    LineDecisions.CruiseDecides(config.line, line.fsm, decision, i.nowSec, false);
  }

  lemma LineAskedIs(config: Config, m: State, a: Admitted)
    requires a.state.active.LineMission?
    ensures LineAsked(config, m, a) == ComputeLine(config, a.state.line, a.state.last, a.input).request
  {
    hide ComputeLine, TryGoal, TryHurdle, TryBall;
  }

  /** On the line, in cruise and with nothing in flight, a valid guide is answered at once
      by a long walk towards the line: STEP_FORWARD_RIGHT, STEP_FORWARD_LEFT or
      STEP_FORWARD_FIVE exactly as the weighted sum of offset and heading is above the
      deadband, below the negative one, or in between. */
  lemma LineWalksToTheLine(config: Config, inputs: seq<Input>, steps: seq<Step>, k: nat)
    requires LegalRun(config, inputs, steps) && k < |inputs|
    requires var m := Before(config, steps, k);
             var a := AdmittedOf(config, m, inputs[k]);
             && m.coordinator.pendingId == 0 && m.active.LineMission? && steps[k].state.active.LineMission?
             && m.line.fsm.mode.Normal? && !a.hold && a.input.advanceLineFsm && a.input.allowNewLineAction
             && LineGuideOf(config, a).valid
    ensures var m, g := Before(config, steps, k), LineGuideOf(config, AdmittedOf(config, Before(config, steps, k), inputs[k]));
            var action := Steering.WalkTowards(LineDecisions.Deviation(config.line, g), config.line.steering.deadband);
            steps[k].command == if action.NoAction? then IDLE_COMMAND
                                else ControlCommand(ActionCommand, LineMission, WaitingActionAck, action, LocomotionCategory,
                                                    m.coordinator.nextId, 0, NoCamera)
  {
    hide Mission.Compute, Before, AdmittedOf, Inv, Base, ComputeLine, LineAsked, LineGuideOf, Allowed, Steering.WalkTowards;
    var m, i := Before(config, steps, k), inputs[k];
    var a := AdmittedOf(config, m, i);
    RunInv(config, inputs, steps, k);
    RequestIsCommanded(config, inputs, steps, k);
    AdmittedBase(config, m, i);
    SameLine(config, m, i);
    LineAskedIs(config, m, a);
    NothingNamed(m);
    LineDecidesOn(config, a);
    hide LineDecisions.WalkFor, CommandFor;
    WalkCommand(config, a, Given(steps[k].state, a, LineAsked(config, m, a)), m.coordinator.nextId);
  }

  lemma WalkCommand(config: Config, a: Admitted, f: Frame, id: ActionId)
    requires f.mission.LineMission? && f.camera.NoCamera? && f.request == LineDecisions.WalkFor(config.line, LineGuideOf(config, a))
    ensures var action := Steering.WalkTowards(LineDecisions.Deviation(config.line, LineGuideOf(config, a)), config.line.steering.deadband);
            CommandFor(f, id) == if action.NoAction? then IDLE_COMMAND
                                 else ControlCommand(ActionCommand, LineMission, WaitingActionAck, action, LocomotionCategory, id, 0,
                                                     NoCamera)
  {
    hide LineGuideOf, Steering.WalkTowards, LineDecisions.Deviation;
    assert IDLE_COMMAND.(mission := f.mission, camera := f.camera) == IDLE_COMMAND;
  }

  lemma SameLine(config: Config, m: State, i: Input)
    ensures var a := AdmittedOf(config, m, i);
            SameMission(m, a.state) ==> a.state.active == m.active && a.state.line.fsm.mode == m.line.fsm.mode
  {
    hide AdmittedOf;
  }

  lemma NothingNamed(m: State)
    requires Inv(m) && m.coordinator.pendingId == 0
    ensures m.last.actionId == 0
  {
    hide Shape, InSync;
  }

  lemma LineDecidesOn(config: Config, a: Admitted)
    requires a.state.last.actionId == 0 && a.input.advanceLineFsm && a.state.line.fsm.mode.Normal? && LineGuideOf(config, a).valid
    ensures ComputeLine(config, a.state.line, a.state.last, a.input).request
         == LineDecisions.WalkFor(config.line, LineGuideOf(config, a))
  {
    hide ComputeLine, LineDecisions.WalkFor, GuideSeen;
    IdleLineDecides(config, a.state.line, a.state.last, a.input);
  }
}
