/** Who computes what in a frame of the supervisor: the active machine gets exactly this
    frame's picture, clock, camera and feedback, and LINE enters an object mission
    exactly when that machine leaves the line. */
module MissionFrames {
  import opened Types
  import opened CommandCoordinator
  import opened Mission
  import opened MissionMoves
  import opened MissionSync
  import opened MissionInvariant
  import opened MissionRuns
  import CoordinatorRuns
  import opened TrackerRefinement
  import BallProperties
  import HurdleProperties
  import GoalProperties
  import Line = LineRecovery
  import Ball = BallController
  import Hurdle = HurdleController
  import Goal = GoalController

  /** The last command is done when this feedback says so of its identifier, and until
      then it is running. */
  function Execution(last: ControlCommand, feedback: DeliveryFeedback): ActionExecution {
    if last.actionId == 0 then ActionExecution(false, false)
    else if feedback.done && feedback.actionId == last.actionId then ActionExecution(true, false)
    else ActionExecution(false, true)
  }

  function BallStep(config: Config, m: State, i: Input): Ball.Step {
    Ball.Compute(config.ball, m.ball, Ball.Input(i.ball, i.width, i.height, i.nowSec, i.camera, Execution(m.last, i.feedback)))
  }

  function HurdleStep(config: Config, m: State, i: Input): Hurdle.Step {
    Hurdle.Compute(config.hurdle, m.hurdle,
                   Hurdle.Input(i.hurdle, i.width, i.height, i.nowSec, i.camera, Execution(m.last, i.feedback)))
  }

  function GoalStep(config: Config, m: State, i: Input, goal: Goal.State, lineReference: bool): Goal.Step {
    Goal.Compute(config.goal, goal, Goal.Input(i.backboard, i.goalPose, i.width, i.height, i.nowSec, lineReference, i.camera,
                                               Execution(m.last, i.feedback)))
  }

  /** Whether LINE has its reference, if LINE computes in this frame. */
  function LineReference(config: Config, m: State, i: Input): bool { ComputeLine(config, m.line, m.last, i).referenceValid }

  lemma ExecutionIs(last: ControlCommand, feedback: DeliveryFeedback)
    ensures ExecutionOf(last, feedback) == Execution(last, feedback)
  {
  }

  // ----- One mission step -----

  /** GOAL is told of a picked-up ball before it is carried along the line. */
  function PickedUp(b: Goal.Possession): Goal.Possession {
    b.(hasBall := b.hasBall || !b.consumed, armed := false, lineWaitActive := false)
  }

  /** BALL computes until LINE has its reference again. */
  ghost predicate BallFrame(config: Config, m: State, i: Input, s: State) {
    var out := BallStep(config, m, i);
    if out.state.mode.LineRecovery? && m.ball.mode.LineRecovery? && LineReference(config, m, i) then
      && s.active.LineMission? && s.hasBall == out.state.hasBall
      && s.ball == Ball.CompleteLineRecovery(config.ball, out.state, i.nowSec)
      && s.goal == if s.hasBall && config.enableGoal then m.goal.(ball := PickedUp(m.goal.ball)) else m.goal
    else
      && s.active.BallMission? && s.hasBall == out.state.hasBall
      && s.ball == out.state && s.results.ball == out.result && s.goal == m.goal
  }

  /** Nothing of what was seen of the ball is left. */
  predicate BallUnseen(b: Ball.State, b': Ball.State) {
    b' == b.(tracker := b'.tracker) && BallProperties.FieldsOf(b'.tracker) == CLEARED
  }

  /** HURDLE computes until it is back on the line, where LINE looks for the line anew and
      balls seen before the hurdle do not count. */
  ghost predicate HurdleFrame(config: Config, m: State, i: Input, s: State) {
    var out := HurdleStep(config, m, i);
    && s.hurdle == out.state
    && if out.state.mode.LineFollow? then s.active.LineMission? && s.line.fsm.mode.FailureObserve? && BallUnseen(m.ball, s.ball)
       else s.active.HurdleMission? && s.results.hurdle == out.result && s.ball == m.ball
  }

  /** GOAL computes until it is back on the line; only while it turns back to the line
      does it look for the line's reference. */
  ghost predicate GoalFrame(config: Config, m: State, i: Input, s: State) {
    var out := GoalStep(config, m, i, m.goal, m.goal.mode.HeadingRecovery? && LineReference(config, m, i));
    && s.goal == out.state && s.hasBall == out.state.ball.hasBall && s.ball.hasBall == s.hasBall
    && if out.state.mode.LineFollow? then s.active.LineMission? else s.active.GoalMission? && s.results.goal == out.result
  }

  /** A ball not yet shot is carried along the line, ready to be shot. */
  function CarriedAlong(b: Goal.Possession): Goal.Possession {
    if b.consumed then b.(armed := false, lineWaitActive := false) else b.(hasBall := true, armed := true)
  }

  function GoalFromLine(config: Config, m: State, i: Input): Goal.Step {
    GoalStep(config, m, i, m.goal.(ball := CarriedAlong(m.goal.ball)), LineReference(config, m, i))
  }

  /** LINE goes on unless an enabled machine leaves the line: GOAL with a ball in hand,
      HURDLE and then BALL without; none of them in the final hold. */
  ghost predicate LineFrame(config: Config, m: State, i: Input, s: State) {
    var line := ComputeLine(config, m.line, m.last, i).line;
    && s.line.fsm == line.fsm
    && if line.fsm.mode.FinalHold? then s.active.LineMission?
       else if m.hasBall then
         if config.enableGoal && !GoalFromLine(config, m, i).state.mode.LineFollow? then
           s.active.GoalMission? && s.goal == GoalFromLine(config, m, i).state && s.results.goal == GoalFromLine(config, m, i).result
         else s.active.LineMission?
       else if config.enableHurdle && !HurdleStep(config, m, i).state.mode.LineFollow? then
         && s.active.HurdleMission? && !s.hasBall
         && s.hurdle == HurdleStep(config, m, i).state && s.results.hurdle == HurdleStep(config, m, i).result
       else if config.enableBall && !BallStep(config, m, i).state.mode.LineFollow? then
         s.active.BallMission? && s.ball == BallStep(config, m, i).state && s.results.ball == BallStep(config, m, i).result
       else s.active.LineMission?
  }

  ghost predicate FrameOfMission(config: Config, m: State, i: Input, s: State) {
    match m.active
    case LineMission => LineFrame(config, m, i, s)
    case BallMission => BallFrame(config, m, i, s)
    case HurdleMission => HurdleFrame(config, m, i, s)
    case GoalMission => GoalFrame(config, m, i, s)
    case NoMission => false
  }

  lemma BallStepMode(config: Config, m: State, i: Input)
    ensures var out := BallStep(config, m, i);
            && out.result.mode == out.state.mode && out.result.hasBall == out.state.hasBall
            && (!m.ball.mode.LineFollow? ==> !out.state.mode.LineFollow?)
  {
    BallProperties.ComputeMoves(config.ball, m.ball, BallInput(i, Execution(m.last, i.feedback)));
    hide Ball.Compute;
  }

  lemma HurdleStepMode(config: Config, m: State, i: Input)
    ensures var out := HurdleStep(config, m, i);
            && out.result.mode == out.state.mode && (out.state.mode.LineFollow? ==> !out.result.active)
  {
    HurdleProperties.ComputeMoves(config.hurdle, m.hurdle, HurdleInput(i, Execution(m.last, i.feedback)));
    hide Hurdle.Compute;
  }

  lemma GoalStepMode(config: Config, m: State, i: Input, goal: Goal.State, lineReference: bool)
    ensures var out := GoalStep(config, m, i, goal, lineReference);
            && out.result.mode == out.state.mode && (out.state.mode.LineFollow? ==> !out.result.active)
  {
    GoalProperties.ComputeMoves(config.goal, goal, GoalInput(i, Execution(m.last, i.feedback), lineReference));
    hide Goal.Compute;
  }

  lemma PickedUpIs(b: Goal.Possession, mode: Goal.Mode)
    ensures Goal.UpdateBallState(b, mode, true, false) == PickedUp(b)
  {
  }

  lemma BallDispatch(config: Config, m: State, i: Input)
    requires m.active.BallMission? && m.results.ball.mode == m.ball.mode && !m.ball.mode.LineFollow?
    ensures BallFrame(config, m, i, Dispatch(config, m, i, ExecutionOf(m.last, i.feedback)).state)
  {
    ExecutionIs(m.last, i.feedback);
    BallStepMode(config, m, i);
    PickedUpIs(m.goal.ball, m.goal.mode);
    hide Ball.Compute, ComputeLine, Execution, ExecutionOf, Goal.UpdateBallState, PickedUp, Ball.CompleteLineRecovery, Line.Reacquire;
  }

  lemma BallIsForgotten(b: Ball.State)
    requires b.mode.LineFollow?
    ensures BallUnseen(b, Ball.ClearEntryEvidence(b))
  {
  }

  lemma HurdleDispatch(config: Config, m: State, i: Input)
    requires m.active.HurdleMission? && m.ball.mode.LineFollow?
    ensures HurdleFrame(config, m, i, Dispatch(config, m, i, ExecutionOf(m.last, i.feedback)).state)
  {
    ExecutionIs(m.last, i.feedback);
    HurdleStepMode(config, m, i);
    BallIsForgotten(m.ball);
    hide Hurdle.Compute, Execution, ExecutionOf, Ball.ClearEntryEvidence, BallUnseen;
  }

  lemma GoalDispatch(config: Config, m: State, i: Input)
    requires m.active.GoalMission? && m.results.goal.mode == m.goal.mode
    ensures GoalFrame(config, m, i, Dispatch(config, m, i, ExecutionOf(m.last, i.feedback)).state)
  {
    ExecutionIs(m.last, i.feedback);
    GoalStepMode(config, m, i, m.goal, m.goal.mode.HeadingRecovery? && LineReference(config, m, i));
    hide Goal.Compute, ComputeLine, Execution, ExecutionOf, Line.Reacquire;
  }

  lemma CarriedIs(b: Goal.Possession)
    ensures Goal.UpdateBallState(b, Goal.LineFollow, true, true) == CarriedAlong(b)
  {
  }

  lemma LineDispatch(config: Config, m: State, i: Input)
    requires m.active.LineMission? && m.goal.mode.LineFollow?
    ensures LineFrame(config, m, i, Dispatch(config, m, i, ExecutionOf(m.last, i.feedback)).state)
  {
    hide Ball.Compute, Hurdle.Compute, Goal.Compute, ComputeLine, Execution, ExecutionOf, Goal.UpdateBallState, CarriedAlong,
         Hurdle.ResetState, Goal.ResetState;
    ExecutionIs(m.last, i.feedback);
    CarriedIs(m.goal.ball);
    BallStepMode(config, m, i);
    HurdleStepMode(config, m, i);
    GoalStepMode(config, m, i, m.goal.(ball := CarriedAlong(m.goal.ball)), LineReference(config, m, i));
  }

  lemma MirrorsModes(m: State)
    requires Shape(ProfileOf(m), m.results)
    ensures !m.active.NoMission?
    ensures m.active.BallMission? ==> m.results.ball.mode == m.ball.mode && !m.ball.mode.LineFollow?
    ensures m.active.GoalMission? ==> m.results.goal.mode == m.goal.mode
    ensures m.active.LineMission? ==> m.goal.mode.LineFollow?
    ensures m.active.HurdleMission? ==> m.ball.mode.LineFollow?
  {
  }

  lemma DispatchIs(config: Config, m: State, i: Input)
    requires Shape(ProfileOf(m), m.results)
    ensures FrameOfMission(config, m, i, Dispatch(config, m, i, ExecutionOf(m.last, i.feedback)).state)
  {
    hide Dispatch, ExecutionOf, BallFrame, HurdleFrame, GoalFrame, LineFrame, Shape, ProfileOf;
    MirrorsModes(m);
    match m.active {
      case LineMission => LineDispatch(config, m, i);
      case BallMission => BallDispatch(config, m, i);
      case HurdleMission => HurdleDispatch(config, m, i);
      case GoalMission => GoalDispatch(config, m, i);
      case NoMission =>
    }
  }

  // ----- One frame -----

  /** Nothing of the mission but the LINE's READY bookkeeping changes after its step. */
  ghost predicate SameAfter(d: State, s: State) {
    && s.active == d.active && s.hasBall == d.hasBall && s.results == d.results
    && s.ball == d.ball && s.hurdle == d.hurdle && s.goal == d.goal && s.line.fsm == d.line.fsm
  }

  lemma MissionFrameIs(config: Config, m: State, i: Input, hold: bool)
    ensures var n := m.(gate := m.gate.(firstFrame := false));
            SameAfter(Dispatch(config, n, i, ExecutionOf(n.last, i.feedback)).state, MissionFrame(config, m, i, hold).state)
  {
    hide Dispatch, ExecutionOf, CommandCoordinator.Compute, RequestIn, CameraOf;
  }

  lemma SameFrame(config: Config, m: State, i: Input, d: State, s: State)
    requires FrameOfMission(config, m, i, d) && SameAfter(d, s)
    ensures FrameOfMission(config, m, i, s)
  {
    hide Ball.Compute, Hurdle.Compute, Goal.Compute, ComputeLine, Execution, Ball.CompleteLineRecovery, CarriedAlong, PickedUp, BallUnseen;
  }

  lemma GateIsIgnored(config: Config, m: State, n: State, i: Input, s: State)
    requires n == m.(gate := n.gate) && FrameOfMission(config, n, i, s)
    ensures FrameOfMission(config, m, i, s)
  {
    hide Ball.Compute, Hurdle.Compute, Goal.Compute, ComputeLine, Execution, Ball.CompleteLineRecovery, CarriedAlong, PickedUp, BallUnseen;
  }

  /** A frame that only observes shows the picture to the active machine, and does
      nothing else. */
  ghost predicate ObservingFrame(config: Config, m: State, i: Input, s: State) {
    && s.active == m.active && s.hasBall == m.hasBall && s.line == m.line && s.results == m.results
    && s.ball == (if m.active.BallMission? then Ball.ObserveOnly(config.ball, m.ball, i.ball, i.width, i.height) else m.ball)
    && s.hurdle == (if m.active.HurdleMission? then Hurdle.ObserveOnly(config.hurdle, m.hurdle, i.hurdle, i.width, i.height)
                    else m.hurdle)
    && s.goal == (if m.active.GoalMission? then Goal.ObserveOnly(config.goal, m.goal, i.backboard, i.goalPose, i.width, i.height)
                  else m.goal)
  }

  lemma HoldFrameIs(config: Config, m: State, i: Input)
    ensures ObservingFrame(config, m, i, HoldFrame(config, m, i).state)
  {
    hide CommandCoordinator.Compute, Ball.ObserveOnly, Hurdle.ObserveOnly, Goal.ObserveOnly;
  }

  /** Every frame of every run, after the gate has looked at it: the active machine
      computes on exactly this picture, or observes it while the gate is open. */
  lemma FrameIsComputed(config: Config, inputs: seq<Input>, steps: seq<Step>, k: nat)
    requires IsRun(config, inputs, steps) && k < |inputs|
    ensures var a, s := AdmittedOf(config, Before(config, steps, k), inputs[k]), steps[k].state;
            if Holds(a) then ObservingFrame(config, a.state, a.input, s) else FrameOfMission(config, a.state, a.input, s)
  {
    hide Mission.Compute, Before, AdmittedOf, FrameOfMission, ObservingFrame, MissionFrame, HoldFrame, Shape, Linked,
         CoordinatorRuns.WellFormed, ProfileOf, SameAfter, Dispatch, ExecutionOf;
    var m, i := Before(config, steps, k), inputs[k];
    RunBase(config, inputs, steps, k);
    RunStep(config, inputs, steps, k);
    FrameIs(config, m, i);
    AdmittedBase(config, m, i);
    var a := AdmittedOf(config, m, i);
    if Holds(a) {
      HoldFrameIs(config, a.state, a.input);
    } else {
      var n := a.state.(gate := a.state.gate.(firstFrame := false));
      ProfileIgnoresGate(a.state, n);
      DispatchIs(config, n, a.input);
      MissionFrameIs(config, a.state, a.input, a.hold);
      SameFrame(config, n, a.input, Dispatch(config, n, a.input, ExecutionOf(n.last, a.input.feedback)).state, steps[k].state);
      GateIsIgnored(config, a.state, n, a.input, steps[k].state);
    }
  }
}
