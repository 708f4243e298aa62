/** One mission step seen through the modes of its machines and who holds the ball. */
module MissionMoves {
  import opened Types
  import opened Mission
  import Line = LineRecovery
  import Ball = BallController
  import Hurdle = HurdleController
  import Goal = GoalController
  import BallProperties
  import HurdleProperties
  import GoalProperties

  /** The modes of all machines, and possession as each of them believes it. */
  datatype Profile = Profile(
    active: MissionType,
    hasBall: bool,
    fsm: Line.Mode,
    ball: Ball.Mode,
    ballHeld: bool,
    backAwayIssued: bool,
    hurdle: Hurdle.Mode,
    goal: Goal.Mode,
    possession: Goal.Possession)

  function ProfileOf(m: State): Profile {
    Profile(m.active, m.hasBall, m.line.fsm.mode, m.ball.mode, m.ball.hasBall, m.ball.backAwayIssued, m.hurdle.mode,
            m.goal.mode, m.goal.ball)
  }

  predicate OnlyBall(p: Profile) { p.hurdle.LineFollow? && p.goal.LineFollow? }

  predicate OnlyHurdle(p: Profile) { p.ball.LineFollow? && p.goal.LineFollow? }

  predicate OnlyGoal(p: Profile) { p.ball.LineFollow? && p.hurdle.LineFollow? }

  /** Inactive controllers follow the line, the active one does not, its result
      mirrors its mode, and everyone agrees about the ball:
      BALL holds it from the verified pickup on, GOAL until the completed SHOOT,
      HURDLE never; and whoever carries it on the line can still shoot it. */
  ghost predicate Shape(p: Profile, r: Results) {
    match p.active
    case NoMission => false
    case LineMission =>
      && p.ball.LineFollow? && OnlyBall(p)
      && (p.ballHeld ==> p.hasBall) && (p.hasBall ==> !p.possession.consumed)
    case BallMission =>
      && !p.ball.LineFollow? && OnlyBall(p) && r.ball.mode == p.ball
      && p.hasBall == p.ballHeld && !p.possession.consumed
      && (p.hasBall ==> p.ball.StandUp? || p.ball.BackAway? || p.ball.ReturnCamera? || p.ball.LineRecovery?)
      && (p.fsm.FinalHold? ==> p.ball.LineRecovery?) && (p.ball.BackAway? ==> p.backAwayIssued)
    case HurdleMission =>
      && !p.hurdle.LineFollow? && OnlyHurdle(p) && r.hurdle.mode == p.hurdle
      && !p.hasBall && !p.ballHeld && !p.fsm.FinalHold?
    case GoalMission =>
      && !p.goal.LineFollow? && OnlyGoal(p) && r.goal.mode == p.goal
      && p.hasBall == p.possession.hasBall && (p.ballHeld ==> p.hasBall)
      && (p.hasBall <==> !p.goal.ReturnCamera? && !p.goal.HeadingRecovery?)
      && (p.hasBall ==> !p.possession.consumed)
      && (p.fsm.FinalHold? ==> p.goal.HeadingRecovery?)
  }

  /** What one mission step does; `out` is what the LINE machine computes if it is
      asked, and `e` what the controllers are told about the action in flight. */
  ghost predicate DispatchMoves(p: Profile, e: ActionExecution, out: LineOut, p': Profile, r: Results, lineRequest: ActionRequest) {
    match p.active
    case NoMission => true
    case LineMission => LineMissionMoves(p, e, out, p', r) && lineRequest == out.request
    case BallMission => BallMissionMoves(p, e, out, p', r) && (p.ball.LineRecovery? ==> lineRequest == out.request)
    case HurdleMission => HurdleMissionMoves(p, e, p', r) && lineRequest == NO_REQUEST
    case GoalMission => GoalMissionMoves(p, e, out, p', r) && (p.goal.HeadingRecovery? ==> lineRequest == out.request)
  }

  /** GOAL is told that the ball is carried along the line, then takes its step. */
  ghost predicate GoalMovesFromLine(p: Profile, e: ActionExecution, out: LineOut, p': Profile, r: Results) {
    GoalProperties.Moves(Goal.LineFollow, Goal.UpdateBallState(p.possession, Goal.LineFollow, true, true), e, out.referenceValid,
                         p'.goal, p'.possession, r.goal)
  }

  ghost predicate LineMissionMoves(p: Profile, e: ActionExecution, out: LineOut, p': Profile, r: Results) {
    && p'.fsm == out.line.fsm.mode && p'.hasBall == p.hasBall
    && match p'.active
       case LineMission =>
         && p'.ball.LineFollow? && OnlyBall(p') && p'.ballHeld == p.ballHeld
         && (p'.possession == p.possession || (p.hasBall && GoalMovesFromLine(p, e, out, p', r)))
       case BallMission =>
         && !p.hasBall && !p'.fsm.FinalHold? && !p'.ball.LineFollow? && OnlyBall(p') && !p'.possession.consumed
         && BallProperties.Moves(Ball.LineFollow, p.ballHeld, p.backAwayIssued, e, p'.ball, p'.ballHeld, p'.backAwayIssued, r.ball)
       case HurdleMission =>
         && !p.hasBall && !p'.fsm.FinalHold? && !p'.hurdle.LineFollow? && OnlyHurdle(p') && p'.ballHeld == p.ballHeld
         && HurdleProperties.Moves(Hurdle.LineFollow, e, p'.hurdle, r.hurdle)
       case GoalMission =>
         && p.hasBall && !p'.fsm.FinalHold? && !p'.goal.LineFollow? && OnlyGoal(p') && p'.ballHeld == p.ballHeld
         && GoalMovesFromLine(p, e, out, p', r)
       case NoMission => false
  }

  ghost predicate BallMissionMoves(p: Profile, e: ActionExecution, out: LineOut, p': Profile, r: Results) {
    && OnlyBall(p') && p'.hasBall == p'.ballHeld && !p'.possession.consumed
    && match p'.active
       case BallMission =>
         && !p'.ball.LineFollow? && p'.possession == p.possession
         && BallProperties.Moves(p.ball, p.ballHeld, p.backAwayIssued, e, p'.ball, p'.ballHeld, p'.backAwayIssued, r.ball)
         && p'.fsm == (if p.ball.LineRecovery? then out.line.fsm.mode
                       else if p'.ball.LineRecovery? then Line.FailureObserve else p.fsm)
       case LineMission =>
         && p.ball.LineRecovery? && out.referenceValid
         && p'.ball.LineFollow? && p'.fsm == out.line.fsm.mode && p'.hasBall == p.hasBall
       case _ => false
  }

  ghost predicate HurdleMissionMoves(p: Profile, e: ActionExecution, p': Profile, r: Results) {
    && OnlyHurdle(p') && p'.hasBall == p.hasBall && p'.ballHeld == p.ballHeld && p'.possession == p.possession
    && match p'.active
       case HurdleMission =>
         !p'.hurdle.LineFollow? && HurdleProperties.Moves(p.hurdle, e, p'.hurdle, r.hurdle) && p'.fsm == p.fsm
       case LineMission => p.hurdle.ReturnCamera? && p'.hurdle.LineFollow? && p'.fsm.FailureObserve?
       case _ => false
  }

  ghost predicate GoalMissionMoves(p: Profile, e: ActionExecution, out: LineOut, p': Profile, r: Results) {
    && OnlyGoal(p') && p'.hasBall == p'.possession.hasBall && p'.ballHeld == p'.hasBall
    && match p'.active
       case GoalMission =>
         && !p'.goal.LineFollow?
         && GoalProperties.Moves(p.goal, p.possession, e, p.goal.HeadingRecovery? && out.referenceValid, p'.goal, p'.possession, r.goal)
         && p'.fsm == (if p.goal.HeadingRecovery? then out.line.fsm.mode
                       else if p'.goal.HeadingRecovery? then Line.FailureObserve else p.fsm)
       case LineMission =>
         && p.goal.HeadingRecovery? && out.referenceValid
         && p'.goal.LineFollow? && p'.fsm == out.line.fsm.mode && p'.hasBall == p.hasBall
       case _ => false
  }

  /** The parts of the state that a mission step leaves alone. */
  ghost predicate KeepsRest(m: State, m': State) {
    m'.last == m.last && m'.coordinator == m.coordinator && m'.gate == m.gate && m'.previousCamera == m.previousCamera
  }

  /** The LINE output of the frame, whether or not it is asked for. */
  function LineOutOf(config: Config, m: State, i: Input): LineOut { ComputeLine(config, m.line, m.last, i) }

  /** Entering a mission sends the other controllers back to the line. */
  lemma EnterMissionProfile(config: Config, m: State, mission: MissionType)
    requires mission.BallMission? || mission.HurdleMission? || mission.GoalMission?
    ensures var n := EnterMission(config, m, mission);
            var p, p' := ProfileOf(m), ProfileOf(n);
            && KeepsRest(m, n)
            && p' == p.(active := mission, hasBall := p.hasBall && !mission.HurdleMission?, possession := p'.possession,
                        hurdle := if mission.HurdleMission? then p.hurdle else Hurdle.LineFollow,
                        goal := if mission.GoalMission? then p.goal else Goal.LineFollow)
            && (if mission.GoalMission? then p'.possession == p.possession else !p'.possession.consumed)
            && (mission.BallMission? ==> n.results.ball == m.results.ball)
            && (mission.HurdleMission? ==> n.results.hurdle == m.results.hurdle)
            && (mission.GoalMission? ==> n.results.goal == m.results.goal)
  {
  }

  lemma TryGoalMoves(config: Config, m: State, i: Input, e: ActionExecution, out: LineOut)
    requires m.active.LineMission? && m.hasBall && !m.line.fsm.mode.FinalHold?
    requires m.ball.mode.LineFollow? && m.hurdle.mode.LineFollow? && m.goal.mode.LineFollow? && out.line == m.line
    ensures var m' := TryGoal(config, m, i, e, out.referenceValid);
            && KeepsRest(m, m')
            && LineMissionMoves(ProfileOf(m), e, out, ProfileOf(m'), m'.results)
  {
    hide Goal.Compute, Goal.UpdateBallState, EnterMission;
    if config.enableGoal {
      var armed := m.goal.(ball := Goal.UpdateBallState(m.goal.ball, m.goal.mode, true, true));
      GoalProperties.ComputeMoves(config.goal, armed, GoalInput(i, e, out.referenceValid));
      var g := Goal.Compute(config.goal, armed, GoalInput(i, e, out.referenceValid));
      assert g.result.mode == g.state.mode;
      hide GoalProperties.Moves;
      EnterMissionProfile(config, m.(goal := g.state, results := m.results.(goal := g.result)), GoalMission);
    }
  }

  lemma TryHurdleMoves(config: Config, m: State, i: Input, e: ActionExecution, out: LineOut)
    requires m.active.LineMission? && !m.hasBall && !m.ball.hasBall && !m.line.fsm.mode.FinalHold?
    requires m.ball.mode.LineFollow? && m.hurdle.mode.LineFollow? && m.goal.mode.LineFollow? && out.line == m.line
    ensures var m' := TryHurdle(config, m, i, e);
            && KeepsRest(m, m') && m'.ball == m.ball
            && LineMissionMoves(ProfileOf(m), e, out, ProfileOf(m'), m'.results)
            && (m'.active.LineMission? ==> m' == m.(hurdle := m'.hurdle, results := m'.results))
            && (m'.active.LineMission? || m'.active.HurdleMission?)
  {
    hide Hurdle.Compute;
    if config.enableHurdle {
      HurdleProperties.ComputeMoves(config.hurdle, m.hurdle, HurdleInput(i, e));
      var h := Hurdle.Compute(config.hurdle, m.hurdle, HurdleInput(i, e));
      assert h.result.mode == h.state.mode;
      hide HurdleProperties.Moves;
      EnterMissionProfile(config, m.(hurdle := h.state, results := m.results.(hurdle := h.result)), HurdleMission);
    }
    hide Goal.ResetState;
  }

  lemma TryBallMoves(config: Config, m: State, i: Input, e: ActionExecution, out: LineOut)
    requires m.active.LineMission? && !m.hasBall && !m.ball.hasBall && !m.line.fsm.mode.FinalHold?
    requires m.ball.mode.LineFollow? && m.hurdle.mode.LineFollow? && m.goal.mode.LineFollow? && out.line == m.line
    ensures var m' := TryBall(config, m, i, e);
            && KeepsRest(m, m')
            && LineMissionMoves(ProfileOf(m), e, out, ProfileOf(m'), m'.results)
  {
    hide Ball.Compute, EnterMission;
    if config.enableBall {
      BallProperties.ComputeMoves(config.ball, m.ball, BallInput(i, e));
      var b := Ball.Compute(config.ball, m.ball, BallInput(i, e));
      assert b.result.mode == b.state.mode && (b.state.mode.LineFollow? ==> b.state.hasBall == m.ball.hasBall);
      hide BallProperties.Moves;
      EnterMissionProfile(config, m.(ball := b.state, results := m.results.(ball := b.result)), BallMission);
    }
  }

  lemma StepLineMoves(config: Config, m: State, i: Input, e: ActionExecution)
    requires m.active.LineMission? && Shape(ProfileOf(m), m.results)
    ensures var d := StepLineMission(config, m, i, e);
            && KeepsRest(m, d.state)
            && DispatchMoves(ProfileOf(m), e, LineOutOf(config, m, i), ProfileOf(d.state), d.state.results, d.lineRequest)
  {
    var out := ComputeLine(config, m.line, m.last, i);
    var n := m.(line := out.line, results := NO_RESULTS);
    hide ComputeLine, TryGoal, TryHurdle, TryBall;
    if !n.line.fsm.mode.FinalHold? {
      if m.hasBall {
        TryGoalMoves(config, n, i, e, out);
      } else {
        TryHurdleMoves(config, n, i, e, out);
        var h := TryHurdle(config, n, i, e);
        if !h.active.HurdleMission? { TryBallMoves(config, h, i, e, out); }
      }
      hide BallProperties.Moves, HurdleProperties.Moves, GoalProperties.Moves;
    }
  }

  lemma BallStepFacts(config: Config, m: State, i: Ball.Input)
    requires !m.ball.mode.LineFollow?
    ensures var out := Ball.Compute(config.ball, m.ball, i);
            && BallProperties.StepMoves(m.ball, i, out)
            && out.result.mode == out.state.mode && out.result.hasBall == out.state.hasBall && !out.state.mode.LineFollow?
            && (out.state.mode.LineRecovery? ==> m.ball.mode.ReturnCamera? || m.ball.mode.LineRecovery?)
            && (m.ball.mode.LineRecovery? ==> out.state.hasBall == m.ball.hasBall)
  {
    hide Ball.Compute;
    BallProperties.ComputeMoves(config.ball, m.ball, i);
  }

  lemma StepBallMoves(config: Config, m: State, i: Input, e: ActionExecution)
    requires m.active.BallMission? && Shape(ProfileOf(m), m.results)
    ensures var d := StepBallMission(config, m, i, e);
            && KeepsRest(m, d.state)
            && DispatchMoves(ProfileOf(m), e, LineOutOf(config, m, i), ProfileOf(d.state), d.state.results, d.lineRequest)
  {
    hide ComputeLine, Ball.Compute, BallProperties.Moves;
    BallStepFacts(config, m, BallInput(i, e));
  }

  lemma StepHurdleMoves(config: Config, m: State, i: Input, e: ActionExecution)
    requires m.active.HurdleMission? && Shape(ProfileOf(m), m.results)
    ensures var d := StepHurdleMission(config, m, i, e);
            && KeepsRest(m, d.state)
            && DispatchMoves(ProfileOf(m), e, LineOutOf(config, m, i), ProfileOf(d.state), d.state.results, d.lineRequest)
  {
    HurdleProperties.ComputeMoves(config.hurdle, m.hurdle, HurdleInput(i, e));
    hide ComputeLine, Hurdle.Compute;
  }

  lemma StepGoalMoves(config: Config, m: State, i: Input, e: ActionExecution)
    requires m.active.GoalMission? && Shape(ProfileOf(m), m.results)
    ensures var d := StepGoalMission(config, m, i, e);
            && KeepsRest(m, d.state)
            && DispatchMoves(ProfileOf(m), e, LineOutOf(config, m, i), ProfileOf(d.state), d.state.results, d.lineRequest)
  {
    var reference := m.goal.mode.HeadingRecovery? && LineOutOf(config, m, i).referenceValid;
    GoalProperties.ComputeMoves(config.goal, m.goal, GoalInput(i, e, reference));
    hide ComputeLine, Goal.Compute;
  }

  /** Every mission step is one of the possible moves. */
  lemma DispatchIsMove(config: Config, m: State, i: Input, e: ActionExecution)
    requires Shape(ProfileOf(m), m.results)
    ensures var d := Dispatch(config, m, i, e);
            && KeepsRest(m, d.state)
            && DispatchMoves(ProfileOf(m), e, LineOutOf(config, m, i), ProfileOf(d.state), d.state.results, d.lineRequest)
  {
    assert !m.active.NoMission?;
    hide StepLineMission, StepBallMission, StepHurdleMission, StepGoalMission, DispatchMoves, LineOutOf, ComputeLine, ProfileOf;
    match m.active {
      case LineMission => StepLineMoves(config, m, i, e);
      case BallMission => StepBallMoves(config, m, i, e);
      case HurdleMission => StepHurdleMoves(config, m, i, e);
      case GoalMission => StepGoalMoves(config, m, i, e);
      case NoMission =>
    }
  }

  /** Any possible move keeps the shape. */
  lemma MoveKeepsShape(p: Profile, r: Results, e: ActionExecution, out: LineOut, p': Profile, r': Results, lineRequest: ActionRequest)
    requires Shape(p, r) && DispatchMoves(p, e, out, p', r', lineRequest)
    ensures Shape(p', r')
  {
  }
}
