/** The supervisor as an object: one step at a time, over the controllers, the
    accumulator and the coordinator it owns. Every method is tied to the value-level
    specification in Mission. */
module MissionController {
  import opened Types
  import opened SlidingWindow
  import opened CommandCoordinator
  import opened LineP2p
  import opened Mission
  import Line = LineRecovery
  import Features = LineFeatures
  import Ball = BallController
  import Hurdle = HurdleController
  import Goal = GoalController

  class MissionController {
    const config: Config
    const accumulator: LineGuideAccumulator
    const ball: Ball.BallController
    const hurdle: Hurdle.HurdleController
    const goal: Goal.GoalController
    const coordinator: ControlCommandCoordinator
    var activeMission: MissionType
    var hasBall: bool
    var lineState: Line.State
    var readyLineActionId: ActionId
    var lineFailurePendingDone: bool
    var gate: Gate
    var previousCamera: CameraFeedback
    var results: Results
    var lastCommand: ControlCommand

    /** The parts were built from the parts of one configuration. */
    ghost predicate Valid() {
      && ball.config == config.ball && hurdle.config == config.hurdle && goal.config == config.goal
      && coordinator.config == config.command
    }

    function LineView(): LineSide
      reads this, accumulator
    {
      LineSide(lineState, accumulator.View(), readyLineActionId, lineFailurePendingDone)
    }

    function View(): State
      reads this, accumulator, ball, hurdle, goal, coordinator
    {
      State(activeMission, hasBall, LineView(), gate, previousCamera, ball.View(), hurdle.View(), goal.View(), results,
            coordinator.View(), lastCommand)
    }

    constructor (config: Config)
      ensures this.config == config && Valid() && View() == Mission.Initial(config)
      ensures fresh(accumulator) && fresh(ball) && fresh(hurdle) && fresh(goal) && fresh(coordinator)
    {
      this.config := config;
      var accumulator := new LineGuideAccumulator();
      var ball := new Ball.BallController(config.ball);
      var hurdle := new Hurdle.HurdleController(config.hurdle);
      var goal := new Goal.GoalController(config.goal);
      var coordinator := new ControlCommandCoordinator(config.command);
      this.accumulator, this.ball, this.hurdle, this.goal, this.coordinator := accumulator, ball, hurdle, goal, coordinator;
      activeMission, hasBall := LineMission, config.initialHasBall;
      lineState, readyLineActionId, lineFailurePendingDone := Line.INITIAL, 0, false;
      gate, previousCamera := NO_GATE, CameraFeedback(ForwardView, true);
      results, lastCommand := NO_RESULTS, IDLE_COMMAND;
      new;
      if config.initialHasBall { goal.StartCarrying(); }
    }

    // ----- LINE -----

    method BeginObservation(mode: Line.Mode, nowSec: real)
      modifies `lineState
      ensures lineState == Line.BeginObservation(old(lineState), mode, nowSec)
    {
      lineState := lineState.(mode := mode, observation := Line.NO_OBSERVATION.(active := true, startSec := nowSec));
    }

    method AddObservation(guide: LineGuide)
      modifies `lineState
      ensures lineState == Line.AddObservation(old(lineState), guide)
    {
      var o := lineState.observation;
      if !o.active || !guide.valid { return; }
      o := o.(offsetSum := o.offsetSum + guide.offset, headingSum := o.headingSum + guide.headingRad,
              confidenceSum := o.confidenceSum + guide.confidence, validCount := o.validCount + 1);
      if guide.curvatureValid {
        o := o.(curvatureSum := o.curvatureSum + guide.curvatureRad, curvatureCount := o.curvatureCount + 1);
      }
      lineState := lineState.(observation := o);
    }

    method FinishObservation() returns (guide: Option<LineGuide>)
      ensures guide == Line.FinishObservation(config.line, lineState.observation)
    {
      var o := lineState.observation;
      if o.validCount < Max(1, config.line.failureMinValidSamples) { return None; }
      var count := o.validCount as real;
      var mean := INVALID_GUIDE.(offset := o.offsetSum / count, headingRad := o.headingSum / count,
                                 confidence := o.confidenceSum / count, valid := true);
      if o.curvatureCount > 0 {
        mean := mean.(curvatureRad := o.curvatureSum / o.curvatureCount as real, curvatureValid := true);
      }
      guide := Some(mean);
    }

    method RememberDirection(guide: LineGuide)
      modifies `lineState
      ensures lineState == Line.Decide(config.line, old(lineState), guide)
    {
      match Steer(config.line.steering, guide).direction {
        case CruiseLeft => lineState := lineState.(evidence := Line.LeftEvidence);
        case CruiseRight => lineState := lineState.(evidence := Line.RightEvidence);
        case CruiseStraight => lineState := lineState.(evidence := Line.NoEvidence);
        case NoDirection =>
      }
    }

    method RecordStability(guide: LineGuide) returns (referenceValid: bool)
      modifies `lineState
      ensures lineState == Line.RecordStability(config.line, old(lineState), guide)
      ensures referenceValid == Line.ReferenceValid(config.line, lineState)
    {
      var history := PushBounded(lineState.stability, lineState.mode.Normal? && guide.valid, config.line.stableWindow);
      lineState := lineState.(stability := history);
      var hits := CountHits(history);
      referenceValid := lineState.mode.Normal? && hits >= Max(1, config.line.stableMinHits);
    }

    method StepRecoveryTurn(guide: LineGuide, nowSec: real, active: bool, done: bool) returns (request: ActionRequest)
      modifies `lineState
      ensures (lineState, request) == Line.TurnStep(config.line, old(lineState), guide, nowSec, active, done)
    {
      request := NO_REQUEST;
      if done {
        lineState := lineState.(turnIssued := false);
        BeginObservation(Line.RecoveryObserve, nowSec);
        AddObservation(guide);
        return;
      }
      if active || lineState.turnIssued { return; }
      lineState := lineState.(turnIssued := true, turns := lineState.turns + 1);
      request := Line.TurnRequest(config.line, lineState.evidence.LeftEvidence?);
    }

    method Escalate(nowSec: real)
      modifies `lineState
      ensures lineState == Line.Escalate(config.line, old(lineState), nowSec)
    {
      if lineState.evidence.NoEvidence? {
        if lineState.retries < Max(0, config.line.noEvidenceMaxRetries) {
          lineState := lineState.(retries := lineState.retries + 1);
          BeginObservation(Line.FailureObserve, nowSec);
        } else {
          lineState := lineState.(mode := Line.FinalHold);
        }
      } else if lineState.turns < Max(0, config.line.recoveryMaxTurns) {
        lineState := lineState.(mode := Line.RecoveryTurn, turnIssued := false);
      } else {
        lineState := lineState.(mode := Line.FinalHold);
      }
    }

    method StepObservation(guide: LineGuide, nowSec: real, active: bool) returns (request: ActionRequest)
      modifies `lineState
      ensures (lineState, request) == Line.ObserveStep(config.line, old(lineState), guide, nowSec, active)
    {
      hide Line.FinishObservation, Line.Accumulate, Line.Escalate, Line.CruiseRequest, Steer;
      request := NO_REQUEST;
      if active { return; }
      AddObservation(guide);
      var wait := MaxReal(0.0, if lineState.mode.RecoveryObserve? then config.line.recoveryObservationSec
                               else config.line.failureObservationSec);
      if nowSec + EPSILON < lineState.observation.startSec + wait { return; }
      var observed := FinishObservation();
      lineState := lineState.(observation := lineState.observation.(active := false));
      if observed.Some? {
        lineState := lineState.(mode := Line.Normal, retries := 0, turns := 0);
        RememberDirection(observed.value);
        request := Line.CruiseRequest(config.line, observed.value);
      } else {
        Escalate(nowSec);
      }
    }

    method StepNormal(guide: LineGuide, nowSec: real, active: bool) returns (request: ActionRequest)
      modifies `lineState
      ensures (lineState, request) == Line.NormalStep(config.line, old(lineState), guide, nowSec, active)
    {
      request := NO_REQUEST;
      if active { return; }
      if !guide.valid {
        BeginObservation(Line.FailureObserve, nowSec);
        AddObservation(guide);
        return;
      }
      RememberDirection(guide);
      request := Line.CruiseRequest(config.line, guide);
    }

    method ComputeLineAction(guide: LineGuide, nowSec: real, active: bool, done: bool)
      returns (request: ActionRequest, referenceValid: bool)
      modifies `lineState
      ensures Line.Outcome(lineState, request, referenceValid)
           == Line.Compute(config.line, old(lineState), guide, nowSec, active, done)
      decreases if lineState.mode.RecoveryTurn? then 0 else 1
    {
      hide Line.TurnStep, Line.ObserveStep, Line.NormalStep, Push, Count;
      if !lineState.observation.active && Line.Observing(lineState.mode) {
        BeginObservation(lineState.mode, nowSec);
      }
      referenceValid := RecordStability(guide);
      request := NO_REQUEST;
      match lineState.mode {
        case FinalHold =>
        case RecoveryTurn => request := StepRecoveryTurn(guide, nowSec, active, done);
        case Normal => request := StepNormal(guide, nowSec, active);
        case _ =>
          request := StepObservation(guide, nowSec, active);
          if lineState.mode.RecoveryTurn? {
            request, referenceValid := ComputeLineAction(guide, nowSec, false, false);
          }
      }
    }

    method BeginLineReacquisition()
      modifies `lineState, `lineFailurePendingDone
      ensures LineView() == Mission.BeginLineReacquisition(old(LineView()))
    {
      lineState := lineState.(evidence := Line.NoEvidence, retries := 0, turns := 0, turnIssued := false,
                              observation := lineState.observation.(active := false), mode := Line.FailureObserve, stability := []);
      lineFailurePendingDone := false;
    }

    /** READY or DONE of a long walk. */
    method JudgeWalk(id: ActionId, decision: LineGuide, nowSec: real, ready: bool, done: bool)
      returns (request: ActionRequest, referenceValid: bool)
      modifies `lineState, `readyLineActionId, `lineFailurePendingDone, accumulator
      ensures LineOut(LineView(), referenceValid, request)
           == Mission.JudgeWalk(config, old(LineView()), id, decision, nowSec, ready, done)
    {
      hide Line.Compute, FinishGuide, FinishState;
      request, referenceValid := NO_REQUEST, false;
      var aggregate := accumulator.Finish(id, nowSec, if ready && !done then config.line.readyLeadSec else 0.0);
      var guide := decision;
      if aggregate.Some? {
        guide := aggregate.value;
        lineFailurePendingDone := false;
      } else {
        guide := guide.(valid := false);
        lineFailurePendingDone := ready && !done;
      }
      if ready { readyLineActionId := id; }
      if lineFailurePendingDone { return; }
      request, referenceValid := ComputeLineAction(guide, nowSec, false, done);
    }

    method ContinueLine(f: LineFlight, guide: LineGuide, decision: LineGuide, nowSec: real)
      returns (request: ActionRequest, referenceValid: bool)
      modifies `lineState, `lineFailurePendingDone
      ensures LineOut(LineView(), referenceValid, request) == Mission.ContinueLine(config, old(LineView()), f, guide, decision, nowSec)
    {
      hide Line.Compute, Line.Accumulate;
      request, referenceValid := NO_REQUEST, false;
      if f.done && lineFailurePendingDone {
        lineFailurePendingDone := false;
        BeginObservation(Line.FailureObserve, nowSec);
        AddObservation(guide);
        return;
      }
      request, referenceValid := ComputeLineAction(decision, nowSec, f.active, f.done);
    }

    method WatchWalk(id: ActionId, nowSec: real, guide: LineGuide)
      modifies accumulator
      ensures accumulator.View() == Watch(old(LineView()), id, nowSec, guide)
    {
      if !accumulator.IsActiveFor(id) && readyLineActionId != id { accumulator.Begin(id, nowSec); }
      accumulator.Add(id, nowSec, guide);
    }

    method ComputeLine(i: Input) returns (request: ActionRequest, referenceValid: bool)
      modifies `lineState, `readyLineActionId, `lineFailurePendingDone, accumulator
      ensures LineOut(LineView(), referenceValid, request) == Mission.ComputeLine(config, old(LineView()), lastCommand, i)
    {
      hide Features.FeaturesOf, Mission.JudgeWalk, Mission.ContinueLine, Watch, Cleared;
      request, referenceValid := NO_REQUEST, false;
      var features := Features.ComputeLineFeatures(i.lineCenters, i.width, i.height, LineConfigFor(config, i));
      if !i.advanceLineFsm { return; }
      var id, f := lastCommand.actionId, FlightOf(lastCommand, i.feedback);
      var decision := if i.guideOverride.Some? then i.guideOverride.value else features.guide;
      if f.walking {
        WatchWalk(id, i.nowSec, features.guide);
        if f.feedback && (i.feedback.ready || f.done) && readyLineActionId != id {
          request, referenceValid := JudgeWalk(id, decision, i.nowSec, i.feedback.ready, f.done);
          return;
        }
      } else if !f.pending {
        accumulator.Reset();
      }
      request, referenceValid := ContinueLine(f, features.guide, decision, i.nowSec);
    }

    // ----- The post-motion gate -----

    /** Nothing seen so far counts any more. */
    method ClearHistories()
      modifies `lineState, ball, hurdle, goal
      ensures var m := old(View());
              View() == m.(ball := Ball.ClearHistory(m.ball), hurdle := Hurdle.ClearHistory(m.hurdle), goal := Goal.ClearTracking(m.goal),
                           line := m.line.(fsm := m.line.fsm.(stability := [])))
    {
      hide Ball.ClearTracking, Hurdle.ClearTracking, Goal.ClearTracking;
      ball.ClearObservationHistory();
      hurdle.ClearObservationHistory();
      goal.ClearObservationHistory();
      lineState := lineState.(stability := []);
    }

    method BeginDecisionObservation(nowSec: real, cameraOnly: bool, done: DeliveryFeedback)
      requires Valid()
      modifies `gate, `lineState, ball, hurdle, goal
      ensures View() == BeginGate(old(View()), nowSec, cameraOnly, done)
    {
      hide Ball.ClearHistory, Hurdle.ClearHistory, Goal.ClearTracking;
      gate := Gate(true, cameraOnly, true, activeMission, nowSec, done, [], 0, 0, 0.0, 0.0, 0.0);
      if !cameraOnly { ClearHistories(); }
    }

    method OpenDecisionGate(i: Input)
      requires Valid()
      modifies this, ball, hurdle, goal
      ensures View() == OpenGate(config, old(View()), i)
    {
      hide BeginGate, ShouldDeferDone;
      var settles := CameraSettles(previousCamera, i.camera);
      previousCamera := i.camera;
      if !gate.active && config.postMotionObservationSec > 0.0 && settles {
        BeginDecisionObservation(i.nowSec, true, NO_FEEDBACK);
      }
      if !gate.active && ShouldDeferDone(config, View(), i.feedback) {
        BeginDecisionObservation(i.nowSec, false, i.feedback);
      }
    }

    method AddDecisionObservation(i: Input)
      requires gate.active
      modifies `gate
      ensures gate == AddToGate(config, old(gate), i)
    {
      hide Features.FeaturesOf, Push;
      gate := gate.(frames := gate.frames + 1);
      var detected := false;
      match gate.mission {
        case BallMission => detected := i.ball.Some?;
        case HurdleMission => detected := i.hurdle.Some?;
        case GoalMission => detected := i.backboard.Some?;
        case _ =>
      }
      if !gate.mission.LineMission? {
        var hits := PushBounded(gate.hits, detected, GATE_WINDOW);
        gate := gate.(hits := hits);
        return;
      }
      var guide: LineGuide;
      if i.guideOverride.Some? {
        guide := i.guideOverride.value;
      } else {
        var features := Features.ComputeLineFeatures(i.lineCenters, i.width, i.height, config.features);
        guide := features.guide;
      }
      if guide.valid {
        gate := gate.(lineValid := gate.lineValid + 1, offsetSum := gate.offsetSum + guide.offset,
                      headingSum := gate.headingSum + guide.headingRad, confidenceSum := gate.confidenceSum + guide.confidence);
      }
    }

    method DecisionObservationReady(nowSec: real) returns (ready: bool)
      ensures ready == GateReady(config, gate, nowSec)
    {
      if !gate.active || nowSec - gate.startSec + EPSILON < config.postMotionObservationSec { return false; }
      if gate.mission.LineMission? { return true; }
      if gate.cameraOnly && gate.mission.HurdleMission? { return true; }
      var hits := CountHits(gate.hits);
      ready := |gate.hits| >= GATE_WINDOW && hits >= GATE_HITS;
    }

    /** The frame as the gate lets it through, and whether it holds the mission. */
    method PassDecisionGate(source: Input) returns (i: Input, hold: bool)
      modifies `gate
      ensures Admitted(View(), i, hold) == PassGate(config, old(View()), source)
    {
      hide AddToGate, GateReady, GateGuide;
      i, hold := source, gate.active;
      if !hold { return; }
      if !gate.firstFrame || !gate.cameraOnly { AddDecisionObservation(i); }
      var ready := DecisionObservationReady(i.nowSec);
      if ready {
        if !gate.cameraOnly { i := i.(feedback := gate.deferred); }
        if gate.mission.LineMission? { i := i.(guideOverride := Some(GateGuide(config, gate))); }
        gate := gate.(active := false);
        hold := false;
      } else if !gate.cameraOnly && gate.deferred.actionId != 0 {
        i := i.(feedback := DeliveryFeedback(gate.deferred.actionId, true, false, false));
      } else {
        i := i.(feedback := NO_FEEDBACK);
      }
    }

    // ----- Missions -----

    /** The controllers that an entered mission switches off. */
    method ResetOthers(mission: MissionType)
      requires Valid()
      modifies hurdle, goal
      ensures hurdle.View() == if mission.BallMission? || mission.GoalMission? then Hurdle.ResetState(old(hurdle.View()))
                               else old(hurdle.View())
      ensures goal.View() == if mission.BallMission? || mission.HurdleMission? then Goal.ResetState(config.goal, old(goal.View()))
                             else old(goal.View())
    {
      hide Hurdle.ResetState, Goal.ResetState;
      if mission.BallMission? || mission.GoalMission? { hurdle.Reset(); }
      if mission.BallMission? || mission.HurdleMission? { goal.Reset(); }
    }

    /** The walk in flight no longer concerns LINE. */
    method ForgetWalk()
      modifies `readyLineActionId, `lineFailurePendingDone, accumulator
      ensures LineView() == old(LineView()).(accumulator := Cleared(old(accumulator.View())), readyId := 0, failurePending := false)
    {
      accumulator.Reset();
      readyLineActionId, lineFailurePendingDone := 0, false;
    }

    method Enter(mission: MissionType)
      requires Valid()
      modifies this, accumulator, hurdle, goal
      ensures View() == EnterMission(config, old(View()), mission)
    {
      hide Hurdle.ResetState, Goal.ResetState, Cleared;
      activeMission := mission;
      ForgetWalk();
      ResetOthers(mission);
      match mission {
        case BallMission => results := results.(hurdle := Hurdle.IDLE_RESULT, goal := Goal.IDLE_RESULT);
        case HurdleMission =>
          results := results.(ball := Ball.IDLE_RESULT, goal := Goal.IDLE_RESULT);
          hasBall := false;
        case GoalMission => results := results.(hurdle := Hurdle.IDLE_RESULT);
        case _ =>
      }
    }

    method Finish()
      modifies `activeMission, `results
      ensures View() == FinishMission(old(View()))
    {
      activeMission, results := LineMission, NO_RESULTS;
    }

    method TryEnterGoal(i: Input, e: ActionExecution, lineReference: bool)
      requires Valid()
      modifies this, accumulator, hurdle, goal
      ensures View() == TryGoal(config, old(View()), i, e, lineReference)
    {
      hide Goal.Compute, EnterMission, Goal.UpdateBallState;
      if !config.enableGoal { return; }
      goal.TakeBallState(true, true);
      var result := goal.Process(GoalInput(i, e, lineReference));
      results := results.(goal := result);
      if !result.mode.LineFollow? { Enter(GoalMission); }
    }

    method TryEnterHurdle(i: Input, e: ActionExecution)
      requires Valid()
      modifies this, accumulator, hurdle, goal
      ensures View() == TryHurdle(config, old(View()), i, e)
    {
      hide Hurdle.Compute, EnterMission;
      if !config.enableHurdle { return; }
      var result := hurdle.Process(HurdleInput(i, e));
      results := results.(hurdle := result);
      if !result.mode.LineFollow? { Enter(HurdleMission); }
    }

    method TryEnterBall(i: Input, e: ActionExecution)
      requires Valid()
      modifies this, accumulator, ball, hurdle, goal
      ensures View() == TryBall(config, old(View()), i, e)
    {
      hide Ball.Compute, EnterMission;
      if !config.enableBall { return; }
      var result := ball.Process(BallInput(i, e));
      results := results.(ball := result);
      if !result.mode.LineFollow? { Enter(BallMission); }
    }

    method StepLine(i: Input, e: ActionExecution) returns (request: ActionRequest)
      requires Valid()
      modifies this, accumulator, ball, hurdle, goal
      ensures Dispatched(View(), request) == StepLineMission(config, old(View()), i, e)
    {
      hide Mission.ComputeLine, TryGoal, TryHurdle, TryBall;
      var lineReference: bool;
      request, lineReference := ComputeLine(i);
      results := NO_RESULTS;
      if lineState.mode.FinalHold? { return; }
      if hasBall {
        TryEnterGoal(i, e, lineReference);
      } else {
        TryEnterHurdle(i, e);
        if !activeMission.HurdleMission? { TryEnterBall(i, e); }
      }
    }

    /** The line is back after a pickup: GOAL learns who carries the ball. */
    method FinishBall(held: bool, nowSec: real)
      requires Valid()
      modifies `activeMission, `results, ball, goal
      ensures var m := old(View());
              View() == FinishMission(m.(
                ball := Ball.CompleteLineRecovery(config.ball, m.ball, nowSec),
                goal := if m.hasBall && config.enableGoal
                        then m.goal.(ball := Goal.UpdateBallState(m.goal.ball, m.goal.mode, held, false)) else m.goal))
    {
      hide Ball.CompleteLineRecovery, Goal.UpdateBallState;
      ball.FinishLineRecovery(nowSec);
      if hasBall && config.enableGoal { goal.TakeBallState(held, false); }
      Finish();
    }

    method RunBall(i: Input, e: ActionExecution) returns (result: Ball.Result)
      requires Valid()
      modifies `results, `hasBall, ball
      ensures var m, out := old(View()), Ball.Compute(config.ball, old(ball.View()), BallInput(i, e));
              && result == out.result
              && View() == m.(ball := out.state, results := m.results.(ball := out.result), hasBall := out.result.hasBall)
    {
      hide Ball.Compute;
      result := ball.Process(BallInput(i, e));
      results := results.(ball := result);
      hasBall := result.hasBall;
    }

    method StepBall(i: Input, e: ActionExecution) returns (request: ActionRequest)
      requires Valid()
      modifies this, accumulator, ball, goal
      ensures Dispatched(View(), request) == StepBallMission(config, old(View()), i, e)
    {
      hide Mission.ComputeLine, Mission.BeginLineReacquisition, Ball.Compute, Ball.CompleteLineRecovery, Goal.UpdateBallState;
      var before := results.ball.mode;
      var lineReference := false;
      request := NO_REQUEST;
      if before.LineRecovery? { request, lineReference := ComputeLine(i); }
      var result := RunBall(i, e);
      if !before.LineRecovery? && result.mode.LineRecovery? { BeginLineReacquisition(); }
      if result.mode.LineRecovery? && lineReference {
        FinishBall(result.hasBall, i.nowSec);
      } else if result.mode.LineFollow? && !result.active {
        BeginLineReacquisition();
        Finish();
      }
    }

    method StepHurdle(i: Input, e: ActionExecution) returns (request: ActionRequest)
      requires Valid()
      modifies this, ball, hurdle
      ensures Dispatched(View(), request) == StepHurdleMission(config, old(View()), i, e)
    {
      hide Hurdle.Compute, Ball.ClearEntryEvidence, Mission.BeginLineReacquisition;
      request := NO_REQUEST;
      var result := hurdle.Process(HurdleInput(i, e));
      results := results.(hurdle := result);
      if result.mode.LineFollow? && !result.active {
        ball.ClearEntry();
        BeginLineReacquisition();
        Finish();
      }
    }

    /** GOAL takes its step and decides who holds the ball. */
    method RunGoal(i: Input, e: ActionExecution, lineReference: bool) returns (result: Goal.Result)
      requires Valid()
      modifies `results, `hasBall, ball, goal
      ensures var m, out := old(View()), Goal.Compute(config.goal, old(goal.View()), GoalInput(i, e, lineReference));
              && result == out.result
              && View() == m.(goal := out.state, results := m.results.(goal := out.result), hasBall := out.state.ball.hasBall,
                              ball := m.ball.(hasBall := out.state.ball.hasBall))
    {
      hide Goal.Compute;
      result := goal.Process(GoalInput(i, e, lineReference));
      results := results.(goal := result);
      hasBall := goal.ball.hasBall;
      ball.SetHasBall(hasBall);
    }

    method StepGoal(i: Input, e: ActionExecution) returns (request: ActionRequest)
      requires Valid()
      modifies this, accumulator, ball, goal
      ensures Dispatched(View(), request) == StepGoalMission(config, old(View()), i, e)
    {
      hide Mission.ComputeLine, Mission.BeginLineReacquisition, Goal.Compute;
      var before := results.goal.mode;
      var lineReference := false;
      request := NO_REQUEST;
      if before.HeadingRecovery? { request, lineReference := ComputeLine(i); }
      var result := RunGoal(i, e, lineReference);
      if !before.HeadingRecovery? && result.mode.HeadingRecovery? { BeginLineReacquisition(); }
      if result.mode.LineFollow? && !result.active { Finish(); }
    }

    method StepActive(i: Input, e: ActionExecution) returns (lineRequest: ActionRequest)
      requires Valid()
      modifies this, accumulator, ball, hurdle, goal
      ensures Dispatched(View(), lineRequest) == Dispatch(config, old(View()), i, e)
    {
      hide StepLineMission, StepBallMission, StepHurdleMission, StepGoalMission, Mission.ComputeLine;
      match activeMission {
        case LineMission => lineRequest := StepLine(i, e);
        case BallMission => lineRequest := StepBall(i, e);
        case HurdleMission => lineRequest := StepHurdle(i, e);
        case GoalMission => lineRequest := StepGoal(i, e);
        case NoMission =>
          activeMission := LineMission;
          var lineReference: bool;
          lineRequest, lineReference := ComputeLine(i);
      }
    }

    // ----- One frame -----

    method Issue(i: Input, request: ActionRequest, camera: CameraRequest) returns (command: ControlCommand)
      requires Valid()
      modifies `lastCommand, coordinator
      ensures Step(View(), command) == Conclude(config, old(View()), i, request, camera)
    {
      hide CommandCoordinator.Compute;
      command := coordinator.Step(activeMission, request, camera, i.feedback, i.nowSec);
      lastCommand := command;
    }

    method ObserveFrame(i: Input)
      requires Valid()
      modifies ball, hurdle, goal
      ensures View() == ObserveActive(config, old(View()), i)
    {
      hide Ball.ObserveOnly, Hurdle.ObserveOnly, Goal.ObserveOnly;
      match activeMission {
        case BallMission => ball.Observe(i.ball, i.width, i.height);
        case HurdleMission => hurdle.Observe(i.hurdle, i.width, i.height);
        case GoalMission => goal.Observe(i.backboard, i.goalPose, i.width, i.height);
        case _ =>
      }
    }

    method StepMission(i: Input, hold: bool) returns (command: ControlCommand)
      requires Valid()
      modifies this, accumulator, ball, hurdle, goal, coordinator
      ensures Step(View(), command) == MissionFrame(config, old(View()), i, hold)
    {
      hide Dispatch, Conclude, RequestOf, CameraOf;
      gate := gate.(firstFrame := false);
      var lineRequest := StepActive(i, ExecutionOf(lastCommand, i.feedback));
      var d := Dispatched(View(), lineRequest);
      var request, camera := RequestOf(activeMission, d.state.results, lineRequest), CameraOf(activeMission, d.state.results);
      if activeMission.LineMission? && !i.allowNewLineAction { request := NO_REQUEST; }
      if hold { request, camera := NO_REQUEST, NoCamera; }
      command := Issue(i, request, camera);
      if i.advanceLineFsm && i.feedback.done && i.feedback.actionId == readyLineActionId {
        readyLineActionId := 0;
      }
    }

    /** One call of the supervisor. */
    method Process(source: Input) returns (command: ControlCommand)
      requires Valid()
      modifies this, accumulator, ball, hurdle, goal, coordinator
      ensures Step(View(), command) == Mission.Compute(config, old(View()), source)
    {
      hide OpenGate, PassGate, ObserveActive, Conclude, MissionFrame;
      OpenDecisionGate(source);
      var i, hold := PassDecisionGate(source);
      if hold && !(gate.cameraOnly && gate.firstFrame) {
        ObserveFrame(i);
        command := Issue(i, NO_REQUEST, NoCamera);
      } else {
        command := StepMission(i, hold);
      }
    }
  }
}
