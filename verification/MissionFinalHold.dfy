/** The final hold: what every frame keeps there, and exactly when it can be left. */
module MissionFinalHold {
  import opened Types
  import opened SlidingWindow
  import opened CommandCoordinator
  import opened CoordinatorRuns
  import opened Mission
  import opened MissionMoves
  import opened MissionSync
  import opened MissionInvariant
  import opened MissionRuns
  import opened MissionFrozen
  import LineP2p
  import Line = LineRecovery
  import LineRecoveryRuns
  import Ball = BallController
  import Hurdle = HurdleController
  import Goal = GoalController

  // ----- The LINE machine -----

  /** The way out: DONE of the walk whose READY is still marked as failed, in a frame
      that advances LINE and does not judge that walk. */
  predicate LeavesIn(line: LineSide, last: ControlCommand, i: Input) {
    var f := FlightOf(last, i.feedback);
    i.advanceLineFsm && f.done && line.failurePending && !(f.walking && line.readyId != last.actionId)
  }

  lemma JudgeInHold(config: Config, line: LineSide, id: ActionId, decision: LineGuide, nowSec: real, ready: bool, done: bool)
    requires line.fsm.mode.FinalHold?
    ensures var out := JudgeWalk(config, line, id, decision, nowSec, ready, done);
            out.line.fsm.mode.FinalHold? && !out.referenceValid && out.request == NO_REQUEST
  {
    hide Line.Compute, LineP2p.FinishGuide, LineP2p.FinishState;
    var aggregate := LineP2p.FinishGuide(line.accumulator, id, nowSec, if ready && !done then config.line.readyLeadSec else 0.0);
    var guide := if aggregate.Some? then aggregate.value else decision.(valid := false);
    LineRecoveryRuns.FinalHoldStays(config.line, line.fsm, guide, nowSec, false, done);
  }

  lemma ContinueInHold(config: Config, line: LineSide, f: LineFlight, guide: LineGuide, decision: LineGuide, nowSec: real)
    requires line.fsm.mode.FinalHold?
    ensures var out := ContinueLine(config, line, f, guide, decision, nowSec);
            && (out.line.fsm.mode.FinalHold? <==> !(f.done && line.failurePending)) && !out.referenceValid && out.request == NO_REQUEST
  {
    hide Line.Compute, Line.Accumulate;
    LineRecoveryRuns.FinalHoldStays(config.line, line.fsm, decision, nowSec, f.active, f.done);
  }

  /** One frame of LINE in the final hold. */
  lemma LineInHold(config: Config, line: LineSide, last: ControlCommand, i: Input)
    requires line.fsm.mode.FinalHold?
    ensures var out := ComputeLine(config, line, last, i);
            && (out.line.fsm.mode.FinalHold? <==> !LeavesIn(line, last, i)) && !out.referenceValid && out.request == NO_REQUEST
  {
    hide JudgeWalk, ContinueLine, FlightOf, Watch, GuideSeen, LineP2p.Cleared;
    var f, guide := FlightOf(last, i.feedback), GuideSeen(config, i);
    var decision := if i.guideOverride.Some? then i.guideOverride.value else guide;
    var watched := line.(accumulator := Watch(line, last.actionId, i.nowSec, guide));
    DoneIsFeedback(last, i.feedback);
    JudgeInHold(config, watched, last.actionId, decision, i.nowSec, i.feedback.ready, f.done);
    ContinueInHold(config, watched, f, guide, decision, i.nowSec);
    ContinueInHold(config, line, f, guide, decision, i.nowSec);
    ContinueInHold(config, line.(accumulator := LineP2p.Cleared(line.accumulator)), f, guide, decision, i.nowSec);
  }

  lemma DoneIsFeedback(last: ControlCommand, feedback: DeliveryFeedback)
    ensures var f := FlightOf(last, feedback); (f.done ==> f.feedback && f.pending) && (f.walking ==> f.pending)
  {
  }

  // ----- One frame -----

  predicate InFinalHold(m: State) { m.line.fsm.mode.FinalHold? }

  /** The frame leaves the final hold. */
  predicate LeavesHold(config: Config, m: State, i: Input) {
    var a := AdmittedOf(config, m, i);
    !Holds(a) && LeavesIn(m.line, m.last, a.input)
  }

  /** The frame changes nothing that matters: same hold, same mission, same actions
      and identifiers, no new action named, no camera motion. */
  ghost predicate Inert(m: State, s: Step) {
    && InFinalHold(s.state) && s.state.active == m.active
    && s.state.coordinator == m.coordinator.(suppressed := s.state.coordinator.suppressed)
    && s.command.actionId == m.last.actionId && s.command.camera.NoCamera? && s.command.commandType.HoldCommand?
  }

  lemma HoldMove(p: Profile, r: Results, e: ActionExecution, out: LineOut, p': Profile, r': Results, lineRequest: ActionRequest)
    requires Shape(p, r) && p.fsm.FinalHold? && DispatchMoves(p, e, out, p', r', lineRequest)
    requires !out.referenceValid && out.request == NO_REQUEST
    ensures AsksLine(p) && p'.fsm == out.line.fsm.mode
    ensures out.line.fsm.mode.FinalHold? ==>
              && p'.active == p.active && RequestOf(p'.active, r', lineRequest).action.NoAction? && CameraOf(p'.active, r').NoCamera?
  {
  }

  /** Nothing is in flight in the final hold, unless the coordinator is frozen. */
  lemma HoldIsIdle(m: State)
    requires Inv(m) && InFinalHold(m)
    ensures m.coordinator.timedOut || LoadOf(m.coordinator).Empty?
  {
  }

  /** Frozen, or with nothing in flight and nothing asked for, the coordinator rests. */
  lemma CoordinatorRests(config: CommandConfig, c: CoordinatorState, last: ControlCommand, f: Frame)
    requires WellFormed(c) && Linked(c, last) && (c.timedOut || LoadOf(c).Empty?)
    requires f.request.action.NoAction? && f.camera.NoCamera?
    ensures var out := CoordinatorRuns.Step(config, c, f);
            && out.state == c.(suppressed := out.state.suppressed)
            && out.command.actionId == last.actionId && out.command.camera.NoCamera? && out.command.commandType.HoldCommand?
  {
  }

  lemma HoldMissionFrame(config: Config, m: State, i: Input, hold: bool)
    requires WellFormed(m.coordinator) && Shape(ProfileOf(m), m.results) && Linked(m.coordinator, m.last) && InFinalHold(m)
    requires m.coordinator.timedOut || LoadOf(m.coordinator).Empty?
    ensures var s := MissionFrame(config, m, i, hold);
            && (InFinalHold(s.state) <==> !LeavesIn(m.line, m.last, i))
            && (InFinalHold(s.state) ==> Inert(m, s))
  {
    hide Dispatch, Shape, Linked, WellFormed, ExecutionOf, DispatchMoves, RequestOf, CameraOf, RequestIn, Conclude, LoadOf, LeavesIn,
         ComputeLine, CoordinatorRuns.Step;
    var n := m.(gate := m.gate.(firstFrame := false));
    var e := ExecutionOf(n.last, i.feedback);
    var d := Dispatch(config, n, i, e);
    assert ProfileOf(n) == ProfileOf(m);
    DispatchIsMove(config, n, i, e);
    LineInHold(config, n.line, n.last, i);
    HoldMove(ProfileOf(n), n.results, e, LineOutOf(config, n, i), ProfileOf(d.state), d.state.results, d.lineRequest);
    var request, camera := RequestIn(d, i, hold), if hold then NoCamera else CameraOf(d.state.active, d.state.results);
    ConcludeIs(config, n, d.state, i, request, camera);
    if InFinalHold(d.state) {
      QuietRequest(d, i, hold);
      CoordinatorRests(config.command, n.coordinator, n.last, FrameOf(d.state, i, request, camera));
    }
  }

  lemma QuietRequest(d: Dispatched, i: Input, hold: bool)
    requires RequestOf(d.state.active, d.state.results, d.lineRequest).action.NoAction?
    ensures RequestIn(d, i, hold).action.NoAction?
  {
  }

  lemma HoldObservingFrame(config: Config, m: State, i: Input)
    requires WellFormed(m.coordinator) && Linked(m.coordinator, m.last) && InFinalHold(m)
    requires m.coordinator.timedOut || LoadOf(m.coordinator).Empty?
    ensures Inert(m, HoldFrame(config, m, i))
  {
    hide ObserveActive, Linked, CommandCoordinator.Compute, LoadOf, WellFormed;
    ObserveActiveSame(config, m, i);
    CoordinatorRests(config.command, m.coordinator, m.last, FrameOf(ObserveActive(config, m, i), i, NO_REQUEST, NoCamera));
  }

  /** The gate touches nothing of LINE but the stability history. */
  lemma GateKeepsLine(config: Config, m: State, i: Input)
    ensures var n := AdmittedOf(config, m, i).state; n.line == m.line.(fsm := m.line.fsm.(stability := n.line.fsm.stability))
  {
    hide ShouldDeferDone, AddToGate, GateReady, GateGuide;
  }

  /** One frame in the final hold, with or without an ACK timeout. */
  lemma FinalHoldFrame(config: Config, m: State, i: Input)
    requires Inv(m) && Allowed(m, i) && InFinalHold(m)
    ensures var s := Mission.Compute(config, m, i);
            && (InFinalHold(s.state) <==> !LeavesHold(config, m, i))
            && (InFinalHold(s.state) ==> Inert(m, s))
  {
    hide AdmittedOf, Mission.Compute, Shape, WellFormed, Linked, InSync, HoldFrame, MissionFrame, GateHolds, LoadOf, Legal, FrameGood,
         LeavesIn, ProfileOf;
    FrameIsAdmitted(config, m, i);
    GateKeepsLine(config, m, i);
    HoldIsIdle(m);
    var a := AdmittedOf(config, m, i);
    ProfileShowsActive(m, a.state);
    if Holds(a) {
      HoldingFrame(config, m, i);
      HoldObservingFrame(config, a.state, a.input);
    } else {
      MissionFrameOf(config, m, i);
      HoldMissionFrame(config, a.state, a.input, a.hold);
      SameLeaving(m.line, a.state.line, m.last, a.input);
    }
  }

  lemma ProfileShowsActive(m: State, n: State)
    requires ProfileOf(n) == ProfileOf(m)
    ensures n.active == m.active
  {
  }

  lemma SameLeaving(line: LineSide, line': LineSide, last: ControlCommand, i: Input)
    requires line' == line.(fsm := line'.fsm)
    ensures LeavesIn(line', last, i) == LeavesIn(line, last, i)
  {
  }

  // ----- Which walk a failed READY belongs to -----

  predicate OnLongWalk(last: ControlCommand) {
    last.mission.LineMission? && last.category.LocomotionCategory? && IsLongLineAction(last.action)
  }

  predicate OnLineWalk(last: ControlCommand) { last.mission.LineMission? && last.category.LocomotionCategory? }

  /** A failed READY is pending only while LINE is active; and with a frozen
      coordinator only for a long walk, or under a recovery turn. */
  predicate FailureTied(m: State) {
    m.line.failurePending ==>
      && m.active.LineMission?
      && (m.coordinator.timedOut ==> OnLongWalk(m.last) || (OnLineWalk(m.last) && m.line.fsm.mode.RecoveryTurn?))
  }

  /** Where the mark comes from: a long walk that is being watched, or the frame
      before; and it does not outlive a recovery turn. */
  predicate FailureComes(line: LineSide, last: ControlCommand, feedback: DeliveryFeedback, line': LineSide) {
    var f := FlightOf(last, feedback);
    line'.failurePending ==>
      f.walking || (line.failurePending && (line.fsm.mode.RecoveryTurn? && f.pending ==> line'.fsm.mode.RecoveryTurn?))
  }

  lemma ContinueFailure(config: Config, line: LineSide, f: LineFlight, guide: LineGuide, decision: LineGuide, nowSec: real)
    requires f.active == (f.pending && !f.done)
    ensures var line' := ContinueLine(config, line, f, guide, decision, nowSec).line;
            line'.failurePending ==>
              line.failurePending && (line.fsm.mode.RecoveryTurn? && f.pending ==> line'.fsm.mode.RecoveryTurn?)
  {
    hide Line.Accumulate, Line.Decide, Line.CruiseRequest, Push;
  }

  lemma LineFailure(config: Config, line: LineSide, last: ControlCommand, i: Input)
    ensures FailureComes(line, last, i.feedback, ComputeLine(config, line, last, i).line)
  {
    hide JudgeWalk, ContinueLine, FlightOf, Watch, GuideSeen, LineP2p.Cleared;
    var f, guide := FlightOf(last, i.feedback), GuideSeen(config, i);
    var decision := if i.guideOverride.Some? then i.guideOverride.value else guide;
    ActiveIsPending(last, i.feedback);
    ContinueFailure(config, line, f, guide, decision, i.nowSec);
    ContinueFailure(config, line.(accumulator := LineP2p.Cleared(line.accumulator)), f, guide, decision, i.nowSec);
  }

  lemma ActiveIsPending(last: ControlCommand, feedback: DeliveryFeedback)
    ensures var f := FlightOf(last, feedback); f.active == (f.pending && !f.done)
  {
  }

  /** What a mission step does to the mark. */
  ghost predicate FailureMoves(m: State, out: LineOut, m': State) {
    && (m'.line.failurePending ==> if AsksLine(ProfileOf(m)) then out.line.failurePending else m.line.failurePending)
    && (m.active.LineMission? && m'.active.LineMission? ==> m'.line == out.line)
    && (m.active.LineMission? && !m'.active.LineMission? ==> !m'.line.failurePending)
  }

  lemma LineStepFailure(config: Config, m: State, i: Input, e: ActionExecution)
    requires m.active.LineMission?
    ensures FailureMoves(m, LineOutOf(config, m, i), Dispatch(config, m, i, e).state)
  {
    hide ComputeLine, Ball.Compute, Hurdle.Compute, Goal.Compute, Goal.UpdateBallState;
  }

  lemma ObjectStepFailure(config: Config, m: State, i: Input, e: ActionExecution)
    requires !m.active.LineMission? && Shape(ProfileOf(m), m.results)
    ensures FailureMoves(m, LineOutOf(config, m, i), Dispatch(config, m, i, e).state)
  {
    hide ComputeLine, Ball.Compute, Hurdle.Compute, Goal.Compute, Goal.UpdateBallState, Line.Reacquire, Ball.CompleteLineRecovery;
  }

  /** During the LINE recovery of an object mission no LINE walk is in flight, or
      named by a frozen coordinator. */
  lemma NoWalkInRecovery(m: State, feedback: DeliveryFeedback, doneSince: bool)
    requires Inv(m) && Settled(m, doneSince) && AsksLine(ProfileOf(m)) && !m.active.LineMission?
    ensures !FlightOf(m.last, feedback).pending
  {
  }

  lemma MissionFrameKeepsTie(config: Config, m: State, i: Input, hold: bool)
    requires WellFormed(m.coordinator) && Shape(ProfileOf(m), m.results) && Linked(m.coordinator, m.last)
    requires AsksLine(ProfileOf(m)) && !m.active.LineMission? ==> !FlightOf(m.last, i.feedback).pending
    requires FailureTied(m)
    ensures var s' := MissionFrame(config, m, i, hold).state;
            s'.line.failurePending ==>
              && m.active.LineMission? && s'.active.LineMission?
              && FailureComes(m.line, m.last, i.feedback, s'.line)
  {
    hide Dispatch, Shape, Linked, WellFormed, ExecutionOf, DispatchMoves, RequestOf, CameraOf, RequestIn, Conclude, FlightOf, ComputeLine,
         CoordinatorRuns.Step, AsksLine, ProfileOf, FailureComes;
    var n := m.(gate := m.gate.(firstFrame := false));
    ProfileIgnoresGate(m, n);
    var e := ExecutionOf(n.last, i.feedback);
    var d := Dispatch(config, n, i, e);
    LineFailure(config, n.line, n.last, i);
    DispatchIsMove(config, n, i, e);
    if m.active.LineMission? { LineStepFailure(config, n, i, e); } else { ObjectStepFailure(config, n, i, e); }
    ConcludeIs(config, n, d.state, i, RequestIn(d, i, hold), if hold then NoCamera else CameraOf(d.state.active, d.state.results));
    WalkingIsPending(n.line, n.last, i.feedback, LineOutOf(config, n, i).line);
    ComesForReady(m.line, m.last, i, d.state.line);
  }

  lemma WalkingIsPending(line: LineSide, last: ControlCommand, feedback: DeliveryFeedback, line': LineSide)
    requires FailureComes(line, last, feedback, line')
    ensures line'.failurePending ==> FlightOf(last, feedback).pending || line.failurePending
  {
  }

  lemma ComesForReady(line: LineSide, last: ControlCommand, i: Input, line': LineSide)
    ensures FailureComes(line, last, i.feedback, line') == FailureComes(line, last, i.feedback, ForgetReady(line', i))
  {
    hide FlightOf;
  }

  /** A frozen coordinator names the walk whose READY has failed. */
  lemma TieAtTimeout(m: State)
    requires WellFormed(m.coordinator) && Linked(m.coordinator, m.last) && InStep(m)
    requires m.active.LineMission? && m.coordinator.timedOut
    ensures FailureTied(m)
  {
  }

  lemma TieWhileFrozen(m: State, feedback: DeliveryFeedback, m': State)
    requires FailureTied(m) && m.coordinator.timedOut && m.last.actionId != 0 && SameAction(m.last, m'.last)
    requires m'.line.failurePending ==>
               m.active.LineMission? && m'.active.LineMission? && FailureComes(m.line, m.last, feedback, m'.line)
    ensures FailureTied(m')
  {
  }

  lemma FrozenHasAction(m: State)
    requires Inv(m) && m.coordinator.timedOut
    ensures m.last.actionId != 0
  {
  }

  /** What a frame does to the mark. */
  ghost predicate FrameTied(config: Config, m: State, i: Input) {
    var s' := Mission.Compute(config, m, i).state;
    s'.line.failurePending ==>
      m.active.LineMission? && s'.active.LineMission? && FailureComes(m.line, m.last, Delivered(config, m, i), s'.line)
  }

  lemma FrameKeepsTie(config: Config, m: State, i: Input, doneSince: bool)
    requires Inv(m) && Allowed(m, i) && Settled(m, doneSince) && FailureTied(m)
    ensures FrameTied(config, m, i)
  {
    hide AdmittedOf, Mission.Compute, Shape, WellFormed, Linked, InSync, HoldFrame, MissionFrame, GateHolds, LoadOf, Legal, FrameGood,
         Settled, AsksLine, FlightOf, ProfileOf;
    FrameIsAdmitted(config, m, i);
    GateKeepsLine(config, m, i);
    var a := AdmittedOf(config, m, i);
    ProfileShowsActive(m, a.state);
    if AsksLine(ProfileOf(m)) && !m.active.LineMission? { NoWalkInRecovery(m, a.input.feedback, doneSince); }
    if Holds(a) {
      HoldingFrame(config, m, i);
      ProfileShowsActive(m, Mission.Compute(config, m, i).state);
    } else {
      MissionFrameOf(config, m, i);
      MissionFrameKeepsTie(config, a.state, a.input, a.hold);
    }
  }

  lemma FrameTies(config: Config, m: State, i: Input, doneSince: bool)
    requires Inv(m) && Allowed(m, i) && Settled(m, doneSince) && FailureTied(m)
    ensures FailureTied(Mission.Compute(config, m, i).state)
  {
    hide Mission.Compute, Shape, WellFormed, Linked, InSync, GateHolds, LoadOf, Delivered, FailureComes, Drifted, SameAction, ProfileOf,
         OnLongWalk, OnLineWalk, Allowed;
    var s' := Mission.Compute(config, m, i).state;
    FrameKeepsTie(config, m, i, doneSince);
    ComputeKeeps(config, m, i);
    if m.coordinator.timedOut {
      FrameFreezes(config, m, i);
      FrozenHasAction(m);
      TieWhileFrozen(m, Delivered(config, m, i), s');
    } else if s'.coordinator.timedOut && s'.active.LineMission? {
      FrameSettles(config, m, i, doneSince);
      TieAtTimeout(s');
    }
  }

  lemma {:induction false} RunTies(config: Config, inputs: seq<Input>, steps: seq<Step>, k: nat)
    requires LegalRun(config, inputs, steps) && k <= |inputs|
    ensures FailureTied(Before(config, steps, k))
  {
    hide Mission.Compute, Mission.Initial, Before, Inv, Settled, Allowed, FailureTied, DoneSince;
    if k == 0 {
      BeforeStart(config, steps);
      StartTied(config);
    } else {
      RunTies(config, inputs, steps, k - 1);
      RunInv(config, inputs, steps, k - 1);
      RunSettles(config, inputs, steps, k - 1);
      StepIsTaken(config, inputs, steps, k - 1);
      FrameTies(config, Before(config, steps, k - 1), inputs[k - 1], DoneSince(config, inputs, steps, k - 1));
    }
  }

  lemma StartTied(config: Config)
    ensures FailureTied(Mission.Initial(config))
  {
  }

  // ----- When the final hold is terminal -----

  /** The ACK of a long LINE walk has timed out, as the previous command shows. */
  predicate FrozenOnWalk(m: State) { m.last.phase.ActionAckTimedOut? && OnLongWalk(m.last) }

  /** Only such a walk can lead out of the final hold. */
  lemma OnlyWalksLeave(config: Config, m: State, i: Input)
    requires Inv(m) && FailureTied(m) && InFinalHold(m) && LeavesHold(config, m, i)
    ensures FrozenOnWalk(m)
  {
    hide AdmittedOf, Shape, InSync, GateHolds, WellFormed;
    DoneIsFeedback(m.last, AdmittedOf(config, m, i).input.feedback);
    HoldIsIdle(m);
  }

  lemma InertKeepsWalk(config: Config, m: State, i: Input)
    requires Inv(m) && Allowed(m, i) && Inert(m, Mission.Compute(config, m, i))
    ensures FrozenOnWalk(Mission.Compute(config, m, i).state) == FrozenOnWalk(m)
  {
    hide Mission.Compute, Shape, WellFormed, InSync, GateHolds, LoadOf, KeepsStep, Delivered, OnLongWalk, Drifted, Allowed;
    ComputeKeeps(config, m, i);
    if m.coordinator.timedOut {
      FrameFreezes(config, m, i);
      SameLongWalk(m.last, Mission.Compute(config, m, i).state.last);
    }
  }

  lemma SameLongWalk(last: ControlCommand, last': ControlCommand)
    requires SameAction(last, last')
    ensures OnLongWalk(last') == OnLongWalk(last)
  {
  }

  /** Every frame of every run: the final hold is left exactly by DONE of the walk whose
      READY is still marked as failed, and until then nothing happens, whether or not
      an ACK has timed out. */
  lemma FinalHoldLeftIff(config: Config, inputs: seq<Input>, steps: seq<Step>, k: nat)
    requires LegalRun(config, inputs, steps) && k < |inputs| && InFinalHold(Before(config, steps, k))
    ensures InFinalHold(Before(config, steps, k + 1)) <==> !LeavesHold(config, Before(config, steps, k), inputs[k])
    ensures InFinalHold(Before(config, steps, k + 1)) ==> Inert(Before(config, steps, k), steps[k])
  {
    hide Mission.Compute, Before, Inv, Allowed, Inert, LeavesHold, InFinalHold;
    RunInv(config, inputs, steps, k);
    StepIsTaken(config, inputs, steps, k);
    FinalHoldFrame(config, Before(config, steps, k), inputs[k]);
  }

  /** FINAL HOLD is terminal unless the ACK of a long LINE walk has timed out: no later
      frame allocates an identifier, moves the camera, changes the mission or leaves
      the hold. */
  lemma {:induction false} FinalHoldIsTerminal(config: Config, inputs: seq<Input>, steps: seq<Step>, k: nat, j: nat)
    requires LegalRun(config, inputs, steps) && k <= j < |inputs|
    requires InFinalHold(Before(config, steps, k)) && !FrozenOnWalk(Before(config, steps, k))
    ensures Inert(Before(config, steps, k), steps[j])
    ensures InFinalHold(Before(config, steps, j + 1)) && !FrozenOnWalk(Before(config, steps, j + 1))
  {
    hide Mission.Compute, Before, Inv, Allowed, Inert, LeavesHold, InFinalHold, FailureTied, FrozenOnWalk;
    if k < j { FinalHoldIsTerminal(config, inputs, steps, k, j - 1); }
    var m := Before(config, steps, j);
    RunInv(config, inputs, steps, j);
    RunTies(config, inputs, steps, j);
    StepIsTaken(config, inputs, steps, j);
    FinalHoldLeftIff(config, inputs, steps, j);
    if LeavesHold(config, m, inputs[j]) { OnlyWalksLeave(config, m, inputs[j]); }
    InertKeepsWalk(config, m, inputs[j]);
    if k < j {
      StepIsTaken(config, inputs, steps, j - 1);
      RunInv(config, inputs, steps, j - 1);
      InertTwice(config, Before(config, steps, k), Before(config, steps, j - 1), inputs[j - 1], steps[j]);
    }
  }

  /** Inert frames add up. */
  lemma InertTwice(config: Config, m: State, n: State, i: Input, s: Step)
    requires Inv(n) && Allowed(n, i) && Inert(m, Mission.Compute(config, n, i)) && Inert(Mission.Compute(config, n, i).state, s)
    ensures Inert(m, s)
  {
    hide Mission.Compute, Inv, Allowed, Shape, WellFormed, KeepsStep, Delivered, Linked;
    ComputeKeeps(config, n, i);
  }
}
