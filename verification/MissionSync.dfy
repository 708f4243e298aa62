/** How the modes of the mission machines and the actions in flight stay in step. */
module MissionSync {
  import opened Types
  import opened CommandCoordinator
  import opened CoordinatorRuns
  import opened Asking
  import opened CruiseSelector
  import opened SlidingWindow
  import LineP2p
  import opened Mission
  import Line = LineRecovery
  import LineRecoveryRuns
  import Ball = BallController
  import Hurdle = HurdleController
  import Goal = GoalController
  import BallProperties
  import HurdleProperties
  import GoalProperties

  // ----- What is in flight -----

  /** The actions the coordinator tracks, without identifiers and delivery bits. */
  datatype Load =
    | Empty
    | One(mission: MissionType, request: ActionRequest)
    | Two(first: ActionRequest, second: ActionRequest)

  function LoadOf(c: CoordinatorState): Load {
    if c.pendingId == 0 then Empty
    else if c.queuedId == 0 then One(c.pendingMission, c.pendingRequest)
    else Two(c.pendingRequest, c.queuedRequest)
  }

  predicate Carries(last: ControlCommand, request: ActionRequest) {
    last.action == request.action && last.category == request.category && last.yawDeg == request.yawDeg
  }

  /** The last command names the newest action of the coordinator: the queued one if
      there is one, otherwise the pending one, otherwise none; and it shows whether
      the ACK timeout has struck. */
  ghost predicate Linked(c: CoordinatorState, last: ControlCommand) {
    && (last.phase.ActionAckTimedOut? <==> c.timedOut)
    && match LoadOf(c)
       case Empty => last.actionId == 0
       case One(mission, request) =>
         && last.actionId == c.pendingId && last.mission == mission && Carries(last, request)
         && (!c.timedOut ==> last.phase.WaitingActionAck? || last.phase.WaitingActionDone?)
       case Two(_, request) =>
         && last.actionId == c.queuedId && last.mission.LineMission? && Carries(last, request)
         && (!c.timedOut ==> last.phase.WaitingQueuedActionAck? || last.phase.WaitingQueuedActionStart?)
  }

  /** The executor never reports DONE of the queued action before DONE of the
      current one. */
  predicate Legal(c: CoordinatorState, feedback: DeliveryFeedback) {
    c.queuedId != 0 && feedback.done ==> feedback.actionId != c.queuedId
  }

  /** What the controllers are told agrees with what is in flight. */
  predicate Told(e: ActionExecution, load: Load) {
    && (load.Empty? ==> !e.active && !e.done)
    && (!load.Empty? ==> e.active == !e.done)
    && (e.done ==> load.One?)
  }

  /** What the controllers are told is true of what is in flight, also when the
      coordinator is frozen by an ACK timeout: it does not take in a DONE then. */
  predicate Steady(c: CoordinatorState, last: ControlCommand, feedback: DeliveryFeedback) {
    Told(ExecutionOf(last, feedback), LoadOf(c)) && (c.timedOut ==> !ExecutionOf(last, feedback).done)
  }

  predicate IsMissionAction(request: ActionRequest) { request.category.MissionCategory? }

  /** The mission action whose repetition is suppressed once this DONE is in. */
  function SuppressedAfter(e: ActionExecution, load: Load, suppressed: MissionAction): MissionAction {
    if e.done && load.One? && IsMissionAction(load.request) then load.request.action else suppressed
  }

  /** One step of the coordinator on what is in flight. */
  ghost predicate LoadMoves(load: Load, suppressed: MissionAction, e: ActionExecution, mission: MissionType, request: ActionRequest,
                            load': Load, suppressed': MissionAction)
  {
    if load.Empty? || e.done then
      var suppressed := SuppressedAfter(e, load, suppressed);
      if request.action.NoAction? then load'.Empty? && suppressed'.NoAction?
      else if IsMissionAction(request) && request.action == suppressed then load'.Empty? && suppressed' == suppressed
      else load' == One(mission, request) && suppressed' == suppressed
    else
      || (load' == load && suppressed' == suppressed)
      || (load.Two? && load' == One(LineMission, load.second)
          && suppressed' == if IsMissionAction(load.first) then load.first.action else suppressed)
      || (&& load.One? && load.mission.LineMission? && IsLongLineAction(load.request.action) && mission.LineMission?
          && request.lineQueueEligible && !request.action.NoAction?
          && load' == Two(load.request, request) && suppressed' == suppressed)
  }

  lemma LegalIsSteady(c: CoordinatorState, last: ControlCommand, feedback: DeliveryFeedback)
    requires WellFormed(c) && !c.timedOut && Linked(c, last) && Legal(c, feedback)
    ensures Steady(c, last, feedback)
    ensures ExecutionOf(last, feedback).done ==> feedback.actionId == c.pendingId && feedback.done
  {
  }

  lemma EmitLinks(c: CoordinatorState, f: Frame)
    requires WellFormed(c)
    ensures var out := Emit(c, f.mission, f.request, f.camera, f.nowSec); Linked(out.state, out.command)
  {
  }

  lemma AbsorbMoves(config: CommandConfig, c: CoordinatorState, last: ControlCommand, f: Frame)
    requires WellFormed(c) && Linked(c, last) && Steady(c, last, f.feedback)
    ensures var a, e := Absorb(config, c, f.feedback, f.nowSec), ExecutionOf(last, f.feedback);
            && a.nextId == c.nextId
            && if LoadOf(c).Empty? || e.done then
                 LoadOf(a).Empty? && !a.timedOut && a.suppressed == SuppressedAfter(e, LoadOf(c), c.suppressed)
               else if TakesDone(c, f.feedback) then
                 && LoadOf(c).Two? && LoadOf(a) == One(LineMission, LoadOf(c).second) && !a.pendingReady
                 && a.suppressed == if IsMissionAction(LoadOf(c).first) then LoadOf(c).first.action else c.suppressed
               else
                 && LoadOf(a) == LoadOf(c) && a.suppressed == c.suppressed
                 && a.pendingId == c.pendingId && a.queuedId == c.queuedId
  {
  }

  lemma EmitMoves(a: CoordinatorState, f: Frame)
    requires WellFormed(a) && !a.timedOut
    ensures var out := Emit(a, f.mission, f.request, f.camera, f.nowSec);
            && !out.state.timedOut
            && (out.state.nextId != a.nextId ==> !f.request.action.NoAction?)
            && if LoadOf(a).Empty? then LoadMoves(Empty, a.suppressed, ActionExecution(false, false), f.mission, f.request,
                                                  LoadOf(out.state), out.state.suppressed)
               else
                 && out.state.suppressed == a.suppressed
                 && (|| LoadOf(out.state) == LoadOf(a)
                     || (&& LoadOf(a).One? && a.pendingReady && LoadOf(a).mission.LineMission? && IsLongLineAction(LoadOf(a).request.action)
                         && f.mission.LineMission? && f.request.lineQueueEligible && !f.request.action.NoAction?
                         && LoadOf(out.state) == Two(LoadOf(a).request, f.request)))
  {
  }

  /** A frozen coordinator repeats itself. */
  lemma FrozenEmit(a: CoordinatorState, f: Frame)
    requires a.timedOut
    ensures Emit(a, f.mission, f.request, f.camera, f.nowSec).state == a
  {
  }

  /** Every coordinator step, seen from outside: unless DONE of a frozen action comes
      in, what is in flight makes one of the moves above. */
  lemma CoordinatorMoves(config: CommandConfig, c: CoordinatorState, last: ControlCommand, f: Frame)
    requires WellFormed(c) && Linked(c, last) && Steady(c, last, f.feedback)
    ensures var out := CoordinatorRuns.Step(config, c, f);
            LoadMoves(LoadOf(c), c.suppressed, ExecutionOf(last, f.feedback), f.mission, f.request,
                      LoadOf(out.state), out.state.suppressed)
  {
    var a := Absorb(config, c, f.feedback, f.nowSec);
    AbsorbKeepsOrders(config, c, f.feedback, f.nowSec);
    AbsorbMoves(config, c, last, f);
    if a.timedOut { FrozenEmit(a, f); } else { EmitMoves(a, f); }
    hide Absorb, Emit, Outstanding, LoadOf, Linked, WellFormed, Steady;
  }

  /** Whatever the feedback: after every coordinator step the command is linked to what
      is in flight; the coordinator never forgets a timeout, stays well-formed, and
      allocates for a request only. */
  lemma CoordinatorBasics(config: CommandConfig, c: CoordinatorState, f: Frame)
    requires WellFormed(c)
    ensures var out := CoordinatorRuns.Step(config, c, f);
            && WellFormed(out.state) && Linked(out.state, out.command)
            && (c.timedOut ==> out.state.timedOut)
            && (out.state.nextId != c.nextId ==> !f.request.action.NoAction?)
            && (out.state.timedOut ==> out.command.actionId != 0)
  {
    var a := Absorb(config, c, f.feedback, f.nowSec);
    AbsorbKeepsOrders(config, c, f.feedback, f.nowSec);
    EmitAppendsOrder(a, f);
    EmitLinks(a, f);
    assert c.timedOut ==> a.timedOut;
    hide Absorb, Outstanding, Linked;
  }

  // ----- Modes and loads -----

  /** Nothing but walks of LINE and of the active mission itself is in flight. */
  predicate Walking(load: Load, own: MissionType) {
    match load
    case Empty => true
    case One(mission, request) => IsWalk(request) && (mission.LineMission? || mission == own)
    case Two(first, second) => IsWalk(first) && IsWalk(second)
  }

  predicate LongWalk(request: ActionRequest) { IsWalk(request) && IsLongLineAction(request.action) }

  predicate LongWalking(load: Load) {
    match load
    case Empty => true
    case One(mission, request) => mission.LineMission? && LongWalk(request)
    case Two(first, second) => LongWalk(first) && LongWalk(second)
  }

  predicate IsRecoveryTurn(request: ActionRequest) { IsWalk(request) && LineRecoveryRuns.IsTurn(request) }

  predicate Own(load: Load, mission: MissionType, action: MissionAction, category: ActionCategory) {
    load.One? && load.mission == mission && load.request.action == action && load.request.category == category
  }

  predicate LineSync(mode: Line.Mode, load: Load, suppressed: MissionAction) {
    && suppressed.NoAction?
    && match mode
       case Normal => LongWalking(load)
       case RecoveryTurn => load.Empty? || (load.One? && load.mission.LineMission? && IsRecoveryTurn(load.request))
       case _ => load.Empty?
  }

  /** In the fixed-sequence modes nothing but that mode's own action is in flight;
      around camera motions nothing is; otherwise only walking is. */
  predicate BallSync(mode: Ball.Mode, load: Load, suppressed: MissionAction) {
    match mode
    case LineFollow => Walking(load, BallMission) && suppressed.NoAction?
    case Approach => Walking(load, BallMission) && suppressed.NoAction?
    case RecoveryForward => Walking(load, BallMission) && suppressed.NoAction?
    case FineAdjust => Walking(load, BallMission) && !load.Two? && suppressed.NoAction?
    case RecoveryDown => Walking(load, BallMission) && !load.Two? && suppressed.NoAction?
    case Pickup => (load.Empty? || Own(load, BallMission, PickBall, MissionCategory)) && suppressed.NoAction?
    case VerifyPickup => Own(load, BallMission, Recatch, MissionCategory) && suppressed.PickBall?
    case StandUp => (load.Empty? || Own(load, BallMission, DefaultPosition, MissionCategory)) && suppressed.NoAction?
    case BackAway => Own(load, BallMission, StepBack, LocomotionCategory) && suppressed.DefaultPosition?
    case _ => load.Empty? && suppressed.NoAction?
  }

  predicate HurdleSync(mode: Hurdle.Mode, load: Load, suppressed: MissionAction) {
    && suppressed.NoAction?
    && match mode
       case LineFollow => Walking(load, HurdleMission)
       case Approach => Walking(load, HurdleMission)
       case RecoveryForward => Walking(load, HurdleMission)
       case Contact => load.Empty? || Own(load, HurdleMission, StepForwardOne, LocomotionCategory)
       case Cross => Own(load, HurdleMission, CrossHurdle, MissionCategory)
       case _ => load.Empty?
  }

  predicate GoalSync(mode: Goal.Mode, load: Load, suppressed: MissionAction) {
    && suppressed.NoAction?
    && match mode
       case LineFollow => Walking(load, GoalMission)
       case Search => Walking(load, GoalMission) && !load.Two?
       case Approach => Walking(load, GoalMission) && !load.Two?
       case FineAdjust => Walking(load, GoalMission) && !load.Two?
       case RecoverySearch => Walking(load, GoalMission) && !load.Two?
       case Shooting => load.Empty? || Own(load, GoalMission, Shoot, MissionCategory)
       case _ => load.Empty?
  }

  /** A request as the coordinator gets it: possibly dropped. */
  function Passed(request: ActionRequest, dropped: bool): ActionRequest { if dropped then NO_REQUEST else request }

  lemma BallKeepsSync(mode: Ball.Mode, held: bool, issued: bool, e: ActionExecution, mode': Ball.Mode, held': bool, issued': bool,
                      r: Ball.Result, load: Load, suppressed: MissionAction, dropped: bool, load': Load, suppressed': MissionAction)
    requires BallProperties.Moves(mode, held, issued, e, mode', held', issued', r) && !mode'.LineFollow?
    requires BallSync(mode, load, suppressed) && Told(e, load) && (dropped ==> !e.done)
    requires LoadMoves(load, suppressed, e, BallMission, Passed(r.action, dropped), load', suppressed')
    ensures BallSync(mode', load', suppressed')
    ensures !r.camera.NoCamera? ==> load'.Empty?
  {
  }

  lemma HurdleKeepsSync(mode: Hurdle.Mode, e: ActionExecution, mode': Hurdle.Mode, r: Hurdle.Result,
                        load: Load, suppressed: MissionAction, dropped: bool, load': Load, suppressed': MissionAction)
    requires HurdleProperties.Moves(mode, e, mode', r) && !mode'.LineFollow?
    requires HurdleSync(mode, load, suppressed) && Told(e, load) && (dropped ==> !e.done)
    requires LoadMoves(load, suppressed, e, HurdleMission, Passed(r.action, dropped), load', suppressed')
    ensures HurdleSync(mode', load', suppressed')
    ensures !r.camera.NoCamera? ==> load'.Empty?
  {
  }

  lemma GoalKeepsSync(mode: Goal.Mode, ball: Goal.Possession, e: ActionExecution, lineReference: bool, mode': Goal.Mode,
                      ball': Goal.Possession, r: Goal.Result,
                      load: Load, suppressed: MissionAction, dropped: bool, load': Load, suppressed': MissionAction)
    requires GoalProperties.Moves(mode, ball, e, lineReference, mode', ball', r) && !mode'.LineFollow?
    requires GoalSync(mode, load, suppressed) && Told(e, load) && (dropped ==> !e.done)
    requires LoadMoves(load, suppressed, e, GoalMission, Passed(r.action, dropped), load', suppressed')
    ensures GoalSync(mode', load', suppressed')
    ensures !r.camera.NoCamera? ==> load'.Empty?
  {
  }

  // ----- The LINE machine -----

  predicate MayCruise(request: ActionRequest) {
    request.action.NoAction? || (LongWalk(request) && request.lineQueueEligible)
  }

  predicate MayTurn(request: ActionRequest) {
    request.action.NoAction? || (IsRecoveryTurn(request) && !request.lineQueueEligible)
  }

  /** What the LINE machine may do when nothing but its own walk is in flight. */
  predicate LineMoves(mode: Line.Mode, e: ActionExecution, mode': Line.Mode, request: ActionRequest) {
    match mode
    case Normal =>
      || (mode'.Normal? && MayCruise(request))
      || (mode'.FailureObserve? && !e.active && request.action.NoAction?)
    case RecoveryTurn =>
      if e.done then !mode'.Normal? && !mode'.FinalHold? && request.action.NoAction?
      else mode'.RecoveryTurn? && MayTurn(request) && (e.active ==> request.action.NoAction?)
    case FinalHold => mode'.FinalHold? && request.action.NoAction?
    case _ =>
      || (mode'.Normal? && MayCruise(request))
      || (mode'.RecoveryTurn? && MayTurn(request))
      || (!mode'.Normal? && !mode'.RecoveryTurn? && request.action.NoAction?)
  }

  lemma LineKeepsSync(mode: Line.Mode, e: ActionExecution, mode': Line.Mode, request: ActionRequest,
                      load: Load, suppressed: MissionAction, dropped: bool, load': Load, suppressed': MissionAction)
    requires LineMoves(mode, e, mode', request)
    requires LineSync(mode, load, suppressed) && Told(e, load)
    requires LoadMoves(load, suppressed, e, LineMission, Passed(request, dropped), load', suppressed')
    ensures LineSync(mode', load', suppressed')
  {
  }

  /** One run of the LINE machine, by mode. */
  lemma LineComputeMoves(config: Line.Config, s: Line.State, guide: LineGuide, nowSec: real, active: bool, done: bool)
    requires !(active && done) && (Line.Observing(s.mode) || s.mode.FinalHold? ==> !active && !done)
    ensures var out := Line.Compute(config, s, guide, nowSec, active, done);
            && LineMoves(s.mode, ActionExecution(done, active), out.state.mode, out.request)
            && (s.mode.Normal? && guide.valid ==> out.state.mode.Normal?)
            && (out.referenceValid ==> s.mode.Normal?)
  {
    hide Line.FinishObservation, Line.Accumulate, SelectCruiseDecision, LineP2p.Score, Push, Count;
    if Line.Observing(s.mode) {
      LineRecoveryRuns.ObservingFrame(config, s, guide, nowSec, active, done);
      hide Line.Compute;
    }
  }

  lemma FinishIsValid(a: LineP2p.Accumulator, id: ActionId, nowSec: real, remainingSec: real)
    ensures var guide := LineP2p.FinishGuide(a, id, nowSec, remainingSec); guide.Some? ==> guide.value.valid
  {
    hide LineP2p.Sum, LineP2p.Total, LineP2p.Curved, LineP2p.InWindow, LineP2p.MotionWindow;
  }

  lemma ContinueLineMoves(config: Config, line: LineSide, f: LineFlight, guide: LineGuide, decision: LineGuide, nowSec: real)
    requires !(f.active && f.done) && (Line.Observing(line.fsm.mode) || line.fsm.mode.FinalHold? ==> !f.active && !f.done)
    ensures var out := ContinueLine(config, line, f, guide, decision, nowSec);
            && LineMoves(line.fsm.mode, ActionExecution(f.done, f.active), out.line.fsm.mode, out.request)
            && (out.referenceValid ==> line.fsm.mode.Normal?)
  {
    LineComputeMoves(config.line, line.fsm, decision, nowSec, f.active, f.done);
    hide Line.Compute, Line.Accumulate;
  }

  lemma JudgeWalkMoves(config: Config, line: LineSide, id: ActionId, decision: LineGuide, nowSec: real, ready: bool, e: ActionExecution)
    requires line.fsm.mode.Normal? && (ready || e.done) && e.active == !e.done
    ensures var out := JudgeWalk(config, line, id, decision, nowSec, ready, e.done);
            && LineMoves(Line.Normal, e, out.line.fsm.mode, out.request)
            && (out.referenceValid ==> line.fsm.mode.Normal?)
  {
    var remaining := if ready && !e.done then config.line.readyLeadSec else 0.0;
    FinishIsValid(line.accumulator, id, nowSec, remaining);
    var aggregate := LineP2p.FinishGuide(line.accumulator, id, nowSec, remaining);
    LineComputeMoves(config.line, line.fsm, if aggregate.Some? then aggregate.value else decision.(valid := false), nowSec, false, e.done);
    hide Line.Compute, LineP2p.FinishGuide, LineP2p.FinishState;
  }

  /** With LINE in step, what its machine is told is what everyone is told, and it
      watches a walk only in cruise. */
  lemma FlightIsExecution(line: LineSide, c: CoordinatorState, last: ControlCommand, feedback: DeliveryFeedback)
    requires Linked(c, last) && Steady(c, last, feedback) && WellFormed(c) && LineSync(line.fsm.mode, LoadOf(c), NoAction)
    ensures var e, f := ExecutionOf(last, feedback), FlightOf(last, feedback);
            && f.done == e.done && f.active == e.active && !(e.active && e.done)
            && (f.walking ==> line.fsm.mode.Normal? && e.active == !e.done)
            && (Line.Observing(line.fsm.mode) || line.fsm.mode.FinalHold? ==> !e.active && !e.done)
  {
  }

  /** The LINE machine of one frame: READY is the one moment it decides while its own
      walk still runs. */
  lemma ComputeLineMoves(config: Config, line: LineSide, c: CoordinatorState, last: ControlCommand, i: Input)
    requires Linked(c, last) && Steady(c, last, i.feedback) && WellFormed(c) && LineSync(line.fsm.mode, LoadOf(c), NoAction)
    ensures var out, e := ComputeLine(config, line, last, i), ExecutionOf(last, i.feedback);
            && LineMoves(line.fsm.mode, e, out.line.fsm.mode, out.request)
            && (out.referenceValid ==> line.fsm.mode.Normal?)
  {
    FlightIsExecution(line, c, last, i.feedback);
    var e, f, guide := ExecutionOf(last, i.feedback), FlightOf(last, i.feedback), GuideSeen(config, i);
    var decision := if i.guideOverride.Some? then i.guideOverride.value else guide;
    hide GuideSeen, FlightOf, ExecutionOf, Linked, Steady, WellFormed, LineSync, LoadOf, JudgeWalk, ContinueLine, Watch, LineP2p.Cleared;
    if !i.advanceLineFsm {
      assert LineMoves(line.fsm.mode, e, line.fsm.mode, NO_REQUEST);
    } else if f.walking {
      var watched := line.(accumulator := Watch(line, last.actionId, i.nowSec, guide));
      ContinueLineMoves(config, watched, f, guide, decision, i.nowSec);
      if i.feedback.ready || f.done {
        JudgeWalkMoves(config, watched, last.actionId, decision, i.nowSec, i.feedback.ready, e);
      }
      hide LineMoves;
    } else {
      var kept := if f.pending then line else line.(accumulator := LineP2p.Cleared(line.accumulator));
      ContinueLineMoves(config, kept, f, guide, decision, i.nowSec);
      hide LineMoves;
    }
  }
}
