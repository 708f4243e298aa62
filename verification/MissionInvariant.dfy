/** The invariant of the whole supervisor, kept by every frame. */
module MissionInvariant {
  import opened Types
  import opened SlidingWindow
  import opened CommandCoordinator
  import opened CoordinatorRuns
  import opened Mission
  import opened MissionMoves
  import opened MissionSync
  import Features = LineFeatures
  import Ball = BallController
  import Hurdle = HurdleController
  import Goal = GoalController
  import BallProperties
  import HurdleProperties
  import GoalProperties

  /** The modes of the active mission agree with what is in flight. */
  ghost predicate InSync(p: Profile, load: Load, suppressed: MissionAction) {
    match p.active
    case LineMission => LineSync(p.fsm, load, suppressed)
    case BallMission => BallSync(p.ball, load, suppressed)
    case HurdleMission => HurdleSync(p.hurdle, load, suppressed)
    case GoalMission => GoalSync(p.goal, load, suppressed)
    case NoMission => false
  }

  ghost predicate InStep(m: State) { InSync(ProfileOf(m), LoadOf(m.coordinator), m.coordinator.suppressed) }

  /** The last command is linked to the coordinator and, until the ACK timeout strikes,
      everything is in step. */
  ghost predicate Sync(m: State) { Linked(m.coordinator, m.last) && (!m.coordinator.timedOut ==> InStep(m)) }

  /** The gate holds back a DONE. */
  predicate Deferring(m: State) { m.gate.active && !m.gate.cameraOnly }

  /** Every gate belongs to a mission. The DONE held back is that of the one action
      still pending, and an object mission is active. */
  ghost predicate GatePends(m: State) {
    && (m.gate.active ==> !m.gate.mission.NoMission?)
    && (Deferring(m) ==>
      && m.gate.deferred.done && m.gate.deferred.actionId != 0 && m.gate.mission == m.active
      && (!m.coordinator.timedOut ==>
            && !m.active.LineMission?
            && LoadOf(m.coordinator).One? && m.coordinator.pendingId == m.gate.deferred.actionId))
  }

  /** ... and that action counts as acknowledged, so it cannot time out. */
  ghost predicate GateHolds(m: State) {
    GatePends(m) && (Deferring(m) && !m.coordinator.timedOut ==> m.coordinator.pendingAck)
  }

  ghost predicate Inv(m: State) {
    && WellFormed(m.coordinator)
    && Shape(ProfileOf(m), m.results)
    && Sync(m)
    && GateHolds(m)
  }

  lemma InitialInv(config: Config)
    ensures Inv(Mission.Initial(config))
  {
  }

  // ----- A mission step keeps everyone in step -----

  /** Whether the LINE machine is asked in this frame. */
  predicate AsksLine(p: Profile) {
    p.active.LineMission? || (p.active.BallMission? && p.ball.LineRecovery?) || (p.active.GoalMission? && p.goal.HeadingRecovery?)
  }

  /** One frame of the mission, as seen by the coordinator. */
  datatype Turn = Turn(
    p: Profile,
    e: ActionExecution,
    out: LineOut,
    p': Profile,
    r': Results,
    lineRequest: ActionRequest,
    dropped: bool)

  /** A mission step that starts in step; requests of object missions are dropped
      only in frames without DONE. */
  ghost predicate GoodTurn(t: Turn, r: Results, load: Load, suppressed: MissionAction, load': Load, suppressed': MissionAction) {
    && Shape(t.p, r) && DispatchMoves(t.p, t.e, t.out, t.p', t.r', t.lineRequest)
    && InSync(t.p, load, suppressed) && Told(t.e, load)
    && (AsksLine(t.p) ==> LineMoves(t.p.fsm, t.e, t.out.line.fsm.mode, t.out.request))
    && (t.dropped && !t.p'.active.LineMission? ==> !t.e.done)
    && LoadMoves(load, suppressed, t.e, t.p'.active, Passed(RequestOf(t.p'.active, t.r', t.lineRequest), t.dropped), load', suppressed')
  }

  lemma LineTurn(t: Turn, r: Results, load: Load, suppressed: MissionAction, load': Load, suppressed': MissionAction)
    requires t.p.active.LineMission? && GoodTurn(t, r, load, suppressed, load', suppressed')
    ensures InSync(t.p', load', suppressed')
    ensures !CameraOf(t.p'.active, t.r').NoCamera? ==> load'.Empty?
  {
    var p, p', e := t.p, t.p', t.e;
    hide BallProperties.Moves, HurdleProperties.Moves, GoalProperties.Moves, LoadMoves;
    match p'.active {
      case LineMission =>
        LineKeepsSync(p.fsm, e, p'.fsm, t.lineRequest, load, suppressed, t.dropped, load', suppressed');
      case BallMission =>
        BallKeepsSync(Ball.LineFollow, p.ballHeld, p.backAwayIssued, e, p'.ball, p'.ballHeld, p'.backAwayIssued, t.r'.ball,
                      load, suppressed, t.dropped, load', suppressed');
      case HurdleMission =>
        HurdleKeepsSync(Hurdle.LineFollow, e, p'.hurdle, t.r'.hurdle, load, suppressed, t.dropped, load', suppressed');
      case GoalMission =>
        GoalKeepsSync(Goal.LineFollow, Goal.UpdateBallState(p.possession, Goal.LineFollow, true, true), e, t.out.referenceValid, p'.goal,
                      p'.possession, t.r'.goal, load, suppressed, t.dropped, load', suppressed');
      case NoMission =>
    }
  }

  lemma BallTurn(t: Turn, r: Results, load: Load, suppressed: MissionAction, load': Load, suppressed': MissionAction)
    requires t.p.active.BallMission? && GoodTurn(t, r, load, suppressed, load', suppressed')
    ensures InSync(t.p', load', suppressed')
    ensures !CameraOf(t.p'.active, t.r').NoCamera? ==> load'.Empty?
  {
    var p, p', e := t.p, t.p', t.e;
    hide BallProperties.Moves, LoadMoves, LineMoves, Shape;
    if p'.active.BallMission? {
      BallKeepsSync(p.ball, p.ballHeld, p.backAwayIssued, e, p'.ball, p'.ballHeld, p'.backAwayIssued, t.r'.ball,
                    load, suppressed, t.dropped, load', suppressed');
    } else {
      assert LineSync(p.fsm, load, suppressed);
      LineKeepsSync(p.fsm, e, p'.fsm, t.lineRequest, load, suppressed, t.dropped, load', suppressed');
    }
  }

  lemma HurdleTurn(t: Turn, r: Results, load: Load, suppressed: MissionAction, load': Load, suppressed': MissionAction)
    requires t.p.active.HurdleMission? && GoodTurn(t, r, load, suppressed, load', suppressed')
    ensures InSync(t.p', load', suppressed')
    ensures !CameraOf(t.p'.active, t.r').NoCamera? ==> load'.Empty?
  {
    var p, p', e := t.p, t.p', t.e;
    if p'.active.HurdleMission? {
      hide HurdleProperties.Moves, LoadMoves, Shape;
      HurdleKeepsSync(p.hurdle, e, p'.hurdle, t.r'.hurdle, load, suppressed, t.dropped, load', suppressed');
    }
  }

  lemma GoalTurn(t: Turn, r: Results, load: Load, suppressed: MissionAction, load': Load, suppressed': MissionAction)
    requires t.p.active.GoalMission? && GoodTurn(t, r, load, suppressed, load', suppressed')
    ensures InSync(t.p', load', suppressed')
    ensures !CameraOf(t.p'.active, t.r').NoCamera? ==> load'.Empty?
  {
    var p, p', e := t.p, t.p', t.e;
    hide GoalProperties.Moves, LoadMoves, LineMoves, Shape;
    if p'.active.GoalMission? {
      GoalKeepsSync(p.goal, p.possession, e, p.goal.HeadingRecovery? && t.out.referenceValid, p'.goal, p'.possession, t.r'.goal,
                    load, suppressed, t.dropped, load', suppressed');
    } else {
      assert LineSync(p.fsm, load, suppressed);
      LineKeepsSync(p.fsm, e, p'.fsm, t.lineRequest, load, suppressed, t.dropped, load', suppressed');
    }
  }

  /** Whatever mission was active, a good turn ends in step; and a camera motion is
      asked for only when nothing is in flight. */
  lemma TurnKeepsSync(t: Turn, r: Results, load: Load, suppressed: MissionAction, load': Load, suppressed': MissionAction)
    requires GoodTurn(t, r, load, suppressed, load', suppressed')
    ensures InSync(t.p', load', suppressed')
    ensures !CameraOf(t.p'.active, t.r').NoCamera? ==> load'.Empty?
  {
    assert !t.p.active.NoMission?;
    if t.p.active.LineMission? { LineTurn(t, r, load, suppressed, load', suppressed'); }
    if t.p.active.BallMission? { BallTurn(t, r, load, suppressed, load', suppressed'); }
    if t.p.active.HurdleMission? { HurdleTurn(t, r, load, suppressed, load', suppressed'); }
    if t.p.active.GoalMission? { GoalTurn(t, r, load, suppressed, load', suppressed'); }
    hide GoodTurn, InSync;
  }

  // ----- A whole frame -----

  /** Every output carries the camera request it was given. */
  lemma CameraPasses(config: CommandConfig, c: CoordinatorState, f: Frame)
    ensures CoordinatorRuns.Step(config, c, f).command.camera == f.camera
  {
    hide Absorb;
  }

  /** The coordinator's frame of a mission step. */
  function FrameOf(m: State, i: Input, request: ActionRequest, camera: CameraRequest): Frame {
    Frame(m.active, request, camera, i.feedback, i.nowSec)
  }

  function TurnOf(config: Config, m: State, i: Input, dropped: bool): Turn {
    var e := ExecutionOf(m.last, i.feedback);
    var d := Dispatch(config, m, i, e);
    Turn(ProfileOf(m), e, LineOutOf(config, m, i), ProfileOf(d.state), d.state.results, d.lineRequest, dropped)
  }

  lemma LineIsInSync(p: Profile, load: Load, suppressed: MissionAction)
    requires InSync(p, load, suppressed) && AsksLine(p)
    ensures LineSync(p.fsm, load, NoAction)
  {
  }

  lemma TurnIsGood(config: Config, m: State, i: Input, dropped: bool, load': Load, suppressed': MissionAction)
    requires WellFormed(m.coordinator) && Shape(ProfileOf(m), m.results) && Linked(m.coordinator, m.last)
    requires InStep(m) && Steady(m.coordinator, m.last, i.feedback)
    requires var t := TurnOf(config, m, i, dropped);
             && (dropped && !t.p'.active.LineMission? ==> !t.e.done)
             && LoadMoves(LoadOf(m.coordinator), m.coordinator.suppressed, t.e, t.p'.active,
                          Passed(RequestOf(t.p'.active, t.r', t.lineRequest), dropped), load', suppressed')
    ensures GoodTurn(TurnOf(config, m, i, dropped), m.results, LoadOf(m.coordinator), m.coordinator.suppressed, load', suppressed')
  {
    hide Shape, DispatchMoves, InSync, Told, LineMoves, LoadMoves, Dispatch, ComputeLine, ExecutionOf, LoadOf, RequestOf, Passed, Linked,
         WellFormed, LineSync, AsksLine, ProfileOf;
    var c, e, p := m.coordinator, ExecutionOf(m.last, i.feedback), ProfileOf(m);
    DispatchIsMove(config, m, i, e);
    if AsksLine(p) {
      LineIsInSync(p, LoadOf(c), c.suppressed);
      ComputeLineInProfile(config, m, i);
    }
  }

  lemma ComputeLineInProfile(config: Config, m: State, i: Input)
    requires Linked(m.coordinator, m.last) && Steady(m.coordinator, m.last, i.feedback) && WellFormed(m.coordinator)
    requires LineSync(ProfileOf(m).fsm, LoadOf(m.coordinator), NoAction)
    ensures var out := LineOutOf(config, m, i);
            LineMoves(ProfileOf(m).fsm, ExecutionOf(m.last, i.feedback), out.line.fsm.mode, out.request)
  {
    hide ComputeLine, LineMoves, Linked, Steady, WellFormed, LineSync, LoadOf, ExecutionOf;
    ComputeLineMoves(config, m.line, m.coordinator, m.last, i);
  }

  /** Whatever the feedback, the state keeps its shape and the output is linked to it. */
  ghost predicate Sound(m: State, s: Step) {
    && WellFormed(s.state.coordinator) && Shape(ProfileOf(s.state), s.state.results)
    && Linked(s.state.coordinator, s.state.last) && s.state.last == s.command
    && (m.coordinator.timedOut ==> s.state.coordinator.timedOut)
  }

  /** In step before the frame, with steady feedback: in step after it, and a camera
      motion is commanded only with nothing in flight. */
  ghost predicate KeepsStep(m: State, feedback: DeliveryFeedback, s: Step) {
    InStep(m) && Steady(m.coordinator, m.last, feedback) ==>
      InStep(s.state) && (!s.command.camera.NoCamera? ==> LoadOf(s.state.coordinator).Empty?)
  }

  /** What a frame with this feedback guarantees about the state and the output. */
  ghost predicate FrameGood(m: State, feedback: DeliveryFeedback, s: Step) { Sound(m, s) && KeepsStep(m, feedback, s) }

  /** Unless the coordinator was frozen before the frame, it ends in step. */
  lemma GoodFrameSyncs(m: State, feedback: DeliveryFeedback, s: Step)
    requires FrameGood(m, feedback, s) && Sync(m) && WellFormed(m.coordinator) && (m.coordinator.timedOut || Legal(m.coordinator, feedback))
    ensures Sync(s.state)
  {
    hide InSync, Shape, Linked, Legal, Steady, WellFormed;
    if !m.coordinator.timedOut { LegalIsSteady(m.coordinator, m.last, feedback); }
  }

  lemma ConcludeIs(config: Config, m: State, d: State, i: Input, request: ActionRequest, camera: CameraRequest)
    requires KeepsRest(m, d)
    ensures var out := CoordinatorRuns.Step(config.command, m.coordinator, FrameOf(d, i, request, camera));
            && Conclude(config, d, i, request, camera) == Step(d.(coordinator := out.state, last := out.command), out.command)
            && out.command.camera == camera
  {
    CameraPasses(config.command, m.coordinator, FrameOf(d, i, request, camera));
    hide CommandCoordinator.Compute;
  }

  /** A mission step followed by its coordinator step. */
  lemma ConcludeKeeps(config: Config, m: State, i: Input, dropped: bool, request: ActionRequest, camera: CameraRequest)
    requires WellFormed(m.coordinator) && Shape(ProfileOf(m), m.results) && Linked(m.coordinator, m.last)
    requires var t := TurnOf(config, m, i, dropped);
             && (dropped && !t.p'.active.LineMission? ==> !t.e.done)
             && request == Passed(RequestOf(t.p'.active, t.r', t.lineRequest), dropped)
             && (camera.NoCamera? || camera == CameraOf(t.p'.active, t.r'))
    ensures FrameGood(m, i.feedback, Conclude(config, Dispatch(config, m, i, ExecutionOf(m.last, i.feedback)).state, i, request, camera))
  {
    hide Shape, DispatchMoves, InSync, Told, Steady, LineMoves, LoadMoves, Dispatch, ComputeLine, ExecutionOf, LoadOf, RequestOf, Passed,
         Linked, WellFormed, GoodTurn, CameraOf, CoordinatorRuns.Step, Conclude, LineOutOf;
    var t := TurnOf(config, m, i, dropped);
    var c, d := m.coordinator, Dispatch(config, m, i, t.e).state;
    var f := FrameOf(d, i, request, camera);
    DispatchIsMove(config, m, i, t.e);
    MoveKeepsShape(t.p, m.results, t.e, t.out, t.p', t.r', t.lineRequest);
    CoordinatorBasics(config.command, c, f);
    ConcludeIs(config, m, d, i, request, camera);
    ConcludingKeepsProfile(d, CoordinatorRuns.Step(config.command, c, f).state, CoordinatorRuns.Step(config.command, c, f).command);
    if InStep(m) && Steady(c, m.last, i.feedback) {
      TurnSyncs(config, m, i, dropped, request, f);
    }
    hide TurnOf, ProfileOf;
  }

  lemma ConcludingKeepsProfile(d: State, c: CoordinatorState, last: ControlCommand)
    ensures ProfileOf(d.(coordinator := c, last := last)) == ProfileOf(d)
  {
  }

  lemma TurnSyncs(config: Config, m: State, i: Input, dropped: bool, request: ActionRequest, f: Frame)
    requires WellFormed(m.coordinator) && Shape(ProfileOf(m), m.results) && Linked(m.coordinator, m.last)
    requires InStep(m) && Steady(m.coordinator, m.last, i.feedback)
    requires var t := TurnOf(config, m, i, dropped);
             && (dropped && !t.p'.active.LineMission? ==> !t.e.done)
             && f.mission == t.p'.active && f.request == Passed(RequestOf(t.p'.active, t.r', t.lineRequest), dropped)
             && f.feedback == i.feedback
    ensures var t, c' := TurnOf(config, m, i, dropped), CoordinatorRuns.Step(config.command, m.coordinator, f).state;
            && InSync(t.p', LoadOf(c'), c'.suppressed)
            && (!CameraOf(t.p'.active, t.r').NoCamera? ==> LoadOf(c').Empty?)
  {
    hide Shape, DispatchMoves, InSync, Told, Steady, LineMoves, LoadMoves, Dispatch, ComputeLine, ExecutionOf, LoadOf, RequestOf, Passed,
         Linked, WellFormed, GoodTurn, CameraOf, CoordinatorRuns.Step, LineOutOf, ProfileOf;
    var t, c' := TurnOf(config, m, i, dropped), CoordinatorRuns.Step(config.command, m.coordinator, f).state;
    CoordinatorMoves(config.command, m.coordinator, m.last, f);
    TurnIsGood(config, m, i, dropped, LoadOf(c'), c'.suppressed);
    TurnKeepsSync(t, m.results, LoadOf(m.coordinator), m.coordinator.suppressed, LoadOf(c'), c'.suppressed);
  }

  lemma ConcludeKeepsGate(config: Config, m: State, i: Input, request: ActionRequest, camera: CameraRequest)
    ensures var out := Conclude(config, m, i, request, camera);
            out.state.gate == m.gate && ProfileOf(out.state) == ProfileOf(m) && out.state.results == m.results
  {
    hide CommandCoordinator.Compute;
  }

  lemma MissionFrameKeeps(config: Config, m: State, i: Input, hold: bool)
    requires WellFormed(m.coordinator) && Shape(ProfileOf(m), m.results) && Linked(m.coordinator, m.last)
    requires hold ==> i.feedback == NO_FEEDBACK
    ensures FrameGood(m, i.feedback, MissionFrame(config, m, i, hold))
    ensures MissionFrame(config, m, i, hold).state.gate == m.gate.(firstFrame := false)
  {
    hide Dispatch, Shape, Linked, WellFormed, ExecutionOf, DispatchMoves, LineOutOf, RequestOf, CameraOf, Conclude, FrameGood, ProfileOf,
         ForgetReady;
    var n := m.(gate := m.gate.(firstFrame := false));
    ProfileIgnoresGate(m, n);
    NoFeedbackNoDone(n.last);
    var d := Dispatch(config, n, i, ExecutionOf(n.last, i.feedback));
    var dropped := hold || (d.state.active.LineMission? && !i.allowNewLineAction);
    var camera := if hold then NoCamera else CameraOf(d.state.active, d.state.results);
    ProfileActive(d.state);
    DispatchIsMove(config, n, i, ExecutionOf(n.last, i.feedback));
    ConcludeKeeps(config, n, i, dropped, RequestIn(d, i, hold), camera);
    ConcludeKeepsGate(config, d.state, i, RequestIn(d, i, hold), camera);
    ForgettingIsFine(m, n, Conclude(config, d.state, i, RequestIn(d, i, hold), camera), i);
  }

  lemma ProfileIgnoresGate(m: State, n: State)
    requires n == m.(gate := n.gate)
    ensures ProfileOf(n) == ProfileOf(m)
  {
  }

  lemma NoFeedbackNoDone(last: ControlCommand)
    ensures !ExecutionOf(last, NO_FEEDBACK).done
  {
  }

  lemma ProfileActive(m: State)
    ensures ProfileOf(m).active == m.active
  {
  }

  lemma ForgettingIsFine(m: State, n: State, out: Step, i: Input)
    requires FrameGood(n, i.feedback, out) && n == m.(gate := n.gate)
    ensures FrameGood(m, i.feedback, out.(state := out.state.(line := ForgetReady(out.state.line, i))))
  {
    hide Shape, InSync, Linked, LoadOf, WellFormed, Steady;
  }

  // ----- The gate -----

  /** Only the gate, the camera memory and the tracking evidence differ. */
  ghost predicate SameMission(m: State, n: State) {
    && ProfileOf(n) == ProfileOf(m) && n.results == m.results && n.coordinator == m.coordinator && n.last == m.last
  }

  /** In LINE every walk is one that the gate lets pass. */
  lemma LineWalksPass(config: Config, m: State, feedback: DeliveryFeedback)
    requires InStep(m) && Linked(m.coordinator, m.last) && m.active.LineMission?
    ensures !ShouldDeferDone(config, m, feedback)
  {
  }

  lemma DeferredIsPending(config: Config, m: State, feedback: DeliveryFeedback)
    requires WellFormed(m.coordinator) && !m.coordinator.timedOut && Sync(m) && Legal(m.coordinator, feedback)
    requires ShouldDeferDone(config, m, feedback)
    ensures LoadOf(m.coordinator).One? && m.coordinator.pendingId == feedback.actionId && !m.active.LineMission?
  {
    if m.active.LineMission? { LineWalksPass(config, m, feedback); }
    hide InSync, ShouldDeferDone;
    assert feedback.done && feedback.actionId == m.last.actionId != 0;
  }

  lemma BeginGateSame(m: State, nowSec: real, cameraOnly: bool, done: DeliveryFeedback)
    ensures SameMission(m, BeginGate(m, nowSec, cameraOnly, done))
  {
  }

  lemma OpenGateKeeps(config: Config, m: State, i: Input)
    requires Inv(m) && (m.coordinator.timedOut || Legal(m.coordinator, i.feedback))
    ensures SameMission(m, OpenGate(config, m, i)) && GatePends(OpenGate(config, m, i))
  {
    var n := m.(previousCamera := i.camera);
    var settled := BeginGate(n, i.nowSec, true, NO_FEEDBACK);
    BeginGateSame(n, i.nowSec, true, NO_FEEDBACK);
    BeginGateSame(n, i.nowSec, false, i.feedback);
    BeginGateSame(settled, i.nowSec, false, i.feedback);
    assert ProfileOf(n) == ProfileOf(m) && Sync(n);
    hide Shape, Sync, WellFormed, Legal, LoadOf;
    if ShouldDeferDone(config, n, i.feedback) && !n.coordinator.timedOut {
      DeferredIsPending(config, n, i.feedback);
    }
    hide ShouldDeferDone;
  }

  /** What the gate lets through. */
  ghost predicate Admits(n: State, i: Input, a: Admitted) {
    && SameMission(n, a.state) && GatePends(a.state)
    && a.input == i.(feedback := a.input.feedback, guideOverride := a.input.guideOverride)
    && (!n.coordinator.timedOut ==> Legal(n.coordinator, a.input.feedback))
    && a.hold == a.state.gate.active
    && (a.hold && a.state.gate.cameraOnly ==> a.input.feedback == NO_FEEDBACK)
    && (Deferring(a.state) ==> a.input.feedback == DeliveryFeedback(a.state.gate.deferred.actionId, true, false, false))
  }

  lemma AddToGateKeeps(config: Config, g: Gate, i: Input)
    ensures var g' := AddToGate(config, g, i);
            g' == g.(frames := g'.frames, hits := g'.hits, lineValid := g'.lineValid, offsetSum := g'.offsetSum,
                     headingSum := g'.headingSum, confidenceSum := g'.confidenceSum)
  {
    hide Features.FeaturesOf, Push;
  }

  lemma PassGateAdmits(config: Config, n: State, i: Input)
    requires GatePends(n) && (n.coordinator.timedOut || Legal(n.coordinator, i.feedback))
    ensures Admits(n, i, PassGate(config, n, i))
  {
    AddToGateKeeps(config, n.gate, i);
    hide AddToGate, GateReady, GateGuide;
  }

  // ----- Holding frames -----

  lemma QuietAbsorb(config: CommandConfig, c: CoordinatorState, f: Frame)
    requires WellFormed(c) && !f.feedback.done
    ensures var a := Absorb(config, c, f.feedback, f.nowSec);
            && WellFormed(a) && a.nextId == c.nextId && LoadOf(a) == LoadOf(c)
            && a.pendingId == c.pendingId && a.queuedId == c.queuedId && a.suppressed == c.suppressed
            && (!c.timedOut && LoadOf(c).One? && f.feedback.actionId == c.pendingId && f.feedback.acknowledged ==>
                  a.pendingAck && !a.timedOut)
  {
  }

  lemma QuietEmit(a: CoordinatorState, f: Frame)
    requires WellFormed(a) && f.request == NO_REQUEST
    ensures var out := Emit(a, f.mission, f.request, f.camera, f.nowSec);
            && out.state == (if a.pendingId == 0 then a.(suppressed := NoAction) else a)
            && out.command.camera == f.camera
  {
  }

  lemma SameLink(c: CoordinatorState, last: ControlCommand, c': CoordinatorState, last': ControlCommand)
    requires Linked(c, last) && Linked(c', last')
    requires LoadOf(c') == LoadOf(c) && c'.pendingId == c.pendingId && c'.queuedId == c.queuedId
    ensures last'.actionId == last.actionId
  {
  }

  /** Without DONE and without a request the coordinator changes nothing in flight. */
  lemma QuietCoordinator(config: CommandConfig, c: CoordinatorState, last: ControlCommand, f: Frame)
    requires WellFormed(c) && Linked(c, last) && !f.feedback.done && f.request == NO_REQUEST
    ensures var out := CoordinatorRuns.Step(config, c, f);
            && out.state.nextId == c.nextId && out.command.camera == f.camera
            && LoadOf(out.state) == LoadOf(c) && out.command.actionId == last.actionId
            && out.state.pendingId == c.pendingId && out.state.queuedId == c.queuedId
            && out.state.suppressed == (if LoadOf(c).Empty? then NoAction else c.suppressed)
            && (!c.timedOut && LoadOf(c).One? && f.feedback.actionId == c.pendingId && f.feedback.acknowledged ==>
                  out.state.pendingAck && !out.state.timedOut)
  {
    CoordinatorBasics(config, c, f);
    hide Absorb, Emit, WellFormed, Linked;
    QuietAbsorb(config, c, f);
    QuietEmit(Absorb(config, c, f.feedback, f.nowSec), f);
    var out := CoordinatorRuns.Step(config, c, f);
    SameLink(c, last, out.state, out.command);
  }

  lemma EmptyIsUnsuppressed(p: Profile, suppressed: MissionAction)
    requires InSync(p, Empty, suppressed)
    ensures suppressed.NoAction?
  {
  }

  lemma ObserveActiveSame(config: Config, m: State, i: Input)
    ensures SameMission(m, ObserveActive(config, m, i)) && ObserveActive(config, m, i).gate == m.gate
    ensures ObserveActive(config, m, i).line == m.line
  {
    hide Ball.Track, Hurdle.Track, Goal.Track, Goal.TrackPose;
  }

  /** A frame spent observing changes nothing in flight and asks for nothing. */
  ghost predicate HoldGood(m: State, feedback: DeliveryFeedback, s: Step) {
    && FrameGood(m, feedback, s) && GateHolds(s.state)
    && s.state.gate == m.gate && ProfileOf(s.state) == ProfileOf(m) && s.state.line == m.line
    && s.command.camera.NoCamera? && s.state.coordinator.nextId == m.coordinator.nextId
    && LoadOf(s.state.coordinator) == LoadOf(m.coordinator) && s.command.actionId == m.last.actionId
    && (Deferring(m) && !m.coordinator.timedOut ==> !s.state.coordinator.timedOut)
  }

  lemma HoldFrameKeeps(config: Config, m: State, i: Input)
    requires WellFormed(m.coordinator) && Shape(ProfileOf(m), m.results) && Linked(m.coordinator, m.last) && GatePends(m)
    requires !i.feedback.done
    requires Deferring(m) ==> i.feedback == DeliveryFeedback(m.gate.deferred.actionId, true, false, false)
    ensures HoldGood(m, i.feedback, HoldFrame(config, m, i))
  {
    var n := ObserveActive(config, m, i);
    ObserveActiveSame(config, m, i);
    hide ObserveActive, Shape, InSync;
    var c, f := m.coordinator, FrameOf(n, i, NO_REQUEST, NoCamera);
    CoordinatorBasics(config.command, c, f);
    QuietCoordinator(config.command, c, m.last, f);
    var out := CoordinatorRuns.Step(config.command, c, f);
    assert HoldFrame(config, m, i) == Step(n.(coordinator := out.state, last := out.command), out.command);
    hide HoldFrame;
    if InStep(m) && LoadOf(c).Empty? { EmptyIsUnsuppressed(ProfileOf(m), c.suppressed); }
    hide CoordinatorRuns.Step, Linked, LoadOf, WellFormed;
  }
}
