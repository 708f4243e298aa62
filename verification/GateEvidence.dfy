/** What an object mission decides on after the gate: nothing but the frames since the
    motion ended. */
module GateEvidence {
  import opened Types
  import opened TrackerRefinement
  import opened CommandCoordinator
  import opened Mission
  import opened MissionMoves
  import opened MissionSync
  import opened MissionInvariant
  import opened MissionRuns
  import opened MissionFrames
  import opened DeferredDone
  import opened GateOpening
  import CoordinatorRuns
  import Ball = BallController
  import Hurdle = HurdleController
  import Goal = GoalController
  import BallProperties
  import HurdleProperties
  import GoalProperties
  import BallDecisions
  import HurdleDecisions
  import GoalDecisions

  // ----- What the frames show -----

  function BallSeen(config: Config, inputs: seq<Input>, a: nat, b: nat): seq<Sighting>
    requires a <= b <= |inputs|
  {
    if a == b then []
    else
      var i := inputs[b - 1];
      BallSeen(config, inputs, a, b - 1) + [BallProperties.SightingOf(config.ball, i.ball, i.width, i.height)]
  }

  function HurdleSeen(config: Config, inputs: seq<Input>, a: nat, b: nat): seq<Sighting>
    requires a <= b <= |inputs|
  {
    if a == b then []
    else
      var i := inputs[b - 1];
      HurdleSeen(config, inputs, a, b - 1) + [HurdleProperties.SightingOf(config.hurdle, i.hurdle, i.width, i.height)]
  }

  function GoalSeen(config: Config, inputs: seq<Input>, a: nat, b: nat): seq<GoalProperties.View>
    requires a <= b <= |inputs|
  {
    if a == b then []
    else
      var i := inputs[b - 1];
      GoalSeen(config, inputs, a, b - 1) + [GoalProperties.Look(config.goal, i.backboard, i.goalPose, i.width, i.height)]
  }

  /** The tracker of the active mission holds exactly what these frames show. */
  ghost predicate Holding(config: Config, m: State, inputs: seq<Input>, a: nat, b: nat)
    requires a <= b <= |inputs|
  {
    match m.active
    case BallMission =>
      Refines(BallProperties.WindowsOf(config.ball), BallProperties.FieldsOf(m.ball.tracker), BallSeen(config, inputs, a, b))
    case HurdleMission =>
      Refines(HurdleProperties.WindowsOf(config.hurdle), HurdleProperties.FieldsOf(m.hurdle.tracker), HurdleSeen(config, inputs, a, b))
    case GoalMission =>
      var views, w := GoalSeen(config, inputs, a, b), GoalProperties.WindowsOf(config.goal);
      && Refines(w, GoalProperties.BoardFields(m.goal.board), GoalProperties.Boards(views))
      && Refines(w, GoalProperties.PoseFields(m.goal.pose), GoalProperties.Poses(views))
    case _ => true
  }

  // ----- One frame -----

  /** A gate that opens after a motion makes every tracker forget. */
  ghost predicate Forgot(m: State, n: State) {
    && n.ball == Ball.ClearHistory(m.ball) && n.hurdle == Hurdle.ClearHistory(m.hurdle) && n.goal == Goal.ClearTracking(m.goal)
    && n.line.fsm.stability == [] && n.active == m.active
  }

  lemma OpeningForgets(config: Config, m: State, i: Input)
    requires !Deferring(m) && Deferring(OpenGate(config, m, i))
    ensures Forgot(m, AdmittedOf(config, m, i).state)
  {
    hide ShouldDeferDone, AddToGate, GateReady, GateGuide;
  }

  lemma OpenGateKeepsTrackers(config: Config, m: State, i: Input)
    requires m.gate.active
    ensures var n := AdmittedOf(config, m, i).state;
            n.ball == m.ball && n.hurdle == m.hurdle && n.goal == m.goal && n.active == m.active
  {
    hide ShouldDeferDone, AddToGate, GateReady, GateGuide, BeginGate;
  }

  lemma ForgotHolding(config: Config, m: State, n: State, inputs: seq<Input>, a: nat)
    requires Forgot(m, n) && a <= |inputs|
    ensures Holding(config, n, inputs, a, a)
  {
    ClearedRefines(BallProperties.WindowsOf(config.ball));
    ClearedRefines(HurdleProperties.WindowsOf(config.hurdle));
    ClearedRefines(GoalProperties.WindowsOf(config.goal));
    hide Refines;
    assert GoalProperties.Boards([]) == [] && GoalProperties.Poses([]) == [];
  }

  lemma BallObserves(config: Config, m: State, s: State, inputs: seq<Input>, a: nat, b: nat)
    requires a <= b < |inputs| && m.active.BallMission? && s.active == m.active && !Ball.CameraMoving(m.ball.mode)
    requires Holding(config, m, inputs, a, b)
    requires s.ball == Ball.ObserveOnly(config.ball, m.ball, inputs[b].ball, inputs[b].width, inputs[b].height)
    ensures Holding(config, s, inputs, a, b + 1)
  {
    var i := inputs[b];
    BallProperties.ObserveFields(config.ball, m.ball, i.ball, i.width, i.height);
    AdvanceRefines(BallProperties.WindowsOf(config.ball), BallProperties.FieldsOf(m.ball.tracker), BallSeen(config, inputs, a, b),
                   BallProperties.SightingOf(config.ball, i.ball, i.width, i.height));
    hide Refines, Advance, BallProperties.SightingOf, BallProperties.FieldsOf, Ball.ObserveOnly;
  }

  lemma HurdleObserves(config: Config, m: State, s: State, inputs: seq<Input>, a: nat, b: nat)
    requires a <= b < |inputs| && m.active.HurdleMission? && s.active == m.active && !Hurdle.CameraMoving(m.hurdle.mode)
    requires Holding(config, m, inputs, a, b)
    requires s.hurdle == Hurdle.ObserveOnly(config.hurdle, m.hurdle, inputs[b].hurdle, inputs[b].width, inputs[b].height)
    ensures Holding(config, s, inputs, a, b + 1)
  {
    var i := inputs[b];
    HurdleProperties.ObserveFields(config.hurdle, m.hurdle, i.hurdle, i.width, i.height);
    AdvanceRefines(HurdleProperties.WindowsOf(config.hurdle), HurdleProperties.FieldsOf(m.hurdle.tracker),
                   HurdleSeen(config, inputs, a, b), HurdleProperties.SightingOf(config.hurdle, i.hurdle, i.width, i.height));
    hide Refines, Advance, HurdleProperties.SightingOf, HurdleProperties.FieldsOf, Hurdle.ObserveOnly;
  }

  lemma ViewsGrow(views: seq<GoalProperties.View>, view: GoalProperties.View)
    ensures GoalProperties.Boards(views + [view]) == GoalProperties.Boards(views) + [view.board]
    ensures GoalProperties.Poses(views + [view]) == GoalProperties.Poses(views) + [view.pose]
  {
  }

  lemma GoalObserves(config: Config, m: State, s: State, inputs: seq<Input>, a: nat, b: nat)
    requires a <= b < |inputs| && m.active.GoalMission? && s.active == m.active && !Goal.CameraMoving(m.goal.mode)
    requires Holding(config, m, inputs, a, b)
    requires s.goal == Goal.ObserveOnly(config.goal, m.goal, inputs[b].backboard, inputs[b].goalPose, inputs[b].width, inputs[b].height)
    ensures Holding(config, s, inputs, a, b + 1)
  {
    var i, views := inputs[b], GoalSeen(config, inputs, a, b);
    var w, view := GoalProperties.WindowsOf(config.goal), GoalProperties.Look(config.goal, i.backboard, i.goalPose, i.width, i.height);
    GoalProperties.TrackAdvances(config.goal, m.goal.board, m.goal.mode, i.backboard, i.width, i.height);
    GoalProperties.TrackPoseAdvances(config.goal, m.goal.pose, i.backboard, i.goalPose);
    AdvanceRefines(w, GoalProperties.BoardFields(m.goal.board), GoalProperties.Boards(views), view.board);
    AdvanceRefines(w, GoalProperties.PoseFields(m.goal.pose), GoalProperties.Poses(views), view.pose);
    ViewsGrow(views, view);
    hide Refines, Advance, GoalProperties.BoardFields, GoalProperties.PoseFields, Goal.Track, Goal.TrackPose,
         GoalProperties.Boards, GoalProperties.Poses, GoalProperties.BoardSighting, GoalProperties.PoseSighting;
  }

  /** An observing frame adds itself to what the active tracker holds. */
  lemma ObservingHolds(config: Config, m: State, i: Input, s: State, inputs: seq<Input>, a: nat, b: nat)
    requires a <= b < |inputs| && ObservingFrame(config, m, i, s) && ChoosesBySight(m) && Holding(config, m, inputs, a, b)
    requires i == inputs[b].(feedback := i.feedback, guideOverride := i.guideOverride)
    ensures Holding(config, s, inputs, a, b + 1)
  {
    hide Holding, Ball.ObserveOnly, Hurdle.ObserveOnly, Goal.ObserveOnly;
    match m.active {
      case BallMission => BallObserves(config, m, s, inputs, a, b);
      case HurdleMission => HurdleObserves(config, m, s, inputs, a, b);
      case GoalMission => GoalObserves(config, m, s, inputs, a, b);
      case _ =>
    }
  }

  lemma ObservingKeepsModes(config: Config, m: State, i: Input, s: State)
    requires ObservingFrame(config, m, i, s)
    ensures s.active == m.active && s.ball.mode == m.ball.mode && s.hurdle.mode == m.hurdle.mode && s.goal.mode == m.goal.mode
    ensures ChoosesBySight(s) <==> ChoosesBySight(m)
  {
    hide Ball.Track, Hurdle.Track, Goal.Track, Goal.TrackPose;
  }

  // ----- Whole runs -----

  /** What is known before frame b of the gate that frame a opened. */
  ghost predicate Fresh(config: Config, inputs: seq<Input>, steps: seq<Step>, a: nat, b: nat)
    requires a < b <= |inputs| == |steps|
  {
    var m, n := Before(config, steps, a), Before(config, steps, b);
    n.active == m.active && ChoosesBySight(n) && Holding(config, n, inputs, a, b)
  }

  lemma SameModes(m: State, n: State)
    requires SameMission(m, n)
    ensures n.active == m.active && n.ball.mode == m.ball.mode && n.hurdle.mode == m.hurdle.mode && n.goal.mode == m.goal.mode
    ensures ChoosesBySight(n) <==> ChoosesBySight(m)
  {
  }

  lemma HeldFrameObserves(config: Config, m: State, i: Input)
    requires Inv(m) && Allowed(m, i) && !m.coordinator.timedOut && Deferring(AdmittedOf(config, m, i).state)
    ensures Holds(AdmittedOf(config, m, i))
  {
    hide AdmittedOf, OpenGate, Shape, Sync, CoordinatorRuns.WellFormed, Allowed;
    FrameIsAdmitted(config, m, i);
  }

  lemma FirstIsFresh(config: Config, inputs: seq<Input>, steps: seq<Step>, a: nat)
    requires LegalRun(config, inputs, steps) && a < |inputs| && MustLookAgain(config, inputs, steps, a)
    ensures Fresh(config, inputs, steps, a, a + 1)
  {
    hide Mission.Compute, Before, Inv, Allowed, AdmittedOf, OpenGate, ChoosesBySight, Holding, ObservingFrame, FrameOfMission, Forgot,
         HeldSince;
    var m, i := Before(config, steps, a), inputs[a];
    var admitted := AdmittedOf(config, m, i);
    OpensAt(config, inputs, steps, a);
    OpensInFrame(config, inputs, steps, a);
    RunInv(config, inputs, steps, a);
    StepIsTaken(config, inputs, steps, a);
    OpeningForgets(config, m, i);
    AdmittedBase(config, m, i);
    SameModes(m, admitted.state);
    ForgotHolding(config, m, admitted.state, inputs, a);
    DeferringIsAdmitted(config, m, i);
    HeldFrameObserves(config, m, i);
    FrameIsComputed(config, inputs, steps, a);
    ObservingHolds(config, admitted.state, admitted.input, steps[a].state, inputs, a, a);
    ObservingKeepsModes(config, admitted.state, admitted.input, steps[a].state);
  }

  lemma OpensInFrame(config: Config, inputs: seq<Input>, steps: seq<Step>, a: nat)
    requires a < |inputs| == |steps| && HeldSince(config, inputs, steps, a, a + 1)
    ensures !Before(config, steps, a).coordinator.timedOut && !Deferring(Before(config, steps, a))
    ensures Deferring(OpenGate(config, Before(config, steps, a), inputs[a])) && Deferring(Before(config, steps, a + 1))
  {
    hide Before, OpenGate, Deferring;
  }

  /** A frame in which a gate for a DONE opens is held by it. */
  lemma DeferringIsAdmitted(config: Config, m: State, i: Input)
    requires Inv(m) && Allowed(m, i) && !m.coordinator.timedOut && !Deferring(m) && Deferring(OpenGate(config, m, i))
    ensures Deferring(AdmittedOf(config, m, i).state)
  {
    OpensOnDone(config, m, i);
    var n := OpenGate(config, m, i);
    hide OpenGate, Inv, Allowed;
    ObjectGateFrame(config, n.gate, i);
    hide AddToGate, ShouldDeferDone;
  }

  lemma StillDeferring(config: Config, m: State, i: Input)
    requires Inv(m) && !m.coordinator.timedOut && Deferring(m) && Delivered(config, m, i) == StillRunning(m.gate.deferred)
    ensures Deferring(AdmittedOf(config, m, i).state)
  {
    OpenGateDecides(config, m, i);
    GateIsKept(config, m, i);
    hide OpenGate, Inv, AddToGate, EnoughEvidence, AdmittedOf;
  }

  lemma NextIsFresh(config: Config, inputs: seq<Input>, steps: seq<Step>, a: nat, b: nat)
    requires LegalRun(config, inputs, steps) && a < b < |inputs| && HeldSince(config, inputs, steps, a, b + 1)
    requires Fresh(config, inputs, steps, a, b)
    ensures Fresh(config, inputs, steps, a, b + 1)
  {
    hide Mission.Compute, Before, Inv, Allowed, AdmittedOf, OpenGate, ChoosesBySight, Holding, ObservingFrame, FrameOfMission, HeldSince,
         Remembers, Delivered, Seen;
    var m, i := Before(config, steps, b), inputs[b];
    var admitted := AdmittedOf(config, m, i);
    RunInv(config, inputs, steps, b);
    StepIsTaken(config, inputs, steps, b);
    EarlierHeld(config, inputs, steps, a, b);
    WhileHeld(config, inputs, steps, a, b);
    WhileHeld(config, inputs, steps, a, b + 1);
    RememberedDone(config, inputs, steps, a, b);
    StillDeferring(config, m, i);
    OpenGateKeepsTrackers(config, m, i);
    AdmittedBase(config, m, i);
    SameModes(m, admitted.state);
    HoldingMoves(config, m, admitted.state, inputs, a, b);
    HeldFrameObserves(config, m, i);
    FrameIsComputed(config, inputs, steps, b);
    ObservingHolds(config, admitted.state, admitted.input, steps[b].state, inputs, a, b);
    ObservingKeepsModes(config, admitted.state, admitted.input, steps[b].state);
  }

  lemma EarlierHeld(config: Config, inputs: seq<Input>, steps: seq<Step>, a: nat, b: nat)
    requires a < b < |inputs| == |steps| && HeldSince(config, inputs, steps, a, b + 1)
    ensures HeldSince(config, inputs, steps, a, b)
  {
    hide Before, OpenGate, Deferring;
  }

  lemma RememberedDone(config: Config, inputs: seq<Input>, steps: seq<Step>, a: nat, b: nat)
    requires LegalRun(config, inputs, steps) && a < b <= |inputs| && HeldSince(config, inputs, steps, a, b)
    ensures var n := Before(config, steps, b);
            n.gate.deferred == inputs[a].feedback && Deferring(n) && n.gate.active && !n.coordinator.timedOut
  {
    hide Mission.Compute, Before, OpenGate, HeldSince, Seen, Delivered;
    WhileHeld(config, inputs, steps, a, b);
  }

  lemma HoldingMoves(config: Config, m: State, n: State, inputs: seq<Input>, a: nat, b: nat)
    requires a <= b <= |inputs| && Holding(config, m, inputs, a, b)
    requires n.active == m.active && n.ball == m.ball && n.hurdle == m.hurdle && n.goal == m.goal
    ensures Holding(config, n, inputs, a, b)
  {
    hide Refines;
  }

  lemma {:induction false} StaysFresh(config: Config, inputs: seq<Input>, steps: seq<Step>, a: nat, b: nat)
    requires LegalRun(config, inputs, steps) && a < b <= |inputs| && MustLookAgain(config, inputs, steps, a)
    requires forall t :: a <= t < b ==> !LookedEnough(config, Before(config, steps, a).active, inputs, a, t)
    ensures Fresh(config, inputs, steps, a, b) && HeldSince(config, inputs, steps, a, b)
  {
    hide Mission.Compute, Before, LookedEnough, HeldSince, MustLookAgain, LegalRun, Fresh;
    StaysOpen(config, inputs, steps, a, b);
    if b == a + 1 {
      FirstIsFresh(config, inputs, steps, a);
    } else {
      StaysFresh(config, inputs, steps, a, b - 1);
      NextIsFresh(config, inputs, steps, a, b - 1);
    }
  }

  /** The step that this frame's machine takes is the one that these frames call for. */
  ghost predicate DecidedFreshly(config: Config, m: State, admitted: Input, inputs: seq<Input>, a: nat, b: nat)
    requires a <= b <= |inputs|
  {
    match m.active
    case BallMission =>
      BallDecisions.Decided(config.ball, m.ball, BallSeen(config, inputs, a, b), BallInput(admitted, Execution(m.last, admitted.feedback)),
                            BallStep(config, m, admitted))
    case HurdleMission =>
      HurdleDecisions.Decided(config.hurdle, m.hurdle, HurdleSeen(config, inputs, a, b),
                              HurdleInput(admitted, Execution(m.last, admitted.feedback)), HurdleStep(config, m, admitted))
    case GoalMission =>
      var views := GoalSeen(config, inputs, a, b);
      GoalDecisions.Decided(config.goal, m.goal, GoalProperties.Boards(views), GoalProperties.Poses(views),
                            GoalInput(admitted, Execution(m.last, admitted.feedback), false), GoalStep(config, m, admitted, m.goal, false))
    case _ => true
  }

  lemma StepIsFresh(config: Config, m: State, admitted: Input, inputs: seq<Input>, a: nat, b: nat)
    requires a <= b < |inputs| && Holding(config, m, inputs, a, b)
    requires admitted == inputs[b].(feedback := admitted.feedback, guideOverride := admitted.guideOverride)
    ensures DecidedFreshly(config, m, admitted, inputs, a, b + 1)
  {
    hide Refines, BallDecisions.Decided, HurdleDecisions.Decided, GoalDecisions.Decided, Ball.Compute, Hurdle.Compute, Goal.Compute,
         BallProperties.SightingOf, HurdleProperties.SightingOf, GoalProperties.BoardSighting, GoalProperties.PoseSighting, Execution,
         GoalProperties.Boards, GoalProperties.Poses;
    var e := Execution(m.last, admitted.feedback);
    match m.active {
      case BallMission => BallDecisions.StepDecides(config.ball, m.ball, BallSeen(config, inputs, a, b), BallInput(admitted, e));
      case HurdleMission =>
        HurdleDecisions.StepDecides(config.hurdle, m.hurdle, HurdleSeen(config, inputs, a, b), HurdleInput(admitted, e));
      case GoalMission =>
        var views := GoalSeen(config, inputs, a, b);
        var view := GoalProperties.Look(config.goal, inputs[b].backboard, inputs[b].goalPose, inputs[b].width, inputs[b].height);
        ViewsGrow(views, view);
        GoalDecisions.StepDecides(config.goal, m.goal, GoalProperties.Boards(views), GoalProperties.Poses(views),
                                  GoalInput(admitted, e, false));
      case _ =>
    }
  }

  /** After a motion whose successor is chosen by sight, the first frame that decides is
      the first one in which the robot has looked enough, and it decides on exactly the
      frames since the motion ended: nothing seen while moving counts. */
  lemma DecidesOnFreshFrames(config: Config, inputs: seq<Input>, steps: seq<Step>, a: nat, b: nat)
    requires LegalRun(config, inputs, steps) && a < b < |inputs| && MustLookAgain(config, inputs, steps, a)
    requires forall t :: a <= t < b ==> !LookedEnough(config, Before(config, steps, a).active, inputs, a, t)
    requires LookedEnough(config, Before(config, steps, a).active, inputs, a, b)
    ensures var admitted := AdmittedOf(config, Before(config, steps, b), inputs[b]);
            && !Holds(admitted) && admitted.input.feedback == inputs[a].feedback
            && FrameOfMission(config, admitted.state, admitted.input, steps[b].state)
            && DecidedFreshly(config, admitted.state, admitted.input, inputs, a, b + 1)
  {
    hide Mission.Compute, Before, LookedEnough, HeldSince, MustLookAgain, AdmittedOf, FrameOfMission, ObservingFrame, DecidedFreshly,
         Holding, Inv, Allowed, ChoosesBySight, OpenGate;
    var m, i := Before(config, steps, b), inputs[b];
    var admitted := AdmittedOf(config, m, i);
    StaysFresh(config, inputs, steps, a, b);
    HeldFrameDecides(config, inputs, steps, a, b);
    RememberedDone(config, inputs, steps, a, b);
    RunInv(config, inputs, steps, b);
    StepIsTaken(config, inputs, steps, b);
    OpenGateKeepsTrackers(config, m, i);
    AdmittedBase(config, m, i);
    HoldingMoves(config, m, admitted.state, inputs, a, b);
    HandedOver(config, m, i);
    FrameIsComputed(config, inputs, steps, b);
    StepIsFresh(config, admitted.state, admitted.input, inputs, a, b);
  }

  lemma HandedOver(config: Config, m: State, i: Input)
    requires Delivered(config, m, i).done
    ensures !Holds(AdmittedOf(config, m, i))
  {
    AdmittedBase(config, m, i);
    hide AdmittedOf, SameMission;
  }
}
