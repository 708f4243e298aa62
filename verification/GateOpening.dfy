/** The opening side of the post-motion gate: which DONE is withheld, and that nothing
    is decided before the robot has looked again. */
module GateOpening {
  import opened Types
  import opened SlidingWindow
  import opened CommandCoordinator
  import opened CoordinatorRuns
  import opened Mission
  import opened MissionMoves
  import opened MissionSync
  import opened MissionInvariant
  import opened MissionRuns
  import opened DeferredDone
  import Ball = BallController
  import Hurdle = HurdleController
  import Goal = GoalController

  /** The modes in which an object mission chooses its next motion by what it sees. */
  predicate ChoosesBySight(m: State) {
    match m.active
    case BallMission => m.ball.mode in {Ball.Approach, Ball.FineAdjust, Ball.RecoveryForward, Ball.RecoveryDown}
    case HurdleMission => m.hurdle.mode in {Hurdle.Approach, Hurdle.RecoveryForward}
    case GoalMission => m.goal.mode in {Goal.Search, Goal.Approach, Goal.FineAdjust, Goal.RecoverySearch}
    case _ => false
  }

  /** DONE of the last command, with nothing that would keep a gate from opening. */
  predicate EndsMotion(config: Config, m: State, i: Input) {
    && !m.gate.active && !m.coordinator.timedOut && config.postMotionObservationSec > 0.0
    && i.feedback.done && i.feedback.actionId == m.last.actionId != 0
  }

  // ----- Which DONE is deferred -----

  lemma EndsTheOneLoad(c: CoordinatorState, last: ControlCommand, feedback: DeliveryFeedback)
    requires WellFormed(c) && Linked(c, last) && Legal(c, feedback) && feedback.done && feedback.actionId == last.actionId != 0
    ensures var load := LoadOf(c); load.One? && last.mission == load.mission && Carries(last, load.request)
  {
  }

  lemma BallDefers(config: Config, m: State, i: Input)
    requires m.active.BallMission? && EndsMotion(config, m, i) && m.results.ball.mode == m.ball.mode && !m.ball.mode.LineFollow?
    requires var load := LoadOf(m.coordinator);
             && load.One? && m.last.mission == load.mission && Carries(m.last, load.request)
             && BallSync(m.ball.mode, load, m.coordinator.suppressed)
    ensures ShouldDeferDone(config, m, i.feedback) <==> ChoosesBySight(m)
  {
  }

  lemma HurdleDefers(config: Config, m: State, i: Input)
    requires m.active.HurdleMission? && EndsMotion(config, m, i) && m.results.hurdle.mode == m.hurdle.mode && !m.hurdle.mode.LineFollow?
    requires var load := LoadOf(m.coordinator);
             && load.One? && m.last.mission == load.mission && Carries(m.last, load.request)
             && HurdleSync(m.hurdle.mode, load, m.coordinator.suppressed)
    ensures ShouldDeferDone(config, m, i.feedback) <==> ChoosesBySight(m)
  {
  }

  lemma GoalDefers(config: Config, m: State, i: Input)
    requires m.active.GoalMission? && EndsMotion(config, m, i) && m.results.goal.mode == m.goal.mode && !m.goal.mode.LineFollow?
    requires var load := LoadOf(m.coordinator);
             && load.One? && m.last.mission == load.mission && Carries(m.last, load.request)
             && GoalSync(m.goal.mode, load, m.coordinator.suppressed)
    ensures ShouldDeferDone(config, m, i.feedback) <==> ChoosesBySight(m)
  {
  }

  lemma InvOf(m: State)
    requires Inv(m) && !m.coordinator.timedOut
    ensures WellFormed(m.coordinator) && Linked(m.coordinator, m.last) && InStep(m) && Shape(ProfileOf(m), m.results)
  {
    hide Shape, InSync, LoadOf, WellFormed, Linked;
  }

  lemma InStepIs(m: State)
    requires InStep(m) && Shape(ProfileOf(m), m.results)
    ensures var load, suppressed := LoadOf(m.coordinator), m.coordinator.suppressed;
            match m.active
            case BallMission =>
              m.results.ball.mode == m.ball.mode && !m.ball.mode.LineFollow? && BallSync(m.ball.mode, load, suppressed)
            case HurdleMission =>
              m.results.hurdle.mode == m.hurdle.mode && !m.hurdle.mode.LineFollow? && HurdleSync(m.hurdle.mode, load, suppressed)
            case GoalMission =>
              m.results.goal.mode == m.goal.mode && !m.goal.mode.LineFollow? && GoalSync(m.goal.mode, load, suppressed)
            case _ => m.active.LineMission?
  {
    hide LoadOf, BallSync, HurdleSync, GoalSync, LineSync;
  }

  lemma DefersIff(config: Config, m: State, i: Input)
    requires Inv(m) && Allowed(m, i) && EndsMotion(config, m, i)
    ensures ShouldDeferDone(config, m, i.feedback) <==> ChoosesBySight(m)
  {
    hide Shape, InStep, Inv, WellFormed, Linked, LoadOf, BallSync, HurdleSync, GoalSync, ShouldDeferDone, ChoosesBySight, ProfileOf, Legal;
    InvOf(m);
    InStepIs(m);
    EndsTheOneLoad(m.coordinator, m.last, i.feedback);
    match m.active {
      case LineMission => NoChoiceOnLine(m); LineWalksPass(config, m, i.feedback);
      case BallMission => BallDefers(config, m, i);
      case HurdleMission => HurdleDefers(config, m, i);
      case GoalMission => GoalDefers(config, m, i);
      case NoMission =>
    }
  }

  lemma NoChoiceOnLine(m: State)
    requires m.active.LineMission?
    ensures !ChoosesBySight(m)
  {
  }

  // ----- One frame -----

  /** The camera has just settled on the floor or on the goal. */
  predicate Settles(previous: CameraFeedback, camera: CameraFeedback) {
    && camera.settled && camera.actualMode in {DownView, GoalView}
    && (!previous.settled || previous.actualMode == TransitionView)
  }

  /** What the gate lets through of this DONE. */
  function LetThrough(config: Config, m: State, i: Input): DeliveryFeedback {
    if Settles(m.previousCamera, i.camera) then
      if config.postMotionObservationSec <= EPSILON && m.active in {LineMission, HurdleMission} then i.feedback else NO_FEEDBACK
    else if ChoosesBySight(m) then DeliveryFeedback(i.feedback.actionId, true, false, false)
    else i.feedback
  }

  lemma SettlingFrame(config: Config, m: State, i: Input)
    requires EndsMotion(config, m, i) && Settles(m.previousCamera, i.camera) && !m.active.NoMission?
    ensures AdmittedOf(config, m, i).input.feedback == LetThrough(config, m, i)
  {
    hide ShouldDeferDone, AddToGate, ChoosesBySight, Count;
  }

  lemma QuietFrame(config: Config, m: State, i: Input)
    requires EndsMotion(config, m, i) && !Settles(m.previousCamera, i.camera)
    requires ShouldDeferDone(config, m, i.feedback) <==> ChoosesBySight(m)
    ensures Deferring(OpenGate(config, m, i)) <==> ChoosesBySight(m)
    ensures !ChoosesBySight(m) ==> AdmittedOf(config, m, i).input.feedback == i.feedback
  {
    SameDecision(config, m, i);
    hide ShouldDeferDone, AddToGate, ChoosesBySight, Count, GateReady;
  }

  lemma MissionIsActive(m: State)
    requires Inv(m)
    ensures !m.active.NoMission?
  {
    hide Sync, WellFormed, GateHolds;
  }

  lemma LetsThrough(config: Config, m: State, i: Input)
    requires Inv(m) && Allowed(m, i) && EndsMotion(config, m, i)
    ensures Delivered(config, m, i) == LetThrough(config, m, i)
    ensures !Settles(m.previousCamera, i.camera) ==> (Deferring(OpenGate(config, m, i)) <==> ChoosesBySight(m))
  {
    hide Inv, AdmittedOf, Mission.Compute, OpenGate, ChoosesBySight, Allowed, ShouldDeferDone;
    MissionIsActive(m);
    DefersIff(config, m, i);
    if Settles(m.previousCamera, i.camera) {
      SettlingFrame(config, m, i);
    } else {
      QuietFrame(config, m, i);
      if ChoosesBySight(m) { OpeningFrame(config, m, i); }
    }
  }

  // ----- Whole runs -----

  lemma AdmittedRemembersCamera(config: Config, m: State, i: Input)
    ensures AdmittedOf(config, m, i).state.previousCamera == i.camera
  {
    hide ShouldDeferDone, AddToGate, GateReady, GateGuide;
  }

  lemma HoldKeepsCamera(config: Config, m: State, i: Input)
    ensures HoldFrame(config, m, i).state.previousCamera == m.previousCamera
  {
    hide CommandCoordinator.Compute, Ball.ObserveOnly, Hurdle.ObserveOnly, Goal.ObserveOnly;
  }

  lemma MissionKeepsCamera(config: Config, m: State, i: Input, hold: bool)
    requires Shape(ProfileOf(m), m.results)
    ensures MissionFrame(config, m, i, hold).state.previousCamera == m.previousCamera
  {
    hide Dispatch, CommandCoordinator.Compute, RequestIn, CameraOf, ExecutionOf, Shape, DispatchMoves, LineOutOf, ProfileOf, ForgetReady;
    var n := m.(gate := m.gate.(firstFrame := false));
    ProfileIgnoresGate(m, n);
    DispatchIsMove(config, n, i, ExecutionOf(n.last, i.feedback));
  }

  lemma FrameRemembersCamera(config: Config, m: State, i: Input)
    requires Base(m)
    ensures Mission.Compute(config, m, i).state.previousCamera == i.camera
  {
    hide AdmittedOf, Mission.Compute, HoldFrame, MissionFrame, Shape, Linked, WellFormed, ProfileOf;
    FrameIs(config, m, i);
    AdmittedRemembersCamera(config, m, i);
    AdmittedBase(config, m, i);
    var a := AdmittedOf(config, m, i);
    if Holds(a) { HoldKeepsCamera(config, a.state, a.input); } else { MissionKeepsCamera(config, a.state, a.input, a.hold); }
  }

  /** The camera as the frame before k showed it. */
  function CameraBefore(inputs: seq<Input>, k: nat): CameraFeedback
    requires k <= |inputs|
  {
    if k == 0 then CameraFeedback(ForwardView, true) else inputs[k - 1].camera
  }

  lemma RemembersCamera(config: Config, inputs: seq<Input>, steps: seq<Step>, k: nat)
    requires IsRun(config, inputs, steps) && k <= |inputs|
    ensures Before(config, steps, k).previousCamera == CameraBefore(inputs, k)
  {
    hide Mission.Compute, Base, Before;
    if k == 0 {
      BeforeStart(config, steps);
      StartsForward(config);
    } else {
      RunBase(config, inputs, steps, k - 1);
      RunStep(config, inputs, steps, k - 1);
      FrameRemembersCamera(config, Before(config, steps, k - 1), inputs[k - 1]);
    }
  }

  lemma StartsForward(config: Config)
    ensures Mission.Initial(config).previousCamera == CameraFeedback(ForwardView, true)
  {
  }

  /** Which DONE of the last command is withheld, over every legal run. Unless the camera
      settles in the same frame: exactly one that ends a motion in a mode that chooses
      the next motion by sight, and the missions and the coordinator are told that the
      action still runs. If the camera settles, no feedback gets through at all, unless
      the observation time is within rounding of zero and LINE or HURDLE is active. */
  lemma WithheldIff(config: Config, inputs: seq<Input>, steps: seq<Step>, k: nat)
    requires LegalRun(config, inputs, steps) && k < |inputs| && EndsMotion(config, Before(config, steps, k), inputs[k])
    ensures var m, i := Before(config, steps, k), inputs[k];
            var settles := Settles(CameraBefore(inputs, k), i.camera);
            && (settles ==> Delivered(config, m, i)
                            == if config.postMotionObservationSec <= EPSILON && m.active in {LineMission, HurdleMission} then i.feedback
                               else NO_FEEDBACK)
            && (!settles ==> Delivered(config, m, i)
                             == if ChoosesBySight(m) then DeliveryFeedback(i.feedback.actionId, true, false, false) else i.feedback)
  {
    hide Mission.Compute, Inv, Before, Allowed, Delivered, EndsMotion, ChoosesBySight;
    RunInv(config, inputs, steps, k);
    StepIsTaken(config, inputs, steps, k);
    RemembersCamera(config, inputs, steps, k);
    LetsThrough(config, Before(config, steps, k), inputs[k]);
  }

  // ----- After an ACK timeout -----

  /** After an ACK timeout the missions move on with the frozen action still named; its DONE
      may be deferred unless it is a LINE walk that LINE does not wait for, a camera motion
      has been decided on, or the action has a fixed successor. */
  predicate FrozenIsDeferred(m: State) {
    var action, mission := m.last.action, m.last.mission;
    && !(m.active == mission == LineMission
         && (action in {StepForwardFive, StepForwardLeft, StepForwardRight} || !m.line.fsm.mode.Normal?))
    && !(m.active == BallMission && m.ball.mode == Ball.WaitCameraDown)
    && !(m.active == HurdleMission && m.hurdle.mode == Hurdle.WaitCameraDown)
    && !(m.active == GoalMission && m.goal.mode == Goal.WaitCameraGoal)
    && action !in {PickBall, Recatch, DefaultPosition, Shoot}
    && !(mission == BallMission && action == StepBack && m.results.ball.mode == Ball.BackAway)
    && !(mission == HurdleMission && action in {StepForwardOne, CrossHurdle})
  }

  lemma FrozenDefersIff(config: Config, m: State, feedback: DeliveryFeedback)
    requires Shape(ProfileOf(m), m.results)
    requires config.postMotionObservationSec > 0.0 && feedback.done && feedback.actionId == m.last.actionId != 0
    ensures ShouldDeferDone(config, m, feedback) <==> FrozenIsDeferred(m)
  {
  }

  lemma DeferredFrame(config: Config, m: State, i: Input)
    requires !m.gate.active && !Settles(m.previousCamera, i.camera) && !m.active.NoMission?
    requires config.postMotionObservationSec > 0.0 && i.feedback.done && i.feedback.actionId != 0
    ensures AdmittedOf(config, m, i).input.feedback
         == if !ShouldDeferDone(config, m, i.feedback)
               || (m.active.LineMission? && config.postMotionObservationSec <= EPSILON) then i.feedback
            else DeliveryFeedback(i.feedback.actionId, true, false, false)
  {
    SameDecision(config, m, i);
    OneHitIsFew(config, NO_GATE.(active := true, firstFrame := true, mission := m.active, startSec := i.nowSec, deferred := i.feedback), i);
    hide ShouldDeferDone, AddToGate, Count;
  }

  lemma OneHitIsFew(config: Config, g: Gate, i: Input)
    requires g.hits == [] && g.active && !g.cameraOnly
    ensures var g' := AddToGate(config, g, i);
            && g' == g.(frames := g'.frames, hits := g'.hits, lineValid := g'.lineValid, offsetSum := g'.offsetSum,
                        headingSum := g'.headingSum, confidenceSum := g'.confidenceSum)
            && |g'.hits| <= 1
  {
    AddToGateKeeps(config, g, i);
  }

  /** After an ACK timeout, over every run: with no gate open and unless the camera settles,
      DONE of the frozen action is withheld exactly if it may be deferred, except from LINE
      with an observation time within rounding of zero. */
  lemma WithheldOnceFrozen(config: Config, inputs: seq<Input>, steps: seq<Step>, k: nat)
    requires IsRun(config, inputs, steps) && k < |inputs|
    requires var m, i := Before(config, steps, k), inputs[k];
             && m.coordinator.timedOut && !m.gate.active && config.postMotionObservationSec > 0.0
             && i.feedback.done && i.feedback.actionId == m.last.actionId != 0 && !Settles(CameraBefore(inputs, k), i.camera)
    ensures var m, i := Before(config, steps, k), inputs[k];
            Delivered(config, m, i)
            == if !FrozenIsDeferred(m) || (m.active.LineMission? && config.postMotionObservationSec <= EPSILON) then i.feedback
               else DeliveryFeedback(i.feedback.actionId, true, false, false)
  {
    hide Mission.Compute, Before, AdmittedOf, ShouldDeferDone, FrozenIsDeferred, Shape, Linked, WellFormed, ProfileOf;
    var m, i := Before(config, steps, k), inputs[k];
    RunBase(config, inputs, steps, k);
    RemembersCamera(config, inputs, steps, k);
    MirroredMission(m);
    FrozenDefersIff(config, m, i.feedback);
    DeferredFrame(config, m, i);
  }

  lemma MirroredMission(m: State)
    requires Shape(ProfileOf(m), m.results)
    ensures !m.active.NoMission?
  {
  }

  // ----- Nothing is decided before the robot has looked again -----

  /** Frame a ends a motion whose successor is chosen by sight. */
  ghost predicate MustLookAgain(config: Config, inputs: seq<Input>, steps: seq<Step>, a: nat)
    requires a < |inputs| == |steps|
  {
    && EndsMotion(config, Before(config, steps, a), inputs[a]) && ChoosesBySight(Before(config, steps, a))
    && !Settles(CameraBefore(inputs, a), inputs[a].camera)
  }

  /** What an open gate has seen by now: how long, and the object in 7 of the last 10 frames. */
  function Shows(mission: MissionType, i: Input): bool {
    match mission
    case BallMission => i.ball.Some?
    case HurdleMission => i.hurdle.Some?
    case GoalMission => i.backboard.Some?
    case _ => false
  }

  function SeenSince(mission: MissionType, inputs: seq<Input>, a: nat, b: nat): seq<bool>
    requires a <= b <= |inputs|
  {
    seq(b - a, k requires 0 <= k < b - a => Shows(mission, inputs[a + k]))
  }

  ghost predicate LookedEnough(config: Config, mission: MissionType, inputs: seq<Input>, a: nat, j: nat)
    requires a <= j < |inputs|
  {
    && inputs[j].nowSec - inputs[a].nowSec + EPSILON >= config.postMotionObservationSec
    && j + 1 - a >= 10 && Count(SeenSince(mission, inputs, j - 9, j + 1)) >= 7
  }

  lemma ShowsIs(mission: MissionType, i: Input)
    ensures GateDetects(mission, i) == Shows(mission, i)
  {
  }

  lemma LastTen(mission: MissionType, inputs: seq<Input>, a: nat, b: nat)
    requires a <= b <= |inputs| && b - a >= 10
    ensures LastN(SeenSince(mission, inputs, a, b), 10) == SeenSince(mission, inputs, b - 10, b)
  {
    hide Shows;
  }

  lemma SeenIsSeenSince(mission: MissionType, inputs: seq<Input>, a: nat, b: nat)
    requires a <= b <= |inputs|
    ensures Seen(mission, inputs, a, b) == SeenSince(mission, inputs, a, b)
    ensures b - a >= 10 ==> LastN(Seen(mission, inputs, a, b), 10) == SeenSince(mission, inputs, b - 10, b)
  {
    hide GateDetects, Shows, LastN;
    forall k | 0 <= k < b - a
      ensures Seen(mission, inputs, a, b)[k] == SeenSince(mission, inputs, a, b)[k]
    {
      ShowsIs(mission, inputs[a + k]);
    }
    if b - a >= 10 { LastTen(mission, inputs, a, b); }
  }

  /** The gate that remembers what was seen from frame a on decides by LookedEnough. */
  lemma EvidenceIsLooking(config: Config, m: State, n: State, inputs: seq<Input>, a: nat, j: nat)
    requires a < j < |inputs| && Remembers(m, n, inputs[a].feedback, inputs[a].nowSec, Seen(m.active, inputs, a, j))
    ensures var g := n.gate.(frames := n.gate.frames + 1, hits := Push(n.gate.hits, GateDetects(n.gate.mission, inputs[j]), GATE_WINDOW));
            EnoughEvidence(config, g, inputs[j].nowSec) <==> LookedEnough(config, m.active, inputs, a, j)
  {
    hide Count, SeenSince, Seen, GateDetects;
    PushLastN(Seen(m.active, inputs, a, j), GateDetects(m.active, inputs[j]), GATE_WINDOW);
    SeenGrows(m.active, inputs, a, j);
    SeenLength(m.active, inputs, a, j + 1);
    SeenIsSeenSince(m.active, inputs, a, j + 1);
  }

  lemma OpensAt(config: Config, inputs: seq<Input>, steps: seq<Step>, a: nat)
    requires LegalRun(config, inputs, steps) && a < |inputs| && MustLookAgain(config, inputs, steps, a)
    ensures HeldSince(config, inputs, steps, a, a + 1)
  {
    hide Mission.Compute, Inv, Before, Allowed, Delivered, ChoosesBySight, OpenGate;
    RunInv(config, inputs, steps, a);
    StepIsTaken(config, inputs, steps, a);
    RemembersCamera(config, inputs, steps, a);
    LetsThrough(config, Before(config, steps, a), inputs[a]);
    OpeningFrame(config, Before(config, steps, a), inputs[a]);
  }

  lemma HeldLonger(config: Config, inputs: seq<Input>, steps: seq<Step>, a: nat, b: nat)
    requires a < b < |inputs| == |steps| && HeldSince(config, inputs, steps, a, b) && Deferring(Before(config, steps, b + 1))
    ensures HeldSince(config, inputs, steps, a, b + 1)
  {
    hide Mission.Compute, Before, OpenGate, Deferring;
  }

  /** A frame of the open gate: it closes exactly on LookedEnough. */
  lemma HeldFrameDecides(config: Config, inputs: seq<Input>, steps: seq<Step>, a: nat, j: nat)
    requires LegalRun(config, inputs, steps) && a < j < |inputs| && HeldSince(config, inputs, steps, a, j)
    ensures if LookedEnough(config, Before(config, steps, a).active, inputs, a, j) then
              && Delivered(config, Before(config, steps, j), inputs[j]) == inputs[a].feedback
              && TakesDone(Before(config, steps, j).coordinator, inputs[a].feedback)
            else HeldSince(config, inputs, steps, a, j + 1)
  {
    hide Mission.Compute, Inv, Before, Allowed, Delivered, LookedEnough, EnoughEvidence, HeldSince, Seen, Push, Count,
         GateDetects, Deferring;
    WhileHeld(config, inputs, steps, a, j);
    RunInv(config, inputs, steps, j);
    StepIsTaken(config, inputs, steps, j);
    NotFrozen(config, inputs, steps, a, j);
    OpenFrame(config, Before(config, steps, j), inputs[j]);
    EvidenceIsLooking(config, Before(config, steps, a), Before(config, steps, j), inputs, a, j);
    if !LookedEnough(config, Before(config, steps, a).active, inputs, a, j) { HeldLonger(config, inputs, steps, a, j); }
  }

  lemma NotFrozen(config: Config, inputs: seq<Input>, steps: seq<Step>, a: nat, b: nat)
    requires LegalRun(config, inputs, steps) && a < b <= |inputs| && HeldSince(config, inputs, steps, a, b)
    ensures !Before(config, steps, b).coordinator.timedOut && Deferring(Before(config, steps, b))
  {
    hide Mission.Compute, Before, OpenGate, Deferring, Seen;
    WhileHeld(config, inputs, steps, a, b);
  }

  lemma {:induction false} StaysOpen(config: Config, inputs: seq<Input>, steps: seq<Step>, a: nat, j: nat)
    requires LegalRun(config, inputs, steps) && a < j <= |inputs| && MustLookAgain(config, inputs, steps, a)
    requires forall t :: a <= t < j ==> !LookedEnough(config, Before(config, steps, a).active, inputs, a, t)
    ensures HeldSince(config, inputs, steps, a, j)
  {
    hide Mission.Compute, Before, LookedEnough, HeldSince, MustLookAgain, LegalRun;
    if j == a + 1 {
      OpensAt(config, inputs, steps, a);
    } else {
      StaysOpen(config, inputs, steps, a, j - 1);
      HeldFrameDecides(config, inputs, steps, a, j - 1);
    }
  }

  /** Until the robot has looked long enough, and long enough at the object, nothing is
      decided: up to the first frame in which at least 7 of the last 10 frames since
      frame a show it and the observation time has passed, no identifier is allocated
      and the action stays the pending one; in that frame its DONE is handed over. */
  lemma NothingBeforeLooking(config: Config, inputs: seq<Input>, steps: seq<Step>, a: nat, j: nat)
    requires LegalRun(config, inputs, steps) && a <= j < |inputs| && MustLookAgain(config, inputs, steps, a)
    requires forall t :: a <= t < j ==> !LookedEnough(config, Before(config, steps, a).active, inputs, a, t)
    ensures if LookedEnough(config, Before(config, steps, a).active, inputs, a, j) then
              && Delivered(config, Before(config, steps, j), inputs[j]) == inputs[a].feedback
              && TakesDone(Before(config, steps, j).coordinator, inputs[a].feedback)
            else HoldsBackAt(config, inputs, steps, a, j)
  {
    hide Mission.Compute, Before, LookedEnough, HeldSince, MustLookAgain, Delivered, TakesDone, HoldsBackAt;
    if j == a {
      TooEarly(config, Before(config, steps, a).active, inputs, a);
    } else {
      StaysOpen(config, inputs, steps, a, j);
      HeldFrameDecides(config, inputs, steps, a, j);
    }
    if !LookedEnough(config, Before(config, steps, a).active, inputs, a, j) {
      StaysOpen(config, inputs, steps, a, j + 1);
      HeldHoldsBack(config, inputs, steps, a, j);
    }
  }

  lemma TooEarly(config: Config, mission: MissionType, inputs: seq<Input>, a: nat)
    requires a < |inputs|
    ensures !LookedEnough(config, mission, inputs, a, a)
  {
  }

  lemma HeldHoldsBack(config: Config, inputs: seq<Input>, steps: seq<Step>, a: nat, j: nat)
    requires LegalRun(config, inputs, steps) && a <= j < |inputs| && HeldSince(config, inputs, steps, a, j + 1)
    ensures HoldsBackAt(config, inputs, steps, a, j)
  {
    hide Mission.Compute, Before, HeldSince, Delivered, Seen;
    WhileHeld(config, inputs, steps, a, j + 1);
  }
}
