/** What an ACK timeout leaves of the agreement between the modes and what is in
    flight. The coordinator is frozen for good, but the missions still see the DONE
    reports of the frozen action. */
module MissionFrozen {
  import opened Types
  import opened CommandCoordinator
  import opened CoordinatorRuns
  import opened Mission
  import opened MissionMoves
  import opened MissionSync
  import opened MissionInvariant
  import opened MissionRuns
  import Ball = BallController
  import Goal = GoalController

  // ----- One frame -----

  /** The missions are told that the action of the last command is done. */
  predicate DoneAdmitted(config: Config, m: State, i: Input) { ExecutionOf(m.last, Delivered(config, m, i)).done }

  /** Both commands name the same action. */
  predicate SameAction(last: ControlCommand, last': ControlCommand) {
    && last'.actionId == last.actionId && last'.mission == last.mission
    && last'.action == last.action && last'.category == last.category
  }

  /** Where BALL can be once DONE of the frozen action has been seen. No further step
      of its sequence is entered by that action's own DONE. */
  predicate BallDrifted(mode: Ball.Mode, last: ControlCommand) {
    var mission, action := last.mission, last.action;
    match mode
    case Pickup => false
    case VerifyPickup => mission.BallMission? && action.PickBall?
    case VerifyObservation => mission.BallMission? && (action.PickBall? || action.Recatch?)
    case StandUp => mission.BallMission? && (action.PickBall? || action.Recatch?)
    case BackAway => mission.BallMission? && (action.PickBall? || action.Recatch? || action.DefaultPosition?)
    case ReturnCamera => mission.BallMission?
    case LineRecovery => mission.BallMission?
    case _ => true
  }

  predicate GoalDrifted(mode: Goal.Mode, last: ControlCommand) {
    !mode.Shooting? && (mode.ReturnCamera? || mode.HeadingRecovery? ==> last.mission.GoalMission?)
  }

  predicate Drifted(p: Profile, last: ControlCommand) {
    match p.active
    case BallMission => BallDrifted(p.ball, last)
    case GoalMission => GoalDrifted(p.goal, last)
    case _ => true
  }

  /** Something is in flight; if it is one action, the command names it. */
  predicate Names(last: ControlCommand, load: Load) {
    !load.Empty? && (load.One? ==> last.mission == load.mission && Carries(last, load.request))
  }

  lemma BallDrifts(p: Profile, r: Results, e: ActionExecution, out: LineOut, p': Profile, r': Results, last: ControlCommand,
                   load: Load, suppressed: MissionAction)
    requires p.active.BallMission? && Shape(p, r) && BallMissionMoves(p, e, out, p', r') && !Free(e)
    requires Drifted(p, last) || (e.done && InSync(p, load, suppressed) && Names(last, load))
    ensures Drifted(p', last)
  {
  }

  lemma GoalDrifts(p: Profile, r: Results, e: ActionExecution, out: LineOut, p': Profile, r': Results, last: ControlCommand,
                   load: Load, suppressed: MissionAction)
    requires p.active.GoalMission? && Shape(p, r) && GoalMissionMoves(p, e, out, p', r') && !Free(e)
    requires Drifted(p, last) || (e.done && InSync(p, load, suppressed) && Names(last, load))
    ensures Drifted(p', last)
  {
  }

  /** Any move that sees the frozen action run or end leaves the missions where they
      can drift to. */
  lemma MoveDrifts(p: Profile, r: Results, e: ActionExecution, out: LineOut, p': Profile, r': Results, lineRequest: ActionRequest,
                   last: ControlCommand, load: Load, suppressed: MissionAction)
    requires Shape(p, r) && DispatchMoves(p, e, out, p', r', lineRequest) && !Free(e)
    requires Drifted(p, last) || (e.done && InSync(p, load, suppressed) && Names(last, load))
    ensures Drifted(p', last)
  {
    if p.active.BallMission? { BallDrifts(p, r, e, out, p', r', last, load, suppressed); }
    if p.active.GoalMission? { GoalDrifts(p, r, e, out, p', r', last, load, suppressed); }
    hide InSync;
  }

  lemma FrozenConclude(config: Config, m: State, i: Input, request: ActionRequest, camera: CameraRequest)
    requires m.coordinator.timedOut
    ensures var out := Conclude(config, m, i, request, camera);
            && out.state == m.(last := out.command)
            && out.command == FrozenCommand(m.coordinator, camera)
  {
    TimedOutStep(config.command, m.coordinator, FrameOf(m, i, request, camera));
    hide CommandCoordinator.Compute, FrozenCommand;
  }

  lemma FrozenNames(c: CoordinatorState, last: ControlCommand, camera: CameraRequest)
    requires WellFormed(c) && c.timedOut && Linked(c, last)
    ensures SameAction(last, FrozenCommand(c, camera)) && last.actionId != 0 && Names(last, LoadOf(c))
  {
  }

  /** A frame with a frozen coordinator: the command names the same action, and the
      missions stay in step until they see its DONE, and drift from then on. */
  ghost predicate Freezes(m: State, feedback: DeliveryFeedback, s: Step) {
    && s.state.coordinator == m.coordinator && SameAction(m.last, s.state.last)
    && (Drifted(ProfileOf(m), m.last) || (InStep(m) && ExecutionOf(m.last, feedback).done) ==> Drifted(ProfileOf(s.state), s.state.last))
  }

  lemma SameDrift(p: Profile, last: ControlCommand, last': ControlCommand)
    requires SameAction(last, last') && Drifted(p, last)
    ensures Drifted(p, last')
  {
  }

  lemma MissionFrameFreezes(config: Config, m: State, i: Input, hold: bool)
    requires WellFormed(m.coordinator) && Shape(ProfileOf(m), m.results) && Linked(m.coordinator, m.last) && m.coordinator.timedOut
    ensures Freezes(m, i.feedback, MissionFrame(config, m, i, hold))
  {
    hide Dispatch, Shape, Linked, WellFormed, ExecutionOf, DispatchMoves, LineOutOf, RequestOf, CameraOf, RequestIn, Conclude, ProfileOf,
         ForgetReady, FrozenCommand, Drifted, InSync, LoadOf, Names, SameAction;
    var n := m.(gate := m.gate.(firstFrame := false));
    ProfileIgnoresGate(m, n);
    var e := ExecutionOf(n.last, i.feedback);
    var d := Dispatch(config, n, i, e);
    DispatchIsMove(config, n, i, e);
    var camera := if hold then NoCamera else CameraOf(d.state.active, d.state.results);
    FrozenConclude(config, d.state, i, RequestIn(d, i, hold), camera);
    var out := Conclude(config, d.state, i, RequestIn(d, i, hold), camera);
    ProfileOfOutcome(d.state, out.command, i);
    FrozenNames(m.coordinator, m.last, camera);
    NeverFree(m.last, i.feedback);
    var p, p' := ProfileOf(n), ProfileOf(d.state);
    if Drifted(p, m.last) || (InStep(m) && e.done) {
      MoveDrifts(p, m.results, e, LineOutOf(config, n, i), p', d.state.results, d.lineRequest, m.last, LoadOf(m.coordinator),
                 m.coordinator.suppressed);
      SameDrift(p', m.last, out.command);
    }
  }

  lemma ProfileOfOutcome(d: State, last: ControlCommand, i: Input)
    ensures ProfileOf(d.(last := last).(line := ForgetReady(d.line, i))) == ProfileOf(d)
  {
  }

  lemma NeverFree(last: ControlCommand, feedback: DeliveryFeedback)
    requires last.actionId != 0
    ensures !Free(ExecutionOf(last, feedback))
  {
  }

  lemma HoldFrameFreezes(config: Config, m: State, i: Input)
    requires WellFormed(m.coordinator) && Linked(m.coordinator, m.last) && m.coordinator.timedOut && !i.feedback.done
    ensures Freezes(m, i.feedback, HoldFrame(config, m, i))
  {
    hide ObserveActive, Conclude, Linked, WellFormed, LoadOf, Names, FrozenCommand, Drifted, SameAction, InSync;
    var n := ObserveActive(config, m, i);
    ObserveActiveSame(config, m, i);
    FrozenConclude(config, n, i, NO_REQUEST, NoCamera);
    FrozenNames(m.coordinator, m.last, NoCamera);
    ConcludeKeepsGate(config, n, i, NO_REQUEST, NoCamera);
    hide ProfileOf;
    if Drifted(ProfileOf(m), m.last) { SameDrift(ProfileOf(m), m.last, FrozenCommand(m.coordinator, NoCamera)); }
  }

  lemma FrameFreezes(config: Config, m: State, i: Input)
    requires Inv(m) && Allowed(m, i) && m.coordinator.timedOut
    ensures Freezes(m, Delivered(config, m, i), Mission.Compute(config, m, i))
  {
    hide OpenGate, PassGate, Shape, WellFormed, HoldFrame, MissionFrame, Linked, InSync, Drifted, SameAction, GateHolds, LoadOf,
         ExecutionOf;
    FrameIsAdmitted(config, m, i);
    var a := AdmittedOf(config, m, i);
    if Holds(a) {
      HoldingFrame(config, m, i);
      HoldFrameFreezes(config, a.state, a.input);
    } else {
      MissionFrameOf(config, m, i);
      MissionFrameFreezes(config, a.state, a.input, a.hold);
    }
    hide ProfileOf, AdmittedOf, Mission.Compute;
  }

  // ----- Whole runs -----

  /** In frame j the missions are told that the action of a timed-out coordinator is done. */
  predicate LateDoneAt(config: Config, inputs: seq<Input>, steps: seq<Step>, j: nat)
    requires j < |inputs| == |steps|
  {
    Before(config, steps, j).coordinator.timedOut && DoneAdmitted(config, Before(config, steps, j), inputs[j])
  }

  /** Since the ACK timeout, and before frame k, the missions have been told that the
      frozen action is done. */
  ghost predicate DoneSince(config: Config, inputs: seq<Input>, steps: seq<Step>, k: nat)
    requires k <= |inputs| == |steps|
  {
    exists j :: 0 <= j < k && LateDoneAt(config, inputs, steps, j)
  }

  /** A timed-out state is in step until a late DONE, and drifted from then on. */
  ghost predicate Settled(m: State, doneSince: bool) {
    if doneSince then m.coordinator.timedOut && Drifted(ProfileOf(m), m.last) else InStep(m)
  }

  lemma FrameSettles(config: Config, m: State, i: Input, doneSince: bool)
    requires Inv(m) && Allowed(m, i) && Settled(m, doneSince)
    ensures Settled(Mission.Compute(config, m, i).state, doneSince || (m.coordinator.timedOut && DoneAdmitted(config, m, i)))
  {
    hide Mission.Compute, Shape, WellFormed, Linked, InSync, Drifted, ProfileOf, LoadOf, AdmittedOf, GateHolds, SameAction, Allowed,
         Delivered, Legal;
    ComputeKeeps(config, m, i);
    if m.coordinator.timedOut {
      FrameFreezes(config, m, i);
      if !doneSince && !DoneAdmitted(config, m, i) { FrozenIsSteady(m, Delivered(config, m, i)); }
    } else {
      FrameIsAdmittedFeedback(config, m, i);
      LegalIsSteady(m.coordinator, m.last, Delivered(config, m, i));
    }
  }

  lemma FrozenIsSteady(m: State, feedback: DeliveryFeedback)
    requires Inv(m) && m.coordinator.timedOut && !ExecutionOf(m.last, feedback).done
    ensures Steady(m.coordinator, m.last, feedback)
  {
    hide InSync, Shape;
  }

  lemma {:induction false} RunSettles(config: Config, inputs: seq<Input>, steps: seq<Step>, k: nat)
    requires LegalRun(config, inputs, steps) && k <= |inputs|
    ensures Settled(Before(config, steps, k), DoneSince(config, inputs, steps, k))
  {
    hide Mission.Compute, Mission.Initial, Before, Inv, Settled, Allowed, DoneAdmitted;
    if k == 0 {
      BeforeStart(config, steps);
      StartSettles(config);
    } else {
      RunSettles(config, inputs, steps, k - 1);
      RunInv(config, inputs, steps, k - 1);
      StepIsTaken(config, inputs, steps, k - 1);
      FrameSettles(config, Before(config, steps, k - 1), inputs[k - 1], DoneSince(config, inputs, steps, k - 1));
      DoneSinceGrows(config, inputs, steps, k - 1);
    }
  }

  lemma StartSettles(config: Config)
    ensures Settled(Mission.Initial(config), false)
  {
  }

  lemma DoneSinceGrows(config: Config, inputs: seq<Input>, steps: seq<Step>, k: nat)
    requires k < |inputs| == |steps|
    ensures DoneSince(config, inputs, steps, k + 1) <==> DoneSince(config, inputs, steps, k) || LateDoneAt(config, inputs, steps, k)
  {
    hide LateDoneAt;
  }

  // ----- Fixed motion sequences -----

  /** The one action that the active mission executes in its present mode, if that
      mode is a fixed step of its sequence. */
  function OwnAction(p: Profile): MissionAction {
    match p.active
    case BallMission =>
      (match p.ball
       case Pickup => PickBall
       case VerifyPickup => Recatch
       case StandUp => DefaultPosition
       case BackAway => StepBack
       case _ => NoAction)
    case HurdleMission =>
      (match p.hurdle
       case Contact => StepForwardOne
       case Cross => CrossHurdle
       case _ => NoAction)
    case GoalMission => if p.goal.Shooting? then Shoot else NoAction
    case _ => NoAction
  }

  /** Nothing is in flight but the mode's own action, issued by its own mission; and
      when nothing is, that action is not suppressed. */
  ghost predicate OwnsItsAction(p: Profile, c: CoordinatorState) {
    && c.queuedId == 0
    && (if c.pendingId != 0 then c.pendingMission == p.active && c.pendingRequest.action == OwnAction(p)
        else c.suppressed.NoAction?)
  }

  lemma SyncOwns(p: Profile, c: CoordinatorState)
    requires InSync(p, LoadOf(c), c.suppressed) && WellFormed(c) && !OwnAction(p).NoAction?
    ensures OwnsItsAction(p, c)
  {
  }

  /** The one way back: HURDLE meets its own frozen action again. */
  predicate HurdleRejoins(p: Profile, last: ControlCommand) {
    p.active.HurdleMission? && last.mission.HurdleMission? && last.action == OwnAction(p)
  }

  lemma DriftedOwns(p: Profile, c: CoordinatorState, last: ControlCommand)
    requires Drifted(p, last) && WellFormed(c) && c.timedOut && Linked(c, last) && !OwnAction(p).NoAction?
    ensures OwnsItsAction(p, c) <==> HurdleRejoins(p, last)
  {
  }

  lemma OwnDoneIsNotDeferred(config: Config, m: State, feedback: DeliveryFeedback)
    requires Inv(m) && !OwnAction(ProfileOf(m)).NoAction? && OwnsItsAction(ProfileOf(m), m.coordinator)
    ensures !ShouldDeferDone(config, m, feedback)
    ensures ExecutionOf(m.last, feedback).done ==> m.coordinator.pendingId == feedback.actionId != 0
  {
    hide InSync, GateHolds;
  }

  lemma SettledOwns(m: State, doneSince: bool)
    requires Inv(m) && Settled(m, doneSince) && !OwnAction(ProfileOf(m)).NoAction?
    ensures OwnsItsAction(ProfileOf(m), m.coordinator) <==> !doneSince || HurdleRejoins(ProfileOf(m), m.last)
  {
    hide InSync, GateHolds, Shape, Drifted, OwnsItsAction, HurdleRejoins, OwnAction, WellFormed, Linked, ProfileOf, LoadOf;
    if doneSince { DriftedOwns(ProfileOf(m), m.coordinator, m.last); } else { SyncOwns(ProfileOf(m), m.coordinator); }
  }

  /** In a fixed step of a mission, nothing but that step's own action is in flight,
      exactly until a DONE comes in after an ACK timeout; from then on only a HURDLE
      step that meets its own frozen action owns one. Where the step owns its action,
      the DONE that ends the step is the DONE of that action: it is never held back by
      the gate, and the action is never suppressed when it is due. */
  lemma FixedStepsOwnTheirDone(config: Config, inputs: seq<Input>, steps: seq<Step>, k: nat, feedback: DeliveryFeedback)
    requires LegalRun(config, inputs, steps) && k <= |inputs|
    requires !OwnAction(ProfileOf(Before(config, steps, k))).NoAction?
    ensures var m := Before(config, steps, k);
            && (OwnsItsAction(ProfileOf(m), m.coordinator) <==>
                  !DoneSince(config, inputs, steps, k) || HurdleRejoins(ProfileOf(m), m.last))
            && (OwnsItsAction(ProfileOf(m), m.coordinator) ==>
                  && !ShouldDeferDone(config, m, feedback)
                  && (ExecutionOf(m.last, feedback).done ==> m.coordinator.pendingId == feedback.actionId != 0))
  {
    hide Mission.Compute, Before, Inv, Settled, OwnAction, OwnsItsAction, HurdleRejoins, ShouldDeferDone, DoneSince, ExecutionOf, ProfileOf;
    RunInv(config, inputs, steps, k);
    RunSettles(config, inputs, steps, k);
    var m := Before(config, steps, k);
    SettledOwns(m, DoneSince(config, inputs, steps, k));
    if OwnsItsAction(ProfileOf(m), m.coordinator) { OwnDoneIsNotDeferred(config, m, feedback); }
  }
}
