/** What holds in every run of the supervisor. A run is any sequence of frames whose
    feedback comes from an executor that finishes actions in order. */
module MissionRuns {
  import opened Types
  import opened CommandCoordinator
  import opened CoordinatorRuns
  import opened Mission
  import opened MissionMoves
  import opened MissionSync
  import opened MissionInvariant

  // ----- One frame -----

  /** The frame as the gate lets it through. */
  function AdmittedOf(config: Config, m: State, i: Input): Admitted { PassGate(config, OpenGate(config, m, i), i) }

  /** The frame only observes. */
  predicate Holds(a: Admitted) { a.hold && !(a.state.gate.cameraOnly && a.state.gate.firstFrame) }

  /** The executor behaves, as far as that still matters. */
  predicate Allowed(m: State, i: Input) { m.coordinator.timedOut || Legal(m.coordinator, i.feedback) }

  lemma FrameIsAdmitted(config: Config, m: State, i: Input)
    requires Inv(m) && Allowed(m, i)
    ensures SameMission(m, AdmittedOf(config, m, i).state) && Admits(OpenGate(config, m, i), i, AdmittedOf(config, m, i))
    ensures Shape(ProfileOf(AdmittedOf(config, m, i).state), AdmittedOf(config, m, i).state.results)
    ensures Sync(AdmittedOf(config, m, i).state)
    ensures m.coordinator.timedOut || Legal(m.coordinator, AdmittedOf(config, m, i).input.feedback)
  {
    OpenGateKeeps(config, m, i);
    hide OpenGate, PassGate, Legal, Shape, WellFormed, InSync, Linked, LoadOf;
    PassGateAdmits(config, OpenGate(config, m, i), i);
  }

  lemma HoldingFrame(config: Config, m: State, i: Input)
    requires Inv(m) && Allowed(m, i) && Holds(AdmittedOf(config, m, i))
    ensures var a := AdmittedOf(config, m, i);
            && HoldGood(a.state, a.input.feedback, Mission.Compute(config, m, i)) && !a.input.feedback.done
            && Mission.Compute(config, m, i) == HoldFrame(config, a.state, a.input)
  {
    hide OpenGate, PassGate, Legal, Shape, WellFormed, HoldFrame, MissionFrame, Linked, InSync;
    FrameIsAdmitted(config, m, i);
    HoldFrameKeeps(config, AdmittedOf(config, m, i).state, AdmittedOf(config, m, i).input);
  }

  lemma MissionFrameOf(config: Config, m: State, i: Input)
    requires Inv(m) && Allowed(m, i) && !Holds(AdmittedOf(config, m, i))
    ensures var a := AdmittedOf(config, m, i);
            && Mission.Compute(config, m, i) == MissionFrame(config, a.state, a.input, a.hold)
            && FrameGood(a.state, a.input.feedback, Mission.Compute(config, m, i))
            && Mission.Compute(config, m, i).state.gate == a.state.gate.(firstFrame := false)
            && (a.hold ==> a.input.feedback == NO_FEEDBACK)
  {
    hide OpenGate, PassGate, Legal, Shape, WellFormed, HoldFrame, MissionFrame, Linked, InSync;
    FrameIsAdmitted(config, m, i);
    var a := AdmittedOf(config, m, i);
    MissionFrameKeeps(config, a.state, a.input, a.hold);
  }

  /** The feedback that reaches the coordinator and the controllers in this frame. */
  function Delivered(config: Config, m: State, i: Input): DeliveryFeedback { AdmittedOf(config, m, i).input.feedback }

  /** Every frame keeps the invariant. */
  lemma ComputeKeeps(config: Config, m: State, i: Input)
    requires Inv(m) && Allowed(m, i)
    ensures Inv(Mission.Compute(config, m, i).state) && FrameGood(m, Delivered(config, m, i), Mission.Compute(config, m, i))
  {
    hide AdmittedOf, Mission.Compute, MissionFrame, HoldFrame, Shape, WellFormed, LoadOf, Linked, InSync, Steady, Legal;
    FrameIsAdmitted(config, m, i);
    if Holds(AdmittedOf(config, m, i)) { HoldingFrame(config, m, i); } else { MissionFrameOf(config, m, i); }
    GoodFrameSyncs(m, Delivered(config, m, i), Mission.Compute(config, m, i));
  }

  // ----- Runs -----

  /** The state before frame k of a run that makes these steps. */
  function Before(config: Config, steps: seq<Step>, k: nat): State
    requires k <= |steps|
  {
    if k == 0 then Mission.Initial(config) else steps[k - 1].state
  }

  ghost predicate IsStep(config: Config, inputs: seq<Input>, steps: seq<Step>, k: nat)
    requires k < |inputs| == |steps|
  {
    steps[k] == Mission.Compute(config, Before(config, steps, k), inputs[k])
  }

  /** The steps the supervisor makes on these inputs, from the start. */
  ghost predicate IsRun(config: Config, inputs: seq<Input>, steps: seq<Step>) {
    |steps| == |inputs| && forall k :: 0 <= k < |inputs| ==> IsStep(config, inputs, steps, k)
  }

  predicate IsAllowed(config: Config, inputs: seq<Input>, steps: seq<Step>, k: nat)
    requires k < |inputs| == |steps|
  {
    Allowed(Before(config, steps, k), inputs[k])
  }

  /** ... with an executor that behaves throughout. */
  ghost predicate LegalRun(config: Config, inputs: seq<Input>, steps: seq<Step>) {
    IsRun(config, inputs, steps) && forall k :: 0 <= k < |inputs| ==> IsAllowed(config, inputs, steps, k)
  }

  /** Every sequence of inputs has a run. */
  lemma {:induction false} RunExists(config: Config, inputs: seq<Input>) returns (steps: seq<Step>)
    ensures IsRun(config, inputs, steps)
  {
    hide Mission.Compute, Mission.Initial;
    steps := [];
    if inputs != [] {
      var init, i := inputs[..|inputs| - 1], inputs[|inputs| - 1];
      var before := RunExists(config, init);
      steps := before + [Mission.Compute(config, Before(config, before, |before|), i)];
      forall k | 0 <= k < |inputs|
        ensures IsStep(config, inputs, steps, k)
      {
        if k < |init| { assert IsStep(config, init, before, k); }
      }
    }
  }

  lemma BeforeStart(config: Config, steps: seq<Step>)
    ensures Before(config, steps, 0) == Mission.Initial(config)
  {
    hide Mission.Initial;
  }

  lemma StepIsTaken(config: Config, inputs: seq<Input>, steps: seq<Step>, k: nat)
    requires LegalRun(config, inputs, steps) && k < |inputs|
    ensures steps[k] == Mission.Compute(config, Before(config, steps, k), inputs[k])
    ensures Before(config, steps, k + 1) == steps[k].state
    ensures Allowed(Before(config, steps, k), inputs[k])
  {
    hide Mission.Compute, Mission.Initial, Allowed;
    assert IsStep(config, inputs, steps, k) && IsAllowed(config, inputs, steps, k);
  }

  /** The invariant holds at every point of every legal run. */
  lemma {:induction false} RunInv(config: Config, inputs: seq<Input>, steps: seq<Step>, k: nat)
    requires LegalRun(config, inputs, steps) && k <= |inputs|
    ensures Inv(Before(config, steps, k))
  {
    hide Inv, Mission.Compute, Allowed, FrameGood, Mission.Initial;
    if k == 0 {
      InitialInv(config);
    } else {
      RunInv(config, inputs, steps, k - 1);
      StepIsTaken(config, inputs, steps, k - 1);
      ComputeKeeps(config, Before(config, steps, k - 1), inputs[k - 1]);
    }
  }

  /** The state in which a run ends. */
  function EndOf(config: Config, steps: seq<Step>): State { Before(config, steps, |steps|) }

  lemma LongerRun(config: Config, inputs: seq<Input>, steps: seq<Step>, i: Input, s: Step)
    requires IsRun(config, inputs, steps) && s == Mission.Compute(config, EndOf(config, steps), i)
    ensures IsRun(config, inputs + [i], steps + [s]) && EndOf(config, steps + [s]) == s.state
    ensures LegalRun(config, inputs + [i], steps + [s]) <==> LegalRun(config, inputs, steps) && Allowed(EndOf(config, steps), i)
  {
    hide Mission.Compute, Mission.Initial, Allowed;
    var inputs', steps', n := inputs + [i], steps + [s], |inputs|;
    assert forall k :: 0 <= k <= n ==> Before(config, steps', k) == Before(config, steps, k);
    forall k | 0 <= k < |inputs'|
      ensures IsStep(config, inputs', steps', k)
    {
      if k < n { assert IsStep(config, inputs, steps, k); }
    }
    assert IsAllowed(config, inputs', steps', n) <==> Allowed(EndOf(config, steps), i);
    forall k | 0 <= k < n
      ensures IsAllowed(config, inputs', steps', k) <==> IsAllowed(config, inputs, steps, k)
    {
    }
  }

  // ----- Whatever the feedback -----

  /** What needs no assumption about the executor. */
  ghost predicate Base(m: State) {
    WellFormed(m.coordinator) && Shape(ProfileOf(m), m.results) && Linked(m.coordinator, m.last)
  }

  lemma InitialBase(config: Config)
    ensures Base(Mission.Initial(config))
  {
    InitialInv(config);
    hide Mission.Initial, Shape, InSync;
  }

  lemma OpenGateSame(config: Config, m: State, i: Input)
    ensures SameMission(m, OpenGate(config, m, i))
  {
    hide ShouldDeferDone, BeginGate;
    var n := m.(previousCamera := i.camera);
    var settled := BeginGate(n, i.nowSec, true, NO_FEEDBACK);
    BeginGateSame(n, i.nowSec, true, NO_FEEDBACK);
    BeginGateSame(n, i.nowSec, false, i.feedback);
    BeginGateSame(settled, i.nowSec, false, i.feedback);
    assert SameMission(m, n);
    hide ProfileOf;
  }

  /** What the gate lets through: the mission is the same, and a frame it holds carries
      no DONE. */
  lemma AdmittedBase(config: Config, m: State, i: Input)
    ensures var a := AdmittedOf(config, m, i);
            && SameMission(m, a.state)
            && a.input == i.(feedback := a.input.feedback, guideOverride := a.input.guideOverride)
            && (a.hold ==> !a.input.feedback.done && (a.state.gate.cameraOnly ==> a.input.feedback == NO_FEEDBACK))
  {
    hide OpenGate, AddToGate, GateReady, GateGuide;
    var n := OpenGate(config, m, i);
    OpenGateSame(config, m, i);
    AddToGateKeeps(config, n.gate, i);
  }

  lemma ObservingBase(config: Config, m: State, i: Input)
    requires Base(m)
    ensures Base(HoldFrame(config, m, i).state) && ProfileOf(HoldFrame(config, m, i).state) == ProfileOf(m)
  {
    hide ObserveActive, Shape, Linked, WellFormed, CoordinatorRuns.Step, ProfileOf;
    var n := ObserveActive(config, m, i);
    ObserveActiveSame(config, m, i);
    CoordinatorBasics(config.command, m.coordinator, FrameOf(n, i, NO_REQUEST, NoCamera));
    ConcludeIs(config, m.(gate := n.gate, previousCamera := n.previousCamera), n, i, NO_REQUEST, NoCamera);
    ConcludeKeepsGate(config, n, i, NO_REQUEST, NoCamera);
  }

  /** A frame is either spent observing or a mission frame. */
  lemma FrameIs(config: Config, m: State, i: Input)
    ensures var a := AdmittedOf(config, m, i);
            Mission.Compute(config, m, i)
            == if Holds(a) then HoldFrame(config, a.state, a.input) else MissionFrame(config, a.state, a.input, a.hold)
  {
    hide OpenGate, PassGate, HoldFrame, MissionFrame;
  }

  lemma FrameKeepsBase(config: Config, m: State, i: Input)
    requires Base(m)
    ensures Base(Mission.Compute(config, m, i).state)
  {
    hide AdmittedOf, Mission.Compute, Shape, Linked, WellFormed, ProfileOf, HoldFrame, MissionFrame, KeepsStep;
    FrameIs(config, m, i);
    AdmittedBase(config, m, i);
    var a := AdmittedOf(config, m, i);
    if Holds(a) { ObservingBase(config, a.state, a.input); } else { MissionFrameKeeps(config, a.state, a.input, a.hold); }
  }

  lemma RunStep(config: Config, inputs: seq<Input>, steps: seq<Step>, k: nat)
    requires IsRun(config, inputs, steps) && k < |inputs|
    ensures steps[k] == Mission.Compute(config, Before(config, steps, k), inputs[k])
    ensures Before(config, steps, k + 1) == steps[k].state
  {
    hide Mission.Compute, Mission.Initial;
    assert IsStep(config, inputs, steps, k);
  }

  /** At every point of every run, with any feedback at all. */
  lemma {:induction false} RunBase(config: Config, inputs: seq<Input>, steps: seq<Step>, k: nat)
    requires IsRun(config, inputs, steps) && k <= |inputs|
    ensures Base(Before(config, steps, k))
  {
    hide Base, Mission.Compute, Mission.Initial;
    if k == 0 {
      InitialBase(config);
    } else {
      RunBase(config, inputs, steps, k - 1);
      RunStep(config, inputs, steps, k - 1);
      FrameKeepsBase(config, Before(config, steps, k - 1), inputs[k - 1]);
    }
  }

  // ----- Camera motions -----

  /** A camera motion is never commanded while an action is in flight: with a camera
      request the command names no action and nothing is pending or queued, exactly
      when the previous command showed no ACK timeout. */
  lemma CameraNeverOverlaps(config: Config, inputs: seq<Input>, steps: seq<Step>, k: nat)
    requires LegalRun(config, inputs, steps) && k < |inputs| && !steps[k].command.camera.NoCamera?
    ensures var frozen, c := Before(config, steps, k).coordinator.timedOut, steps[k].state.coordinator;
            && (steps[k].command.actionId == 0 <==> !frozen)
            && (!frozen ==> c.pendingId == 0 && c.queuedId == 0 && !c.timedOut)
  {
    hide Mission.Compute, Before, Allowed, FrameGood, Inv, Delivered;
    RunInv(config, inputs, steps, k);
    StepIsTaken(config, inputs, steps, k);
    var m, i := Before(config, steps, k), inputs[k];
    ComputeKeeps(config, m, i);
    FrameIsAdmittedFeedback(config, m, i);
    CameraIsAlone(m, Delivered(config, m, i), steps[k]);
  }

  lemma FrameIsAdmittedFeedback(config: Config, m: State, i: Input)
    requires Inv(m) && Allowed(m, i)
    ensures m.coordinator.timedOut || Legal(m.coordinator, Delivered(config, m, i))
  {
    hide AdmittedOf, Inv, Legal, Allowed;
    FrameIsAdmitted(config, m, i);
  }

  lemma CameraIsAlone(m: State, feedback: DeliveryFeedback, s: Step)
    requires Inv(m) && (m.coordinator.timedOut || Legal(m.coordinator, feedback))
    requires FrameGood(m, feedback, s) && !s.command.camera.NoCamera?
    ensures s.command.actionId == 0 <==> !m.coordinator.timedOut
    ensures !m.coordinator.timedOut ==>
              s.state.coordinator.pendingId == 0 && s.state.coordinator.queuedId == 0 && !s.state.coordinator.timedOut
  {
    hide Shape, InSync, Steady;
    if !m.coordinator.timedOut { LegalIsSteady(m.coordinator, m.last, feedback); }
  }
}
