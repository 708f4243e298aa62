/** The gate that follows a camera motion: nothing gets through and nothing is asked for
    until the robot has looked long enough through the camera at rest. */
module CameraGate {
  import opened Types
  import opened SlidingWindow
  import opened CommandCoordinator
  import opened Mission
  import opened MissionMoves
  import opened MissionSync
  import opened MissionInvariant
  import opened MissionRuns
  import opened MissionDelivery
  import opened GateOpening
  import CoordinatorRuns
  import LineP2p
  import Features = LineFeatures
  import Ball = BallController
  import Hurdle = HurdleController
  import Goal = GoalController

  /** In frame a the camera comes to rest, with no gate open. */
  ghost predicate ComesToRest(config: Config, inputs: seq<Input>, steps: seq<Step>, a: nat)
    requires a < |inputs| == |steps|
  {
    && !Before(config, steps, a).gate.active && config.postMotionObservationSec > 0.0
    && Settles(CameraBefore(inputs, a), inputs[a].camera)
  }

  /** The robot has looked long enough: for the configured time, and, unless LINE or
      HURDLE is active, at its object in 7 of the last 10 frames after frame a. */
  ghost predicate HasLooked(config: Config, mission: MissionType, inputs: seq<Input>, a: nat, j: nat)
    requires a <= j < |inputs|
  {
    && inputs[j].nowSec - inputs[a].nowSec + EPSILON >= config.postMotionObservationSec
    && (|| mission in {LineMission, HurdleMission}
        || (j - a >= 10 && Count(SeenSince(mission, inputs, j - 9, j + 1)) >= 7))
  }

  /** The guides seen from frame a up to frame b that are valid. */
  function GuidesSince(config: Config, inputs: seq<Input>, a: nat, b: nat): seq<LineGuide>
    requires a <= b <= |inputs|
  {
    if a == b then []
    else
      var i := inputs[b - 1];
      var guide := if i.guideOverride.Some? then i.guideOverride.value
                   else Features.FeaturesOf(i.lineCenters, i.width, i.height, config.features).guide;
      GuidesSince(config, inputs, a, b - 1) + if guide.valid then [guide] else []
  }

  function Total(guides: seq<LineGuide>, part: LineP2p.Part): real {
    if guides == [] then 0.0 else Total(guides[..|guides| - 1], part) + LineP2p.PartOf(part, guides[|guides| - 1])
  }

  /** The mean of these guides, or an invalid one if there are too few. */
  function MeanGuide(config: Config, guides: seq<LineGuide>): LineGuide {
    if |guides| < Max(1, config.line.failureMinValidSamples) then INVALID_GUIDE
    else
      var n := |guides| as real;
      LineGuide(Total(guides, LineP2p.OffsetPart) / n, Total(guides, LineP2p.HeadingPart) / n, 0.0,
                Total(guides, LineP2p.ConfidencePart) / n, true, false)
  }

  /** An open camera gate remembers its mission, its start and what was seen after frame a. */
  ghost predicate Looking(config: Config, g: Gate, mission: MissionType, inputs: seq<Input>, a: nat, b: nat)
    requires a < b <= |inputs|
  {
    && g.active && g.cameraOnly && !g.firstFrame && g.mission == mission && g.startSec == inputs[a].nowSec
    && (if mission.LineMission? then
          var guides := GuidesSince(config, inputs, a + 1, b);
          && g.lineValid == |guides| && g.offsetSum == Total(guides, LineP2p.OffsetPart)
          && g.headingSum == Total(guides, LineP2p.HeadingPart) && g.confidenceSum == Total(guides, LineP2p.ConfidencePart)
        else g.hits == LastN(SeenSince(mission, inputs, a + 1, b), 10))
  }

  lemma SeenSinceGrows(mission: MissionType, inputs: seq<Input>, a: nat, b: nat)
    requires a <= b < |inputs|
    ensures SeenSince(mission, inputs, a, b + 1) == SeenSince(mission, inputs, a, b) + [Shows(mission, inputs[b])]
    ensures |SeenSince(mission, inputs, a, b)| == b - a
  {
  }

  lemma TotalGrows(guides: seq<LineGuide>, guide: LineGuide, part: LineP2p.Part)
    ensures Total(guides + [guide], part) == Total(guides, part) + LineP2p.PartOf(part, guide)
  {
    assert (guides + [guide])[..|guides|] == guides;
  }

  /** One more frame enters the gate. */
  lemma LooksOn(config: Config, g: Gate, mission: MissionType, inputs: seq<Input>, a: nat, b: nat)
    requires a < b < |inputs| && Looking(config, g, mission, inputs, a, b)
    ensures Looking(config, AddToGate(config, g, inputs[b]), mission, inputs, a, b + 1)
  {
    hide Features.FeaturesOf, Count;
    if mission.LineMission? {
      var i := inputs[b];
      var guide := if i.guideOverride.Some? then i.guideOverride.value
                   else Features.FeaturesOf(i.lineCenters, i.width, i.height, config.features).guide;
      var guides := GuidesSince(config, inputs, a + 1, b);
      TotalGrows(guides, guide, LineP2p.OffsetPart);
      TotalGrows(guides, guide, LineP2p.HeadingPart);
      TotalGrows(guides, guide, LineP2p.ConfidencePart);
      hide Total;
      assert guides + [] == guides;
    } else {
      ShowsIs(mission, inputs[b]);
      SeenSinceGrows(mission, inputs, a + 1, b);
      PushLastN(SeenSince(mission, inputs, a + 1, b), GateDetects(mission, inputs[b]), 10);
      hide GateDetects, Shows, LastN, SeenSince;
    }
  }

  /** ... and closes it exactly on HasLooked. */
  lemma ReadyIff(config: Config, g: Gate, mission: MissionType, inputs: seq<Input>, a: nat, j: nat)
    requires a < j < |inputs| && !mission.NoMission? && Looking(config, g, mission, inputs, a, j + 1)
    ensures GateReady(config, g, inputs[j].nowSec) <==> HasLooked(config, mission, inputs, a, j)
    ensures mission.LineMission? ==> GateGuide(config, g) == MeanGuide(config, GuidesSince(config, inputs, a + 1, j + 1))
  {
    hide Count, Shows, Features.FeaturesOf, Total;
    SeenSinceGrows(mission, inputs, a + 1, j);
    if j - a >= 10 { LastTen(mission, inputs, a + 1, j + 1); }
  }

  // ----- One frame -----

  /** What a frame under an open camera gate lets through: everything once the robot has
      looked enough, with the mean guide for LINE, and nothing before. */
  ghost predicate LetsPass(config: Config, i: Input, a: Admitted, looked: bool, mission: MissionType, guides: seq<LineGuide>) {
    && a.hold == !looked && a.state.gate.active == !looked
    && a.input.feedback == (if looked then i.feedback else NO_FEEDBACK)
    && a.input.guideOverride == if looked && mission.LineMission? then Some(MeanGuide(config, guides)) else i.guideOverride
  }

  lemma RestingFrame(config: Config, m: State, inputs: seq<Input>, a: nat)
    requires a < |inputs| && !m.gate.active && config.postMotionObservationSec > 0.0 && !m.active.NoMission?
    requires Settles(m.previousCamera, inputs[a].camera)
    ensures var admitted := AdmittedOf(config, m, inputs[a]);
            && LetsPass(config, inputs[a], admitted, HasLooked(config, m.active, inputs, a, a), m.active, [])
            && (admitted.hold ==> admitted.state.gate
                                  == NO_GATE.(active := true, cameraOnly := true, firstFrame := true, mission := m.active,
                                              startSec := inputs[a].nowSec))
  {
    hide ShouldDeferDone, AddToGate, Total;
    assert Count([]) == 0;
    hide Count;
  }

  lemma LookingFrame(config: Config, m: State, inputs: seq<Input>, a: nat, j: nat)
    requires a < j < |inputs| && !m.gate.mission.NoMission? && Looking(config, m.gate, m.gate.mission, inputs, a, j)
    ensures var admitted, mission := AdmittedOf(config, m, inputs[j]), m.gate.mission;
            && LetsPass(config, inputs[j], admitted, HasLooked(config, mission, inputs, a, j), mission,
                        GuidesSince(config, inputs, a + 1, j + 1))
            && (admitted.hold ==> Looking(config, admitted.state.gate, mission, inputs, a, j + 1) && admitted.state.gate.mission == mission)
  {
    LooksOn(config, m.gate, m.gate.mission, inputs, a, j);
    ReadyIff(config, AddToGate(config, m.gate, inputs[j]), m.gate.mission, inputs, a, j);
    KeepsOpen(config, m, inputs[j]);
    AddToGateKeeps(config, m.gate, inputs[j]);
    hide OpenGate, AddToGate, GateReady, GateGuide, HasLooked, GuidesSince, SeenSince, Total, MeanGuide;
  }

  lemma KeepsOpen(config: Config, m: State, i: Input)
    requires m.gate.active
    ensures OpenGate(config, m, i).gate == m.gate
  {
    hide ShouldDeferDone, BeginGate;
  }

  /** The gate after a frame is the one that let it through, no longer in its first frame. */
  lemma GateAfter(config: Config, m: State, i: Input)
    requires Base(m) && AdmittedOf(config, m, i).hold && AdmittedOf(config, m, i).state.gate.cameraOnly
    ensures Mission.Compute(config, m, i).state.gate == AdmittedOf(config, m, i).state.gate.(firstFrame := false)
  {
    hide AdmittedOf, Mission.Compute, HoldFrame, MissionFrame, Shape, Linked, CoordinatorRuns.WellFormed, ProfileOf, FrameGood;
    FrameIs(config, m, i);
    AdmittedBase(config, m, i);
    var a := AdmittedOf(config, m, i);
    if Holds(a) { HoldKeepsGate(config, a.state, a.input); } else { MissionFrameKeeps(config, a.state, a.input, a.hold); }
  }

  lemma HoldKeepsGate(config: Config, m: State, i: Input)
    ensures HoldFrame(config, m, i).state.gate == m.gate
  {
    hide CommandCoordinator.Compute, Ball.ObserveOnly, Hurdle.ObserveOnly, Goal.ObserveOnly;
  }

  // ----- Whole runs -----

  /** The gate that frame a opened is still open before frame b. */
  ghost predicate OpenSince(config: Config, inputs: seq<Input>, steps: seq<Step>, a: nat, b: nat)
    requires a < b <= |inputs| == |steps|
  {
    var g := Before(config, steps, b).gate;
    Looking(config, g, Before(config, steps, a).active, inputs, a, b) && g.mission == Before(config, steps, a).active
  }

  lemma EmptyLooking(config: Config, mission: MissionType, inputs: seq<Input>, a: nat)
    requires a < |inputs|
    ensures Looking(config, NO_GATE.(active := true, cameraOnly := true, mission := mission, startSec := inputs[a].nowSec), mission,
                    inputs, a, a + 1)
  {
    hide Shows;
  }

  lemma ActiveMission(m: State)
    requires Base(m)
    ensures !m.active.NoMission?
  {
    hide Linked, CoordinatorRuns.WellFormed;
  }

  lemma FirstFrame(config: Config, inputs: seq<Input>, steps: seq<Step>, a: nat)
    requires IsRun(config, inputs, steps) && a < |inputs| && ComesToRest(config, inputs, steps, a)
    ensures var mission := Before(config, steps, a).active;
            && LetsPass(config, inputs[a], AdmittedOf(config, Before(config, steps, a), inputs[a]),
                        HasLooked(config, mission, inputs, a, a), mission, [])
            && (!HasLooked(config, mission, inputs, a, a) ==> OpenSince(config, inputs, steps, a, a + 1))
  {
    hide Mission.Compute, Before, AdmittedOf, Base, HasLooked, Looking;
    var m := Before(config, steps, a);
    RunBase(config, inputs, steps, a);
    RunStep(config, inputs, steps, a);
    RemembersCamera(config, inputs, steps, a);
    ActiveMission(m);
    RestingFrame(config, m, inputs, a);
    if !HasLooked(config, m.active, inputs, a, a) {
      GateAfter(config, m, inputs[a]);
      EmptyLooking(config, m.active, inputs, a);
    }
  }

  lemma LaterFrame(config: Config, inputs: seq<Input>, steps: seq<Step>, a: nat, j: nat)
    requires IsRun(config, inputs, steps) && a < j < |inputs| && OpenSince(config, inputs, steps, a, j)
    ensures var mission := Before(config, steps, a).active;
            && LetsPass(config, inputs[j], AdmittedOf(config, Before(config, steps, j), inputs[j]),
                        HasLooked(config, mission, inputs, a, j), mission, GuidesSince(config, inputs, a + 1, j + 1))
            && (!HasLooked(config, mission, inputs, a, j) ==> OpenSince(config, inputs, steps, a, j + 1))
  {
    hide Mission.Compute, Before, AdmittedOf, Base, HasLooked, Looking, GuidesSince;
    RunBase(config, inputs, steps, j);
    RunBase(config, inputs, steps, a);
    RunStep(config, inputs, steps, j);
    ActiveMission(Before(config, steps, a));
    LookingFrame(config, Before(config, steps, j), inputs, a, j);
    if !HasLooked(config, Before(config, steps, a).active, inputs, a, j) {
      LookingIsCameraOnly(config, AdmittedOf(config, Before(config, steps, j), inputs[j]).state.gate, Before(config, steps, a).active,
                          inputs, a, j + 1);
      GateAfter(config, Before(config, steps, j), inputs[j]);
    }
  }

  lemma LookingIsCameraOnly(config: Config, g: Gate, mission: MissionType, inputs: seq<Input>, a: nat, b: nat)
    requires a < b <= |inputs| && Looking(config, g, mission, inputs, a, b)
    ensures g.cameraOnly && g.(firstFrame := false) == g
  {
    hide GuidesSince, SeenSince, Total;
  }

  lemma {:induction false} StaysLooking(config: Config, inputs: seq<Input>, steps: seq<Step>, a: nat, j: nat)
    requires IsRun(config, inputs, steps) && a < j <= |inputs| && ComesToRest(config, inputs, steps, a)
    requires forall t :: a <= t < j ==> !HasLooked(config, Before(config, steps, a).active, inputs, a, t)
    ensures OpenSince(config, inputs, steps, a, j)
  {
    hide Mission.Compute, Before, HasLooked, OpenSince, ComesToRest, IsRun;
    if j == a + 1 {
      FirstFrame(config, inputs, steps, a);
    } else {
      StaysLooking(config, inputs, steps, a, j - 1);
      LaterFrame(config, inputs, steps, a, j - 1);
    }
  }

  /** Over every run: from the frame in which the camera comes to rest, up to the first one
      in which the robot has looked long enough, no feedback gets through, nothing is asked
      for and the camera is not moved; that frame lets everything through, and gives LINE
      the mean of the guides seen in between. */
  lemma LooksBeforeActing(config: Config, inputs: seq<Input>, steps: seq<Step>, a: nat, j: nat)
    requires IsRun(config, inputs, steps) && a <= j < |inputs| && ComesToRest(config, inputs, steps, a)
    requires forall t :: a <= t < j ==> !HasLooked(config, Before(config, steps, a).active, inputs, a, t)
    ensures var m, mission := Before(config, steps, j), Before(config, steps, a).active;
            var looked := HasLooked(config, mission, inputs, a, j);
            && LetsPass(config, inputs[j], AdmittedOf(config, m, inputs[j]), looked, mission,
                        if a == j then [] else GuidesSince(config, inputs, a + 1, j + 1))
            && (!looked ==> GivenFrame(config, m, inputs[j]).request == NO_REQUEST && GivenFrame(config, m, inputs[j]).camera.NoCamera?)
  {
    hide Mission.Compute, Before, HasLooked, OpenSince, ComesToRest, AdmittedOf, GivenFrame, LetsPass, GuidesSince;
    var m, mission := Before(config, steps, j), Before(config, steps, a).active;
    if j == a {
      FirstFrame(config, inputs, steps, a);
    } else {
      StaysLooking(config, inputs, steps, a, j);
      LaterFrame(config, inputs, steps, a, j);
    }
    HoldingGivesNothing(config, m, inputs[j]);
    LettingPass(config, inputs[j], AdmittedOf(config, m, inputs[j]), HasLooked(config, mission, inputs, a, j), mission,
                if a == j then [] else GuidesSince(config, inputs, a + 1, j + 1));
  }

  lemma LettingPass(config: Config, i: Input, a: Admitted, looked: bool, mission: MissionType, guides: seq<LineGuide>)
    requires LetsPass(config, i, a, looked, mission, guides)
    ensures a.hold == !looked
  {
  }

  lemma HoldingGivesNothing(config: Config, m: State, i: Input)
    ensures AdmittedOf(config, m, i).hold ==>
              GivenFrame(config, m, i).request == NO_REQUEST && GivenFrame(config, m, i).camera.NoCamera?
  {
    hide AdmittedOf, Dispatch, ObserveActive, CameraOf, RequestOf, ExecutionOf;
  }
}
