/** The post-motion gate: a DONE it holds back is neither lost nor early. */
module DeferredDone {
  import opened Types
  import opened SlidingWindow
  import opened CommandCoordinator
  import opened CoordinatorRuns
  import opened Mission
  import opened MissionMoves
  import opened MissionInvariant
  import opened MissionRuns

  /** The acknowledgement that stands in for a DONE while it is held back. */
  function StillRunning(done: DeliveryFeedback): DeliveryFeedback { DeliveryFeedback(done.actionId, true, false, false) }

  /** The gate of an object mission has seen enough: long enough, and at least 7 hits
      in the last 10 frames. */
  predicate EnoughEvidence(config: Config, g: Gate, nowSec: real) {
    && nowSec - g.startSec + EPSILON >= config.postMotionObservationSec
    && |g.hits| >= GATE_WINDOW && Count(g.hits) >= GATE_HITS
  }

  /** The same gate after one more frame. */
  ghost predicate SameGate(g: Gate, g': Gate, i: Input) {
    && g'.active && !g'.cameraOnly && g'.mission == g.mission && g'.startSec == g.startSec && g'.deferred == g.deferred
    && g'.hits == Push(g.hits, GateDetects(g.mission, i), GATE_WINDOW)
  }

  /** Nothing new is in flight: the action whose DONE is held back is still pending,
      and no identifier has been allocated. */
  ghost predicate StillPending(c: CoordinatorState, c': CoordinatorState, done: DeliveryFeedback) {
    && !c'.timedOut && c'.nextId == c.nextId && c'.pendingId == done.actionId != 0 && c'.queuedId == 0
  }

  lemma ObjectGateFrame(config: Config, g: Gate, i: Input)
    requires !g.mission.LineMission?
    ensures var g' := AddToGate(config, g, i);
            g' == g.(frames := g.frames + 1, hits := Push(g.hits, GateDetects(g.mission, i), GATE_WINDOW))
  {
    hide Push;
  }

  /** The gate opens only on a DONE of the last command, which it keeps. */
  lemma OpensOnDone(config: Config, m: State, i: Input)
    requires Inv(m) && Allowed(m, i) && !m.coordinator.timedOut && !Deferring(m)
    requires Deferring(OpenGate(config, m, i))
    ensures var n := OpenGate(config, m, i);
            && ShouldDeferDone(config, m, i.feedback)
            && n.gate == NO_GATE.(active := true, firstFrame := true, mission := m.active, startSec := i.nowSec, deferred := i.feedback)
            && !m.active.LineMission? && m.coordinator.pendingId == i.feedback.actionId && m.coordinator.queuedId == 0
  {
    hide Shape, InSync, ShouldDeferDone;
    assert ShouldDeferDone(config, m.(previousCamera := i.camera), i.feedback);
    SameDecision(config, m, i);
    DeferredIsPending(config, m, i.feedback);
  }

  lemma SameDecision(config: Config, m: State, i: Input)
    ensures ShouldDeferDone(config, m.(previousCamera := i.camera), i.feedback) == ShouldDeferDone(config, m, i.feedback)
  {
  }

  /** Opening frame: the DONE is taken away, the coordinator is told that the action
      still runs, and nothing is allocated. */
  lemma OpeningFrame(config: Config, m: State, i: Input)
    requires Inv(m) && Allowed(m, i) && !m.coordinator.timedOut && !Deferring(m) && Deferring(OpenGate(config, m, i))
    ensures var s := Mission.Compute(config, m, i).state;
            && Deferring(s) && s.gate.deferred == i.feedback && i.feedback.done && s.gate.startSec == i.nowSec
            && s.gate.mission == m.active == s.active
            && s.gate.hits == Push([], GateDetects(m.active, i), GATE_WINDOW)
            && Delivered(config, m, i) == StillRunning(i.feedback)
            && StillPending(m.coordinator, s.coordinator, i.feedback)
  {
    OpensOnDone(config, m, i);
    var n := OpenGate(config, m, i);
    hide OpenGate, Inv, Allowed;
    ObjectGateFrame(config, n.gate, i);
    assert i.feedback.done && i.feedback.actionId != 0;
    hide AddToGate, ShouldDeferDone;
    var a := AdmittedOf(config, m, i);
    assert a.hold && !a.state.gate.cameraOnly && a.input.feedback == StillRunning(i.feedback);
    HeldFrame(config, m, i);
    hide Mission.Compute, PassGate;
  }

  /** Any frame that the gate of a DONE holds leaves the action pending. */
  lemma HeldFrame(config: Config, m: State, i: Input)
    requires Inv(m) && Allowed(m, i) && !m.coordinator.timedOut && Deferring(AdmittedOf(config, m, i).state)
    ensures var s, a := Mission.Compute(config, m, i).state, AdmittedOf(config, m, i);
            && s.gate == a.state.gate && Deferring(s) && s.active == m.active
            && StillPending(m.coordinator, s.coordinator, s.gate.deferred)
  {
    hide Mission.Compute, AdmittedOf, OpenGate, Shape, Sync, WellFormed, Allowed;
    FrameIsAdmitted(config, m, i);
    HoldingFrame(config, m, i);
    ComputeKeeps(config, m, i);
  }

  /** What an open gate lets through: the DONE itself with enough evidence, and the
      acknowledgement that stands in for it otherwise. */
  lemma OpenGateDecides(config: Config, m: State, i: Input)
    requires Inv(m) && !m.coordinator.timedOut && Deferring(m)
    ensures var g := m.gate.(frames := m.gate.frames + 1, hits := Push(m.gate.hits, GateDetects(m.gate.mission, i), GATE_WINDOW));
            var a := AdmittedOf(config, m, i);
            if EnoughEvidence(config, g, i.nowSec) then a.input.feedback == m.gate.deferred && !a.hold && !a.state.gate.active
            else a.hold && a.state.gate == g && a.input.feedback == StillRunning(m.gate.deferred)
  {
    GateIsKept(config, m, i);
    ObjectGateFrame(config, m.gate, i);
    hide OpenGate, Shape, Sync, AddToGate, Push, Count, Inv;
  }

  /** A frame of an open gate either goes on holding or closes it on enough evidence,
      handing over the DONE. */
  lemma OpenFrame(config: Config, m: State, i: Input)
    requires Inv(m) && Allowed(m, i) && !m.coordinator.timedOut && Deferring(m)
    ensures var s := Mission.Compute(config, m, i).state;
            var g := m.gate.(frames := m.gate.frames + 1, hits := Push(m.gate.hits, GateDetects(m.gate.mission, i), GATE_WINDOW));
            if EnoughEvidence(config, g, i.nowSec) then
              && !Deferring(s) && Delivered(config, m, i) == m.gate.deferred
              && TakesDone(m.coordinator, Delivered(config, m, i))
            else
              && SameGate(m.gate, s.gate, i) && Deferring(s) && s.active == m.active
              && Delivered(config, m, i) == StillRunning(m.gate.deferred)
              && StillPending(m.coordinator, s.coordinator, m.gate.deferred)
  {
    hide Mission.Compute, AdmittedOf, OpenGate, Allowed, Shape, Sync, Push, Count, FrameGood, EnoughEvidence;
    var g := m.gate.(frames := m.gate.frames + 1, hits := Push(m.gate.hits, GateDetects(m.gate.mission, i), GATE_WINDOW));
    GateIsKept(config, m, i);
    OpenGateDecides(config, m, i);
    if EnoughEvidence(config, g, i.nowSec) {
      MissionFrameOf(config, m, i);
    } else {
      HeldFrame(config, m, i);
    }
  }

  lemma GateIsKept(config: Config, m: State, i: Input)
    requires Inv(m) && Deferring(m) && !m.coordinator.timedOut
    ensures OpenGate(config, m, i).gate == m.gate && !m.gate.mission.LineMission?
    ensures TakesDone(m.coordinator, m.gate.deferred) && m.gate.deferred.actionId != 0
  {
    hide Shape, Sync, ShouldDeferDone;
  }

  // ----- From the opening to the closing frame -----

  /** What the camera saw of the mission's object from frame a up to frame b. */
  function Seen(mission: MissionType, inputs: seq<Input>, a: nat, b: nat): seq<bool>
    requires a <= b <= |inputs|
  {
    seq(b - a, k requires 0 <= k < b - a => GateDetects(mission, inputs[a + k]))
  }

  lemma SeenGrows(mission: MissionType, inputs: seq<Input>, a: nat, b: nat)
    requires a <= b < |inputs|
    ensures Seen(mission, inputs, a, b + 1) == Seen(mission, inputs, a, b) + [GateDetects(mission, inputs[b])]
  {
  }

  /** A gate opens on the DONE of frame a and is still open before frame b. */
  ghost predicate HeldSince(config: Config, inputs: seq<Input>, steps: seq<Step>, a: nat, b: nat)
    requires a < b <= |inputs| == |steps|
  {
    && !Before(config, steps, a).coordinator.timedOut && !Deferring(Before(config, steps, a))
    && Deferring(OpenGate(config, Before(config, steps, a), inputs[a]))
    && forall j :: a < j <= b ==> Deferring(Before(config, steps, j))
  }

  /** The open gate remembers its DONE, its start and what was seen since. */
  ghost predicate Remembers(m: State, n: State, done: DeliveryFeedback, startSec: real, seen: seq<bool>) {
    && Deferring(n) && n.gate.deferred == done && n.gate.startSec == startSec && n.gate.mission == m.active == n.active
    && n.gate.hits == LastN(seen, GATE_WINDOW)
    && StillPending(m.coordinator, n.coordinator, done)
  }

  lemma RememberingGoesOn(config: Config, m: State, n: State, i: Input, done: DeliveryFeedback, startSec: real, seen: seq<bool>)
    requires Inv(n) && Allowed(n, i) && Remembers(m, n, done, startSec, seen) && Deferring(Mission.Compute(config, n, i).state)
    ensures Remembers(m, Mission.Compute(config, n, i).state, done, startSec, seen + [GateDetects(m.active, i)])
    ensures Delivered(config, n, i) == StillRunning(done)
  {
    hide Mission.Compute, Inv, Allowed, Delivered, Count;
    OpenFrame(config, n, i);
    PushLastN(seen, GateDetects(m.active, i), GATE_WINDOW);
    hide LastN, GateDetects;
  }

  lemma {:induction false} WhileHeld(config: Config, inputs: seq<Input>, steps: seq<Step>, a: nat, b: nat)
    requires LegalRun(config, inputs, steps) && a < b <= |inputs| && HeldSince(config, inputs, steps, a, b)
    ensures var m := Before(config, steps, a);
            Remembers(m, Before(config, steps, b), inputs[a].feedback, inputs[a].nowSec, Seen(m.active, inputs, a, b))
    ensures Delivered(config, Before(config, steps, b - 1), inputs[b - 1]) == StillRunning(inputs[a].feedback)
    ensures inputs[a].feedback.done
  {
    hide Mission.Compute, Before, Inv, Allowed, Delivered, OpenGate, Remembers, Seen;
    var m := Before(config, steps, a);
    RunInv(config, inputs, steps, b - 1);
    StepIsTaken(config, inputs, steps, b - 1);
    SeenGrows(m.active, inputs, a, b - 1);
    if b == a + 1 {
      OpeningFrame(config, m, inputs[a]);
      OpeningRemembers(m, Before(config, steps, b), inputs, a);
    } else {
      WhileHeld(config, inputs, steps, a, b - 1);
      RememberingGoesOn(config, m, Before(config, steps, b - 1), inputs[b - 1], inputs[a].feedback, inputs[a].nowSec,
                        Seen(m.active, inputs, a, b - 1));
    }
  }

  lemma OpeningRemembers(m: State, n: State, inputs: seq<Input>, a: nat)
    requires a < |inputs| && Deferring(n) && n.gate.deferred == inputs[a].feedback && n.gate.startSec == inputs[a].nowSec
    requires n.gate.mission == m.active == n.active && n.gate.hits == Push([], GateDetects(m.active, inputs[a]), GATE_WINDOW)
    requires StillPending(m.coordinator, n.coordinator, inputs[a].feedback)
    ensures Remembers(m, n, inputs[a].feedback, inputs[a].nowSec, Seen(m.active, inputs, a, a + 1))
  {
    assert Seen(m.active, inputs, a, a + 1) == [GateDetects(m.active, inputs[a])];
  }

  /** In frame j the DONE of frame a is withheld and its action stays the one pending. */
  ghost predicate HoldsBackAt(config: Config, inputs: seq<Input>, steps: seq<Step>, a: nat, j: nat)
    requires a <= j < |inputs| == |steps|
  {
    && Delivered(config, Before(config, steps, j), inputs[j]) == StillRunning(inputs[a].feedback)
    && StillPending(Before(config, steps, a).coordinator, Before(config, steps, j + 1).coordinator, inputs[a].feedback)
  }

  /** A DONE that the gate holds back is neither lost nor early. Until the closing
      frame its action stays pending, nothing is allocated, and the coordinator is
      told that it still runs; in the closing frame, and in no earlier one, the very
      DONE that opened the gate is handed over and ends the pending action; and that
      frame comes `postMotionObservationSec` after the opening one and after 7 hits
      in the last 10 frames of the gate. */
  lemma DeferredDoneIsKept(config: Config, inputs: seq<Input>, steps: seq<Step>, a: nat, b: nat)
    requires LegalRun(config, inputs, steps) && a < b < |inputs| && HeldSince(config, inputs, steps, a, b)
    requires !Deferring(Before(config, steps, b + 1))
    ensures var m, done := Before(config, steps, a), inputs[a].feedback;
            && done.done && done.actionId != 0
            && (forall j :: a <= j < b ==> HoldsBackAt(config, inputs, steps, a, j))
            && Delivered(config, Before(config, steps, b), inputs[b]) == done
            && TakesDone(Before(config, steps, b).coordinator, done)
            && inputs[b].nowSec - inputs[a].nowSec + EPSILON >= config.postMotionObservationSec
            && var seen := Seen(m.active, inputs, a, b + 1);
               |seen| >= GATE_WINDOW && Count(LastN(seen, GATE_WINDOW)) >= GATE_HITS
  {
    hide Mission.Compute, Before, Inv, Allowed, Delivered, OpenGate, Seen, Count;
    var m, done := Before(config, steps, a), inputs[a].feedback;
    forall j | a <= j < b
      ensures HoldsBackAt(config, inputs, steps, a, j)
    {
      WhileHeld(config, inputs, steps, a, j + 1);
    }
    WhileHeld(config, inputs, steps, a, b);
    RunInv(config, inputs, steps, b);
    StepIsTaken(config, inputs, steps, b);
    SeenGrows(m.active, inputs, a, b);
    SeenLength(m.active, inputs, a, b + 1);
    ClosingFrame(config, m, Before(config, steps, b), inputs[b], done, inputs[a].nowSec, Seen(m.active, inputs, a, b));
  }

  lemma SeenLength(mission: MissionType, inputs: seq<Input>, a: nat, b: nat)
    requires a <= b <= |inputs|
    ensures |Seen(mission, inputs, a, b)| == b - a
  {
  }

  lemma ClosingFrame(config: Config, m: State, n: State, i: Input, done: DeliveryFeedback, startSec: real, seen: seq<bool>)
    requires Inv(n) && Allowed(n, i) && Remembers(m, n, done, startSec, seen) && !Deferring(Mission.Compute(config, n, i).state)
    ensures Delivered(config, n, i) == done && TakesDone(n.coordinator, done)
    ensures i.nowSec - startSec + EPSILON >= config.postMotionObservationSec
    ensures var all := seen + [GateDetects(m.active, i)]; |all| >= GATE_WINDOW && Count(LastN(all, GATE_WINDOW)) >= GATE_HITS
  {
    hide Mission.Compute, Inv, Allowed, Delivered, Count;
    OpenFrame(config, n, i);
    PushLastN(seen, GateDetects(m.active, i), GATE_WINDOW);
    hide GateDetects;
  }
}
