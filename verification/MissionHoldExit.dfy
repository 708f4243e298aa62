/** The other half: a final hold whose frozen walk is named can always be left, from
    any such state and at any later time. */
module MissionHoldExit {
  import opened Types
  import opened SlidingWindow
  import opened CommandCoordinator
  import opened CoordinatorRuns
  import opened Mission
  import opened MissionMoves
  import opened MissionSync
  import opened MissionInvariant
  import opened MissionRuns
  import opened MissionFrozen
  import opened MissionFinalHold
  import LineP2p
  import Line = LineRecovery
  import Features = LineFeatures
  import Goal = GoalController

  // ----- Continuing a run -----

  /** `more` and `next` continue the run, from time t0 on. */
  ghost predicate Continues(config: Config, inputs: seq<Input>, steps: seq<Step>, more: seq<Input>, next: seq<Step>, t0: real) {
    && |more| == |next| && LegalRun(config, inputs + more, steps + next)
    && forall k :: 0 <= k < |more| ==> more[k].nowSec >= t0
  }

  /** Some continuation of the run, however late, leaves the final hold. */
  ghost predicate CanLeave(config: Config, inputs: seq<Input>, steps: seq<Step>, t0: real) {
    exists more, next :: Continues(config, inputs, steps, more, next, t0) && !InFinalHold(EndOf(config, steps + next))
  }

  /** One more frame. */
  lemma ContinueWith(config: Config, inputs: seq<Input>, steps: seq<Step>, more: seq<Input>, next: seq<Step>, t0: real, i: Input)
    returns (more': seq<Input>, next': seq<Step>)
    requires Continues(config, inputs, steps, more, next, t0) && Allowed(EndOf(config, steps + next), i) && i.nowSec >= t0
    ensures Continues(config, inputs, steps, more', next', t0)
    ensures EndOf(config, steps + next') == Mission.Compute(config, EndOf(config, steps + next), i).state
  {
    hide Mission.Compute, Mission.Initial, Allowed, IsStep, IsAllowed, EndOf;
    var s := Mission.Compute(config, EndOf(config, steps + next), i);
    LongerRun(config, inputs + more, steps + next, i, s);
    more', next' := more + [i], next + [s];
    assert inputs + more' == inputs + more + [i] && steps + next' == steps + next + [s];
  }

  // ----- A final hold with a frozen walk -----

  /** Everything the exit needs; `open` tells that no gate is in the way. */
  ghost predicate Stuck(m: State, open: bool) {
    Inv(m) && InFinalHold(m) && FrozenOnWalk(m) && m.active.LineMission? && m.coordinator.timedOut && (open ==> !m.gate.active)
  }

  lemma HoldOnWalkIsStuck(m: State, doneSince: bool)
    requires Inv(m) && Settled(m, doneSince) && InFinalHold(m) && FrozenOnWalk(m)
    ensures Stuck(m, false)
  {
  }

  const SOMETHING := Some(ObjectTarget(1.0, 0.0, 0.0, Point2(0.0, 0.0), Point2(0.0, 0.0), 1.0, 1.0, 1.0, false))

  /** A frame that sees every object and no line. */
  function Watching(nowSec: real): Input {
    Input([], None, SOMETHING, SOMETHING, SOMETHING, Goal.PoseObservation(false, 0.0, 0.0, 0.0, 0.0), 640, 480, nowSec,
          CameraFeedback(ForwardView, true), NO_FEEDBACK, false, false, None)
  }

  /** The same frame with feedback for LINE. */
  function Hearing(nowSec: real, feedback: DeliveryFeedback): Input {
    Watching(nowSec).(advanceLineFsm := true, feedback := feedback)
  }

  /** A frame that does not leave the hold keeps the state stuck. */
  lemma StaysStuck(config: Config, m: State, i: Input, open: bool)
    requires Stuck(m, open) && !LeavesHold(config, m, i) && (open ==> !Mission.Compute(config, m, i).state.gate.active)
    ensures Stuck(Mission.Compute(config, m, i).state, open) && SameAction(m.last, Mission.Compute(config, m, i).state.last)
  {
    hide Mission.Compute, Inv, Shape, LeavesHold, InFinalHold, Delivered, FrozenOnWalk, SameAction, Drifted, ProfileOf;
    assert Allowed(m, i);
    FinalHoldFrame(config, m, i);
    ComputeKeeps(config, m, i);
    InertKeepsWalk(config, m, i);
    FrameFreezes(config, m, i);
    hide Allowed;
  }

  // ----- Closing the gate -----

  /** The history ends in n hits. */
  predicate EndsInHits(hits: seq<bool>, n: nat) { n <= |hits| && forall k :: |hits| - n <= k < |hits| ==> hits[k] }

  lemma HitsGrow(hits: seq<bool>, n: nat)
    requires EndsInHits(hits, n) && n < GATE_WINDOW
    ensures EndsInHits(Push(hits, true, GATE_WINDOW), n + 1)
  {
  }

  lemma FullOfHits(hits: seq<bool>)
    requires EndsInHits(Push(hits, true, GATE_WINDOW), GATE_WINDOW)
    ensures |Push(hits, true, GATE_WINDOW)| == GATE_WINDOW && Count(Push(hits, true, GATE_WINDOW)) == GATE_WINDOW
  {
    CountBounds(Push(hits, true, GATE_WINDOW));
    hide Count;
  }

  /** The first frame of a camera gate is not recorded. */
  predicate Skips(g: Gate) { g.cameraOnly && g.firstFrame }

  /** After the frame the gate is closed, or has seen one more hit. */
  predicate GateAdvances(g: Gate, g': Gate, n: nat) {
    g'.active ==>
      && g'.startSec == g.startSec && !Skips(g') && !g'.mission.NoMission?
      && if Skips(g) then true else n + 1 < GATE_WINDOW && EndsInHits(g'.hits, n + 1)
  }

  lemma WatchedGate(config: Config, m: State, nowSec: real, n: nat)
    requires m.gate.active && !m.gate.mission.NoMission? && n < GATE_WINDOW && EndsInHits(m.gate.hits, n)
    requires nowSec - m.gate.startSec + EPSILON >= config.postMotionObservationSec
    ensures var a := AdmittedOf(config, m, Watching(nowSec));
            && a.input.advanceLineFsm == false && GateAdvances(m.gate, a.state.gate.(firstFrame := false), n)
            && (a.state.gate.active && !Skips(m.gate) ==> !Skips(a.state.gate))
  {
    var i := Watching(nowSec);
    assert OpenGate(config, m, i).gate == m.gate by { hide ShouldDeferDone; }
    HitsGrow(m.gate.hits, n);
    if n + 1 == GATE_WINDOW { FullOfHits(m.gate.hits); }
    assert GateDetects(m.gate.mission, i) || m.gate.mission.LineMission?;
    hide OpenGate, Push, Count, EndsInHits, GateGuide, Features.FeaturesOf;
  }

  lemma WatchFrame(config: Config, m: State, nowSec: real, n: nat)
    requires Stuck(m, false) && m.gate.active && n < GATE_WINDOW && EndsInHits(m.gate.hits, n)
    requires nowSec - m.gate.startSec + EPSILON >= config.postMotionObservationSec
    ensures var m' := Mission.Compute(config, m, Watching(nowSec)).state; Stuck(m', false) && GateAdvances(m.gate, m'.gate, n)
  {
    hide Mission.Compute, AdmittedOf, Shape, WellFormed, Linked, InSync, HoldFrame, MissionFrame, LoadOf, FrameGood, EndsInHits, LeavesIn,
         Watching, FrozenOnWalk;
    var i := Watching(nowSec);
    assert Allowed(m, i) && !m.gate.mission.NoMission?;
    WatchedGate(config, m, nowSec, n);
    NoAdvanceNoLeave(config, m, i);
    StaysStuck(config, m, i, false);
    if Holds(AdmittedOf(config, m, i)) { HoldingFrame(config, m, i); } else { MissionFrameOf(config, m, i); }
    FrameIsAdmitted(config, m, i);
  }

  lemma NoAdvanceNoLeave(config: Config, m: State, i: Input)
    requires !AdmittedOf(config, m, i).input.advanceLineFsm
    ensures !LeavesHold(config, m, i)
  {
    hide AdmittedOf;
  }

  /** Late enough for the gate that may be open. */
  predicate AfterGate(config: Config, m: State, nowSec: real) {
    m.gate.active ==> nowSec - m.gate.startSec + EPSILON >= config.postMotionObservationSec
  }

  /** Watching closes any gate, after at most eleven frames. */
  lemma {:induction false} CloseGate(config: Config, inputs: seq<Input>, steps: seq<Step>, more: seq<Input>, next: seq<Step>, t0: real,
                                     nowSec: real, n: nat)
    returns (more': seq<Input>, next': seq<Step>)
    requires Continues(config, inputs, steps, more, next, t0) && nowSec >= t0 && Stuck(EndOf(config, steps + next), false)
    requires AfterGate(config, EndOf(config, steps + next), nowSec)
    requires n < GATE_WINDOW && EndsInHits(EndOf(config, steps + next).gate.hits, n)
    ensures Continues(config, inputs, steps, more', next', t0) && Stuck(EndOf(config, steps + next'), true)
    decreases Skips(EndOf(config, steps + next).gate), GATE_WINDOW - n
  {
    hide Mission.Compute, EndOf, Continues, Inv, InFinalHold, FrozenOnWalk, Watching, EndsInHits;
    var m := EndOf(config, steps + next);
    more', next' := more, next;
    if m.gate.active {
      assert Allowed(m, Watching(nowSec)) && Watching(nowSec).nowSec == nowSec by { WatchingAt(nowSec); }
      WatchFrame(config, m, nowSec, n);
      more', next' := ContinueWith(config, inputs, steps, more, next, t0, Watching(nowSec));
      var m' := EndOf(config, steps + next');
      if m'.gate.active {
        NoHitsYet(m'.gate.hits);
        more', next' := CloseGate(config, inputs, steps, more', next', t0, nowSec, if Skips(m.gate) then 0 else n + 1);
      }
    }
  }

  lemma WatchingAt(nowSec: real)
    ensures Watching(nowSec).nowSec == nowSec
  {
  }

  lemma NoHitsYet(hits: seq<bool>)
    ensures EndsInHits(hits, 0)
  {
  }

  // ----- Failing the frozen walk once more -----

  /** Late feedback about the frozen walk: ACK with DONE, ACK with READY, DONE alone. */
  function AckedDone(id: ActionId): DeliveryFeedback { DeliveryFeedback(id, true, true, false) }

  function AckedReady(id: ActionId): DeliveryFeedback { DeliveryFeedback(id, true, false, true) }

  function BareDone(id: ActionId): DeliveryFeedback { DeliveryFeedback(id, false, true, false) }

  /** LINE after the frame, if the frame advances LINE and no gate is open. */
  function LineAfter(config: Config, m: State, i: Input): LineSide { ForgetReady(ComputeLine(config, m.line, m.last, i).line, i) }

  lemma NoCentersNoGuide(config: Config, i: Input)
    requires i.lineCenters == []
    ensures !GuideSeen(config, i).valid
  {
  }

  /** With no gate open, nothing about the frozen walk opens one. */
  lemma PassesThrough(config: Config, m: State, nowSec: real, feedback: DeliveryFeedback)
    requires Stuck(m, true)
    ensures var i := Hearing(nowSec, feedback); AdmittedOf(config, m, i) == Admitted(m.(previousCamera := i.camera), i, false)
  {
  }

  lemma HearFrame(config: Config, m: State, nowSec: real, feedback: DeliveryFeedback)
    requires Stuck(m, true)
    ensures var i := Hearing(nowSec, feedback);
            var m' := Mission.Compute(config, m, i).state;
            if LeavesIn(m.line, m.last, i) then !InFinalHold(m')
            else Stuck(m', true) && SameAction(m.last, m'.last) && m'.line == LineAfter(config, m, i)
  {
    hide AdmittedOf, Mission.Compute, Shape, WellFormed, Linked, InSync, HoldFrame, MissionFrame, LoadOf, FrameGood, LeavesIn, Hearing,
         FrozenOnWalk, GateHolds, ComputeLine, SameAction;
    var i := Hearing(nowSec, feedback);
    assert Allowed(m, i);
    PassesThrough(config, m, nowSec, feedback);
    FinalHoldFrame(config, m, i);
    if !LeavesIn(m.line, m.last, i) {
      MissionFrameOf(config, m, i);
      StaysStuck(config, m, i, true);
      LineInHold(config, m.line, m.last, i);
      HeldLine(config, m.(previousCamera := i.camera), i);
    }
  }

  lemma HeldLine(config: Config, m: State, i: Input)
    requires m.active.LineMission? && ComputeLine(config, m.line, m.last, i).line.fsm.mode.FinalHold?
    ensures MissionFrame(config, m, i, false).state.line == LineAfter(config, m, i)
  {
    hide ComputeLine, CommandCoordinator.Compute, TryGoal, TryHurdle, TryBall;
  }

  /** Two late DONEs with ACK leave no READY and no guide of the walk behind. */
  lemma ForgetsWalk(config: Config, m: State, nowSec: real)
    requires Stuck(m, true) && !m.line.failurePending
    ensures var i := Hearing(nowSec, AckedDone(m.last.actionId));
            var line' := LineAfter(config, m, i);
            && !LeavesIn(m.line, m.last, i) && !line'.failurePending && line'.readyId != m.last.actionId
            && (m.line.readyId != m.last.actionId ==> line'.accumulator.actionId == 0)
  {
    hide GuideSeen, LineP2p.FinishGuide, LineP2p.StatsOf, Line.Compute, Inv;
    FrozenHasAction(m);
  }

  /** READY with ACK then finds nothing to judge the walk on. */
  lemma FailsWalk(config: Config, m: State, nowSec: real)
    requires Stuck(m, true) && !m.line.failurePending && m.line.readyId != m.last.actionId && m.line.accumulator.actionId == 0
    ensures var i := Hearing(nowSec, AckedReady(m.last.actionId));
            !LeavesIn(m.line, m.last, i) && LineAfter(config, m, i).failurePending
  {
    hide GuideSeen, LineP2p.FinishGuide, LineP2p.FinishState, Inv, Line.Compute, ContinueLine;
    var i := Hearing(nowSec, AckedReady(m.last.actionId));
    FrozenHasAction(m);
    NoCentersNoGuide(config, i);
    NothingJudged(Watch(m.line, m.last.actionId, nowSec, GuideSeen(config, i)), m.last.actionId, nowSec, config.line.readyLeadSec);
  }

  lemma NothingJudged(a: LineP2p.Accumulator, id: ActionId, nowSec: real, remainingSec: real)
    requires a.samples == []
    ensures LineP2p.FinishGuide(a, id, nowSec, remainingSec).None?
  {
  }

  /** And DONE without ACK leaves the hold. */
  lemma LeavesNow(m: State, nowSec: real)
    requires Stuck(m, true) && m.line.failurePending
    ensures LeavesIn(m.line, m.last, Hearing(nowSec, BareDone(m.last.actionId)))
  {
    hide Inv;
    FrozenHasAction(m);
  }

  // ----- The exit -----

  /** With no gate open: two late DONEs, a READY, and a last DONE. */
  lemma LeaveOpenHold(config: Config, inputs: seq<Input>, steps: seq<Step>, more: seq<Input>, next: seq<Step>, t0: real, nowSec: real)
    returns (more': seq<Input>, next': seq<Step>)
    requires Continues(config, inputs, steps, more, next, t0) && nowSec >= t0 && Stuck(EndOf(config, steps + next), true)
    ensures Continues(config, inputs, steps, more', next', t0) && !InFinalHold(EndOf(config, steps + next'))
  {
    hide Mission.Compute, EndOf, Continues, LineAfter, LeavesIn, InFinalHold;
    var id := EndOf(config, steps + next).last.actionId;
    more', next' := more, next;
    if !EndOf(config, steps + next).line.failurePending {
      more', next' := Forget(config, inputs, steps, more', next', t0, nowSec, id);
      more', next' := Forget(config, inputs, steps, more', next', t0, nowSec, id);
      var m := EndOf(config, steps + next');
      FailsWalk(config, m, nowSec);
      HearFrame(config, m, nowSec, AckedReady(id));
      more', next' := HearNext(config, inputs, steps, more', next', t0, nowSec, AckedReady(id));
    }
    var m := EndOf(config, steps + next');
    LeavesNow(m, nowSec);
    HearFrame(config, m, nowSec, BareDone(m.last.actionId));
    more', next' := HearNext(config, inputs, steps, more', next', t0, nowSec, BareDone(m.last.actionId));
  }

  lemma HearNext(config: Config, inputs: seq<Input>, steps: seq<Step>, more: seq<Input>, next: seq<Step>, t0: real, nowSec: real,
                 feedback: DeliveryFeedback)
    returns (more': seq<Input>, next': seq<Step>)
    requires Continues(config, inputs, steps, more, next, t0) && nowSec >= t0 && Stuck(EndOf(config, steps + next), true)
    ensures Continues(config, inputs, steps, more', next', t0)
    ensures EndOf(config, steps + next') == Mission.Compute(config, EndOf(config, steps + next), Hearing(nowSec, feedback)).state
  {
    hide Mission.Compute, EndOf, Continues, Inv;
    assert Allowed(EndOf(config, steps + next), Hearing(nowSec, feedback)) && Hearing(nowSec, feedback).nowSec == nowSec;
    more', next' := ContinueWith(config, inputs, steps, more, next, t0, Hearing(nowSec, feedback));
  }

  lemma Forget(config: Config, inputs: seq<Input>, steps: seq<Step>, more: seq<Input>, next: seq<Step>, t0: real, nowSec: real,
               id: ActionId)
    returns (more': seq<Input>, next': seq<Step>)
    requires Continues(config, inputs, steps, more, next, t0) && nowSec >= t0
    requires var m := EndOf(config, steps + next); Stuck(m, true) && !m.line.failurePending && m.last.actionId == id
    ensures Continues(config, inputs, steps, more', next', t0)
    ensures var m, m' := EndOf(config, steps + next), EndOf(config, steps + next');
            && Stuck(m', true) && !m'.line.failurePending && m'.last.actionId == id && m'.line.readyId != id
            && (m.line.readyId != id ==> m'.line.accumulator.actionId == 0)
  {
    hide Mission.Compute, EndOf, Continues, LineAfter, LeavesIn, InFinalHold;
    var m := EndOf(config, steps + next);
    ForgetsWalk(config, m, nowSec);
    HearFrame(config, m, nowSec, AckedDone(id));
    more', next' := HearNext(config, inputs, steps, more, next, t0, nowSec, AckedDone(id));
  }

  lemma LeaveHold(config: Config, inputs: seq<Input>, steps: seq<Step>, t0: real)
    requires LegalRun(config, inputs, steps) && InFinalHold(EndOf(config, steps)) && FrozenOnWalk(EndOf(config, steps))
    ensures CanLeave(config, inputs, steps, t0)
  {
    hide Mission.Compute, Before, Inv, Settled, Stuck, InFinalHold, FrozenOnWalk, DoneSince, Continues, LegalRun;
    var m := EndOf(config, steps);
    RunLength(config, inputs, steps);
    RunInv(config, inputs, steps, |inputs|);
    RunSettles(config, inputs, steps, |inputs|);
    HoldOnWalkIsStuck(m, DoneSince(config, inputs, steps, |inputs|));
    NothingYet(config, inputs, steps, t0);
    assert steps + [] == steps;
    NoHitsYet(m.gate.hits);
    var nowSec := MaxReal(t0, m.gate.startSec + config.postMotionObservationSec);
    var more, next := CloseGate(config, inputs, steps, [], [], t0, nowSec, 0);
    more, next := LeaveOpenHold(config, inputs, steps, more, next, t0, nowSec);
  }

  lemma RunLength(config: Config, inputs: seq<Input>, steps: seq<Step>)
    requires LegalRun(config, inputs, steps)
    ensures |steps| == |inputs|
  {
    hide Mission.Compute;
  }

  lemma NothingYet(config: Config, inputs: seq<Input>, steps: seq<Step>, t0: real)
    requires LegalRun(config, inputs, steps)
    ensures Continues(config, inputs, steps, [], [], t0)
  {
    hide LegalRun;
    assert inputs + [] == inputs && steps + [] == steps;
  }

  /** A final hold can be left, in some continuation of the run and however late, if
      and only if the previous command shows the ACK timeout of a long LINE walk. */
  lemma FinalHoldCanBeLeftIff(config: Config, inputs: seq<Input>, steps: seq<Step>, t0: real)
    requires LegalRun(config, inputs, steps) && InFinalHold(EndOf(config, steps))
    ensures CanLeave(config, inputs, steps, t0) <==> FrozenOnWalk(EndOf(config, steps))
  {
    hide Mission.Compute, Before, InFinalHold, FrozenOnWalk, Inert, LegalRun;
    if FrozenOnWalk(EndOf(config, steps)) {
      LeaveHold(config, inputs, steps, t0);
    } else if CanLeave(config, inputs, steps, t0) {
      var more, next :| Continues(config, inputs, steps, more, next, t0) && !InFinalHold(EndOf(config, steps + next));
      SamePast(config, inputs, steps, more, next);
      assert more == [] ==> steps + next == steps;
      if more != [] {
        FinalHoldIsTerminal(config, inputs + more, steps + next, |inputs|, |inputs + more| - 1);
      }
    }
  }

  lemma SamePast(config: Config, inputs: seq<Input>, steps: seq<Step>, more: seq<Input>, next: seq<Step>)
    requires LegalRun(config, inputs, steps) && LegalRun(config, inputs + more, steps + next)
    ensures |inputs| == |steps| && |more| == |next| && Before(config, steps + next, |inputs|) == EndOf(config, steps)
  {
    hide Mission.Compute, Mission.Initial, Allowed, IsStep, IsAllowed;
  }
}
