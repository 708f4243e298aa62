/** The LINE machine inside the supervisor makes a run of its own, so its recovery is
    bounded and one-directional there too. That run never leaves the final hold while no
    ACK has timed out; after a timeout it may. */
module MissionLineRecovery {
  import opened Types
  import opened CommandCoordinator
  import opened CoordinatorRuns
  import opened Mission
  import opened MissionMoves
  import opened MissionSync
  import opened MissionInvariant
  import opened MissionRuns
  import LineP2p
  import Line = LineRecovery
  import Runs = LineRecoveryRuns
  import Ball = BallController
  import Hurdle = HurdleController
  import Goal = GoalController
  import BallProperties
  import GoalProperties

  /** `events` is a run of the LINE machine that ends where LINE is; while the delivery
      is working, no walk is reported as failed in the final hold. */
  ghost predicate Follows(config: Config, line: LineSide, events: seq<Runs.Event>, working: bool) {
    Runs.Run(config.line, events).state == line.fsm && (working ==> Runs.Admissible(config.line, events))
  }

  /** At most n more events. */
  predicate Extends(events: seq<Runs.Event>, events': seq<Runs.Event>, n: nat) {
    events <= events' && |events'| <= |events| + n
  }

  lemma AppendEvent(config: Line.Config, events: seq<Runs.Event>, e: Runs.Event)
    ensures Runs.Run(config, events + [e]).state == Runs.Apply(config, Runs.Run(config, events).state, e)
    ensures Runs.Admissible(config, events) && !Runs.LeavesHold(Runs.Run(config, events).state, e) ==>
              Runs.Admissible(config, events + [e])
  {
    var all := events + [e];
    assert all[..|all| - 1] == events;
    hide Runs.Apply, Runs.Decision, Runs.FailsWindow, Runs.WindowAfter, Runs.RequestOf, Runs.LeavesHold;
    if Runs.Admissible(config, events) && !Runs.LeavesHold(Runs.Run(config, events).state, e) {
      forall i | 0 <= i < |all|
        ensures !Runs.LeavesHold(Runs.Run(config, all[..i]).state, all[i])
      {
        if i < |events| { assert all[i] == events[i] && all[..i] == events[..i]; } else { assert all[..i] == events; }
      }
    }
  }

  lemma FollowEvent(config: Config, line: LineSide, events: seq<Runs.Event>, e: Runs.Event, line': LineSide, working: bool)
    requires Follows(config, line, events, working) && (working && e.FailedWalk? ==> !line.fsm.mode.FinalHold?)
    requires line'.fsm == Runs.Apply(config.line, line.fsm, e)
    ensures Follows(config, line', events + [e], working)
  {
    AppendEvent(config.line, events, e);
    hide Runs.Apply, Runs.Run, Runs.Admissible;
  }

  lemma FollowRunLine(config: Config, line: LineSide, guide: LineGuide, nowSec: real, active: bool, done: bool,
                      events: seq<Runs.Event>, working: bool)
    returns (events': seq<Runs.Event>)
    requires Follows(config, line, events, working)
    ensures Follows(config, RunLine(config, line, guide, nowSec, active, done).line, events', working) && Extends(events, events', 1)
  {
    hide Line.Compute, Follows;
    var e := Runs.Frame(guide, nowSec, active, done);
    FollowEvent(config, line, events, e, RunLine(config, line, guide, nowSec, active, done).line, working);
    events' := events + [e];
  }

  lemma FollowSame(config: Config, line: LineSide, line': LineSide, events: seq<Runs.Event>, working: bool)
    requires Follows(config, line, events, working) && line'.fsm == line.fsm
    ensures Follows(config, line', events, working)
  {
    hide Runs.Run, Runs.Admissible;
  }

  lemma FollowContinue(config: Config, line: LineSide, f: LineFlight, guide: LineGuide, decision: LineGuide, nowSec: real,
                       events: seq<Runs.Event>, working: bool)
    returns (events': seq<Runs.Event>)
    requires Follows(config, line, events, working) && (working && f.done ==> !line.fsm.mode.FinalHold?)
    ensures Follows(config, ContinueLine(config, line, f, guide, decision, nowSec).line, events', working)
    ensures Extends(events, events', 1)
  {
    hide Line.Compute, Line.FailAfterDone, Follows;
    if f.done && line.failurePending {
      var e := Runs.FailedWalk(guide, nowSec);
      FollowEvent(config, line, events, e, ContinueLine(config, line, f, guide, decision, nowSec).line, working);
      events' := events + [e];
    } else {
      events' := FollowRunLine(config, line, decision, nowSec, f.active, f.done, events, working);
    }
  }

  lemma FollowJudge(config: Config, line: LineSide, id: ActionId, decision: LineGuide, nowSec: real, ready: bool, done: bool,
                    events: seq<Runs.Event>, working: bool)
    returns (events': seq<Runs.Event>)
    requires Follows(config, line, events, working)
    ensures Follows(config, JudgeWalk(config, line, id, decision, nowSec, ready, done).line, events', working)
    ensures Extends(events, events', 1)
  {
    hide Line.Compute, Follows, LineP2p.FinishGuide, LineP2p.FinishState;
    var remaining := if ready && !done then config.line.readyLeadSec else 0.0;
    var aggregate := LineP2p.FinishGuide(line.accumulator, id, nowSec, remaining);
    var judged := LineSide(line.fsm, LineP2p.FinishState(line.accumulator, id, nowSec, remaining),
                           if ready then id else line.readyId, aggregate.None? && ready && !done);
    FollowSame(config, line, judged, events, working);
    events' := events;
    if !judged.failurePending {
      var guide := if aggregate.Some? then aggregate.value else decision.(valid := false);
      events' := FollowRunLine(config, judged, guide, nowSec, false, done, events, working);
    }
  }

  lemma FollowComputeLine(config: Config, line: LineSide, c: CoordinatorState, last: ControlCommand, i: Input,
                          events: seq<Runs.Event>, working: bool)
    returns (events': seq<Runs.Event>)
    requires working ==>
               Linked(c, last) && Steady(c, last, i.feedback) && WellFormed(c) && LineSync(line.fsm.mode, LoadOf(c), NoAction)
    requires Follows(config, line, events, working)
    ensures Follows(config, ComputeLine(config, line, last, i).line, events', working) && Extends(events, events', 1)
  {
    if working { FlightIsExecution(line, c, last, i.feedback); }
    hide Follows, JudgeWalk, ContinueLine, FlightOf, Linked, Steady, WellFormed, LineSync, Watch, GuideSeen, ExecutionOf;
    var f, guide := FlightOf(last, i.feedback), GuideSeen(config, i);
    var decision := if i.guideOverride.Some? then i.guideOverride.value else guide;
    events' := events;
    if i.advanceLineFsm {
      if f.walking {
        var watched := line.(accumulator := Watch(line, last.actionId, i.nowSec, guide));
        FollowSame(config, line, watched, events, working);
        if f.feedback && (i.feedback.ready || f.done) && watched.readyId != last.actionId {
          events' := FollowJudge(config, watched, last.actionId, decision, i.nowSec, i.feedback.ready, f.done, events, working);
        } else {
          events' := FollowContinue(config, watched, f, guide, decision, i.nowSec, events, working);
        }
      } else {
        var kept := if f.pending then line else line.(accumulator := LineP2p.Cleared(line.accumulator));
        FollowSame(config, line, kept, events, working);
        events' := FollowContinue(config, kept, f, guide, decision, i.nowSec, events, working);
      }
    }
  }

  /** What a mission step does to the LINE machine: run it, begin a reacquisition, or
      leave it alone. */
  ghost predicate LineMoved(m: State, out: LineOut, m': State) {
    || m'.line.fsm == m.line.fsm
    || m'.line.fsm == Line.Reacquire(m.line.fsm)
    || (AsksLine(ProfileOf(m)) && m'.line.fsm == out.line.fsm)
  }

  lemma LineStepMoved(config: Config, m: State, i: Input, e: ActionExecution)
    requires m.active.LineMission?
    ensures LineMoved(m, LineOutOf(config, m, i), Dispatch(config, m, i, e).state)
  {
    hide ComputeLine, Ball.Compute, Hurdle.Compute, Goal.Compute, Goal.UpdateBallState, Line.Reacquire;
  }

  lemma ObjectStepMoved(config: Config, m: State, i: Input, e: ActionExecution)
    requires !m.active.LineMission? && Shape(ProfileOf(m), m.results)
    ensures LineMoved(m, LineOutOf(config, m, i), Dispatch(config, m, i, e).state)
  {
    BallProperties.ComputeMoves(config.ball, m.ball, BallInput(i, e));
    var reference := m.goal.mode.HeadingRecovery? && LineOutOf(config, m, i).referenceValid;
    GoalProperties.ComputeMoves(config.goal, m.goal, GoalInput(i, e, reference));
    hide ComputeLine, Ball.Compute, Hurdle.Compute, Goal.Compute, Goal.UpdateBallState, Line.Reacquire, Ball.CompleteLineRecovery;
  }

  lemma FollowDispatch(config: Config, m: State, i: Input, events: seq<Runs.Event>, working: bool)
    returns (events': seq<Runs.Event>)
    requires WellFormed(m.coordinator) && Shape(ProfileOf(m), m.results) && Linked(m.coordinator, m.last)
    requires working ==> InStep(m) && Steady(m.coordinator, m.last, i.feedback)
    requires Follows(config, m.line, events, working)
    ensures Follows(config, Dispatch(config, m, i, ExecutionOf(m.last, i.feedback)).state.line, events', working)
    ensures Extends(events, events', 1)
  {
    hide Dispatch, Shape, InSync, Linked, Steady, WellFormed, LoadOf, ComputeLine, Follows, ExecutionOf, LineSync, AsksLine;
    var e, out := ExecutionOf(m.last, i.feedback), LineOutOf(config, m, i);
    var m' := Dispatch(config, m, i, e).state;
    if m.active.LineMission? { LineStepMoved(config, m, i, e); } else { ObjectStepMoved(config, m, i, e); }
    if m'.line.fsm == m.line.fsm {
      FollowSame(config, m.line, m'.line, events, working);
      events' := events;
    } else if m'.line.fsm == Line.Reacquire(m.line.fsm) {
      FollowEvent(config, m.line, events, Runs.BeginReacquisition, m'.line, working);
      events' := events + [Runs.BeginReacquisition];
    } else {
      if working { LineIsInSync(ProfileOf(m), LoadOf(m.coordinator), m.coordinator.suppressed); }
      events' := FollowComputeLine(config, m.line, m.coordinator, m.last, i, events, working);
      FollowSame(config, out.line, m'.line, events', working);
    }
  }

  lemma FollowMissionFrame(config: Config, m: State, i: Input, hold: bool, events: seq<Runs.Event>, working: bool)
    returns (events': seq<Runs.Event>)
    requires WellFormed(m.coordinator) && Shape(ProfileOf(m), m.results) && Linked(m.coordinator, m.last)
    requires working ==> InStep(m) && Steady(m.coordinator, m.last, i.feedback)
    requires Follows(config, m.line, events, working)
    ensures Follows(config, MissionFrame(config, m, i, hold).state.line, events', working) && Extends(events, events', 1)
  {
    hide Dispatch, MissionFrame, Shape, InSync, Linked, Steady, WellFormed, LoadOf, Follows, ExecutionOf, ProfileOf, Line.Compute;
    var n := m.(gate := m.gate.(firstFrame := false));
    ProfileIgnoresGate(m, n);
    MissionFrameMovesLine(config, m, i, hold);
    FollowSame(config, m.line, n.line, events, working);
    events' := FollowDispatch(config, n, i, events, working);
    FollowSame(config, Dispatch(config, n, i, ExecutionOf(n.last, i.feedback)).state.line, MissionFrame(config, m, i, hold).state.line,
               events', working);
  }

  lemma FollowGate(config: Config, m: State, i: Input, events: seq<Runs.Event>, working: bool) returns (events': seq<Runs.Event>)
    requires Follows(config, m.line, events, working)
    ensures Follows(config, AdmittedOf(config, m, i).state.line, events', working) && Extends(events, events', 1)
  {
    hide AdmittedOf, Follows, Line.Compute;
    var n := AdmittedOf(config, m, i).state;
    GateMovesLine(config, m, i);
    events' := events;
    if n.line.fsm == m.line.fsm {
      FollowSame(config, m.line, n.line, events, working);
    } else {
      FollowEvent(config, m.line, events, Runs.ClearStability, n.line, working);
      events' := events + [Runs.ClearStability];
    }
  }

  lemma AdmittedIsSteady(config: Config, m: State, i: Input)
    requires Inv(m) && Allowed(m, i) && !m.coordinator.timedOut
    ensures var a := AdmittedOf(config, m, i); InStep(a.state) && Steady(a.state.coordinator, a.state.last, a.input.feedback)
  {
    hide AdmittedOf, InSync, Linked, Legal, Steady, WellFormed, LoadOf, Shape, ProfileOf, GateHolds;
    FrameIsAdmitted(config, m, i);
    var a := AdmittedOf(config, m, i);
    LegalIsSteady(a.state.coordinator, a.state.last, a.input.feedback);
  }

  lemma FollowFrame(config: Config, m: State, i: Input, events: seq<Runs.Event>) returns (events': seq<Runs.Event>)
    requires Inv(m) && Allowed(m, i) && Follows(config, m.line, events, !m.coordinator.timedOut)
    ensures Follows(config, Mission.Compute(config, m, i).state.line, events', !m.coordinator.timedOut) && Extends(events, events', 2)
  {
    hide AdmittedOf, Mission.Compute, MissionFrame, HoldFrame, Shape, WellFormed, Follows, InSync, Linked, Steady, LoadOf, ProfileOf, Legal,
         GateHolds, Line.Compute, FrameGood;
    var a, working := AdmittedOf(config, m, i), !m.coordinator.timedOut;
    FrameIsAdmitted(config, m, i);
    if working { AdmittedIsSteady(config, m, i); }
    events' := FollowGate(config, m, i, events, working);
    if Holds(a) {
      HoldingFrame(config, m, i);
      FollowSame(config, a.state.line, Mission.Compute(config, m, i).state.line, events', working);
    } else {
      MissionFrameOf(config, m, i);
      events' := FollowMissionFrame(config, a.state, a.input, a.hold, events', working);
    }
  }

  /** The gate at most clears the stability history. */
  lemma GateMovesLine(config: Config, m: State, i: Input)
    ensures var n := AdmittedOf(config, m, i).state;
            n.line.fsm == m.line.fsm || n.line.fsm == Runs.Apply(config.line, m.line.fsm, Runs.ClearStability)
  {
    hide ShouldDeferDone, AddToGate, GateReady, GateGuide, Line.Compute;
  }

  lemma MissionFrameMovesLine(config: Config, m: State, i: Input, hold: bool)
    ensures var n := m.(gate := m.gate.(firstFrame := false));
            MissionFrame(config, m, i, hold).state.line.fsm == Dispatch(config, n, i, ExecutionOf(n.last, i.feedback)).state.line.fsm
  {
    hide Dispatch, CommandCoordinator.Compute, RequestOf, CameraOf;
  }

  /** A trail of event sequences, one per state of the run: each is what the LINE
      machine has been through by then, and each frame adds at most two events. */
  ghost predicate IsTrail(config: Config, steps: seq<Step>, k: nat, trail: seq<seq<Runs.Event>>)
    requires k <= |steps|
  {
    && |trail| == k + 1 && trail[0] == []
    && (forall j :: 0 <= j <= k ==> FollowsAt(config, steps, j, trail[j]))
    && (forall j :: 0 <= j < k ==> Extends(trail[j], trail[j + 1], 2))
  }

  ghost predicate FollowsAt(config: Config, steps: seq<Step>, k: nat, events: seq<Runs.Event>)
    requires k <= |steps|
  {
    var m := Before(config, steps, k);
    Follows(config, m.line, events, !m.coordinator.timedOut)
  }

  /** The LINE machine of every run makes a run of its own, frame by frame; as long as
      the delivery works, that run never leaves the final hold. */
  lemma {:induction false} RunFollows(config: Config, inputs: seq<Input>, steps: seq<Step>, k: nat)
    returns (trail: seq<seq<Runs.Event>>)
    requires LegalRun(config, inputs, steps) && k <= |inputs|
    ensures IsTrail(config, steps, k, trail)
  {
    hide Mission.Compute, Before, Inv, Allowed, Follows, FrameGood, Extends;
    if k == 0 {
      BeforeStart(config, steps);
      StartFollows(config);
      trail := [[]];
    } else {
      RunInv(config, inputs, steps, k - 1);
      StepIsTaken(config, inputs, steps, k - 1);
      if Before(config, steps, k - 1).coordinator.timedOut { TimeoutStays(config, Before(config, steps, k - 1), inputs[k - 1]); }
      var before := RunFollows(config, inputs, steps, k - 1);
      assert FollowsAt(config, steps, k - 1, before[k - 1]);
      var events := FollowFrame(config, Before(config, steps, k - 1), inputs[k - 1], before[k - 1]);
      if Before(config, steps, k - 1).coordinator.timedOut != Before(config, steps, k).coordinator.timedOut {
        StopsWorking(config, Before(config, steps, k).line, events);
      }
      trail := before + [events];
      assert FollowsAt(config, steps, k, events);
    }
  }

  lemma StopsWorking(config: Config, line: LineSide, events: seq<Runs.Event>)
    requires Follows(config, line, events, true)
    ensures Follows(config, line, events, false)
  {
    hide Runs.Run, Runs.Admissible;
  }

  lemma TimeoutStays(config: Config, m: State, i: Input)
    requires Inv(m) && Allowed(m, i) && m.coordinator.timedOut
    ensures Mission.Compute(config, m, i).state.coordinator.timedOut
  {
    hide Mission.Compute, Inv, Allowed, Shape, WellFormed, KeepsStep, Delivered;
    ComputeKeeps(config, m, i);
  }

  lemma StartFollows(config: Config)
    ensures Follows(config, Mission.Initial(config).line, [], true)
  {
  }

  /** What the bound means for the counters alone. */
  lemma CountersBounded(config: Line.Config, j: Runs.Journal)
    requires Runs.Bounded(config, j)
    ensures CountersInBounds(config, j.state)
  {
  }

  ghost predicate CountersInBounds(config: Line.Config, s: Line.State) {
    && s.turns <= Max(0, config.recoveryMaxTurns) && s.retries <= Max(0, config.noEvidenceMaxRetries)
    && (s.turns == 0 || s.retries == 0)
    && (s.mode.Normal? ==> s.turns == 0 && s.retries == 0)
    && (s.mode.FinalHold? ==> s.turns + s.retries == Runs.Patience(config, s.evidence))
  }

  /** Recovery in the supervisor: turns and retries never exceed their limits and
      never mix, cruise starts from zero, all turns of an episode go the way last
      decided, and the final hold comes with exactly the failed window that exceeds
      the patience of the episode. After an ACK timeout the one extra move is a way
      out of the final hold; before it there is none. */
  lemma LineRecoveryIsBounded(config: Config, inputs: seq<Input>, steps: seq<Step>, k: nat) returns (trail: seq<seq<Runs.Event>>)
    requires LegalRun(config, inputs, steps) && k <= |inputs|
    ensures IsTrail(config, steps, k, trail)
    ensures Runs.Bounded(config.line, Runs.Run(config.line, trail[k]))
    ensures !Before(config, steps, k).coordinator.timedOut ==> Runs.Run(config.line, trail[k]).exits == 0
    ensures CountersInBounds(config.line, Before(config, steps, k).line.fsm)
  {
    hide Mission.Compute, Before, Runs.Bounded, Runs.Run, CountersInBounds, Extends, Runs.Admissible;
    trail := RunFollows(config, inputs, steps, k);
    assert FollowsAt(config, steps, k, trail[k]);
    Runs.RecoveryBounded(config.line, trail[k]);
    CountersBounded(config.line, Runs.Run(config.line, trail[k]));
    if !Before(config, steps, k).coordinator.timedOut { Runs.AdmissibleStays(config.line, trail[k]); }
  }
}
