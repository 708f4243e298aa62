/** The supervisor drives its coordinator like any other caller, so what is proved of
    coordinator runs and of the delivery holds of supervisor runs. */
module MissionDelivery {
  import opened Types
  import opened CommandCoordinator
  import opened CoordinatorRuns
  import opened Mission
  import opened MissionMoves
  import opened MissionSync
  import opened MissionInvariant
  import opened MissionRuns
  import LineP2p
  import Line = LineRecovery
  import LineRecoveryRuns

  /** What the coordinator is given in one frame of the supervisor. */
  function GivenFrame(config: Config, m: State, i: Input): Frame {
    var a := AdmittedOf(config, m, i);
    if Holds(a) then FrameOf(ObserveActive(config, a.state, a.input), a.input, NO_REQUEST, NoCamera)
    else
      var d := Dispatch(config, a.state.(gate := a.state.gate.(firstFrame := false)), a.input, ExecutionOf(a.state.last, a.input.feedback));
      FrameOf(d.state, a.input, RequestIn(d, a.input, a.hold),
              if a.hold then NoCamera else CameraOf(d.state.active, d.state.results))
  }

  lemma GivenFrameIsStep(config: Config, m: State, i: Input)
    requires Base(m)
    ensures var s, out := Mission.Compute(config, m, i), CoordinatorRuns.Step(config.command, m.coordinator, GivenFrame(config, m, i));
            s.state.coordinator == out.state && s.command == out.command
  {
    hide OpenGate, PassGate, Dispatch, Shape, Linked, WellFormed, CommandCoordinator.Compute, RequestOf, CameraOf, ObserveActive,
         ExecutionOf;
    AdmittedBase(config, m, i);
    var a := AdmittedOf(config, m, i);
    ObserveActiveSame(config, a.state, a.input);
    var n := a.state.(gate := a.state.gate.(firstFrame := false));
    assert ProfileOf(n) == ProfileOf(a.state);
    DispatchIsMove(config, n, a.input, ExecutionOf(n.last, a.input.feedback));
    hide AdmittedOf, DispatchMoves, ProfileOf;
  }

  /** The coordinator frames of a run of the supervisor. */
  function FramesOf(config: Config, inputs: seq<Input>, steps: seq<Step>, k: nat): seq<Frame>
    requires k <= |inputs| == |steps|
  {
    if k == 0 then [] else FramesOf(config, inputs, steps, k - 1) + [GivenFrame(config, Before(config, steps, k - 1), inputs[k - 1])]
  }

  lemma {:induction false} FramesCount(config: Config, inputs: seq<Input>, steps: seq<Step>, k: nat)
    requires k <= |inputs| == |steps|
    ensures |FramesOf(config, inputs, steps, k)| == k
  {
    hide GivenFrame, Before, Mission.Compute;
    if k > 0 { FramesCount(config, inputs, steps, k - 1); }
  }

  /** The coordinator inside the supervisor is where a coordinator run over those
      frames ends. */
  lemma {:induction false} DrivesCoordinator(config: Config, inputs: seq<Input>, steps: seq<Step>, k: nat)
    requires IsRun(config, inputs, steps) && k <= |inputs|
    ensures CoordinatorRuns.Run(config.command, FramesOf(config, inputs, steps, k)).state == Before(config, steps, k).coordinator
  {
    hide GivenFrame, Before, Mission.Compute, Mission.Initial, Base, CoordinatorRuns.Step;
    if k == 0 {
      BeforeStart(config, steps);
      StartCoordinator(config);
    } else {
      DrivesCoordinator(config, inputs, steps, k - 1);
      RunBase(config, inputs, steps, k - 1);
      RunStep(config, inputs, steps, k - 1);
      GivenFrameIsStep(config, Before(config, steps, k - 1), inputs[k - 1]);
      var frames := FramesOf(config, inputs, steps, k);
      assert frames[..|frames| - 1] == FramesOf(config, inputs, steps, k - 1);
    }
  }

  lemma StartCoordinator(config: Config)
    ensures Mission.Initial(config).coordinator == CommandCoordinator.Initial(config.command)
  {
  }

  // ----- What is offered to the queue -----

  predicate QueuesWalks(request: ActionRequest) { request.lineQueueEligible ==> request.category.LocomotionCategory? }

  lemma LineRequestQueuesWalks(config: Line.Config, s: Line.State, guide: LineGuide, nowSec: real, active: bool, done: bool)
    ensures QueuesWalks(Line.Compute(config, s, guide, nowSec, active, done).request)
  {
    hide LineP2p.Score, Line.FinishObservation, Line.Accumulate;
    if Line.Observing(s.mode) {
      LineRecoveryRuns.ObservingFrame(config, s, guide, nowSec, active, done);
      hide Line.Compute;
    }
  }

  lemma ContinueQueuesWalks(config: Config, line: LineSide, f: LineFlight, guide: LineGuide, decision: LineGuide, nowSec: real)
    ensures QueuesWalks(ContinueLine(config, line, f, guide, decision, nowSec).request)
  {
    LineRequestQueuesWalks(config.line, line.fsm, decision, nowSec, f.active, f.done);
    hide Line.Compute, Line.FailAfterDone;
  }

  lemma JudgeQueuesWalks(config: Config, line: LineSide, id: ActionId, decision: LineGuide, nowSec: real, ready: bool, done: bool)
    ensures QueuesWalks(JudgeWalk(config, line, id, decision, nowSec, ready, done).request)
  {
    hide Line.Compute, LineP2p.FinishGuide, LineP2p.FinishState;
    var aggregate := LineP2p.FinishGuide(line.accumulator, id, nowSec, if ready && !done then config.line.readyLeadSec else 0.0);
    var guide := if aggregate.Some? then aggregate.value else decision.(valid := false);
    LineRequestQueuesWalks(config.line, line.fsm, guide, nowSec, false, done);
  }

  lemma LineQueuesWalks(config: Config, line: LineSide, last: ControlCommand, i: Input)
    ensures QueuesWalks(ComputeLine(config, line, last, i).request)
  {
    hide ContinueLine, JudgeWalk, GuideSeen, FlightOf, Watch, LineP2p.Cleared;
    var f, guide := FlightOf(last, i.feedback), GuideSeen(config, i);
    var decision := if i.guideOverride.Some? then i.guideOverride.value else guide;
    if f.walking {
      var watched := line.(accumulator := Watch(line, last.actionId, i.nowSec, guide));
      JudgeQueuesWalks(config, watched, last.actionId, decision, i.nowSec, i.feedback.ready, f.done);
      ContinueQueuesWalks(config, watched, f, guide, decision, i.nowSec);
    } else {
      var kept := if f.pending then line else line.(accumulator := LineP2p.Cleared(line.accumulator));
      ContinueQueuesWalks(config, kept, f, guide, decision, i.nowSec);
    }
  }

  lemma StepQueuesWalks(p: Profile, r: Results, e: ActionExecution, out: LineOut, p': Profile, r': Results, lineRequest: ActionRequest)
    requires Shape(p, r) && DispatchMoves(p, e, out, p', r', lineRequest) && QueuesWalks(out.request)
    ensures QueuesWalks(RequestOf(p'.active, r', lineRequest))
  {
  }

  /** The supervisor offers only walks to the queue. */
  lemma OffersOnlyWalks(config: Config, m: State, i: Input)
    requires Base(m)
    ensures QueuesOnlyLocomotion(GivenFrame(config, m, i))
  {
    hide OpenGate, PassGate, Dispatch, Shape, Linked, WellFormed, ObserveActive, ExecutionOf,
         LineOutOf, RequestOf, CameraOf, DispatchMoves, ProfileOf;
    AdmittedBase(config, m, i);
    var a := AdmittedOf(config, m, i);
    var n := a.state.(gate := a.state.gate.(firstFrame := false));
    ProfileIgnoresGate(a.state, n);
    var e := ExecutionOf(n.last, a.input.feedback);
    var d := Dispatch(config, n, a.input, e);
    DispatchIsMove(config, n, a.input, e);
    LineQueuesWalks(config, n.line, n.last, a.input);
    LineOutIs(config, n, a.input);
    StepQueuesWalks(ProfileOf(n), n.results, e, LineOutOf(config, n, a.input), ProfileOf(d.state), d.state.results, d.lineRequest);
    ProfileActive(d.state);
    hide AdmittedOf, ComputeLine;
  }

  lemma LineOutIs(config: Config, m: State, i: Input)
    ensures LineOutOf(config, m, i) == ComputeLine(config, m.line, m.last, i)
  {
    hide ComputeLine;
  }

  // ----- Coordinator results, for the supervisor -----

  lemma {:induction false} FramesPrefix(config: Config, inputs: seq<Input>, steps: seq<Step>, k: nat, n: nat)
    requires k <= n <= |inputs| == |steps|
    ensures |FramesOf(config, inputs, steps, n)| == n && FramesOf(config, inputs, steps, n)[..k] == FramesOf(config, inputs, steps, k)
    ensures k < n ==> FramesOf(config, inputs, steps, n)[k] == GivenFrame(config, Before(config, steps, k), inputs[k])
  {
    hide GivenFrame, Before, Mission.Compute;
    FramesCount(config, inputs, steps, n);
    if k < n { FramesPrefix(config, inputs, steps, k, n - 1); }
  }

  /** Frame by frame, the coordinator run has the supervisor's states and outputs. */
  lemma RunsAgree(config: Config, inputs: seq<Input>, steps: seq<Step>, k: nat)
    requires IsRun(config, inputs, steps) && k < |inputs|
    ensures var frames := FramesOf(config, inputs, steps, |inputs|);
            && |frames| == |inputs| && frames[k] == GivenFrame(config, Before(config, steps, k), inputs[k])
            && CoordinatorRuns.StateBefore(config.command, frames, k) == Before(config, steps, k).coordinator
            && CoordinatorRuns.OutputAt(config.command, frames, k) == steps[k].command
            && QueuesOnlyLocomotion(frames[k])
  {
    hide GivenFrame, Before, Mission.Compute, Base, CoordinatorRuns.Run, CoordinatorRuns.Step, FramesOf,
         QueuesOnlyLocomotion;
    FramesPrefix(config, inputs, steps, k, |inputs|);
    DrivesCoordinator(config, inputs, steps, k);
    RunBase(config, inputs, steps, k);
    RunStep(config, inputs, steps, k);
    GivenFrameIsStep(config, Before(config, steps, k), inputs[k]);
    OffersOnlyWalks(config, Before(config, steps, k), inputs[k]);
  }

  /** Commands of the supervisor with the same identifier carry the same payload. */
  lemma CommandsAreStable(config: Config, inputs: seq<Input>, steps: seq<Step>, i: nat, j: nat)
    requires IsRun(config, inputs, steps) && i < |inputs| && j < |inputs|
    requires |CoordinatorRuns.Run(config.command, FramesOf(config, inputs, steps, |inputs|)).issued| <= ID_MODULUS - 1
    requires steps[i].command.actionId == steps[j].command.actionId != 0
    ensures OrderOf(steps[i].command) == OrderOf(steps[j].command)
  {
    hide GivenFrame, Before, Mission.Compute, CoordinatorRuns.Run, FramesOf, CoordinatorRuns.OutputAt;
    RunsAgree(config, inputs, steps, i);
    RunsAgree(config, inputs, steps, j);
    PayloadStable(config.command, FramesOf(config, inputs, steps, |inputs|), i, j);
  }

  /** A mission action that the supervisor saw finished is not issued again before an
      idle frame without a request or DONE of a different mission action. */
  lemma MissionActionsAreOneShot(config: Config, inputs: seq<Input>, steps: seq<Step>, i: nat, k: nat, action: MissionAction)
    requires IsRun(config, inputs, steps) && i <= k < |inputs| && !action.NoAction?
    requires FinishesMissionAction(Before(config, steps, i).coordinator, GivenFrame(config, Before(config, steps, i), inputs[i]), action)
    requires IssuesMissionAction(config.command, Before(config, steps, k).coordinator,
                                 GivenFrame(config, Before(config, steps, k), inputs[k]), action)
    ensures exists j :: i <= j <= k && ReleasedIn(config, inputs, steps, j, action)
  {
    hide GivenFrame, Before, Mission.Compute, FramesOf, FinishesMissionAction, IssuesMissionAction, QueuesOnlyLocomotion,
         StateBefore, Releases;
    var frames := FramesOf(config, inputs, steps, |inputs|);
    RunsAgree(config, inputs, steps, i);
    RunsAgree(config, inputs, steps, k);
    OneShot(config.command, frames, i, k, action);
    var j :| i <= j <= k && ReleasesAt(config.command, frames, j, action);
    RunsAgree(config, inputs, steps, j);
    assert ReleasedIn(config, inputs, steps, j, action);
  }

  /** Frame j releases the suppression of a finished mission action. */
  predicate ReleasedIn(config: Config, inputs: seq<Input>, steps: seq<Step>, j: nat, action: MissionAction)
    requires j < |inputs| == |steps|
  {
    Releases(config.command, Before(config, steps, j).coordinator, GivenFrame(config, Before(config, steps, j), inputs[j]), action)
  }
}
