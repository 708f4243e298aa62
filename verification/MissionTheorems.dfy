/** The main results about runs of the supervisor: the last command and the ball. */
module MissionTheorems {
  import opened Types
  import opened CommandCoordinator
  import opened CoordinatorRuns
  import opened Mission
  import opened MissionMoves
  import opened MissionSync
  import opened MissionInvariant
  import opened MissionRuns

  // ----- The last command -----

  /** Before every frame the last command names the newest action the coordinator still
      tracks, with its mission and payload: the queued one if there is one, otherwise
      the pending one, and no action if there is neither; and it shows whether an ACK
      has timed out. Until then the modes of the active mission agree with what is in
      flight. */
  lemma LastCommandIsLinked(config: Config, inputs: seq<Input>, steps: seq<Step>, k: nat)
    requires LegalRun(config, inputs, steps) && k <= |inputs|
    ensures var m := Before(config, steps, k);
            var c, last := m.coordinator, m.last;
            && last.actionId == (if c.queuedId != 0 then c.queuedId else c.pendingId)
            && (c.queuedId != 0 ==> last.mission.LineMission? && Carries(last, c.queuedRequest))
            && (c.queuedId == 0 && c.pendingId != 0 ==> last.mission == c.pendingMission && Carries(last, c.pendingRequest))
            && (last.phase.ActionAckTimedOut? <==> c.timedOut)
            && (!c.timedOut ==> InSync(ProfileOf(m), LoadOf(c), c.suppressed))
  {
    hide Mission.Compute, Before, InSync, Shape, GateHolds;
    RunInv(config, inputs, steps, k);
  }

  // ----- The ball -----

  function Held(hasBall: bool): int { if hasBall then 1 else 0 }

  /** BALL has just verified that nothing is left on the floor. */
  predicate PicksUp(p: Profile, p': Profile) {
    p.active.BallMission? && p.ball.VerifyObservation? && p'.ball.StandUp? && p'.ballHeld
  }

  /** GOAL has just seen DONE of its SHOOT. */
  predicate CompletesShot(p: Profile, p': Profile) {
    p.active.GoalMission? && p.goal.Shooting? && p'.goal.ReturnCamera?
  }

  /** One frame: the ball is gained by a verified pickup and lost by a completed
      SHOOT, and by nothing else; missions are entered from LINE only, BALL and
      HURDLE empty-handed and GOAL carrying, and lead back to LINE only. */
  ghost predicate Accounts(p: Profile, p': Profile) {
    && Held(p'.hasBall) == Held(p.hasBall) + Held(PicksUp(p, p')) - Held(CompletesShot(p, p'))
    && (p'.active == p.active || p.active.LineMission? || p'.active.LineMission?)
    && (p.active.LineMission? && (p'.active.BallMission? || p'.active.HurdleMission?) ==> !p.hasBall && !p'.hasBall)
    && (p.active.LineMission? && p'.active.GoalMission? ==> p.hasBall && p'.hasBall)
    && (p'.active.LineMission? && !p.active.LineMission? ==> p'.hasBall == p.hasBall)
  }

  lemma MoveAccounts(p: Profile, r: Results, e: ActionExecution, out: LineOut, p': Profile, r': Results, lineRequest: ActionRequest)
    requires Shape(p, r) && DispatchMoves(p, e, out, p', r', lineRequest)
    ensures Accounts(p, p')
  {
  }

  lemma ProfileIgnoresReady(m: State, i: Input)
    ensures ProfileOf(m.(line := ForgetReady(m.line, i))) == ProfileOf(m)
  {
  }

  lemma MissionFrameAccounts(config: Config, m: State, i: Input, hold: bool)
    requires Shape(ProfileOf(m), m.results)
    ensures Accounts(ProfileOf(m), ProfileOf(MissionFrame(config, m, i, hold).state))
  {
    hide Dispatch, Shape, DispatchMoves, ExecutionOf, RequestOf, CameraOf, Accounts, LineOutOf, Conclude, ProfileOf;
    var n := m.(gate := m.gate.(firstFrame := false));
    ProfileIgnoresGate(m, n);
    var e := ExecutionOf(n.last, i.feedback);
    var d := Dispatch(config, n, i, e);
    DispatchIsMove(config, n, i, e);
    MoveAccounts(ProfileOf(n), m.results, e, LineOutOf(config, n, i), ProfileOf(d.state), d.state.results, d.lineRequest);
    var camera := if hold then NoCamera else CameraOf(d.state.active, d.state.results);
    ConcludeKeepsGate(config, d.state, i, RequestIn(d, i, hold), camera);
    ProfileIgnoresReady(Conclude(config, d.state, i, RequestIn(d, i, hold), camera).state, i);
  }

  lemma FrameAccounts(config: Config, m: State, i: Input)
    requires Base(m)
    ensures Accounts(ProfileOf(m), ProfileOf(Mission.Compute(config, m, i).state))
  {
    hide AdmittedOf, Mission.Compute, MissionFrame, HoldFrame, Shape, WellFormed, Linked, LoadOf, ProfileOf;
    AdmittedBase(config, m, i);
    FrameIs(config, m, i);
    var a := AdmittedOf(config, m, i);
    if Holds(a) {
      ObservingBase(config, a.state, a.input);
    } else {
      MissionFrameAccounts(config, a.state, a.input, a.hold);
    }
  }

  function Pickups(config: Config, steps: seq<Step>, k: nat): nat
    requires k <= |steps|
  {
    if k == 0 then 0
    else
      var p, p' := ProfileOf(Before(config, steps, k - 1)), ProfileOf(Before(config, steps, k));
      Pickups(config, steps, k - 1) + Held(PicksUp(p, p'))
  }

  function Shots(config: Config, steps: seq<Step>, k: nat): nat
    requires k <= |steps|
  {
    if k == 0 then 0
    else
      var p, p' := ProfileOf(Before(config, steps, k - 1)), ProfileOf(Before(config, steps, k));
      Shots(config, steps, k - 1) + Held(CompletesShot(p, p'))
  }

  /** Over every run, balls in hand are initial balls plus verified pickups minus
      completed SHOOTs. */
  lemma {:induction false} BallIsConserved(config: Config, inputs: seq<Input>, steps: seq<Step>, k: nat)
    requires IsRun(config, inputs, steps) && k <= |inputs|
    ensures Held(Before(config, steps, k).hasBall)
         == Held(config.initialHasBall) + Pickups(config, steps, k) - Shots(config, steps, k)
  {
    hide Base, Mission.Compute, Before, PicksUp, CompletesShot;
    if k == 0 {
      BeforeStart(config, steps);
    } else {
      BallIsConserved(config, inputs, steps, k - 1);
      RunBase(config, inputs, steps, k - 1);
      RunStep(config, inputs, steps, k - 1);
      FrameAccounts(config, Before(config, steps, k - 1), inputs[k - 1]);
    }
  }

  /** Over every run: entries and exits of missions respect the ball, the controller
      of every inactive mission follows the line, and the result that the supervisor
      mirrors is in the mode its controller is in. */
  lemma MissionsExclude(config: Config, inputs: seq<Input>, steps: seq<Step>, k: nat)
    requires IsRun(config, inputs, steps) && k < |inputs|
    ensures Accounts(ProfileOf(Before(config, steps, k)), ProfileOf(Before(config, steps, k + 1)))
    ensures var m := Before(config, steps, k);
            && (m.active.BallMission? <==> !m.ball.mode.LineFollow?)
            && (m.active.HurdleMission? <==> !m.hurdle.mode.LineFollow?)
            && (m.active.GoalMission? <==> !m.goal.mode.LineFollow?)
            && (m.active.BallMission? ==> m.results.ball.mode == m.ball.mode)
            && (m.active.HurdleMission? ==> m.results.hurdle.mode == m.hurdle.mode)
            && (m.active.GoalMission? ==> m.results.goal.mode == m.goal.mode)
            && (m.active.HurdleMission? ==> !m.hasBall)
  {
    hide Mission.Compute, Before, Accounts, Linked, WellFormed;
    RunBase(config, inputs, steps, k);
    RunStep(config, inputs, steps, k);
    FrameAccounts(config, Before(config, steps, k), inputs[k]);
  }
}
