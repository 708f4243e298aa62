/** BALL inside the supervisor: its controller makes a run of its own, so picks are
    bounded per engagement; and when a pickup counts as verified. */
module MissionPickup {
  import opened Types
  import opened SlidingWindow
  import opened CommandCoordinator
  import CoordinatorRuns
  import opened Mission
  import opened MissionMoves
  import opened MissionSync
  import opened MissionInvariant
  import opened MissionRuns
  import opened MissionFrozen
  import opened MissionTheorems
  import Line = LineRecovery
  import Ball = BallController
  import Hurdle = HurdleController
  import Goal = GoalController
  import Runs = BallProperties

  // ----- What one frame does to the controller -----

  /** A journal after a few more events. */
  function RecordAll(config: Ball.Config, j: Runs.Journal, events: seq<Runs.Event>): Runs.Journal {
    if events == [] then j else Runs.Record(config, RecordAll(config, j, events[..|events| - 1]), events[|events| - 1])
  }

  lemma {:induction false} RunThenRecord(config: Ball.Config, events: seq<Runs.Event>, more: seq<Runs.Event>)
    ensures Runs.Run(config, events + more) == RecordAll(config, Runs.Run(config, events), more)
  {
    hide Runs.Record;
    if more == [] {
      assert events + more == events;
    } else {
      var init := more[..|more| - 1];
      RunThenRecord(config, events, init);
      assert (events + more)[..|events + more| - 1] == events + init;
    }
  }

  /** The picks of the present engagement after one step from mode to mode'. */
  function PicksAfter(picks: nat, mode: Ball.Mode, mode': Ball.Mode): nat {
    if mode.LineFollow? && !mode'.LineFollow? then 0
    else if !mode.Pickup? && mode'.Pickup? then picks + 1
    else picks
  }

  /** The events take the controller from s to s', and the picks with it. */
  ghost predicate Leads(config: Ball.Config, s: Ball.State, events: seq<Runs.Event>, s': Ball.State, n: nat) {
    |events| <= n &&
    forall j: Runs.Journal :: j.state == s ==>
      RecordAll(config, j, events).state == s' && RecordAll(config, j, events).picks == PicksAfter(j.picks, s.mode, s'.mode)
  }

  lemma NoEventLeads(config: Ball.Config, s: Ball.State)
    ensures Leads(config, s, [], s, 0)
  {
  }

  lemma ThenLeads(config: Ball.Config, s: Ball.State, events: seq<Runs.Event>, s': Ball.State, n: nat, e: Runs.Event)
    requires Leads(config, s, events, s', n)
    requires var mode'' := Runs.Apply(config, s', e).mode;
             forall picks :: PicksAfter(PicksAfter(picks, s.mode, s'.mode), s'.mode, mode'') == PicksAfter(picks, s.mode, mode'')
    ensures Leads(config, s, events + [e], Runs.Apply(config, s', e), n + 1)
  {
    hide Runs.Apply, Runs.Sees, Runs.Clears, PicksAfter;
    assert (events + [e])[..|events|] == events;
    forall j: Runs.Journal | j.state == s
      ensures RecordAll(config, j, events + [e]) == Runs.Record(config, RecordAll(config, j, events), e)
    {
    }
    forall j: Runs.Journal | j.state == s
      ensures RecordAll(config, j, events + [e]).picks == PicksAfter(j.picks, s.mode, Runs.Apply(config, s', e).mode)
    {
      RecordPicks(config, RecordAll(config, j, events), e);
    }
  }

  lemma RecordPicks(config: Ball.Config, j: Runs.Journal, e: Runs.Event)
    ensures Runs.Record(config, j, e).picks == PicksAfter(j.picks, j.state.mode, Runs.Apply(config, j.state, e).mode)
  {
    hide Runs.Apply, Runs.Sees, Runs.Clears;
  }

  lemma EventLeads(config: Ball.Config, s: Ball.State, e: Runs.Event)
    ensures Leads(config, s, [e], Runs.Apply(config, s, e), 1)
  {
    hide Runs.Apply, Leads;
    NoEventLeads(config, s);
    ThenLeads(config, s, [], s, 0, e);
    assert [] + [e] == [e];
  }

  lemma {:induction false} RecordAllSplits(config: Ball.Config, j: Runs.Journal, events: seq<Runs.Event>, more: seq<Runs.Event>)
    ensures RecordAll(config, j, events + more) == RecordAll(config, RecordAll(config, j, events), more)
  {
    hide Runs.Record;
    if more == [] {
      assert events + more == events;
    } else {
      RecordAllSplits(config, j, events, more[..|more| - 1]);
      assert (events + more)[..|events + more| - 1] == events + more[..|more| - 1];
    }
  }

  /** Something that keeps the mode, and then the rest. */
  lemma LeadsOn(config: Ball.Config, s: Ball.State, events: seq<Runs.Event>, s': Ball.State, n: nat,
                more: seq<Runs.Event>, s'': Ball.State, n': nat)
    requires Leads(config, s, events, s', n) && Leads(config, s', more, s'', n') && s'.mode == s.mode
    ensures Leads(config, s, events + more, s'', n + n')
  {
    forall j: Runs.Journal | j.state == s
      ensures RecordAll(config, j, events + more) == RecordAll(config, RecordAll(config, j, events), more)
    {
      RecordAllSplits(config, j, events, more);
    }
    hide RecordAll;
  }

  /** BALL's own frame, the end of its line recovery, the end of HURDLE, what GOAL says
      about the ball, or nothing. */
  ghost predicate BallMoved(config: Config, m: State, i: Input, e: ActionExecution, m': State) {
    var frame := Runs.Frame(BallInput(i, e));
    var stepped := Runs.Apply(config.ball, m.ball, frame);
    if m.active.BallMission? then
      || m'.ball == stepped
      || m'.ball == Runs.Apply(config.ball, stepped, Runs.FinishRecovery(i.nowSec))
    else
      || m'.ball == m.ball || (m.active.LineMission? && m'.ball == stepped)
      || m'.ball == Runs.Apply(config.ball, m.ball, Runs.ClearEntry)
      || m'.ball == Runs.Apply(config.ball, m.ball, Runs.TakeBallState(m'.ball.hasBall))
  }

  lemma LineBallMoved(config: Config, m: State, i: Input, e: ActionExecution)
    requires m.active.LineMission?
    ensures BallMoved(config, m, i, e, Dispatch(config, m, i, e).state)
  {
    hide ComputeLine, Ball.Compute, Hurdle.Compute, Goal.Compute, Goal.UpdateBallState, Hurdle.ResetState, Goal.ResetState;
  }

  lemma ObjectBallMoved(config: Config, m: State, i: Input, e: ActionExecution)
    requires !m.active.LineMission? && !m.active.NoMission?
    ensures BallMoved(config, m, i, e, Dispatch(config, m, i, e).state)
  {
    hide ComputeLine, Ball.Compute, Hurdle.Compute, Goal.Compute, Goal.UpdateBallState, Ball.CompleteLineRecovery, Ball.ClearEntryEvidence,
         Line.Reacquire;
  }

  lemma DispatchBallMoved(config: Config, m: State, i: Input, e: ActionExecution)
    requires Shape(ProfileOf(m), m.results)
    ensures BallMoved(config, m, i, e, Dispatch(config, m, i, e).state)
  {
    hide Dispatch, BallMoved;
    if m.active.LineMission? { LineBallMoved(config, m, i, e); } else { ObjectBallMoved(config, m, i, e); }
  }

  lemma StepKeepsAway(config: Ball.Config, s: Ball.State, i: Ball.Input)
    ensures s.mode.LineFollow? ==> !Ball.Compute(config, s, i).state.mode.LineRecovery?
    ensures Ball.Compute(config, s, i).state.mode.LineFollow? ==> s.mode.LineFollow?
  {
    Runs.ComputeMoves(config, s, i);
    hide Ball.Compute;
  }

  lemma StepLeads(config: Config, m: State, i: Input, e: ActionExecution) returns (events: seq<Runs.Event>)
    requires Shape(ProfileOf(m), m.results)
    ensures Leads(config.ball, m.ball, events, Dispatch(config, m, i, e).state.ball, 2)
  {
    hide Dispatch, Shape, Leads, Ball.Compute, Ball.CompleteLineRecovery, Ball.ClearEntryEvidence, ProfileOf;
    var s, s' := m.ball, Dispatch(config, m, i, e).state.ball;
    var frame := Runs.Frame(BallInput(i, e));
    var stepped := Runs.Apply(config.ball, s, frame);
    DispatchBallMoved(config, m, i, e);
    if s' == s {
      events := [];
      NoEventLeads(config.ball, s);
    } else if s' == stepped {
      events := [frame];
      EventLeads(config.ball, s, frame);
    } else if m.active.BallMission? {
      events := [frame] + [Runs.FinishRecovery(i.nowSec)];
      EventLeads(config.ball, s, frame);
      StepKeepsAway(config.ball, s, BallInput(i, e));
      FinishIsNoPick(config.ball, stepped, i.nowSec);
      ThenLeads(config.ball, s, [frame], stepped, 1, Runs.FinishRecovery(i.nowSec));
    } else if s' == Runs.Apply(config.ball, s, Runs.ClearEntry) {
      events := [Runs.ClearEntry];
      EventLeads(config.ball, s, Runs.ClearEntry);
    } else {
      events := [Runs.TakeBallState(s'.hasBall)];
      EventLeads(config.ball, s, Runs.TakeBallState(s'.hasBall));
    }
    LeadsWithin(config.ball, s, events, s');
  }

  lemma FinishIsNoPick(config: Ball.Config, s: Ball.State, nowSec: real)
    ensures var s' := Ball.CompleteLineRecovery(config, s, nowSec);
            s'.mode == s.mode || (s.mode.LineRecovery? && s'.mode.LineFollow?)
  {
  }

  lemma LeadsWithin(config: Ball.Config, s: Ball.State, events: seq<Runs.Event>, s': Ball.State)
    requires exists n :: n <= 2 && Leads(config, s, events, s', n)
    ensures Leads(config, s, events, s', 2)
  {
  }

  /** The gate at most makes the controller forget what it saw. */
  lemma GateMovesBall(config: Config, m: State, i: Input)
    ensures var n := AdmittedOf(config, m, i).state;
            n.ball == m.ball || n.ball == Runs.Apply(config.ball, m.ball, Runs.ClearObservations)
  {
    hide ShouldDeferDone, AddToGate, GateReady, GateGuide, Ball.Compute, Ball.ObserveOnly;
  }

  lemma GateLeads(config: Config, m: State, i: Input) returns (events: seq<Runs.Event>)
    ensures var n := AdmittedOf(config, m, i).state; Leads(config.ball, m.ball, events, n.ball, 1) && n.ball.mode == m.ball.mode
  {
    hide AdmittedOf, Leads, Ball.Compute, Ball.ObserveOnly;
    GateMovesBall(config, m, i);
    if AdmittedOf(config, m, i).state.ball == m.ball {
      events := [];
      NoEventLeads(config.ball, m.ball);
      LeadsMore(config.ball, m.ball, [], m.ball);
    } else {
      events := [Runs.ClearObservations];
      EventLeads(config.ball, m.ball, Runs.ClearObservations);
    }
  }

  lemma LeadsMore(config: Ball.Config, s: Ball.State, events: seq<Runs.Event>, s': Ball.State)
    requires Leads(config, s, events, s', 0)
    ensures Leads(config, s, events, s', 1)
  {
  }

  /** An observing frame shows the image to the active controller only. */
  lemma HoldMovesBall(config: Config, m: State, i: Input)
    ensures HoldFrame(config, m, i).state.ball
         == if m.active.BallMission? then Runs.Apply(config.ball, m.ball, Runs.Observe(i.ball, i.width, i.height)) else m.ball
  {
    hide CommandCoordinator.Compute, Ball.ObserveOnly, Hurdle.ObserveOnly, Goal.ObserveOnly;
  }

  lemma MissionFrameBall(config: Config, m: State, i: Input, hold: bool)
    ensures var n := m.(gate := m.gate.(firstFrame := false));
            MissionFrame(config, m, i, hold).state.ball == Dispatch(config, n, i, ExecutionOf(n.last, i.feedback)).state.ball
  {
    hide Dispatch, CommandCoordinator.Compute, RequestOf, CameraOf;
  }

  lemma AfterGateLeads(config: Config, m: State, i: Input) returns (events: seq<Runs.Event>)
    requires Base(m)
    ensures Leads(config.ball, AdmittedOf(config, m, i).state.ball, events, Mission.Compute(config, m, i).state.ball, 2)
  {
    hide AdmittedOf, Mission.Compute, MissionFrame, HoldFrame, Dispatch, Shape, CoordinatorRuns.WellFormed, Linked, ProfileOf, Leads,
         ExecutionOf, Ball.ObserveOnly;
    AdmittedBase(config, m, i);
    FrameIs(config, m, i);
    var a := AdmittedOf(config, m, i);
    if Holds(a) {
      HoldMovesBall(config, a.state, a.input);
      if a.state.active.BallMission? {
        var e := Runs.Observe(a.input.ball, a.input.width, a.input.height);
        events := [e];
        EventLeads(config.ball, a.state.ball, e);
      } else {
        events := [];
        NoEventLeads(config.ball, a.state.ball);
      }
      LeadsWithin(config.ball, a.state.ball, events, Mission.Compute(config, m, i).state.ball);
    } else {
      var n := a.state.(gate := a.state.gate.(firstFrame := false));
      ProfileIgnoresGate(a.state, n);
      MissionFrameBall(config, a.state, a.input, a.hold);
      events := StepLeads(config, n, a.input, ExecutionOf(n.last, a.input.feedback));
    }
  }

  lemma FrameLeads(config: Config, m: State, i: Input) returns (events: seq<Runs.Event>)
    requires Base(m)
    ensures Leads(config.ball, m.ball, events, Mission.Compute(config, m, i).state.ball, 3)
  {
    hide AdmittedOf, Mission.Compute, Base, Leads;
    var gate := GateLeads(config, m, i);
    var rest := AfterGateLeads(config, m, i);
    LeadsOn(config.ball, m.ball, gate, AdmittedOf(config, m, i).state.ball, 1, rest, Mission.Compute(config, m, i).state.ball, 2);
    events := gate + rest;
  }

  // ----- Whole runs -----

  /** How often BALL has entered its PICKUP mode in the present engagement. */
  function PicksOf(config: Config, steps: seq<Step>, k: nat): nat
    requires k <= |steps|
  {
    if k == 0 then 0
    else PicksAfter(PicksOf(config, steps, k - 1), Before(config, steps, k - 1).ball.mode, Before(config, steps, k).ball.mode)
  }

  /** The events of the controller up to frame k: they end in its state, and with the
      same picks. */
  ghost predicate BallTrail(config: Config, steps: seq<Step>, k: nat, events: seq<Runs.Event>)
    requires k <= |steps|
  {
    var j := Runs.Run(config.ball, events);
    |events| <= 3 * k && j.state == Before(config, steps, k).ball && j.picks == PicksOf(config, steps, k)
  }

  lemma StartTrail(config: Config, steps: seq<Step>)
    ensures BallTrail(config, steps, 0, [])
  {
  }

  lemma TrailExtends(config: Config, steps: seq<Step>, k: nat, events: seq<Runs.Event>, more: seq<Runs.Event>)
    requires k < |steps| && BallTrail(config, steps, k, events)
    requires Leads(config.ball, Before(config, steps, k).ball, more, Before(config, steps, k + 1).ball, 3)
    ensures BallTrail(config, steps, k + 1, events + more)
  {
    hide Before, Runs.Run, RecordAll, PicksAfter, Mission.Compute;
    RunThenRecord(config.ball, events, more);
  }

  /** The BALL controller of every run makes a run of its own, frame by frame. */
  lemma {:induction false} RunFollowsBall(config: Config, inputs: seq<Input>, steps: seq<Step>, k: nat)
    returns (trail: seq<seq<Runs.Event>>)
    requires IsRun(config, inputs, steps) && k <= |inputs|
    ensures |trail| == k + 1 && forall n :: 0 <= n <= k ==> BallTrail(config, steps, n, trail[n])
    ensures forall n :: 0 <= n < k ==> trail[n] <= trail[n + 1]
  {
    hide Mission.Compute, Before, Base, BallTrail, Leads;
    if k == 0 {
      StartTrail(config, steps);
      trail := [[]];
    } else {
      var before := RunFollowsBall(config, inputs, steps, k - 1);
      RunBase(config, inputs, steps, k - 1);
      RunStep(config, inputs, steps, k - 1);
      var more := FrameLeads(config, Before(config, steps, k - 1), inputs[k - 1]);
      TrailExtends(config, steps, k - 1, before[k - 1], more);
      trail := before + [before[k - 1] + more];
    }
  }

  /** In every run: at most max(1, pickup_max_attempts) picks per engagement, whatever
      the gates and the other missions do in between. */
  lemma PicksAreBounded(config: Config, inputs: seq<Input>, steps: seq<Step>, k: nat)
    requires IsRun(config, inputs, steps) && k <= |inputs| && Before(config, steps, k).active.BallMission?
    ensures PicksOf(config, steps, k) <= Max(1, config.ball.pickupMaxAttempts)
  {
    hide Mission.Compute, Before, Base, Runs.Run, PicksOf;
    var trail := RunFollowsBall(config, inputs, steps, k);
    assert BallTrail(config, steps, k, trail[k]);
    Runs.PickupBound(config.ball, trail[k]);
    RunBase(config, inputs, steps, k);
    BallIsEngaged(Before(config, steps, k));
  }

  lemma BallIsEngaged(m: State)
    requires Base(m) && m.active.BallMission?
    ensures !m.ball.mode.LineFollow?
  {
  }

  // ----- When a pickup counts as verified -----

  /** The ball is in the image of this frame. */
  predicate SeesBall(i: Input) { Ball.Detected(i.ball, i.width, i.height) }

  /** The hits of the tracker after one more frame. */
  function HitsAfter(config: Config, m: State, i: Input): seq<bool> { Push(m.ball.tracker.hits, SeesBall(i), config.ball.stableWindow) }

  /** A full window of frames, too few of which show a ball. */
  predicate FewHits(config: Config, hits: seq<bool>) {
    |hits| >= Max(1, config.ball.stableWindow) && Count(hits) < Max(1, config.ball.stableMinHits)
  }

  /** How a frame that starts in the verification goes on: with one more hit or miss
      recorded, or by standing up with the ball, or by giving up or retrying. */
  ghost predicate VerifyingMoves(config: Config, hits: seq<bool>, judged: bool, s': Ball.State) {
    && (s'.mode.VerifyObservation? ==> s'.tracker.hits == hits)
    && (s'.mode.StandUp? && s'.hasBall <==> judged && FewHits(config, hits))
    && (s'.mode.VerifyObservation? || s'.mode.StandUp? || s'.mode.FineAdjust?)
  }

  lemma ComputeVerifies(config: Config, s: Ball.State, i: Ball.Input)
    requires s.mode.VerifyObservation? && !s.hasBall
    ensures VerifyingMoves(config, Push(s.tracker.hits, Ball.Detected(i.target, i.width, i.height), config.ball.stableWindow), true,
                           Ball.Compute(config.ball, s, i).state)
  {
    var t := Ball.Track(config.ball, s.tracker, i.target, i.width, i.height);
    assert t.hits == Push(s.tracker.hits, Ball.Detected(i.target, i.width, i.height), config.ball.stableWindow);
    hide Ball.Track, Push, Count, Ball.Detected;
  }

  lemma ObserveVerifies(config: Config, s: Ball.State, i: Input)
    requires s.mode.VerifyObservation? && !s.hasBall
    ensures VerifyingMoves(config, Push(s.tracker.hits, SeesBall(i), config.ball.stableWindow), false,
                           Ball.ObserveOnly(config.ball, s, i.ball, i.width, i.height))
  {
    hide Push, Count, Ball.Follow;
  }

  predicate Verifying(m: State) { m.active.BallMission? && m.ball.mode.VerifyObservation? }

  /** No gate interrupts the verification: nothing is in flight there, or PICK_BALL or
      RECATCH is frozen. */
  lemma VerificationNotDeferred(config: Config, m: State, feedback: DeliveryFeedback, doneSince: bool)
    requires Inv(m) && Settled(m, doneSince) && Verifying(m)
    ensures !ShouldDeferDone(config, m, feedback)
  {
  }

  lemma GateKeepsBall(config: Config, m: State, i: Input)
    requires !ShouldDeferDone(config, m, i.feedback)
    ensures AdmittedOf(config, m, i).state.ball == m.ball
  {
    assert ShouldDeferDone(config, m.(previousCamera := i.camera), i.feedback) == ShouldDeferDone(config, m, i.feedback);
    hide ShouldDeferDone, AddToGate, GateReady, GateGuide;
  }

  lemma VerifyingDispatch(config: Config, m: State, i: Input, e: ActionExecution)
    requires Shape(ProfileOf(m), m.results) && Verifying(m)
    ensures VerifyingMoves(config, HitsAfter(config, m, i), true, Dispatch(config, m, i, e).state.ball)
  {
    hide ComputeLine, Ball.Compute, Goal.UpdateBallState, Ball.CompleteLineRecovery, VerifyingMoves, Push;
    ComputeVerifies(config, m.ball, BallInput(i, e));
    StillVerifying(config, m.ball, BallInput(i, e));
  }

  lemma StillVerifying(config: Config, s: Ball.State, i: Ball.Input)
    requires s.mode.VerifyObservation?
    ensures var out := Ball.Compute(config.ball, s, i);
            !out.result.mode.LineRecovery? && !out.result.mode.LineFollow? && out.result.mode == out.state.mode
  {
    Runs.ComputeMoves(config.ball, s, i);
    hide Ball.Compute;
  }

  lemma VerifyingFrame(config: Config, m: State, i: Input, doneSince: bool)
    requires Inv(m) && Allowed(m, i) && Settled(m, doneSince) && Verifying(m)
    ensures VerifyingMoves(config, HitsAfter(config, m, i), !Holds(AdmittedOf(config, m, i)), Mission.Compute(config, m, i).state.ball)
  {
    hide AdmittedOf, Mission.Compute, MissionFrame, HoldFrame, Dispatch, Shape, CoordinatorRuns.WellFormed, Linked, InSync, ProfileOf,
         FrameGood, ExecutionOf, Ball.ObserveOnly, VerifyingMoves, Settled, Push, ShouldDeferDone;
    VerificationNotDeferred(config, m, i.feedback, doneSince);
    GateKeepsBall(config, m, i);
    FrameIsAdmitted(config, m, i);
    var a := AdmittedOf(config, m, i);
    SameActivity(m, a.state);
    EmptyHanded(m);
    if Holds(a) {
      HoldingFrame(config, m, i);
      HoldMovesBall(config, a.state, a.input);
      ObserveVerifies(config, a.state.ball, a.input);
    } else {
      MissionFrameOf(config, m, i);
      var n := a.state.(gate := a.state.gate.(firstFrame := false));
      ProfileIgnoresGate(a.state, n);
      MissionFrameBall(config, a.state, a.input, a.hold);
      VerifyingDispatch(config, n, a.input, ExecutionOf(n.last, a.input.feedback));
    }
  }

  lemma SameActivity(m: State, n: State)
    requires ProfileOf(n) == ProfileOf(m)
    ensures n.active == m.active
  {
  }

  lemma EmptyHanded(m: State)
    requires Inv(m) && Verifying(m)
    ensures !m.ball.hasBall
  {
  }

  /** The verification starts with an empty history, where the wait for RECATCH ends. */
  ghost predicate StartsVerifying(m: State, s': Ball.State) { m.ball.mode.VerifyPickup? && s'.tracker.hits == [] }

  lemma RecatchEnds(config: Config, s: Ball.State, i: Ball.Input)
    requires s.mode.VerifyPickup?
    ensures var s' := Ball.Compute(config.ball, s, i).state; s'.mode.VerifyObservation? ==> s'.tracker.hits == []
  {
    hide Ball.Track;
  }

  lemma ComputeStartsVerifying(config: Config, s: Ball.State, i: Ball.Input)
    requires !s.mode.VerifyObservation? && Ball.Compute(config.ball, s, i).state.mode.VerifyObservation?
    ensures s.mode.VerifyPickup? && Ball.Compute(config.ball, s, i).state.tracker.hits == []
  {
    hide Ball.Compute;
    Runs.ComputeMoves(config.ball, s, i);
    RecatchEnds(config, s, i);
  }

  lemma DispatchStartsVerifying(config: Config, m: State, i: Input, e: ActionExecution)
    requires Shape(ProfileOf(m), m.results) && !m.ball.mode.VerifyObservation?
    requires Dispatch(config, m, i, e).state.ball.mode.VerifyObservation?
    ensures StartsVerifying(m, Dispatch(config, m, i, e).state.ball)
  {
    hide Dispatch, Ball.Compute, Shape, ProfileOf;
    DispatchBallMoved(config, m, i, e);
    var stepped := Ball.Compute(config.ball, m.ball, BallInput(i, e)).state;
    FinishIsNoPick(config.ball, stepped, i.nowSec);
    if stepped.mode.VerifyObservation? { ComputeStartsVerifying(config, m.ball, BallInput(i, e)); }
    hide Ball.CompleteLineRecovery;
  }

  lemma FrameStartsVerifying(config: Config, m: State, i: Input)
    requires Inv(m) && Allowed(m, i) && !m.ball.mode.VerifyObservation?
    requires Mission.Compute(config, m, i).state.ball.mode.VerifyObservation?
    ensures StartsVerifying(m, Mission.Compute(config, m, i).state.ball)
  {
    hide AdmittedOf, Mission.Compute, MissionFrame, HoldFrame, Dispatch, Shape, CoordinatorRuns.WellFormed, Linked, InSync, ProfileOf,
         FrameGood, ExecutionOf, Ball.ObserveOnly;
    FrameIsAdmitted(config, m, i);
    var a := AdmittedOf(config, m, i);
    SameBallMode(m, a.state);
    if Holds(a) {
      HoldingFrame(config, m, i);
      SameBallMode(m, Mission.Compute(config, m, i).state);
    } else {
      MissionFrameOf(config, m, i);
      var n := a.state.(gate := a.state.gate.(firstFrame := false));
      ProfileIgnoresGate(a.state, n);
      MissionFrameBall(config, a.state, a.input, a.hold);
      DispatchStartsVerifying(config, n, a.input, ExecutionOf(n.last, a.input.feedback));
    }
  }

  lemma SameBallMode(m: State, n: State)
    requires ProfileOf(n) == ProfileOf(m)
    ensures n.ball.mode == m.ball.mode
  {
  }

  /** Whether each frame since the verification began, and before frame k, shows a ball. */
  function SeenSinceRecatch(config: Config, inputs: seq<Input>, steps: seq<Step>, k: nat): seq<bool>
    requires k <= |inputs| == |steps|
  {
    if k == 0 then []
    else if !Before(config, steps, k - 1).ball.mode.VerifyObservation? && Before(config, steps, k).ball.mode.VerifyObservation? then []
    else SeenSinceRecatch(config, inputs, steps, k - 1) + [SeesBall(inputs[k - 1])]
  }

  lemma EngagedIsVerifying(m: State)
    requires Inv(m) && m.ball.mode.VerifyObservation?
    ensures Verifying(m)
  {
  }

  /** During the verification the tracker holds exactly the frames seen since it began. */
  lemma {:induction false} VerifiesOnSeen(config: Config, inputs: seq<Input>, steps: seq<Step>, k: nat)
    requires LegalRun(config, inputs, steps) && k <= |inputs| && Before(config, steps, k).ball.mode.VerifyObservation?
    ensures Before(config, steps, k).ball.tracker.hits
         == LastN(SeenSinceRecatch(config, inputs, steps, k), Max(1, config.ball.stableWindow))
  {
    hide Mission.Compute, Mission.Initial, Before, Inv, Allowed, Settled, DoneSince, Push, AdmittedOf;
    if k == 0 {
      BeforeStart(config, steps);
      StartsOnLine(config);
    } else {
      var m, i := Before(config, steps, k - 1), inputs[k - 1];
      RunInv(config, inputs, steps, k - 1);
      StepIsTaken(config, inputs, steps, k - 1);
      if m.ball.mode.VerifyObservation? {
        VerifiesOnSeen(config, inputs, steps, k - 1);
        RunSettles(config, inputs, steps, k - 1);
        EngagedIsVerifying(m);
        VerifyingFrame(config, m, i, DoneSince(config, inputs, steps, k - 1));
        PushLastN(SeenSinceRecatch(config, inputs, steps, k - 1), SeesBall(i), config.ball.stableWindow);
      } else {
        FrameStartsVerifying(config, m, i);
      }
    }
  }

  lemma StartsOnLine(config: Config)
    ensures Mission.Initial(config).ball.mode.LineFollow?
  {
  }

  /** In every run, a frame of the verification counts the ball as picked up if and only
      if it is not spent observing, a full window of frames has been seen since the wait
      for RECATCH ended, and fewer than stable_min_hits of the last ones show a ball. */
  lemma PickupVerifiedIff(config: Config, inputs: seq<Input>, steps: seq<Step>, k: nat)
    requires LegalRun(config, inputs, steps) && k < |inputs| && Verifying(Before(config, steps, k))
    ensures var m := Before(config, steps, k);
            var seen, window := SeenSinceRecatch(config, inputs, steps, k) + [SeesBall(inputs[k])], Max(1, config.ball.stableWindow);
            PicksUp(ProfileOf(m), ProfileOf(Before(config, steps, k + 1))) <==>
              && !Holds(AdmittedOf(config, m, inputs[k]))
              && |seen| >= window && Count(LastN(seen, window)) < Max(1, config.ball.stableMinHits)
  {
    hide Mission.Compute, Before, Inv, Allowed, Settled, DoneSince, AdmittedOf, Count, SeenSinceRecatch;
    var m, i := Before(config, steps, k), inputs[k];
    RunInv(config, inputs, steps, k);
    StepIsTaken(config, inputs, steps, k);
    VerifiesOnSeen(config, inputs, steps, k);
    RunSettles(config, inputs, steps, k);
    VerifyingFrame(config, m, i, DoneSince(config, inputs, steps, k));
    PushLastN(SeenSinceRecatch(config, inputs, steps, k), SeesBall(i), config.ball.stableWindow);
  }
}
