/** What the coordinator answers in each frame, where it matters: an order that nobody has
    acknowledged is on the channel again in every frame, and every frame of the
    supervisor answers in the same way. */
module Retransmission {
  import opened Types
  import opened CommandCoordinator
  import opened CoordinatorRuns
  import opened CoordinatorOutput
  import opened Mission
  import opened MissionRuns
  import opened MissionDelivery
  import Delivery

  // ----- On the lossy channel -----

  /** The coordinator frames among the events. */
  function Ticks(events: seq<Delivery.Event>): seq<Frame> {
    if events == [] then []
    else
      var e := events[|events| - 1];
      Ticks(events[..|events| - 1]) + if e.Tick? then [e.frame] else []
  }

  lemma {:induction false} SystemRunsCoordinator(config: CommandConfig, events: seq<Delivery.Event>)
    requires Delivery.RunSystem(config, events).Some?
    ensures Delivery.RunSystem(config, events).value.history == Run(config, Ticks(events))
  {
    if events != [] {
      var init, e := events[..|events| - 1], events[|events| - 1];
      SystemRunsCoordinator(config, init);
      hide Advance, Delivery.Receive, Delivery.Finish;
      if e.Tick? {
        assert Ticks(events)[..|Ticks(events)| - 1] == Ticks(init);
      } else {
        assert Ticks(events) == Ticks(init);
      }
    }
  }

  /** While something is outstanding and no timeout has struck, a tick puts the newest
      order on the channel, and nothing else, exactly as long as no ACK of that order has
      been brought in. */
  lemma UnacknowledgedIsSent(config: CommandConfig, events: seq<Delivery.Event>, f: Frame)
    requires Delivery.RunSystem(config, events).Some? && Delivery.RunSystem(config, events + [Delivery.Tick(f)]).Some?
    requires var s := Delivery.RunSystem(config, events + [Delivery.Tick(f)]).value;
             |s.history.issued| <= ID_MODULUS - 1 && Outstanding(s.history.state) != [] && !s.history.state.timedOut
    ensures var s, sent := Delivery.RunSystem(config, events + [Delivery.Tick(f)]).value, Delivery.RunSystem(config, events).value.sent;
            var frames := Ticks(events) + [f];
            && s.history == Run(config, frames) && s.history.issued != []
            && s.sent == if AckHeard(config, frames, |frames|, Newest(s.history).id) then sent else sent + {Newest(s.history)}
  {
    var all, frames := events + [Delivery.Tick(f)], Ticks(events) + [f];
    assert all[..|all| - 1] == events;
    assert Ticks(all) == frames;
    SystemRunsCoordinator(config, events);
    SystemRunsCoordinator(config, all);
    hide Ticks, Run, AckHeard, CoordinatorRuns.Step, Advance, Outstanding;
    assert frames[..|frames| - 1] == Ticks(events) && frames[..|frames|] == frames;
    RepeatsUntilAck(config, frames, |frames| - 1);
  }

  // ----- In the supervisor -----

  /** In frame i of the run the coordinator is told that this action was acknowledged. */
  predicate HearsAck(config: Config, inputs: seq<Input>, steps: seq<Step>, i: nat, id: ActionId)
    requires i < |inputs| == |steps|
  {
    var m := Before(config, steps, i);
    TakesAck(m.coordinator, Delivered(config, m, inputs[i])) && Delivered(config, m, inputs[i]).actionId == id
  }

  lemma GivenIsDelivered(config: Config, m: State, i: Input)
    ensures GivenFrame(config, m, i).feedback == Delivered(config, m, i)
  {
    hide AdmittedOf, Dispatch, ObserveActive, RequestIn, CameraOf, ExecutionOf;
  }

  lemma HearsInFrames(config: Config, inputs: seq<Input>, steps: seq<Step>, i: nat, id: ActionId)
    requires IsRun(config, inputs, steps) && i < |inputs|
    ensures |FramesOf(config, inputs, steps, |inputs|)| == |inputs|
    ensures HearsAck(config, inputs, steps, i, id)
        <==> AckedIn(config.command, FramesOf(config, inputs, steps, |inputs|), i, id)
  {
    hide GivenFrame, Before, Mission.Compute, FramesOf, Delivered, TakesAck, StateBefore, QueuesOnlyLocomotion;
    RunsAgree(config, inputs, steps, i);
    GivenIsDelivered(config, Before(config, steps, i), inputs[i]);
  }

  /** Every frame of the supervisor names the newest order outstanding, as an ACTION
      exactly as long as the coordinator has not been told of its ACK and no timeout has
      struck; with nothing outstanding it names nothing. */
  lemma SupervisorRepeatsUntilAck(config: Config, inputs: seq<Input>, steps: seq<Step>, k: nat)
    requires IsRun(config, inputs, steps) && k < |inputs|
    requires |Run(config.command, FramesOf(config, inputs, steps, |inputs|)).issued| <= ID_MODULUS - 1
    ensures var c, command := steps[k].state.coordinator, steps[k].command;
            var o := Outstanding(c);
            if o == [] then command == IDLE_COMMAND.(mission := command.mission, camera := command.camera)
            else
              && OrderOf(command) == o[|o| - 1] && command.actionId != 0
              && (command.commandType.ActionCommand?
                  <==> !c.timedOut && forall i :: 0 <= i <= k ==> !HearsAck(config, inputs, steps, i, command.actionId))
  {
    hide GivenFrame, Before, Mission.Compute, FramesOf, HearsAck, AckedIn, Run, Outstanding, QueuesOnlyLocomotion,
         CoordinatorRuns.Step, CoordinatorRuns.OutputAt;
    var frames, command := FramesOf(config, inputs, steps, |inputs|), steps[k].command;
    RunsAgree(config, inputs, steps, k);
    StateAfter(config, inputs, steps, k);
    IssuedGrows(config.command, frames, k + 1);
    RepeatsUntilAck(config.command, frames, k);
    RunChained(config.command, frames[..k + 1]);
    if Outstanding(steps[k].state.coordinator) != [] { NewestIsOut(config.command, Run(config.command, frames[..k + 1])); }
    forall i | 0 <= i <= k
      ensures HearsAck(config, inputs, steps, i, command.actionId) <==> AckedIn(config.command, frames, i, command.actionId)
    {
      HearsInFrames(config, inputs, steps, i, command.actionId);
    }
  }

  lemma NewestIsOut(config: CommandConfig, h: History)
    requires Chained(config, h) && Outstanding(h.state) != []
    ensures var o := Outstanding(h.state); h.issued != [] && Newest(h) == o[|o| - 1] && o[|o| - 1].id != 0
  {
    OutstandingIsNewest(config, h);
  }

  lemma StateAfter(config: Config, inputs: seq<Input>, steps: seq<Step>, k: nat)
    requires IsRun(config, inputs, steps) && k < |inputs|
    ensures var frames := FramesOf(config, inputs, steps, |inputs|);
            |frames| == |inputs| && Run(config.command, frames[..k + 1]).state == steps[k].state.coordinator
  {
    hide GivenFrame, Mission.Compute, FramesOf, Run, Before;
    FramesPrefix(config, inputs, steps, k + 1, |inputs|);
    DrivesCoordinator(config, inputs, steps, k + 1);
    RunStep(config, inputs, steps, k);
  }
}
