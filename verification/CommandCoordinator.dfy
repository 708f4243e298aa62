/** The command coordinator: one pending action, at most one pre-queued line
    action, sticky ACK/READY bits, promotion on DONE, one-shot suppression of
    mission actions and the ACK-timeout fail-stop. */
module CommandCoordinator {
  import opened Types

  datatype CommandConfig = CommandConfig(firstActionId: ActionId, ackTimeoutSec: real)

  /** The fields of the coordinator as one value. */
  datatype CoordinatorState = CoordinatorState(
    nextId: ActionId,
    pendingId: ActionId,
    pendingMission: MissionType,
    pendingRequest: ActionRequest,
    pendingIssuedSec: real,
    pendingAck: bool,
    pendingReady: bool,
    queuedId: ActionId,
    queuedRequest: ActionRequest,
    queuedIssuedSec: real,
    queuedAck: bool,
    timedOut: bool,
    suppressed: MissionAction)

  datatype Outcome = Outcome(state: CoordinatorState, command: ControlCommand)

  /** The successor of an identifier, wrapping past zero. */
  function NextId(id: ActionId): ActionId {
    if id + 1 == ID_MODULUS then 1 else id + 1
  }

  function FirstId(config: CommandConfig): ActionId {
    if config.firstActionId == 0 then 1 else config.firstActionId
  }

  function Initial(config: CommandConfig): CoordinatorState {
    CoordinatorState(FirstId(config), 0, LineMission, NO_REQUEST, 0.0, false, false,
                     0, NO_REQUEST, 0.0, false, false, NoAction)
  }

  // ----- Specification of one coordinator step -----

  function AbsorbQueuedAck(c: CoordinatorState, feedback: DeliveryFeedback): CoordinatorState {
    if !c.timedOut && c.queuedId != 0 && feedback.actionId == c.queuedId
    then c.(queuedAck := c.queuedAck || feedback.acknowledged)
    else c
  }

  /** The pending action is finished: the queued one, if any, takes its place. */
  function CompletePending(c: CoordinatorState): CoordinatorState {
    var c := if c.pendingRequest.category.MissionCategory? then c.(suppressed := c.pendingRequest.action) else c;
    if c.queuedId != 0 then
      c.(pendingId := c.queuedId, pendingMission := LineMission, pendingRequest := c.queuedRequest,
         pendingIssuedSec := c.queuedIssuedSec, pendingAck := c.queuedAck, pendingReady := false,
         queuedId := 0, queuedRequest := NO_REQUEST, queuedIssuedSec := 0.0, queuedAck := false)
    else
      c.(pendingId := 0, pendingRequest := NO_REQUEST, pendingAck := false, pendingReady := false)
  }

  function AbsorbPending(c: CoordinatorState, feedback: DeliveryFeedback): CoordinatorState {
    if !c.timedOut && c.pendingId != 0 && feedback.actionId == c.pendingId then
      var c := c.(pendingAck := c.pendingAck || feedback.acknowledged,
                  pendingReady := c.pendingReady || feedback.ready);
      if feedback.done then CompletePending(c) else c
    else c
  }

  predicate AckOverdue(c: CoordinatorState, timeout: real, nowSec: real) {
    || (c.pendingId != 0 && !c.pendingAck && nowSec - c.pendingIssuedSec >= timeout)
    || (c.queuedId != 0 && !c.queuedAck && nowSec - c.queuedIssuedSec >= timeout)
  }

  function CheckTimeout(config: CommandConfig, c: CoordinatorState, nowSec: real): CoordinatorState {
    var timeout := MaxReal(0.0, config.ackTimeoutSec);
    if !c.timedOut && timeout > 0.0 then c.(timedOut := AckOverdue(c, timeout, nowSec)) else c
  }

  function Absorb(config: CommandConfig, c: CoordinatorState, feedback: DeliveryFeedback, nowSec: real): CoordinatorState {
    CheckTimeout(config, AbsorbPending(AbsorbQueuedAck(c, feedback), feedback), nowSec)
  }

  function BlankCommand(mission: MissionType, camera: CameraRequest): ControlCommand {
    IDLE_COMMAND.(mission := mission, camera := camera)
  }

  function WithRequest(command: ControlCommand, id: ActionId, request: ActionRequest): ControlCommand {
    command.(actionId := id, action := request.action, category := request.category, yawDeg := request.yawDeg)
  }

  /** The command that repeats the newest undelivered action. */
  function PendingCommand(c: CoordinatorState, command: ControlCommand): ControlCommand {
    if c.queuedId != 0 then
      WithRequest(command, c.queuedId, c.queuedRequest).(
        mission := LineMission,
        commandType := if c.queuedAck then HoldCommand else ActionCommand,
        phase := if c.queuedAck then WaitingQueuedActionStart else WaitingQueuedActionAck)
    else
      WithRequest(command, c.pendingId, c.pendingRequest).(
        mission := c.pendingMission,
        commandType := if c.pendingAck then HoldCommand else ActionCommand,
        phase := if c.pendingAck then WaitingActionDone else WaitingActionAck)
  }

  function BeginAction(c: CoordinatorState, command: ControlCommand, request: ActionRequest, nowSec: real): Outcome {
    Outcome(
      c.(pendingId := c.nextId, nextId := NextId(c.nextId), pendingMission := command.mission,
         pendingRequest := request, pendingIssuedSec := nowSec, pendingAck := false, pendingReady := false),
      WithRequest(command, c.nextId, request).(commandType := ActionCommand, phase := WaitingActionAck))
  }

  function BeginQueuedLineAction(c: CoordinatorState, command: ControlCommand, request: ActionRequest, nowSec: real): Outcome {
    Outcome(
      c.(queuedId := c.nextId, nextId := NextId(c.nextId), queuedRequest := request,
         queuedIssuedSec := nowSec, queuedAck := false),
      WithRequest(command, c.nextId, request).(commandType := ActionCommand, phase := WaitingQueuedActionAck))
  }

  predicate MayQueue(c: CoordinatorState, mission: MissionType, request: ActionRequest) {
    && c.queuedId == 0 && c.pendingReady && c.pendingMission.LineMission?
    && c.pendingRequest.category.LocomotionCategory? && IsLongLineAction(c.pendingRequest.action)
    && mission.LineMission? && request.lineQueueEligible && !request.action.NoAction?
  }

  /** What is emitted once feedback and timeout have been taken in. */
  function Emit(c: CoordinatorState, mission: MissionType, request: ActionRequest, camera: CameraRequest, nowSec: real): Outcome {
    var command := BlankCommand(mission, camera);
    if c.timedOut then
      Outcome(c, PendingCommand(c, command).(commandType := HoldCommand, phase := ActionAckTimedOut))
    else if c.pendingId != 0 then
      if MayQueue(c, mission, request) then BeginQueuedLineAction(c, command, request, nowSec)
      else Outcome(c, PendingCommand(c, command))
    else if request.action.NoAction? then
      Outcome(c.(suppressed := NoAction), command)
    else if request.category.MissionCategory? && request.action == c.suppressed then
      Outcome(c, command)
    else
      BeginAction(c, command, request, nowSec)
  }

  function Compute(config: CommandConfig, c: CoordinatorState, mission: MissionType, request: ActionRequest,
                   camera: CameraRequest, feedback: DeliveryFeedback, nowSec: real): Outcome
  {
    Emit(Absorb(config, c, feedback, nowSec), mission, request, camera, nowSec)
  }

  // ----- The coordinator object -----

  class ControlCommandCoordinator {
    const config: CommandConfig
    var nextActionId: ActionId
    var pendingActionId: ActionId
    var pendingMission: MissionType
    var pendingRequest: ActionRequest
    var pendingIssuedSec: real
    var pendingAcknowledged: bool
    var pendingReady: bool
    var queuedActionId: ActionId
    var queuedRequest: ActionRequest
    var queuedIssuedSec: real
    var queuedAcknowledged: bool
    var actionAckTimedOut: bool
    var suppressedMissionAction: MissionAction
    var nowSec: real

    function View(): CoordinatorState
      reads this
    {
      CoordinatorState(nextActionId, pendingActionId, pendingMission, pendingRequest, pendingIssuedSec,
                       pendingAcknowledged, pendingReady, queuedActionId, queuedRequest, queuedIssuedSec,
                       queuedAcknowledged, actionAckTimedOut, suppressedMissionAction)
    }

    constructor (config: CommandConfig)
      ensures this.config == config && View() == Initial(config)
    {
      this.config := config;
      nextActionId := if config.firstActionId == 0 then 1 else config.firstActionId;
      pendingActionId, pendingMission, pendingRequest := 0, LineMission, NO_REQUEST;
      pendingIssuedSec, pendingAcknowledged, pendingReady := 0.0, false, false;
      queuedActionId, queuedRequest := 0, NO_REQUEST;
      queuedIssuedSec, queuedAcknowledged := 0.0, false;
      actionAckTimedOut, suppressedMissionAction := false, NoAction;
      nowSec := 0.0;
    }

    /** Takes the next identifier, skipping zero on wrap-around. */
    method AllocateId() returns (id: ActionId)
      modifies `nextActionId
      ensures id == old(nextActionId) && nextActionId == NextId(id)
    {
      id := nextActionId;
      nextActionId := (nextActionId + 1) % ID_MODULUS;
      if nextActionId == 0 { nextActionId := 1; }
    }

    method BeginPendingAction(blank: ControlCommand, request: ActionRequest) returns (command: ControlCommand)
      modifies this
      ensures nowSec == old(nowSec)
      ensures Outcome(View(), command) == BeginAction(old(View()), blank, request, nowSec)
    {
      pendingActionId := AllocateId();
      pendingMission := blank.mission;
      pendingRequest := request;
      pendingIssuedSec := nowSec;
      pendingAcknowledged := false;
      pendingReady := false;
      command := blank.(commandType := ActionCommand, phase := WaitingActionAck, actionId := pendingActionId,
                        action := request.action, category := request.category, yawDeg := request.yawDeg);
    }

    method BeginQueuedAction(blank: ControlCommand, request: ActionRequest) returns (command: ControlCommand)
      modifies this
      ensures nowSec == old(nowSec)
      ensures Outcome(View(), command) == BeginQueuedLineAction(old(View()), blank, request, nowSec)
    {
      queuedActionId := AllocateId();
      queuedRequest := request;
      queuedIssuedSec := nowSec;
      queuedAcknowledged := false;
      command := blank.(commandType := ActionCommand, phase := WaitingQueuedActionAck, actionId := queuedActionId,
                        action := request.action, category := request.category, yawDeg := request.yawDeg);
    }

    method ClearQueued()
      modifies `queuedActionId, `queuedRequest, `queuedIssuedSec, `queuedAcknowledged
      ensures View() == old(View()).(queuedId := 0, queuedRequest := NO_REQUEST, queuedIssuedSec := 0.0, queuedAck := false)
    {
      queuedActionId, queuedRequest := 0, NO_REQUEST;
      queuedIssuedSec, queuedAcknowledged := 0.0, false;
    }

    /** DONE of the pending action: promotes the queued one or leaves nothing. */
    method FinishPending()
      modifies this
      ensures nowSec == old(nowSec)
      ensures View() == CompletePending(old(View()))
    {
      if pendingRequest.category.MissionCategory? {
        suppressedMissionAction := pendingRequest.action;
      }
      if queuedActionId != 0 {
        pendingActionId, pendingMission := queuedActionId, LineMission;
        pendingRequest, pendingIssuedSec := queuedRequest, queuedIssuedSec;
        pendingAcknowledged, pendingReady := queuedAcknowledged, false;
        ClearQueued();
      } else {
        pendingActionId, pendingRequest := 0, NO_REQUEST;
        pendingAcknowledged, pendingReady := false, false;
      }
    }

    method TakePendingFeedback(feedback: DeliveryFeedback)
      modifies this
      ensures nowSec == old(nowSec)
      ensures View() == AbsorbPending(old(View()), feedback)
    {
      if !actionAckTimedOut && pendingActionId != 0 && feedback.actionId == pendingActionId {
        pendingAcknowledged := pendingAcknowledged || feedback.acknowledged;
        pendingReady := pendingReady || feedback.ready;
        if feedback.done {
          FinishPending();
        }
      }
    }

    method TakeQueuedAck(feedback: DeliveryFeedback)
      modifies `queuedAcknowledged
      ensures View() == AbsorbQueuedAck(old(View()), feedback)
    {
      if !actionAckTimedOut && queuedActionId != 0 && feedback.actionId == queuedActionId {
        queuedAcknowledged := queuedAcknowledged || feedback.acknowledged;
      }
    }

    method UpdateTimeout()
      modifies `actionAckTimedOut
      ensures View() == CheckTimeout(config, old(View()), nowSec)
    {
      var timeout := MaxReal(0.0, config.ackTimeoutSec);
      if !actionAckTimedOut && timeout > 0.0 {
        actionAckTimedOut :=
          || (pendingActionId != 0 && !pendingAcknowledged && nowSec - pendingIssuedSec >= timeout)
          || (queuedActionId != 0 && !queuedAcknowledged && nowSec - queuedIssuedSec >= timeout);
      }
    }

    /** The emission half of a step; feedback has already been taken in. */
    method Issue(mission: MissionType, request: ActionRequest, camera: CameraRequest) returns (command: ControlCommand)
      modifies this
      ensures nowSec == old(nowSec)
      ensures Outcome(View(), command) == Emit(old(View()), mission, request, camera, nowSec)
    {
      command := BlankCommand(mission, camera);
      if actionAckTimedOut {
        command := PendingCommand(View(), command);
        command := command.(commandType := HoldCommand, phase := ActionAckTimedOut);
      } else if pendingActionId != 0 {
        if MayQueue(View(), mission, request) {
          command := BeginQueuedAction(command, request);
        } else {
          command := PendingCommand(View(), command);
        }
      } else if request.action.NoAction? {
        suppressedMissionAction := NoAction;
      } else if !(request.category.MissionCategory? && request.action == suppressedMissionAction) {
        command := BeginPendingAction(command, request);
      }
    }

    method Step(mission: MissionType, request: ActionRequest, camera: CameraRequest,
                feedback: DeliveryFeedback, now: real) returns (command: ControlCommand)
      modifies this
      ensures Outcome(View(), command) == Compute(config, old(View()), mission, request, camera, feedback, now)
    {
      nowSec := now;
      TakeQueuedAck(feedback);
      TakePendingFeedback(feedback);
      UpdateTimeout();
      command := Issue(mission, request, camera);
    }

    method ClearPending()
      modifies `pendingActionId, `pendingMission, `pendingRequest, `pendingIssuedSec, `pendingAcknowledged, `pendingReady
      ensures View() == old(View()).(pendingId := 0, pendingMission := LineMission, pendingRequest := NO_REQUEST,
                                     pendingIssuedSec := 0.0, pendingAck := false, pendingReady := false)
    {
      pendingActionId, pendingMission, pendingRequest := 0, LineMission, NO_REQUEST;
      pendingIssuedSec, pendingAcknowledged, pendingReady := 0.0, false, false;
    }

    method Reset()
      modifies this
      ensures View() == Initial(config) && nowSec == old(nowSec)
    {
      ClearQueued();
      ClearPending();
      nextActionId := if config.firstActionId == 0 then 1 else config.firstActionId;
      actionAckTimedOut, suppressedMissionAction := false, NoAction;
    }
  }
}
