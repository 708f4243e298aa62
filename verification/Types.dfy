/** The value types shared by every component: missions, actions, requests,
    commands, camera and delivery feedback. */
module Types {

  datatype Option<+T> = None | Some(value: T)

  /** Width of the action identifier; arithmetic on identifiers wraps here. */
  const ID_MODULUS: nat := 0x1_0000_0000_0000_0000

  /** An unsigned 64-bit action identifier. Zero means "no action". */
  type ActionId = n: nat | n < ID_MODULUS

  function Max(a: int, b: int): int { if a < b then b else a }

  function MaxReal(a: real, b: real): real { if a < b then b else a }

  function MinReal(a: real, b: real): real { if b < a then b else a }

  function Clamp(value: real, low: real, high: real): real { MaxReal(low, MinReal(high, value)) }

  function AbsReal(a: real): real { if a < 0.0 then -a else a }

  /** Slack of the time comparisons. */
  const EPSILON: real := 0.000000001

  /** A divisor that is never zero. */
  function Denom(value: real): real { MaxReal(value, 0.000001) }

  datatype MissionType = NoMission | LineMission | BallMission | GoalMission | HurdleMission

  datatype MissionAction =
    | NoAction
    | DefaultPosition
    | DefaultPoseMode
    | StepForwardHalf
    | StepBack
    | LeftSideStep
    | RightSideStep
    | TurnLeft
    | TurnRight
    | WalkMode
    | StepForwardOne
    | StepForwardLeft
    | StepForwardRight
    | StepForwardFive
    | PickBall
    | Recatch
    | CrossHurdle
    | Shoot
    | TurnLeftAndStep
    | TurnRightAndStep
    | ContactWalk

  /** Mission actions are one-shot state transitions; locomotion is a repeatable
      walking primitive. */
  datatype ActionCategory = NoCategory | MissionCategory | LocomotionCategory

  datatype CommandType = ActionCommand | HoldCommand

  datatype ControlPhase =
    | MissionPhase
    | WaitingActionAck
    | WaitingActionDone
    | WaitingQueuedActionAck
    | WaitingQueuedActionStart
    | ActionAckTimedOut

  datatype CameraMode = ForwardView | DownView | TransitionView | GoalView

  datatype CameraRequest = NoCamera | CameraDown | CameraForward | CameraGoal

  datatype CameraFeedback = CameraFeedback(actualMode: CameraMode, settled: bool)

  datatype ActionRequest =
    ActionRequest(action: MissionAction, category: ActionCategory, yawDeg: int, lineQueueEligible: bool)

  const NO_REQUEST := ActionRequest(NoAction, NoCategory, 0, false)

  function Locomotion(action: MissionAction, yawDeg: int): ActionRequest {
    ActionRequest(action, LocomotionCategory, yawDeg, false)
  }

  function MissionRequest(action: MissionAction, yawDeg: int): ActionRequest {
    ActionRequest(action, MissionCategory, yawDeg, false)
  }

  predicate IsLongLineAction(action: MissionAction) {
    action == StepForwardFive || action == StepForwardLeft || action == StepForwardRight
  }

  datatype ControlCommand = ControlCommand(
    commandType: CommandType,
    mission: MissionType,
    phase: ControlPhase,
    action: MissionAction,
    category: ActionCategory,
    actionId: ActionId,
    yawDeg: int,
    camera: CameraRequest)

  /** The command a fresh ControlCommand value denotes: hold, nothing to do. */
  const IDLE_COMMAND := ControlCommand(HoldCommand, LineMission, MissionPhase, NoAction, NoCategory, 0, 0, NoCamera)

  /** ACK, DONE and READY bits reported for one action identifier. */
  datatype DeliveryFeedback = DeliveryFeedback(actionId: ActionId, acknowledged: bool, done: bool, ready: bool)

  const NO_FEEDBACK := DeliveryFeedback(0, false, false, false)

  /** What a mission controller is told about the action in flight. */
  datatype ActionExecution = ActionExecution(done: bool, active: bool)

  predicate Busy(e: ActionExecution) { e.active && !e.done }

  predicate Free(e: ActionExecution) { !e.active && !e.done }

  datatype Point2 = Point2(u: real, v: real)

  datatype ObjectTarget = ObjectTarget(
    confidence: real,
    boxY: real,
    boxHeight: real,
    center: Point2,
    rectifiedCenter: Point2,
    widthPx: real,
    heightPx: real,
    areaPx: real,
    centerRectified: bool)

  /** Minimal line geometry used by the motion decision; right is positive. */
  datatype LineGuide = LineGuide(
    offset: real,
    headingRad: real,
    curvatureRad: real,
    confidence: real,
    valid: bool,
    curvatureValid: bool)

  const INVALID_GUIDE := LineGuide(0.0, 0.0, 0.0, 0.0, false, false)

  datatype CruiseDirection = NoDirection | CruiseLeft | CruiseStraight | CruiseRight

  datatype CruiseDecision =
    CruiseDecision(applicable: bool, direction: CruiseDirection, error: real, deadband: real)
}
