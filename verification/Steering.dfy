/** Which way the robot ought to go, given where its target is: right is positive. */
module Steering {
  import opened Types

  /** The long walk towards the side of the error; straight ahead within the deadband. */
  function WalkTowards(error: real, deadband: real): MissionAction {
    if deadband < 0.0 then NoAction
    else if error > deadband then StepForwardRight
    else if error < -deadband then StepForwardLeft
    else StepForwardFive
  }

  /** The turn towards the side of the error; none within the tolerance. */
  function TurnTowards(error: real, tolerance: real): ActionRequest {
    if -tolerance <= error <= tolerance then NO_REQUEST
    else Locomotion(if error > 0.0 || error == 0.0 then TurnRight else TurnLeft, 15)
  }
}
