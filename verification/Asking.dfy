/** What one step of an object controller asks for. */
module Asking {
  import opened Types

  datatype Ask = Ask(camera: CameraRequest, action: ActionRequest)

  predicate Quiet(a: Ask) { a.camera.NoCamera? && a.action.action.NoAction? }

  /** The walking and turning primitives, without the contact step of HURDLE. */
  predicate IsWalk(request: ActionRequest) {
    && request.category.LocomotionCategory?
    && (match request.action
        case StepForwardHalf => true
        case StepBack => true
        case LeftSideStep => true
        case RightSideStep => true
        case TurnLeft => true
        case TurnRight => true
        case StepForwardLeft => true
        case StepForwardRight => true
        case StepForwardFive => true
        case _ => false)
  }

  /** Nothing but walking or turning. */
  predicate OnlyWalks(a: Ask) { a.camera.NoCamera? && (a.action.action.NoAction? || IsWalk(a.action)) }

  predicate Asks(a: Ask, request: ActionRequest) { a.camera.NoCamera? && a.action == request }

  /** A camera motion, and no action with it. */
  predicate MovesCamera(a: Ask, camera: CameraRequest) { a.camera == camera && a.action.action.NoAction? }
}
