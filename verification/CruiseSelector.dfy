/** The three-way steering decision. */
module CruiseSelector {
  import opened Types

  function SelectCruiseDecision(applicable: bool, valid: bool, error: real, deadband: real): CruiseDecision {
    CruiseDecision(
      applicable,
      if !applicable || !valid || deadband < 0.0 then NoDirection
      else if error < -deadband then CruiseLeft
      else if error > deadband then CruiseRight
      else CruiseStraight,
      error,
      deadband)
  }

  function CruiseAction(direction: CruiseDirection): MissionAction {
    match direction
    case CruiseLeft => StepForwardLeft
    case CruiseStraight => StepForwardFive
    case CruiseRight => StepForwardRight
    case NoDirection => NoAction
  }

  /** Each direction is selected by an interval of errors: whatever lies between
      two errors that select it selects it too. */
  lemma DirectionIsConvex(low: real, error: real, high: real, deadband: real, direction: CruiseDirection)
    requires low <= error <= high
    requires SelectCruiseDecision(true, true, low, deadband).direction == direction
    requires SelectCruiseDecision(true, true, high, deadband).direction == direction
    ensures SelectCruiseDecision(true, true, error, deadband).direction == direction
  {
  }
}
