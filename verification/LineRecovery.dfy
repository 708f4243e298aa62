/** The LINE state machine: cruise, stationary observation after a failure, a
    bounded number of recovery turns or retries, and the final hold. */
module LineRecovery {
  import opened Types
  import opened SlidingWindow
  import opened CruiseSelector
  import opened LineP2p

  datatype Config = Config(
    stableWindow: int,
    stableMinHits: int,
    steering: Steering,
    readyLeadSec: real,
    failureObservationSec: real,
    recoveryObservationSec: real,
    failureMinValidSamples: int,
    noEvidenceMaxRetries: int,
    recoveryMaxTurns: int,
    recoveryTurnYawDeg: int)

  datatype Mode = Normal | FailureObserve | RecoveryTurn | RecoveryObserve | FinalHold

  datatype Evidence = NoEvidence | LeftEvidence | RightEvidence

  /** The running sums of a stationary observation. */
  datatype Observation = Observation(
    active: bool,
    startSec: real,
    offsetSum: real,
    headingSum: real,
    confidenceSum: real,
    curvatureSum: real,
    validCount: nat,
    curvatureCount: nat)

  datatype State = State(
    mode: Mode,
    evidence: Evidence,
    observation: Observation,
    retries: nat,
    turns: nat,
    turnIssued: bool,
    stability: seq<bool>)

  datatype Outcome = Outcome(state: State, request: ActionRequest, referenceValid: bool)

  const NO_OBSERVATION := Observation(false, 0.0, 0.0, 0.0, 0.0, 0.0, 0, 0)

  const INITIAL := State(Normal, NoEvidence, NO_OBSERVATION, 0, 0, false, [])

  predicate Observing(mode: Mode) { mode.FailureObserve? || mode.RecoveryObserve? }

  function BeginObservation(s: State, mode: Mode, nowSec: real): State {
    s.(mode := mode, observation := Observation(true, nowSec, 0.0, 0.0, 0.0, 0.0, 0, 0))
  }

  function Accumulate(o: Observation, guide: LineGuide): Observation {
    if !o.active || !guide.valid then o
    else
      var o := o.(offsetSum := o.offsetSum + guide.offset, headingSum := o.headingSum + guide.headingRad,
                  confidenceSum := o.confidenceSum + guide.confidence, validCount := o.validCount + 1);
      if guide.curvatureValid then o.(curvatureSum := o.curvatureSum + guide.curvatureRad, curvatureCount := o.curvatureCount + 1)
      else o
  }

  function AddObservation(s: State, guide: LineGuide): State { s.(observation := Accumulate(s.observation, guide)) }

  /** The mean of the observation, if it holds enough valid samples. */
  function FinishObservation(config: Config, o: Observation): Option<LineGuide> {
    if o.validCount < Max(1, config.failureMinValidSamples) then None
    else
      var count, bends := o.validCount as real, o.curvatureCount > 0;
      Some(LineGuide(o.offsetSum / count, o.headingSum / count,
                     if bends then o.curvatureSum / o.curvatureCount as real else 0.0,
                     o.confidenceSum / count, true, bends))
  }

  function UpdateEvidence(evidence: Evidence, direction: CruiseDirection): Evidence {
    match direction
    case CruiseLeft => LeftEvidence
    case CruiseRight => RightEvidence
    case CruiseStraight => NoEvidence
    case NoDirection => evidence
  }

  function CruiseRequest(config: Config, guide: LineGuide): ActionRequest {
    var action := CruiseAction(Steer(config.steering, guide).direction);
    if action.NoAction? then NO_REQUEST else ActionRequest(action, LocomotionCategory, 0, true)
  }

  function TurnRequest(config: Config, left: bool): ActionRequest {
    Locomotion(if left then TurnLeft else TurnRight, Max(0, config.recoveryTurnYawDeg))
  }

  function Decide(config: Config, s: State, guide: LineGuide): State {
    s.(evidence := UpdateEvidence(s.evidence, Steer(config.steering, guide).direction))
  }

  function ResumeObservation(s: State, nowSec: real): State {
    if !s.observation.active && Observing(s.mode) then BeginObservation(s, s.mode, nowSec) else s
  }

  function RecordStability(config: Config, s: State, guide: LineGuide): State {
    s.(stability := Push(s.stability, s.mode.Normal? && guide.valid, config.stableWindow))
  }

  predicate ReferenceValid(config: Config, s: State) {
    s.mode.Normal? && Count(s.stability) >= Max(1, config.stableMinHits)
  }

  function TurnStep(config: Config, s: State, guide: LineGuide, nowSec: real, active: bool, done: bool): (State, ActionRequest) {
    if done then (AddObservation(BeginObservation(s.(turnIssued := false), RecoveryObserve, nowSec), guide), NO_REQUEST)
    else if active || s.turnIssued then (s, NO_REQUEST)
    else (s.(turnIssued := true, turns := s.turns + 1), TurnRequest(config, s.evidence.LeftEvidence?))
  }

  function ObservationSec(config: Config, mode: Mode): real {
    MaxReal(0.0, if mode.RecoveryObserve? then config.recoveryObservationSec else config.failureObservationSec)
  }

  /** The window was too poor: retry, turn, or give up. */
  function Escalate(config: Config, s: State, nowSec: real): State {
    if s.evidence.NoEvidence? then
      if s.retries < Max(0, config.noEvidenceMaxRetries) then
        BeginObservation(s.(retries := s.retries + 1), FailureObserve, nowSec)
      else s.(mode := FinalHold)
    else if s.turns < Max(0, config.recoveryMaxTurns) then s.(mode := RecoveryTurn, turnIssued := false)
    else s.(mode := FinalHold)
  }

  predicate WindowOver(config: Config, s: State, nowSec: real) {
    nowSec + EPSILON >= s.observation.startSec + ObservationSec(config, s.mode)
  }

  function ObserveStep(config: Config, s: State, guide: LineGuide, nowSec: real, active: bool): (State, ActionRequest) {
    if active then (s, NO_REQUEST)
    else
      var s := AddObservation(s, guide);
      if !WindowOver(config, s, nowSec) then (s, NO_REQUEST)
      else
        var observed := FinishObservation(config, s.observation);
        var s := s.(observation := s.observation.(active := false));
        if observed.Some? then
          (Decide(config, s.(mode := Normal, retries := 0, turns := 0), observed.value), CruiseRequest(config, observed.value))
        else (Escalate(config, s, nowSec), NO_REQUEST)
  }

  function NormalStep(config: Config, s: State, guide: LineGuide, nowSec: real, active: bool): (State, ActionRequest) {
    if active then (s, NO_REQUEST)
    else if !guide.valid then (AddObservation(BeginObservation(s, FailureObserve, nowSec), guide), NO_REQUEST)
    else (Decide(config, s, guide), CruiseRequest(config, guide))
  }

  /** One frame of the LINE machine. A window that ends in a turn runs the machine
      once more in the same frame, to issue that turn. */
  function Compute(config: Config, s: State, guide: LineGuide, nowSec: real, active: bool, done: bool): Outcome
    decreases if s.mode.RecoveryTurn? then 0 else 1
  {
    var s := RecordStability(config, ResumeObservation(s, nowSec), guide);
    var valid := ReferenceValid(config, s);
    match s.mode
    case FinalHold => Outcome(s, NO_REQUEST, valid)
    case RecoveryTurn =>
      var (s, request) := TurnStep(config, s, guide, nowSec, active, done);
      Outcome(s, request, valid)
    case Normal =>
      var (s, request) := NormalStep(config, s, guide, nowSec, active);
      Outcome(s, request, valid)
    case _ =>
      var (s, request) := ObserveStep(config, s, guide, nowSec, active);
      if s.mode.RecoveryTurn? then Compute(config, s, guide, nowSec, false, false) else Outcome(s, request, valid)
  }

  /** The walk whose READY found no line is done: observe from a standstill. */
  function FailAfterDone(s: State, guide: LineGuide, nowSec: real): State {
    AddObservation(BeginObservation(s, FailureObserve, nowSec), guide)
  }

  /** Back from an object mission: forget the direction and look for the line. */
  function Reacquire(s: State): State {
    s.(mode := FailureObserve, evidence := NoEvidence, retries := 0, turns := 0, turnIssued := false,
       observation := s.observation.(active := false), stability := [])
  }
}
