/** What the BALL controller keeps over whole runs. */
module BallProperties {
  import opened Types
  import opened SlidingWindow
  import opened Asking
  import opened BallController
  import opened TrackerRefinement

  // ----- The mode machine, without its perception -----

  const PICK := MissionRequest(PickBall, 0)
  const RECATCH := MissionRequest(Recatch, 0)
  const STAND_UP := MissionRequest(DefaultPosition, 0)
  const BACK_AWAY := Locomotion(StepBack, 0)

  /** The possible moves of one step: which mode follows, what is asked for, and
      what the action feedback must have been. `issued` tells that the step back has
      been asked for; BACK_AWAY is entered by asking for it and ends with its DONE. */
  predicate Moves(mode: Mode, hasBall: bool, issued: bool, e: ActionExecution, mode': Mode, hasBall': bool, issued': bool, r: Result) {
    var a := Ask(r.camera, r.action);
    && r.mode == mode' && r.hasBall == hasBall'
    && !r.action.lineQueueEligible && (mode'.LineFollow? ==> !r.active)
    && match mode
       case LineFollow =>
         || (mode' == LineFollow && hasBall' == hasBall && Quiet(a))
         || (mode' == Approach && !hasBall && !hasBall' && OnlyWalks(a))
         || (mode' == WaitCameraDown && !hasBall && !hasBall' && !Busy(e) && MovesCamera(a, CameraDown))
       case Approach =>
         && hasBall' == hasBall
         && (|| (mode' == RecoveryForward && Quiet(a))
             || (mode' == Approach && OnlyWalks(a))
             || (mode' == WaitCameraDown && !Busy(e) && MovesCamera(a, CameraDown)))
       case WaitCameraDown =>
         && hasBall' == hasBall
         && ((mode' == WaitCameraDown && MovesCamera(a, CameraDown)) || ((mode' == FineAdjust || mode' == Failed) && Quiet(a)))
       case FineAdjust =>
         && hasBall' == hasBall
         && (|| (mode' == FineAdjust && (Quiet(a) || (Free(e) && OnlyWalks(a))))
             || (mode' == RecoveryDown && Free(e) && Quiet(a))
             || (mode' == Pickup && Free(e) && Asks(a, PICK)))
       case Pickup =>
         && hasBall' == hasBall
         && ((mode' == Pickup && !e.done && Asks(a, PICK)) || (mode' == VerifyPickup && e.done && Asks(a, RECATCH)))
       case VerifyPickup =>
         && hasBall' == hasBall
         && ((mode' == VerifyPickup && !e.done && Asks(a, RECATCH)) || (mode' == VerifyObservation && e.done && Quiet(a)))
       case VerifyObservation =>
         || (mode' == VerifyObservation && hasBall' == hasBall && Quiet(a))
         || (mode' == StandUp && (hasBall' || hasBall' == hasBall) && Asks(a, STAND_UP))
         || (mode' == FineAdjust && hasBall' == hasBall && Quiet(a))
       case StandUp =>
         && hasBall' == hasBall
         && (|| (mode' == StandUp && !e.done && Asks(a, STAND_UP))
             || (mode' == BackAway && issued' && e.done && hasBall && Asks(a, BACK_AWAY))
             || (mode' == ReturnCamera && e.done && !hasBall && MovesCamera(a, CameraForward)))
       case BackAway =>
         && hasBall' == hasBall
         && (|| (mode' == BackAway && issued' && !(issued && e.done) && Asks(a, BACK_AWAY))
             || (mode' == ReturnCamera && e.done && MovesCamera(a, CameraForward)))
       case ReturnCamera =>
         && hasBall' == hasBall
         && ((mode' == ReturnCamera && MovesCamera(a, CameraForward)) || (mode' == LineRecovery && Quiet(a)))
       case LineRecovery => mode' == LineRecovery && hasBall' == hasBall && Quiet(a)
       case RecoveryForward =>
         && hasBall' == hasBall
         && (|| (mode' == RecoveryForward && (Quiet(a) || (Free(e) && OnlyWalks(a))))
             || ((mode' == Approach || mode' == Failed) && Free(e) && Quiet(a)))
       case RecoveryDown =>
         && hasBall' == hasBall
         && (|| (mode' == RecoveryDown && (Quiet(a) || (Free(e) && OnlyWalks(a))))
             || ((mode' == FineAdjust || mode' == Failed) && Free(e) && Quiet(a)))
       case Failed => mode' == Failed && hasBall' == hasBall && Quiet(a)
  }

  ghost predicate StepMoves(s: State, i: Input, out: Step) {
    Moves(s.mode, s.hasBall, s.backAwayIssued, i.execution, out.state.mode, out.state.hasBall, out.state.backAwayIssued, out.result)
  }

  lemma ApproachMoves(config: Config, s: State, i: Input)
    requires s.mode.Approach? || s.mode.WaitCameraDown?
    ensures StepMoves(s, i, if s.mode.Approach? then ApproachStep(config, s, i) else WaitCameraDownStep(config, s, i))
  {
  }

  lemma FineAdjustMoves(config: Config, s: State, i: Input)
    requires s.mode.FineAdjust?
    ensures StepMoves(s, i, FineAdjustStep(config, s, i))
  {
  }

  lemma PickupMoves(s: State, i: Input)
    requires s.mode.Pickup? || s.mode.VerifyPickup?
    ensures StepMoves(s, i, if s.mode.Pickup? then PickupStep(s, i) else VerifyPickupStep(s, i))
  {
  }

  lemma VerifyObservationMoves(config: Config, s: State, i: Input)
    requires s.mode.VerifyObservation?
    ensures StepMoves(s, i, VerifyObservationStep(config, s, i))
  {
  }

  lemma ReturnMoves(s: State, i: Input)
    requires s.mode.StandUp? || s.mode.BackAway? || s.mode.ReturnCamera?
    ensures StepMoves(s, i, if s.mode.StandUp? then StandUpStep(s, i)
                            else if s.mode.BackAway? then BackAwayStep(s, i) else ReturnCameraStep(s, i))
  {
  }

  lemma RecoveryMoves(config: Config, s: State, i: Input)
    requires s.mode.RecoveryForward? || s.mode.RecoveryDown?
    ensures StepMoves(s, i, RecoveryStep(config, s, i))
  {
    hide Max, AbsReal;
  }

  lemma RestMoves(s: State, i: Input)
    requires s.mode.LineRecovery? || s.mode.Failed?
    ensures StepMoves(s, i, Step(s, BaseResult(s)))
  {
  }

  lemma ModeStepMoves(config: Config, s: State, i: Input)
    requires !s.mode.LineFollow?
    ensures StepMoves(s, i, ModeStep(config, s, i))
  {
    hide StepMoves, ApproachStep, WaitCameraDownStep, FineAdjustStep, PickupStep, VerifyPickupStep,
         VerifyObservationStep, StandUpStep, BackAwayStep, ReturnCameraStep, RecoveryStep;
    match s.mode {
      case Approach => ApproachMoves(config, s, i);
      case WaitCameraDown => ApproachMoves(config, s, i);
      case FineAdjust => FineAdjustMoves(config, s, i);
      case Pickup => PickupMoves(s, i);
      case VerifyPickup => PickupMoves(s, i);
      case VerifyObservation => VerifyObservationMoves(config, s, i);
      case StandUp => ReturnMoves(s, i);
      case BackAway => ReturnMoves(s, i);
      case ReturnCamera => ReturnMoves(s, i);
      case RecoveryForward => RecoveryMoves(config, s, i);
      case RecoveryDown => RecoveryMoves(config, s, i);
      case LineRecovery => RestMoves(s, i);
      case Failed => RestMoves(s, i);
    }
  }

  /** Every step of the controller is one of the possible moves. */
  lemma ComputeMoves(config: Config, s: State, i: Input)
    ensures StepMoves(s, i, Compute(config, s, i))
  {
    var observed := ObserveOnly(config, s, i.target, i.width, i.height);
    var acquired := Acquire(config, observed, i.nowSec);
    FreshTracksAreNotLost(config, s, i);
    if !Ignoring(s, i.nowSec) && !acquired.mode.LineFollow? {
      ModeStepMoves(config, acquired, i);
      hide Track, Count, Push, ModeStep;
      if s.mode.LineFollow? {
        ApproachFromLine(config, acquired, i);
      }
    }
  }

  /** A visible track has been seen in this very frame. */
  lemma FreshTracksAreNotLost(config: Config, s: State, i: Input)
    ensures var t := Track(config, s.tracker, i.target, i.width, i.height);
            t.tracked.visible ==> t.lost == 0
  {
    hide Push, Count, Clamp, Denom, Smooth;
  }

  lemma ApproachFromLine(config: Config, s: State, i: Input)
    requires s.mode.Approach? && s.tracker.lost == 0
    ensures !ModeStep(config, s, i).state.mode.RecoveryForward?
  {
  }

  // ----- Whole runs -----

  /** Everything the program does to the controller, short of Reset. */
  datatype Event =
    | Frame(input: Input)
    | Observe(target: Option<ObjectTarget>, width: int, height: int)
    | ClearObservations
    | ClearEntry
    | FinishRecovery(nowSec: real)
    | TakeBallState(hasBall: bool)

  function Apply(config: Config, s: State, e: Event): State {
    match e
    case Frame(i) => Compute(config, s, i).state
    case Observe(target, width, height) => ObserveOnly(config, s, target, width, height)
    case ClearObservations => ClearHistory(s)
    case ClearEntry => ClearEntryEvidence(s)
    case FinishRecovery(nowSec) => CompleteLineRecovery(config, s, nowSec)
    case TakeBallState(hasBall) => s.(hasBall := hasBall)
  }

  function SightingOf(config: Config, target: Option<ObjectTarget>, width: int, height: int): Sighting {
    if Detected(target, width, height) then
      var o := Observed(target.value, width, height);
      Sighting(true, IsUpper(config, target, width, height), IsLow(config, target, width, height), o.u, o.v)
    else Sighting(false, false, false, 0.0, 0.0)
  }

  /** The sighting this event adds to the tracker, if it looks at the image at all. */
  function Sees(config: Config, s: State, e: Event): seq<Sighting> {
    match e
    case Frame(i) =>
      if Ignoring(s, i.nowSec) || CameraMoving(s.mode) then [] else [SightingOf(config, i.target, i.width, i.height)]
    case Observe(target, width, height) =>
      if CameraMoving(s.mode) then [] else [SightingOf(config, target, width, height)]
    case _ => []
  }

  /** Entering the next phase of a pick discards what was seen before. */
  predicate Forgets(mode: Mode, mode': Mode) {
    || (mode.WaitCameraDown? && mode'.FineAdjust?)
    || (mode.Pickup? && mode'.VerifyPickup?)
    || (mode.VerifyPickup? && mode'.VerifyObservation?)
    || (mode.VerifyObservation? && mode'.FineAdjust?)
  }

  predicate Clears(s: State, e: Event, s': State) {
    match e
    case Frame(_) => Forgets(s.mode, s'.mode)
    case Observe(_, _, _) => false
    case ClearObservations => true
    case ClearEntry => s.mode.LineFollow?
    case FinishRecovery(_) => s.mode.LineRecovery?
    case TakeBallState(_) => false
  }

  /** A run: the state, the sightings since the last clear, the sightings since the
      last completed RECATCH, and the picks of the current engagement. */
  datatype Journal = Journal(state: State, since: seq<Sighting>, afterRecatch: seq<Sighting>, picks: nat)

  function Record(config: Config, j: Journal, e: Event): Journal {
    var s' := Apply(config, j.state, e);
    var seen := Sees(config, j.state, e);
    Journal(s',
            if Clears(j.state, e, s') then [] else j.since + seen,
            if j.state.mode.VerifyPickup? && s'.mode.VerifyObservation? then [] else j.afterRecatch + seen,
            if j.state.mode.LineFollow? && !s'.mode.LineFollow? then 0
            else if !j.state.mode.Pickup? && s'.mode.Pickup? then j.picks + 1
            else j.picks)
  }

  function Run(config: Config, events: seq<Event>): Journal {
    if events == [] then Journal(INITIAL, [], [], 0)
    else Record(config, Run(config, events[..|events| - 1]), events[|events| - 1])
  }

  // ----- Tracker refinement -----

  function WindowsOf(config: Config): Windows {
    Windows(config.stableWindow, config.tiltDownWindow, config.stableMinHits, config.smoothAlpha)
  }

  function FieldsOf(t: Tracker): Fields {
    Fields(t.hits, t.upper, t.tilt, t.lost, t.tracked.visible, t.tracked.stable, t.hasSmoothed, t.tracked.u, t.tracked.v)
  }

  lemma TrackAdvances(config: Config, t: Tracker, target: Option<ObjectTarget>, width: int, height: int)
    ensures FieldsOf(Track(config, t, target, width, height))
         == Advance(WindowsOf(config), FieldsOf(t), SightingOf(config, target, width, height))
  {
    hide Push, Count, Clamp, Denom, Smooth, Max;
  }

  /** How one step of the mode machine moves the tracker and the attempt counter. */
  ghost predicate Bookkeeps(config: Config, s: State, s': State) {
    && FieldsOf(s'.tracker) == (if Forgets(s.mode, s'.mode) then CLEARED else FieldsOf(s.tracker))
    && s'.attempts == (if !s.mode.Pickup? && s'.mode.Pickup? then s.attempts + 1 else s.attempts)
    && (s.mode.LineFollow? <==> s'.mode.LineFollow?)
    && (s'.mode.Approach? || s'.mode.WaitCameraDown? || s'.mode.RecoveryForward? ==>
          s.mode.Approach? || s.mode.WaitCameraDown? || s.mode.RecoveryForward?)
    && (s'.mode.FineAdjust? || s'.mode.RecoveryDown? ==>
          || s.mode.FineAdjust? || s.mode.RecoveryDown? || s.mode.WaitCameraDown?
          || (s.mode.VerifyObservation? && s.attempts < Max(1, config.pickupMaxAttempts)))
    && (s'.mode.Pickup? ==> s.mode.Pickup? || s.mode.FineAdjust?)
  }

  lemma ApproachBookkeeps(config: Config, s: State, i: Input)
    requires s.mode.Approach? || s.mode.WaitCameraDown?
    ensures Bookkeeps(config, s, (if s.mode.Approach? then ApproachStep(config, s, i) else WaitCameraDownStep(config, s, i)).state)
  {
    hide Count, FarAction, BaseResult;
  }

  lemma FineAdjustBookkeeps(config: Config, s: State, i: Input)
    requires s.mode.FineAdjust?
    ensures Bookkeeps(config, s, FineAdjustStep(config, s, i).state)
  {
    hide Count, BaseResult;
  }

  lemma PickupBookkeeps(config: Config, s: State, i: Input)
    requires s.mode.Pickup? || s.mode.VerifyPickup?
    ensures Bookkeeps(config, s, (if s.mode.Pickup? then PickupStep(s, i) else VerifyPickupStep(s, i)).state)
  {
    hide BaseResult;
  }

  lemma VerifyBookkeeps(config: Config, s: State, i: Input)
    requires s.mode.VerifyObservation?
    ensures Bookkeeps(config, s, VerifyObservationStep(config, s, i).state)
  {
    hide Count, BaseResult;
  }

  lemma ReturnBookkeeps(config: Config, s: State, i: Input)
    requires s.mode.StandUp? || s.mode.BackAway? || s.mode.ReturnCamera?
    ensures Bookkeeps(config, s, (if s.mode.StandUp? then StandUpStep(s, i)
                                  else if s.mode.BackAway? then BackAwayStep(s, i) else ReturnCameraStep(s, i)).state)
  {
    hide BaseResult;
  }

  lemma RecoveryKeepsTracker(config: Config, s: State, i: Input)
    requires s.mode.RecoveryForward? || s.mode.RecoveryDown?
    ensures var s' := RecoveryStep(config, s, i).state;
            && s'.tracker == s.tracker.(recoveryVisible := s'.tracker.recoveryVisible) && s'.attempts == s.attempts
            && (s'.mode == s.mode || s'.mode.Failed? || s'.mode == if s.mode.RecoveryDown? then FineAdjust else Approach)
  {
    hide RecoveryAction, BaseResult;
  }

  lemma RecoveryBookkeeps(config: Config, s: State, i: Input)
    requires s.mode.RecoveryForward? || s.mode.RecoveryDown?
    ensures Bookkeeps(config, s, RecoveryStep(config, s, i).state)
  {
    RecoveryKeepsTracker(config, s, i);
    hide RecoveryStep;
  }

  lemma ModeStepBookkeeps(config: Config, s: State, i: Input)
    ensures Bookkeeps(config, s, ModeStep(config, s, i).state)
  {
    hide ApproachStep, WaitCameraDownStep, FineAdjustStep, PickupStep, VerifyPickupStep, VerifyObservationStep,
         StandUpStep, BackAwayStep, ReturnCameraStep, RecoveryStep;
    match s.mode {
      case Approach => ApproachBookkeeps(config, s, i);
      case WaitCameraDown => ApproachBookkeeps(config, s, i);
      case FineAdjust => FineAdjustBookkeeps(config, s, i);
      case Pickup => PickupBookkeeps(config, s, i);
      case VerifyPickup => PickupBookkeeps(config, s, i);
      case VerifyObservation => VerifyBookkeeps(config, s, i);
      case StandUp => ReturnBookkeeps(config, s, i);
      case BackAway => ReturnBookkeeps(config, s, i);
      case ReturnCamera => ReturnBookkeeps(config, s, i);
      case RecoveryForward => RecoveryBookkeeps(config, s, i);
      case RecoveryDown => RecoveryBookkeeps(config, s, i);
      case _ =>
    }
  }

  lemma ObserveFields(config: Config, s: State, target: Option<ObjectTarget>, width: int, height: int)
    requires !CameraMoving(s.mode)
    ensures FieldsOf(ObserveOnly(config, s, target, width, height).tracker)
         == Advance(WindowsOf(config), FieldsOf(s.tracker), SightingOf(config, target, width, height))
  {
    TrackAdvances(config, s.tracker, target, width, height);
    hide Track, Advance, SightingOf, WindowsOf, FieldsOf;
  }

  lemma ModeStepFields(config: Config, s: State, i: Input)
    ensures var s' := ModeStep(config, s, i).state;
            FieldsOf(s'.tracker) == if Forgets(s.mode, s'.mode) then CLEARED else FieldsOf(s.tracker)
  {
    ModeStepBookkeeps(config, s, i);
    hide ModeStep, FieldsOf, Forgets;
  }

  lemma FrameFields(config: Config, s: State, i: Input)
    requires !Ignoring(s, i.nowSec)
    ensures var s' := Compute(config, s, i).state;
            FieldsOf(s'.tracker) == if Forgets(s.mode, s'.mode) then CLEARED
                                    else FieldsOf(ObserveOnly(config, s, i.target, i.width, i.height).tracker)
  {
    var observed := ObserveOnly(config, s, i.target, i.width, i.height);
    var acquired := Acquire(config, observed, i.nowSec);
    ModeStepFields(config, acquired, i);
    hide ModeStep, FieldsOf, Track, Count;
    assert acquired.tracker == observed.tracker;
    assert acquired.mode == s.mode || (s.mode.LineFollow? && acquired.mode.Approach?);
    hide Acquire;
  }

  /** Every event clears the tracker, advances it by one sighting, or leaves it. */
  lemma ApplyFields(config: Config, s: State, e: Event)
    ensures var s', seen := Apply(config, s, e), Sees(config, s, e);
            && |seen| <= 1
            && FieldsOf(s'.tracker) == if Clears(s, e, s') then CLEARED
                                       else if seen == [] then FieldsOf(s.tracker)
                                       else Advance(WindowsOf(config), FieldsOf(s.tracker), seen[0])
  {
    match e {
      case Frame(i) =>
        if !CameraMoving(s.mode) { ObserveFields(config, s, i.target, i.width, i.height); }
        if !Ignoring(s, i.nowSec) { FrameFields(config, s, i); }
        hide Advance, SightingOf, WindowsOf, FieldsOf, ModeStep, Acquire, Track;
        assert Ignoring(s, i.nowSec) ==> !Forgets(s.mode, s.mode);
      case Observe(target, width, height) =>
        hide Track, Advance, SightingOf, WindowsOf;
        if !CameraMoving(s.mode) { ObserveFields(config, s, target, width, height); }
      case _ =>
    }
  }

  lemma RecordRefines(config: Config, j: Journal, e: Event)
    requires Refines(WindowsOf(config), FieldsOf(j.state.tracker), j.since)
    ensures var j' := Record(config, j, e);
            Refines(WindowsOf(config), FieldsOf(j'.state.tracker), j'.since)
  {
    hide Apply, Sees, Clears, WindowsOf, Refines, Advance;
    var w, f, seen := WindowsOf(config), FieldsOf(j.state.tracker), Sees(config, j.state, e);
    ApplyFields(config, j.state, e);
    ClearedRefines(w);
    if seen == [] {
      assert j.since + seen == j.since;
    } else {
      AdvanceRefines(w, f, j.since, seen[0]);
      assert seen == [seen[0]];
    }
  }

  /** Any interleaving of frames and clears: the tracker is what the sightings since
      the last clear determine. */
  lemma {:induction false} TrackerRefined(config: Config, events: seq<Event>)
    ensures var j := Run(config, events);
            Refines(WindowsOf(config), FieldsOf(j.state.tracker), j.since)
  {
    if events == [] {
      ClearedRefines(WindowsOf(config));
    } else {
      TrackerRefined(config, events[..|events| - 1]);
      hide Refines, Record;
      RecordRefines(config, Run(config, events[..|events| - 1]), events[|events| - 1]);
    }
  }

  lemma SeesInUnit(config: Config, s: State, e: Event)
    ensures BoundsU(Sees(config, s, e), 0.0, 1.0) && BoundsV(Sees(config, s, e), 0.0, 1.0)
  {
    hide IsUpper, IsLow;
  }

  lemma {:induction false} SightingsInUnit(config: Config, events: seq<Event>)
    ensures BoundsU(Run(config, events).since, 0.0, 1.0) && BoundsV(Run(config, events).since, 0.0, 1.0)
  {
    if events != [] {
      var j, e := Run(config, events[..|events| - 1]), events[|events| - 1];
      SightingsInUnit(config, events[..|events| - 1]);
      SeesInUnit(config, j.state, e);
      hide Run, Apply, Clears, Refines, Sees;
    }
  }

  /** The smoothed position never leaves the image. */
  lemma SmoothedInUnit(config: Config, events: seq<Event>)
    requires Run(config, events).state.tracker.hasSmoothed
    ensures var t := Run(config, events).state.tracker.tracked; 0.0 <= t.u <= 1.0 && 0.0 <= t.v <= 1.0
  {
    TrackerRefined(config, events);
    SightingsInUnit(config, events);
  }

  // ----- Picks -----

  /** The attempt counter is the number of picks of this engagement, and every mode
      from which a pick can follow still has one left. */
  ghost predicate PicksCounted(config: Config, j: Journal) {
    var limit, s := Max(1, config.pickupMaxAttempts), j.state;
    !s.mode.LineFollow? ==>
      && s.attempts == j.picks && j.picks <= limit
      && (s.mode.Approach? || s.mode.WaitCameraDown? || s.mode.RecoveryForward? ==> j.picks == 0)
      && (s.mode.FineAdjust? || s.mode.RecoveryDown? ==> j.picks < limit)
  }

  lemma RecordCounts(config: Config, j: Journal, e: Event)
    requires PicksCounted(config, j)
    ensures PicksCounted(config, Record(config, j, e))
  {
    hide Track, Count, Clears, Sees, FarAction, RecoveryAction, FineAction, ClearTracking;
    match e {
      case Frame(i) =>
        var acquired := Acquire(config, ObserveOnly(config, j.state, i.target, i.width, i.height), i.nowSec);
        FreshTracksAreNotLost(config, j.state, i);
        ModeStepBookkeeps(config, acquired, i);
        hide ModeStep;
      case _ =>
    }
  }

  lemma {:induction false} RunCounts(config: Config, events: seq<Event>)
    ensures PicksCounted(config, Run(config, events))
  {
    if events != [] {
      RunCounts(config, events[..|events| - 1]);
      hide PicksCounted, Record;
      RecordCounts(config, Run(config, events[..|events| - 1]), events[|events| - 1]);
    }
  }

  /** At most max(1, pickup_max_attempts) picks happen in one engagement with a ball. */
  lemma PickupBound(config: Config, events: seq<Event>)
    ensures var j := Run(config, events);
            !j.state.mode.LineFollow? ==> j.picks <= Max(1, config.pickupMaxAttempts)
  {
    RunCounts(config, events);
  }

  // ----- Verified success -----

  /** While the pickup is verified, everything the tracker holds was seen after RECATCH. */
  ghost predicate VerifiesAfresh(j: Journal) {
    j.state.mode.VerifyObservation? ==>
      |j.since| <= |j.afterRecatch| && j.afterRecatch[|j.afterRecatch| - |j.since|..] == j.since
  }

  lemma RecordVerifies(config: Config, j: Journal, e: Event)
    requires VerifiesAfresh(j)
    ensures VerifiesAfresh(Record(config, j, e))
  {
    var s', seen := Apply(config, j.state, e), Sees(config, j.state, e);
    VerifyEntry(config, j.state, e);
    hide Apply, Sees;
    if s'.mode.VerifyObservation? && j.state.mode.VerifyObservation? && !Clears(j.state, e, s') {
      assert (j.afterRecatch + seen)[|j.afterRecatch| - |j.since|..] == j.since + seen;
    }
  }

  lemma VerifyEntry(config: Config, s: State, e: Event)
    ensures Apply(config, s, e).mode.VerifyObservation? ==> s.mode.VerifyObservation? || (s.mode.VerifyPickup? && e.Frame?)
  {
    if e.Frame? {
      ComputeMoves(config, s, e.input);
      hide Compute;
    }
  }

  lemma {:induction false} RunVerifies(config: Config, events: seq<Event>)
    ensures VerifiesAfresh(Run(config, events))
  {
    if events != [] {
      RunVerifies(config, events[..|events| - 1]);
      hide VerifiesAfresh, Record;
      RecordVerifies(config, Run(config, events[..|events| - 1]), events[|events| - 1]);
    }
  }

  /** The frame that declares the ball picked up. */
  predicate DeclaresSuccess(config: Config, s: State, i: Input) {
    s.mode.VerifyObservation? && !s.hasBall && Compute(config, s, i).state.hasBall
  }

  lemma SuccessNeedsFewHits(config: Config, s: State, i: Input)
    requires s.mode.VerifyObservation?
    ensures var hits := Track(config, s.tracker, i.target, i.width, i.height).hits;
            var s' := Compute(config, s, i).state;
            s'.hasBall && !s.hasBall ==>
              s'.mode.StandUp? && |hits| >= Max(1, config.stableWindow) && Count(hits) < Max(1, config.stableMinHits)
  {
    hide Track, Count;
  }

  /** Success is declared only after a full window of frames that all came after
      RECATCH was done, fewer than `stableMinHits` of which show a ball. */
  lemma VerifiedSuccess(config: Config, events: seq<Event>, i: Input)
    requires DeclaresSuccess(config, Run(config, events).state, i)
    ensures var window, j := Max(1, config.stableWindow), Run(config, events + [Frame(i)]);
            var seen := DetectedBits(j.afterRecatch);
            |seen| >= window && Count(LastN(seen, window)) < Max(1, config.stableMinHits)
  {
    hide Run, Record, Compute, Track, VerifiesAfresh, DetectedBits, Count;
    var j, e, window := Run(config, events), Frame(i), Max(1, config.stableWindow);
    var j' := Run(config, events + [e]);
    RunAppend(config, events, e);
    RunVerifies(config, events);
    TrackerRefined(config, events + [e]);
    SuccessNeedsFewHits(config, j.state, i);
    SuccessKeepsSightings(config, j, i);
    SuffixBits(j'.afterRecatch, j'.since, window);
    DetectedBitsLength(j'.afterRecatch);
  }

  lemma RunAppend(config: Config, events: seq<Event>, e: Event)
    ensures Run(config, events + [e]) == Record(config, Run(config, events), e)
  {
    hide Record;
    assert (events + [e])[..|events|] == events;
  }

  lemma DetectedBitsLength(since: seq<Sighting>)
    ensures |DetectedBits(since)| == |since|
  {
  }

  lemma SuccessKeepsSightings(config: Config, j: Journal, i: Input)
    requires VerifiesAfresh(j) && DeclaresSuccess(config, j.state, i)
    ensures var j' := Record(config, j, Frame(i));
            && j'.state.tracker.hits == Track(config, j.state.tracker, i.target, i.width, i.height).hits
            && |j'.since| <= |j'.afterRecatch| && j'.afterRecatch[|j'.afterRecatch| - |j'.since|..] == j'.since
  {
    hide Track, Count, Sees, SightingOf;
    var seen := Sees(config, j.state, Frame(i));
    assert (j.afterRecatch + seen)[|j.afterRecatch| - |j.since|..] == j.since + seen;
  }

  /** A window that fits into a suffix is the window of the whole. */
  lemma SuffixBits(all: seq<Sighting>, suffix: seq<Sighting>, window: nat)
    requires |suffix| <= |all| && all[|all| - |suffix|..] == suffix
    ensures |LastN(DetectedBits(suffix), window)| == window ==>
              |all| >= window && LastN(DetectedBits(all), window) == LastN(DetectedBits(suffix), window)
  {
    if |suffix| >= window {
      assert forall k :: 0 <= k < |suffix| ==> all[|all| - |suffix| + k] == suffix[k];
    }
  }
}
