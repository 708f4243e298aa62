/** What the HURDLE controller keeps over whole runs. */
module HurdleProperties {
  import opened Types
  import opened SlidingWindow
  import opened Asking
  import opened HurdleController
  import opened TrackerRefinement

  // ----- The mode machine, without its perception -----

  const CONTACT := Locomotion(StepForwardOne, 0)
  const CROSS := MissionRequest(CrossHurdle, 0)

  predicate Moves(mode: Mode, e: ActionExecution, mode': Mode, r: Result) {
    var a := Ask(r.camera, r.action);
    && r.mode == mode'
    && !r.action.lineQueueEligible && (mode'.LineFollow? ==> !r.active)
    && match mode
       case LineFollow =>
         || (mode' == LineFollow && Quiet(a))
         || (mode' == Approach && OnlyWalks(a))
         || (mode' == WaitCameraDown && !Busy(e) && MovesCamera(a, CameraDown))
       case Approach =>
         || (mode' == RecoveryForward && Quiet(a))
         || (mode' == Approach && OnlyWalks(a))
         || (mode' == WaitCameraDown && !Busy(e) && MovesCamera(a, CameraDown))
       case WaitCameraDown =>
         || (mode' == WaitCameraDown && MovesCamera(a, CameraDown))
         || (mode' == Contact && Asks(a, CONTACT))
         || (mode' == Failed && Quiet(a))
       case Contact =>
         || (mode' == Contact && !e.done && Asks(a, CONTACT))
         || (mode' == Cross && e.done && Asks(a, CROSS))
       case Cross =>
         || (mode' == Cross && !e.done && Asks(a, CROSS))
         || (mode' == ReturnCamera && e.done && MovesCamera(a, CameraForward))
       case ReturnCamera =>
         || (mode' == ReturnCamera && MovesCamera(a, CameraForward))
         || (mode' == LineFollow && Quiet(a))
       case RecoveryForward =>
         || (mode' == RecoveryForward && (Quiet(a) || (Free(e) && OnlyWalks(a))))
         || ((mode' == Approach || mode' == Failed) && Free(e) && Quiet(a))
       case Failed => mode' == Failed && Quiet(a)
  }

  ghost predicate StepMoves(s: State, i: Input, out: Step) {
    Moves(s.mode, i.execution, out.state.mode, out.result)
  }

  lemma ApproachMoves(config: Config, s: State, i: Input)
    requires s.mode.Approach? || s.mode.WaitCameraDown?
    ensures StepMoves(s, i, if s.mode.Approach? then ApproachStep(config, s, i) else WaitCameraDownStep(config, s, i))
  {
  }

  lemma CrossingMoves(config: Config, s: State, i: Input)
    requires s.mode.Contact? || s.mode.Cross? || s.mode.ReturnCamera?
    ensures StepMoves(s, i, if s.mode.Contact? then ContactStep(s, i) else if s.mode.Cross? then CrossStep(s, i)
                            else ReturnCameraStep(config, s, i))
  {
  }

  lemma RecoveryMoves(config: Config, s: State, i: Input)
    requires s.mode.RecoveryForward?
    ensures StepMoves(s, i, RecoveryStep(config, s, i))
  {
  }

  lemma ModeStepMoves(config: Config, s: State, i: Input)
    requires !s.mode.LineFollow?
    ensures StepMoves(s, i, ModeStep(config, s, i))
  {
    match s.mode {
      case Approach => ApproachMoves(config, s, i);
      case WaitCameraDown => ApproachMoves(config, s, i);
      case Contact => CrossingMoves(config, s, i);
      case Cross => CrossingMoves(config, s, i);
      case ReturnCamera => CrossingMoves(config, s, i);
      case RecoveryForward => RecoveryMoves(config, s, i);
      case Failed =>
    }
    hide ApproachStep, WaitCameraDownStep, ContactStep, CrossStep, ReturnCameraStep, RecoveryStep;
  }

  lemma FreshTracksAreNotLost(config: Config, s: State, i: Input)
    ensures var t := Track(config, s.tracker, i.target, i.width, i.height);
            t.tracked.visible ==> t.lost == 0
  {
    hide Push, Count, Clamp, Denom, Smooth;
  }

  lemma ApproachFromLine(config: Config, s: State, i: Input)
    requires s.mode.Approach? && s.tracker.lost == 0
    ensures !ModeStep(config, s, i).state.mode.RecoveryForward?
  {
  }

  /** Every step of the controller is one of the possible moves. */
  lemma ComputeMoves(config: Config, s: State, i: Input)
    ensures var out := Compute(config, s, i);
            Moves(s.mode, i.execution, out.state.mode, out.result)
  {
    var acquired := Acquire(config, ObserveOnly(config, s, i.target, i.width, i.height), i.nowSec);
    FreshTracksAreNotLost(config, s, i);
    if !Ignoring(s, i.nowSec) && !acquired.mode.LineFollow? {
      ModeStepMoves(config, acquired, i);
      hide Track, Count, Push, ModeStep;
      if s.mode.LineFollow? {
        ApproachFromLine(config, acquired, i);
      }
    }
  }

  // ----- Tracker refinement over whole runs -----

  datatype Event =
    | Frame(input: Input)
    | Observe(target: Option<ObjectTarget>, width: int, height: int)
    | ClearObservations
    | ResetController

  function Apply(config: Config, s: State, e: Event): State {
    match e
    case Frame(i) => Compute(config, s, i).state
    case Observe(target, width, height) => ObserveOnly(config, s, target, width, height)
    case ClearObservations => ClearHistory(s)
    case ResetController => ResetState(s)
  }

  function SightingOf(config: Config, target: Option<ObjectTarget>, width: int, height: int): Sighting {
    if Detected(target, width, height) then
      var o := Observed(target.value, width, height);
      Sighting(true, AtLeast(config.acquireMinVNorm, target, width, height),
               AtLeast(config.tiltTriggerVNorm, target, width, height), o.u, o.v)
    else Sighting(false, false, false, 0.0, 0.0)
  }

  function Sees(config: Config, s: State, e: Event): seq<Sighting> {
    match e
    case Frame(i) =>
      if Ignoring(s, i.nowSec) || CameraMoving(s.mode) then [] else [SightingOf(config, i.target, i.width, i.height)]
    case Observe(target, width, height) =>
      if CameraMoving(s.mode) then [] else [SightingOf(config, target, width, height)]
    case _ => []
  }

  predicate Forgets(mode: Mode, mode': Mode) {
    (mode.WaitCameraDown? && mode'.Contact?) || (mode.ReturnCamera? && mode'.LineFollow?)
  }

  predicate Clears(s: State, e: Event, s': State) {
    match e
    case Frame(_) => Forgets(s.mode, s'.mode)
    case Observe(_, _, _) => false
    case ClearObservations => true
    case ResetController => true
  }

  datatype Journal = Journal(state: State, since: seq<Sighting>)

  function Record(config: Config, j: Journal, e: Event): Journal {
    var s' := Apply(config, j.state, e);
    Journal(s', if Clears(j.state, e, s') then [] else j.since + Sees(config, j.state, e))
  }

  function Run(config: Config, events: seq<Event>): Journal {
    if events == [] then Journal(INITIAL, [])
    else Record(config, Run(config, events[..|events| - 1]), events[|events| - 1])
  }

  function WindowsOf(config: Config): Windows {
    Windows(config.stableWindow, config.tiltTriggerWindow, config.stableMinHits, config.smoothAlpha)
  }

  function FieldsOf(t: Tracker): Fields {
    Fields(t.hits, t.acquire, t.tilt, t.lost, t.tracked.visible, t.tracked.stable, t.hasSmoothed, t.tracked.u, t.tracked.v)
  }

  lemma TrackAdvances(config: Config, t: Tracker, target: Option<ObjectTarget>, width: int, height: int)
    ensures FieldsOf(Track(config, t, target, width, height))
         == Advance(WindowsOf(config), FieldsOf(t), SightingOf(config, target, width, height))
  {
    hide Push, Count, Clamp, Denom, Smooth, Max;
  }

  lemma ModeStepFields(config: Config, s: State, i: Input)
    ensures var s' := ModeStep(config, s, i).state;
            FieldsOf(s'.tracker) == if Forgets(s.mode, s'.mode) then CLEARED else FieldsOf(s.tracker)
  {
    hide Count, RecoveryAction;
  }

  lemma FrameFields(config: Config, s: State, i: Input)
    requires !Ignoring(s, i.nowSec)
    ensures var s' := Compute(config, s, i).state;
            FieldsOf(s'.tracker) == if Forgets(s.mode, s'.mode) then CLEARED
                                    else FieldsOf(ObserveOnly(config, s, i.target, i.width, i.height).tracker)
  {
    var observed := ObserveOnly(config, s, i.target, i.width, i.height);
    var acquired := Acquire(config, observed, i.nowSec);
    ModeStepFields(config, acquired, i);
    hide ModeStep, FieldsOf, Track, Count;
    assert acquired.tracker == observed.tracker;
    assert acquired.mode == s.mode || (s.mode.LineFollow? && acquired.mode.Approach?);
    hide Acquire;
  }

  lemma ObserveFields(config: Config, s: State, target: Option<ObjectTarget>, width: int, height: int)
    requires !CameraMoving(s.mode)
    ensures FieldsOf(ObserveOnly(config, s, target, width, height).tracker)
         == Advance(WindowsOf(config), FieldsOf(s.tracker), SightingOf(config, target, width, height))
  {
    TrackAdvances(config, s.tracker, target, width, height);
    hide Track, Advance, SightingOf, WindowsOf, FieldsOf;
  }

  lemma ApplyFields(config: Config, s: State, e: Event)
    ensures var s', seen := Apply(config, s, e), Sees(config, s, e);
            && |seen| <= 1
            && FieldsOf(s'.tracker) == if Clears(s, e, s') then CLEARED
                                       else if seen == [] then FieldsOf(s.tracker)
                                       else Advance(WindowsOf(config), FieldsOf(s.tracker), seen[0])
  {
    match e {
      case Frame(i) =>
        if !CameraMoving(s.mode) { ObserveFields(config, s, i.target, i.width, i.height); }
        if !Ignoring(s, i.nowSec) { FrameFields(config, s, i); }
        hide Advance, SightingOf, WindowsOf, FieldsOf, ModeStep, Acquire, Track;
        assert Ignoring(s, i.nowSec) ==> !Forgets(s.mode, s.mode);
      case Observe(target, width, height) =>
        hide Track, Advance, SightingOf, WindowsOf;
        if !CameraMoving(s.mode) { ObserveFields(config, s, target, width, height); }
      case _ =>
    }
  }

  lemma RecordRefines(config: Config, j: Journal, e: Event)
    requires Refines(WindowsOf(config), FieldsOf(j.state.tracker), j.since)
    ensures var j' := Record(config, j, e);
            Refines(WindowsOf(config), FieldsOf(j'.state.tracker), j'.since)
  {
    hide Apply, Sees, Clears, WindowsOf, Refines, Advance;
    var w, f, seen := WindowsOf(config), FieldsOf(j.state.tracker), Sees(config, j.state, e);
    ApplyFields(config, j.state, e);
    ClearedRefines(w);
    if seen == [] {
      assert j.since + seen == j.since;
    } else {
      AdvanceRefines(w, f, j.since, seen[0]);
      assert seen == [seen[0]];
    }
  }

  /** Any interleaving of frames, clears and resets: the tracker is what the
      sightings since the last clear determine. */
  lemma {:induction false} TrackerRefined(config: Config, events: seq<Event>)
    ensures var j := Run(config, events);
            Refines(WindowsOf(config), FieldsOf(j.state.tracker), j.since)
  {
    if events == [] {
      ClearedRefines(WindowsOf(config));
    } else {
      TrackerRefined(config, events[..|events| - 1]);
      hide Refines, Record;
      RecordRefines(config, Run(config, events[..|events| - 1]), events[|events| - 1]);
    }
  }

  lemma SeesInUnit(config: Config, s: State, e: Event)
    ensures BoundsU(Sees(config, s, e), 0.0, 1.0) && BoundsV(Sees(config, s, e), 0.0, 1.0)
  {
    hide AtLeast;
  }

  lemma {:induction false} SightingsInUnit(config: Config, events: seq<Event>)
    ensures BoundsU(Run(config, events).since, 0.0, 1.0) && BoundsV(Run(config, events).since, 0.0, 1.0)
  {
    if events != [] {
      var j, e := Run(config, events[..|events| - 1]), events[|events| - 1];
      SightingsInUnit(config, events[..|events| - 1]);
      SeesInUnit(config, j.state, e);
      hide Run, Apply, Clears, Refines, Sees;
    }
  }

  /** The smoothed position never leaves the image. */
  lemma SmoothedInUnit(config: Config, events: seq<Event>)
    requires Run(config, events).state.tracker.hasSmoothed
    ensures var t := Run(config, events).state.tracker.tracked; 0.0 <= t.u <= 1.0 && 0.0 <= t.v <= 1.0
  {
    TrackerRefined(config, events);
    SightingsInUnit(config, events);
  }
}
