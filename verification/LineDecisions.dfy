/** Which way LINE walks and turns, told by the guides alone. */
module LineDecisions {
  import opened Types
  import opened SlidingWindow
  import opened TrackerRefinement
  import opened Steering
  import opened LineP2p
  import opened LineRecovery
  import opened LineRecoveryRuns

  /** How far the robot is off the line: right is positive. */
  function Deviation(config: Config, guide: LineGuide): real {
    config.steering.offsetGain * guide.offset + config.steering.headingGain * guide.headingRad
  }

  /** The long walk towards the line; it may be queued. */
  function WalkFor(config: Config, guide: LineGuide): ActionRequest {
    var action := WalkTowards(Deviation(config, guide), config.steering.deadband);
    if action.NoAction? then NO_REQUEST else ActionRequest(action, LocomotionCategory, 0, true)
  }

  lemma DeviationIsScore(config: Config, guide: LineGuide)
    ensures Score(config.steering, guide) == Deviation(config, guide)
  {
  }

  lemma CruiseIsWalk(config: Config, guide: LineGuide)
    requires guide.valid
    ensures CruiseRequest(config, guide) == WalkFor(config, guide)
  {
    DeviationIsScore(config, guide);
    hide Score, Deviation;
  }

  /** In cruise, with no walk in flight, a valid guide decides: to the right exactly when
      its deviation is above the deadband, to the left exactly when it is below the
      negative one. */
  lemma CruiseDecides(config: Config, s: State, guide: LineGuide, nowSec: real, done: bool)
    requires s.mode.Normal? && guide.valid
    ensures var out := Compute(config, s, guide, nowSec, false, done);
            out.state.mode.Normal? && out.request == WalkFor(config, guide)
  {
    CruiseIsWalk(config, guide);
    hide CruiseRequest, WalkFor, Steer, Push, Count;
  }

  // ----- Where LINE goes next -----

  /** A stationary window of this kind begins now. */
  predicate LooksFrom(s: State, kind: Mode, nowSec: real) {
    s.mode == kind && s.observation.active && s.observation.startSec == nowSec
  }

  /** What a frame makes of the mode: cruise that loses the line looks for it, a completed
      turn looks again, a poor window is repeated, answered by a turn, or given up. */
  ghost predicate Goes(config: Config, s: State, e: Event, s': State, request: ActionRequest)
    requires e.Frame?
  {
    var stays := s' == s.(stability := s'.stability) && request == NO_REQUEST;
    match s.mode
    case FinalHold => stays
    case Normal =>
      if e.active then stays
      else if e.guide.valid then s'.mode.Normal?
      else LooksFrom(s', FailureObserve, e.nowSec) && request == NO_REQUEST
    case RecoveryTurn =>
      if e.done then LooksFrom(s', RecoveryObserve, e.nowSec) && !s'.turnIssued && request == NO_REQUEST
      else if e.active || s.turnIssued then stays
      else s'.mode.RecoveryTurn? && s'.turnIssued && IsTurn(request)
    case _ =>
      if !EndsWindow(config, s, e) then
        LooksFrom(s', s.mode, if s.observation.active then s.observation.startSec else e.nowSec) && request == NO_REQUEST
      else if !FailsWindow(config, s, e) then s'.mode.Normal?
      else if s.evidence.NoEvidence? && s.retries < config.noEvidenceMaxRetries then
        LooksFrom(s', FailureObserve, e.nowSec) && s'.retries == s.retries + 1 && request == NO_REQUEST
      else if !s.evidence.NoEvidence? && s.turns < config.recoveryMaxTurns then
        s'.mode.RecoveryTurn? && s'.turnIssued && s'.turns == s.turns + 1 && IsTurn(request)
      else s'.mode.FinalHold? && request == NO_REQUEST
  }

  lemma WindowGoes(config: Config, s: State, e: Event)
    requires e.Frame? && Observing(s.mode)
    ensures Goes(config, s, e, Apply(config, s, e), RequestOf(config, s, e))
  {
    ObservingFrame(config, s, e.guide, e.nowSec, e.active, e.done);
    hide Compute, Steer, CruiseRequest, UpdateEvidence, FinishObservation, WindowOver, Push, Count;
  }

  lemma MotionGoes(config: Config, s: State, e: Event)
    requires e.Frame? && !Observing(s.mode)
    ensures Goes(config, s, e, Apply(config, s, e), RequestOf(config, s, e))
  {
    hide EndsWindow, FailsWindow, Steer, CruiseRequest, UpdateEvidence, Push, Count, ObserveStep;
  }

  lemma FrameGoes(config: Config, s: State, e: Event)
    requires e.Frame?
    ensures Goes(config, s, e, Apply(config, s, e), RequestOf(config, s, e))
  {
    hide Goes;
    if Observing(s.mode) { WindowGoes(config, s, e); } else { MotionGoes(config, s, e); }
  }

  /** A walk whose READY found no line is followed by a window from its DONE on, and a
      mission by one from the next frame on. */
  lemma OthersGo(config: Config, s: State, e: Event)
    requires !e.Frame?
    ensures var s' := Apply(config, s, e);
            match e
            case FailedWalk(_, nowSec) => LooksFrom(s', FailureObserve, nowSec)
            case BeginReacquisition => s'.mode.FailureObserve? && !s'.observation.active && !s'.turnIssued
            case _ => s' == s.(stability := [])
  {
  }

  // ----- Stationary windows -----

  /** The window that is running began at `begun`; it lasts for the configured time of
      its kind. */
  lemma WindowEndsIff(config: Config, s: State, e: Event)
    ensures EndsWindow(config, s, e)
        <==> && e.Frame? && (s.mode.FailureObserve? || s.mode.RecoveryObserve?) && !e.active
             && var begun := if s.observation.active then s.observation.startSec else e.nowSec;
                var sec := if s.mode.RecoveryObserve? then config.recoveryObservationSec else config.failureObservationSec;
                e.nowSec - begun + EPSILON >= if sec < 0.0 then 0.0 else sec
  {
  }

  function Total(xs: seq<real>): real { if xs == [] then 0.0 else Total(xs[..|xs| - 1]) + xs[|xs| - 1] }

  function Offsets(samples: seq<Sample>): seq<real> {
    seq(|samples|, k requires 0 <= k < |samples| => samples[k].guide.offset)
  }

  function Headings(samples: seq<Sample>): seq<real> {
    seq(|samples|, k requires 0 <= k < |samples| => samples[k].guide.headingRad)
  }

  lemma {:induction false} EvenSumIsTotal(samples: seq<Sample>)
    ensures Sum(samples, Even, OffsetPart) == Total(Offsets(samples)) && Sum(samples, Even, HeadingPart) == Total(Headings(samples))
  {
    if samples != [] {
      var init := samples[..|samples| - 1];
      EvenSumIsTotal(init);
      EvenTerm(OffsetPart, samples[|samples| - 1]);
      EvenTerm(HeadingPart, samples[|samples| - 1]);
      assert Offsets(samples)[..|init|] == Offsets(init) && Headings(samples)[..|init|] == Headings(init);
      hide Term;
    }
  }

  /** The mean offset and heading of the samples. */
  function MeanGuide(samples: seq<Sample>): LineGuide
    requires samples != []
  {
    INVALID_GUIDE.(offset := Total(Offsets(samples)) / |samples| as real, headingRad := Total(Headings(samples)) / |samples| as real)
  }

  lemma SameQuotient(x: real, y: real, x': real, y': real)
    requires x == x' && y == y' && y > 0.0
    ensures x / y == x' / y'
  {
  }

  lemma SameDeviation(config: Config, g: LineGuide, h: LineGuide)
    requires g.offset == h.offset && g.headingRad == h.headingRad
    ensures Deviation(config, g) == Deviation(config, h)
  {
  }

  /** The average that a window decides by deviates as much as the mean. */
  lemma AverageIsMean(config: Config, samples: seq<Sample>)
    requires samples != []
    ensures Average(samples, Even).Some? && Average(samples, Even).value.valid
    ensures Deviation(config, Average(samples, Even).value) == Deviation(config, MeanGuide(samples))
  {
    EvenTotal(samples);
    EvenSumIsTotal(samples);
    hide Sum, LineP2p.Total, Total, Curved, Offsets, Headings, Deviation;
    var n := |samples| as real;
    SameQuotient(Sum(samples, Even, OffsetPart), LineP2p.Total(samples, Even), Total(Offsets(samples)), n);
    SameQuotient(Sum(samples, Even, HeadingPart), LineP2p.Total(samples, Even), Total(Headings(samples)), n);
    SameDeviation(config, Average(samples, Even).value, MeanGuide(samples));
  }

  /** A window with enough valid samples walks towards the line as their mean shows it;
      one with too few asks for no walk. */
  lemma WindowDecides(config: Config, events: seq<Event>, e: Event)
    requires EndsWindow(config, Run(config, events).state, e)
    ensures var j := Run(config, events);
            var samples := Judged(config, j, e);
            if |samples| >= Max(1, config.failureMinValidSamples) then
              Apply(config, j.state, e).mode.Normal? && RequestOf(config, j.state, e) == WalkFor(config, MeanGuide(samples))
            else !Apply(config, j.state, e).mode.Normal?
  {
    hide Run, Judged, Average, MeanGuide, Deviation, CruiseRequest, Compute, FailsWindow, EndsWindow;
    var j := Run(config, events);
    EndsInObservation(config, j.state, e);
    var samples := Judged(config, j, e);
    WindowJudged(config, events, e);
    if |samples| >= Max(1, config.failureMinValidSamples) {
      AverageIsMean(config, samples);
      CruiseIsWalk(config, Average(samples, Even).value);
    } else {
      FailedWindowStays(config, j.state, e);
    }
  }

  lemma EndsInObservation(config: Config, s: State, e: Event)
    requires EndsWindow(config, s, e)
    ensures e.Frame? && Observing(s.mode) && !e.active
  {
  }

  lemma FailedWindowStays(config: Config, s: State, e: Event)
    requires e.Frame? && FailsWindow(config, s, e)
    ensures !Compute(config, s, e.guide, e.nowSec, e.active, e.done).state.mode.Normal?
  {
    ObservingFrame(config, s, e.guide, e.nowSec, e.active, e.done);
    hide Compute, Steer, CruiseRequest, Accumulate, FinishObservation, Push;
  }

  // ----- The side of the recovery turns -----

  /** The deviation this event decides on, if it decides: that of its own guide in cruise,
      and that of the mean when a window ends well. */
  function DecidedOn(config: Config, j: Journal, e: Event): Option<real> {
    if config.steering.deadband < 0.0 || !e.Frame? then None
    else if j.state.mode.Normal? && !e.active && e.guide.valid then Some(Deviation(config, e.guide))
    else if EndsWindow(config, j.state, e) && |Judged(config, j, e)| >= Max(1, config.failureMinValidSamples) then
      Some(Deviation(config, MeanGuide(Judged(config, j, e))))
    else None
  }

  /** The side of the line, told by the run: the deviation of the last decision since the
      reacquisition, and zero if that was within the deadband or there was none. */
  function Side(config: Config, events: seq<Event>): real {
    if events == [] then 0.0
    else
      var init, e := events[..|events| - 1], events[|events| - 1];
      var decided := DecidedOn(config, Run(config, init), e);
      if e.BeginReacquisition? then 0.0
      else if decided.None? then Side(config, init)
      else if -config.steering.deadband <= decided.value <= config.steering.deadband then 0.0
      else decided.value
  }

  function EvidenceFor(side: real): Evidence {
    if side < 0.0 then LeftEvidence else if side > 0.0 then RightEvidence else NoEvidence
  }

  /** What a decision leaves remembered. */
  function EvidenceAfter(config: Config, evidence: Evidence, decided: Option<real>): Evidence {
    if decided.None? then evidence
    else if -config.steering.deadband <= decided.value <= config.steering.deadband then NoEvidence
    else EvidenceFor(decided.value)
  }

  lemma SteerIsDeviation(config: Config, guide: LineGuide, evidence: Evidence)
    requires guide.valid
    ensures UpdateEvidence(evidence, Steer(config.steering, guide).direction)
         == EvidenceAfter(config, evidence, if config.steering.deadband < 0.0 then None else Some(Deviation(config, guide)))
  {
    DeviationIsScore(config, guide);
    hide Score, Deviation;
  }

  /** What a window is found to show is the average of the samples it is judged on. */
  lemma FinishIsJudged(config: Config, events: seq<Event>, e: Event)
    requires EndsWindow(config, Run(config, events).state, e)
    ensures var j := Run(config, events);
            FinishObservation(config, AddObservation(ResumeObservation(j.state, e.nowSec), e.guide).observation)
            == if |Judged(config, j, e)| < Max(1, config.failureMinValidSamples) then None else Average(Judged(config, j, e), Even)
  {
    var j := Run(config, events);
    RunWatches(config, events);
    hide Run;
    FreshWatched(e.nowSec);
    var resumed := ResumeObservation(j.state, e.nowSec).observation;
    var kept := if j.state.observation.active then j.window else [];
    AccumulateWatches(resumed, kept, Sample(e.nowSec, e.guide));
    hide Average;
    FinishIsAverage(config, Accumulate(resumed, e.guide), Judged(config, j, e));
    hide Watched, FinishObservation, Accumulate;
  }

  lemma DecisionIsDecidedOn(config: Config, events: seq<Event>, e: Event, evidence: Evidence)
    ensures var j := Run(config, events);
            UpdateEvidence(evidence, Decision(config, j.state, e)) == EvidenceAfter(config, evidence, DecidedOn(config, j, e))
  {
    hide Run, Judged, Average, MeanGuide, EndsWindow, Steer, Deviation, FinishObservation, AddObservation, ResumeObservation,
         UpdateEvidence, EvidenceAfter;
    var j := Run(config, events);
    NoDecision(config, evidence);
    if e.Frame? && j.state.mode.Normal? && !e.active && e.guide.valid {
      SteerIsDeviation(config, e.guide, evidence);
    } else if EndsWindow(config, j.state, e) {
      EndsInObservation(config, j.state, e);
      FinishIsJudged(config, events, e);
      var samples := Judged(config, j, e);
      if |samples| >= Max(1, config.failureMinValidSamples) {
        AverageIsMean(config, samples);
        SteerIsDeviation(config, Average(samples, Even).value, evidence);
      }
    }
  }

  lemma NoDecision(config: Config, evidence: Evidence)
    ensures UpdateEvidence(evidence, NoDirection) == evidence == EvidenceAfter(config, evidence, None)
  {
  }

  lemma {:induction false} SideIsRemembered(config: Config, events: seq<Event>)
    ensures Remembered(Run(config, events).decisions) == EvidenceFor(Side(config, events))
  {
    hide Record, Decision, DecidedOn, Side, EvidenceFor, EvidenceAfter, UpdateEvidence, Remembered;
    if events == [] {
      NoSide(config);
    } else {
      var init, e := events[..|events| - 1], events[|events| - 1];
      var j := Run(config, init);
      assert events == init + [e];
      SideIsRemembered(config, init);
      DecisionIsDecidedOn(config, init, e, Remembered(j.decisions));
      RecordsDecision(config, j, e);
      RememberOne(j.decisions, Decision(config, j.state, e));
      SideMoves(config, init, e);
      NoSide(config);
    }
  }

  lemma NoSide(config: Config)
    ensures Remembered([]) == NoEvidence == EvidenceFor(Side(config, []))
  {
  }

  lemma RecordsDecision(config: Config, j: Journal, e: Event)
    ensures Record(config, j, e).decisions == if e.BeginReacquisition? then [] else j.decisions + [Decision(config, j.state, e)]
  {
    hide Apply, RequestOf, FailsWindow, WindowAfter, Decision;
  }

  lemma RememberOne(decisions: seq<CruiseDirection>, decision: CruiseDirection)
    ensures Remembered(decisions + [decision]) == UpdateEvidence(Remembered(decisions), decision)
  {
    assert (decisions + [decision])[..|decisions|] == decisions;
  }

  lemma SideMoves(config: Config, events: seq<Event>, e: Event)
    ensures EvidenceFor(Side(config, events + [e]))
         == if e.BeginReacquisition? then NoEvidence
            else EvidenceAfter(config, EvidenceFor(Side(config, events)), DecidedOn(config, Run(config, events), e))
  {
    hide Run, DecidedOn;
    assert (events + [e])[..|events|] == events;
  }

  lemma TurnsAreAway(config: Config, s: State, e: Event)
    requires IsTurn(RequestOf(config, s, e))
    ensures e.Frame? && !Apply(config, s, e).mode.Normal?
  {
    hide Score, Accumulate, FinishObservation, Push, Count;
    if Observing(s.mode) {
      ObservingFrame(config, s, e.guide, e.nowSec, e.active, e.done);
      hide Compute;
    }
  }

  lemma TurnIsAsked(config: Config, j: Journal, e: Event)
    requires IsTurn(RequestOf(config, j.state, e))
    ensures Record(config, j, e).asked == j.asked + [RequestOf(config, j.state, e)]
  {
    TurnsAreAway(config, j.state, e);
    hide Apply, RequestOf, Decision, FailsWindow, WindowAfter;
  }

  lemma LastTurn(config: Config, j: Journal, turn: ActionRequest)
    requires LineRecoveryRuns.Bounded(config, j) && j.asked != [] && j.asked[|j.asked| - 1] == turn
    ensures turn == TurnRequest(config, j.state.evidence.LeftEvidence?) && !j.state.evidence.NoEvidence?
    ensures j.state.evidence == Remembered(j.decisions)
  {
  }

  /** A recovery turn goes to the left exactly when the last decision outside the deadband
      was negative, with the configured yaw; and there is no turn unless there was one
      that no later decision has set right. */
  lemma TurnsToTheSide(config: Config, events: seq<Event>, e: Event)
    requires IsTurn(RequestOf(config, Run(config, events).state, e))
    ensures var side := Side(config, events + [e]);
            && side != 0.0
            && RequestOf(config, Run(config, events).state, e)
               == Locomotion(if side < 0.0 then TurnLeft else TurnRight,
                             if config.recoveryTurnYawDeg < 0 then 0 else config.recoveryTurnYawDeg)
  {
    var all := events + [e];
    assert all[..|all| - 1] == events;
    var turn := RequestOf(config, Run(config, events).state, e);
    RecoveryBounded(config, all);
    SideIsRemembered(config, all);
    TurnIsAsked(config, Run(config, events), e);
    assert Run(config, all) == Record(config, Run(config, events), e);
    hide Run, Side, Record, RequestOf, LineRecoveryRuns.Bounded, Remembered;
    LastTurn(config, Run(config, all), turn);
  }

  // ----- When the line counts as found -----

  /** Whether each frame since the last clear showed the line in cruise; a frame whose
      window ends in a turn counts twice. */
  function Shown(config: Config, events: seq<Event>): seq<bool> {
    if events == [] then []
    else
      var init, e := events[..|events| - 1], events[|events| - 1];
      var s := Run(config, init).state;
      match e
      case Frame(guide, _, _, _) =>
        var shown := Shown(config, init) + [s.mode.Normal? && guide.valid];
        if EndsWindow(config, s, e) && Run(config, events).state.mode.RecoveryTurn? then shown + [false] else shown
      case FailedWalk(_, _) => Shown(config, init)
      case _ => []
  }

  /** What a frame adds to the stability history. */
  ghost predicate Records(config: Config, s: State, e: Event) {
    var s', bit := Apply(config, s, e), s.mode.Normal? && e.Frame? && e.guide.valid;
    var once := Push(s.stability, bit, config.stableWindow);
    s'.stability == if EndsWindow(config, s, e) && s'.mode.RecoveryTurn? then Push(once, false, config.stableWindow) else once
  }

  lemma ObservingRecords(config: Config, s: State, e: Event)
    requires e.Frame? && Observing(s.mode)
    ensures Records(config, s, e)
  {
    ObservingFrame(config, s, e.guide, e.nowSec, e.active, e.done);
    TurnsOnlyAtTheEnd(config, s, e);
    hide Compute, Steer, CruiseRequest, TurnRequest, FinishObservation, Accumulate, Push, Count, EndsWindow;
  }

  lemma WalkingRecords(config: Config, s: State, e: Event)
    requires e.Frame? && !Observing(s.mode)
    ensures Records(config, s, e)
  {
    assert !EndsWindow(config, s, e);
    hide EndsWindow, Steer, CruiseRequest, TurnRequest, Accumulate, Push, Count;
  }

  lemma FrameRecords(config: Config, s: State, e: Event)
    requires e.Frame?
    ensures Records(config, s, e)
  {
    hide Records;
    if Observing(s.mode) { ObservingRecords(config, s, e); } else { WalkingRecords(config, s, e); }
  }

  lemma TurnsOnlyAtTheEnd(config: Config, s: State, e: Event)
    requires e.Frame? && Observing(s.mode)
    ensures var (after, request) := ObserveStep(config, RecordStability(config, ResumeObservation(s, e.nowSec), e.guide), e.guide,
                                                e.nowSec, e.active);
            after.mode.RecoveryTurn? ==> EndsWindow(config, s, e)
  {
    hide Steer, CruiseRequest, FinishObservation, Accumulate, Push;
  }

  lemma {:induction false} StabilityIsShown(config: Config, events: seq<Event>)
    ensures Run(config, events).state.stability == LastN(Shown(config, events), Max(1, config.stableWindow))
  {
    if events != [] {
      var init, e := events[..|events| - 1], events[|events| - 1];
      var s := Run(config, init).state;
      StabilityIsShown(config, init);
      if e.Frame? {
        FrameRecords(config, s, e);
        var shown := Shown(config, init) + [s.mode.Normal? && e.guide.valid];
        PushLastN(Shown(config, init), s.mode.Normal? && e.guide.valid, config.stableWindow);
        PushLastN(shown, false, config.stableWindow);
      } else {
        OthersRecord(config, s, e);
      }
      hide Apply, Decision, FailsWindow, WindowAfter, RequestOf, EndsWindow, Push, LastN, Max;
    }
  }

  lemma OthersRecord(config: Config, s: State, e: Event)
    requires !e.Frame?
    ensures Apply(config, s, e).stability == (if e.FailedWalk? then s.stability else [])
    ensures LastN<bool>([], Max(1, config.stableWindow)) == []
  {
    hide Accumulate;
  }

  /** The line counts as found in a frame exactly when LINE is in cruise and enough of the
      last frames, this one included, have shown it. */
  lemma ReferenceIff(config: Config, events: seq<Event>, e: Event)
    requires e.Frame?
    ensures var s := Run(config, events).state;
            Compute(config, s, e.guide, e.nowSec, e.active, e.done).referenceValid
            <==> s.mode.Normal? && Often(Shown(config, events) + [e.guide.valid], config.stableWindow, config.stableMinHits)
  {
    var s := Run(config, events).state;
    StabilityIsShown(config, events);
    PushLastN(Shown(config, events), e.guide.valid, config.stableWindow);
    ReferenceOfFrame(config, s, e);
    hide Run, Compute, Shown, Count, LastN;
  }

  lemma ReferenceOfFrame(config: Config, s: State, e: Event)
    requires e.Frame?
    ensures Compute(config, s, e.guide, e.nowSec, e.active, e.done).referenceValid
        <==> s.mode.Normal? && Count(Push(s.stability, e.guide.valid, config.stableWindow)) >= Max(1, config.stableMinHits)
  {
    hide Count, Push, Steer, CruiseRequest, TurnRequest, Accumulate, FinishObservation;
    if Observing(s.mode) {
      ObservingFrame(config, s, e.guide, e.nowSec, e.active, e.done);
      hide Compute;
    }
  }
}
