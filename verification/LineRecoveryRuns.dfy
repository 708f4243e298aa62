/** What the LINE machine keeps over whole runs: bounded, one-directional recovery
    and windows that average exactly what was seen standing still. */
module LineRecoveryRuns {
  import opened Types
  import opened CruiseSelector
  import opened SlidingWindow
  import opened LineP2p
  import opened LineRecovery

  // ----- Whole runs -----

  datatype Event =
    | Frame(guide: LineGuide, nowSec: real, active: bool, done: bool)
    | FailedWalk(guide: LineGuide, nowSec: real)
    | BeginReacquisition
    | ClearStability

  function Apply(config: Config, s: State, e: Event): State {
    match e
    case Frame(guide, nowSec, active, done) => Compute(config, s, guide, nowSec, active, done).state
    case FailedWalk(guide, nowSec) => FailAfterDone(s, guide, nowSec)
    case BeginReacquisition => Reacquire(s)
    case ClearStability => s.(stability := [])
  }

  /** A stationary observation window ends in this frame. */
  predicate EndsWindow(config: Config, s: State, e: Event) {
    && e.Frame? && Observing(s.mode) && !e.active
    && WindowOver(config, AddObservation(ResumeObservation(s, e.nowSec), e.guide), e.nowSec)
  }

  /** ... without enough valid samples. */
  predicate FailsWindow(config: Config, s: State, e: Event) {
    && EndsWindow(config, s, e)
    && FinishObservation(config, AddObservation(ResumeObservation(s, e.nowSec), e.guide).observation).None?
  }

  function RequestOf(config: Config, s: State, e: Event): ActionRequest {
    if e.Frame? then Compute(config, s, e.guide, e.nowSec, e.active, e.done).request else NO_REQUEST
  }

  /** The cruise decision this frame makes: from its own guide in cruise, from the
      mean of the window when one ends well, and none otherwise. */
  function Decision(config: Config, s: State, e: Event): CruiseDirection {
    if e.Frame? && s.mode.Normal? && !e.active && e.guide.valid then Steer(config.steering, e.guide).direction
    else if EndsWindow(config, s, e) && !FailsWindow(config, s, e) then
      Steer(config.steering, FinishObservation(config, AddObservation(ResumeObservation(s, e.nowSec), e.guide).observation).value).direction
    else NoDirection
  }

  predicate IsTurn(request: ActionRequest) { request.action.TurnLeft? || request.action.TurnRight? }

  /** The observation running before this frame goes on after it. */
  predicate Continues(config: Config, s: State, e: Event) {
    e.Frame? && Observing(s.mode) && s.observation.active && !EndsWindow(config, s, e)
  }

  /** This frame adds its guide to the observation it leaves running. */
  predicate Samples(config: Config, s: State, e: Event) {
    || (e.FailedWalk? && e.guide.valid)
    || (&& e.Frame? && e.guide.valid
        && ((s.mode.RecoveryTurn? && e.done) || (Observing(s.mode) && !e.active && !EndsWindow(config, s, e))))
  }

  /** A run: the state, the valid samples of the running observation, the decisions
      since the last reacquisition, and for the current episode away from cruise the
      failed windows, the turns asked for, and how often a failed walk has led out of
      the final hold. */
  datatype Journal = Journal(
    state: State,
    window: seq<Sample>,
    decisions: seq<CruiseDirection>,
    failed: nat,
    asked: seq<ActionRequest>,
    exits: nat)

  /** A walk reported as failed in the final hold: the one way out of it. */
  predicate LeavesHold(s: State, e: Event) { e.FailedWalk? && s.mode.FinalHold? }

  function WindowAfter(config: Config, j: Journal, e: Event): seq<Sample> {
    var kept := if Continues(config, j.state, e) then j.window else [];
    if Samples(config, j.state, e) then kept + [Sample(e.nowSec, e.guide)] else kept
  }

  function Record(config: Config, j: Journal, e: Event): Journal {
    var s', request := Apply(config, j.state, e), RequestOf(config, j.state, e);
    var away := !s'.mode.Normal? && !e.BeginReacquisition?;
    Journal(s',
            if e.ClearStability? then j.window else WindowAfter(config, j, e),
            if e.BeginReacquisition? then [] else j.decisions + [Decision(config, j.state, e)],
            if !away then 0 else if FailsWindow(config, j.state, e) then j.failed + 1 else j.failed,
            if !away then [] else if IsTurn(request) then j.asked + [request] else j.asked,
            if !away then 0 else if LeavesHold(j.state, e) then j.exits + 1 else j.exits)
  }

  function Run(config: Config, events: seq<Event>): Journal {
    if events == [] then Journal(INITIAL, [], [], 0, [], 0)
    else Record(config, Run(config, events[..|events| - 1]), events[|events| - 1])
  }

  /** No walk is reported as failed in the final hold. */
  ghost predicate Admissible(config: Config, events: seq<Event>) {
    forall i :: 0 <= i < |events| ==> !LeavesHold(Run(config, events[..i]).state, events[i])
  }

  /** What a sequence of decisions leaves remembered: the direction of the latest
      one that was made at all, and nothing after a straight one. */
  function Remembered(decisions: seq<CruiseDirection>): Evidence {
    if decisions == [] then NoEvidence
    else
      match decisions[|decisions| - 1]
      case CruiseLeft => LeftEvidence
      case CruiseRight => RightEvidence
      case CruiseStraight => NoEvidence
      case NoDirection => Remembered(decisions[..|decisions| - 1])
  }

  /** How many failed windows an episode survives. */
  function Patience(config: Config, evidence: Evidence): nat {
    if evidence.NoEvidence? then Max(0, config.noEvidenceMaxRetries) else Max(0, config.recoveryMaxTurns)
  }

  ghost predicate AllTurns(asked: seq<ActionRequest>, turn: ActionRequest) {
    forall k :: 0 <= k < |asked| ==> asked[k] == turn
  }

  /** The recovery is bounded and one-directional. */
  ghost predicate Bounded(config: Config, j: Journal) {
    var s := j.state;
    && s.evidence == Remembered(j.decisions)
    && s.turns <= Max(0, config.recoveryMaxTurns) && s.retries <= Max(0, config.noEvidenceMaxRetries)
    && (s.turns == 0 || s.retries == 0)
    && (s.mode.Normal? ==> s.turns == 0 && s.retries == 0)
    && (s.retries > 0 ==> s.evidence.NoEvidence?)
    && (s.mode.RecoveryTurn? ==> s.turnIssued)
    && (s.turns > 0 || s.mode.RecoveryTurn? ==> !s.evidence.NoEvidence? && s.turns > 0)
    && |j.asked| == s.turns && AllTurns(j.asked, TurnRequest(config, s.evidence.LeftEvidence?))
    && j.failed == s.turns + s.retries + (if s.mode.FinalHold? then 1 else 0) + j.exits
    && (s.mode.FinalHold? <==> j.failed > Patience(config, s.evidence) + j.exits)
  }

  /** A frame of an observation, with the turn it may end in. */
  lemma ObservingFrame(config: Config, s: State, guide: LineGuide, nowSec: real, active: bool, done: bool)
    requires Observing(s.mode)
    ensures var before := RecordStability(config, ResumeObservation(s, nowSec), guide);
            var (after, request) := ObserveStep(config, before, guide, nowSec, active);
            Compute(config, s, guide, nowSec, active, done)
            == if !after.mode.RecoveryTurn? then Outcome(after, request, false)
               else if after.turnIssued then Outcome(RecordStability(config, after, guide), NO_REQUEST, false)
               else Outcome(RecordStability(config, after, guide).(turnIssued := true, turns := after.turns + 1),
                            TurnRequest(config, after.evidence.LeftEvidence?), false)
  {
    var before := RecordStability(config, ResumeObservation(s, nowSec), guide);
    var (after, request) := ObserveStep(config, before, guide, nowSec, active);
    hide ObserveStep;
    if after.mode.RecoveryTurn? {
      assert Compute(config, after, guide, nowSec, false, false).state.mode.RecoveryTurn?;
    }
  }

  lemma RememberedAppend(decisions: seq<CruiseDirection>, d: CruiseDirection)
    ensures Remembered(decisions + [d]) == UpdateEvidence(Remembered(decisions), d)
  {
    assert (decisions + [d])[..|decisions|] == decisions;
  }

  /** The possible moves of the machine, without its numbers. */
  ghost predicate Moves(config: Config, s: State, s': State, decision: CruiseDirection, fails: bool, request: ActionRequest) {
    && s'.evidence == UpdateEvidence(s.evidence, decision)
    && (|| (&& s'.mode.Normal? && !fails && !IsTurn(request)
            && (|| (s.mode.Normal? && s'.turns == s.turns && s'.retries == s.retries)
                || (Observing(s.mode) && s'.turns == s'.retries == 0)))
        || (&& !s'.mode.Normal? && decision.NoDirection? && !fails && !IsTurn(request)
            && s'.turns == s.turns && s'.retries == s.retries
            && (s'.mode.FinalHold? <==> s.mode.FinalHold?)
            && (s'.mode.RecoveryTurn? ==> s.mode.RecoveryTurn? && s'.turnIssued))
        || (&& Observing(s.mode) && decision.NoDirection? && fails
            && (|| (&& s.evidence.NoEvidence? && s.retries < Max(0, config.noEvidenceMaxRetries) && s'.mode.FailureObserve?
                    && s'.retries == s.retries + 1 && s'.turns == s.turns && !IsTurn(request))
                || (&& !s.evidence.NoEvidence? && s.turns < Max(0, config.recoveryMaxTurns) && s'.mode.RecoveryTurn? && s'.turnIssued
                    && s'.retries == s.retries && s'.turns == s.turns + 1
                    && request == TurnRequest(config, s.evidence.LeftEvidence?))
                || (&& (if s.evidence.NoEvidence? then s.retries >= Max(0, config.noEvidenceMaxRetries)
                        else s.turns >= Max(0, config.recoveryMaxTurns))
                    && s'.mode.FinalHold? && s'.retries == s.retries && s'.turns == s.turns && !IsTurn(request)))))
  }

  lemma WalkMoves(config: Config, s: State, e: Event)
    requires e.Frame? && !Observing(s.mode) && (s.mode.RecoveryTurn? ==> s.turnIssued)
    ensures Moves(config, s, Apply(config, s, e), Decision(config, s, e), FailsWindow(config, s, e), RequestOf(config, s, e))
  {
    hide Score, SelectCruiseDecision, Accumulate, FinishObservation, Push;
  }

  lemma ObservationMoves(config: Config, s: State, e: Event)
    requires e.Frame? && Observing(s.mode)
    ensures Moves(config, s, Apply(config, s, e), Decision(config, s, e), FailsWindow(config, s, e), RequestOf(config, s, e))
  {
    ObservingFrame(config, s, e.guide, e.nowSec, e.active, e.done);
    hide Compute, Score, SelectCruiseDecision, Accumulate, FinishObservation, Push;
  }

  lemma {:induction false} TurnsAppend(asked: seq<ActionRequest>, turn: ActionRequest)
    requires AllTurns(asked, turn)
    ensures AllTurns(asked + [turn], turn)
  {
  }

  /** Any of the possible moves keeps the recovery bounded. */
  lemma MovesBounded(config: Config, j: Journal, j': Journal, decision: CruiseDirection, fails: bool, request: ActionRequest)
    requires Bounded(config, j) && Moves(config, j.state, j'.state, decision, fails, request)
    requires j'.decisions == j.decisions + [decision]
    requires var away := !j'.state.mode.Normal?;
             && j'.failed == (if !away then 0 else if fails then j.failed + 1 else j.failed)
             && j'.asked == (if !away then [] else if IsTurn(request) then j.asked + [request] else j.asked)
             && j'.exits == (if !away then 0 else j.exits)
    ensures Bounded(config, j')
  {
    RememberedAppend(j.decisions, decision);
    if IsTurn(request) && !j'.state.mode.Normal? { TurnsAppend(j.asked, request); }
    hide Remembered;
  }

  lemma OtherDecidesNothing(config: Config, s: State, e: Event)
    requires !e.Frame?
    ensures Decision(config, s, e).NoDirection? && !FailsWindow(config, s, e) && RequestOf(config, s, e) == NO_REQUEST
  {
    hide Compute, FinishObservation, Steer;
  }

  lemma OtherBounded(config: Config, j: Journal, e: Event)
    requires Bounded(config, j) && !e.Frame?
    ensures Bounded(config, Record(config, j, e))
  {
    hide Compute, Remembered, WindowAfter, FailsWindow, Decision, RequestOf, Accumulate, TurnRequest;
    RememberedAppend(j.decisions, Decision(config, j.state, e));
    OtherDecidesNothing(config, j.state, e);
    if e.BeginReacquisition? { assert Remembered([]).NoEvidence? by { NothingRemembered(); } }
  }

  lemma NothingRemembered()
    ensures Remembered([]).NoEvidence?
  {
  }

  lemma RecordBounded(config: Config, j: Journal, e: Event)
    requires Bounded(config, j)
    ensures Bounded(config, Record(config, j, e))
  {
    if e.Frame? {
      if Observing(j.state.mode) { ObservationMoves(config, j.state, e); } else { WalkMoves(config, j.state, e); }
      hide Bounded, Moves, Apply, RequestOf, Decision, FailsWindow, WindowAfter;
      MovesBounded(config, j, Record(config, j, e), Decision(config, j.state, e), FailsWindow(config, j.state, e),
                   RequestOf(config, j.state, e));
    } else {
      OtherBounded(config, j, e);
      hide Bounded, Record;
    }
  }

  /** Recovery is bounded and one-directional in every run: see Bounded. */
  lemma {:induction false} RecoveryBounded(config: Config, events: seq<Event>)
    ensures Bounded(config, Run(config, events))
  {
    if events == [] {
      assert Run(config, events).asked == [];
    } else {
      RecoveryBounded(config, events[..|events| - 1]);
      hide Bounded, Record;
      RecordBounded(config, Run(config, events[..|events| - 1]), events[|events| - 1]);
    }
  }

  lemma AdmissiblePrefix(config: Config, events: seq<Event>)
    requires events != [] && Admissible(config, events)
    ensures Admissible(config, events[..|events| - 1])
    ensures !LeavesHold(Run(config, events[..|events| - 1]).state, events[|events| - 1])
  {
    var init := events[..|events| - 1];
    hide Run, LeavesHold;
    forall i | 0 <= i < |init|
      ensures !LeavesHold(Run(config, init[..i]).state, init[i])
    {
      assert events[i] == init[i] && events[..i] == init[..i];
    }
    assert events[..|events| - 1] == init;
  }

  /** Where no walk fails in the final hold, it is never left. */
  lemma {:induction false} AdmissibleStays(config: Config, events: seq<Event>)
    requires Admissible(config, events)
    ensures Run(config, events).exits == 0
  {
    if events != [] {
      AdmissiblePrefix(config, events);
      AdmissibleStays(config, events[..|events| - 1]);
      hide Admissible, LeavesHold, Apply, FailsWindow, WindowAfter, RequestOf, Decision;
    }
  }

  /** In the final hold a frame of the machine only records what it sees. */
  lemma FinalHoldStays(config: Config, s: State, guide: LineGuide, nowSec: real, active: bool, done: bool)
    requires s.mode.FinalHold?
    ensures var out := Compute(config, s, guide, nowSec, active, done);
            out.state == s.(stability := out.state.stability) && out.request == NO_REQUEST && !out.referenceValid
  {
  }

  // ----- Observation windows -----

  /** The sums are those of the samples. */
  ghost predicate Watched(o: Observation, samples: seq<Sample>) {
    && o.validCount == |samples| && o.curvatureCount == |Curved(samples)|
    && o.offsetSum == Sum(samples, Even, OffsetPart)
    && o.headingSum == Sum(samples, Even, HeadingPart)
    && o.confidenceSum == Sum(samples, Even, ConfidencePart)
    && o.curvatureSum == Sum(Curved(samples), Even, CurvaturePart)
  }

  lemma AccumulateWatches(o: Observation, samples: seq<Sample>, x: Sample)
    requires Watched(o, samples) && o.active
    ensures Watched(Accumulate(o, x.guide), if x.guide.valid then samples + [x] else samples)
  {
    hide Sum, Curved, Total, Term, Weight;
    SumAppend(samples, x, Even, OffsetPart);
    SumAppend(samples, x, Even, HeadingPart);
    SumAppend(samples, x, Even, ConfidencePart);
    SumAppend(Curved(samples), x, Even, CurvaturePart);
    EvenTerm(OffsetPart, x);
    EvenTerm(HeadingPart, x);
    EvenTerm(ConfidencePart, x);
    EvenTerm(CurvaturePart, x);
  }

  lemma EvenTerm(part: Part, x: Sample)
    ensures Term(Even, part, x) == PartOf(part, x.guide)
  {
  }

  lemma {:induction false} EvenTotal(samples: seq<Sample>)
    ensures Total(samples, Even) == |samples| as real
  {
    if samples != [] { EvenTotal(samples[..|samples| - 1]); }
  }

  /** A finished observation is the plain average of what it watched, provided it
      watched enough. */
  lemma FinishIsAverage(config: Config, o: Observation, samples: seq<Sample>)
    requires Watched(o, samples)
    ensures FinishObservation(config, o)
         == if |samples| < Max(1, config.failureMinValidSamples) then None else Average(samples, Even)
  {
    EvenTotal(samples);
    EvenTotal(Curved(samples));
    hide Sum, Curved, Total;
  }

  ghost predicate WindowWatched(j: Journal) {
    j.state.observation.active ==> Observing(j.state.mode) && Watched(j.state.observation, j.window)
  }

  /** The observation this event leaves running is the one it continues or starts,
      with its own guide added if it counts. */
  ghost predicate KeepsObservation(config: Config, s: State, e: Event) {
    var s' := Apply(config, s, e);
    s'.observation.active ==>
      && Observing(s'.mode) && !e.BeginReacquisition?
      && (!e.ClearStability? ==>
            var base := if Continues(config, s, e) then s.observation else Observation(true, e.nowSec, 0.0, 0.0, 0.0, 0.0, 0, 0);
            s'.observation == if Samples(config, s, e) then Accumulate(base, e.guide) else base)
  }

  lemma ObservingKeeps(config: Config, s: State, e: Event)
    requires e.Frame? && Observing(s.mode)
    ensures KeepsObservation(config, s, e)
  {
    ObservingFrame(config, s, e.guide, e.nowSec, e.active, e.done);
    hide Compute, Decide, FinishObservation, Accumulate, CruiseRequest, TurnRequest, Push, Count;
  }

  lemma WalkingKeeps(config: Config, s: State, e: Event)
    requires e.Frame? && !Observing(s.mode) && !s.observation.active
    ensures KeepsObservation(config, s, e)
  {
    hide Steer, CruiseRequest, TurnRequest, Push, Count, EndsWindow;
  }

  lemma OtherKeeps(config: Config, s: State, e: Event)
    requires !e.Frame? && (s.observation.active ==> Observing(s.mode))
    ensures KeepsObservation(config, s, e)
  {
    hide Compute, EndsWindow;
  }

  lemma ObservationKept(config: Config, s: State, e: Event)
    requires s.observation.active ==> Observing(s.mode)
    ensures KeepsObservation(config, s, e)
  {
    hide KeepsObservation;
    if !e.Frame? { OtherKeeps(config, s, e); }
    else if Observing(s.mode) { ObservingKeeps(config, s, e); }
    else { WalkingKeeps(config, s, e); }
  }

  lemma RecordWatches(config: Config, j: Journal, e: Event)
    requires WindowWatched(j)
    ensures WindowWatched(Record(config, j, e))
  {
    if Apply(config, j.state, e).observation.active {
      ObservationKept(config, j.state, e);
      if !e.ClearStability? {
        hide Apply, Decision, FailsWindow, Watched, Continues, Accumulate, RequestOf;
        FreshWatched(e.nowSec);
        var kept := if Continues(config, j.state, e) then j.window else [];
        var base := if Continues(config, j.state, e) then j.state.observation else Observation(true, e.nowSec, 0.0, 0.0, 0.0, 0.0, 0, 0);
        if Samples(config, j.state, e) {
          AccumulateWatches(base, kept, Sample(e.nowSec, e.guide));
        }
      }
    }
  }

  lemma FreshWatched(nowSec: real)
    ensures Watched(Observation(true, nowSec, 0.0, 0.0, 0.0, 0.0, 0, 0), [])
  {
  }

  lemma {:induction false} RunWatches(config: Config, events: seq<Event>)
    ensures WindowWatched(Run(config, events))
  {
    if events != [] {
      RunWatches(config, events[..|events| - 1]);
      hide WindowWatched, Record;
      RecordWatches(config, Run(config, events[..|events| - 1]), events[|events| - 1]);
    }
  }

  /** The samples a window is judged on when it ends in frame e. */
  function Judged(config: Config, j: Journal, e: Event): seq<Sample>
    requires e.Frame?
  {
    var kept := if j.state.observation.active then j.window else [];
    if e.guide.valid then kept + [Sample(e.nowSec, e.guide)] else kept
  }

  /** Every window that ends is judged on exactly the valid guides seen since it
      began: too few fail it, otherwise the decision is that of their average. */
  lemma WindowJudged(config: Config, events: seq<Event>, e: Event)
    requires var j := Run(config, events); EndsWindow(config, j.state, e)
    ensures var j := Run(config, events);
            var samples := Judged(config, j, e);
            && (FailsWindow(config, j.state, e) <==> |samples| < Max(1, config.failureMinValidSamples))
            && (!FailsWindow(config, j.state, e) ==>
                  && Average(samples, Even).Some? && Apply(config, j.state, e).mode.Normal?
                  && RequestOf(config, j.state, e) == CruiseRequest(config, Average(samples, Even).value))
  {
    var j := Run(config, events);
    RunWatches(config, events);
    hide Run;
    FreshWatched(e.nowSec);
    var resumed := ResumeObservation(j.state, e.nowSec).observation;
    var kept := if j.state.observation.active then j.window else [];
    AccumulateWatches(resumed, kept, Sample(e.nowSec, e.guide));
    FinishIsAverage(config, Accumulate(resumed, e.guide), Judged(config, j, e));
    ObservingFrame(config, j.state, e.guide, e.nowSec, e.active, e.done);
    hide Watched, Average, FinishObservation, Steer, Accumulate, CruiseRequest, Compute, WindowWatched, Escalate, Push;
  }
}
