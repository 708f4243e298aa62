/** Keeping one object's identity from frame to frame. */
module ObjectAssociation {
  import opened Types

  datatype Candidate = Candidate(target: ObjectTarget, detectionIndex: nat)

  datatype Selection = Selection(target: Option<ObjectTarget>, detectionIndex: Option<nat>)

  const NO_SELECTION := Selection(None, None)

  /** Distance and size change between two boxes are arbitrary functions. */
  datatype Config = Config(
    missingFrameLimit: int,
    maxCenterDistanceNorm: real,
    maxSizeLogRatio: real,
    centerDistanceWeight: real,
    sizeChangeWeight: real,
    centerDistance: (ObjectTarget, ObjectTarget, int, int) -> real,
    sizeChange: (ObjectTarget, ObjectTarget) -> real)

  datatype Frame = Frame(candidates: seq<Candidate>, width: int, height: int)

  datatype State = State(previous: Option<ObjectTarget>, missing: nat)

  const NO_IDENTITY := State(None, 0)

  datatype Step = Step(state: State, selection: Selection)

  // ----- Specification -----

  predicate Gated(config: Config, previous: ObjectTarget, c: Candidate, width: int, height: int) {
    && config.centerDistance(previous, c.target, width, height) <= MaxReal(0.0, config.maxCenterDistanceNorm)
    && config.sizeChange(previous, c.target) <= MaxReal(0.0, config.maxSizeLogRatio)
  }

  function Score(config: Config, previous: ObjectTarget, c: Candidate, width: int, height: int): real {
    MaxReal(0.0, config.centerDistanceWeight) * config.centerDistance(previous, c.target, width, height)
    + MaxReal(0.0, config.sizeChangeWeight) * config.sizeChange(previous, c.target)
  }

  /** Among the first n candidates, candidate k passes both gates, no gated one scores
      lower, and every gated one before it scores strictly higher. */
  ghost predicate IsFirstBestOf(config: Config, previous: ObjectTarget, f: Frame, k: nat, n: nat)
    requires n <= |f.candidates|
  {
    && k < n && Gated(config, previous, f.candidates[k], f.width, f.height)
    && forall j :: 0 <= j < n && Gated(config, previous, f.candidates[j], f.width, f.height) ==>
         var mine, other := Score(config, previous, f.candidates[k], f.width, f.height),
                            Score(config, previous, f.candidates[j], f.width, f.height);
         if j < k then mine < other else mine <= other
  }

  ghost predicate IsFirstBest(config: Config, previous: ObjectTarget, f: Frame, k: nat) {
    IsFirstBestOf(config, previous, f, k, |f.candidates|)
  }

  /** None of the first n candidates continues the identity. */
  ghost predicate MissesAmong(config: Config, previous: ObjectTarget, f: Frame, n: nat)
    requires n <= |f.candidates|
  {
    forall j :: 0 <= j < n ==> !Gated(config, previous, f.candidates[j], f.width, f.height)
  }

  ghost predicate Misses(config: Config, previous: ObjectTarget, f: Frame) {
    MissesAmong(config, previous, f, |f.candidates|)
  }

  /** The first candidate of largest area. */
  ghost predicate IsFirstLargest(candidates: seq<Candidate>, k: nat) {
    && k < |candidates|
    && forall j :: 0 <= j < |candidates| ==>
         if j < k then candidates[j].target.areaPx < candidates[k].target.areaPx
         else candidates[j].target.areaPx <= candidates[k].target.areaPx
  }

  function Chosen(c: Candidate): Step { Step(State(Some(c.target), 0), Selection(Some(c.target), Some(c.detectionIndex))) }

  /** What acquiring a new identity may do: it takes the first largest candidate. */
  ghost predicate Acquires(candidates: seq<Candidate>, out: Step) {
    if candidates == [] then out == Step(NO_IDENTITY, NO_SELECTION)
    else exists k: nat :: IsFirstLargest(candidates, k) && out == Chosen(candidates[k])
  }

  /** What one frame does, stated without saying how it is found. */
  ghost predicate Updates(config: Config, s: State, f: Frame, out: Step) {
    if s.previous.None? then Acquires(f.candidates, out)
    else if !Misses(config, s.previous.value, f) then
      exists k: nat :: IsFirstBest(config, s.previous.value, f, k) && out == Chosen(f.candidates[k])
    else if s.missing < Max(0, config.missingFrameLimit) then out == Step(s.(missing := s.missing + 1), NO_SELECTION)
    else Acquires(f.candidates, out)
  }

  /** A candidate is too far away or too different in size beyond limits that are never
      negative; and its score weighs distance and size change by factors that are never
      negative. */
  lemma GateAndScore(config: Config, previous: ObjectTarget, c: Candidate, width: int, height: int)
    ensures var distance, change := config.centerDistance(previous, c.target, width, height), config.sizeChange(previous, c.target);
            && (Gated(config, previous, c, width, height)
                <==> && (distance <= 0.0 || distance <= config.maxCenterDistanceNorm)
                     && (change <= 0.0 || change <= config.maxSizeLogRatio))
            && Score(config, previous, c, width, height)
               == (if config.centerDistanceWeight > 0.0 then config.centerDistanceWeight * distance else 0.0)
                  + (if config.sizeChangeWeight > 0.0 then config.sizeChangeWeight * change else 0.0)
  {
  }

  // ----- The tracker object -----

  class ObjectAssociationTracker {
    const config: Config
    var previousTarget: Option<ObjectTarget>
    var missingFrames: nat

    function View(): State
      reads this
    {
      State(previousTarget, missingFrames)
    }

    ghost predicate Valid()
      reads this
    {
      previousTarget.None? ==> missingFrames == 0
    }

    constructor (config: Config)
      ensures this.config == config && View() == NO_IDENTITY && Valid()
    {
      this.config := config;
      previousTarget, missingFrames := None, 0;
    }

    method AcquireInitial(candidates: seq<Candidate>) returns (selection: Selection)
      requires Valid() && previousTarget.None?
      modifies this
      ensures Valid() && Acquires(candidates, Step(View(), selection))
    {
      if |candidates| == 0 { return NO_SELECTION; }
      var best := 0;
      for i := 1 to |candidates|
        invariant best < i && IsFirstLargest(candidates[..i], best)
      {
        if candidates[best].target.areaPx < candidates[i].target.areaPx { best := i; }
      }
      assert candidates[..|candidates|] == candidates;
      previousTarget, missingFrames := Some(candidates[best].target), 0;
      selection := Selection(Some(candidates[best].target), Some(candidates[best].detectionIndex));
    }

    /** The loop over the candidates: the best one so far and its score. */
    method FindBest(previous: ObjectTarget, f: Frame) returns (best: Option<nat>)
      ensures best.Some? ==> IsFirstBest(config, previous, f, best.value)
      ensures best.None? ==> Misses(config, previous, f)
    {
      best := None;
      var bestScore := 0.0;
      for i := 0 to |f.candidates|
        invariant best.Some? ==> IsFirstBestOf(config, previous, f, best.value, i)
        invariant best.Some? ==> best.value < i && bestScore == Score(config, previous, f.candidates[best.value], f.width, f.height)
        invariant best.None? ==> MissesAmong(config, previous, f, i)
      {
        hide Score;
        var centerDistance := config.centerDistance(previous, f.candidates[i].target, f.width, f.height);
        var sizeChange := config.sizeChange(previous, f.candidates[i].target);
        if centerDistance <= MaxReal(0.0, config.maxCenterDistanceNorm) && sizeChange <= MaxReal(0.0, config.maxSizeLogRatio) {
          var score := Score(config, previous, f.candidates[i], f.width, f.height);
          if best.None? || score < bestScore { best, bestScore := Some(i), score; }
        }
      }
    }

    method Update(f: Frame) returns (selection: Selection)
      requires Valid()
      modifies this
      ensures Valid() && Updates(config, old(View()), f, Step(View(), selection))
    {
      hide Score, Gated, IsFirstLargest;
      if previousTarget.None? {
        selection := AcquireInitial(f.candidates);
        return;
      }
      var best := FindBest(previousTarget.value, f);
      if best.Some? {
        var chosen := f.candidates[best.value];
        previousTarget, missingFrames := Some(chosen.target), 0;
        selection := Selection(Some(chosen.target), Some(chosen.detectionIndex));
        return;
      }
      missingFrames := missingFrames + 1;
      if missingFrames <= Max(0, config.missingFrameLimit) { return NO_SELECTION; }
      Reset();
      selection := AcquireInitial(f.candidates);
    }

    method Reset()
      modifies this
      ensures View() == NO_IDENTITY && Valid()
    {
      previousTarget, missingFrames := None, 0;
    }
  }

  // ----- What every frame and every run does -----

  /** A returned target is a candidate of this very frame, with that candidate's index. */
  lemma SelectionIsCurrent(config: Config, s: State, f: Frame, out: Step)
    requires Updates(config, s, f, out) && out.selection.target.Some?
    ensures out.selection.detectionIndex.Some?
    ensures Candidate(out.selection.target.value, out.selection.detectionIndex.value) in f.candidates
    ensures out.state == State(out.selection.target, 0)
  {
  }

  /** The outcome of a frame is determined: there is one first best candidate and one
      first largest one. */
  lemma UpdateIsDetermined(config: Config, s: State, f: Frame, out: Step, other: Step)
    requires Updates(config, s, f, out) && Updates(config, s, f, other)
    ensures out == other
  {
    hide Score, Gated;
  }

  function Before(s: State, steps: seq<Step>, i: nat): State
    requires i <= |steps|
  {
    if i == 0 then s else steps[i - 1].state
  }

  /** A run over some frames: the steps taken, one per frame. */
  ghost predicate IsRun(config: Config, s: State, frames: seq<Frame>, steps: seq<Step>) {
    && |steps| == |frames|
    && forall i :: 0 <= i < |frames| ==> Updates(config, Before(s, steps, i), frames[i], steps[i])
  }

  /** An identity survives `missingFrameLimit` misses in a row, keeping its target and
      returning nothing; the next miss drops it and acquires afresh from that frame. */
  lemma {:induction false} IdentitySurvives(config: Config, s: State, frames: seq<Frame>, steps: seq<Step>, i: nat)
    requires s.previous.Some? && s.missing == 0 && IsRun(config, s, frames, steps) && i < |frames|
    requires forall j :: 0 <= j <= i ==> Misses(config, s.previous.value, frames[j])
    requires i <= Max(0, config.missingFrameLimit)
    ensures if i < Max(0, config.missingFrameLimit) then steps[i] == Step(State(s.previous, i + 1), NO_SELECTION)
            else Acquires(frames[i].candidates, steps[i])
  {
    hide Misses, Acquires, IsFirstBest;
    assert Updates(config, Before(s, steps, i), frames[i], steps[i]);
    if i > 0 { IdentitySurvives(config, s, frames, steps, i - 1); }
  }

  /** In every run from a fresh tracker, an identity that is alive has missed at most
      `missingFrameLimit` frames, and no identity means no count. */
  lemma {:induction false} MissesBounded(config: Config, frames: seq<Frame>, steps: seq<Step>, i: nat)
    requires IsRun(config, NO_IDENTITY, frames, steps) && i <= |frames|
    ensures var s := Before(NO_IDENTITY, steps, i);
            s.missing <= Max(0, config.missingFrameLimit) && (s.previous.None? ==> s.missing == 0)
  {
    hide Misses, IsFirstBest, IsFirstLargest;
    if i > 0 {
      MissesBounded(config, frames, steps, i - 1);
      assert Updates(config, Before(NO_IDENTITY, steps, i - 1), frames[i - 1], steps[i - 1]);
    }
  }
}
