/** One LINE step of the supervisor: which walk it watches, when it judges it and on what,
    and when the line counts as found. */
module MissionLine {
  import opened Types
  import opened LineP2p
  import opened Mission
  import Fit = LineFit
  import Features = LineFeatures
  import Line = LineRecovery
  import Goal = GoalController

  // ----- The walk in flight -----

  /** A walk of LINE is in flight. */
  predicate WalkInFlight(last: ControlCommand) {
    last.actionId != 0 && last.mission == LineMission && last.category == LocomotionCategory
  }

  /** ... and this feedback is about it. */
  predicate AboutWalk(last: ControlCommand, feedback: DeliveryFeedback) {
    WalkInFlight(last) && feedback.actionId == last.actionId
  }

  /** It is a long one that has started and is not waiting behind another. */
  predicate LongWalkRuns(last: ControlCommand, feedback: DeliveryFeedback) {
    && WalkInFlight(last) && last.action in {StepForwardFive, StepForwardLeft, StepForwardRight}
    && last.phase !in {WaitingQueuedActionAck, WaitingQueuedActionStart}
    && (last.phase == WaitingActionDone || (AboutWalk(last, feedback) && feedback.acknowledged))
  }

  /** Its READY or DONE is heard, and READY has not been heard before. */
  predicate JudgesWalk(line: LineSide, last: ControlCommand, feedback: DeliveryFeedback) {
    && LongWalkRuns(last, feedback) && AboutWalk(last, feedback) && (feedback.ready || feedback.done)
    && line.readyId != last.actionId
  }

  /** The line as this frame shows it, and the guide LINE decides on if it judges no walk. */
  function GuideFor(config: Config, i: Input): LineGuide {
    if i.guideOverride.Some? then i.guideOverride.value else GuideSeen(config, i)
  }

  /** What the LINE machine makes of a guide. */
  function Machine(config: Config, line: LineSide, guide: LineGuide, nowSec: real, active: bool, done: bool): Line.Outcome {
    Line.Compute(config.line, line.fsm, guide, nowSec, active, done)
  }

  /** The frames of the walk so far, with this one. */
  function WatchedSoFar(config: Config, line: LineSide, last: ControlCommand, i: Input): Accumulator {
    Watch(line, last.actionId, i.nowSec, GuideSeen(config, i))
  }

  /** What the frames of the walk say when it is judged; after READY the walk goes on for
      the configured lead. */
  function Verdict(config: Config, line: LineSide, last: ControlCommand, i: Input): Option<LineGuide> {
    FinishGuide(WatchedSoFar(config, line, last, i), last.actionId, i.nowSec,
                if i.feedback.ready && !i.feedback.done then config.line.readyLeadSec else 0.0)
  }

  ghost predicate Runs(out: LineOut, machine: Line.Outcome) {
    out.line.fsm == machine.state && out.request == machine.request && out.referenceValid == machine.referenceValid
  }

  ghost predicate DoesNothing(line: LineSide, out: LineOut) {
    out.line.fsm == line.fsm && out.request == NO_REQUEST && !out.referenceValid
  }

  /** A LINE step: it judges the walk by its verdict, waits for DONE if READY showed no
      line, observes from a standstill once such a walk is done, and otherwise lets the
      machine decide on this frame's guide. */
  ghost predicate LineStepMeans(config: Config, line: LineSide, last: ControlCommand, i: Input, out: LineOut) {
    var done := AboutWalk(last, i.feedback) && i.feedback.done;
    if !i.advanceLineFsm then out.line == line && DoesNothing(line, out)
    else if JudgesWalk(line, last, i.feedback) then
      var verdict := Verdict(config, line, last, i);
      if verdict.None? && !done then DoesNothing(line, out) && out.line.failurePending && out.line.readyId == last.actionId
      else
        && !out.line.failurePending && out.line.readyId == (if i.feedback.ready then last.actionId else line.readyId)
        && Runs(out, Machine(config, line, if verdict.Some? then verdict.value else GuideFor(config, i).(valid := false),
                             i.nowSec, false, done))
    else
      && out.line.readyId == line.readyId
      && if done && line.failurePending then
           && !out.line.failurePending && out.request == NO_REQUEST && !out.referenceValid
           && out.line.fsm == Line.FailAfterDone(line.fsm, GuideSeen(config, i), i.nowSec)
         else
           && out.line.failurePending == line.failurePending
           && Runs(out, Machine(config, line, GuideFor(config, i), i.nowSec, WalkInFlight(last) && !done, done))
  }

  lemma ComputeLineMeans(config: Config, line: LineSide, last: ControlCommand, i: Input)
    ensures LineStepMeans(config, line, last, i, ComputeLine(config, line, last, i))
  {
    hide GuideSeen, Line.Compute, FinishGuide, FinishState, Line.FailAfterDone, Watch, Cleared;
  }

  // ----- What is watched -----

  /** The accumulator follows the walk: kept while a walk of LINE is in flight and cleared
      without one, watched while a long one runs, and emptied by its judgement. */
  lemma Accumulates(config: Config, line: LineSide, last: ControlCommand, i: Input)
    requires i.advanceLineFsm
    ensures var a := ComputeLine(config, line, last, i).line.accumulator;
            if JudgesWalk(line, last, i.feedback) then a.actionId == 0 || a.actionId != last.actionId
            else if LongWalkRuns(last, i.feedback) then a == WatchedSoFar(config, line, last, i)
            else if WalkInFlight(last) then a == line.accumulator
            else a == Cleared(line.accumulator)
  {
    hide GuideSeen, Line.Compute, FinishGuide, Watch, Line.FailAfterDone, StatsOf;
  }

  /** The frames of a running walk, watched one by one. */
  function WatchAll(line: LineSide, id: ActionId, frames: seq<LineP2p.Frame>): Accumulator {
    if frames == [] then line.accumulator
    else
      var init, f := frames[..|frames| - 1], frames[|frames| - 1];
      Watch(line.(accumulator := WatchAll(line, id, init)), id, f.nowSec, f.guide)
  }

  /** A walk that has not been watched or judged yet is watched from the first of its
      frames on, and every frame of it counts. */
  lemma {:induction false} WatchCollects(line: LineSide, id: ActionId, frames: seq<LineP2p.Frame>)
    requires id != 0 && frames != [] && line.readyId != id && line.accumulator.actionId != id
    ensures WatchAll(line, id, frames) == Collect(id, frames[0].nowSec, frames)
  {
    var init := frames[..|frames| - 1];
    if init == [] {
      assert WatchAll(line, id, init) == line.accumulator;
    } else {
      WatchCollects(line, id, init);
      CollectIsFor(id, frames[0].nowSec, init);
      assert init[0] == frames[0];
    }
  }

  lemma {:induction false} CollectIsFor(id: ActionId, beginSec: real, frames: seq<LineP2p.Frame>)
    ensures Collect(id, beginSec, frames).actionId == id
  {
    if frames != [] { CollectIsFor(id, beginSec, frames[..|frames| - 1]); }
  }

  // ----- What is seen of the line -----

  /** The offset seen is measured from the column of the frame, if it gives one inside the
      image, and from that of the configuration otherwise. */
  lemma SeenFromCentre(config: Config, i: Input)
    requires GuideSeen(config, i).valid
    ensures var c := if i.lineImageCenterU.Some? && 0.0 <= i.lineImageCenterU.value < i.width as real
                     then config.features.(imageCenterU := i.lineImageCenterU.value) else config.features;
            var points := Features.GuidePoints(i.lineCenters, i.width, i.height, c);
            && 0 < Features.LocalPoints(points, c) <= |points|
            && GuideSeen(config, i).offset * (i.width as real / 2.0)
               == Fit.Mean(Fit.SumU(points[..Features.LocalPoints(points, c)]), Features.LocalPoints(points, c))
                  - Features.Centre(c, i.width)
  {
    hide Features.FeaturesOf, Features.GuidePoints, Fit.SumU, Fit.Mean;
    Features.OffsetIsToTheRight(i.lineCenters, i.width, i.height, LineConfigFor(config, i));
  }

  // ----- Leaving the line -----

  /** An entered mission leaves no walk watched, marked as judged, or waiting for its DONE;
      the machine keeps its state. */
  lemma EnteringForgets(config: Config, m: State, mission: MissionType)
    ensures EnterMission(config, m, mission).line
         == LineSide(m.line.fsm, Accumulator(0, 0.0, [], [], m.line.accumulator.lastStats), 0, false)
  {
  }

  /** It alone is heard: the other two have published nothing, but a picked-up ball stays
      published for GOAL. */
  lemma EnteringSilences(config: Config, m: State, mission: MissionType)
    ensures var r := EnterMission(config, m, mission).results;
            match mission
            case BallMission => r == NO_RESULTS.(ball := m.results.ball)
            case HurdleMission => r == NO_RESULTS.(hurdle := m.results.hurdle)
            case GoalMission => r == NO_RESULTS.(ball := m.results.ball, goal := m.results.goal)
            case _ => r == m.results
    ensures FinishMission(m).results == NO_RESULTS
  {
  }

  /** Back on the line LINE looks for it anew, with no failed READY left over. */
  lemma ReturningLooksAnew(line: LineSide)
    ensures var back := BeginLineReacquisition(line);
            && back.fsm.mode == Line.FailureObserve && !back.failurePending
            && back.readyId == line.readyId && back.accumulator == line.accumulator
  {
  }

  /** At the start LINE is active with nothing judged or watched, and an initial ball is
      held by the supervisor and by GOAL, whose entry is armed. */
  lemma StartsWithBall(config: Config)
    ensures var m := Mission.Initial(config);
            && m.active == LineMission && m.hasBall == config.initialHasBall
            && m.goal == Goal.INITIAL.(ball := Goal.INITIAL.ball.(hasBall := m.hasBall, armed := m.hasBall))
            && m.line == LineSide(Line.INITIAL, Accumulator(0, 0.0, [], [], None), 0, false)
  {
  }
}
