# vision_core: a verification model of the robot's decision core

`vision_core` turns one camera frame after another into one command at a time.
The project models the three layers that decide what the robot does and proves
what they guarantee over every run:

* **Command delivery** (`CommandCoordinator`, `CoordinatorRuns`, `CoordinatorOutput`,
  `Delivery`, `Retransmission`): the coordinator with one pending action, one pre-queued
  LINE walk, sticky ACK/READY bits, promotion on DONE, one-shot mission actions and the
  ACK-timeout stop. It is composed with a motion executor over channels that lose, delay,
  reorder and duplicate every message; `MissionExecutor` does the same with the whole
  supervisor.
* **Mission supervision** (`BallController`, `HurdleController`, `GoalController`,
  `LineRecovery`, `Mission`, `MissionController` and the property modules beside
  them): five state machines that share one coordinator, and the post-motion gate
  that holds back DONE.
* **Numeric and tracking kernels** (`LineFit`, `LineFeatures`, `LineP2p`,
  `TrackerRefinement`, `ObjectAssociation`, `CruiseSelector`).

Every object of the program is a class whose methods are proved equal to a
specification function on values (`View() == F(old(View()))`); the results about
whole runs are lemmas about those functions. `dafny verify dfyconfig.toml` checks
the whole project.

What the robot does in a frame is stated apart from the functions that compute it:

* `BallDecisions`, `HurdleDecisions`, `GoalDecisions` and `LineDecisions` say, for every
  frame of every run, which step is taken and which way it goes, in terms of what was
  seen, the clock and the feedback. `Steering` holds the two rules they share: walk
  towards the error, turn towards the error.
* `CoordinatorOutput` says which command is emitted, when an order is issued and when the
  timeout strikes, in terms of the frames of the run.
* `MissionFrames`, `MissionLine` and `MissionCommands` say which machine computes on what,
  and how its request becomes the command.
* `GateOpening`, `CameraGate`, `GateEvidence` and `DeferredDone` say when a gate opens, what
  it holds back, when it closes, and on which frames the next motion is then decided.

How to read the main results:

* A run of the supervisor is any sequence of frames and the steps made on it
  (`MissionRuns.IsRun`); every sequence of frames has one. Results about the ball, the
  picks, the delivery and one-shot actions hold of every run. The others are about
  legal runs (`MissionRuns.LegalRun`): as long as no ACK has timed out, DONE of the
  queued action is not heard before DONE of the current one has been taken in
  (`MissionSync.Legal`). Feedback may otherwise be lost, late, repeated or about other
  identifiers. `MissionOrder` derives that from the executor: reports in order give a
  legal run, unless a camera gate swallows a DONE. Time need not increase, and no
  configured range is needed (`ConfigValidation` states the ranges, and the example
  runs obey them). `command_transport_enabled` is true and a run contains no `Reset`.
* The invariant of the supervisor is `MissionInvariant.Inv`. Its parts: the
  controllers of inactive missions follow the line and everybody agrees who holds
  the ball (`MissionMoves.Shape`); the last command names the newest action of the
  coordinator (`MissionSync.Linked`); until an ACK times out the mode of the active
  mission agrees with what is in flight (`MissionInvariant.InSync`); a DONE held back by
  the gate is still the DONE of the pending action (`MissionInvariant.GateHolds`).
* Identifiers are 64-bit and wrap past zero. Results that need distinct identifiers
  ask for at most 2^64 - 1 issued actions, which is exactly when they are distinct
  (`CoordinatorRuns.IdsDistinctIff`).

Three promises of the program do not survive an ACK timeout, and the model keeps the
code as it is. After a timeout the coordinator is frozen for good, but late feedback
still moves the missions. Each promise has a concrete run from the start that breaks
it and the condition under which it holds, stated as an if and only if:

* `README.md:64-65`: no camera motion while an action runs. A camera command names an
  action if and only if the previous command showed the timeout
  (`MissionRuns.CameraNeverOverlaps`; run: `TimeoutExamples.CameraOverlapsAfterTimeout`).
* `README.md:42`: FINAL HOLD lasts until Reset. Frame by frame it is left exactly by
  DONE of the walk whose READY is still marked as failed
  (`MissionFinalHold.FinalHoldLeftIff`). It can be left at all, in some continuation and
  however late, if and only if the previous command shows the timeout of a long LINE
  walk (`MissionHoldExit.FinalHoldCanBeLeftIff`), so a hold frozen on a recovery turn or
  on any other action is terminal too (`MissionFinalHold.FinalHoldIsTerminal`; run:
  `TimeoutExamples.FinalHoldLeftAfterTimeout`).
* `src/mission_controller.cpp:254-265`: a fixed step waits for its own action. A step
  owns what is in flight if and only if no DONE of the frozen action has been let
  through since the timeout, or a HURDLE step meets its own frozen action again
  (`MissionFrozen.FixedStepsOwnTheirDone`; run: `TimeoutPickup.RecatchSkippedAfterTimeout`,
  in which a pickup is verified without RECATCH).

The order of ends rests on the gate. A camera gate drops the feedback of its frames
(`src/mission_controller.cpp:390-394`). If that feedback is DONE of the running walk
while another one is queued, DONE of the queued one comes next although every report
was heard in order (`SwallowedDone.OrderBrokenBySwallowing`); and this is the only way
(`MissionOrder.LegalUnlessSwallowed`, an if and only if).

A further promise rests on the callers: a finished mission action is suppressed until
released, except on the queue path (`CoordinatorRuns.SuppressedUnlessQueued`, an if and
only if; run: `CoordinatorRuns.QueuePathIsNotSuppressed`). The supervisor offers only
walks to the queue, so there the promise holds (`MissionDelivery.MissionActionsAreOneShot`).

## Model

| member | source | states |
|---|---|---|
| CommandCoordinator.ControlCommandCoordinator.AllocateId | src/control_command.cpp:27-28 | the identifier handed out is the next one, and the one after it never becomes zero |
| CommandCoordinator.ControlCommandCoordinator.BeginPendingAction | src/control_command.cpp:25-41 | the new pending action starts without ACK and READY and is emitted as an ACTION with its own identifier |
| CommandCoordinator.ControlCommandCoordinator.BeginQueuedAction | src/control_command.cpp:43-57 | the queued action takes the next identifier and leaves the pending one untouched |
| CommandCoordinator.ControlCommandCoordinator.FinishPending | src/control_command.cpp:100-119 | DONE promotes the queued action with the ACK it already has, or leaves nothing pending, and remembers a finished mission action |
| CommandCoordinator.ControlCommandCoordinator.TakePendingFeedback | src/control_command.cpp:96-121 | feedback counts only for the pending identifier and never after a timeout; ACK and READY are sticky |
| CommandCoordinator.ControlCommandCoordinator.UpdateTimeout | src/control_command.cpp:123-130 | the timeout strikes when an unacknowledged pending or queued action is overdue, and is never taken back |
| CommandCoordinator.ControlCommandCoordinator.Step | src/control_command.cpp:87-162 | one call takes in feedback, then checks the timeout, then emits, in that order |
| CoordinatorRuns.IdChain | src/control_command.cpp:25-57 | queued is the successor of pending and next the successor of the newest of them, also across wrap-around, in every run |
| CoordinatorRuns.IdsDistinctIff | src/control_command.cpp:27-28 | identifiers of a run repeat exactly when more than 2^64 - 1 of them are taken |
| CoordinatorRuns.RunChained | src/control_command.cpp:25-57 | the issued identifiers are consecutive and the outstanding orders are always the last ones issued |
| CoordinatorRuns.OutputIsIssued | src/control_command.cpp:59-85 | every command that carries an identifier repeats an order that was really issued |
| CoordinatorRuns.PayloadStable | src/control_command.cpp:59-85 | all commands with one identifier carry the same mission, action, category and yaw |
| CoordinatorRuns.NoActionAfterAck | src/control_command.cpp:59-98 | once the ACK of an identifier was taken in, that identifier is never again emitted as an ACTION |
| CoordinatorRuns.TimeoutFreezes | src/control_command.cpp:123-141 | after the timeout the state never changes, nothing is issued, and every output is HOLD with the same identifier |
| CoordinatorRuns.FrozenCommandNamesAction | src/control_command.cpp:136-141 | the frozen command names an action that was issued |
| CoordinatorRuns.SuppressedUnlessQueued | src/control_command.cpp:100-161 | from the DONE of a mission action on and until a release, in every run: it is issued again exactly in the frames that offer it to the queue behind a long LINE walk whose READY is in |
| CoordinatorRuns.OneShot | src/control_command.cpp:100-161 | a frame that offers only walks to the queue does not issue a finished mission action again before an idle frame without a request or DONE of another mission action |
| CoordinatorRuns.QueuePathIsNotSuppressed | src/control_command.cpp:143-151 | a run of three frames from the start that issues PICK_BALL again through the queue with no release in between, so the callers' discipline is needed |
| CoordinatorOutput.RepeatsUntilAck | src/control_command.cpp:59-85 | in every frame of every run: with nothing outstanding the command names nothing; otherwise it repeats the newest order issued, as ACTION exactly as long as no ACK of that order has been brought in and no timeout has struck, with the phase that tells what is waited for; also for queued and promoted orders |
| CoordinatorOutput.StrikesIff | src/control_command.cpp:123-130 | the timeout strikes in a frame if and only if some order still outstanding has not been acknowledged in any frame and was issued at least the configured time before |
| CoordinatorOutput.IssuesIff | src/control_command.cpp:132-161 | a frame issues its request, under the next identifier, if and only if no timeout has struck, something is asked for, and either nothing is outstanding and the request is no mission action finished since the last idle frame or other finish, or it fits behind one long LINE walk whose READY has been brought in |
| CoordinatorOutput.SuppressedIsHushed | src/control_command.cpp:100-161 | the suppressed mission action is the one finished last, with no idle frame in between |
| CoordinatorOutput.IssuedIds | src/control_command.cpp:16-28 | the k-th identifier in closed form: from the configured first one, or 1 if that is zero, around all 64-bit values but zero |
| Delivery.ExactlyOnceInOrder | README.md:28-31 | over lossy, duplicating and reordering channels the executor starts a duplicate-free prefix of the issued orders, in issue order, with the issued payload |
| Delivery.OneSlotSuffices | README.md:28-31 | no order that can arrive is ever turned away by the executor's single slot |
| Delivery.AckSound | src/control_command.cpp:92-121 | ACK and READY bits of the coordinator are true knowledge about the executor, also after a promotion |
| Delivery.IdleMeansAllExecuted | src/control_command.cpp:100-119 | a coordinator with nothing outstanding has had every issued order executed to its end |
| Retransmission.UnacknowledgedIsSent | README.md:28-31 | while something is outstanding and no timeout has struck, every tick puts the newest order on the lossy channel, and nothing else, exactly as long as no ACK of it has been brought in |
| Retransmission.SupervisorRepeatsUntilAck | src/mission_controller.cpp:639-645 | the same answer in every frame of every supervisor run: ACTION if and only if the coordinator has not been told of the ACK of the order named and no timeout has struck |
| SlidingWindow.PushBounded | src/ball_controller.cpp:57-60 | push-back followed by pop-front keeps the last elements of the configured window |
| SlidingWindow.TrailingMissesMeaning | src/ball_controller.cpp:62-100 | the lost counter's specification is the length of the run of misses the stream ends with |
| SlidingWindow.SmoothInHull | src/ball_controller.cpp:62-100 | exponential smoothing never leaves an interval that holds the old and the observed value |
| TrackerRefinement.AdvanceRefines | src/ball_controller.cpp:54-109 | one more frame keeps histories, lost counter, stability and smoothed position equal to what the stream of sightings since the clear determines |
| TrackerRefinement.MeanMoves | src/ball_controller.cpp:62-100 | smoothing in closed form: the smoothed position is the mean of all positions since the clear in which the newest counts by the configured fraction and each older one less by one minus that fraction |
| TrackerRefinement.WeightsSumToOne | src/ball_controller.cpp:62-100 | the weights of that mean are not negative and sum to one |
| CruiseSelector.DirectionIsConvex | src/cruise_selector.cpp:7-25 | what lies between two errors that select a direction selects it too |
| LineDecisions.CruiseDecides | src/mission_controller.cpp:50-62 | in cruise with no walk in flight a valid guide is answered by STEP_FORWARD_RIGHT, STEP_FORWARD_LEFT or STEP_FORWARD_FIVE exactly as offset gain times offset plus heading gain times heading is above the deadband, below the negative one, or in between |
| MissionCommands.LineWalksToTheLine | src/cruise_selector.cpp:7-25 | over every legal run, on the line in cruise with nothing in flight: the command is that very walk, under the next identifier |
| BallController.BallController.UpdateTracker | src/ball_controller.cpp:54-109 | the tracker fields after a frame are those of the specification |
| BallController.BallController.DoFineAdjust | src/ball_controller.cpp:225-246 | fine alignment waits, settles, recovers or picks as specified, counting the attempt |
| BallController.BallController.DoVerifyObservation | src/ball_controller.cpp:265-293 | the pickup is judged on a full window only, and retried only while attempts remain |
| BallController.BallController.FinishLineRecovery | src/ball_controller.cpp:401-405 | only LINE recovery can be completed; it arms the ignore time and forgets the track |
| BallController.BallController.Process | src/ball_controller.cpp:142-363 | one call of the controller equals the specified step, state and result |
| BallProperties.ComputeMoves | src/ball_controller.cpp:142-363 | every step makes one of the listed moves: which mode may follow, what is asked for, and what the feedback must have been |
| BallProperties.TrackerRefined | src/ball_controller.cpp:54-109 | in every interleaving of frames and clears the tracker is what the sightings since the last clear determine |
| BallProperties.SmoothedInUnit | src/ball_controller.cpp:62-100 | the smoothed position stays in the unit square in every run |
| BallProperties.PickupBound | src/ball_controller.cpp:225-293 | at most max(1, pickup_max_attempts) picks happen in one engagement although the increment site has no check |
| BallProperties.VerifiedSuccess | src/ball_controller.cpp:265-293 | success needs a full window of frames that all came after RECATCH, fewer than stable_min_hits of them with a ball |
| BallDecisions.SightingMeaning | src/ball_controller.cpp:54-109 | a sighting in pixels: the rectified position as a share of the image, and the raw row against the thresholds for upper and low |
| BallDecisions.SizesMeaning | src/ball_controller.cpp:62-90 | height and area of the published track as shares of the image |
| BallDecisions.RunDecides | src/ball_controller.cpp:111-363 | every frame of every run takes exactly the step that the sightings since the last clear, the clock and the feedback call for: walking towards the ball, side and half steps by the sign of the errors, PICK if and only if both are within their deadbands, recovery, retries and camera motions |
| BallDecisions.StepClocks | src/ball_controller.cpp:164-363 | waits are counted from the frame that began them, and the robot rests for the configured time after that frame or the last DONE |
| BallDecisions.TurnsToLastSide | src/ball_controller.cpp:134-140 | over every run a recovery turn goes to the side where the ball was last seen since the camera came to rest, 15 degrees, and there is none when that was within the tolerance |
| BallDecisions.RunPublishes | src/ball_controller.cpp:174-181 | the published track is what the sightings since the last clear amount to, the flags are those of the state, and an engagement starts afresh |
| BallDecisions.IgnoredAfterRecovery | src/ball_controller.cpp:401-405 | for the configured time after LINE was recovered no ball is engaged, whatever is seen |
| HurdleController.HurdleController.UpdateTracker | src/hurdle_controller.cpp:47-98 | the tracker fields after a frame are those of the specification |
| HurdleController.HurdleController.Process | src/hurdle_controller.cpp:108-227 | one call of the controller equals the specified step, state and result |
| HurdleProperties.ComputeMoves | src/hurdle_controller.cpp:108-227 | every step makes one of the listed moves |
| HurdleProperties.TrackerRefined | src/hurdle_controller.cpp:47-98 | in every interleaving of frames, clears and resets the tracker is what the sightings since the last clear determine |
| HurdleProperties.SmoothedInUnit | src/hurdle_controller.cpp:47-98 | the smoothed position stays in the unit square in every run |
| HurdleDecisions.SightingMeaning | src/hurdle_controller.cpp:47-98 | a sighting in pixels: the rectified position as a share of the image, and the raw row against the two thresholds |
| HurdleDecisions.SizesMeaning | src/hurdle_controller.cpp:55-75 | height and lower edge of the published track as shares of the image |
| HurdleDecisions.RunDecides | src/hurdle_controller.cpp:100-227 | every frame of every run takes exactly the step that the sightings since the last clear, the clock and the feedback call for |
| HurdleDecisions.StepClocks | src/hurdle_controller.cpp:108-227 | waits are counted from the frame that began them, and the robot rests for the configured time after the last DONE of a recovery |
| HurdleDecisions.TurnsToLastSide | src/hurdle_controller.cpp:100-106 | over every run a recovery turn goes to the side of the last sighting since the camera came to rest, 15 degrees, and there is none when that was within the tolerance of the middle |
| HurdleDecisions.RunPublishes | src/hurdle_controller.cpp:108-227 | the published track is what the sightings since the last clear amount to |
| HurdleDecisions.IgnoredAfterCrossing | src/hurdle_controller.cpp:112-200 | for the configured time after the crossing no hurdle is engaged, whatever is seen |
| HurdleDecisions.ResetForgets | src/hurdle_controller.cpp:240-260 | a reset leaves the line state with nothing remembered, not even the ignore time |
| GoalController.GoalController.SetHasBall | src/goal_controller.cpp:101-110 | a consumed ball is not taken again, and losing the ball disarms the entry |
| GoalController.GoalController.UpdateGoalTracker | src/goal_controller.cpp:119-158 | the backboard tracker after a frame is that of the specification |
| GoalController.GoalController.UpdatePoseTracker | src/goal_controller.cpp:160-196 | the pose tracker after a frame is that of the specification |
| GoalController.GoalController.Process | src/goal_controller.cpp:238-440 | one call of the controller equals the specified step, state and result |
| GoalProperties.ComputeMoves | src/goal_controller.cpp:238-440 | every step makes one of the listed moves, and the ball is lost by a completed SHOOT only |
| GoalProperties.TrackersRefined | src/goal_controller.cpp:119-196 | both trackers are what their sightings since the last clear determine, in every interleaving |
| GoalProperties.SmoothedInUnit | src/goal_controller.cpp:119-158 | the smoothed position of the backboard stays in the unit square in every run |
| GoalProperties.BallLeavesByShoot | src/goal_controller.cpp:381-394 | a held ball leaves by DONE of SHOOT, by being told so, or by a reset |
| GoalDecisions.SightingMeaning | src/goal_controller.cpp:119-196 | a sighting of the backboard in pixels, and of its pose: only with a backboard and a positive depth, and near by the configured depth |
| GoalDecisions.RunDecides | src/goal_controller.cpp:198-448 | every frame of every run takes exactly the step that what was seen since the last clear, the clock and the feedback call for: the entry after the wait, walking towards the backboard, SHOOT if and only if a valid pose is in range and within the yaw limit, otherwise range first and then the side of the rim, search and recovery |
| GoalDecisions.EveryShootIsAimed | src/goal_controller.cpp:214-236 | over every run a SHOOT carries, within half a degree, the yaw of an aligned pose: of this frame if the shooting begins here, otherwise of the frame in which it began |
| GoalDecisions.StepClocks | src/goal_controller.cpp:238-440 | waits are counted from the frame that began them, and the robot rests for the configured time after that frame or the last DONE |
| GoalDecisions.TurnsToLastSide | src/goal_controller.cpp:442-448 | over every run a recovery turn goes to the side where the backboard was last seen since the camera came to rest, 15 degrees, and there is none when that was within the tolerance or while it is visible |
| GoalDecisions.SideIsLastSeen | src/goal_controller.cpp:119-158 | the remembered side is that of the last sighting of the run, and the search may turn only if the backboard was seen steadily since the camera came up |
| GoalDecisions.RunPublishes | src/goal_controller.cpp:238-270 | the published backboard and pose are what was seen since the last clear |
| GoalDecisions.ToldBall | src/goal_controller.cpp:101-117 | a ball that was shot is not taken again until the controller is told on the line that it is gone; the entry is armed exactly while an unshot ball is carried along the line |
| GoalDecisions.TakenBall | src/goal_controller.cpp:96-110 | losing the ball ends the entry and its wait, taking one changes nothing else, and a start with a ball arms the entry |
| GoalDecisions.ResetForgets | src/goal_controller.cpp:464-491 | a reset leaves the line state without ball, entry wait or track, with the backboard remembered in the target column |
| LineP2p.LineGuideAccumulator.Add | src/line_p2p_controller.cpp:34-41 | frames of another action are ignored; invalid guides count as frames but not as samples |
| LineP2p.LineGuideAccumulator.Finish | src/line_p2p_controller.cpp:43-97 | the guide is the weighted average of the samples from 40% of the estimated motion on, and the accumulator is empty afterwards |
| LineP2p.LineGuideAccumulator.FinishAll | src/line_p2p_controller.cpp:99-131 | the guide is the plain average of all samples |
| LineP2p.WeightsRise | src/line_p2p_controller.cpp:70-72 | weights are between 1 and 3 and never decrease in time |
| LineP2p.WeightIsLinear | src/line_p2p_controller.cpp:70-72 | inside a window the weight rises evenly from 1 at its start to 3 at its end |
| LineP2p.WindowLeavesOutStart | src/line_p2p_controller.cpp:50-60 | the window leaves out the first two fifths of the estimated motion and ends with the present frame |
| LineP2p.FinishYieldsIff | src/line_p2p_controller.cpp:43-97 | a guide is returned exactly when some valid frame lies in the window |
| LineP2p.StatsOrdered | src/line_p2p_controller.cpp:55-69 | used <= window <= total frames and used <= valid <= total frames |
| LineP2p.StatsMeaning | src/line_p2p_controller.cpp:43-62 | the published window and the number of frames counted in it, told by the clock and the times of the frames |
| LineP2p.OthersAreIgnored | src/line_p2p_controller.cpp:34-47 | frames of an action not begun change nothing, and such an action cannot be finished |
| LineP2p.FinishEmpties | src/line_p2p_controller.cpp:91-138 | a finished action leaves nothing to be averaged again, only the counts of its window |
| LineP2p.FinishInHull | src/line_p2p_controller.cpp:63-93 | offset, heading and confidence lie in the hull of the usable frames |
| LineP2p.AverageCurvature | src/line_p2p_controller.cpp:75-90 | curvature is valid exactly when some sample has one, and lies in the hull of those |
| LineP2p.FinishKeepsDirection | src/line_p2p_controller.cpp:17-97 | if every usable frame alone selects a direction, the average selects it |
| LineFit.FitLine | src/line_feature_extractor.cpp:21-48 | the two loops compute the fit of the slice, or none for too few points or too little spread |
| LineFit.MeanSquaredError | src/line_feature_extractor.cpp:61-71 | the loop computes the mean squared residual of the fit |
| LineFit.LeastSquares | src/line_feature_extractor.cpp:21-48 | a valid fit has the least squared error of all lines, and no other line reaches it |
| LineFit.ResidualsCancel | src/line_feature_extractor.cpp:45-47 | the residuals of a valid fit sum to zero |
| LineFit.FitThroughMean | src/line_feature_extractor.cpp:45-47 | the fit passes through the mean point whatever its slope |
| LineFit.ExactLineIsFound | src/line_feature_extractor.cpp:21-71 | points on one line are fit by that line, without any error |
| LineFit.TwoPointsFit | src/line_feature_extractor.cpp:21-48 | two points are enough exactly if the spread of their rows is above the threshold |
| LineFeatures.ComputeLineGuide | src/line_feature_extractor.cpp:82-141 | the guide of sorted points equals its specification, including the invalid cases |
| LineFeatures.ComputeLineFeatures | src/line_feature_extractor.cpp:144-174 | clamp, sort, keep the nearest and fit equals its specification |
| LineFeatures.SortedIsUnique | src/line_feature_extractor.cpp:157-159 | there is one sorted arrangement, so any correct sort gives it |
| LineFeatures.FeaturesIgnoreOrder | src/line_feature_extractor.cpp:144-174 | permuted input points give the same features |
| LineFeatures.OffsetIsMeanColumn | src/line_feature_extractor.cpp:98-100 | the offset is that of the mean column of the near points, which lies in the image |
| LineFeatures.PublishedOffset | src/line_feature_extractor.cpp:144-174 | the same for whatever points are passed in, after clamping and sorting |
| LineFeatures.OffsetIsToTheRight | src/line_feature_extractor.cpp:98-100 | in half image widths the offset is how far the near points lie right of the center, the configured one or the middle |
| LineFeatures.NearestPoints | src/line_feature_extractor.cpp:148-162 | the guide is made of at most the configured number of points, from near to far, and no point left out is nearer |
| LineFeatures.PublishedHeading | src/line_feature_extractor.cpp:82-141 | the heading is the negative angle of the best line through the near points, the curvature how much the angle of the far points differs, and it is valid exactly with enough points far enough apart |
| LineFeatures.ValidIff | src/line_feature_extractor.cpp:82-174 | a guide is valid exactly when the image is wide enough, there are enough points, and the near ones can be fit |
| LineFeatures.ClampPointMeaning | src/line_feature_extractor.cpp:151-156 | points outside the image move to its nearest border, all others stay |
| LineFeatures.ConfidenceMeaning | src/line_feature_extractor.cpp:124-139 | the confidence is the product of three shares: points found, rows spanned, and what the fit error leaves of its scale |
| ObjectAssociation.ObjectAssociationTracker.AcquireInitial | src/object_association_tracker.cpp:45-59 | a new identity is the first candidate of largest area |
| ObjectAssociation.ObjectAssociationTracker.FindBest | src/object_association_tracker.cpp:73-91 | the loop finds the first gated candidate of least score, or there is no gated candidate |
| ObjectAssociation.ObjectAssociationTracker.Update | src/object_association_tracker.cpp:61-108 | one frame continues, keeps, drops or replaces the identity as specified |
| ObjectAssociation.SelectionIsCurrent | src/object_association_tracker.cpp:61-108 | a returned target is a candidate of this frame, with that candidate's index |
| ObjectAssociation.UpdateIsDetermined | src/object_association_tracker.cpp:61-108 | the specification leaves one outcome for every frame |
| ObjectAssociation.IdentitySurvives | src/object_association_tracker.cpp:93-108 | an identity survives exactly missing_frame_limit misses in a row and the next one drops or replaces it |
| ObjectAssociation.MissesBounded | src/object_association_tracker.cpp:93-108 | in every run a living identity has missed at most missing_frame_limit frames |
| ObjectAssociation.GateAndScore | src/object_association_tracker.cpp:66-91 | both gates and both weights, with negative settings counting as zero |
| MissionController.MissionController.ComputeLineAction | src/mission_controller.cpp:106-198 | one run of the LINE machine, with the second run in the frame that ends in a turn, equals its specification |
| MissionController.MissionController.FinishObservation | src/mission_controller.cpp:88-104 | the mean of a window, or none with too few valid samples |
| MissionController.MissionController.BeginLineReacquisition | src/mission_controller.cpp:200-208 | direction, counters and history are forgotten and a failure observation begins |
| LineRecoveryRuns.RecoveryBounded | src/mission_controller.cpp:106-208 | in every run, also one in which walks fail in FINAL HOLD: turns and retries stay within their limits and never mix, are zero in cruise; all turns of an episode go the way last decided; failed windows are turns plus retries plus exits from FINAL HOLD, and FINAL HOLD comes with exactly the one that exceeds the episode's patience |
| LineRecoveryRuns.WindowJudged | src/mission_controller.cpp:64-162 | a window is judged on exactly the valid guides seen since it began; a good one decides by their average |
| LineDecisions.FrameGoes | src/mission_controller.cpp:106-198 | where LINE goes next: cruise that loses the line looks for it, a completed turn looks again from its DONE on, a poor window is repeated, answered by a turn or given up as its evidence and its count allow, and FINAL HOLD stays |
| LineDecisions.OthersGo | src/mission_controller.cpp:200-520 | a mission is followed by a window from the next frame on, and a walk whose READY found no line by one from its DONE on |
| LineDecisions.WindowEndsIff | src/mission_controller.cpp:121-150 | a stationary window ends with the first frame without a walk that comes the configured time of its kind after it began |
| LineDecisions.WindowDecides | src/mission_controller.cpp:121-162 | over every run a window with enough valid samples walks towards the line as their plain mean shows it, and one with too few does not return to cruise |
| LineDecisions.TurnsToTheSide | src/mission_controller.cpp:163-198 | over every run a recovery turn goes left exactly when the last decision outside the deadband was negative, with the configured yaw, and there is none once a later decision was within it |
| LineDecisions.ReferenceIff | src/mission_controller.cpp:106-120 | the line counts as found exactly in cruise and with enough of the last frames showing it |
| MissionController.MissionController.JudgeWalk | src/mission_controller.cpp:485-508 | READY or DONE of a long walk judges the frames of that walk, and an invalid READY waits for DONE |
| MissionController.MissionController.ComputeLine | src/mission_controller.cpp:448-524 | the LINE step of one frame equals its specification |
| MissionLine.ComputeLineMeans | src/mission_controller.cpp:448-524 | one LINE step told by the last command and the feedback: which walk is judged and on what, when an invalid READY waits for DONE, and otherwise the machine on the guide of this frame |
| MissionLine.WatchCollects | src/mission_controller.cpp:478-484 | a walk not watched or judged before is watched from its first frame on, and every frame of it counts |
| MissionLine.Accumulates | src/mission_controller.cpp:472-521 | the watched frames are kept while a walk of LINE is in flight, grow while a long one runs, and are dropped by its judgement or without a walk |
| MissionLine.SeenFromCentre | src/mission_controller.cpp:449-456 | the offset is measured from the column given with the frame if it lies in the image, and from the configured one otherwise |
| MissionLine.EnteringForgets | src/mission_controller.cpp:210-214 | an entered mission leaves no walk watched, marked as judged or waiting for its DONE |
| MissionLine.EnteringSilences | src/mission_controller.cpp:215-229 | whose results are forgotten when a mission is entered or finished, and whose stay |
| MissionLine.ReturningLooksAnew | src/mission_controller.cpp:200-208 | back on the line LINE looks for it anew, with no failed READY left over |
| MissionLine.StartsWithBall | src/mission_controller.cpp:36-48 | an initial ball is held by the supervisor and by GOAL, whose entry is armed |
| MissionController.MissionController.BeginDecisionObservation | src/mission_controller.cpp:268-292 | a gate after a motion forgets what was seen while moving; a camera gate does not |
| MissionController.MissionController.OpenDecisionGate | src/mission_controller.cpp:356-370 | a gate opens on a camera settling edge or on a DONE that must be deferred |
| MissionController.MissionController.AddDecisionObservation | src/mission_controller.cpp:294-321 | object gates record a hit or a miss, LINE gates the valid guide |
| MissionController.MissionController.DecisionObservationReady | src/mission_controller.cpp:323-334 | ready means long enough and, for objects, 7 hits in the last 10 frames |
| MissionController.MissionController.PassDecisionGate | src/mission_controller.cpp:371-396 | what the gate lets through: the DONE it closes on, a stand-in ACK, or nothing |
| MissionController.MissionController.Enter | src/mission_controller.cpp:210-224 | an entered mission switches the others off |
| MissionController.MissionController.StepLine | src/mission_controller.cpp:527-560 | LINE first runs its own machine, then looks for the goal when carrying, else for a hurdle, else for a ball, and for nothing in FINAL HOLD |
| MissionController.MissionController.StepBall | src/mission_controller.cpp:561-582 | one BALL frame, including the return to the line |
| MissionController.MissionController.StepHurdle | src/mission_controller.cpp:583-592 | one HURDLE frame, including the return to the line |
| MissionController.MissionController.StepGoal | src/mission_controller.cpp:593-608 | one GOAL frame; GOAL decides who holds the ball |
| MissionController.MissionController.StepMission | src/mission_controller.cpp:436-650 | mission step, request and camera selection, coordinator, in that order |
| MissionController.MissionController.Process | src/mission_controller.cpp:351-650 | one call of the supervisor equals the specified step, state and command |
| GateOpening.WithheldIff | src/mission_controller.cpp:231-266 | over every legal run, with no gate open and no timeout: DONE of the last command is withheld exactly in the modes that choose the next motion by sight (BALL approach, fine alignment and both recoveries; HURDLE approach and recovery; GOAL search, approach, fine alignment and recovery), and no feedback gets through in a frame in which the camera comes to rest |
| GateOpening.WithheldOnceFrozen | src/mission_controller.cpp:231-266 | after an ACK timeout, over every run: DONE of the frozen action is withheld exactly unless it is a LINE walk that LINE does not wait for, a camera motion has been decided on, or the action has a fixed successor |
| GateOpening.NothingBeforeLooking | src/mission_controller.cpp:268-396 | after such a DONE nothing is allocated and the action stays pending up to the first frame with the observation time passed and 7 hits in the last 10 frames; that frame hands over the DONE |
| GateEvidence.DecidesOnFreshFrames | src/mission_controller.cpp:268-292 | that frame decides on exactly the frames since the motion ended |
| CameraGate.LooksBeforeActing | src/mission_controller.cpp:356-396 | over every run: from the frame in which the camera comes to rest up to the first one in which the robot has looked long enough, no feedback gets through and nothing is asked for; that frame lets everything through and gives LINE the mean guide |
| MissionFrames.FrameIsComputed | src/mission_controller.cpp:526-611 | over every run the active machine computes on exactly this picture, clock, camera and feedback, or only observes it while a gate is open; LINE enters GOAL, HURDLE or BALL exactly when that enabled machine leaves the line, and missions end exactly as their machines do; after a hurdle balls seen before do not count, and GOAL is told of a picked-up ball |
| MissionCommands.CommandCamera | src/mission_controller.cpp:613-641 | over every run the command moves the camera exactly as the active mission asks, and not while a gate holds |
| MissionCommands.RequestIsCommanded | src/mission_controller.cpp:613-645 | over every legal run, with nothing in flight, what the active mission asks for is commanded at once under the next identifier: no request is dropped or changed, except while a gate holds or no new LINE action is allowed |
| MissionMoves.DispatchIsMove | src/mission_controller.cpp:526-611 | every mission step makes one of the listed joint moves of the five machines |
| MissionMoves.MoveKeepsShape | src/mission_controller.cpp:210-229 | any such move keeps inactive machines on the line, mirrored modes equal and possession agreed |
| MissionSync.CoordinatorMoves | src/control_command.cpp:87-162 | seen from outside the coordinator changes what is in flight only by the listed moves, also in the frame in which the timeout strikes and after it |
| MissionSync.CoordinatorBasics | src/control_command.cpp:59-162 | after any step on any feedback the output names the newest action with mission and payload and shows the timeout; a timeout is never forgotten and nothing is allocated without a request |
| MissionSync.ComputeLineMoves | src/mission_controller.cpp:448-524 | in step with the coordinator, the LINE machine asks for walks or turns only where nothing else is in flight, or for the queue at READY |
| MissionInvariant.TurnKeepsSync | src/mission_controller.cpp:526-641 | any mission step with any coordinator step ends in step, and a camera motion is asked for only with nothing in flight |
| MissionInvariant.HoldFrameKeeps | src/mission_controller.cpp:403-435 | an observing frame changes nothing in flight and allocates nothing |
| MissionRuns.RunExists | src/mission_controller.cpp:351-650 | every sequence of inputs has a run, so no result about runs is empty |
| MissionRuns.RunBase | src/mission_controller.cpp:351-650 | at every point of every run, with any feedback at all: the coordinator is well-formed, the missions agree about modes and ball, and the last command is linked |
| MissionRuns.RunInv | src/mission_controller.cpp:351-650 | the invariant of the supervisor holds at every point of every legal run |
| MissionRuns.CameraNeverOverlaps | README.md:64-65 | a command with a camera request names no action exactly when the previous command showed no ACK timeout, and then nothing is pending or queued |
| TimeoutExamples.CameraOverlapsAfterTimeout | src/mission_controller.cpp:437-445 | a run of three frames that moves the camera while action 1 is still named, after an ACK timeout |
| TimeoutExamples.ConfigIsValid | src/config_loader.cpp:62-233 | the configuration of the example runs is one that loading accepts, for the keys modelled here |
| MissionTheorems.LastCommandIsLinked | src/mission_controller.cpp:639-645 | before every frame, timed out or not, the last command names the queued action, otherwise the pending one, with mission, action, category and yaw, and shows whether an ACK has timed out; until then the modes agree with what is in flight |
| MissionFrozen.RunSettles | src/mission_controller.cpp:436-445 | every point of every run is in step until a late DONE of the frozen action is let through, and from then on the missions are where that DONE can have driven them |
| MissionFrozen.FixedStepsOwnTheirDone | src/mission_controller.cpp:254-265 | in PICK, RECATCH, STAND_UP, BACK_AWAY, CONTACT, CROSS and SHOOT nothing but the step's own action is in flight, exactly until a late DONE is let through or a HURDLE step meets its own frozen action; where it is, its DONE is never deferred and carries its identifier |
| TimeoutPickup.RecatchSkippedAfterTimeout | src/mission_controller.cpp:437-445 | a run of six frames in which two late DONEs of PICK_BALL end the pickup and the RECATCH step although RECATCH was never issued |
| MissionTheorems.BallIsConserved | src/mission_controller.cpp:564-601 | balls in hand are initial balls plus verified pickups minus completed SHOOTs, over every run and whatever the feedback |
| MissionTheorems.MissionsExclude | src/mission_controller.cpp:526-611 | BALL and HURDLE are entered empty-handed, GOAL carrying; inactive controllers follow the line and mirrored modes are equal, over every run and whatever the feedback |
| MissionPickup.PicksAreBounded | src/ball_controller.cpp:225-293 | in supervisor runs BALL enters PICKUP at most max(1, pickup_max_attempts) times per engagement, whatever gates and other missions do in between |
| MissionPickup.RunFollowsBall | src/mission_controller.cpp:526-611 | frame by frame the BALL controller of every supervisor run makes a run of its own, with the same picks, so what is proved of its runs holds there |
| MissionPickup.PickupVerifiedIff | src/ball_controller.cpp:265-293 | a frame of the verification counts the ball as picked up if and only if it is not spent observing, a full window of frames has come since the wait for RECATCH ended, and fewer than stable_min_hits of the last window show a ball |
| MissionFinalHold.FinalHoldLeftIff | src/mission_controller.cpp:470-524 | in every run a frame leaves FINAL HOLD exactly when it advances LINE with DONE of the walk whose READY is still marked as failed and does not judge that walk; every other frame keeps hold, mission, identifiers and actions and moves no camera, timed out or not |
| MissionFinalHold.FinalHoldIsTerminal | src/mission_controller.cpp:529-531 | unless the previous command shows the timeout of a long LINE walk, no later frame allocates, moves the camera, changes the mission or leaves the hold |
| MissionHoldExit.FinalHoldCanBeLeftIff | README.md:42 | some continuation of the run, however late, leaves FINAL HOLD if and only if the previous command shows the timeout of a long LINE walk |
| TimeoutExamples.FinalHoldLeftAfterTimeout | README.md:42 | a run of six frames that leaves FINAL HOLD after an ACK timeout |
| MissionLineRecovery.LineRecoveryIsBounded | src/mission_controller.cpp:106-208 | frame by frame the LINE machine of every supervisor run makes a run of its own, so its recovery is bounded and one-directional there too; that run never leaves FINAL HOLD while no ACK has timed out |
| DeferredDone.DeferredDoneIsKept | src/mission_controller.cpp:231-396 | a DONE held back is handed over once, in the closing frame, after the observation time and 7 hits in the last 10 frames; until then its action stays pending and nothing is allocated |
| MissionDelivery.RunsAgree | src/mission_controller.cpp:639-645 | frame by frame the supervisor drives its coordinator like a coordinator run, offering only walks to the queue, whatever the feedback |
| MissionDelivery.CommandsAreStable | src/mission_controller.cpp:639-650 | commands of the supervisor with the same identifier carry the same payload |
| MissionDelivery.MissionActionsAreOneShot | src/control_command.cpp:155-161 | in supervisor runs a finished mission action is not issued again before a release |
| MissionExecutor.SupervisorExactlyOnce | README.md:28-31 | supervisor and executor composed over lossy, duplicating and reordering channels: the executor starts a duplicate-free prefix of the orders the supervisor issued, and all of them have ended when nothing is pending |
| MissionOrder.LegalUnlessSwallowed | src/mission_controller.cpp:371-396 | with reports in order, a composed run is legal if and only if no DONE of a queued action is heard after a camera gate has swallowed DONE of the pending one |
| MissionOrder.InOrderIsLegal | README.md:28-31 | if reports arrive in order and no DONE is swallowed, the executor's order of ends is the one every result on legal runs assumes |
| SwallowedDone.OrderBrokenBySwallowing | src/mission_controller.cpp:390-394 | a run of five frames with every report heard in order whose last frame is not legal, because a camera gate swallowed DONE of the running walk |

## Left out

- NaN, infinity and rounding: numbers are reals, so every `isfinite` branch takes its finite side.
- Trigonometry and other transcendental geometry: goal pose, shoot yaw, heading and curvature angles, image distances, size ratios and the square root of the fit error are arbitrary functions of the configuration.
- Integer widths: counters, image sizes and yaw degrees are unbounded; only action identifiers wrap.
- Configuration loading and its exceptions: only the validated ranges of the modelled keys are stated, and no result needs them.
- `StepPerception`: detection filtering, IMU rectification and depth sampling are left out; targets, line centers and the goal pose are arbitrary inputs. The association tracker is modelled by itself, so its resets when a camera moves or a gate opens are not part of the supervisor.
- Direct callers with `command_transport_enabled` false: their feedback is arbitrary and the cross-machine results do not apply.
- `Reset` and `UpdateLineP2pTuning` of the supervisor: runs do not contain them, because Reset restarts the identifiers.
- Diagnostic outputs: mode names, mission phase numbers, window statistics in the result and post-motion counters.
- The trackers of a controller are grouped into one record per tracker in the classes; the fields and their order of update inside one frame are those of the specification.
- `std::sort` and `std::max_element`: represented by an insertion sort (with the proof that the sorted arrangement is unique) and by a loop.
- Liveness: a gate stays open while fewer than 7 of its last 10 frames are hits, an action whose DONE a camera gate swallows stays pending, and a recovery turn computed during BALL or GOAL line recovery, or while new LINE actions are not allowed, is dropped although it counts as issued.
- The channel of `MissionOrder` loses no report and keeps their order, and the executor reports every end; the results of `Delivery` and `MissionExecutor` need neither.
- DeferredDone.DeferredDoneIsKept: is about gates that follow a motion and opened without an ACK timeout; the gates that follow a camera motion are those of `CameraGate`, and a DONE that comes under one is lost.
- GoalDecisions.RunPublishes: says nothing about the smoothed yaw of the published pose, which no decision uses; every angle there goes through an arbitrary function.
- Delivery.ExactlyOnceInOrder: holds up to 2^64 - 1 issued actions, after which identifiers repeat.
