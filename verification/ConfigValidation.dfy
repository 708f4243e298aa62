/** The ranges that loading a configuration enforces, for the keys this model uses. No
    result needs them; they show that the example runs use an acceptable one. */
module ConfigValidation {
  import Mission
  import Line = LineRecovery
  import Features = LineFeatures
  import Ball = BallController
  import Hurdle = HurdleController
  import Goal = GoalController

  predicate Unit(value: real) { 0.0 <= value <= 1.0 }

  predicate HitsWithinWindow(hits: int, window: int) { 0 < hits <= window }

  predicate ValidFeatures(c: Features.Config) {
    && c.maxCenters > 0 && 3 <= c.guideMinPoints <= c.maxCenters
    && c.curveMinPoints > 0 && c.curveMinVSpanPx >= 0.0 && c.curveLocalFitPoints > 0 && c.guideFitRmseFullScalePx > 0.0
  }

  predicate ValidLine(c: Line.Config) {
    && HitsWithinWindow(c.stableMinHits, c.stableWindow)
    && c.steering.offsetGain >= 0.0 && c.steering.headingGain >= 0.0 && c.steering.deadband >= 0.0
    && c.readyLeadSec >= 0.0 && c.failureObservationSec >= 0.0 && c.recoveryObservationSec >= 0.0
    && c.failureMinValidSamples > 0 && c.noEvidenceMaxRetries >= 0 && c.recoveryMaxTurns >= 0
    && 1 <= c.recoveryTurnYawDeg <= 180
  }

  predicate ValidBall(c: Ball.Config) {
    && HitsWithinWindow(c.stableMinHits, c.stableWindow) && HitsWithinWindow(c.tiltDownMinHits, c.tiltDownWindow)
    && c.lostFrames > 0 && c.pickupMaxAttempts > 0 && c.recoveryReacquireMinHits > 0
    && Unit(c.smoothAlpha) && Unit(c.farUDesNorm) && Unit(c.approachUDeadband)
    && Unit(c.upperAcquireVNorm) && Unit(c.tiltDownVNorm)
    && Unit(c.fineTargetUNorm) && Unit(c.fineTargetVNorm) && Unit(c.fineUDeadband) && Unit(c.fineVDeadband)
    && Unit(c.recoveryCenterToleranceNorm)
    && c.ballIgnoreDurationSec >= 0.0 && c.fineSettleDurationSec >= 0.0
    && c.recoveryTimeoutSec >= 0.0 && c.recoverySettleDurationSec >= 0.0 && c.cameraMotionTimeoutSec >= 0.0
  }

  predicate ValidHurdle(c: Hurdle.Config) {
    && HitsWithinWindow(c.stableMinHits, c.stableWindow) && HitsWithinWindow(c.tiltTriggerMinHits, c.tiltTriggerWindow)
    && c.lostFrames > 0 && c.recoveryReacquireMinHits > 0
    && Unit(c.smoothAlpha) && Unit(c.acquireMinVNorm) && Unit(c.tiltTriggerVNorm) && Unit(c.recoveryCenterToleranceNorm)
    && c.hurdleIgnoreDurationSec >= 0.0
    && c.recoveryTimeoutSec >= 0.0 && c.recoverySettleDurationSec >= 0.0 && c.cameraMotionTimeoutSec >= 0.0
  }

  predicate ValidGoal(c: Goal.Config) {
    && HitsWithinWindow(c.stableMinHits, c.stableWindow)
    && c.lostFrames > 0 && c.recoveryReacquireMinHits > 0
    && Unit(c.smoothAlpha) && Unit(c.targetUNorm) && Unit(c.approachUDeadband) && Unit(c.recoveryCenterToleranceNorm)
    && c.postPickupWaitSec >= 0.0 && c.fineAdjustStartZM >= 0.0 && c.throwingRangeM > 0.0 && c.positionToleranceM >= 0.0
    && c.fineSettleDurationSec >= 0.0 && c.shootYawLimitDeg >= 0.0
    && c.recoveryTimeoutSec >= 0.0 && c.recoverySettleDurationSec >= 0.0 && c.cameraMotionTimeoutSec >= 0.0
  }

  /** One camera timeout is configured for all three object missions. */
  predicate ValidConfig(c: Mission.Config) {
    && ValidFeatures(c.features) && ValidLine(c.line) && ValidBall(c.ball) && ValidHurdle(c.hurdle) && ValidGoal(c.goal)
    && c.ball.cameraMotionTimeoutSec == c.hurdle.cameraMotionTimeoutSec == c.goal.cameraMotionTimeoutSec
    && c.command.firstActionId != 0 && c.command.ackTimeoutSec >= 0.0
    && c.postMotionObservationSec >= 0.0
  }
}
