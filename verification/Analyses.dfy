/** Analysis results as the engines read them: identity, verdict and the metrics they consult. */
module Analyses {
  import opened Market
  import opened Position

  datatype Direction = Bullish | Bearish | Neutral

  datatype Verdict = Favorable | Watch | Caution | Avoid | InsufficientData

  /** Named metrics; an absent number is None, an absent gate is false, an absent text is "". */
  datatype Metrics = Metrics(
    referencePrice: Option<Price>, classification: string,
    buyZoneLow: Option<Price>, buyZoneHigh: Option<Price>, invalidation: Option<Price>,
    invalidationLevel: Option<Price>, objectiveLevel: Option<Price>, target2r: Option<Price>,
    atr14: Option<Price>, entryTrigger: Option<Price>,
    anchoredVwapGate: bool, confirmationGate: bool, matureGate: bool, efficiencyGate: bool,
    fiveMinuteHigherLow: bool, structureBroken: bool,
    quality: Option<string>, setup: string,
    recovery: Option<RecoveryMetrics>)

  /** The recovery geometry a Swing analysis publishes for one recovery setup. */
  datatype RecoveryMetrics = RecoveryMetrics(
    setup: string, lane: string, swingGate: bool, recoveryGate: bool,
    avwap: Price, breakout: Price, reboundLow: Price, reactionLow: Price, pivotAt: Time)

  datatype Analysis = Analysis(
    id: nat, engine: string, symbol: string, horizon: Horizon, asOf: Time,
    verdict: Verdict, direction: Direction, metrics: Metrics)
}
