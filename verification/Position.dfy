/** The two paper-position entities of an opportunity, horizon legs and maturity checkpoints,
    with the validators declared on them, and the two operations that close one. */
module Position {
  import opened Market

  datatype Family =
    | CoreEntry | CoreRecovery | CoreShort | PatreonCaps | LongPortfolio
    | SignalFusion | PortfolioFlow | LeveragedThesis | SwingTrade | GeriCountertrend

  datatype Level = Armed | InZone | L1 | L2 | L3 | L4

  datatype SwingStage = ST1 | ST2 | ST3 | ST4

  datatype CountertrendStage = CT0 | CT1 | CT2 | CT3 | CT4

  datatype Horizon = LongTerm | Dilution | Swing | Intraday | VolumeStructure | OptionsGamma | News

  /** WATCHING, OPEN and the eight terminal states. */
  datatype LegStatus =
    | Watching | Open
    | TargetHit | Invalidated | SessionClosed | ThesisBroken | Expired | TimeExit
    | ProtectionExit | RecoveryFailed
  {
    predicate Terminal() {
      !Watching? && !Open?
    }
  }

  function LevelRank(level: Level): nat {
    match level
    case Armed => 0
    case InZone => 1
    case L1 => 2
    case L2 => 3
    case L3 => 4
    case L4 => 5
  }

  predicate Confirmed(level: Level) {
    LevelRank(level) >= 2
  }

  const PROTECTION_RULE := "1.0.0"

  /** Frozen recovery geometry and the running fifteen-minute confirmation. */
  datatype Recovery = Recovery(
    analysisId: nat, evidenceAt: Time, pivotAt: Time,
    avwap: Price, breakout: Price, reboundLow: Price, reactionLow: Price,
    bucketAt: Option<Time>, lastBarAt: Option<Time>, barCount: nat,
    previousFailedClose: Option<Price>, previousFailedBucket: Option<Time>,
    pendingExitAt: Option<Time>)
  {
    /** The validator of the recovery state. */
    predicate Valid() {
      && pivotAt <= evidenceAt
      && barCount <= 15
      && (previousFailedClose.None? <==> previousFailedBucket.None?)
      && (pendingExitAt.Some? ==>
            && lastBarAt.Some?
            && pendingExitAt.value > lastBarAt.value
            && previousFailedClose.Some?
            && barCount == 15)
    }
  }

  /** Mark-to-market of one position: last price, extremes and the excursions they amount to. */
  datatype Quote = Quote(current: Price, highest: Price, lowest: Price, mfe: int, mae: int) {
    /** The extremes widened to a price that was traded. */
    function Touched(price: Price): Quote {
      this.(highest := MaxPrice(highest, price), lowest := MinPrice(lowest, price))
    }

    predicate Straddles(entry: Price) {
      lowest <= entry <= highest && mae <= 0 <= mfe
    }
  }

  /** The state after a completed candle. */
  function QuoteAfter(q: Quote, entry: Price, bar: Bar): Quote {
    var high := MaxPrice(q.highest, bar.high);
    var low := MinPrice(q.lowest, bar.low);
    Quote(bar.close, high, low, Percent(high, entry), Percent(low, entry))
  }

  /** The state after leaving at `price`. */
  function QuoteAtExit(q: Quote, entry: Price, price: Price): Quote {
    var high := MaxPrice(q.highest, price);
    var low := MinPrice(q.lowest, price);
    Quote(price, high, low, Percent(high, entry), Percent(low, entry))
  }

  lemma QuoteAfterStraddles(q: Quote, entry: Price, bar: Bar)
    requires q.lowest <= entry <= q.highest
    ensures QuoteAfter(q, entry, bar).Straddles(entry)
  {
    PercentSign(MaxPrice(q.highest, bar.high), entry);
    PercentSign(MinPrice(q.lowest, bar.low), entry);
  }

  lemma QuoteAtExitStraddles(q: Quote, entry: Price, price: Price)
    requires q.lowest <= entry <= q.highest
    ensures var r := QuoteAtExit(q, entry, price);
            r.Straddles(entry) && r.lowest <= price <= r.highest && r.mae <= Percent(price, entry) <= r.mfe
  {
    var high := MaxPrice(q.highest, price);
    var low := MinPrice(q.lowest, price);
    PercentSign(high, entry);
    PercentSign(low, entry);
    PercentMonotone(low, price, entry);
    PercentMonotone(price, high, entry);
  }

  /** Execution protection; its three fields are written together. */
  datatype Protection = Protection(stop: Option<Price>, at: Option<Time>, rule: Option<string>) {
    predicate Valid() {
      (stop.Some? <==> at.Some?) && (stop.Some? <==> rule.Some?)
    }

    /** Protection decided on a bar speaks about strictly later bars only. */
    predicate Decided(bar: Bar) {
      at.Some? && bar.timestamp <= at.value
    }
  }

  datatype Exit = Exit(at: Option<Time>, price: Option<Price>, gain: Option<int>) {
    predicate Complete() {
      at.Some? && price.Some? && gain.Some?
    }

    predicate Within(entry: Price, q: Quote) {
      && Complete()
      && q.lowest <= price.value <= q.highest
      && gain.value == Percent(price.value, entry)
      && q.mae <= gain.value <= q.mfe
    }
  }

  datatype Markouts = Markouts(after15: Option<int>, after30: Option<int>, after60: Option<int>, atClose: Option<int>)

  datatype Retest = Retest(at: Option<Time>, low: Option<Price>)

  const NO_PROTECTION := Protection(None, None, None)
  const NO_EXIT := Exit(None, None, None)
  const NO_MARKOUTS := Markouts(None, None, None, None)
  const NO_RETEST := Retest(None, None)

  datatype Checkpoint = Checkpoint(
    id: nat, level: Level, st: Option<SwingStage>, ct: Option<CountertrendStage>,
    family: Family, setup: Option<string>, reachedAt: Time, entry: Price,
    stop: Price, target: Option<Price>, zoneLow: Option<Price>, zoneHigh: Option<Price>,
    quote: Quote, retest: Retest, closed: bool, exit: Exit, outcome: Option<LegStatus>,
    markouts: Markouts, protection: Protection, evidence: seq<nat>, recovery: Option<Recovery>)
  {
    /** The validator of a long checkpoint. */
    predicate Valid() {
      && (recovery.Some? ==> family == CoreRecovery && Confirmed(level) && recovery.value.Valid())
      && protection.Valid()
      && (closed <==> exit.at.Some? && exit.price.Some?)
      && (closed <==> outcome.Some? && exit.gain.Some?)
      && quote.lowest <= quote.highest
      && (zoneLow.Some? <==> zoneHigh.Some?)
      && (zoneLow.Some? && zoneHigh.Some? ==>
            if family == SwingTrade
            then zoneLow.value <= zoneHigh.value && stop < entry
            else stop < zoneLow.value <= zoneHigh.value)
      && (retest.at.Some? <==> retest.low.Some?)
      && (if family == GeriCountertrend then ct.Some? && st.None? else ct.None?)
    }

    /** The profit-and-loss envelope of a long: extremes straddle the entry, excursions straddle
        zero, and a realised result lies between the worst and the best excursion. */
    predicate Enveloped() {
      quote.Straddles(entry) && (closed ==> exit.Within(entry, quote))
    }
  }

  datatype Leg = Leg(
    id: nat, horizon: Horizon, family: Option<Family>, setup: Option<string>,
    status: LegStatus, openedAt: Option<Time>, expiresAt: Option<Time>,
    entry: Option<Price>, stop: Price, target: Option<Price>,
    quote: Quote, exit: Exit, protection: Protection)
  {
    /** The validator of a horizon leg. */
    predicate Valid() {
      && protection.Valid()
      && Entered()
      && (openedAt.Some? && expiresAt.Some? ==> openedAt.value < expiresAt.value)
      && (status.Terminal() <==> exit.Complete())
      && quote.lowest <= quote.highest
    }

    predicate Enveloped() {
      && quote.mae <= 0 <= quote.mfe
      && (!status.Watching? ==> entry.Some? && quote.Straddles(entry.value))
      && (status.Terminal() ==> entry.Some? && exit.Within(entry.value, quote))
    }

    /** Outside WATCHING a leg has an entry. */
    predicate Entered() {
      !status.Watching? ==> openedAt.Some? && entry.Some?
    }
  }

  /** Close an open checkpoint; a closed one is returned as it is. */
  function CloseCheckpoint(cp: Checkpoint, price: Price, now: Time, outcome: LegStatus): Checkpoint {
    if cp.closed then cp
    else
      cp.(closed := true, outcome := Some(outcome),
          exit := Exit(Some(now), Some(price), Some(Percent(price, cp.entry))),
          quote := QuoteAtExit(cp.quote, cp.entry, price))
  }

  /** Close an open leg; a watching or terminal one is returned as it is. */
  function CloseLeg(leg: Leg, price: Price, now: Time, status: LegStatus): (closed: Leg)
    requires leg.Entered()
    ensures closed.Entered() && closed.openedAt == leg.openedAt && closed.entry == leg.entry
  {
    if !leg.status.Open? then leg
    else
      leg.(status := status,
           exit := Exit(Some(now), Some(price), Some(Percent(price, leg.entry.value))),
           quote := QuoteAtExit(leg.quote, leg.entry.value, price))
  }

  lemma CloseCheckpointKeepsEnvelope(cp: Checkpoint, price: Price, now: Time, outcome: LegStatus)
    requires cp.quote.lowest <= cp.entry <= cp.quote.highest
    requires cp.closed ==> cp.Enveloped()
    ensures CloseCheckpoint(cp, price, now, outcome).Enveloped()
    ensures cp.Valid() ==> CloseCheckpoint(cp, price, now, outcome).Valid()
  {
    QuoteAtExitStraddles(cp.quote, cp.entry, price);
  }

  lemma CloseLegKeepsEnvelope(leg: Leg, price: Price, now: Time, status: LegStatus)
    requires leg.Entered() && status.Terminal()
    requires leg.status.Open? ==> leg.quote.lowest <= leg.entry.value <= leg.quote.highest
    requires !leg.status.Open? ==> leg.Enveloped()
    ensures CloseLeg(leg, price, now, status).Enveloped()
    ensures leg.Valid() ==> CloseLeg(leg, price, now, status).Valid()
  {
    if leg.status.Open? {
      QuoteAtExitStraddles(leg.quote, leg.entry.value, price);
    }
  }
}
