/** The contracts' validators never run on the copies the engine makes. Here they are shown to be
    invariants of marking all the same, together with the profit-and-loss envelope. */
module Envelope {
  import opened Market
  import opened Position
  import opened RecoveryExit
  import opened Opportunity
  import opened Marking

  predicate SoundCheckpoint(cp: Checkpoint) {
    && cp.Valid() && cp.Enveloped() && RecoveryFollowsEntry(cp)
    && (cp.recovery.Some? ==> Counted(cp.recovery.value))
  }

  predicate SoundLeg(leg: Leg) {
    leg.Valid() && leg.Enveloped()
  }

  predicate SoundRecord(o: Record) {
    && (forall i :: 0 <= i < |o.checkpoints| ==> SoundCheckpoint(o.checkpoints[i]))
    && (forall i :: 0 <= i < |o.legs| ==> SoundLeg(o.legs[i]))
  }

  lemma SoundIsReady(o: Record)
    requires SoundRecord(o)
    ensures Ready(o) && OnlyConfirmedRecover(o)
  {
  }

  /** Every part of a checkpoint's soundness except the recovery confirmation. */
  predicate SoundBook(cp: Checkpoint) {
    && cp.protection.Valid() && cp.Enveloped()
    && (cp.closed <==> cp.exit.at.Some? && cp.exit.price.Some?)
    && (cp.closed <==> cp.outcome.Some? && cp.exit.gain.Some?)
  }

  lemma CloseAtOpenSound(cp: Checkpoint, bar: Bar, price: Price, outcome: LegStatus)
    requires SoundBook(cp)
    ensures SoundBook(CloseCheckpoint(CheckpointAtOpen(cp, bar), price, bar.timestamp, outcome)) || cp.closed
  {
    QuoteAtExitStraddles(cp.quote.Touched(bar.open), cp.entry, price);
  }

  lemma GapAwareSound(cp: Checkpoint, bar: Bar)
    requires SoundBook(cp)
    ensures SoundBook(MarkCheckpointGapAware(cp, bar))
  {
    if !CheckpointIdle(cp, bar) {
      match LongExit(bar, cp.stop, cp.target)
      case Some(exit) => CloseAtOpenSound(cp, bar, exit.0, exit.1);
      case None =>
        QuoteAfterStraddles(cp.quote, cp.entry, bar);
    }
  }

  lemma ProtectedSound(cp: Checkpoint, bar: Bar, inherited: Checkpoint)
    requires SoundBook(cp) && SoundBook(inherited) && SameTerms(cp, inherited)
    ensures SoundBook(MarkCheckpointProtected(cp, bar, inherited))
  {
    var exit := if cp.protection.stop.Some? then LongExit(bar, cp.protection.stop.value, cp.target) else None;
    if exit.Some? {
      CloseAtOpenSound(cp, bar, exit.value.0, ProtectedOutcome(exit.value.1));
    }
  }

  lemma CoreSound(cp: Checkpoint, bar: Bar)
    requires SoundBook(cp)
    ensures SoundBook(MarkCheckpointCore(cp, bar))
  {
    GapAwareSound(cp, bar);
    GapAwareKeepsTerms(cp, bar);
    ProtectedSound(cp, bar, MarkCheckpointGapAware(cp, bar));
  }

  lemma RecoverySound(cp: Checkpoint, bar: Bar)
    requires SoundBook(cp)
    ensures SoundBook(MarkCheckpointRecovery(cp, bar))
  {
    CoreSound(cp, bar);
    CoreSound(cp, bar.AtOpen());
    CloseAtOpenSound(cp, bar, bar.open, RecoveryFailed);
  }

  lemma MarkBookSound(cp: Checkpoint, bar: Bar)
    requires SoundBook(cp)
    ensures SoundBook(MarkCheckpoint(cp, bar))
  {
    RecoverySound(cp, bar);
    RecoveryLayerKeeps(cp, bar);
    ProtectedSound(cp, bar, MarkCheckpointRecovery(cp, bar));
    ProtectedLayerKeeps(cp, bar, MarkCheckpointRecovery(cp, bar));
    ProtectedSound(cp, bar, MarkCheckpointCountertrend(cp, bar));
  }

  /** The confirmation a marked checkpoint carries: untouched on an exit, observed otherwise. */
  lemma MarkedRecovery(cp: Checkpoint, bar: Bar)
    requires cp.recovery.Some? && RecoveryFollowsEntry(cp)
    ensures MarkCheckpoint(cp, bar).recovery ==
            if CheckpointIdle(cp, bar) || MarkCheckpoint(cp, bar).closed then cp.recovery
            else Some(Observe(cp.recovery.value, bar))
    ensures MarkCheckpoint(cp, bar) == MarkCheckpointRecovery(cp, bar)
    ensures !CheckpointIdle(cp, bar) && ExitPending(cp, bar) ==> MarkCheckpoint(cp, bar).closed
  {
    CoreKeepsTerms(cp, bar);
    CoreKeepsTerms(cp, bar.AtOpen());
  }

  /** The bar reaches the checkpoint no earlier than the exit it has pending, if any. */
  predicate Timely(cp: Checkpoint, bar: Bar) {
    cp.recovery.Some? && cp.recovery.value.pendingExitAt.Some? ==>
      ExitPending(cp, bar) || bar.timestamp <= cp.recovery.value.lastBarAt.Or(bar.timestamp)
  }

  /** Marking keeps the checkpoint's validator, its recovery validator and its envelope. */
  lemma MarkCheckpointSound(cp: Checkpoint, bar: Bar)
    requires SoundCheckpoint(cp) && Timely(cp, bar)
    ensures SoundCheckpoint(MarkCheckpoint(cp, bar))
  {
    MarkBookSound(cp, bar);
    MarkCheckpointKeepsTerms(cp, bar);
    if cp.recovery.Some? {
      var s := cp.recovery.value;
      MarkedRecovery(cp, bar);
      if s.lastBarAt.None? || s.lastBarAt.value < bar.timestamp {
        ObserveKeepsValidator(s, bar);
      }
    }
  }

  /** A candle that would end the position at its stop, target or protection. */
  predicate ExitsOn(cp: Checkpoint, bar: Bar) {
    || LongExit(bar, cp.stop, cp.target).Some?
    || (CoreBuy(cp) && cp.protection.stop.Some? && LongExit(bar, cp.protection.stop.value, cp.target).Some?)
  }

  /** Between a confirmation and the minute it falls due, marking keeps the checkpoint's validator
      exactly when the candle ends the position. Such a bar never arrives on whole minutes. */
  lemma ValidatorBeforeExitIsDue(cp: Checkpoint, bar: Bar)
    requires SoundCheckpoint(cp) && !CheckpointIdle(cp, bar) && !cp.protection.Decided(bar)
    requires cp.recovery.Some? && cp.recovery.value.pendingExitAt.Some?
    requires cp.recovery.value.lastBarAt.value < bar.timestamp < cp.recovery.value.pendingExitAt.value
    requires cp.recovery.value.pendingExitAt.value <= cp.recovery.value.lastBarAt.value + MINUTE
    ensures MarkCheckpoint(cp, bar).Valid() <==> ExitsOn(cp, bar)
  {
    MarkBookSound(cp, bar);
    MarkCheckpointKeepsTerms(cp, bar);
    MarkedRecovery(cp, bar);
    NotDueClosesIffExits(cp, bar);
    UnalignedBarBreaksValidator(cp.recovery.value, bar);
  }

  /** A recovery confirmed as failed at the end of its quarter hour, and a quiet candle stamped half
      a minute later: the decision outlives the count it was made on. */
  lemma OffMinuteBarBreaksCheckpoint() returns (cp: Checkpoint, bar: Bar)
    ensures SoundCheckpoint(cp) && bar.Valid() && !Timely(cp, bar)
    ensures !MarkCheckpoint(cp, bar).Valid()
  {
    var end := BUCKET + 14 * MINUTE;
    var failed := Recovery(0, 0, 0, 10.0, 10.0, 9.0, 9.0, Some(BUCKET), Some(end), 15,
                           Some(9.5), Some(BUCKET), Some(end + MINUTE));
    cp := Checkpoint(0, L2, None, None, CoreRecovery, None, 0, 10.0, 8.0, None, None, None,
                     Quote(9.5, 10.0, 9.5, 0, -50000), NO_RETEST, false, NO_EXIT, None,
                     NO_MARKOUTS, NO_PROTECTION, [], Some(failed));
    bar := Bar(end + MINUTE / 2, 9.5, 9.5, 9.5, 9.5, false);
    ValidatorBeforeExitIsDue(cp, bar);
  }

  lemma NotDueClosesIffExits(cp: Checkpoint, bar: Bar)
    requires !CheckpointIdle(cp, bar) && !cp.protection.Decided(bar) && !ExitPending(cp, bar)
    ensures MarkCheckpointRecovery(cp, bar).closed <==> ExitsOn(cp, bar)
  {
  }

  // ---------------------------------------------------------------- legs

  lemma LegGapAwareSound(leg: Leg, bar: Bar)
    requires SoundLeg(leg)
    ensures SoundLeg(MarkLegGapAware(leg, bar))
  {
    if !LegIdle(leg, bar) {
      match LongExit(bar, leg.stop, leg.target)
      case Some(exit) => QuoteAtExitStraddles(leg.quote.Touched(bar.open), leg.entry.value, exit.0);
      case None => QuoteAfterStraddles(leg.quote, leg.entry.value, bar);
    }
  }

  lemma LegProtectedSound(leg: Leg, bar: Bar)
    requires SoundLeg(leg)
    ensures SoundLeg(MarkLegProtected(leg, bar))
  {
    LegGapAwareSound(leg, bar);
    if !LegIdle(leg, bar) && leg.protection.stop.Some? {
      match LongExit(bar, leg.protection.stop.value, leg.target)
      case Some(exit) => QuoteAtExitStraddles(leg.quote.Touched(bar.open), leg.entry.value, exit.0);
      case None =>
    }
  }

  lemma MarkLegSound(o: Record, bar: Bar, leg: Leg)
    requires Ready(o) && SoundLeg(leg)
    ensures SoundLeg(MarkLeg(o, bar, leg))
  {
    var resolved := ResolvePending(o, bar, leg);
    assert SoundLeg(resolved) by {
      ResolvedSound(o, bar, leg);
    }
    LegProtectedSound(leg, bar);
    LegProtectedSound(resolved, bar);
    LegGapAwareSound(resolved, bar);
  }

  lemma ResolvedSound(o: Record, bar: Bar, leg: Leg)
    requires Ready(o) && SoundLeg(leg)
    ensures SoundLeg(ResolvePending(o, bar, leg))
  {
    match PendingMatch(o, bar, leg, 0)
    case None =>
    case Some(cp) =>
      PendingMatchDecides(o, bar, leg, 0);
      PendingAlwaysCloses(cp, bar);
      PendingKeepsExtremes(cp, bar);
      var after := MarkCheckpoint(cp, bar);
      CloseLegKeepsEnvelope(leg, after.exit.price.value, bar.timestamp, after.outcome.value);
  }

  /** One bar keeps every validator and every envelope of the record. */
  lemma MarkRecordSound(o: Record, bar: Bar)
    requires SoundRecord(o)
    requires forall i :: 0 <= i < |o.checkpoints| ==> Timely(o.checkpoints[i], bar)
    ensures Ready(o) && SoundRecord(MarkRecord(o, bar))
  {
    SoundIsReady(o);
    var r := MarkRecord(o, bar);
    forall i | 0 <= i < |o.checkpoints| ensures SoundCheckpoint(r.checkpoints[i]) {
      MarkCheckpointSound(o.checkpoints[i], bar);
    }
    forall i | 0 <= i < |o.legs| ensures SoundLeg(r.legs[i]) {
      MarkLegSound(o, bar, o.legs[i]);
    }
  }
}
