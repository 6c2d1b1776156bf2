/** What a protected paper buy guarantees over whole bar histories: the ratchet, the exits it
    allows, the recovery exit, and the validators and result envelope no candle can break. */
module ProtectionHistory {
  import opened Market
  import opened Position
  import opened RecoveryExit
  import opened Marking

  /** The checkpoint after a history of bars, oldest first. */
  function CheckpointRun(cp: Checkpoint, h: seq<Bar>): Checkpoint {
    if h == [] then cp else MarkCheckpoint(CheckpointRun(cp, h[..|h| - 1]), h[|h| - 1])
  }

  function HighestClose(h: seq<Bar>): Price
    requires h != []
  {
    if |h| == 1 then h[0].close else MaxPrice(HighestClose(h[..|h| - 1]), h[|h| - 1].close)
  }

  lemma {:induction false} HighestCloseIsMaximum(h: seq<Bar>)
    requires h != []
    ensures forall i :: 0 <= i < |h| ==> h[i].close <= HighestClose(h)
    ensures exists i :: 0 <= i < |h| && h[i].close == HighestClose(h)
  {
    if |h| == 1 {
      assert h[0].close == HighestClose(h);
    } else {
      var g := h[..|h| - 1];
      HighestCloseIsMaximum(g);
      var k :| 0 <= k < |g| && g[k].close == HighestClose(g);
      assert h[k].close == HighestClose(g);
      assert HighestClose(h) == h[k].close || HighestClose(h) == h[|h| - 1].close;
      assert forall i :: 0 <= i < |g| ==> g[i] == h[i];
    }
  }

  /** The highest completed close less the initial risk, once that close has gained the risk. */
  function RatchetLevel(entry: Price, stop: Price, h: seq<Bar>): Option<Price>
    requires stop < entry
  {
    if h == [] || HighestClose(h) - entry < entry - stop then None
    else Some(HighestClose(h) - (entry - stop))
  }

  /** A history of well-formed candles after an entry, each later than the one before. */
  ghost predicate Follows(cp: Checkpoint, h: seq<Bar>) {
    && Increasing(h)
    && forall i :: 0 <= i < |h| ==> h[i].Valid() && h[i].timestamp > cp.reachedAt
  }

  predicate NewEntry(cp: Checkpoint) {
    && !cp.closed && cp.protection == NO_PROTECTION
    && RecoveryFollowsEntry(cp)
    && (cp.recovery.Some? ==> Fresh(cp.recovery.value))
  }

  lemma FollowsPrefix(cp: Checkpoint, h: seq<Bar>)
    requires h != [] && Follows(cp, h)
    ensures Follows(cp, h[..|h| - 1])
    ensures h[|h| - 1].timestamp > cp.reachedAt
    ensures |h| > 1 ==> h[|h| - 2].timestamp < h[|h| - 1].timestamp
  {
  }

  /** One bar on an open protectable checkpoint that stays open advances the protection once. */
  lemma OpenMarkAdvances(cp: Checkpoint, bar: Bar)
    requires Protectable(cp) && RecoveryFollowsEntry(cp)
    requires !CheckpointIdle(cp, bar) && !cp.protection.Decided(bar)
    requires !MarkCheckpoint(cp, bar).closed
    ensures var after := MarkCheckpoint(cp, bar);
            && after.protection == Advanced(cp.protection, cp.entry, cp.stop, bar)
            && LongExit(bar, cp.stop, cp.target).None?
            && (cp.protection.stop.Some? ==> LongExit(bar, cp.protection.stop.value, cp.target).None?)
            && !ExitPending(cp, bar)
            && after.recovery == (if cp.recovery.Some? then Some(Observe(cp.recovery.value, bar)) else None)
  {
    CoreOpenMark(cp, bar);
  }

  lemma CoreOpenMark(cp: Checkpoint, bar: Bar)
    requires !CheckpointIdle(cp, bar) && !cp.protection.Decided(bar) && !MarkCheckpointCore(cp, bar).closed
    ensures LongExit(bar, cp.stop, cp.target).None?
    ensures MarkCheckpointCore(cp, bar).protection ==
            if CoreBuy(cp) then Advanced(cp.protection, cp.entry, cp.stop, bar) else cp.protection
    ensures CoreBuy(cp) && cp.protection.stop.Some? ==>
              LongExit(bar, cp.protection.stop.value, cp.target).None?
  {
  }

  /** What the run's state says after a history. */
  ghost predicate Ratcheted(cp: Checkpoint, h: seq<Bar>, now: Checkpoint)
    requires cp.stop < cp.entry
  {
    && SameTerms(cp, now) && RecoveryFollowsEntry(now)
    && now.protection.stop == RatchetLevel(cp.entry, cp.stop, h)
    && now.protection.Valid()
    && (now.protection.at.Some? ==> h != [] && now.protection.at.value <= h[|h| - 1].timestamp)
    && (now.protection.stop.Some? ==>
          && cp.entry <= now.protection.stop.value
          && (cp.target.Some? ==> now.protection.stop.value < cp.target.value))
    && now.recovery == (if cp.recovery.Some? then Some(ObserveAll(cp.recovery.value, h)) else None)
  }

  lemma AdvancedIsRatchet(entry: Price, stop: Price, p: Protection, h: seq<Bar>)
    requires h != [] && stop < entry
    requires p.stop == RatchetLevel(entry, stop, h[..|h| - 1])
    ensures Advanced(p, entry, stop, h[|h| - 1]).stop == RatchetLevel(entry, stop, h)
  {
  }

  lemma RatchetStep(cp: Checkpoint, h: seq<Bar>, was: Checkpoint)
    requires Protectable(cp) && h != [] && Follows(cp, h)
    requires !was.closed && Ratcheted(cp, h[..|h| - 1], was) && !MarkCheckpoint(was, h[|h| - 1]).closed
    ensures Ratcheted(cp, h, MarkCheckpoint(was, h[|h| - 1]))
  {
    var bar := h[|h| - 1];
    FollowsPrefix(cp, h);
    MarkCheckpointKeepsTerms(was, bar);
    OpenMarkAdvances(was, bar);
    AdvancedIsRatchet(cp.entry, cp.stop, was.protection, h);
    AdvancedStaysInside(was, bar);
  }

  lemma AdvancedStaysInside(cp: Checkpoint, bar: Bar)
    requires bar.Valid() && cp.stop < cp.entry && LongExit(bar, cp.stop, cp.target).None?
    requires cp.protection.stop.Some? ==>
               cp.entry <= cp.protection.stop.value && (cp.target.Some? ==> cp.protection.stop.value < cp.target.value)
    ensures var p := Advanced(cp.protection, cp.entry, cp.stop, bar);
            p.stop.Some? ==>
              cp.entry <= p.stop.value && (cp.target.Some? ==> p.stop.value < cp.target.value)
  {
  }

  /** While a protectable checkpoint is open its protection stop is the ratchet over its history:
      at or above the entry, below the target, decided by bars already completed. */
  lemma {:induction false} ProtectionIsRatchet(cp: Checkpoint, h: seq<Bar>)
    requires Protectable(cp) && NewEntry(cp) && Follows(cp, h)
    requires !CheckpointRun(cp, h).closed
    ensures Ratcheted(cp, h, CheckpointRun(cp, h))
  {
    if h != [] {
      OpenBefore(cp, h);
      FollowsPrefix(cp, h);
      ProtectionIsRatchet(cp, h[..|h| - 1]);
      RatchetStep(cp, h, CheckpointRun(cp, h[..|h| - 1]));
    }
  }

  lemma OpenBefore(cp: Checkpoint, h: seq<Bar>)
    requires h != [] && !CheckpointRun(cp, h).closed
    ensures !CheckpointRun(cp, h[..|h| - 1]).closed
  {
    MarkCheckpointKeepsTerms(CheckpointRun(cp, h[..|h| - 1]), h[|h| - 1]);
  }

  lemma {:induction false} OpenOnPrefix(cp: Checkpoint, h: seq<Bar>, m: nat)
    requires m <= |h| && !CheckpointRun(cp, h).closed
    ensures !CheckpointRun(cp, h[..m]).closed
  {
    if m == |h| {
      assert h[..m] == h;
    } else {
      OpenBefore(cp, h);
      OpenOnPrefix(cp, h[..|h| - 1], m);
      assert h[..|h| - 1][..m] == h[..m];
    }
  }

  /** The stop never falls: a longer history of the same open entry never lowers it. */
  lemma ProtectionNeverFalls(cp: Checkpoint, h: seq<Bar>, m: nat)
    requires Protectable(cp) && NewEntry(cp) && Follows(cp, h) && m <= |h|
    requires !CheckpointRun(cp, h).closed
    requires CheckpointRun(cp, h[..m]).protection.stop.Some?
    ensures CheckpointRun(cp, h).protection.stop.Some?
    ensures CheckpointRun(cp, h[..m]).protection.stop.value <= CheckpointRun(cp, h).protection.stop.value
  {
    var g := h[..m];
    OpenOnPrefix(cp, h, m);
    ProtectionIsRatchet(cp, h);
    ProtectionIsRatchet(cp, g);
    HighestCloseIsMaximum(g);
    HighestCloseIsMaximum(h);
    var k :| 0 <= k < |g| && g[k].close == HighestClose(g);
    assert h[k].close <= HighestClose(h);
  }

  /** Once a bar opens with the protection in place, marking can end the entry only by the
      protection, the target or a confirmed recovery failure; never at a loss unless the bar gaps
      below the protection stop. */
  lemma ProtectedExits(cp: Checkpoint, h: seq<Bar>, bar: Bar)
    requires Protectable(cp) && NewEntry(cp) && Follows(cp, h + [bar])
    requires !CheckpointRun(cp, h).closed && CheckpointRun(cp, h).protection.stop.Some?
    requires MarkCheckpoint(CheckpointRun(cp, h), bar).closed
    ensures var was := CheckpointRun(cp, h);
            var now := MarkCheckpoint(was, bar);
            && now.exit.Complete()
            && now.outcome in {Some(ProtectionExit), Some(TargetHit), Some(RecoveryFailed)}
            && (now.exit.price.value < cp.entry ==> bar.open < was.protection.stop.value)
            && (now.outcome == Some(ProtectionExit) ==>
                  now.exit.price.value == MinPrice(was.protection.stop.value, bar.open))
            && (now.outcome == Some(TargetHit) ==>
                  cp.target.Some? && now.exit.price.value == MaxPrice(cp.target.value, bar.open))
            && (now.outcome == Some(RecoveryFailed) ==>
                  ExitPending(was, bar) && now.exit.price.value == bar.open > was.protection.stop.value)
  {
    var all := h + [bar];
    assert all[..|h|] == h && all[|h|] == bar;
    FollowsPrefix(cp, all);
    ProtectionIsRatchet(cp, h);
    var was := CheckpointRun(cp, h);
    if ExitPending(was, bar) {
      ProtectedClose(was, bar.AtOpen());
      PendingAlwaysCloses(was, bar);
    } else {
      ProtectedClose(was, bar);
    }
  }

  lemma ProtectedClose(cp: Checkpoint, bar: Bar)
    requires bar.Valid() && Protectable(cp) && !CheckpointIdle(cp, bar) && !cp.protection.Decided(bar)
    requires cp.protection.stop.Some? && cp.entry <= cp.protection.stop.value
    requires cp.target.Some? ==> cp.protection.stop.value < cp.target.value
    ensures var core := MarkCheckpointProtected(cp, bar, MarkCheckpointGapAware(cp, bar));
            core.closed ==>
              && core.exit.Complete()
              && core.outcome in {Some(ProtectionExit), Some(TargetHit)}
              && (core.outcome == Some(ProtectionExit) ==>
                    core.exit.price.value == MinPrice(cp.protection.stop.value, bar.open))
              && (core.outcome == Some(TargetHit) ==>
                    cp.target.Some? && core.exit.price.value == MaxPrice(cp.target.value, bar.open))
    ensures !MarkCheckpointProtected(cp, bar, MarkCheckpointGapAware(cp, bar)).closed ==>
              bar.open > cp.protection.stop.value
  {
  }

  // ---------------------------------------------------------------- the recovery exit

  /** A recovery buy fails exactly on confirmed failures of its whole history. If it is still open
      when the history ends in a confirmed failure, the next bar closes it at its open; and a
      RECOVERY_FAILED outcome means that the history did end so. */
  lemma RecoveryExitMeaning(cp: Checkpoint, h: seq<Bar>, bar: Bar)
    requires Protectable(cp) && NewEntry(cp) && cp.recovery.Some?
    requires Follows(cp, h + [bar]) && MinuteAligned(h + [bar])
    requires !CheckpointRun(cp, h).closed
    ensures var now := MarkCheckpoint(CheckpointRun(cp, h), bar);
            && (ConfirmedFailure(h, FailureLevel(cp.recovery.value)) ==>
                  && now.closed
                  && now.exit == Exit(Some(bar.timestamp), Some(bar.open), Some(Percent(bar.open, cp.entry))))
            && (now.closed && now.outcome == Some(RecoveryFailed) ==> ConfirmedFailure(h, FailureLevel(cp.recovery.value)))
  {
    var was := CheckpointRun(cp, h);
    RunIsPendingOnConfirmation(cp, h, bar);
    if ExitPending(was, bar) {
      PendingAlwaysCloses(was, bar);
    } else if MarkCheckpoint(was, bar).closed {
      NotPendingNeverFails(was, bar);
    }
  }

  predicate FailsAsRecovery(cp: Checkpoint) {
    cp.closed && cp.outcome == Some(RecoveryFailed)
  }

  lemma GapAwareNeverFails(cp: Checkpoint, bar: Bar)
    requires !cp.closed
    ensures !FailsAsRecovery(MarkCheckpointGapAware(cp, bar))
  {
  }

  lemma ProtectedNeverFails(cp: Checkpoint, bar: Bar, inherited: Checkpoint)
    requires !cp.closed && !FailsAsRecovery(inherited)
    ensures !FailsAsRecovery(MarkCheckpointProtected(cp, bar, inherited))
  {
  }

  /** Only a pending exit fails a position as a recovery. */
  lemma NotPendingNeverFails(cp: Checkpoint, bar: Bar)
    requires !cp.closed && !ExitPending(cp, bar)
    ensures !FailsAsRecovery(MarkCheckpoint(cp, bar))
  {
    GapAwareNeverFails(cp, bar);
    ProtectedNeverFails(cp, bar, MarkCheckpointGapAware(cp, bar));
    assert !FailsAsRecovery(MarkCheckpointRecovery(cp, bar));
    ProtectedNeverFails(cp, bar, MarkCheckpointRecovery(cp, bar));
    ProtectedNeverFails(cp, bar, MarkCheckpointCountertrend(cp, bar));
  }

  /** At the next aligned bar a decision is due exactly when the history ends in a confirmed failure. */
  lemma RunIsPendingOnConfirmation(cp: Checkpoint, h: seq<Bar>, bar: Bar)
    requires Protectable(cp) && NewEntry(cp) && cp.recovery.Some?
    requires Follows(cp, h + [bar]) && MinuteAligned(h + [bar])
    requires !CheckpointRun(cp, h).closed
    ensures var was := CheckpointRun(cp, h);
            && SameTerms(cp, was) && RecoveryFollowsEntry(was)
            && (ExitPending(was, bar) <==> ConfirmedFailure(h, FailureLevel(cp.recovery.value)))
  {
    var all := h + [bar];
    assert all[..|h|] == h && all[|h|] == bar;
    FollowsPrefix(cp, all);
    ProtectionIsRatchet(cp, h);
    if h != [] {
      var last := h[|h| - 1];
      assert all[|h| - 1] == last;
      NothingPendingWhileOpen(cp, h) by {
        assert forall i :: 0 <= i < |h| ==> h[i] == all[i];
      }
      PendingExactlyOnConfirmedFailure(cp.recovery.value, h);
      NextAlignedMinute(last.timestamp, bar.timestamp);
    }
  }

  lemma NextAlignedMinute(a: Time, b: Time)
    requires a % MINUTE == 0 && b % MINUTE == 0 && a < b
    ensures a + MINUTE <= b
  {
  }

  /** An open entry has no exit pending before its last bar. */
  lemma {:induction false} NothingPendingWhileOpen(cp: Checkpoint, h: seq<Bar>)
    requires Protectable(cp) && NewEntry(cp) && cp.recovery.Some?
    requires h != [] && Follows(cp, h) && MinuteAligned(h) && !CheckpointRun(cp, h).closed
    ensures ObserveAll(cp.recovery.value, h[..|h| - 1]).pendingExitAt == None
  {
    var g, bar := h[..|h| - 1], h[|h| - 1];
    if g != [] {
      OpenBefore(cp, h);
      FollowsPrefix(cp, h);
      NothingPendingWhileOpen(cp, g);
      PendingExactlyOnConfirmedFailure(cp.recovery.value, g);
      assert g[|g| - 1] == h[|h| - 2];
      NextAlignedMinute(g[|g| - 1].timestamp, bar.timestamp);
      NothingWasDue(cp, h);
    }
  }

  /** An entry that a bar leaves open had no exit due at it. */
  lemma NothingWasDue(cp: Checkpoint, h: seq<Bar>)
    requires Protectable(cp) && NewEntry(cp) && cp.recovery.Some?
    requires |h| > 1 && Follows(cp, h) && !CheckpointRun(cp, h).closed
    ensures var s := ObserveAll(cp.recovery.value, h[..|h| - 1]);
            s.pendingExitAt.Some? ==> s.pendingExitAt.value > h[|h| - 1].timestamp
  {
    var g, bar := h[..|h| - 1], h[|h| - 1];
    OpenBefore(cp, h);
    FollowsPrefix(cp, h);
    ProtectionIsRatchet(cp, g);
    assert g[|g| - 1] == h[|h| - 2];
    OpenMarkAdvances(CheckpointRun(cp, g), bar);
  }
}
