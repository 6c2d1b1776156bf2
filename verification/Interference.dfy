/** Families do not interfere: what an analysis, a terminal watcher event or a bar may close. */
module Interference {
  import opened Market
  import opened Position
  import opened Analyses
  import opened Opportunity
  import opened Marking
  import opened Exits
  import opened Lifecycle
  import opened Results

  predicate CoreFamily(family: Family) {
    family.CoreEntry? || family.CoreRecovery?
  }

  predicate Foreign(o: Record, leg: Leg) {
    LegFamily(o, leg).None? || !CoreFamily(LegFamily(o, leg).value)
  }

  lemma CoreExitsKeepOwnership(o: Record, e: Evidence)
    requires Entered(o.legs)
    ensures SameOwnership(o, CloseCoreEntries(o, e))
  {
    CloseSpokenLegsOnly(o, e);
  }

  // ---------------------------------------------------------------- analyses

  /** One leg and the evidence of one analysis: unaddressed, or opened after every price and
      opinion the analysis brings. */
  predicate BeyondAnalysis(o: Record, leg: Leg, mark: (Time, Price), result: Analysis) {
    || Foreign(o, leg)
    || (leg.openedAt.Some? && leg.openedAt.value > mark.0 && leg.openedAt.value > result.asOf)
  }

  lemma CoreExitSparesLeg(o: Record, e: Evidence, leg: Leg)
    requires Entered(o.legs) && leg in o.legs && LegBeyond(o, e, leg)
    ensures leg in CloseCoreEntries(o, e).legs
    ensures LegFamily(CloseCoreEntries(o, e), leg) == LegFamily(o, leg)
  {
    CoreExitsSpareTheRest(o, e);
    CoreExitsKeepOwnership(o, e);
    OwnershipDecidesFamily(o, CloseCoreEntries(o, e), leg, leg);
  }

  /** Without a price observed within five minutes an analysis closes nothing; with one, it leaves
      alone every leg and checkpoint that lies beyond its evidence. */
  lemma AnalysisSparesLeg(active: Record, o: Record, result: Analysis, now: Time, leg: Leg)
    requires Entered(o.legs) && leg in o.legs
    requires FreshMark(Observations(active, result), now).Some? ==>
               BeyondAnalysis(o, leg, FreshMark(Observations(active, result), now).value, result)
    ensures leg in AnalyticalExits(active, o, result, now).legs
    ensures LegFamily(AnalyticalExits(active, o, result, now), leg) == LegFamily(o, leg)
  {
    match FreshMark(Observations(active, result), now)
    case None =>
    case Some(mark) =>
      var breach, entry := BreachEvidence(mark, now), EntryEvidence(result, mark.1, now);
      var recovery := RecoveryEvidence(result, mark.1, now);
      var breached := CloseCoreEntries(o, breach);
      var entries := CloseCoreEntries(breached, entry);
      CoreExitSparesLeg(o, breach, leg);
      CoreExitSparesLeg(breached, entry, leg);
      CoreExitSparesLeg(entries, recovery, leg);
  }

  lemma AnalysisSparesCheckpoint(active: Record, o: Record, result: Analysis, now: Time, i: nat)
    requires Entered(o.legs) && i < |o.checkpoints|
    requires FreshMark(Observations(active, result), now).Some? && CoreFamily(o.checkpoints[i].family) ==>
               && o.checkpoints[i].reachedAt > FreshMark(Observations(active, result), now).value.0
               && o.checkpoints[i].reachedAt > result.asOf
    ensures |AnalyticalExits(active, o, result, now).checkpoints| == |o.checkpoints|
    ensures AnalyticalExits(active, o, result, now).checkpoints[i] == o.checkpoints[i]
  {
    match FreshMark(Observations(active, result), now)
    case None =>
    case Some(mark) =>
      var breach, entry := BreachEvidence(mark, now), EntryEvidence(result, mark.1, now);
      var recovery := RecoveryEvidence(result, mark.1, now);
      var breached := CloseCoreEntries(o, breach);
      var entries := CloseCoreEntries(breached, entry);
      CoreExitSparesCheckpoint(o, breach, i);
      CoreExitSparesCheckpoint(breached, entry, i);
      CoreExitSparesCheckpoint(entries, recovery, i);
  }

  lemma CoreExitSparesCheckpoint(o: Record, e: Evidence, i: nat)
    requires Entered(o.legs) && i < |o.checkpoints|
    requires CheckpointBeyond(e, o.checkpoints[i])
    ensures |CloseCoreEntries(o, e).checkpoints| == |o.checkpoints|
    ensures CloseCoreEntries(o, e).checkpoints[i] == o.checkpoints[i]
  {
    CoreExitsSpareTheRest(o, e);
  }

  lemma AdvanceSparesLeg(o: Record, a: Advancement, n: nat, leg: Leg)
    requires leg in o.legs && LegFamily(o, leg) != Some(a.family) && Advance(o, a, n).Some?
    ensures leg in Advance(o, a, n).value.legs
  {
    AdvanceParts(o, a, n);
    OwnershipFilters(o, o.legs, a.family);
  }

  lemma NotedKeepsOwnership(o: Record, result: Analysis, price: Price, now: Time)
    ensures SameOwnership(o, Noted(o, result, now))
    ensures SameOwnership(o, RecordRetest(Noted(o, result, now), result, price, now).0)
    ensures RecordRetest(Noted(o, result, now), result, price, now).0.legs == o.legs
  {
  }

  lemma NotedSparesLeg(active: Record, o: Record, noted: Record, result: Analysis, now: Time, leg: Leg)
    requires Entered(o.legs) && leg in o.legs && Foreign(o, leg) && SameOwnership(o, noted) && noted.legs == o.legs
    ensures leg in AnalyticalExits(active, noted, result, now).legs
  {
    OwnershipDecidesFamily(o, noted, leg, leg);
    AnalysisSparesLeg(active, noted, result, now, leg);
  }

  /** One analysis closes nothing without a price observed within five minutes, and nothing opened after
      its price and its opinion: an entered leg beyond it is still there, but for the label that a lift
      puts on the legs of its own family. */
  lemma AnalysisSparesLater(o: Record, n: nat, result: Analysis, now: Time, leg: Leg)
    requires Orderly(o, n) && leg in o.legs && !leg.status.Watching?
    requires FreshMark(Observations(o, result), now).Some? ==>
               BeyondAnalysis(o, leg, FreshMark(Observations(o, result), now).value, result)
    ensures KeptBut(leg, CoreEntry, IngestAnalysis(o, result, now, n).Or(o).legs)
  {
    StepSparesLater(o, n, result, now, leg);
    AnalysisRefusedExactly(o, result, now, n);
  }

  lemma StepSparesLater(o: Record, n: nat, result: Analysis, now: Time, leg: Leg)
    requires Orderly(o, n) && leg in o.legs && !leg.status.Watching?
    requires FreshMark(Observations(o, result), now).Some? ==>
               BeyondAnalysis(o, leg, FreshMark(Observations(o, result), now).value, result)
    ensures KeptBut(leg, CoreEntry, AnalysisStep(o, result, now, n).Or(o).legs)
  {
    var price := AnalysisPrice(o, result);
    var noted := Noted(o, result, now);
    var retested := RecordRetest(noted, result, price, now).0;
    NotedKeepsOwnership(o, result, price, now);
    OwnershipDecidesFamily(o, noted, leg, leg);
    OwnershipDecidesFamily(o, retested, leg, leg);
    AnalysisSparesLeg(o, noted, result, now, leg);
    AnalysisSparesLeg(o, retested, result, now, leg);
    var levels := ReclaimLevels(result, price);
    if levels.Some? {
      var a := ReclaimAdvancement(result, price, now, levels.value);
      NotedEvolves(o, n, result, price, now);
      if Advance(retested, a, n).Some? {
        AdvanceParts(retested, a, n);
        EntryHorizonsKeep(retested, n, a, leg);
      }
    }
  }

  lemma LiftSparesForeignLeg(o: Record, retested: Record, a: Advancement, n: nat, leg: Leg)
    requires leg in o.legs && Foreign(o, leg) && SameOwnership(o, retested) && retested.legs == o.legs
    requires a.family.CoreEntry? && Advance(retested, a, n).Some?
    ensures leg in Advance(retested, a, n).value.legs
  {
    OwnershipDecidesFamily(o, retested, leg, leg);
    AdvanceSparesLeg(retested, a, n, leg);
  }

  lemma StepSparesForeignLegs(o: Record, n: nat, result: Analysis, now: Time, leg: Leg)
    requires Entered(o.legs) && leg in o.legs && Foreign(o, leg)
    ensures leg in AnalysisStep(o, result, now, n).Or(o).legs
  {
    var price := AnalysisPrice(o, result);
    var noted := Noted(o, result, now);
    var retested := RecordRetest(noted, result, price, now).0;
    NotedKeepsOwnership(o, result, price, now);
    NotedSparesLeg(o, o, noted, result, now, leg);
    NotedSparesLeg(o, o, retested, result, now, leg);
    var levels := ReclaimLevels(result, price);
    if levels.Some? && Advance(retested, ReclaimAdvancement(result, price, now, levels.value), n).Some? {
      LiftSparesForeignLeg(o, retested, ReclaimAdvancement(result, price, now, levels.value), n, leg);
    }
  }

  /** No analysis, whatever it says, changes a leg of a family outside the core. */
  lemma AnalysisSparesForeignLegs(o: Record, n: nat, result: Analysis, now: Time, leg: Leg)
    requires Entered(o.legs) && leg in o.legs && Foreign(o, leg)
    ensures leg in IngestAnalysis(o, result, now, n).Or(o).legs
  {
    StepSparesForeignLegs(o, n, result, now, leg);
    AnalysisRefusedExactly(o, result, now, n);
  }

  /** The checkpoint is at its place, unchanged. */
  predicate Spares(o: Record, r: Record, i: nat) {
    i < |o.checkpoints| && i < |r.checkpoints| && r.checkpoints[i] == o.checkpoints[i]
  }

  lemma ExitsSpareForeign(active: Record, o: Record, noted: Record, result: Analysis, now: Time, i: nat)
    requires Entered(noted.legs) && Spares(o, noted, i) && !CoreFamily(o.checkpoints[i].family)
    ensures Spares(o, AnalyticalExits(active, noted, result, now), i)
  {
    AnalysisSparesCheckpoint(active, noted, result, now, i);
  }

  lemma LiftSparesForeign(o: Record, retested: Record, a: Advancement, n: nat, i: nat)
    requires Spares(o, retested, i) && Advance(retested, a, n).Some?
    ensures Spares(o, Advance(retested, a, n).value, i)
  {
    AdvanceParts(retested, a, n);
  }

  lemma NotedSparesForeign(o: Record, result: Analysis, price: Price, now: Time, i: nat)
    requires i < |o.checkpoints| && !CoreFamily(o.checkpoints[i].family)
    ensures Spares(o, Noted(o, result, now), i)
    ensures Spares(o, RecordRetest(Noted(o, result, now), result, price, now).0, i)
  {
  }

  lemma StepSparesForeignCheckpoints(o: Record, n: nat, result: Analysis, now: Time, i: nat)
    requires Entered(o.legs) && i < |o.checkpoints| && !CoreFamily(o.checkpoints[i].family)
    ensures Spares(o, AnalysisStep(o, result, now, n).Or(o), i)
  {
    var price := AnalysisPrice(o, result);
    var noted := Noted(o, result, now);
    var retested := RecordRetest(noted, result, price, now).0;
    NotedSparesForeign(o, result, price, now, i);
    ExitsSpareForeign(o, o, noted, result, now, i);
    ExitsSpareForeign(o, o, retested, result, now, i);
    var levels := ReclaimLevels(result, price);
    if levels.Some? && Advance(retested, ReclaimAdvancement(result, price, now, levels.value), n).Some? {
      LiftSparesForeign(o, retested, ReclaimAdvancement(result, price, now, levels.value), n, i);
    }
  }

  /** ... nor a checkpoint of one. */
  lemma AnalysisSparesForeignCheckpoints(o: Record, n: nat, result: Analysis, now: Time, i: nat)
    requires Entered(o.legs) && i < |o.checkpoints| && !CoreFamily(o.checkpoints[i].family)
    ensures Spares(o, IngestAnalysis(o, result, now, n).Or(o), i)
  {
    StepSparesForeignCheckpoints(o, n, result, now, i);
    AnalysisRefusedExactly(o, result, now, n);
  }

  // ---------------------------------------------------------------- watcher

  predicate TerminalTransition(t: Transition) {
    t.status.WatchInvalidated? || t.status.WatchExpired?
  }

  /** A leg that a terminal watcher event does not address: another family's, or opened after the event. */
  predicate BeyondTransition(o: Record, leg: Leg, t: Transition) {
    LegFamily(o, leg) != Some(CoreEntry) || (leg.openedAt.Some? && leg.openedAt.value > t.occurredAt)
  }

  /** A terminal watcher event speaks of core entries only, only of its own watch, and of nothing that was
      opened after it. */
  lemma TerminalTransitionSpares(o: Record, n: nat, t: Transition)
    requires Entered(o.legs) && TerminalTransition(t)
    ensures var r := IngestTransition(o, t, n).Or(o);
            && (o.watchId != Some(t.watchId) ==> r == o)
            && (forall leg :: leg in o.legs && BeyondTransition(o, leg, t) ==> leg in r.legs)
            && |r.checkpoints| == |o.checkpoints|
            && (forall i :: 0 <= i < |o.checkpoints|
                            && (!o.checkpoints[i].family.CoreEntry? || o.checkpoints[i].reachedAt > t.occurredAt) ==>
                  r.checkpoints[i] == o.checkpoints[i])
  {
    var e := WatcherEvidence(t);
    CoreExitsSpareTheRest(o, e);
    forall leg | leg in o.legs && BeyondTransition(o, leg, t) ensures leg in CloseCoreEntries(o, e).legs {
      CoreExitSparesLeg(o, e, leg);
    }
  }

  // ---------------------------------------------------------------- bars

  lemma {:induction false} DeferredExitsSpare(o: Record, results: seq<Analysis>, now: Time, leg: Leg)
    requires Entered(o.legs) && leg in o.legs && Foreign(o, leg)
    ensures leg in DeferredExits(o, results, now).legs
    decreases |results|
  {
    if results != [] {
      var next := AnalyticalExits(o, o, results[0], now);
      AnalysisSparesLeg(o, o, results[0], now, leg);
      DeferredExitsSpare(next, results[1..], now, leg);
    }
  }

  lemma {:induction false} DeferredExitsSpareCheckpoint(o: Record, results: seq<Analysis>, now: Time, i: nat)
    requires Entered(o.legs) && i < |o.checkpoints| && !CoreFamily(o.checkpoints[i].family)
    ensures |DeferredExits(o, results, now).checkpoints| == |o.checkpoints|
    ensures DeferredExits(o, results, now).checkpoints[i] == o.checkpoints[i]
    decreases |results|
  {
    if results != [] {
      AnalysisSparesCheckpoint(o, o, results[0], now, i);
      DeferredExitsSpareCheckpoint(AnalyticalExits(o, o, results[0], now), results[1..], now, i);
    }
  }

  /** A checkpoint no record-wide closure may sweep along: any open L1-L4 core buy, and anything
      outside CORE_ENTRY. */
  predicate Shielded(cp: Checkpoint) {
    CoreBuy(cp) || !cp.family.CoreEntry?
  }

  /** A bar ends a shielded checkpoint only by that checkpoint's own marking, even on the bar that
      closes the record. */
  lemma BarNeverSweepsCheckpoint(o: Record, bar: Bar, i: nat)
    requires Ready(o) && i < |o.checkpoints| && Shielded(o.checkpoints[i])
    ensures |BarStep(o, bar).checkpoints| == |o.checkpoints|
    ensures BarStep(o, bar).checkpoints[i] == MarkedByBar(o, bar).checkpoints[i]
  {
    MarkCheckpointKeepsTerms(o.checkpoints[i], bar);
    MarkedByBarEntered(o, bar);
    assert Shielded(MarkedByBar(o, bar).checkpoints[i]);
    if !BreachesThesis(o, bar) && LastHorizonClosed(UpdatedByBar(o, bar)) {
      assert UpdatedByBar(o, bar).checkpoints[i].closed;
    }
  }

  /** A leg after the session close, its only end besides its own marking. */
  function AfterSession(leg: Leg, bar: Bar): Leg
    requires leg.Entered()
  {
    if bar.closing && leg.horizon.Intraday? && leg.status.Open?
    then CloseLeg(leg, bar.close, bar.timestamp, SessionClosed) else leg
  }

  lemma MarkedLegKeepsOwner(o: Record, bar: Bar, i: nat)
    requires Ready(o) && i < |o.legs|
    ensures MarkedByBar(o, bar).legs[i] == MarkLegs(o, bar)[i] == MarkLeg(o, bar, o.legs[i])
    ensures MarkLegs(o, bar)[i].Entered()
    ensures LegFamily(o, MarkLegs(o, bar)[i]) == LegFamily(o, o.legs[i])
    ensures LegFamily(UpdatedByBar(o, bar), AfterSession(MarkLegs(o, bar)[i], bar)) == LegFamily(o, o.legs[i])
  {
    MarkedByBarEntered(o, bar);
    MarkLegKeepsTerms(o, bar, o.legs[i]);
    OwnershipDecidesFamily(o, o, o.legs[i], MarkLegs(o, bar)[i]);
    MarkRecordKeepsReady(o, bar);
    UpdatedKeepsOwnership(o, bar);
    OwnershipDecidesFamily(o, UpdatedByBar(o, bar), o.legs[i], AfterSession(MarkLegs(o, bar)[i], bar));
  }

  lemma UpdatedKeepsOwnership(o: Record, bar: Bar)
    requires Ready(o)
    ensures SameOwnership(o, UpdatedByBar(o, bar))
  {
    MarkRecordKeepsReady(o, bar);
  }

  lemma BreachSparesLeg(o: Record, bar: Bar, i: nat)
    requires Ready(o) && i < |o.legs| && LegFamily(o, o.legs[i]) != Some(CoreEntry) && BreachesThesis(o, bar)
    ensures |BarStep(o, bar).legs| == |o.legs|
    ensures MarkLegs(o, bar)[i].status.Terminal() && BarStep(o, bar).legs[i] == MarkLegs(o, bar)[i]
  {
    MarkedLegKeepsOwner(o, bar, i);
  }

  lemma LastClosureSparesLeg(o: Record, bar: Bar, i: nat)
    requires Ready(o) && i < |o.legs| && LegFamily(o, o.legs[i]) != Some(CoreEntry) && !BreachesThesis(o, bar)
    requires MarkLegs(o, bar)[i].Entered()
    ensures |BarStep(o, bar).legs| == |o.legs|
    ensures BarStep(o, bar).legs[i] == AfterSession(MarkLegs(o, bar)[i], bar)
  {
    MarkedLegKeepsOwner(o, bar, i);
    var updated := UpdatedByBar(o, bar);
    assert updated.legs[i] == AfterSession(MarkLegs(o, bar)[i], bar);
  }

  /** The same for legs outside CORE_ENTRY; the session close is their only other end. */
  lemma BarNeverSweepsLeg(o: Record, bar: Bar, i: nat)
    requires Ready(o) && i < |o.legs| && LegFamily(o, o.legs[i]) != Some(CoreEntry)
    ensures |BarStep(o, bar).legs| == |o.legs| && MarkLegs(o, bar)[i].Entered()
    ensures BarStep(o, bar).legs[i] == AfterSession(MarkLegs(o, bar)[i], bar)
  {
    MarkedLegKeepsOwner(o, bar, i);
    if BreachesThesis(o, bar) {
      BreachSparesLeg(o, bar, i);
    } else {
      LastClosureSparesLeg(o, bar, i);
    }
  }
}
