/** How one completed bar marks checkpoints and legs, policy layer by policy layer, and what the
    two copies of that logic keep in common over any run of bars. */
module Marking {
  import opened Market
  import opened Position
  import opened RecoveryExit
  import opened Opportunity

  // ---------------------------------------------------------------- exits and protection

  /** Gap-aware exit of a long: gaps first, then the stop before the target inside the candle. */
  function LongExit(bar: Bar, stop: Price, target: Option<Price>): Option<(Price, LegStatus)> {
    if bar.open <= stop then Some((bar.open, Invalidated))
    else if target.Some? && bar.open >= target.value then Some((bar.open, TargetHit))
    else if bar.low <= stop then Some((stop, Invalidated))
    else if target.Some? && bar.high >= target.value then Some((target.value, TargetHit))
    else None
  }

  function ProtectedOutcome(outcome: LegStatus): LegStatus {
    if outcome.Invalidated? then ProtectionExit else outcome
  }

  /** The protection stop a completed close proposes, if it proposes one above the present stop. */
  function ProposedProtection(entry: Price, stop: Price, protection: Option<Price>, bar: Bar): Option<Price> {
    var risk := entry - stop;
    if risk <= 0.0 || bar.close - entry < risk then None
    else
      var proposed := if entry >= bar.close - risk then entry else bar.close - risk;
      if protection.Some? && proposed <= protection.value then None else Some(proposed)
  }

  function Advanced(p: Protection, entry: Price, stop: Price, bar: Bar): Protection {
    match ProposedProtection(entry, stop, p.stop, bar)
    case None => p
    case Some(proposed) => Protection(Some(proposed), Some(bar.timestamp), Some(PROTECTION_RULE))
  }

  function AdvanceCheckpointProtection(cp: Checkpoint, bar: Bar): Checkpoint {
    cp.(protection := Advanced(cp.protection, cp.entry, cp.stop, bar))
  }

  function AdvanceLegProtection(leg: Leg, bar: Bar): Leg {
    if leg.entry.None? then leg
    else leg.(protection := Advanced(leg.protection, leg.entry.value, leg.stop, bar))
  }

  // ---------------------------------------------------------------- who is protected

  predicate CoreBuy(cp: Checkpoint) {
    (cp.family.CoreEntry? || cp.family.CoreRecovery?) && Confirmed(cp.level) && cp.entry > cp.stop
  }

  predicate CountertrendBuy(cp: Checkpoint) {
    && cp.family.GeriCountertrend?
    && cp.ct.Some? && (cp.ct.value.CT2? || cp.ct.value.CT3? || cp.ct.value.CT4?)
    && cp.entry > cp.stop
  }

  predicate SwingTradeBuy(cp: Checkpoint) {
    && cp.family.SwingTrade?
    && cp.st.Some? && (cp.st.value.ST3? || cp.st.value.ST4?)
    && cp.entry > cp.stop
  }

  predicate Protectable(cp: Checkpoint) {
    CoreBuy(cp) || CountertrendBuy(cp) || SwingTradeBuy(cp)
  }

  // ---------------------------------------------------------------- checkpoints

  predicate CheckpointIdle(cp: Checkpoint, bar: Bar) {
    cp.closed || bar.timestamp <= cp.reachedAt
  }

  /** Each markout is written once, by the first completed bar that is old enough. */
  function MarkoutsAfter(cp: Checkpoint, bar: Bar): Markouts {
    var elapsed := bar.timestamp - cp.reachedAt;
    var move := Percent(bar.close, cp.entry);
    var m := cp.markouts;
    Markouts(
      if m.after15.None? && elapsed >= 15 * MINUTE then Some(move) else m.after15,
      if m.after30.None? && elapsed >= 30 * MINUTE then Some(move) else m.after30,
      if m.after60.None? && elapsed >= 60 * MINUTE then Some(move) else m.after60,
      if m.atClose.None? && bar.closing then Some(move) else m.atClose)
  }

  function MarkCheckpointBase(cp: Checkpoint, bar: Bar): Checkpoint {
    if CheckpointIdle(cp, bar) then cp
    else
      var marked := cp.(quote := QuoteAfter(cp.quote, cp.entry, bar), markouts := MarkoutsAfter(cp, bar));
      if bar.low <= cp.stop then CloseCheckpoint(marked, cp.stop, bar.timestamp, Invalidated)
      else if cp.target.Some? && bar.high >= cp.target.value then
        CloseCheckpoint(marked, cp.target.value, bar.timestamp, TargetHit)
      else marked
  }

  /** Only the open and the exit are known to precede a closure inside the candle. */
  function CheckpointAtOpen(cp: Checkpoint, bar: Bar): Checkpoint {
    cp.(quote := cp.quote.Touched(bar.open))
  }

  function MarkCheckpointGapAware(cp: Checkpoint, bar: Bar): Checkpoint {
    if CheckpointIdle(cp, bar) then cp
    else
      match LongExit(bar, cp.stop, cp.target)
      case None => MarkCheckpointBase(cp, bar)
      case Some(exit) => CloseCheckpoint(CheckpointAtOpen(cp, bar), exit.0, bar.timestamp, exit.1)
  }

  /** The protected marking of versions 19, 21 and 22 around the marking each inherits. */
  function MarkCheckpointProtected(cp: Checkpoint, bar: Bar, inherited: Checkpoint): Checkpoint {
    if CheckpointIdle(cp, bar) || cp.protection.Decided(bar) then cp
    else
      var exit := if cp.protection.stop.Some? then LongExit(bar, cp.protection.stop.value, cp.target) else None;
      if exit.Some? then
        CloseCheckpoint(CheckpointAtOpen(cp, bar), exit.value.0, bar.timestamp, ProtectedOutcome(exit.value.1))
      else if inherited.closed then inherited
      else AdvanceCheckpointProtection(inherited, bar)
  }

  function MarkCheckpointCore(cp: Checkpoint, bar: Bar): Checkpoint {
    if CoreBuy(cp) then MarkCheckpointProtected(cp, bar, MarkCheckpointGapAware(cp, bar))
    else MarkCheckpointGapAware(cp, bar)
  }

  predicate ExitPending(cp: Checkpoint, bar: Bar) {
    && cp.recovery.Some? && cp.recovery.value.pendingExitAt.Some?
    && cp.recovery.value.pendingExitAt.value <= bar.timestamp
  }

  function MarkCheckpointRecovery(cp: Checkpoint, bar: Bar): Checkpoint {
    if CheckpointIdle(cp, bar) then cp
    else if ExitPending(cp, bar) then
      var marked := MarkCheckpointCore(cp, bar.AtOpen());
      if marked.closed then marked
      else CloseCheckpoint(CheckpointAtOpen(cp, bar), bar.open, bar.timestamp, RecoveryFailed)
    else
      var marked := MarkCheckpointCore(cp, bar);
      if cp.recovery.None? || marked.closed then marked
      else marked.(recovery := Some(Observe(cp.recovery.value, bar)))
  }

  function MarkCheckpointCountertrend(cp: Checkpoint, bar: Bar): Checkpoint {
    if CountertrendBuy(cp) then MarkCheckpointProtected(cp, bar, MarkCheckpointRecovery(cp, bar))
    else MarkCheckpointRecovery(cp, bar)
  }

  /** The marking in force: version 22 over 21, 20, 19, 18 and the original. */
  function MarkCheckpoint(cp: Checkpoint, bar: Bar): Checkpoint {
    if SwingTradeBuy(cp) then MarkCheckpointProtected(cp, bar, MarkCheckpointCountertrend(cp, bar))
    else MarkCheckpointCountertrend(cp, bar)
  }

  // ---------------------------------------------------------------- legs

  predicate LegIdle(leg: Leg, bar: Bar) {
    !leg.status.Open? || leg.openedAt.None? || bar.timestamp <= leg.openedAt.value
  }

  function MarkLegBase(leg: Leg, bar: Bar): Leg
    requires leg.Entered()
  {
    if LegIdle(leg, bar) then leg
    else
      var marked := leg.(quote := QuoteAfter(leg.quote, leg.entry.value, bar));
      if bar.low <= leg.stop then CloseLeg(marked, leg.stop, bar.timestamp, Invalidated)
      else if leg.target.Some? && bar.high >= leg.target.value then
        CloseLeg(marked, leg.target.value, bar.timestamp, TargetHit)
      else marked
  }

  function LegAtOpen(leg: Leg, bar: Bar): Leg {
    leg.(quote := leg.quote.Touched(bar.open))
  }

  function MarkLegGapAware(leg: Leg, bar: Bar): Leg
    requires leg.Entered()
  {
    if LegIdle(leg, bar) then leg
    else
      match LongExit(bar, leg.stop, leg.target)
      case None => MarkLegBase(leg, bar)
      case Some(exit) => CloseLeg(LegAtOpen(leg, bar), exit.0, bar.timestamp, exit.1)
  }

  function MarkLegProtected(leg: Leg, bar: Bar): Leg
    requires leg.Entered()
  {
    if LegIdle(leg, bar) || leg.protection.Decided(bar) then leg
    else
      var exit := if leg.protection.stop.Some? then LongExit(bar, leg.protection.stop.value, leg.target) else None;
      if exit.Some? then
        CloseLeg(LegAtOpen(leg, bar), exit.value.0, bar.timestamp, ProtectedOutcome(exit.value.1))
      else
        var marked := MarkLegGapAware(leg, bar);
        if !marked.status.Open? then marked else AdvanceLegProtection(marked, bar)
  }

  // ---------------------------------------------------------------- the legs of a record

  /** The first open checkpoint whose pending recovery exit decides this open leg. */
  function PendingMatch(o: Record, bar: Bar, leg: Leg, from: nat): Option<Checkpoint>
    requires from <= |o.checkpoints|
    decreases |o.checkpoints| - from
  {
    if from == |o.checkpoints| then None
    else if PendingDecides(o, o.checkpoints[from], bar, leg) then Some(o.checkpoints[from])
    else PendingMatch(o, bar, leg, from + 1)
  }

  predicate PendingDecides(o: Record, cp: Checkpoint, bar: Bar, leg: Leg) {
    !cp.closed && ExitPending(cp, bar) && SameEntry(o, cp, leg)
  }

  /** The recovery state belongs to recovery buys, and decides nothing before their entry. */
  predicate RecoveryFollowsEntry(cp: Checkpoint) {
    cp.recovery.Some? ==>
      && cp.family == CoreRecovery
      && (cp.recovery.value.pendingExitAt.Some? ==> cp.recovery.value.pendingExitAt.value > cp.reachedAt)
  }

  /** What every record promises before a bar is marked. */
  predicate Ready(o: Record) {
    && Entered(o.legs)
    && forall i :: 0 <= i < |o.checkpoints| ==> RecoveryFollowsEntry(o.checkpoints[i])
  }

  /** A pending exit that has come due always closes, at the bar's open. */
  lemma PendingAlwaysCloses(cp: Checkpoint, bar: Bar)
    requires !cp.closed && ExitPending(cp, bar) && RecoveryFollowsEntry(cp)
    ensures var after := MarkCheckpoint(cp, bar);
            && after.closed && after.outcome.Some?
            && after.exit == Exit(Some(bar.timestamp), Some(bar.open), Some(Percent(bar.open, cp.entry)))
  {
  }

  /** Version 20 resolves a due recovery exit before the candle marks anything else. */
  function ResolvePending(o: Record, bar: Bar, leg: Leg): (resolved: Leg)
    requires Ready(o) && leg.Entered()
    ensures resolved.Entered()
  {
    match PendingMatch(o, bar, leg, 0)
    case None => leg
    case Some(cp) =>
      PendingMatchDecides(o, bar, leg, 0);
      PendingAlwaysCloses(cp, bar);
      var after := MarkCheckpoint(cp, bar);
      CloseLeg(leg, after.exit.price.value, bar.timestamp, after.outcome.value)
  }

  lemma PendingMatchDecides(o: Record, bar: Bar, leg: Leg, from: nat)
    requires from <= |o.checkpoints|
    ensures match PendingMatch(o, bar, leg, from)
            case Some(cp) => exists i :: from <= i < |o.checkpoints| && o.checkpoints[i] == cp && PendingDecides(o, cp, bar, leg)
            case None => forall i :: from <= i < |o.checkpoints| ==> !PendingDecides(o, o.checkpoints[i], bar, leg)
    decreases |o.checkpoints| - from
  {
    if from < |o.checkpoints| && !PendingDecides(o, o.checkpoints[from], bar, leg) {
      PendingMatchDecides(o, bar, leg, from + 1);
    }
  }

  predicate OwnedByCoreBuy(o: Record, leg: Leg) {
    exists i :: 0 <= i < |o.checkpoints| && CoreBuy(o.checkpoints[i]) && SameEntry(o, o.checkpoints[i], leg)
  }

  predicate OwnedByCountertrendBuy(o: Record, leg: Leg) {
    exists i :: 0 <= i < |o.checkpoints| && CountertrendBuy(o.checkpoints[i]) && SameEntry(o, o.checkpoints[i], leg)
  }

  predicate OwnedBySwingTradeBuy(o: Record, leg: Leg) {
    exists i :: 0 <= i < |o.checkpoints| && SwingTradeBuy(o.checkpoints[i]) && SameEntry(o, o.checkpoints[i], leg)
  }

  /** Versions 22 and 21 re-mark the original leg; otherwise version 19 marks the resolved one. */
  function MarkLeg(o: Record, bar: Bar, leg: Leg): Leg
    requires Ready(o) && leg.Entered()
  {
    if OwnedBySwingTradeBuy(o, leg) || OwnedByCountertrendBuy(o, leg) then MarkLegProtected(leg, bar)
    else
      var resolved := ResolvePending(o, bar, leg);
      if OwnedByCoreBuy(o, resolved) then MarkLegProtected(resolved, bar) else MarkLegGapAware(resolved, bar)
  }

  function MarkLegs(o: Record, bar: Bar): (legs: seq<Leg>)
    requires Ready(o)
    ensures |legs| == |o.legs|
  {
    seq(|o.legs|, i requires 0 <= i < |o.legs| => MarkLeg(o, bar, o.legs[i]))
  }

  function MarkCheckpoints(cps: seq<Checkpoint>, bar: Bar): (marked: seq<Checkpoint>)
    ensures |marked| == |cps|
  {
    seq(|cps|, i requires 0 <= i < |cps| => MarkCheckpoint(cps[i], bar))
  }

  function MarkRecord(o: Record, bar: Bar): Record
    requires Ready(o)
  {
    o.(checkpoints := MarkCheckpoints(o.checkpoints, bar), legs := MarkLegs(o, bar))
  }

  // ---------------------------------------------------------------- what marking leaves alone

  /** The terms of a checkpoint that no candle changes. */
  predicate SameTerms(a: Checkpoint, b: Checkpoint) {
    && a.id == b.id && a.level == b.level && a.st == b.st && a.ct == b.ct
    && a.family == b.family && a.setup == b.setup && a.reachedAt == b.reachedAt
    && a.entry == b.entry && a.stop == b.stop && a.target == b.target
    && a.zoneLow == b.zoneLow && a.zoneHigh == b.zoneHigh
    && a.retest == b.retest && a.evidence == b.evidence
    && (a.recovery.Some? <==> b.recovery.Some?)
  }

  predicate SameLegTerms(a: Leg, b: Leg) {
    && a.id == b.id && a.horizon == b.horizon && a.family == b.family && a.setup == b.setup
    && a.openedAt == b.openedAt && a.expiresAt == b.expiresAt && a.entry == b.entry
    && a.stop == b.stop && a.target == b.target
  }

  /** What one layer of marking keeps. */
  predicate Keeps(before: Checkpoint, after: Checkpoint) {
    && SameTerms(before, after)
    && (before.closed ==> after == before)
    && (RecoveryFollowsEntry(before) ==> RecoveryFollowsEntry(after))
  }

  lemma MarkCheckpointKeepsTerms(cp: Checkpoint, bar: Bar)
    ensures Keeps(cp, MarkCheckpoint(cp, bar))
  {
    RecoveryLayerKeeps(cp, bar);
    ProtectedLayerKeeps(cp, bar, MarkCheckpointRecovery(cp, bar));
    ProtectedLayerKeeps(cp, bar, MarkCheckpointCountertrend(cp, bar));
  }

  lemma CloseAtOpenKeeps(cp: Checkpoint, bar: Bar, price: Price, outcome: LegStatus)
    requires !cp.closed
    ensures Keeps(cp, CloseCheckpoint(CheckpointAtOpen(cp, bar), price, bar.timestamp, outcome))
  {
  }

  lemma AdvanceKeeps(cp: Checkpoint, bar: Bar)
    requires !cp.closed
    ensures Keeps(cp, AdvanceCheckpointProtection(cp, bar))
  {
  }

  lemma KeepsTransitive(a: Checkpoint, b: Checkpoint, c: Checkpoint)
    requires Keeps(a, b) && Keeps(b, c)
    ensures Keeps(a, c)
  {
  }

  lemma ProtectedLayerKeeps(cp: Checkpoint, bar: Bar, inherited: Checkpoint)
    requires Keeps(cp, inherited)
    ensures Keeps(cp, MarkCheckpointProtected(cp, bar, inherited))
  {
    var exit := if cp.protection.stop.Some? then LongExit(bar, cp.protection.stop.value, cp.target) else None;
    if CheckpointIdle(cp, bar) || cp.protection.Decided(bar) {
    } else if exit.Some? {
      CloseAtOpenKeeps(cp, bar, exit.value.0, ProtectedOutcome(exit.value.1));
    } else if !inherited.closed {
      AdvanceKeeps(inherited, bar);
      KeepsTransitive(cp, inherited, AdvanceCheckpointProtection(inherited, bar));
    }
  }

  lemma RecoveryLayerKeeps(cp: Checkpoint, bar: Bar)
    ensures Keeps(cp, MarkCheckpointRecovery(cp, bar))
  {
    if CheckpointIdle(cp, bar) {
    } else if ExitPending(cp, bar) {
      CoreKeepsTerms(cp, bar.AtOpen());
      CloseAtOpenKeeps(cp, bar, bar.open, RecoveryFailed);
    } else {
      CoreKeepsTerms(cp, bar);
    }
  }

  lemma GapAwareKeepsTerms(cp: Checkpoint, bar: Bar)
    ensures SameTerms(cp, MarkCheckpointGapAware(cp, bar))
    ensures MarkCheckpointGapAware(cp, bar).recovery == cp.recovery
    ensures cp.closed ==> MarkCheckpointGapAware(cp, bar) == cp
  {
  }

  lemma CoreKeepsTerms(cp: Checkpoint, bar: Bar)
    ensures SameTerms(cp, MarkCheckpointCore(cp, bar))
    ensures MarkCheckpointCore(cp, bar).recovery == cp.recovery
    ensures cp.closed ==> MarkCheckpointCore(cp, bar) == cp
  {
    var inherited := MarkCheckpointGapAware(cp, bar);
    GapAwareKeepsTerms(cp, bar);
    if CoreBuy(cp) {
      var exit := if cp.protection.stop.Some? then LongExit(bar, cp.protection.stop.value, cp.target) else None;
      if CheckpointIdle(cp, bar) || cp.protection.Decided(bar) {
      } else if exit.Some? {
        CloseAtOpenKeeps(cp, bar, exit.value.0, ProtectedOutcome(exit.value.1));
      }
    }
  }

  lemma MarkLegKeepsTerms(o: Record, bar: Bar, leg: Leg)
    requires Ready(o) && leg.Entered()
    ensures SameLegTerms(leg, MarkLeg(o, bar, leg))
    ensures MarkLeg(o, bar, leg).Entered()
    ensures !leg.status.Open? ==> MarkLeg(o, bar, leg) == leg
  {
    MarkLegProtectedKeepsTerms(leg, bar);
    MarkLegProtectedKeepsTerms(ResolvePending(o, bar, leg), bar);
  }

  lemma MarkLegProtectedKeepsTerms(leg: Leg, bar: Bar)
    requires leg.Entered()
    ensures SameLegTerms(leg, MarkLegProtected(leg, bar)) && MarkLegProtected(leg, bar).Entered()
    ensures SameLegTerms(leg, MarkLegGapAware(leg, bar)) && MarkLegGapAware(leg, bar).Entered()
    ensures !leg.status.Open? ==> MarkLegProtected(leg, bar) == leg && MarkLegGapAware(leg, bar) == leg
  {
  }

  lemma MarkRecordKeepsReady(o: Record, bar: Bar)
    requires Ready(o)
    ensures Ready(MarkRecord(o, bar)) && SameOwnership(o, MarkRecord(o, bar))
  {
    var r := MarkRecord(o, bar);
    forall i | 0 <= i < |o.checkpoints|
      ensures SameTerms(o.checkpoints[i], r.checkpoints[i]) && RecoveryFollowsEntry(r.checkpoints[i])
    {
      MarkCheckpointKeepsTerms(o.checkpoints[i], bar);
    }
    forall i | 0 <= i < |o.legs| ensures r.legs[i].Entered() {
      MarkLegKeepsTerms(o, bar, o.legs[i]);
    }
  }

  // ---------------------------------------------------------------- lockstep

  /** Checkpoint `c` is the only checkpoint whose management can reach leg `l`. */
  ghost predicate Paired(o: Record, c: nat, l: nat) {
    && c < |o.checkpoints| && l < |o.legs|
    && Protectable(o.checkpoints[c])
    && SameEntry(o, o.checkpoints[c], o.legs[l])
    && forall i :: 0 <= i < |o.checkpoints| && i != c && SameEntry(o, o.checkpoints[i], o.legs[l])
         ==> !Protectable(o.checkpoints[i])
  }

  /** The clause of the checkpoint validator that gives recovery states to confirmed buys only. */
  predicate OnlyConfirmedRecover(o: Record) {
    forall i :: 0 <= i < |o.checkpoints| && o.checkpoints[i].recovery.Some? ==>
      o.checkpoints[i].family.CoreRecovery? && Confirmed(o.checkpoints[i].level)
  }

  /** So a checkpoint that shares the paired entry and carries a recovery would itself be protectable. */
  lemma OthersCarryNoRecovery(o: Record, c: nat, l: nat, i: nat)
    requires Paired(o, c, l) && OnlyConfirmedRecover(o)
    requires i < |o.checkpoints| && i != c && SameEntry(o, o.checkpoints[i], o.legs[l])
    ensures o.checkpoints[i].recovery.None?
  {
  }

  /** Both open with equal extremes and protection, or both closed with one and the same result. */
  ghost predicate InStep(cp: Checkpoint, leg: Leg) {
    && cp.quote.highest == leg.quote.highest && cp.quote.lowest == leg.quote.lowest
    && cp.protection == leg.protection
    && (if cp.closed
        then leg.status.Terminal() && cp.outcome == Some(leg.status) && cp.exit == leg.exit && cp.quote == leg.quote
        else leg.status.Open?)
  }

  predicate SharesEntry(cp: Checkpoint, leg: Leg) {
    leg.openedAt == Some(cp.reachedAt) && leg.entry == Some(cp.entry) && leg.stop == cp.stop && leg.target == cp.target
  }

  lemma GapAwareMarksAgree(cp: Checkpoint, leg: Leg, bar: Bar)
    requires leg.Entered() && InStep(cp, leg) && SharesEntry(cp, leg)
    ensures InStep(MarkCheckpointGapAware(cp, bar), MarkLegGapAware(leg, bar))
    ensures SharesEntry(MarkCheckpointGapAware(cp, bar), MarkLegGapAware(leg, bar))
  {
  }

  lemma ClosedAtOpenAgree(cp: Checkpoint, leg: Leg, bar: Bar, price: Price, outcome: LegStatus)
    requires leg.Entered() && InStep(cp, leg) && SharesEntry(cp, leg) && !cp.closed && outcome.Terminal()
    ensures InStep(CloseCheckpoint(CheckpointAtOpen(cp, bar), price, bar.timestamp, outcome),
                   CloseLeg(LegAtOpen(leg, bar), price, bar.timestamp, outcome))
  {
  }

  lemma ProtectedMarksAgree(cp: Checkpoint, leg: Leg, bar: Bar)
    requires leg.Entered() && InStep(cp, leg) && SharesEntry(cp, leg)
    ensures InStep(MarkCheckpointProtected(cp, bar, MarkCheckpointGapAware(cp, bar)), MarkLegProtected(leg, bar))
  {
    GapAwareMarksAgree(cp, leg, bar);
    var exit := if cp.protection.stop.Some? then LongExit(bar, cp.protection.stop.value, cp.target) else None;
    if !CheckpointIdle(cp, bar) && exit.Some? {
      ClosedAtOpenAgree(cp, leg, bar, exit.value.0, ProtectedOutcome(exit.value.1));
    }
  }

  lemma PairedPending(o: Record, bar: Bar, c: nat, l: nat)
    requires Ready(o) && Paired(o, c, l) && OnlyConfirmedRecover(o) && !o.checkpoints[c].closed
    ensures PendingMatch(o, bar, o.legs[l], 0) ==
            if ExitPending(o.checkpoints[c], bar) then Some(o.checkpoints[c]) else None
  {
    PendingMatchDecides(o, bar, o.legs[l], 0);
    forall i | 0 <= i < |o.checkpoints| && i != c ensures !PendingDecides(o, o.checkpoints[i], bar, o.legs[l]) {
      if SameEntry(o, o.checkpoints[i], o.legs[l]) {
        OthersCarryNoRecovery(o, c, l, i);
      }
    }
    if ExitPending(o.checkpoints[c], bar) {
      assert PendingDecides(o, o.checkpoints[c], bar, o.legs[l]);
    }
  }

  lemma PairedOwnership(o: Record, c: nat, l: nat)
    requires Paired(o, c, l)
    ensures OwnedByCoreBuy(o, o.legs[l]) <==> CoreBuy(o.checkpoints[c])
    ensures OwnedByCountertrendBuy(o, o.legs[l]) <==> CountertrendBuy(o.checkpoints[c])
    ensures OwnedBySwingTradeBuy(o, o.legs[l]) <==> SwingTradeBuy(o.checkpoints[c])
  {
  }

  /** One bar keeps a paired checkpoint and leg in step. */
  lemma LockstepBar(o: Record, bar: Bar, c: nat, l: nat)
    requires Ready(o) && OnlyConfirmedRecover(o) && Paired(o, c, l) && InStep(o.checkpoints[c], o.legs[l])
    ensures InStep(MarkCheckpoint(o.checkpoints[c], bar), MarkLeg(o, bar, o.legs[l]))
  {
    var cp, leg := o.checkpoints[c], o.legs[l];
    if cp.closed {
      MarkCheckpointKeepsTerms(cp, bar);
      MarkLegKeepsTerms(o, bar, leg);
    } else {
      PairedOwnership(o, c, l);
      ProtectedMarksAgree(cp, leg, bar);
      if CoreBuy(cp) {
        PairedPending(o, bar, c, l);
        if ExitPending(cp, bar) {
          PendingAlwaysCloses(cp, bar);
          PendingKeepsExtremes(cp, bar);
        }
      }
    }
  }

  lemma PendingKeepsExtremes(cp: Checkpoint, bar: Bar)
    requires !cp.closed && ExitPending(cp, bar) && RecoveryFollowsEntry(cp)
    ensures var after := MarkCheckpoint(cp, bar);
            && after.protection == cp.protection
            && after.quote == QuoteAtExit(cp.quote, cp.entry, bar.open)
            && after.outcome.Some? && after.outcome.value.Terminal()
  {
    TouchedExit(cp, bar);
    if MarkCheckpointCore(cp, bar.AtOpen()).closed {
      AtOpenExits(cp, bar.AtOpen());
    }
  }

  lemma TouchedExit(cp: Checkpoint, bar: Bar)
    ensures QuoteAtExit(cp.quote.Touched(bar.open), cp.entry, bar.open) == QuoteAtExit(cp.quote, cp.entry, bar.open)
  {
  }

  /** A bar that is only its opening print can close a position only at that print. */
  lemma AtOpenExits(cp: Checkpoint, bar: Bar)
    requires bar == bar.AtOpen() && !cp.closed && MarkCheckpointCore(cp, bar).closed
    ensures var after := MarkCheckpointCore(cp, bar);
            && after.protection == cp.protection
            && after.quote == QuoteAtExit(cp.quote, cp.entry, bar.open)
            && after.outcome.Some? && after.outcome.value.Terminal()
  {
    TouchedExit(cp, bar);
  }

  function MarkRun(o: Record, bars: seq<Bar>): (r: Record)
    requires Ready(o)
    ensures Ready(r) && |r.checkpoints| == |o.checkpoints| && |r.legs| == |o.legs|
    decreases |bars|
  {
    if bars == [] then o
    else
      MarkRecordKeepsReady(o, bars[0]);
      MarkRun(MarkRecord(o, bars[0]), bars[1..])
  }

  lemma PairedPersists(o: Record, bar: Bar, c: nat, l: nat)
    requires Ready(o) && Paired(o, c, l)
    ensures Paired(MarkRecord(o, bar), c, l)
  {
    var r := MarkRecord(o, bar);
    MarkRecordKeepsReady(o, bar);
    MarkLegKeepsTerms(o, bar, o.legs[l]);
    OwnershipDecidesFamily(o, r, o.legs[l], r.legs[l]);
    forall i | 0 <= i < |o.checkpoints|
      ensures SameTerms(o.checkpoints[i], r.checkpoints[i])
    {
      MarkCheckpointKeepsTerms(o.checkpoints[i], bar);
    }
  }

  lemma ConfirmedRecoveryPersists(o: Record, bar: Bar)
    requires Ready(o) && OnlyConfirmedRecover(o)
    ensures OnlyConfirmedRecover(MarkRecord(o, bar))
  {
    forall i | 0 <= i < |o.checkpoints| ensures SameTerms(o.checkpoints[i], MarkRecord(o, bar).checkpoints[i]) {
      MarkCheckpointKeepsTerms(o.checkpoints[i], bar);
    }
  }

  /** Over any run of bars a paired checkpoint and leg stay in step: both stay open with equal
      extremes and protection, or both close on the same bar with the same price, outcome and result. */
  lemma {:induction false} Lockstep(o: Record, bars: seq<Bar>, c: nat, l: nat)
    requires Ready(o) && OnlyConfirmedRecover(o) && Paired(o, c, l) && InStep(o.checkpoints[c], o.legs[l])
    ensures InStep(MarkRun(o, bars).checkpoints[c], MarkRun(o, bars).legs[l])
    decreases |bars|
  {
    if bars != [] {
      LockstepBar(o, bars[0], c, l);
      PairedPersists(o, bars[0], c, l);
      ConfirmedRecoveryPersists(o, bars[0]);
      MarkRecordKeepsReady(o, bars[0]);
      Lockstep(MarkRecord(o, bars[0]), bars[1..], c, l);
    }
  }
}
