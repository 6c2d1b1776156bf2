/** The events of an opportunity's life, as functions of its record. */
module Lifecycle {
  import opened Market
  import opened Position
  import opened RecoveryExit
  import opened Analyses
  import opened Opportunity
  import opened Marking
  import opened Exits

  // ---------------------------------------------------------------- the confirmation anchor

  predicate IsAnchor(cp: Checkpoint) {
    cp.level.L2? && cp.family.CoreEntry? && cp.zoneLow.Some? && cp.zoneHigh.Some?
  }

  /** The latest zoned L2 core entry: the one place a fresh L4 confirmation may start from. */
  function Anchor(cps: seq<Checkpoint>): (a: Option<nat>)
    ensures a.Some? ==> a.value < |cps| && IsAnchor(cps[a.value])
    ensures a.None? ==> forall i :: 0 <= i < |cps| ==> !IsAnchor(cps[i])
  {
    if cps == [] then None
    else if IsAnchor(cps[|cps| - 1]) then Some(|cps| - 1)
    else Anchor(cps[..|cps| - 1])
  }

  function SetRetest(o: Record, i: nat, at: Time, low: Price): Record
    requires i < |o.checkpoints|
  {
    o.(checkpoints := o.checkpoints[i := o.checkpoints[i].(retest := Retest(Some(at), Some(low)))])
  }

  predicate AwaitsRetest(o: Record, i: nat, seenAt: Time)
    requires i < |o.checkpoints|
  {
    var cp := o.checkpoints[i];
    !cp.closed && cp.retest.at.None? && LevelRank(o.peakMaturity) < LevelRank(L4) && seenAt > cp.reachedAt
  }

  /** An Intraday result may record the retest; the flag says whether one is on record now. */
  function RecordRetest(o: Record, result: Analysis, price: Price, now: Time): (Record, bool) {
    match Anchor(o.checkpoints)
    case None => (o, false)
    case Some(i) =>
      var cp := o.checkpoints[i];
      if !AwaitsRetest(o, i, result.asOf) then (o, cp.retest.at.Some?)
      else
        var tolerance := if result.metrics.atr14.Some? then result.metrics.atr14.value * 0.5 else 0.0;
        if price > cp.stop && cp.zoneLow.value - tolerance <= price <= cp.zoneHigh.value + tolerance
        then (SetRetest(o, i, now, price), true)
        else (o, false)
  }

  function RecordBarRetest(o: Record, bar: Bar): Record {
    match Anchor(o.checkpoints)
    case None => o
    case Some(i) =>
      var cp := o.checkpoints[i];
      if !AwaitsRetest(o, i, bar.timestamp) then o
      else if bar.low <= cp.stop || !(bar.low <= cp.zoneHigh.value && bar.high >= cp.zoneLow.value) then o
      else SetRetest(o, i, bar.timestamp, MaxPrice(bar.low, cp.zoneLow.value))
  }

  function Latest(analyses: seq<Analysis>, horizon: Horizon): Option<Analysis> {
    if analyses == [] then None
    else if analyses[0].horizon == horizon then Some(analyses[0])
    else Latest(analyses[1..], horizon)
  }

  const HORIZONS: seq<Horizon> := [LongTerm, Dilution, Swing, Intraday, VolumeStructure, OptionsGamma, News]

  /** The latest analyses, one per horizon, in horizon order. */
  function ReplaceAnalysis(analyses: seq<Analysis>, result: Analysis): seq<Analysis> {
    CollectAnalyses(analyses, result, HORIZONS)
  }

  function CollectAnalyses(analyses: seq<Analysis>, result: Analysis, horizons: seq<Horizon>): seq<Analysis> {
    if horizons == [] then []
    else
      var existing := Latest(analyses, horizons[0]);
      var kept :=
        if horizons[0] == result.horizon && (existing.None? || result.asOf >= existing.value.asOf)
        then Some(result) else existing;
      (if kept.Some? then [kept.value] else []) + CollectAnalyses(analyses, result, horizons[1..])
  }

  predicate ReclaimConfirmed(o: Record, result: Analysis, price: Price) {
    var anchor := Anchor(o.checkpoints);
    && anchor.Some?
    && var cp := o.checkpoints[anchor.value];
       && !cp.closed && cp.retest.at.Some? && cp.retest.at.value < result.asOf
       && price > o.stop
       && result.direction.Bullish? && result.verdict.Favorable?
       && result.metrics.entryTrigger.Some? && price >= result.metrics.entryTrigger.value
       && result.metrics.confirmationGate && result.metrics.matureGate
       && result.metrics.efficiencyGate && result.metrics.fiveMinuteHigherLow
       && var swing := Latest(o.analyses, Swing);
          (swing.None? || (swing.value.direction.Bullish? && !swing.value.verdict.Avoid?
                           && !swing.value.metrics.structureBroken))
  }

  /** The confirming assessment's own stop and target; both are required to bracket the price. */
  function ReclaimLevels(result: Analysis, price: Price): Option<(Price, Price)> {
    var stop, target := result.metrics.invalidationLevel, result.metrics.objectiveLevel;
    if !result.horizon.Intraday? || stop.None? || target.None? || !(stop.value < price < target.value) then None
    else Some((stop.value, target.value))
  }

  // ---------------------------------------------------------------- advancing maturity

  datatype Advancement = Advancement(
    level: Level, price: Price, now: Time, horizons: seq<Horizon>,
    stop: Option<Price>, target: Option<Price>, zone: Option<(Price, Price)>,
    family: Family, setup: Option<string>, force: bool, allowRegression: bool)

  function NewCheckpoint(id: nat, level: Level, price: Price, stop: Price, at: Time, target: Option<Price>,
                         zone: Option<(Price, Price)>, family: Family, setup: Option<string>): Checkpoint {
    Checkpoint(id, level, None, None, family, setup, at, price, stop, target,
               if zone.Some? then Some(zone.value.0) else None,
               if zone.Some? then Some(zone.value.1) else None,
               Quote(price, price, price, 0, 0), NO_RETEST, false, NO_EXIT, None, NO_MARKOUTS, NO_PROTECTION, [], None)
  }

  function WatchingLeg(id: nat, horizon: Horizon, price: Price, stop: Price): Leg {
    Leg(id, horizon, None, None, Watching, None, None, None, stop, None,
        Quote(price, price, price, 0, 0), NO_EXIT, NO_PROTECTION)
  }

  function OpenLeg(leg: Leg, now: Time, price: Price, stop: Price, target: Option<Price>): Leg {
    leg.(status := Open, openedAt := Some(now), entry := Some(price), stop := stop, target := target,
         quote := leg.quote.(current := price, highest := price, lowest := price))
  }

  /** The unscoped leg that speaks for a horizon: the last one, as a dictionary keeps it. */
  function UnscopedLeg(legs: seq<Leg>, horizon: Horizon): Option<Leg> {
    if legs == [] then None
    else
      var last := legs[|legs| - 1];
      if last.setup.None? && last.horizon == horizon then Some(last) else UnscopedLeg(legs[..|legs| - 1], horizon)
  }

  /** One leg per requested horizon: the existing one, opened if it was watching, or a new one. */
  function OpenedLegs(legs: seq<Leg>, horizons: seq<Horizon>, a: Advancement, default: Price, nextId: nat): seq<Leg> {
    if horizons == [] then []
    else
      var existing := UnscopedLeg(legs, horizons[0]).Or(WatchingLeg(nextId, horizons[0], a.price, default));
      var leg := if existing.status.Watching?
                 then OpenLeg(existing, a.now, a.price, a.stop.Or(default), a.target) else existing;
      [leg] + OpenedLegs(legs, horizons[1..], a, default, nextId + 1)
  }

  /** Every other unscoped leg, first the one that entered the dictionary first. */
  function OtherUnscoped(legs: seq<Leg>, horizons: seq<Horizon>, all: seq<Leg>): seq<Leg> {
    if legs == [] then []
    else
      var rest := OtherUnscoped(legs[1..], horizons, all);
      if legs[0].setup.Some? || legs[0].horizon in horizons then rest
      else [UnscopedLeg(all, legs[0].horizon).Or(legs[0])] + WithoutHorizon(rest, legs[0].horizon)
  }

  function WithoutHorizon(legs: seq<Leg>, horizon: Horizon): seq<Leg> {
    if legs == [] then []
    else if legs[0].horizon == horizon then WithoutHorizon(legs[1..], horizon)
    else [legs[0]] + WithoutHorizon(legs[1..], horizon)
  }

  function Scoped(legs: seq<Leg>): seq<Leg> {
    if legs == [] then []
    else (if legs[0].setup.Some? then [legs[0]] else []) + Scoped(legs[1..])
  }

  function OpenHorizons(legs: seq<Leg>, a: Advancement, default: Price, nextId: nat): seq<Leg> {
    OpenedLegs(legs, a.horizons, a, default, nextId) + OtherUnscoped(legs, a.horizons, legs) + Scoped(legs)
  }

  function OwnedBy(o: Record, legs: seq<Leg>, family: Family): seq<Leg> {
    if legs == [] then []
    else (if LegFamily(o, legs[0]) == Some(family) then [legs[0]] else []) + OwnedBy(o, legs[1..], family)
  }

  function NotOwnedBy(o: Record, legs: seq<Leg>, family: Family): seq<Leg> {
    if legs == [] then []
    else (if LegFamily(o, legs[0]) != Some(family) then [legs[0]] else []) + NotOwnedBy(o, legs[1..], family)
  }

  function Labelled(legs: seq<Leg>, family: Family): seq<Leg> {
    seq(|legs|, i requires 0 <= i < |legs| => legs[i].(family := Some(family)))
  }

  /** An advancing family opens its own horizons and leaves every other family's legs alone. */
  function OpenEntryHorizons(o: Record, a: Advancement, nextId: nat): seq<Leg> {
    NotOwnedBy(o, o.legs, a.family)
    + Labelled(OpenHorizons(OwnedBy(o, o.legs, a.family), a, o.stop, nextId), a.family)
  }

  function Progress(level: Level): nat {
    match level
    case Armed => 20
    case InZone => 40
    case L1 => 60
    case L2 => 75
    case L3 => 90
    case L4 => 100
  }

  /** New ids for one step: a checkpoint and at most one leg per horizon. */
  const IDS_PER_STEP := 8

  predicate HasCheckpoint(cps: seq<Checkpoint>, level: Level, family: Family, setup: Option<string>) {
    exists i :: 0 <= i < |cps| && cps[i].level == level && cps[i].family == family && cps[i].setup == setup
  }

  predicate AddsCheckpoint(o: Record, a: Advancement) {
    && (LevelRank(a.level) > LevelRank(o.peakMaturity) || a.force)
    && !HasCheckpoint(o.checkpoints, a.level, a.family, a.setup)
  }

  function AdvancedCheckpoint(o: Record, a: Advancement, nextId: nat): Checkpoint {
    NewCheckpoint(nextId, a.level, a.price, a.stop.Or(o.stop), a.now, a.target, a.zone, a.family, a.setup)
  }

  /** Maturity evidence applied to the record. None is the contract refusing the new checkpoint. */
  function Advance(o: Record, a: Advancement, nextId: nat): Option<Record> {
    var peakRank, levelRank := LevelRank(o.peakMaturity), LevelRank(a.level);
    var peak := if levelRank > peakRank then a.level else o.peakMaturity;
    if AddsCheckpoint(o, a) && !AdvancedCheckpoint(o, a, nextId).Valid() then None
    else
      var checkpoints := if AddsCheckpoint(o, a) then o.checkpoints + [AdvancedCheckpoint(o, a, nextId)] else o.checkpoints;
      var tracking :=
        && a.allowRegression && (o.status.StatusArmed? || o.status.StatusInZone?)
        && (a.level.Armed? || a.level.InZone?);
      var enters := levelRank >= peakRank && Confirmed(a.level);
      var status :=
        if enters then (if a.level.L4? then StatusOpen else StatusConfirming)
        else if tracking then (if a.level.InZone? then StatusInZone else StatusArmed)
        else if a.level.InZone? && o.status.StatusArmed? then StatusInZone
        else o.status;
      Some(o.(
        status := status,
        currentMaturity := if tracking || levelRank >= peakRank then a.level else o.currentMaturity,
        peakMaturity := peak,
        progress := if tracking then Progress(a.level) else Progress(peak),
        current := if a.now >= o.updatedAt then a.price else o.current,
        updatedAt := MaxTime(a.now, o.updatedAt),
        revision := o.revision + 1,
        legs := if enters then OpenEntryHorizons(o, a, nextId + 1) else o.legs,
        checkpoints := checkpoints))
  }

  // ---------------------------------------------------------------- analyses

  const EXIT_MARK_MAX_AGE: int := 5 * MINUTE

  /** Prices the record has observed, oldest source first. */
  function Observations(o: Record, result: Analysis): seq<(Time, Price)> {
    [(o.armedAt, o.originalPrice)]
    + seq(|o.checkpoints|, i requires 0 <= i < |o.checkpoints| => (o.checkpoints[i].reachedAt, o.checkpoints[i].entry))
    + (if o.lastBarAt.Some? then [(o.lastBarAt.value, o.current)] else [])
    + ReferencePrices(o.analyses + [result])
  }

  function ReferencePrices(analyses: seq<Analysis>): seq<(Time, Price)> {
    if analyses == [] then []
    else
      (if analyses[0].metrics.referencePrice.Some? then [(analyses[0].asOf, analyses[0].metrics.referencePrice.value)] else [])
      + ReferencePrices(analyses[1..])
  }

  /** The latest observation at most five minutes old, the earliest listed on a tie. */
  function FreshMark(observations: seq<(Time, Price)>, now: Time): (mark: Option<(Time, Price)>)
    ensures mark.Some? ==> mark.value in observations && 0 <= now - mark.value.0 <= EXIT_MARK_MAX_AGE
    ensures forall x :: x in observations && 0 <= now - x.0 <= EXIT_MARK_MAX_AGE ==>
              mark.Some? && x.0 <= mark.value.0
  {
    if observations == [] then None
    else
      var best := FreshMark(observations[..|observations| - 1], now);
      var x := observations[|observations| - 1];
      if 0 <= now - x.0 <= EXIT_MARK_MAX_AGE && (best.None? || x.0 > best.value.0) then Some(x) else best
  }

  function CoreEngine(horizon: Horizon): Option<string> {
    match horizon
    case LongTerm => Some("long-term")
    case Swing => Some("swing")
    case Intraday => Some("intraday")
    case _ => None
  }

  predicate Bearish(result: Analysis) {
    result.direction.Bearish? && (result.verdict.Avoid? || result.verdict.Caution?)
  }

  predicate LongFailure(result: Analysis) {
    result.horizon.LongTerm? && (result.verdict.Avoid? || Bearish(result))
  }

  const BREACH_FAMILIES := {CoreEntry, CoreRecovery}

  function BreachEvidence(mark: (Time, Price), now: Time): Evidence {
    Evidence(mark.1, now, mark.0, AllHorizonsClosed, Invalidated, None, true, BREACH_FAMILIES)
  }

  function EntryEvidence(result: Analysis, price: Price, now: Time): Evidence {
    Evidence(price, now, result.asOf,
             if LongFailure(result) then OriginalThesisInvalidated else AllHorizonsClosed,
             if LongFailure(result) then ThesisBroken else Invalidated,
             if LongFailure(result) then None else Some(result.horizon), false, {CoreEntry})
  }

  function RecoveryEvidence(result: Analysis, price: Price, now: Time): Evidence {
    Evidence(price, now, result.asOf, AllHorizonsClosed, Invalidated, None, false, {CoreRecovery})
  }

  /** Family-scoped analytical exits, each at a price observed within five minutes. */
  function AnalyticalExits(active: Record, updated: Record, result: Analysis, now: Time): (r: Record)
    requires Entered(updated.legs)
    ensures Entered(r.legs)
  {
    if CoreEngine(result.horizon) != Some(result.engine) || result.asOf > now then updated
    else
      match FreshMark(Observations(active, result), now)
      case None => updated
      case Some(mark) =>
        var breached := CloseCoreEntries(updated, BreachEvidence(mark, now));
        if !LongFailure(result) && !Bearish(result) then breached
        else
          var entries := CloseCoreEntries(breached, EntryEvidence(result, mark.1, now));
          if Bearish(result) && result.horizon.Swing?
          then CloseCoreEntries(entries, RecoveryEvidence(result, mark.1, now)) else entries
  }

  function AnalysisPrice(o: Record, result: Analysis): Price {
    if result.asOf < MaxTime(o.updatedAt, o.lastBarAt.Or(o.armedAt)) then o.current
    else result.metrics.referencePrice.Or(o.current)
  }

  /** A result is news when it is at least as recent as the one on record for its horizon. */
  predicate IsNews(o: Record, result: Analysis) {
    var existing := Latest(o.analyses, result.horizon);
    existing.None? ||
    (&& result.id != existing.value.id && result.asOf >= existing.value.asOf
     && (result.asOf == existing.value.asOf ==> result.id > existing.value.id))
  }

  function Noted(o: Record, result: Analysis, now: Time): Record {
    o.(current := AnalysisPrice(o, result), updatedAt := now, revision := o.revision + 1,
       analyses := ReplaceAnalysis(o.analyses, result))
  }

  function ReclaimAdvancement(result: Analysis, price: Price, now: Time, levels: (Price, Price)): Advancement {
    Advancement(L4, price, now, [Swing, Intraday], Some(levels.0), Some(levels.1), None, CoreEntry, None, false, false)
  }

  /** A change is published in a message of its own time, which may not precede the record; None is the
      contract of that message refusing it. */
  function Reported(o: Record, r: Record, at: Time): Option<Record> {
    if at < o.armedAt then None else Some(r)
  }

  /** What one analysis makes of an active record. */
  function AnalysisStep(o: Record, result: Analysis, now: Time, nextId: nat): Option<Record>
    requires Entered(o.legs)
  {
    if result.asOf > now || !IsNews(o, result) then Some(o)
    else
      var price := AnalysisPrice(o, result);
      var noted := Noted(o, result, now);
      if !result.horizon.Intraday? then Some(AnalyticalExits(o, noted, result, now))
      else
        var (retested, onRecord) := RecordRetest(noted, result, price, now);
        var levels := ReclaimLevels(result, price);
        if onRecord && ReclaimConfirmed(retested, result, price) && levels.Some?
        then Advance(retested, ReclaimAdvancement(result, price, now, levels.value), nextId)
        else Some(AnalyticalExits(o, retested, result, now))
  }

  /** An earlier result of the same engine and horizon had already spoken against the thesis. */
  predicate PreviouslyFailed(active: Record, result: Analysis) {
    var previous := Latest(active.analyses, result.horizon);
    && previous.Some? && previous.value.engine == result.engine
    && (Bearish(previous.value) || (previous.value.horizon.LongTerm? && previous.value.verdict.Avoid?))
  }

  /** An open core checkpoint that the result would close if there were a fresh price. */
  predicate AwaitsPrice(o: Record, cp: Checkpoint, result: Analysis) {
    && !cp.closed && result.asOf >= cp.reachedAt
    && ((cp.family.CoreEntry? && (LongFailure(result) || result.horizon in CheckpointHorizons(o, cp)))
        || (cp.family.CoreRecovery? && result.horizon.Swing?))
  }

  /** Whether an analysis leaves an event under its own id: it closed something, or gave first notice. */
  predicate ReportsExits(active: Record, updated: Record, result: Analysis, now: Time)
    requires Entered(updated.legs)
  {
    && CoreEngine(result.horizon) == Some(result.engine) && result.asOf <= now
    && var mark := FreshMark(Observations(active, result), now);
       var changed := AnalyticalExits(active, updated, result, now);
       || (mark.Some? && var breached := CloseCoreEntries(updated, BreachEvidence(mark.value, now));
                         breached != updated || changed != breached)
       || (&& LongFailure(result) && !PreviouslyFailed(active, result)
           && exists i :: 0 <= i < |changed.checkpoints|
                          && changed.checkpoints[i].family.CoreRecovery? && !changed.checkpoints[i].closed)
       || (&& mark.None? && (LongFailure(result) || Bearish(result)) && !PreviouslyFailed(active, result)
           && exists i :: 0 <= i < |changed.checkpoints| && AwaitsPrice(changed, changed.checkpoints[i], result))
  }

  /** Whether one analysis leaves an event under its own id: the lift to L4 does, and so do its exits. */
  predicate ReportsAnalysis(o: Record, result: Analysis, now: Time, nextId: nat)
    requires Entered(o.legs)
  {
    if result.asOf > now || !IsNews(o, result) then false
    else
      var price := AnalysisPrice(o, result);
      var noted := Noted(o, result, now);
      if !result.horizon.Intraday? then ReportsExits(o, noted, result, now)
      else
        var (retested, onRecord) := RecordRetest(noted, result, price, now);
        var levels := ReclaimLevels(result, price);
        if onRecord && ReclaimConfirmed(retested, result, price) && levels.Some?
        then Advance(retested, ReclaimAdvancement(result, price, now, levels.value), nextId).Some?
        else ReportsExits(o, retested, result, now)
  }

  /** The checkpoint of a reclaim has no zone and no recovery, so its contract holds whatever the levels. */
  lemma AnalysisStepIsDefined(o: Record, result: Analysis, now: Time, n: nat)
    requires Entered(o.legs)
    ensures AnalysisStep(o, result, now, n).Some?
  {
  }

  /** One analysis on an active record. None is a step that may not be published. */
  function IngestAnalysis(o: Record, result: Analysis, now: Time, nextId: nat): Option<Record>
    requires Entered(o.legs)
  {
    var step := AnalysisStep(o, result, now, nextId);
    if step.Some? && ReportsAnalysis(o, result, now, nextId) then Reported(o, step.value, now) else step
  }

  /** An analysis is refused exactly when it has something to publish before the record was armed. */
  lemma AnalysisRefusedExactly(o: Record, result: Analysis, now: Time, n: nat)
    requires Entered(o.legs)
    ensures IngestAnalysis(o, result, now, n).None? <==> now < o.armedAt && ReportsAnalysis(o, result, now, n)
    ensures IngestAnalysis(o, result, now, n).Some? ==>
              IngestAnalysis(o, result, now, n) == AnalysisStep(o, result, now, n)
  {
    AnalysisStepIsDefined(o, result, now, n);
  }

  // ---------------------------------------------------------------- watcher transitions

  datatype WatchStatus =
    | WatchArmed | WatchInZone | EarlyEntry | ImpulseExtended | Triggered
    | PolicyIneligible | WatchInvalidated | WatchExpired

  datatype Transition = Transition(
    id: nat, watchId: nat, setup: string, symbol: string, status: WatchStatus, occurredAt: Time,
    zoneLow: Price, zoneHigh: Price, stop: Price, price: Price,
    entryStop: Option<Price>, entryTarget: Option<Price>, expiresAt: Time, horizons: seq<Horizon>)

  function TransitionLevel(status: WatchStatus): Level {
    match status
    case WatchInZone => InZone
    case EarlyEntry => L1
    case Triggered => L4
    case _ => Armed
  }

  function TransitionAdvancement(t: Transition, setup: Option<string>, allowRegression: bool): Advancement {
    Advancement(TransitionLevel(t.status), t.price, t.occurredAt, t.horizons, t.entryStop, t.entryTarget, None,
                CoreEntry, setup, false, allowRegression)
  }

  function NewWatchRecord(t: Transition, id: nat, nextId: nat): Record {
    var level := TransitionLevel(t.status);
    var confirmed := (level.L1? || level.L4?) && t.entryStop.Some? && t.entryTarget.Some?;
    var cp := NewCheckpoint(nextId, level, t.price, t.stop, t.occurredAt, None, None, CoreEntry, Some(t.setup));
    Record(id, t.symbol, if level.InZone? then StatusInZone else StatusArmed, level, level, Progress(level),
           Some(t.watchId), t.occurredAt, t.occurredAt, None, t.expiresAt, None, None,
           t.zoneLow, t.zoneHigh, t.stop, t.price, t.price, 1, CoreEntry, [],
           Some(Cursor(t.occurredAt, t.id)), [],
           [WatchingLeg(nextId, LongTerm, t.price, t.stop)],
           [if confirmed then cp.(stop := t.entryStop.value, target := t.entryTarget) else cp])
  }

  /** The first watcher event opens the record; a confirmed one also opens its horizons. */
  function OpenFromTransition(t: Transition, id: nat, nextId: nat): Option<Record> {
    if !(t.status.WatchArmed? || t.status.WatchInZone? || t.status.EarlyEntry? || t.status.Triggered?) then None
    else
      var o := NewWatchRecord(t, id, nextId);
      if t.status.EarlyEntry? || t.status.Triggered?
      then Advance(o, TransitionAdvancement(t, None, false), nextId + 1) else Some(o)
  }

  function WatcherEvidence(t: Transition): Evidence {
    Evidence(t.price, t.occurredAt, t.occurredAt,
             if t.status.WatchInvalidated? then OriginalThesisInvalidated else ThesisExpired,
             if t.status.WatchInvalidated? then ThesisBroken else Expired, None, false, {CoreEntry})
  }

  /** One watcher transition on an active record. */
  function IngestTransition(o: Record, t: Transition, nextId: nat): Option<Record>
    requires Entered(o.legs)
  {
    var terminal := t.status.WatchInvalidated? || t.status.WatchExpired?;
    if o.watcherCursor.Some? && !o.watcherCursor.value.Before(t.occurredAt, t.id) then Some(o)
    else if terminal && o.watchId != Some(t.watchId) then Some(o)
    else if terminal then
      var closed := CloseCoreEntries(o, WatcherEvidence(t));
      if closed == o then Some(o)
      else Reported(o, closed.(watcherCursor := Some(Cursor(t.occurredAt, t.id))), t.occurredAt)
    else if t.status.PolicyIneligible? then Some(o)
    else if t.status.Triggered? && Anchor(o.checkpoints).Some? && LevelRank(o.peakMaturity) < LevelRank(L4) then Some(o)
    else
      match Advance(o, TransitionAdvancement(t, Some(t.setup), true), nextId)
      case None => None
      case Some(r) => Reported(o, r.(watcherCursor := Some(Cursor(t.occurredAt, t.id))), t.occurredAt)
  }

  // ---------------------------------------------------------------- core signals

  datatype SignalZone = SignalZone(low: Price, high: Price, stop: Price)

  /** A core entry decision: its contract requires a maturity. */
  datatype Signal = Signal(
    id: nat, recovery: bool, maturity: Level, symbol: string, createdAt: Time, setup: string, entry: Price,
    horizons: seq<Horizon>, zone: Option<SignalZone>, targets: seq<Price>, analyses: seq<Analysis>)

  function SignalFamily(s: Signal): Family { if s.recovery then CoreRecovery else CoreEntry }

  /** The nearest target above the entry. */
  function ActionableTarget(entry: Price, targets: seq<Price>): (t: Option<Price>)
    ensures t.Some? ==> t.value in targets && t.value > entry
    ensures forall x :: x in targets && x > entry ==> t.Some? && t.value <= x
  {
    if targets == [] then None
    else
      var rest := ActionableTarget(entry, targets[1..]);
      assert forall x :: x in targets <==> x == targets[0] || x in targets[1..];
      if targets[0] > entry && (rest.None? || targets[0] <= rest.value) then Some(targets[0]) else rest
  }

  function SignalReference(s: Signal): Reference {
    Reference(s.id, SignalFamily(s), Some(s.maturity), None, None, None, None, s.setup, s.createdAt, s.horizons)
  }

  function WithoutSetup(references: seq<Reference>, family: Family, setup: string): seq<Reference> {
    if references == [] then []
    else
      (if references[0].family == family && references[0].setup == setup then [] else [references[0]])
      + WithoutSetup(references[1..], family, setup)
  }

  function ReplaceReference(references: seq<Reference>, r: Reference): seq<Reference> {
    var values := WithoutSetup(references, r.family, r.setup) + [r];
    if |values| <= 32 then values else [values[0]] + values[|values| - 31..]
  }

  function ReferenceFor(references: seq<Reference>, family: Family, setup: string): Option<Reference> {
    if references == [] then None
    else if references[0].family == family && references[0].setup == setup then Some(references[0])
    else ReferenceFor(references[1..], family, setup)
  }

  predicate AdvancesSetup(existing: Reference, s: Signal) {
    && existing.signalId != s.id
    && existing.maturity.Some?
    && LevelRank(s.maturity) > LevelRank(existing.maturity.value)
  }

  const MAX_RECOVERY_AGE: int := 45 * MINUTE

  predicate RecoveryEvidenceFits(s: Signal, a: Analysis) {
    && a.engine == "swing" && a.horizon.Swing? && a.verdict.Favorable? && a.direction.Bullish?
    && a.metrics.classification == "recovery"
    && a.metrics.recovery.Some?
    && var m := a.metrics.recovery.value;
       && m.lane == "STRUCTURE_RECOVERY" && m.swingGate && m.recoveryGate && m.setup == s.setup
       && 0 <= s.createdAt - a.asOf <= MAX_RECOVERY_AGE
       && m.pivotAt <= a.asOf
       && MaxPrice(m.avwap, m.breakout) <= s.entry
  }

  /** The recovery geometry frozen at entry, from the first analysis that fits. */
  function EntryRecovery(s: Signal, analyses: seq<Analysis>): (r: Option<Recovery>)
    ensures r.Some? ==> s.recovery && Confirmed(s.maturity) && Fresh(r.value) && r.value.Valid()
  {
    if !s.recovery || !Confirmed(s.maturity) || analyses == [] then None
    else if RecoveryEvidenceFits(s, analyses[0]) then
      var a, m := analyses[0], analyses[0].metrics.recovery.value;
      Some(Recovery(a.id, a.asOf, m.pivotAt, m.avwap, m.breakout, m.reboundLow, m.reactionLow,
                    None, None, 0, None, None, None))
    else EntryRecovery(s, analyses[1..])
  }

  function EligibleAnalyses(s: Signal, analyses: seq<Analysis>): seq<Analysis> {
    if analyses == [] then []
    else
      (if analyses[0].symbol == s.symbol && analyses[0].asOf <= s.createdAt then [analyses[0]] else [])
      + EligibleAnalyses(s, analyses[1..])
  }

  predicate Captures(cp: Checkpoint, s: Signal) {
    && cp.family == SignalFamily(s) && cp.setup == Some(s.setup) && cp.reachedAt == s.createdAt
    && cp.evidence == [] && !cp.closed
  }

  function CaptureEvidence(o: Record, s: Signal): Record {
    var analyses := EligibleAnalyses(s, s.analyses);
    var ids := seq(|analyses|, i requires 0 <= i < |analyses| => analyses[i].id);
    o.(checkpoints := seq(|o.checkpoints|, i requires 0 <= i < |o.checkpoints| =>
         if Captures(o.checkpoints[i], s)
         then o.checkpoints[i].(evidence := ids, recovery := EntryRecovery(s, analyses)) else o.checkpoints[i]))
  }

  const DAY: int := 24 * 60 * MINUTE

  function SignalLifetime(s: Signal): int {
    if LongTerm in s.horizons then 365 * DAY else if Swing in s.horizons then 56 * DAY else 2 * DAY
  }

  function SignalAdvancement(s: Signal): Advancement {
    Advancement(s.maturity, s.entry, s.createdAt, s.horizons,
                if s.zone.Some? then Some(s.zone.value.stop) else None,
                ActionableTarget(s.entry, s.targets),
                if !s.maturity.L2? then None
                else if s.zone.Some? then Some((s.zone.value.low, s.zone.value.high)) else Some((s.entry, s.entry)),
                SignalFamily(s), Some(s.setup), s.recovery, false)
  }

  /** A core decision with complete levels opens a record of its own. */
  function OpenFromSignal(s: Signal, id: nat, nextId: nat): Option<Record> {
    if s.zone.None? then None
    else
      var z, target := s.zone.value, ActionableTarget(s.entry, s.targets);
      var a := SignalAdvancement(s);
      var o := Record(id, s.symbol, if s.maturity.L4? then StatusOpen else StatusConfirming,
                      s.maturity, s.maturity, Progress(s.maturity), None,
                      s.createdAt, s.createdAt, None, s.createdAt + SignalLifetime(s), None, None,
                      z.low, z.high, z.stop, s.entry, s.entry, 1, SignalFamily(s), [SignalReference(s)], None, [],
                      OpenHorizons([], a, z.stop, nextId + 1),
                      [NewCheckpoint(nextId, s.maturity, s.entry, z.stop, s.createdAt, target, None,
                                     SignalFamily(s), Some(s.setup))]);
      Some(CaptureEvidence(o, s))
  }

  /** One core decision on an active record. */
  function IngestSignal(o: Record, s: Signal, nextId: nat): Option<Record>
    requires Entered(o.legs)
  {
    var existing := ReferenceFor(o.references, SignalFamily(s), s.setup);
    if existing.Some? && !AdvancesSetup(existing.value, s) then Some(o)
    else if s.maturity.L4? && Anchor(o.checkpoints).Some? && LevelRank(o.peakMaturity) < LevelRank(L4) then Some(o)
    else
      match Advance(o, SignalAdvancement(s), nextId)
      case None => None
      case Some(r) =>
        Reported(o, CaptureEvidence(r.(references := ReplaceReference(o.references, SignalReference(s))), s), s.createdAt)
  }

  // ---------------------------------------------------------------- bars

  /** A bar may close the whole record only when no core buy of its own and no position of another
      family would be swept along. */
  predicate BarCanClose(o: Record, legs: seq<Leg>, cps: seq<Checkpoint>) {
    && (forall i :: 0 <= i < |cps| ==> !(CoreBuy(cps[i]) && !cps[i].closed))
    && (forall i :: 0 <= i < |cps| ==> cps[i].closed || cps[i].family.CoreEntry?)
    && (forall i :: 0 <= i < |legs| ==> legs[i].status.Terminal() || LegFamily(o, legs[i]) == Some(CoreEntry))
  }

  predicate AllOpenedTerminal(legs: seq<Leg>) {
    && (exists i :: 0 <= i < |legs| && legs[i].openedAt.Some?)
    && (forall i :: 0 <= i < |legs| && legs[i].openedAt.Some? ==> legs[i].status.Terminal())
  }

  function CloseSession(legs: seq<Leg>, bar: Bar): (r: seq<Leg>)
    requires Entered(legs)
    ensures |r| == |legs| && Entered(r)
  {
    seq(|legs|, i requires 0 <= i < |legs| =>
      if legs[i].horizon.Intraday? && legs[i].status.Open?
      then CloseLeg(legs[i], bar.close, bar.timestamp, SessionClosed) else legs[i])
  }

  /** Checkpoints and legs after the candle, before any record-wide closure. */
  function MarkedByBar(o: Record, bar: Bar): Record
    requires Ready(o)
  {
    RecordBarRetest(MarkRecord(o, bar), bar)
  }

  predicate BreachesThesis(o: Record, bar: Bar)
    requires Ready(o)
  {
    bar.low <= o.stop && BarCanClose(o, MarkedByBar(o, bar).legs, MarkedByBar(o, bar).checkpoints)
  }

  lemma MarkedByBarEntered(o: Record, bar: Bar)
    requires Ready(o)
    ensures Entered(MarkedByBar(o, bar).legs) && MarkedByBar(o, bar).legs == MarkLegs(o, bar)
  {
    MarkRecordKeepsReady(o, bar);
  }

  /** The record whose thesis the candle has just breached, before it closes. */
  function HeldByBar(o: Record, bar: Bar): (r: Record)
    requires Ready(o)
    ensures Entered(r.legs)
  {
    MarkedByBarEntered(o, bar);
    var marked := MarkedByBar(o, bar);
    o.(checkpoints := marked.checkpoints, legs := marked.legs, lastBarAt := Some(bar.timestamp))
  }

  /** The record after an ordinary candle, its Intraday leg closed with the session. */
  function UpdatedByBar(o: Record, bar: Bar): (r: Record)
    requires Ready(o)
    ensures Entered(r.legs)
  {
    MarkedByBarEntered(o, bar);
    var marked := MarkedByBar(o, bar);
    o.(current := bar.close, updatedAt := MaxTime(o.updatedAt, bar.timestamp),
       lastBarAt := Some(bar.timestamp), revision := o.revision + 1,
       legs := if bar.closing then CloseSession(marked.legs, bar) else marked.legs,
       checkpoints := marked.checkpoints)
  }

  predicate LastHorizonClosed(o: Record) {
    AllOpenedTerminal(o.legs) && BarCanClose(o, o.legs, o.checkpoints)
  }

  /** The bar itself: marks, the thesis stop, the session close and the last horizon's closure. */
  function BarStep(o: Record, bar: Bar): (r: Record)
    requires Ready(o)
    ensures Entered(r.legs)
  {
    if BreachesThesis(o, bar) then
      CloseRecord(HeldByBar(o, bar), MinPrice(o.stop, bar.open), bar.timestamp, OriginalThesisInvalidated, ThesisBroken)
    else
      var updated := UpdatedByBar(o, bar);
      if LastHorizonClosed(updated)
      then CloseRecord(updated, bar.close, bar.timestamp, AllHorizonsClosed, TimeExit)
      else updated
  }

  /** Stored analyses are pending evidence: each is revisited at the fresh price of the bar. */
  function DeferredExits(o: Record, results: seq<Analysis>, now: Time): (r: Record)
    requires Entered(o.legs)
    ensures Entered(r.legs)
    decreases |results|
  {
    if results == [] then o
    else DeferredExits(AnalyticalExits(o, o, results[0], now), results[1..], now)
  }

  predicate BarApplies(o: Record, bar: Bar) {
    bar.timestamp >= o.armedAt && (o.lastBarAt.Some? ==> o.lastBarAt.value < bar.timestamp)
  }

  /** One completed regular-session minute on an active record. */
  function IngestBar(o: Record, bar: Bar): (r: Record)
    requires Ready(o)
  {
    if !BarApplies(o, bar) then o
    else
      var stepped := BarStep(o, bar);
      if stepped.status.StatusClosed? || bar.timestamp < o.updatedAt then stepped
      else DeferredExits(stepped, stepped.analyses, bar.timestamp)
  }

  function RefreshLegs(legs: seq<Leg>, price: Price): (r: seq<Leg>)
    ensures |r| == |legs|
  {
    seq(|legs|, i requires 0 <= i < |legs| =>
      if legs[i].status.Terminal() then legs[i] else legs[i].(quote := legs[i].quote.(current := price)))
  }

  function RefreshCheckpoints(cps: seq<Checkpoint>, price: Price): (r: seq<Checkpoint>)
    ensures |r| == |cps|
  {
    seq(|cps|, i requires 0 <= i < |cps| =>
      if cps[i].closed then cps[i] else cps[i].(quote := cps[i].quote.(current := price)))
  }

  /** A bar outside the lifecycle only refreshes the marks of what is open. */
  function IngestReferenceBar(o: Record, bar: Bar): Record {
    if !BarApplies(o, bar) then o
    else
      o.(current := bar.close, updatedAt := MaxTime(o.updatedAt, bar.timestamp),
         lastBarAt := Some(bar.timestamp), revision := o.revision + 1,
         legs := RefreshLegs(o.legs, bar.close), checkpoints := RefreshCheckpoints(o.checkpoints, bar.close))
  }

  // ---------------------------------------------------------------- reconciliation

  function Deadline(o: Record, leg: Leg): Time {
    leg.expiresAt.Or(o.expiresAt)
  }

  predicate LegExpires(o: Record, leg: Leg, now: Time) {
    now >= Deadline(o, leg) && !leg.status.Terminal()
  }

  /** Expired open legs close at their last mark, expired watching ones are dropped. */
  function KeepUnexpired(o: Record, legs: seq<Leg>, now: Time): (r: seq<Leg>)
    requires Entered(legs)
    ensures Entered(r)
  {
    if legs == [] then []
    else
      var rest := KeepUnexpired(o, legs[1..], now);
      if !LegExpires(o, legs[0], now) then [legs[0]] + rest
      else if legs[0].status.Watching? then rest
      else [CloseLeg(legs[0], legs[0].quote.current, now, Expired)] + rest
  }

  predicate SetupExpires(o: Record, setup: Option<string>, now: Time) {
    setup.Some? && exists i :: 0 <= i < |o.legs| && o.legs[i].setup == setup && LegExpires(o, o.legs[i], now)
  }

  function ExpireSetups(o: Record, now: Time): (r: seq<Checkpoint>)
    ensures |r| == |o.checkpoints|
  {
    seq(|o.checkpoints|, i requires 0 <= i < |o.checkpoints| =>
      var cp := o.checkpoints[i];
      if SetupExpires(o, cp.setup, now) then CloseCheckpoint(cp, cp.quote.current, now, Expired) else cp)
  }

  /** The latest deadline of what is still watching or open. */
  function LatestDeadline(o: Record, legs: seq<Leg>): Option<Time> {
    if legs == [] then None
    else
      var rest := LatestDeadline(o, legs[1..]);
      if legs[0].status.Terminal() then rest
      else if rest.None? || Deadline(o, legs[0]) >= rest.value then Some(Deadline(o, legs[0])) else rest
  }

  /** The record without its expired legs. */
  function WithoutExpired(o: Record, now: Time): (r: Record)
    requires Entered(o.legs)
    ensures Entered(r.legs)
  {
    o.(legs := KeepUnexpired(o, o.legs, now), checkpoints := ExpireSetups(o, now),
       updatedAt := MaxTime(o.updatedAt, now), revision := o.revision + 1)
  }

  predicate NothingExpires(o: Record, now: Time) {
    forall i :: 0 <= i < |o.legs| ==> !LegExpires(o, o.legs[i], now)
  }

  /** The record lives on until its latest remaining deadline, or closes when none remains. */
  function ExpireRecord(o: Record, expired: Record, now: Time): (r: Record)
    requires Entered(expired.legs)
  {
    match LatestDeadline(o, expired.legs)
    case None => CloseRecord(expired, o.current, now, ThesisExpired, Expired)
    case Some(deadline) => expired.(expiresAt := deadline)
  }

  /** Time and universe, applied even when no new analysis arrives. */
  function Reconcile(o: Record, now: Time, inUniverse: bool): (r: Record)
    requires Entered(o.legs)
  {
    if !inUniverse then CloseRecord(o, o.current, now, UniverseRemoved, TimeExit)
    else if NothingExpires(o, now) then o
    else ExpireRecord(o, WithoutExpired(o, now), now)
  }

  /** Reconciliation as it is saved: a change may not be published before the record. */
  function IngestReconciliation(o: Record, now: Time, inUniverse: bool): (r: Option<Record>)
    requires Entered(o.legs)
  {
    var next := Reconcile(o, now, inUniverse);
    if next == o then Some(o) else Reported(o, next, now)
  }
}
