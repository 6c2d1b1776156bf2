/** Whole runs of an opportunity: frozen results, the gate between L2 and L4, and what no event
    about one strategy family does to another. */
module Runs {
  import opened Market
  import opened Position
  import opened RecoveryExit
  import opened Analyses
  import opened Opportunity
  import opened Marking
  import opened Exits
  import opened Lifecycle
  import opened Results

  datatype Event =
    | OnAnalysis(result: Analysis, now: Time)
    | OnTransition(transition: Transition)
    | OnSignal(signal: Signal)
    | OnBar(bar: Bar)
    | OnReferenceBar(bar: Bar)
    | OnReconcile(now: Time, inUniverse: bool)

  /** What the event contracts guarantee: distinct horizons. */
  predicate Accepted(e: Event) {
    match e
    case OnTransition(t) => WellFormed(TransitionAdvancement(t, None, false))
    case OnSignal(s) => WellFormed(SignalAdvancement(s))
    case _ => true
  }

  predicate AllAccepted(events: seq<Event>) {
    forall i :: 0 <= i < |events| ==> Accepted(events[i])
  }

  /** One event on an active record; a refused step leaves the stored record as it was. */
  function Step(o: Record, n: nat, e: Event): Record
    requires Orderly(o, n)
  {
    if o.status.StatusClosed? then o
    else
      match e
      case OnAnalysis(result, now) => IngestAnalysis(o, result, now, n).Or(o)
      case OnTransition(t) => IngestTransition(o, t, n).Or(o)
      case OnSignal(s) => IngestSignal(o, s, n).Or(o)
      case OnBar(bar) => IngestBar(o, bar)
      case OnReferenceBar(bar) => IngestReferenceBar(o, bar)
      case OnReconcile(now, inUniverse) => IngestReconciliation(o, now, inUniverse).Or(o)
  }

  lemma StepEvolves(o: Record, n: nat, e: Event)
    requires Orderly(o, n) && Accepted(e)
    ensures Evolves(o, n, Step(o, n, e), n + IDS_PER_STEP)
  {
    EvolvesReflexive(o, n);
    MoreIds(o, n, o, n);
    match e
    case OnAnalysis(result, now) => IngestAnalysisEvolves(o, n, result, now);
    case OnTransition(t) => IngestTransitionEvolves(o, n, t);
    case OnSignal(s) => IngestSignalEvolves(o, n, s);
    case OnBar(bar) =>
      IngestBarEvolves(o, n, bar);
      MoreIds(o, n, IngestBar(o, bar), n);
    case OnReferenceBar(bar) =>
      IngestReferenceBarEvolves(o, n, bar);
      MoreIds(o, n, IngestReferenceBar(o, bar), n);
    case OnReconcile(now, inUniverse) =>
      ReconcileEvolves(o, n, now, inUniverse);
      MoreIds(o, n, Reconcile(o, now, inUniverse), n);
  }

  function Run(o: Record, n: nat, events: seq<Event>): (r: Record)
    requires Orderly(o, n) && AllAccepted(events)
    ensures Orderly(r, n + |events| * IDS_PER_STEP)
    decreases |events|
  {
    if events == [] then o
    else
      StepEvolves(o, n, events[0]);
      Run(Step(o, n, events[0]), n + IDS_PER_STEP, events[1..])
  }

  /** Over every run of events the record only evolves. */
  lemma {:induction false} RunEvolves(o: Record, n: nat, events: seq<Event>)
    requires Orderly(o, n) && AllAccepted(events)
    ensures Evolves(o, n, Run(o, n, events), n + |events| * IDS_PER_STEP)
    decreases |events|
  {
    EvolvesReflexive(o, n);
    if events != [] {
      var next := Step(o, n, events[0]);
      StepEvolves(o, n, events[0]);
      RunEvolves(next, n + IDS_PER_STEP, events[1..]);
      EvolvesTransitive(o, n, next, n + IDS_PER_STEP, Run(o, n, events), n + |events| * IDS_PER_STEP);
    }
  }

  /** The same result, still attached to the one leg of that id. */
  ghost predicate StillRealised(leg: Leg, legs: seq<Leg>) {
    && (exists j :: 0 <= j < |legs| && legs[j].id == leg.id)
    && (forall j :: 0 <= j < |legs| && legs[j].id == leg.id ==>
          legs[j].status == leg.status && legs[j].exit == leg.exit && legs[j].quote == leg.quote)
  }

  lemma RealisedLegStays(leg: Leg, a: seq<Leg>, n: nat, b: seq<Leg>)
    requires leg in a && leg.status.Terminal() && LegsEvolve(a, n, b) && IdsApart(b)
    ensures StillRealised(leg, b)
  {
    var i :| 0 <= i < |a| && a[i] == leg;
    assert HasSuccessor(a[i], b);
    var j :| 0 <= j < |b| && LegEvolves(leg, b[j]);
    assert b[j].id == leg.id;
  }

  /** Everything realised in `o` is realised in `r`, with the same result. */
  ghost predicate Frozen(o: Record, r: Record) {
    && (forall i :: 0 <= i < |o.legs| && o.legs[i].status.Terminal() ==> StillRealised(o.legs[i], r.legs))
    && |o.checkpoints| <= |r.checkpoints|
    && (forall i :: 0 <= i < |o.checkpoints| && o.checkpoints[i].closed ==>
          r.checkpoints[i].closed && r.checkpoints[i].exit == o.checkpoints[i].exit
          && r.checkpoints[i].outcome == o.checkpoints[i].outcome)
  }

  lemma EvolvesFreezes(o: Record, n: nat, r: Record, m: nat)
    requires Evolves(o, n, r, m)
    ensures Frozen(o, r)
  {
    forall i | 0 <= i < |o.legs| && o.legs[i].status.Terminal() ensures StillRealised(o.legs[i], r.legs) {
      RealisedLegStays(o.legs[i], o.legs, n, r.legs);
    }
    assert forall i :: 0 <= i < |o.checkpoints| ==> CheckpointEvolves(o.checkpoints[i], r.checkpoints[i]);
  }

  /** A realised result outlives every run: the one leg of its id has the same status, price, time and
      gain, and a closed checkpoint is the same at the same place. */
  lemma ResultsAreFrozen(o: Record, n: nat, events: seq<Event>)
    requires Orderly(o, n) && AllAccepted(events)
    ensures Frozen(o, Run(o, n, events))
  {
    RunEvolves(o, n, events);
    EvolvesFreezes(o, n, Run(o, n, events), n + |events| * IDS_PER_STEP);
  }

  /** No leg of a run's result was ever anything but an earlier state of itself, or is new. */
  lemma NothingIsReopened(o: Record, n: nat, events: seq<Event>, j: nat)
    requires Orderly(o, n) && AllAccepted(events)
    requires j < |Run(o, n, events).legs| && Run(o, n, events).legs[j].id < n
    ensures var leg := Run(o, n, events).legs[j];
            exists i :: 0 <= i < |o.legs| && o.legs[i].id == leg.id
                        && (leg.status.Watching? ==> o.legs[i].status.Watching?)
                        && (leg.status.Open? ==> !o.legs[i].status.Terminal())
  {
    RunEvolves(o, n, events);
    var leg := Run(o, n, events).legs[j];
    assert HasOrigin(leg, o.legs);
    var i :| 0 <= i < |o.legs| && LegEvolves(o.legs[i], leg);
    assert o.legs[i].id == leg.id;
  }

  // ---------------------------------------------------------------- the first record

  lemma OpenedFromTransitionIsOrderly(t: Transition, id: nat, n: nat)
    requires WellFormed(TransitionAdvancement(t, None, false))
    ensures OpenFromTransition(t, id, n).Some? ==>
              Orderly(OpenFromTransition(t, id, n).value, n + 2 * IDS_PER_STEP)
  {
    var o := NewWatchRecord(t, id, n);
    assert Orderly(o, n + 1);
    AdvanceEvolves(o, n + 1, TransitionAdvancement(t, None, false));
  }

  lemma OpenedFromSignalIsOrderly(s: Signal, id: nat, n: nat)
    requires WellFormed(SignalAdvancement(s))
    ensures OpenFromSignal(s, id, n).Some? ==> Orderly(OpenFromSignal(s, id, n).value, n + IDS_PER_STEP)
  {
    if s.zone.Some? {
      var a := SignalAdvancement(s);
      var legs := OpenHorizons([], a, s.zone.value.stop, n + 1);
      forall j | 0 <= j < |legs| ensures legs[j].Entered() && legs[j].id < n + IDS_PER_STEP {
        OpenHorizonsOrigin([], a, s.zone.value.stop, n + 1, j);
      }
      OpenHorizonsDistinct([], a, s.zone.value.stop, n + 1);
      OpenHorizonsApart([], a, s.zone.value.stop, n + 1);
    }
  }

  // ---------------------------------------------------------------- from L2 to L4

  /** Every recorded retest is strictly later than the entry it retests. */
  predicate RetestsFollowEntries(o: Record) {
    forall i :: 0 <= i < |o.checkpoints| && o.checkpoints[i].retest.at.Some? ==>
      o.checkpoints[i].retest.at.value > o.checkpoints[i].reachedAt
  }

  /** Core entries never stand above the peak maturity of their record. */
  predicate PeakCoversEntries(o: Record) {
    forall i :: 0 <= i < |o.checkpoints| && o.checkpoints[i].family.CoreEntry? ==>
      LevelRank(o.checkpoints[i].level) <= LevelRank(o.peakMaturity)
  }

  /** What the gate relies on. */
  predicate Gated(o: Record) {
    RetestsFollowEntries(o) && PeakCoversEntries(o)
  }

  predicate AwaitsReclaim(o: Record) {
    Anchor(o.checkpoints).Some? && LevelRank(o.peakMaturity) < LevelRank(L4)
  }

  /** The one way past the gate: an Intraday result later than a retest that was already on record,
      itself later than the entry, whose own stop and target bracket the price. */
  predicate ReclaimsWith(o: Record, e: Event) {
    && e.OnAnalysis? && e.result.horizon.Intraday? && e.result.asOf <= e.now
    && Anchor(o.checkpoints).Some?
    && var cp := o.checkpoints[Anchor(o.checkpoints).value];
       && cp.retest.at.Some? && cp.reachedAt < cp.retest.at.value < e.result.asOf
       && e.result.metrics.invalidationLevel.Some? && e.result.metrics.objectiveLevel.Some?
       && e.result.metrics.invalidationLevel.value < AnalysisPrice(o, e.result) < e.result.metrics.objectiveLevel.value
  }

  /** The lift leaves one more checkpoint: an L4 core entry at the price of the analysis, with the stop and
      the target that the analysis itself published. */
  predicate EntersAsPublished(o: Record, e: Event, r: Record) {
    && e.OnAnalysis?
    && |r.checkpoints| == |o.checkpoints| + 1
    && var cp := r.checkpoints[|o.checkpoints|];
       && cp.level.L4? && cp.family.CoreEntry? && cp.entry == AnalysisPrice(o, e.result)
       && Some(cp.stop) == e.result.metrics.invalidationLevel && cp.target == e.result.metrics.objectiveLevel
  }

  lemma AnchorSurvives(a: seq<Checkpoint>, b: seq<Checkpoint>)
    requires CheckpointsEvolve(a, b) && Anchor(a).Some?
    ensures Anchor(b).Some?
  {
    var i := Anchor(a).value;
    assert CheckpointEvolves(a[i], b[i]);
    assert IsAnchor(b[i]);
  }

  /** The gate's view of a record: its peak, and the entry and the retest of each checkpoint. */
  ghost predicate SameGate(o: Record, r: Record) {
    && r.peakMaturity == o.peakMaturity
    && |r.checkpoints| == |o.checkpoints|
    && forall i :: 0 <= i < |o.checkpoints| ==>
         r.checkpoints[i].retest == o.checkpoints[i].retest && r.checkpoints[i].reachedAt == o.checkpoints[i].reachedAt
  }

  lemma SameGateTransitive(a: Record, b: Record, c: Record)
    requires SameGate(a, b) && SameGate(b, c)
    ensures SameGate(a, c)
  {
  }

  lemma SameGateKeepsRetests(o: Record, r: Record)
    requires SameGate(o, r)
    ensures RetestsFollowEntries(o) ==> RetestsFollowEntries(r)
  {
  }

  lemma CoreExitsKeepMaturity(o: Record, e: Evidence)
    requires Entered(o.legs)
    ensures SameGate(o, CloseCoreEntries(o, e))
  {
    CloseSpokenLegsOnly(o, e);
  }

  lemma AnalyticalExitsKeepGate(active: Record, o: Record, result: Analysis, now: Time)
    requires Entered(o.legs)
    ensures SameGate(o, AnalyticalExits(active, o, result, now))
  {
    match FreshMark(Observations(active, result), now)
    case None =>
    case Some(mark) =>
      var breach, entry := BreachEvidence(mark, now), EntryEvidence(result, mark.1, now);
      var recovery := RecoveryEvidence(result, mark.1, now);
      var breached := CloseCoreEntries(o, breach);
      var entries := CloseCoreEntries(breached, entry);
      CoreExitsKeepMaturity(o, breach);
      CoreExitsKeepMaturity(breached, entry);
      CoreExitsKeepMaturity(entries, recovery);
      SameGateTransitive(o, breached, entries);
      SameGateTransitive(o, entries, CloseCoreEntries(entries, recovery));
  }

  lemma AnalyticalExitsKeepMaturity(active: Record, o: Record, result: Analysis, now: Time)
    requires Entered(o.legs)
    ensures var r := AnalyticalExits(active, o, result, now);
            && r.peakMaturity == o.peakMaturity
            && |r.checkpoints| == |o.checkpoints|
            && (RetestsFollowEntries(o) ==> RetestsFollowEntries(r))
  {
    AnalyticalExitsKeepGate(active, o, result, now);
    SameGateKeepsRetests(o, AnalyticalExits(active, o, result, now));
  }

  lemma {:induction false} DeferredExitsKeepMaturity(o: Record, results: seq<Analysis>, now: Time)
    requires Entered(o.legs)
    ensures var r := DeferredExits(o, results, now);
            && r.peakMaturity == o.peakMaturity
            && |r.checkpoints| == |o.checkpoints|
            && (RetestsFollowEntries(o) ==> RetestsFollowEntries(r))
    decreases |results|
  {
    if results != [] {
      AnalyticalExitsKeepMaturity(o, o, results[0], now);
      DeferredExitsKeepMaturity(AnalyticalExits(o, o, results[0], now), results[1..], now);
    }
  }

  lemma RetestKeepsOrder(o: Record, result: Analysis, price: Price, now: Time)
    requires RetestsFollowEntries(o) && result.asOf <= now
    ensures RetestsFollowEntries(RecordRetest(o, result, price, now).0)
    ensures RecordRetest(o, result, price, now).0.peakMaturity == o.peakMaturity
  {
  }

  /** The advancement of a reclaim appends its own checkpoint. */
  lemma ReclaimAppends(o: Record, result: Analysis, price: Price, now: Time, n: nat)
    requires PeakCoversEntries(o) && !o.peakMaturity.L4? && ReclaimLevels(result, price).Some?
    ensures var a := ReclaimAdvancement(result, price, now, ReclaimLevels(result, price).value);
            Advance(o, a, n).Some? ==>
              Advance(o, a, n).value.checkpoints == o.checkpoints + [AdvancedCheckpoint(o, a, n)]
  {
    assert !HasCheckpoint(o.checkpoints, L4, CoreEntry, None);
  }

  lemma RetestKeepsPeak(o: Record, result: Analysis, price: Price, now: Time)
    requires PeakCoversEntries(o)
    ensures PeakCoversEntries(RecordRetest(o, result, price, now).0)
    ensures |RecordRetest(o, result, price, now).0.checkpoints| == |o.checkpoints|
  {
  }

  /** What a lift by analysis needs, and what it leaves. */
  lemma AnalysisStepGate(o: Record, n: nat, result: Analysis, now: Time)
    requires Entered(o.legs) && Gated(o)
    ensures var r := AnalysisStep(o, result, now, n).Or(o);
            && RetestsFollowEntries(r)
            && (AwaitsReclaim(o) && r.peakMaturity.L4? ==>
                  ReclaimsWith(o, OnAnalysis(result, now)) && EntersAsPublished(o, OnAnalysis(result, now), r))
  {
    if result.asOf <= now && IsNews(o, result) {
      var price := AnalysisPrice(o, result);
      var noted := Noted(o, result, now);
      AnalyticalExitsKeepMaturity(o, noted, result, now);
      RetestKeepsOrder(noted, result, price, now);
      RetestKeepsPeak(noted, result, price, now);
      var retested := RecordRetest(noted, result, price, now).0;
      AnalyticalExitsKeepMaturity(o, retested, result, now);
      RetestIsNoReclaim(noted, result, price, now);
      var levels := ReclaimLevels(result, price);
      if levels.Some? {
        ReclaimKeepsOrder(retested, ReclaimAdvancement(result, price, now, levels.value), n);
        if AwaitsReclaim(o) {
          ReclaimAppends(retested, result, price, now, n);
        }
      }
    }
  }

  /** One analysis passes the gate only as a reclaim of a retest recorded before it, and then enters at its
      own stop and target. */
  lemma AnalysisGate(o: Record, n: nat, result: Analysis, now: Time)
    requires Entered(o.legs) && Gated(o)
    ensures var r := IngestAnalysis(o, result, now, n).Or(o);
            && RetestsFollowEntries(r)
            && (AwaitsReclaim(o) && r.peakMaturity.L4? ==>
                  ReclaimsWith(o, OnAnalysis(result, now)) && EntersAsPublished(o, OnAnalysis(result, now), r))
  {
    AnalysisStepGate(o, n, result, now);
    AnalysisRefusedExactly(o, result, now, n);
  }

  lemma ReclaimKeepsOrder(o: Record, a: Advancement, n: nat)
    requires RetestsFollowEntries(o)
    ensures RetestsFollowEntries(Advance(o, a, n).Or(o))
  {
    if Advance(o, a, n).Some? {
      AdvanceParts(o, a, n);
    }
  }

  lemma {:induction false} AnchorDependsOnTerms(a: seq<Checkpoint>, b: seq<Checkpoint>)
    requires |a| == |b| && forall i :: 0 <= i < |a| ==> (IsAnchor(a[i]) <==> IsAnchor(b[i]))
    ensures Anchor(a) == Anchor(b)
  {
    if a != [] && !IsAnchor(a[|a| - 1]) {
      AnchorDependsOnTerms(a[..|a| - 1], b[..|b| - 1]);
    }
  }

  /** A result that records the retest itself is not later than it, so it cannot confirm. */
  lemma RetestIsNoReclaim(o: Record, result: Analysis, price: Price, now: Time)
    requires result.asOf <= now
    ensures var r := RecordRetest(o, result, price, now).0;
            ReclaimConfirmed(r, result, price) ==>
              && Anchor(o.checkpoints) == Anchor(r.checkpoints) && r == o
  {
    var r := RecordRetest(o, result, price, now).0;
    AnchorDependsOnTerms(o.checkpoints, r.checkpoints);
  }

  lemma StepKeepsRetests(o: Record, n: nat, e: Event)
    requires Orderly(o, n) && Gated(o)
    ensures RetestsFollowEntries(Step(o, n, e))
    ensures AwaitsReclaim(o) && Step(o, n, e).peakMaturity.L4? ==>
              ReclaimsWith(o, e) && EntersAsPublished(o, e, Step(o, n, e))
  {
    if !o.status.StatusClosed? {
      match e
      case OnAnalysis(result, now) => AnalysisGate(o, n, result, now);
      case OnTransition(t) => TransitionGate(o, n, t);
      case OnSignal(s) => SignalGate(o, n, s);
      case OnBar(bar) => BarGate(o, bar);
      case OnReferenceBar(bar) =>
      case OnReconcile(now, inUniverse) => ReconcileGate(o, now, inUniverse);
    }
  }

  lemma ReconcileGate(o: Record, now: Time, inUniverse: bool)
    requires Entered(o.legs) && RetestsFollowEntries(o)
    ensures RetestsFollowEntries(Reconcile(o, now, inUniverse))
    ensures Reconcile(o, now, inUniverse).peakMaturity == o.peakMaturity
  {
  }

  /** New core entries stay under the peak, and old ones under a peak that never falls. */
  lemma StepKeepsPeak(o: Record, n: nat, e: Event)
    requires Orderly(o, n) && Accepted(e) && PeakCoversEntries(o)
    ensures PeakCoversEntries(Step(o, n, e))
  {
    var r := Step(o, n, e);
    StepEvolves(o, n, e);
    NewEntriesUnderPeak(o, n, e);
    forall i | 0 <= i < |r.checkpoints| && r.checkpoints[i].family.CoreEntry?
      ensures LevelRank(r.checkpoints[i].level) <= LevelRank(r.peakMaturity)
    {
      if i < |o.checkpoints| {
        assert CheckpointEvolves(o.checkpoints[i], r.checkpoints[i]);
      }
    }
  }

  ghost predicate NewUnderPeak(o: Record, r: Record) {
    forall i :: |o.checkpoints| <= i < |r.checkpoints| ==> LevelRank(r.checkpoints[i].level) <= LevelRank(r.peakMaturity)
  }

  lemma NothingNew(o: Record, r: Record)
    requires |r.checkpoints| <= |o.checkpoints|
    ensures NewUnderPeak(o, r)
  {
  }

  lemma AdvanceAddsUnderPeak(o: Record, a: Advancement, n: nat)
    requires Advance(o, a, n).Some?
    ensures NewUnderPeak(o, Advance(o, a, n).value)
  {
    AdvanceParts(o, a, n);
  }

  lemma TransitionAddsUnderPeak(o: Record, n: nat, t: Transition)
    requires Entered(o.legs)
    ensures NewUnderPeak(o, IngestTransition(o, t, n).Or(o))
  {
    NothingNew(o, o);
    if t.status.WatchInvalidated? || t.status.WatchExpired? {
      NothingNew(o, CloseCoreEntries(o, WatcherEvidence(t)));
    } else if Advance(o, TransitionAdvancement(t, Some(t.setup), true), n).Some? {
      AdvanceAddsUnderPeak(o, TransitionAdvancement(t, Some(t.setup), true), n);
    }
  }

  lemma SignalAddsUnderPeak(o: Record, n: nat, s: Signal)
    requires Entered(o.legs)
    ensures NewUnderPeak(o, IngestSignal(o, s, n).Or(o))
  {
    NothingNew(o, o);
    if Advance(o, SignalAdvancement(s), n).Some? {
      AdvanceAddsUnderPeak(o, SignalAdvancement(s), n);
    }
  }

  lemma ExitsAddNothing(o: Record, noted: Record, result: Analysis, now: Time)
    requires Entered(noted.legs) && |noted.checkpoints| == |o.checkpoints|
    ensures NewUnderPeak(o, AnalyticalExits(o, noted, result, now))
  {
    AnalyticalExitsKeepMaturity(o, noted, result, now);
    NothingNew(o, AnalyticalExits(o, noted, result, now));
  }

  lemma LiftAddsUnderPeak(o: Record, retested: Record, a: Advancement, n: nat)
    requires |retested.checkpoints| == |o.checkpoints| && Advance(retested, a, n).Some?
    ensures NewUnderPeak(o, Advance(retested, a, n).value)
  {
    AdvanceAddsUnderPeak(retested, a, n);
  }

  lemma AnalysisAddsUnderPeak(o: Record, n: nat, result: Analysis, now: Time)
    requires Entered(o.legs)
    ensures NewUnderPeak(o, AnalysisStep(o, result, now, n).Or(o))
  {
    var price := AnalysisPrice(o, result);
    var noted := Noted(o, result, now);
    var retested := RecordRetest(noted, result, price, now).0;
    NothingNew(o, o);
    ExitsAddNothing(o, noted, result, now);
    ExitsAddNothing(o, retested, result, now);
    var levels := ReclaimLevels(result, price);
    if levels.Some? && Advance(retested, ReclaimAdvancement(result, price, now, levels.value), n).Some? {
      LiftAddsUnderPeak(o, retested, ReclaimAdvancement(result, price, now, levels.value), n);
    }
  }

  lemma BarAddsNothing(o: Record, bar: Bar)
    requires Ready(o)
    ensures |IngestBar(o, bar).checkpoints| == |o.checkpoints|
  {
    if BarApplies(o, bar) {
      var stepped := BarStep(o, bar);
      BarStepAddsNothing(o, bar);
      DeferredExitsKeepMaturity(stepped, stepped.analyses, bar.timestamp);
    }
  }

  lemma BarStepAddsNothing(o: Record, bar: Bar)
    requires Ready(o)
    ensures |BarStep(o, bar).checkpoints| == |o.checkpoints|
  {
  }

  lemma ReconcileAddsNothing(o: Record, now: Time, inUniverse: bool)
    requires Entered(o.legs)
    ensures |Reconcile(o, now, inUniverse).checkpoints| == |o.checkpoints|
  {
  }

  lemma NewEntriesUnderPeak(o: Record, n: nat, e: Event)
    requires Orderly(o, n)
    ensures NewUnderPeak(o, Step(o, n, e))
  {
    NothingNew(o, o);
    match e
    case OnAnalysis(result, now) =>
      AnalysisAddsUnderPeak(o, n, result, now);
      AnalysisRefusedExactly(o, result, now, n);
    case OnTransition(t) => TransitionAddsUnderPeak(o, n, t);
    case OnSignal(s) => SignalAddsUnderPeak(o, n, s);
    case OnBar(bar) =>
      BarAddsNothing(o, bar);
      NothingNew(o, IngestBar(o, bar));
    case OnReferenceBar(bar) => NothingNew(o, IngestReferenceBar(o, bar));
    case OnReconcile(now, inUniverse) =>
      ReconcileAddsNothing(o, now, inUniverse);
      NothingNew(o, Reconcile(o, now, inUniverse));
  }

  /** The gate, event by event. */
  lemma StepGate(o: Record, n: nat, e: Event)
    requires Orderly(o, n) && Accepted(e) && Gated(o)
    ensures Gated(Step(o, n, e))
    ensures AwaitsReclaim(o) && Step(o, n, e).peakMaturity.L4? ==>
              ReclaimsWith(o, e) && EntersAsPublished(o, e, Step(o, n, e))
  {
    StepKeepsRetests(o, n, e);
    StepKeepsPeak(o, n, e);
  }

  lemma AdvanceGate(o: Record, n: nat, a: Advancement)
    requires RetestsFollowEntries(o) && Advance(o, a, n).Some?
    ensures RetestsFollowEntries(Advance(o, a, n).value)
    ensures AwaitsReclaim(o) && !a.level.L4? ==> !Advance(o, a, n).value.peakMaturity.L4?
  {
    AdvanceParts(o, a, n);
  }

  lemma TransitionGate(o: Record, n: nat, t: Transition)
    requires Entered(o.legs) && RetestsFollowEntries(o)
    ensures var r := IngestTransition(o, t, n).Or(o);
            RetestsFollowEntries(r) && (AwaitsReclaim(o) ==> !r.peakMaturity.L4?)
  {
    if t.status.WatchInvalidated? || t.status.WatchExpired? {
      CoreExitsKeepMaturity(o, WatcherEvidence(t));
      var closed := CloseCoreEntries(o, WatcherEvidence(t));
      assert RetestsFollowEntries(closed);
    } else {
      var a := TransitionAdvancement(t, Some(t.setup), true);
      if Advance(o, a, n).Some? {
        AdvanceGate(o, n, a);
      }
    }
  }

  lemma SignalGate(o: Record, n: nat, s: Signal)
    requires Entered(o.legs) && RetestsFollowEntries(o)
    ensures var r := IngestSignal(o, s, n).Or(o);
            RetestsFollowEntries(r) && (AwaitsReclaim(o) ==> !r.peakMaturity.L4?)
  {
    var a := SignalAdvancement(s);
    if Advance(o, a, n).Some? {
      AdvanceGate(o, n, a);
    }
  }

  lemma BarGate(o: Record, bar: Bar)
    requires Ready(o) && RetestsFollowEntries(o)
    ensures IngestBar(o, bar).peakMaturity == o.peakMaturity && RetestsFollowEntries(IngestBar(o, bar))
  {
    if BarApplies(o, bar) {
      var stepped := BarStep(o, bar);
      BarStepGate(o, bar);
      DeferredExitsKeepMaturity(stepped, stepped.analyses, bar.timestamp);
    }
  }

  lemma BarStepGate(o: Record, bar: Bar)
    requires Ready(o) && RetestsFollowEntries(o)
    ensures BarStep(o, bar).peakMaturity == o.peakMaturity && RetestsFollowEntries(BarStep(o, bar))
  {
    MarkedRetests(o, bar);
  }

  lemma MarkedRetests(o: Record, bar: Bar)
    requires Ready(o) && RetestsFollowEntries(o)
    ensures RetestsFollowEntries(MarkedByBar(o, bar))
  {
    var marked := MarkRecord(o, bar);
    forall i | 0 <= i < |o.checkpoints| ensures SameTerms(o.checkpoints[i], marked.checkpoints[i]) {
      MarkCheckpointKeepsTerms(o.checkpoints[i], bar);
    }
  }

  /** Somewhere in the run an event found the record waiting at its anchor, reclaimed it, and entered at the
      stop and target it published. */
  predicate ReclaimsDuring(o: Record, n: nat, events: seq<Event>)
    requires Orderly(o, n) && AllAccepted(events)
    decreases |events|
  {
    && events != []
    && ((AwaitsReclaim(o) && ReclaimsWith(o, events[0]) && EntersAsPublished(o, events[0], Step(o, n, events[0])))
        || (StepEvolves(o, n, events[0]);
            ReclaimsDuring(Step(o, n, events[0]), n + IDS_PER_STEP, events[1..])))
  }

  /** A waiting record either keeps waiting or has just been reclaimed. */
  lemma WaitingStep(o: Record, n: nat, e: Event, next: Record)
    requires Orderly(o, n) && Accepted(e) && Gated(o) && AwaitsReclaim(o)
    requires next == Step(o, n, e)
    ensures Gated(next)
    ensures AwaitsReclaim(next) || (ReclaimsWith(o, e) && EntersAsPublished(o, e, next))
  {
    StepGate(o, n, e);
    StepEvolves(o, n, e);
    StillWaiting(o, n, next);
  }

  lemma StillWaiting(o: Record, n: nat, next: Record)
    requires Evolves(o, n, next, n + IDS_PER_STEP) && AwaitsReclaim(o)
    ensures next.peakMaturity.L4? || AwaitsReclaim(next)
  {
    AnchorSurvives(o.checkpoints, next.checkpoints);
  }

  /** Over a run: a record waiting at its L2 anchor that ends at L4 passed through one event that
      reclaimed a retest recorded strictly earlier, and entered at that event's own stop and target. */
  lemma {:induction false} RunGate(o: Record, n: nat, events: seq<Event>)
    requires Orderly(o, n) && AllAccepted(events) && Gated(o)
    requires AwaitsReclaim(o) && Run(o, n, events).peakMaturity.L4?
    ensures ReclaimsDuring(o, n, events)
    decreases |events|
  {
    if events != [] {
      StepEvolves(o, n, events[0]);
      WaitingStep(o, n, events[0], Step(o, n, events[0]));
      if AwaitsReclaim(Step(o, n, events[0])) {
        RunGate(Step(o, n, events[0]), n + IDS_PER_STEP, events[1..]);
      }
    }
  }
}
