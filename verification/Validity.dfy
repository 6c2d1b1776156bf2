/** The record's validators and the result envelope as invariants of every event, and so of every
    run over minute-aligned bars. */
module Validity {
  import opened Market
  import opened Position
  import opened RecoveryExit
  import opened Analyses
  import opened Opportunity
  import opened Marking
  import opened Envelope
  import opened Exits
  import opened Lifecycle
  import opened References
  import opened Results
  import opened Runs

  /** A confirmation counts whole minutes and falls due one minute after its last bar. */
  predicate OnTheMinute(cp: Checkpoint) {
    cp.recovery.Some? ==>
      && (cp.recovery.value.lastBarAt.Some? ==> cp.recovery.value.lastBarAt.value % MINUTE == 0)
      && (cp.recovery.value.pendingExitAt.Some? && cp.recovery.value.lastBarAt.Some? ==>
            cp.recovery.value.pendingExitAt.value <= cp.recovery.value.lastBarAt.value + MINUTE)
  }

  predicate KeyedApart(a: Checkpoint, b: Checkpoint) {
    a.level != b.level || a.st != b.st || a.ct != b.ct || a.family != b.family || a.setup != b.setup
  }

  /** The levels of a record; a SwingTrade may set its stop inside the zone, but below its reference price. */
  predicate LevelsInOrder(o: Record) {
    if o.primary.SwingTrade? then o.zoneLow <= o.zoneHigh && o.stop < o.originalPrice
    else o.stop < o.zoneLow <= o.zoneHigh
  }

  /** A leg that has never been entered. */
  predicate Quiet(leg: Leg) {
    leg.entry.None? && leg.openedAt.None?
  }

  predicate AllQuiet(legs: seq<Leg>) {
    forall i :: 0 <= i < |legs| ==> Quiet(legs[i])
  }

  predicate ObservedStage(stage: Option<CountertrendStage>) {
    stage.None? || stage.value.CT0? || stage.value.CT1?
  }

  predicate ObservedReferences(rs: seq<Reference>) {
    && rs != []
    && forall i :: 0 <= i < |rs| ==>
         rs[i].family.GeriCountertrend? && ObservedStage(rs[i].currentCt) && ObservedStage(rs[i].peakCt)
  }

  /** The one kind of record without a checkpoint: a countertrend under observation. */
  predicate ObservationOnly(o: Record) {
    && o.primary.GeriCountertrend?
    && !o.status.StatusOpen?
    && o.currentMaturity.Armed? && o.peakMaturity.Armed?
    && ObservedReferences(o.references)
    && AllQuiet(o.legs)
  }

  /** The validator of the record. */
  ghost predicate ValidRecord(o: Record) {
    && (o.checkpoints == [] ==> ObservationOnly(o))
    && Referenced(o.references)
    && LevelsInOrder(o)
    && (o.status.StatusClosed? <==> o.closedAt.Some? && o.closeReason.Some?)
    && (forall i, j :: 0 <= i < j < |o.checkpoints| ==> KeyedApart(o.checkpoints[i], o.checkpoints[j]))
  }

  /** Only legs scoped to a setup carry a deadline of their own. */
  predicate UnscopedNeverExpires(leg: Leg) {
    leg.setup.None? ==> leg.expiresAt.None?
  }

  ghost predicate Sound(o: Record) {
    && ValidRecord(o)
    && (forall i :: 0 <= i < |o.checkpoints| ==> SoundCheckpoint(o.checkpoints[i]) && OnTheMinute(o.checkpoints[i]))
    && (forall i :: 0 <= i < |o.legs| ==> SoundLeg(o.legs[i]) && UnscopedNeverExpires(o.legs[i]))
  }

  predicate SameKey(a: Checkpoint, b: Checkpoint) {
    a.level == b.level && a.st == b.st && a.ct == b.ct && a.family == b.family && a.setup == b.setup
  }

  /** What no event but a signal rewrites, and what an observation shows while it lasts. */
  predicate SameThesis(o: Record, r: Record) {
    && r.stop == o.stop && r.zoneLow == o.zoneLow && r.zoneHigh == o.zoneHigh
    && r.primary == o.primary && r.originalPrice == o.originalPrice && r.references == o.references
    && r.currentMaturity == o.currentMaturity && r.peakMaturity == o.peakMaturity
    && (r.status == o.status || r.status.StatusClosed?)
    && (AllQuiet(o.legs) ==> AllQuiet(r.legs))
  }

  lemma SameKeysStayApart(o: Record, r: Record)
    requires ValidRecord(o) && |r.checkpoints| == |o.checkpoints| && SameThesis(o, r)
    requires forall i :: 0 <= i < |o.checkpoints| ==> SameKey(o.checkpoints[i], r.checkpoints[i])
    requires r.status.StatusClosed? <==> r.closedAt.Some? && r.closeReason.Some?
    ensures ValidRecord(r)
  {
  }

  // ---------------------------------------------------------------- closing

  lemma CloseRecordSound(o: Record, price: Price, now: Time, reason: CloseReason, status: LegStatus)
    requires Sound(o) && status.Terminal()
    ensures Entered(o.legs) && Sound(CloseRecord(o, price, now, reason, status))
  {
    assert Entered(o.legs);
    var r := CloseRecord(o, price, now, reason, status);
    forall i | 0 <= i < |o.legs| ensures SoundLeg(r.legs[i]) && UnscopedNeverExpires(r.legs[i]) {
      CloseLegKeepsEnvelope(o.legs[i], price, now, status);
    }
    forall i | 0 <= i < |o.checkpoints|
      ensures SoundCheckpoint(r.checkpoints[i]) && OnTheMinute(r.checkpoints[i]) && SameKey(o.checkpoints[i], r.checkpoints[i])
    {
      CloseCheckpointSound(o.checkpoints[i], price, now, status);
    }
    SameKeysStayApart(o, r);
  }

  lemma CloseCheckpointSound(cp: Checkpoint, price: Price, now: Time, status: LegStatus)
    requires SoundCheckpoint(cp) && OnTheMinute(cp)
    ensures var r := CloseCheckpoint(cp, price, now, status);
            SoundCheckpoint(r) && OnTheMinute(r) && SameKey(cp, r)
  {
    CloseCheckpointKeepsEnvelope(cp, price, now, status);
  }

  lemma CloseSoundLeg(leg: Leg, price: Price, now: Time, status: LegStatus)
    requires SoundLeg(leg) && UnscopedNeverExpires(leg) && status.Terminal()
    ensures SoundLeg(CloseLeg(leg, price, now, status)) && UnscopedNeverExpires(CloseLeg(leg, price, now, status))
  {
    CloseLegKeepsEnvelope(leg, price, now, status);
  }

  lemma CoreExitsKeepThesis(o: Record, e: Evidence)
    requires Entered(o.legs)
    ensures SameThesis(o, CloseCoreEntries(o, e))
  {
    var r := CloseCoreEntries(o, e);
    CloseSpokenLegsOnly(o, e);
    if AllQuiet(o.legs) {
      forall j | 0 <= j < |r.legs| ensures Quiet(r.legs[j]) {
        var i := CoreExitOrigin(o, e, j);
        assert Quiet(o.legs[i]);
      }
    }
  }

  lemma CoreExitsSound(o: Record, e: Evidence)
    requires Sound(o) && e.status.Terminal()
    ensures Entered(o.legs) && Sound(CloseCoreEntries(o, e))
  {
    assert Entered(o.legs);
    var r := CloseCoreEntries(o, e);
    CloseSpokenLegsOnly(o, e);
    forall j | 0 <= j < |r.legs| ensures SoundLeg(r.legs[j]) && UnscopedNeverExpires(r.legs[j]) {
      var i := CoreExitOrigin(o, e, j);
      CloseSoundLeg(o.legs[i], e.price, e.now, e.status);
    }
    CoreExitsKeepThesis(o, e);
    forall i | 0 <= i < |o.checkpoints|
      ensures SoundCheckpoint(r.checkpoints[i]) && OnTheMinute(r.checkpoints[i]) && SameKey(o.checkpoints[i], r.checkpoints[i])
    {
      CloseCheckpointSound(o.checkpoints[i], e.price, e.now, e.status);
    }
    SameKeysStayApart(o, r);
  }

  lemma AnalyticalExitsSound(active: Record, o: Record, result: Analysis, now: Time)
    requires Sound(o)
    ensures Entered(o.legs) && Sound(AnalyticalExits(active, o, result, now))
  {
    assert Entered(o.legs);
    match FreshMark(Observations(active, result), now)
    case None =>
    case Some(mark) =>
      var breached := CloseCoreEntries(o, BreachEvidence(mark, now));
      CoreExitsSound(o, BreachEvidence(mark, now));
      var entries := CloseCoreEntries(breached, EntryEvidence(result, mark.1, now));
      CoreExitsSound(breached, EntryEvidence(result, mark.1, now));
      CoreExitsSound(entries, RecoveryEvidence(result, mark.1, now));
  }

  lemma {:induction false} DeferredExitsSound(o: Record, results: seq<Analysis>, now: Time)
    requires Sound(o)
    ensures Entered(o.legs) && Sound(DeferredExits(o, results, now))
    decreases |results|
  {
    assert Entered(o.legs);
    if results != [] {
      AnalyticalExitsSound(o, o, results[0], now);
      DeferredExitsSound(AnalyticalExits(o, o, results[0], now), results[1..], now);
    }
  }

  // ---------------------------------------------------------------- bars

  lemma AlignedBarIsTimely(cp: Checkpoint, bar: Bar)
    requires SoundCheckpoint(cp) && OnTheMinute(cp) && bar.timestamp % MINUTE == 0
    ensures Timely(cp, bar)
  {
    if cp.recovery.Some? && cp.recovery.value.pendingExitAt.Some? && bar.timestamp > cp.recovery.value.lastBarAt.value {
      NextWholeMinute(cp.recovery.value.lastBarAt.value, bar.timestamp);
    }
  }

  lemma NextWholeMinute(a: Time, b: Time)
    requires a % MINUTE == 0 && b % MINUTE == 0 && a < b
    ensures a + MINUTE <= b
  {
  }

  lemma MarkStaysOnTheMinute(cp: Checkpoint, bar: Bar)
    requires SoundCheckpoint(cp) && OnTheMinute(cp) && bar.timestamp % MINUTE == 0
    ensures OnTheMinute(MarkCheckpoint(cp, bar))
  {
    MarkCheckpointKeepsTerms(cp, bar);
    if cp.recovery.Some? {
      MarkedRecovery(cp, bar);
      AlignedBarIsTimely(cp, bar);
    }
  }

  lemma MarkedByBarSound(o: Record, bar: Bar)
    requires Sound(o) && bar.timestamp % MINUTE == 0
    ensures Ready(o) && Sound(MarkedByBar(o, bar))
  {
    assert Ready(o);
    var marked := MarkRecord(o, bar);
    forall i | 0 <= i < |o.checkpoints|
      ensures SoundCheckpoint(marked.checkpoints[i]) && OnTheMinute(marked.checkpoints[i])
              && SameKey(o.checkpoints[i], marked.checkpoints[i])
    {
      AlignedBarIsTimely(o.checkpoints[i], bar);
      MarkCheckpointSound(o.checkpoints[i], bar);
      MarkStaysOnTheMinute(o.checkpoints[i], bar);
      MarkCheckpointKeepsTerms(o.checkpoints[i], bar);
    }
    forall i | 0 <= i < |o.legs| ensures SoundLeg(marked.legs[i]) && UnscopedNeverExpires(marked.legs[i]) {
      MarkLegSound(o, bar, o.legs[i]);
      MarkLegKeepsTerms(o, bar, o.legs[i]);
    }
    SameKeysStayApart(o, marked);
    RetestSound(marked, bar);
  }

  lemma RetestSound(o: Record, bar: Bar)
    requires Sound(o)
    ensures Sound(RecordBarRetest(o, bar))
  {
    var r := RecordBarRetest(o, bar);
    assert forall i :: 0 <= i < |o.checkpoints| ==> SameKey(o.checkpoints[i], r.checkpoints[i]);
    SameKeysStayApart(o, r);
  }

  lemma SessionSound(legs: seq<Leg>, bar: Bar)
    requires forall i :: 0 <= i < |legs| ==> SoundLeg(legs[i]) && UnscopedNeverExpires(legs[i])
    ensures Entered(legs)
    ensures forall i :: 0 <= i < |legs| ==> SoundLeg(CloseSession(legs, bar)[i]) && UnscopedNeverExpires(CloseSession(legs, bar)[i])
  {
    assert Entered(legs);
    forall i | 0 <= i < |legs| ensures SoundLeg(CloseSession(legs, bar)[i]) && UnscopedNeverExpires(CloseSession(legs, bar)[i]) {
      CloseSoundLeg(legs[i], bar.close, bar.timestamp, SessionClosed);
    }
  }

  lemma BarStepSound(o: Record, bar: Bar)
    requires Sound(o) && !o.status.StatusClosed? && bar.timestamp % MINUTE == 0
    ensures Ready(o) && Sound(BarStep(o, bar))
  {
    MarkedByBarSound(o, bar);
    var marked := MarkedByBar(o, bar);
    if BreachesThesis(o, bar) {
      var held := HeldByBar(o, bar);
      SameKeysStayApart(marked, held);
      CloseRecordSound(held, MinPrice(o.stop, bar.open), bar.timestamp, OriginalThesisInvalidated, ThesisBroken);
    } else {
      var updated := UpdatedByBar(o, bar);
      SessionSound(marked.legs, bar);
      SameKeysStayApart(marked, updated);
      assert Sound(updated);
      if LastHorizonClosed(updated) {
        CloseRecordSound(updated, bar.close, bar.timestamp, AllHorizonsClosed, TimeExit);
      }
    }
  }

  lemma ReferenceBarSound(o: Record, bar: Bar)
    requires Sound(o)
    ensures Sound(IngestReferenceBar(o, bar))
  {
    if BarApplies(o, bar) {
      var r := IngestReferenceBar(o, bar);
      RefreshKeepsSound(o.legs, o.checkpoints, bar.close);
      SameKeysStayApart(o, r);
    }
  }

  lemma RefreshKeepsSound(legs: seq<Leg>, cps: seq<Checkpoint>, price: Price)
    requires forall i :: 0 <= i < |cps| ==> SoundCheckpoint(cps[i]) && OnTheMinute(cps[i])
    requires forall i :: 0 <= i < |legs| ==> SoundLeg(legs[i]) && UnscopedNeverExpires(legs[i])
    ensures forall i :: 0 <= i < |legs| ==> SoundLeg(RefreshLegs(legs, price)[i]) && UnscopedNeverExpires(RefreshLegs(legs, price)[i])
    ensures forall i :: 0 <= i < |cps| ==>
              var r := RefreshCheckpoints(cps, price)[i]; SoundCheckpoint(r) && OnTheMinute(r) && SameKey(cps[i], r)
  {
  }

  // ---------------------------------------------------------------- reconciliation

  lemma {:induction false} UnexpiredSound(o: Record, legs: seq<Leg>, now: Time)
    requires forall i :: 0 <= i < |legs| ==> SoundLeg(legs[i]) && UnscopedNeverExpires(legs[i])
    ensures Entered(legs)
    ensures forall i :: 0 <= i < |KeepUnexpired(o, legs, now)| ==>
              SoundLeg(KeepUnexpired(o, legs, now)[i]) && UnscopedNeverExpires(KeepUnexpired(o, legs, now)[i])
    ensures AllQuiet(legs) ==> AllQuiet(KeepUnexpired(o, legs, now))
  {
    assert Entered(legs);
    if legs != [] {
      UnexpiredSound(o, legs[1..], now);
      CloseSoundLeg(legs[0], legs[0].quote.current, now, Expired);
    }
  }

  lemma ReconcileSound(o: Record, now: Time, inUniverse: bool)
    requires Sound(o) && !o.status.StatusClosed?
    ensures Entered(o.legs) && Sound(Reconcile(o, now, inUniverse))
  {
    assert Entered(o.legs);
    if !inUniverse {
      CloseRecordSound(o, o.current, now, UniverseRemoved, TimeExit);
    } else if !NothingExpires(o, now) {
      var expired := WithoutExpired(o, now);
      UnexpiredSound(o, o.legs, now);
      forall i | 0 <= i < |o.checkpoints|
        ensures SoundCheckpoint(expired.checkpoints[i]) && OnTheMinute(expired.checkpoints[i])
                && SameKey(o.checkpoints[i], expired.checkpoints[i])
      {
        CloseCheckpointSound(o.checkpoints[i], o.checkpoints[i].quote.current, now, Expired);
      }
      SameKeysStayApart(o, expired);
      match LatestDeadline(o, expired.legs)
      case None => CloseRecordSound(expired, o.current, now, ThesisExpired, Expired);
      case Some(deadline) => SameKeysStayApart(o, expired.(expiresAt := deadline));
    }
  }

  // ---------------------------------------------------------------- advancing

  lemma {:induction false} OpenedLegsSound(legs: seq<Leg>, horizons: seq<Horizon>, a: Advancement, default: Price, n: nat)
    requires forall x :: x in legs ==> SoundLeg(x) && UnscopedNeverExpires(x)
    ensures forall i :: 0 <= i < |OpenedLegs(legs, horizons, a, default, n)| ==>
              var r := OpenedLegs(legs, horizons, a, default, n)[i]; SoundLeg(r) && UnscopedNeverExpires(r)
  {
    if horizons != [] {
      UnscopedLegIsMember(legs, horizons[0]);
      OpenedLegsSound(legs, horizons[1..], a, default, n + 1);
    }
  }

  lemma OpenHorizonsSound(own: seq<Leg>, a: Advancement, default: Price, n: nat)
    requires forall x :: x in own ==> SoundLeg(x) && UnscopedNeverExpires(x)
    ensures forall i :: 0 <= i < |OpenHorizons(own, a, default, n)| ==>
              var r := OpenHorizons(own, a, default, n)[i]; SoundLeg(r) && UnscopedNeverExpires(r)
  {
    OpenedLegsSound(own, a.horizons, a, default, n);
    OtherUnscopedIsRest(own, a.horizons, own);
    ScopedIsFilter(own);
    var other, scoped := OtherUnscoped(own, a.horizons, own), Scoped(own);
    assert forall i :: 0 <= i < |other| ==> other[i] in other;
    assert forall i :: 0 <= i < |scoped| ==> scoped[i] in scoped;
  }

  lemma EntryHorizonsSound(o: Record, a: Advancement, n: nat)
    requires Sound(o)
    ensures forall i :: 0 <= i < |OpenEntryHorizons(o, a, n)| ==>
              var r := OpenEntryHorizons(o, a, n)[i]; SoundLeg(r) && UnscopedNeverExpires(r)
  {
    var own, others := OwnedBy(o, o.legs, a.family), NotOwnedBy(o, o.legs, a.family);
    OwnershipFilters(o, o.legs, a.family);
    OpenHorizonsSound(own, a, o.stop, n);
    assert forall i :: 0 <= i < |others| ==> others[i] in others;
  }

  lemma AdvanceSound(o: Record, a: Advancement, n: nat)
    requires Sound(o) && !o.status.StatusClosed? && Advance(o, a, n).Some?
    ensures Sound(Advance(o, a, n).value)
  {
    var r := Advance(o, a, n).value;
    AdvanceParts(o, a, n);
    EntryHorizonsSound(o, a, n + 1);
    if r.checkpoints != o.checkpoints {
      var cp := AdvancedCheckpoint(o, a, n);
      assert cp.Valid() && AddsCheckpoint(o, a);
      forall i | 0 <= i < |o.checkpoints| ensures KeyedApart(o.checkpoints[i], cp) {
        assert !(o.checkpoints[i].level == a.level && o.checkpoints[i].family == a.family && o.checkpoints[i].setup == a.setup);
      }
      assert SoundCheckpoint(cp) && OnTheMinute(cp);
    }
    assert r.closedAt == o.closedAt && r.closeReason == o.closeReason && !r.status.StatusClosed?;
  }

  lemma NotedSound(o: Record, result: Analysis, price: Price, now: Time)
    requires Sound(o)
    ensures Sound(Noted(o, result, now)) && Sound(RecordRetest(Noted(o, result, now), result, price, now).0)
  {
    var noted := Noted(o, result, now);
    SameKeysStayApart(o, noted);
    var anchor := Anchor(noted.checkpoints);
    if anchor.Some? {
      SetRetestSound(noted, anchor.value, now, price);
    }
  }

  lemma SetRetestSound(o: Record, i: nat, at: Time, low: Price)
    requires Sound(o) && i < |o.checkpoints|
    ensures Sound(SetRetest(o, i, at, low))
  {
    var r := SetRetest(o, i, at, low);
    assert forall k :: 0 <= k < |o.checkpoints| ==> SameKey(o.checkpoints[k], r.checkpoints[k]);
    SameKeysStayApart(o, r);
  }

  lemma IngestAnalysisSound(o: Record, n: nat, result: Analysis, now: Time)
    requires Sound(o) && !o.status.StatusClosed?
    ensures Entered(o.legs) && Sound(IngestAnalysis(o, result, now, n).Or(o))
  {
    AnalysisStepSound(o, n, result, now);
    AnalysisRefusedExactly(o, result, now, n);
  }

  lemma AnalysisStepSound(o: Record, n: nat, result: Analysis, now: Time)
    requires Sound(o) && !o.status.StatusClosed?
    ensures Entered(o.legs) && Sound(AnalysisStep(o, result, now, n).Or(o))
  {
    assert Entered(o.legs);
    var price := AnalysisPrice(o, result);
    var noted := Noted(o, result, now);
    var retested := RecordRetest(noted, result, price, now).0;
    NotedSound(o, result, price, now);
    AnalyticalExitsSound(o, noted, result, now);
    AnalyticalExitsSound(o, retested, result, now);
    var levels := ReclaimLevels(result, price);
    if levels.Some? && Advance(retested, ReclaimAdvancement(result, price, now, levels.value), n).Some? {
      AdvanceSound(retested, ReclaimAdvancement(result, price, now, levels.value), n);
    }
  }

  lemma CursorSound(o: Record, cursor: Option<Cursor>)
    requires Sound(o)
    ensures Sound(o.(watcherCursor := cursor))
  {
    SameKeysStayApart(o, o.(watcherCursor := cursor));
  }

  lemma IngestTransitionSound(o: Record, n: nat, t: Transition)
    requires Sound(o) && !o.status.StatusClosed?
    ensures Entered(o.legs) && Sound(IngestTransition(o, t, n).Or(o))
  {
    assert Entered(o.legs);
    var cursor := Some(Cursor(t.occurredAt, t.id));
    if t.status.WatchInvalidated? || t.status.WatchExpired? {
      CoreExitsSound(o, WatcherEvidence(t));
      CursorSound(CloseCoreEntries(o, WatcherEvidence(t)), cursor);
    } else {
      var a := TransitionAdvancement(t, Some(t.setup), true);
      if Advance(o, a, n).Some? {
        AdvanceSound(o, a, n);
        CursorSound(Advance(o, a, n).value, cursor);
      }
    }
  }

  /** Capturing the evidence of a signal keeps the validators exactly when every checkpoint that
      receives a recovery state is a confirmed buy. */
  lemma CaptureKeepsValidators(o: Record, s: Signal)
    requires Sound(o)
    ensures Sound(CaptureEvidence(o, s)) <==>
            EntryRecovery(s, EligibleAnalyses(s, s.analyses)).None? ||
            forall i :: 0 <= i < |o.checkpoints| && Captures(o.checkpoints[i], s) ==> Confirmed(o.checkpoints[i].level)
  {
    var r := CaptureEvidence(o, s);
    var recovery := EntryRecovery(s, EligibleAnalyses(s, s.analyses));
    forall i | 0 <= i < |o.checkpoints|
      ensures SameKey(o.checkpoints[i], r.checkpoints[i])
      ensures SoundCheckpoint(r.checkpoints[i]) && OnTheMinute(r.checkpoints[i]) <==>
              !Captures(o.checkpoints[i], s) || recovery.None? || Confirmed(o.checkpoints[i].level)
    {
    }
    SameKeysStayApart(o, r);
  }

  /** No unconfirmed checkpoint shares the signal's setup and instant. */
  predicate CapturesConfirmed(o: Record, s: Signal) {
    forall i :: 0 <= i < |o.checkpoints| && Captures(o.checkpoints[i], s) ==> Confirmed(o.checkpoints[i].level)
  }

  /** Whether a signal gives a record under observation its first checkpoint. */
  predicate EndsObservation(s: Signal) {
    s.recovery || !s.maturity.Armed?
  }

  /** What a signal needs for the validators of the record it meets. */
  predicate Suits(o: Record, s: Signal) {
    && (EntryRecovery(s, EligibleAnalyses(s, s.analyses)).Some? ==> CapturesConfirmed(o, s))
    && NewTo(o.references, SignalReference(s))
    && (o.checkpoints == [] ==> EndsObservation(s))
  }

  lemma IngestSignalSound(o: Record, n: nat, s: Signal)
    requires Sound(o) && !o.status.StatusClosed? && Suits(o, s)
    ensures Entered(o.legs) && Sound(IngestSignal(o, s, n).Or(o))
  {
    assert Entered(o.legs);
    var a := SignalAdvancement(s);
    if Advance(o, a, n).Some? {
      AdvanceSound(o, a, n);
      if EntryRecovery(s, EligibleAnalyses(s, s.analyses)).Some? {
        AdvancedCapturesConfirmed(o, n, s);
      }
      FirstCheckpointArrives(o, n, s);
      ReplaceKeepsReferenced(o.references, SignalReference(s));
      CapturedSound(Advance(o, a, n).value, ReplaceReference(o.references, SignalReference(s)), s);
    }
  }

  /** A signal that is processed leaves no checkpoint exactly on a record under observation that it
      does not take out of it: an ARMED one of the core entry family. */
  lemma FirstCheckpointArrives(o: Record, n: nat, s: Signal)
    requires ValidRecord(o) && Advance(o, SignalAdvancement(s), n).Some?
    ensures Advance(o, SignalAdvancement(s), n).value.checkpoints == [] <==> o.checkpoints == [] && !EndsObservation(s)
  {
    if o.checkpoints == [] {
      assert !HasCheckpoint(o.checkpoints, s.maturity, SignalFamily(s), Some(s.setup));
    }
  }

  /** That signal puts a core reference on the observation, which its validator then refuses. */
  lemma ArmedSignalBreaksObservation(o: Record, n: nat, s: Signal)
    requires Sound(o) && !o.status.StatusClosed? && o.checkpoints == [] && NewTo(o.references, SignalReference(s))
    ensures Entered(o.legs)
    ensures IngestSignal(o, s, n).Some? ==>
              (Sound(IngestSignal(o, s, n).value) <==> EndsObservation(s))
    ensures !EndsObservation(s) && o.armedAt <= s.createdAt ==> IngestSignal(o, s, n).Some?
  {
    assert Entered(o.legs);
    NoCoreReference(o.references, SignalFamily(s), s.setup);
    if EndsObservation(s) {
      IngestSignalSound(o, n, s);
    } else {
      var references := ReplaceReference(o.references, SignalReference(s));
      assert !AddsCheckpoint(o, SignalAdvancement(s));
      FirstCheckpointArrives(o, n, s);
      assert references[|references| - 1] == SignalReference(s);
    }
  }

  lemma {:induction false} NoCoreReference(rs: seq<Reference>, family: Family, setup: string)
    requires ObservedReferences(rs) && !family.GeriCountertrend?
    ensures ReferenceFor(rs, family, setup) == None
  {
    if |rs| > 1 {
      NoCoreReference(rs[1..], family, setup);
    }
  }

  /** A signal that the record has already used, or that may not jump to L4. */
  predicate Passed(o: Record, s: Signal) {
    var existing := ReferenceFor(o.references, SignalFamily(s), s.setup);
    || (existing.Some? && !AdvancesSetup(existing.value, s))
    || (s.maturity.L4? && Anchor(o.checkpoints).Some? && LevelRank(o.peakMaturity) < LevelRank(L4))
  }

  /** What a caller can ask of record and signal beforehand: a new signal keeps the validators exactly when
      it is passed over, or it freezes no recovery on an unconfirmed checkpoint and, on an observation,
      brings the first checkpoint. */
  lemma SignalKeepsValidatorsExactly(o: Record, n: nat, s: Signal)
    requires Sound(o) && !o.status.StatusClosed? && NewTo(o.references, SignalReference(s))
    ensures Entered(o.legs)
    ensures IngestSignal(o, s, n).Some? ==>
              (Sound(IngestSignal(o, s, n).value) <==> Passed(o, s) || Suits(o, s))
  {
    assert Entered(o.legs);
    var a := SignalAdvancement(s);
    if Suits(o, s) {
      IngestSignalSound(o, n, s);
    } else if !Passed(o, s) && IngestSignal(o, s, n).Some? {
      if o.checkpoints == [] && !EndsObservation(s) {
        ArmedSignalBreaksObservation(o, n, s);
      } else {
        UnsuitableIsUnsound(o, n, s);
      }
    }
  }

  lemma UnsuitableIsUnsound(o: Record, n: nat, s: Signal)
    requires Sound(o) && !o.status.StatusClosed? && NewTo(o.references, SignalReference(s))
    requires !Passed(o, s) && !CapturesConfirmed(o, s) && EntryRecovery(s, EligibleAnalyses(s, s.analyses)).Some?
    requires Entered(o.legs) && IngestSignal(o, s, n).Some?
    ensures !Sound(IngestSignal(o, s, n).value)
  {
    var a := SignalAdvancement(s);
    var advanced := Advance(o, a, n).value;
    var referenced := advanced.(references := ReplaceReference(o.references, SignalReference(s)));
    AdvanceParts(o, a, n);
    var i :| 0 <= i < |o.checkpoints| && Captures(o.checkpoints[i], s) && !Confirmed(o.checkpoints[i].level);
    assert referenced.checkpoints[i] == o.checkpoints[i];
    assert IngestSignal(o, s, n).value == CaptureEvidence(referenced, s);
    assert !SoundCheckpoint(CaptureEvidence(referenced, s).checkpoints[i]);
  }

  /** The checkpoint that a signal with a recovery adds is a confirmed buy. */
  lemma AdvancedCapturesConfirmed(o: Record, n: nat, s: Signal)
    requires CapturesConfirmed(o, s) && Advance(o, SignalAdvancement(s), n).Some?
    requires EntryRecovery(s, EligibleAnalyses(s, s.analyses)).Some?
    ensures CapturesConfirmed(Advance(o, SignalAdvancement(s), n).value, s)
  {
    AdvanceParts(o, SignalAdvancement(s), n);
    assert Confirmed(s.maturity);
  }

  lemma CapturedSound(o: Record, references: seq<Reference>, s: Signal)
    requires Sound(o) && o.checkpoints != [] && Referenced(references)
    requires EntryRecovery(s, EligibleAnalyses(s, s.analyses)).Some? ==> CapturesConfirmed(o, s)
    ensures Sound(CaptureEvidence(o.(references := references), s))
  {
    var r := o.(references := references);
    assert Sound(r);
    CaptureKeepsValidators(r, s);
  }

  /** The records the first event opens are sound; the levels are ordered by their contracts. */
  lemma OpenedFromTransitionIsSound(t: Transition, id: nat, n: nat)
    requires t.stop < t.zoneLow <= t.zoneHigh
    ensures OpenFromTransition(t, id, n).Some? ==> Sound(OpenFromTransition(t, id, n).value)
  {
    var o := NewWatchRecord(t, id, n);
    assert Sound(o);
    var a := TransitionAdvancement(t, None, false);
    if Advance(o, a, n + 1).Some? {
      AdvanceSound(o, a, n + 1);
    }
  }

  lemma OpenedFromSignalIsSound(s: Signal, id: nat, n: nat)
    requires s.zone.Some? ==> s.zone.value.stop < s.zone.value.low <= s.zone.value.high
    ensures OpenFromSignal(s, id, n).Some? ==> Sound(OpenFromSignal(s, id, n).value)
  {
    if s.zone.Some? {
      OpenHorizonsSound([], SignalAdvancement(s), s.zone.value.stop, n + 1);
    }
  }

  // ---------------------------------------------------------------- events and runs

  /** What an event needs for the validators: whole-minute bars, and signals that suit the record. */
  predicate Regular(o: Record, e: Event) {
    match e
    case OnBar(bar) => bar.timestamp % MINUTE == 0
    case OnSignal(s) => Suits(o, s)
    case _ => true
  }

  lemma StepSound(o: Record, n: nat, e: Event)
    requires Orderly(o, n) && Sound(o) && Regular(o, e)
    ensures Sound(Step(o, n, e))
  {
    if !o.status.StatusClosed? {
      match e
      case OnAnalysis(result, now) => IngestAnalysisSound(o, n, result, now);
      case OnTransition(t) => IngestTransitionSound(o, n, t);
      case OnSignal(s) => IngestSignalSound(o, n, s);
      case OnBar(bar) =>
        if BarApplies(o, bar) {
          BarStepSound(o, bar);
          var stepped := BarStep(o, bar);
          DeferredExitsSound(stepped, stepped.analyses, bar.timestamp);
        }
      case OnReferenceBar(bar) => ReferenceBarSound(o, bar);
      case OnReconcile(now, inUniverse) => ReconcileSound(o, now, inUniverse);
    }
  }

  ghost predicate RegularRun(o: Record, n: nat, events: seq<Event>)
    requires Orderly(o, n) && AllAccepted(events)
    decreases |events|
  {
    events == [] ||
    (&& Regular(o, events[0])
     && (StepEvolves(o, n, events[0]); RegularRun(Step(o, n, events[0]), n + IDS_PER_STEP, events[1..])))
  }

  /** Over every regular run all validators and the envelope hold at the end as at the start. */
  lemma {:induction false} RunSound(o: Record, n: nat, events: seq<Event>)
    requires Orderly(o, n) && AllAccepted(events) && Sound(o) && RegularRun(o, n, events)
    ensures Sound(Run(o, n, events))
    decreases |events|
  {
    if events != [] {
      StepSound(o, n, events[0]);
      StepEvolves(o, n, events[0]);
      RunSound(Step(o, n, events[0]), n + IDS_PER_STEP, events[1..]);
    }
  }

  /** In particular every regular run from the record that a watcher event opened, under any ids left. */
  lemma RunFromTransitionSound(t: Transition, id: nat, n: nat, m: nat, events: seq<Event>)
    requires t.stop < t.zoneLow <= t.zoneHigh && OpenFromTransition(t, id, n).Some? && AllAccepted(events)
    requires Orderly(OpenFromTransition(t, id, n).value, m) && RegularRun(OpenFromTransition(t, id, n).value, m, events)
    ensures Sound(Run(OpenFromTransition(t, id, n).value, m, events))
  {
    OpenedFromTransitionIsSound(t, id, n);
    RunSound(OpenFromTransition(t, id, n).value, m, events);
  }

  /** And from the record that a core signal opened. */
  lemma RunFromSignalSound(s: Signal, id: nat, n: nat, m: nat, events: seq<Event>)
    requires s.zone.Some? && s.zone.value.stop < s.zone.value.low <= s.zone.value.high && AllAccepted(events)
    requires Orderly(OpenFromSignal(s, id, n).value, m) && RegularRun(OpenFromSignal(s, id, n).value, m, events)
    ensures Sound(Run(OpenFromSignal(s, id, n).value, m, events))
  {
    OpenedFromSignalIsSound(s, id, n);
    RunSound(OpenFromSignal(s, id, n).value, m, events);
  }
}
