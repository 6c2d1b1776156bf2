/** The phases of a leg over events and runs: none turns terminal without having been open before. */
module Phases {
  import opened Market
  import opened Position
  import opened Analyses
  import opened Opportunity
  import opened Marking
  import opened Exits
  import opened Lifecycle
  import opened Results
  import opened Runs

  predicate EnteredIn(legs: seq<Leg>, id: nat) {
    exists i :: 0 <= i < |legs| && legs[i].id == id && !legs[i].status.Watching?
  }

  predicate OpenIn(legs: seq<Leg>, id: nat) {
    exists i :: 0 <= i < |legs| && legs[i].id == id && legs[i].status.Open?
  }

  predicate TerminalIn(legs: seq<Leg>, id: nat) {
    exists i :: 0 <= i < |legs| && legs[i].id == id && legs[i].status.Terminal()
  }

  /** Whatever has been entered after the step had been entered before it. */
  ghost predicate OnlyCloses(before: seq<Leg>, after: seq<Leg>) {
    forall j :: 0 <= j < |after| && !after[j].status.Watching? ==> EnteredIn(before, after[j].id)
  }

  /** Whatever is terminal after the step had been terminal before it. */
  ghost predicate OnlyOpens(before: seq<Leg>, after: seq<Leg>) {
    forall j :: 0 <= j < |after| && after[j].status.Terminal() ==> TerminalIn(before, after[j].id)
  }

  lemma ClosesNothing(legs: seq<Leg>)
    ensures OnlyCloses(legs, legs) && OnlyOpens(legs, legs)
  {
  }

  lemma OnlyClosesTransitive(a: seq<Leg>, b: seq<Leg>, c: seq<Leg>)
    requires OnlyCloses(a, b) && OnlyCloses(b, c)
    ensures OnlyCloses(a, c)
  {
    forall k | 0 <= k < |c| && !c[k].status.Watching? ensures EnteredIn(a, c[k].id) {
      var j :| 0 <= j < |b| && b[j].id == c[k].id && !b[j].status.Watching?;
      assert EnteredIn(a, b[j].id);
    }
  }

  lemma PointwiseOnlyCloses(before: seq<Leg>, after: seq<Leg>)
    requires |before| == |after|
    requires forall i :: 0 <= i < |before| ==> before[i].id == after[i].id
                                               && (before[i].status.Watching? ==> after[i].status.Watching?)
    ensures OnlyCloses(before, after)
  {
    forall j | 0 <= j < |after| && !after[j].status.Watching? ensures EnteredIn(before, after[j].id) {
      assert before[j].id == after[j].id && !before[j].status.Watching?;
    }
  }

  // ---------------------------------------------------------------- closing events

  lemma CoreExitsOnlyClose(o: Record, e: Evidence)
    requires Entered(o.legs)
    ensures OnlyCloses(o.legs, CloseCoreEntries(o, e).legs)
  {
    var after := CloseCoreEntries(o, e).legs;
    forall j | 0 <= j < |after| && !after[j].status.Watching? ensures EnteredIn(o.legs, after[j].id) {
      var i := CoreExitOrigin(o, e, j);
      assert o.legs[i].id == after[j].id && !o.legs[i].status.Watching?;
    }
  }

  lemma AnalyticalExitsOnlyClose(active: Record, o: Record, result: Analysis, now: Time)
    requires Entered(o.legs)
    ensures OnlyCloses(o.legs, AnalyticalExits(active, o, result, now).legs)
  {
    ClosesNothing(o.legs);
    match FreshMark(Observations(active, result), now)
    case None =>
    case Some(mark) =>
      var breach, entry := BreachEvidence(mark, now), EntryEvidence(result, mark.1, now);
      var recovery := RecoveryEvidence(result, mark.1, now);
      var breached := CloseCoreEntries(o, breach);
      var entries := CloseCoreEntries(breached, entry);
      CoreExitsOnlyClose(o, breach);
      CoreExitsOnlyClose(breached, entry);
      CoreExitsOnlyClose(entries, recovery);
      OnlyClosesTransitive(o.legs, breached.legs, entries.legs);
      OnlyClosesTransitive(o.legs, entries.legs, CloseCoreEntries(entries, recovery).legs);
  }

  lemma {:induction false} DeferredExitsOnlyClose(o: Record, results: seq<Analysis>, now: Time)
    requires Entered(o.legs)
    ensures OnlyCloses(o.legs, DeferredExits(o, results, now).legs)
    decreases |results|
  {
    ClosesNothing(o.legs);
    if results != [] {
      var next := AnalyticalExits(o, o, results[0], now);
      AnalyticalExitsOnlyClose(o, o, results[0], now);
      DeferredExitsOnlyClose(next, results[1..], now);
      OnlyClosesTransitive(o.legs, next.legs, DeferredExits(next, results[1..], now).legs);
    }
  }

  lemma CloseRecordOnlyCloses(o: Record, price: Price, now: Time, reason: CloseReason, status: LegStatus)
    requires Entered(o.legs)
    ensures OnlyCloses(o.legs, CloseRecord(o, price, now, reason, status).legs)
  {
    PointwiseOnlyCloses(o.legs, CloseLegs(o.legs, price, now, status));
  }

  lemma MarkingOnlyCloses(o: Record, bar: Bar)
    requires Ready(o)
    ensures OnlyCloses(o.legs, MarkLegs(o, bar))
  {
    forall i | 0 <= i < |o.legs|
      ensures o.legs[i].id == MarkLegs(o, bar)[i].id
      ensures o.legs[i].status.Watching? ==> MarkLegs(o, bar)[i].status.Watching?
    {
      MarkLegKeepsTerms(o, bar, o.legs[i]);
    }
    PointwiseOnlyCloses(o.legs, MarkLegs(o, bar));
  }

  lemma BarStepOnlyCloses(o: Record, bar: Bar)
    requires Ready(o)
    ensures OnlyCloses(o.legs, BarStep(o, bar).legs)
  {
    MarkedByBarEntered(o, bar);
    MarkingOnlyCloses(o, bar);
    if BreachesThesis(o, bar) {
      var held := HeldByBar(o, bar);
      CloseRecordOnlyCloses(held, MinPrice(o.stop, bar.open), bar.timestamp, OriginalThesisInvalidated, ThesisBroken);
      OnlyClosesTransitive(o.legs, held.legs, BarStep(o, bar).legs);
    } else {
      var updated := UpdatedByBar(o, bar);
      UpdatedOnlyCloses(o, bar);
      if LastHorizonClosed(updated) {
        CloseRecordOnlyCloses(updated, bar.close, bar.timestamp, AllHorizonsClosed, TimeExit);
        OnlyClosesTransitive(o.legs, updated.legs, BarStep(o, bar).legs);
      }
    }
  }

  lemma UpdatedOnlyCloses(o: Record, bar: Bar)
    requires Ready(o)
    ensures OnlyCloses(o.legs, UpdatedByBar(o, bar).legs)
  {
    MarkedByBarEntered(o, bar);
    MarkingOnlyCloses(o, bar);
    var marked := MarkLegs(o, bar);
    PointwiseOnlyCloses(marked, CloseSession(marked, bar));
    OnlyClosesTransitive(o.legs, marked, CloseSession(marked, bar));
  }

  lemma IngestBarOnlyCloses(o: Record, bar: Bar)
    requires Ready(o)
    ensures OnlyCloses(o.legs, IngestBar(o, bar).legs)
  {
    ClosesNothing(o.legs);
    if BarApplies(o, bar) {
      var stepped := BarStep(o, bar);
      BarStepOnlyCloses(o, bar);
      DeferredExitsOnlyClose(stepped, stepped.analyses, bar.timestamp);
      OnlyClosesTransitive(o.legs, stepped.legs, DeferredExits(stepped, stepped.analyses, bar.timestamp).legs);
    }
  }

  lemma ReferenceBarOnlyCloses(o: Record, bar: Bar)
    ensures OnlyCloses(o.legs, IngestReferenceBar(o, bar).legs)
  {
    ClosesNothing(o.legs);
    PointwiseOnlyCloses(o.legs, RefreshLegs(o.legs, bar.close));
  }

  lemma ReconcileOnlyCloses(o: Record, now: Time, inUniverse: bool)
    requires Entered(o.legs)
    ensures OnlyCloses(o.legs, Reconcile(o, now, inUniverse).legs)
  {
    ClosesNothing(o.legs);
    CloseRecordOnlyCloses(o, o.current, now, UniverseRemoved, TimeExit);
    var expired := WithoutExpired(o, now);
    forall j | 0 <= j < |expired.legs| && !expired.legs[j].status.Watching? ensures EnteredIn(o.legs, expired.legs[j].id) {
      var i := UnexpiredOrigin(o, o.legs, now, j);
      assert o.legs[i].id == expired.legs[j].id && !o.legs[i].status.Watching?;
    }
    CloseRecordOnlyCloses(expired, o.current, now, ThesisExpired, Expired);
    OnlyClosesTransitive(o.legs, expired.legs, CloseRecord(expired, o.current, now, ThesisExpired, Expired).legs);
  }

  // ---------------------------------------------------------------- opening events

  /** Opening horizons makes no leg terminal. */
  lemma OpenHorizonsTerminal(own: seq<Leg>, a: Advancement, default: Price, nextId: nat, j: nat)
    requires Entered(own) && j < |OpenHorizons(own, a, default, nextId)|
    requires OpenHorizons(own, a, default, nextId)[j].status.Terminal()
    ensures OpenHorizons(own, a, default, nextId)[j] in own
  {
    var entered := OpenedLegs(own, a.horizons, a, default, nextId);
    OtherUnscopedIsRest(own, a.horizons, own);
    ScopedIsFilter(own);
    if j < |entered| {
      OpenedLegAt(own, a.horizons, a, default, nextId, j);
    }
  }

  lemma AdvanceOnlyOpens(o: Record, a: Advancement, n: nat)
    requires Entered(o.legs) && Advance(o, a, n).Some?
    ensures OnlyOpens(o.legs, Advance(o, a, n).value.legs)
  {
    ClosesNothing(o.legs);
    AdvanceParts(o, a, n);
    OthersOnlyOpen(o, a.family);
    OwnOnlyOpen(o, a, n);
    var own := OwnedBy(o, o.legs, a.family);
    AppendedOnlyOpen(o.legs, NotOwnedBy(o, o.legs, a.family),
                     Labelled(OpenHorizons(own, a, o.stop, n + 1), a.family));
  }

  lemma AppendedOnlyOpen(before: seq<Leg>, a: seq<Leg>, b: seq<Leg>)
    requires OnlyOpens(before, a) && OnlyOpens(before, b)
    ensures OnlyOpens(before, a + b)
  {
  }

  lemma OthersOnlyOpen(o: Record, family: Family)
    ensures OnlyOpens(o.legs, NotOwnedBy(o, o.legs, family))
  {
    var others := NotOwnedBy(o, o.legs, family);
    OwnershipFilters(o, o.legs, family);
    forall j | 0 <= j < |others| && others[j].status.Terminal() ensures TerminalIn(o.legs, others[j].id) {
      assert others[j] in others;
      MemberIsTerminal(o.legs, others[j]);
    }
  }

  lemma OwnOnlyOpen(o: Record, a: Advancement, n: nat)
    requires Entered(o.legs)
    ensures OnlyOpens(o.legs, Labelled(OpenHorizons(OwnedBy(o, o.legs, a.family), a, o.stop, n + 1), a.family))
  {
    var own := OwnedBy(o, o.legs, a.family);
    var unlabelled := OpenHorizons(own, a, o.stop, n + 1);
    var mine := Labelled(unlabelled, a.family);
    OwnershipFilters(o, o.legs, a.family);
    OwnLegsShareFamily(o, a.family);
    forall k | 0 <= k < |mine| && mine[k].status.Terminal() ensures TerminalIn(o.legs, mine[k].id) {
      assert mine[k] == unlabelled[k].(family := Some(a.family));
      OpenHorizonsTerminal(own, a, o.stop, n + 1, k);
      MemberIsTerminal(o.legs, unlabelled[k]);
    }
  }

  lemma MemberIsTerminal(legs: seq<Leg>, leg: Leg)
    requires leg in legs && leg.status.Terminal()
    ensures TerminalIn(legs, leg.id)
  {
  }

  // ---------------------------------------------------------------- events and runs

  lemma AnalysisStepPhases(o: Record, n: nat, result: Analysis, now: Time)
    requires Entered(o.legs)
    ensures var after := AnalysisStep(o, result, now, n).Or(o).legs;
            OnlyCloses(o.legs, after) || OnlyOpens(o.legs, after)
  {
    ClosesNothing(o.legs);
    var price := AnalysisPrice(o, result);
    var noted := Noted(o, result, now);
    var retested := RecordRetest(noted, result, price, now).0;
    AnalyticalExitsOnlyClose(o, noted, result, now);
    AnalyticalExitsOnlyClose(o, retested, result, now);
    var levels := ReclaimLevels(result, price);
    if levels.Some? && Advance(retested, ReclaimAdvancement(result, price, now, levels.value), n).Some? {
      AdvanceOnlyOpens(retested, ReclaimAdvancement(result, price, now, levels.value), n);
    }
  }

  lemma TransitionPhases(o: Record, n: nat, t: Transition)
    requires Entered(o.legs)
    ensures var after := IngestTransition(o, t, n).Or(o).legs;
            OnlyCloses(o.legs, after) || OnlyOpens(o.legs, after)
  {
    ClosesNothing(o.legs);
    if t.status.WatchInvalidated? || t.status.WatchExpired? {
      CoreExitsOnlyClose(o, WatcherEvidence(t));
    } else if Advance(o, TransitionAdvancement(t, Some(t.setup), true), n).Some? {
      AdvanceOnlyOpens(o, TransitionAdvancement(t, Some(t.setup), true), n);
    }
  }

  lemma SignalPhases(o: Record, n: nat, s: Signal)
    requires Entered(o.legs)
    ensures OnlyOpens(o.legs, IngestSignal(o, s, n).Or(o).legs)
  {
    ClosesNothing(o.legs);
    if Advance(o, SignalAdvancement(s), n).Some? {
      AdvanceOnlyOpens(o, SignalAdvancement(s), n);
    }
  }

  /** One event either enters legs or closes them: no leg goes from watching to terminal in one step,
      and none is born terminal. */
  lemma StepPhases(o: Record, n: nat, e: Event)
    requires Orderly(o, n)
    ensures OnlyCloses(o.legs, Step(o, n, e).legs) || OnlyOpens(o.legs, Step(o, n, e).legs)
  {
    ClosesNothing(o.legs);
    match e
    case OnAnalysis(result, now) =>
      AnalysisStepPhases(o, n, result, now);
      AnalysisRefusedExactly(o, result, now, n);
    case OnTransition(t) => TransitionPhases(o, n, t);
    case OnSignal(s) => SignalPhases(o, n, s);
    case OnBar(bar) => IngestBarOnlyCloses(o, bar);
    case OnReferenceBar(bar) => ReferenceBarOnlyCloses(o, bar);
    case OnReconcile(now, inUniverse) => ReconcileOnlyCloses(o, now, inUniverse);
  }

  /** Every leg that is terminal after an event had been entered before it. */
  lemma TerminalWasEntered(o: Record, n: nat, e: Event, id: nat)
    requires Orderly(o, n) && TerminalIn(Step(o, n, e).legs, id)
    ensures OpenIn(o.legs, id) || TerminalIn(o.legs, id)
  {
    StepPhases(o, n, e);
    var after := Step(o, n, e).legs;
    var j :| 0 <= j < |after| && after[j].id == id && after[j].status.Terminal();
    if OnlyCloses(o.legs, after) {
      var i :| 0 <= i < |o.legs| && o.legs[i].id == after[j].id && !o.legs[i].status.Watching?;
    }
  }

  /** The leg is open in the record as it is before the run or after some prefix of it. */
  predicate OpenDuring(o: Record, n: nat, events: seq<Event>, id: nat)
    requires Orderly(o, n) && AllAccepted(events)
    decreases |events|
  {
    || OpenIn(o.legs, id)
    || (&& events != []
        && (StepEvolves(o, n, events[0]); OpenDuring(Step(o, n, events[0]), n + IDS_PER_STEP, events[1..], id)))
  }

  /** Over every run a leg goes from watching to open to terminal: one that is terminal at the end was
      terminal at the start, or was open on the way. */
  lemma {:induction false} TerminalWasOpen(o: Record, n: nat, events: seq<Event>, id: nat)
    requires Orderly(o, n) && AllAccepted(events) && TerminalIn(Run(o, n, events).legs, id)
    ensures TerminalIn(o.legs, id) || OpenDuring(o, n, events, id)
    decreases |events|
  {
    if events != [] {
      StepEvolves(o, n, events[0]);
      TerminalWasOpen(Step(o, n, events[0]), n + IDS_PER_STEP, events[1..], id);
      if TerminalIn(Step(o, n, events[0]).legs, id) {
        TerminalWasEntered(o, n, events[0], id);
      }
    }
  }
}
