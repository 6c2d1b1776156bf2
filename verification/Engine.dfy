/** The engine over its store: the loops that rewrite legs, and one method per event, each proved
    to leave in the store what the record functions say. */
module Engine {
  import opened Market
  import opened Position
  import opened RecoveryExit
  import opened Analyses
  import opened Opportunity
  import opened Marking
  import opened Exits
  import opened Lifecycle
  import opened References
  import opened Results
  import opened Runs

  // ---------------------------------------------------------------- loops over legs

  /** Resolve due recovery exits in place, then apply the protected marking of versions 19 to 22. */
  method MarkLegsForBar(o: Record, bar: Bar) returns (legs: seq<Leg>)
    requires Ready(o)
    ensures legs == MarkLegs(o, bar)
  {
    var resolved := o.legs;
    for i := 0 to |resolved|
      invariant |resolved| == |o.legs|
      invariant forall k :: 0 <= k < i ==> resolved[k] == ResolvePending(o, bar, o.legs[k])
      invariant forall k :: i <= k < |resolved| ==> resolved[k] == o.legs[k]
    {
      var decided := PendingMatch(o, bar, resolved[i], 0);
      if decided.Some? {
        PendingMatchDecides(o, bar, resolved[i], 0);
        PendingAlwaysCloses(decided.value, bar);
        var after := MarkCheckpoint(decided.value, bar);
        resolved := resolved[i := CloseLeg(resolved[i], after.exit.price.value, bar.timestamp, after.outcome.value)];
      }
    }
    legs := [];
    for i := 0 to |o.legs|
      invariant |legs| == i
      invariant forall k :: 0 <= k < i ==> legs[k] == MarkLeg(o, bar, o.legs[k])
    {
      var original := o.legs[i];
      var marked := if OwnedByCoreBuy(o, resolved[i]) then MarkLegProtected(resolved[i], bar)
                    else MarkLegGapAware(resolved[i], bar);
      if OwnedByCountertrendBuy(o, original) || OwnedBySwingTradeBuy(o, original) {
        marked := MarkLegProtected(original, bar);
      }
      legs := legs + [marked];
    }
  }

  /** Close a leg the evidence speaks of, drop it if it was only watching, keep any other. */
  method CloseIfSpoken(o: Record, e: Evidence, leg: Leg) returns (kept: seq<Leg>)
    requires leg.Entered()
    ensures kept == AfterEvidence(o, e, leg)
  {
    kept := [];
    var spoken := SpeaksOfLeg(o, e, leg);
    if spoken && leg.status.Open? {
      kept := [CloseLeg(leg, e.price, e.now, e.status)];
    } else if !(spoken && leg.status.Watching?) {
      kept := [leg];
    }
  }

  method CloseSpokenInLoop(o: Record, e: Evidence) returns (legs: seq<Leg>)
    requires Entered(o.legs)
    ensures legs == CloseSpokenLegs(o, e, o.legs)
  {
    legs := [];
    ghost var all := CloseSpokenLegs(o, e, o.legs);
    ghost var rest := all;
    assert o.legs[0..] == o.legs;
    for i := 0 to |o.legs|
      invariant rest == CloseSpokenLegs(o, e, o.legs[i..]) && legs + rest == all
    {
      SpokenStep(o, e, o.legs, i);
      rest := CloseSpokenLegs(o, e, o.legs[i + 1..]);
      var kept := CloseIfSpoken(o, e, o.legs[i]);
      assert legs + (kept + rest) == (legs + kept) + rest;
      legs := legs + kept;
    }
    assert legs + [] == legs;
  }

  /** The dictionary holds the leg that speaks for each horizon. */
  ghost predicate SpeaksFor(byHorizon: map<Horizon, Leg>, legs: seq<Leg>) {
    forall h: Horizon :: UnscopedLeg(legs, h) == if h in byHorizon then Some(byHorizon[h]) else None
  }

  lemma SpeaksForMore(byHorizon: map<Horizon, Leg>, legs: seq<Leg>, i: nat)
    requires i < |legs| && SpeaksFor(byHorizon, legs[..i])
    ensures SpeaksFor(if legs[i].setup.None? then byHorizon[legs[i].horizon := legs[i]] else byHorizon, legs[..i + 1])
  {
    assert legs[..i + 1][..i] == legs[..i];
  }

  /** The dictionary of unscoped legs: a later leg replaces an earlier one of its horizon. */
  method ByHorizon(legs: seq<Leg>) returns (byHorizon: map<Horizon, Leg>)
    ensures SpeaksFor(byHorizon, legs)
  {
    byHorizon := map[];
    for i := 0 to |legs|
      invariant SpeaksFor(byHorizon, legs[..i])
    {
      SpeaksForMore(byHorizon, legs, i);
      if legs[i].setup.None? {
        byHorizon := byHorizon[legs[i].horizon := legs[i]];
      }
    }
    assert legs[..|legs|] == legs;
  }

  /** The leg of one requested horizon, entered now if it was watching. */
  function Enter(leg: Leg, a: Advancement, default: Price): Leg {
    if leg.status.Watching? then OpenLeg(leg, a.now, a.price, a.stop.Or(default), a.target) else leg
  }

  lemma OpenedStep(legs: seq<Leg>, a: Advancement, default: Price, nextId: nat, k: nat)
    requires k < |a.horizons|
    ensures var leg := UnscopedLeg(legs, a.horizons[k]).Or(WatchingLeg(nextId + k, a.horizons[k], a.price, default));
            OpenedLegs(legs, a.horizons[k..], a, default, nextId + k)
            == [Enter(leg, a, default)] + OpenedLegs(legs, a.horizons[k + 1..], a, default, nextId + k + 1)
  {
    assert a.horizons[k..][0] == a.horizons[k] && a.horizons[k..][1..] == a.horizons[k + 1..];
  }

  lemma OneMoreLeg(entered: seq<Leg>, leg: Leg, rest: seq<Leg>)
    ensures entered + ([leg] + rest) == (entered + [leg]) + rest
  {
  }

  /** Open the requested horizons over that dictionary. */
  method OpenHorizonsInLoop(legs: seq<Leg>, a: Advancement, default: Price, nextId: nat) returns (entered: seq<Leg>)
    ensures entered == OpenedLegs(legs, a.horizons, a, default, nextId)
  {
    var byHorizon := ByHorizon(legs);
    entered := [];
    ghost var all := OpenedLegs(legs, a.horizons, a, default, nextId);
    ghost var rest := all;
    assert a.horizons[0..] == a.horizons;
    for k := 0 to |a.horizons|
      invariant rest == OpenedLegs(legs, a.horizons[k..], a, default, nextId + k) && entered + rest == all
    {
      var h := a.horizons[k];
      var existing := if h in byHorizon then byHorizon[h] else WatchingLeg(nextId + k, h, a.price, default);
      OpenedStep(legs, a, default, nextId, k);
      rest := OpenedLegs(legs, a.horizons[k + 1..], a, default, nextId + k + 1);
      OneMoreLeg(entered, Enter(existing, a, default), rest);
      entered := entered + [Enter(existing, a, default)];
    }
    assert entered + [] == entered;
  }

  lemma ExpiryStep(o: Record, now: Time, i: nat)
    requires Entered(o.legs) && i < |o.legs|
    ensures var leg, rest := o.legs[i], KeepUnexpired(o, o.legs[i + 1..], now);
            KeepUnexpired(o, o.legs[i..], now)
            == if !LegExpires(o, leg, now) then [leg] + rest
               else if leg.status.Watching? then rest
               else [CloseLeg(leg, leg.quote.current, now, Expired)] + rest
  {
    assert o.legs[i..][0] == o.legs[i] && o.legs[i..][1..] == o.legs[i + 1..];
  }

  /** Close the Intraday legs at the end of the session. */
  method CloseSessionInLoop(legs: seq<Leg>, bar: Bar) returns (remaining: seq<Leg>)
    requires Entered(legs)
    ensures remaining == CloseSession(legs, bar)
  {
    remaining := [];
    for i := 0 to |legs|
      invariant remaining == CloseSession(legs, bar)[..i]
    {
      var leg := legs[i];
      if leg.horizon.Intraday? && leg.status.Open? {
        remaining := remaining + [CloseLeg(leg, bar.close, bar.timestamp, SessionClosed)];
      } else {
        remaining := remaining + [leg];
      }
    }
  }

  /** Expire legs one by one. */
  method KeepUnexpiredInLoop(o: Record, now: Time) returns (legs: seq<Leg>)
    requires Entered(o.legs)
    ensures legs == KeepUnexpired(o, o.legs, now)
  {
    legs := [];
    for i := 0 to |o.legs|
      invariant legs + KeepUnexpired(o, o.legs[i..], now) == KeepUnexpired(o, o.legs, now)
    {
      var leg := o.legs[i];
      ghost var rest := KeepUnexpired(o, o.legs[i + 1..], now);
      ExpiryStep(o, now, i);
      if !LegExpires(o, leg, now) {
        assert legs + ([leg] + rest) == (legs + [leg]) + rest;
        legs := legs + [leg];
      } else if leg.status.Open? {
        var closed := CloseLeg(leg, leg.quote.current, now, Expired);
        assert legs + ([closed] + rest) == (legs + [closed]) + rest;
        legs := legs + [closed];
      }
    }
  }

  // ---------------------------------------------------------------- the store

  predicate IsActive(opportunities: map<nat, Record>, id: nat, symbol: string) {
    id in opportunities && opportunities[id].symbol == Upper(symbol) && !opportunities[id].status.StatusClosed?
  }

  /** Each symbol the store can be asked for has at most one active record. */
  ghost predicate OneActive(opportunities: map<nat, Record>) {
    forall a, b, symbol: string :: IsActive(opportunities, a, symbol) && IsActive(opportunities, b, symbol) ==> a == b
  }

  lemma SavingKeepsOneActive(opportunities: map<nat, Record>, o: Record)
    requires OneActive(opportunities)
    requires forall id :: IsActive(opportunities, id, o.symbol) ==> id == o.id
    ensures OneActive(opportunities[o.id := o])
  {
    var after := opportunities[o.id := o];
    forall a, b, symbol: string | IsActive(after, a, symbol) && IsActive(after, b, symbol) ensures a == b {
      UpperIdempotent(symbol);
      if a == o.id || b == o.id {
        assert o.symbol == Upper(symbol);
        assert IsActive(opportunities, a, o.symbol) || a == o.id;
        assert IsActive(opportunities, b, o.symbol) || b == o.id;
      } else {
        assert IsActive(opportunities, a, symbol) && IsActive(opportunities, b, symbol);
      }
    }
  }

  /** The event log after a save: an event id is recorded once. */
  function EventsAfter(events: seq<nat>, event: Option<nat>): seq<nat> {
    if event.None? || event.value in events then events else events + [event.value]
  }

  class OpportunityStore {
    var opportunities: map<nat, Record>
    var events: seq<nat>

    constructor ()
      ensures Valid() && opportunities == map[] && events == []
    {
      opportunities, events := map[], [];
    }

    /** Records sit under their own id, one active per symbol, and no event id is recorded twice. */
    ghost predicate Valid()
      reads this
    {
      && (forall id :: id in opportunities ==> opportunities[id].id == id)
      && OneActive(opportunities)
      && (forall i, j :: 0 <= i < j < |events| ==> events[i] != events[j])
    }

    /** The latest active record of the normalised symbol; the store never holds two. */
    method LoadActive(symbol: string) returns (r: Option<Record>)
      requires Valid()
      ensures r.None? ==> forall id :: !IsActive(opportunities, id, symbol)
      ensures r.Some? ==> IsActive(opportunities, r.value.id, symbol) && opportunities[r.value.id] == r.value
      ensures r.Some? ==> forall id :: IsActive(opportunities, id, symbol) ==> id == r.value.id
    {
      var ids := opportunities.Keys;
      r := None;
      while ids != {}
        invariant ids <= opportunities.Keys
        invariant r.None? ==> forall id :: IsActive(opportunities, id, symbol) ==> id in ids
        invariant r.Some? ==> IsActive(opportunities, r.value.id, symbol) && opportunities[r.value.id] == r.value
        decreases ids
      {
        var id :| id in ids;
        if opportunities[id].symbol == Upper(symbol) && !opportunities[id].status.StatusClosed? {
          if r.None? || opportunities[id].updatedAt > r.value.updatedAt {
            r := Some(opportunities[id]);
          }
        }
        ids := ids - {id};
      }
    }

    /** Saving refuses a second active record for the symbol, and records each event once. */
    method Save(o: Record, event: Option<nat>) returns (saved: bool)
      requires Valid()
      modifies this
      ensures Valid()
      ensures saved <==> forall id :: IsActive(old(opportunities), id, o.symbol) ==> id == o.id
      ensures saved ==> opportunities == old(opportunities)[o.id := o]
      ensures saved ==> events == EventsAfter(old(events), event)
      ensures !saved ==> opportunities == old(opportunities) && events == old(events)
    {
      var active := LoadActive(o.symbol);
      if active.Some? && active.value.id != o.id {
        assert IsActive(opportunities, active.value.id, o.symbol);
        return false;
      }
      assert forall id :: IsActive(opportunities, id, o.symbol) ==> id == o.id;
      SavingKeepsOneActive(opportunities, o);
      opportunities := opportunities[o.id := o];
      if event.Some? && event.value !in events {
        events := events + [event.value];
      }
      saved := true;
    }
  }

  // ---------------------------------------------------------------- the engine

  /** Orderly records stay orderly when more ids are handed out. */
  lemma OrderlyGrows(o: Record, n: nat, m: nat)
    requires Orderly(o, n) && n <= m
    ensures Orderly(o, m)
  {
  }

  lemma ActiveIsTheOnlyOne(opportunities: map<nat, Record>, o: Record, symbol: string)
    requires OneActive(opportunities) && IsActive(opportunities, o.id, symbol) && opportunities[o.id] == o
    ensures o.symbol == Upper(o.symbol)
    ensures forall id :: IsActive(opportunities, id, o.symbol) ==> id == o.id
  {
    UpperIdempotent(symbol);
    forall id | IsActive(opportunities, id, o.symbol) ensures id == o.id {
      assert IsActive(opportunities, id, symbol);
    }
  }

  /** The step of one candle is a later state of the record, with the same provenance. */
  lemma BarStepIsNext(o: Record, n: nat, bar: Bar, events: seq<nat>)
    requires Orderly(o, n) && BarApplies(o, bar) && Provenanced(o.references, events)
    ensures var stepped := BarStep(o, bar);
            && Evolves(o, n, stepped, n) && stepped.id == o.id && Provenanced(stepped.references, events)
            && Lifecycle.IngestBar(o, bar)
               == if stepped.status.StatusClosed? || bar.timestamp < o.updatedAt then stepped
                  else DeferredExits(stepped, stepped.analyses, bar.timestamp)
  {
    BarStepEvolves(o, n, bar);
    BarStepKeepsReferences(o, bar);
  }

  class OpportunityEngine {
    const store: OpportunityStore
    const allowExtendedHours: bool
    var nextId: nat
    var nextRecord: nat

    constructor (store: OpportunityStore, allowExtendedHours: bool)
      requires store.Valid() && store.opportunities == map[]
      ensures this.store == store && Valid()
    {
      this.store := store;
      this.allowExtendedHours := allowExtendedHours;
      nextId, nextRecord := 0, 0;
    }

    /** Every stored record is orderly under the ids handed out so far, and its references satisfy
        their validator and come from signals whose events are on record. */
    ghost predicate Valid()
      reads this, store
    {
      && store.Valid()
      && (forall id :: id in store.opportunities ==>
            && id < nextRecord && Orderly(store.opportunities[id], nextId)
            && Provenanced(store.opportunities[id].references, store.events))
    }

    /** The record is the one active record of its symbol, as stored. */
    ghost predicate Holds(o: Record)
      reads this, store
    {
      && o.id in store.opportunities && store.opportunities[o.id] == o
      && forall id :: IsActive(store.opportunities, id, o.symbol) ==> id == o.id
    }

    /** Store a later state of a record under its id. */
    method Replace(o: Record, r: Record, m: nat, event: Option<nat>)
      requires Valid() && Holds(o) && Evolves(o, nextId, r, m)
      requires Provenanced(r.references, EventsAfter(store.events, event))
      modifies this`nextId, store
      ensures Valid() && Holds(r) && nextId == m
      ensures store.opportunities == old(store.opportunities)[o.id := r]
      ensures store.events == EventsAfter(old(store.events), event)
    {
      forall id | id in store.opportunities
        ensures Orderly(store.opportunities[id], m)
        ensures Provenanced(store.opportunities[id].references, EventsAfter(store.events, event))
      {
        OrderlyGrows(store.opportunities[id], nextId, m);
      }
      nextId := m;
      ghost var before := store.opportunities;
      var saved := store.Save(r, event);
      forall id | IsActive(store.opportunities, id, r.symbol) ensures id == r.id {
        assert id != r.id ==> IsActive(before, id, o.symbol);
      }
    }

    /** Store the first state of a record under a new id, unless the symbol already has one. */
    method Open(r: Record, m: nat, event: nat) returns (saved: bool)
      requires Valid() && nextId <= m && r.id == nextRecord && Orderly(r, m)
      requires Provenanced(r.references, EventsAfter(store.events, Some(event)))
      modifies this`nextId, this`nextRecord, store
      ensures Valid()
      ensures saved <==> forall id :: !IsActive(old(store.opportunities), id, r.symbol)
      ensures saved ==> store.opportunities == old(store.opportunities)[r.id := r] && event in store.events
      ensures !saved ==> store.opportunities == old(store.opportunities)
    {
      forall id | id in store.opportunities
        ensures Orderly(store.opportunities[id], m) && id != r.id
        ensures Provenanced(store.opportunities[id].references, EventsAfter(store.events, Some(event)))
      {
        OrderlyGrows(store.opportunities[id], nextId, m);
      }
      saved := store.Save(r, Some(event));
      nextId, nextRecord := m, nextRecord + 1;
    }

    /** One bar: a completed minute of the regular session, or of any when extended hours are allowed. */
    method IngestBar(symbol: string, bar: Bar, isFinal: bool, oneMinute: bool, inSession: bool)
      returns (active: Option<Record>)
      requires Valid()
      modifies this`nextId, store
      ensures Valid() && store.events == old(store.events)
      ensures active.Some? ==> IsActive(old(store.opportunities), active.value.id, symbol)
                               && old(store.opportunities)[active.value.id] == active.value
                               && Ready(active.value)
                               && store.opportunities
                                  == old(store.opportunities)[active.value.id := Lifecycle.IngestBar(active.value, bar)]
      ensures active.None? ==> store.opportunities == old(store.opportunities)
      ensures active.None? <==> !isFinal || !oneMinute || (!allowExtendedHours && !inSession)
                                || forall id :: !IsActive(old(store.opportunities), id, symbol)
    {
      if !isFinal || !oneMinute || (!allowExtendedHours && !inSession) {
        return None;
      }
      active := store.LoadActive(symbol);
      if active.None? {
        return;
      }
      var o := active.value;
      ActiveIsTheOnlyOne(store.opportunities, o, symbol);
      if BarApplies(o, bar) {
        ApplyBar(o, bar);
      } else {
        assert store.opportunities == store.opportunities[o.id := o];
      }
    }

    /** One candle on the active record, and the analytical exits deferred to it. */
    method ApplyBar(o: Record, bar: Bar)
      requires Valid() && Holds(o) && BarApplies(o, bar)
      modifies this`nextId, store
      ensures Valid() && store.events == old(store.events) && Ready(o)
      ensures store.opportunities == old(store.opportunities)[o.id := Lifecycle.IngestBar(o, bar)]
    {
      var stepped := StepBar(o, bar);
      BarStepIsNext(o, nextId, bar, store.events);
      Replace(o, stepped, nextId, None);
      if stepped.status.StatusClosed? || bar.timestamp < o.updatedAt {
        return;
      }
      // Price stops and targets above have priority over a deferred analytical exit.
      RevisitAnalyses(stepped, bar.timestamp);
    }

    /** Revisit every stored analysis at the fresh price, saving after each. */
    method RevisitAnalyses(stepped: Record, now: Time)
      requires Valid() && Holds(stepped) && Entered(stepped.legs)
      modifies this`nextId, store
      ensures Valid() && nextId == old(nextId) && store.events == old(store.events)
      ensures store.opportunities == old(store.opportunities)[stepped.id := DeferredExits(stepped, stepped.analyses, now)]
    {
      var current := stepped;
      assert store.opportunities == store.opportunities[stepped.id := stepped];
      for k := 0 to |stepped.analyses|
        invariant Valid() && Holds(current) && nextId == old(nextId) && store.events == old(store.events)
        invariant current.id == stepped.id && Entered(current.legs)
        invariant store.opportunities == old(store.opportunities)[stepped.id := current]
        invariant DeferredExits(current, stepped.analyses[k..], now) == DeferredExits(stepped, stepped.analyses, now)
      {
        assert stepped.analyses[k..][1..] == stepped.analyses[k + 1..];
        var next := AnalyticalExits(current, current, stepped.analyses[k], now);
        AnalyticalExitsEvolve(current, current, nextId, stepped.analyses[k], now);
        AnalyticalExitsKeepReferences(current, current, stepped.analyses[k], now);
        Replace(current, next, nextId, None);
        current := next;
      }
    }

    /** The lifecycle of one candle, leg by leg. */
    method StepBar(o: Record, bar: Bar) returns (r: Record)
      requires Ready(o)
      ensures r == BarStep(o, bar)
    {
      var legs := MarkLegsForBar(o, bar);
      var marked := RecordBarRetest(o.(checkpoints := MarkCheckpoints(o.checkpoints, bar), legs := legs), bar);
      MarkedByBarEntered(o, bar);
      assert marked == MarkedByBar(o, bar);
      if bar.low <= o.stop && BarCanClose(o, marked.legs, marked.checkpoints) {
        return CloseRecord(o.(checkpoints := marked.checkpoints, legs := marked.legs, lastBarAt := Some(bar.timestamp)),
                           MinPrice(o.stop, bar.open), bar.timestamp, OriginalThesisInvalidated, ThesisBroken);
      }
      var remaining := marked.legs;
      if bar.closing {
        remaining := CloseSessionInLoop(marked.legs, bar);
      }
      var updated := o.(current := bar.close, updatedAt := MaxTime(o.updatedAt, bar.timestamp),
                        lastBarAt := Some(bar.timestamp), revision := o.revision + 1,
                        legs := remaining, checkpoints := marked.checkpoints);
      assert updated == UpdatedByBar(o, bar);
      if LastHorizonClosed(updated) {
        return CloseRecord(updated, bar.close, bar.timestamp, AllHorizonsClosed, TimeExit);
      }
      return updated;
    }

    /** One analysis: a seen one is ignored. A step that closes something or lifts the record records the
        analysis as seen; dated before the record it raises, and leaves the store as it was. */
    method IngestAnalysis(result: Analysis, now: Time) returns (active: Option<Record>)
      requires Valid()
      modifies this`nextId, store
      ensures Valid()
      ensures result.id in old(store.events) ==> active.None?
      ensures active.Some? ==> IsActive(old(store.opportunities), active.value.id, result.symbol)
                               && old(store.opportunities)[active.value.id] == active.value
                               && Entered(active.value.legs)
                               && var next := Lifecycle.IngestAnalysis(active.value, result, now, old(nextId));
                               && store.opportunities == old(store.opportunities)[active.value.id := next.Or(active.value)]
                               && store.events == EventsAfter(old(store.events),
                                    if next.Some? && ReportsAnalysis(active.value, result, now, old(nextId))
                                    then Some(result.id) else None)
      ensures active.None? ==> store.opportunities == old(store.opportunities) && store.events == old(store.events)
                               && (|| result.id in store.events
                                   || forall id :: !IsActive(old(store.opportunities), id, result.symbol))
    {
      active := store.LoadActive(result.symbol);
      if active.None? || result.id in store.events {
        return None;
      }
      var o := active.value;
      ActiveIsTheOnlyOne(store.opportunities, o, result.symbol);
      var next := Lifecycle.IngestAnalysis(o, result, now, nextId);
      var event := if ReportsAnalysis(o, result, now, nextId) then Some(result.id) else None;
      IngestAnalysisEvolves(o, nextId, result, now);
      IngestAnalysisKeepsReferences(o, result, now, nextId);
      if next.Some? {
        Replace(o, next.value, nextId + IDS_PER_STEP, event);
      } else {
        assert store.opportunities == store.opportunities[o.id := o];
      }
    }

    /** One watcher transition: seen ones are ignored, the first opens the symbol's record. */
    method IngestTransition(t: Transition) returns (active: Option<Record>)
      requires Valid() && WellFormed(TransitionAdvancement(t, None, false))
      modifies this`nextId, this`nextRecord, store
      ensures Valid()
      ensures t.id in old(store.events) ==> active.None? && store.opportunities == old(store.opportunities)
      ensures store.opportunities != old(store.opportunities) ==> t.id in store.events
      ensures active.Some? ==> IsActive(old(store.opportunities), active.value.id, t.symbol)
                               && old(store.opportunities)[active.value.id] == active.value
                               && Entered(active.value.legs)
                               && store.opportunities == old(store.opportunities)[active.value.id :=
                                    Lifecycle.IngestTransition(active.value, t, old(nextId)).Or(active.value)]
      ensures active.None? && t.id !in old(store.events) ==>
                && (forall id :: !IsActive(old(store.opportunities), id, t.symbol))
                && var first := OpenFromTransition(t, old(nextRecord), old(nextId));
                   store.opportunities == if first.Some? then old(store.opportunities)[old(nextRecord) := first.value]
                                          else old(store.opportunities)
    {
      if t.id in store.events {
        return None;
      }
      active := store.LoadActive(t.symbol);
      if active.None? {
        var first := OpenFromTransition(t, nextRecord, nextId);
        OpenedFromTransitionIsOrderly(t, nextRecord, nextId);
        OpeningKeepsNames(t, nextRecord, nextId);
        if first.Some? {
          var saved := Open(first.value, nextId + 2 * IDS_PER_STEP, t.id);
        }
        return;
      }
      var o := active.value;
      ActiveIsTheOnlyOne(store.opportunities, o, t.symbol);
      var next := Lifecycle.IngestTransition(o, t, nextId);
      IngestTransitionEvolves(o, nextId, t);
      IngestTransitionKeepsReferences(o, t, nextId);
      if next.Some? && next.value != o {
        Replace(o, next.value, nextId + IDS_PER_STEP, Some(t.id));
      } else {
        assert store.opportunities == store.opportunities[o.id := o];
      }
    }

    /** One core signal: seen ones are ignored, a complete one opens the symbol's record. */
    method IngestSignal(s: Signal) returns (active: Option<Record>)
      requires Valid() && WellFormed(SignalAdvancement(s))
      modifies this`nextId, this`nextRecord, store
      ensures Valid()
      ensures s.id in old(store.events) ==> active.None? && store.opportunities == old(store.opportunities)
      ensures store.opportunities != old(store.opportunities) ==> s.id in store.events
      ensures active.Some? ==> IsActive(old(store.opportunities), active.value.id, s.symbol)
                               && old(store.opportunities)[active.value.id] == active.value
                               && Entered(active.value.legs)
                               && store.opportunities == old(store.opportunities)[active.value.id :=
                                    Lifecycle.IngestSignal(active.value, s, old(nextId)).Or(active.value)]
      ensures active.None? && s.id !in old(store.events) ==>
                && (forall id :: !IsActive(old(store.opportunities), id, s.symbol))
                && var first := OpenFromSignal(s, old(nextRecord), old(nextId));
                   store.opportunities == if first.Some? then old(store.opportunities)[old(nextRecord) := first.value]
                                          else old(store.opportunities)
    {
      if s.id in store.events {
        return None;
      }
      active := store.LoadActive(s.symbol);
      if active.None? {
        var first := OpenFromSignal(s, nextRecord, nextId);
        OpenedFromSignalIsOrderly(s, nextRecord, nextId);
        if first.Some? {
          var saved := Open(first.value, nextId + IDS_PER_STEP, s.id);
        }
        return;
      }
      var o := active.value;
      ActiveIsTheOnlyOne(store.opportunities, o, s.symbol);
      var next := Lifecycle.IngestSignal(o, s, nextId);
      IngestSignalEvolves(o, nextId, s);
      IngestSignalIsProvenanced(o, store.events, s, nextId);
      if next.Some? && next.value != o {
        Replace(o, next.value, nextId + IDS_PER_STEP, Some(s.id));
      } else {
        assert store.opportunities == store.opportunities[o.id := o];
      }
    }

    /** A bar outside the lifecycle: marks only. */
    method IngestReferenceBar(symbol: string, bar: Bar, isFinal: bool, oneMinute: bool) returns (active: Option<Record>)
      requires Valid()
      modifies this`nextId, store
      ensures Valid() && store.events == old(store.events)
      ensures active.Some? ==> IsActive(old(store.opportunities), active.value.id, symbol)
                               && old(store.opportunities)[active.value.id] == active.value
                               && store.opportunities == old(store.opportunities)[active.value.id :=
                                    Lifecycle.IngestReferenceBar(active.value, bar)]
      ensures active.None? ==> store.opportunities == old(store.opportunities)
      ensures active.None? <==> !isFinal || !oneMinute || forall id :: !IsActive(old(store.opportunities), id, symbol)
    {
      if !isFinal || !oneMinute {
        return None;
      }
      active := store.LoadActive(symbol);
      if active.Some? {
        var o := active.value;
        ActiveIsTheOnlyOne(store.opportunities, o, symbol);
        IngestReferenceBarEvolves(o, nextId, bar);
        Replace(o, Lifecycle.IngestReferenceBar(o, bar), nextId, None);
      }
    }

    /** Close expired and removed opportunities, one listed record after the other. Publishing raises
        before the record was armed, saving when another active record holds the symbol; either ends the
        call with what has been saved so far. */
    method ReconcileAll(order: seq<nat>, now: Time, universe: set<string>) returns (raised: bool)
      requires Valid() && Listed(store.opportunities, order)
      modifies this`nextId, store
      ensures Valid() && store.events == old(store.events)
      ensures AllEntered(old(store.opportunities))
      ensures ReconcileRun(old(store.opportunities), order, now, Normalised(universe)) == (store.opportunities, raised)
    {
      var normalised := Normalised(universe);
      ghost var all := ReconcileRun(store.opportunities, order, now, normalised);
      assert order[0..] == order;
      for k := 0 to |order|
        invariant Valid() && store.events == old(store.events)
        invariant store.opportunities.Keys == old(store.opportunities).Keys
        invariant ReconcileRun(store.opportunities, order[k..], now, normalised) == all
      {
        ReconcileRunStep(store.opportunities, order, k, now, normalised);
        raised := ReconcileOne(order[k], now, normalised);
        if raised {
          return;
        }
      }
      raised := false;
    }

    /** Reconcile one record and save it, unless nothing expires or the store refuses. */
    method ReconcileOne(id: nat, now: Time, normalised: set<string>) returns (refused: bool)
      requires Valid() && id in store.opportunities
      modifies this`nextId, store
      ensures Valid() && store.events == old(store.events) && Entered(old(store.opportunities)[id].legs)
      ensures var o := old(store.opportunities)[id];
              var next := Reconcile(o, now, o.symbol in normalised);
              && (refused <==> next != o && Unsavable(old(store.opportunities), o, now))
              && store.opportunities == if refused then old(store.opportunities) else old(store.opportunities)[id := next]
    {
      var o := store.opportunities[id];
      var next := Reconcile(o, now, o.symbol in normalised);
      refused := false;
      if next == o {
        assert store.opportunities == store.opportunities[id := next];
        return;
      }
      if now < o.armedAt {
        return true;
      }
      var active := store.LoadActive(o.symbol);
      if active.Some? && active.value.id != o.id {
        return true;
      }
      ReconcileEvolves(o, nextId, now, o.symbol in normalised);
      Replace(o, next, nextId, None);
    }
  }

  ghost predicate AllEntered(opportunities: map<nat, Record>) {
    forall id :: id in opportunities ==> Entered(opportunities[id].legs)
  }

  function Normalised(symbols: set<string>): set<string> {
    set s | s in symbols :: Upper(s)
  }

  /** Another record is active under the normalised symbol of `o`, so that saving `o` is refused. */
  ghost predicate Blocked(opportunities: map<nat, Record>, o: Record) {
    exists id :: IsActive(opportunities, id, o.symbol) && id != o.id
  }

  /** The change of a record may not be published yet, or the store refuses it. */
  ghost predicate Unsavable(opportunities: map<nat, Record>, o: Record, now: Time) {
    now < o.armedAt || Blocked(opportunities, o)
  }

  /** What a pass over the listed records leaves in the store, and whether it raised. */
  ghost function ReconcileRun(opportunities: map<nat, Record>, order: seq<nat>, now: Time, normalised: set<string>)
    : (map<nat, Record>, bool)
    requires AllEntered(opportunities) && forall id :: id in order ==> id in opportunities
    decreases |order|
  {
    if order == [] then (opportunities, false)
    else
      var o := opportunities[order[0]];
      var next := Reconcile(o, now, o.symbol in normalised);
      assert Entered(next.legs) by { ReconcileKeepsEntered(o, now, o.symbol in normalised); }
      if next != o && Unsavable(opportunities, o, now) then (opportunities, true)
      else ReconcileRun(opportunities[order[0] := next], order[1..], now, normalised)
  }

  lemma ReconcileRunStep(opportunities: map<nat, Record>, order: seq<nat>, k: nat, now: Time, normalised: set<string>)
    requires AllEntered(opportunities) && k < |order| && forall id :: id in order ==> id in opportunities
    ensures var o := opportunities[order[k]];
            var next := Reconcile(o, now, o.symbol in normalised);
            && Entered(next.legs)
            && ReconcileRun(opportunities, order[k..], now, normalised)
               == if next != o && Unsavable(opportunities, o, now) then (opportunities, true)
                  else ReconcileRun(opportunities[order[k] := next], order[k + 1..], now, normalised)
  {
    var o := opportunities[order[k]];
    ReconcileKeepsEntered(o, now, o.symbol in normalised);
    assert order[k..][0] == order[k] && order[k..][1..] == order[k + 1..];
  }

  /** `order` names every active record once, sorted by symbol. */
  ghost predicate Listed(opportunities: map<nat, Record>, order: seq<nat>) {
    && (forall id :: id in order <==> id in opportunities && !opportunities[id].status.StatusClosed?)
    && (forall i, j :: 0 <= i < j < |order| ==>
          order[i] != order[j] && !Precedes(opportunities[order[j]].symbol, opportunities[order[i]].symbol))
  }

  /** The order of texts by their characters. */
  predicate Precedes(a: string, b: string) {
    if a == "" || b == "" then a == "" && b != ""
    else a[0] < b[0] || (a[0] == b[0] && Precedes(a[1..], b[1..]))
  }

  lemma ReconcileKeepsEntered(o: Record, now: Time, inUniverse: bool)
    requires Entered(o.legs)
    ensures Entered(Reconcile(o, now, inUniverse).legs)
  {
  }

  lemma IngestSignalIsProvenanced(o: Record, events: seq<nat>, s: Signal, n: nat)
    requires Entered(o.legs) && Provenanced(o.references, events) && s.id !in events
    ensures var r := Lifecycle.IngestSignal(o, s, n);
            r.Some? && r.value != o ==> Provenanced(r.value.references, events + [s.id])
  {
    SignalIsProvenanced(o.references, events, s);
  }

  lemma OpeningKeepsNames(t: Transition, id: nat, n: nat)
    ensures var r := OpenFromTransition(t, id, n);
            r.Some? ==> r.value.id == id && r.value.symbol == t.symbol && r.value.references == []
  {
  }
}
