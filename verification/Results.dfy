/** Realised results are frozen: over every event, and so over every run, legs only move from
    watching to open to a terminal state, and nothing terminal is dropped, reopened or repriced. */
module Results {
  import opened Market
  import opened Position
  import opened Analyses
  import opened RecoveryExit
  import opened Opportunity
  import opened Marking
  import opened Exits
  import opened Lifecycle

  predicate LegEvolves(a: Leg, b: Leg) {
    && a.id == b.id && a.horizon == b.horizon && a.setup == b.setup
    && (!a.status.Watching? ==>
          && !b.status.Watching?
          && b.openedAt == a.openedAt && b.entry == a.entry && b.stop == a.stop && b.target == a.target)
    && (a.status.Terminal() ==> b.status == a.status && b.exit == a.exit && b.quote == a.quote)
  }

  predicate CheckpointEvolves(a: Checkpoint, b: Checkpoint) {
    && a.id == b.id && a.level == b.level && a.family == b.family && a.setup == b.setup
    && a.reachedAt == b.reachedAt && a.entry == b.entry && a.stop == b.stop && a.target == b.target
    && a.zoneLow == b.zoneLow && a.zoneHigh == b.zoneHigh
    && (a.closed ==> b.closed && b.exit == a.exit && b.outcome == a.outcome && b.quote == a.quote)
  }

  ghost predicate HasSuccessor(a: Leg, legs: seq<Leg>) {
    exists j :: 0 <= j < |legs| && LegEvolves(a, legs[j])
  }

  ghost predicate HasOrigin(b: Leg, legs: seq<Leg>) {
    exists i :: 0 <= i < |legs| && LegEvolves(legs[i], b)
  }

  /** Nothing that has been entered is lost, and what is there either was there or is new. */
  ghost predicate LegsEvolve(before: seq<Leg>, nextId: nat, after: seq<Leg>) {
    && (forall i :: 0 <= i < |before| && !before[i].status.Watching? ==> HasSuccessor(before[i], after))
    && (forall j :: 0 <= j < |after| ==> after[j].id >= nextId || HasOrigin(after[j], before))
  }

  ghost predicate CheckpointsEvolve(before: seq<Checkpoint>, after: seq<Checkpoint>) {
    && |before| <= |after|
    && forall i :: 0 <= i < |before| ==> CheckpointEvolves(before[i], after[i])
  }

  predicate IdsBelow(legs: seq<Leg>, nextId: nat) {
    forall i :: 0 <= i < |legs| ==> legs[i].id < nextId
  }

  /** No two legs share an id. */
  predicate IdsApart(legs: seq<Leg>) {
    forall i, j :: 0 <= i < j < |legs| ==> legs[i].id != legs[j].id
  }

  function UnscopedFamily(primary: Family, leg: Leg): Family {
    leg.family.Or(primary)
  }

  /** A family holds at most one unscoped leg per horizon. */
  predicate OnePerHorizon(primary: Family, legs: seq<Leg>) {
    forall i, j :: 0 <= i < j < |legs| && legs[i].setup.None? && legs[j].setup.None?
                   && UnscopedFamily(primary, legs[i]) == UnscopedFamily(primary, legs[j])
                   ==> legs[i].horizon != legs[j].horizon
  }

  /** What every record in a run satisfies between events. */
  predicate Orderly(o: Record, nextId: nat) {
    Ready(o) && IdsBelow(o.legs, nextId) && IdsApart(o.legs) && OnePerHorizon(o.primary, o.legs)
  }

  predicate SameIdentity(a: Record, b: Record) {
    a.id == b.id && a.symbol == b.symbol && a.primary == b.primary && a.armedAt == b.armedAt && a.stop == b.stop
  }

  /** The step relation of a run. */
  ghost predicate Evolves(o: Record, n: nat, r: Record, m: nat) {
    && n <= m && Orderly(o, n) && Orderly(r, m)
    && SameIdentity(o, r)
    && LegsEvolve(o.legs, n, r.legs)
    && CheckpointsEvolve(o.checkpoints, r.checkpoints)
    && LevelRank(o.peakMaturity) <= LevelRank(r.peakMaturity)
    && (LevelRank(o.currentMaturity) <= LevelRank(o.peakMaturity) ==>
          LevelRank(r.currentMaturity) <= LevelRank(r.peakMaturity))
  }

  lemma EvolvesReflexive(o: Record, n: nat)
    requires Orderly(o, n)
    ensures Evolves(o, n, o, n)
  {
    assert forall i :: 0 <= i < |o.legs| ==> LegEvolves(o.legs[i], o.legs[i]);
  }

  lemma LegsEvolveTransitive(a: seq<Leg>, n: nat, b: seq<Leg>, m: nat, c: seq<Leg>)
    requires n <= m && LegsEvolve(a, n, b) && LegsEvolve(b, m, c)
    ensures LegsEvolve(a, n, c)
  {
    forall i | 0 <= i < |a| && !a[i].status.Watching? ensures HasSuccessor(a[i], c) {
      var j :| 0 <= j < |b| && LegEvolves(a[i], b[j]);
      var k :| 0 <= k < |c| && LegEvolves(b[j], c[k]);
      assert LegEvolves(a[i], c[k]);
    }
    forall k | 0 <= k < |c| && c[k].id < n ensures HasOrigin(c[k], a) {
      var j :| 0 <= j < |b| && LegEvolves(b[j], c[k]);
      var i :| 0 <= i < |a| && LegEvolves(a[i], b[j]);
      assert LegEvolves(a[i], c[k]);
    }
  }

  lemma EvolvesTransitive(o: Record, n: nat, p: Record, m: nat, q: Record, k: nat)
    requires Evolves(o, n, p, m) && Evolves(p, m, q, k)
    ensures Evolves(o, n, q, k)
  {
    LegsEvolveTransitive(o.legs, n, p.legs, m, q.legs);
    forall i | 0 <= i < |o.checkpoints| ensures CheckpointEvolves(o.checkpoints[i], q.checkpoints[i]) {
      assert CheckpointEvolves(o.checkpoints[i], p.checkpoints[i]);
      assert CheckpointEvolves(p.checkpoints[i], q.checkpoints[i]);
    }
  }

  /** Steps that rewrite every leg and checkpoint in place evolve position by position. */
  lemma PointwiseEvolves(o: Record, n: nat, r: Record)
    requires Orderly(o, n) && Ready(r)
    requires SameIdentity(o, r)
    requires r.peakMaturity == o.peakMaturity && r.currentMaturity == o.currentMaturity
    requires |r.legs| == |o.legs| && |r.checkpoints| == |o.checkpoints|
    requires forall i :: 0 <= i < |o.legs| ==> LegEvolves(o.legs[i], r.legs[i]) && r.legs[i].family == o.legs[i].family
    requires forall i :: 0 <= i < |o.checkpoints| ==> CheckpointEvolves(o.checkpoints[i], r.checkpoints[i])
    ensures Evolves(o, n, r, n)
  {
  }

  // ---------------------------------------------------------------- closing

  lemma CloseRecordEvolves(o: Record, n: nat, price: Price, now: Time, reason: CloseReason, status: LegStatus)
    requires Orderly(o, n) && status.Terminal()
    ensures Evolves(o, n, CloseRecord(o, price, now, reason, status), n)
  {
    PointwiseEvolves(o, n, CloseRecord(o, price, now, reason, status));
  }

  predicate SamePlace(a: Leg, b: Leg) {
    a.id == b.id && a.setup == b.setup && a.family == b.family && a.horizon == b.horizon
  }

  /** Every leg of the result has the place of a leg of the list. */
  lemma SpokenPlace(o: Record, e: Evidence, legs: seq<Leg>, j: nat) returns (i: nat)
    requires Entered(legs) && j < |CloseSpokenLegs(o, e, legs)|
    ensures i < |legs| && SamePlace(legs[i], CloseSpokenLegs(o, e, legs)[j])
  {
    i := SpokenLegOrigin(o, e, legs, j);
  }

  /** A subsequence of legs, some closed, keeps the order of the record. */
  lemma {:induction false} SpokenLegsOrderly(o: Record, e: Evidence, legs: seq<Leg>)
    requires Entered(legs) && OnePerHorizon(o.primary, legs)
    ensures OnePerHorizon(o.primary, CloseSpokenLegs(o, e, legs))
  {
    if legs != [] {
      var x, tail := legs[0], legs[1..];
      var rest := CloseSpokenLegs(o, e, tail);
      assert legs == [x] + tail;
      OnePerHorizonTail(o.primary, x, tail);
      SpokenLegsOrderly(o, e, tail);
      if ClashesWith(o.primary, Spoken(o, e, x), rest) {
        var k :| 0 <= k < |rest| && Clash(o.primary, Spoken(o, e, x), rest[k]);
        var i := SpokenPlace(o, e, tail, k);
        assert Clash(o.primary, x, tail[i]);
      }
      OnePerHorizonTail(o.primary, Spoken(o, e, x), rest);
    }
  }

  predicate ApartFrom(x: Leg, legs: seq<Leg>) {
    forall k :: 0 <= k < |legs| ==> legs[k].id != x.id
  }

  lemma ApartTail(x: Leg, legs: seq<Leg>)
    ensures IdsApart([x] + legs) <==> IdsApart(legs) && ApartFrom(x, legs)
  {
    var all := [x] + legs;
    if IdsApart(all) {
      forall j, k | 0 <= j < k < |legs| ensures legs[j].id != legs[k].id {
        assert all[j + 1] == legs[j] && all[k + 1] == legs[k];
      }
      forall k | 0 <= k < |legs| ensures legs[k].id != x.id {
        assert all[0] == x && all[k + 1] == legs[k];
      }
    }
  }

  lemma {:induction false} SpokenIdsApart(o: Record, e: Evidence, legs: seq<Leg>)
    requires Entered(legs) && IdsApart(legs)
    ensures IdsApart(CloseSpokenLegs(o, e, legs))
  {
    if legs != [] {
      var x, tail := legs[0], legs[1..];
      var rest := CloseSpokenLegs(o, e, tail);
      assert legs == [x] + tail;
      ApartTail(x, tail);
      SpokenIdsApart(o, e, tail);
      forall j | 0 <= j < |rest| ensures rest[j].id != x.id {
        var i := SpokenLegOrigin(o, e, tail, j);
      }
      ApartTail(Spoken(o, e, x), rest);
    }
  }

  lemma CoreExitLegsEvolve(o: Record, n: nat, e: Evidence)
    requires Orderly(o, n) && e.status.Terminal()
    ensures LegsEvolve(o.legs, n, CloseCoreEntries(o, e).legs)
  {
    var closed, r := CloseSpoken(o, e), CloseCoreEntries(o, e);
    CloseSpokenLegsOnly(o, e);
    forall j | 0 <= j < |r.legs| ensures HasOrigin(r.legs[j], o.legs) {
      var i := CoreExitOrigin(o, e, j);
      assert LegEvolves(o.legs[i], r.legs[j]);
    }
    forall i | 0 <= i < |o.legs| && !o.legs[i].status.Watching? ensures HasSuccessor(o.legs[i], r.legs) {
      var j := SpokenLegDestination(o, e, o.legs, i);
      FollowedEvolves(o, e, closed.legs[j]);
      assert LegEvolves(o.legs[i], closed.legs[j]);
      assert LegEvolves(o.legs[i], r.legs[j]);
    }
  }

  lemma SamePlacesStayOrderly(primary: Family, a: seq<Leg>, b: seq<Leg>)
    requires |a| == |b| && forall j :: 0 <= j < |a| ==> SamePlace(a[j], b[j])
    ensures IdsApart(a) ==> IdsApart(b)
    ensures OnePerHorizon(primary, a) ==> OnePerHorizon(primary, b)
  {
  }

  lemma CoreExitLegsOrderly(o: Record, n: nat, e: Evidence)
    requires Orderly(o, n) && e.status.Terminal()
    ensures var legs := CloseCoreEntries(o, e).legs;
            IdsBelow(legs, n) && IdsApart(legs) && OnePerHorizon(o.primary, legs)
  {
    var closed, r := CloseSpoken(o, e), CloseCoreEntries(o, e);
    CloseSpokenLegsOnly(o, e);
    SpokenLegsOrderly(o, e, o.legs);
    SpokenIdsApart(o, e, o.legs);
    forall j | 0 <= j < |r.legs| ensures SamePlace(closed.legs[j], r.legs[j]) {
      FollowedEvolves(o, e, closed.legs[j]);
    }
    SamePlacesStayOrderly(o.primary, closed.legs, r.legs);
    forall j | 0 <= j < |r.legs| ensures r.legs[j].id < n {
      var i := CoreExitOrigin(o, e, j);
    }
  }

  lemma CoreExitCheckpointsEvolve(o: Record, e: Evidence)
    requires Ready(o)
    ensures var r := CloseCoreEntries(o, e); Ready(r) && CheckpointsEvolve(o.checkpoints, r.checkpoints)
  {
    CloseSpokenLegsOnly(o, e);
    assert CloseCoreEntries(o, e).checkpoints == CloseSpokenCheckpoints(o, e);
  }

  lemma CoreExitsEvolve(o: Record, n: nat, e: Evidence)
    requires Orderly(o, n) && e.status.Terminal()
    ensures Evolves(o, n, CloseCoreEntries(o, e), n)
  {
    CoreExitLegsEvolve(o, n, e);
    CoreExitLegsOrderly(o, n, e);
    CoreExitCheckpointsEvolve(o, e);
  }

  lemma FollowedEvolves(o: Record, e: Evidence, leg: Leg)
    requires Entered(o.legs) && leg.Entered() && e.status.Terminal()
    ensures var r := FollowExit(o, e, CloseSpoken(o, e), leg);
            LegEvolves(leg, r) && r.family == leg.family
  {
    if leg.status.Open? && FollowExit(o, e, CloseSpoken(o, e), leg) != leg {
      FollowedExitIsSpoken(o, e, leg);
    }
  }

  lemma AnalyticalExitsEvolve(active: Record, o: Record, n: nat, result: Analysis, now: Time)
    requires Orderly(o, n)
    ensures Evolves(o, n, AnalyticalExits(active, o, result, now), n)
  {
    EvolvesReflexive(o, n);
    match FreshMark(Observations(active, result), now)
    case None =>
    case Some(mark) =>
      var breached := CloseCoreEntries(o, BreachEvidence(mark, now));
      CoreExitsEvolve(o, n, BreachEvidence(mark, now));
      var entries := CloseCoreEntries(breached, EntryEvidence(result, mark.1, now));
      CoreExitsEvolve(breached, n, EntryEvidence(result, mark.1, now));
      EvolvesTransitive(o, n, breached, n, entries, n);
      var recovered := CloseCoreEntries(entries, RecoveryEvidence(result, mark.1, now));
      CoreExitsEvolve(entries, n, RecoveryEvidence(result, mark.1, now));
      EvolvesTransitive(o, n, entries, n, recovered, n);
  }

  lemma {:induction false} DeferredExitsEvolve(o: Record, n: nat, results: seq<Analysis>, now: Time)
    requires Orderly(o, n)
    ensures Evolves(o, n, DeferredExits(o, results, now), n)
    decreases |results|
  {
    EvolvesReflexive(o, n);
    if results != [] {
      var next := AnalyticalExits(o, o, results[0], now);
      AnalyticalExitsEvolve(o, o, n, results[0], now);
      DeferredExitsEvolve(next, n, results[1..], now);
      EvolvesTransitive(o, n, next, n, DeferredExits(o, results, now), n);
    }
  }

  // ---------------------------------------------------------------- bars

  lemma MarkRecordEvolves(o: Record, n: nat, bar: Bar)
    requires Orderly(o, n)
    ensures Evolves(o, n, MarkRecord(o, bar), n)
  {
    var r := MarkRecord(o, bar);
    MarkRecordKeepsReady(o, bar);
    forall i | 0 <= i < |o.checkpoints| ensures CheckpointEvolves(o.checkpoints[i], r.checkpoints[i]) {
      MarkCheckpointKeepsTerms(o.checkpoints[i], bar);
    }
    forall i | 0 <= i < |o.legs| ensures LegEvolves(o.legs[i], r.legs[i]) && r.legs[i].family == o.legs[i].family {
      MarkLegKeepsTerms(o, bar, o.legs[i]);
      if o.legs[i].status.Open? {
        MarkLegNeverWatches(o, bar, o.legs[i]);
      }
    }
    PointwiseEvolves(o, n, r);
  }

  lemma MarkLegNeverWatches(o: Record, bar: Bar, leg: Leg)
    requires Ready(o) && leg.Entered() && leg.status.Open?
    ensures !MarkLeg(o, bar, leg).status.Watching?
  {
    PendingMatchDecides(o, bar, leg, 0);
    var resolved := ResolvePending(o, bar, leg);
    assert !resolved.status.Watching? by {
      match PendingMatch(o, bar, leg, 0)
      case None =>
      case Some(cp) => PendingKeepsExtremes(cp, bar);
    }
    ProtectedNeverWatches(leg, bar);
    ProtectedNeverWatches(resolved, bar);
  }

  lemma ProtectedNeverWatches(leg: Leg, bar: Bar)
    requires leg.Entered() && !leg.status.Watching?
    ensures !MarkLegProtected(leg, bar).status.Watching? && !MarkLegGapAware(leg, bar).status.Watching?
  {
  }

  lemma MarkedByBarEvolves(o: Record, n: nat, bar: Bar)
    requires Orderly(o, n)
    ensures Evolves(o, n, MarkedByBar(o, bar), n)
  {
    var marked := MarkRecord(o, bar);
    MarkRecordEvolves(o, n, bar);
    PointwiseEvolves(marked, n, RecordBarRetest(marked, bar));
    EvolvesTransitive(o, n, marked, n, RecordBarRetest(marked, bar), n);
  }

  lemma HeldByBarEvolves(o: Record, n: nat, bar: Bar)
    requires Orderly(o, n)
    ensures Evolves(o, n, HeldByBar(o, bar), n)
  {
    MarkedByBarEvolves(o, n, bar);
  }

  lemma UpdatedByBarEvolves(o: Record, n: nat, bar: Bar)
    requires Orderly(o, n)
    ensures Evolves(o, n, UpdatedByBar(o, bar), n)
  {
    var held, updated := HeldByBar(o, bar), UpdatedByBar(o, bar);
    HeldByBarEvolves(o, n, bar);
    assert forall i :: 0 <= i < |held.legs| ==> LegEvolves(held.legs[i], updated.legs[i]);
    assert forall i :: 0 <= i < |held.checkpoints| ==> CheckpointEvolves(held.checkpoints[i], updated.checkpoints[i]);
    PointwiseEvolves(held, n, updated);
    EvolvesTransitive(o, n, held, n, updated, n);
  }

  lemma BarStepEvolves(o: Record, n: nat, bar: Bar)
    requires Orderly(o, n)
    ensures Evolves(o, n, BarStep(o, bar), n)
  {
    if BreachesThesis(o, bar) {
      var held := HeldByBar(o, bar);
      HeldByBarEvolves(o, n, bar);
      CloseRecordEvolves(held, n, MinPrice(o.stop, bar.open), bar.timestamp, OriginalThesisInvalidated, ThesisBroken);
      EvolvesTransitive(o, n, held, n, BarStep(o, bar), n);
    } else {
      var updated := UpdatedByBar(o, bar);
      UpdatedByBarEvolves(o, n, bar);
      if LastHorizonClosed(updated) {
        CloseRecordEvolves(updated, n, bar.close, bar.timestamp, AllHorizonsClosed, TimeExit);
        EvolvesTransitive(o, n, updated, n, BarStep(o, bar), n);
      }
    }
  }

  lemma IngestBarEvolves(o: Record, n: nat, bar: Bar)
    requires Orderly(o, n)
    ensures Evolves(o, n, IngestBar(o, bar), n)
  {
    EvolvesReflexive(o, n);
    if BarApplies(o, bar) {
      var stepped := BarStep(o, bar);
      BarStepEvolves(o, n, bar);
      DeferredExitsEvolve(stepped, n, stepped.analyses, bar.timestamp);
      EvolvesTransitive(o, n, stepped, n, DeferredExits(stepped, stepped.analyses, bar.timestamp), n);
    }
  }

  lemma IngestReferenceBarEvolves(o: Record, n: nat, bar: Bar)
    requires Orderly(o, n)
    ensures Evolves(o, n, IngestReferenceBar(o, bar), n)
  {
    EvolvesReflexive(o, n);
    if BarApplies(o, bar) {
      var r := IngestReferenceBar(o, bar);
      RefreshEvolves(o.legs, o.checkpoints, bar.close);
      PointwiseEvolves(o, n, r);
    }
  }

  lemma RefreshEvolves(legs: seq<Leg>, cps: seq<Checkpoint>, price: Price)
    requires Entered(legs)
    ensures Entered(RefreshLegs(legs, price))
    ensures forall i :: 0 <= i < |legs| ==>
              LegEvolves(legs[i], RefreshLegs(legs, price)[i]) && RefreshLegs(legs, price)[i].family == legs[i].family
    ensures forall i :: 0 <= i < |cps| ==>
              && CheckpointEvolves(cps[i], RefreshCheckpoints(cps, price)[i])
              && (RecoveryFollowsEntry(cps[i]) ==> RecoveryFollowsEntry(RefreshCheckpoints(cps, price)[i]))
  {
  }

  // ---------------------------------------------------------------- reconciliation

  lemma {:induction false} UnexpiredOrigin(o: Record, legs: seq<Leg>, now: Time, j: nat) returns (i: nat)
    requires Entered(legs) && j < |KeepUnexpired(o, legs, now)|
    ensures i < |legs| && LegEvolves(legs[i], KeepUnexpired(o, legs, now)[j])
    ensures legs[i].family == KeepUnexpired(o, legs, now)[j].family
    ensures legs[i].status.Watching? ==> KeepUnexpired(o, legs, now)[j] == legs[i]
  {
    if LegExpires(o, legs[0], now) && legs[0].status.Watching? {
      i := UnexpiredOrigin(o, legs[1..], now, j);
      i := i + 1;
    } else if j == 0 {
      i := 0;
    } else {
      i := UnexpiredOrigin(o, legs[1..], now, j - 1);
      i := i + 1;
    }
  }

  lemma {:induction false} UnexpiredDestination(o: Record, legs: seq<Leg>, now: Time, i: nat)
    requires Entered(legs) && i < |legs| && !legs[i].status.Watching?
    ensures HasSuccessor(legs[i], KeepUnexpired(o, legs, now))
  {
    var r := KeepUnexpired(o, legs, now);
    if i == 0 {
      assert LegEvolves(legs[0], r[0]);
    } else {
      UnexpiredDestination(o, legs[1..], now, i - 1);
      var rest := KeepUnexpired(o, legs[1..], now);
      var j :| 0 <= j < |rest| && LegEvolves(legs[i], rest[j]);
      if |r| == |rest| {
        assert LegEvolves(legs[i], r[j]);
      } else {
        assert LegEvolves(legs[i], r[j + 1]);
      }
    }
  }

  lemma {:induction false} UnexpiredOrderly(o: Record, legs: seq<Leg>, now: Time)
    requires Entered(legs) && OnePerHorizon(o.primary, legs)
    ensures OnePerHorizon(o.primary, KeepUnexpired(o, legs, now))
  {
    if legs != [] {
      var x, tail := legs[0], legs[1..];
      var rest, closed := KeepUnexpired(o, tail, now), CloseLeg(x, x.quote.current, now, Expired);
      assert legs == [x] + tail;
      OnePerHorizonTail(o.primary, x, tail);
      UnexpiredOrderly(o, tail, now);
      if ClashesWith(o.primary, x, rest) {
        var k :| 0 <= k < |rest| && Clash(o.primary, x, rest[k]);
        var i := UnexpiredOrigin(o, tail, now, k);
        assert Clash(o.primary, x, tail[i]);
      }
      assert forall k :: 0 <= k < |rest| ==> Clash(o.primary, closed, rest[k]) == Clash(o.primary, x, rest[k]);
      OnePerHorizonTail(o.primary, x, rest);
      OnePerHorizonTail(o.primary, closed, rest);
    }
  }

  lemma {:induction false} UnexpiredIdsApart(o: Record, legs: seq<Leg>, now: Time)
    requires Entered(legs) && IdsApart(legs)
    ensures IdsApart(KeepUnexpired(o, legs, now))
  {
    if legs != [] {
      var x, tail := legs[0], legs[1..];
      var rest := KeepUnexpired(o, tail, now);
      assert legs == [x] + tail;
      ApartTail(x, tail);
      UnexpiredIdsApart(o, tail, now);
      forall j | 0 <= j < |rest| ensures rest[j].id != x.id {
        var i := UnexpiredOrigin(o, tail, now, j);
      }
      ApartTail(x, rest);
      ApartTail(CloseLeg(x, x.quote.current, now, Expired), rest);
    }
  }

  lemma ExpiredEvolves(o: Record, n: nat, now: Time)
    requires Orderly(o, n)
    ensures Evolves(o, n, WithoutExpired(o, now), n)
  {
    var r := WithoutExpired(o, now);
    UnexpiredOrderly(o, o.legs, now);
    UnexpiredIdsApart(o, o.legs, now);
    forall j | 0 <= j < |r.legs| ensures r.legs[j].id < n {
      var i := UnexpiredOrigin(o, o.legs, now, j);
    }
    forall j | 0 <= j < |r.legs| ensures HasOrigin(r.legs[j], o.legs) {
      var i := UnexpiredOrigin(o, o.legs, now, j);
      assert LegEvolves(o.legs[i], r.legs[j]);
    }
    forall i | 0 <= i < |o.legs| && !o.legs[i].status.Watching? ensures HasSuccessor(o.legs[i], r.legs) {
      UnexpiredDestination(o, o.legs, now, i);
    }
    ExpiredCheckpointsEvolve(o, now);
  }

  lemma ExpiredCheckpointsEvolve(o: Record, now: Time)
    ensures CheckpointsEvolve(o.checkpoints, ExpireSetups(o, now))
    ensures forall i :: 0 <= i < |o.checkpoints| && RecoveryFollowsEntry(o.checkpoints[i]) ==>
              RecoveryFollowsEntry(ExpireSetups(o, now)[i])
  {
  }

  lemma ExpiryIsImmaterial(o: Record, n: nat, r: Record, m: nat, deadline: Time)
    requires Evolves(o, n, r, m)
    ensures Evolves(o, n, r.(expiresAt := deadline), m)
  {
  }

  lemma ExpireRecordEvolves(o: Record, n: nat, expired: Record, now: Time)
    requires Evolves(o, n, expired, n)
    ensures Evolves(o, n, ExpireRecord(o, expired, now), n)
  {
    match LatestDeadline(o, expired.legs)
    case None =>
      CloseRecordEvolves(expired, n, o.current, now, ThesisExpired, Expired);
      EvolvesTransitive(o, n, expired, n, CloseRecord(expired, o.current, now, ThesisExpired, Expired), n);
    case Some(deadline) => ExpiryIsImmaterial(o, n, expired, n, deadline);
  }

  lemma ReconcileEvolves(o: Record, n: nat, now: Time, inUniverse: bool)
    requires Orderly(o, n)
    ensures Evolves(o, n, Reconcile(o, now, inUniverse), n)
  {
    if !inUniverse {
      CloseRecordEvolves(o, n, o.current, now, UniverseRemoved, TimeExit);
    } else if NothingExpires(o, now) {
      EvolvesReflexive(o, n);
    } else {
      ExpiredEvolves(o, n, now);
      ExpireRecordEvolves(o, n, WithoutExpired(o, now), now);
    }
  }

  // ---------------------------------------------------------------- advancing

  lemma {:induction false} UnscopedLegFound(legs: seq<Leg>, primary: Family, i: nat)
    requires i < |legs| && legs[i].setup.None? && OnePerHorizon(primary, legs)
    requires forall j :: 0 <= j < |legs| && legs[j].setup.None? ==>
               UnscopedFamily(primary, legs[j]) == UnscopedFamily(primary, legs[i])
    ensures UnscopedLeg(legs, legs[i].horizon) == Some(legs[i])
  {
    if i < |legs| - 1 {
      UnscopedLegFound(legs[..|legs| - 1], primary, i);
    }
  }

  lemma {:induction false} UnscopedLegIsMember(legs: seq<Leg>, horizon: Horizon)
    ensures var r := UnscopedLeg(legs, horizon);
            r.Some? ==> r.value in legs && r.value.setup.None? && r.value.horizon == horizon
  {
    if legs != [] {
      UnscopedLegIsMember(legs[..|legs| - 1], horizon);
    }
  }

  /** Every entered leg is one of the family's own, possibly entered now, or a new one. */
  lemma {:induction false} OpenedLegAt(legs: seq<Leg>, horizons: seq<Horizon>, a: Advancement, default: Price,
                                       nextId: nat, j: nat)
    requires Entered(legs) && j < |OpenedLegs(legs, horizons, a, default, nextId)|
    ensures |OpenedLegs(legs, horizons, a, default, nextId)| == |horizons|
    ensures var r := OpenedLegs(legs, horizons, a, default, nextId)[j];
            && r.horizon == horizons[j] && r.setup.None? && r.Entered()
            && (r.status.Terminal() ==> UnscopedLeg(legs, horizons[j]) == Some(r))
            && match UnscopedLeg(legs, horizons[j])
               case Some(leg) => leg in legs && LegEvolves(leg, r) && r.family == leg.family
                                 && (!leg.status.Watching? ==> r == leg)
               case None => r.id == nextId + j && r.family.None?
  {
    UnscopedLegIsMember(legs, horizons[0]);
    if |horizons| > 1 {
      if j > 0 {
        OpenedLegAt(legs, horizons[1..], a, default, nextId + 1, j - 1);
      } else {
        OpenedLegAt(legs, horizons[1..], a, default, nextId + 1, 0);
      }
    }
  }

  predicate DistinctHorizons(legs: seq<Leg>) {
    forall i, j :: 0 <= i < j < |legs| ==> legs[i].horizon != legs[j].horizon
  }

  lemma WithoutHorizonIsFilter(legs: seq<Leg>, horizon: Horizon)
    ensures forall x :: x in WithoutHorizon(legs, horizon) <==> x in legs && x.horizon != horizon
    ensures DistinctHorizons(legs) ==> DistinctHorizons(WithoutHorizon(legs, horizon))
  {
    if legs != [] {
      WithoutHorizonIsFilter(legs[1..], horizon);
      assert legs == [legs[0]] + legs[1..];
    }
  }

  lemma ScopedIsFilter(legs: seq<Leg>)
    ensures forall x :: x in Scoped(legs) <==> x in legs && x.setup.Some?
  {
    if legs != [] {
      ScopedIsFilter(legs[1..]);
      assert legs == [legs[0]] + legs[1..];
    }
  }

  lemma OwnershipFilters(o: Record, legs: seq<Leg>, family: Family)
    ensures forall x :: x in OwnedBy(o, legs, family) <==> x in legs && LegFamily(o, x) == Some(family)
    ensures forall x :: x in NotOwnedBy(o, legs, family) <==> x in legs && LegFamily(o, x) != Some(family)
  {
    if legs != [] {
      OwnershipFilters(o, legs[1..], family);
      assert legs == [legs[0]] + legs[1..];
    }
  }

  predicate ClashesWith(primary: Family, x: Leg, legs: seq<Leg>) {
    exists k :: 0 <= k < |legs| && Clash(primary, x, legs[k])
  }

  /** Two unscoped legs of one family and horizon. */
  predicate Clash(primary: Family, x: Leg, y: Leg) {
    && x.setup.None? && y.setup.None? && x.horizon == y.horizon
    && UnscopedFamily(primary, x) == UnscopedFamily(primary, y)
  }

  lemma OnePerHorizonTail(primary: Family, x: Leg, legs: seq<Leg>)
    ensures OnePerHorizon(primary, [x] + legs) <==> OnePerHorizon(primary, legs) && !ClashesWith(primary, x, legs)
  {
    var all := [x] + legs;
    if OnePerHorizon(primary, all) {
      forall j, k | 0 <= j < k < |legs| && legs[j].setup.None? && legs[k].setup.None?
                    && UnscopedFamily(primary, legs[j]) == UnscopedFamily(primary, legs[k])
        ensures legs[j].horizon != legs[k].horizon
      {
        assert all[j + 1] == legs[j] && all[k + 1] == legs[k];
      }
      forall k | 0 <= k < |legs| ensures !Clash(primary, x, legs[k]) {
        assert all[0] == x && all[k + 1] == legs[k];
      }
    }
  }

  lemma FilterDoesNotClash(primary: Family, x: Leg, legs: seq<Leg>, filtered: seq<Leg>)
    requires forall y :: y in filtered ==> y in legs
    ensures ClashesWith(primary, x, filtered) ==> ClashesWith(primary, x, legs)
  {
    if ClashesWith(primary, x, filtered) {
      var k :| 0 <= k < |filtered| && Clash(primary, x, filtered[k]);
      assert filtered[k] in legs;
    }
  }

  lemma {:induction false} OwnershipKeepsOnePerHorizon(o: Record, legs: seq<Leg>, family: Family)
    requires OnePerHorizon(o.primary, legs)
    ensures OnePerHorizon(o.primary, OwnedBy(o, legs, family)) && OnePerHorizon(o.primary, NotOwnedBy(o, legs, family))
  {
    if legs != [] {
      var x, tail := legs[0], legs[1..];
      assert legs == [x] + tail;
      OnePerHorizonTail(o.primary, x, tail);
      OwnershipKeepsOnePerHorizon(o, tail, family);
      OwnershipFilters(o, tail, family);
      FilterDoesNotClash(o.primary, x, tail, OwnedBy(o, tail, family));
      FilterDoesNotClash(o.primary, x, tail, NotOwnedBy(o, tail, family));
      OnePerHorizonTail(o.primary, x, OwnedBy(o, tail, family));
      OnePerHorizonTail(o.primary, x, NotOwnedBy(o, tail, family));
      assert [] + OwnedBy(o, tail, family) == OwnedBy(o, tail, family);
      assert [] + NotOwnedBy(o, tail, family) == NotOwnedBy(o, tail, family);
    }
  }

  /** The unscoped legs a family holds outside the requested horizons, one per horizon. */
  lemma OtherUnscopedIsRest(legs: seq<Leg>, horizons: seq<Horizon>, all: seq<Leg>)
    requires forall x :: x in legs ==> x in all
    ensures forall x :: x in OtherUnscoped(legs, horizons, all) ==> x in all && x.setup.None? && x.horizon !in horizons
    ensures DistinctHorizons(OtherUnscoped(legs, horizons, all))
    ensures forall x :: x in legs && x.setup.None? && x.horizon !in horizons && UnscopedLeg(all, x.horizon) == Some(x) ==>
              x in OtherUnscoped(legs, horizons, all)
  {
    if legs != [] {
      var rest := OtherUnscoped(legs[1..], horizons, all);
      OtherUnscopedIsRest(legs[1..], horizons, all);
      assert legs == [legs[0]] + legs[1..];
      UnscopedLegIsMember(all, legs[0].horizon);
      WithoutHorizonIsFilter(rest, legs[0].horizon);
    }
  }

  /** What advancement the contracts let through: distinct horizons, and there are seven. */
  predicate WellFormed(a: Advancement) {
    && |a.horizons| <= 7
    && forall i, j :: 0 <= i < j < |a.horizons| ==> a.horizons[i] != a.horizons[j]
  }

  /** What opening horizons does to the legs of the family that advances. */
  lemma OpenHorizonsOrigin(own: seq<Leg>, a: Advancement, default: Price, nextId: nat, j: nat)
    requires Entered(own) && j < |OpenHorizons(own, a, default, nextId)|
    ensures var r := OpenHorizons(own, a, default, nextId)[j];
            && r.Entered()
            && ((exists x :: x in own && LegEvolves(x, r)) || nextId <= r.id < nextId + |a.horizons|)
  {
    var entered := OpenedLegs(own, a.horizons, a, default, nextId);
    OtherUnscopedIsRest(own, a.horizons, own);
    ScopedIsFilter(own);
    var r := OpenHorizons(own, a, default, nextId)[j];
    if j < |entered| {
      OpenedLegAt(own, a.horizons, a, default, nextId, j);
    } else {
      assert r in own;
      assert LegEvolves(r, r);
    }
  }

  lemma OpenHorizonsSuccessor(own: seq<Leg>, primary: Family, a: Advancement, default: Price, nextId: nat, i: nat)
    requires Entered(own) && i < |own|
    requires OnePerHorizon(primary, own)
    requires forall j, k :: 0 <= j < |own| && 0 <= k < |own| && own[j].setup.None? && own[k].setup.None? ==>
               UnscopedFamily(primary, own[j]) == UnscopedFamily(primary, own[k])
    ensures HasSuccessor(own[i], OpenHorizons(own, a, default, nextId))
    ensures !own[i].status.Watching? ==> own[i] in OpenHorizons(own, a, default, nextId)
  {
    var r := OpenHorizons(own, a, default, nextId);
    var entered := OpenedLegs(own, a.horizons, a, default, nextId);
    OtherUnscopedIsRest(own, a.horizons, own);
    ScopedIsFilter(own);
    assert LegEvolves(own[i], own[i]);
    if own[i].setup.None? {
      UnscopedLegFound(own, primary, i);
      if own[i].horizon in a.horizons {
        var k :| 0 <= k < |a.horizons| && a.horizons[k] == own[i].horizon;
        OpenedLegsLength(own, a.horizons, a, default, nextId);
        OpenedLegAt(own, a.horizons, a, default, nextId, k);
        assert r[k] == entered[k];
        assert LegEvolves(own[i], r[k]);
      } else {
        assert own[i] in r;
      }
    } else {
      assert own[i] in r;
    }
  }

  lemma OpenedLegsLength(legs: seq<Leg>, horizons: seq<Horizon>, a: Advancement, default: Price, nextId: nat)
    ensures |OpenedLegs(legs, horizons, a, default, nextId)| == |horizons|
  {
  }

  /** After opening, a family still holds one unscoped leg per horizon. */
  lemma OpenHorizonsDistinct(own: seq<Leg>, a: Advancement, default: Price, nextId: nat)
    requires Entered(own) && WellFormed(a)
    ensures var r := OpenHorizons(own, a, default, nextId);
            forall i, j :: 0 <= i < j < |r| && r[i].setup.None? && r[j].setup.None? ==> r[i].horizon != r[j].horizon
  {
    var entered := OpenedLegs(own, a.horizons, a, default, nextId);
    var other := OtherUnscoped(own, a.horizons, own);
    OtherUnscopedIsRest(own, a.horizons, own);
    ScopedIsFilter(own);
    OpenedLegsLength(own, a.horizons, a, default, nextId);
    forall k | 0 <= k < |entered| ensures entered[k].horizon == a.horizons[k] {
      OpenedLegAt(own, a.horizons, a, default, nextId, k);
    }
  }

  /** Where a leg of the advancing family comes from: one of its own, or a new id. */
  lemma OpenedFrom(own: seq<Leg>, a: Advancement, default: Price, nextId: nat, j: nat)
    requires Entered(own) && WellFormed(a) && j < |OpenHorizons(own, a, default, nextId)|
    ensures var r := OpenHorizons(own, a, default, nextId)[j];
            || (exists x :: x in own && x.id == r.id && x.horizon == r.horizon && x.setup == r.setup)
            || (j < |a.horizons| && r.id == nextId + j)
    ensures OpenHorizons(own, a, default, nextId)[j].setup.Some? ==>
              j >= |OpenHorizons(own, a, default, nextId)| - |Scoped(own)|
              && OpenHorizons(own, a, default, nextId)[j]
                 == Scoped(own)[j - (|OpenHorizons(own, a, default, nextId)| - |Scoped(own)|)]
  {
    var entered := OpenedLegs(own, a.horizons, a, default, nextId);
    var other := OtherUnscoped(own, a.horizons, own);
    OtherUnscopedIsRest(own, a.horizons, own);
    ScopedIsFilter(own);
    var r := OpenHorizons(own, a, default, nextId)[j];
    if j < |entered| {
      OpenedLegAt(own, a.horizons, a, default, nextId, j);
    } else {
      assert r in own;
      assert j < |entered| + |other| ==> r in other;
    }
  }

  lemma FilterApart(x: Leg, legs: seq<Leg>, filtered: seq<Leg>)
    requires ApartFrom(x, legs) && forall y :: y in filtered ==> y in legs
    ensures ApartFrom(x, filtered)
  {
    forall k | 0 <= k < |filtered| ensures filtered[k].id != x.id {
      assert filtered[k] in legs;
    }
  }

  /** A leg apart from a list is apart from what a filter keeps of it. */
  lemma FilteredApart(x: Leg, legs: seq<Leg>, filtered: seq<Leg>)
    requires ApartFrom(x, legs) && IdsApart(filtered) && forall y :: y in filtered ==> y in legs
    ensures IdsApart([x] + filtered) && [] + filtered == filtered
  {
    FilterApart(x, legs, filtered);
    ApartTail(x, filtered);
  }

  lemma {:induction false} ScopedIdsApart(legs: seq<Leg>)
    requires IdsApart(legs)
    ensures IdsApart(Scoped(legs))
  {
    if legs != [] {
      var x, tail := legs[0], legs[1..];
      assert legs == [x] + tail;
      ApartTail(x, tail);
      ScopedIdsApart(tail);
      ScopedIsFilter(tail);
      FilteredApart(x, tail, Scoped(tail));
    }
  }

  lemma {:induction false} OwnedIdsApart(o: Record, legs: seq<Leg>, family: Family)
    requires IdsApart(legs)
    ensures IdsApart(OwnedBy(o, legs, family))
  {
    if legs != [] {
      var x, tail := legs[0], legs[1..];
      assert legs == [x] + tail;
      ApartTail(x, tail);
      OwnedIdsApart(o, tail, family);
      OwnershipFilters(o, tail, family);
      FilteredApart(x, tail, OwnedBy(o, tail, family));
    }
  }

  lemma {:induction false} NotOwnedIdsApart(o: Record, legs: seq<Leg>, family: Family)
    requires IdsApart(legs)
    ensures IdsApart(NotOwnedBy(o, legs, family))
  {
    if legs != [] {
      var x, tail := legs[0], legs[1..];
      assert legs == [x] + tail;
      ApartTail(x, tail);
      NotOwnedIdsApart(o, tail, family);
      OwnershipFilters(o, tail, family);
      FilteredApart(x, tail, NotOwnedBy(o, tail, family));
    }
  }

  lemma SameIdSameLeg(legs: seq<Leg>, x: Leg, y: Leg)
    requires IdsApart(legs) && x in legs && y in legs && x.id == y.id
    ensures x == y
  {
  }

  /** Opening horizons keeps the ids of the family's legs apart. */
  lemma OpenHorizonsApart(own: seq<Leg>, a: Advancement, default: Price, nextId: nat)
    requires Entered(own) && WellFormed(a) && IdsApart(own) && forall x :: x in own ==> x.id < nextId
    ensures IdsApart(OpenHorizons(own, a, default, nextId))
  {
    var r := OpenHorizons(own, a, default, nextId);
    OpenHorizonsDistinct(own, a, default, nextId);
    ScopedIdsApart(own);
    forall i, j | 0 <= i < j < |r| ensures r[i].id != r[j].id {
      OpenedFrom(own, a, default, nextId, i);
      OpenedFrom(own, a, default, nextId, j);
      if r[i].id == r[j].id && r[i].id < nextId {
        var x :| x in own && x.id == r[i].id && x.horizon == r[i].horizon && x.setup == r[i].setup;
        var y :| y in own && y.id == r[j].id && y.horizon == r[j].horizon && y.setup == r[j].setup;
        SameIdSameLeg(own, x, y);
      }
    }
  }

  // ---------------------------------------------------------------- an advancement

  lemma OwnLegsShareFamily(o: Record, family: Family)
    requires Entered(o.legs)
    ensures var own := OwnedBy(o, o.legs, family);
            && Entered(own)
            && (forall j :: 0 <= j < |own| && own[j].setup.None? ==> UnscopedFamily(o.primary, own[j]) == family)
  {
    var own := OwnedBy(o, o.legs, family);
    OwnershipFilters(o, o.legs, family);
    forall j | 0 <= j < |own| ensures own[j].Entered() && (own[j].setup.None? ==> UnscopedFamily(o.primary, own[j]) == family) {
      assert own[j] in own;
    }
  }

  lemma OthersKeepApart(o: Record, n: nat, family: Family)
    requires Orderly(o, n)
    ensures var others := NotOwnedBy(o, o.legs, family);
            && Entered(others) && IdsBelow(others, n) && OnePerHorizon(o.primary, others)
            && forall j :: 0 <= j < |others| && others[j].setup.None? ==> UnscopedFamily(o.primary, others[j]) != family
  {
    var others := NotOwnedBy(o, o.legs, family);
    OwnershipFilters(o, o.legs, family);
    OwnershipKeepsOnePerHorizon(o, o.legs, family);
    forall j | 0 <= j < |others|
      ensures others[j].Entered() && others[j].id < n
              && (others[j].setup.None? ==> UnscopedFamily(o.primary, others[j]) != family)
    {
      assert others[j] in others;
    }
  }

  lemma OpenedKeepApart(o: Record, n: nat, a: Advancement)
    requires Orderly(o, n) && WellFormed(a)
    ensures var mine := Labelled(OpenHorizons(OwnedBy(o, o.legs, a.family), a, o.stop, n + 1), a.family);
            && Entered(mine) && IdsBelow(mine, n + IDS_PER_STEP)
            && (forall i, j :: 0 <= i < j < |mine| && mine[i].setup.None? && mine[j].setup.None? ==>
                  mine[i].horizon != mine[j].horizon)
            && (forall j :: 0 <= j < |mine| ==> UnscopedFamily(o.primary, mine[j]) == a.family)
  {
    var own := OwnedBy(o, o.legs, a.family);
    OwnLegsShareFamily(o, a.family);
    OpenHorizonsDistinct(own, a, o.stop, n + 1);
    OpenedAreNumbered(own, n, a, o.stop) by {
      OwnershipFilters(o, o.legs, a.family);
    }
  }

  lemma OpenedAreNumbered(own: seq<Leg>, n: nat, a: Advancement, default: Price)
    requires Entered(own) && WellFormed(a) && forall x :: x in own ==> x.id < n
    ensures var mine := OpenHorizons(own, a, default, n + 1); Entered(mine) && IdsBelow(mine, n + IDS_PER_STEP)
  {
    var mine := OpenHorizons(own, a, default, n + 1);
    forall j | 0 <= j < |mine| ensures mine[j].Entered() && mine[j].id < n + IDS_PER_STEP {
      OpenHorizonsOrigin(own, a, default, n + 1, j);
    }
  }

  lemma EntryHorizonsOrderly(o: Record, n: nat, a: Advancement)
    requires Orderly(o, n) && WellFormed(a)
    ensures var r := OpenEntryHorizons(o, a, n + 1);
            Entered(r) && IdsBelow(r, n + IDS_PER_STEP) && OnePerHorizon(o.primary, r)
  {
    OthersKeepApart(o, n, a.family);
    OpenedKeepApart(o, n, a);
  }

  /** The legs of the advancing family and those of the others keep their ids apart. */
  lemma EntryHorizonsApart(o: Record, n: nat, a: Advancement)
    requires Orderly(o, n) && WellFormed(a)
    ensures IdsApart(OpenEntryHorizons(o, a, n + 1))
  {
    var own, others := OwnedBy(o, o.legs, a.family), NotOwnedBy(o, o.legs, a.family);
    var unlabelled := OpenHorizons(own, a, o.stop, n + 1);
    var mine := Labelled(unlabelled, a.family);
    OwnershipFilters(o, o.legs, a.family);
    OwnedIdsApart(o, o.legs, a.family);
    NotOwnedIdsApart(o, o.legs, a.family);
    OwnLegsShareFamily(o, a.family);
    OpenHorizonsApart(own, a, o.stop, n + 1);
    forall j | 0 <= j < |mine| ensures ApartFrom(mine[j], others) {
      OpenedApartFromOthers(o, n, a, j);
    }
    AppendedApart(others, mine);
  }

  lemma AppendedApart(a: seq<Leg>, b: seq<Leg>)
    requires IdsApart(a) && IdsApart(b) && forall j :: 0 <= j < |b| ==> ApartFrom(b[j], a)
    ensures IdsApart(a + b)
  {
  }

  lemma OpenedApartFromOthers(o: Record, n: nat, a: Advancement, j: nat)
    requires Orderly(o, n) && WellFormed(a)
    requires j < |OpenHorizons(OwnedBy(o, o.legs, a.family), a, o.stop, n + 1)|
    ensures ApartFrom(OpenHorizons(OwnedBy(o, o.legs, a.family), a, o.stop, n + 1)[j], NotOwnedBy(o, o.legs, a.family))
  {
    var own, others := OwnedBy(o, o.legs, a.family), NotOwnedBy(o, o.legs, a.family);
    var r := OpenHorizons(own, a, o.stop, n + 1)[j];
    OwnershipFilters(o, o.legs, a.family);
    OwnLegsShareFamily(o, a.family);
    OpenedFrom(own, a, o.stop, n + 1, j);
    forall k | 0 <= k < |others| ensures others[k].id != r.id {
      assert others[k] in others;
      if others[k].id == r.id {
        var x :| x in own && x.id == r.id && x.horizon == r.horizon && x.setup == r.setup;
        SameIdSameLeg(o.legs, x, others[k]);
      }
    }
  }

  lemma SuccessorInEither(leg: Leg, a: seq<Leg>, b: seq<Leg>)
    requires HasSuccessor(leg, a) || HasSuccessor(leg, b)
    ensures HasSuccessor(leg, a + b)
  {
    if HasSuccessor(leg, a) {
      var j :| 0 <= j < |a| && LegEvolves(leg, a[j]);
      assert (a + b)[j] == a[j];
    } else {
      var j :| 0 <= j < |b| && LegEvolves(leg, b[j]);
      assert (a + b)[|a| + j] == b[j];
    }
  }

  lemma SuccessorLabelled(leg: Leg, legs: seq<Leg>, family: Family)
    requires HasSuccessor(leg, legs)
    ensures HasSuccessor(leg, Labelled(legs, family))
  {
    var j :| 0 <= j < |legs| && LegEvolves(leg, legs[j]);
    assert LegEvolves(leg, Labelled(legs, family)[j]);
  }

  lemma MemberSucceedsItself(leg: Leg, legs: seq<Leg>)
    requires leg in legs
    ensures HasSuccessor(leg, legs)
  {
    assert LegEvolves(leg, leg);
  }

  lemma EntryHorizonsSuccessor(o: Record, n: nat, a: Advancement, i: nat)
    requires Orderly(o, n) && i < |o.legs|
    ensures HasSuccessor(o.legs[i], OpenEntryHorizons(o, a, n + 1))
  {
    var leg := o.legs[i];
    var own, others := OwnedBy(o, o.legs, a.family), NotOwnedBy(o, o.legs, a.family);
    var mine := OpenHorizons(own, a, o.stop, n + 1);
    OwnershipFilters(o, o.legs, a.family);
    if leg in own {
      var k :| 0 <= k < |own| && own[k] == leg;
      OwnLegEvolves(o, n, a, k);
      SuccessorLabelled(leg, mine, a.family);
    } else {
      MemberSucceedsItself(leg, others);
    }
    SuccessorInEither(leg, others, Labelled(mine, a.family));
  }

  lemma OwnLegEvolves(o: Record, n: nat, a: Advancement, k: nat)
    requires Orderly(o, n) && k < |OwnedBy(o, o.legs, a.family)|
    ensures var own := OwnedBy(o, o.legs, a.family); HasSuccessor(own[k], OpenHorizons(own, a, o.stop, n + 1))
    ensures var own := OwnedBy(o, o.legs, a.family);
            !own[k].status.Watching? ==> own[k] in OpenHorizons(own, a, o.stop, n + 1)
  {
    OwnLegsShareFamily(o, a.family);
    OwnershipKeepsOnePerHorizon(o, o.legs, a.family);
    OpenHorizonsSuccessor(OwnedBy(o, o.legs, a.family), o.primary, a, o.stop, n + 1, k);
  }

  /** A leg that is still there, perhaps labelled with the family that has come to own it. */
  predicate KeptBut(leg: Leg, family: Family, legs: seq<Leg>) {
    leg in legs || leg.(family := Some(family)) in legs
  }

  /** An advancing family leaves every entered leg as it is, but for the label of its own. */
  lemma EntryHorizonsKeep(o: Record, n: nat, a: Advancement, leg: Leg)
    requires Orderly(o, n) && leg in o.legs && !leg.status.Watching?
    ensures KeptBut(leg, a.family, OpenEntryHorizons(o, a, n + 1))
  {
    var own, others := OwnedBy(o, o.legs, a.family), NotOwnedBy(o, o.legs, a.family);
    var mine := OpenHorizons(own, a, o.stop, n + 1);
    OwnershipFilters(o, o.legs, a.family);
    if leg in own {
      var k :| 0 <= k < |own| && own[k] == leg;
      OwnLegEvolves(o, n, a, k);
      LabelledHas(mine, a.family, leg);
      InEither(others, Labelled(mine, a.family), leg.(family := Some(a.family)));
    } else {
      InEither(others, Labelled(mine, a.family), leg);
    }
  }

  lemma LabelledHas(legs: seq<Leg>, family: Family, leg: Leg)
    requires leg in legs
    ensures leg.(family := Some(family)) in Labelled(legs, family)
  {
    var j :| 0 <= j < |legs| && legs[j] == leg;
    assert Labelled(legs, family)[j] == leg.(family := Some(family));
  }

  lemma InEither(a: seq<Leg>, b: seq<Leg>, leg: Leg)
    requires leg in a || leg in b
    ensures leg in a + b
  {
  }

  lemma EntryHorizonsOrigin(o: Record, n: nat, a: Advancement, j: nat)
    requires Orderly(o, n) && WellFormed(a) && j < |OpenEntryHorizons(o, a, n + 1)|
    ensures OpenEntryHorizons(o, a, n + 1)[j].id >= n || HasOrigin(OpenEntryHorizons(o, a, n + 1)[j], o.legs)
  {
    var r := OpenEntryHorizons(o, a, n + 1);
    var own, others := OwnedBy(o, o.legs, a.family), NotOwnedBy(o, o.legs, a.family);
    var mine := OpenHorizons(own, a, o.stop, n + 1);
    OwnLegsShareFamily(o, a.family);
    OwnershipFilters(o, o.legs, a.family);
    if j < |others| {
      assert others[j] in others && LegEvolves(others[j], r[j]);
    } else if r[j].id < n {
      var k := j - |others|;
      assert r[j] == mine[k].(family := r[j].family) && mine[k].id == r[j].id;
      OpenHorizonsOrigin(own, a, o.stop, n + 1, k);
      MemberIsOrigin(own, o.legs, mine[k], r[j]);
    }
  }

  lemma MemberIsOrigin(own: seq<Leg>, legs: seq<Leg>, unlabelled: Leg, leg: Leg)
    requires forall x :: x in own ==> x in legs
    requires exists x :: x in own && LegEvolves(x, unlabelled)
    requires leg == unlabelled.(family := leg.family)
    ensures HasOrigin(leg, legs)
  {
    var x :| x in own && LegEvolves(x, unlabelled);
    var i :| 0 <= i < |legs| && legs[i] == x;
    assert LegEvolves(legs[i], leg);
  }

  lemma EntryHorizonsEvolve(o: Record, n: nat, a: Advancement)
    requires Orderly(o, n) && WellFormed(a)
    ensures LegsEvolve(o.legs, n, OpenEntryHorizons(o, a, n + 1))
  {
    var r := OpenEntryHorizons(o, a, n + 1);
    forall i | 0 <= i < |o.legs| ensures HasSuccessor(o.legs[i], r) {
      EntryHorizonsSuccessor(o, n, a, i);
    }
    forall j | 0 <= j < |r| ensures r[j].id >= n || HasOrigin(r[j], o.legs) {
      EntryHorizonsOrigin(o, n, a, j);
    }
  }

  lemma AdvanceParts(o: Record, a: Advancement, n: nat)
    requires Advance(o, a, n).Some?
    ensures var r := Advance(o, a, n).value;
            && SameIdentity(o, r)
            && (r.legs == o.legs || r.legs == OpenEntryHorizons(o, a, n + 1))
            && (r.checkpoints == o.checkpoints || r.checkpoints == o.checkpoints + [AdvancedCheckpoint(o, a, n)])
            && r.peakMaturity == (if LevelRank(a.level) > LevelRank(o.peakMaturity) then a.level else o.peakMaturity)
            && (r.currentMaturity == a.level || r.currentMaturity == o.currentMaturity)
  {
  }

  /** Maturity evidence opens legs and adds a checkpoint; it never touches a realised result. */
  lemma AdvanceEvolves(o: Record, n: nat, a: Advancement)
    requires Orderly(o, n) && WellFormed(a)
    ensures Advance(o, a, n).Some? ==> Evolves(o, n, Advance(o, a, n).value, n + IDS_PER_STEP)
  {
    if Advance(o, a, n).Some? {
      var r := Advance(o, a, n).value;
      AdvanceParts(o, a, n);
      AdvancedLegsEvolve(o, n, a, r.legs);
      AppendedCheckpointEvolves(o.checkpoints, r.checkpoints, AdvancedCheckpoint(o, a, n));
    }
  }

  lemma AdvancedLegsEvolve(o: Record, n: nat, a: Advancement, legs: seq<Leg>)
    requires Orderly(o, n) && WellFormed(a) && (legs == o.legs || legs == OpenEntryHorizons(o, a, n + 1))
    ensures Entered(legs) && IdsBelow(legs, n + IDS_PER_STEP) && IdsApart(legs) && OnePerHorizon(o.primary, legs)
    ensures LegsEvolve(o.legs, n, legs)
  {
    if legs == o.legs {
      EvolvesReflexive(o, n);
    } else {
      EntryHorizonsOrderly(o, n, a);
      EntryHorizonsApart(o, n, a);
      EntryHorizonsEvolve(o, n, a);
    }
  }

  lemma AppendedCheckpointEvolves(before: seq<Checkpoint>, after: seq<Checkpoint>, cp: Checkpoint)
    requires after == before || after == before + [cp]
    ensures CheckpointsEvolve(before, after)
  {
    assert forall i :: 0 <= i < |before| ==> CheckpointEvolves(before[i], before[i]);
  }

  lemma SameBooksEvolve(o: Record, n: nat, r: Record)
    requires Orderly(o, n) && SameIdentity(o, r) && r.legs == o.legs && r.checkpoints == o.checkpoints
    requires r.peakMaturity == o.peakMaturity && r.currentMaturity == o.currentMaturity
    ensures Evolves(o, n, r, n)
  {
    EvolvesReflexive(o, n);
  }

  lemma SetRetestEvolves(o: Record, n: nat, i: nat, at: Time, low: Price)
    requires Orderly(o, n) && i < |o.checkpoints|
    ensures Evolves(o, n, SetRetest(o, i, at, low), n)
  {
    EvolvesReflexive(o, n);
    var r := SetRetest(o, i, at, low);
    assert forall k :: 0 <= k < |o.checkpoints| ==> CheckpointEvolves(o.checkpoints[k], r.checkpoints[k]);
  }

  lemma NotedEvolves(o: Record, n: nat, result: Analysis, price: Price, now: Time)
    requires Orderly(o, n)
    ensures Evolves(o, n, Noted(o, result, now), n)
    ensures Evolves(o, n, RecordRetest(Noted(o, result, now), result, price, now).0, n)
  {
    var noted := Noted(o, result, now);
    SameBooksEvolve(o, n, noted);
    var anchor := Anchor(noted.checkpoints);
    if anchor.Some? {
      SetRetestEvolves(noted, n, anchor.value, now, price);
      EvolvesTransitive(o, n, noted, n, SetRetest(noted, anchor.value, now, price), n);
    }
  }

  lemma ExitsAfterNoting(o: Record, n: nat, noted: Record, result: Analysis, now: Time)
    requires Evolves(o, n, noted, n)
    ensures Evolves(o, n, AnalyticalExits(o, noted, result, now), n + IDS_PER_STEP)
  {
    AnalyticalExitsEvolve(o, noted, n, result, now);
    EvolvesTransitive(o, n, noted, n, AnalyticalExits(o, noted, result, now), n);
    MoreIds(o, n, AnalyticalExits(o, noted, result, now), n);
  }

  lemma IngestAnalysisEvolves(o: Record, n: nat, result: Analysis, now: Time)
    requires Orderly(o, n)
    ensures IngestAnalysis(o, result, now, n).Some? ==>
              Evolves(o, n, IngestAnalysis(o, result, now, n).value, n + IDS_PER_STEP)
  {
    AnalysisStepEvolves(o, n, result, now);
    AnalysisRefusedExactly(o, result, now, n);
  }

  lemma AnalysisStepEvolves(o: Record, n: nat, result: Analysis, now: Time)
    requires Orderly(o, n)
    ensures AnalysisStep(o, result, now, n).Some? ==>
              Evolves(o, n, AnalysisStep(o, result, now, n).value, n + IDS_PER_STEP)
  {
    var price := AnalysisPrice(o, result);
    var noted := Noted(o, result, now);
    var retested := RecordRetest(noted, result, price, now).0;
    EvolvesReflexive(o, n);
    MoreIds(o, n, o, n);
    NotedEvolves(o, n, result, price, now);
    ExitsAfterNoting(o, n, noted, result, now);
    ExitsAfterNoting(o, n, retested, result, now);
    var levels := ReclaimLevels(result, price);
    if levels.Some? {
      LiftEvolves(o, n, retested, ReclaimAdvancement(result, price, now, levels.value));
    }
  }

  lemma LiftEvolves(o: Record, n: nat, retested: Record, a: Advancement)
    requires Evolves(o, n, retested, n) && WellFormed(a)
    ensures Advance(retested, a, n).Some? ==> Evolves(o, n, Advance(retested, a, n).value, n + IDS_PER_STEP)
  {
    AdvanceEvolves(retested, n, a);
    if Advance(retested, a, n).Some? {
      EvolvesTransitive(o, n, retested, n, Advance(retested, a, n).value, n + IDS_PER_STEP);
    }
  }

  lemma MoreIds(o: Record, n: nat, r: Record, m: nat)
    requires Evolves(o, n, r, m)
    ensures Evolves(o, n, r, m + IDS_PER_STEP)
  {
  }

  lemma WatcherExitsEvolve(o: Record, n: nat, t: Transition)
    requires Orderly(o, n)
    ensures var closed := CloseCoreEntries(o, WatcherEvidence(t));
            Evolves(o, n, closed.(watcherCursor := Some(Cursor(t.occurredAt, t.id))), n + IDS_PER_STEP)
  {
    var closed := CloseCoreEntries(o, WatcherEvidence(t));
    CoreExitsEvolve(o, n, WatcherEvidence(t));
    MoreIds(o, n, closed, n);
    CursorIsImmaterial(o, n, closed, n + IDS_PER_STEP, Some(Cursor(t.occurredAt, t.id)));
  }

  lemma IngestTransitionEvolves(o: Record, n: nat, t: Transition)
    requires Orderly(o, n) && WellFormed(TransitionAdvancement(t, None, false))
    ensures IngestTransition(o, t, n).Some? ==>
              Evolves(o, n, IngestTransition(o, t, n).value, n + IDS_PER_STEP)
  {
    EvolvesReflexive(o, n);
    MoreIds(o, n, o, n);
    if t.status.WatchInvalidated? || t.status.WatchExpired? {
      WatcherExitsEvolve(o, n, t);
    } else {
      var a := TransitionAdvancement(t, Some(t.setup), true);
      AdvanceEvolves(o, n, a);
      if Advance(o, a, n).Some? {
        CursorIsImmaterial(o, n, Advance(o, a, n).value, n + IDS_PER_STEP, Some(Cursor(t.occurredAt, t.id)));
      }
    }
  }

  lemma CursorIsImmaterial(o: Record, n: nat, r: Record, m: nat, cursor: Option<Cursor>)
    requires Evolves(o, n, r, m)
    ensures Evolves(o, n, r.(watcherCursor := cursor), m)
  {
  }

  lemma ReferencesAreImmaterial(o: Record, n: nat, r: Record, m: nat, references: seq<Reference>)
    requires Evolves(o, n, r, m)
    ensures Evolves(o, n, r.(references := references), m)
  {
  }

  lemma IngestSignalEvolves(o: Record, n: nat, s: Signal)
    requires Orderly(o, n) && WellFormed(SignalAdvancement(s))
    ensures IngestSignal(o, s, n).Some? ==> Evolves(o, n, IngestSignal(o, s, n).value, n + IDS_PER_STEP)
  {
    EvolvesReflexive(o, n);
    MoreIds(o, n, o, n);
    var a := SignalAdvancement(s);
    AdvanceEvolves(o, n, a);
    if Advance(o, a, n).Some? {
      var references := ReplaceReference(o.references, SignalReference(s));
      var r := Advance(o, a, n).value.(references := references);
      ReferencesAreImmaterial(o, n, Advance(o, a, n).value, n + IDS_PER_STEP, references);
      CaptureEvolves(r, n + IDS_PER_STEP, s);
      EvolvesTransitive(o, n, r, n + IDS_PER_STEP, CaptureEvidence(r, s), n + IDS_PER_STEP);
    }
  }

  lemma CaptureEvolves(o: Record, n: nat, s: Signal)
    requires Orderly(o, n)
    ensures Evolves(o, n, CaptureEvidence(o, s), n)
  {
    var r := CaptureEvidence(o, s);
    assert forall i :: 0 <= i < |o.legs| ==> LegEvolves(o.legs[i], r.legs[i]);
    PointwiseEvolves(o, n, r);
  }
}
