/** Closing: a whole record, or only the core entries that one piece of evidence speaks about. */
module Exits {
  import opened Market
  import opened Position
  import opened Opportunity

  function CloseLegs(legs: seq<Leg>, price: Price, now: Time, status: LegStatus): (closed: seq<Leg>)
    requires Entered(legs)
    ensures |closed| == |legs|
  {
    seq(|legs|, i requires 0 <= i < |legs| => CloseLeg(legs[i], price, now, status))
  }

  function CloseCheckpoints(cps: seq<Checkpoint>, price: Price, now: Time, outcome: LegStatus): (closed: seq<Checkpoint>)
    ensures |closed| == |cps|
  {
    seq(|cps|, i requires 0 <= i < |cps| => CloseCheckpoint(cps[i], price, now, outcome))
  }

  /** Close the opportunity and everything in it that is open. */
  function CloseRecord(o: Record, price: Price, now: Time, reason: CloseReason, status: LegStatus): Record
    requires Entered(o.legs)
  {
    o.(status := StatusClosed,
       current := if now >= o.updatedAt then price else o.current,
       updatedAt := MaxTime(now, o.updatedAt),
       closedAt := Some(now), closeReason := Some(reason), revision := o.revision + 1,
       legs := CloseLegs(o.legs, price, now, status),
       checkpoints := CloseCheckpoints(o.checkpoints, price, now, status))
  }

  /** One piece of evidence against core entries, and the exit it asks for. */
  datatype Evidence = Evidence(
    price: Price, now: Time, at: Time, reason: CloseReason, status: LegStatus,
    horizon: Option<Horizon>, breachOnly: bool, families: set<Family>)

  predicate SpeaksOfLeg(o: Record, e: Evidence, leg: Leg) {
    && LegFamily(o, leg).Some? && LegFamily(o, leg).value in e.families
    && (e.horizon.None? || e.horizon.value == leg.horizon)
    && e.at >= leg.openedAt.Or(o.armedAt)
    && (!e.breachOnly || e.price <= leg.stop)
  }

  predicate SpeaksOfCheckpoint(o: Record, e: Evidence, cp: Checkpoint) {
    && cp.family in e.families
    && e.at >= cp.reachedAt
    && (e.horizon.None? || e.horizon.value in CheckpointHorizons(o, cp))
    && (!e.breachOnly || e.price <= cp.stop)
  }

  /** Open legs the evidence speaks of are closed, watching ones are dropped. */
  function CloseSpokenLegs(o: Record, e: Evidence, legs: seq<Leg>): (r: seq<Leg>)
    requires Entered(legs)
    ensures Entered(r)
  {
    if legs == [] then []
    else
      var rest := CloseSpokenLegs(o, e, legs[1..]);
      if !SpeaksOfLeg(o, e, legs[0]) then [legs[0]] + rest
      else if legs[0].status.Watching? then rest
      else [CloseLeg(legs[0], e.price, e.now, e.status)] + rest
  }

  function CloseSpokenCheckpoints(o: Record, e: Evidence): (r: seq<Checkpoint>)
    ensures |r| == |o.checkpoints|
  {
    seq(|o.checkpoints|, i requires 0 <= i < |o.checkpoints| =>
      if SpeaksOfCheckpoint(o, e, o.checkpoints[i])
      then CloseCheckpoint(o.checkpoints[i], e.price, e.now, e.status) else o.checkpoints[i])
  }

  predicate AnythingOpen(legs: seq<Leg>, cps: seq<Checkpoint>) {
    || (exists i :: 0 <= i < |legs| && !legs[i].status.Terminal())
    || (exists i :: 0 <= i < |cps| && !cps[i].closed)
  }

  /** The tenth version: the evidence closes what it speaks of, and the record only when nothing is left. */
  function CloseSpoken(o: Record, e: Evidence): (r: Record)
    requires Entered(o.legs)
    ensures Entered(r.legs) && |r.checkpoints| == |o.checkpoints|
  {
    var legs := CloseSpokenLegs(o, e, o.legs);
    var cps := CloseSpokenCheckpoints(o, e);
    if legs == o.legs && cps == o.checkpoints then o
    else
      var updated := o.(legs := legs, checkpoints := cps,
                        updatedAt := MaxTime(o.updatedAt, e.now), revision := o.revision + 1);
      if AnythingOpen(legs, cps) then updated
      else CloseRecord(updated, e.price, e.now, e.reason, e.status)
  }

  /** The first checkpoint that this evidence has just closed and that shares the leg's entry. */
  function JustClosed(before: seq<Checkpoint>, o: Record, leg: Leg, from: nat): (r: Option<Checkpoint>)
    requires |before| == |o.checkpoints| && from <= |before|
    ensures r.Some? ==> exists i :: from <= i < |before| && r.value == o.checkpoints[i]
                                    && !before[i].closed && o.checkpoints[i].closed
                                    && SameEntry(o, o.checkpoints[i], leg)
    decreases |before| - from
  {
    if from == |before| then None
    else if !before[from].closed && o.checkpoints[from].closed && SameEntry(o, o.checkpoints[from], leg)
    then Some(o.checkpoints[from])
    else JustClosed(before, o, leg, from + 1)
  }

  /** A newly closed checkpoint has its whole exit. */
  lemma SpokenExitsComplete(o: Record, e: Evidence, i: nat)
    requires Entered(o.legs) && i < |o.checkpoints|
    requires !o.checkpoints[i].closed && CloseSpoken(o, e).checkpoints[i].closed
    ensures var cp := CloseSpoken(o, e).checkpoints[i];
            && SpeaksOfCheckpoint(o, e, o.checkpoints[i])
            && cp == CloseCheckpoint(o.checkpoints[i], e.price, e.now, e.status)
            && cp.exit == Exit(Some(e.now), Some(e.price), Some(Percent(e.price, cp.entry)))
            && cp.outcome == Some(e.status)
  {
    var cps := CloseSpokenCheckpoints(o, e);
    assert cps[i].closed ==> SpeaksOfCheckpoint(o, e, o.checkpoints[i]);
  }

  function FollowExit(o: Record, e: Evidence, closed: Record, leg: Leg): (r: Leg)
    requires Entered(o.legs) && closed == CloseSpoken(o, e) && leg.Entered()
    ensures r.Entered()
  {
    match JustClosed(o.checkpoints, closed, leg, 0)
    case None => leg
    case Some(cp) =>
      var i :| 0 <= i < |o.checkpoints| && cp == closed.checkpoints[i] && !o.checkpoints[i].closed && cp.closed;
      SpokenExitsComplete(o, e, i);
      CloseLeg(leg, cp.exit.price.value, cp.exit.at.value, cp.outcome.value)
  }

  /** The eighteenth version: a leg follows the checkpoint it shares its entry with. */
  function CloseCoreEntries(o: Record, e: Evidence): (r: Record)
    requires Entered(o.legs)
    ensures Entered(r.legs) && |r.checkpoints| == |o.checkpoints|
  {
    var closed := CloseSpoken(o, e);
    closed.(legs := seq(|closed.legs|, i requires 0 <= i < |closed.legs| => FollowExit(o, e, closed, closed.legs[i])))
  }

  // ---------------------------------------------------------------- what evidence cannot touch

  /** `r` is what the evidence leaves of `leg`, when it leaves it. */
  predicate SpokenFrom(o: Record, e: Evidence, leg: Leg, r: Leg)
    requires leg.Entered()
  {
    if SpeaksOfLeg(o, e, leg) then !leg.status.Watching? && r == CloseLeg(leg, e.price, e.now, e.status)
    else r == leg
  }

  /** What the evidence leaves of one leg: nothing, itself, or itself closed. */
  function AfterEvidence(o: Record, e: Evidence, leg: Leg): seq<Leg>
    requires leg.Entered()
  {
    if !SpeaksOfLeg(o, e, leg) then [leg]
    else if leg.status.Watching? then []
    else [CloseLeg(leg, e.price, e.now, e.status)]
  }

  lemma SpokenStep(o: Record, e: Evidence, legs: seq<Leg>, i: nat)
    requires Entered(legs) && i < |legs|
    ensures CloseSpokenLegs(o, e, legs[i..]) == AfterEvidence(o, e, legs[i]) + CloseSpokenLegs(o, e, legs[i + 1..])
  {
    assert legs[i..][0] == legs[i] && legs[i..][1..] == legs[i + 1..];
    assert [] + CloseSpokenLegs(o, e, legs[i + 1..]) == CloseSpokenLegs(o, e, legs[i + 1..]);
  }

  /** The first leg of a list contributes what the evidence leaves of it, and nothing else. */
  lemma SpokenHead(o: Record, e: Evidence, legs: seq<Leg>, r: Leg)
    requires legs != [] && Entered(legs)
    ensures r in CloseSpokenLegs(o, e, legs) <==>
            SpokenKept(o, e, legs[0], r) || r in CloseSpokenLegs(o, e, legs[1..])
  {
  }

  predicate SpokenKept(o: Record, e: Evidence, leg: Leg, r: Leg)
    requires leg.Entered()
  {
    !(SpeaksOfLeg(o, e, leg) && leg.status.Watching?) && SpokenFrom(o, e, leg, r)
  }

  lemma {:induction false} SpokenValueOrigin(o: Record, e: Evidence, legs: seq<Leg>, r: Leg) returns (i: nat)
    requires Entered(legs) && r in CloseSpokenLegs(o, e, legs)
    ensures i < |legs| && SpokenKept(o, e, legs[i], r)
  {
    SpokenHead(o, e, legs, r);
    if SpokenKept(o, e, legs[0], r) {
      i := 0;
    } else {
      var k := SpokenValueOrigin(o, e, legs[1..], r);
      i := k + 1;
    }
  }

  /** Where a leg of the result comes from: itself, untouched, or closed because it was spoken of. */
  lemma SpokenLegOrigin(o: Record, e: Evidence, legs: seq<Leg>, j: nat) returns (i: nat)
    requires Entered(legs) && j < |CloseSpokenLegs(o, e, legs)|
    ensures i < |legs| && SpokenFrom(o, e, legs[i], CloseSpokenLegs(o, e, legs)[j])
  {
    i := SpokenValueOrigin(o, e, legs, CloseSpokenLegs(o, e, legs)[j]);
  }

  /** What the evidence leaves of a leg it does not drop. */
  function Spoken(o: Record, e: Evidence, leg: Leg): Leg
    requires leg.Entered()
  {
    if SpeaksOfLeg(o, e, leg) then CloseLeg(leg, e.price, e.now, e.status) else leg
  }

  lemma {:induction false} SpokenValueDestination(o: Record, e: Evidence, legs: seq<Leg>, i: nat)
    requires Entered(legs) && i < |legs|
    requires !(SpeaksOfLeg(o, e, legs[i]) && legs[i].status.Watching?)
    ensures Spoken(o, e, legs[i]) in CloseSpokenLegs(o, e, legs)
  {
    SpokenHead(o, e, legs, Spoken(o, e, legs[i]));
    if i > 0 {
      SpokenValueDestination(o, e, legs[1..], i - 1);
    }
  }

  /** Where a leg goes: only a spoken-of watching leg goes nowhere. */
  lemma SpokenLegDestination(o: Record, e: Evidence, legs: seq<Leg>, i: nat) returns (j: nat)
    requires Entered(legs) && i < |legs|
    requires !(SpeaksOfLeg(o, e, legs[i]) && legs[i].status.Watching?)
    ensures j < |CloseSpokenLegs(o, e, legs)| && SpokenFrom(o, e, legs[i], CloseSpokenLegs(o, e, legs)[j])
  {
    SpokenValueDestination(o, e, legs, i);
    j :| 0 <= j < |CloseSpokenLegs(o, e, legs)| && CloseSpokenLegs(o, e, legs)[j] == Spoken(o, e, legs[i]);
  }

  /** The legs the tenth version leaves behind are those the evidence left, whether or not the
      record closes with them: it closes only when nothing is open. */
  lemma CloseSpokenLegsOnly(o: Record, e: Evidence)
    requires Entered(o.legs)
    ensures CloseSpoken(o, e).legs == CloseSpokenLegs(o, e, o.legs)
    ensures CloseSpoken(o, e).checkpoints == CloseSpokenCheckpoints(o, e)
    ensures SameOwnership(o, CloseSpoken(o, e))
  {
    var legs := CloseSpokenLegs(o, e, o.legs);
    var cps := CloseSpokenCheckpoints(o, e);
    if !AnythingOpen(legs, cps) {
      assert CloseLegs(legs, e.price, e.now, e.status) == legs;
      assert CloseCheckpoints(cps, e.price, e.now, e.status) == cps;
    }
  }

  /** Evidence reaches a leg through its checkpoint only if it speaks of the entry they share. */
  lemma FollowedExitIsSpoken(o: Record, e: Evidence, leg: Leg)
    requires Entered(o.legs) && leg.Entered() && leg.status.Open?
    requires FollowExit(o, e, CloseSpoken(o, e), leg) != leg
    ensures LegFamily(o, leg).Some? && LegFamily(o, leg).value in e.families
    ensures leg.openedAt.Some? && leg.openedAt.value <= e.at
    ensures FollowExit(o, e, CloseSpoken(o, e), leg) == CloseLeg(leg, e.price, e.now, e.status)
  {
    var closed := CloseSpoken(o, e);
    var cp := JustClosed(o.checkpoints, closed, leg, 0).value;
    var i :| 0 <= i < |o.checkpoints| && cp == closed.checkpoints[i] && !o.checkpoints[i].closed && cp.closed
             && SameEntry(closed, cp, leg);
    SpokenExitsComplete(o, e, i);
    CloseSpokenLegsOnly(o, e);
    OwnershipDecidesFamily(o, closed, leg, leg);
  }

  /** A leg is beyond the evidence when its family is not addressed or it was opened afterwards. */
  predicate LegBeyond(o: Record, e: Evidence, leg: Leg) {
    || LegFamily(o, leg).None? || LegFamily(o, leg).value !in e.families
    || (leg.openedAt.Some? && leg.openedAt.value > e.at)
  }

  predicate CheckpointBeyond(e: Evidence, cp: Checkpoint) {
    cp.family !in e.families || cp.reachedAt > e.at
  }

  /** Non-interference: what lies beyond the evidence is still in the record, unchanged. */
  lemma CoreExitsSpareTheRest(o: Record, e: Evidence)
    requires Entered(o.legs)
    ensures forall i :: 0 <= i < |o.legs| && LegBeyond(o, e, o.legs[i]) ==> o.legs[i] in CloseCoreEntries(o, e).legs
    ensures forall i :: 0 <= i < |o.checkpoints| && CheckpointBeyond(e, o.checkpoints[i]) ==>
              CloseCoreEntries(o, e).checkpoints[i] == o.checkpoints[i]
  {
    var closed := CloseSpoken(o, e);
    var r := CloseCoreEntries(o, e);
    CloseSpokenLegsOnly(o, e);
    forall i | 0 <= i < |o.legs| && LegBeyond(o, e, o.legs[i]) ensures o.legs[i] in r.legs {
      var j := SpokenLegDestination(o, e, o.legs, i);
      if closed.legs[j].status.Open? && r.legs[j] != closed.legs[j] {
        FollowedExitIsSpoken(o, e, closed.legs[j]);
      }
      assert r.legs[j] == o.legs[i];
    }
  }

  /** Every leg that survives is a leg of the record, as it was or closed on this evidence alone. */
  lemma CoreExitOrigin(o: Record, e: Evidence, j: nat) returns (i: nat)
    requires Entered(o.legs) && j < |CloseCoreEntries(o, e).legs|
    ensures i < |o.legs|
    ensures var r := CloseCoreEntries(o, e).legs[j];
            r == o.legs[i] || (o.legs[i].status.Open? && r == CloseLeg(o.legs[i], e.price, e.now, e.status))
  {
    var closed := CloseSpoken(o, e);
    CloseSpokenLegsOnly(o, e);
    i := SpokenLegOrigin(o, e, o.legs, j);
    if closed.legs[j].status.Open? && FollowExit(o, e, closed, closed.legs[j]) != closed.legs[j] {
      FollowedExitIsSpoken(o, e, closed.legs[j]);
    }
  }
}
