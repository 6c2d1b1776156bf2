/** The materialised record of one ticker's entry thesis and the questions of ownership asked of it. */
module Opportunity {
  import opened Market
  import opened Position
  import opened Analyses

  datatype Status = StatusArmed | StatusInZone | StatusConfirming | StatusOpen | StatusClosed

  datatype CloseReason = OriginalThesisInvalidated | ThesisExpired | UniverseRemoved | AllHorizonsClosed

  /** Provenance of one setup tracked by the record. */
  datatype Reference = Reference(
    signalId: nat, family: Family, maturity: Option<Level>,
    currentSt: Option<SwingStage>, peakSt: Option<SwingStage>,
    currentCt: Option<CountertrendStage>, peakCt: Option<CountertrendStage>,
    setup: string, createdAt: Time, horizons: seq<Horizon>)

  /** The last watcher event causally applied. */
  datatype Cursor = Cursor(occurredAt: Time, eventId: nat) {
    predicate Before(at: Time, id: nat) {
      occurredAt < at || (occurredAt == at && eventId < id)
    }
  }

  datatype Record = Record(
    id: nat, symbol: string, status: Status,
    currentMaturity: Level, peakMaturity: Level, progress: nat, watchId: Option<nat>,
    armedAt: Time, updatedAt: Time, lastBarAt: Option<Time>, expiresAt: Time,
    closedAt: Option<Time>, closeReason: Option<CloseReason>,
    zoneLow: Price, zoneHigh: Price, stop: Price, originalPrice: Price, current: Price,
    revision: nat, primary: Family,
    references: seq<Reference>, watcherCursor: Option<Cursor>, analyses: seq<Analysis>,
    legs: seq<Leg>, checkpoints: seq<Checkpoint>)

  /** The families that claim a setup, through its checkpoints or through its provenance. */
  function SetupFamilies(o: Record, setup: string): set<Family> {
    CheckpointFamilies(o.checkpoints, setup)
    + (set i | 0 <= i < |o.references| && o.references[i].setup == setup :: o.references[i].family)
  }

  function CheckpointFamilies(cps: seq<Checkpoint>, setup: string): set<Family> {
    set i | 0 <= i < |cps| && cps[i].setup == Some(setup) :: cps[i].family
  }

  /** The family that owns a leg. Ambiguous provenance owns nothing. */
  function LegFamily(o: Record, leg: Leg): Option<Family> {
    if leg.family.Some? then leg.family
    else if leg.setup.None? then Some(o.primary)
    else SoleMember(SetupFamilies(o, leg.setup.value))
  }

  function SoleMember(s: set<Family>): Option<Family> {
    if |s| == 1 then
      SingletonHasMember(s);
      var f :| f in s && s == {f};
      Some(f)
    else None
  }

  lemma SingletonHasMember(s: set<Family>)
    requires |s| == 1
    ensures exists f :: f in s && s == {f}
  {
    var f :| f in s;
    assert |s - {f}| == 0;
    assert s == {f};
  }

  /** Whether a leg and a checkpoint are two views of one paper entry. */
  predicate SameEntry(o: Record, cp: Checkpoint, leg: Leg) {
    && LegFamily(o, leg) == Some(cp.family)
    && leg.openedAt == Some(cp.reachedAt)
    && leg.entry == Some(cp.entry)
    && leg.stop == cp.stop
    && leg.target == cp.target
    && (leg.setup.None? || leg.setup == cp.setup)
  }

  /** The horizons a checkpoint answers to: those of its provenance, else those its family holds. */
  function CheckpointHorizons(o: Record, cp: Checkpoint): set<Horizon> {
    var own := set i | 0 <= i < |o.references| && Some(o.references[i].setup) == cp.setup
                       && o.references[i].family == cp.family :: i;
    if own != {} then set i, h | i in own && h in o.references[i].horizons :: h
    else set i | 0 <= i < |o.legs| && LegFamily(o, o.legs[i]) == Some(cp.family) :: o.legs[i].horizon
  }

  predicate Entered(legs: seq<Leg>) {
    forall i :: 0 <= i < |legs| ==> legs[i].Entered()
  }

  /** `a` and `b` attribute setups to the same families. */
  ghost predicate SameOwnership(a: Record, b: Record) {
    && a.primary == b.primary && a.references == b.references
    && |a.checkpoints| == |b.checkpoints|
    && forall i :: 0 <= i < |a.checkpoints| ==>
         a.checkpoints[i].family == b.checkpoints[i].family && a.checkpoints[i].setup == b.checkpoints[i].setup
  }

  lemma ClaimsCarryOver(a: seq<Checkpoint>, b: seq<Checkpoint>, setup: string)
    requires |a| == |b| && forall i :: 0 <= i < |a| ==> a[i].family == b[i].family && a[i].setup == b[i].setup
    ensures CheckpointFamilies(a, setup) <= CheckpointFamilies(b, setup)
  {
    forall f | f in CheckpointFamilies(a, setup) ensures f in CheckpointFamilies(b, setup) {
      var i :| 0 <= i < |a| && a[i].setup == Some(setup) && a[i].family == f;
      assert b[i].setup == Some(setup) && b[i].family == f;
    }
  }

  lemma OwnershipDecidesFamily(a: Record, b: Record, x: Leg, y: Leg)
    requires SameOwnership(a, b) && x.family == y.family && x.setup == y.setup
    ensures LegFamily(a, x) == LegFamily(b, y)
  {
    if x.setup.Some? {
      ClaimsCarryOver(a.checkpoints, b.checkpoints, x.setup.value);
      ClaimsCarryOver(b.checkpoints, a.checkpoints, x.setup.value);
      assert SetupFamilies(a, x.setup.value) == SetupFamilies(b, x.setup.value);
    }
  }
}
