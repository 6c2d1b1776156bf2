/** Merging the duplicates of one SwingTrade thesis: references, checkpoints and legs by structural id. */
module SwingTradeConsolidation {
  import opened Market
  import opened Position
  import opened Opportunity
  import opened StructuralId
  import opened GroupMerge

  /** The order of stages; no stage comes first. */
  function StageRank(stage: Option<SwingStage>): nat {
    match stage
    case None => 0
    case Some(ST1) => 1
    case Some(ST2) => 2
    case Some(ST3) => 3
    case Some(ST4) => 4
  }

  function MergeReferences(a: Reference, b: Reference): Reference {
    var latest := if b.createdAt >= a.createdAt then b else a;
    latest.(setup := a.setup, peakSt := if StageRank(b.peakSt) > StageRank(a.peakSt) then b.peakSt else a.peakSt)
  }

  const REFERENCES: Scheme<Reference> := Scheme(
    (r: Reference) => r.family == SwingTrade, (r: Reference) => Anything, (r: Reference) => r.setup,
    (r: Reference, id: string) => r.(setup := id), (a: Reference, b: Reference) => MergeReferences(a, b))

  function MaxInt(a: int, b: int): int { if a >= b then a else b }

  function MinInt(a: int, b: int): int { if a <= b then a else b }

  function MergeCheckpoints(a: Checkpoint, b: Checkpoint): Checkpoint {
    var earliest := if a.reachedAt <= b.reachedAt then a else b;
    var latest := if b.reachedAt >= a.reachedAt then b else a;
    earliest.(setup := a.setup, quote := Quote(
      latest.quote.current,
      MaxPrice(a.quote.highest, b.quote.highest), MinPrice(a.quote.lowest, b.quote.lowest),
      MaxInt(a.quote.mfe, b.quote.mfe), MinInt(a.quote.mae, b.quote.mae)))
  }

  const CHECKPOINTS: Scheme<Checkpoint> := Scheme(
    (cp: Checkpoint) => cp.family == SwingTrade && cp.setup.Some?,
    (cp: Checkpoint) => Maturity(cp.level, cp.st), (cp: Checkpoint) => cp.setup.Or(""),
    (cp: Checkpoint, id: string) => cp.(setup := Some(id)), (a: Checkpoint, b: Checkpoint) => MergeCheckpoints(a, b))

  /** An open leg is preferred to a watching one, and that to a closed one. */
  function StatusRank(leg: Leg): int {
    if leg.status.Open? then 3 else if leg.status.Watching? then 2 else 1
  }

  function PreferredLeg(a: Leg, b: Leg): Leg {
    if StatusRank(b) != StatusRank(a) then if StatusRank(b) > StatusRank(a) then b else a
    else if a.openedAt.None? || b.openedAt.None? then if a.openedAt.None? then a else b
    else if a.openedAt.value <= b.openedAt.value then a
    else b
  }

  const LEGS: Scheme<Leg> := Scheme(
    (leg: Leg) => leg.horizon == Swing && leg.setup.Some?,
    (leg: Leg) => Anything, (leg: Leg) => leg.setup.Or(""),
    (leg: Leg, id: string) => leg.(setup := Some(id)), (a: Leg, b: Leg) => PreferredLeg(a, b))

  lemma ReferencesAreLawful()
    ensures REFERENCES.Lawful()
  {
  }

  lemma CheckpointsAreLawful()
    ensures CHECKPOINTS.Lawful()
  {
  }

  lemma LegsAreLawful()
    ensures LEGS.Lawful()
  {
  }

  /** The record with its three lists consolidated. */
  function ConsolidatedTheses(o: Record): Record {
    o.(references := Consolidated(REFERENCES, o.references),
       checkpoints := Consolidated(CHECKPOINTS, o.checkpoints),
       legs := Consolidated(LEGS, o.legs))
  }

  method ConsolidateTheses(o: Record) returns (r: Record)
    ensures r == ConsolidatedTheses(o)
  {
    var references := Consolidate(REFERENCES, o.references);
    var checkpoints := Consolidate(CHECKPOINTS, o.checkpoints);
    var legs := Consolidate(LEGS, o.legs);
    if references == o.references && checkpoints == o.checkpoints && legs == o.legs {
      return o;
    }
    r := o.(references := references, checkpoints := checkpoints, legs := legs);
  }

  /** Merging two items takes the larger measure, so a merged group has the largest of its group. */
  lemma {:induction false} FoldIsLargest<T(!new)>(merge: (T, T) -> T, g: seq<T>, measure: T -> real)
    requires g != []
    requires forall a, b :: measure(merge(a, b)) == if measure(a) >= measure(b) then measure(a) else measure(b)
    ensures forall i :: 0 <= i < |g| ==> measure(g[i]) <= measure(Fold(merge, g))
    ensures exists i :: 0 <= i < |g| && measure(g[i]) == measure(Fold(merge, g))
    decreases |g|
  {
    if |g| > 1 {
      var last := |g| - 1;
      FoldIsLargest(merge, g[..last], measure);
      var j :| 0 <= j < last && measure(g[..last][j]) == measure(Fold(merge, g[..last]));
      assert g[..last][j] == g[j];
      forall i | 0 <= i < |g| ensures measure(g[i]) <= measure(Fold(merge, g)) {
        if i < last {
          assert g[..last][i] == g[i];
        }
      }
    } else {
      assert measure(g[0]) == measure(Fold(merge, g));
    }
  }

  /** `v` has the largest measure of the group, and a member attains it. */
  ghost predicate Largest<T(!new)>(g: seq<T>, v: T, measure: T -> real) {
    && (forall i :: 0 <= i < |g| ==> measure(g[i]) <= measure(v))
    && (exists i :: 0 <= i < |g| && measure(g[i]) == measure(v))
  }

  ghost predicate Smallest<T(!new)>(g: seq<T>, v: T, measure: T -> real) {
    Largest(g, v, x => -measure(x))
  }

  /** One reference per structural id, with the latest time and the highest peak of its group. */
  lemma MergedReference(xs: seq<Reference>, p: nat)
    requires p < |Consolidated(REFERENCES, xs)| && REFERENCES.KeyOf(xs[Heads(REFERENCES, xs)[p]]).Some?
    ensures var g := Group(REFERENCES, xs, REFERENCES.KeyOf(xs[Heads(REFERENCES, xs)[p]]).value);
            var r := Consolidated(REFERENCES, xs)[p];
            && Largest(g, r, (x: Reference) => x.createdAt as real)
            && Largest(g, r, (x: Reference) => StageRank(x.peakSt) as real)
  {
    var k := REFERENCES.KeyOf(xs[Heads(REFERENCES, xs)[p]]).value;
    GroupOfOccurring(REFERENCES, xs, k);
    assert Occurs(REFERENCES, xs, k);
    var g := Group(REFERENCES, xs, k);
    FoldIsLargest(REFERENCES.merge, g, (x: Reference) => x.createdAt as real);
    FoldIsLargest(REFERENCES.merge, g, (x: Reference) => StageRank(x.peakSt) as real);
  }

  /** One checkpoint per level, stage and structural id, with the earliest time and the extremes of its group. */
  lemma MergedCheckpoint(xs: seq<Checkpoint>, p: nat)
    requires p < |Consolidated(CHECKPOINTS, xs)| && CHECKPOINTS.KeyOf(xs[Heads(CHECKPOINTS, xs)[p]]).Some?
    ensures var g := Group(CHECKPOINTS, xs, CHECKPOINTS.KeyOf(xs[Heads(CHECKPOINTS, xs)[p]]).value);
            var r := Consolidated(CHECKPOINTS, xs)[p];
            && Smallest(g, r, (x: Checkpoint) => x.reachedAt as real)
            && Largest(g, r, (x: Checkpoint) => x.quote.highest as real)
            && Smallest(g, r, (x: Checkpoint) => x.quote.lowest as real)
            && Largest(g, r, (x: Checkpoint) => x.quote.mfe as real)
            && Smallest(g, r, (x: Checkpoint) => x.quote.mae as real)
  {
    var k := CHECKPOINTS.KeyOf(xs[Heads(CHECKPOINTS, xs)[p]]).value;
    GroupOfOccurring(CHECKPOINTS, xs, k);
    assert Occurs(CHECKPOINTS, xs, k);
    var g := Group(CHECKPOINTS, xs, k);
    EarliestOfGroup(g);
    PricesOfGroup(g);
    ExcursionsOfGroup(g);
  }

  lemma EarliestOfGroup(g: seq<Checkpoint>)
    requires g != []
    ensures Smallest(g, Fold(CHECKPOINTS.merge, g), (x: Checkpoint) => x.reachedAt as real)
  {
    FoldIsLargest(CHECKPOINTS.merge, g, (x: Checkpoint) => -(x.reachedAt as real));
  }

  lemma PricesOfGroup(g: seq<Checkpoint>)
    requires g != []
    ensures Largest(g, Fold(CHECKPOINTS.merge, g), (x: Checkpoint) => x.quote.highest as real)
    ensures Smallest(g, Fold(CHECKPOINTS.merge, g), (x: Checkpoint) => x.quote.lowest as real)
  {
    FoldIsLargest(CHECKPOINTS.merge, g, (x: Checkpoint) => x.quote.highest as real);
    FoldIsLargest(CHECKPOINTS.merge, g, (x: Checkpoint) => -(x.quote.lowest as real));
  }

  lemma ExcursionsOfGroup(g: seq<Checkpoint>)
    requires g != []
    ensures Largest(g, Fold(CHECKPOINTS.merge, g), (x: Checkpoint) => x.quote.mfe as real)
    ensures Smallest(g, Fold(CHECKPOINTS.merge, g), (x: Checkpoint) => x.quote.mae as real)
  {
    FoldIsLargest(CHECKPOINTS.merge, g, (x: Checkpoint) => x.quote.mfe as real);
    FoldIsLargest(CHECKPOINTS.merge, g, (x: Checkpoint) => -(x.quote.mae as real));
  }

  /** The leg that stands for a group: one of it, of the best status, and if it is dated the earliest
      of those. */
  ghost predicate Represents(g: seq<Leg>, leg: Leg) {
    && leg in g
    && (forall i :: 0 <= i < |g| ==> StatusRank(g[i]) <= StatusRank(leg))
    && (leg.openedAt.Some? ==> forall i :: 0 <= i < |g| && StatusRank(g[i]) == StatusRank(leg) ==>
          g[i].openedAt.Some? && leg.openedAt.value <= g[i].openedAt.value)
  }

  lemma {:induction false} LegOfGroup(g: seq<Leg>)
    requires g != []
    ensures Represents(g, Fold(LEGS.merge, g))
    decreases |g|
  {
    if |g| > 1 {
      var last := |g| - 1;
      LegOfGroup(g[..last]);
      var a, b := Fold(LEGS.merge, g[..last]), g[last];
      assert g == g[..last] + [b];
      assert Fold(LEGS.merge, g) == PreferredLeg(a, b);
      forall i | 0 <= i < last ensures g[..last][i] == g[i] {
      }
    }
  }

  /** One Swing leg per structural id, and an open one whenever the group has an open one. */
  lemma MergedLeg(xs: seq<Leg>, p: nat)
    requires p < |Consolidated(LEGS, xs)| && LEGS.KeyOf(xs[Heads(LEGS, xs)[p]]).Some?
    ensures var g, leg := Group(LEGS, xs, LEGS.KeyOf(xs[Heads(LEGS, xs)[p]]).value), Consolidated(LEGS, xs)[p];
            && Represents(g, leg)
            && ((exists i :: 0 <= i < |g| && g[i].status.Open?) <==> leg.status.Open?)
  {
    var k := LEGS.KeyOf(xs[Heads(LEGS, xs)[p]]).value;
    GroupOfOccurring(LEGS, xs, k);
    assert Occurs(LEGS, xs, k);
    LegOfGroup(Group(LEGS, xs, k));
  }

  /** Merging two checkpoints keeps the validator and the profit-and-loss envelope. */
  lemma MergeKeepsEnvelope(a: Checkpoint, b: Checkpoint)
    requires a.Valid() && a.Enveloped() && b.Valid() && b.Enveloped()
    ensures MergeCheckpoints(a, b).Valid() && MergeCheckpoints(a, b).Enveloped()
  {
    MergeKeepsResult(a, b);
  }

  lemma MergeKeepsResult(a: Checkpoint, b: Checkpoint)
    requires a.Enveloped() && b.Enveloped()
    ensures MergeCheckpoints(a, b).Enveloped()
  {
  }

  lemma {:induction false} GroupKeepsEnvelope(g: seq<Checkpoint>)
    requires g != [] && forall i :: 0 <= i < |g| ==> g[i].Valid() && g[i].Enveloped()
    ensures Fold(CHECKPOINTS.merge, g).Valid() && Fold(CHECKPOINTS.merge, g).Enveloped()
    decreases |g|
  {
    if |g| > 1 {
      GroupKeepsEnvelope(g[..|g| - 1]);
      MergeKeepsEnvelope(Fold(CHECKPOINTS.merge, g[..|g| - 1]), g[|g| - 1]);
    }
  }

  lemma NormalIsEnveloped(cp: Checkpoint)
    requires cp.Valid() && cp.Enveloped()
    ensures CHECKPOINTS.Normal(cp).Valid() && CHECKPOINTS.Normal(cp).Enveloped()
  {
    assert CHECKPOINTS.Normal(cp) == cp.(setup := Some(Canonical(CHECKPOINTS.id(cp))));
  }

  /** What renaming keeps, every member of a group has. */
  lemma {:induction false} GroupKeeps<T(!new)>(s: Scheme<T>, xs: seq<T>, k: Key, good: T -> bool)
    requires forall i :: 0 <= i < |xs| ==> good(xs[i])
    requires forall x :: good(x) ==> good(s.Normal(x))
    ensures forall i :: 0 <= i < |Group(s, xs, k)| ==> good(Group(s, xs, k)[i])
    decreases |xs|
  {
    if xs != [] {
      GroupKeeps(s, xs[..|xs| - 1], k, good);
    }
  }

  lemma GroupIsEnveloped(xs: seq<Checkpoint>, k: Key)
    requires forall i :: 0 <= i < |xs| ==> xs[i].Valid() && xs[i].Enveloped()
    ensures var g := Group(CHECKPOINTS, xs, k); forall i :: 0 <= i < |g| ==> g[i].Valid() && g[i].Enveloped()
  {
    var good := (cp: Checkpoint) => cp.Valid() && cp.Enveloped();
    forall cp | good(cp) ensures good(CHECKPOINTS.Normal(cp)) {
      NormalIsEnveloped(cp);
    }
    GroupKeeps(CHECKPOINTS, xs, k, good);
    var g := Group(CHECKPOINTS, xs, k);
    forall i | 0 <= i < |g| ensures g[i].Valid() && g[i].Enveloped() {
      assert good(g[i]);
    }
  }

  /** Consolidation, like every other copy of a checkpoint, keeps the validator it never runs. */
  lemma ConsolidationKeepsEnvelope(xs: seq<Checkpoint>, p: nat)
    requires forall i :: 0 <= i < |xs| ==> xs[i].Valid() && xs[i].Enveloped()
    requires p < |Consolidated(CHECKPOINTS, xs)|
    ensures Consolidated(CHECKPOINTS, xs)[p].Valid() && Consolidated(CHECKPOINTS, xs)[p].Enveloped()
  {
    var i := Heads(CHECKPOINTS, xs)[p];
    if CHECKPOINTS.KeyOf(xs[i]).Some? {
      var k := CHECKPOINTS.KeyOf(xs[i]).value;
      GroupOfOccurring(CHECKPOINTS, xs, k);
      assert Occurs(CHECKPOINTS, xs, k);
      GroupIsEnveloped(xs, k);
      GroupKeepsEnvelope(Group(CHECKPOINTS, xs, k));
    }
  }

  /** Consolidating a record twice is consolidating it once, exactly when no SwingTrade id on its
      references, checkpoints and legs ends in two versions. */
  lemma ThesesIdempotentExactly(o: Record)
    ensures ConsolidatedTheses(ConsolidatedTheses(o)) == ConsolidatedTheses(o)
            <==> && OneVersionEach(REFERENCES, o.references)
                 && OneVersionEach(CHECKPOINTS, o.checkpoints)
                 && OneVersionEach(LEGS, o.legs)
  {
    ReferencesAreLawful();
    CheckpointsAreLawful();
    LegsAreLawful();
    IdempotentExactly(REFERENCES, o.references);
    IdempotentExactly(CHECKPOINTS, o.checkpoints);
    IdempotentExactly(LEGS, o.legs);
  }
}
