/** SwingTrade consolidation keeps the whole validator of the record, although no copy runs it. */
module ConsolidatedRecords {
  import opened Market
  import opened Position
  import opened RecoveryExit
  import opened Opportunity
  import opened Marking
  import opened Envelope
  import opened References
  import opened Validity
  import opened StructuralId
  import opened GroupMerge
  import opened SwingTradeConsolidation

  // ---------------------------------------------------------------- references

  lemma ReferencesStayApart(rs: seq<Reference>, p: nat, q: nat)
    requires AllApart(rs) && p < q < |Consolidated(REFERENCES, rs)|
    ensures Apart(Consolidated(REFERENCES, rs)[p], Consolidated(REFERENCES, rs)[q])
  {
    var a, b := Heads(REFERENCES, rs)[p], Heads(REFERENCES, rs)[q];
    var signal := (r: Reference) => r.signalId;
    forall i, j | 0 <= i < j < |rs| ensures signal(rs[i]) != signal(rs[j]) {
      assert Apart(rs[i], rs[j]);
    }
    SurvivorsDiffer(REFERENCES, rs, p, q, signal);
    HeadsIncrease(REFERENCES, rs);
    ReferencesAreLawful();
    if REFERENCES.KeyOf(rs[a]).Some? {
      ValueBelongs(REFERENCES, rs, a);
      OneSurvivorPerGroup(REFERENCES, rs, p, q);
    } else {
      assert Apart(rs[a], rs[b]);
    }
    if REFERENCES.KeyOf(rs[b]).Some? {
      ValueBelongs(REFERENCES, rs, b);
    }
  }

  lemma ConsolidationKeepsReferenced(rs: seq<Reference>)
    requires Referenced(rs)
    ensures Referenced(Consolidated(REFERENCES, rs))
  {
    HeadsAreFewer(REFERENCES, rs);
    forall p, q | 0 <= p < q < |Consolidated(REFERENCES, rs)|
      ensures Apart(Consolidated(REFERENCES, rs)[p], Consolidated(REFERENCES, rs)[q])
    {
      ReferencesStayApart(rs, p, q);
    }
  }

  /** An observation has no SwingTrade reference to merge. */
  lemma ObservedReferencesStay(rs: seq<Reference>)
    requires ObservedReferences(rs)
    ensures Consolidated(REFERENCES, rs) == rs
  {
    ReferencesAreLawful();
    DistinctIsFixed(REFERENCES, rs);
  }

  // ---------------------------------------------------------------- checkpoints

  lemma CheckpointsStayApart(cps: seq<Checkpoint>, p: nat, q: nat)
    requires forall i, j :: 0 <= i < j < |cps| ==> KeyedApart(cps[i], cps[j])
    requires p < q < |Consolidated(CHECKPOINTS, cps)|
    ensures KeyedApart(Consolidated(CHECKPOINTS, cps)[p], Consolidated(CHECKPOINTS, cps)[q])
  {
    var a, b := Heads(CHECKPOINTS, cps)[p], Heads(CHECKPOINTS, cps)[q];
    HeadsIncrease(CHECKPOINTS, cps);
    CheckpointsAreLawful();
    if CHECKPOINTS.KeyOf(cps[a]).Some? {
      ValueBelongs(CHECKPOINTS, cps, a);
      OneSurvivorPerGroup(CHECKPOINTS, cps, p, q);
    } else {
      assert KeyedApart(cps[a], cps[b]);
    }
    if CHECKPOINTS.KeyOf(cps[b]).Some? {
      ValueBelongs(CHECKPOINTS, cps, b);
    }
  }

  lemma MergedCheckpointSound(cps: seq<Checkpoint>, p: nat)
    requires forall i :: 0 <= i < |cps| ==> SoundCheckpoint(cps[i]) && OnTheMinute(cps[i])
    requires p < |Consolidated(CHECKPOINTS, cps)|
    ensures SoundCheckpoint(Consolidated(CHECKPOINTS, cps)[p]) && OnTheMinute(Consolidated(CHECKPOINTS, cps)[p])
  {
    var a := Heads(CHECKPOINTS, cps)[p];
    ConsolidationKeepsEnvelope(cps, p);
    CheckpointsAreLawful();
    if CHECKPOINTS.KeyOf(cps[a]).Some? {
      ValueBelongs(CHECKPOINTS, cps, a);
    }
  }

  // ---------------------------------------------------------------- legs

  /** A survivor is one of the legs of its group, renamed. */
  lemma SurvivingLeg(legs: seq<Leg>, p: nat, good: Leg -> bool)
    requires p < |Consolidated(LEGS, legs)|
    requires forall i :: 0 <= i < |legs| ==> good(legs[i])
    requires forall x :: good(x) ==> good(LEGS.Normal(x))
    ensures good(Consolidated(LEGS, legs)[p])
  {
    var a := Heads(LEGS, legs)[p];
    if LEGS.KeyOf(legs[a]).Some? {
      var k := LEGS.KeyOf(legs[a]).value;
      GroupOfOccurring(LEGS, legs, k);
      assert Occurs(LEGS, legs, k);
      GroupKeeps(LEGS, legs, k, good);
      LegOfGroup(Group(LEGS, legs, k));
    }
  }

  lemma MergedLegsSound(legs: seq<Leg>)
    requires forall i :: 0 <= i < |legs| ==> SoundLeg(legs[i]) && UnscopedNeverExpires(legs[i])
    ensures forall p :: 0 <= p < |Consolidated(LEGS, legs)| ==>
              SoundLeg(Consolidated(LEGS, legs)[p]) && UnscopedNeverExpires(Consolidated(LEGS, legs)[p])
  {
    var good := (leg: Leg) => SoundLeg(leg) && UnscopedNeverExpires(leg);
    forall p | 0 <= p < |Consolidated(LEGS, legs)|
      ensures SoundLeg(Consolidated(LEGS, legs)[p]) && UnscopedNeverExpires(Consolidated(LEGS, legs)[p])
    {
      SurvivingLeg(legs, p, good);
      assert good(Consolidated(LEGS, legs)[p]);
    }
  }

  lemma MergedLegsQuiet(legs: seq<Leg>)
    requires AllQuiet(legs)
    ensures AllQuiet(Consolidated(LEGS, legs))
  {
    var good := (leg: Leg) => Quiet(leg);
    forall p | 0 <= p < |Consolidated(LEGS, legs)| ensures Quiet(Consolidated(LEGS, legs)[p]) {
      SurvivingLeg(legs, p, good);
      assert good(Consolidated(LEGS, legs)[p]);
    }
  }

  // ---------------------------------------------------------------- the record

  lemma ConsolidationKeepsRecord(o: Record)
    requires ValidRecord(o)
    ensures ValidRecord(ConsolidatedTheses(o))
  {
    var r := ConsolidatedTheses(o);
    ConsolidationKeepsReferenced(o.references);
    HeadsAreFewer(CHECKPOINTS, o.checkpoints);
    if o.checkpoints == [] {
      ObservedReferencesStay(o.references);
      MergedLegsQuiet(o.legs);
    }
    forall p, q | 0 <= p < q < |r.checkpoints| ensures KeyedApart(r.checkpoints[p], r.checkpoints[q]) {
      CheckpointsStayApart(o.checkpoints, p, q);
    }
  }

  /** Consolidating a sound record leaves a sound record: the validators of the record, of its references,
      checkpoints and legs, and their envelopes. */
  lemma ConsolidationKeepsSound(o: Record)
    requires Sound(o)
    ensures Sound(ConsolidatedTheses(o))
  {
    var r := ConsolidatedTheses(o);
    ConsolidationKeepsRecord(o);
    MergedLegsSound(o.legs);
    forall p | 0 <= p < |r.checkpoints| ensures SoundCheckpoint(r.checkpoints[p]) && OnTheMinute(r.checkpoints[p]) {
      MergedCheckpointSound(o.checkpoints, p);
    }
  }
}
