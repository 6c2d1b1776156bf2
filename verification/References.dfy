/** The provenance list of a record: its validator's clauses and the bounded replacement that keeps them. */
module References {
  import opened Market
  import opened Position
  import opened Analyses
  import opened Opportunity
  import opened Marking
  import opened Exits
  import opened Lifecycle

  const MOST_REFERENCES := 32

  predicate SameSetup(a: Reference, b: Reference) {
    a.family == b.family && a.setup == b.setup
  }

  predicate Apart(a: Reference, b: Reference) {
    a.signalId != b.signalId && !SameSetup(a, b)
  }

  ghost predicate AllApart(rs: seq<Reference>) {
    forall i, j :: 0 <= i < j < |rs| ==> Apart(rs[i], rs[j])
  }

  /** At most thirty-two references, no two with one signal id, no two with one setup. */
  ghost predicate Referenced(rs: seq<Reference>) {
    |rs| <= MOST_REFERENCES && AllApart(rs)
  }

  /** No reference of another setup came from the signal of `r`. */
  predicate NewTo(rs: seq<Reference>, r: Reference) {
    forall i :: 0 <= i < |rs| && rs[i].signalId == r.signalId ==> SameSetup(rs[i], r)
  }

  lemma {:induction false} WithoutSetupMeans(rs: seq<Reference>, family: Family, setup: string)
    ensures |WithoutSetup(rs, family, setup)| <= |rs|
    ensures forall x :: x in WithoutSetup(rs, family, setup) ==> x in rs && !(x.family == family && x.setup == setup)
  {
    if rs != [] {
      WithoutSetupMeans(rs[1..], family, setup);
    }
  }

  lemma {:induction false} WithoutSetupApart(rs: seq<Reference>, family: Family, setup: string)
    requires AllApart(rs)
    ensures AllApart(WithoutSetup(rs, family, setup))
  {
    if rs != [] {
      var rest := WithoutSetup(rs[1..], family, setup);
      WithoutSetupApart(rs[1..], family, setup);
      WithoutSetupMeans(rs[1..], family, setup);
      forall j | 0 <= j < |rest| ensures Apart(rs[0], rest[j]) {
        assert rest[j] in rs[1..];
      }
    }
  }

  /** What the new list holds: the new reference and references that were there. */
  lemma ReplacedFrom(rs: seq<Reference>, r: Reference)
    ensures forall x :: x in ReplaceReference(rs, r) ==> x == r || x in rs
  {
    WithoutSetupMeans(rs, r.family, r.setup);
  }

  lemma AppendedApart(kept: seq<Reference>, r: Reference)
    requires AllApart(kept) && forall x :: x in kept ==> Apart(x, r)
    ensures AllApart(kept + [r])
  {
  }

  /** Replacing the reference of a setup keeps all three clauses, whatever falls off at the cap. */
  lemma ReplaceKeepsReferenced(rs: seq<Reference>, r: Reference)
    requires Referenced(rs) && NewTo(rs, r)
    ensures Referenced(ReplaceReference(rs, r))
  {
    var kept := WithoutSetup(rs, r.family, r.setup);
    WithoutSetupMeans(rs, r.family, r.setup);
    WithoutSetupApart(rs, r.family, r.setup);
    forall x | x in kept ensures Apart(x, r) {
      var i :| 0 <= i < |rs| && rs[i] == x;
    }
    AppendedApart(kept, r);
    if |kept| + 1 > MOST_REFERENCES {
      DroppingKeepsApart(kept + [r]);
    }
  }

  lemma DroppingKeepsApart(values: seq<Reference>)
    requires AllApart(values) && |values| > MOST_REFERENCES
    ensures AllApart([values[0]] + values[|values| - 31..])
  {
    var dropped, shift := [values[0]] + values[|values| - 31..], |values| - 32;
    forall i, j | 0 <= i < j < |dropped| ensures Apart(dropped[i], dropped[j]) {
      assert dropped[j] == values[j + shift];
      assert dropped[i] == if i == 0 then values[0] else values[i + shift];
    }
  }

  // ---------------------------------------------------------------- provenance against the seen events

  /** Every reference came from a signal whose event is on record, and the validator's clauses hold. */
  ghost predicate Provenanced(rs: seq<Reference>, events: seq<nat>) {
    Referenced(rs) && forall i :: 0 <= i < |rs| ==> rs[i].signalId in events
  }

  /** A signal whose event has not been seen is new to every reference. */
  lemma SignalIsProvenanced(rs: seq<Reference>, events: seq<nat>, s: Signal)
    requires Provenanced(rs, events) && s.id !in events
    ensures NewTo(rs, SignalReference(s))
    ensures Provenanced(ReplaceReference(rs, SignalReference(s)), events + [s.id])
  {
    var r := SignalReference(s);
    var replaced := ReplaceReference(rs, r);
    ReplaceKeepsReferenced(rs, r);
    ReplacedFrom(rs, r);
    forall i | 0 <= i < |replaced| ensures replaced[i].signalId in events + [s.id] {
      assert replaced[i] in replaced;
    }
  }

  // ---------------------------------------------------------------- events that are no signals keep the references

  lemma CoreExitsKeepReferences(o: Record, e: Evidence)
    requires Entered(o.legs)
    ensures CloseCoreEntries(o, e).references == o.references
  {
  }

  lemma AnalyticalExitsKeepReferences(active: Record, o: Record, result: Analysis, now: Time)
    requires Entered(o.legs)
    ensures AnalyticalExits(active, o, result, now).references == o.references
  {
    var mark := FreshMark(Observations(active, result), now);
    if mark.Some? {
      var breached := CloseCoreEntries(o, BreachEvidence(mark.value, now));
      CoreExitsKeepReferences(o, BreachEvidence(mark.value, now));
      var entries := CloseCoreEntries(breached, EntryEvidence(result, mark.value.1, now));
      CoreExitsKeepReferences(breached, EntryEvidence(result, mark.value.1, now));
      CoreExitsKeepReferences(entries, RecoveryEvidence(result, mark.value.1, now));
    }
  }

  lemma IngestAnalysisKeepsReferences(o: Record, result: Analysis, now: Time, n: nat)
    requires Entered(o.legs)
    ensures IngestAnalysis(o, result, now, n).Or(o).references == o.references
  {
    var price, noted := AnalysisPrice(o, result), Noted(o, result, now);
    AnalyticalExitsKeepReferences(o, noted, result, now);
    AnalyticalExitsKeepReferences(o, RecordRetest(noted, result, price, now).0, result, now);
  }

  lemma IngestTransitionKeepsReferences(o: Record, t: Transition, n: nat)
    requires Entered(o.legs)
    ensures IngestTransition(o, t, n).Or(o).references == o.references
  {
    CoreExitsKeepReferences(o, WatcherEvidence(t));
  }

  lemma BarStepKeepsReferences(o: Record, bar: Bar)
    requires Ready(o)
    ensures BarStep(o, bar).references == o.references
  {
  }
}
