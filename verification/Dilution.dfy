/** Dilution risk from SEC filings: one score, whatever the order or repetition of the filings. */
module DilutionRisk {
  import opened Market

  datatype Signal =
    | AtTheMarket | ShelfRegistration | PublicOffering | RegisteredDirect | PrivatePlacement
    | SellingStockholders | Warrants | ConvertibleDebt | GoingConcern | ReverseSplit

  /** A filing. Accession numbers have one fixed format, so their digits order them; dates count days;
      `content` stands for every other field that two copies could differ in. */
  datatype Filing = Filing(accession: nat, form: string, filedAt: int, signals: set<Signal>, content: string)

  datatype Facts = Facts(
    periodEnd: int, shares: Option<Price>, priorShares: Option<Price>, cash: Option<real>, cashFlow: Option<real>)

  // ---------------------------------------------------------------- points

  function SignalPoints(s: Signal): nat {
    match s
    case AtTheMarket => 20
    case ShelfRegistration => 8
    case PublicOffering => 22
    case RegisteredDirect => 25
    case PrivatePlacement => 20
    case SellingStockholders => 10
    case Warrants => 15
    case ConvertibleDebt => 20
    case GoingConcern => 40
    case ReverseSplit => 20
  }

  predicate Offering(f: Filing) {
    Upper(f.form) in {"424B3", "424B5", "FWP", "SUPPL"}
  }

  predicate Registration(f: Filing) {
    Upper(f.form) in {"S-1", "S-1/A", "S-3", "S-3/A"}
  }

  function FormPoints(asOf: int, f: Filing): nat {
    var age := asOf - f.filedAt;
    if Offering(f) then if age <= 45 then 35 else if age <= 180 then 25 else 12
    else if Registration(f) then if age <= 45 then 20 else if age <= 180 then 12 else 6
    else 0
  }

  /** Nearest integer, ties to even: the default rounding of a quantise step. */
  function RoundHalfEven(x: real): int {
    var below := x.Floor;
    var rest := x - below as real;
    if rest < 0.5 || (rest == 0.5 && below % 2 == 0) then below else below + 1
  }

  function QuantizeEven2(x: real): real { RoundHalfEven(x * 100.0) as real / 100.0 }

  // ---------------------------------------------------------------- duplicates

  function Lookup(fs: seq<Filing>, accession: nat): (f: Option<Filing>)
    ensures f.Some? ==> f.value in fs && f.value.accession == accession
    ensures f.None? ==> forall i :: 0 <= i < |fs| ==> fs[i].accession != accession
  {
    if fs == [] then None
    else if fs[|fs| - 1].accession == accession then Some(fs[|fs| - 1])
    else Lookup(fs[..|fs| - 1], accession)
  }

  /** One copy of every filing, in the order of first appearance; None is the conflict error. */
  function Deduplicated(fs: seq<Filing>): Option<seq<Filing>> {
    if fs == [] then Some([])
    else
      var f := fs[|fs| - 1];
      match Deduplicated(fs[..|fs| - 1])
      case None => None
      case Some(unique) =>
        match Lookup(unique, f.accession)
        case None => Some(unique + [f])
        case Some(existing) => if existing == f then Some(unique) else None
  }

  function Elements(fs: seq<Filing>): set<Filing> {
    set i | 0 <= i < |fs| :: fs[i]
  }

  /** No accession number names two different filings. */
  ghost predicate Consistent(s: set<Filing>) {
    forall f, g :: f in s && g in s && f.accession == g.accession ==> f == g
  }

  ghost predicate Distinct(fs: seq<Filing>) {
    forall i, j :: 0 <= i < j < |fs| ==> fs[i].accession != fs[j].accession
  }

  lemma ElementsGrow(fs: seq<Filing>, f: Filing)
    ensures Elements(fs + [f]) == Elements(fs) + {f}
  {
    var more := fs + [f];
    assert more[|fs|] == f;
    forall g | g in Elements(fs) ensures g in Elements(more) {
      var i :| 0 <= i < |fs| && fs[i] == g;
      assert more[i] == g;
    }
  }

  /** Deduplication keeps each filing once, and fails exactly on a conflict, whatever the order. */
  lemma {:induction false} DeduplicatedMeans(fs: seq<Filing>)
    ensures Deduplicated(fs).Some? <==> Consistent(Elements(fs))
    ensures Deduplicated(fs).Some? ==> Elements(Deduplicated(fs).value) == Elements(fs) && Distinct(Deduplicated(fs).value)
    decreases |fs|
  {
    if fs != [] {
      var earlier, f := fs[..|fs| - 1], fs[|fs| - 1];
      assert fs == earlier + [f];
      DeduplicatedMeans(earlier);
      ElementsGrow(earlier, f);
      assert f in Elements(fs) && Elements(earlier) <= Elements(fs);
      if Deduplicated(earlier).Some? {
        var unique := Deduplicated(earlier).value;
        ElementsGrow(unique, f);
        var existing := Lookup(unique, f.accession);
        if existing.Some? {
          assert existing.value in Elements(unique);
        } else {
          forall g | g in Elements(earlier) ensures g.accession != f.accession {
            var i :| 0 <= i < |unique| && unique[i] == g;
          }
        }
      }
    }
  }

  /** The dictionary finds what the list holds. */
  ghost predicate Catalogues(byAccession: map<nat, Filing>, unique: seq<Filing>) {
    forall a: nat :: Lookup(unique, a) == if a in byAccession then Some(byAccession[a]) else None
  }

  lemma CatalogueGrows(byAccession: map<nat, Filing>, unique: seq<Filing>, f: Filing)
    requires Catalogues(byAccession, unique)
    ensures Catalogues(byAccession[f.accession := f], unique + [f])
  {
    assert (unique + [f])[..|unique|] == unique;
  }

  lemma DeduplicatedStep(fs: seq<Filing>, i: nat, unique: seq<Filing>)
    requires i < |fs| && Deduplicated(fs[..i]) == Some(unique)
    ensures Deduplicated(fs[..i + 1])
            == match Lookup(unique, fs[i].accession)
               case None => Some(unique + [fs[i]])
               case Some(existing) => if existing == fs[i] then Some(unique) else None
  {
    assert fs[..i + 1][..i] == fs[..i];
  }

  /** The dictionary loop over the filings. */
  method Deduplicate(fs: seq<Filing>) returns (r: Option<seq<Filing>>)
    ensures r == Deduplicated(fs)
  {
    var unique: seq<Filing> := [];
    var byAccession: map<nat, Filing> := map[];
    for i := 0 to |fs|
      invariant Deduplicated(fs[..i]) == Some(unique) && Catalogues(byAccession, unique)
    {
      var f := fs[i];
      DeduplicatedStep(fs, i, unique);
      if f.accession in byAccession {
        if byAccession[f.accession] != f {
          FailureStays(fs, i + 1);
          return None;
        }
      } else {
        CatalogueGrows(byAccession, unique, f);
        byAccession := byAccession[f.accession := f];
        unique := unique + [f];
      }
    }
    assert fs[..|fs|] == fs;
    r := Some(unique);
  }

  lemma {:induction false} FailureStays(fs: seq<Filing>, k: nat)
    requires k <= |fs| && Deduplicated(fs[..k]).None?
    ensures Deduplicated(fs).None?
    decreases |fs|
  {
    if k < |fs| {
      assert fs[..|fs| - 1][..k] == fs[..k];
      FailureStays(fs[..|fs| - 1], k);
    } else {
      assert fs[..k] == fs;
    }
  }

  // ---------------------------------------------------------------- evidence

  /** What a piece of filing evidence is about: a recent financing form, or one signal. */
  datatype Topic = FinancingForm | Of(signal: Signal)

  const TOPICS: seq<Topic> := [
    FinancingForm, Of(AtTheMarket), Of(ShelfRegistration), Of(PublicOffering), Of(RegisteredDirect), Of(PrivatePlacement),
    Of(SellingStockholders), Of(Warrants), Of(ConvertibleDebt), Of(GoingConcern), Of(ReverseSplit)]

  predicate Supports(asOf: int, topic: Topic, f: Filing) {
    match topic
    case FinancingForm => FormPoints(asOf, f) > 0
    case Of(s) => s in f.signals
  }

  function Points(asOf: int, topic: Topic, f: Filing): nat {
    match topic
    case FinancingForm => FormPoints(asOf, f)
    case Of(s) => SignalPoints(s)
  }

  /** The order in which filings speak for a topic: points first, then date, then accession number. */
  predicate Outranks(asOf: int, topic: Topic, f: Filing, g: Filing) {
    var p, q := Points(asOf, topic, f), Points(asOf, topic, g);
    p > q || (p == q && (f.filedAt > g.filedAt || (f.filedAt == g.filedAt && f.accession >= g.accession)))
  }

  /** The filing that speaks for a topic. */
  function Speaker(asOf: int, topic: Topic, fs: seq<Filing>): (best: Option<Filing>)
    ensures best.None? ==> forall i :: 0 <= i < |fs| ==> !Supports(asOf, topic, fs[i])
    ensures best.Some? ==> best.value in fs && Supports(asOf, topic, best.value)
    ensures best.Some? ==> forall i :: 0 <= i < |fs| && Supports(asOf, topic, fs[i]) ==> Outranks(asOf, topic, best.value, fs[i])
  {
    if fs == [] then None
    else
      var last := fs[|fs| - 1];
      var earlier := Speaker(asOf, topic, fs[..|fs| - 1]);
      if !Supports(asOf, topic, last) then earlier
      else if earlier.None? || Outranks(asOf, topic, last, earlier.value) then Some(last)
      else earlier
  }

  datatype Source = FromFiling(topic: Topic, filing: Filing) | ShareGrowth(percent: real) | CashRunway(quarters: real)

  datatype Evidence = Evidence(source: Source, points: nat)

  function FilingEvidence(asOf: int, fs: seq<Filing>, topics: seq<Topic>): seq<Evidence> {
    if topics == [] then []
    else
      var last := |topics| - 1;
      var earlier := FilingEvidence(asOf, fs, topics[..last]);
      match Speaker(asOf, topics[last], fs)
      case None => earlier
      case Some(f) => earlier + [Evidence(FromFiling(topics[last], f), Points(asOf, topics[last], f))]
  }

  /** The evidence loop: the form first, then the signals in their fixed order. */
  method CollectEvidence(asOf: int, fs: seq<Filing>, topics: seq<Topic>) returns (evidence: seq<Evidence>)
    ensures evidence == FilingEvidence(asOf, fs, topics)
  {
    evidence := [];
    for k := 0 to |topics|
      invariant evidence == FilingEvidence(asOf, fs, topics[..k])
    {
      assert topics[..k + 1][..k] == topics[..k];
      var best := Speaker(asOf, topics[k], fs);
      if best.Some? {
        evidence := evidence + [Evidence(FromFiling(topics[k], best.value), Points(asOf, topics[k], best.value))];
      }
    }
    assert topics[..|topics|] == topics;
  }

  function GrowthEvidence(facts: Facts): seq<Evidence> {
    if facts.shares.None? || facts.priorShares.None? then []
    else
      var growth := QuantizeEven2((facts.shares.value - facts.priorShares.value) / facts.priorShares.value * 100.0);
      if growth >= 25.0 then [Evidence(ShareGrowth(growth), 30)]
      else if growth >= 10.0 then [Evidence(ShareGrowth(growth), 20)]
      else if growth >= 3.0 then [Evidence(ShareGrowth(growth), 10)]
      else []
  }

  function RunwayEvidence(facts: Facts): seq<Evidence> {
    if facts.cash.None? || facts.cashFlow.None? || facts.cashFlow.value >= 0.0 then []
    else
      var runway := QuantizeEven2(facts.cash.value / -facts.cashFlow.value);
      if runway < 2.0 then [Evidence(CashRunway(runway), 20)]
      else if runway < 4.0 then [Evidence(CashRunway(runway), 10)]
      else []
  }

  function FactEvidence(facts: Option<Facts>): seq<Evidence> {
    match facts
    case None => []
    case Some(f) => GrowthEvidence(f) + RunwayEvidence(f)
  }

  // ---------------------------------------------------------------- the assessment

  datatype Severity = Unknown | LowRisk | MediumRisk | HighRisk | CriticalRisk

  function SeverityRank(s: Severity): nat {
    match s
    case Unknown => 0
    case LowRisk => 1
    case MediumRisk => 2
    case HighRisk => 3
    case CriticalRisk => 4
  }

  function SeverityOf(score: nat): Severity {
    if score >= 70 then CriticalRisk else if score >= 35 then HighRisk else if score >= 15 then MediumRisk else LowRisk
  }

  datatype Assessment = Assessment(score: nat, severity: Severity, evidence: seq<Evidence>, analysed: nat, stale: nat)

  /** How an assessment ends: by one of the two input errors, or with a result. */
  datatype Outcome = Conflict | FutureInput | Assessed(assessment: Assessment)

  function Sum(evidence: seq<Evidence>): nat {
    if evidence == [] then 0 else Sum(evidence[..|evidence| - 1]) + evidence[|evidence| - 1].points
  }

  const MAX_AGE := 365

  function Current(asOf: int, fs: seq<Filing>): (current: seq<Filing>)
    ensures |current| <= |fs|
  {
    if fs == [] then []
    else
      var last := fs[|fs| - 1];
      var earlier := Current(asOf, fs[..|fs| - 1]);
      if asOf - last.filedAt <= MAX_AGE then earlier + [last] else earlier
  }

  predicate Dated(asOf: int, fs: seq<Filing>, facts: Option<Facts>) {
    (forall i :: 0 <= i < |fs| ==> fs[i].filedAt <= asOf) && (facts.Some? ==> facts.value.periodEnd <= asOf)
  }

  function AssessUnique(asOf: int, unique: seq<Filing>, facts: Option<Facts>): Assessment {
    if unique == [] && facts.None? then Assessment(0, Unknown, [], 0, 0)
    else
      var current := Current(asOf, unique);
      var evidence := FilingEvidence(asOf, current, TOPICS) + FactEvidence(facts);
      var total := Sum(evidence);
      var score := if total <= 100 then total else 100;
      Assessment(score, SeverityOf(score), evidence, |current|, |unique| - |current|)
  }

  function Assess(asOf: int, filings: seq<Filing>, facts: Option<Facts>): Outcome {
    match Deduplicated(filings)
    case None => Conflict
    case Some(unique) =>
      if !Dated(asOf, unique, facts) then FutureInput else Assessed(AssessUnique(asOf, unique, facts))
  }

  method AssessRequest(asOf: int, filings: seq<Filing>, facts: Option<Facts>) returns (o: Outcome)
    ensures o == Assess(asOf, filings, facts)
  {
    var unique := Deduplicate(filings);
    if unique.None? {
      return Conflict;
    }
    if !Dated(asOf, unique.value, facts) {
      return FutureInput;
    }
    if unique.value == [] && facts.None? {
      return Assessed(Assessment(0, Unknown, [], 0, 0));
    }
    var current := Current(asOf, unique.value);
    var evidence := CollectEvidence(asOf, current, TOPICS);
    evidence := evidence + FactEvidence(facts);
    var total := Sum(evidence);
    var score := if total <= 100 then total else 100;
    o := Assessed(Assessment(score, SeverityOf(score), evidence, |current|, |unique.value| - |current|));
  }

  // ---------------------------------------------------------------- order and repetition do not matter

  lemma {:induction false} CurrentMeans(asOf: int, fs: seq<Filing>)
    ensures Elements(Current(asOf, fs)) == set f | f in Elements(fs) && asOf - f.filedAt <= MAX_AGE
    ensures Distinct(fs) ==> Distinct(Current(asOf, fs))
    decreases |fs|
  {
    if fs != [] {
      var earlier, f := fs[..|fs| - 1], fs[|fs| - 1];
      assert fs == earlier + [f];
      CurrentMeans(asOf, earlier);
      ElementsGrow(earlier, f);
      ElementsGrow(Current(asOf, earlier), f);
      if Distinct(fs) {
        forall g | g in Elements(Current(asOf, earlier)) ensures g.accession != f.accession {
          assert g in Elements(earlier);
        }
        var kept := Current(asOf, earlier);
        assert forall i :: 0 <= i < |kept| ==> kept[i] in Elements(kept);
      }
    }
  }

  lemma {:induction false} DistinctCount(fs: seq<Filing>)
    requires Distinct(fs)
    ensures |Elements(fs)| == |fs|
    decreases |fs|
  {
    if fs != [] {
      var earlier, f := fs[..|fs| - 1], fs[|fs| - 1];
      assert fs == earlier + [f];
      DistinctCount(earlier);
      ElementsGrow(earlier, f);
      assert f !in Elements(earlier);
    } else {
      assert Elements(fs) == {};
    }
  }

  /** The filing that speaks for a topic depends only on the set of filings. */
  lemma SameSpeaker(asOf: int, topic: Topic, fs: seq<Filing>, gs: seq<Filing>)
    requires Elements(fs) == Elements(gs) && Consistent(Elements(fs))
    ensures Speaker(asOf, topic, fs) == Speaker(asOf, topic, gs)
  {
    var a, b := Speaker(asOf, topic, fs), Speaker(asOf, topic, gs);
    if a.Some? {
      assert a.value in Elements(gs);
    }
    if b.Some? {
      assert b.value in Elements(fs);
    }
    if a.Some? && b.Some? {
      assert Outranks(asOf, topic, a.value, b.value) && Outranks(asOf, topic, b.value, a.value);
    }
  }

  lemma {:induction false} SameEvidence(asOf: int, fs: seq<Filing>, gs: seq<Filing>, topics: seq<Topic>)
    requires Elements(fs) == Elements(gs) && Consistent(Elements(fs))
    ensures FilingEvidence(asOf, fs, topics) == FilingEvidence(asOf, gs, topics)
    decreases |topics|
  {
    if topics != [] {
      SameEvidence(asOf, fs, gs, topics[..|topics| - 1]);
      SameSpeaker(asOf, topics[|topics| - 1], fs, gs);
    }
  }

  lemma DatedMeans(asOf: int, fs: seq<Filing>, facts: Option<Facts>)
    ensures Dated(asOf, fs, facts)
            <==> (forall f :: f in Elements(fs) ==> f.filedAt <= asOf) && (facts.Some? ==> facts.value.periodEnd <= asOf)
  {
    assert forall i :: 0 <= i < |fs| ==> fs[i] in Elements(fs);
  }

  lemma SameAssessment(asOf: int, fs: seq<Filing>, gs: seq<Filing>, facts: Option<Facts>)
    requires Elements(fs) == Elements(gs) && Distinct(fs) && Distinct(gs) && Consistent(Elements(fs))
    ensures AssessUnique(asOf, fs, facts) == AssessUnique(asOf, gs, facts)
  {
    CurrentMeans(asOf, fs);
    CurrentMeans(asOf, gs);
    DistinctCount(fs);
    DistinctCount(gs);
    DistinctCount(Current(asOf, fs));
    DistinctCount(Current(asOf, gs));
    SameEvidence(asOf, Current(asOf, fs), Current(asOf, gs), TOPICS);
  }

  /** The outcome, errors included, depends only on the set of filings: reordering them, or repeating any
      of them, changes nothing. */
  lemma OnlyTheSetMatters(asOf: int, filings: seq<Filing>, others: seq<Filing>, facts: Option<Facts>)
    requires Elements(filings) == Elements(others)
    ensures Assess(asOf, filings, facts) == Assess(asOf, others, facts)
  {
    DeduplicatedMeans(filings);
    DeduplicatedMeans(others);
    if Consistent(Elements(filings)) {
      var fs, gs := Deduplicated(filings).value, Deduplicated(others).value;
      DatedMeans(asOf, fs, facts);
      DatedMeans(asOf, gs, facts);
      SameAssessment(asOf, fs, gs, facts);
    }
  }

  /** Conflicting copies are refused, in whatever order they come, and nothing else is. */
  lemma ConflictExactly(asOf: int, filings: seq<Filing>, facts: Option<Facts>)
    ensures Assess(asOf, filings, facts).Conflict? <==> !Consistent(Elements(filings))
  {
    DeduplicatedMeans(filings);
  }

  // ---------------------------------------------------------------- more filings, no less risk

  lemma {:induction false} SumOfBoth(a: seq<Evidence>, b: seq<Evidence>)
    ensures Sum(a + b) == Sum(a) + Sum(b)
    decreases |b|
  {
    if b == [] {
      assert a + b == a;
    } else {
      var last := |b| - 1;
      assert (a + b)[..|a + b| - 1] == a + b[..last];
      SumOfBoth(a, b[..last]);
    }
  }

  lemma {:induction false} MoreFilingsMorePoints(asOf: int, fs: seq<Filing>, more: seq<Filing>, topics: seq<Topic>)
    requires Elements(fs) <= Elements(more)
    ensures Sum(FilingEvidence(asOf, fs, topics)) <= Sum(FilingEvidence(asOf, more, topics))
    decreases |topics|
  {
    if topics != [] {
      var last := |topics| - 1;
      var topic := topics[last];
      MoreFilingsMorePoints(asOf, fs, more, topics[..last]);
      var a := Speaker(asOf, topic, fs);
      if a.Some? {
        assert a.value in Elements(more);
      }
    }
  }

  lemma TotalGrows(asOf: int, fs: seq<Filing>, gs: seq<Filing>, facts: Option<Facts>)
    requires Elements(fs) <= Elements(gs)
    ensures RiskPoints(asOf, fs, facts) <= RiskPoints(asOf, gs, facts)
  {
    CurrentMeans(asOf, fs);
    CurrentMeans(asOf, gs);
    MoreFilingsMorePoints(asOf, Current(asOf, fs), Current(asOf, gs), TOPICS);
    SumOfBoth(FilingEvidence(asOf, Current(asOf, fs), TOPICS), FactEvidence(facts));
    SumOfBoth(FilingEvidence(asOf, Current(asOf, gs), TOPICS), FactEvidence(facts));
  }

  function Capped(total: nat): nat {
    if total <= 100 then total else 100
  }

  function RiskPoints(asOf: int, fs: seq<Filing>, facts: Option<Facts>): nat {
    Sum(FilingEvidence(asOf, Current(asOf, fs), TOPICS) + FactEvidence(facts))
  }

  lemma ScoreIsCapped(asOf: int, fs: seq<Filing>, facts: Option<Facts>)
    ensures var a := AssessUnique(asOf, fs, facts);
            if fs == [] && facts.None? then a.score == 0 && a.severity == Unknown
            else a.score == Capped(RiskPoints(asOf, fs, facts)) && a.severity == SeverityOf(a.score)
  {
  }

  lemma SeverityGrows(a: nat, b: nat)
    requires a <= b
    ensures SeverityRank(SeverityOf(a)) <= SeverityRank(SeverityOf(b))
  {
  }

  lemma RiskGrows(asOf: int, fs: seq<Filing>, gs: seq<Filing>, facts: Option<Facts>)
    requires Elements(fs) <= Elements(gs) && gs != []
    ensures var before, after := AssessUnique(asOf, fs, facts), AssessUnique(asOf, gs, facts);
            before.score <= after.score && SeverityRank(before.severity) <= SeverityRank(after.severity)
  {
    TotalGrows(asOf, fs, gs, facts);
    ScoreIsCapped(asOf, fs, facts);
    ScoreIsCapped(asOf, gs, facts);
    SeverityGrows(Capped(RiskPoints(asOf, fs, facts)), Capped(RiskPoints(asOf, gs, facts)));
  }

  /** Adding a filing of the last year that contradicts no other lowers neither the score nor the severity. */
  lemma NewFilingNeverLowersRisk(asOf: int, filings: seq<Filing>, f: Filing, facts: Option<Facts>)
    requires Assess(asOf, filings, facts).Assessed?
    requires 0 <= asOf - f.filedAt <= MAX_AGE && Consistent(Elements(filings) + {f})
    ensures Assess(asOf, filings + [f], facts).Assessed?
    ensures var before, after := Assess(asOf, filings, facts).assessment, Assess(asOf, filings + [f], facts).assessment;
            before.score <= after.score && SeverityRank(before.severity) <= SeverityRank(after.severity)
  {
    DeduplicatedMeans(filings);
    DeduplicatedMeans(filings + [f]);
    ElementsGrow(filings, f);
    var fs, gs := Deduplicated(filings).value, Deduplicated(filings + [f]).value;
    DatedMeans(asOf, fs, facts);
    DatedMeans(asOf, gs, facts);
    assert f in Elements(gs);
    RiskGrows(asOf, fs, gs, facts);
  }
}
