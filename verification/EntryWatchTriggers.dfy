/** What an Entry Watcher trigger is worth: two confirmations, a bounded chase, one watch per symbol. */
module EntryWatchTriggers {
  import opened Market
  import opened Position
  import opened Analyses
  import opened EntryWatcher
  import opened EntryWatchRuns

  // ---------------------------------------------------------------- two confirmations

  /** The results that arrived during a run. */
  function Seen(es: seq<Event>): set<Result> {
    set k | 0 <= k < |es| && es[k].Arrive? :: es[k].result
  }

  predicate MatureIntraday(cfg: Config, r: Result, symbol: string) {
    r.symbol == symbol && r.horizon.Intraday? && Mature(cfg, r)
  }

  /** A second mature result of the same symbol, late enough after the first. */
  predicate Reconfirms(cfg: Config, first: Result, second: Result) {
    && MatureIntraday(cfg, first, second.symbol) && MatureIntraday(cfg, second, second.symbol)
    && first.id != second.id
    && second.asOf - first.asOf >= cfg.delay
  }

  ghost predicate CandidateSeen(cfg: Config, seen: set<Result>, symbol: string, c: Candidate) {
    exists r :: r in seen && MatureIntraday(cfg, r, symbol) && r.id == c.id && r.asOf == c.at
  }

  ghost predicate ReconfirmationSeen(cfg: Config, seen: set<Result>, id: nat) {
    exists first, second :: first in seen && second in seen && Reconfirms(cfg, first, second) && second.id == id
  }

  ghost predicate LatestSeen(seen: set<Result>, latest: map<string, Context>) {
    forall symbol, h :: symbol in latest && h in latest[symbol] ==>
      latest[symbol][h] in seen && latest[symbol][h].symbol == symbol && latest[symbol][h].horizon == h
  }

  /** Everything the memory holds goes back to results that arrived. */
  ghost predicate MemorySeen(cfg: Config, seen: set<Result>, m: Memory) {
    && LatestSeen(seen, m.latest)
    && (forall symbol :: symbol in m.candidates ==> CandidateSeen(cfg, seen, symbol, m.candidates[symbol]))
    && (forall id :: id in m.reconfirmed ==> ReconfirmationSeen(cfg, seen, id))
  }

  /** So does everything a checkpoint holds. */
  ghost predicate SnapshotSeen(cfg: Config, seen: set<Result>, s: Snapshot) {
    && (forall k :: 0 <= k < |s.results| ==> s.results[k] in seen)
    && (s.candidate.Some? ==> CandidateSeen(cfg, seen, Upper(s.candidate.value.symbol), s.candidate.value.candidate))
    && (forall id :: id in s.reconfirmed ==> ReconfirmationSeen(cfg, seen, id))
  }

  ghost predicate StoreSeen(cfg: Config, seen: set<Result>, ws: seq<Watch>) {
    forall i :: 0 <= i < |ws| && ws[i].snapshot.Some? ==> SnapshotSeen(cfg, seen, ws[i].snapshot.value)
  }

  ghost predicate Witnessed(cfg: Config, seen: set<Result>, s: State) {
    MemorySeen(cfg, seen, s.memory) && StoreSeen(cfg, seen, s.store.watches)
  }

  lemma CandidateSeenLater(cfg: Config, seen: set<Result>, more: set<Result>, symbol: string, c: Candidate)
    requires seen <= more && CandidateSeen(cfg, seen, symbol, c)
    ensures CandidateSeen(cfg, more, symbol, c)
  {
  }

  lemma ReconfirmationSeenLater(cfg: Config, seen: set<Result>, more: set<Result>, id: nat)
    requires seen <= more && ReconfirmationSeen(cfg, seen, id)
    ensures ReconfirmationSeen(cfg, more, id)
  {
    var first, second :| first in seen && second in seen && Reconfirms(cfg, first, second) && second.id == id;
    assert first in more && second in more;
  }

  lemma MemorySeenLater(cfg: Config, seen: set<Result>, more: set<Result>, m: Memory)
    requires seen <= more && MemorySeen(cfg, seen, m)
    ensures MemorySeen(cfg, more, m)
  {
    forall symbol | symbol in m.candidates ensures CandidateSeen(cfg, more, symbol, m.candidates[symbol]) {
      CandidateSeenLater(cfg, seen, more, symbol, m.candidates[symbol]);
    }
    forall id | id in m.reconfirmed ensures ReconfirmationSeen(cfg, more, id) {
      ReconfirmationSeenLater(cfg, seen, more, id);
    }
  }

  lemma SnapshotSeenLater(cfg: Config, seen: set<Result>, more: set<Result>, s: Snapshot)
    requires seen <= more && SnapshotSeen(cfg, seen, s)
    ensures SnapshotSeen(cfg, more, s)
  {
    if s.candidate.Some? {
      CandidateSeenLater(cfg, seen, more, Upper(s.candidate.value.symbol), s.candidate.value.candidate);
    }
    forall id | id in s.reconfirmed ensures ReconfirmationSeen(cfg, more, id) {
      ReconfirmationSeenLater(cfg, seen, more, id);
    }
  }

  lemma WitnessedLater(cfg: Config, seen: set<Result>, more: set<Result>, s: State)
    requires seen <= more && Witnessed(cfg, seen, s)
    ensures Witnessed(cfg, more, s)
  {
    MemorySeenLater(cfg, seen, more, s.memory);
    var ws := s.store.watches;
    forall i | 0 <= i < |ws| && ws[i].snapshot.Some? ensures SnapshotSeen(cfg, more, ws[i].snapshot.value) {
      SnapshotSeenLater(cfg, seen, more, ws[i].snapshot.value);
    }
  }

  lemma {:induction false} RecallSeen(seen: set<Result>, latest: map<string, Context>, results: seq<Result>)
    requires LatestSeen(seen, latest) && forall k :: 0 <= k < |results| ==> results[k] in seen
    ensures LatestSeen(seen, Recall(latest, results))
    decreases |results|
  {
    if results != [] {
      var r := results[0];
      var c := if r.symbol in latest then latest[r.symbol] else map[];
      var recalled := if r.horizon !in c || r.asOf >= c[r.horizon].asOf then c[r.horizon := r] else c;
      RecallSeen(seen, latest[r.symbol := recalled], results[1..]);
    }
  }

  lemma RestoreSeen(cfg: Config, seen: set<Result>, m: Memory, store: Store, symbol: string)
    requires MemorySeen(cfg, seen, m) && StoreSeen(cfg, seen, store.watches)
    ensures MemorySeen(cfg, seen, RestoreActive(m, store, symbol))
  {
    var active := Latest(store.watches, symbol, true);
    if active.Some? && store.watches[active.value].snapshot.Some? {
      var s := store.watches[active.value].snapshot.value;
      assert SnapshotSeen(cfg, seen, s);
      RecallSeen(seen, m.latest, s.results);
    }
  }

  lemma ObserveSeen(cfg: Config, seen: set<Result>, m: Memory, r: Result)
    requires MemorySeen(cfg, seen, m) && r in seen
    ensures MemorySeen(cfg, seen, Observe(cfg, m, r))
  {
    if r.horizon.Intraday? && Mature(cfg, r) {
      if r.symbol !in m.candidates {
        assert CandidateSeen(cfg, seen, r.symbol, Candidate(r.id, r.asOf));
      } else if r.id != m.candidates[r.symbol].id && r.asOf - m.candidates[r.symbol].at >= cfg.delay {
        var c := m.candidates[r.symbol];
        var first :| first in seen && MatureIntraday(cfg, first, r.symbol) && first.id == c.id && first.asOf == c.at;
        assert Reconfirms(cfg, first, r);
        assert ReconfirmationSeen(cfg, seen, r.id);
      }
    }
  }

  lemma LearnedSeen(cfg: Config, seen: set<Result>, m: Memory, r: Result)
    requires MemorySeen(cfg, seen, m) && r in seen
    ensures MemorySeen(cfg, seen, Learned(m, r))
  {
  }

  lemma ConsumeSeen(cfg: Config, seen: set<Result>, m: Memory, symbol: string, t: Transition)
    requires MemorySeen(cfg, seen, m)
    ensures MemorySeen(cfg, seen, Consume(m, symbol, t))
  {
  }

  lemma ProcessSeen(cfg: Config, seen: set<Result>, m: Memory, store: Store, r: Result, now: Time, id: nat)
    requires MemorySeen(cfg, seen, m) && StoreSeen(cfg, seen, store.watches) && r in seen
    ensures var o := Process(cfg, m, store, r, now, id);
            MemorySeen(cfg, seen, o.memory) && StoreSeen(cfg, seen, o.store.watches)
  {
    LearnedSeen(cfg, seen, m, r);
  }

  lemma ListSeen(seen: set<Result>, c: Context, hs: seq<Horizon>)
    requires forall h :: h in c ==> c[h] in seen
    ensures forall k :: 0 <= k < |ListResults(c, hs)| ==> ListResults(c, hs)[k] in seen
  {
  }

  lemma PersistSeen(cfg: Config, seen: set<Result>, m: Memory, store: Store, symbol: string)
    requires MemorySeen(cfg, seen, m) && StoreSeen(cfg, seen, store.watches)
    ensures var p := Persist(m, store, symbol); p.Some? ==> StoreSeen(cfg, seen, p.value.watches)
  {
    var active := Latest(store.watches, symbol, true);
    if active.Some? {
      var own := store.watches[active.value].thesis.symbol;
      UpperIdempotent(symbol);
      ListSeen(seen, ContextOf(m, own), HORIZONS);
      assert SnapshotSeen(cfg, seen, SnapshotOf(m, own));
    }
  }

  lemma CheckpointedSeen(cfg: Config, seen: set<Result>, o: Outcome, symbol: string)
    requires MemorySeen(cfg, seen, o.memory) && StoreSeen(cfg, seen, o.store.watches)
    ensures var p := Checkpointed(o, symbol);
            MemorySeen(cfg, seen, p.memory) && StoreSeen(cfg, seen, p.store.watches)
  {
    PersistSeen(cfg, seen, o.memory, o.store, symbol);
    if o.emitted.Some? {
      ConsumeSeen(cfg, seen, o.memory, symbol, o.emitted.value);
    }
  }

  /** The memory with which a result is processed. */
  function Prepared(cfg: Config, m: Memory, store: Store, r: Result): Memory {
    if cfg.version.V51? then Observe(cfg, RestoreActive(m, store, r.symbol), r)
    else if cfg.Reconfirms() then Observe(cfg, m, r)
    else m
  }

  lemma PreparedSeen(cfg: Config, seen: set<Result>, s: State, r: Result)
    requires Witnessed(cfg, seen, s) && r in seen
    ensures MemorySeen(cfg, seen, Prepared(cfg, s.memory, s.store, r))
  {
    RestoreSeen(cfg, seen, s.memory, s.store, r.symbol);
    ObserveSeen(cfg, seen, RestoreActive(s.memory, s.store, r.symbol), r);
    ObserveSeen(cfg, seen, s.memory, r);
  }

  lemma StepWitnessed(cfg: Config, seen: set<Result>, s: State, e: Event)
    requires Witnessed(cfg, seen, s) && (e.Arrive? ==> e.result in seen)
    ensures Witnessed(cfg, seen, Step(cfg, s, e))
  {
    if e.Arrive? {
      var r := e.result;
      var m := Prepared(cfg, s.memory, s.store, r);
      PreparedSeen(cfg, seen, s, r);
      ProcessSeen(cfg, seen, m, s.store, r, e.now, e.id);
      var o := Process(cfg, m, s.store, r, e.now, e.id);
      if cfg.version.V51? {
        RestoreSeen(cfg, seen, s.memory, s.store, r.symbol);
        CheckpointedSeen(cfg, seen, o, r.symbol);
      } else if o.emitted.Some? {
        ConsumeSeen(cfg, seen, o.memory, r.symbol, o.emitted.value);
      }
    }
  }

  lemma {:induction false} RunWitnessed(cfg: Config, before: seq<Event>, s: State, es: seq<Event>)
    requires Witnessed(cfg, Seen(before), s)
    ensures Witnessed(cfg, Seen(before + es), Run(cfg, s, es))
    decreases |es|
  {
    if es == [] {
      assert before + es == before;
    } else {
      var now := before + [es[0]];
      SeenGrows(before, es[0]);
      WitnessedLater(cfg, Seen(before), Seen(now), s);
      StepWitnessed(cfg, Seen(now), s, es[0]);
      RunWitnessed(cfg, now, Step(cfg, s, es[0]), es[1..]);
      assert now + es[1..] == before + es;
    }
  }

  lemma SeenGrows(before: seq<Event>, e: Event)
    ensures Seen(before) <= Seen(before + [e]) && (e.Arrive? ==> e.result in Seen(before + [e]))
  {
    var now := before + [e];
    assert now[|before|] == e;
    forall r | r in Seen(before) ensures r in Seen(now) {
      var k :| 0 <= k < |before| && before[k].Arrive? && before[k].result == r;
      assert now[k] == before[k];
    }
  }

  /** A trigger of versions 4 to 5.1 rests on the reconfirmed Intraday result. */
  lemma TriggerPassesGates(cfg: Config, m: Memory, store: Store, r: Result, now: Time, id: nat)
    requires cfg.Reconfirms()
    requires var o := Process(cfg, m, store, r, now, id); o.emitted.Some? && o.emitted.value.status.Triggered?
    ensures var c := Process(cfg, m, store, r, now, id).emitted.value.evidence;
            c == ContextOf(m, r.symbol)[r.horizon := r] && GatesPass(cfg, m, c)
  {
    var c, learned := ContextOf(m, r.symbol)[r.horizon := r], Learned(m, r);
    var active := Latest(store.watches, r.symbol, true);
    if active.Some? {
      DecisionPassesGates(cfg, learned, store.watches[active.value], c, r, now);
    }
  }

  lemma DecisionPassesGates(cfg: Config, m: Memory, w: Watch, c: Context, r: Result, now: Time)
    requires cfg.Reconfirms()
    ensures var d := Decide(cfg, m, w, c, r, now); d.Some? && d.value.status.Triggered? ==> GatesPass(cfg, m, c)
  {
  }

  /** An analysis id names one result. */
  ghost predicate IdsIdentify(seen: set<Result>) {
    forall a, b :: a in seen && b in seen && a.id == b.id ==> a == b
  }

  lemma EmittedByProcess(cfg: Config, s: State, e: Event)
    requires e.Arrive? && OutcomeOf(cfg, s, e).emitted.Some?
    ensures OutcomeOf(cfg, s, e).emitted
            == Process(cfg, Prepared(cfg, s.memory, s.store, e.result), s.store, e.result, e.now, e.id).emitted
  {
  }

  /** `second` follows another mature result of its symbol by at least the delay. */
  ghost predicate Reconfirmed(cfg: Config, seen: set<Result>, second: Result) {
    second in seen && exists first :: first in seen && Reconfirms(cfg, first, second)
  }

  lemma GatesRestOnTwo(cfg: Config, seen: set<Result>, m: Memory, c: Context)
    requires IdsIdentify(seen) && MemorySeen(cfg, seen, m) && GatesPass(cfg, m, c) && c[Intraday] in seen
    ensures Reconfirmed(cfg, seen, c[Intraday])
  {
    var id := c[Intraday].id;
    assert ReconfirmationSeen(cfg, seen, id);
    var first, second :| first in seen && second in seen && Reconfirms(cfg, first, second) && second.id == id;
    assert second == c[Intraday];
  }

  lemma LearnedIntradaySeen(seen: set<Result>, m: Memory, r: Result)
    requires LatestSeen(seen, m.latest) && r in seen
    requires Intraday in ContextOf(m, r.symbol)[r.horizon := r]
    ensures var second := ContextOf(m, r.symbol)[r.horizon := r][Intraday];
            second in seen && second.symbol == r.symbol
  {
  }

  /** Everything a run from the start remembers goes back to results that have arrived by now. */
  lemma SeenByThen(cfg: Config, es: seq<Event>, e: Event)
    ensures Witnessed(cfg, Seen(es + [e]), Run(cfg, START, es))
    ensures e.Arrive? ==> e.result in Seen(es + [e])
  {
    assert [] + es == es;
    RunWitnessed(cfg, [], START, es);
    SeenGrows(es, e);
    WitnessedLater(cfg, Seen(es), Seen(es + [e]), Run(cfg, START, es));
  }

  lemma TriggerContext(cfg: Config, s: State, e: Event)
    requires cfg.Reconfirms() && e.Arrive?
    requires var o := OutcomeOf(cfg, s, e); o.emitted.Some? && o.emitted.value.status.Triggered?
    ensures var m := Prepared(cfg, s.memory, s.store, e.result);
            var c := ContextOf(m, e.result.symbol)[e.result.horizon := e.result];
            OutcomeOf(cfg, s, e).emitted.value.evidence == c && GatesPass(cfg, m, c)
  {
    EmittedByProcess(cfg, s, e);
    TriggerPassesGates(cfg, Prepared(cfg, s.memory, s.store, e.result), s.store, e.result, e.now, e.id);
  }

  /** Whenever versions 4 to 5.1 trigger, restarts included, the run so far holds two different mature
      Intraday results of the symbol at least the delay apart, and the later one is the evidence. */
  lemma TriggersAreReconfirmed(cfg: Config, es: seq<Event>, e: Event)
    requires cfg.Reconfirms() && IdsIdentify(Seen(es + [e]))
    requires var o := OutcomeOf(cfg, Run(cfg, START, es), e); o.emitted.Some? && o.emitted.value.status.Triggered?
    ensures var evidence := OutcomeOf(cfg, Run(cfg, START, es), e).emitted.value.evidence;
            && Intraday in evidence && evidence[Intraday].symbol == e.result.symbol
            && Reconfirmed(cfg, Seen(es + [e]), evidence[Intraday])
  {
    var s, seen, r := Run(cfg, START, es), Seen(es + [e]), e.result;
    var m := Prepared(cfg, s.memory, s.store, r);
    SeenByThen(cfg, es, e);
    PreparedSeen(cfg, seen, s, r);
    TriggerContext(cfg, s, e);
    LearnedIntradaySeen(seen, m, r);
    GatesRestOnTwo(cfg, seen, m, ContextOf(m, r.symbol)[r.horizon := r]);
  }

  // ---------------------------------------------------------------- what a trigger may pay

  /** A rounded quotient at or above a bound is at most half a hundredth above the exact one. */
  lemma RoundedQuotient(gain: real, risk: real, least: real)
    requires risk > 0.0 && Quantize2(gain / risk) >= least
    ensures gain >= (least - 0.005) * risk
  {
    var q := gain / risk;
    RoundHalfUpNearest(q * 100.0);
    assert q >= least - 0.005;
    assert gain == q * risk;
    ScaledUp(least - 0.005, q, risk);
  }

  lemma ScaledUp(a: real, b: real, k: real)
    requires a <= b && k > 0.0
    ensures a * k <= b * k
  {
  }

  /** How a decision comes to trigger: inside the zone, or above it on a continuation that pays. */
  lemma TriggerBranch(cfg: Config, m: Memory, w: Watch, c: Context, r: Result, now: Time)
    requires var d := Decide(cfg, m, w, c, r, now); d.Some? && d.value.status.Triggered?
    ensures var price := Decide(cfg, m, w, c, r, now).value.price;
            && now < w.thesis.expiresAt
            && (|| (w.thesis.zoneLow <= price <= w.thesis.zoneHigh && EntryWatcher.Confirmed(cfg, m, c, now))
                || (&& ContinuationCandidate(cfg, w, price, c, now).Some?
                    && ContinuationConfirmedBy(cfg, m, c, now) && Pays(cfg, w, price, c)))
  {
  }

  lemma ConfirmedIsRecent(cfg: Config, m: Memory, c: Context, now: Time)
    requires EntryWatcher.Confirmed(cfg, m, c, now) || ContinuationConfirmedBy(cfg, m, c, now)
    ensures Recent(cfg, c, now) && LongSupports(c)
  {
  }

  predicate KeepsReward(cfg: Config, w: Watch, price: real, c: Context) {
    && LiveTarget(c).Some?
    && LiveInvalidation(w, price, c) < price < LiveTarget(c).value
    && LiveTarget(c).value - price >= (cfg.minRewardRisk - 0.005) * (price - LiveInvalidation(w, price, c))
  }

  lemma PaysKeepsReward(cfg: Config, w: Watch, price: real, c: Context)
    requires Pays(cfg, w, price, c)
    ensures KeepsReward(cfg, w, price, c)
  {
    RoundedQuotient(LiveTarget(c).value - price, price - LiveInvalidation(w, price, c), cfg.minRewardRisk);
  }

  /** A continuation is a chase above the zone. */
  lemma CandidateIsAboveZone(cfg: Config, w: Watch, price: real, c: Context, now: Time)
    requires ContinuationCandidate(cfg, w, price, c, now).Some?
    ensures price > w.thesis.zoneHigh
  {
  }

  /** A trigger is above the invalidation and fresh, and a chase above the zone keeps the reward. */
  lemma TriggerBounds(cfg: Config, m: Memory, w: Watch, c: Context, r: Result, now: Time)
    requires w.thesis.Valid()
    requires var d := Decide(cfg, m, w, c, r, now); d.Some? && d.value.status.Triggered?
    ensures var price := Decide(cfg, m, w, c, r, now).value.price;
            && now < w.thesis.expiresAt && price > w.thesis.invalidation && price >= w.thesis.zoneLow
            && Recent(cfg, c, now) && LongSupports(c)
            && (price > w.thesis.zoneHigh ==> KeepsReward(cfg, w, price, c))
  {
    var price := Decide(cfg, m, w, c, r, now).value.price;
    TriggerBranch(cfg, m, w, c, r, now);
    ConfirmedIsRecent(cfg, m, c, now);
    if price > w.thesis.zoneHigh {
      PaysKeepsReward(cfg, w, price, c);
    } else if ContinuationCandidate(cfg, w, price, c, now).Some? {
      CandidateIsAboveZone(cfg, w, price, c, now);
    }
  }

  /** A ratio that rounds to at most a cap bounds the extension by the cap and half a last digit. */
  lemma RoundedCap(extension: real, base: real, cap: real)
    requires base > 0.0 && Quantize4(extension / base) <= cap
    ensures extension <= (cap + 0.00005) * base
  {
    var q := extension / base;
    RoundHalfUpNearest(q * 10000.0);
    assert q <= cap + 0.00005;
    assert extension == q * base;
    ScaledUp(q, cap + 0.00005, base);
  }

  lemma RoundedPercentCap(extension: real, base: real, cap: real)
    requires base > 0.0 && Quantize4(extension / base * 100.0) <= cap
    ensures extension <= (cap + 0.00005) / 100.0 * base
  {
    var q := extension / base;
    RoundHalfUpNearest(q * 100.0 * 10000.0);
    assert q <= (cap + 0.00005) / 100.0;
    assert extension == q * base;
    ScaledUp(q, (cap + 0.00005) / 100.0, base);
  }

  /** The average true range a chase after a retest is measured in. */
  function RetestRange(c: Context): Option<real> {
    FirstKnown(Metric(c, Swing, (f: Facts) => f.atr), Metric(c, LongTerm, (f: Facts) => f.atr))
  }

  /** After a retest the chase is young and, give or take the rounding, within the percentage cap and
      the cap in average true ranges; with no range known it is within the tighter fallback. */
  lemma ChaseIsCapped(cfg: Config, w: Watch, price: real, c: Context, now: Time)
    requires ZoneTouchedAt(w).Some? && ContinuationCandidate(cfg, w, price, c, now).Some?
    ensures now - ZoneTouchedAt(w).value <= cfg.grace
    ensures w.thesis.zoneHigh < price
    ensures price - w.thesis.zoneHigh <= (cfg.maxPercent + 0.00005) / 100.0 * w.thesis.zoneHigh
    ensures var atr := RetestRange(c);
            if atr.Some? && atr.value > 0.0
            then price - w.thesis.zoneHigh <= (cfg.maxAtr + 0.00005) * atr.value
            else price - w.thesis.zoneHigh <= (cfg.fallbackPercent + 0.00005) / 100.0 * w.thesis.zoneHigh
  {
    var extension, atr := price - w.thesis.zoneHigh, RetestRange(c);
    RoundedPercentCap(extension, w.thesis.zoneHigh, cfg.maxPercent);
    if atr.Some? && atr.value > 0.0 {
      RoundedCap(extension, atr.value, cfg.maxAtr);
    } else {
      RoundedPercentCap(extension, w.thesis.zoneHigh, cfg.fallbackPercent);
    }
  }

  /** Without a retest only versions 5 and 5.1 chase, above the zone and no further past the live
      trigger than both caps allow. */
  lemma NoRetestChaseIsCapped(cfg: Config, w: Watch, price: real, c: Context, now: Time)
    requires ZoneTouchedAt(w).None? && ContinuationCandidate(cfg, w, price, c, now).Some?
    ensures (cfg.version.V5? || cfg.version.V51?) && cfg.noRetest && w.thesis.zoneHigh < price && Intraday in c
    ensures var f := c[Intraday].facts;
            && f.entryTrigger.Some? && f.entryTrigger.value > 0.0 && f.atr.Some? && f.atr.value > 0.0
            && price - f.entryTrigger.value <= (cfg.maxPercent + 0.00005) / 100.0 * f.entryTrigger.value
            && price - f.entryTrigger.value <= (cfg.maxAtr + 0.00005) * f.atr.value
  {
    var f := c[Intraday].facts;
    var gap := price - f.entryTrigger.value;
    var extension := if gap > 0.0 then gap else 0.0;
    RoundedPercentCap(extension, f.entryTrigger.value, cfg.maxPercent);
    RoundedCap(extension, f.atr.value, cfg.maxAtr);
  }

  // ---------------------------------------------------------------- one active watch per symbol

  ghost predicate AtMostOneActive(ws: seq<Watch>, symbol: string) {
    forall i, j :: 0 <= i < |ws| && 0 <= j < |ws| && ActiveFor(ws[i], symbol) && ActiveFor(ws[j], symbol) ==> i == j
  }

  predicate ActiveFor(w: Watch, symbol: string) {
    w.thesis.symbol == symbol && w.status.Active()
  }

  ghost predicate NeverTwo(symbol: string) {
    forall cfg: Config, es: seq<Event>, clock: Time ::
      cfg.Valid() && Admissible(cfg, START, es, clock) ==> AtMostOneActive(Run(cfg, START, es).store.watches, symbol)
  }

  lemma NormalisedHasOne(cfg: Config, es: seq<Event>, clock: Time, symbol: string)
    requires cfg.Valid() && Admissible(cfg, START, es, clock) && Upper(symbol) == symbol
    ensures AtMostOneActive(Run(cfg, START, es).store.watches, symbol)
  {
    StartIsSound(clock);
    RunSound(cfg, START, es, clock);
    var ws := Run(cfg, START, es).store.watches;
    forall i, j | 0 <= i < |ws| && 0 <= j < |ws| && ActiveFor(ws[i], symbol) && ActiveFor(ws[j], symbol) ensures i == j {
      assert Contend(ws[i], ws[j]);
    }
  }

  /** The store looks symbols up in upper case but keeps them as they came, so that a Long result under
      any other spelling arms again every time it arrives. */
  lemma OtherSpellingArmsTwice(cfg: Config, r: Result, now: Time)
    requires Armable(r) && r.facts.invalidation.value > 0.0 && r.horizon.LongTerm? && r.asOf <= now
    requires Upper(r.symbol) != r.symbol
    ensures var ws := Run(cfg, START, [Arrive(r, now, 0), Arrive(r, now, 1)]).store.watches;
            |ws| == 2 && ActiveFor(ws[0], r.symbol) && ActiveFor(ws[1], r.symbol)
    ensures Admissible(cfg, START, [Arrive(r, now, 0), Arrive(r, now, 1)], now)
  {
    var one, two := Arrive(r, now, 0), Arrive(r, now, 1);
    ArmsAgain(cfg, START, r, now, 0);
    ArmsAgain(cfg, Step(cfg, START, one), r, now, 1);
    RunOfTwo(cfg, START, one, two, now);
  }

  lemma RunOfTwo(cfg: Config, s: State, a: Event, b: Event, clock: Time)
    ensures Run(cfg, s, [a, b]) == Step(cfg, Step(cfg, s, a), b)
    ensures (a.Arrive? && b.Arrive? && clock <= a.now <= b.now && IdIsNew(s.store.watches, a.id)
             && IdIsNew(Step(cfg, s, a).store.watches, b.id)) ==> Admissible(cfg, s, [a, b], clock)
  {
    var next := Step(cfg, s, a);
    assert [a, b][1..] == [b] && [b][1..] == [];
    assert Run(cfg, next, [b]) == Run(cfg, Step(cfg, next, b), []);
    assert Admissible(cfg, Step(cfg, next, b), [], ClockAfter(b, ClockAfter(a, clock)));
  }

  /** With no watch the store can find, and nothing newer known, the result arms. */
  lemma ArmsAgain(cfg: Config, s: State, r: Result, now: Time, id: nat)
    requires Armable(r) && r.facts.invalidation.value > 0.0 && r.horizon.LongTerm? && r.asOf <= now
    requires LongTerm in ContextOf(s.memory, r.symbol) ==> ContextOf(s.memory, r.symbol)[LongTerm] == r
    requires Upper(r.symbol) != r.symbol
    requires forall i :: 0 <= i < |s.store.watches| ==> s.store.watches[i].thesis.symbol == r.symbol
    ensures var next := Step(cfg, s, Arrive(r, now, id));
            && next.store.watches == s.store.watches + [NewWatch(cfg, r, now, id)]
            && LongTerm in ContextOf(next.memory, r.symbol) && ContextOf(next.memory, r.symbol)[LongTerm] == r
  {
    var m := Prepared(cfg, s.memory, s.store, r);
    NothingFound(s.store.watches, r.symbol);
    assert m == s.memory;
    ProcessArms(cfg, m, s.store, r, now, id);
  }

  lemma ProcessArms(cfg: Config, m: Memory, store: Store, r: Result, now: Time, id: nat)
    requires Armable(r) && r.facts.invalidation.value > 0.0 && r.horizon.LongTerm? && r.asOf <= now
    requires LongTerm in ContextOf(m, r.symbol) ==> ContextOf(m, r.symbol)[LongTerm] == r
    requires Upper(r.symbol) != r.symbol
    requires forall i :: 0 <= i < |store.watches| ==> store.watches[i].thesis.symbol == r.symbol
    ensures var o := Process(cfg, m, store, r, now, id);
            && o.failure.NoFailure? && o.emitted.Some? && (o.emitted.value.status.Armed? || o.emitted.value.status.InZone?)
            && o.store.watches == store.watches + [NewWatch(cfg, r, now, id)]
            && o.memory == Learned(m, r)
            && Latest(o.store.watches, r.symbol, true).None?
  {
    NothingFound(store.watches, r.symbol);
    NothingFound(store.watches + [NewWatch(cfg, r, now, id)], r.symbol);
  }

  lemma NothingFound(ws: seq<Watch>, symbol: string)
    requires Upper(symbol) != symbol && forall i :: 0 <= i < |ws| ==> ws[i].thesis.symbol == symbol
    ensures Latest(ws, symbol, true).None? && Latest(ws, symbol, false).None?
  {
  }

  function ThesisResult(symbol: string): Result {
    Result(0, symbol, LongTerm, 0, Favorable, Bullish,
           Facts(Some(3.0), Some(2.0), Some(2.5), Some(1.0), None, None, None, None, None,
                 "setup", "", None, Gates(false, false, false, false, false)))
  }

  lemma TwoActiveRefute(cfg: Config, es: seq<Event>, clock: Time, symbol: string)
    requires cfg.Valid() && Admissible(cfg, START, es, clock)
    requires var ws := Run(cfg, START, es).store.watches;
             |ws| == 2 && ActiveFor(ws[0], symbol) && ActiveFor(ws[1], symbol)
    ensures !NeverTwo(symbol)
  {
    var ws := Run(cfg, START, es).store.watches;
    assert !AtMostOneActive(ws, symbol) by {
      assert ActiveFor(ws[0], symbol) && ActiveFor(ws[1], symbol);
    }
  }

  /** No run gives a symbol two active watches exactly when the symbol is in upper case. */
  lemma OneActiveExactlyWhenNormalised(symbol: string)
    ensures NeverTwo(symbol) <==> Upper(symbol) == symbol
  {
    if Upper(symbol) == symbol {
      forall cfg: Config, es: seq<Event>, clock: Time | cfg.Valid() && Admissible(cfg, START, es, clock)
        ensures AtMostOneActive(Run(cfg, START, es).store.watches, symbol)
      {
        NormalisedHasOne(cfg, es, clock, symbol);
      }
    } else {
      var cfg := Config(V51, 1, 1, 1, h => 1, 1, 4.0, 0.75, 2.0, 2.0, 1, true, true, true, 0.25);
      var r := ThesisResult(symbol);
      OtherSpellingArmsTwice(cfg, r, 0);
      TwoActiveRefute(cfg, [Arrive(r, 0, 0), Arrive(r, 0, 1)], 0, symbol);
    }
  }
}
