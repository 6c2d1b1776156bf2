/** The Entry Watcher: one decision per analysis result, versions 1, 2, 4, 5 and 5.1. */
module EntryWatcher {
  import opened Market
  import opened Position
  import opened Analyses

  datatype WatchStatus =
    | Armed | InZone | EarlyEntry | ImpulseExtended
    | Triggered | Ineligible | Invalidated | Expired
  {
    predicate Active() {
      Armed? || InZone? || EarlyEntry? || ImpulseExtended?
    }
  }

  /** The metrics the watcher consults; an absent number is None, an absent gate is false. */
  datatype Facts = Facts(
    reference: Option<real>, zoneLow: Option<real>, zoneHigh: Option<real>, invalidation: Option<real>,
    invalidationLevel: Option<real>, target: Option<real>, objective: Option<real>,
    atr: Option<real>, entryTrigger: Option<real>,
    classification: string, setup: string, quality: Option<string>, gates: Gates)

  datatype Gates = Gates(
    anchoredVwap: bool, confirmation: bool, mature: bool, efficiency: bool, fiveMinuteHigherLow: bool)

  datatype Result = Result(
    id: nat, symbol: string, horizon: Horizon, asOf: Time, verdict: Verdict, direction: Direction, facts: Facts)

  type Context = map<Horizon, Result>

  datatype Candidate = Candidate(id: nat, at: Time)

  datatype NamedCandidate = NamedCandidate(symbol: string, candidate: Candidate)

  /** The decision state version 5.1 keeps inside the active watch. */
  datatype Snapshot = Snapshot(results: seq<Result>, candidate: Option<NamedCandidate>, reconfirmed: set<nat>)

  datatype Thesis = Thesis(
    symbol: string, armedAt: Time, expiresAt: Time, zoneLow: Price, zoneHigh: Price, invalidation: Price,
    original: Price, correction: real, source: nat)
  {
    predicate Valid() {
      invalidation < zoneLow <= zoneHigh && armedAt < expiresAt && correction >= 0.0
    }
  }

  datatype Watch = Watch(
    id: nat, thesis: Thesis, status: WatchStatus, updatedAt: Time, current: Price,
    terminalAt: Option<Time>, zoneTouchedAt: Option<Time>, snapshot: Option<Snapshot>)
  {
    /** The validator that copies never run. */
    predicate Valid() {
      && thesis.Valid()
      && thesis.armedAt <= updatedAt
      && (status.Active() <==> terminalAt.None?)
    }
  }

  datatype Reason =
    | ThesisArmed | WatchExpired | StructureInvalidated | InvalidationBreached
    | EntryConfirmed | ContinuationConfirmed | ZoneReached | BreakawayPending | LeftZone

  datatype Transition = Transition(
    watchId: nat, previous: Option<WatchStatus>, status: WatchStatus, at: Time, price: Price,
    thesis: Thesis, reason: Reason, evidence: Context)

  datatype Store = Store(watches: seq<Watch>, transitions: seq<Transition>)

  datatype Memory = Memory(latest: map<string, Context>, candidates: map<string, Candidate>, reconfirmed: set<nat>)

  const NO_MEMORY := Memory(map[], map[], {})

  datatype Version = V1 | V2 | V4 | V5 | V51

  datatype Config = Config(
    version: Version, ttl: int, rearmCooldown: int, triggerCooldown: int, maxAge: Horizon -> int,
    grace: int, maxPercent: real, maxAtr: real, fallbackPercent: real, minRewardRisk: real,
    delay: int, strongRequired: bool, higherLowRequired: bool, noRetest: bool, exitBuffer: real)
  {
    predicate Valid() {
      && ttl > 0 && rearmCooldown > 0 && triggerCooldown > 0 && grace > 0 && delay > 0
      && maxPercent > 0.0 && maxAtr > 0.0 && minRewardRisk > 0.0 && 0.0 < fallbackPercent <= maxPercent
      && exitBuffer >= 0.0
    }

    predicate Reconfirms() {
      version.V4? || version.V5? || version.V51?
    }
  }

  /** Two decimal places, half up. */
  function Quantize2(x: real): real { RoundHalfUp(x * 100.0) as real / 100.0 }

  // ---------------------------------------------------------------- the price of record

  function Priority(h: Horizon): int {
    match h
    case News => -3
    case OptionsGamma => -2
    case VolumeStructure => -1
    case LongTerm => 0
    case Dilution => 1
    case Swing => 2
    case Intraday => 3
  }

  const HORIZONS: seq<Horizon> := [LongTerm, Dilution, Swing, Intraday, VolumeStructure, OptionsGamma, News]

  lemma EveryHorizon(h: Horizon)
    ensures h in HORIZONS
  {
    match h
    case LongTerm => assert HORIZONS[0] == h;
    case Dilution => assert HORIZONS[1] == h;
    case Swing => assert HORIZONS[2] == h;
    case Intraday => assert HORIZONS[3] == h;
    case VolumeStructure => assert HORIZONS[4] == h;
    case OptionsGamma => assert HORIZONS[5] == h;
    case News => assert HORIZONS[6] == h;
  }

  predicate Priced(c: Context, h: Horizon) {
    h in c && c[h].facts.reference.Some?
  }

  /** The later result speaks for the price; of two equally late ones, the horizon with priority. */
  predicate Outranks(c: Context, g: Horizon, h: Horizon)
    requires g in c && h in c
  {
    c[g].asOf > c[h].asOf || (c[g].asOf == c[h].asOf && Priority(g) >= Priority(h))
  }

  function Speaker(c: Context, hs: seq<Horizon>): (best: Option<Horizon>)
    ensures best.None? ==> forall h :: h in hs ==> !Priced(c, h)
    ensures best.Some? ==> best.value in hs && Priced(c, best.value)
    ensures best.Some? ==> forall h :: h in hs && Priced(c, h) ==> Outranks(c, best.value, h)
  {
    if hs == [] then None
    else
      var rest := Speaker(c, hs[1..]);
      if !Priced(c, hs[0]) then rest
      else if rest.None? || Outranks(c, hs[0], rest.value) then Some(hs[0])
      else rest
  }

  function CurrentPrice(c: Context): Option<real> {
    match Speaker(c, HORIZONS)
    case None => None
    case Some(h) => c[h].facts.reference
  }

  /** A missing price, and a price of zero, leave the stored one in force. */
  function PriceOr(c: Context, stored: real): real {
    match CurrentPrice(c)
    case None => stored
    case Some(p) => if p == 0.0 then stored else p
  }

  // ---------------------------------------------------------------- confirmation

  predicate Recent(cfg: Config, c: Context, now: Time) {
    && LongTerm in c && Swing in c && Intraday in c
    && now - c[LongTerm].asOf <= cfg.maxAge(LongTerm)
    && now - c[Swing].asOf <= cfg.maxAge(Swing)
    && now - c[Intraday].asOf <= cfg.maxAge(Intraday)
  }

  predicate LongSupports(c: Context) {
    LongTerm in c && c[LongTerm].direction.Bullish? && !c[LongTerm].verdict.Avoid? && !c[LongTerm].verdict.InsufficientData?
  }

  predicate FavorableBull(c: Context, h: Horizon) {
    h in c && c[h].direction.Bullish? && c[h].verdict.Favorable?
  }

  predicate ConfirmedV1(cfg: Config, c: Context, now: Time) {
    && Recent(cfg, c, now)
    && LongSupports(c)
    && FavorableBull(c, Swing) && c[Swing].facts.classification in {"breakout", "pullback"}
    && FavorableBull(c, Intraday)
  }

  predicate ConfirmedV2(cfg: Config, c: Context, now: Time) {
    && ConfirmedV1(cfg, c, now)
    && c[Intraday].facts.setup in {"bullish_breakout", "bullish_vwap_reclaim", "bullish_entry_confirmation"}
    && (c[Intraday].facts.quality.None? || c[Intraday].facts.quality.value in {"standard", "strong"})
  }

  /** A mature Intraday confirmation. */
  predicate Mature(cfg: Config, r: Result) {
    && r.direction.Bullish? && r.verdict.Favorable?
    && r.facts.gates.confirmation && r.facts.gates.mature && r.facts.gates.efficiency
    && (!cfg.strongRequired || r.facts.quality == Some("strong"))
    && (!cfg.higherLowRequired || r.facts.gates.fiveMinuteHigherLow)
  }

  predicate GatesPass(cfg: Config, m: Memory, c: Context) {
    && Swing in c && Intraday in c
    && c[Swing].facts.gates.anchoredVwap
    && Mature(cfg, c[Intraday])
    && c[Intraday].id in m.reconfirmed
    && c[Intraday].facts.gates.confirmation
  }

  predicate Confirmed(cfg: Config, m: Memory, c: Context, now: Time) {
    match cfg.version
    case V1 => ConfirmedV1(cfg, c, now)
    case V2 => ConfirmedV2(cfg, c, now)
    case _ => ConfirmedV2(cfg, c, now) && GatesPass(cfg, m, c)
  }

  predicate ContinuationConfirmedBy(cfg: Config, m: Memory, c: Context, now: Time) {
    if !cfg.Reconfirms() then Confirmed(cfg, m, c, now)
    else if ConfirmedV2(cfg, c, now) then GatesPass(cfg, m, c)
    else
      && Recent(cfg, c, now)
      && LongSupports(c)
      && c[Swing].direction.Bullish? && (c[Swing].verdict.Favorable? || c[Swing].verdict.Caution?)
      && c[Swing].facts.classification in {"breakout", "pullback", "extended"}
      && GatesPass(cfg, m, c)
  }

  // ---------------------------------------------------------------- continuation without a retest

  /** How far a continuation is extended: percent, and in average true ranges when they are known. */
  datatype Extension = Extension(percent: real, ranges: Option<real>)

  function ZoneTouchedAt(w: Watch): Option<Time> {
    if w.zoneTouchedAt.Some? then w.zoneTouchedAt
    else if w.status.InZone? then Some(w.updatedAt)
    else None
  }

  function Metric(c: Context, h: Horizon, read: Facts -> Option<real>): Option<real> {
    if h in c then read(c[h].facts) else None
  }

  function FirstKnown(a: Option<real>, b: Option<real>): Option<real> {
    if a.Some? then a else b
  }

  function RetestedExtension(cfg: Config, w: Watch, price: real, c: Context, now: Time): Option<Extension> {
    var touched := ZoneTouchedAt(w);
    if touched.None? || now - touched.value > cfg.grace || price <= w.thesis.zoneHigh then None
    else
      var extension := price - w.thesis.zoneHigh;
      var percent := Quantize4(extension / w.thesis.zoneHigh * 100.0);
      var atr := FirstKnown(Metric(c, Swing, (f: Facts) => f.atr), Metric(c, LongTerm, (f: Facts) => f.atr));
      if percent > cfg.maxPercent then None
      else if atr.None? || atr.value <= 0.0 then
        if percent > cfg.fallbackPercent then None else Some(Extension(percent, None))
      else
        var ranges := Quantize4(extension / atr.value);
        if ranges > cfg.maxAtr then None else Some(Extension(percent, Some(ranges)))
  }

  function NoRetestExtension(cfg: Config, w: Watch, price: real, c: Context): Option<Extension> {
    var trigger, atr := Metric(c, Intraday, (f: Facts) => f.entryTrigger), Metric(c, Intraday, (f: Facts) => f.atr);
    if !cfg.noRetest || price <= w.thesis.zoneHigh then None
    else if trigger.None? || trigger.value <= 0.0 || atr.None? || atr.value <= 0.0 then None
    else
      var extension := if price - trigger.value > 0.0 then price - trigger.value else 0.0;
      var percent, ranges := Quantize4(extension / trigger.value * 100.0), Quantize4(extension / atr.value);
      if percent > cfg.maxPercent || ranges > cfg.maxAtr then None else Some(Extension(percent, Some(ranges)))
  }

  function ContinuationCandidate(cfg: Config, w: Watch, price: real, c: Context, now: Time): Option<Extension> {
    if (cfg.version.V5? || cfg.version.V51?) && ZoneTouchedAt(w).None? then NoRetestExtension(cfg, w, price, c)
    else RetestedExtension(cfg, w, price, c, now)
  }

  /** A live invalidation level under the price, from Swing or Intraday. */
  predicate LevelBelow(c: Context, price: real, level: real) {
    && level < price
    && (Metric(c, Swing, (f: Facts) => f.invalidation) == Some(level)
        || Metric(c, Intraday, (f: Facts) => f.invalidationLevel) == Some(level))
  }

  /** The nearest stop below the price: the thesis invalidation, raised by Swing and Intraday levels. */
  function LiveInvalidation(w: Watch, price: real, c: Context): (stop: real)
    ensures w.thesis.invalidation < price ==> w.thesis.invalidation <= stop < price
    ensures forall level :: LevelBelow(c, price, level) ==> level <= stop
    ensures stop == w.thesis.invalidation || LevelBelow(c, price, stop)
  {
    var swing := Metric(c, Swing, (f: Facts) => f.invalidation);
    var intraday := Metric(c, Intraday, (f: Facts) => f.invalidationLevel);
    var one := if swing.Some? && swing.value < price && swing.value > w.thesis.invalidation then swing.value
               else w.thesis.invalidation;
    if intraday.Some? && intraday.value < price && intraday.value > one then intraday.value else one
  }

  function LiveTarget(c: Context): Option<real> {
    FirstKnown(
      FirstKnown(Metric(c, Swing, (f: Facts) => f.target), Metric(c, Swing, (f: Facts) => f.objective)),
      FirstKnown(Metric(c, Intraday, (f: Facts) => f.target), Metric(c, Intraday, (f: Facts) => f.objective)))
  }

  function RewardRisk(w: Watch, price: real, c: Context): Option<real> {
    var target, stop := LiveTarget(c), LiveInvalidation(w, price, c);
    if target.None? || target.value <= price || stop >= price then None
    else Some(Quantize2((target.value - price) / (price - stop)))
  }

  // ---------------------------------------------------------------- the decision on an active watch

  datatype Change = Change(status: WatchStatus, price: real, reason: Reason, touched: Option<Time>)

  function InvalidationReason(cfg: Config, w: Watch, r: Result, price: real): Option<Reason> {
    if r.horizon.LongTerm? && (r.verdict.Avoid? || r.direction.Bearish?) then Some(StructureInvalidated)
    else if cfg.version.V1? then
      if price <= w.thesis.invalidation then Some(InvalidationBreached) else None
    else if r.horizon.LongTerm? && r.facts.reference.Some? && r.facts.reference.value <= w.thesis.invalidation then
      Some(InvalidationBreached)
    else None
  }

  predicate LeftTargetZone(cfg: Config, w: Watch, price: real) {
    if cfg.version.V51? then price > w.thesis.zoneHigh * (1.0 + cfg.exitBuffer / 100.0) else price > w.thesis.zoneHigh
  }

  /** Whether the continuation of `w` at `price` pays enough for its risk. */
  predicate Pays(cfg: Config, w: Watch, price: real, c: Context) {
    var reward := RewardRisk(w, price, c);
    reward.Some? && reward.value >= cfg.minRewardRisk
  }

  /** The change one result makes to an active watch, if any. */
  function Decide(cfg: Config, m: Memory, w: Watch, c: Context, r: Result, now: Time): Option<Change> {
    var price := PriceOr(c, w.current);
    if now >= w.thesis.expiresAt then Some(Change(WatchStatus.Expired, price, WatchExpired, None))
    else
      var invalid := InvalidationReason(cfg, w, r, price);
      if invalid.Some? then Some(Change(WatchStatus.Invalidated, price, invalid.value, None))
      else if w.thesis.zoneLow <= price <= w.thesis.zoneHigh && Confirmed(cfg, m, c, now) then
        Some(Change(WatchStatus.Triggered, price, EntryConfirmed, None))
      else
        var continuation := ContinuationCandidate(cfg, w, price, c, now);
        if continuation.Some? && ContinuationConfirmedBy(cfg, m, c, now) && Pays(cfg, w, price, c) then
          Some(Change(WatchStatus.Triggered, price, ContinuationConfirmed, None))
        else if w.status.Armed? && w.thesis.invalidation < price <= w.thesis.zoneHigh then
          Some(Change(WatchStatus.InZone, price, ZoneReached, Some(now)))
        else if w.status.InZone? && LeftTargetZone(cfg, w, price) then
          if continuation.Some? then Some(Change(WatchStatus.Armed, price, BreakawayPending, ZoneTouchedAt(w)))
          else Some(Change(WatchStatus.Armed, price, LeftZone, None))
        else None
  }

  // ---------------------------------------------------------------- the store

  /** The first watch of the normalised symbol with the latest key, among those that qualify. */
  function Latest(ws: seq<Watch>, symbol: string, activeOnly: bool): (best: Option<nat>)
    ensures best.Some? ==> best.value < |ws| && Matches(ws[best.value], symbol, activeOnly)
    ensures best.None? ==> forall i :: 0 <= i < |ws| ==> !Matches(ws[i], symbol, activeOnly)
  {
    if ws == [] then None
    else
      var last := |ws| - 1;
      var earlier := Latest(ws[..last], symbol, activeOnly);
      if !Matches(ws[last], symbol, activeOnly) then earlier
      else if earlier.None? || Key(ws[earlier.value], activeOnly) < Key(ws[last], activeOnly) then Some(last)
      else earlier
  }

  predicate Matches(w: Watch, symbol: string, activeOnly: bool) {
    w.thesis.symbol == Upper(symbol) && (activeOnly ==> w.status.Active())
  }

  /** Active watches compare by when they were armed, all watches by when they last changed. */
  function Key(w: Watch, activeOnly: bool): Time {
    if activeOnly then w.thesis.armedAt else w.updatedAt
  }

  function Find(ws: seq<Watch>, id: nat): (found: Option<nat>)
    ensures found.Some? ==> found.value < |ws| && ws[found.value].id == id
    ensures found.None? ==> forall i :: 0 <= i < |ws| ==> ws[i].id != id
  {
    if ws == [] then None
    else if ws[|ws| - 1].id == id then Some(|ws| - 1)
    else Find(ws[..|ws| - 1], id)
  }

  /** Insert a new watch; None is the error that its symbol already has an active one. */
  function Created(store: Store, w: Watch, t: Transition): Option<Store> {
    if Latest(store.watches, w.thesis.symbol, true).Some? then None
    else Some(Store(store.watches + [w], store.transitions + [t]))
  }

  /** Compare and set; None is the error that the watch is missing or has moved on. */
  function Transitioned(store: Store, w: Watch, t: Transition): Option<Store> {
    match Find(store.watches, w.id)
    case None => None
    case Some(i) =>
      if t.previous != Some(store.watches[i].status) then None
      else Some(Store(store.watches[i := w], store.transitions + [t]))
  }

  /** Replace the snapshot; None is the error that the watch is missing or has moved on. */
  function SnapshotUpdated(store: Store, w: Watch): Option<Store> {
    match Find(store.watches, w.id)
    case None => None
    case Some(i) =>
      if store.watches[i].status != w.status then None
      else Some(store.(watches := store.watches[i := w]))
  }

  // ---------------------------------------------------------------- one result

  /** How an ingestion ends: normally, or by the exception of a clock error, of a rejected message
      or of the store. */
  datatype Failure = NoFailure | FutureResult | Rejected | StoreRefused

  datatype Outcome = Outcome(memory: Memory, store: Store, emitted: Option<Transition>, failure: Failure)

  function ContextOf(m: Memory, symbol: string): Context {
    if symbol in m.latest then m.latest[symbol] else map[]
  }

  predicate DistinctIds(c: Context) {
    forall g, h :: g in c && h in c && c[g].id == c[h].id ==> g == h
  }

  /** The validator of a transition message. */
  predicate Publishable(w: Watch, previous: Option<WatchStatus>, status: WatchStatus, now: Time, price: real, c: Context) {
    && price > 0.0
    && c != map[]
    && DistinctIds(c)
    && (status.Expired? || now <= w.thesis.expiresAt)
    && previous != Some(status)
  }

  function Changed(w: Watch, change: Change, now: Time): Watch
    requires change.price > 0.0
  {
    w.(status := change.status, updatedAt := now, current := change.price,
       terminalAt := if change.status.Active() then None else Some(now),
       zoneTouchedAt := if change.touched.Some? then change.touched else w.zoneTouchedAt)
  }

  function ChangeWatch(m: Memory, store: Store, w: Watch, change: Change, c: Context, now: Time): Outcome {
    if !Publishable(w, Some(w.status), change.status, now, change.price, c) then Outcome(m, store, None, Rejected)
    else
      var t := Transition(w.id, Some(w.status), change.status, now, change.price, w.thesis, change.reason, c);
      match Transitioned(store, Changed(w, change, now), t)
      case None => Outcome(m, store, None, StoreRefused)
      case Some(next) => Outcome(m, next, Some(t), NoFailure)
  }

  /** Whether a Long result states a thesis worth watching. */
  predicate Armable(r: Result) {
    var f := r.facts;
    && r.direction.Bullish? && !r.verdict.Avoid? && !r.verdict.InsufficientData?
    && f.classification in {"buy_zone", "extended", "setup", "watch_pullback"}
    && f.zoneLow.Some? && f.zoneHigh.Some? && f.invalidation.Some? && f.reference.Some?
    && f.invalidation.value < f.zoneLow.value <= f.zoneHigh.value
    && f.reference.value > f.invalidation.value
  }

  function NewWatch(cfg: Config, r: Result, now: Time, id: nat): Watch
    requires Armable(r) && r.facts.invalidation.value > 0.0
  {
    var f := r.facts;
    var price, high := f.reference.value, f.zoneHigh.value;
    var correction := (price - high) / price * 100.0;
    var inZone := price <= high;
    Watch.Watch(
      id,
      Thesis(r.symbol, now, now + cfg.ttl, f.zoneLow.value, high, f.invalidation.value, price,
             Quantize4(if correction > 0.0 then correction else 0.0), r.id),
      if inZone then WatchStatus.InZone else WatchStatus.Armed, now, price, None, if inZone then Some(now) else None, None)
  }

  function Arm(cfg: Config, m: Memory, store: Store, r: Result, now: Time, id: nat): Outcome {
    if !Armable(r) then Outcome(m, store, None, NoFailure)
    else if r.facts.invalidation.value <= 0.0 then Outcome(m, store, None, Rejected)
    else
      var w := NewWatch(cfg, r, now, id);
      var t := Transition(id, None, w.status, now, w.current, w.thesis, ThesisArmed, map[LongTerm := r]);
      match Created(store, w, t)
      case None => Outcome(m, store, None, StoreRefused)
      case Some(next) => Outcome(m, next, Some(t), NoFailure)
  }

  predicate SameThesis(w: Watch, r: Result) {
    && r.facts.zoneLow == Some(w.thesis.zoneLow as real)
    && r.facts.zoneHigh == Some(w.thesis.zoneHigh as real)
    && r.facts.invalidation == Some(w.thesis.invalidation as real)
  }

  /** The rest a closed thesis needs before the same levels arm again. */
  predicate Resting(cfg: Config, store: Store, r: Result, now: Time) {
    var last := Latest(store.watches, r.symbol, false);
    && last.Some?
    && !store.watches[last.value].status.Active()
    && now - store.watches[last.value].updatedAt < cfg.rearmCooldown
    && SameThesis(store.watches[last.value], r)
  }

  function ProcessActive(cfg: Config, m: Memory, store: Store, i: nat, c: Context, r: Result, now: Time): Outcome
    requires i < |store.watches|
  {
    match Decide(cfg, m, store.watches[i], c, r, now)
    case None => Outcome(m, store, None, NoFailure)
    case Some(change) => ChangeWatch(m, store, store.watches[i], change, c, now)
  }

  /** The memory with `r` as its symbol's newest result of that horizon. */
  function Learned(m: Memory, r: Result): Memory {
    m.(latest := m.latest[r.symbol := ContextOf(m, r.symbol)[r.horizon := r]])
  }

  /** A result that is news: it may change the active watch, or arm one. */
  function ProcessLearned(cfg: Config, m: Memory, c: Context, store: Store, r: Result, now: Time, id: nat): Outcome {
    var active := Latest(store.watches, r.symbol, true);
    if active.Some? then ProcessActive(cfg, m, store, active.value, c, r, now)
    else if r.horizon.LongTerm? && !Resting(cfg, store, r, now) then Arm(cfg, m, store, r, now, id)
    else Outcome(m, store, None, NoFailure)
  }

  /** What every version does with a result once its own bookkeeping is done. */
  function Process(cfg: Config, m: Memory, store: Store, r: Result, now: Time, id: nat): Outcome {
    var c := ContextOf(m, r.symbol);
    if r.asOf > now then Outcome(m, store, None, FutureResult)
    else if r.horizon in c && r.asOf < c[r.horizon].asOf then Outcome(m, store, None, NoFailure)
    else
      ProcessLearned(cfg, Learned(m, r), c[r.horizon := r], store, r, now, id)
  }

  // ---------------------------------------------------------------- reconfirmation, versions 4 to 5.1

  /** Remember the first mature Intraday result of a symbol; a different one late enough reconfirms it. */
  function Observe(cfg: Config, m: Memory, r: Result): Memory {
    if !r.horizon.Intraday? || !Mature(cfg, r) then m
    else if r.symbol !in m.candidates then
      m.(candidates := m.candidates[r.symbol := Candidate(r.id, r.asOf)])
    else if r.id != m.candidates[r.symbol].id && r.asOf - m.candidates[r.symbol].at >= cfg.delay then
      m.(reconfirmed := m.reconfirmed + {r.id})
    else m
  }

  function Sources(c: Context): set<nat> {
    set h | h in c :: c[h].id
  }

  /** Forget the candidate and the reconfirmations a transition has used up. */
  function Consume(m: Memory, symbol: string, t: Transition): Memory {
    m.(candidates := m.candidates - {symbol}, reconfirmed := m.reconfirmed - Sources(t.evidence))
  }

  /** The pause after a trigger before a Long result may arm again. */
  predicate Pausing(cfg: Config, store: Store, r: Result, now: Time) {
    var last := Latest(store.watches, r.symbol, false);
    && r.horizon.LongTerm?
    && Latest(store.watches, r.symbol, true).None?
    && last.Some?
    && store.watches[last.value].status.Triggered?
    && now - store.watches[last.value].updatedAt < cfg.triggerCooldown
  }

  // ---------------------------------------------------------------- checkpoints, version 5.1

  function ListResults(c: Context, hs: seq<Horizon>): seq<Result> {
    if hs == [] then []
    else (if hs[0] in c then [c[hs[0]]] else []) + ListResults(c, hs[1..])
  }

  function SnapshotOf(m: Memory, symbol: string): Snapshot {
    Snapshot(ListResults(ContextOf(m, symbol), HORIZONS),
             if symbol in m.candidates then Some(NamedCandidate(symbol, m.candidates[symbol])) else None,
             m.reconfirmed)
  }

  /** Write the decision state into the symbol's active watch. */
  function Persist(m: Memory, store: Store, symbol: string): Option<Store> {
    var active := Latest(store.watches, symbol, true);
    if active.None? then Some(store)
    else
      var w := store.watches[active.value];
      SnapshotUpdated(store, w.(snapshot := Some(SnapshotOf(m, w.thesis.symbol))))
  }

  function Recall(latest: map<string, Context>, results: seq<Result>): map<string, Context>
    decreases |results|
  {
    if results == [] then latest
    else
      var r := results[0];
      var c := if r.symbol in latest then latest[r.symbol] else map[];
      var recalled := if r.horizon !in c || r.asOf >= c[r.horizon].asOf then c[r.horizon := r] else c;
      Recall(latest[r.symbol := recalled], results[1..])
  }

  /** Merge a stored decision state into the memory. */
  function Restore(m: Memory, s: Snapshot): Memory {
    Memory(Recall(m.latest, s.results),
           if s.candidate.Some? then m.candidates[Upper(s.candidate.value.symbol) := s.candidate.value.candidate]
           else m.candidates,
           m.reconfirmed + s.reconfirmed)
  }

  function RestoreActive(m: Memory, store: Store, symbol: string): Memory {
    var active := Latest(store.watches, symbol, true);
    if active.None? || store.watches[active.value].snapshot.None? then m
    else Restore(m, store.watches[active.value].snapshot.value)
  }

  // ---------------------------------------------------------------- ingestion by version

  function IngestReconfirming(cfg: Config, m: Memory, store: Store, r: Result, now: Time, id: nat): Outcome {
    if Pausing(cfg, store, r, now) then Outcome(m, store, None, NoFailure)
    else
      var o := Process(cfg, Observe(cfg, m, r), store, r, now, id);
      if o.emitted.Some? && o.emitted.value.status.Triggered? then
        o.(memory := Consume(o.memory, r.symbol, o.emitted.value))
      else o
  }

  /** After an undisturbed ingestion: forget what a closing change used up, or write a checkpoint. */
  function Checkpointed(o: Outcome, symbol: string): Outcome {
    if !o.failure.NoFailure? then o
    else if o.emitted.Some? && !o.emitted.value.status.Armed? && !o.emitted.value.status.InZone? then
      o.(memory := Consume(o.memory, symbol, o.emitted.value))
    else
      match Persist(o.memory, o.store, symbol)
      case None => o.(failure := StoreRefused)
      case Some(next) => o.(store := next)
  }

  function IngestCheckpointing(cfg: Config, m: Memory, store: Store, r: Result, now: Time, id: nat): Outcome {
    var restored := RestoreActive(m, store, r.symbol);
    if Pausing(cfg, store, r, now) then Outcome(restored, store, None, NoFailure)
    else
      Checkpointed(Process(cfg, Observe(cfg, restored, r), store, r, now, id), r.symbol)
  }

  function Ingest(cfg: Config, m: Memory, store: Store, r: Result, now: Time, id: nat): Outcome {
    match cfg.version
    case V1 => Process(cfg, m, store, r, now, id)
    case V2 => Process(cfg, m, store, r, now, id)
    case V51 => IngestCheckpointing(cfg, m, store, r, now, id)
    case _ => IngestReconfirming(cfg, m, store, r, now, id)
  }
}
