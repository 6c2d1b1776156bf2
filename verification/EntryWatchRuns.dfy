/** Runs of the Entry Watcher over one store: what no sequence of results and restarts can break. */
module EntryWatchRuns {
  import opened Market
  import opened Position
  import opened Analyses
  import opened EntryWatcher

  datatype State = State(memory: Memory, store: Store)

  /** A result arrives, with the clock and an unused watch id, or the process restarts. */
  datatype Event = Arrive(result: Result, now: Time, id: nat) | Restart

  function OutcomeOf(cfg: Config, s: State, e: Event): Outcome {
    match e
    case Arrive(r, now, id) => Ingest(cfg, s.memory, s.store, r, now, id)
    case Restart => Outcome(NO_MEMORY, s.store, None, NoFailure)
  }

  function Step(cfg: Config, s: State, e: Event): State {
    var o := OutcomeOf(cfg, s, e);
    State(o.memory, o.store)
  }

  function Run(cfg: Config, s: State, es: seq<Event>): State
    decreases |es|
  {
    if es == [] then s else Run(cfg, Step(cfg, s, es[0]), es[1..])
  }

  const START := State(NO_MEMORY, Store([], []))

  predicate IdIsNew(ws: seq<Watch>, id: nat) {
    forall i :: 0 <= i < |ws| ==> ws[i].id != id
  }

  function ClockAfter(e: Event, clock: Time): Time {
    if e.Arrive? then e.now else clock
  }

  function ClockAtEnd(es: seq<Event>, clock: Time): Time
    decreases |es|
  {
    if es == [] then clock else ClockAtEnd(es[1..], ClockAfter(es[0], clock))
  }

  /** The clock never runs backwards and the id factory returns unused ids. */
  ghost predicate Admissible(cfg: Config, s: State, es: seq<Event>, clock: Time)
    decreases |es|
  {
    if es == [] then true
    else
      && (es[0].Arrive? ==> clock <= es[0].now && IdIsNew(s.store.watches, es[0].id))
      && Admissible(cfg, Step(cfg, s, es[0]), es[1..], ClockAfter(es[0], clock))
  }

  // ---------------------------------------------------------------- the shape of a store

  function LastOf(ts: seq<Transition>, id: nat): (k: Option<nat>)
    ensures k.Some? ==> k.value < |ts| && ts[k.value].watchId == id
    ensures k.Some? ==> forall j :: k.value < j < |ts| ==> ts[j].watchId != id
    ensures k.None? ==> forall j :: 0 <= j < |ts| ==> ts[j].watchId != id
  {
    if ts == [] then None
    else if ts[|ts| - 1].watchId == id then Some(|ts| - 1)
    else LastOf(ts[..|ts| - 1], id)
  }

  function LastStatus(ts: seq<Transition>, id: nat): Option<WatchStatus> {
    match LastOf(ts, id)
    case None => None
    case Some(k) => Some(ts[k].status)
  }

  /** A transition continues its watch from the status the previous one left, which was active. */
  predicate Links(before: seq<Transition>, t: Transition) {
    && t.previous == LastStatus(before, t.watchId)
    && t.previous != Some(t.status)
    && (t.previous.Some? ==> t.previous.value.Active())
  }

  ghost predicate Chained(ts: seq<Transition>) {
    forall k :: 0 <= k < |ts| ==> Links(ts[..k], ts[k])
  }

  ghost predicate UniqueIds(ws: seq<Watch>) {
    forall i, j :: 0 <= i < j < |ws| ==> ws[i].id != ws[j].id
  }

  ghost predicate Dated(ws: seq<Watch>, clock: Time) {
    forall i :: 0 <= i < |ws| ==> ws[i].Valid() && ws[i].updatedAt <= clock
  }

  /** Every normalised symbol has at most one active watch. */
  ghost predicate OneActive(ws: seq<Watch>) {
    forall i, j :: 0 <= i < |ws| && 0 <= j < |ws| && Contend(ws[i], ws[j]) ==> i == j
  }

  predicate Contend(v: Watch, w: Watch) {
    v.status.Active() && w.status.Active() && v.thesis.symbol == w.thesis.symbol && Upper(v.thesis.symbol) == v.thesis.symbol
  }

  /** The journal ends each watch where the watch is, and never changes its levels. */
  ghost predicate Journalled(ws: seq<Watch>, ts: seq<Transition>) {
    && (forall i :: 0 <= i < |ws| ==> LastStatus(ts, ws[i].id) == Some(ws[i].status))
    && (forall k :: 0 <= k < |ts| ==> !IdIsNew(ws, ts[k].watchId))
    && (forall k, i :: 0 <= k < |ts| && 0 <= i < |ws| && ts[k].watchId == ws[i].id ==> ts[k].thesis == ws[i].thesis)
  }

  ghost predicate Sound(store: Store, clock: Time) {
    && UniqueIds(store.watches)
    && Dated(store.watches, clock)
    && OneActive(store.watches)
    && Journalled(store.watches, store.transitions)
    && Chained(store.transitions)
  }

  /** A watch keeps its identity and its thesis, and once closed keeps its outcome. */
  predicate Succeeds(w: Watch, v: Watch) {
    && v.id == w.id && v.thesis == w.thesis && v.updatedAt >= w.updatedAt
    && (!w.status.Active() ==> v == w)
  }

  ghost predicate Grows(a: Store, b: Store) {
    && |a.watches| <= |b.watches|
    && (forall i :: 0 <= i < |a.watches| ==> Succeeds(a.watches[i], b.watches[i]))
    && a.transitions <= b.transitions
  }

  // ---------------------------------------------------------------- the three writes

  lemma FoundAt(ws: seq<Watch>, i: nat)
    requires UniqueIds(ws) && i < |ws|
    ensures Find(ws, ws[i].id) == Some(i)
  {
  }

  lemma JournalGrows(ts: seq<Transition>, t: Transition, id: nat)
    ensures LastStatus(ts + [t], id) == if t.watchId == id then Some(t.status) else LastStatus(ts, id)
  {
    assert (ts + [t])[..|ts|] == ts;
  }

  lemma ChainGrows(ts: seq<Transition>, t: Transition)
    requires Chained(ts) && Links(ts, t)
    ensures Chained(ts + [t])
  {
    var more := ts + [t];
    forall k | 0 <= k < |more| ensures Links(more[..k], more[k]) {
      if k < |ts| {
        assert more[..k] == ts[..k];
      } else {
        assert more[..k] == ts;
      }
    }
  }

  /** Writing a watch with a transition that continues it keeps the store sound. */
  lemma TransitionSound(store: Store, i: nat, v: Watch, t: Transition, clock: Time, now: Time)
    requires Sound(store, clock) && clock <= now && i < |store.watches|
    requires var w := store.watches[i];
             && w.status.Active() && v.Valid() && v.updatedAt == now && v.id == w.id && v.thesis == w.thesis
             && v.status != w.status && t.watchId == w.id && t.thesis == w.thesis && t.previous == Some(w.status)
             && t.status == v.status
    ensures Transitioned(store, v, t) == Some(Store(store.watches[i := v], store.transitions + [t]))
    ensures Sound(Store(store.watches[i := v], store.transitions + [t]), now)
    ensures Grows(store, Store(store.watches[i := v], store.transitions + [t]))
  {
    var ws, ts := store.watches, store.transitions;
    FoundAt(ws, i);
    ChainGrows(ts, t) by {
      assert LastStatus(ts, ws[i].id) == Some(ws[i].status);
    }
    JournalReplaced(ws, ts, i, v, t);
    ActiveReplaced(ws, i, v);
    ReplacedInPlace(ws, i, v, clock, now);
    ReplacementGrows(store, i, v, [t]);
  }

  lemma ReplacedInPlace(ws: seq<Watch>, i: nat, v: Watch, clock: Time, now: Time)
    requires UniqueIds(ws) && Dated(ws, clock) && clock <= now && i < |ws|
    requires v.id == ws[i].id && v.Valid() && v.updatedAt <= now
    ensures UniqueIds(ws[i := v]) && Dated(ws[i := v], now)
  {
  }

  lemma ReplacementGrows(store: Store, i: nat, v: Watch, more: seq<Transition>)
    requires i < |store.watches| && Succeeds(store.watches[i], v)
    ensures Grows(store, Store(store.watches[i := v], store.transitions + more))
  {
  }

  lemma JournalReplaced(ws: seq<Watch>, ts: seq<Transition>, i: nat, v: Watch, t: Transition)
    requires Journalled(ws, ts) && UniqueIds(ws) && i < |ws|
    requires v.id == ws[i].id && v.thesis == ws[i].thesis
    requires t.watchId == v.id && t.thesis == v.thesis && t.status == v.status
    ensures Journalled(ws[i := v], ts + [t])
  {
    var vs, more := ws[i := v], ts + [t];
    forall j | 0 <= j < |vs| ensures LastStatus(more, vs[j].id) == Some(vs[j].status) {
      JournalGrows(ts, t, vs[j].id);
    }
    forall k | 0 <= k < |more| ensures !IdIsNew(vs, more[k].watchId) {
      if k < |ts| {
        var j :| 0 <= j < |ws| && ws[j].id == ts[k].watchId;
        assert vs[j].id == ws[j].id;
      } else {
        assert vs[i].id == more[k].watchId;
      }
    }
  }

  lemma ActiveReplaced(ws: seq<Watch>, i: nat, v: Watch)
    requires OneActive(ws) && i < |ws| && ws[i].status.Active() && v.thesis == ws[i].thesis
    ensures OneActive(ws[i := v])
  {
    var vs := ws[i := v];
    forall j, k | 0 <= j < |vs| && 0 <= k < |vs| && Contend(vs[j], vs[k]) ensures j == k {
      assert Contend(ws[j], ws[k]);
    }
  }

  /** Adding a watch when its normalised symbol has no active one keeps the store sound. */
  lemma CreationSound(store: Store, w: Watch, t: Transition, clock: Time, now: Time)
    requires Sound(store, clock) && clock <= now && IdIsNew(store.watches, w.id)
    requires w.Valid() && w.updatedAt == now && t.watchId == w.id && t.thesis == w.thesis
    requires t.previous == None && t.status == w.status
    requires Latest(store.watches, w.thesis.symbol, true).None?
    ensures Sound(Store(store.watches + [w], store.transitions + [t]), now)
    ensures Grows(store, Store(store.watches + [w], store.transitions + [t]))
  {
    var ws, ts := store.watches, store.transitions;
    ChainGrows(ts, t) by {
      assert LastOf(ts, w.id).None?;
    }
    JournalExtended(ws, ts, w, t);
    ActiveExtended(ws, w);
    AddedAtEnd(ws, w, clock, now);
    AdditionGrows(store, w, t);
  }

  lemma AddedAtEnd(ws: seq<Watch>, w: Watch, clock: Time, now: Time)
    requires UniqueIds(ws) && Dated(ws, clock) && clock <= now && IdIsNew(ws, w.id) && w.Valid() && w.updatedAt <= now
    ensures UniqueIds(ws + [w]) && Dated(ws + [w], now)
  {
  }

  lemma AdditionGrows(store: Store, w: Watch, t: Transition)
    ensures Grows(store, Store(store.watches + [w], store.transitions + [t]))
  {
  }

  lemma JournalExtended(ws: seq<Watch>, ts: seq<Transition>, w: Watch, t: Transition)
    requires Journalled(ws, ts) && IdIsNew(ws, w.id)
    requires t.watchId == w.id && t.thesis == w.thesis && t.status == w.status
    ensures Journalled(ws + [w], ts + [t])
  {
    var vs, more := ws + [w], ts + [t];
    forall j | 0 <= j < |vs| ensures LastStatus(more, vs[j].id) == Some(vs[j].status) {
      JournalGrows(ts, t, vs[j].id);
    }
    forall k | 0 <= k < |more| ensures !IdIsNew(vs, more[k].watchId) {
      if k < |ts| {
        var j :| 0 <= j < |ws| && ws[j].id == ts[k].watchId;
        assert vs[j].id == ws[j].id;
      } else {
        assert vs[|ws|].id == more[k].watchId;
      }
    }
  }

  lemma ActiveExtended(ws: seq<Watch>, w: Watch)
    requires OneActive(ws) && Latest(ws, w.thesis.symbol, true).None?
    ensures OneActive(ws + [w])
  {
    var vs := ws + [w];
    assert forall j :: 0 <= j < |ws| ==> !Matches(ws[j], w.thesis.symbol, true);
    forall j, k | 0 <= j < |vs| && 0 <= k < |vs| && Contend(vs[j], vs[k]) ensures j == k {
      if j < |ws| && k < |ws| {
        assert Contend(ws[j], ws[k]);
      }
    }
  }

  /** Replacing only the snapshot of an active watch keeps the store sound. */
  lemma SnapshotSound(store: Store, i: nat, s: Snapshot, clock: Time)
    requires Sound(store, clock) && i < |store.watches| && store.watches[i].status.Active()
    ensures var v := store.watches[i].(snapshot := Some(s));
            && SnapshotUpdated(store, v) == Some(store.(watches := store.watches[i := v]))
            && Sound(store.(watches := store.watches[i := v]), clock)
            && Grows(store, store.(watches := store.watches[i := v]))
  {
    var ws, v := store.watches, store.watches[i].(snapshot := Some(s));
    FoundAt(ws, i);
    ActiveReplaced(ws, i, v);
    JournalOfSnapshot(ws, store.transitions, i, v);
    ReplacedInPlace(ws, i, v, clock, clock);
    ReplacementGrows(store, i, v, []);
    assert store.transitions + [] == store.transitions;
  }

  lemma JournalOfSnapshot(ws: seq<Watch>, ts: seq<Transition>, i: nat, v: Watch)
    requires Journalled(ws, ts) && i < |ws| && v.id == ws[i].id && v.thesis == ws[i].thesis && v.status == ws[i].status
    ensures Journalled(ws[i := v], ts)
  {
    forall k | 0 <= k < |ts| ensures !IdIsNew(ws[i := v], ts[k].watchId) {
      var j :| 0 <= j < |ws| && ws[j].id == ts[k].watchId;
      assert ws[i := v][j].id == ws[j].id;
    }
  }

  // ---------------------------------------------------------------- one result

  lemma SoundLater(store: Store, clock: Time, now: Time)
    requires Sound(store, clock) && clock <= now
    ensures Sound(store, now) && Grows(store, store)
  {
  }

  /** A decision always leaves the status, and leaves it for a state it can be in. */
  lemma DecisionMoves(cfg: Config, m: Memory, w: Watch, c: Context, r: Result, now: Time)
    requires w.status.Active()
    ensures var d := Decide(cfg, m, w, c, r, now);
            d.Some? ==> d.value.status != w.status && (d.value.status.Expired? || now < w.thesis.expiresAt)
  {
  }

  lemma ChangeSound(m: Memory, store: Store, i: nat, change: Change, c: Context, clock: Time, now: Time)
    requires Sound(store, clock) && clock <= now && i < |store.watches| && store.watches[i].status.Active()
    requires change.status != store.watches[i].status
    ensures var o := ChangeWatch(m, store, store.watches[i], change, c, now);
            && !o.failure.StoreRefused? && Sound(o.store, now) && Grows(store, o.store)
            && (o.failure.NoFailure? ==> Extended(store, o, store.watches[i].id))
            && (!o.failure.NoFailure? ==> o.store == store && o.emitted.None?)
  {
    var w := store.watches[i];
    if Publishable(w, Some(w.status), change.status, now, change.price, c) {
      var t := Transition(w.id, Some(w.status), change.status, now, change.price, w.thesis, change.reason, c);
      TransitionSound(store, i, Changed(w, change, now), t, clock, now);
    } else {
      SoundLater(store, clock, now);
    }
  }

  /** The emitted message is the journal's newest entry. */
  predicate Extended(store: Store, o: Outcome, id: nat) {
    o.emitted.Some? && o.emitted.value.watchId == id && o.store.transitions == store.transitions + [o.emitted.value]
  }

  lemma ArmSound(cfg: Config, m: Memory, store: Store, r: Result, clock: Time, now: Time, id: nat)
    requires cfg.Valid() && Sound(store, clock) && clock <= now && IdIsNew(store.watches, id)
    requires Latest(store.watches, r.symbol, true).None?
    ensures var o := Arm(cfg, m, store, r, now, id);
            !o.failure.StoreRefused? && Sound(o.store, now) && Grows(store, o.store)
  {
    if Armable(r) && r.facts.invalidation.value > 0.0 {
      var w := NewWatch(cfg, r, now, id);
      NewWatchIsValid(cfg, r, now, id);
      CreationSound(store, w,
                    Transition(id, None, w.status, now, w.current, w.thesis, ThesisArmed, map[LongTerm := r]), clock, now);
    } else {
      SoundLater(store, clock, now);
    }
  }

  lemma NewWatchIsValid(cfg: Config, r: Result, now: Time, id: nat)
    requires cfg.Valid() && Armable(r) && r.facts.invalidation.value > 0.0
    ensures var w := NewWatch(cfg, r, now, id);
            w.Valid() && w.id == id && w.updatedAt == now && w.thesis.symbol == r.symbol
  {
    CorrectionIsNotNegative(r.facts.reference.value, r.facts.zoneHigh.value);
  }

  lemma CorrectionIsNotNegative(price: real, high: real)
    requires price > 0.0
    ensures var x := (price - high) / price * 100.0; Quantize4(if x > 0.0 then x else 0.0) >= 0.0
  {
    var x := (price - high) / price * 100.0;
    RoundHalfUpMonotone(0.0, (if x > 0.0 then x else 0.0) * 10000.0);
  }

  lemma ProcessActiveSound(cfg: Config, m: Memory, store: Store, i: nat, c: Context, r: Result, clock: Time, now: Time)
    requires Sound(store, clock) && clock <= now && i < |store.watches| && store.watches[i].status.Active()
    ensures var o := ProcessActive(cfg, m, store, i, c, r, now);
            !o.failure.StoreRefused? && Sound(o.store, now) && Grows(store, o.store)
  {
    var w := store.watches[i];
    DecisionMoves(cfg, m, w, c, r, now);
    var d := Decide(cfg, m, w, c, r, now);
    if d.Some? {
      ChangeSound(m, store, i, d.value, c, clock, now);
    } else {
      SoundLater(store, clock, now);
    }
  }

  lemma ProcessSound(cfg: Config, m: Memory, store: Store, r: Result, clock: Time, now: Time, id: nat)
    requires cfg.Valid() && Sound(store, clock) && clock <= now && IdIsNew(store.watches, id)
    ensures var o := Process(cfg, m, store, r, now, id);
            !o.failure.StoreRefused? && Sound(o.store, now) && Grows(store, o.store)
  {
    var c := ContextOf(m, r.symbol);
    if r.asOf > now || (r.horizon in c && r.asOf < c[r.horizon].asOf) {
      SoundLater(store, clock, now);
    } else {
      LearnedSound(cfg, Learned(m, r), c[r.horizon := r], store, r, clock, now, id);
    }
  }

  lemma LearnedSound(cfg: Config, m: Memory, c: Context, store: Store, r: Result, clock: Time, now: Time, id: nat)
    requires cfg.Valid() && Sound(store, clock) && clock <= now && IdIsNew(store.watches, id)
    ensures var o := ProcessLearned(cfg, m, c, store, r, now, id);
            !o.failure.StoreRefused? && Sound(o.store, now) && Grows(store, o.store)
  {
    var active := Latest(store.watches, r.symbol, true);
    if active.Some? {
      ProcessActiveSound(cfg, m, store, active.value, c, r, clock, now);
    } else if r.horizon.LongTerm? && !Resting(cfg, store, r, now) {
      ArmSound(cfg, m, store, r, clock, now, id);
    } else {
      SoundLater(store, clock, now);
    }
  }

  lemma PersistSound(m: Memory, store: Store, symbol: string, clock: Time)
    requires Sound(store, clock)
    ensures Persist(m, store, symbol).Some?
    ensures Sound(Persist(m, store, symbol).value, clock) && Grows(store, Persist(m, store, symbol).value)
  {
    var active := Latest(store.watches, symbol, true);
    if active.Some? {
      SnapshotSound(store, active.value, SnapshotOf(m, store.watches[active.value].thesis.symbol), clock);
    } else {
      SoundLater(store, clock, clock);
    }
  }

  lemma GrowsOn(a: Store, b: Store, c: Store)
    requires Grows(a, b) && Grows(b, c)
    ensures Grows(a, c)
  {
    forall i | 0 <= i < |a.watches| ensures Succeeds(a.watches[i], c.watches[i]) {
      assert Succeeds(a.watches[i], b.watches[i]) && Succeeds(b.watches[i], c.watches[i]);
    }
  }

  lemma CheckpointingSound(cfg: Config, m: Memory, store: Store, r: Result, clock: Time, now: Time, id: nat)
    requires cfg.Valid() && Sound(store, clock) && clock <= now && IdIsNew(store.watches, id)
    ensures var o := IngestCheckpointing(cfg, m, store, r, now, id);
            !o.failure.StoreRefused? && Sound(o.store, now) && Grows(store, o.store)
  {
    if Pausing(cfg, store, r, now) {
      SoundLater(store, clock, now);
    } else {
      var observed := Observe(cfg, RestoreActive(m, store, r.symbol), r);
      ProcessSound(cfg, observed, store, r, clock, now, id);
      CheckpointedSound(store, Process(cfg, observed, store, r, now, id), r.symbol, now);
    }
  }

  lemma CheckpointedSound(store: Store, o: Outcome, symbol: string, now: Time)
    requires !o.failure.StoreRefused? && Sound(o.store, now) && Grows(store, o.store)
    ensures var p := Checkpointed(o, symbol);
            !p.failure.StoreRefused? && Sound(p.store, now) && Grows(store, p.store)
  {
    if !o.failure.NoFailure? || (o.emitted.Some? && !o.emitted.value.status.Armed? && !o.emitted.value.status.InZone?) {
      assert Checkpointed(o, symbol).store == o.store;
    } else {
      PersistSound(o.memory, o.store, symbol, now);
      GrowsOn(store, o.store, Persist(o.memory, o.store, symbol).value);
    }
  }

  lemma ReconfirmingSound(cfg: Config, m: Memory, store: Store, r: Result, clock: Time, now: Time, id: nat)
    requires cfg.Valid() && Sound(store, clock) && clock <= now && IdIsNew(store.watches, id)
    ensures var o := IngestReconfirming(cfg, m, store, r, now, id);
            !o.failure.StoreRefused? && Sound(o.store, now) && Grows(store, o.store)
  {
    SoundLater(store, clock, now);
    ProcessSound(cfg, Observe(cfg, m, r), store, r, clock, now, id);
  }

  lemma IngestSound(cfg: Config, m: Memory, store: Store, r: Result, clock: Time, now: Time, id: nat)
    requires cfg.Valid() && Sound(store, clock) && clock <= now && IdIsNew(store.watches, id)
    ensures var o := Ingest(cfg, m, store, r, now, id);
            !o.failure.StoreRefused? && Sound(o.store, now) && Grows(store, o.store)
  {
    match cfg.version
    case V1 => ProcessSound(cfg, m, store, r, clock, now, id);
    case V2 => ProcessSound(cfg, m, store, r, clock, now, id);
    case V51 => CheckpointingSound(cfg, m, store, r, clock, now, id);
    case V4 => ReconfirmingSound(cfg, m, store, r, clock, now, id);
    case V5 => ReconfirmingSound(cfg, m, store, r, clock, now, id);
  }

  /** One step of any version keeps the store sound, and the store never refuses it. */
  lemma StepSound(cfg: Config, s: State, e: Event, clock: Time)
    requires cfg.Valid() && Sound(s.store, clock)
    requires e.Arrive? ==> clock <= e.now && IdIsNew(s.store.watches, e.id)
    ensures !OutcomeOf(cfg, s, e).failure.StoreRefused?
    ensures Sound(Step(cfg, s, e).store, ClockAfter(e, clock)) && Grows(s.store, Step(cfg, s, e).store)
  {
    if e.Restart? {
      SoundLater(s.store, clock, clock);
    } else {
      IngestSound(cfg, s.memory, s.store, e.result, clock, e.now, e.id);
    }
  }

  /** Over every admissible run: one active watch per normalised symbol, one chain of statuses per
      watch, fixed levels, valid watches, closed watches frozen. */
  lemma {:induction false} RunSound(cfg: Config, s: State, es: seq<Event>, clock: Time)
    requires cfg.Valid() && Sound(s.store, clock) && Admissible(cfg, s, es, clock)
    ensures Sound(Run(cfg, s, es).store, ClockAtEnd(es, clock))
    ensures Grows(s.store, Run(cfg, s, es).store)
    decreases |es|
  {
    if es == [] {
      SoundLater(s.store, clock, clock);
    } else {
      var next := Step(cfg, s, es[0]);
      StepSound(cfg, s, es[0], clock);
      RunSound(cfg, next, es[1..], ClockAfter(es[0], clock));
      GrowsOn(s.store, next.store, Run(cfg, s, es).store);
    }
  }

  /** The store never sees a stale or a duplicate write. */
  lemma {:induction false} StoreNeverRefuses(cfg: Config, s: State, es: seq<Event>, clock: Time, k: nat)
    requires cfg.Valid() && Sound(s.store, clock) && Admissible(cfg, s, es, clock) && k < |es|
    ensures !OutcomeOf(cfg, Run(cfg, s, es[..k]), es[k]).failure.StoreRefused?
    decreases |es|
  {
    StepSound(cfg, s, es[0], clock);
    if k > 0 {
      StoreNeverRefuses(cfg, Step(cfg, s, es[0]), es[1..], ClockAfter(es[0], clock), k - 1);
      assert es[..k][0] == es[0] && es[..k][1..] == es[1..][..k - 1];
    }
  }

  lemma StartIsSound(clock: Time)
    ensures Sound(START.store, clock)
  {
  }

  /** A closed watch takes no further transition. */
  lemma {:induction false} ClosedIsLast(ts: seq<Transition>, j: nat, k: nat)
    requires Chained(ts) && j < k < |ts| && ts[j].watchId == ts[k].watchId
    ensures ts[j].status.Active()
    decreases k
  {
    assert Links(ts[..k], ts[k]);
    var l := LastOf(ts[..k], ts[k].watchId);
    assert ts[..k][j].watchId == ts[k].watchId;
    if l.value != j {
      ClosedIsLast(ts, j, l.value);
    }
  }
}
