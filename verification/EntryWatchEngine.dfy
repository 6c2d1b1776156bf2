/** The Entry Watcher and its store as objects: dictionaries and lists updated in place, result by result. */
module EntryWatchEngine {
  import opened Market
  import opened Position
  import opened Analyses
  import opened EntryWatcher
  import opened EntryWatchRuns

  /** The in-memory store of `app/entry_watcher/memory.py`; `refused` is its exception. */
  class WatchStore {
    var watches: seq<Watch>
    var transitions: seq<Transition>

    ghost function View(): Store
      reads this
    {
      Store(watches, transitions)
    }

    constructor ()
      ensures View() == START.store
    {
      watches, transitions := [], [];
    }

    /** The position of the newest matching watch. */
    method Load(symbol: string, activeOnly: bool) returns (best: Option<nat>)
      ensures best == Latest(watches, symbol, activeOnly)
    {
      best := None;
      for i := 0 to |watches|
        invariant best == Latest(watches[..i], symbol, activeOnly)
      {
        assert watches[..i + 1][..i] == watches[..i];
        if Matches(watches[i], symbol, activeOnly) {
          if best.None? || Key(watches[best.value], activeOnly) < Key(watches[i], activeOnly) {
            best := Some(i);
          }
        }
      }
      assert watches[..|watches|] == watches;
    }

    /** The position of a watch by its id. */
    method Lookup(id: nat) returns (found: Option<nat>)
      ensures found == Find(watches, id)
    {
      found := None;
      for i := 0 to |watches|
        invariant found == Find(watches[..i], id)
      {
        assert watches[..i + 1][..i] == watches[..i];
        if watches[i].id == id {
          found := Some(i);
        }
      }
      assert watches[..|watches|] == watches;
    }

    method Create(w: Watch, t: Transition) returns (refused: bool)
      modifies this
      ensures var next := Created(old(View()), w, t);
              refused == next.None? && View() == if next.Some? then next.value else old(View())
    {
      var active := Load(w.thesis.symbol, true);
      if active.Some? {
        return true;
      }
      watches, transitions := watches + [w], transitions + [t];
      refused := false;
    }

    method Transit(w: Watch, t: Transition) returns (refused: bool)
      modifies this
      ensures var next := Transitioned(old(View()), w, t);
              refused == next.None? && View() == if next.Some? then next.value else old(View())
    {
      var existing := Lookup(w.id);
      if existing.None? || t.previous != Some(watches[existing.value].status) {
        return true;
      }
      watches, transitions := watches[existing.value := w], transitions + [t];
      refused := false;
    }

    method UpdateSnapshot(w: Watch) returns (refused: bool)
      modifies this
      ensures var next := SnapshotUpdated(old(View()), w);
              refused == next.None? && View() == if next.Some? then next.value else old(View())
    {
      var existing := Lookup(w.id);
      if existing.None? || watches[existing.value].status != w.status {
        return true;
      }
      watches := watches[existing.value := w];
      refused := false;
    }
  }

  lemma ListStep(c: Context, hs: seq<Horizon>, k: nat)
    requires k < |hs|
    ensures ListResults(c, hs[k..])
            == if hs[k] in c then [c[hs[k]]] + ListResults(c, hs[k + 1..]) else ListResults(c, hs[k + 1..])
  {
    assert hs[k..][0] == hs[k] && hs[k..][1..] == hs[k + 1..];
  }

  /** What a call answers: perhaps a message, or how it failed. */
  datatype Answer = Answer(emitted: Option<Transition>, failure: Failure)

  class Watcher {
    const cfg: Config
    const store: WatchStore
    var latest: map<string, Context>
    var candidates: map<string, Candidate>
    var reconfirmed: set<nat>

    ghost function View(): Memory
      reads this
    {
      Memory(latest, candidates, reconfirmed)
    }

    /** A new process: an empty memory over the store that is there. */
    constructor (cfg: Config, store: WatchStore)
      ensures this.cfg == cfg && this.store == store && View() == NO_MEMORY
    {
      this.cfg, this.store := cfg, store;
      latest, candidates, reconfirmed := map[], map[], {};
    }

    /** The result of a call, in the terms of the specification. */
    ghost predicate Yields(a: Answer, o: Outcome)
      reads this, store
    {
      View() == o.memory && store.View() == o.store && a == Answer(o.emitted, o.failure)
    }

    method Arm(r: Result, now: Time, id: nat) returns (a: Answer)
      modifies store
      ensures Yields(a, EntryWatcher.Arm(cfg, View(), old(store.View()), r, now, id))
    {
      if !Armable(r) {
        return Answer(None, NoFailure);
      }
      if r.facts.invalidation.value <= 0.0 {
        return Answer(None, Rejected);
      }
      var w := NewWatch(cfg, r, now, id);
      var t := Transition(id, None, w.status, now, w.current, w.thesis, ThesisArmed, map[LongTerm := r]);
      var refused := store.Create(w, t);
      a := if refused then Answer(None, StoreRefused) else Answer(Some(t), NoFailure);
    }

    method Change(w: Watch, change: EntryWatcher.Change, c: Context, now: Time) returns (a: Answer)
      modifies store
      ensures Yields(a, ChangeWatch(View(), old(store.View()), w, change, c, now))
    {
      if !Publishable(w, Some(w.status), change.status, now, change.price, c) {
        return Answer(None, Rejected);
      }
      var t := Transition(w.id, Some(w.status), change.status, now, change.price, w.thesis, change.reason, c);
      var refused := store.Transit(Changed(w, change, now), t);
      a := if refused then Answer(None, StoreRefused) else Answer(Some(t), NoFailure);
    }

    /** The step all versions share. */
    method Process(r: Result, now: Time, id: nat) returns (a: Answer)
      modifies this, store
      ensures Yields(a, EntryWatcher.Process(cfg, old(View()), old(store.View()), r, now, id))
    {
      if r.asOf > now {
        return Answer(None, FutureResult);
      }
      var c := if r.symbol in latest then latest[r.symbol] else map[];
      if r.horizon in c && r.asOf < c[r.horizon].asOf {
        return Answer(None, NoFailure);
      }
      c := c[r.horizon := r];
      latest := latest[r.symbol := c];
      assert View() == Learned(old(View()), r);
      var active := store.Load(r.symbol, true);
      if active.Some? {
        var w := store.watches[active.value];
        var change := Decide(cfg, Memory(latest, candidates, reconfirmed), w, c, r, now);
        if change.None? {
          return Answer(None, NoFailure);
        }
        a := Change(w, change.value, c, now);
        return;
      }
      if r.horizon != LongTerm {
        return Answer(None, NoFailure);
      }
      var last := store.Load(r.symbol, false);
      if last.Some? {
        var previous := store.watches[last.value];
        if !previous.status.Active() && now - previous.updatedAt < cfg.rearmCooldown && SameThesis(previous, r) {
          return Answer(None, NoFailure);
        }
      }
      a := Arm(r, now, id);
    }

    /** Whether the pause after a trigger keeps this Long result out. */
    method IsPausing(r: Result, now: Time) returns (pausing: bool)
      ensures pausing == Pausing(cfg, store.View(), r, now)
    {
      if r.horizon != LongTerm {
        return false;
      }
      var active := store.Load(r.symbol, true);
      if active.Some? {
        return false;
      }
      var last := store.Load(r.symbol, false);
      pausing := last.Some? && store.watches[last.value].status.Triggered?
                 && now - store.watches[last.value].updatedAt < cfg.triggerCooldown;
    }

    method ObserveMatureCandidate(r: Result)
      modifies this
      ensures View() == Observe(cfg, old(View()), r)
    {
      if r.horizon != Intraday || !Mature(cfg, r) {
        return;
      }
      if r.symbol !in candidates {
        candidates := candidates[r.symbol := Candidate(r.id, r.asOf)];
        return;
      }
      var candidate := candidates[r.symbol];
      if r.id == candidate.id {
        return;
      }
      if r.asOf - candidate.at >= cfg.delay {
        reconfirmed := reconfirmed + {r.id};
      }
    }

    /** Merge the checkpoint of a watch, result by result. */
    method RestoreDecisionState(s: Snapshot)
      modifies this
      ensures View() == Restore(old(View()), s)
    {
      assert s.results[0..] == s.results;
      for k := 0 to |s.results|
        invariant candidates == old(candidates) && reconfirmed == old(reconfirmed)
        invariant Recall(latest, s.results[k..]) == Recall(old(latest), s.results)
      {
        var r := s.results[k];
        assert s.results[k..][0] == r && s.results[k..][1..] == s.results[k + 1..];
        var c := if r.symbol in latest then latest[r.symbol] else map[];
        if r.horizon !in c || r.asOf >= c[r.horizon].asOf {
          c := c[r.horizon := r];
        }
        latest := latest[r.symbol := c];
      }
      if s.candidate.Some? {
        candidates := candidates[Upper(s.candidate.value.symbol) := s.candidate.value.candidate];
      }
      reconfirmed := reconfirmed + s.reconfirmed;
    }

    /** The stored results in the order of the horizons given. */
    method ResultsInOrder(c: Context, hs: seq<Horizon>) returns (results: seq<Result>)
      ensures results == ListResults(c, hs)
    {
      results := [];
      assert hs[0..] == hs;
      for k := 0 to |hs|
        invariant results + ListResults(c, hs[k..]) == ListResults(c, hs)
      {
        ghost var rest := ListResults(c, hs[k + 1..]);
        ListStep(c, hs, k);
        if hs[k] in c {
          assert results + ([c[hs[k]]] + rest) == (results + [c[hs[k]]]) + rest;
          results := results + [c[hs[k]]];
        }
      }
    }

    /** Write the decision state into the active watch of the symbol. */
    method PersistDecisionState(symbol: string) returns (refused: bool)
      modifies store
      ensures var next := Persist(View(), old(store.View()), symbol);
              refused == next.None? && store.View() == if next.Some? then next.value else old(store.View())
    {
      var active := store.Load(symbol, true);
      if active.None? {
        return false;
      }
      var w := store.watches[active.value];
      var own := w.thesis.symbol;
      var results := ResultsInOrder(if own in latest then latest[own] else map[], HORIZONS);
      var candidate := if own in candidates then Some(NamedCandidate(own, candidates[own])) else None;
      refused := store.UpdateSnapshot(w.(snapshot := Some(Snapshot(results, candidate, reconfirmed))));
    }

    method Forget(symbol: string, t: Transition)
      modifies this
      ensures View() == Consume(old(View()), symbol, t)
    {
      candidates := candidates - {symbol};
      reconfirmed := reconfirmed - Sources(t.evidence);
    }

    /** Versions 4 and 5. */
    method IngestReconfirming(r: Result, now: Time, id: nat) returns (a: Answer)
      modifies this, store
      ensures Yields(a, EntryWatcher.IngestReconfirming(cfg, old(View()), old(store.View()), r, now, id))
    {
      var pausing := IsPausing(r, now);
      if pausing {
        return Answer(None, NoFailure);
      }
      if r.horizon == Intraday {
        ObserveMatureCandidate(r);
      }
      a := Process(r, now, id);
      if a.emitted.Some? && a.emitted.value.status.Triggered? {
        Forget(r.symbol, a.emitted.value);
      }
    }

    /** Version 5.1. */
    method IngestCheckpointing(r: Result, now: Time, id: nat) returns (a: Answer)
      modifies this, store
      ensures Yields(a, EntryWatcher.IngestCheckpointing(cfg, old(View()), old(store.View()), r, now, id))
    {
      var active := store.Load(r.symbol, true);
      if active.Some? && store.watches[active.value].snapshot.Some? {
        RestoreDecisionState(store.watches[active.value].snapshot.value);
      }
      assert View() == RestoreActive(old(View()), store.View(), r.symbol);
      var pausing := IsPausing(r, now);
      if pausing {
        return Answer(None, NoFailure);
      }
      if r.horizon == Intraday {
        ObserveMatureCandidate(r);
      }
      a := Process(r, now, id);
      if a.failure != NoFailure {
        return;
      }
      if a.emitted.Some? && !a.emitted.value.status.Armed? && !a.emitted.value.status.InZone? {
        Forget(r.symbol, a.emitted.value);
        return;
      }
      var refused := PersistDecisionState(r.symbol);
      if refused {
        a := a.(failure := StoreRefused);
      }
    }

    /** One result, by version: exactly one step of the state machine whose runs are proved sound. */
    method Ingest(r: Result, now: Time, id: nat) returns (a: Answer)
      modifies this, store
      ensures Yields(a, OutcomeOf(cfg, State(old(View()), old(store.View())), Arrive(r, now, id)))
    {
      match cfg.version
      case V1 => a := Process(r, now, id);
      case V2 => a := Process(r, now, id);
      case V4 => a := IngestReconfirming(r, now, id);
      case V5 => a := IngestReconfirming(r, now, id);
      case V51 => a := IngestCheckpointing(r, now, id);
    }
  }
}
