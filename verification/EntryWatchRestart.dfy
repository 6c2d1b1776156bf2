/** Version 5.1 restarted: the checkpoint in the active watch makes the interruption invisible. */
module EntryWatchRestart {
  import opened Market
  import opened Position
  import opened EntryWatcher
  import opened EntryWatchRuns

  /** The memory of a watcher that has only been shown one symbol. */
  ghost predicate OneSymbol(m: Memory, symbol: string) {
    && m.latest.Keys <= {symbol}
    && m.candidates.Keys <= {symbol}
    && forall h :: h in ContextOf(m, symbol) ==>
         ContextOf(m, symbol)[h].symbol == symbol && ContextOf(m, symbol)[h].horizon == h
  }

  /** The checkpoint of the active watch says what the memory says. */
  ghost predicate Mirrored(s: State, symbol: string) {
    && OneSymbol(s.memory, symbol)
    && var active := Latest(s.store.watches, symbol, true);
       active.Some? ==>
         && ContextOf(s.memory, symbol) != map[]
         && s.store.watches[active.value].snapshot == Some(SnapshotOf(s.memory, symbol))
  }

  // ---------------------------------------------------------------- a checkpoint restores the memory

  function Part(c: Context, hs: seq<Horizon>): Context {
    map h | h in c && h in hs :: c[h]
  }

  function Remembered(symbol: string, c: Context): map<string, Context> {
    if c == map[] then map[] else map[symbol := c]
  }

  lemma {:induction false} RecallPart(symbol: string, c: Context, done: seq<Horizon>, rest: seq<Horizon>)
    requires forall h :: h in c ==> c[h].symbol == symbol && c[h].horizon == h
    ensures Recall(Remembered(symbol, Part(c, done)), ListResults(c, rest)) == Remembered(symbol, Part(c, done + rest))
    decreases |rest|
  {
    if rest == [] {
      assert done + rest == done;
    } else {
      var h := rest[0];
      assert (done + [h]) + rest[1..] == done + rest;
      RecallPart(symbol, c, done + [h], rest[1..]);
      if h in c {
        RecallOne(symbol, c, done, h);
        assert ListResults(c, rest)[0] == c[h] && ListResults(c, rest)[1..] == ListResults(c, rest[1..]);
      } else {
        assert Part(c, done + [h]) == Part(c, done);
        assert ListResults(c, rest) == ListResults(c, rest[1..]);
      }
    }
  }

  lemma RecallOne(symbol: string, c: Context, done: seq<Horizon>, h: Horizon)
    requires h in c && c[h].symbol == symbol && c[h].horizon == h
    ensures forall more: seq<Result> ::
              Recall(Remembered(symbol, Part(c, done)), [c[h]] + more) == Recall(Remembered(symbol, Part(c, done + [h])), more)
  {
    var part, next := Part(c, done), Part(c, done + [h]);
    var latest := Remembered(symbol, part);
    assert next == part[h := c[h]];
    assert (if symbol in latest then latest[symbol] else map[]) == part;
    assert h in next;
    assert latest[symbol := next] == Remembered(symbol, next);
    forall more: seq<Result> ensures Recall(latest, [c[h]] + more) == Recall(Remembered(symbol, next), more) {
      assert ([c[h]] + more)[0] == c[h] && ([c[h]] + more)[1..] == more;
    }
  }

  lemma {:induction false} RecallKnown(symbol: string, c: Context, hs: seq<Horizon>)
    requires forall h :: h in c ==> c[h].symbol == symbol && c[h].horizon == h
    ensures Recall(map[symbol := c], ListResults(c, hs)) == map[symbol := c]
    decreases |hs|
  {
    if hs != [] {
      RecallKnown(symbol, c, hs[1..]);
      if hs[0] in c {
        assert ListResults(c, hs)[0] == c[hs[0]] && ListResults(c, hs)[1..] == ListResults(c, hs[1..]);
        assert c[hs[0] := c[hs[0]]] == c;
        assert map[symbol := c][symbol := c] == map[symbol := c];
      } else {
        assert ListResults(c, hs) == ListResults(c, hs[1..]);
      }
    }
  }

  lemma ResultsRoundTrip(symbol: string, c: Context)
    requires c != map[] && forall h :: h in c ==> c[h].symbol == symbol && c[h].horizon == h
    ensures Recall(map[], ListResults(c, HORIZONS)) == map[symbol := c]
    ensures Recall(map[symbol := c], ListResults(c, HORIZONS)) == map[symbol := c]
  {
    RecallPart(symbol, c, [], HORIZONS);
    assert Part(c, []) == map[];
    assert [] + HORIZONS == HORIZONS;
    forall h | h in c ensures h in HORIZONS {
      EveryHorizon(h);
    }
    assert Part(c, HORIZONS) == c;
    RecallKnown(symbol, c, HORIZONS);
  }

  /** Writing a checkpoint and reading it into an empty memory gives the memory back; reading it into
      the memory it was taken from changes nothing. */
  lemma CheckpointRoundTrip(m: Memory, symbol: string)
    requires OneSymbol(m, symbol) && Upper(symbol) == symbol && ContextOf(m, symbol) != map[]
    ensures Restore(NO_MEMORY, SnapshotOf(m, symbol)) == m
    ensures Restore(m, SnapshotOf(m, symbol)) == m
  {
    var c := ContextOf(m, symbol);
    assert m.latest == map[symbol := c];
    ResultsRoundTrip(symbol, c);
    if symbol in m.candidates {
      assert m.candidates == map[symbol := m.candidates[symbol]];
    } else {
      assert m.candidates == map[];
    }
  }

  // ---------------------------------------------------------------- the next decision

  /** A watcher that never stopped and one that may just have restarted over the same store. */
  ghost predicate Alike(s: State, t: State, symbol: string) {
    && t.store == s.store
    && (t == s || (t.memory == NO_MEMORY && Latest(s.store.watches, symbol, true).Some?))
  }

  /** A restarted watcher takes the same next decision and reaches the same state. */
  lemma SameNextDecision(cfg: Config, s: State, t: State, symbol: string, e: Event)
    requires cfg.version.V51? && Upper(symbol) == symbol && Mirrored(s, symbol) && Alike(s, t, symbol)
    requires e.Arrive? && e.result.symbol == symbol
    ensures OutcomeOf(cfg, t, e) == OutcomeOf(cfg, s, e)
  {
    if t != s {
      CheckpointRoundTrip(s.memory, symbol);
    }
  }

  // ---------------------------------------------------------------- checkpoints stay in step

  lemma {:induction false} SnapshotIsNoKey(ws: seq<Watch>, i: nat, snapshot: Option<Snapshot>, symbol: string, activeOnly: bool)
    requires i < |ws|
    ensures Latest(ws[i := ws[i].(snapshot := snapshot)], symbol, activeOnly) == Latest(ws, symbol, activeOnly)
    decreases |ws|
  {
    var last := |ws| - 1;
    var vs := ws[i := ws[i].(snapshot := snapshot)];
    if i < last {
      SnapshotIsNoKey(ws[..last], i, snapshot, symbol, activeOnly);
      assert vs[..last] == ws[..last][i := ws[..last][i].(snapshot := snapshot)];
    } else {
      assert vs[..last] == ws[..last];
    }
  }

  lemma LearnedRemembers(m: Memory, r: Result)
    requires OneSymbol(m, r.symbol)
    ensures OneSymbol(Learned(m, r), r.symbol) && ContextOf(Learned(m, r), r.symbol) != map[]
  {
    assert r.horizon in ContextOf(Learned(m, r), r.symbol);
  }

  /** A result is forgotten only when it is refused or older than the one already known. */
  lemma ProcessMemory(cfg: Config, m: Memory, store: Store, r: Result, now: Time, id: nat)
    ensures var c := ContextOf(m, r.symbol);
            Process(cfg, m, store, r, now, id).memory
            == if r.asOf > now || (r.horizon in c && r.asOf < c[r.horizon].asOf) then m else Learned(m, r)
  {
  }

  /** What a result leaves in the memory of its symbol. */
  lemma ProcessRemembers(cfg: Config, m: Memory, store: Store, r: Result, now: Time, id: nat)
    requires OneSymbol(m, r.symbol) && r.asOf <= now
    ensures var o := Process(cfg, m, store, r, now, id);
            OneSymbol(o.memory, r.symbol) && ContextOf(o.memory, r.symbol) != map[]
  {
    ProcessMemory(cfg, m, store, r, now, id);
    LearnedRemembers(m, r);
  }

  lemma ClosingLeavesNone(store: Store, i: nat, v: Watch, symbol: string)
    requires UniqueIds(store.watches) && OneActive(store.watches) && Upper(symbol) == symbol
    requires Latest(store.watches, symbol, true) == Some(i) && !v.status.Active()
    ensures Latest(store.watches[i := v], symbol, true).None?
  {
    var vs := store.watches[i := v];
    var other := Latest(vs, symbol, true);
    if other.Some? && other.value != i {
      assert Contend(store.watches[other.value], store.watches[i]);
    }
  }

  predicate Closes(o: Outcome) {
    o.emitted.Some? && !o.emitted.value.status.Armed? && !o.emitted.value.status.InZone?
  }

  lemma ClosedByChange(m: Memory, store: Store, i: nat, change: Change, c: Context, now: Time, symbol: string)
    requires UniqueIds(store.watches) && OneActive(store.watches) && Upper(symbol) == symbol
    requires Latest(store.watches, symbol, true) == Some(i)
    requires !change.status.EarlyEntry? && !change.status.ImpulseExtended?
    requires Closes(ChangeWatch(m, store, store.watches[i], change, c, now))
    ensures Latest(ChangeWatch(m, store, store.watches[i], change, c, now).store.watches, symbol, true).None?
  {
    FoundAt(store.watches, i);
    ClosingLeavesNone(store, i, Changed(store.watches[i], change, now), symbol);
  }

  lemma DecisionIsPlain(cfg: Config, m: Memory, w: Watch, c: Context, r: Result, now: Time)
    ensures var d := Decide(cfg, m, w, c, r, now);
            d.Some? ==> !d.value.status.EarlyEntry? && !d.value.status.ImpulseExtended?
  {
  }

  /** A closing change leaves the symbol without an active watch. */
  lemma ClosedByProcess(cfg: Config, m: Memory, store: Store, r: Result, now: Time, id: nat)
    requires UniqueIds(store.watches) && OneActive(store.watches) && Upper(r.symbol) == r.symbol
    requires Closes(Process(cfg, m, store, r, now, id))
    ensures Latest(Process(cfg, m, store, r, now, id).store.watches, r.symbol, true).None?
  {
    var c, learned := ContextOf(m, r.symbol)[r.horizon := r], Learned(m, r);
    var active := Latest(store.watches, r.symbol, true);
    if active.Some? {
      var w := store.watches[active.value];
      DecisionIsPlain(cfg, learned, w, c, r, now);
      ClosedByChange(learned, store, active.value, Decide(cfg, learned, w, c, r, now).value, c, now, r.symbol);
    }
  }

  lemma PersistMirrors(m: Memory, store: Store, symbol: string)
    requires UniqueIds(store.watches) && OneSymbol(m, symbol) && Upper(symbol) == symbol && ContextOf(m, symbol) != map[]
    requires Persist(m, store, symbol).Some?
    ensures Mirrored(State(m, Persist(m, store, symbol).value), symbol)
  {
    var active := Latest(store.watches, symbol, true);
    if active.Some? {
      FoundAt(store.watches, active.value);
      SnapshotIsNoKey(store.watches, active.value, Some(SnapshotOf(m, symbol)), symbol, true);
    }
  }

  lemma CheckpointedMirrors(o: Outcome, symbol: string)
    requires UniqueIds(o.store.watches) && OneSymbol(o.memory, symbol) && Upper(symbol) == symbol
    requires ContextOf(o.memory, symbol) != map[] && Checkpointed(o, symbol).failure.NoFailure?
    requires Closes(o) ==> Latest(o.store.watches, symbol, true).None?
    ensures Mirrored(State(Checkpointed(o, symbol).memory, Checkpointed(o, symbol).store), symbol)
  {
    if Closes(o) {
      assert ContextOf(Consume(o.memory, symbol, o.emitted.value), symbol) == ContextOf(o.memory, symbol);
    } else {
      PersistMirrors(o.memory, o.store, symbol);
    }
  }

  lemma RestoreOfMirrored(s: State, symbol: string)
    requires Upper(symbol) == symbol && Mirrored(s, symbol)
    ensures RestoreActive(s.memory, s.store, symbol) == s.memory
  {
    if Latest(s.store.watches, symbol, true).Some? {
      CheckpointRoundTrip(s.memory, symbol);
    }
  }

  lemma ObserveKeepsOneSymbol(cfg: Config, m: Memory, r: Result)
    requires OneSymbol(m, r.symbol)
    ensures OneSymbol(Observe(cfg, m, r), r.symbol)
  {
    assert ContextOf(Observe(cfg, m, r), r.symbol) == ContextOf(m, r.symbol);
  }

  lemma ProcessedMirrors(cfg: Config, m: Memory, store: Store, r: Result, clock: Time, now: Time, id: nat)
    requires cfg.Valid() && Sound(store, clock) && clock <= now && IdIsNew(store.watches, id)
    requires OneSymbol(m, r.symbol) && Upper(r.symbol) == r.symbol
    requires Checkpointed(Process(cfg, m, store, r, now, id), r.symbol).failure.NoFailure?
    ensures var c := Checkpointed(Process(cfg, m, store, r, now, id), r.symbol);
            Mirrored(State(c.memory, c.store), r.symbol)
  {
    var o := Process(cfg, m, store, r, now, id);
    ProcessedIsSound(cfg, m, store, r, clock, now, id);
    ProcessRemembers(cfg, m, store, r, now, id);
    if Closes(o) {
      ClosedByProcess(cfg, m, store, r, now, id);
    }
    CheckpointedMirrors(o, r.symbol);
  }

  lemma ProcessedIsSound(cfg: Config, m: Memory, store: Store, r: Result, clock: Time, now: Time, id: nat)
    requires cfg.Valid() && Sound(store, clock) && clock <= now && IdIsNew(store.watches, id)
    ensures UniqueIds(Process(cfg, m, store, r, now, id).store.watches)
  {
    ProcessSound(cfg, m, store, r, clock, now, id);
  }

  /** Every result that is processed without an exception leaves checkpoint and memory in step. */
  lemma MirrorKept(cfg: Config, s: State, symbol: string, e: Event, clock: Time)
    requires cfg.Valid() && cfg.version.V51? && Upper(symbol) == symbol && Mirrored(s, symbol) && Sound(s.store, clock)
    requires e.Arrive? && e.result.symbol == symbol && clock <= e.now && IdIsNew(s.store.watches, e.id)
    requires OutcomeOf(cfg, s, e).failure.NoFailure?
    ensures Mirrored(Step(cfg, s, e), symbol)
  {
    RestoreOfMirrored(s, symbol);
    if !Pausing(cfg, s.store, e.result, e.now) {
      ObserveKeepsOneSymbol(cfg, s.memory, e.result);
      ProcessedMirrors(cfg, Observe(cfg, s.memory, e.result), s.store, e.result, clock, e.now, e.id);
    }
  }

  // ---------------------------------------------------------------- whole runs

  function WithoutRestarts(es: seq<Event>): seq<Event>
    decreases |es|
  {
    if es == [] then []
    else (if es[0].Restart? then [] else [es[0]]) + WithoutRestarts(es[1..])
  }

  /** A run on one symbol without exceptions, interrupted only while the symbol has an active watch. */
  ghost predicate Watched(cfg: Config, t: State, symbol: string, es: seq<Event>)
    decreases |es|
  {
    if es == [] then true
    else
      && (if es[0].Restart? then Latest(t.store.watches, symbol, true).Some?
          else es[0].result.symbol == symbol && OutcomeOf(cfg, t, es[0]).failure.NoFailure?)
      && Watched(cfg, Step(cfg, t, es[0]), symbol, es[1..])
  }

  /** Any number of restarts leaves the watches, the journal and every message as they would have been. */
  lemma {:induction false} RestartsAreInvisible(cfg: Config, s: State, t: State, symbol: string, es: seq<Event>, clock: Time)
    requires cfg.Valid() && cfg.version.V51? && Upper(symbol) == symbol && Mirrored(s, symbol) && Alike(s, t, symbol)
    requires Sound(s.store, clock) && Admissible(cfg, t, es, clock) && Watched(cfg, t, symbol, es)
    ensures Run(cfg, t, es).store == Run(cfg, s, WithoutRestarts(es)).store
    decreases |es|
  {
    if es != [] {
      var e, rest := es[0], es[1..];
      if e.Restart? {
        RestartsAreInvisible(cfg, s, Step(cfg, t, e), symbol, rest, clock);
        assert WithoutRestarts(es) == WithoutRestarts(rest);
      } else {
        SameNextDecision(cfg, s, t, symbol, e);
        MirrorKept(cfg, s, symbol, e, clock);
        StepSound(cfg, s, e, clock);
        RestartsAreInvisible(cfg, Step(cfg, s, e), Step(cfg, t, e), symbol, rest, e.now);
        assert WithoutRestarts(es)[0] == e && WithoutRestarts(es)[1..] == WithoutRestarts(rest);
      }
    }
  }

  lemma StartIsMirrored(symbol: string)
    ensures Mirrored(START, symbol)
  {
  }

  /** From an empty store and an empty memory, in particular. */
  lemma RestartsFromStartAreInvisible(cfg: Config, symbol: string, es: seq<Event>, clock: Time)
    requires cfg.Valid() && cfg.version.V51? && Upper(symbol) == symbol
    requires Admissible(cfg, START, es, clock) && Watched(cfg, START, symbol, es)
    ensures Run(cfg, START, es).store == Run(cfg, START, WithoutRestarts(es)).store
  {
    StartIsMirrored(symbol);
    StartIsSound(clock);
    RestartsAreInvisible(cfg, START, START, symbol, es, clock);
  }

  // ---------------------------------------------------------------- where it fails

  /** Observing `r` teaches the memory nothing: it is no mature Intraday result, or it is the
      candidate itself, or too early after it, or has reconfirmed it before. */
  predicate NothingToObserve(cfg: Config, m: Memory, r: Result) {
    || !r.horizon.Intraday?
    || !Mature(cfg, r)
    || (&& r.symbol in m.candidates
        && (|| r.id == m.candidates[r.symbol].id
            || r.asOf - m.candidates[r.symbol].at < cfg.delay
            || r.id in m.reconfirmed))
  }

  /** `r` is already the newest result of its symbol and horizon. */
  predicate Known(m: Memory, r: Result) {
    r.horizon in ContextOf(m, r.symbol) && ContextOf(m, r.symbol)[r.horizon] == r
  }

  lemma ObserveChangesNothing(cfg: Config, m: Memory, r: Result)
    ensures Observe(cfg, m, r) == m <==> NothingToObserve(cfg, m, r)
  {
    if NothingToObserve(cfg, m, r) {
      assert r.id in m.reconfirmed ==> m.reconfirmed + {r.id} == m.reconfirmed;
    } else if r.symbol !in m.candidates {
      assert r.symbol in Observe(cfg, m, r).candidates;
    } else {
      assert r.id in Observe(cfg, m, r).reconfirmed;
    }
  }

  lemma LearnedChangesNothing(m: Memory, r: Result)
    requires r.symbol in m.latest
    ensures Learned(m, r) == m <==> Known(m, r)
  {
    if Known(m, r) {
      assert m.latest[r.symbol][r.horizon := r] == m.latest[r.symbol];
      assert m.latest[r.symbol := m.latest[r.symbol]] == m.latest;
    } else {
      assert Known(Learned(m, r), r);
    }
  }

  lemma RaisingProcessKeepsStore(cfg: Config, m: Memory, store: Store, r: Result, now: Time, id: nat)
    requires !Process(cfg, m, store, r, now, id).failure.NoFailure?
    ensures Process(cfg, m, store, r, now, id).store == store
  {
  }

  lemma NeverRefused(cfg: Config, s: State, e: Event, clock: Time)
    requires cfg.Valid() && Sound(s.store, clock) && e.Arrive? && clock <= e.now && IdIsNew(s.store.watches, e.id)
    ensures !OutcomeOf(cfg, s, e).failure.StoreRefused?
  {
    StepSound(cfg, s, e, clock);
  }

  lemma CheckpointedRaises(o: Outcome, symbol: string)
    requires !Checkpointed(o, symbol).failure.NoFailure? && !Checkpointed(o, symbol).failure.StoreRefused?
    ensures Checkpointed(o, symbol) == o
  {
  }

  lemma StepOfMirrored(cfg: Config, s: State, r: Result, now: Time, id: nat)
    requires cfg.version.V51? && Upper(r.symbol) == r.symbol && Mirrored(s, r.symbol)
    ensures OutcomeOf(cfg, s, Arrive(r, now, id))
            == if Pausing(cfg, s.store, r, now) then Outcome(s.memory, s.store, None, NoFailure)
               else Checkpointed(Process(cfg, Observe(cfg, s.memory, r), s.store, r, now, id), r.symbol)
  {
    RestoreOfMirrored(s, r.symbol);
  }

  /** What raises in a step of version 5.1 over a sound store is the processing of its result. */
  lemma RaisedByProcess(cfg: Config, s: State, r: Result, now: Time, id: nat, clock: Time)
    requires cfg.Valid() && cfg.version.V51? && Upper(r.symbol) == r.symbol && Mirrored(s, r.symbol)
    requires Sound(s.store, clock) && clock <= now && IdIsNew(s.store.watches, id)
    requires !OutcomeOf(cfg, s, Arrive(r, now, id)).failure.NoFailure?
    ensures OutcomeOf(cfg, s, Arrive(r, now, id)) == Process(cfg, Observe(cfg, s.memory, r), s.store, r, now, id)
  {
    NeverRefused(cfg, s, Arrive(r, now, id), clock);
    StepOfMirrored(cfg, s, r, now, id);
    var o := Process(cfg, Observe(cfg, s.memory, r), s.store, r, now, id);
    CheckpointedRaises(o, r.symbol);
  }

  lemma RaisingProcessLearns(cfg: Config, m: Memory, store: Store, r: Result, now: Time, id: nat)
    requires !Process(cfg, m, store, r, now, id).failure.NoFailure?
    ensures Process(cfg, m, store, r, now, id).memory == if r.asOf > now then m else Learned(m, r)
  {
  }

  /** An ingestion that raises leaves the store as it was, and in the memory what it had learned. */
  lemma WhatAnExceptionLeaves(cfg: Config, s: State, r: Result, now: Time, id: nat, clock: Time)
    requires cfg.Valid() && cfg.version.V51? && Upper(r.symbol) == r.symbol && Mirrored(s, r.symbol)
    requires Sound(s.store, clock) && clock <= now && IdIsNew(s.store.watches, id)
    requires !OutcomeOf(cfg, s, Arrive(r, now, id)).failure.NoFailure?
    ensures var after, m := Step(cfg, s, Arrive(r, now, id)), Observe(cfg, s.memory, r);
            && after == State(if r.asOf > now then m else Learned(m, r), s.store)
            && OneSymbol(after.memory, r.symbol)
  {
    var m := Observe(cfg, s.memory, r);
    RaisedByProcess(cfg, s, r, now, id, clock);
    RaisingProcessKeepsStore(cfg, m, s.store, r, now, id);
    RaisingProcessLearns(cfg, m, s.store, r, now, id);
    ObserveKeepsOneSymbol(cfg, s.memory, r);
    LearnedRemembers(m, r);
  }

  /** An ingestion that raises an exception writes no checkpoint. Under an active watch, watcher and
      checkpoint then agree exactly when the refused result had nothing to teach the memory. */
  lemma AfterAnException(cfg: Config, s: State, symbol: string, e: Event, clock: Time)
    requires cfg.Valid() && cfg.version.V51? && Upper(symbol) == symbol && Mirrored(s, symbol) && Sound(s.store, clock)
    requires e.Arrive? && e.result.symbol == symbol && clock <= e.now && IdIsNew(s.store.watches, e.id)
    requires !OutcomeOf(cfg, s, e).failure.NoFailure?
    ensures Mirrored(Step(cfg, s, e), symbol) <==>
            || Latest(s.store.watches, symbol, true).None?
            || (NothingToObserve(cfg, s.memory, e.result) && (e.result.asOf > e.now || Known(s.memory, e.result)))
  {
    WhatAnExceptionLeaves(cfg, s, e.result, e.now, e.id, clock);
    if Latest(s.store.watches, symbol, true).Some? {
      CheckpointRoundTrip(s.memory, symbol);
      var after := Step(cfg, s, e);
      ObserveChangesNothing(cfg, s.memory, e.result);
      SameExactly(cfg, s.memory, e.result);
      if Mirrored(after, symbol) {
        CheckpointRoundTrip(after.memory, symbol);
        assert after.memory == s.memory;
      }
    }
  }

  lemma SameExactly(cfg: Config, m: Memory, r: Result)
    requires ContextOf(m, r.symbol) != map[]
    ensures Learned(Observe(cfg, m, r), r) == m <==> NothingToObserve(cfg, m, r) && Known(m, r)
  {
    ObserveChangesNothing(cfg, m, r);
    LearnedChangesNothing(m, r);
    assert Learned(Observe(cfg, m, r), r).candidates == Observe(cfg, m, r).candidates;
    assert Observe(cfg, m, r).latest == m.latest;
  }

  /** So a mature Intraday result stamped after the clock is remembered by the running watcher
      although it was refused, and forgotten by a restarted one. */
  lemma RefusedResultIsRemembered(cfg: Config, s: State, symbol: string, r: Result, now: Time, id: nat)
    requires cfg.version.V51? && Upper(symbol) == symbol && Mirrored(s, symbol)
    requires Latest(s.store.watches, symbol, true).Some? && symbol !in s.memory.candidates
    requires r.symbol == symbol && r.horizon.Intraday? && Mature(cfg, r) && r.asOf > now
    ensures var after := Step(cfg, s, Arrive(r, now, id));
            && symbol in after.memory.candidates
            && symbol !in RestoreActive(Step(cfg, after, Restart).memory, after.store, symbol).candidates
  {
    CheckpointRoundTrip(s.memory, symbol);
  }

  /** So is a result that would expire the watch under an id the context already holds: the message
      is rejected, the running watcher knows the result, a restarted one does not. */
  lemma RejectedResultIsRemembered(cfg: Config, s: State, symbol: string, r: Result, other: Horizon, now: Time, id: nat)
    requires cfg.version.V51? && Upper(symbol) == symbol && Mirrored(s, symbol)
    requires var active := Latest(s.store.watches, symbol, true);
             active.Some? && s.store.watches[active.value].thesis.expiresAt <= now
    requires r.symbol == symbol && r.horizon !in ContextOf(s.memory, symbol) && r.asOf <= now
    requires other in ContextOf(s.memory, symbol) && ContextOf(s.memory, symbol)[other].id == r.id
    ensures var after := Step(cfg, s, Arrive(r, now, id));
            && OutcomeOf(cfg, s, Arrive(r, now, id)).failure.Rejected?
            && Known(after.memory, r)
            && !Known(RestoreActive(Step(cfg, after, Restart).memory, after.store, symbol), r)
  {
    var active := Latest(s.store.watches, symbol, true).value;
    var m := Observe(cfg, s.memory, r);
    CheckpointRoundTrip(s.memory, symbol);
    RejectedAtExpiry(cfg, m, s.store, active, r, other, now, id);
  }

  /** The message of an expiry lists every known result, and may list no id twice. */
  lemma RejectedAtExpiry(cfg: Config, m: Memory, store: Store, i: nat, r: Result, other: Horizon, now: Time, id: nat)
    requires Latest(store.watches, r.symbol, true) == Some(i) && store.watches[i].thesis.expiresAt <= now
    requires r.horizon !in ContextOf(m, r.symbol) && r.asOf <= now
    requires other in ContextOf(m, r.symbol) && ContextOf(m, r.symbol)[other].id == r.id
    ensures Process(cfg, m, store, r, now, id) == Outcome(Learned(m, r), store, None, Rejected)
  {
    var c := ContextOf(m, r.symbol)[r.horizon := r];
    assert !DistinctIds(c) by {
      assert other in c && r.horizon in c && other != r.horizon;
    }
  }
}
