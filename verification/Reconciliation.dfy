/** When a reconciliation of the whole store raises, and what it leaves when it does not. */
module Reconciliation {
  import opened Market
  import opened Opportunity
  import opened Lifecycle
  import opened Engine

  /** What reconciliation alone makes of one stored record. */
  function Reconciled(o: Record, now: Time, normalised: set<string>): Record
    requires Entered(o.legs)
  {
    Reconcile(o, now, o.symbol in normalised)
  }

  /** Another record is active under the normalised symbol of `o` and outlives its own reconciliation. */
  ghost predicate InTheWay(start: map<nat, Record>, o: Record, now: Time, normalised: set<string>)
    requires AllEntered(start)
  {
    exists id :: IsActive(start, id, o.symbol) && id != o.id
                 && !Reconciled(start[id], now, normalised).status.StatusClosed?
  }

  /** Reconciling `o` in a pass over `start` raises: the change is dated before the record, or a twin is in
      the way. */
  ghost predicate Fails(start: map<nat, Record>, o: Record, now: Time, normalised: set<string>)
    requires AllEntered(start) && Entered(o.legs)
  {
    InTheWay(start, o, now, normalised) || (now < o.armedAt && Reconciled(o, now, normalised) != o)
  }

  ghost predicate OwnIds(start: map<nat, Record>) {
    forall id :: id in start ==> start[id].id == id
  }

  predicate Visited(order: seq<nat>, k: nat, id: nat)
    requires k <= |order|
  {
    id in order[..k]
  }

  /** The first `k` listed records are reconciled, the others as they were. */
  ghost predicate Progress(start: map<nat, Record>, opportunities: map<nat, Record>, order: seq<nat>, k: nat,
                           now: Time, normalised: set<string>)
    requires AllEntered(start) && k <= |order|
  {
    && opportunities.Keys == start.Keys
    && forall id :: id in start ==>
         opportunities[id] == if Visited(order, k, id) then Reconciled(start[id], now, normalised) else start[id]
  }

  lemma {:induction false} UpperPrecedes(s: string)
    requires Upper(s) != s
    ensures Precedes(Upper(s), s)
  {
    if s != "" {
      assert Upper(s)[1..] == Upper(s[1..]);
      if Upper(s)[0] == s[0] {
        assert Upper(s) == [s[0]] + Upper(s[1..]) && s == [s[0]] + s[1..];
        UpperPrecedes(s[1..]);
      }
    }
  }

  lemma ProgressKeepsEntered(start: map<nat, Record>, opportunities: map<nat, Record>, order: seq<nat>, k: nat,
                             now: Time, normalised: set<string>)
    requires AllEntered(start) && k <= |order| && Progress(start, opportunities, order, k, now, normalised)
    ensures AllEntered(opportunities)
  {
    forall id | id in opportunities ensures Entered(opportunities[id].legs) {
      ReconcileKeepsEntered(start[id], now, start[id].symbol in normalised);
    }
  }

  /** Only records of other spellings are blocked: their normalised twin comes earlier in the order. */
  lemma TwinComesFirst(start: map<nat, Record>, order: seq<nat>, k: nat, id: nat)
    requires OneActive(start) && OwnIds(start) && Listed(start, order) && k < |order|
    requires IsActive(start, id, start[order[k]].symbol) && id != order[k]
    ensures Upper(start[order[k]].symbol) != start[order[k]].symbol
    ensures Visited(order, k, id)
  {
    var o := start[order[k]];
    if Upper(o.symbol) == o.symbol {
      assert IsActive(start, order[k], o.symbol);
      assert false;
    }
    UpperPrecedes(o.symbol);
    var j :| 0 <= j < |order| && order[j] == id;
    assert j < k;
    assert order[..k][j] == id;
  }

  lemma BlockedExactly(start: map<nat, Record>, opportunities: map<nat, Record>, order: seq<nat>, k: nat,
                       now: Time, normalised: set<string>)
    requires AllEntered(start) && OneActive(start) && OwnIds(start) && Listed(start, order) && k < |order|
    requires Progress(start, opportunities, order, k, now, normalised)
    ensures Blocked(opportunities, start[order[k]]) <==> InTheWay(start, start[order[k]], now, normalised)
  {
    var o := start[order[k]];
    if Blocked(opportunities, o) {
      var id :| IsActive(opportunities, id, o.symbol) && id != o.id;
      StaysClosed(start[id], now, normalised);
      assert IsActive(start, id, o.symbol);
      TwinComesFirst(start, order, k, id);
    }
    if InTheWay(start, o, now, normalised) {
      var id :| IsActive(start, id, o.symbol) && id != o.id && !Reconciled(start[id], now, normalised).status.StatusClosed?;
      TwinComesFirst(start, order, k, id);
      StaysClosed(start[id], now, normalised);
      assert IsActive(opportunities, id, o.symbol);
    }
  }

  lemma StaysClosed(o: Record, now: Time, normalised: set<string>)
    requires Entered(o.legs)
    ensures o.status.StatusClosed? ==> Reconciled(o, now, normalised).status.StatusClosed?
    ensures Reconciled(o, now, normalised).symbol == o.symbol
  {
  }

  ghost predicate AllUpper(symbols: set<string>) {
    forall s :: s in symbols ==> Upper(s) == s
  }

  lemma NormalisedIsUpper(universe: set<string>)
    ensures AllUpper(Normalised(universe))
  {
    forall s | s in Normalised(universe) ensures Upper(s) == s {
      var t :| t in universe && s == Upper(t);
      UpperIdempotent(t);
    }
  }

  /** A record that is in the way of another keeps it from being saved, and something is to be saved. */
  lemma RefusedExactly(start: map<nat, Record>, opportunities: map<nat, Record>, order: seq<nat>, k: nat,
                       now: Time, normalised: set<string>)
    requires AllEntered(start) && OneActive(start) && OwnIds(start) && Listed(start, order) && k < |order|
    requires Progress(start, opportunities, order, k, now, normalised) && AllUpper(normalised)
    ensures opportunities[order[k]] == start[order[k]]
    ensures var o := start[order[k]];
            Reconciled(o, now, normalised) != o && Unsavable(opportunities, o, now) <==> Fails(start, o, now, normalised)
  {
    var o := start[order[k]];
    BlockedExactly(start, opportunities, order, k, now, normalised);
    if InTheWay(start, o, now, normalised) {
      var id :| IsActive(start, id, o.symbol) && id != o.id && !Reconciled(start[id], now, normalised).status.StatusClosed?;
      TwinComesFirst(start, order, k, id);
      assert o.symbol !in normalised;
      assert Reconciled(o, now, normalised).status.StatusClosed? && !o.status.StatusClosed?;
    }
  }

  lemma OneMoreVisited(start: map<nat, Record>, opportunities: map<nat, Record>, order: seq<nat>, k: nat,
                       now: Time, normalised: set<string>)
    requires AllEntered(start) && k < |order| && order[k] in start
    requires Progress(start, opportunities, order, k, now, normalised)
    ensures Progress(start, opportunities[order[k] := Reconciled(start[order[k]], now, normalised)], order, k + 1, now, normalised)
  {
    assert order[..k + 1] == order[..k] + [order[k]];
  }

  /** Whether some listed record from position `k` on cannot be saved. */
  ghost predicate SomeFails(start: map<nat, Record>, order: seq<nat>, k: nat, now: Time, normalised: set<string>)
    requires AllEntered(start) && forall id :: id in order ==> id in start
  {
    exists i :: k <= i < |order| && Fails(start, start[order[i]], now, normalised)
  }

  lemma {:induction false} RunFrom(start: map<nat, Record>, opportunities: map<nat, Record>, order: seq<nat>, k: nat,
                                   now: Time, normalised: set<string>)
    requires AllEntered(start) && OneActive(start) && OwnIds(start) && Listed(start, order) && k <= |order|
    requires Progress(start, opportunities, order, k, now, normalised) && AllUpper(normalised)
    ensures AllEntered(opportunities) && forall id :: id in order ==> id in opportunities
    ensures var (after, raised) := ReconcileRun(opportunities, order[k..], now, normalised);
            && (raised <==> SomeFails(start, order, k, now, normalised))
            && (!raised ==> Progress(start, after, order, |order|, now, normalised))
    decreases |order| - k
  {
    ProgressKeepsEntered(start, opportunities, order, k, now, normalised);
    if k < |order| {
      var o := start[order[k]];
      RefusedExactly(start, opportunities, order, k, now, normalised);
      ReconcileRunStep(opportunities, order, k, now, normalised);
      if !Fails(start, o, now, normalised) {
        OneMoreVisited(start, opportunities, order, k, now, normalised);
        RunFrom(start, opportunities[order[k] := Reconciled(o, now, normalised)], order, k + 1, now, normalised);
      }
    }
  }

  /** Every active record is what reconciliation makes of it, every other one as it was. */
  ghost predicate EachReconciled(start: map<nat, Record>, after: map<nat, Record>, now: Time, normalised: set<string>)
    requires AllEntered(start)
  {
    && after.Keys == start.Keys
    && forall id :: id in start ==>
         after[id] == if start[id].status.StatusClosed? then start[id] else Reconciled(start[id], now, normalised)
  }

  /** A pass over the store raises exactly when some record would change before it was armed, or an active
      record of another spelling meets an active one under the normalised symbol that outlives its own
      reconciliation. Otherwise every
      active record is reconciled on its own, and every other record is as it was. */
  lemma ReconcilesExactly(start: map<nat, Record>, order: seq<nat>, now: Time, universe: set<string>)
    requires AllEntered(start) && OneActive(start) && OwnIds(start) && Listed(start, order)
    ensures var normalised := Normalised(universe);
            var (after, raised) := ReconcileRun(start, order, now, normalised);
            && (raised <==> SomeFails(start, order, 0, now, normalised))
            && (!raised ==> EachReconciled(start, after, now, normalised))
  {
    var normalised := Normalised(universe);
    NormalisedIsUpper(universe);
    assert order[0..] == order && order[..|order|] == order;
    RunFrom(start, start, order, 0, now, normalised);
  }

  /** A store that holds every active record under its normalised symbol, armed by now, is reconciled as a
      whole. */
  lemma NormalisedStoreNeverRaises(start: map<nat, Record>, order: seq<nat>, now: Time, universe: set<string>)
    requires AllEntered(start) && OneActive(start) && OwnIds(start) && Listed(start, order)
    requires forall id :: id in order ==> Upper(start[id].symbol) == start[id].symbol && start[id].armedAt <= now
    ensures !ReconcileRun(start, order, now, Normalised(universe)).1
  {
    ReconcilesExactly(start, order, now, universe);
    if SomeFails(start, order, 0, now, Normalised(universe)) {
      var i :| 0 <= i < |order| && Fails(start, start[order[i]], now, Normalised(universe));
      var id :| IsActive(start, id, start[order[i]].symbol) && id != start[order[i]].id;
      TwinComesFirst(start, order, i, id);
      assert false;
    }
  }

  /** And a record of another spelling is closed as removed whatever the universe holds. */
  lemma OtherSpellingIsRemoved(o: Record, now: Time, universe: set<string>)
    requires Entered(o.legs) && Upper(o.symbol) != o.symbol
    ensures Reconciled(o, now, Normalised(universe)).closeReason == Some(UniverseRemoved)
  {
    NormalisedIsUpper(universe);
  }

  /** One active record under two spellings of its symbol: the pass raises on the second. */
  lemma TwoSpellingsRaise(o: Record, spelling: string, now: Time)
    requires o.id == 0 && !o.status.StatusClosed? && Entered(o.legs) && NothingExpires(o, now)
    requires Upper(spelling) == o.symbol == Upper(o.symbol) && spelling != o.symbol
    ensures var start := map[0 := o, 1 := o.(id := 1, symbol := spelling)];
            && AllEntered(start) && OneActive(start) && OwnIds(start) && Listed(start, [0, 1])
            && ReconcileRun(start, [0, 1], now, Normalised({o.symbol})).1
  {
    var twin := o.(id := 1, symbol := spelling);
    var start, normalised := map[0 := o, 1 := twin], Normalised({o.symbol});
    UpperPrecedes(spelling);
    NotBoth(o.symbol, spelling);
    forall a, b, symbol: string | IsActive(start, a, symbol) && IsActive(start, b, symbol) ensures a == b {
      UpperIdempotent(symbol);
    }
    ReconcilesExactly(start, [0, 1], now, {o.symbol});
    assert o.symbol in normalised;
    assert InTheWay(start, start[[0, 1][1]], now, normalised) by {
      assert IsActive(start, 0, spelling) && Reconciled(o, now, normalised) == o;
    }
  }

  lemma {:induction false} NotBoth(a: string, b: string)
    requires Precedes(a, b)
    ensures !Precedes(b, a)
  {
    if a != "" && b != "" && a[0] == b[0] {
      NotBoth(a[1..], b[1..]);
    }
  }
}
