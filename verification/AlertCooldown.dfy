/** Alert emission: cooldown per state key, escalation inside it, and deduplication keys. */
module AlertCooldown {
  import opened Market

  datatype Severity = Info | Watch | Action | Critical

  function Rank(s: Severity): nat {
    match s
    case Info => 0
    case Watch => 1
    case Action => 2
    case Critical => 3
  }

  const SEVERITIES := 4

  /** What the cooldown is kept for: a symbol, and the direction (version 1) or the kind with its
      component horizons (version 2). */
  datatype StateKey = StateKey(symbol: string, topic: string)

  /** One alert the engine would like to send. */
  datatype Attempt = Attempt(key: StateKey, severity: Severity, now: Time)

  /** The parts of a deduplication key. */
  datatype DedupKey = DedupKey(symbol: string, topic: string, severity: Severity, window: int)

  function Slug(s: string): string {
    seq(|s|, i requires 0 <= i < |s| =>
      if 'A' <= s[i] <= 'Z' then s[i] - 'A' + 'a' else if s[i] == ' ' then '-' else s[i])
  }

  function Text(key: StateKey): (string, string) {
    (Slug(key.symbol), Slug(key.topic))
  }

  const SECOND := 1_000_000

  /** The number of whole cooldowns, in whole seconds, since the epoch. */
  function Window(now: Time, cooldown: int): int
    requires cooldown >= SECOND
  {
    now / SECOND / (cooldown / SECOND)
  }

  function KeyFor(a: Attempt, cooldown: int): DedupKey
    requires cooldown >= SECOND
  {
    DedupKey(Text(a.key).0, Text(a.key).1, a.severity, Window(a.now, cooldown))
  }

  datatype Memory = Memory(last: map<StateKey, (Time, Severity)>, keys: set<DedupKey>)

  /** How an attempt ends: held back by the cooldown, by its deduplication key, by the division by zero of
      a cooldown under a second, or sent. */
  datatype Outcome = Cooling | Duplicate | DivisionByZero | Sent

  predicate Blocked(cooldown: int, m: Memory, a: Attempt) {
    && a.key in m.last
    && a.now - m.last[a.key].0 < cooldown
    && Rank(a.severity) <= Rank(m.last[a.key].1)
  }

  function OutcomeOf(cooldown: int, m: Memory, a: Attempt): Outcome {
    if Blocked(cooldown, m, a) then Cooling
    else if cooldown < SECOND then DivisionByZero
    else if KeyFor(a, cooldown) in m.keys then Duplicate
    else Sent
  }

  function Step(cooldown: int, m: Memory, a: Attempt): Memory {
    if OutcomeOf(cooldown, m, a).Sent? then
      Memory(m.last[a.key := (a.now, a.severity)], m.keys + {KeyFor(a, cooldown)})
    else m
  }

  /** The alert builder and its two dictionaries. */
  class Builder {
    const cooldown: int
    var lastEmitted: map<StateKey, (Time, Severity)>
    var emittedKeys: set<DedupKey>

    ghost function View(): Memory
      reads this
    {
      Memory(lastEmitted, emittedKeys)
    }

    constructor (cooldown: int)
      ensures this.cooldown == cooldown && View() == Memory(map[], {})
    {
      this.cooldown := cooldown;
      lastEmitted, emittedKeys := map[], {};
    }

    method Build(a: Attempt) returns (o: Outcome)
      modifies this
      ensures o == OutcomeOf(cooldown, old(View()), a) && View() == Step(cooldown, old(View()), a)
    {
      if a.key in lastEmitted {
        var previous := lastEmitted[a.key];
        var withinCooldown := a.now - previous.0 < cooldown;
        var notEscalated := Rank(a.severity) <= Rank(previous.1);
        if withinCooldown && notEscalated {
          return Cooling;
        }
      }
      if cooldown < SECOND {
        return DivisionByZero;
      }
      var key := KeyFor(a, cooldown);
      if key in emittedKeys {
        return Duplicate;
      }
      emittedKeys := emittedKeys + {key};
      lastEmitted := lastEmitted[a.key := (a.now, a.severity)];
      o := Sent;
    }
  }

  // ---------------------------------------------------------------- runs

  const START := Memory(map[], {})

  function MemoryAfter(cooldown: int, attempts: seq<Attempt>): Memory {
    if attempts == [] then START
    else Step(cooldown, MemoryAfter(cooldown, attempts[..|attempts| - 1]), attempts[|attempts| - 1])
  }

  /** The alerts a run has sent. */
  function SentBy(cooldown: int, attempts: seq<Attempt>): seq<Attempt> {
    if attempts == [] then []
    else
      var a, before := attempts[|attempts| - 1], attempts[..|attempts| - 1];
      var earlier := SentBy(cooldown, before);
      if OutcomeOf(cooldown, MemoryAfter(cooldown, before), a).Sent? then earlier + [a] else earlier
  }

  ghost predicate InOrder(attempts: seq<Attempt>) {
    forall i, j :: 0 <= i < j < |attempts| ==> attempts[i].now <= attempts[j].now
  }

  ghost predicate NoneAfter(attempts: seq<Attempt>, clock: Time) {
    forall i :: 0 <= i < |attempts| ==> attempts[i].now <= clock
  }

  /** Alerts of one key less than a cooldown apart escalate. */
  ghost predicate Escalating(cooldown: int, sent: seq<Attempt>) {
    forall i, j :: 0 <= i < j < |sent| && sent[i].key == sent[j].key && sent[j].now - sent[i].now < cooldown
      ==> Rank(sent[i].severity) < Rank(sent[j].severity)
  }

  /** The dictionary of last alerts holds the last alert of every key. */
  ghost predicate Remembers(m: Memory, sent: seq<Attempt>) {
    && (forall i :: 0 <= i < |sent| ==> sent[i].key in m.last)
    && (forall k :: k in m.last ==> exists p: nat :: IsLast(sent, k, p) && m.last[k] == (sent[p].now, sent[p].severity))
  }

  ghost predicate IsLast(sent: seq<Attempt>, k: StateKey, p: nat) {
    p < |sent| && sent[p].key == k && forall j :: p < j < |sent| ==> sent[j].key != k
  }

  /** No alert still in its cooldown is as severe as one the cooldown lets through. */
  lemma EscalatesPastAll(cooldown: int, m: Memory, sent: seq<Attempt>, a: Attempt, i: nat)
    requires InOrder(sent) && NoneAfter(sent, a.now) && Escalating(cooldown, sent) && Remembers(m, sent)
    requires !Blocked(cooldown, m, a) && i < |sent| && sent[i].key == a.key && a.now - sent[i].now < cooldown
    ensures Rank(sent[i].severity) < Rank(a.severity)
  {
    var p: nat :| IsLast(sent, a.key, p) && m.last[a.key] == (sent[p].now, sent[p].severity);
    assert i <= p;
    if i < p {
      assert sent[i].now <= sent[p].now;
    }
  }

  lemma SendingKeepsEscalation(cooldown: int, m: Memory, sent: seq<Attempt>, a: Attempt)
    requires InOrder(sent) && NoneAfter(sent, a.now) && Escalating(cooldown, sent) && Remembers(m, sent)
    requires !Blocked(cooldown, m, a)
    ensures Escalating(cooldown, sent + [a]) && InOrder(sent + [a])
  {
    forall i | 0 <= i < |sent| && sent[i].key == a.key && a.now - sent[i].now < cooldown
      ensures Rank(sent[i].severity) < Rank(a.severity)
    {
      EscalatesPastAll(cooldown, m, sent, a, i);
    }
    OneMoreEscalates(cooldown, sent, a);
  }

  lemma OneMoreEscalates(cooldown: int, sent: seq<Attempt>, a: Attempt)
    requires InOrder(sent) && NoneAfter(sent, a.now) && Escalating(cooldown, sent)
    requires forall i :: 0 <= i < |sent| && sent[i].key == a.key && a.now - sent[i].now < cooldown ==>
               Rank(sent[i].severity) < Rank(a.severity)
    ensures Escalating(cooldown, sent + [a]) && InOrder(sent + [a])
  {
  }

  lemma SendingIsRemembered(m: Memory, sent: seq<Attempt>, a: Attempt, keys: set<DedupKey>)
    requires Remembers(m, sent)
    ensures Remembers(Memory(m.last[a.key := (a.now, a.severity)], keys), sent + [a])
  {
    var more, last := sent + [a], m.last[a.key := (a.now, a.severity)];
    forall k | k in last ensures exists p: nat :: IsLast(more, k, p) && last[k] == (more[p].now, more[p].severity) {
      if k == a.key {
        assert IsLast(more, k, |sent|);
      } else {
        var p: nat :| IsLast(sent, k, p) && m.last[k] == (sent[p].now, sent[p].severity);
        assert IsLast(more, k, p);
      }
    }
  }

  ghost predicate Sound(cooldown: int, attempts: seq<Attempt>) {
    var sent := SentBy(cooldown, attempts);
    InOrder(sent) && Escalating(cooldown, sent) && Remembers(MemoryAfter(cooldown, attempts), sent)
  }

  lemma {:induction false} SentAreAttempts(cooldown: int, attempts: seq<Attempt>, clock: Time)
    requires NoneAfter(attempts, clock)
    ensures NoneAfter(SentBy(cooldown, attempts), clock)
    decreases |attempts|
  {
    if attempts != [] {
      SentAreAttempts(cooldown, attempts[..|attempts| - 1], clock);
    }
  }

  lemma {:induction false} RunSound(cooldown: int, attempts: seq<Attempt>)
    requires InOrder(attempts)
    ensures Sound(cooldown, attempts)
    decreases |attempts|
  {
    if attempts != [] {
      var before, a := attempts[..|attempts| - 1], attempts[|attempts| - 1];
      RunSound(cooldown, before);
      SentAreAttempts(cooldown, before, a.now);
      var m, sent := MemoryAfter(cooldown, before), SentBy(cooldown, before);
      if OutcomeOf(cooldown, m, a).Sent? {
        SendingKeepsEscalation(cooldown, m, sent, a);
        SendingIsRemembered(m, sent, a, m.keys + {KeyFor(a, cooldown)});
      }
    }
  }

  /** In any run whose clock never goes back, two alerts of one key less than a cooldown apart have
      strictly increasing severity. */
  lemma CooldownEscalates(cooldown: int, attempts: seq<Attempt>, i: nat, j: nat)
    requires InOrder(attempts) && i < j < |SentBy(cooldown, attempts)|
    requires var sent := SentBy(cooldown, attempts); sent[i].key == sent[j].key && sent[j].now - sent[i].now < cooldown
    ensures var sent := SentBy(cooldown, attempts); Rank(sent[i].severity) < Rank(sent[j].severity)
  {
    RunSound(cooldown, attempts);
  }

  /** Alerts of one key that all fall within one cooldown. */
  ghost predicate Burst(cooldown: int, sent: seq<Attempt>, picks: seq<nat>) {
    && (forall k :: 0 <= k < |picks| ==> picks[k] < |sent|)
    && (forall k, l :: 0 <= k < l < |picks| ==>
          && picks[k] < picks[l]
          && sent[picks[k]].key == sent[picks[l]].key
          && sent[picks[l]].now - sent[picks[k]].now < cooldown)
  }

  lemma {:induction false} BurstClimbs(cooldown: int, sent: seq<Attempt>, picks: seq<nat>, k: nat)
    requires Escalating(cooldown, sent) && Burst(cooldown, sent, picks) && k < |picks|
    ensures Rank(sent[picks[k]].severity) >= k
  {
    if k > 0 {
      BurstClimbs(cooldown, sent, picks, k - 1);
      assert picks[k - 1] < picks[k];
    }
  }

  /** So no cooldown holds more alerts of one key than there are severities. */
  lemma RateIsBounded(cooldown: int, attempts: seq<Attempt>, picks: seq<nat>)
    requires InOrder(attempts) && Burst(cooldown, SentBy(cooldown, attempts), picks)
    ensures |picks| <= SEVERITIES
  {
    RunSound(cooldown, attempts);
    if |picks| > 0 {
      BurstClimbs(cooldown, SentBy(cooldown, attempts), picks, |picks| - 1);
    }
  }

  // ---------------------------------------------------------------- deduplication keys

  ghost predicate KeysAreSent(cooldown: int, keys: set<DedupKey>, sent: seq<Attempt>)
    requires cooldown >= SECOND
  {
    && (forall i :: 0 <= i < |sent| ==> KeyFor(sent[i], cooldown) in keys)
    && (forall k :: k in keys ==> exists i :: 0 <= i < |sent| && KeyFor(sent[i], cooldown) == k)
    && (forall i, j :: 0 <= i < j < |sent| ==> KeyFor(sent[i], cooldown) != KeyFor(sent[j], cooldown))
  }

  lemma SendingRecordsKey(cooldown: int, keys: set<DedupKey>, sent: seq<Attempt>, a: Attempt)
    requires cooldown >= SECOND && KeysAreSent(cooldown, keys, sent) && KeyFor(a, cooldown) !in keys
    ensures KeysAreSent(cooldown, keys + {KeyFor(a, cooldown)}, sent + [a])
  {
    var more := sent + [a];
    forall k | k in keys + {KeyFor(a, cooldown)} ensures exists i :: 0 <= i < |more| && KeyFor(more[i], cooldown) == k {
      if k == KeyFor(a, cooldown) {
        assert more[|sent|] == a;
      } else {
        var i :| 0 <= i < |sent| && KeyFor(sent[i], cooldown) == k;
        assert more[i] == sent[i];
      }
    }
  }

  /** Every alert has its own deduplication key, and the builder remembers exactly those. */
  lemma {:induction false} KeysAreDistinct(cooldown: int, attempts: seq<Attempt>)
    requires cooldown >= SECOND
    ensures KeysAreSent(cooldown, MemoryAfter(cooldown, attempts).keys, SentBy(cooldown, attempts))
    decreases |attempts|
  {
    if attempts != [] {
      var before, a := attempts[..|attempts| - 1], attempts[|attempts| - 1];
      KeysAreDistinct(cooldown, before);
      if OutcomeOf(cooldown, MemoryAfter(cooldown, before), a).Sent? {
        SendingRecordsKey(cooldown, MemoryAfter(cooldown, before).keys, SentBy(cooldown, before), a);
      }
    }
  }

  /** Two instants of one window are less than a cooldown apart. */
  lemma SameWindowIsClose(s: Time, t: Time, cooldown: int)
    requires cooldown >= SECOND && s <= t && Window(s, cooldown) == Window(t, cooldown)
    ensures t - s < cooldown
  {
    var w, a, b := cooldown / SECOND, s / SECOND, t / SECOND;
    QuotientBounds(a, w);
    QuotientBounds(b, w);
    QuotientBounds(s, SECOND);
    QuotientBounds(t, SECOND);
    QuotientBounds(cooldown, SECOND);
    assert b - a <= w - 1;
  }

  lemma QuotientBounds(x: int, d: int)
    requires d > 0
    ensures d * (x / d) <= x <= d * (x / d) + d - 1
  {
  }

  /** Different state keys in use have different texts. */
  ghost predicate TextsDiffer(attempts: seq<Attempt>) {
    forall i, j :: 0 <= i < |attempts| && 0 <= j < |attempts| && Text(attempts[i].key) == Text(attempts[j].key)
      ==> attempts[i].key == attempts[j].key
  }

  lemma {:induction false} SentIsAttempted(cooldown: int, attempts: seq<Attempt>, k: nat)
    requires k < |SentBy(cooldown, attempts)|
    ensures SentBy(cooldown, attempts)[k] in attempts
    decreases |attempts|
  {
    var before := attempts[..|attempts| - 1];
    if k < |SentBy(cooldown, before)| {
      SentIsAttempted(cooldown, before, k);
    }
  }

  /** An alert the cooldown lets through has no twin of its own state key in the same window. */
  lemma NoTwin(cooldown: int, m: Memory, sent: seq<Attempt>, a: Attempt, i: nat)
    requires cooldown >= SECOND && InOrder(sent) && NoneAfter(sent, a.now) && Escalating(cooldown, sent) && Remembers(m, sent)
    requires !Blocked(cooldown, m, a) && i < |sent| && sent[i].key == a.key
    ensures KeyFor(sent[i], cooldown) != KeyFor(a, cooldown)
  {
    if Window(sent[i].now, cooldown) == Window(a.now, cooldown) {
      SameWindowIsClose(sent[i].now, a.now, cooldown);
      EscalatesPastAll(cooldown, m, sent, a, i);
    }
  }

  lemma SameTextSameKey(cooldown: int, attempts: seq<Attempt>, a: Attempt, i: nat)
    requires TextsDiffer(attempts + [a]) && i < |SentBy(cooldown, attempts)|
    requires Text(SentBy(cooldown, attempts)[i].key) == Text(a.key)
    ensures SentBy(cooldown, attempts)[i].key == a.key
  {
    var all := attempts + [a];
    SentIsAttempted(cooldown, attempts, i);
    var n :| 0 <= n < |attempts| && attempts[n] == SentBy(cooldown, attempts)[i];
    assert all[n] == attempts[n] && all[|attempts|] == a;
  }

  /** As long as spellings do not collide the deduplication check holds nothing back: the cooldown
      already has. */
  lemma KeyCheckIsRedundant(cooldown: int, attempts: seq<Attempt>, a: Attempt)
    requires InOrder(attempts) && NoneAfter(attempts, a.now) && TextsDiffer(attempts + [a])
    ensures !OutcomeOf(cooldown, MemoryAfter(cooldown, attempts), a).Duplicate?
  {
    var m, sent := MemoryAfter(cooldown, attempts), SentBy(cooldown, attempts);
    RunSound(cooldown, attempts);
    SentAreAttempts(cooldown, attempts, a.now);
    if cooldown >= SECOND && !Blocked(cooldown, m, a) {
      KeysAreDistinct(cooldown, attempts);
      forall i | 0 <= i < |sent| ensures KeyFor(sent[i], cooldown) != KeyFor(a, cooldown) {
        if Text(sent[i].key) == Text(a.key) {
          SameTextSameKey(cooldown, attempts, a, i);
          NoTwin(cooldown, m, sent, a, i);
        }
      }
    }
  }

  /** Two spellings of one text share their deduplication keys, so that the second is held back although
      its own cooldown never started. */
  lemma CollidingSpellingIsHeldBack(cooldown: int, a: Attempt, other: StateKey)
    requires cooldown >= SECOND && other != a.key && Text(other) == Text(a.key)
    ensures OutcomeOf(cooldown, START, a).Sent?
    ensures OutcomeOf(cooldown, Step(cooldown, START, a), Attempt(other, a.severity, a.now)).Duplicate?
  {
  }

  /** The check can hold something back exactly when spellings collide. */
  lemma KeyCheckMattersExactly(cooldown: int, key: StateKey, other: StateKey)
    requires cooldown >= SECOND && key != other
    ensures Text(key) == Text(other)
            <==> exists a: Attempt :: a.key == key && OutcomeOf(cooldown, START, a).Sent?
                   && OutcomeOf(cooldown, Step(cooldown, START, a), Attempt(other, a.severity, a.now)).Duplicate?
  {
    if Text(key) == Text(other) {
      var a := Attempt(key, Info, 0);
      CollidingSpellingIsHeldBack(cooldown, a, other);
    }
  }

  // ---------------------------------------------------------------- a cooldown under a second

  /** A cooldown under a second is accepted by the policy but leaves a window of zero seconds: no run
      ever sends an alert, and the first attempt fails. */
  lemma {:induction false} ShortCooldownSendsNothing(cooldown: int, attempts: seq<Attempt>)
    requires 0 < cooldown < SECOND
    ensures SentBy(cooldown, attempts) == [] && MemoryAfter(cooldown, attempts) == START
    decreases |attempts|
  {
    if attempts != [] {
      ShortCooldownSendsNothing(cooldown, attempts[..|attempts| - 1]);
    }
  }

  /** An attempt fails exactly then. */
  lemma FailsExactly(cooldown: int, attempts: seq<Attempt>, a: Attempt)
    requires cooldown > 0
    ensures OutcomeOf(cooldown, MemoryAfter(cooldown, attempts), a).DivisionByZero? <==> cooldown < SECOND
  {
    if cooldown < SECOND {
      ShortCooldownSendsNothing(cooldown, attempts);
    }
  }
}
