/** The incremental detector of a failed recovery, and the statement over whole bar histories
    that it computes: two adjacent, complete quarter hours closing lower below both levels. */
module RecoveryExit {
  import opened Market
  import opened Position

  const BUCKET: int := 15 * MINUTE

  function BucketOf(t: Time): Time {
    t - t % BUCKET
  }

  function FailureLevel(s: Recovery): Price {
    MinPrice(s.avwap, s.breakout)
  }

  /** One completed bar observed by the recovery state of an open checkpoint. */
  function Observe(s: Recovery, bar: Bar): Recovery {
    if s.lastBarAt.Some? && bar.timestamp <= s.lastBarAt.value then s
    else
      var bucket := BucketOf(bar.timestamp);
      var count :=
        if s.bucketAt != Some(bucket) then
          if bar.timestamp == bucket then 1 else 0
        else if s.barCount != 0 && s.lastBarAt == Some(bar.timestamp - MINUTE) then s.barCount + 1
        else 0;
      var updated := s.(bucketAt := Some(bucket), lastBarAt := Some(bar.timestamp), barCount := count);
      if bar.timestamp != bucket + 14 * MINUTE then updated
      else if count != 15 || bar.close >= FailureLevel(s) then
        updated.(previousFailedClose := None, previousFailedBucket := None)
      else
        var pending :=
          && s.previousFailedBucket == Some(bucket - BUCKET)
          && s.previousFailedClose.Some?
          && bar.close < s.previousFailedClose.value;
        updated.(previousFailedClose := Some(bar.close), previousFailedBucket := Some(bucket),
                 pendingExitAt := if pending then Some(bar.timestamp + MINUTE) else None)
  }

  /** A state that has been captured at entry and has seen no bar yet. */
  predicate Fresh(s: Recovery) {
    && s.bucketAt == None && s.lastBarAt == None && s.barCount == 0
    && s.previousFailedClose == None && s.previousFailedBucket == None && s.pendingExitAt == None
  }

  function ObserveAll(s: Recovery, h: seq<Bar>): Recovery {
    if h == [] then s else Observe(ObserveAll(s, h[..|h| - 1]), h[|h| - 1])
  }

  predicate Increasing(h: seq<Bar>) {
    forall i, j :: 0 <= i < j < |h| ==> h[i].timestamp < h[j].timestamp
  }

  predicate MinuteAligned(h: seq<Bar>) {
    forall i :: 0 <= i < |h| ==> h[i].timestamp % MINUTE == 0
  }

  // ---------------------------------------------------------------- what the histories mean

  /** The last `k` bars of `h` open one quarter hour minute by minute. */
  predicate ConsecutiveTail(h: seq<Bar>, k: nat) {
    && 0 < k <= |h|
    && var bucket := BucketOf(h[|h| - 1].timestamp);
       forall i :: |h| - k <= i < |h| ==> h[i].timestamp == bucket + (i - (|h| - k)) * MINUTE
  }

  /** The history ends with a complete quarter hour that closes below the failure level. */
  predicate EndsFailed(h: seq<Bar>, level: Price) {
    ConsecutiveTail(h, 15) && h[|h| - 1].close < level
  }

  /** The history ends with two adjacent failed quarter hours, the second closing strictly lower. */
  predicate ConfirmedFailure(h: seq<Bar>, level: Price) {
    && |h| >= 30
    && EndsFailed(h, level)
    && EndsFailed(h[..|h| - 15], level)
    && BucketOf(h[|h| - 16].timestamp) + BUCKET == BucketOf(h[|h| - 1].timestamp)
    && h[|h| - 1].close < h[|h| - 16].close
  }

  /** The verdict at the latest quarter-hour close: its failing bucket and close, or nothing. */
  function LastVerdict(h: seq<Bar>, level: Price): Option<(Time, Price)> {
    if h == [] then None
    else
      var bar := h[|h| - 1];
      if bar.timestamp == BucketOf(bar.timestamp) + 14 * MINUTE then
        if EndsFailed(h, level) then Some((BucketOf(bar.timestamp), bar.close)) else None
      else LastVerdict(h[..|h| - 1], level)
  }

  // ---------------------------------------------------------------- the simulation

  /** The count is the length of the consecutive tail that opens the current quarter hour. */
  ghost predicate CountsTail(s: Recovery, h: seq<Bar>) {
    && (h == [] ==> s.lastBarAt == None && s.bucketAt == None && s.barCount == 0)
    && (h != [] ==>
          && s.lastBarAt == Some(h[|h| - 1].timestamp)
          && s.bucketAt == Some(BucketOf(h[|h| - 1].timestamp))
          && (s.barCount > 0 ==> ConsecutiveTail(h, s.barCount))
          && (forall k :: 0 < k && ConsecutiveTail(h, k) ==> s.barCount == k))
  }

  /** What the incremental state remembers of the history it has observed. */
  ghost predicate Remembers(s: Recovery, h: seq<Bar>, level: Price) {
    && FailureLevel(s) == level
    && CountsTail(s, h)
    && (match LastVerdict(h, level)
        case None => s.previousFailedClose == None && s.previousFailedBucket == None
        case Some(v) => s.previousFailedBucket == Some(v.0) && s.previousFailedClose == Some(v.1))
  }

  lemma TailExtends(h: seq<Bar>, k: nat)
    requires |h| >= 2 && k > 1
    requires BucketOf(h[|h| - 1].timestamp) == BucketOf(h[|h| - 2].timestamp)
    ensures ConsecutiveTail(h, k) <==>
            ConsecutiveTail(h[..|h| - 1], k - 1) && h[|h| - 1].timestamp == h[|h| - 2].timestamp + MINUTE
            && k <= |h|
  {
    var g := h[..|h| - 1];
    if ConsecutiveTail(h, k) {
      assert h[|h| - 1].timestamp == BucketOf(h[|h| - 1].timestamp) + (k - 1) * MINUTE;
      assert h[|h| - 2].timestamp == BucketOf(h[|h| - 1].timestamp) + (k - 2) * MINUTE;
    }
    if ConsecutiveTail(g, k - 1) {
      assert g[|g| - 1].timestamp == BucketOf(h[|h| - 1].timestamp) + (k - 2) * MINUTE;
    }
  }

  lemma {:induction false} ObserveRemembers(s: Recovery, h: seq<Bar>)
    requires Fresh(s) && Increasing(h)
    ensures Remembers(ObserveAll(s, h), h, FailureLevel(s))
  {
    if h != [] {
      var g, bar := h[..|h| - 1], h[|h| - 1];
      ObserveRemembers(s, g);
      ObserveOneRemembers(ObserveAll(s, g), h, FailureLevel(s));
    }
  }

  lemma ObserveCountsTail(s: Recovery, h: seq<Bar>)
    requires h != [] && Increasing(h) && CountsTail(s, h[..|h| - 1])
    ensures CountsTail(Observe(s, h[|h| - 1]), h)
  {
    var g, bar := h[..|h| - 1], h[|h| - 1];
    var bucket := BucketOf(bar.timestamp);
    var c := Observe(s, bar).barCount;
    if g != [] {
      assert g[|g| - 1] == h[|h| - 2];
      assert h[|h| - 2].timestamp < bar.timestamp;
    }
    if c == 1 {
      assert ConsecutiveTail(h, 1);
    } else if c > 1 {
      TailExtends(h, c);
    }
    forall k | 0 < k && ConsecutiveTail(h, k) ensures c == k {
      TailIsCounted(s, h, k);
    }
  }

  lemma TailIsCounted(s: Recovery, h: seq<Bar>, k: nat)
    requires h != [] && Increasing(h) && CountsTail(s, h[..|h| - 1])
    requires 0 < k && ConsecutiveTail(h, k)
    ensures Observe(s, h[|h| - 1]).barCount == k
  {
    if k == 1 {
      FirstIsCounted(s, h);
    } else {
      NextIsCounted(s, h, k);
    }
  }

  lemma FirstIsCounted(s: Recovery, h: seq<Bar>)
    requires h != [] && Increasing(h) && CountsTail(s, h[..|h| - 1]) && ConsecutiveTail(h, 1)
    ensures Observe(s, h[|h| - 1]).barCount == 1
  {
    var g, bar := h[..|h| - 1], h[|h| - 1];
    assert bar.timestamp == BucketOf(bar.timestamp);
    if g != [] {
      assert g[|g| - 1] == h[|h| - 2];
      EarlierThanBucket(h[|h| - 2].timestamp, bar.timestamp);
    }
  }

  lemma NextIsCounted(s: Recovery, h: seq<Bar>, k: nat)
    requires h != [] && Increasing(h) && CountsTail(s, h[..|h| - 1]) && k > 1 && ConsecutiveTail(h, k)
    ensures Observe(s, h[|h| - 1]).barCount == k
  {
    var g, bar, last := h[..|h| - 1], h[|h| - 1], h[|h| - 2];
    var bucket := BucketOf(bar.timestamp);
    assert g[|g| - 1] == last;
    assert bar.timestamp == bucket + (k - 1) * MINUTE;
    assert last.timestamp == bucket + (k - 2) * MINUTE;
    SameBucket(bucket, k - 2, last.timestamp);
    TailExtends(h, k);
    assert s.barCount == k - 1 && s.bucketAt == Some(bucket) && s.lastBarAt == Some(bar.timestamp - MINUTE);
  }

  lemma EarlierThanBucket(t: Time, bucket: Time)
    requires t < bucket
    ensures BucketOf(t) < bucket
  {
  }

  lemma SameBucket(bucket: Time, k: nat, t: Time)
    requires bucket % BUCKET == 0 && k < 15 && t == bucket + k * MINUTE
    ensures BucketOf(t) == bucket
  {
  }

  lemma ObserveOneRemembers(s: Recovery, h: seq<Bar>, level: Price)
    requires h != [] && Increasing(h) && Remembers(s, h[..|h| - 1], level)
    ensures Remembers(Observe(s, h[|h| - 1]), h, level)
  {
    var g, bar := h[..|h| - 1], h[|h| - 1];
    if g != [] {
      assert g[|g| - 1] == h[|h| - 2];
    }
    assert s.lastBarAt.Some? ==> s.lastBarAt.value < bar.timestamp;
    ObserveCountsTail(s, h);
  }

  // ---------------------------------------------------------------- the characterisation

  lemma {:induction false} VerdictWitness(h: seq<Bar>, level: Price) returns (m: nat)
    requires LastVerdict(h, level).Some?
    ensures 15 <= m <= |h| && EndsFailed(h[..m], level)
    ensures LastVerdict(h, level).value == (BucketOf(h[m - 1].timestamp), h[m - 1].close)
    ensures h[m - 1].timestamp == BucketOf(h[m - 1].timestamp) + 14 * MINUTE
  {
    var bar := h[|h| - 1];
    if bar.timestamp == BucketOf(bar.timestamp) + 14 * MINUTE {
      m := |h|;
      assert h[..m] == h;
    } else {
      m := VerdictWitness(h[..|h| - 1], level);
      assert h[..|h| - 1][..m] == h[..m];
    }
  }

  lemma {:induction false} VerdictSkipsOpenQuarter(h: seq<Bar>, k: nat, level: Price)
    requires k < 15 && k <= |h|
    requires k > 0 ==> ConsecutiveTail(h, k)
    ensures LastVerdict(h, level) == LastVerdict(h[..|h| - k], level)
  {
    if k == 0 {
      assert h[..|h|] == h;
    } else {
      var bucket := BucketOf(h[|h| - 1].timestamp);
      assert h[|h| - 1].timestamp == bucket + (k - 1) * MINUTE;
      if k > 1 {
        assert h[|h| - 2].timestamp == bucket + (k - 2) * MINUTE;
        assert h[|h| - k].timestamp == bucket;
        SameBucket(bucket, k - 2, h[|h| - 2].timestamp);
        TailExtends(h, k);
      }
      VerdictSkipsOpenQuarter(h[..|h| - 1], k - 1, level);
      assert h[..|h| - 1][..|h| - k] == h[..|h| - k];
    }
  }

  /** Before a quarter hour opens, a verdict about the quarter just before it can only come
      from the very last bar. */
  lemma AdjacentVerdict(h: seq<Bar>, bucket: Time, level: Price)
    requires Increasing(h) && MinuteAligned(h) && bucket % BUCKET == 0
    requires forall i :: 0 <= i < |h| ==> h[i].timestamp < bucket
    ensures LastVerdict(h, level).Some? && LastVerdict(h, level).value.0 == bucket - BUCKET <==>
            EndsFailed(h, level) && BucketOf(h[|h| - 1].timestamp) == bucket - BUCKET
    ensures EndsFailed(h, level) ==>
              LastVerdict(h, level) == Some((BucketOf(h[|h| - 1].timestamp), h[|h| - 1].close))
  {
    if EndsFailed(h, level) {
      assert h[|h| - 1].timestamp == BucketOf(h[|h| - 1].timestamp) + 14 * MINUTE;
    }
    if LastVerdict(h, level).Some? && LastVerdict(h, level).value.0 == bucket - BUCKET {
      var m := VerdictWitness(h, level);
      if m < |h| {
        assert h[m - 1].timestamp < h[|h| - 1].timestamp < bucket;
        AlignedGap(h[m - 1].timestamp, h[|h| - 1].timestamp, bucket);
      }
      assert h[..m] == h;
    }
  }

  lemma AlignedGap(a: Time, b: Time, c: Time)
    requires b % MINUTE == 0 && c % BUCKET == 0 && a == c - MINUTE
    ensures b <= a || c <= b
  {
    assert c == (c / BUCKET) * 15 * MINUTE;
    assert b == (b / MINUTE) * MINUTE;
  }

  /** Confirmation is what the incremental rule computes at a failed quarter-hour close. */
  lemma ConfirmationFromVerdict(h: seq<Bar>, level: Price)
    requires Increasing(h) && MinuteAligned(h) && EndsFailed(h, level)
    ensures var v := LastVerdict(h[..|h| - 1], level);
            ConfirmedFailure(h, level) <==>
              && v.Some? && v.value.0 == BucketOf(h[|h| - 1].timestamp) - BUCKET
              && h[|h| - 1].close < v.value.1
  {
    var n := |h|;
    var g, e := h[..n - 1], h[..n - 15];
    var bucket := BucketOf(h[n - 1].timestamp);
    assert h[n - 15].timestamp == bucket;
    assert h[n - 2].timestamp == bucket + 13 * MINUTE;
    SameBucket(bucket, 13, h[n - 2].timestamp);
    assert h[n - 1].timestamp == bucket + 14 * MINUTE;
    TailExtends(h, 15);
    VerdictSkipsOpenQuarter(g, 14, level);
    assert g[..|g| - 14] == e;
    forall i | 0 <= i < |e| ensures e[i].timestamp < bucket {
      assert h[i].timestamp < h[n - 15].timestamp;
    }
    AdjacentVerdict(e, bucket, level);
    if e != [] {
      assert e[|e| - 1] == h[n - 16];
    }
  }

  /** What one later bar makes of a state with nothing pending. */
  lemma TurnsPending(s: Recovery, bar: Bar)
    requires s.pendingExitAt.None? && (s.lastBarAt.Some? ==> s.lastBarAt.value < bar.timestamp)
    ensures var bucket := BucketOf(bar.timestamp);
            Observe(s, bar).pendingExitAt ==
            if && bar.timestamp == bucket + 14 * MINUTE && Observe(s, bar).barCount == 15 && bar.close < FailureLevel(s)
               && s.previousFailedBucket == Some(bucket - BUCKET)
               && s.previousFailedClose.Some? && bar.close < s.previousFailedClose.value
            then Some(bar.timestamp + MINUTE) else None
  {
  }

  /** A full count at the last minute of a quarter hour is a complete quarter hour. */
  lemma FullCount(s: Recovery, h: seq<Bar>, level: Price)
    requires h != [] && CountsTail(s, h)
    ensures var bar := h[|h| - 1];
            bar.timestamp == BucketOf(bar.timestamp) + 14 * MINUTE && s.barCount == 15 && bar.close < level
            <==> EndsFailed(h, level)
  {
    if ConsecutiveTail(h, 15) {
      assert h[|h| - 1].timestamp == BucketOf(h[|h| - 1].timestamp) + 14 * MINUTE;
    }
  }

  /** The state first turns pending at a bar exactly when the history ends in a confirmed failure. */
  lemma PendingExactlyOnConfirmedFailure(s: Recovery, h: seq<Bar>)
    requires Fresh(s) && h != [] && Increasing(h) && MinuteAligned(h)
    requires ObserveAll(s, h[..|h| - 1]).pendingExitAt == None
    ensures ObserveAll(s, h).pendingExitAt ==
            if ConfirmedFailure(h, FailureLevel(s)) then Some(h[|h| - 1].timestamp + MINUTE) else None
  {
    var g, bar, level := h[..|h| - 1], h[|h| - 1], FailureLevel(s);
    var before := ObserveAll(s, g);
    ObserveRemembers(s, g);
    if g != [] {
      assert g[|g| - 1] == h[|h| - 2];
    }
    TurnsPending(before, bar);
    ObserveCountsTail(before, h);
    FullCount(Observe(before, bar), h, level);
    if EndsFailed(h, level) {
      ConfirmationFromVerdict(h, level);
    }
  }

  ghost predicate OnEveryPrefix(h: seq<Bar>, holds: seq<Bar> -> bool) {
    forall m :: 0 <= m <= |h| ==> holds(h[..m])
  }

  lemma OnEveryPrefixExtends(h: seq<Bar>, holds: seq<Bar> -> bool)
    requires h != []
    ensures OnEveryPrefix(h, holds) <==> OnEveryPrefix(h[..|h| - 1], holds) && holds(h)
  {
    var g := h[..|h| - 1];
    assert h[..|h|] == h;
    assert forall m :: 0 <= m <= |g| ==> g[..m] == h[..m];
    if OnEveryPrefix(g, holds) && holds(h) {
      forall m | 0 <= m <= |h| ensures holds(h[..m]) {
        if m < |h| {
          assert holds(g[..m]);
        }
      }
    }
    if OnEveryPrefix(h, holds) {
      forall m | 0 <= m <= |g| ensures holds(g[..m]) {
        assert holds(h[..m]);
      }
    }
  }

  ghost predicate NeverPending(s: Recovery, h: seq<Bar>) {
    OnEveryPrefix(h, g => ObserveAll(s, g).pendingExitAt == None)
  }

  ghost predicate NeverConfirmed(h: seq<Bar>, level: Price) {
    OnEveryPrefix(h, g => !ConfirmedFailure(g, level))
  }

  /** Over a whole run: nothing is ever pending exactly when no prefix is a confirmed failure. */
  lemma {:induction false} NeverPendingIffNeverConfirmed(s: Recovery, h: seq<Bar>)
    requires Fresh(s) && Increasing(h) && MinuteAligned(h)
    ensures NeverPending(s, h) <==> NeverConfirmed(h, FailureLevel(s))
  {
    if h == [] {
      assert h[..0] == h;
    } else {
      var g := h[..|h| - 1];
      NeverPendingIffNeverConfirmed(s, g);
      OnEveryPrefixExtends(h, e => ObserveAll(s, e).pendingExitAt == None);
      OnEveryPrefixExtends(h, e => !ConfirmedFailure(e, FailureLevel(s)));
      if NeverPending(s, g) {
        assert g[..|g|] == g;
        PendingExactlyOnConfirmedFailure(s, h);
      }
    }
  }

  // ---------------------------------------------------------------- the validator

  /** What the validator needs of a state beyond itself to survive another bar. */
  predicate Counted(s: Recovery) {
    s.barCount > 0 ==>
      && s.bucketAt.Some? && s.bucketAt.value % BUCKET == 0
      && s.lastBarAt == Some(s.bucketAt.value + (s.barCount - 1) * MINUTE)
  }

  /** Observing a later bar keeps the validator exactly when no decision is pending. A pending
      decision was made at the last bar of a quarter hour, so the later bar opens another count,
      which no decision can stay pending through. */
  lemma ObserveKeepsValidator(s: Recovery, bar: Bar)
    requires s.Valid() && Counted(s)
    requires s.lastBarAt.Some? ==> s.lastBarAt.value < bar.timestamp
    ensures Counted(Observe(s, bar))
    ensures Observe(s, bar).Valid() <==> s.pendingExitAt.None?
  {
    var r := Observe(s, bar);
    var bucket := BucketOf(bar.timestamp);
    if r.barCount > 1 {
      assert r.barCount == s.barCount + 1;
      assert bar.timestamp == bucket + (r.barCount - 1) * MINUTE;
    }
  }

  /** A bar inside the minute after a confirmation leaves a state its own validator refuses:
      the decision stays pending while the count is reset. */
  lemma UnalignedBarBreaksValidator(s: Recovery, bar: Bar)
    requires s.Valid() && Counted(s) && s.pendingExitAt.Some?
    requires s.lastBarAt.value < bar.timestamp < s.pendingExitAt.value <= s.lastBarAt.value + MINUTE
    ensures !Observe(s, bar).Valid()
  {
    ObserveKeepsValidator(s, bar);
  }
}
