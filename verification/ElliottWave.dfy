/** Elliott Wave hypotheses: confirmed pivots, Wave 2 and Wave 4 candidates, and the published assessment. */
module ElliottWave {
  import opened Market

  datatype Daily = Daily(high: Price, low: Price, close: Price, volume: real) {
    predicate Valid() {
      low <= close <= high && volume >= 0.0
    }
  }

  predicate ValidBars(bars: seq<Daily>) {
    forall i :: 0 <= i < |bars| ==> bars[i].Valid()
  }

  // ---------------------------------------------------------------- pivots

  const RADIUS := 2

  datatype Side = Low | High

  /** How far a bar reaches on one side; a pivot reaches at least as far as its neighbours. */
  function Reach(bar: Daily, side: Side): real {
    if side.Low? then -(bar.low as real) else bar.high as real
  }

  predicate IsPivot(bars: seq<Daily>, side: Side, i: nat)
    requires RADIUS <= i < |bars| - RADIUS
  {
    && (forall j :: i - RADIUS <= j <= i + RADIUS ==> Reach(bars[j], side) <= Reach(bars[i], side))
    && (exists j :: i - RADIUS <= j <= i + RADIUS && Reach(bars[j], side) < Reach(bars[i], side))
  }

  /** The pivots before position `k`, in order. */
  function PivotsBefore(bars: seq<Daily>, side: Side, k: nat): (pivots: seq<nat>)
    requires k <= |bars| - RADIUS || k <= RADIUS
    ensures forall p :: 0 <= p < |pivots| ==> pivots[p] < k
  {
    if k <= RADIUS then []
    else
      var earlier := PivotsBefore(bars, side, k - 1);
      if IsPivot(bars, side, k - 1) then earlier + [k - 1] else earlier
  }

  /** Where the search for pivots ends: the last bars have no confirmed neighbours yet. */
  function Confirmed(bars: seq<Daily>): nat {
    if |bars| >= RADIUS then |bars| - RADIUS else 0
  }

  function Pivots(bars: seq<Daily>, side: Side): seq<nat> {
    PivotsBefore(bars, side, Confirmed(bars))
  }

  /** Exactly the confirmed pivots are found. */
  lemma {:induction false} PivotsAreConfirmed(bars: seq<Daily>, side: Side, k: nat, i: nat)
    requires k <= Confirmed(bars)
    ensures i in PivotsBefore(bars, side, k) <==> RADIUS <= i < k && IsPivot(bars, side, i)
    decreases k
  {
    if k > RADIUS {
      PivotsAreConfirmed(bars, side, k - 1, i);
    }
  }

  lemma {:induction false} PivotsIncrease(bars: seq<Daily>, side: Side, k: nat, p: nat, q: nat)
    requires k <= Confirmed(bars) && p < q < |PivotsBefore(bars, side, k)|
    ensures PivotsBefore(bars, side, k)[p] < PivotsBefore(bars, side, k)[q]
    decreases k
  {
    var earlier := PivotsBefore(bars, side, k - 1);
    if q < |earlier| {
      PivotsIncrease(bars, side, k - 1, p, q);
    } else {
      assert earlier[p] < k - 1;
    }
  }

  method ConfirmedPivots(bars: seq<Daily>) returns (lows: seq<nat>, highs: seq<nat>)
    ensures lows == Pivots(bars, Low) && highs == Pivots(bars, High)
  {
    lows, highs := [], [];
    var i := RADIUS;
    while i < |bars| - RADIUS
      invariant RADIUS <= i && (i <= |bars| - RADIUS || i == RADIUS)
      invariant lows == PivotsBefore(bars, Low, i) && highs == PivotsBefore(bars, High, i)
    {
      if IsPivot(bars, Low, i) {
        lows := lows + [i];
      }
      if IsPivot(bars, High, i) {
        highs := highs + [i];
      }
      i := i + 1;
    }
  }

  lemma PivotOfPrefix(bars: seq<Daily>, n: nat, side: Side, i: nat)
    requires n <= |bars| && RADIUS <= i < n - RADIUS
    ensures IsPivot(bars[..n], side, i) <==> IsPivot(bars, side, i)
  {
    assert forall j :: i - RADIUS <= j <= i + RADIUS ==> bars[..n][j] == bars[j];
  }

  lemma {:induction false} PivotsOfPrefixBefore(bars: seq<Daily>, n: nat, side: Side, k: nat)
    requires n <= |bars| && k <= Confirmed(bars[..n])
    ensures PivotsBefore(bars[..n], side, k) == PivotsBefore(bars, side, k)
    decreases k
  {
    if k > RADIUS {
      PivotsOfPrefixBefore(bars, n, side, k - 1);
      PivotOfPrefix(bars, n, side, k - 1);
    }
  }

  function Below(indices: seq<nat>, bound: int): seq<nat> {
    if indices == [] then []
    else
      var last := |indices| - 1;
      var earlier := Below(indices[..last], bound);
      if indices[last] < bound then earlier + [indices[last]] else earlier
  }

  lemma {:induction false} BelowAll(indices: seq<nat>, bound: int)
    requires forall p :: 0 <= p < |indices| ==> indices[p] < bound
    ensures Below(indices, bound) == indices
    decreases |indices|
  {
    if indices != [] {
      BelowAll(indices[..|indices| - 1], bound);
      assert indices == indices[..|indices| - 1] + [indices[|indices| - 1]];
    }
  }

  lemma BelowGrows(indices: seq<nat>, next: nat, bound: int)
    requires bound <= next
    ensures Below(indices + [next], bound) == Below(indices, bound)
  {
    assert (indices + [next])[..|indices|] == indices;
  }

  lemma {:induction false} BelowBefore(bars: seq<Daily>, side: Side, k: nat, m: nat)
    requires m <= k <= Confirmed(bars)
    ensures Below(PivotsBefore(bars, side, k), m) == PivotsBefore(bars, side, m)
    decreases k
  {
    if k == m {
      BelowAll(PivotsBefore(bars, side, m), m);
    } else if k <= RADIUS {
      assert PivotsBefore(bars, side, k) == PivotsBefore(bars, side, m) == [];
    } else {
      BelowBefore(bars, side, k - 1, m);
      BelowIgnoresNext(bars, side, k, m);
    }
  }

  lemma BelowIgnoresNext(bars: seq<Daily>, side: Side, k: nat, m: nat)
    requires m < k <= Confirmed(bars) && RADIUS < k
    ensures Below(PivotsBefore(bars, side, k), m) == Below(PivotsBefore(bars, side, k - 1), m)
  {
    BelowGrows(PivotsBefore(bars, side, k - 1), k - 1, m);
  }

  /** No look-ahead: the pivots known after `n` bars are those of the whole series with two bars after them. */
  lemma NoLookAhead(bars: seq<Daily>, n: nat, side: Side)
    requires n <= |bars|
    ensures Pivots(bars[..n], side) == Below(Pivots(bars, side), n - RADIUS)
  {
    var k := Confirmed(bars[..n]);
    PivotsOfPrefixBefore(bars, n, side, k);
    BelowBefore(bars, side, Confirmed(bars), k);
    if n < RADIUS {
      NoneBelow(Pivots(bars, side), n - RADIUS);
    }
  }

  lemma {:induction false} NoneBelow(indices: seq<nat>, bound: int)
    requires bound < 0
    ensures Below(indices, bound) == []
    decreases |indices|
  {
    if indices != [] {
      NoneBelow(indices[..|indices| - 1], bound);
    }
  }

  // ---------------------------------------------------------------- measurements

  /** The last index at or before `bound`. */
  function LastAtMost(indices: seq<nat>, bound: int): (found: Option<nat>)
    ensures found.Some? ==> found.value in indices && found.value <= bound
    ensures found.None? ==> forall p :: 0 <= p < |indices| ==> indices[p] > bound
  {
    if indices == [] then None
    else if indices[|indices| - 1] <= bound then Some(indices[|indices| - 1])
    else LastAtMost(indices[..|indices| - 1], bound)
  }

  /** The first of the lowest bars from `start` on. */
  function LowestFrom(bars: seq<Daily>, start: nat): (i: nat)
    requires start < |bars|
    ensures start <= i < |bars|
    ensures forall j :: start <= j < |bars| ==> bars[i].low <= bars[j].low
    ensures forall j :: start <= j < i ==> bars[i].low < bars[j].low
    decreases |bars| - start
  {
    if start == |bars| - 1 then start
    else
      var later := LowestFrom(bars, start + 1);
      if bars[start].low <= bars[later].low then start else later
  }

  function Abs(x: real): (r: real)
    ensures r >= 0.0 && (r == x || r == -x)
  {
    if x >= 0.0 then x else -x
  }

  function Max(a: real, b: real): real { if a >= b then a else b }

  function TrueRange(previous: Daily, current: Daily): (r: real)
    ensures current.Valid() ==> r >= 0.0
  {
    Max(current.high - current.low, Max(Abs(current.high - previous.close), Abs(current.low - previous.close)))
  }

  function RangeSum(bars: seq<Daily>): (sum: real)
    ensures ValidBars(bars) ==> sum >= 0.0
  {
    if |bars| < 2 then 0.0
    else RangeSum(bars[..|bars| - 1]) + TrueRange(bars[|bars| - 2], bars[|bars| - 1])
  }

  const PERIOD := 14

  /** The mean true range of the last fourteen steps. */
  function Atr(bars: seq<Daily>): (atr: real)
    requires |bars| >= 2
    ensures ValidBars(bars) ==> atr >= 0.0
  {
    var selected := if |bars| > PERIOD + 1 then bars[|bars| - PERIOD - 1..] else bars;
    RangeSum(selected) / (|selected| - 1) as real
  }

  function VolumeSum(bars: seq<Daily>): real {
    if bars == [] then 0.0 else VolumeSum(bars[..|bars| - 1]) + bars[|bars| - 1].volume
  }

  function MeanVolume(bars: seq<Daily>): real
    requires bars != []
  {
    VolumeSum(bars) / |bars| as real
  }

  function HighestHigh(bars: seq<Daily>, default: real): (h: real)
    ensures bars == [] ==> h == default
    ensures bars != [] ==> exists i :: 0 <= i < |bars| && h == bars[i].high as real
    ensures forall i :: 0 <= i < |bars| ==> bars[i].high <= h
  {
    if bars == [] then default
    else if |bars| == 1 then bars[0].high
    else
      var h := HighestHigh(bars[..|bars| - 1], default);
      assert forall i :: 0 <= i < |bars| - 1 ==> bars[..|bars| - 1][i] == bars[i];
      Max(h, bars[|bars| - 1].high)
  }

  function TriggerPrice(bars: seq<Daily>, correction: nat): real
    requires correction < |bars| && |bars| >= 5
  {
    var start := if correction >= |bars| - 5 then correction else |bars| - 5;
    HighestHigh(bars[start..|bars| - 1], bars[|bars| - 1].high)
  }

  lemma TriggerIsAHigh(bars: seq<Daily>, correction: nat) returns (i: nat)
    requires correction < |bars| && |bars| >= 5
    ensures correction <= i < |bars| && TriggerPrice(bars, correction) == bars[i].high as real
  {
    var start := if correction >= |bars| - 5 then correction else |bars| - 5;
    var prior := bars[start..|bars| - 1];
    if prior == [] {
      i := |bars| - 1;
    } else {
      var k :| 0 <= k < |prior| && HighestHigh(prior, bars[|bars| - 1].high) == prior[k].high as real;
      i := start + k;
    }
  }

  // ---------------------------------------------------------------- candidates

  datatype Phase = Wave2Ending | Wave3Active | Wave4Ending | Wave5Active

  /** A count and the bar its origin was read from. */
  datatype Wave = Wave(
    phase: Phase, score: int, originAt: nat, origin: real, wave1Peak: real, wave2Low: real, wave3Peak: Option<real>,
    correctionLow: real, retracement: real, entryLow: real, entryHigh: real, trigger: real,
    invalidation: real, targetLow: real, targetHigh: real, overlap: bool)

  /** The search at one peak: nothing, a division by zero, or a candidate. */
  datatype Found = Nothing | DivisionByZero | Candidate(wave: Wave)

  /** The levels as they are published, to four places. */
  function Published(w: Wave): Wave {
    w.(origin := Quantize4(w.origin), wave1Peak := Quantize4(w.wave1Peak), wave2Low := Quantize4(w.wave2Low),
       wave3Peak := if w.wave3Peak.Some? then Some(Quantize4(w.wave3Peak.value)) else None,
       correctionLow := Quantize4(w.correctionLow), entryLow := Quantize4(w.entryLow), entryHigh := Quantize4(w.entryHigh),
       trigger := Quantize4(w.trigger), invalidation := Quantize4(w.invalidation),
       targetLow := Quantize4(w.targetLow), targetHigh := Quantize4(w.targetHigh))
  }

  function Wave2Of(originAt: nat, origin: real, peak: real, low: real, retracement: real, trigger: real, close: real,
                   score: int): Wave
  {
    var impulse := peak - origin;
    Wave(if close > peak then Wave3Active else Wave2Ending, score, originAt, origin, peak, low, None, low, retracement,
         peak - impulse * 0.786, peak - impulse * 0.5, trigger, origin, low + impulse * 1.618, low + impulse * 2.0, false)
  }

  function Wave4Levels(s: Structure, low: real, retracement: real, trigger: real, close: real, score: int,
                       atr: real): Wave
  {
    Wave(if close > s.wave3Peak then Wave5Active else Wave4Ending, score,
         s.originAt, s.origin, s.wave1Peak, s.wave2Low, Some(s.wave3Peak), low, retracement,
         s.wave3Peak - s.Size3() * 0.5, s.wave3Peak - s.Size3() * 0.236, trigger,
         Max(s.origin, s.wave1Peak - atr * 0.15),
         s.origin + s.Size1() * 2.0, s.origin + s.Size1() * 2.618, low <= s.wave1Peak)
  }

  function Score2(retracement: real, recovered: bool, followed: bool, volume: bool): (score: int)
    ensures 45 <= score <= 95
  {
    45 + (if 0.50 <= retracement <= 0.786 then 20 else 0) + (if recovered then 15 else 0)
       + (if followed then 10 else 0) + (if volume then 5 else 0)
  }

  function Score4(retracement: real, followed: bool, overlap: bool): (score: int)
    ensures 45 <= score <= 100
  {
    60 + (if 0.236 <= retracement <= 0.500 then 20 else 0) + (if 0.30 <= retracement <= 0.45 then 10 else 0)
       + (if followed then 10 else 0) - (if overlap then 15 else 0)
  }

  function Wave2At(bars: seq<Daily>, lows: seq<nat>, peakAt: nat, atr: real): Found
    requires |bars| >= 5 && peakAt < |bars|
    requires Within(lows, bars)
  {
    var originAt := LastAtMost(lows, peakAt - 3);
    if originAt.None? || peakAt >= |bars| - 2 then Nothing
    else
      var origin: real, peak: real := bars[originAt.value].low, bars[peakAt].high;
      var impulse := peak - origin;
      if impulse < atr * 2.0 then Nothing
      else if impulse == 0.0 then DivisionByZero
      else
        var correctionAt := LowestFrom(bars, peakAt + 1);
        var low: real := bars[correctionAt].low;
        var retracement := (peak - low) / impulse;
        if low <= origin || !(0.45 <= retracement <= 0.86) then Nothing
        else
          var close: real := bars[|bars| - 1].close;
          var score := Score2(retracement, (close - low) / impulse >= 0.15, close >= bars[|bars| - 2].close,
                              bars[|bars| - 1].volume >= MeanVolume(bars[peakAt + 1..]));
          var targetHigh := low + impulse * 2.0;
          if close > targetHigh then Nothing
          else
            Candidate(Published(Wave2Of(
              originAt.value, origin, peak, low, retracement, TriggerPrice(bars, correctionAt), close, score)))
  }

  /** The four turning points of a 1-2-3 structure that ends in the peak at `wave3At`. */
  datatype Structure = Structure(originAt: nat, origin: real, wave1Peak: real, wave2Low: real, wave3Peak: real) {
    function Size1(): real { wave1Peak - origin }
    function Size3(): real { wave3Peak - wave2Low }
  }

  function StructureAt(bars: seq<Daily>, lows: seq<nat>, highs: seq<nat>, wave3At: nat): (s: Option<Structure>)
    requires wave3At < |bars|
    requires Within(lows, bars) && Within(highs, bars)
    ensures s.Some? ==> wave3At < |bars| - 2 && s.value.originAt < |bars| && s.value.origin == bars[s.value.originAt].low as real
  {
    var wave2At := LastAtMost(lows, wave3At - 3);
    if wave2At.None? || wave3At >= |bars| - 2 then None
    else
      var wave1At := LastAtMost(highs, wave2At.value - 3);
      if wave1At.None? then None
      else
        var originAt := LastAtMost(lows, wave1At.value - 3);
        if originAt.None? then None
        else
          Some(Structure(originAt.value, bars[originAt.value].low, bars[wave1At.value].high, bars[wave2At.value].low,
                         bars[wave3At].high))
  }

  function Wave4At(bars: seq<Daily>, lows: seq<nat>, highs: seq<nat>, wave3At: nat, atr: real): Found
    requires |bars| >= 5 && wave3At < |bars|
    requires Within(lows, bars) && Within(highs, bars)
  {
    match StructureAt(bars, lows, highs, wave3At)
    case None => Nothing
    case Some(s) => Wave4From(bars, s, wave3At, atr)
  }

  function Wave4From(bars: seq<Daily>, s: Structure, wave3At: nat, atr: real): Found
    requires |bars| >= 5 && wave3At < |bars| - 2
  {
    if s.Size1() < atr * 1.5 || s.Size3() < s.Size1() then Nothing
    else if s.Size1() == 0.0 then DivisionByZero
    else if !(0.45 <= (s.wave1Peak - s.wave2Low) / s.Size1() <= 0.86) then Nothing
    else if s.Size3() == 0.0 then DivisionByZero
    else Wave4Of(bars, s, LowestFrom(bars, wave3At + 1), atr)
  }

  function Wave4Of(bars: seq<Daily>, s: Structure, correctionAt: nat, atr: real): Found
    requires |bars| >= 5 && correctionAt < |bars| && s.Size3() != 0.0
  {
    var low: real := bars[correctionAt].low;
    var retracement := (s.wave3Peak - low) / s.Size3();
    var overlap := low <= s.wave1Peak;
    if !(0.20 <= retracement <= 0.55) then Nothing
    else if overlap && low < s.wave1Peak - atr * 0.15 then Nothing
    else
      var close: real := bars[|bars| - 1].close;
      var score := Score4(retracement, close >= bars[|bars| - 2].close, overlap);
      var targetHigh := s.origin + s.Size1() * 2.618;
      if close > targetHigh then Nothing
      else
        Candidate(Published(Wave4Levels(s, low, retracement, TriggerPrice(bars, correctionAt), close, score, atr)))
  }

  // ---------------------------------------------------------------- what a candidate satisfies

  /** Levels in order above the origin, the invalidation no higher than the correction, and a score out of a hundred. */
  predicate Coherent(w: Wave) {
    && w.origin <= w.invalidation <= w.correctionLow <= w.trigger
    && w.entryLow <= w.entryHigh
    && w.targetLow <= w.targetHigh
    && w.origin <= w.entryLow && w.origin <= w.targetLow
    && 45 <= w.score <= 100
    && 0.0 <= w.retracement <= 1.0
    && (w.wave3Peak.Some? <==> w.phase.Wave4Ending? || w.phase.Wave5Active?)
    && w.origin <= w.wave1Peak && w.origin <= w.wave2Low
    && (w.wave3Peak.Some? ==> w.origin <= w.wave3Peak.value)
  }

  /** Rounding every level keeps their order. */
  lemma RoundingKeepsOrder(w: Wave)
    requires Coherent(w)
    ensures Coherent(Published(w))
  {
    Quantize4Monotone(w.origin, w.invalidation);
    Quantize4Monotone(w.invalidation, w.correctionLow);
    Quantize4Monotone(w.correctionLow, w.trigger);
    Quantize4Monotone(w.entryLow, w.entryHigh);
    Quantize4Monotone(w.targetLow, w.targetHigh);
    Quantize4Monotone(w.origin, w.entryLow);
    Quantize4Monotone(w.origin, w.targetLow);
    Quantize4Monotone(w.origin, w.wave1Peak);
    Quantize4Monotone(w.origin, w.wave2Low);
    if w.wave3Peak.Some? {
      Quantize4Monotone(w.origin, w.wave3Peak.value);
    }
  }

  /** A Wave 2 count: invalidated at the origin, entered inside the impulse, targets beyond its peak. */
  lemma Wave2Order(originAt: nat, origin: real, peak: real, low: real, retracement: real, trigger: real, close: real, score: int)
    requires origin < low <= trigger && origin < peak && 0.0 <= retracement <= 1.0 && 45 <= score <= 100
    ensures var w := Wave2Of(originAt, origin, peak, low, retracement, trigger, close, score);
            Coherent(w) && w.invalidation == w.origin && w.entryHigh <= w.wave1Peak <= w.targetLow
  {
  }

  lemma TriggerAboveLow(bars: seq<Daily>, start: nat)
    requires ValidBars(bars) && start < |bars| && |bars| >= 5
    ensures var at := LowestFrom(bars, start); bars[at].low as real <= TriggerPrice(bars, at)
  {
    var i := TriggerIsAHigh(bars, LowestFrom(bars, start));
  }

  lemma Wave2IsCoherent(bars: seq<Daily>, lows: seq<nat>, peakAt: nat, atr: real)
    requires ValidBars(bars) && |bars| >= 5 && peakAt < |bars| && atr > 0.0
    requires Within(lows, bars)
    ensures var f := Wave2At(bars, lows, peakAt, atr);
            !f.DivisionByZero? && (f.Candidate? ==> Coherent(f.wave) && f.wave.invalidation == f.wave.origin)
  {
    var originAt := LastAtMost(lows, peakAt - 3);
    if originAt.Some? && peakAt < |bars| - 2 {
      var origin: real, peak: real := bars[originAt.value].low, bars[peakAt].high;
      TriggerAboveLow(bars, peakAt + 1);
      var at := LowestFrom(bars, peakAt + 1);
      var low: real, trigger := bars[at].low, TriggerPrice(bars, at);
      if origin < low && origin < peak {
        forall retracement: real, close: real, score: int | 0.0 <= retracement <= 1.0 && 45 <= score <= 100
          ensures var w := Wave2Of(originAt.value, origin, peak, low, retracement, trigger, close, score);
                  Coherent(Published(w)) && Published(w).invalidation == Published(w).origin
        {
          var w := Wave2Of(originAt.value, origin, peak, low, retracement, trigger, close, score);
          Wave2Order(originAt.value, origin, peak, low, retracement, trigger, close, score);
          RoundingKeepsOrder(w);
        }
      }
    }
  }

  /** A ratio between two bounds keeps the part between the same shares of the whole. */
  lemma PartOfWhole(part: real, whole: real, least: real, most: real)
    requires whole > 0.0 && least <= part / whole <= most
    ensures least * whole <= part <= most * whole
  {
    var q := part / whole;
    assert part == q * whole;
    Scaled(least, q, whole);
    Scaled(q, most, whole);
  }

  lemma Scaled(a: real, b: real, k: real)
    requires a <= b && k > 0.0
    ensures a * k <= b * k
  {
  }

  /** A Wave 4 count: the invalidation is always the Wave 1 peak less 0.15 average true ranges. */
  lemma Wave4Order(s: Structure, low: real, retracement: real, trigger: real, close: real, score: int, atr: real)
    requires atr > 0.0 && s.Size1() >= atr * 1.5 && s.Size3() >= s.Size1()
    requires s.wave2Low >= s.origin + s.Size1() * 0.14 && s.wave2Low <= s.wave1Peak
    requires low >= s.wave1Peak - atr * 0.15 && trigger >= low
    requires 0.0 <= retracement <= 1.0 && 45 <= score <= 100
    ensures var w := Wave4Levels(s, low, retracement, trigger, close, score, atr);
            Coherent(w) && w.invalidation == s.wave1Peak - atr * 0.15
  {
  }

  lemma Wave4IsCoherent(bars: seq<Daily>, lows: seq<nat>, highs: seq<nat>, wave3At: nat, atr: real)
    requires ValidBars(bars) && |bars| >= 5 && wave3At < |bars| && atr > 0.0
    requires Within(lows, bars) && Within(highs, bars)
    ensures var f := Wave4At(bars, lows, highs, wave3At, atr);
            && !f.DivisionByZero?
            && (f.Candidate? ==>
                  && Coherent(f.wave)
                  && f.wave.invalidation == Quantize4(StructureAt(bars, lows, highs, wave3At).value.wave1Peak - atr * 0.15))
  {
    var structure := StructureAt(bars, lows, highs, wave3At);
    if structure.Some? {
      Wave4FromIsCoherent(bars, structure.value, wave3At, atr);
    }
  }

  /** A Wave 2 that gives back at most 0.86 of Wave 1 stays above the origin. */
  lemma ShallowWave2(s: Structure)
    requires s.Size1() > 0.0 && 0.45 <= (s.wave1Peak - s.wave2Low) / s.Size1() <= 0.86
    ensures s.wave2Low >= s.origin + s.Size1() * 0.14 && s.wave2Low <= s.wave1Peak
  {
    PartOfWhole(s.wave1Peak - s.wave2Low, s.Size1(), 0.45, 0.86);
  }

  lemma Wave4FromIsCoherent(bars: seq<Daily>, s: Structure, wave3At: nat, atr: real)
    requires ValidBars(bars) && |bars| >= 5 && wave3At < |bars| - 2 && atr > 0.0
    ensures var f := Wave4From(bars, s, wave3At, atr);
            && !f.DivisionByZero?
            && (f.Candidate? ==> Coherent(f.wave) && f.wave.invalidation == Quantize4(s.wave1Peak - atr * 0.15))
  {
    if s.Size1() >= atr * 1.5 && s.Size3() >= s.Size1() {
      if 0.45 <= (s.wave1Peak - s.wave2Low) / s.Size1() <= 0.86 {
        ShallowWave2(s);
        TriggerAboveLow(bars, wave3At + 1);
        Wave4OfIsCoherent(bars, s, LowestFrom(bars, wave3At + 1), atr);
      }
    }
  }

  lemma Wave4OfIsCoherent(bars: seq<Daily>, s: Structure, correctionAt: nat, atr: real)
    requires |bars| >= 5 && correctionAt < |bars| && atr > 0.0
    requires bars[correctionAt].low as real <= TriggerPrice(bars, correctionAt)
    requires s.Size1() >= atr * 1.5 && s.Size3() >= s.Size1()
    requires s.wave2Low >= s.origin + s.Size1() * 0.14 && s.wave2Low <= s.wave1Peak
    ensures var f := Wave4Of(bars, s, correctionAt, atr);
            && !f.DivisionByZero?
            && (f.Candidate? ==> Coherent(f.wave) && f.wave.invalidation == Quantize4(s.wave1Peak - atr * 0.15))
  {
    var low: real := bars[correctionAt].low;
    var retracement, trigger := (s.wave3Peak - low) / s.Size3(), TriggerPrice(bars, correctionAt);
    if 0.20 <= retracement <= 0.55 && low >= s.wave1Peak - atr * 0.15 {
      forall close: real, score: int | 45 <= score <= 100
        ensures var w := Wave4Levels(s, low, retracement, trigger, close, score, atr);
                Coherent(Published(w)) && Published(w).invalidation == Quantize4(s.wave1Peak - atr * 0.15)
      {
        Wave4Order(s, low, retracement, trigger, close, score, atr);
        RoundingKeepsOrder(Wave4Levels(s, low, retracement, trigger, close, score, atr));
      }
    }
  }

  /** A share of the whole and a ratio compare alike. */
  lemma RatioCompares(part: real, whole: real, share: real)
    requires whole > 0.0
    ensures part / whole <= share <==> part <= share * whole
    ensures share <= part / whole <==> share * whole <= part
  {
    var q := part / whole;
    assert part == q * whole;
    if q <= share {
      Scaled(q, share, whole);
    } else {
      Scaled(share, q, whole);
      assert share * whole != q * whole;
    }
    if share <= q {
      Scaled(share, q, whole);
    } else {
      Scaled(q, share, whole);
      assert share * whole != q * whole;
    }
  }

  /** The retracements that earn a Wave 2 its bonus are exactly those whose low lies in the entry zone. */
  lemma Wave2BonusIsTheZone(originAt: nat, origin: real, peak: real, low: real, trigger: real, close: real, score: int)
    requires origin < peak
    ensures var retracement := (peak - low) / (peak - origin);
            var w := Wave2Of(originAt, origin, peak, low, retracement, trigger, close, score);
            0.50 <= retracement <= 0.786 <==> w.entryLow <= low <= w.entryHigh
  {
    RatioCompares(peak - low, peak - origin, 0.50);
    RatioCompares(peak - low, peak - origin, 0.786);
  }

  /** The same for Wave 4 and its shallower zone. */
  lemma Wave4BonusIsTheZone(s: Structure, low: real, trigger: real, close: real, score: int, atr: real)
    requires s.Size3() > 0.0
    ensures var retracement := (s.wave3Peak - low) / s.Size3();
            var w := Wave4Levels(s, low, retracement, trigger, close, score, atr);
            0.236 <= retracement <= 0.500 <==> w.entryLow <= low <= w.entryHigh
  {
    RatioCompares(s.wave3Peak - low, s.Size3(), 0.236);
    RatioCompares(s.wave3Peak - low, s.Size3(), 0.500);
  }

  /** Only a flat fortnight, with an average true range of zero, can divide by zero: then exactly the
      impulses of size zero do. */
  lemma Wave2DividesExactly(bars: seq<Daily>, lows: seq<nat>, peakAt: nat, atr: real)
    requires |bars| >= 5 && peakAt < |bars| && atr >= 0.0
    requires Within(lows, bars)
    ensures Wave2At(bars, lows, peakAt, atr).DivisionByZero?
            <==> atr == 0.0 && peakAt < |bars| - 2 && LastAtMost(lows, peakAt - 3).Some?
                 && bars[peakAt].high == bars[LastAtMost(lows, peakAt - 3).value].low
  {
  }

  lemma Wave4DividesExactly(bars: seq<Daily>, s: Structure, wave3At: nat, atr: real)
    requires |bars| >= 5 && wave3At < |bars| - 2 && atr >= 0.0
    ensures Wave4From(bars, s, wave3At, atr).DivisionByZero? <==> atr == 0.0 && s.Size1() == 0.0 && s.Size3() >= 0.0
  {
  }

  // ---------------------------------------------------------------- the assessment

  /** What the search for a fourth, or a second, wave finds at one peak. */
  function At(bars: seq<Daily>, lows: seq<nat>, highs: seq<nat>, atr: real, fourth: bool, peakAt: nat): Found
    requires |bars| >= 5 && peakAt < |bars| && Within(lows, bars) && Within(highs, bars)
  {
    if fourth then Wave4At(bars, lows, highs, peakAt, atr) else Wave2At(bars, lows, peakAt, atr)
  }

  predicate Within(indices: seq<nat>, bars: seq<Daily>) {
    forall p :: 0 <= p < |indices| ==> indices[p] < |bars|
  }

  /** What one search finds at every peak. */
  function Search(bars: seq<Daily>, lows: seq<nat>, highs: seq<nat>, atr: real, fourth: bool): seq<Found>
    requires |bars| >= 5 && Within(lows, bars) && Within(highs, bars)
  {
    seq(|highs|, i requires 0 <= i < |highs| => At(bars, lows, highs, atr, fourth, highs[i]))
  }

  /** The candidates among the findings, newest peak first; None is the arithmetic failure. */
  function Collected(fs: seq<Found>): Option<seq<Wave>> {
    if fs == [] then Some([])
    else
      match fs[|fs| - 1]
      case Nothing => Collected(fs[..|fs| - 1])
      case DivisionByZero => None
      case Candidate(w) => Prepend([w], Collected(fs[..|fs| - 1]))
  }

  /** One candidate search over the peaks. */
  method Candidates(bars: seq<Daily>, lows: seq<nat>, highs: seq<nat>, atr: real, fourth: bool)
    returns (found: Option<seq<Wave>>)
    requires |bars| >= 5 && Within(lows, bars) && Within(highs, bars)
    ensures found == Collected(Search(bars, lows, highs, atr, fourth))
  {
    found := CollectNewestFirst(Search(bars, lows, highs, atr, fourth));
  }

  /** The loop over the findings in reverse. */
  method CollectNewestFirst(fs: seq<Found>) returns (found: Option<seq<Wave>>)
    ensures found == Collected(fs)
  {
    var output: seq<Wave>, k: nat := [], |fs|;
    assert fs[..k] == fs;
    while k > 0
      invariant k <= |fs|
      invariant Prepend(output, Collected(fs[..k])) == Collected(fs)
    {
      k := k - 1;
      assert fs[..k + 1][..k] == fs[..k] && fs[..k + 1][k] == fs[k];
      if fs[k].DivisionByZero? {
        return None;
      }
      if fs[k].Candidate? {
        PrependTwice(output, [fs[k].wave], Collected(fs[..k]));
        output := output + [fs[k].wave];
      }
    }
    found := Some(output);
  }

  predicate CoherentFinding(f: Found) {
    !f.DivisionByZero? && (f.Candidate? ==> Coherent(f.wave))
  }

  lemma {:induction false} CollectedIsCoherent(fs: seq<Found>)
    requires forall i :: 0 <= i < |fs| ==> CoherentFinding(fs[i])
    ensures Collected(fs).Some? && forall i :: 0 <= i < |Collected(fs).value| ==> Coherent(Collected(fs).value[i])
    decreases |fs|
  {
    if fs != [] {
      CollectedIsCoherent(fs[..|fs| - 1]);
      assert CoherentFinding(fs[|fs| - 1]);
    }
  }

  /** Every candidate of a search is coherent, and with a positive average true range it never fails. */
  lemma SearchIsCoherent(bars: seq<Daily>, lows: seq<nat>, highs: seq<nat>, atr: real, fourth: bool)
    requires ValidBars(bars) && |bars| >= 5 && atr > 0.0 && Within(lows, bars) && Within(highs, bars)
    ensures var r := Collected(Search(bars, lows, highs, atr, fourth));
            r.Some? && forall i :: 0 <= i < |r.value| ==> Coherent(r.value[i])
  {
    var fs := Search(bars, lows, highs, atr, fourth);
    forall i | 0 <= i < |fs| ensures CoherentFinding(fs[i]) {
      if fourth {
        Wave4IsCoherent(bars, lows, highs, highs[i], atr);
      } else {
        Wave2IsCoherent(bars, lows, highs[i], atr);
      }
    }
    CollectedIsCoherent(fs);
  }

  /** The first of the best scored candidates outside `except`: what a stable sort by falling score puts first. */
  function Best(ws: seq<Wave>, except: Option<Phase>): (best: Option<nat>)
    ensures best.Some? ==> best.value < |ws| && Some(ws[best.value].phase) != except
    ensures best.Some? ==> forall i :: 0 <= i < |ws| && Some(ws[i].phase) != except ==> ws[i].score <= ws[best.value].score
    ensures best.Some? ==> forall i :: 0 <= i < best.value && Some(ws[i].phase) != except ==> ws[i].score < ws[best.value].score
    ensures best.None? ==> forall i :: 0 <= i < |ws| ==> Some(ws[i].phase) == except
  {
    if ws == [] then None
    else
      var last := |ws| - 1;
      var earlier := Best(ws[..last], except);
      if Some(ws[last].phase) == except then earlier
      else if earlier.None? || ws[earlier.value].score < ws[last].score then Some(last)
      else earlier
  }

  datatype Assessment = Assessment(
    primary: Option<Wave>, score: int, price: Price, alternative: Option<(Phase, int)>, hourlyConfirmation: bool)
  {
    /** The contract of a published assessment: complete, positive, ordered levels and a score out of a hundred. */
    predicate Valid() {
      && 0 <= score <= 100
      && (alternative.Some? ==> 0 <= alternative.value.1 <= 100)
      && (primary.Some? ==>
            && primary.value.origin > 0.0 && primary.value.wave1Peak > 0.0 && primary.value.wave2Low > 0.0
            && (primary.value.wave3Peak.Some? ==> primary.value.wave3Peak.value > 0.0)
            && primary.value.correctionLow > 0.0 && primary.value.invalidation > 0.0 && primary.value.trigger > 0.0
            && 0.0 < primary.value.entryLow <= primary.value.entryHigh
            && 0.0 < primary.value.targetLow <= primary.value.targetHigh
            && 0.0 <= Quantize4(primary.value.retracement) <= 1.0)
    }
  }

  predicate HourlyReversal(closes: seq<Price>) {
    |closes| >= 3 && closes[|closes| - 1] > closes[|closes| - 2]
  }

  /** How an evaluation ends: too little data to say anything, an arithmetic failure, or an assessment. */
  datatype Evaluation = NoBars | Failed | Assessed(assessment: Assessment)

  function Unresolved(bars: seq<Daily>): Evaluation {
    if bars == [] then NoBars else Assessed(Assessment(None, 15, bars[|bars| - 1].close, None, false))
  }

  /** The candidates of both searches, Wave 4 first. */
  function AllCandidates(bars: seq<Daily>): Option<seq<Wave>>
    requires |bars| >= 15
  {
    var lows, highs := Pivots(bars, Low), Pivots(bars, High);
    var fourth := Collected(Search(bars, lows, highs, Atr(bars), true));
    var second := Collected(Search(bars, lows, highs, Atr(bars), false));
    if fourth.None? || second.None? then None else Some(fourth.value + second.value)
  }

  function Ranked(bars: seq<Daily>, ws: seq<Wave>, hourlyCloses: seq<Price>): Evaluation
    requires bars != []
  {
    match Best(ws, None)
    case None => Unresolved(bars)
    case Some(i) =>
      var hourly := HourlyReversal(hourlyCloses);
      var score := ws[i].score + if hourly then 5 else 0;
      var rest := ws[..i] + ws[i + 1..];
      var other := Best(rest, Some(ws[i].phase));
      Assessed(Assessment(
        Some(ws[i]), if score <= 100 then score else 100, bars[|bars| - 1].close,
        if other.None? then None else Some((rest[other.value].phase, rest[other.value].score)), hourly))
  }

  function Evaluate(bars: seq<Daily>, hourlyCloses: seq<Price>): Evaluation {
    if |bars| < 15 then Unresolved(bars)
    else
      match AllCandidates(bars)
      case None => Failed
      case Some(ws) => Ranked(bars, ws, hourlyCloses)
  }

  method EvaluateContext(bars: seq<Daily>, hourlyCloses: seq<Price>) returns (e: Evaluation)
    ensures e == Evaluate(bars, hourlyCloses)
  {
    if |bars| < 15 {
      return Unresolved(bars);
    }
    var atr := Atr(bars);
    var lows, highs := ConfirmedPivots(bars);
    var fourth := Candidates(bars, lows, highs, atr, true);
    if fourth.None? {
      return Failed;
    }
    var second := Candidates(bars, lows, highs, atr, false);
    if second.None? {
      return Failed;
    }
    e := Ranked(bars, fourth.value + second.value, hourlyCloses);
  }

  lemma AllAreCoherent(bars: seq<Daily>)
    requires ValidBars(bars) && |bars| >= 15 && Atr(bars) > 0.0
    ensures AllCandidates(bars).Some?
    ensures forall i :: 0 <= i < |AllCandidates(bars).value| ==> Coherent(AllCandidates(bars).value[i])
  {
    var lows, highs := Pivots(bars, Low), Pivots(bars, High);
    SearchIsCoherent(bars, lows, highs, Atr(bars), true);
    SearchIsCoherent(bars, lows, highs, Atr(bars), false);
  }

  lemma RetracementStaysInUnit(x: real)
    requires 0.0 <= x <= 1.0
    ensures 0.0 <= Quantize4(x) <= 1.0
  {
    Quantize4Monotone(0.0, x);
    Quantize4Monotone(x, 1.0);
  }

  /** A coherent count can be published exactly when its origin is still positive after rounding. */
  lemma CoherentIsPublishable(w: Wave, score: int, price: Price, alternative: Option<(Phase, int)>, hourly: bool)
    requires Coherent(w) && 0 <= score <= 100 && (alternative.Some? ==> 0 <= alternative.value.1 <= 100)
    ensures Assessment(Some(w), score, price, alternative, hourly).Valid() <==> w.origin > 0.0
  {
    RetracementStaysInUnit(w.retracement);
  }

  lemma RestIsCoherent(ws: seq<Wave>, i: nat)
    requires i < |ws| && forall j :: 0 <= j < |ws| ==> Coherent(ws[j])
    ensures var rest := ws[..i] + ws[i + 1..]; forall j :: 0 <= j < |rest| ==> Coherent(rest[j])
  {
    var rest := ws[..i] + ws[i + 1..];
    forall j | 0 <= j < |rest| ensures Coherent(rest[j]) {
      assert rest[j] == if j < i then ws[j] else ws[j + 1];
    }
  }

  // ---------------------------------------------------------------- the origin of a count

  /** The published origin is the low of the bar it was read from, rounded. */
  predicate Rooted(bars: seq<Daily>, w: Wave) {
    w.originAt < |bars| && w.origin == Quantize4(bars[w.originAt].low)
  }

  predicate RootedFinding(bars: seq<Daily>, f: Found) {
    f.Candidate? ==> Rooted(bars, f.wave)
  }

  lemma FindingsAreRooted(bars: seq<Daily>, lows: seq<nat>, highs: seq<nat>, atr: real, fourth: bool, peakAt: nat)
    requires |bars| >= 5 && peakAt < |bars| && Within(lows, bars) && Within(highs, bars)
    ensures RootedFinding(bars, At(bars, lows, highs, atr, fourth, peakAt))
  {
  }

  lemma {:induction false} CollectedIsRooted(bars: seq<Daily>, fs: seq<Found>)
    requires Collected(fs).Some? && forall i :: 0 <= i < |fs| ==> RootedFinding(bars, fs[i])
    ensures forall i :: 0 <= i < |Collected(fs).value| ==> Rooted(bars, Collected(fs).value[i])
    decreases |fs|
  {
    if fs != [] {
      CollectedIsRooted(bars, fs[..|fs| - 1]);
      assert RootedFinding(bars, fs[|fs| - 1]);
    }
  }

  lemma SearchIsRooted(bars: seq<Daily>, lows: seq<nat>, highs: seq<nat>, atr: real, fourth: bool)
    requires |bars| >= 5 && Within(lows, bars) && Within(highs, bars)
    requires Collected(Search(bars, lows, highs, atr, fourth)).Some?
    ensures var ws := Collected(Search(bars, lows, highs, atr, fourth)).value;
            forall i :: 0 <= i < |ws| ==> Rooted(bars, ws[i])
  {
    forall i | 0 <= i < |highs| ensures RootedFinding(bars, Search(bars, lows, highs, atr, fourth)[i]) {
      FindingsAreRooted(bars, lows, highs, atr, fourth, highs[i]);
    }
    CollectedIsRooted(bars, Search(bars, lows, highs, atr, fourth));
  }

  lemma AllAreRooted(bars: seq<Daily>)
    requires |bars| >= 15 && AllCandidates(bars).Some?
    ensures forall i :: 0 <= i < |AllCandidates(bars).value| ==> Rooted(bars, AllCandidates(bars).value[i])
  {
    var lows, highs := Pivots(bars, Low), Pivots(bars, High);
    SearchIsRooted(bars, lows, highs, Atr(bars), true);
    SearchIsRooted(bars, lows, highs, Atr(bars), false);
  }

  /** The bar at the origin of the best candidate, if there is a candidate. */
  function ChosenOrigin(bars: seq<Daily>): Option<nat>
    requires |bars| >= 15
  {
    match AllCandidates(bars)
    case None => None
    case Some(ws) =>
      match Best(ws, None)
      case None => None
      case Some(i) => Some(ws[i].originAt)
  }

  /** The smallest price that does not round to zero. */
  const LEAST_PRICE := 0.00005

  lemma RoundsAboveZero(x: real)
    requires x > 0.0
    ensures Quantize4(x) > 0.0 <==> x >= LEAST_PRICE
  {
    var y := x * 10000.0;
    if x >= LEAST_PRICE {
      FloorMonotone(1.0, y + 0.5);
    } else {
      assert (y + 0.5).Floor == 0;
    }
  }

  /** With a positive average true range an evaluation always ends in an assessment. Its contract accepts
      it exactly when the low of the bar at the chosen origin does not round to zero. */
  lemma PublishedIsValid(bars: seq<Daily>, hourlyCloses: seq<Price>)
    requires ValidBars(bars) && |bars| >= 15 && Atr(bars) > 0.0
    ensures Evaluate(bars, hourlyCloses).Assessed?
    ensures var a := Evaluate(bars, hourlyCloses).assessment;
            && (a.primary.Some? <==> ChosenOrigin(bars).Some?)
            && (a.primary.Some? ==> Coherent(a.primary.value) && Rooted(bars, a.primary.value))
    ensures ChosenOrigin(bars).Some? ==> ChosenOrigin(bars).value < |bars|
    ensures Evaluate(bars, hourlyCloses).assessment.Valid() <==>
            (ChosenOrigin(bars).Some? ==> bars[ChosenOrigin(bars).value].low >= LEAST_PRICE)
  {
    AllAreCoherent(bars);
    AllAreRooted(bars);
    RankedIsValid(bars, AllCandidates(bars).value, hourlyCloses);
    if ChosenOrigin(bars).Some? {
      RoundsAboveZero(bars[ChosenOrigin(bars).value].low);
    }
  }

  /** So bars that all trade at half a ten-thousandth or more are never refused. */
  lemma OrdinaryPricesArePublished(bars: seq<Daily>, hourlyCloses: seq<Price>)
    requires ValidBars(bars) && |bars| >= 15 && Atr(bars) > 0.0
    requires forall i :: 0 <= i < |bars| ==> bars[i].low >= LEAST_PRICE
    ensures Evaluate(bars, hourlyCloses).Assessed? && Evaluate(bars, hourlyCloses).assessment.Valid()
  {
    PublishedIsValid(bars, hourlyCloses);
  }

  lemma RankedIsValid(bars: seq<Daily>, ws: seq<Wave>, hourlyCloses: seq<Price>)
    requires bars != [] && forall i :: 0 <= i < |ws| ==> Coherent(ws[i])
    ensures var e := Ranked(bars, ws, hourlyCloses);
            && e.Assessed?
            && (e.assessment.Valid() <==> (e.assessment.primary.Some? ==> e.assessment.primary.value.origin > 0.0))
            && (e.assessment.primary.Some? ==> Coherent(e.assessment.primary.value))
  {
    if Best(ws, None).Some? {
      var i := Best(ws, None).value;
      RestIsCoherent(ws, i);
      var a := Ranked(bars, ws, hourlyCloses).assessment;
      CoherentIsPublishable(ws[i], a.score, a.price, a.alternative, a.hourlyConfirmation);
    }
  }
}
