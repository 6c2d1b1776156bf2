/** Concrete daily bars on which an Elliott Wave evaluation fails, or is refused by its own contract. */
module ElliottWaveWitnesses {
  import opened Market
  import opened ElliottWave

  // ---------------------------------------------------------------- reading a series

  /** The last pivot at or before a bound, told from the pivots around it. */
  lemma {:induction false} LastPivotIs(bars: seq<Daily>, side: Side, k: nat, bound: int, x: nat)
    requires k <= Confirmed(bars) && RADIUS <= x < k && x <= bound && IsPivot(bars, side, x)
    requires forall i :: x < i < k && i <= bound ==> !IsPivot(bars, side, i)
    ensures LastAtMost(PivotsBefore(bars, side, k), bound) == Some(x)
    decreases k
  {
    var earlier := PivotsBefore(bars, side, k - 1);
    assert IsPivot(bars, side, k - 1) ==> (earlier + [k - 1])[..|earlier|] == earlier;
    if k - 1 != x {
      LastPivotIs(bars, side, k - 1, bound, x);
    }
  }

  lemma {:induction false} NoPivot(bars: seq<Daily>, side: Side, k: nat)
    requires k <= Confirmed(bars) && forall i :: RADIUS <= i < k ==> !IsPivot(bars, side, i)
    ensures PivotsBefore(bars, side, k) == []
    decreases k
  {
    if k > RADIUS {
      NoPivot(bars, side, k - 1);
    }
  }

  lemma {:induction false} OnlyPivot(bars: seq<Daily>, side: Side, k: nat, x: nat)
    requires k <= Confirmed(bars) && RADIUS <= x < k && IsPivot(bars, side, x)
    requires forall i :: RADIUS <= i < k && i != x ==> !IsPivot(bars, side, i)
    ensures PivotsBefore(bars, side, k) == [x]
    decreases k
  {
    if k - 1 == x {
      NoPivot(bars, side, x);
    } else {
      OnlyPivot(bars, side, k - 1, x);
    }
  }

  /** A step of a bounded size, and of size zero only if the bound is zero. */
  predicate StepWithin(bars: seq<Daily>, i: nat, most: real)
    requires 0 < i < |bars|
  {
    TrueRange(bars[i - 1], bars[i]) <= most && (most > 0.0 ==> TrueRange(bars[i - 1], bars[i]) > 0.0)
  }

  function Total(n: nat, most: real): real {
    if n == 0 then 0.0 else Total(n - 1, most) + most
  }

  lemma {:induction false} TotalIsProduct(n: nat, most: real)
    ensures Total(n, most) == n as real * most
  {
    if n > 0 {
      TotalIsProduct(n - 1, most);
    }
  }

  ghost predicate StepsWithin(bars: seq<Daily>, start: nat, most: real) {
    forall i :: start < i < |bars| ==> StepWithin(bars, i, most)
  }

  lemma {:induction false} RangeSumBounds(bars: seq<Daily>, most: real)
    requires bars != [] && ValidBars(bars) && StepsWithin(bars, 0, most)
    ensures 0.0 <= RangeSum(bars) <= Total(|bars| - 1, most)
    ensures most > 0.0 && |bars| >= 2 ==> RangeSum(bars) > 0.0
    decreases |bars|
  {
    if |bars| > 1 {
      var earlier := bars[..|bars| - 1];
      assert StepWithin(bars, |bars| - 1, most);
      forall i | 0 < i < |earlier| ensures StepWithin(earlier, i, most) {
        assert StepWithin(bars, i, most);
      }
      RangeSumBounds(earlier, most);
    }
  }

  lemma AtrBounds(bars: seq<Daily>, most: real)
    requires |bars| > PERIOD && ValidBars(bars) && StepsWithin(bars, |bars| - PERIOD - 1, most)
    ensures 0.0 <= Atr(bars) <= most && (most > 0.0 ==> Atr(bars) > 0.0)
  {
    var start := |bars| - PERIOD - 1;
    var selected := bars[start..];
    forall i | 0 < i < |selected| ensures StepWithin(selected, i, most) {
      assert StepWithin(bars, start + i, most);
    }
    RangeSumBounds(selected, most);
    TotalIsProduct(PERIOD, most);
    assert start == 0 ==> selected == bars;
    assert Atr(bars) == RangeSum(selected) / 14.0;
  }

  predicate Tops(bars: seq<Daily>, side: Side, i: nat, j: nat)
    requires i < |bars| && j < |bars|
  {
    Reach(bars[j], side) < Reach(bars[i], side)
  }

  /** A pivot is told from its four neighbours. */
  lemma PivotByNeighbours(bars: seq<Daily>, side: Side, i: nat)
    requires RADIUS <= i < |bars| - RADIUS
    ensures IsPivot(bars, side, i) <==>
            && !Tops(bars, side, i - 2, i) && !Tops(bars, side, i - 1, i)
            && !Tops(bars, side, i + 1, i) && !Tops(bars, side, i + 2, i)
            && (Tops(bars, side, i, i - 2) || Tops(bars, side, i, i - 1)
                || Tops(bars, side, i, i + 1) || Tops(bars, side, i, i + 2))
  {
    assert Reach(bars[i], side) <= Reach(bars[i], side);
  }

  function Flat(price: Price): Daily {
    Daily(price, price, price, 0.0)
  }

  // ---------------------------------------------------------------- a division by zero

  function StepPrice(i: nat): Price {
    if i < 2 then 2.0 else if i < 7 then 1.0 else if i < 11 then 0.5 else if i < 14 then 1.0 else 0.5
  }

  /** Thirty bars without a range that step down, up and down again and then stand still. */
  function Steps(): (bars: seq<Daily>)
    ensures |bars| == 30 && ValidBars(bars) && forall i :: 0 <= i < 30 ==> bars[i] == Flat(StepPrice(i))
  {
    seq(30, i requires 0 <= i < 30 => Flat(StepPrice(i)))
  }

  lemma StepPivots(bars: seq<Daily>)
    requires bars == Steps()
    ensures IsPivot(bars, Low, 3) && IsPivot(bars, Low, 10)
    ensures IsPivot(bars, High, 6) && IsPivot(bars, High, 13) && !IsPivot(bars, High, 7)
  {
    PivotByNeighbours(bars, Low, 3);
    PivotByNeighbours(bars, Low, 10);
    PivotByNeighbours(bars, High, 6);
    PivotByNeighbours(bars, High, 7);
    PivotByNeighbours(bars, High, 13);
  }

  lemma StepRange(bars: seq<Daily>)
    requires bars == Steps()
    ensures Atr(bars) == 0.0
  {
    forall i | 16 <= i < 30 ensures StepWithin(bars, i, 0.0) {
      assert bars[i - 1] == Flat(0.5) && bars[i] == Flat(0.5);
    }
    AtrBounds(bars, 0.0);
  }

  /** An origin and a peak at one price make an impulse of size zero, in both searches. */
  lemma SecondWaveDivides(bars: seq<Daily>)
    requires bars == Steps()
    ensures Wave2At(bars, Pivots(bars, Low), 6, Atr(bars)).DivisionByZero?
  {
    StepPivots(bars);
    StepRange(bars);
    LastPivotIs(bars, Low, Confirmed(bars), 3, 3);
    Wave2DividesExactly(bars, Pivots(bars, Low), 6, Atr(bars));
  }

  lemma StepStructure(bars: seq<Daily>)
    requires bars == Steps()
    ensures StructureAt(bars, Pivots(bars, Low), Pivots(bars, High), 13) == Some(Structure(3, 1.0, 1.0, 0.5, 1.0))
  {
    StepPivots(bars);
    LastPivotIs(bars, Low, Confirmed(bars), 10, 10);
    LastPivotIs(bars, High, Confirmed(bars), 7, 6);
    LastPivotIs(bars, Low, Confirmed(bars), 3, 3);
  }

  lemma FourthWaveDivides(bars: seq<Daily>)
    requires bars == Steps()
    ensures Wave4At(bars, Pivots(bars, Low), Pivots(bars, High), 13, Atr(bars)).DivisionByZero?
  {
    StepStructure(bars);
    StepRange(bars);
    Wave4DividesExactly(bars, Structure(3, 1.0, 1.0, 0.5, 1.0), 13, Atr(bars));
  }

  lemma {:induction false} OneDivisionFails(fs: seq<Found>, i: nat)
    requires i < |fs| && fs[i].DivisionByZero?
    ensures Collected(fs) == None
    decreases |fs|
  {
    if i < |fs| - 1 {
      OneDivisionFails(fs[..|fs| - 1], i);
    }
  }

  /** One division by zero in either search fails the evaluation. */
  lemma EvaluationFails(bars: seq<Daily>, hourlyCloses: seq<Price>, fourth: bool, peakAt: nat)
    requires |bars| >= 15 && peakAt in Pivots(bars, High)
    requires At(bars, Pivots(bars, Low), Pivots(bars, High), Atr(bars), fourth, peakAt).DivisionByZero?
    ensures Evaluate(bars, hourlyCloses) == Failed
  {
    var highs := Pivots(bars, High);
    var i :| 0 <= i < |highs| && highs[i] == peakAt;
    OneDivisionFails(Search(bars, Pivots(bars, Low), highs, Atr(bars), fourth), i);
  }

  /** The evaluation of these bars ends in the arithmetic failure, and either search alone is enough. */
  lemma StepsFail(bars: seq<Daily>, hourlyCloses: seq<Price>)
    requires bars == Steps()
    ensures ValidBars(bars) && Evaluate(bars, hourlyCloses) == Failed
    ensures At(bars, Pivots(bars, Low), Pivots(bars, High), Atr(bars), false, 6).DivisionByZero?
    ensures At(bars, Pivots(bars, Low), Pivots(bars, High), Atr(bars), true, 13).DivisionByZero?
  {
    StepPivots(bars);
    SecondWaveDivides(bars);
    FourthWaveDivides(bars);
    PivotsAreConfirmed(bars, High, Confirmed(bars), 6);
    EvaluationFails(bars, hourlyCloses, false, 6);
  }

  // ---------------------------------------------------------------- a refused assessment

  /** Prices in hundred-thousandths: a first wave from 1 to 9 that gives back five eighths. */
  function TinyPrice(i: nat): Price {
    0.00001 *
    (if i < 3 then 3.0 - i as real
     else if i < 7 then 2.0 * i as real - 3.0
     else if i < 9 then 21.0 - 2.0 * i as real
     else if i < 13 then i as real - 5.0
     else 0.5 * i as real + 1.0)
  }

  function TinyWave(): (bars: seq<Daily>)
    ensures |bars| == 15 && ValidBars(bars) && forall i :: 0 <= i < 15 ==> bars[i] == Flat(TinyPrice(i))
  {
    seq(15, i requires 0 <= i < 15 => Flat(TinyPrice(i)))
  }

  lemma TinyLows(bars: seq<Daily>)
    requires bars == TinyWave()
    ensures LastAtMost(Pivots(bars, Low), 3) == Some(2)
  {
    PivotByNeighbours(bars, Low, 2);
    PivotByNeighbours(bars, Low, 3);
    LastPivotIs(bars, Low, Confirmed(bars), 3, 2);
  }

  lemma TinyHighs(bars: seq<Daily>)
    requires bars == TinyWave()
    ensures Pivots(bars, High) == [6]
  {
    PivotByNeighbours(bars, High, 6);
    forall i | 2 <= i < 13 && i != 6 ensures !IsPivot(bars, High, i) {
      PivotByNeighbours(bars, High, i);
      assert if 7 <= i < 9 then Tops(bars, High, i - 1, i) else Tops(bars, High, i + 1, i);
    }
    OnlyPivot(bars, High, Confirmed(bars), 6);
  }

  lemma TinyRange(bars: seq<Daily>)
    requires bars == TinyWave()
    ensures 0.0 < Atr(bars) <= 0.00002
  {
    forall i | 0 < i < 15 ensures StepWithin(bars, i, 0.00002) {
    }
    AtrBounds(bars, 0.00002);
  }

  lemma TinySecondWave(bars: seq<Daily>) returns (w: Wave)
    requires bars == TinyWave()
    ensures Wave2At(bars, Pivots(bars, Low), 6, Atr(bars)) == Candidate(w) && w.originAt == 2
  {
    TinyLows(bars);
    TinyRange(bars);
    assert LowestFrom(bars, 7) == 9;
    assert (bars[6].high - bars[9].low) / (bars[6].high - bars[2].low) == 0.625;
    w := Wave2At(bars, Pivots(bars, Low), 6, Atr(bars)).wave;
  }

  lemma TinyFourthWave(bars: seq<Daily>)
    requires bars == TinyWave()
    ensures Wave4At(bars, Pivots(bars, Low), Pivots(bars, High), 6, Atr(bars)) == Nothing
  {
    TinyLows(bars);
    TinyHighs(bars);
    assert LastAtMost([6], -1) == None;
  }

  lemma TinyCandidates(bars: seq<Daily>) returns (w: Wave)
    requires bars == TinyWave()
    ensures AllCandidates(bars) == Some([w]) && w.originAt == 2
  {
    var lows, highs := Pivots(bars, Low), Pivots(bars, High);
    TinyHighs(bars);
    TinyFourthWave(bars);
    w := TinySecondWave(bars);
    assert Search(bars, lows, highs, Atr(bars), true) == [Nothing];
    assert Search(bars, lows, highs, Atr(bars), false) == [Candidate(w)];
    assert Collected([Nothing]) == Some([]);
    assert Collected([Candidate(w)]) == Some([w]);
    assert [] + [w] == [w];
  }

  /** A sound count of a share that trades at a hundred-thousandth is refused by its own contract. */
  lemma TinyWaveIsRefused(bars: seq<Daily>, hourlyCloses: seq<Price>)
    requires bars == TinyWave()
    ensures Evaluate(bars, hourlyCloses).Assessed? && !Evaluate(bars, hourlyCloses).assessment.Valid()
  {
    var w := TinyCandidates(bars);
    TinyRange(bars);
    assert ChosenOrigin(bars) == Some(2);
    PublishedIsValid(bars, hourlyCloses);
  }
}
