/** Vocabulary shared by every engine: instants, prices, one-minute bars and decimal rounding. */
module Market {

  /** Instants count microseconds, the resolution of the timestamps the engines compare. */
  type Time = int

  const MINUTE: int := 60_000_000

  type Price = x: real | x > 0.0 witness 1.0

  datatype Option<+T> = None | Some(value: T) {
    function Or(default: T): T {
      match this
      case None => default
      case Some(v) => v
    }
  }

  /** A one-minute OHLC candle, stamped with the minute it opens. `closing` is the session
      calendar's answer for that stamp: at or after the last minute of the regular session. */
  datatype Bar = Bar(timestamp: Time, open: Price, high: Price, low: Price, close: Price, closing: bool) {
    /** The contract every accepted bar satisfies. */
    predicate Valid() {
      low <= open <= high && low <= close <= high
    }

    /** The bar cut down to its opening print. */
    function AtOpen(): Bar {
      Bar(timestamp, open, open, open, open, closing)
    }
  }

  function MaxPrice(a: Price, b: Price): Price { if a >= b then a else b }

  function MinPrice(a: Price, b: Price): Price { if a <= b then a else b }

  function MaxTime(a: Time, b: Time): Time { if a >= b then a else b }

  /** Nearest integer, ties away from zero. */
  function RoundHalfUp(x: real): int {
    if x >= 0.0 then (x + 0.5).Floor else -((0.5 - x).Floor)
  }

  lemma RoundHalfUpNearest(x: real)
    ensures RoundHalfUp(x) as real - 0.5 <= x <= RoundHalfUp(x) as real + 0.5
  {
  }

  lemma RoundHalfUpMonotone(x: real, y: real)
    requires x <= y
    ensures RoundHalfUp(x) <= RoundHalfUp(y)
  {
    FloorMonotone(x + 0.5, y + 0.5);
    FloorMonotone(0.5 - y, 0.5 - x);
  }

  lemma FloorMonotone(x: real, y: real)
    requires x <= y
    ensures x.Floor <= y.Floor
  {
  }

  /** Four decimal places, half up. */
  function Quantize4(x: real): real { RoundHalfUp(x * 10000.0) as real / 10000.0 }

  lemma Quantize4Monotone(x: real, y: real)
    requires x <= y
    ensures Quantize4(x) <= Quantize4(y)
  {
    RoundHalfUpMonotone(x * 10000.0, y * 10000.0);
  }

  /** Move from `entry` to `price`, counted in ten-thousandths of a percent. */
  function Percent(price: Price, entry: Price): int {
    RoundHalfUp((price / entry - 1.0) * 1000000.0)
  }

  lemma PercentMonotone(p: Price, q: Price, entry: Price)
    requires p <= q
    ensures Percent(p, entry) <= Percent(q, entry)
  {
    QuotientMonotone(p, q, entry);
    RoundHalfUpMonotone((p / entry - 1.0) * 1000000.0, (q / entry - 1.0) * 1000000.0);
  }

  lemma QuotientMonotone(p: real, q: real, d: real)
    requires p <= q && d > 0.0
    ensures p / d <= q / d
  {
  }

  lemma PercentOfEntryIsZero(entry: Price)
    ensures Percent(entry, entry) == 0
  {
  }

  /** The sign of a result never contradicts the side of the entry it exits on. */
  lemma PercentSign(price: Price, entry: Price)
    ensures price >= entry ==> Percent(price, entry) >= 0
    ensures price <= entry ==> Percent(price, entry) <= 0
  {
    PercentOfEntryIsZero(entry);
    if price >= entry {
      PercentMonotone(entry, price, entry);
    }
    if price <= entry {
      PercentMonotone(price, entry, entry);
    }
  }

  /** Upper-casing, the normalisation the stores apply to the symbols they are asked for. The white
      space they also strip cannot occur in a symbol. */
  function Upper(symbol: string): (r: string)
    ensures |r| == |symbol|
  {
    seq(|symbol|, i requires 0 <= i < |symbol| =>
      if 'a' <= symbol[i] <= 'z' then symbol[i] - 'a' + 'A' else symbol[i])
  }

  lemma UpperIdempotent(symbol: string)
    ensures Upper(Upper(symbol)) == Upper(symbol)
  {
  }

  /** What has been read so far, followed by the rest; a failure of the rest is a failure of the whole. */
  function Prepend<T>(xs: seq<T>, rest: Option<seq<T>>): (all: Option<seq<T>>)
    ensures xs == [] ==> all == rest
    ensures rest == Some([]) ==> all == Some(xs)
  {
    match rest
    case None => None
    case Some(more) =>
      assert xs == [] ==> xs + more == more;
      assert more == [] ==> xs + more == xs;
      Some(xs + more)
  }

  lemma PrependTwice<T>(a: seq<T>, b: seq<T>, rest: Option<seq<T>>)
    ensures Prepend(a, Prepend(b, rest)) == Prepend(a + b, rest)
  {
    if rest.Some? {
      assert a + (b + rest.value) == (a + b) + rest.value;
    }
  }
}
