/**
 * The OHLCV candle aggregation engine behind both live charts
 * (src/components/TradingViewChart.jsx and src/components/CandlestickChart.jsx).
 *
 * A price tick is folded into a bounded, time-ordered list of candles:
 * the first tick opens the first candle; a tick at least one bucket width
 * after the last candle's open time opens a new candle, after which only the
 * newest `maxCandles` are kept; every other tick (including one older than
 * the last candle) rewrites the last candle's high, low and close.
 *
 * The two charts differ only in the volume they write: TradingViewChart
 * draws it from `Math.random()`, CandlestickChart always writes 0. The
 * engine therefore takes the volume of a new candle and the volume added by
 * an in-bucket tick as inputs.
 */
module Candles {
  import opened Common

  /** Times are epoch milliseconds, prices and volumes exact reals. */
  datatype Candle = Candle(timestamp: int, open: real, high: real, low: real, close: real, volume: real)

  datatype Tick = Tick(price: real, time: int)

  /** One tick together with the volumes the chart writes for it. */
  datatype Step = Step(tick: Tick, newVolume: real, volumeBump: real)

  /** The OHLC ordering: low <= min(open, close) and max(open, close) <= high. */
  predicate WellFormed(c: Candle) {
    c.low <= c.open && c.low <= c.close && c.open <= c.high && c.close <= c.high
  }

  predicate AllWellFormed(cs: seq<Candle>) {
    forall i :: 0 <= i < |cs| ==> WellFormed(cs[i])
  }

  /** Open times strictly increase along the series. */
  predicate Increasing(cs: seq<Candle>) {
    forall i, j :: 0 <= i < j < |cs| ==> cs[i].timestamp < cs[j].timestamp
  }

  /** The colour test of both renderers: close >= open is drawn bullish. */
  predicate IsBullish(c: Candle)
    ensures !IsBullish(c) ==> c.close < c.open
    ensures WellFormed(c) && IsBullish(c) ==> c.low <= c.open <= c.close <= c.high
  {
    c.close >= c.open
  }

  /** The candle a tick opens: open = high = low = close = price. */
  function Opening(t: Tick, volume: real): (c: Candle)
    ensures WellFormed(c) && IsBullish(c)
    ensures c.timestamp == t.time && c.volume == volume
    ensures c.low == t.price == c.high
  {
    Candle(t.time, t.price, t.price, t.price, t.price, volume)
  }

  /** An in-bucket tick applied to the open candle: high and low widen to
      the price, close becomes the price, open and time stay. */
  function Absorb(c: Candle, price: real, volumeBump: real): (r: Candle)
    ensures r.timestamp == c.timestamp && r.open == c.open && r.close == price
    ensures r.low <= price <= r.high
    ensures c.high <= r.high && r.low <= c.low
    ensures r.high == c.high || r.high == price
    ensures r.low == c.low || r.low == price
    ensures r.volume == c.volume + volumeBump
    ensures WellFormed(c) ==> WellFormed(r)
  {
    c.(high := Max(c.high, price), low := Min(c.low, price), close := price,
       volume := c.volume + volumeBump)
  }

  /** The bucket test: the tick is at least one bucket width after the last
      candle's open time. A tick older than that candle gives a negative
      difference and so never opens a candle. */
  predicate OpensCandle(last: Candle, t: Tick, width: int)
    ensures width > 0 && t.time < last.timestamp + width ==> !OpensCandle(last, t, width)
    ensures OpensCandle(last, t, width) && width > 0 ==> t.time > last.timestamp
  {
    t.time - last.timestamp >= width
  }

  /** `updateCandles`: fold one tick into the series. */
  function Ingest(cs: seq<Candle>, s: Step, width: int, maxCandles: nat): (r: seq<Candle>)
    ensures |r| >= 1
    ensures r[|r| - 1].close == s.tick.price
    ensures r[|r| - 1].low <= s.tick.price <= r[|r| - 1].high
  {
    if |cs| == 0 then
      [Opening(s.tick, s.newVolume)]
    else
      var last := cs[|cs| - 1];
      if OpensCandle(last, s.tick, width) then
        KeepLast(cs + [Opening(s.tick, s.newVolume)], maxCandles)
      else
        cs[..|cs| - 1] + [Absorb(last, s.tick.price, s.volumeBump)]
  }

  /** The first tick opens a single candle at the tick's time. */
  lemma IngestIntoEmpty(s: Step, width: int, maxCandles: nat)
    ensures Ingest([], s, width, maxCandles) == [Candle(s.tick.time, s.tick.price, s.tick.price, s.tick.price, s.tick.price, s.newVolume)]
  {
  }

  /** A tick one bucket width or more after the last candle appends exactly
      one candle at the tick's time; the result is the newest `maxCandles`
      (all of them when `maxCandles` is 0, as `slice(-0)` is), and every
      older candle that survives is unchanged. */
  lemma IngestAppends(cs: seq<Candle>, s: Step, width: int, maxCandles: nat)
    requires |cs| > 0 && OpensCandle(cs[|cs| - 1], s.tick, width)
    ensures var r := Ingest(cs, s, width, maxCandles);
      && |r| == (if maxCandles == 0 || |cs| + 1 <= maxCandles then |cs| + 1 else maxCandles)
      && r[|r| - 1] == Opening(s.tick, s.newVolume)
      && forall i :: 0 <= i < |r| - 1 ==> r[i] == cs[|cs| - (|r| - 1) + i]
  {
    var r := Ingest(cs, s, width, maxCandles);
    var t := cs + [Opening(s.tick, s.newVolume)];
    assert r == KeepLast(t, maxCandles);
    assert r[|r| - 1] == t[|t| - 1];
    forall i | 0 <= i < |r| - 1
      ensures r[i] == cs[|cs| - (|r| - 1) + i]
    {
      assert r[i] == t[|t| - |r| + i];
    }
  }

  /** Any other tick, including one older than the last candle, keeps the
      length and every sealed candle, and only rewrites high, low, close
      (and volume) of the last candle. */
  lemma IngestUpdatesLast(cs: seq<Candle>, s: Step, width: int, maxCandles: nat)
    requires |cs| > 0 && !OpensCandle(cs[|cs| - 1], s.tick, width)
    ensures var r := Ingest(cs, s, width, maxCandles);
      var last, now := cs[|cs| - 1], r[|r| - 1];
      && |r| == |cs|
      && r[..|r| - 1] == cs[..|cs| - 1]
      && now.timestamp == last.timestamp && now.open == last.open
      && now.high == Max(last.high, s.tick.price)
      && now.low == Min(last.low, s.tick.price)
      && now.close == s.tick.price
      && now.volume == last.volume + s.volumeBump
  {
  }

  /** A late tick (older than the open candle) with a positive bucket width
      never opens a candle and never rewrites the sealed history. */
  lemma LateTickIsAbsorbed(cs: seq<Candle>, s: Step, width: int, maxCandles: nat)
    requires |cs| > 0 && width > 0 && s.tick.time < cs[|cs| - 1].timestamp
    ensures var r := Ingest(cs, s, width, maxCandles);
      |r| == |cs| && r[..|r| - 1] == cs[..|cs| - 1] && r[|r| - 1].timestamp == cs[|cs| - 1].timestamp
  {
  }

  /** The series never grows beyond `maxCandles` once it is within it. */
  lemma IngestBounded(cs: seq<Candle>, s: Step, width: int, maxCandles: nat)
    requires maxCandles > 0 && |cs| <= maxCandles
    ensures |Ingest(cs, s, width, maxCandles)| <= maxCandles
  {
  }

  /** Every ingest keeps the OHLC ordering of every candle. */
  lemma IngestWellFormed(cs: seq<Candle>, s: Step, width: int, maxCandles: nat)
    requires AllWellFormed(cs)
    ensures AllWellFormed(Ingest(cs, s, width, maxCandles))
  {
    if |cs| > 0 && OpensCandle(cs[|cs| - 1], s.tick, width) {
      IngestAppends(cs, s, width, maxCandles);
    }
  }

  lemma IncreasingSnoc(cs: seq<Candle>, c: Candle)
    requires Increasing(cs)
    requires |cs| > 0 ==> cs[|cs| - 1].timestamp < c.timestamp
    ensures Increasing(cs + [c])
  {
    var t := cs + [c];
    forall i, j | 0 <= i < j < |t|
      ensures t[i].timestamp < t[j].timestamp
    {
      if j == |t| - 1 && i < |cs| - 1 {
        assert cs[i].timestamp < cs[|cs| - 1].timestamp;
      }
    }
  }

  lemma IncreasingSuffix(t: seq<Candle>, n: nat)
    requires Increasing(t)
    ensures Increasing(KeepLast(t, n))
  {
    var k := |t| - |KeepLast(t, n)|;
    var r := t[k..];
    forall i, j | 0 <= i < j < |r|
      ensures r[i].timestamp < r[j].timestamp
    {
      assert r[i] == t[k + i] && r[j] == t[k + j];
    }
  }

  /** With a positive bucket width, open times stay strictly increasing. */
  lemma IngestIncreasing(cs: seq<Candle>, s: Step, width: int, maxCandles: nat)
    requires width > 0 && Increasing(cs)
    ensures Increasing(Ingest(cs, s, width, maxCandles))
  {
    if |cs| > 0 && OpensCandle(cs[|cs| - 1], s.tick, width) {
      IncreasingSnoc(cs, Opening(s.tick, s.newVolume));
      IncreasingSuffix(cs + [Opening(s.tick, s.newVolume)], maxCandles);
    } else if |cs| > 0 {
      var r := Ingest(cs, s, width, maxCandles);
      assert forall i :: 0 <= i < |r| ==> r[i].timestamp == cs[i].timestamp;
    }
  }

  /** The invariant of a live series: every candle well formed, open times
      strictly increasing, at most `maxCandles` candles. */
  predicate SeriesInvariant(cs: seq<Candle>, maxCandles: nat) {
    AllWellFormed(cs) && Increasing(cs) && |cs| <= maxCandles
  }

  /** One ingest keeps the series invariant. */
  lemma IngestKeepsSeries(cs: seq<Candle>, s: Step, width: int, maxCandles: nat)
    requires width > 0 && maxCandles > 0 && SeriesInvariant(cs, maxCandles)
    ensures SeriesInvariant(Ingest(cs, s, width, maxCandles), maxCandles)
  {
    IngestWellFormed(cs, s, width, maxCandles);
    IngestIncreasing(cs, s, width, maxCandles);
    IngestBounded(cs, s, width, maxCandles);
  }

  /** How the initial history request ended: a body whose `recentCandles`
      may be missing, a non-OK HTTP status, or a thrown fetch. */
  datatype FetchOutcome =
    | Loaded(recentCandles: Option<seq<Candle>>)
    | HttpError
    | FetchThrew

  /** The series after the initial history request: a non-empty
      `recentCandles` replaces it, anything else leaves it. */
  function Seeded(cs: seq<Candle>, outcome: FetchOutcome): (r: seq<Candle>)
    ensures r != cs ==> outcome.Loaded? && outcome.recentCandles.Some? && r == outcome.recentCandles.value != []
    ensures outcome.Loaded? && outcome.recentCandles.Some? && outcome.recentCandles.value != [] ==> r == outcome.recentCandles.value
  {
    if outcome.Loaded? && outcome.recentCandles.Some? && |outcome.recentCandles.value| > 0 then
      outcome.recentCandles.value
    else cs
  }

  /** The error message the history request leaves, if any. */
  function FetchError(outcome: FetchOutcome): (e: Option<string>)
    ensures e.None? <==> outcome.Loaded?
  {
    match outcome
    case Loaded(_) => None
    case HttpError => Some("Failed to fetch candlestick data")
    case FetchThrew => Some("Error loading candlestick data")
  }

  /** A live chart's series after a stream of ticks. */
  function IngestAll(cs: seq<Candle>, steps: seq<Step>, width: int, maxCandles: nat): (r: seq<Candle>)
    ensures steps != [] ==> |r| >= 1 && r[|r| - 1].close == steps[|steps| - 1].tick.price
    ensures steps == [] ==> r == cs
    decreases |steps|
  {
    if steps == [] then cs
    else Ingest(IngestAll(cs, steps[..|steps| - 1], width, maxCandles), steps[|steps| - 1], width, maxCandles)
  }

  /** Over any stream of ticks: the OHLC ordering and the time order hold
      for every candle, and the series stays within `maxCandles`. */
  lemma {:induction false} IngestAllInvariants(cs: seq<Candle>, steps: seq<Step>, width: int, maxCandles: nat)
    requires width > 0 && maxCandles > 0
    requires SeriesInvariant(cs, maxCandles)
    ensures SeriesInvariant(IngestAll(cs, steps, width, maxCandles), maxCandles)
    decreases |steps|
  {
    if steps != [] {
      var prefix := steps[..|steps| - 1];
      IngestAllInvariants(cs, prefix, width, maxCandles);
      IngestKeepsSeries(IngestAll(cs, prefix, width, maxCandles), steps[|steps| - 1], width, maxCandles);
    }
  }

  /** The last candle is bullish exactly when the latest price is at or
      above that candle's open. */
  lemma BullishAfterIngest(cs: seq<Candle>, s: Step, width: int, maxCandles: nat)
    ensures var r := Ingest(cs, s, width, maxCandles);
      IsBullish(r[|r| - 1]) <==> s.tick.price >= r[|r| - 1].open
  {
  }

  /** Three ticks at 0 s, 10 s and 70 s with a one-minute bucket: the third
      tick opens a second candle, so the first candle's low stays at 100. */
  lemma ThreeTickScenario(t0: int)
    ensures IngestAll([], [Step(Tick(100.0, t0), 0.0, 0.0), Step(Tick(105.0, t0 + 10000), 0.0, 0.0),
                          Step(Tick(98.0, t0 + 70000), 0.0, 0.0)], 60000, 200)
         == [Candle(t0, 100.0, 105.0, 100.0, 105.0, 0.0), Candle(t0 + 70000, 98.0, 98.0, 98.0, 98.0, 0.0)]
  {
    var s1, s2, s3 := Step(Tick(100.0, t0), 0.0, 0.0), Step(Tick(105.0, t0 + 10000), 0.0, 0.0),
                      Step(Tick(98.0, t0 + 70000), 0.0, 0.0);
    var steps := [s1, s2, s3];
    assert steps[..2][..1] == [s1] && steps[..2] == [s1, s2];
    assert [s1][..0] == [];
    assert IngestAll([], [], 60000, 200) == [];
    var c1 := IngestAll([], [s1], 60000, 200);
    assert c1 == Ingest([], s1, 60000, 200);
    assert c1 == [Candle(t0, 100.0, 100.0, 100.0, 100.0, 0.0)];
    var c2 := IngestAll([], [s1, s2], 60000, 200);
    assert c2 == [Candle(t0, 100.0, 105.0, 100.0, 105.0, 0.0)];
  }
}
