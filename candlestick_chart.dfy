/**
 * The simpler live candlestick chart (src/components/CandlestickChart.jsx):
 * the same aggregation engine with zero volumes, a four-entry timeframe
 * table, no pause and no zoom, and a plot of every candle on an 800 x 400
 * canvas with 20-pixel bands.
 */
module CandlestickChart {
  import opened Common
  import opened Candles
  import opened Viewport
  import opened Messages

  /** `getTimeframeMs`: only 1m, 5m, 15m and 1h are known; every other id,
      "4h" and "1d" included, is one minute. */
  function TimeframeMs(tf: string): (ms: nat)
    ensures ms > 0
    ensures tf != "1m" && tf != "5m" && tf != "15m" && tf != "1h" ==> ms == 60000
  {
    if tf == "1m" then 60000
    else if tf == "5m" then 300000
    else if tf == "15m" then 900000
    else if tf == "1h" then 3600000
    else 60000
  }

  /** The page offers "4h" and "1d", which this chart buckets by the
      minute. */
  lemma LongTimeframesFallBack()
    ensures TimeframeMs("4h") == 60000 && TimeframeMs("1d") == 60000
    ensures TimeframeMs("5m") == 300000 && TimeframeMs("15m") == 900000 && TimeframeMs("1h") == 3600000
  {
  }

  /** A live update here never writes a volume. */
  function ZeroVolumeStep(price: real, stamp: int): (s: Step)
    ensures s.tick == Tick(price, stamp) && s.newVolume == 0.0 && s.volumeBump == 0.0
  {
    Step(Tick(price, stamp), 0.0, 0.0)
  }

  predicate ZeroVolume(cs: seq<Candle>) {
    forall i :: 0 <= i < |cs| ==> cs[i].volume == 0.0
  }

  predicate ZeroVolumeSteps(steps: seq<Step>) {
    forall i :: 0 <= i < |steps| ==> steps[i].newVolume == 0.0 && steps[i].volumeBump == 0.0
  }

  /** One zero-volume ingest keeps every volume at 0. */
  lemma IngestKeepsZeroVolume(cs: seq<Candle>, s: Step, width: int, maxCandles: nat)
    requires ZeroVolume(cs) && s.newVolume == 0.0 && s.volumeBump == 0.0
    ensures ZeroVolume(Ingest(cs, s, width, maxCandles))
  {
    if |cs| > 0 && OpensCandle(cs[|cs| - 1], s.tick, width) {
      IngestAppends(cs, s, width, maxCandles);
    }
  }

  /** Candles created by live ticks have volume 0 and keep it, whatever
      the stream of ticks. */
  lemma {:induction false} LiveCandlesHaveZeroVolume(cs: seq<Candle>, steps: seq<Step>, width: int, maxCandles: nat)
    requires ZeroVolume(cs) && ZeroVolumeSteps(steps)
    ensures ZeroVolume(IngestAll(cs, steps, width, maxCandles))
    decreases |steps|
  {
    if steps != [] {
      var prefix := steps[..|steps| - 1];
      assert ZeroVolumeSteps(prefix);
      LiveCandlesHaveZeroVolume(cs, prefix, width, maxCandles);
      IngestKeepsZeroVolume(IngestAll(cs, prefix, width, maxCandles), steps[|steps| - 1], width, maxCandles);
    }
  }

  const CanvasHeight: real := 400.0

  /** The pixel rows of one candle and its colour. */
  datatype Marks = Marks(openY: Option<real>, closeY: Option<real>, highY: Option<real>, lowY: Option<real>, bullish: bool)

  function MarksOf(c: Candle, r: PriceRange): Marks {
    Marks(PriceToY(c.open, r, CanvasHeight), PriceToY(c.close, r, CanvasHeight),
          PriceToY(c.high, r, CanvasHeight), PriceToY(c.low, r, CanvasHeight), IsBullish(c))
  }

  /** Both ends of the wick are drawn, high above (or level with) low,
      inside the bands [20, height - 20]. */
  predicate InsideBands(m: Marks) {
    && m.highY.Some? && m.lowY.Some?
    && 20.0 <= m.highY.value <= m.lowY.value <= CanvasHeight - 20.0
  }

  /** Well-formed candles over a non-flat price range. */
  predicate Drawable(cs: seq<Candle>) {
    |cs| > 0 && AllWellFormed(cs) && HighestPrice(cs) > LowestPrice(cs)
  }

  lemma MarksInsideBands(cs: seq<Candle>, i: nat)
    requires Drawable(cs) && i < |cs|
    ensures InsideBands(MarksOf(cs[i], PaddedRange(cs)))
  {
    var c, r := cs[i], PaddedRange(cs);
    CandlesDrawnInsideBands(cs, CanvasHeight, i);
    assert WellFormed(c);
    WickOrdered(c, r);
  }

  /** The wick's top is drawn no lower than its bottom. */
  lemma WickOrdered(c: Candle, r: PriceRange)
    requires WellFormed(c) && r.chartMax - r.chartMin > 0.0
    ensures PriceToY(c.high, r, CanvasHeight).value <= PriceToY(c.low, r, CanvasHeight).value
  {
    if c.low < c.high {
      PriceToYDecreasing(c.low, c.high, r, CanvasHeight);
    }
  }

  class Chart {
    const timeframe: string
    const maxCandles: nat
    var candles: seq<Candle>
    var currentPrice: Option<real>
    var isLoading: bool
    var error: Option<string>
    var lastMessage: Option<Message>

    constructor(timeframe: string, maxCandles: nat)
      ensures this.timeframe == timeframe && this.maxCandles == maxCandles
      ensures candles == [] && currentPrice.None? && isLoading && error.None? && lastMessage.None?
    {
      this.timeframe := timeframe;
      this.maxCandles := maxCandles;
      candles := [];
      currentPrice := None;
      isLoading := true;
      error := None;
      lastMessage := None;
    }

    /** The initial history request completes. */
    method FinishFetch(outcome: FetchOutcome)
      modifies this
      ensures candles == Seeded(old(candles), outcome)
      ensures error == (if outcome.Loaded? then old(error) else FetchError(outcome))
      ensures !isLoading && currentPrice == old(currentPrice) && lastMessage == old(lastMessage)
    {
      candles := Seeded(candles, outcome);
      if !outcome.Loaded? {
        error := FetchError(outcome);
      }
      isLoading := false;
    }

    /** A new frame arrives: a price update sets the current price and is
        folded into the series with zero volume; any other frame changes
        nothing else. The chart has no pause. */
    method OnMessage(m: Message, now: int)
      modifies this
      ensures lastMessage == Some(m)
      ensures if m.PriceUpdate? then
          && currentPrice == Some(m.price)
          && candles == Ingest(old(candles), ZeroVolumeStep(m.price, StampOf(m.timestamp, now)), TimeframeMs(timeframe), maxCandles)
        else currentPrice == old(currentPrice) && candles == old(candles)
      ensures ZeroVolume(old(candles)) ==> ZeroVolume(candles)
      ensures maxCandles > 0 && SeriesInvariant(old(candles), maxCandles) ==> SeriesInvariant(candles, maxCandles)
      ensures isLoading == old(isLoading) && error == old(error)
    {
      lastMessage := Some(m);
      if m.PriceUpdate? {
        var step := ZeroVolumeStep(m.price, StampOf(m.timestamp, now));
        if ZeroVolume(candles) {
          IngestKeepsZeroVolume(candles, step, TimeframeMs(timeframe), maxCandles);
        }
        if maxCandles > 0 && SeriesInvariant(candles, maxCandles) {
          IngestKeepsSeries(candles, step, TimeframeMs(timeframe), maxCandles);
        }
        Advance(m.price, step);
      }
    }

    /** `setCurrentPrice` and `updateCandles` for one step. */
    method Advance(price: real, step: Step)
      modifies this
      ensures currentPrice == Some(price)
      ensures candles == Ingest(old(candles), step, TimeframeMs(timeframe), maxCandles)
      ensures isLoading == old(isLoading) && error == old(error) && lastMessage == old(lastMessage)
    {
      currentPrice := Some(price);
      candles := Ingest(candles, step, TimeframeMs(timeframe), maxCandles);
    }

    /** The drawing loop: the pixel rows of every candle against the padded
        range of the whole series. For well-formed candles over a non-flat
        range, every wick runs top to bottom from high to low inside the
        bands [20, 380]. */
    method Plot() returns (marks: seq<Marks>)
      requires |candles| > 0
      ensures |marks| == |candles|
      ensures forall i :: 0 <= i < |candles| ==> marks[i] == MarksOf(candles[i], PaddedRange(candles))
      ensures Drawable(candles) ==> forall i :: 0 <= i < |marks| ==> InsideBands(marks[i])
    {
      var cs := candles;
      var r := PaddedRange(cs);
      marks := [];
      var i := 0;
      while i < |cs|
        invariant 0 <= i <= |cs|
        invariant |marks| == i
        invariant forall j :: 0 <= j < i ==> marks[j] == MarksOf(cs[j], r)
        invariant Drawable(cs) ==> forall j :: 0 <= j < i ==> InsideBands(marks[j])
      {
        if Drawable(cs) {
          MarksInsideBands(cs, i);
        }
        marks := marks + [MarksOf(cs[i], r)];
        i := i + 1;
      }
    }
  }
}
