/**
 * The TradingView-style live chart (src/components/TradingViewChart.jsx):
 * its candle series, fed by price updates while playing, the zoom state
 * driven by the wheel, the hover tooltip, and the indicators drawn over the
 * visible candles.
 *
 * The chart draws volumes from `Math.random()`; the model takes that draw
 * as the parameter `rand` in [0, 1). The clock read for an unstamped update
 * is the parameter `now`.
 */
module TradingViewChart {
  import opened Common
  import opened Candles
  import opened Indicators
  import opened Viewport
  import opened Messages

  /** `getTimeframeMs`: the bucket width of a timeframe id, one minute for
      any id it does not know. */
  function TimeframeMs(tf: string): (ms: nat)
    ensures ms > 0 && ms % 60000 == 0
    ensures tf != "1m" && tf != "5m" && tf != "15m" && tf != "1h" && tf != "4h" && tf != "1d" ==> ms == 60000
  {
    if tf == "1m" then 60000
    else if tf == "5m" then 300000
    else if tf == "15m" then 900000
    else if tf == "1h" then 3600000
    else if tf == "4h" then 14400000
    else if tf == "1d" then 86400000
    else 60000
  }

  /** The table: 1, 5, 15, 60, 240 and 1440 minutes. */
  lemma TimeframeTable()
    ensures TimeframeMs("1m") == 60000 && TimeframeMs("5m") == 300000
    ensures TimeframeMs("15m") == 900000 && TimeframeMs("1h") == 3600000
    ensures TimeframeMs("4h") == 14400000 && TimeframeMs("1d") == 86400000
  {
  }

  /** The step a live update makes: a new candle gets volume
      `rand * 1000 + 500`, an in-bucket tick adds `rand * 100 + 50`. */
  function LiveStep(price: real, stamp: int, rand: real): (s: Step)
    requires 0.0 <= rand < 1.0
    ensures s.tick == Tick(price, stamp)
    ensures 500.0 <= s.newVolume < 1500.0 && 50.0 <= s.volumeBump < 150.0
  {
    Step(Tick(price, stamp), rand * 1000.0 + 500.0, rand * 100.0 + 50.0)
  }

  /** `visibleData.map(c => c.close)`. */
  function Closes(cs: seq<Candle>): (r: seq<real>)
    ensures |r| == |cs| && forall i :: 0 <= i < |cs| ==> r[i] == cs[i].close
  {
    seq(|cs|, i requires 0 <= i < |cs| => cs[i].close)
  }

  /** The closing prices of well-formed candles lie between their lowest
      and highest price, so every indicator value does too. */
  lemma IndicatorsWithinPriceRange(cs: seq<Candle>, period: nat)
    requires |cs| > 0 && AllWellFormed(cs) && period >= 1
    ensures Within(Sma(Closes(cs), period), LowestPrice(cs), HighestPrice(cs))
    ensures Within(Ema(Closes(cs), period), LowestPrice(cs), HighestPrice(cs))
  {
    var lo, hi := LowestPrice(cs), HighestPrice(cs);
    assert Within(Closes(cs), lo, hi) by {
      forall i | 0 <= i < |cs|
        ensures lo <= Closes(cs)[i] <= hi
      {
        assert WellFormed(cs[i]);
      }
    }
    SmaWithinPriceRange(Closes(cs), period, lo, hi);
    EmaWithinPriceRange(Closes(cs), period, lo, hi);
  }

  class Chart {
    const timeframe: string
    const maxCandles: nat
    /** `panOffset` starts at 0 and nothing ever sets it. */
    const panOffset: real
    var candles: seq<Candle>
    var currentPrice: Option<real>
    var isLoading: bool
    var error: Option<string>
    var isPlaying: bool
    var zoom: real
    var hoveredCandle: Option<Candle>
    var showTooltip: bool
    var lastMessage: Option<Message>

    ghost predicate Valid()
      reads this
    {
      MinZoom <= zoom <= MaxZoom && panOffset == 0.0
    }

    /** The mounted chart: no candles, loading, playing, zoom 1. */
    constructor(timeframe: string, maxCandles: nat)
      ensures Valid()
      ensures this.timeframe == timeframe && this.maxCandles == maxCandles
      ensures candles == [] && currentPrice.None? && isLoading && error.None?
      ensures isPlaying && zoom == 1.0 && hoveredCandle.None? && !showTooltip && lastMessage.None?
    {
      this.timeframe := timeframe;
      this.maxCandles := maxCandles;
      panOffset := 0.0;
      candles := [];
      currentPrice := None;
      isLoading := true;
      error := None;
      isPlaying := true;
      zoom := 1.0;
      hoveredCandle := None;
      showTooltip := false;
      lastMessage := None;
    }

    /** The initial history request completes. */
    method FinishFetch(outcome: FetchOutcome)
      modifies this
      ensures candles == Seeded(old(candles), outcome)
      ensures error == (if outcome.Loaded? then old(error) else FetchError(outcome))
      ensures !isLoading
      ensures currentPrice == old(currentPrice) && isPlaying == old(isPlaying) && zoom == old(zoom)
      ensures hoveredCandle == old(hoveredCandle) && showTooltip == old(showTooltip) && lastMessage == old(lastMessage)
    {
      candles := Seeded(candles, outcome);
      if !outcome.Loaded? {
        error := FetchError(outcome);
      }
      isLoading := false;
    }

    /** The price-update effect, run whenever `lastMessage` or `isPlaying`
        changes: while playing, the latest price update sets the current
        price and is folded into the series. */
    method ApplyLatest(now: int, rand: real)
      requires 0.0 <= rand < 1.0
      modifies this
      ensures if old(lastMessage).Some? && old(lastMessage).value.PriceUpdate? && old(isPlaying) then
          var m := old(lastMessage).value;
          && currentPrice == Some(m.price)
          && candles == Ingest(old(candles), LiveStep(m.price, StampOf(m.timestamp, now), rand), TimeframeMs(timeframe), maxCandles)
        else currentPrice == old(currentPrice) && candles == old(candles)
      ensures maxCandles > 0 && SeriesInvariant(old(candles), maxCandles) ==> SeriesInvariant(candles, maxCandles)
      ensures isLoading == old(isLoading) && error == old(error) && isPlaying == old(isPlaying) && zoom == old(zoom)
      ensures hoveredCandle == old(hoveredCandle) && showTooltip == old(showTooltip) && lastMessage == old(lastMessage)
    {
      if lastMessage.Some? && lastMessage.value.PriceUpdate? && isPlaying {
        var m := lastMessage.value;
        var step := LiveStep(m.price, StampOf(m.timestamp, now), rand);
        if maxCandles > 0 && SeriesInvariant(candles, maxCandles) {
          IngestKeepsSeries(candles, step, TimeframeMs(timeframe), maxCandles);
        }
        Advance(m.price, step);
      }
    }

    /** `setCurrentPrice` and `updateCandles` for one step. */
    method Advance(price: real, step: Step)
      modifies this
      ensures currentPrice == Some(price)
      ensures candles == Ingest(old(candles), step, TimeframeMs(timeframe), maxCandles)
      ensures isLoading == old(isLoading) && error == old(error) && isPlaying == old(isPlaying) && zoom == old(zoom)
      ensures hoveredCandle == old(hoveredCandle) && showTooltip == old(showTooltip) && lastMessage == old(lastMessage)
    {
      currentPrice := Some(price);
      candles := Ingest(candles, step, TimeframeMs(timeframe), maxCandles);
    }

    /** A new frame arrives from the feed. */
    method OnMessage(m: Message, now: int, rand: real)
      requires 0.0 <= rand < 1.0
      modifies this
      ensures lastMessage == Some(m)
      ensures if m.PriceUpdate? && isPlaying then
          && currentPrice == Some(m.price)
          && candles == Ingest(old(candles), LiveStep(m.price, StampOf(m.timestamp, now), rand), TimeframeMs(timeframe), maxCandles)
        else currentPrice == old(currentPrice) && candles == old(candles)
      ensures maxCandles > 0 && SeriesInvariant(old(candles), maxCandles) ==> SeriesInvariant(candles, maxCandles)
      ensures isLoading == old(isLoading) && error == old(error) && isPlaying == old(isPlaying) && zoom == old(zoom)
      ensures hoveredCandle == old(hoveredCandle) && showTooltip == old(showTooltip)
    {
      lastMessage := Some(m);
      ApplyLatest(now, rand);
    }

    /** The play/pause button. Resuming re-runs the price-update effect,
        so the last price update received is applied once more. */
    method TogglePlaying(now: int, rand: real)
      requires 0.0 <= rand < 1.0
      modifies this
      ensures isPlaying == !old(isPlaying)
      ensures if isPlaying && lastMessage.Some? && lastMessage.value.PriceUpdate? then
          var m := lastMessage.value;
          && currentPrice == Some(m.price)
          && candles == Ingest(old(candles), LiveStep(m.price, StampOf(m.timestamp, now), rand), TimeframeMs(timeframe), maxCandles)
        else currentPrice == old(currentPrice) && candles == old(candles)
      ensures isLoading == old(isLoading) && error == old(error) && zoom == old(zoom) && lastMessage == old(lastMessage)
      ensures hoveredCandle == old(hoveredCandle) && showTooltip == old(showTooltip)
    {
      isPlaying := !isPlaying;
      ApplyLatest(now, rand);
    }

    /** `handleWheel`. */
    method HandleWheel(deltaY: real)
      requires Valid()
      modifies this
      ensures Valid()
      ensures zoom == WheelZoom(old(zoom), deltaY)
      ensures deltaY > 0.0 ==> zoom <= old(zoom)
      ensures deltaY <= 0.0 ==> zoom >= old(zoom)
      ensures candles == old(candles) && currentPrice == old(currentPrice) && isPlaying == old(isPlaying)
      ensures isLoading == old(isLoading) && error == old(error) && lastMessage == old(lastMessage)
      ensures hoveredCandle == old(hoveredCandle) && showTooltip == old(showTooltip)
    {
      WheelZoomDirection(zoom, deltaY);
      zoom := WheelZoom(zoom, deltaY);
    }

    /** The reset-zoom button. */
    method ResetZoom()
      requires Valid()
      modifies this
      ensures Valid() && zoom == 1.0
      ensures candles == old(candles) && currentPrice == old(currentPrice) && isPlaying == old(isPlaying)
      ensures isLoading == old(isLoading) && error == old(error) && lastMessage == old(lastMessage)
      ensures hoveredCandle == old(hoveredCandle) && showTooltip == old(showTooltip)
    {
      zoom := 1.0;
    }

    /** `handleMouseMove` at canvas column `x`: the tooltip shows exactly
        when the pointer is over the plot columns of a non-empty series,
        with the candle whose slot holds `x`; otherwise only the tooltip is
        hidden and the last hovered candle is kept. */
    method HandleMouseMove(x: real)
      modifies this
      ensures showTooltip <==> |candles| > 0 && ChartMargin <= x < CanvasWidth - ChartMargin
      ensures showTooltip ==> hoveredCandle == Some(candles[HoveredIndex(x, |candles|).value])
      ensures !showTooltip ==> hoveredCandle == old(hoveredCandle)
      ensures candles == old(candles) && currentPrice == old(currentPrice) && isPlaying == old(isPlaying) && zoom == old(zoom)
      ensures isLoading == old(isLoading) && error == old(error) && lastMessage == old(lastMessage)
    {
      if |candles| > 0 {
        HoveredIndexSlot(x, |candles|);
      }
      match HoveredIndex(x, |candles|)
      case Some(i) =>
        hoveredCandle := Some(candles[i]);
        showTooltip := true;
      case None =>
        showTooltip := false;
    }

    /** `handleMouseLeave`: the tooltip is hidden, the hovered candle kept. */
    method HandleMouseLeave()
      modifies this
      ensures !showTooltip && hoveredCandle == old(hoveredCandle)
      ensures candles == old(candles) && currentPrice == old(currentPrice) && isPlaying == old(isPlaying) && zoom == old(zoom)
      ensures isLoading == old(isLoading) && error == old(error) && lastMessage == old(lastMessage)
    {
      showTooltip := false;
    }

    /** The candles drawn: the corrected visible window over the series,
        which holds a candle whenever the series does. Whenever the window
        the draw effect computes holds a candle (the series has at least as
        many candles as the zoom factor), the two are the same. */
    function VisibleData(): (r: seq<Candle>)
      requires Valid()
      reads this
      ensures var w := VisibleWindow(|candles|, zoom, panOffset); r == candles[w.lo..w.hi]
      ensures |candles| > 0 ==> |r| > 0
      ensures zoom <= |candles| as real ==>
        var w := VisibleWindowAsWritten(|candles|, zoom, panOffset); r == candles[w.lo..w.hi]
    {
      AsWrittenWindowNonEmpty(|candles|, zoom);
      var w := VisibleWindow(|candles|, zoom, panOffset);
      candles[w.lo..w.hi]
    }

    /** The indicator lines: SMA 20, EMA 12 and EMA 26 of the visible
        closing prices. Over well-formed candles every value lies within
        the visible price range, so the lines stay inside the plot. */
    method Indicators() returns (sma20: seq<real>, ema12: seq<real>, ema26: seq<real>)
      requires Valid()
      ensures var closes := Closes(VisibleData());
        sma20 == Sma(closes, 20) && ema12 == Ema(closes, 12) && ema26 == Ema(closes, 26)
      ensures |candles| > 0 && AllWellFormed(candles) ==>
        var v := VisibleData();
        && Within(sma20, LowestPrice(v), HighestPrice(v))
        && Within(ema12, LowestPrice(v), HighestPrice(v))
        && Within(ema26, LowestPrice(v), HighestPrice(v))
    {
      var v := VisibleData();
      var closes := Closes(v);
      sma20 := CalculateSMA(closes, 20);
      ema12 := CalculateEMA(closes, 12);
      ema26 := CalculateEMA(closes, 26);
      if |candles| > 0 && AllWellFormed(candles) {
        var w := VisibleWindow(|candles|, zoom, panOffset);
        assert forall i :: 0 <= i < |v| ==> v[i] == candles[w.lo + i];
        IndicatorsWithinPriceRange(v, 20);
        IndicatorsWithinPriceRange(v, 12);
        IndicatorsWithinPriceRange(v, 26);
      }
    }
  }
}
