/**
 * Viewport arithmetic of the two chart components: the wheel-zoom clamp,
 * the visible window over the candle series and the hover hit test of
 * src/components/TradingViewChart.jsx, and the padded price range and
 * price-to-pixel mapping of src/components/CandlestickChart.jsx.
 */
module Viewport {
  import opened Common
  import opened Candles

  const MinZoom: real := 0.5
  const MaxZoom: real := 5.0

  /** `handleWheel`: a downward scroll (deltaY > 0) scales the zoom by 0.9,
      anything else by 1.1, and the result is clamped to [0.5, 5]. */
  function WheelZoom(prev: real, deltaY: real): (z: real)
    ensures MinZoom <= z <= MaxZoom
  {
    Max(MinZoom, Min(MaxZoom, prev * (if deltaY > 0.0 then 0.9 else 1.1)))
  }

  /** From a zoom inside the range, scrolling down never zooms in and
      scrolling up never zooms out; a step that stays inside the range is
      applied unclamped. */
  lemma WheelZoomDirection(prev: real, deltaY: real)
    requires MinZoom <= prev <= MaxZoom
    ensures deltaY > 0.0 ==> WheelZoom(prev, deltaY) <= prev
    ensures deltaY <= 0.0 ==> WheelZoom(prev, deltaY) >= prev
    ensures var f := if deltaY > 0.0 then 0.9 else 1.1;
      MinZoom <= prev * f <= MaxZoom ==> WheelZoom(prev, deltaY) == prev * f
  {
  }

  /** The bounds `[lo, hi)` that `candles.slice(startIndex, endIndex)`
      actually takes. */
  datatype Window = Window(lo: nat, hi: nat)

  /** Normalise `slice(start, end)` for an array of length `len`: both ends
      are clamped into `[0, len]`, and an end before the start gives
      nothing. JavaScript counts a negative argument from the end of the
      array instead; the charts only ever pass a non-negative start and an
      end no smaller than it, where the two agree. */
  function SliceBounds(len: nat, start: int, end: int): (w: Window)
    ensures w.lo <= w.hi <= len
    ensures 0 <= start <= end <= len ==> w == Window(start, end)
  {
    var lo := if start < 0 then 0 else if start > len then len else start;
    var hi := if end < lo then lo else if end > len then len else end;
    Window(lo, hi)
  }

  /** The visible window of the chart as written (lines 176-179):
      `floor(len / zoom)` candles from `max(0, floor(panOffset))`. */
  function VisibleWindowAsWritten(len: nat, zoom: real, panOffset: real): (w: Window)
    requires zoom > 0.0
    ensures w.lo <= w.hi <= len
    ensures w.hi - w.lo <= (len as real / zoom).Floor
  {
    var visible := (len as real / zoom).Floor;
    var start := if panOffset.Floor < 0 then 0 else panOffset.Floor;
    var end := if len < start + visible then len else start + visible;
    SliceBounds(len, start, end)
  }

  /** The chart never pans (`panOffset` stays 0), so the window is a prefix:
      the first `min(len, floor(len / zoom))` candles; at zoom 1 or below it
      is the whole series. */
  lemma UnpannedWindowIsPrefix(len: nat, zoom: real)
    requires MinZoom <= zoom <= MaxZoom
    ensures var w := VisibleWindowAsWritten(len, zoom, 0.0);
      && w.lo == 0
      && w.hi == (if len <= (len as real / zoom).Floor then len else (len as real / zoom).Floor)
      && (zoom <= 1.0 ==> w.hi == len)
  {
    QuotientAtLeast(len as real, zoom, 0.0);
    if zoom <= 1.0 && len > 0 {
      QuotientAtLeast(len as real, zoom, len as real);
      ScaleMonotone(zoom, 1.0, len as real);
    }
  }

  /** Unpanned, the window as written holds a candle exactly when the
      series has at least as many candles as the zoom factor. */
  lemma AsWrittenWindowNonEmpty(len: nat, zoom: real)
    requires zoom > 0.0
    ensures var w := VisibleWindowAsWritten(len, zoom, 0.0); w.lo < w.hi <==> zoom <= len as real
  {
    QuotientAtLeast(len as real, zoom, 1.0);
  }

  /** As written, a non-empty series can have an empty window: with fewer
      candles than the zoom factor, `floor(len / zoom)` is 0 and the draw
      effect returns before painting anything. One candle at zoom 1.1 (one
      wheel step up from the initial zoom) shows it. */
  lemma EmptyWindowAsWritten()
    ensures var w := VisibleWindowAsWritten(1, 1.1, 0.0); w.lo == w.hi
  {
    assert (1 as real / 1.1).Floor == 0;
  }

  /** The window with at least one candle whenever the series is non-empty
      and the pan offset is inside it. */
  function VisibleWindow(len: nat, zoom: real, panOffset: real): (w: Window)
    requires zoom > 0.0
    ensures w.lo <= w.hi <= len
    ensures len > 0 && panOffset.Floor < len ==> w.lo < w.hi
    ensures (len as real / zoom).Floor >= 1 ==> w == VisibleWindowAsWritten(len, zoom, panOffset)
  {
    var visible := if (len as real / zoom).Floor < 1 then 1 else (len as real / zoom).Floor;
    var start := if panOffset.Floor < 0 then 0 else panOffset.Floor;
    var end := if len < start + visible then len else start + visible;
    SliceBounds(len, start, end)
  }

  const CanvasWidth: real := 1200.0
  const ChartMargin: real := 60.0

  /** `handleMouseMove`: the candle under pixel column `x`, found by
      dividing the plot width (canvas width less two margins) evenly among
      all `len` candles of the series. */
  function HoveredIndex(x: real, len: nat): (r: Option<nat>)
    ensures r.Some? ==> r.value < len
  {
    if len == 0 then None
    else
      var chartWidth := CanvasWidth - ChartMargin * 2.0;
      var index := ((x - ChartMargin) / (chartWidth / len as real)).Floor;
      if 0 <= index < len then Some(index) else None
  }

  /** A candle is hovered exactly when the pointer is inside the plot
      columns [60, 1140), and then the pointer lies in that candle's slot. */
  lemma HoveredIndexSlot(x: real, len: nat)
    requires len > 0
    ensures HoveredIndex(x, len).Some? <==> ChartMargin <= x < CanvasWidth - ChartMargin
    ensures HoveredIndex(x, len).Some? ==>
      var i := HoveredIndex(x, len).value;
      var slot := (CanvasWidth - 2.0 * ChartMargin) / len as real;
      ChartMargin + i as real * slot <= x < ChartMargin + (i + 1) as real * slot
  {
    var slot := 1080.0 / len as real;
    assert slot * len as real == 1080.0;
    var q := (x - ChartMargin) / slot;
    var i := q.Floor;
    QuotientAtLeast(x - ChartMargin, slot, 0.0);
    QuotientAtLeast(x - ChartMargin, slot, len as real);
    QuotientAtLeast(x - ChartMargin, slot, i as real);
    QuotientAtLeast(x - ChartMargin, slot, i as real + 1.0);
  }

  /** Over a positive divisor, a quotient reaches `k` exactly when the
      dividend reaches `k` times the divisor. */
  lemma QuotientAtLeast(n: real, d: real, k: real)
    requires d > 0.0
    ensures n / d >= k <==> n >= k * d
  {
    var q := n / d;
    assert q * d == n;
    ScaleStrict(q, k, d);
  }

  lemma ScaleStrict(a: real, b: real, k: real)
    requires k > 0.0
    ensures a < b <==> a * k < b * k
  {
  }

  lemma ScaleMonotone(a: real, b: real, k: real)
    requires k > 0.0 && a <= b
    ensures a * k <= b * k
  {
  }

  /** `Math.min(...candles.flatMap(c => [c.high, c.low]))`. */
  function LowestPrice(cs: seq<Candle>): (m: real)
    requires |cs| > 0
    ensures forall i :: 0 <= i < |cs| ==> m <= cs[i].low && m <= cs[i].high
    ensures exists i :: 0 <= i < |cs| && (m == cs[i].low || m == cs[i].high)
    decreases |cs|
  {
    var c := cs[|cs| - 1];
    var here := Min(c.high, c.low);
    if |cs| == 1 then here else Min(LowestPrice(cs[..|cs| - 1]), here)
  }

  /** `Math.max(...candles.flatMap(c => [c.high, c.low]))`. */
  function HighestPrice(cs: seq<Candle>): (m: real)
    requires |cs| > 0
    ensures forall i :: 0 <= i < |cs| ==> cs[i].low <= m && cs[i].high <= m
    ensures exists i :: 0 <= i < |cs| && (m == cs[i].low || m == cs[i].high)
    decreases |cs|
  {
    var c := cs[|cs| - 1];
    var here := Max(c.high, c.low);
    if |cs| == 1 then here else Max(HighestPrice(cs[..|cs| - 1]), here)
  }

  datatype PriceRange = PriceRange(chartMin: real, chartMax: real)

  /** The drawn price range: the lowest and highest price among all highs
      and lows, each pushed out by 10% of their distance. */
  function PaddedRange(cs: seq<Candle>): (r: PriceRange)
    requires |cs| > 0
    ensures forall i :: 0 <= i < |cs| ==>
      r.chartMin <= cs[i].low <= r.chartMax && r.chartMin <= cs[i].high <= r.chartMax
    ensures r.chartMax - r.chartMin == 1.2 * (HighestPrice(cs) - LowestPrice(cs)) >= 0.0
  {
    var lo, hi := LowestPrice(cs), HighestPrice(cs);
    var padding := (hi - lo) * 0.1;
    PriceRange(lo - padding, hi + padding)
  }

  /** The y pixel of a price on a canvas `height` pixels tall with a
      20-pixel band top and bottom. With a zero range JavaScript divides
      by zero and gets a non-finite coordinate, which the canvas ignores:
      `None`. */
  function PriceToY(price: real, r: PriceRange, height: real): (y: Option<real>)
    ensures y.Some? <==> r.chartMax - r.chartMin != 0.0
  {
    var chartRange := r.chartMax - r.chartMin;
    if chartRange == 0.0 then None
    else Some(height - 20.0 - ((price - r.chartMin) / chartRange) * (height - 40.0))
  }

  /** With a non-empty range on a canvas taller than the bands, higher
      prices are drawn strictly higher up (smaller y), the bottom of the
      range lands on `height - 20` and the top on `20`. */
  lemma PriceToYDecreasing(p: real, q: real, r: PriceRange, height: real)
    requires r.chartMax - r.chartMin > 0.0 && height > 40.0
    ensures PriceToY(r.chartMin, r, height) == Some(height - 20.0)
    ensures PriceToY(r.chartMax, r, height) == Some(20.0)
    ensures p < q ==> PriceToY(q, r, height).value < PriceToY(p, r, height).value
  {
    var range := r.chartMax - r.chartMin;
    assert (r.chartMax - r.chartMin) / range == 1.0;
    if p < q {
      var a, b := (p - r.chartMin) / range, (q - r.chartMin) / range;
      assert a * range == p - r.chartMin && b * range == q - r.chartMin;
      assert a < b by { ScaleStrict(a, b, range); }
      ScaleStrict(a, b, height - 40.0);
    }
  }

  /** Every high and low of a non-flat series is drawn inside the band
      [20, height - 20]. */
  lemma CandlesDrawnInsideBands(cs: seq<Candle>, height: real, i: nat)
    requires |cs| > 0 && i < |cs| && height > 40.0
    requires HighestPrice(cs) > LowestPrice(cs)
    ensures var r := PaddedRange(cs);
      && 20.0 <= PriceToY(cs[i].low, r, height).value <= height - 20.0
      && 20.0 <= PriceToY(cs[i].high, r, height).value <= height - 20.0
  {
    var r := PaddedRange(cs);
    PriceToYDecreasing(r.chartMin, cs[i].low, r, height);
    PriceToYDecreasing(cs[i].low, r.chartMax, r, height);
    PriceToYDecreasing(r.chartMin, cs[i].high, r, height);
    PriceToYDecreasing(cs[i].high, r.chartMax, r, height);
  }
}
