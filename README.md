# Trading dashboard core, modelled in Dafny

This project models the logic of a React trading dashboard for SOL/USDT. The
dashboard runs in a browser against an exchange-backed server. These parts
are modelled:

- **The shared price-feed connection** (`WebSocketContext`): connecting, the
  subscription frames sent on open, reconnecting with exponential backoff
  after an abnormal close, fan-out of each frame to subscribers, sending,
  and disconnecting.
- **The two live candlestick charts**:
  - `TradingViewChart` has a six-entry timeframe table, random volumes,
    play/pause, wheel zoom, a hover tooltip and SMA/EMA indicators.
  - `CandlestickChart` has a four-entry table, zero volumes, and a plot of
    every candle.
  - Both fold each price tick into a bounded series of OHLC candles.
- **The price-movement tracker** (`PriceMovement`): a bounded history of
  prices, a windowed average analysis, the trend, and threshold alerts.
- **The dashboard page** (`Dashboard`): price history, price change,
  balances, and the auto-trading toggle.
- **The order form** (`TradingInterface`): message handling, order
  validation and request shaping, what happens once the exchange answers,
  the order value estimate, and change colours.
- **The trading log page** (`TradingLogs`): a newest-first capped log, the
  icon and colour tables, the toggle, and the manual entries.

Shared pieces have their own modules:

- `Common`: `Option`, and JavaScript's `slice(-n)` and
  `[x, ...prev.slice(0, n - 1)]` buffers.
- `Messages`: the parsed feed frames, the balance payload and its
  `getBalanceDetails` reading, and the auto-trade status.
- `Candles`: the candle aggregation engine.
- `Indicators`: SMA and EMA, as loop methods proved against their
  definitions.
- `Viewport`: zoom clamp, visible window, hit test, padded price range and
  price-to-pixel map.

Each component is a class, and its fields are the component's state and
refs. Every handler and effect is a method with `modifies this`. Its
`ensures` gives the new state, usually through a `Snapshot()` equal to a
pure transition function of the old one. The properties are proved as
lemmas about those functions and as invariants the methods keep.

Inputs from outside the program are parameters:

- `now`: the clock read by `new Date()`.
- `rand`: the `Math.random()` draw, in [0, 1).
- `creationFails`: whether the `WebSocket` constructor throws.
- `failing`: which subscribers throw on a frame.
- The outcome of each HTTP request, as a datatype.

Timestamps are integer milliseconds. Prices are exact reals.

Where the code and its design description disagree, the model follows the
code:

- In the three-tick example (prices 100, 105, 98 at 0 s, 10 s and 70 s on
  a one-minute bucket), the first candle's low stays 100. The tick at 70 s
  opens a second candle.
- A new candle opens at the tick's own time, not on the bucket grid.
- A manual `connect` does not reset the reconnect counter. Only `onopen`
  resets it.
- The visible slice can be empty (see Findings).
- The price-movement alert compares the change *rounded by `toFixed(2)`*
  with the threshold, and picks its direction from that rounded value. The
  trend uses the unrounded change.

## Model

| member | source | states |
|---|---|---|
| Common.KeepLast | src/components/TradingViewChart.jsx:103-104 | `slice(-n)` keeps the newest `min(len, n)` elements (all of them when `n` is 0), in order, as the tail of the input |
| Common.AppendKeepLast | src/components/Dashboard.jsx:35-41 | appending then keeping the newest `n`: the new element is last, the length is `min(len+1, n)`, and the survivors are the newest of the old buffer in order |
| Common.PrependCapped | src/components/TradingLogs.jsx:97-100 | `[x, ...prev.slice(0, cap-1)]` has length `min(len+1, cap)`, `x` first, then the old entries in order |
| Candles.Opening | src/components/TradingViewChart.jsx:75-83 | the candle a tick opens has open = high = low = close = price at the tick's time, is well formed and bullish |
| Candles.Absorb | src/components/TradingViewChart.jsx:105-114 | an in-bucket tick keeps open and time, sets close, only widens high/low to include the price, adds the volume bump, and keeps the OHLC ordering |
| Candles.IsBullish | src/components/TradingViewChart.jsx:249 | a candle is drawn bullish exactly when close >= open, so a bearish one closes below its open, and a well-formed bullish one has low <= open <= close <= high |
| Candles.OpensCandle | src/components/TradingViewChart.jsx:86-91 | a tick less than one bucket width after the last candle's open time, a late one included, never opens a candle; one that does is strictly later |
| Candles.Ingest | src/components/TradingViewChart.jsx:73-117 | after any tick the series is non-empty and its last candle closes at the price, with the price inside its high/low |
| Candles.IngestIntoEmpty | src/components/TradingViewChart.jsx:75-83 | the first tick gives exactly one candle, OHLC all equal to the price, at the tick's time |
| Candles.IngestAppends | src/components/TradingViewChart.jsx:86-104 | a tick one bucket width or more after the last candle appends a fresh candle at the tick time; the length becomes `min(old+1, maxCandles)` and the surviving older candles are unchanged and in order |
| Candles.IngestUpdatesLast | src/components/TradingViewChart.jsx:105-114 | any other tick keeps the length and every earlier candle and changes only the last one, as `Absorb` does |
| Candles.LateTickIsAbsorbed | src/components/TradingViewChart.jsx:86-91 | a tick older than the open candle never opens a candle: it is absorbed into the last one |
| Candles.IngestBounded | src/components/TradingViewChart.jsx:103-104 | a series within `maxCandles` stays within it |
| Candles.IngestWellFormed | src/components/TradingViewChart.jsx:76-112 | every ingest keeps `low <= min(open, close)` and `max(open, close) <= high` for every candle |
| Candles.IngestIncreasing | src/components/TradingViewChart.jsx:86-104 | with a positive bucket width, candle open times stay strictly increasing |
| Candles.IngestKeepsSeries | src/components/TradingViewChart.jsx:73-117 | one ingest keeps the whole series invariant (well formed, increasing, bounded) |
| Candles.IngestAllInvariants | src/components/TradingViewChart.jsx:63-117 | over any stream of ticks, the series invariant holds throughout |
| Candles.IngestAll | src/components/TradingViewChart.jsx:63-117 | after a non-empty stream of ticks the last candle closes at the last tick's price; an empty stream leaves the series as it was |
| Candles.Seeded | src/components/TradingViewChart.jsx:43-47 | the loaded history replaces the series only when it is present and non-empty; otherwise the series is kept |
| Candles.FetchError | src/components/TradingViewChart.jsx:48-54 | the history request leaves no error exactly when it succeeded; otherwise the failed-status or the thrown-request message |
| Candles.BullishAfterIngest | src/components/CandlestickChart.jsx:155 | the last candle is drawn bullish exactly when its close (the latest price) is at least its open |
| Candles.ThreeTickScenario | src/components/TradingViewChart.jsx:73-117 | ticks 100, 105, 98 at 0 s, 10 s, 70 s on a one-minute bucket give two candles, (100, 105, 100, 105) then (98, 98, 98, 98) |
| Indicators.Sma | src/components/TradingViewChart.jsx:132-140 | the moving average has no value with fewer prices than the period, and otherwise one value per full window |
| Indicators.Ema | src/components/TradingViewChart.jsx:142-161 | the EMA has as many values as the SMA of the same period |
| Indicators.CalculateSMA | src/components/TradingViewChart.jsx:132-140 | the loop computes exactly the moving average: no value with fewer prices than the period, else `len-period+1` values, value j the mean of `prices[j..j+period)` |
| Indicators.CalculateEMA | src/components/TradingViewChart.jsx:142-161 | the loop computes exactly the EMA: the first value is the mean of the first `period` prices, and each later one is `p*k + prev*(1-k)` with `k = 2/(period+1)` |
| Indicators.SmaWithinPriceRange | src/components/TradingViewChart.jsx:132-140 | every SMA value lies between the lowest and highest price |
| Indicators.EmaWithinPriceRange | src/components/TradingViewChart.jsx:142-161 | every EMA value lies between the lowest and highest price |
| Indicators.EmaStartsAtSma | src/components/TradingViewChart.jsx:146-157 | the first EMA equals the first SMA, and each later EMA blends the price with the previous EMA |
| Indicators.FlatSeriesAverages | src/components/TradingViewChart.jsx:132-161 | on a constant series both averages equal that constant |
| Indicators.WorkedExamples | src/components/TradingViewChart.jsx:132-161 | SMA([10,20,30,40],2) = [15,25,35] and EMA([10,20,30],2) = [15,25] |
| Viewport.WheelZoom | src/components/TradingViewChart.jsx:432-436 | the zoom after a wheel event always lies in [0.5, 5] |
| Viewport.WheelZoomDirection | src/components/TradingViewChart.jsx:432-436 | from a zoom in range, scrolling down never zooms in and scrolling up never zooms out; the result is the clamped product |
| Viewport.SliceBounds | src/components/TradingViewChart.jsx:179 | `slice(start, end)` on `len` elements selects `lo <= hi <= len`, and exactly `[start, end)` when that is in range |
| Viewport.VisibleWindowAsWritten | src/components/TradingViewChart.jsx:176-179 | the drawn window is always a within-bounds slice of at most `floor(len/zoom)` candles |
| Viewport.UnpannedWindowIsPrefix | src/components/TradingViewChart.jsx:176-179 | with no panning the window is the first `min(len, floor(len/zoom))` candles |
| Viewport.AsWrittenWindowNonEmpty | src/components/TradingViewChart.jsx:176-181 | unpanned, the window as written holds a candle exactly when the series has at least as many candles as the zoom factor; otherwise the draw effect returns after clearing the canvas |
| Viewport.EmptyWindowAsWritten | src/components/TradingViewChart.jsx:176-179 | one candle at zoom 1.1 gives an empty window (see Findings) |
| Viewport.VisibleWindow | src/components/TradingViewChart.jsx:176-179 | corrected window: within bounds, non-empty for a non-empty series, and equal to the original whenever that holds at least one candle |
| Viewport.HoveredIndex | src/components/TradingViewChart.jsx:413-416 | a hovered index always names an existing candle |
| Viewport.HoveredIndexSlot | src/components/TradingViewChart.jsx:413-425 | a candle is hovered exactly when the pointer is within the plot columns [60, 1140), and it is the candle whose slot holds the pointer |
| Viewport.PaddedRange | src/components/CandlestickChart.jsx:126-135 | the padded range contains every high and low and is 1.2 times the raw spread |
| Viewport.LowestPrice | src/components/CandlestickChart.jsx:126-127 | `Math.min` over every high and low: no high or low lies below it, and it is one of them |
| Viewport.HighestPrice | src/components/CandlestickChart.jsx:126-128 | `Math.max` over every high and low: no high or low lies above it, and it is one of them |
| Viewport.PriceToY | src/components/CandlestickChart.jsx:149-152 | a price has a pixel row exactly when the range is non-zero |
| Viewport.PriceToYDecreasing | src/components/CandlestickChart.jsx:149-152 | with a positive range, the bottom of the range maps to `height-20`, the top to `20`, and higher prices map strictly higher |
| Viewport.CandlesDrawnInsideBands | src/components/CandlestickChart.jsx:126-152 | every high and low of a non-flat series is drawn between rows 20 and `height-20` |
| TradingViewChart.TimeframeMs | src/components/TradingViewChart.jsx:119-129 | the bucket width is always a positive whole number of minutes, and one minute for unknown ids |
| TradingViewChart.TimeframeTable | src/components/TradingViewChart.jsx:119-129 | 1m/5m/15m/1h/4h/1d map to 60000/300000/900000/3600000/14400000/86400000 |
| TradingViewChart.LiveStep | src/components/TradingViewChart.jsx:82-112 | a new candle's volume lies in [500, 1500), and an in-bucket bump in [50, 150) |
| TradingViewChart.IndicatorsWithinPriceRange | src/components/TradingViewChart.jsx:216-235 | over well-formed candles, every SMA and EMA of the closes lies within the candles' price range |
| TradingViewChart.Closes | src/components/TradingViewChart.jsx:217 | the closing prices of the visible candles, one per candle and in order |
| TradingViewChart.Chart.constructor | src/components/TradingViewChart.jsx:22-30 | empty series, loading, playing, zoom 1, no tooltip |
| TradingViewChart.Chart.FinishFetch | src/components/TradingViewChart.jsx:37-60 | the history request seeds the series, sets the error on failure, and ends loading |
| TradingViewChart.Chart.ApplyLatest | src/components/TradingViewChart.jsx:63-71 | the effect ingests the last price update only while playing, and keeps the series invariant |
| TradingViewChart.Chart.OnMessage | src/components/TradingViewChart.jsx:63-71 | a price update while playing sets the current price and is ingested with random volume; anything else changes only `lastMessage` |
| TradingViewChart.Chart.TogglePlaying | src/components/TradingViewChart.jsx:487 | flips play; resuming re-applies the last price update |
| TradingViewChart.Chart.HandleWheel | src/components/TradingViewChart.jsx:432-436 | the zoom moves in the scroll's direction and stays in range; nothing else changes |
| TradingViewChart.Chart.ResetZoom | src/components/TradingViewChart.jsx:498 | the zoom returns to 1 |
| TradingViewChart.Chart.HandleMouseMove | src/components/TradingViewChart.jsx:406-426 | the tooltip shows exactly over the plot columns of a non-empty series, with the candle under the pointer; otherwise it hides and keeps the last hovered candle |
| TradingViewChart.Chart.HandleMouseLeave | src/components/TradingViewChart.jsx:428-430 | the tooltip hides and nothing else changes |
| TradingViewChart.Chart.Advance | src/components/TradingViewChart.jsx:68-69 | the price becomes current and the series is `Ingest` of the old one; the view state is untouched |
| TradingViewChart.Chart.VisibleData | src/components/TradingViewChart.jsx:176-181 | the drawn candles are the corrected window (see Findings): non-empty whenever the series is, and the same as the window the draw effect computes whenever the series has at least as many candles as the zoom factor |
| TradingViewChart.Chart.Indicators | src/components/TradingViewChart.jsx:216-235 | SMA 20, EMA 12 and EMA 26 of the visible closes, each within the visible price range |
| CandlestickChart.TimeframeMs | src/components/CandlestickChart.jsx:103-111 | positive, and one minute for every id but 1m/5m/15m/1h |
| CandlestickChart.LongTimeframesFallBack | src/components/CandlestickChart.jsx:103-111 | the "4h" and "1d" the page offers are bucketed by the minute |
| CandlestickChart.ZeroVolumeStep | src/components/CandlestickChart.jsx:63-96 | a live tick writes no volume |
| CandlestickChart.IngestKeepsZeroVolume | src/components/CandlestickChart.jsx:83-96 | one live tick keeps every volume at 0 |
| CandlestickChart.LiveCandlesHaveZeroVolume | src/components/CandlestickChart.jsx:55-98 | over any stream of live ticks, candles created from an empty series have volume 0 and keep it |
| CandlestickChart.MarksInsideBands | src/components/CandlestickChart.jsx:126-155 | for well-formed candles over a non-flat range, each wick runs from high down to low inside rows [20, 380] |
| CandlestickChart.Chart.constructor | src/components/CandlestickChart.jsx:6-9 | empty series, no price, loading, no error |
| CandlestickChart.Chart.FinishFetch | src/components/CandlestickChart.jsx:15-38 | the history request seeds the series, sets the error on failure, and ends loading |
| CandlestickChart.Chart.OnMessage | src/components/CandlestickChart.jsx:41-51 | a price update sets the price and is ingested with zero volume; zero volumes and the series invariant are preserved |
| CandlestickChart.Chart.Advance | src/components/CandlestickChart.jsx:46-49 | the price becomes current and the series is `Ingest` of the old one; loading, error and last message are untouched |
| CandlestickChart.Chart.Plot | src/components/CandlestickChart.jsx:143-155 | the drawing loop computes each candle's rows against the padded range of the whole series, and all of them lie inside the bands when drawable |
| Messages.Find | src/components/Dashboard.jsx:135-136 | `find` returns the first entry with the currency code, or none when no entry has it |
| Messages.GetBalanceDetails | src/components/Dashboard.jsx:131-142 | both balances are 0 when any level of `balance.data[0].details` is missing |
| Messages.BalanceOfFirstEntry | src/components/TradingInterface.jsx:138-149 | the reported balance of a currency is the amount of its first entry, 0 when that has none |
| Messages.BalanceOfMissingCurrency | src/components/TradingInterface.jsx:142-147 | a currency with no entry reports 0 |
| Messages.WithEnabled | src/components/Dashboard.jsx:170-177 | `{...prev, enabled}` sets `enabled` and keeps every other status field |
| WebSocketContext.BackoffDelay | src/contexts/WebSocketContext.jsx:75 | the delay always lies in [1000, 10000] ms |
| WebSocketContext.BackoffSchedule | src/contexts/WebSocketContext.jsx:75-80 | the delays run 1000, 2000, 4000, 8000, 10000 and stay at 10000; they never shrink as attempts grow |
| WebSocketContext.Without | src/contexts/WebSocketContext.jsx:124-126 | deleting a subscriber removes exactly that callback and keeps the set duplicate-free |
| WebSocketContext.WithoutIdempotent | src/contexts/WebSocketContext.jsx:124-126 | calling a disposer twice is calling it once; deleting an absent callback changes nothing |
| WebSocketContext.CancelTimer | src/contexts/WebSocketContext.jsx:100-102 | `clearTimeout` removes exactly the timers with that id |
| WebSocketContext.Dispatch | src/contexts/WebSocketContext.jsx:56-62 | every subscriber is called in order, and one that throws does not stop the rest |
| WebSocketContext.ShouldReconnect | src/contexts/WebSocketContext.jsx:74 | no reconnect once the connection is no longer wanted, after a normal closure (code 1000), or after five attempts; a reconnect's wait is at most 10 s |
| WebSocketContext.Provider.constructor | src/contexts/WebSocketContext.jsx:15-24 | initial refs: disconnected, no socket, attempts 0, connection wanted |
| WebSocketContext.Provider.Connect | src/contexts/WebSocketContext.jsx:26-36 | a no-op while connecting or open; otherwise exactly one socket is created, or the creation error is recorded; attempts untouched |
| WebSocketContext.Provider.OnOpen | src/contexts/WebSocketContext.jsx:38-48 | connected, error cleared, attempts reset to 0, and exactly `subscribe_price` then `subscribe_balance` sent |
| WebSocketContext.Provider.OnMessage | src/contexts/WebSocketContext.jsx:50-66 | a parsed frame becomes `lastMessage` and reaches every subscriber in order; an unparsable one changes nothing |
| WebSocketContext.AfterClose | src/contexts/WebSocketContext.jsx:68-82 | after a close the provider is disconnected; a timer with the backoff delay is appended and named by the ref exactly when a connection is wanted, the code is not 1000 and attempts < 5; attempts, subscribers and sent frames are untouched |
| WebSocketContext.Provider.OnClose | src/contexts/WebSocketContext.jsx:68-82 | a reconnect timer with the backoff delay is set exactly when a connection is wanted, the code is not 1000 and attempts < 5; the close of a live socket keeps the reconnect budget (at most five timers set since the last open, one pending at a time) |
| WebSocketContext.Provider.OnError | src/contexts/WebSocketContext.jsx:84-88 | records the connection error and clears `isConnecting` |
| WebSocketContext.Provider.TimerFire | src/contexts/WebSocketContext.jsx:76-80 | a firing timer counts one more attempt and then behaves as `connect` |
| WebSocketContext.Provider.Disconnect | src/contexts/WebSocketContext.jsx:97-112 | as written: stops wanting a connection, clears only the timer the ref names, closes and drops the socket; within the reconnect budget that leaves no timer pending |
| WebSocketContext.Provider.DisconnectCancellingAll | src/contexts/WebSocketContext.jsx:97-112 | corrected: after it no reconnect timer is pending and none is wanted |
| WebSocketContext.Provider.SendMessage | src/contexts/WebSocketContext.jsx:114-120 | a frame is transmitted exactly when the socket is open, otherwise dropped |
| WebSocketContext.Provider.Subscribe | src/contexts/WebSocketContext.jsx:122-123 | the callback joins the set once |
| WebSocketContext.Provider.Unsubscribe | src/contexts/WebSocketContext.jsx:124-126 | only that callback leaves the set |
| WebSocketContext.Provider.Mount | src/contexts/WebSocketContext.jsx:129-131 | a connection is wanted and `connect` runs |
| WebSocketContext.Provider.Apply | src/contexts/WebSocketContext.jsx:26-112 | every socket event, timer firing and API call, where it can happen and with `connect` only while no timer is pending, keeps the reconnect budget |
| WebSocketContext.BudgetOverAnyTrace | src/contexts/WebSocketContext.jsx:38-82 | over any sequence of such events after mount, at most five reconnect timers are set between two successful opens: those fired (the attempt count) plus at most one pending |
| WebSocketContext.ManualConnectExceedsBudget | src/contexts/WebSocketContext.jsx:26-82 | calling `connect` while a timer is pending breaks the bound: six closes, each followed by `connect`, leave six timers pending with no attempt counted |
| WebSocketContext.BackoffScenario | src/contexts/WebSocketContext.jsx:68-80 | under repeated abnormal closes the five waits are 1, 2, 4, 8 and 10 s, and the sixth close sets no timer |
| WebSocketContext.StaleTimerAfterDisconnect | src/contexts/WebSocketContext.jsx:74-80 | as written, a timer the ref lost survives `disconnect` and opens a third socket (see Findings) |
| WebSocketContext.NoReconnectAfterCorrectedDisconnect | src/contexts/WebSocketContext.jsx:97-103 | with every timer cleared, the same sequence creates no further socket |
| PriceMovement.Mean | src/components/PriceMovement.jsx:147-148 | the average is not finite (NaN) exactly over an empty window |
| PriceMovement.OlderWindow | src/components/PriceMovement.jsx:145 | `slice(-20, -10)` has 0, `len-10` or 10 points by history length |
| PriceMovement.WindowsPartition | src/components/PriceMovement.jsx:144-145 | the older window followed by the recent one is exactly the last 20 points |
| PriceMovement.PercentChange | src/components/PriceMovement.jsx:150 | NaN without an older average; finite over a non-zero one; ±Infinity or NaN over zero, by the sign of the recent average |
| PriceMovement.TrendAgainstAverages | src/components/PriceMovement.jsx:159-161 | bullish exactly when the recent average exceeds the older by more than 2%, bearish exactly when it falls short by more than 2% |
| PriceMovement.TrendOf | src/components/PriceMovement.jsx:158-161 | bullish exactly above +2 % (or +Infinity), bearish exactly below -2 % (or -Infinity), neutral within [-2 %, 2 %] and for NaN |
| PriceMovement.Round2Error | src/components/PriceMovement.jsx:164 | `toFixed(2)` moves a value by at most 0.005 |
| PriceMovement.ToFixed2 | src/components/PriceMovement.jsx:164 | rounding keeps a value finite exactly when it was, and leaves NaN and infinities alone |
| PriceMovement.AlertThresholdMargin | src/components/PriceMovement.jsx:66 | a change at least half a cent beyond the threshold always alerts, one more than half a cent inside never does, and infinite changes always do |
| PriceMovement.ShouldAlert | src/components/PriceMovement.jsx:66 | an alert needs a threshold and a change that is not NaN; an infinite change or a threshold of 0 or less always alerts |
| PriceMovement.AlertKindOf | src/components/PriceMovement.jsx:69 | the alert direction agrees with a bullish or bearish trend; a NaN or zero change is labelled bearish |
| PriceMovement.Analyze | src/components/PriceMovement.jsx:141-171 | no analysis below two points; otherwise the trend is that of the change, the change is computed from the two averages, and there is no older average exactly up to 10 points |
| PriceMovement.AveragesWithinHistoryRange | src/components/PriceMovement.jsx:144-148 | both averages lie between the lowest and highest price of the history |
| PriceMovement.Lowest | src/components/PriceMovement.jsx:169 | `Math.min` of the history prices: none lies below it, and it is one of them |
| PriceMovement.Highest | src/components/PriceMovement.jsx:169 | `Math.max` of the history prices: none lies above it, and it is one of them |
| PriceMovement.ShortHistoryIsQuiet | src/components/PriceMovement.jsx:145-161 | with 2 to 10 points the change is NaN, the trend neutral, and no alert is raised |
| PriceMovement.Round2 | src/components/PriceMovement.jsx:164 | rounding to two decimals keeps the sign of the value |
| PriceMovement.Analyzed | src/components/PriceMovement.jsx:57-79 | the analysis effect changes only the analysis, alerts and movements, and nothing below two points |
| PriceMovement.RecordedHistory | src/components/PriceMovement.jsx:44-51 | while tracking, a price update becomes the newest point and at most 100 remain; while paused the history is kept |
| PriceMovement.Received | src/components/PriceMovement.jsx:39-54 | the message effect changes the history only as `RecordedHistory` says, and keeps tracking flag, threshold, timeframe and last message |
| PriceMovement.AnalyzedBounded | src/components/PriceMovement.jsx:76-77 | the analysis keeps at most 10 alerts and 50 movements |
| PriceMovement.ReceivedBounded | src/components/PriceMovement.jsx:39-54 | a price update keeps all three bounds and sets the current price |
| PriceMovement.ReceivedHistory | src/components/PriceMovement.jsx:46-51 | while tracking, the update is appended as the newest of at most 100 points, the older ones following in order; while paused the history is unchanged |
| PriceMovement.AlertRaisedExactly | src/components/PriceMovement.jsx:57-79 | an alert is raised exactly with two points or more and the rounded change at the threshold; it comes first, bullish exactly when the change is positive, and is logged |
| PriceMovement.ResumeAppendsLastUpdateAgain | src/components/PriceMovement.jsx:39-54 | resuming tracking re-runs the effect and appends the last update's point a second time |
| PriceMovement.Tracker.constructor | src/components/PriceMovement.jsx:22-32 | tracking, threshold 5, timeframe 1m, empty history |
| PriceMovement.Tracker.RunAnalysis | src/components/PriceMovement.jsx:57-79 | the analysis effect, as `Analyzed` |
| PriceMovement.Tracker.ApplyLatest | src/components/PriceMovement.jsx:39-54 | the message effect followed by the analysis, as `Received` |
| PriceMovement.Tracker.OnMessage | src/components/PriceMovement.jsx:39-54 | a new frame is handled as `Received`, and the bounds are kept |
| PriceMovement.Tracker.ToggleTracking | src/components/PriceMovement.jsx:190-192 | the flag flips and the message effect re-runs on the new flag |
| PriceMovement.Tracker.SetAlertThreshold | src/components/PriceMovement.jsx:248 | a changed threshold re-runs the analysis |
| PriceMovement.Tracker.SetTimeframe | src/components/PriceMovement.jsx:234 | a changed timeframe re-runs the analysis |
| PriceMovement.Tracker.ClearAlerts | src/components/PriceMovement.jsx:186-188 | the alerts are emptied and the movement log kept |
| Dashboard.GetPriceChange | src/components/Dashboard.jsx:110-126 | no change (and positive) below two points or with a zero price at either end; otherwise first + change = last, percentage * first = change * 100, positive exactly when change >= 0 |
| Dashboard.Received | src/components/Dashboard.jsx:30-62 | every frame becomes `lastMessage`, and none touches the auto-trade status, the toggle flag or the error |
| Dashboard.PriceChangeDirection | src/components/Dashboard.jsx:118-124 | from a positive first price, the percentage is positive exactly when the price rose and negative exactly when it fell |
| Dashboard.ReceivedPrice | src/components/Dashboard.jsx:33-42 | a price update is appended as the newest of at most 50 points, the older ones following in order |
| Dashboard.ReceivedOther | src/components/Dashboard.jsx:45-59 | other frames leave the price and history alone; only a balance update changes the balance, only market data changes the market data |
| Dashboard.ReceivedBounded | src/components/Dashboard.jsx:41 | the history never exceeds 50 points |
| Dashboard.Page.constructor | src/components/Dashboard.jsx:17-24 | no price, balance, market data or status, an empty history, not toggling |
| Dashboard.Page.OnMessage | src/components/Dashboard.jsx:30-62 | the message switch, as `Received` |
| Dashboard.Page.BeginToggle | src/components/Dashboard.jsx:146-153 | ignored while a toggle is in flight; otherwise the flag is raised |
| Dashboard.Page.FinishToggle | src/components/Dashboard.jsx:166-196 | success sets `enabled` and keeps the other status fields; failures set their error; the flag is always lowered |
| TradingInterface.ShapeRequest | src/components/TradingInterface.jsx:99-118 | no request exactly when the amount is empty or a limit order's price is empty; otherwise side, amount and `SOL-USDT`, with a price exactly for a limit order |
| TradingInterface.MarketOrderIgnoresPrice | src/components/TradingInterface.jsx:117 | a market order's request carries no price, whatever the price field holds |
| TradingInterface.OrderValue | src/components/TradingInterface.jsx:153-156 | 0 when the amount or price is missing, otherwise amount * price |
| TradingInterface.OrderValueRecoversAmount | src/components/TradingInterface.jsx:153-156 | over a positive price the estimate divided by the price is the amount, and the estimate grows strictly with the amount |
| TradingInterface.ChangeColor | src/components/TradingInterface.jsx:174-179 | always one of the three colours |
| TradingInterface.ChangeColorMeaning | src/components/TradingInterface.jsx:174-179 | green exactly for > 0, red exactly for < 0, grey for 0 and NaN |
| TradingInterface.Received | src/components/TradingInterface.jsx:47-68 | every frame becomes `lastMessage`, leaves the form fields and the busy flag alone, and keeps at most five recent orders |
| TradingInterface.Submitted | src/components/TradingInterface.jsx:96-119 | submitting keeps the form and orders; from an idle form it becomes busy exactly when the request is well formed |
| TradingInterface.Settled | src/components/TradingInterface.jsx:121-135 | after the answer the form is never busy; an accepted order empties the amount and price, a refused or failed one keeps them |
| TradingInterface.ReceivedOrder | src/components/TradingInterface.jsx:58-59 | an order update comes first among at most 5 recent orders, the previous ones following in order |
| TradingInterface.ReceivedTouchesOneField | src/components/TradingInterface.jsx:49-66 | a price update sets only the current price, a balance update only the balance, other non-order frames nothing |
| TradingInterface.AcceptedFormMustBeRefilled | src/components/TradingInterface.jsx:123-126 | after an accepted order the amount and price are empty, so an immediate resubmission is refused |
| TradingInterface.FailedFormIsKept | src/components/TradingInterface.jsx:127-132 | after a refused or failed order the form is kept and would post the same request again |
| TradingInterface.Form.constructor | src/components/TradingInterface.jsx:16-25 | a market buy with empty fields, not trading, not loading, no message, no orders |
| TradingInterface.Form.Edit | src/components/TradingInterface.jsx:279-355 | the four form inputs set their fields and nothing else |
| TradingInterface.Form.OnMessage | src/components/TradingInterface.jsx:47-68 | the message switch, as `Received`, keeping at most 5 recent orders |
| TradingInterface.Form.NoticeTimerFires | src/components/TradingInterface.jsx:61 | a five-second timer empties the message |
| TradingInterface.Form.Submit | src/components/TradingInterface.jsx:96-119 | with no request in flight (the submit button is disabled while loading, line 368), posts exactly `ShapeRequest` of the form, or only shows the missing-fields message |
| TradingInterface.Form.CompleteSubmit | src/components/TradingInterface.jsx:121-135 | the answer clears the amount and price only on success, sets the outcome message, and ends loading |
| TradingInterface.Form.ToggleTrading | src/components/TradingInterface.jsx:181-184 | flips the trading flag only |
| TradingLogs.AsciiUpper | src/components/TradingLogs.jsx:18 | `toUpperCase` on ASCII: same length, each letter capitalised, everything else kept |
| TradingLogs.AsciiUpperProperties | src/components/TradingLogs.jsx:18 | no lower-case letter is left, and upper-casing twice is upper-casing once |
| TradingLogs.LogIcon | src/components/TradingLogs.jsx:103-124 | total; a missing type gets the information sign |
| TradingLogs.LogColor | src/components/TradingLogs.jsx:126-147 | total; a missing type is `text-gray-300` |
| TradingLogs.UnknownKindsLookLikeInfo | src/components/TradingLogs.jsx:103-147 | unknown types are drawn exactly as "info"; only "info" and unknown types get the information sign and grey |
| TradingLogs.AddLog | src/components/TradingLogs.jsx:88-101 | the new entry is first and at most 100 remain |
| TradingLogs.AddLogKeepsOrder | src/components/TradingLogs.jsx:97-100 | the previous entries follow in their order, only the oldest falling off a full list |
| TradingLogs.EntryFor | src/components/TradingLogs.jsx:14-34 | an entry exactly for order, balance and bot-log frames; a bot log keeps its own text and type, "info" when it has none |
| TradingLogs.OrderEntryShape | src/components/TradingLogs.jsx:18 | an order entry carries the side upper-cased and the amount, with the order icon in blue |
| TradingLogs.Page.constructor | src/components/TradingLogs.jsx:5-8 | no entries, no status, not toggling |
| TradingLogs.Page.AddEntry | src/components/TradingLogs.jsx:88-101 | the entry is added as `addLog` does, nothing else changes, and at most 100 entries remain |
| TradingLogs.Page.OnMessage | src/components/TradingLogs.jsx:14-34 | the frame's entry, if any, is added; the list stays within 100 |
| TradingLogs.Page.BeginToggle | src/components/TradingLogs.jsx:58-61 | ignored while a toggle is in flight; otherwise the flag is raised |
| TradingLogs.Page.FinishToggle | src/components/TradingLogs.jsx:70-86 | success sets `enabled` (other fields kept) and logs the server message as info; failures log an error; the flag is always lowered |
| TradingLogs.Page.ManualBuy | src/components/TradingLogs.jsx:295 | adds the manual buy entry |
| TradingLogs.Page.ManualSell | src/components/TradingLogs.jsx:301 | adds the manual sell entry |
| TradingLogs.Page.ProfitReached | src/components/TradingLogs.jsx:307 | adds the profit entry |
| TradingLogs.Page.ClearLogs | src/components/TradingLogs.jsx:149-151 | the log list is empty |

## Left out

- Canvas painting (background, grid, labels, lines, volume bars, candle bodies) uses a foreign 2-D API. Only the coordinate formulas are modelled.
- TradingViewChart's own price-to-pixel map (chart height 70 %, margin 60) is not modelled. The pixel bounds are proved for CandlestickChart's map.
- The price-movement volatility (`Math.sqrt` of the variance) and its canvas line are not modelled.
- `PriceMovement.Analyze`: `recentAvg`, `olderAvg` and `priceRange` are kept unrounded. Only the alert test applies `toFixed(2)`.
- `Dashboard.GetPriceChange`: `change` and `percentage` are not rounded by `toFixed(2)`. `Intl.NumberFormat` and `toLocaleString` formatting are left out too.
- `PriceMovement.Round2` rounds exact reals. IEEE doubles can round a value just below a tie differently.
- Timestamps are integer milliseconds. Parsing date strings with `new Date(...)` is not modelled.
- HTTP requests, timers and the socket object are events: method calls with their outcomes as parameters. JSON parsing is a `Message` datatype, with `None` for a frame that does not parse.
- `Math.random()` is the parameter `rand`. `Date.now()` log and alert ids are not modelled.
- Ingest builds new candle values. The source mutates the last candle object in place, and that aliasing is not modelled.
- `TradingLogs.AsciiUpper`: only ASCII letters are upper-cased. `toUpperCase` also maps other Unicode letters.
- The initial fetches of Dashboard, TradingInterface and TradingLogs, and the TradingLogs 30-second status polling, are not modelled. They are plain I/O that sets fields.
- The Dashboard debug button (an `alert` of a fetched payload) is not modelled.
- Socket events are those of the socket `wsRef` holds. Events from a socket already replaced by a newer one are not modelled separately.
- `WebSocketContext.Provider.OnOpen` requires a connecting socket.
- `WebSocketContext.BudgetOverAnyTrace` bounds reconnects only for traces in which the exported `connect` is never called while a reconnect timer is pending. No page calls it, and `ManualConnectExceedsBudget` shows six pending timers when one does.
- `TradingViewChart.Chart.VisibleData` draws the corrected window of the Findings. With fewer candles than the zoom factor it shows candles where the code as written clears the canvas and draws nothing; in every other state the two agree, as its contract states.
- The unmount cleanups (src/contexts/WebSocketContext.jsx:133-147) act like `Disconnect`. They are not a separate method.
- `src/hooks/useWebSocket.js` is not part of this model. The pages receive `lastMessage` through that hook; the model assumes the hook passes on each frame the provider parses, unchanged and in order.
- The toggle handlers read `isToggling` from the render they were created in. A double click within one render is not modelled; each click sees the latest flag.
- Notice texts that print a number (`Order <status>: <side> <amount> SOL`, the log's order line) are constructors, not strings, because number-to-string formatting is not modelled.
- The remaining TradingInterface state (`marketData`, `tradingSettings`, `popularPairs`, `loading`, `error`, `success`, `recentTrades`) is never set by the component, so it is not modelled.

## Findings

| source | as written | input that shows it | evidently intended | confidence | as-written member | corrected member |
|---|---|---|---|---|---|---|
| src/components/TradingViewChart.jsx:176-181 | the chart shows `floor(len / zoom)` candles, which is 0 when the zoom exceeds the series length | one candle at zoom 1.1 (one wheel-up): the visible slice is empty, so the draw effect returns right after clearing the canvas (line 181) and the chart is blank | at least one candle is shown whenever there is one | medium, not executed | Viewport.EmptyWindowAsWritten | Viewport.VisibleWindow |
| src/contexts/WebSocketContext.jsx:74-80,97-103 | `reconnectTimeoutRef` holds only the last timer, and `disconnect` clears only that one | abnormal close (timer 1 set), manual `connect`, abnormal close (timer 2 set), `disconnect`: timer 1 still fires and opens a third socket although no connection is wanted | after `disconnect` no reconnect timer is left to fire | medium, not executed | WebSocketContext.StaleTimerAfterDisconnect | WebSocketContext.Provider.DisconnectCancellingAll |
