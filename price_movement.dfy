/**
 * The price-movement tracker (src/components/PriceMovement.jsx): a bounded
 * history of live prices, recorded while tracking, and an analysis re-run
 * whenever the history, the threshold, the timeframe or the current price
 * changes, which compares the average of the last 10 points with that of
 * the 10 before and raises an alert on a large enough move.
 *
 * The analysis works in JavaScript numbers, where an average over no
 * points and a division by a zero average are not finite; `JsNumber`
 * keeps those cases apart from the finite ones.
 */
module PriceMovement {
  import opened Common
  import opened Messages
  import Indicators

  /** A JavaScript number: finite, or one of the non-finite values. */
  datatype JsNumber = Finite(value: real) | PosInf | NegInf | NaN

  datatype Trend = Bullish | Bearish | Neutral

  datatype AlertKind = BullishMove | BearishMove

  const MaxHistoryLength: nat := 100
  const MaxAlerts: nat := 10
  const MaxMovements: nat := 50

  function Prices(h: seq<PricePoint>): (r: seq<real>)
    ensures |r| == |h| && forall i :: 0 <= i < |h| ==> r[i] == h[i].price
  {
    seq(|h|, i requires 0 <= i < |h| => h[i].price)
  }

  /** `reduce(sum) / length`: the mean, not finite (NaN, `None`) over no
      points. */
  function Mean(s: seq<real>): (m: Option<real>)
    ensures m.None? <==> s == []
  {
    if s == [] then None else Some(Indicators.Sum(s) / |s| as real)
  }

  /** `history.slice(-20, -10)`: the up-to-10 points before the last 10. */
  function OlderWindow(h: seq<PricePoint>): (r: seq<PricePoint>)
    ensures |r| == if |h| <= 10 then 0 else if |h| <= 20 then |h| - 10 else 10
  {
    var start := if |h| >= 20 then |h| - 20 else 0;
    var end := if |h| >= 10 then |h| - 10 else 0;
    h[start..end]
  }

  /** The older window followed by the recent one is exactly the last 20
      points: the two windows neither overlap nor leave a gap. */
  lemma WindowsPartition(h: seq<PricePoint>)
    ensures OlderWindow(h) + KeepLast(h, 10) == KeepLast(h, 20)
  {
    var start := if |h| >= 20 then |h| - 20 else 0;
    var end := if |h| >= 10 then |h| - 10 else 0;
    assert OlderWindow(h) == h[start..end];
    assert KeepLast(h, 10) == h[end..];
    assert KeepLast(h, 20) == h[start..];
    assert h[start..end] + h[end..] == h[start..];
  }

  /** `((recentAvg - olderAvg) / olderAvg) * 100` in JavaScript numbers:
      NaN without an older average; over a zero older average, infinite
      with the sign of the recent average, or NaN when that is 0 too. */
  function PercentChange(recentAvg: real, olderAvg: Option<real>): (p: JsNumber)
    ensures olderAvg.None? ==> p == NaN
    ensures olderAvg.Some? && olderAvg.value != 0.0 ==> p.Finite?
    ensures olderAvg == Some(0.0) ==> (p.PosInf? <==> recentAvg > 0.0) && (p.NegInf? <==> recentAvg < 0.0) && (p.NaN? <==> recentAvg == 0.0)
  {
    match olderAvg
    case None => NaN
    case Some(o) =>
      if o != 0.0 then Finite((recentAvg - o) / o * 100.0)
      else if recentAvg > 0.0 then PosInf
      else if recentAvg < 0.0 then NegInf
      else NaN
  }

  /** The trend: bullish above +2%, bearish below -2%, otherwise (NaN
      included) neutral. */
  function TrendOf(p: JsNumber): (t: Trend)
    ensures p.NaN? ==> t == Neutral
    ensures p.Finite? && -2.0 <= p.value <= 2.0 ==> t == Neutral
    ensures t == Bullish <==> p.PosInf? || (p.Finite? && p.value > 2.0)
    ensures t == Bearish <==> p.NegInf? || (p.Finite? && p.value < -2.0)
  {
    match p
    case Finite(x) => if x > 2.0 then Bullish else if x < -2.0 then Bearish else Neutral
    case PosInf => Bullish
    case NegInf => Bearish
    case NaN => Neutral
  }

  lemma ScaleStrict(a: real, b: real, k: real)
    requires k > 0.0
    ensures a < b <==> a * k < b * k
  {
  }

  /** Over a positive older average, the trend is bullish exactly when the
      recent average exceeds the older one by more than 2%, and bearish
      exactly when it falls short of it by more than 2%. */
  lemma TrendAgainstAverages(recentAvg: real, olderAvg: real)
    requires olderAvg > 0.0
    ensures TrendOf(PercentChange(recentAvg, Some(olderAvg))) == Bullish <==> recentAvg > olderAvg * 1.02
    ensures TrendOf(PercentChange(recentAvg, Some(olderAvg))) == Bearish <==> recentAvg < olderAvg * 0.98
  {
    var q := (recentAvg - olderAvg) / olderAvg;
    assert q * olderAvg == recentAvg - olderAvg;
    assert PercentChange(recentAvg, Some(olderAvg)) == Finite(q * 100.0);
    ScaleStrict(0.02, q, olderAvg);
    ScaleStrict(q, -0.02, olderAvg);
    assert q < -0.02 <==> recentAvg < olderAvg * 0.98;
    assert q > 0.02 <==> recentAvg > olderAvg * 1.02;
  }

  /** `toFixed(2)` on a real: the nearest multiple of 0.01, ties away from
      zero. */
  function Round2(x: real): (r: real)
    ensures x >= 0.0 ==> r >= 0.0
    ensures x <= 0.0 ==> r <= 0.0
  {
    if x >= 0.0 then (x * 100.0 + 0.5).Floor as real / 100.0
    else -((-x * 100.0 + 0.5).Floor as real / 100.0)
  }

  /** Rounding moves a value by at most half a cent. */
  lemma Round2Error(x: real)
    ensures -0.005 <= Round2(x) - x <= 0.005
  {
    if x >= 0.0 {
      var n := (x * 100.0 + 0.5).Floor;
      assert n as real <= x * 100.0 + 0.5 < n as real + 1.0;
    } else {
      var n := (-x * 100.0 + 0.5).Floor;
      assert n as real <= -x * 100.0 + 0.5 < n as real + 1.0;
    }
  }

  function ToFixed2(p: JsNumber): (r: JsNumber)
    ensures r.Finite? <==> p.Finite?
    ensures !p.Finite? ==> r == p
  {
    if p.Finite? then Finite(Round2(p.value)) else p
  }

  /** `Math.abs(p) >= threshold`; a NaN threshold (`None`, from an empty
      threshold field) never holds. */
  predicate ShouldAlert(p: JsNumber, threshold: Option<real>)
    ensures ShouldAlert(p, threshold) ==> threshold.Some? && !p.NaN?
    ensures threshold.Some? && threshold.value <= 0.0 && !p.NaN? ==> ShouldAlert(p, threshold)
    ensures threshold.Some? && !p.Finite? && !p.NaN? ==> ShouldAlert(p, threshold)
  {
    threshold.Some? &&
    match p
    case Finite(x) => (if x >= 0.0 then x else -x) >= threshold.value
    case PosInf => true
    case NegInf => true
    case NaN => false
  }

  /** `p > 0 ? 'bullish' : 'bearish'`. */
  function AlertKindOf(p: JsNumber): (k: AlertKind)
    ensures TrendOf(p) == Bullish ==> k == BullishMove
    ensures TrendOf(p) == Bearish ==> k == BearishMove
    ensures p.NaN? || (p.Finite? && p.value == 0.0) ==> k == BearishMove
  {
    if p.PosInf? || (p.Finite? && p.value > 0.0) then BullishMove else BearishMove
  }

  /** The alert test runs on the change rounded to two decimals: a finite
      change at least half a cent beyond the threshold always alerts, one
      more than half a cent short of it never does; a non-finite change
      alerts exactly when it is infinite. */
  lemma AlertThresholdMargin(p: JsNumber, t: real)
    ensures p.Finite? && (p.value >= t + 0.005 || p.value <= -t - 0.005) ==> ShouldAlert(ToFixed2(p), Some(t))
    ensures p.Finite? && -t + 0.005 < p.value < t - 0.005 ==> !ShouldAlert(ToFixed2(p), Some(t))
    ensures !p.Finite? ==> (ShouldAlert(ToFixed2(p), Some(t)) <==> !p.NaN?)
  {
    if p.Finite? {
      Round2Error(p.value);
    }
  }

  function Lowest(s: seq<real>): (m: real)
    requires |s| > 0
    ensures forall i :: 0 <= i < |s| ==> m <= s[i]
    ensures exists i :: 0 <= i < |s| && m == s[i]
    decreases |s|
  {
    if |s| == 1 then s[0] else Min(Lowest(s[..|s| - 1]), s[|s| - 1])
  }

  function Highest(s: seq<real>): (m: real)
    requires |s| > 0
    ensures forall i :: 0 <= i < |s| ==> s[i] <= m
    ensures exists i :: 0 <= i < |s| && m == s[i]
    decreases |s|
  {
    if |s| == 1 then s[0] else Max(Highest(s[..|s| - 1]), s[|s| - 1])
  }

  /** The result of `analyzePriceMovement` (without volatility). */
  datatype Analysis = Analysis(percentageChange: JsNumber, trend: Trend, recentAvg: real, olderAvg: Option<real>, priceRange: real)

  /** `analyzePriceMovement`: nothing below two points; otherwise the
      averages of the recent and older windows, their percentage change,
      the trend it gives, and the spread of the whole history. */
  function Analyze(h: seq<PricePoint>): (r: Option<Analysis>)
    ensures r.None? <==> |h| < 2
    ensures r.Some? ==> r.value.priceRange >= 0.0
    ensures r.Some? ==> r.value.trend == TrendOf(r.value.percentageChange)
    ensures r.Some? ==> r.value.percentageChange == PercentChange(r.value.recentAvg, r.value.olderAvg)
    ensures r.Some? ==> (r.value.olderAvg.None? <==> |h| <= 10)
  {
    if |h| < 2 then None
    else
      var recentAvg := Mean(Prices(KeepLast(h, 10))).value;
      var olderAvg := Mean(Prices(OlderWindow(h)));
      var pct := PercentChange(recentAvg, olderAvg);
      var ps := Prices(h);
      Some(Analysis(pct, TrendOf(pct), recentAvg, olderAvg, Highest(ps) - Lowest(ps)))
  }

  lemma WindowWithinRange(h: seq<PricePoint>, w: seq<PricePoint>, k: nat)
    requires |h| > 0 && k + |w| <= |h| && forall i :: 0 <= i < |w| ==> w[i] == h[k + i]
    ensures Indicators.Within(Prices(w), Lowest(Prices(h)), Highest(Prices(h)))
  {
    forall i | 0 <= i < |w|
      ensures Lowest(Prices(h)) <= Prices(w)[i] <= Highest(Prices(h))
    {
      assert Prices(w)[i] == Prices(h)[k + i];
    }
  }

  /** The averages an analysis reports are those of the two windows. */
  lemma AnalyzeAverages(h: seq<PricePoint>)
    requires |h| >= 2
    ensures Analyze(h).value.recentAvg == Mean(Prices(KeepLast(h, 10))).value
    ensures Analyze(h).value.olderAvg == Mean(Prices(OlderWindow(h)))
  {
  }

  /** The mean of a non-empty run of the history lies within its range. */
  lemma MeanOfWindowWithinRange(h: seq<PricePoint>, w: seq<PricePoint>, k: nat)
    requires |w| > 0 && k + |w| <= |h| && forall i :: 0 <= i < |w| ==> w[i] == h[k + i]
    ensures Lowest(Prices(h)) <= Mean(Prices(w)).value <= Highest(Prices(h))
  {
    WindowWithinRange(h, w, k);
    Indicators.MeanBounds(Prices(w), |w|, Lowest(Prices(h)), Highest(Prices(h)));
  }

  /** The recent window's average lies within the history's range. */
  lemma RecentMeanWithinRange(h: seq<PricePoint>)
    requires |h| >= 2
    ensures Lowest(Prices(h)) <= Mean(Prices(KeepLast(h, 10))).value <= Highest(Prices(h))
  {
    var recent := KeepLast(h, 10);
    MeanOfWindowWithinRange(h, recent, |h| - |recent|);
  }

  /** The older window's average, when there is one, lies within the
      history's range. */
  lemma OlderMeanWithinRange(h: seq<PricePoint>)
    requires |h| > 10
    ensures Lowest(Prices(h)) <= Mean(Prices(OlderWindow(h))).value <= Highest(Prices(h))
  {
    var start := if |h| >= 20 then |h| - 20 else 0;
    var older := h[start..|h| - 10];
    assert older == OlderWindow(h);
    MeanOfWindowWithinRange(h, older, start);
  }

  /** Both averages lie between the lowest and the highest price of the
      history. */
  lemma AveragesWithinHistoryRange(h: seq<PricePoint>)
    requires |h| >= 2
    ensures var a := Analyze(h).value; var ps := Prices(h);
      && Lowest(ps) <= a.recentAvg <= Highest(ps)
      && (a.olderAvg.Some? ==> Lowest(ps) <= a.olderAvg.value <= Highest(ps))
  {
    AnalyzeAverages(h);
    RecentMeanWithinRange(h);
    if |h| > 10 {
      OlderMeanWithinRange(h);
    }
  }

  /** With at most 10 points there is no older window: the change is NaN,
      the trend neutral, and no threshold raises an alert. */
  lemma ShortHistoryIsQuiet(h: seq<PricePoint>, threshold: Option<real>)
    requires 2 <= |h| <= 10
    ensures Analyze(h).value.percentageChange == NaN
    ensures Analyze(h).value.trend == Neutral
    ensures !ShouldAlert(ToFixed2(Analyze(h).value.percentageChange), threshold)
  {
  }

  datatype Alert = Alert(kind: AlertKind, percentage: JsNumber, price: Option<real>)

  /** Every field of the tracker at once. */
  datatype State = State(
    priceHistory: seq<PricePoint>, currentPrice: Option<real>,
    alerts: seq<Alert>, movementLog: seq<Alert>,
    analysis: Option<Analysis>, trend: Trend,
    isTracking: bool, alertThreshold: Option<real>, timeframe: string,
    lastMessage: Option<Message>)

  /** The analysis effect: with two points or more, record the analysis
      and its trend, and when the rounded change reaches the threshold put
      an alert first in the alerts (at most 10) and in the movement log (at
      most 50). */
  function Analyzed(st: State): (r: State)
    ensures |st.priceHistory| < 2 ==> r == st
    ensures r.priceHistory == st.priceHistory && r.currentPrice == st.currentPrice
    ensures r.isTracking == st.isTracking && r.alertThreshold == st.alertThreshold
    ensures r.timeframe == st.timeframe && r.lastMessage == st.lastMessage
  {
    match Analyze(st.priceHistory)
    case None => st
    case Some(a) =>
      var rounded := ToFixed2(a.percentageChange);
      var next := st.(analysis := Some(a), trend := a.trend);
      if ShouldAlert(rounded, st.alertThreshold) then
        var alert := Alert(AlertKindOf(rounded), rounded, st.currentPrice);
        next.(alerts := PrependCapped(alert, st.alerts, MaxAlerts),
              movementLog := PrependCapped(alert, st.movementLog, MaxMovements))
      else next
  }

  /** The history after the message effect: a price update received while
      tracking is appended, and the last 100 points are kept. */
  function RecordedHistory(st: State, now: int): (h: seq<PricePoint>)
    ensures |st.priceHistory| <= MaxHistoryLength ==> |h| <= MaxHistoryLength
    ensures !st.isTracking ==> h == st.priceHistory
    ensures st.isTracking && st.lastMessage.Some? && st.lastMessage.value.PriceUpdate? ==>
      |h| >= 1 && h[|h| - 1] == PricePoint(st.lastMessage.value.price, StampOf(st.lastMessage.value.timestamp, now))
  {
    if st.isTracking && st.lastMessage.Some? && st.lastMessage.value.PriceUpdate? then
      var m := st.lastMessage.value;
      KeepLast(st.priceHistory + [PricePoint(m.price, StampOf(m.timestamp, now))], MaxHistoryLength)
    else st.priceHistory
  }

  /** The message effect for `st.lastMessage`: a price update sets the
      current price and, while tracking, appends a point and keeps the last
      100; the analysis then re-runs if the history or the current price
      changed. */
  function Received(st: State, now: int): (r: State)
    ensures r.isTracking == st.isTracking && r.alertThreshold == st.alertThreshold
    ensures r.timeframe == st.timeframe && r.lastMessage == st.lastMessage
    ensures r.priceHistory == RecordedHistory(st, now)
  {
    if st.lastMessage.Some? && st.lastMessage.value.PriceUpdate? then
      var m := st.lastMessage.value;
      var next := st.(currentPrice := Some(m.price), priceHistory := RecordedHistory(st, now));
      if st.isTracking || st.currentPrice != Some(m.price) then Analyzed(next) else next
    else st
  }

  /** The bounds every state keeps. */
  predicate Bounded(st: State) {
    |st.priceHistory| <= MaxHistoryLength && |st.alerts| <= MaxAlerts && |st.movementLog| <= MaxMovements
  }

  lemma AnalyzedBounded(st: State)
    requires Bounded(st)
    ensures Bounded(Analyzed(st))
  {
  }

  /** A price update keeps the history, alert and movement bounds, and
      always moves the current price to the update's price. */
  lemma ReceivedBounded(st: State, now: int)
    requires Bounded(st)
    ensures Bounded(Received(st, now))
    ensures st.lastMessage.Some? && st.lastMessage.value.PriceUpdate? ==>
      Received(st, now).currentPrice == Some(st.lastMessage.value.price)
  {
    if st.lastMessage.Some? && st.lastMessage.value.PriceUpdate? {
      var next := st.(currentPrice := Some(st.lastMessage.value.price), priceHistory := RecordedHistory(st, now));
      AnalyzedBounded(next);
    }
  }

  /** While tracking, a price update is appended as the newest point and
      the older points are the newest of the previous history, in order;
      while paused the history does not move. */
  lemma ReceivedHistory(st: State, now: int)
    requires st.lastMessage.Some? && st.lastMessage.value.PriceUpdate?
    ensures var m := st.lastMessage.value; var h := Received(st, now).priceHistory;
      if st.isTracking then
        && |h| == (if |st.priceHistory| + 1 <= MaxHistoryLength then |st.priceHistory| + 1 else MaxHistoryLength)
        && h[|h| - 1] == PricePoint(m.price, StampOf(m.timestamp, now))
        && forall i :: 0 <= i < |h| - 1 ==> h[i] == st.priceHistory[|st.priceHistory| - (|h| - 1) + i]
      else h == st.priceHistory
  {
    var m := st.lastMessage.value;
    AppendKeepLast(st.priceHistory, PricePoint(m.price, StampOf(m.timestamp, now)), MaxHistoryLength);
  }

  /** An alert is raised exactly when the history has two points or more
      and the rounded change reaches the threshold; it then comes first,
      bullish exactly when the rounded change is positive, and the earlier
      alerts follow in order. */
  lemma AlertRaisedExactly(st: State)
    ensures var r := Analyzed(st);
      var raised := |st.priceHistory| >= 2 &&
        ShouldAlert(ToFixed2(Analyze(st.priceHistory).value.percentageChange), st.alertThreshold);
      && (raised ==>
            var rounded := ToFixed2(Analyze(st.priceHistory).value.percentageChange);
            && r.alerts[0] == Alert(AlertKindOf(rounded), rounded, st.currentPrice)
            && (r.alerts[0].kind == BullishMove <==> rounded.PosInf? || (rounded.Finite? && rounded.value > 0.0))
            && (forall i :: 1 <= i < |r.alerts| ==> r.alerts[i] == st.alerts[i - 1])
            && r.movementLog[0] == r.alerts[0])
      && (!raised ==> r.alerts == st.alerts && r.movementLog == st.movementLog)
  {
  }

  /** Resuming tracking re-runs the message effect on the last frame: if
      that was a price update, its point is appended a second time. */
  lemma ResumeAppendsLastUpdateAgain(st: State, now: int)
    requires !st.isTracking && st.lastMessage.Some? && st.lastMessage.value.PriceUpdate?
    requires st.lastMessage.value.timestamp.Some?
    requires |st.priceHistory| > 0
    requires st.priceHistory[|st.priceHistory| - 1] == PricePoint(st.lastMessage.value.price, st.lastMessage.value.timestamp.value)
    ensures var h := Received(st.(isTracking := true), now).priceHistory;
      |h| >= 2 && h[|h| - 1] == h[|h| - 2] == st.priceHistory[|st.priceHistory| - 1]
  {
    var s2 := st.(isTracking := true);
    ReceivedHistory(s2, now);
  }

  class Tracker {
    var priceHistory: seq<PricePoint>
    var currentPrice: Option<real>
    var alerts: seq<Alert>
    var movementLog: seq<Alert>
    var analysis: Option<Analysis>
    var trend: Trend
    var isTracking: bool
    var alertThreshold: Option<real>
    var timeframe: string
    var lastMessage: Option<Message>

    function Snapshot(): State
      reads this
    {
      State(priceHistory, currentPrice, alerts, movementLog, analysis, trend, isTracking, alertThreshold, timeframe, lastMessage)
    }

    /** The mounted tracker: tracking, threshold 5%, timeframe 1m. */
    constructor()
      ensures Snapshot() == State([], None, [], [], None, Neutral, true, Some(5.0), "1m", None)
      ensures Bounded(Snapshot())
    {
      priceHistory := [];
      currentPrice := None;
      alerts := [];
      movementLog := [];
      analysis := None;
      trend := Neutral;
      isTracking := true;
      alertThreshold := Some(5.0);
      timeframe := "1m";
      lastMessage := None;
    }

    /** The analysis effect. */
    method RunAnalysis()
      modifies this
      ensures Snapshot() == Analyzed(old(Snapshot()))
    {
      if |priceHistory| < 2 {
        return;
      }
      var a := Analyze(priceHistory).value;
      var rounded := ToFixed2(a.percentageChange);
      SetAnalysis(a);
      if ShouldAlert(rounded, alertThreshold) {
        PushAlert(Alert(AlertKindOf(rounded), rounded, currentPrice));
      }
    }

    /** `setAnalysis` and `setTrend`. */
    method SetAnalysis(a: Analysis)
      modifies this
      ensures Snapshot() == old(Snapshot()).(analysis := Some(a), trend := a.trend)
    {
      analysis := Some(a);
      trend := a.trend;
    }

    /** The alert goes first in both the alert list (at most 10) and the
        movement log (at most 50). */
    method PushAlert(alert: Alert)
      modifies this
      ensures Snapshot() == old(Snapshot()).(alerts := PrependCapped(alert, old(alerts), MaxAlerts),
        movementLog := PrependCapped(alert, old(movementLog), MaxMovements))
    {
      alerts := PrependCapped(alert, alerts, MaxAlerts);
      movementLog := PrependCapped(alert, movementLog, MaxMovements);
    }

    /** The message effect, run when `lastMessage` or `isTracking`
        changes, followed by the analysis effect when that one's inputs
        changed. */
    method ApplyLatest(now: int)
      modifies this
      ensures Snapshot() == Received(old(Snapshot()), now)
    {
      if lastMessage.Some? && lastMessage.value.PriceUpdate? {
        var m := lastMessage.value;
        var priceChanged := currentPrice != Some(m.price);
        RecordPrice(PricePoint(m.price, StampOf(m.timestamp, now)));
        if isTracking || priceChanged {
          RunAnalysis();
        }
      }
    }

    /** `setCurrentPrice`, and while tracking the point appended to the
        history, of which the last 100 are kept. */
    method RecordPrice(point: PricePoint)
      modifies this
      ensures Snapshot() == old(Snapshot()).(currentPrice := Some(point.price),
        priceHistory := if old(isTracking) then KeepLast(old(priceHistory) + [point], MaxHistoryLength) else old(priceHistory))
    {
      currentPrice := Some(point.price);
      if isTracking {
        priceHistory := KeepLast(priceHistory + [point], MaxHistoryLength);
      }
    }

    /** A new frame arrives from the feed. */
    method OnMessage(m: Message, now: int)
      modifies this
      ensures Snapshot() == Received(old(Snapshot()).(lastMessage := Some(m)), now)
      ensures old(Bounded(Snapshot())) ==> Bounded(Snapshot())
    {
      lastMessage := Some(m);
      if Bounded(Snapshot()) {
        ReceivedBounded(Snapshot(), now);
      }
      ApplyLatest(now);
    }

    /** `toggleTracking`; the message effect re-runs on the new flag. */
    method ToggleTracking(now: int)
      modifies this
      ensures isTracking == !old(isTracking)
      ensures Snapshot() == Received(old(Snapshot()).(isTracking := !old(isTracking)), now)
      ensures old(Bounded(Snapshot())) ==> Bounded(Snapshot())
    {
      isTracking := !isTracking;
      if Bounded(Snapshot()) {
        ReceivedBounded(Snapshot(), now);
      }
      ApplyLatest(now);
    }

    /** The threshold field: `parseFloat` of its text, `None` (NaN) when
        that is not a number. A changed threshold re-runs the analysis. */
    method SetAlertThreshold(t: Option<real>)
      modifies this
      ensures Snapshot() == if t == old(alertThreshold) then old(Snapshot()) else Analyzed(old(Snapshot()).(alertThreshold := t))
      ensures old(Bounded(Snapshot())) ==> Bounded(Snapshot())
    {
      if t != alertThreshold {
        alertThreshold := t;
        if Bounded(Snapshot()) {
          AnalyzedBounded(Snapshot());
        }
        RunAnalysis();
      }
    }

    /** The timeframe select; a changed timeframe re-runs the analysis. */
    method SetTimeframe(tf: string)
      modifies this
      ensures Snapshot() == if tf == old(timeframe) then old(Snapshot()) else Analyzed(old(Snapshot()).(timeframe := tf))
      ensures old(Bounded(Snapshot())) ==> Bounded(Snapshot())
    {
      if tf != timeframe {
        timeframe := tf;
        if Bounded(Snapshot()) {
          AnalyzedBounded(Snapshot());
        }
        RunAnalysis();
      }
    }

    /** `clearAlerts`: the alerts go, the movement log stays. */
    method ClearAlerts()
      modifies this
      ensures Snapshot() == old(Snapshot()).(alerts := [])
    {
      alerts := [];
    }
  }
}
