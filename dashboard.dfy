/**
 * The dashboard page (src/components/Dashboard.jsx): the latest SOL price
 * and the last 50 price points, the balance and market data pushed by the
 * feed, the price change over the retained points, and the auto-trading
 * toggle with its re-entry guard.
 */
module Dashboard {
  import opened Common
  import opened Messages

  const HistoryLength: nat := 50

  datatype PriceChange = PriceChange(change: real, percentage: real, isPositive: bool)

  /** `getPriceChange`: from the oldest to the newest retained point. With
      fewer than two points, or a zero price at either end (JavaScript's
      falsy test), there is no change and it counts as positive. */
  function GetPriceChange(h: seq<PricePoint>): (r: PriceChange)
    ensures r.isPositive <==> r.change >= 0.0
    ensures |h| < 2 || h[0].price == 0.0 || h[|h| - 1].price == 0.0 ==> r == PriceChange(0.0, 0.0, true)
    ensures |h| >= 2 && h[0].price != 0.0 && h[|h| - 1].price != 0.0 ==>
      && h[0].price + r.change == h[|h| - 1].price
      && r.percentage * h[0].price == r.change * 100.0
  {
    if |h| < 2 then PriceChange(0.0, 0.0, true)
    else
      var current, previous := h[|h| - 1].price, h[0].price;
      if current == 0.0 || previous == 0.0 then PriceChange(0.0, 0.0, true)
      else
        var change := current - previous;
        PriceChange(change, change / previous * 100.0, change >= 0.0)
  }

  /** From a positive first price, the percentage is positive exactly when
      the price rose and negative exactly when it fell. */
  lemma PriceChangeDirection(h: seq<PricePoint>)
    requires |h| >= 2 && h[0].price > 0.0 && h[|h| - 1].price != 0.0
    ensures GetPriceChange(h).percentage > 0.0 <==> h[|h| - 1].price > h[0].price
    ensures GetPriceChange(h).percentage < 0.0 <==> h[|h| - 1].price < h[0].price
  {
    var r, p := GetPriceChange(h), h[0].price;
    assert r.percentage * p == r.change * 100.0;
    if r.percentage > 0.0 {
      assert r.percentage * p > 0.0;
    } else if r.percentage < 0.0 {
      assert (-r.percentage) * p > 0.0;
    }
  }

  /** Every field of the page at once. */
  datatype State = State(
    solPrice: Option<real>, balance: Option<Balance>, priceHistory: seq<PricePoint>,
    marketData: Option<string>, autoTradeStatus: Option<AutoTradeStatus>,
    isToggling: bool, error: Option<string>, lastMessage: Option<Message>)

  /** The message effect: a price update sets the price and appends a
      point, keeping the last 50; a balance update and market data replace
      their fields; an order update and any other type only log. */
  function Received(st: State, m: Message, now: int): (r: State)
    ensures r.lastMessage == Some(m)
    ensures r.autoTradeStatus == st.autoTradeStatus && r.isToggling == st.isToggling && r.error == st.error
  {
    var base := st.(lastMessage := Some(m));
    match m
    case PriceUpdate(price, stamp) =>
      base.(solPrice := Some(price),
            priceHistory := KeepLast(st.priceHistory + [PricePoint(price, StampOf(stamp, now))], HistoryLength))
    case BalanceUpdate(b) => base.(balance := Some(b))
    case MarketData(payload) => base.(marketData := Some(payload))
    case _ => base
  }

  /** A price update is appended as the newest point, the older points are
      the newest of the previous history in order, and at most 50 remain. */
  lemma ReceivedPrice(st: State, price: real, stamp: Option<int>, now: int)
    ensures var h := Received(st, PriceUpdate(price, stamp), now).priceHistory;
      && |h| == (if |st.priceHistory| + 1 <= HistoryLength then |st.priceHistory| + 1 else HistoryLength)
      && h[|h| - 1] == PricePoint(price, StampOf(stamp, now))
      && forall i :: 0 <= i < |h| - 1 ==> h[i] == st.priceHistory[|st.priceHistory| - (|h| - 1) + i]
  {
    AppendKeepLast(st.priceHistory, PricePoint(price, StampOf(stamp, now)), HistoryLength);
  }

  /** Every other frame leaves the price and its history alone; each field
      other than the one the frame carries is untouched. */
  lemma ReceivedOther(st: State, m: Message, now: int)
    requires !m.PriceUpdate?
    ensures var r := Received(st, m, now);
      && r.solPrice == st.solPrice && r.priceHistory == st.priceHistory
      && r.autoTradeStatus == st.autoTradeStatus && r.isToggling == st.isToggling && r.error == st.error
      && (r.balance != st.balance ==> m.BalanceUpdate?)
      && (r.marketData != st.marketData ==> m.MarketData?)
      && r.lastMessage == Some(m)
  {
  }

  /** A history within 50 points stays within 50. */
  lemma ReceivedBounded(st: State, m: Message, now: int)
    requires |st.priceHistory| <= HistoryLength
    ensures |Received(st, m, now).priceHistory| <= HistoryLength
  {
  }

  class Page {
    var solPrice: Option<real>
    var balance: Option<Balance>
    var priceHistory: seq<PricePoint>
    var marketData: Option<string>
    var autoTradeStatus: Option<AutoTradeStatus>
    var isToggling: bool
    var error: Option<string>
    var lastMessage: Option<Message>

    function Snapshot(): State
      reads this
    {
      State(solPrice, balance, priceHistory, marketData, autoTradeStatus, isToggling, error, lastMessage)
    }

    constructor()
      ensures Snapshot() == State(None, None, [], None, None, false, None, None)
    {
      solPrice := None;
      balance := None;
      priceHistory := [];
      marketData := None;
      autoTradeStatus := None;
      isToggling := false;
      error := None;
      lastMessage := None;
    }

    /** The message switch. */
    method OnMessage(m: Message, now: int)
      modifies this
      ensures Snapshot() == Received(old(Snapshot()), m, now)
    {
      lastMessage := Some(m);
      match m {
        case PriceUpdate(price, stamp) =>
          solPrice := Some(price);
          priceHistory := KeepLast(priceHistory + [PricePoint(price, StampOf(stamp, now))], HistoryLength);
        case BalanceUpdate(b) =>
          balance := Some(b);
        case MarketData(payload) =>
          marketData := Some(payload);
        case _ =>
      }
    }

    /** The toggle button: ignored while a toggle is in flight; otherwise
        the flag is raised and the request goes out (`started`). */
    method BeginToggle() returns (started: bool)
      modifies this
      ensures started <==> !old(isToggling)
      ensures isToggling
      ensures Snapshot() == old(Snapshot()).(isToggling := true)
    {
      if isToggling {
        return false;
      }
      isToggling := true;
      started := true;
    }

    /** The toggle request ends: a successful one sets `enabled` from the
        reply and keeps the other status fields; a failed one sets the
        error; either way the flag is lowered. */
    method FinishToggle(outcome: ToggleOutcome)
      modifies this
      ensures !isToggling
      ensures Snapshot() == match outcome
        case Toggled(enabled, _) => old(Snapshot()).(isToggling := false, autoTradeStatus := Some(WithEnabled(old(autoTradeStatus), enabled)))
        case HttpFailure => old(Snapshot()).(isToggling := false, error := Some("Failed to toggle auto-trading"))
        case RequestThrew => old(Snapshot()).(isToggling := false, error := Some("Error toggling auto-trading"))
    {
      match outcome {
        case Toggled(enabled, _) =>
          autoTradeStatus := Some(WithEnabled(autoTradeStatus, enabled));
        case HttpFailure =>
          error := Some("Failed to toggle auto-trading");
        case RequestThrew =>
          error := Some("Error toggling auto-trading");
      }
      isToggling := false;
    }
  }
}
