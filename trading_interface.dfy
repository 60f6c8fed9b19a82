/**
 * The order form (src/components/TradingInterface.jsx): the live price,
 * balance and the five most recent orders pushed by the feed, the
 * validation and shaping of a market or limit order before it is posted,
 * what the form keeps or clears once the exchange answers, the estimated
 * order value and the colour of a change.
 *
 * The numeric inputs are `<input type="number">` strings: `None` stands for
 * the empty string (the only falsy one), `Some(x)` for the number it holds.
 */
module TradingInterface {
  import opened Common
  import opened Messages

  const Symbol: string := "SOL-USDT"
  const MaxRecentOrders: nat := 5

  datatype OrderType = Market | Limit

  datatype Side = Buy | Sell

  /** The JSON body of `POST /api/okx/trade`; `price` is present only for a
      limit order. */
  datatype OrderRequest = OrderRequest(side: Side, amount: real, symbol: string, price: Option<real>)

  /** The one-line message under the form. */
  datatype Notice =
    | NoNotice
    | MissingFields                 // "Please fill in all required fields"
    | OrderNotice(order: Order)     // "Order <status>: <side> <amount> SOL"
    | Placed(text: string)          // "✅ " followed by the exchange's message
    | Rejected(text: string)        // "❌ " followed by the exchange's error
    | PlaceFailed                   // "❌ Failed to place order"

  /** How the order request ended: a JSON body with `success` and `message`,
      one without `success` carrying `error`, or a thrown fetch. */
  datatype SubmitOutcome = Accepted(message: string) | Refused(error: string) | RequestThrew

  /** The request `handleSubmit` posts, or `None` when a required field is
      empty: the amount always, the price for a limit order. */
  function ShapeRequest(side: Side, orderType: OrderType, amount: Option<real>, price: Option<real>): (r: Option<OrderRequest>)
    ensures r.None? <==> amount.None? || (orderType == Limit && price.None?)
    ensures r.Some? ==>
      && r.value.side == side && r.value.amount == amount.value && r.value.symbol == Symbol
      && (r.value.price.Some? <==> orderType == Limit)
      && (orderType == Limit ==> r.value.price == price)
  {
    if amount.None? || (orderType == Limit && price.None?) then None
    else Some(OrderRequest(side, amount.value, Symbol, if orderType == Limit then price else None))
  }

  /** A market order ignores whatever is left in the price field, and the
      request it posts carries no price. */
  lemma MarketOrderIgnoresPrice(side: Side, amount: real, p1: Option<real>, p2: Option<real>)
    ensures ShapeRequest(side, Market, Some(amount), p1) == ShapeRequest(side, Market, Some(amount), p2)
    ensures ShapeRequest(side, Market, Some(amount), p1) == Some(OrderRequest(side, amount, Symbol, None))
  {
  }

  /** `calculateOrderValue`: the amount times the current price, and 0 when
      the amount field is empty or the price is missing or 0. */
  function OrderValue(amount: Option<real>, currentPrice: Option<real>): (v: real)
    ensures amount.None? || currentPrice.None? ==> v == 0.0
    ensures amount.Some? && currentPrice.Some? ==> v == amount.value * currentPrice.value
  {
    if amount.None? || currentPrice.None? || currentPrice.value == 0.0 then 0.0
    else amount.value * currentPrice.value
  }

  /** Over a positive price the estimate determines the amount (it is the
      estimate divided by the price), and grows with it. */
  lemma OrderValueRecoversAmount(a1: real, a2: real, p: real)
    requires p > 0.0
    ensures OrderValue(Some(a1), Some(p)) / p == a1
    ensures a1 < a2 <==> OrderValue(Some(a1), Some(p)) < OrderValue(Some(a2), Some(p))
  {
    var v1, v2 := OrderValue(Some(a1), Some(p)), OrderValue(Some(a2), Some(p));
    assert v1 == a1 * p && v2 == a2 * p;
    assert a1 * p / p == a1;
    assert v2 - v1 == (a2 - a1) * p;
    if a1 < a2 {
      assert (a2 - a1) * p > 0.0;
    } else {
      assert (a1 - a2) * p >= 0.0;
    }
  }

  /** `getChangeColor` on `parseFloat(change)`; `None` is NaN. */
  function ChangeColor(change: Option<real>): (c: string)
    ensures c in {"text-green-500", "text-red-500", "text-gray-500"}
  {
    if change.Some? && change.value > 0.0 then "text-green-500"
    else if change.Some? && change.value < 0.0 then "text-red-500"
    else "text-gray-500"
  }

  /** Green exactly for a rise, red exactly for a fall; no change and NaN
      are grey. */
  lemma ChangeColorMeaning(change: Option<real>)
    ensures ChangeColor(change) == "text-green-500" <==> change.Some? && change.value > 0.0
    ensures ChangeColor(change) == "text-red-500" <==> change.Some? && change.value < 0.0
    ensures ChangeColor(change) == "text-gray-500" <==> change.None? || change.value == 0.0
  {
  }

  /** Every field of the form at once. `pendingClears` counts the
      five-second timers, each of which empties the message whatever it
      then shows. */
  datatype State = State(
    isTrading: bool, orderType: OrderType, side: Side, amount: Option<real>, price: Option<real>,
    isLoading: bool, message: Notice, currentPrice: Option<real>, balance: Option<Balance>,
    recentOrders: seq<Order>, pendingClears: nat, lastMessage: Option<Message>)

  /** The message effect: a price update sets the current price, a balance
      update the balance, an order update is prepended to the five most
      recent orders, announced, and a timer to clear the announcement is
      started; every other type changes nothing. */
  function Received(st: State, m: Message): (r: State)
    ensures r.lastMessage == Some(m)
    ensures r.isTrading == st.isTrading && r.orderType == st.orderType && r.side == st.side
    ensures r.amount == st.amount && r.price == st.price && r.isLoading == st.isLoading
    ensures |st.recentOrders| <= MaxRecentOrders ==> |r.recentOrders| <= MaxRecentOrders
  {
    var base := st.(lastMessage := Some(m));
    match m
    case PriceUpdate(price, _) => base.(currentPrice := Some(price))
    case BalanceUpdate(b) => base.(balance := Some(b))
    case OrderUpdate(o) =>
      base.(recentOrders := PrependCapped(o, st.recentOrders, MaxRecentOrders),
            message := OrderNotice(o), pendingClears := st.pendingClears + 1)
    case _ => base
  }

  /** An order update comes first among at most five recent orders, the
      previous ones following in order. */
  lemma ReceivedOrder(st: State, o: Order)
    ensures var r := Received(st, OrderUpdate(o)).recentOrders;
      && |r| == (if |st.recentOrders| + 1 <= MaxRecentOrders then |st.recentOrders| + 1 else MaxRecentOrders)
      && r[0] == o
      && forall i :: 1 <= i < |r| ==> r[i] == st.recentOrders[i - 1]
  {
  }

  /** A price update touches only the current price, a balance update only
      the balance, and any frame other than an order update leaves the
      form, the orders and the message alone. */
  lemma ReceivedTouchesOneField(st: State, m: Message)
    ensures m.PriceUpdate? ==> Received(st, m) == st.(currentPrice := Some(m.price), lastMessage := Some(m))
    ensures m.BalanceUpdate? ==> Received(st, m) == st.(balance := Some(m.balance), lastMessage := Some(m))
    ensures !m.PriceUpdate? && !m.BalanceUpdate? && !m.OrderUpdate? ==> Received(st, m) == st.(lastMessage := Some(m))
  {
  }

  /** Submitting: with a required field empty, only the message changes;
      otherwise the request goes out, the form is busy and the message is
      emptied. */
  function Submitted(st: State): (r: State)
    ensures r.amount == st.amount && r.price == st.price && r.side == st.side && r.orderType == st.orderType
    ensures r.recentOrders == st.recentOrders && r.balance == st.balance && r.currentPrice == st.currentPrice
    ensures !st.isLoading ==> (r.isLoading <==> ShapeRequest(st.side, st.orderType, st.amount, st.price).Some?)
  {
    if ShapeRequest(st.side, st.orderType, st.amount, st.price).None? then st.(message := MissingFields)
    else st.(isLoading := true, message := NoNotice)
  }

  /** The exchange answers: an accepted order empties the amount and price
      fields; a refused or failed one keeps them. Either way the form is no
      longer busy and the message reports the outcome. */
  function Settled(st: State, outcome: SubmitOutcome): (r: State)
    ensures !r.isLoading
    ensures outcome.Accepted? ==> r.amount.None? && r.price.None?
    ensures !outcome.Accepted? ==> r.amount == st.amount && r.price == st.price
    ensures r.side == st.side && r.orderType == st.orderType && r.recentOrders == st.recentOrders
  {
    match outcome
    case Accepted(text) => st.(isLoading := false, message := Placed(text), amount := None, price := None)
    case Refused(text) => st.(isLoading := false, message := Rejected(text))
    case RequestThrew => st.(isLoading := false, message := PlaceFailed)
  }

  /** A submission that goes out and is accepted leaves an empty form, so
      submitting again at once is refused until the amount is re-entered. */
  lemma AcceptedFormMustBeRefilled(st: State, text: string)
    requires ShapeRequest(st.side, st.orderType, st.amount, st.price).Some?
    ensures var after := Settled(Submitted(st), Accepted(text));
      && after.amount.None? && after.price.None? && !after.isLoading
      && Submitted(after) == after.(message := MissingFields)
  {
  }

  /** A refused or failed order keeps every field of the form, so the same
      request can be posted again. */
  lemma FailedFormIsKept(st: State, outcome: SubmitOutcome)
    requires ShapeRequest(st.side, st.orderType, st.amount, st.price).Some? && !outcome.Accepted?
    ensures var after := Settled(Submitted(st), outcome);
      && after.amount == st.amount && after.price == st.price
      && after.side == st.side && after.orderType == st.orderType
      && ShapeRequest(after.side, after.orderType, after.amount, after.price)
         == ShapeRequest(st.side, st.orderType, st.amount, st.price)
  {
  }

  class Form {
    var isTrading: bool
    var orderType: OrderType
    var side: Side
    var amount: Option<real>
    var price: Option<real>
    var isLoading: bool
    var message: Notice
    var currentPrice: Option<real>
    var balance: Option<Balance>
    var recentOrders: seq<Order>
    var pendingClears: nat
    var lastMessage: Option<Message>

    function Snapshot(): State
      reads this
    {
      State(isTrading, orderType, side, amount, price, isLoading, message, currentPrice, balance,
            recentOrders, pendingClears, lastMessage)
    }

    /** At most five recent orders are ever shown. */
    ghost predicate Valid()
      reads this
    {
      |recentOrders| <= MaxRecentOrders
    }

    constructor()
      ensures Snapshot() == State(false, Market, Buy, None, None, false, NoNotice, None, None, [], 0, None)
      ensures Valid()
    {
      isTrading := false;
      orderType := Market;
      side := Buy;
      amount := None;
      price := None;
      isLoading := false;
      message := NoNotice;
      currentPrice := None;
      balance := None;
      recentOrders := [];
      pendingClears := 0;
      lastMessage := None;
    }

    method OnMessage(m: Message)
      modifies this
      ensures Snapshot() == Received(old(Snapshot()), m)
      ensures old(Valid()) ==> Valid()
    {
      lastMessage := Some(m);
      match m {
        case PriceUpdate(p, _) =>
          currentPrice := Some(p);
        case BalanceUpdate(b) =>
          balance := Some(b);
        case OrderUpdate(o) =>
          RecordOrder(o);
        case _ =>
      }
    }

    /** An order update goes first among the recent orders (at most 5), is
        announced, and sets a five-second timer to clear the notice. */
    method RecordOrder(o: Order)
      modifies this
      ensures Snapshot() == old(Snapshot()).(recentOrders := PrependCapped(o, old(recentOrders), MaxRecentOrders),
        message := OrderNotice(o), pendingClears := old(pendingClears) + 1)
    {
      recentOrders := PrependCapped(o, recentOrders, MaxRecentOrders);
      message := OrderNotice(o);
      pendingClears := pendingClears + 1;
    }

    /** One of the five-second timers fires and empties the message. */
    method NoticeTimerFires()
      requires pendingClears > 0
      modifies this
      ensures Snapshot() == old(Snapshot()).(message := NoNotice, pendingClears := old(pendingClears) - 1)
    {
      message := NoNotice;
      pendingClears := pendingClears - 1;
    }

    /** The form's inputs: the order type and side radios and the two
        number fields. */
    method Edit(orderType: OrderType, side: Side, amount: Option<real>, price: Option<real>)
      modifies this
      ensures Snapshot() == old(Snapshot()).(orderType := orderType, side := side, amount := amount, price := price)
    {
      this.orderType := orderType;
      this.side := side;
      this.amount := amount;
      this.price := price;
    }

    /** `handleSubmit` up to the request: `request` is what is posted, if
        anything. The submit button is disabled while a request is in
        flight, so the form cannot be submitted then. */
    method Submit() returns (request: Option<OrderRequest>)
      requires !isLoading
      modifies this
      ensures request == ShapeRequest(old(side), old(orderType), old(amount), old(price))
      ensures Snapshot() == Submitted(old(Snapshot()))
    {
      request := ShapeRequest(side, orderType, amount, price);
      if request.None? {
        message := MissingFields;
        return;
      }
      isLoading := true;
      message := NoNotice;
    }

    /** The rest of `handleSubmit`, once the exchange answers. */
    method CompleteSubmit(outcome: SubmitOutcome)
      modifies this
      ensures Snapshot() == Settled(old(Snapshot()), outcome)
    {
      match outcome {
        case Accepted(text) =>
          message := Placed(text);
          amount := None;
          price := None;
        case Refused(text) =>
          message := Rejected(text);
        case RequestThrew =>
          message := PlaceFailed;
      }
      isLoading := false;
    }

    /** `toggleTrading`: flips the local trading flag and nothing else. */
    method ToggleTrading()
      modifies this
      ensures Snapshot() == old(Snapshot()).(isTrading := !old(isTrading))
    {
      isTrading := !isTrading;
    }
  }
}
