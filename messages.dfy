/**
 * The frames the backend pushes over the price feed, once parsed, and the
 * payloads the page components read from them: the balance snapshot
 * (read by `getBalanceDetails` in src/components/Dashboard.jsx and
 * src/components/TradingInterface.jsx, identically) and the auto-trading
 * status (toggled by src/components/Dashboard.jsx and
 * src/components/TradingLogs.jsx).
 */
module Messages {
  import opened Common

  /** One entry of `balance.data[0].details`. `availBal` is the decimal
      string the exchange sends, already read as a number; `None` when it is
      missing or empty (both fall to `|| 0`). */
  datatype BalanceDetail = BalanceDetail(ccy: string, availBal: Option<real>)

  /** One entry of `balance.data`. */
  datatype Account = Account(details: Option<seq<BalanceDetail>>)

  /** A balance snapshot: `{ data: [ { details: [...] }, ... ] }`, each level
      possibly absent. */
  datatype Balance = Balance(data: Option<seq<Account>>)

  datatype Order = Order(side: string, amount: real, status: string)

  /** A parsed inbound frame, discriminated on its `type` field. A price
      update may lack its `timestamp` (the components then read the clock). */
  datatype Message =
    | PriceUpdate(price: real, timestamp: Option<int>)
    | BalanceUpdate(balance: Balance)
    | OrderUpdate(order: Order)
    | MarketData(payload: string)
    | TradingLog(text: string, logType: Option<string>)
    | Unknown(kind: string)

  /** A price update as the pages keep it in their histories. */
  datatype PricePoint = PricePoint(price: real, timestamp: int)

  /** The time a price update is stamped with: its own, or the clock when
      it has none (`lastMessage.timestamp || new Date()`). */
  function StampOf(timestamp: Option<int>, now: int): int {
    timestamp.GetOr(now)
  }

  /** `details.find(item => item.ccy === ccy)`: the first entry with that
      currency code. */
  function Find(details: seq<BalanceDetail>, ccy: string): (r: Option<nat>)
    ensures r.Some? ==> r.value < |details| && details[r.value].ccy == ccy
    ensures r.Some? ==> forall k :: 0 <= k < r.value ==> details[k].ccy != ccy
    ensures r.None? ==> forall k :: 0 <= k < |details| ==> details[k].ccy != ccy
    decreases |details|
  {
    if details == [] then None
    else if details[0].ccy == ccy then Some(0)
    else match Find(details[1..], ccy)
      case None => None
      case Some(k) => Some(k + 1)
  }

  /** `parseFloat(entry?.availBal || 0)` for the first entry of `ccy`. */
  function AvailableOf(details: seq<BalanceDetail>, ccy: string): real {
    match Find(details, ccy)
    case None => 0.0
    case Some(k) => details[k].availBal.GetOr(0.0)
  }

  datatype BalanceDetails = BalanceDetails(sol: real, usdt: real)

  /** `getBalanceDetails`: the available SOL and USDT of the first account.
      Without a balance, accounts, a first account or its details, both are
      0; otherwise each is the available balance of the first detail entry
      with that currency code, 0 when there is none or it has no amount. */
  function GetBalanceDetails(b: Option<Balance>): (r: BalanceDetails)
    ensures (b.None? || b.value.data.None? || b.value.data.value == []
             || b.value.data.value[0].details.None?) ==> r == BalanceDetails(0.0, 0.0)
  {
    if b.None? || b.value.data.None? || b.value.data.value == [] || b.value.data.value[0].details.None? then
      BalanceDetails(0.0, 0.0)
    else
      var details := b.value.data.value[0].details.value;
      BalanceDetails(AvailableOf(details, "SOL"), AvailableOf(details, "USDT"))
  }

  /** What `getBalanceDetails` reports for a currency, stated without the
      search: the amount is that of an entry with the code such that no
      earlier entry has it, or 0 when no entry has it or the amount is
      missing. */
  lemma BalanceOfFirstEntry(details: seq<BalanceDetail>, ccy: string, k: nat)
    requires k < |details| && details[k].ccy == ccy
    requires forall j :: 0 <= j < k ==> details[j].ccy != ccy
    ensures AvailableOf(details, ccy) == details[k].availBal.GetOr(0.0)
  {
  }

  lemma BalanceOfMissingCurrency(details: seq<BalanceDetail>, ccy: string)
    requires forall j :: 0 <= j < |details| ==> details[j].ccy != ccy
    ensures AvailableOf(details, ccy) == 0.0
  {
  }

  /** Whether the last toggle request succeeded. `rest` stands for the
      status fields other than `enabled`, which `{...prev, enabled}` keeps. */
  datatype AutoTradeStatus = AutoTradeStatus(enabled: bool, rest: map<string, string>)

  /** How a toggle request ended: a JSON body with `enabled` and `message`,
      a non-OK HTTP status, or a thrown fetch. */
  datatype ToggleOutcome =
    | Toggled(enabled: bool, message: string)
    | HttpFailure
    | RequestThrew

  /** `setAutoTradeStatus(prev => ({...prev, enabled: result.enabled}))`. */
  function WithEnabled(prev: Option<AutoTradeStatus>, enabled: bool): (s: AutoTradeStatus)
    ensures s.enabled == enabled
    ensures prev.Some? ==> s.rest == prev.value.rest
    ensures prev.None? ==> s.rest == map[]
  {
    match prev
    case None => AutoTradeStatus(enabled, map[])
    case Some(p) => p.(enabled := enabled)
  }
}
