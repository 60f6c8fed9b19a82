/**
 * The trading log page (src/components/TradingLogs.jsx): a newest-first
 * list of at most 100 entries fed by the price feed, the manual buttons and
 * the auto-trading toggle, each entry drawn with an icon and a colour that
 * depend on its type.
 */
module TradingLogs {
  import opened Common
  import opened Messages

  const MaxLogs: nat := 100

  /** The text of an entry. The fixed texts are written in the comments; an
      order's amount is printed as JavaScript prints a number. */
  datatype LogText =
    | OrderText(side: string, amount: real)  // "📋 Order: <SIDE> <amount> SOL"
    | BalanceText                            // "💰 Balance updated"
    | BotText(text: string)                  // the bot's own message, verbatim
    | ToggleText(message: string)            // "🤖 " followed by the server's message
    | ToggleFailedText                       // "❌ Failed to toggle auto-trading"
    | ToggleErrorText                        // "❌ Error toggling auto-trading"
    | ManualBuyText                          // "🟢 Manual BUY order placed"
    | ManualSellText                         // "🔴 Manual SELL order placed"
    | ProfitText                             // "🎯 Profit target reached"

  /** One entry; `kind` is its `type`, which picks the icon and colour. */
  datatype LogEntry = LogEntry(text: LogText, kind: string)

  function UpperChar(c: char): (u: char)
    ensures 'a' <= c <= 'z' ==> 'A' <= u <= 'Z' && u as int == c as int - 32
    ensures !('a' <= c <= 'z') ==> u == c
  {
    if 'a' <= c <= 'z' then (c as int - 32) as char else c
  }

  /** `toUpperCase` on the ASCII letters. */
  function AsciiUpper(s: string): (r: string)
    ensures |r| == |s|
    ensures forall i :: 0 <= i < |s| ==> r[i] == UpperChar(s[i])
  {
    seq(|s|, i requires 0 <= i < |s| => UpperChar(s[i]))
  }

  /** Upper-casing leaves no lower-case ASCII letter, changes nothing else,
      and doing it twice is doing it once. */
  lemma AsciiUpperProperties(s: string)
    ensures forall i :: 0 <= i < |s| ==> !('a' <= AsciiUpper(s)[i] <= 'z')
    ensures forall i :: 0 <= i < |s| && !('a' <= s[i] <= 'z') ==> AsciiUpper(s)[i] == s[i]
    ensures AsciiUpper(AsciiUpper(s)) == AsciiUpper(s)
  {
  }

  /** `getLogIcon`: a table of eight types; every other type, a missing one
      included, shows the information sign. */
  function LogIcon(kind: Option<string>): (icon: string)
    ensures kind.None? ==> icon == "\U{2139}\U{FE0F}"
  {
    match kind
    case None => "\U{2139}\U{FE0F}"
    case Some(k) =>
      if k == "order" then "\U{1F4CB}"
      else if k == "balance" then "\U{1F4B0}"
      else if k == "buy" then "\U{1F7E2}"
      else if k == "sell" then "\U{1F534}"
      else if k == "profit" then "\U{1F3AF}"
      else if k == "loss" then "\U{1F6D1}"
      else if k == "error" then "❌"
      else "\U{2139}\U{FE0F}"
  }

  /** `getLogColor`: a table of eight types; every other type, a missing
      one included, is grey. */
  function LogColor(kind: Option<string>): (color: string)
    ensures kind.None? ==> color == "text-gray-300"
  {
    match kind
    case None => "text-gray-300"
    case Some(k) =>
      if k == "buy" then "text-green-400"
      else if k == "sell" then "text-red-400"
      else if k == "profit" then "text-yellow-400"
      else if k == "loss" then "text-red-500"
      else if k == "error" then "text-red-600"
      else if k == "order" then "text-blue-400"
      else if k == "balance" then "text-purple-400"
      else "text-gray-300"
  }

  /** The eight types the tables know. */
  predicate KnownKind(k: string) {
    k in {"order", "balance", "buy", "sell", "profit", "loss", "error", "info"}
  }

  /** An entry of an unknown type is drawn exactly like an "info" entry, and
      only "info" and unknown types get the information sign and grey. */
  lemma UnknownKindsLookLikeInfo(kind: Option<string>)
    ensures kind.None? || !KnownKind(kind.value) ==>
      LogIcon(kind) == LogIcon(Some("info")) && LogColor(kind) == LogColor(Some("info"))
    ensures LogIcon(kind) == "\U{2139}\U{FE0F}" <==> kind.None? || kind.value == "info" || !KnownKind(kind.value)
    ensures LogColor(kind) == "text-gray-300" <==> kind.None? || kind.value == "info" || !KnownKind(kind.value)
  {
  }

  /** `addLog`: the new entry first, then the newest 99 of the previous
      ones. */
  function AddLog(logs: seq<LogEntry>, e: LogEntry): (r: seq<LogEntry>)
    ensures |r| == if |logs| + 1 <= MaxLogs then |logs| + 1 else MaxLogs
    ensures r[0] == e
  {
    PrependCapped(e, logs, MaxLogs)
  }

  /** The entries already shown keep their relative order after an
      insertion; only the oldest one falls off a full list. */
  lemma AddLogKeepsOrder(logs: seq<LogEntry>, e: LogEntry)
    ensures AddLog(logs, e)[1..] == (if |logs| < MaxLogs then logs else logs[..MaxLogs - 1])
  {
    var r := AddLog(logs, e);
    var kept := if |logs| < MaxLogs then logs else logs[..MaxLogs - 1];
    assert |r[1..]| == |kept|;
    forall i | 0 <= i < |kept|
      ensures r[1..][i] == kept[i]
    {
      assert r[i + 1] == logs[i];
    }
  }

  /** The entry a frame adds: an order update as an "order" entry with the
      side upper-cased, a balance update as a "balance" entry, a bot log
      with its own text and type ("info" when it has none); nothing for
      any other frame. */
  function EntryFor(m: Message): (e: Option<LogEntry>)
    ensures e.Some? <==> m.OrderUpdate? || m.BalanceUpdate? || m.TradingLog?
    ensures m.TradingLog? ==> e.value.text == BotText(m.text) && e.value.kind == m.logType.GetOr("info")
  {
    match m
    case OrderUpdate(o) => Some(LogEntry(OrderText(AsciiUpper(o.side), o.amount), "order"))
    case BalanceUpdate(_) => Some(LogEntry(BalanceText, "balance"))
    case TradingLog(text, logType) => Some(LogEntry(BotText(text), logType.GetOr("info")))
    case _ => None
  }

  /** An order entry names the side in capitals and is drawn with the order
      icon in blue. */
  lemma OrderEntryShape(o: Order)
    ensures var e := EntryFor(OrderUpdate(o)).value;
      && e.text.OrderText? && e.text.amount == o.amount
      && |e.text.side| == |o.side|
      && (forall i :: 0 <= i < |e.text.side| ==> !('a' <= e.text.side[i] <= 'z'))
      && LogIcon(Some(e.kind)) == "\U{1F4CB}" && LogColor(Some(e.kind)) == "text-blue-400"
  {
    AsciiUpperProperties(o.side);
  }

  class Page {
    var logs: seq<LogEntry>
    var autoTradeStatus: Option<AutoTradeStatus>
    var isToggling: bool
    var lastMessage: Option<Message>

    /** At most 100 entries are ever kept. */
    ghost predicate Valid()
      reads this
    {
      |logs| <= MaxLogs
    }

    constructor()
      ensures logs == [] && autoTradeStatus.None? && !isToggling && lastMessage.None?
      ensures Valid()
    {
      logs := [];
      autoTradeStatus := None;
      isToggling := false;
      lastMessage := None;
    }

    method AddEntry(e: LogEntry)
      modifies this
      ensures logs == AddLog(old(logs), e)
      ensures autoTradeStatus == old(autoTradeStatus) && isToggling == old(isToggling) && lastMessage == old(lastMessage)
      ensures Valid()
    {
      logs := AddLog(logs, e);
    }

    /** The message switch: the frame's entry, if any, is added. */
    method OnMessage(m: Message)
      modifies this
      ensures lastMessage == Some(m)
      ensures logs == match EntryFor(m)
        case Some(e) => AddLog(old(logs), e)
        case None => old(logs)
      ensures autoTradeStatus == old(autoTradeStatus) && isToggling == old(isToggling)
      ensures old(Valid()) ==> Valid()
    {
      lastMessage := Some(m);
      var e := EntryFor(m);
      if e.Some? {
        AddEntry(e.value);
      }
    }

    /** The toggle button: ignored while a toggle is in flight; otherwise
        the flag is raised and the request goes out (`started`). */
    method BeginToggle() returns (started: bool)
      modifies this
      ensures started <==> !old(isToggling)
      ensures isToggling
      ensures logs == old(logs) && autoTradeStatus == old(autoTradeStatus) && lastMessage == old(lastMessage)
    {
      if isToggling {
        return false;
      }
      isToggling := true;
      started := true;
    }

    /** The toggle request ends: a successful one sets `enabled` from the
        reply, keeping the other status fields, and logs the server's
        message; a failed one logs an error. Either way the flag is
        lowered. */
    method FinishToggle(outcome: ToggleOutcome)
      modifies this
      ensures !isToggling && lastMessage == old(lastMessage)
      ensures match outcome
        case Toggled(enabled, text) =>
          && autoTradeStatus == Some(WithEnabled(old(autoTradeStatus), enabled))
          && logs == AddLog(old(logs), LogEntry(ToggleText(text), "info"))
        case HttpFailure =>
          autoTradeStatus == old(autoTradeStatus) && logs == AddLog(old(logs), LogEntry(ToggleFailedText, "error"))
        case RequestThrew =>
          autoTradeStatus == old(autoTradeStatus) && logs == AddLog(old(logs), LogEntry(ToggleErrorText, "error"))
      ensures Valid()
    {
      match outcome {
        case Toggled(enabled, text) =>
          autoTradeStatus := Some(WithEnabled(autoTradeStatus, enabled));
          AddEntry(LogEntry(ToggleText(text), "info"));
        case HttpFailure =>
          AddEntry(LogEntry(ToggleFailedText, "error"));
        case RequestThrew =>
          AddEntry(LogEntry(ToggleErrorText, "error"));
      }
      isToggling := false;
    }

    /** The three manual buttons. */
    method ManualBuy()
      modifies this
      ensures logs == AddLog(old(logs), LogEntry(ManualBuyText, "buy"))
      ensures autoTradeStatus == old(autoTradeStatus) && isToggling == old(isToggling) && lastMessage == old(lastMessage)
      ensures Valid()
    {
      AddEntry(LogEntry(ManualBuyText, "buy"));
    }

    method ManualSell()
      modifies this
      ensures logs == AddLog(old(logs), LogEntry(ManualSellText, "sell"))
      ensures autoTradeStatus == old(autoTradeStatus) && isToggling == old(isToggling) && lastMessage == old(lastMessage)
      ensures Valid()
    {
      AddEntry(LogEntry(ManualSellText, "sell"));
    }

    method ProfitReached()
      modifies this
      ensures logs == AddLog(old(logs), LogEntry(ProfitText, "profit"))
      ensures autoTradeStatus == old(autoTradeStatus) && isToggling == old(isToggling) && lastMessage == old(lastMessage)
      ensures Valid()
    {
      AddEntry(LogEntry(ProfitText, "profit"));
    }

    /** `clearLogs`. */
    method ClearLogs()
      modifies this
      ensures logs == []
      ensures autoTradeStatus == old(autoTradeStatus) && isToggling == old(isToggling) && lastMessage == old(lastMessage)
      ensures Valid()
    {
      logs := [];
    }
  }
}
