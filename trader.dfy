/**
 A paper-trading bot: one cycle reads a price, applies a fixed-threshold
 buy/sell rule against the price seen last cycle, updates the portfolio
 record in place, appends one row to a CSV trade log, saves the record, and
 renders a dashboard from the record and the last log lines.

 Prices and balances are `real`; the source's IEEE doubles are not modelled.
 */
module Trader {

  datatype Option<+T> = None | Some(value: T)

  /** Starting cash of a fresh portfolio, in USD. */
  const InitialCash: real := 10000.0
  /** The fixed dollar amount bought or sold by one BUY or SELL. */
  const Notional: real := 100.0
  /** A price below `DropFactor * lastPrice` is a drop worth buying. */
  const DropFactor: real := 0.98
  /** A price above `RiseFactor * lastPrice` is a rise worth selling. */
  const RiseFactor: real := 1.02

  /** First line of a non-empty trade log. */
  const Header: string := "Date,Action,Price,Total Value,Details"

  /** The persisted portfolio record: the four keys of the JSON state file. */
  datatype Snapshot = Snapshot(cash: real, btc: real, lastPrice: real, totalValue: real)

  datatype Action = Init | Buy | Sell | Hold

  /** The explanation returned with an action; `NoMessage` is the empty string. */
  datatype Message =
    | NoMessage
    | Initialized
    | Bought(btc: real)
    | Sold
    | SmallMovement

  /** What one cycle decides: the new record, the action and its explanation. */
  datatype Outcome = Outcome(next: Snapshot, action: Action, message: Message)

  /** The fields of one log row, before they are formatted into CSV text; `action` is the action's tag. */
  datatype Entry = Entry(timestamp: string, action: string, price: real, totalValue: real, message: Message)

  /** The action's tag as it is returned and written to the log: one comma-free CSV field. */
  function Tag(a: Action): (r: string)
    ensures r != "" && ',' !in r
  {
    match a
    case Init => "INIT"
    case Buy => "BUY"
    case Sell => "SELL"
    case Hold => "HOLD"
  }

  /** The explanation text; `btcText` is the six-decimal rendering of the amount a BUY obtained. */
  function MessageText(m: Message, btcText: string): (r: string)
    ensures r == "" <==> m == NoMessage
    ensures ',' !in btcText ==> ',' !in r
  {
    match m
    case NoMessage => ""
    case Initialized => "初始化价格"
    case Bought(_) => "价格下跌，买入 100 USD (获得 " + btcText + " BTC)"
    case Sold => "价格上涨，卖出 100 USD"
    case SmallMovement => "波动太小，保持持有 (Hold)"
  }

  /** The record used when no state file exists: full cash, no holdings, no reference price. */
  function Default(): (s: Snapshot)
    ensures s.lastPrice == 0.0 && s.cash >= 0.0 && s.btc == 0.0
    ensures s.totalValue == s.cash && ProfitPercent(s.totalValue) == 0.0
  {
    Snapshot(InitialCash, 0.0, 0.0, InitialCash)
  }

  /** The record a cycle starts from: the stored one, or the default when the file is absent. */
  function Loaded(stored: Option<Snapshot>): (r: Snapshot)
    ensures stored.Some? ==> r == stored.value
    ensures stored.None? ==> r.lastPrice == 0.0 && r.btc == 0.0 && r.cash == r.totalValue == InitialCash
  {
    match stored
    case None => Default()
    case Some(s) => s
  }

  /** The record after a non-INIT cycle: the new balances, revalued at the current price. */
  function Settle(cash: real, btc: real, price: real, action: Action, message: Message): (o: Outcome)
    ensures o.next.totalValue == o.next.cash + o.next.btc * o.next.lastPrice
    ensures o.next.lastPrice == price && o.action == action
    ensures o.next.cash == cash && o.next.btc == btc && o.message == message
  {
    Outcome(Snapshot(cash, btc, price, cash + btc * price), action, message)
  }

  /**
   The trade rule: the specification of `Portfolio.Step`. Comparisons are
   strict, so a price exactly on a threshold is a small movement, and a
   short balance turns BUY or SELL into a HOLD with no explanation.
   */
  function Trade(s: Snapshot, price: real): (o: Outcome)
    requires price > 0.0
    ensures o.next.lastPrice == price
    ensures o.action == Init ==> o.next == s.(lastPrice := price)
    ensures o.action != Init ==> o.next.totalValue == o.next.cash + o.next.btc * price
  {
    if s.lastPrice == 0.0 then
      Outcome(s.(lastPrice := price), Init, Initialized)
    else if price < s.lastPrice * DropFactor then
      if s.cash >= Notional then
        Settle(s.cash - Notional, s.btc + Notional / price, price, Buy, Bought(Notional / price))
      else
        Settle(s.cash, s.btc, price, Hold, NoMessage)
    else if price > s.lastPrice * RiseFactor then
      if s.btc >= Notional / price then
        Settle(s.cash + Notional, s.btc - Notional / price, price, Sell, Sold)
      else
        Settle(s.cash, s.btc, price, Hold, NoMessage)
    else
      Settle(s.cash, s.btc, price, Hold, SmallMovement)
  }

  /** The log after one append: a header first when the log was empty, then the row. */
  function Appended(lines: seq<string>, row: string): (r: seq<string>)
    ensures lines == [] ==> r == [Header, row]
    ensures lines != [] ==> |r| == |lines| + 1
    ensures |r| > |lines| && r[..|lines|] == lines && r[|r| - 1] == row
  {
    lines + (if lines == [] then [Header] else []) + [row]
  }

  /** Each line prefixed with a dash, in order. */
  function Bullets(lines: seq<string>): (r: seq<string>)
    ensures |r| == |lines|
    ensures forall i :: 0 <= i < |lines| ==> r[i] == "- " + lines[i]
  {
    if lines == [] then [] else ["- " + lines[0]] + Bullets(lines[1..])
  }

  /** The dashboard's recent entries: the last (at most five) log lines, header included, in order. */
  function Recent(lines: seq<string>): (r: seq<string>)
    ensures |r| == if |lines| < 5 then |lines| else 5
    ensures forall i :: 0 <= i < |r| ==> r[i] == "- " + lines[|lines| - |r| + i]
  {
    Bullets(lines[(if |lines| < 5 then 0 else |lines| - 5)..])
  }

  /** Profit against the starting cash, in percent. */
  function ProfitPercent(totalValue: real): (p: real)
    ensures p >= 0.0 <==> totalValue >= InitialCash
    ensures p == 0.0 <==> totalValue == InitialCash
  {
    (totalValue - InitialCash) / InitialCash * 100.0
  }

  datatype Color = Green | Red

  /** The dashboard's profit indicator: green exactly when the portfolio is at or above its starting cash. */
  function ProfitColor(totalValue: real): (c: Color)
    ensures c == Green <==> totalValue >= InitialCash
  {
    if ProfitPercent(totalValue) >= 0.0 then Green else Red
  }

  /** The JSON state file; `None` when it does not exist. */
  class StateFile {
    var record: Option<Snapshot>

    constructor (record: Option<Snapshot>)
      ensures this.record == record
    {
      this.record := record;
    }

    /** Overwrites the file with `s`. */
    method Save(s: Snapshot)
      modifies this
      ensures record == Some(s)
    {
      record := Some(s);
    }
  }

  /** The CSV trade log as its lines, without line terminators. */
  class TradeLog {
    var lines: seq<string>

    constructor (lines: seq<string>)
      ensures this.lines == lines
    {
      this.lines := lines;
    }

    /** Appends `row`, writing the header first when the log is empty. */
    method Append(row: string)
      modifies this
      ensures lines == Appended(old(lines), row)
    {
      if lines == [] {
        lines := lines + [Header];
      }
      lines := lines + [row];
    }
  }

  /** The portfolio record held in memory during a cycle, updated field by field. */
  class Portfolio {
    var cash: real
    var btc: real
    var lastPrice: real
    var totalValue: real

    function State(): (s: Snapshot)
      reads this
    {
      Snapshot(cash, btc, lastPrice, totalValue)
    }

    /** Reads the state file, or starts from the default record when it is absent. */
    constructor Load(file: StateFile)
      ensures State() == Loaded(file.record)
    {
      var s := Loaded(file.record);
      cash, btc, lastPrice, totalValue := s.cash, s.btc, s.lastPrice, s.totalValue;
    }

    /**
     One trade cycle at `currentPrice`. INIT only records the price and
     returns: it writes no log row and does not save. Every other action
     revalues the record, appends one row rendered from its fields by
     `render` (the timestamp and number formatting), and saves the record.
     */
    method Step(currentPrice: real, log: TradeLog, file: StateFile, timestamp: string, render: Entry -> string)
      returns (action: Action, message: Message)
      requires currentPrice > 0.0
      modifies this, log, file
      ensures State() == Trade(old(State()), currentPrice).next
      ensures action == Trade(old(State()), currentPrice).action
      ensures message == Trade(old(State()), currentPrice).message
      ensures action == Init ==> log.lines == old(log.lines) && file.record == old(file.record)
      ensures action != Init ==>
        log.lines == Appended(old(log.lines), render(Entry(timestamp, Tag(action), currentPrice, totalValue, message)))
        && file.record == Some(State())
    {
      var last := lastPrice;
      action, message := Hold, NoMessage;

      if last == 0.0 {
        lastPrice := currentPrice;
        return Init, Initialized;
      }

      if currentPrice < last * DropFactor {
        if cash >= Notional {
          var bought := Notional / currentPrice;
          btc := btc + bought;
          cash := cash - Notional;
          action, message := Buy, Bought(bought);
        }
      } else if currentPrice > last * RiseFactor {
        var toSell := Notional / currentPrice;
        if btc >= toSell {
          btc := btc - toSell;
          cash := cash + Notional;
          action, message := Sell, Sold;
        }
      } else {
        message := SmallMovement;
      }

      totalValue := cash + btc * currentPrice;
      lastPrice := currentPrice;

      log.Append(render(Entry(timestamp, Tag(action), currentPrice, totalValue, message)));
      file.Save(State());
    }
  }
}
