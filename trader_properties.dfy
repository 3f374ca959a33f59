/**
 Properties of the trade rule, of the trade log and of the dashboard's
 recent-entries list, stated over the specification functions of `Trader`.
 */
module TraderProperties {
  import opened Trader

  // ---------------------------------------------------------------------
  // The trade rule, one cycle at a time
  // ---------------------------------------------------------------------

  /** Distinct actions are written to the log's Action column with distinct tags. */
  lemma TagInjective(a: Action, b: Action)
    requires Tag(a) == Tag(b)
    ensures a == b
  {
  }

  /** INIT happens exactly when there is no reference price; it then only records the price. */
  lemma InitRule(s: Snapshot, price: real)
    requires price > 0.0
    ensures Trade(s, price).action == Init <==> s.lastPrice == 0.0
    ensures s.lastPrice == 0.0 ==>
      Trade(s, price) == Outcome(s.(lastPrice := price), Init, Initialized)
  {
  }

  /** BUY happens exactly on a drop with enough cash, and moves exactly $100 into BTC at the current price. */
  lemma BuyRule(s: Snapshot, price: real)
    requires price > 0.0
    ensures var o := Trade(s, price);
      o.action == Buy <==> s.lastPrice != 0.0 && price < s.lastPrice * DropFactor && s.cash >= Notional
    ensures var o := Trade(s, price);
      o.action == Buy ==>
        o.next.cash == s.cash - Notional && o.next.btc == s.btc + Notional / price
        && o.message == Bought(Notional / price)
  {
  }

  /** A drop without $100 of cash is a HOLD with an empty message and no change of balances. */
  lemma BuyShortfall(s: Snapshot, price: real)
    requires price > 0.0 && s.lastPrice != 0.0
    requires price < s.lastPrice * DropFactor && s.cash < Notional
    ensures var o := Trade(s, price);
      o.action == Hold && o.message == NoMessage && o.next.cash == s.cash && o.next.btc == s.btc
  {
  }

  /** SELL happens exactly on a rise with enough BTC, and moves exactly $100 worth of BTC into cash. */
  lemma SellRule(s: Snapshot, price: real)
    requires price > 0.0
    ensures var o := Trade(s, price);
      o.action == Sell <==>
        s.lastPrice != 0.0 && price > s.lastPrice * RiseFactor && s.btc >= Notional / price
    ensures var o := Trade(s, price);
      o.action == Sell ==>
        o.next.cash == s.cash + Notional && o.next.btc == s.btc - Notional / price && o.message == Sold
  {
  }

  /** A rise without $100 worth of BTC is a HOLD with an empty message and no change of balances. */
  lemma SellShortfall(s: Snapshot, price: real)
    requires price > 0.0 && s.lastPrice != 0.0
    requires price > s.lastPrice * RiseFactor && s.btc < Notional / price
    ensures var o := Trade(s, price);
      o.action == Hold && o.message == NoMessage && o.next.cash == s.cash && o.next.btc == s.btc
  {
  }

  /** A price inside the band, both thresholds included, is a HOLD with the small-movement message. */
  lemma SmallMovementRule(s: Snapshot, price: real)
    requires price > 0.0 && s.lastPrice != 0.0
    requires s.lastPrice * DropFactor <= price <= s.lastPrice * RiseFactor
    ensures var o := Trade(s, price);
      o.action == Hold && o.message == SmallMovement && o.next.cash == s.cash && o.next.btc == s.btc
  {
  }

  /** The explanation is empty exactly for the two shortfall HOLDs. */
  lemma EmptyMessageIsShortfall(s: Snapshot, price: real)
    requires price > 0.0
    ensures Trade(s, price).message == NoMessage <==>
      s.lastPrice != 0.0 &&
      ((price < s.lastPrice * DropFactor && s.cash < Notional) ||
       (!(price < s.lastPrice * DropFactor) && price > s.lastPrice * RiseFactor && s.btc < Notional / price))
  {
  }

  /** HOLD and INIT leave cash and BTC as they were. */
  lemma HoldKeepsBalances(s: Snapshot, price: real)
    requires price > 0.0
    requires Trade(s, price).action in {Hold, Init}
    ensures Trade(s, price).next.cash == s.cash && Trade(s, price).next.btc == s.btc
  {
  }

  /** No cycle makes cash or BTC negative. */
  lemma TradeKeepsNonNegative(s: Snapshot, price: real)
    requires price > 0.0 && s.cash >= 0.0 && s.btc >= 0.0
    ensures Trade(s, price).next.cash >= 0.0 && Trade(s, price).next.btc >= 0.0
  {
  }

  /** After every non-INIT cycle the price becomes the reference and the total is revalued at it. */
  lemma Revaluation(s: Snapshot, price: real)
    requires price > 0.0
    requires Trade(s, price).action != Init
    ensures var n := Trade(s, price).next;
      n.lastPrice == price && n.totalValue == n.cash + n.btc * price
  {
  }

  /**
   Trading at the current price does not change what the holdings are worth:
   after every non-INIT cycle the total equals the old cash plus the old BTC
   marked at the current price.
   */
  lemma TradeKeepsValue(s: Snapshot, price: real)
    requires price > 0.0
    requires Trade(s, price).action != Init
    ensures Trade(s, price).next.totalValue == s.cash + s.btc * price
  {
  }

  // ---------------------------------------------------------------------
  // Many cycles
  // ---------------------------------------------------------------------

  ghost predicate AllPositive(prices: seq<real>)
  {
    forall i :: 0 <= i < |prices| ==> prices[i] > 0.0
  }

  /** The record after one cycle per price, in order. */
  ghost function Run(s: Snapshot, prices: seq<real>): (r: Snapshot)
    requires AllPositive(prices)
    decreases |prices|
  {
    if prices == [] then s else Run(Trade(s, prices[0]).next, prices[1..])
  }

  /** Non-negative balances stay non-negative over any number of cycles. */
  lemma {:induction false} RunKeepsNonNegative(s: Snapshot, prices: seq<real>)
    requires AllPositive(prices) && s.cash >= 0.0 && s.btc >= 0.0
    ensures Run(s, prices).cash >= 0.0 && Run(s, prices).btc >= 0.0
    decreases |prices|
  {
    if prices != [] {
      TradeKeepsNonNegative(s, prices[0]);
      RunKeepsNonNegative(Trade(s, prices[0]).next, prices[1..]);
    }
  }

  /** After any non-empty run the reference price is the last price seen, whatever the actions were. */
  lemma {:induction false} RunFollowsLastPrice(s: Snapshot, prices: seq<real>)
    requires AllPositive(prices) && prices != []
    ensures Run(s, prices).lastPrice == prices[|prices| - 1]
    decreases |prices|
  {
    if |prices| > 1 {
      RunFollowsLastPrice(Trade(s, prices[0]).next, prices[1..]);
    }
  }

  // ---------------------------------------------------------------------
  // The trade log
  // ---------------------------------------------------------------------

  /** The log holding `rows`: empty, or the header followed by the rows. */
  function Log(rows: seq<string>): (r: seq<string>)
  {
    if rows == [] then [] else [Header] + rows
  }

  /** The log after appending `rows` one by one. */
  function AppendAll(lines: seq<string>, rows: seq<string>): (r: seq<string>)
    decreases |rows|
  {
    if rows == [] then lines else Appended(AppendAll(lines, rows[..|rows| - 1]), rows[|rows| - 1])
  }

  /** One append to a well-formed log adds exactly that row after the existing rows. */
  lemma AppendExtendsLog(rows: seq<string>, row: string)
    ensures Appended(Log(rows), row) == Log(rows + [row])
  {
  }

  /** Appending rows to a well-formed log gives the log of all rows. */
  lemma {:induction false} AppendAllBuildsLog(prev: seq<string>, rows: seq<string>)
    ensures AppendAll(Log(prev), rows) == Log(prev + rows)
    decreases |rows|
  {
    if rows == [] {
      assert prev + rows == prev;
    } else {
      var init, last := rows[..|rows| - 1], rows[|rows| - 1];
      AppendAllBuildsLog(prev, init);
      AppendExtendsLog(prev + init, last);
      assert prev + init + [last] == prev + rows;
    }
  }

  /**
   However many rows are appended to an empty log, the header is its first
   line and appears exactly once (no row is a header: each starts with a
   timestamp), and every row follows it in append order.
   */
  lemma {:induction false} HeaderExactlyOnce(rows: seq<string>)
    requires rows != [] && Header !in rows
    ensures var lines := AppendAll([], rows);
      lines[0] == Header && multiset(lines)[Header] == 1 && lines[1..] == rows
  {
    AppendAllBuildsLog([], rows);
    assert [] + rows == rows;
    assert multiset(rows)[Header] == 0;
    assert multiset([Header] + rows) == multiset([Header]) + multiset(rows);
  }

  // ---------------------------------------------------------------------
  // The dashboard's recent entries
  // ---------------------------------------------------------------------

  /** Once the log has five lines, each new row pushes out the oldest shown line. */
  lemma RecentSlides(lines: seq<string>, row: string)
    requires |lines| >= 5
    ensures Recent(lines + [row]) == Recent(lines)[1..] + ["- " + row]
  {
  }

  /** Different lines get different bullets. */
  lemma BulletInjective(a: string, b: string)
    requires "- " + a == "- " + b
    ensures a == b
  {
    assert a == ("- " + a)[2..];
    assert b == ("- " + b)[2..];
  }

  /** The dashboard shows the header line exactly when the log has between one and four rows. */
  lemma RecentShowsHeader(rows: seq<string>)
    requires Header !in rows
    ensures ("- " + Header) in Recent(Log(rows)) <==> 0 < |rows| < 5
  {
    var lines := Log(rows);
    var r := Recent(lines);
    if ("- " + Header) in r {
      var i :| 0 <= i < |r| && r[i] == "- " + Header;
      BulletInjective(lines[|lines| - |r| + i], Header);
      assert lines[|lines| - |r| + i] == Header;
      assert |lines| - |r| + i == 0;
    }
    if 0 < |rows| < 5 {
      assert r[0] == "- " + Header;
    }
  }

  // ---------------------------------------------------------------------
  // Scenarios
  // ---------------------------------------------------------------------

  /**
   From the default record the cycle is INIT and changes only the reference
   price. Together with `Portfolio.Step`, which saves nothing on INIT, this
   means an absent state file stays absent.
   */
  lemma FreshStartIsInit(price: real)
    requires price > 0.0
    ensures Trade(Loaded(None), price).action == Init
    ensures Trade(Loaded(None), price).next == Default().(lastPrice := price)
  {
  }

  /** A 4% drop from 50000 with full cash buys 100/48000 BTC and keeps the total at 10000. */
  lemma DropScenario()
    ensures Trade(Snapshot(10000.0, 0.0, 50000.0, 10000.0), 48000.0)
      == Outcome(Snapshot(9900.0, 100.0 / 48000.0, 48000.0, 10000.0), Buy, Bought(100.0 / 48000.0))
  {
  }

  /** A 3% rise with no BTC is a silent HOLD that only moves the reference price. */
  lemma RiseWithoutBtcScenario()
    ensures Trade(Snapshot(10000.0, 0.0, 50000.0, 10000.0), 51500.0)
      == Outcome(Snapshot(10000.0, 0.0, 51500.0, 10000.0), Hold, NoMessage)
  {
  }

  /** A 0.8% rise is a small-movement HOLD that moves the reference price. */
  lemma SmallRiseScenario()
    ensures Trade(Snapshot(10000.0, 0.0, 50000.0, 10000.0), 50400.0)
      == Outcome(Snapshot(10000.0, 0.0, 50400.0, 10000.0), Hold, SmallMovement)
  {
  }
}
