# PaperTradingBot, modelled in Dafny

A model of the decision core of a scheduled paper-trading bot (`trader.py`).
Each cycle the bot loads its portfolio record (`cash`, `btc`, `last_price`,
`total_value`), compares the current BTC price with the price of the previous
cycle, and picks one action:

- **INIT** when there is no reference price yet (`last_price == 0`). It only records the price.
- **BUY** $100 of BTC when the price fell below 98% of the reference and at least $100 of cash is held.
- **SELL** $100 worth of BTC when the price rose above 102% of the reference and enough BTC is held.
- **HOLD** otherwise.

Every action except INIT then revalues the record at the current price and
makes that price the next reference. It appends one row to the CSV trade log,
writing the header first when the log is empty, and saves the record. The
dashboard shows the last log lines (at most five) and a green or red profit indicator.

Files:

- `trader.dfy`, module `Trader`: the record (`Snapshot`), actions and messages, and the rule as a pure function `Trade`.
  - Three classes model the state the source changes in place. `Portfolio` is the in-memory record; its `Step` method follows `execute_trade` field by field. `TradeLog` is the log file as a `seq<string>` of lines. `StateFile` is the JSON file as an `Option<Snapshot>`.
  - It also holds the log-append rule, the default record and the dashboard's recent-entries list and profit colour.
- `trader_properties.dfy`, module `TraderProperties`: lemmas about the rule, about runs of many cycles, about the shape of the log and about the recent-entries list.

Prices and balances are `real`, and the thresholds are the exact rationals `0.98` and `1.02`.

Three behaviours of the code worth noting:

- INIT returns early. It does not recompute `total_value`, write a log row or save the record.
  - One consequence: when no state file exists, every cycle starts from the default record. Each of those cycles is therefore INIT (`FreshStartIsInit`), and INIT saves nothing (`Portfolio.Step`), so the state file stays absent.
- The two shortfall HOLDs (a drop without $100 of cash, a rise without $100 worth of BTC) return an empty message. Only the in-band HOLD has an explanation.
- The recent-entries list is the last five lines of the file, so it includes the header while the log has fewer than five rows.

## Model

| member | source | states |
|---|---|---|
| `Trader.Tag` | trader.py:39-64 | the action tags returned and written to the log's Action column are non-empty and contain no comma, so each fills one CSV field |
| `Trader.Loaded` | trader.py:17-25 | the starting record is the stored one when the state file exists; otherwise it has no reference price, no BTC, and cash and total equal to the initial 10000 |
| `Trader.Trade` | trader.py:36-72 | the decision and record update of one cycle: the current price always becomes the reference; INIT changes nothing else; every other action revalues the total at the current price. The per-action rules are the `TraderProperties` lemmas below |
| `Trader.MessageText` | trader.py:41-68 | the explanation is the empty string exactly for the message the shortfall HOLDs leave unset; it contains no ASCII comma (the messages use full-width commas) when the BUY amount text has none |
| `Trader.Default` | trader.py:17-23 | the record used when no state file exists has no reference price, no BTC, non-negative cash, a total equal to its cash and 0% profit |
| `Trader.Appended` | trader.py:76-80 | appending to an empty log gives exactly the header and the row; appending to a non-empty log adds exactly one line; every existing line is kept and the new row is last |
| `Trader.Bullets` | trader.py:93 | each line gets the `- ` prefix, keeping the number and order of lines |
| `Trader.Recent` | trader.py:93 | the recent entries are the last `min(5, n)` lines of the log, prefixed and in their original order |
| `Trader.ProfitPercent` | trader.py:96 | the profit percentage is non-negative exactly when the total is at least the initial cash, and zero exactly when it equals it |
| `Trader.ProfitColor` | trader.py:96-97 | the indicator is green exactly when the total value is at least the initial 10000 |
| `Trader.Settle` | trader.py:70-72 | after a non-INIT branch the record keeps the cash, BTC and message the branch set, the price becomes the reference, and the total is that cash plus that BTC at the price |
| `Trader.StateFile.Save` | trader.py:83-84 | saving overwrites the state file with the given record |
| `Trader.TradeLog.Append` | trader.py:76-80 | the log after an append is `Appended` of the log before it |
| `Trader.Portfolio.Load` | trader.py:12-25 | the loaded record is the stored one, or the default when the state file is absent |
| `Trader.Portfolio.Step` | trader.py:36-86 | the new record, action and message are those of `Trade`; INIT leaves the log and the state file untouched; every other action appends exactly the row rendered from the action's tag, the price, the new total and the message, and saves the new record |
| `TraderProperties.TagInjective` | trader.py:39-64 | the four action tags are distinct, so the tag in a log row identifies its action |
| `TraderProperties.InitRule` | trader.py:45-47 | the action is INIT iff the reference price is 0; INIT then changes only `last_price`, to the current price, with message "初始化价格" |
| `TraderProperties.BuyRule` | trader.py:50-56 | the action is BUY iff the price is strictly below 98% of a non-zero reference and cash is at least 100; a BUY takes exactly 100 from cash and adds exactly 100/price BTC |
| `TraderProperties.BuyShortfall` | trader.py:39-41 | a drop with less than 100 cash is a HOLD with an empty message and unchanged balances |
| `TraderProperties.SellRule` | trader.py:59-65 | the action is SELL iff the price is strictly above 102% of a non-zero reference and BTC is at least 100/price; a SELL adds exactly 100 to cash and removes exactly 100/price BTC |
| `TraderProperties.SellShortfall` | trader.py:59-61 | a rise with less than 100/price BTC is a HOLD with an empty message and unchanged balances |
| `TraderProperties.SmallMovementRule` | trader.py:67-68 | a price within the band, either threshold included, is a HOLD with the small-movement message and unchanged balances |
| `TraderProperties.EmptyMessageIsShortfall` | trader.py:41-68 | the message is empty iff the cycle was one of the two shortfall HOLDs |
| `TraderProperties.HoldKeepsBalances` | trader.py:45-68 | INIT and every HOLD leave cash and BTC unchanged |
| `TraderProperties.TradeKeepsNonNegative` | trader.py:51-63 | non-negative cash and BTC stay non-negative after any cycle |
| `TraderProperties.Revaluation` | trader.py:71-72 | after every non-INIT cycle `last_price` is the current price and the total is cash plus BTC at that price |
| `TraderProperties.TradeKeepsValue` | trader.py:50-72 | after every non-INIT cycle, BUY and SELL included, the total equals the old cash plus the old BTC at the current price |
| `TraderProperties.RunKeepsNonNegative` | trader.py:51-63 | non-negative balances stay non-negative over any sequence of cycles |
| `TraderProperties.RunFollowsLastPrice` | trader.py:46-72 | after any non-empty sequence of cycles the reference price is the last price seen |
| `TraderProperties.AppendExtendsLog` | trader.py:76-80 | appending a row to a log of header plus rows gives the header plus the rows and the new row |
| `TraderProperties.AppendAllBuildsLog` | trader.py:76-80 | appending any rows to such a log gives the header followed by all rows in append order |
| `TraderProperties.HeaderExactlyOnce` | trader.py:76-80 | after any non-empty sequence of appends to an empty log, the header is line 0 and occurs exactly once, and the rest are the rows in order; this assumes no row equals the header, which holds for the source's rows since each starts with a timestamp, but the model does not derive it from `render` |
| `TraderProperties.RecentSlides` | trader.py:93 | once the log has five lines, a new row drops the oldest shown line and is shown last |
| `TraderProperties.RecentShowsHeader` | trader.py:93 | the recent entries include the header iff the log has between one and four rows, again assuming no row equals the header |
| `TraderProperties.FreshStartIsInit` | trader.py:17-23 | from the default record the cycle is INIT and changes only the reference price (that INIT saves nothing is `Portfolio.Step`'s contract) |
| `TraderProperties.DropScenario` | trader.py:50-56 | last 50000, price 48000, cash 10000: BUY of 100/48000 BTC, cash 9900, total 10000 |
| `TraderProperties.RiseWithoutBtcScenario` | trader.py:59-65 | last 50000, price 51500, no BTC: silent HOLD, only the reference price moves |
| `TraderProperties.SmallRiseScenario` | trader.py:67-72 | last 50000, price 50400: small-movement HOLD, the reference becomes 50400 |

## Left out

- The HTTP price request and its catch-all handler that returns no price (`get_btc_price`). This is network I/O. The caller goes on only with a truthy price, which the model states as the precondition `currentPrice > 0`. A negative price, which the Python guard would let through, is therefore not modelled either.
- JSON parsing and writing of the state file, and the creation of the `data` directory. These are file I/O. The file is modelled as an `Option<Snapshot>` whose content is taken as given.
- Reading a trade log that does not exist yet raises in the source. The model treats a missing log as an empty one.
- The timestamp from the clock and the text formatting of a log row (`:.2f`). The row text is whatever the caller-supplied `render` function makes of the row's timestamp, action, price, total value and message.
- The six-decimal BTC amount inside the BUY message. It is a parameter of `MessageText`.
- The dashboard's markdown layout, emoji, number formatting and the joining of the recent lines into one string. These are presentation only.
- IEEE-754 rounding. The model computes `100/price` and the total value exactly in `real`.
- The `__main__` orchestration and its console output.
- Persistence is not atomic: a crash between the log append and the save is not modelled.
