# backtesting_lib in Dafny

A model of the simulation core of `backtesting_lib`, a small Python library that replays a trading strategy over a table of daily prices. The model covers four parts:

- **Broker** (`Execution`). It holds cash, a position in one instrument and a trade history. It fills buy and sell orders at the bar's Close, adjusted by slippage and commission. A default-sized buy takes as many whole units as the cash pays for and keeps the remainder. A default-sized sell flattens the position. Explicit sizes fill all or nothing.
- **Strategy** (`Strategies`). The base class keeps a registry of indicator series and a cursor into the data. It forwards buy and sell orders to the broker while the cursor is inside the data. It reads an indicator's value at the cursor. What a subclass's `init()` sets up is a `Rule`, and its `next()` is `Decide` on that rule. The base class's `next()` raises NotImplementedError.
- **Indicators** (`Indicators`). SMA is a rolling mean of the Close series, undefined (pandas NaN, here `None`) until a full window exists. RSI is built from rolling mean gains and losses. `SMA` and `RSI` set the name `SMA_<period>` or `RSI_<period>`, but `Indicator.__init__` then resets it to `''`. So every series is registered under `''`; see "## Findings".
- **Backtest** (`Backtesting`). The constructor builds the broker and then the strategy, which runs `init()` once. `Run` visits the bars in order: it moves the cursor, calls `next()`, and records the broker's value at that bar's Close. It then builds the results table. `Replay` is the same run as a pure function of the starting account, and the lemmas about a run are stated on it.

The decision rules of the two example strategies, SMA crossover (10/50) and RSI mean reversion (14, thresholds 30/70), are in `ExampleRules`.

Money is `real`, so the model has no floating-point rounding. `int(cash // unit_cost)` is `(cash / unit_cost).Floor`. Dates are opaque `Date` values. A price table is a sequence of `Bar(date, close)`.

The broker methods, `Strategy.Next` and `Backtest.Run` are proved against pure functions of the old state: `Bought`, `Sold`, `StepAccount` and `Replay`. Each property is then proved about those functions. The exceptions the code can raise on the way are values of `Common.Error`. `NotImplemented` comes from the base class's `next()`. `ZeroUnitCost` comes from a default-sized buy at a bar whose unit cost is 0.

Three behaviours of the code a reader may not expect:

- **RSI with no losses.** The textbook RSI is 100 when the average loss is 0. In the code, `replace(0, NaN)` followed by `fillna(0)` makes it 0. The same happens during the warm-up, so RSI is never NaN.
- **No order validation.** Neither the broker nor the engine rejects malformed orders or data. Errors arise only from the Python runtime.
- **Solvency is not enforced.** With a commission below 1, a sale priced below the slippage lowers cash (`SellBelowSlippageLosesCash`). With a commission above 1, a sale priced above the slippage lowers cash (`CommissionAboveOneLosesCash`). An explicit negative buy amount opens a short position (`NegativeBuyGoesShort`); an explicit negative sell amount passes the position check and adds to the position (`NegativeSellAddsUnit`). A single order keeps cash and position non-negative only under the conditions of `ExecutedKeepsSolvent`: non-negative explicit sizes, a price covering the slippage and a commission of at most 1. `ExamplesStaySolvent` lifts this to whole runs of the example strategies.

## Model

| member | source | states |
|---|---|---|
| Execution.Broker.constructor | backtesting_lib/execution.py:7-12 | The broker starts with the given cash, a zero position, an empty history, and fixed commission and slippage. |
| Execution.Broker.Buy | backtesting_lib/execution.py:14-31 | A default-sized buy at a zero unit cost fails with ZeroUnitCost and changes nothing. Otherwise the new account is `Bought` of the old one: the unit cost is (price + slippage)·(1 + commission). Default size is floor(cash / unit cost) and does nothing when that is ≤ 0. The order fills only if cash ≥ cost, and logs one buy at the slipped price. |
| Execution.Broker.Sell | backtesting_lib/execution.py:33-50 | The new account is `Sold` of the old one: the unit revenue is (price − slippage)·(1 − commission). Default size is the whole position and does nothing when that is ≤ 0. The order fills only if the position covers it, and logs one sell. |
| Execution.Bought | backtesting_lib/execution.py:14-31 | A buy leaves the account unchanged or logs exactly one buy, at price + slippage, for the units the position gained. |
| Execution.Sold | backtesting_lib/execution.py:33-50 | A sell leaves the account unchanged or logs exactly one sell, at price − slippage, for the units the position lost, and then leaves a non-negative position. |
| Execution.Broker.PortfolioValue | backtesting_lib/execution.py:52-54 | Returns cash + position · current price and changes nothing. |
| Execution.Broker.Positions | backtesting_lib/execution.py:56-58 | Returns the broker's cash and position and changes nothing. |
| Execution.DefaultBuyIsLargestAffordable | backtesting_lib/execution.py:16-25 | For a positive unit cost u and non-negative cash, a default buy takes the largest n ≥ 0 with u·n ≤ cash < u·(n+1), and cash falls by exactly u·n. |
| Execution.DefaultBuyFillsIffOneUnitAffordable | backtesting_lib/execution.py:18-25 | For a positive unit cost and non-negative cash, a default buy changes the account if and only if the cash covers one unit. When it does, it logs exactly one trade. |
| Execution.ExplicitBuyAllOrNothing | backtesting_lib/execution.py:22-31 | A buy of n units fills in full when u·n ≤ cash: cash falls by u·n, the position rises by n, and a buy at price + slippage is logged. Otherwise the account is unchanged. |
| Execution.DefaultSellFlattens | backtesting_lib/execution.py:35-50 | A default sell of a positive position leaves position 0, adds unit revenue · position to cash and logs it. On a position ≤ 0 it changes nothing. |
| Execution.ExplicitSellAllOrNothing | backtesting_lib/execution.py:41-50 | A sell of more than is held changes nothing. Otherwise it removes n units, leaves a non-negative position, credits the revenue and logs the sale. |
| Execution.ExecutedLogsOnce | backtesting_lib/execution.py:14-50 | Every order either leaves the account unchanged or appends exactly one trade to the history, keeping the earlier history as a prefix. |
| Execution.BuyKeepsCash | backtesting_lib/execution.py:22-24 | A buy of any size never takes non-negative cash below zero. |
| Execution.ExecutedKeepsSolvent | backtesting_lib/execution.py:14-50 | Orders of non-negative size keep cash and position non-negative, provided the price covers the slippage and commission ≤ 1. |
| Execution.SellBelowSlippageLosesCash | backtesting_lib/execution.py:35-43 | Because the price is not checked against the slippage, a default sell of a positive position at a price below the slippage, with commission < 1, strictly lowers cash. |
| Execution.CommissionAboveOneLosesCash | backtesting_lib/execution.py:35-43 | Because the commission rate is not checked, a default sell of a positive position at a price above the slippage, with commission > 1, strictly lowers cash. |
| Execution.NegativeBuyGoesShort | backtesting_lib/execution.py:22-25 | The amount's sign is not checked: on a flat, solvent account with a positive unit cost, buying −1 unit fills, leaves position −1 and adds one unit cost to cash. |
| Execution.NegativeSellAddsUnit | backtesting_lib/execution.py:41-50 | The sell amount's sign is not checked either: from a non-negative position, selling −1 unit passes the `position >= amount` guard, raises the position by one and takes one unit revenue out of cash. |
| Execution.FrictionlessRoundTrip | backtesting_lib/execution.py:14-50 | With no costs, from a non-negative position, buying n ≥ 0 affordable units and then selling n at one price restores cash and position and logs the two trades. |
| Execution.CommissionRoundTrip | backtesting_lib/execution.py:14-50 | With commission k and no slippage, from a non-negative position, buying n ≥ 0 affordable units and selling them at one price p restores the position, logs both trades, and costs exactly 2·k·p·n in cash. |
| Execution.FrictionlessBuyAllSellAll | backtesting_lib/execution.py:14-50 | With no costs, a flat start, non-negative cash and a positive price, a default buy followed by a default sell at that price gives all the cash back and leaves the position 0. |
| Execution.BuyValueDrag | backtesting_lib/execution.py:14-31 | Marked at the quoted price (the bar's Close, before slippage), a buy lowers the portfolio value by exactly (unit cost − price) · units bought. |
| Execution.FrictionlessTradeKeepsValue | backtesting_lib/execution.py:14-54 | With no costs, any trade at the marking price leaves the portfolio value unchanged. |
| Execution.CommissionExample | backtesting_lib/execution.py:16-31 | Example: 1000 in cash, 1% commission, a default buy at 100 takes 9 units and leaves 91 in cash. |
| Indicators.SMA | backtesting_lib/indicators.py:27-28 | SMA has one entry per close. Entry i is defined exactly when period ≥ 1 and i ≥ period − 1; with window 0 every entry is NaN. |
| Indicators.RollingMean | backtesting_lib/indicators.py:27-28 | The rolling mean has one entry per value. The entry at i is defined exactly when period ≥ 1 and i ≥ period − 1. |
| Indicators.SMAIsTrailingMean | backtesting_lib/indicators.py:27-28 | Past the warm-up, SMA[i] is the mean of the closes at i − period + 1 through i. |
| Indicators.RollingMeanRecurrence | backtesting_lib/indicators.py:28 | Consecutive window sums differ by the newest value minus the value that dropped out. |
| Indicators.RollingMeanWithinWindow | backtesting_lib/indicators.py:28 | A rolling mean lies between any lower and upper bound of its window. |
| Indicators.RollingMeanCausal | backtesting_lib/indicators.py:28 | A rolling mean at i depends only on the values up to i. |
| Indicators.SMACausal | backtesting_lib/indicators.py:27-28 | Changing closes after i leaves SMA[i] unchanged, so there is no look-ahead. |
| Indicators.SMAWithinWindow | backtesting_lib/indicators.py:27-28 | Past the warm-up, SMA[i] is defined and lies between the lowest and highest close of its window. |
| Indicators.GainsAndLossesSplitDelta | backtesting_lib/indicators.py:38-40 | Gains and losses are non-negative and never both positive. Gain − loss is the day's change, and 0 on the first bar, whose delta is NaN. |
| Indicators.Gains | backtesting_lib/indicators.py:38-39 | There is one gain per close, and every gain is non-negative. |
| Indicators.Losses | backtesting_lib/indicators.py:38-40 | There is one loss per close, and every loss is non-negative. |
| Indicators.RelativeStrength | backtesting_lib/indicators.py:43-46 | rs is 0 when either average is NaN or the average loss is 0. With a non-negative gain and a positive loss average, rs ≥ 0 and rs · average loss = average gain. |
| Indicators.AveragesNonNegative | backtesting_lib/indicators.py:38-42 | Average gain and average loss are non-negative wherever they are defined. |
| Indicators.StrengthBounds | backtesting_lib/indicators.py:47 | For rs ≥ 0, 100 − 100/(1 + rs) lies in [0, 100) and is 0 exactly when rs is 0. |
| Indicators.RSI | backtesting_lib/indicators.py:37-47 | RSI has one entry per close. |
| Indicators.RSIBounded | backtesting_lib/indicators.py:37-47 | RSI is never NaN and always lies in [0, 100). |
| Indicators.RSIZeroExactly | backtesting_lib/indicators.py:44-47 | RSI is 0 if and only if the period is 0, or the bar is in the warm-up, or the window's average gain is 0, or its average loss is 0. |
| Indicators.RSICausal | backtesting_lib/indicators.py:37-47 | Changing closes after i leaves RSI[i] unchanged. |
| Indicators.RisingPricesGiveZeroRSI | backtesting_lib/indicators.py:44-47 | On strictly rising closes, RSI is 0 at every index. |
| Indicators.DecimalString | backtesting_lib/indicators.py:24 | The decimal text of the period is made of digits, has at least one, and has at least two exactly when the period is ≥ 10. |
| Indicators.DecimalStringInjective | backtesting_lib/indicators.py:24 | Two periods have the same decimal text if and only if they are equal. |
| Indicators.Name | backtesting_lib/indicators.py:22-34 | The name SMA and RSI set is `SMA_` or `RSI_` followed by one or more digits. |
| Indicators.RegistryKey | backtesting_lib/indicators.py:10-14 | The name a built indicator carries, and so its registry key, is `''` whatever the class and period. |
| Indicators.NamesIdentifyIndicators | backtesting_lib/indicators.py:24-34 | Two indicators get the same name (as SMA and RSI set it) if and only if they are the same class with the same period. |
| Indicators.RegistryKeyForgetsName | backtesting_lib/indicators.py:10-14 | Any two different indicators have different names, yet the same registry key `''`, because Indicator.__init__ resets the name after the subclass sets it. |
| ExampleRules.CrossoverOrders | example_sma_crossover.py:14-22 | At most one default-sized order. An order is placed only when both averages exist and differ. |
| ExampleRules.MeanReversionOrders | example_rsi_mean_reversion.py:18-25 | At most one default-sized order. An order is placed only when RSI exists and lies outside [lower, upper]. |
| ExampleRules.CrossoverDecision | example_sma_crossover.py:13-22 | The crossover orders a default buy iff both averages exist, short > long and the broker is flat. It orders a default sell iff both exist, short < long and a position is held. At most one order is placed. |
| ExampleRules.MeanReversionDecision | example_rsi_mean_reversion.py:17-25 | Mean reversion buys iff RSI < 30 and the broker is flat, and sells iff RSI > 70 and a position is held. It does nothing for RSI in [30, 70]. |
| ExampleRules.CrossoverWaitsForLongWindow | example_sma_crossover.py:10-19 | The crossover places no order before index 49, where the 50-bar SMA first exists. |
| ExampleRules.MeanReversionBuysOnFirstBar | example_rsi_mean_reversion.py:13-23 | Since warm-up RSI is 0, a flat mean-reversion strategy buys on the very first bar. |
| ExampleRules.RisingPricesNeverSell | example_rsi_mean_reversion.py:17-25 | On strictly rising closes, mean reversion buys when flat and otherwise does nothing. |
| Strategies.Strategy.constructor | backtesting_lib/strategy.py:9-14 | A new strategy keeps the broker and data and sets the cursor to 0. It leaves the registry and rule its class's init() produces from an empty registry: every series under `''`. |
| Strategies.Strategy.Init | backtesting_lib/strategy.py:16-18 | The base init() changes nothing. The crossover's init registers SMA(10) and then SMA(50), and mean reversion's registers RSI(14), each under `''`. Each keeps its series for next(). |
| Strategies.Strategy.Indicator | backtesting_lib/strategy.py:24-28 | Computes the indicator's series, files it under `''`, the name the built indicator carries (replacing an earlier entry), and returns it. |
| Strategies.Strategy.Buy | backtesting_lib/strategy.py:30-37 | While the cursor is inside the data, forwards a buy with that bar's Close and date to the broker, and passes on its ZeroUnitCost failure. Otherwise the broker is left alone. |
| Strategies.Strategy.Sell | backtesting_lib/strategy.py:39-46 | While the cursor is inside the data, the broker ends in `Sold` of its old state at the bar's Close and date; past the data nothing changes. A sell never fails, so Sell has no error outcome. |
| Strategies.Strategy.GetIndicator | backtesting_lib/strategy.py:48-53 | An unknown name is an UnknownIndicator error. A cursor past the series is an IndexOutOfRange error. Otherwise the result is the series value at the cursor, NaN included. |
| Strategies.Strategy.Next | backtesting_lib/strategy.py:20-22 | next() succeeds exactly when `StepAccount` does, and the broker ends in that account. When it raises, NotImplemented for the base class or ZeroUnitCost for a default buy at a zero unit cost, the broker is unchanged. |
| Strategies.InitRegistersUnderEmptyName | backtesting_lib/strategy.py:24-28 | As the code stands, the crossover's registry is exactly {'' ↦ SMA(50)}: SMA(10) is overwritten. Mean reversion's is exactly {'' ↦ RSI(14)}. The base class registers nothing. |
| Strategies.NamedLookupsFail | backtesting_lib/strategy.py:48-53 | After init(), get_indicator of any non-empty name, such as 'SMA_10' or 'RSI_14', fails with UnknownIndicator. |
| Strategies.IntendedRegistryNamesEachSeries | example_sma_crossover.py:9-11 | Keyed by the names SMA and RSI set, the crossover's registry would be exactly {SMA_10 ↦ SMA(10), SMA_50 ↦ SMA(50)} and mean reversion's exactly {RSI_14 ↦ RSI(14)}. |
| Strategies.Decide | backtesting_lib/strategy.py:20-22 | next() fails exactly for the base class. Otherwise it places at most one default-sized order, and none once the cursor is past the data. |
| Strategies.Placed | backtesting_lib/strategy.py:30-46 | An order with the cursor past the data leaves the account unchanged. Any order leaves it unchanged or logs exactly one trade. |
| Strategies.StepAccount | backtesting_lib/strategy.py:20-46 | The account after next() at bar i. The base class fails with NotImplemented. The example rules fail only with ZeroUnitCost, and only at a bar inside the data whose unit cost is 0. They always succeed when that unit cost is non-zero or the cursor is past the data. |
| Strategies.OutOfRangeOrdersIgnored | backtesting_lib/strategy.py:30-46 | With the cursor at or past the end of the data, buy and sell leave the broker's account unchanged. |
| Strategies.OnlyBaseNextFails | backtesting_lib/strategy.py:20-22 | next() fails if and only if the strategy is the base class, and then with NotImplemented. |
| Strategies.ExampleRulesPlaceOneOrder | example_sma_crossover.py:13-22 | The example rules place at most one order per step, always default-sized. |
| Backtesting.Results | backtesting_lib/backtest.py:29-31 | The table exists exactly when there are no more values than dates, and otherwise fails with LengthMismatch. Row k pairs date k with value k. |
| Backtesting.Replay | backtesting_lib/backtest.py:22-28 | k steps record exactly k values. The base class fails with NotImplemented after one step. Any failure is NotImplemented or ZeroUnitCost. When no bar has a zero unit cost, a replay fails iff the strategy is the base class and at least one step ran. |
| Backtesting.Backtest.constructor | backtesting_lib/backtest.py:10-18 | Builds a fresh broker with the given cash and costs, then the strategy once, with its init() run (every series under `''`) and cursor 0. There are no values and no results yet. |
| Backtesting.Backtest.Run | backtesting_lib/backtest.py:20-32 | After a run the broker is in `Replay`'s final state, and the replay's values are appended to the earlier ones. The results table pairs them with the index dates, or fails with LengthMismatch when there are more values than dates. If step i raises, the error is returned with the cursor at i, and the broker and values stay as the first i steps left them. The results are not replaced. |
| Backtesting.Backtest.Steps | backtesting_lib/backtest.py:22-28 | The loop of run(): the broker ends in `Replay`'s final state with the replay's values appended. If step i's next() raises, the loop stops there with that error: the cursor is at i, and the broker and values are as the first i steps left them. |
| Backtesting.ReplayStep | backtesting_lib/backtest.py:23-28 | One more step of a replay runs next() at bar i and appends the resulting account marked at Close[i], or stops with next()'s error. |
| Backtesting.StepRaises | backtesting_lib/backtest.py:23-25 | If step i's next() raises, the run stops at i and the whole replay ends in that error. |
| Backtesting.ReplayFailurePersists | backtesting_lib/backtest.py:23-25 | Once a step has raised, every longer run ends in the same error. |
| Backtesting.ReplayExtends | backtesting_lib/backtest.py:23-28 | Later steps only append: the first j values of a k-step run are the j-step run's values. |
| Backtesting.ValueAfterTrade | backtesting_lib/backtest.py:24-28 | Value i is the account after step i's next(), marked at Close[i], so a trade at bar i already shows in value i. |
| Backtesting.LastValueMarksAccount | backtesting_lib/backtest.py:26-28 | The value a step appends marks the account that step leaves. |
| Backtesting.QuietStepReprices | backtesting_lib/backtest.py:23-28 | A step that places no order leaves the account unchanged and records it at the new Close. |
| Backtesting.EmptyDataRecordsNothing | backtesting_lib/backtest.py:22-28 | On empty data nothing runs, and the account and values are untouched. |
| Backtesting.ExamplesStaySolvent | backtesting_lib/backtest.py:23-28 | With a solvent start, commission ≤ 1 and closes covering the slippage, every account an example-strategy run reaches (a run that stops at a raising bar included) has non-negative cash and position. On data with no zero-unit-cost bar the run reaches every bar. |
| Backtesting.RisingPricesOnlyBuy | backtesting_lib/backtest.py:23-28 | On strictly rising closes, from an account whose history holds only buys, every account a mean-reversion run reaches logs only buys. On data with no zero-unit-cost bar the run reaches every bar. |
| Backtesting.WarmUpBuyAndHold | backtesting_lib/backtest.py:23-28 | During the first 13 bars, a flat mean-reversion broker whose cash covers one unit at a positive unit cost on bar 0 buys at bar 0 and then holds, whatever the later closes are. |
| Backtesting.WorkedExample | backtesting_lib/backtest.py:20-32 | 11 bars with first close 10 and last close 20, cash 100, no costs: mean reversion buys 10 units at bar 0, and the last value is 200. |
| Backtesting.RunTwice | backtesting_lib/backtest.py:20-32 | For an example strategy on data with no zero-unit-cost bar, a second run on the same Backtest appends another N values (2N in all), and building its table then fails unless the data is empty. |
| Backtesting.RunsAreDeterministic | backtesting_lib/backtest.py:10-32 | Two backtests built from the same inputs return the same result. The base strategy on non-empty data fails with NotImplemented. When no bar has a zero unit cost, a run fails iff it is the base strategy on non-empty data. |

## Left out

- Data feeds, analytics, visualisation and `Backtest.plot` are not part of this model. They cover `data.py`, `analytics.py`, `visualization.py`, reading CSV files, downloading prices and drawing charts, which are all I/O.
- The scripts at the bottom of the example files (data download, printing) are left out. They are I/O.
- Execution.Broker.Buy: a default-sized buy at a zero unit cost is the single error ZeroUnitCost. The source's exception type varies: ZeroDivisionError with a Python float price, or OverflowError or ValueError from `int()` of the inf or NaN numpy quotient a bar's price gives.
- Strategies.StepAccount: a raising order leaves the broker unchanged because the example rules place at most one order per step. Orders placed before a raising one by a user strategy are not modelled.
- Default arguments are not modelled: `Backtest(cash=10000, commission=0.0, slippage=0.0)` and `Broker(commission=0.0, slippage=0.0)`. The constructors take every argument explicitly.
- Indicators.RollingMean: pandas' rejection of a negative window is not modelled; periods are natural numbers.
- Floating point is modelled as exact real arithmetic: no rounding, no infinities. NaN appears only where pandas produces it in the indicators.
- Order amounts are integers. A fractional or NaN amount passed by a user strategy is not modelled.
- Dates and the DataFrame index are opaque values. The index is taken to have one entry per bar.
- Strategies: only the base class and the two example subclasses are modelled. An arbitrary user subclass, `indicator()` with an arbitrary indicator class or extra arguments, and the `Indicator` base class's NotImplementedError are left out.
- Backtesting.Backtest.Run: a `next()` that raises stops the run at that bar and returns the error. The Python exception propagates instead, leaving the same state behind.

## Findings

| source | as written | input that shows it | evidently intended | confidence | as-written member | corrected member |
|---|---|---|---|---|---|---|
| backtesting_lib/indicators.py:13 | `SMA.__init__` and `RSI.__init__` set `self.name` (lines 24 and 34) and then call `Indicator.__init__`, which sets `self.name = ''`. So `Strategy.indicator` files every series under `''`. | SMACrossoverStrategy on any data: the registry is {'' ↦ SMA(50)}, and `get_indicator('SMA_10')` raises ValueError. | Each series kept under `SMA_<period>` or `RSI_<period>`. | high, not executed | Indicators.RegistryKeyForgetsName, Strategies.InitRegistersUnderEmptyName, Strategies.NamedLookupsFail | Indicators.NamesIdentifyIndicators, Strategies.IntendedRegistryNamesEachSeries |
