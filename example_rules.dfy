/**
 * The decision rules of the two example strategies, example_sma_crossover.py
 * and example_rsi_mean_reversion.py: what next() orders at one index, given
 * the indicator values there and the broker's position.
 */
module ExampleRules {
  import opened Common
  import opened Execution
  import opened Indicators

  /** SMACrossoverStrategy.init: SMA(period=10) and SMA(period=50). */
  const ShortPeriod: nat := 10
  const LongPeriod: nat := 50

  /** RSIMeanReversionStrategy.init: RSI(period=14), thresholds 70 and 30. */
  const RSIPeriod: nat := 14
  const UpperThreshold: real := 70.0
  const LowerThreshold: real := 30.0

  /** SMACrossoverStrategy.next at an index inside the data. */
  function CrossoverOrders(short: Option<real>, long: Option<real>, position: int): (orders: seq<Order>)
    ensures DefaultSized(orders)
    ensures orders != [] ==> short.Some? && long.Some? && short.value != long.value
  {
    if short.Some? && long.Some? then
      if short.value > long.value && position == 0 then [BuyOrder(DefaultSize)]
      else if short.value < long.value && position > 0 then [SellOrder(DefaultSize)]
      else []
    else []
  }

  /** RSIMeanReversionStrategy.next at an index inside the data. */
  function MeanReversionOrders(rsi: Option<real>, lower: real, upper: real, position: int): (orders: seq<Order>)
    ensures DefaultSized(orders)
    ensures orders != [] ==> rsi.Some? && (rsi.value < lower || rsi.value > upper)
  {
    if rsi.Some? then
      if rsi.value < lower && position == 0 then [BuyOrder(DefaultSize)]
      else if rsi.value > upper && position > 0 then [SellOrder(DefaultSize)]
      else []
    else []
  }

  /** Both rules place at most one order, always default-sized. */
  predicate DefaultSized(orders: seq<Order>) {
    |orders| <= 1 && forall k :: 0 <= k < |orders| ==> orders[k].size == DefaultSize
  }

  /**
   * The crossover buys exactly when both averages exist, the short one is
   * above the long one and the broker is flat; it sells exactly when the short
   * one is below and something is held; otherwise (a tie included) it does nothing.
   */
  lemma CrossoverDecision(short: Option<real>, long: Option<real>, position: int)
    ensures var orders := CrossoverOrders(short, long, position);
      DefaultSized(orders) &&
      (orders == [BuyOrder(DefaultSize)] <==>
        short.Some? && long.Some? && short.value > long.value && position == 0) &&
      (orders == [SellOrder(DefaultSize)] <==>
        short.Some? && long.Some? && short.value < long.value && position > 0)
  {
  }

  /**
   * Mean reversion buys exactly when RSI is below the lower threshold and the
   * broker is flat, sells exactly when RSI is above the upper one and something
   * is held, and does nothing for an RSI between the thresholds.
   */
  lemma MeanReversionDecision(rsi: Option<real>, position: int)
    ensures var orders := MeanReversionOrders(rsi, LowerThreshold, UpperThreshold, position);
      DefaultSized(orders) &&
      (orders == [BuyOrder(DefaultSize)] <==> rsi.Some? && rsi.value < 30.0 && position == 0) &&
      (orders == [SellOrder(DefaultSize)] <==> rsi.Some? && rsi.value > 70.0 && position > 0) &&
      (rsi.Some? && 30.0 <= rsi.value <= 70.0 ==> orders == [])
  {
  }

  /** No crossover order before the 50-bar average exists, that is at any index below 49. */
  lemma CrossoverWaitsForLongWindow(closes: seq<real>, i: nat, position: int)
    requires i < |closes| && i < LongPeriod - 1
    ensures CrossoverOrders(SMA(closes, ShortPeriod)[i], SMA(closes, LongPeriod)[i], position) == []
  {
    assert SMA(closes, LongPeriod)[i].None?;
  }

  /**
   * RSI is never NaN, so the notna guard never holds mean reversion back, and
   * the warm-up value 0 is below 30: a flat strategy buys on the very first bar.
   */
  lemma MeanReversionBuysOnFirstBar(closes: seq<real>)
    requires |closes| > 0
    ensures MeanReversionOrders(RSI(closes, RSIPeriod)[0], LowerThreshold, UpperThreshold, 0)
         == [BuyOrder(DefaultSize)]
  {
    RSIZeroExactly(closes, RSIPeriod, 0);
    RSIBounded(closes, RSIPeriod, 0);
  }

  /** On strictly rising prices RSI stays 0, so mean reversion never sells. */
  lemma RisingPricesNeverSell(closes: seq<real>, i: nat, position: int)
    requires i < |closes| && StrictlyIncreasing(closes)
    ensures MeanReversionOrders(RSI(closes, RSIPeriod)[i], LowerThreshold, UpperThreshold, position)
         == (if position == 0 then [BuyOrder(DefaultSize)] else [])
  {
    RisingPricesGiveZeroRSI(closes, RSIPeriod, i);
  }
}
