/**
 * The strategy base class of backtesting_lib/strategy.py and the two example
 * subclasses. A subclass is chosen by a StrategyClass tag; what its init()
 * sets up and what its next() reads is a Rule. The base class's next() raises
 * NotImplementedError.
 */
module Strategies {
  import opened Common
  import opened Execution
  import opened Indicators
  import opened ExampleRules

  /** One row of the price table: its index date and its Close. */
  datatype Bar = Bar(date: Date, close: real)

  /** data['Close']. */
  function Closes(data: seq<Bar>): (c: seq<real>)
    ensures |c| == |data| && forall i :: 0 <= i < |data| ==> c[i] == data[i].close
  {
    seq(|data|, i requires 0 <= i < |data| => data[i].close)
  }

  /** The strategy class handed to Backtest. */
  datatype StrategyClass = BaseStrategy | SMACrossoverStrategy | RSIMeanReversionStrategy

  /** The state a subclass's init() leaves for its next() to read. */
  datatype Rule =
    | BaseRule
    | SMACrossover(smaShort: Series, smaLong: Series)
    | RSIMeanReversion(rsi: Series, upperThreshold: real, lowerThreshold: real)

  /** The rule's series are aligned with data of length n. */
  predicate RuleFits(rule: Rule, n: nat) {
    match rule
    case BaseRule => true
    case SMACrossover(s, l) => |s| == n && |l| == n
    case RSIMeanReversion(r, _, _) => |r| == n
  }

  /** The registrations init() makes, in order, filing each series under key(indicator). */
  function Registry(m: map<string, Series>, cls: StrategyClass, closes: seq<real>,
                    key: IndicatorSpec -> string): map<string, Series> {
    match cls
    case BaseStrategy => m
    case SMACrossoverStrategy =>
      m[key(SMASpec(ShortPeriod)) := SMA(closes, ShortPeriod)][key(SMASpec(LongPeriod)) := SMA(closes, LongPeriod)]
    case RSIMeanReversionStrategy =>
      m[key(RSISpec(RSIPeriod)) := RSI(closes, RSIPeriod)]
  }

  /** What init() leaves in the registry, on top of `m`: every series is filed under ''. */
  function Registered(m: map<string, Series>, cls: StrategyClass, closes: seq<real>): map<string, Series> {
    Registry(m, cls, closes, RegistryKey)
  }

  /** The registry init() is evidently meant to leave: each series under its own name. */
  function IntendedRegistered(cls: StrategyClass, closes: seq<real>): map<string, Series> {
    Registry(map[], cls, closes, Name)
  }

  /** What init() leaves for next() to read. */
  function InitialRule(cls: StrategyClass, closes: seq<real>): (rule: Rule)
    ensures RuleFits(rule, |closes|)
  {
    match cls
    case BaseStrategy => BaseRule
    case SMACrossoverStrategy => SMACrossover(SMA(closes, ShortPeriod), SMA(closes, LongPeriod))
    case RSIMeanReversionStrategy => RSIMeanReversion(RSI(closes, RSIPeriod), UpperThreshold, LowerThreshold)
  }

  /**
   * next() at index i on data of length n, when the broker holds `position`:
   * the orders it places, or the error it raises.
   */
  function Decide(rule: Rule, n: nat, i: nat, position: int): (r: Result<seq<Order>, Error>)
    requires RuleFits(rule, n)
    ensures r.Failure? <==> rule.BaseRule?
    ensures r.Success? ==> DefaultSized(r.value) && (i >= n ==> r.value == [])
  {
    match rule
    case BaseRule => Failure(NotImplemented)
    case SMACrossover(s, l) =>
      Success(if i < n then CrossoverOrders(s[i], l[i], position) else [])
    case RSIMeanReversion(r, upper, lower) =>
      Success(if i < n then MeanReversionOrders(r[i], lower, upper, position) else [])
  }

  /** An order at index i goes through without raising: a default-sized buy needs a non-zero unit cost at bar i. */
  predicate Sizable(c: Costs, data: seq<Bar>, i: nat, order: Order) {
    i < |data| ==> order.SellOrder? || CanSizeBuy(c, data[i].close, order.size)
  }

  predicate AllSizable(c: Costs, data: seq<Bar>, i: nat, orders: seq<Order>) {
    forall k :: 0 <= k < |orders| ==> Sizable(c, data, i, orders[k])
  }

  /** Strategy.buy / Strategy.sell: forwarded with bar i's Close and date only while i is inside the data. */
  function Placed(a: Account, c: Costs, data: seq<Bar>, i: nat, order: Order): (r: Account)
    requires Sizable(c, data, i, order)
    ensures i >= |data| ==> r == a
    ensures LogsOnce(a, r)
  {
    if i < |data| then Executed(a, c, data[i].close, order, Some(data[i].date)) else a
  }

  /** Several orders placed in turn at one index. */
  function PlacedAll(a: Account, c: Costs, data: seq<Bar>, i: nat, orders: seq<Order>): Account
    requires AllSizable(c, data, i, orders)
    decreases orders
  {
    if orders == [] then a else PlacedAll(Placed(a, c, data, i, orders[0]), c, data, i, orders[1..])
  }

  /**
   * The broker's account after next() at index i, or the error next() raises:
   * NotImplemented from the base class, or ZeroUnitCost from a default-sized
   * buy at a bar whose unit cost is 0. The rules place at most one order, so
   * a raising order is the first and the account is untouched when it raises.
   */
  function StepAccount(rule: Rule, c: Costs, data: seq<Bar>, a: Account, i: nat): (r: Result<Account, Error>)
    requires RuleFits(rule, |data|)
    ensures rule.BaseRule? ==> r == Failure(NotImplemented)
    ensures r.Failure? && !rule.BaseRule? ==>
      r.error == ZeroUnitCost && i < |data| && UnitCost(c, data[i].close) == 0.0
    ensures !rule.BaseRule? && (i >= |data| || UnitCost(c, data[i].close) != 0.0) ==> r.Success?
  {
    match Decide(rule, |data|, i, a.position)
    case Failure(e) => Failure(e)
    case Success(orders) =>
      if AllSizable(c, data, i, orders) then Success(PlacedAll(a, c, data, i, orders))
      else Failure(ZeroUnitCost)
  }

  class Strategy {
    const broker: Broker
    const data: seq<Bar>
    var indicators: map<string, Series>
    var currentIndex: nat
    var rule: Rule

    ghost predicate Valid()
      reads this
    {
      RuleFits(rule, |data|)
    }

    /** __init__: empty registry, cursor at 0, then the subclass's init(). */
    constructor (broker: Broker, data: seq<Bar>, cls: StrategyClass)
      ensures this.broker == broker && this.data == data && currentIndex == 0
      ensures indicators == Registered(map[], cls, Closes(data))
      ensures rule == InitialRule(cls, Closes(data))
      ensures Valid()
    {
      this.broker := broker;
      this.data := data;
      indicators := map[];
      currentIndex := 0;
      rule := BaseRule;
      new;
      Init(cls);
    }

    /** init(): registers the subclass's indicators and keeps what next() reads. */
    method Init(cls: StrategyClass)
      modifies this
      ensures currentIndex == old(currentIndex)
      ensures indicators == Registered(old(indicators), cls, Closes(data))
      ensures rule == if cls.BaseStrategy? then old(rule) else InitialRule(cls, Closes(data))
    {
      match cls {
        case BaseStrategy =>
        case SMACrossoverStrategy =>
          var short := Indicator(SMASpec(ShortPeriod));
          var long := Indicator(SMASpec(LongPeriod));
          rule := SMACrossover(short, long);
        case RSIMeanReversionStrategy =>
          var rsi := Indicator(RSISpec(RSIPeriod));
          rule := RSIMeanReversion(rsi, UpperThreshold, LowerThreshold);
      }
    }

    /** indicator(): computes the series, files it under the indicator's name once built ('', see RegistryKey), returns it. */
    method Indicator(ind: IndicatorSpec) returns (values: Series)
      modifies this`indicators
      ensures values == Compute(ind, Closes(data))
      ensures indicators == old(indicators)[RegistryKey(ind) := values]
    {
      values := Compute(ind, Closes(data));
      indicators := indicators[RegistryKey(ind) := values];
    }

    /** buy(): forwarded while the cursor is inside the data; the broker's exception passes through. */
    method Buy(size: OrderSize) returns (r: Outcome<Error>)
      modifies broker
      ensures r.Fail? <==> !Sizable(broker.Charges(), data, currentIndex, BuyOrder(size))
      ensures r.Fail? ==> r.error == ZeroUnitCost && broker.State() == old(broker.State())
      ensures r.Pass? ==>
        broker.State() == Placed(old(broker.State()), broker.Charges(), data, currentIndex, BuyOrder(size))
    {
      r := Pass;
      if currentIndex < |data| {
        var price := data[currentIndex].close;
        var date := data[currentIndex].date;
        r := broker.Buy(price, size, Some(date));
      }
    }

    method Sell(size: OrderSize)
      modifies broker
      ensures broker.State() == Placed(old(broker.State()), broker.Charges(), data, currentIndex, SellOrder(size))
    {
      if currentIndex < |data| {
        var price := data[currentIndex].close;
        var date := data[currentIndex].date;
        broker.Sell(price, size, Some(date));
      }
    }

    /** get_indicator: the registered series' value at the cursor. */
    function GetIndicator(name: string): (r: Result<Option<real>, Error>)
      reads this
      ensures name !in indicators ==> r == Failure(UnknownIndicator(name))
      ensures name in indicators && currentIndex < |indicators[name]| ==>
        r == Success(indicators[name][currentIndex])
      ensures name in indicators && currentIndex >= |indicators[name]| ==> r == Failure(IndexOutOfRange)
    {
      if name in indicators then
        var series := indicators[name];
        if currentIndex < |series| then Success(series[currentIndex]) else Failure(IndexOutOfRange)
      else Failure(UnknownIndicator(name))
    }

    /** next(): the subclass's decision at the cursor, carried out on the broker. */
    method Next() returns (r: Outcome<Error>)
      requires Valid()
      modifies broker
      ensures match StepAccount(rule, broker.Charges(), data, old(broker.State()), currentIndex)
        case Success(a) => r == Pass && broker.State() == a
        case Failure(e) => r == Fail(e) && broker.State() == old(broker.State())
    {
      ghost var before := broker.State();
      ghost var orders := Decide(rule, |data|, currentIndex, before.position);
      if orders.Success? && |orders.value| == 1 {
        assert orders.value == [orders.value[0]];
        if Sizable(broker.Charges(), data, currentIndex, orders.value[0]) {
          PlacedSingle(before, broker.Charges(), data, currentIndex, orders.value[0]);
        }
      }
      r := Pass;
      match rule {
        case BaseRule =>
          return Fail(NotImplemented);
        case SMACrossover(smaShort, smaLong) =>
          if currentIndex < |data| {
            var short := smaShort[currentIndex];
            var long := smaLong[currentIndex];
            if short.Some? && long.Some? {
              if short.value > long.value && broker.position == 0 {
                r := Buy(DefaultSize);
              } else if short.value < long.value && broker.position > 0 {
                Sell(DefaultSize);
              }
            }
          }
        case RSIMeanReversion(rsi, upper, lower) =>
          if currentIndex < |data| {
            var value := rsi[currentIndex];
            if value.Some? {
              if value.value < lower && broker.position == 0 {
                r := Buy(DefaultSize);
              } else if value.value > upper && broker.position > 0 {
                Sell(DefaultSize);
              }
            }
          }
      }
    }
  }

  // ---------------------------------------------------------------------------
  // What the strategy layer promises

  /**
   * As built, init() files every series under '': the crossover's SMA(50)
   * overwrites its SMA(10), and mean reversion leaves RSI(14) alone under ''.
   */
  lemma InitRegistersUnderEmptyName(cls: StrategyClass, closes: seq<real>)
    ensures var m := Registered(map[], cls, closes);
      match cls
      case BaseStrategy => m == map[]
      case SMACrossoverStrategy => m == map["" := SMA(closes, LongPeriod)]
      case RSIMeanReversionStrategy => m == map["" := RSI(closes, RSIPeriod)]
  {
    if cls.SMACrossoverStrategy? {
      var m := Registered(map[], cls, closes);
      assert m == map["":= SMA(closes, ShortPeriod)][""  := SMA(closes, LongPeriod)];
    }
  }

  /**
   * After init(), looking up an indicator by any non-empty name, such as
   * 'SMA_10' or 'RSI_14', raises: nothing is registered under it.
   */
  lemma NamedLookupsFail(s: Strategy, cls: StrategyClass, name: string)
    requires s.indicators == Registered(map[], cls, Closes(s.data))
    requires name != ""
    ensures s.GetIndicator(name) == Failure(UnknownIndicator(name))
  {
    InitRegistersUnderEmptyName(cls, Closes(s.data));
  }

  /**
   * Filed under their own names, the example strategies' series would each be
   * kept and found: 'SMA_10' and 'SMA_50', or 'RSI_14'.
   */
  lemma IntendedRegistryNamesEachSeries(cls: StrategyClass, closes: seq<real>)
    ensures var m := IntendedRegistered(cls, closes);
      match cls
      case BaseStrategy => m == map[]
      case SMACrossoverStrategy =>
        m.Keys == {"SMA_10", "SMA_50"} && m["SMA_10"] == SMA(closes, 10) && m["SMA_50"] == SMA(closes, 50)
      case RSIMeanReversionStrategy =>
        m.Keys == {"RSI_14"} && m["RSI_14"] == RSI(closes, 14)
  {
    assert DecimalString(10) == "10" && DecimalString(50) == "50" && DecimalString(14) == "14";
    assert Name(SMASpec(10)) == "SMA_10" && Name(SMASpec(50)) == "SMA_50" && Name(RSISpec(14)) == "RSI_14";
  }

  lemma PlacedSingle(a: Account, c: Costs, data: seq<Bar>, i: nat, order: Order)
    requires Sizable(c, data, i, order)
    ensures PlacedAll(a, c, data, i, [order]) == Placed(a, c, data, i, order)
  {
    assert [order][1..] == [];
  }

  /** Outside the data, buy and sell leave the broker alone. */
  lemma OutOfRangeOrdersIgnored(a: Account, c: Costs, data: seq<Bar>, i: nat, order: Order)
    requires i >= |data|
    ensures Placed(a, c, data, i, order) == a
  {
  }

  /** The base class's next() always raises; the example rules never do. */
  lemma OnlyBaseNextFails(rule: Rule, n: nat, i: nat, position: int)
    requires RuleFits(rule, n)
    ensures Decide(rule, n, i, position).Failure? <==> rule.BaseRule?
    ensures Decide(rule, n, i, position).Failure? ==> Decide(rule, n, i, position).error == NotImplemented
  {
  }

  /** The example rules place at most one, default-sized order per step. */
  lemma ExampleRulesPlaceOneOrder(rule: Rule, n: nat, i: nat, position: int)
    requires RuleFits(rule, n) && !rule.BaseRule?
    ensures DefaultSized(Decide(rule, n, i, position).value)
  {
    if i < n {
      match rule
      case SMACrossover(s, l) => CrossoverDecision(s[i], l[i], position);
      case RSIMeanReversion(r, upper, lower) =>
        var orders := MeanReversionOrders(r[i], lower, upper, position);
        assert |orders| <= 1;
    }
  }
}
