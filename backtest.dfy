/**
 * The engine of backtesting_lib/backtest.py. Run visits the bars in order; at
 * each it moves the strategy's cursor, lets next() trade, then marks the
 * broker at that bar's Close. Replay is the same run as a function of the
 * starting account, and the lemmas below are about Replay.
 */
module Backtesting {
  import opened Common
  import opened Execution
  import opened Indicators
  import opened ExampleRules
  import opened Strategies

  /** The broker's account and the values recorded so far. */
  datatype Sim = Sim(account: Account, values: seq<real>)

  /** One row of the results table: a date of the index and a portfolio value. */
  datatype Row = Row(date: Date, value: real)

  /** No bar's unit cost is zero, so no default-sized buy can raise. */
  predicate Tradable(c: Costs, data: seq<Bar>) {
    forall i :: 0 <= i < |data| ==> UnitCost(c, data[i].close) != 0.0
  }

  /** The first k steps of run() from account a0, or the error a step raised. */
  function Replay(rule: Rule, c: Costs, data: seq<Bar>, a0: Account, k: nat): (r: Result<Sim, Error>)
    requires RuleFits(rule, |data|) && k <= |data|
    ensures r.Success? ==> |r.value.values| == k
    ensures rule.BaseRule? && k > 0 ==> r == Failure(NotImplemented)
    ensures r.Failure? ==> r.error == NotImplemented || r.error == ZeroUnitCost
    ensures Tradable(c, data) ==> (r.Failure? <==> rule.BaseRule? && k > 0)
  {
    if k == 0 then Success(Sim(a0, []))
    else
      match Replay(rule, c, data, a0, k - 1)
      case Failure(e) => Failure(e)
      case Success(s) =>
        match StepAccount(rule, c, data, s.account, k - 1)
        case Failure(e) => Failure(e)
        case Success(a) => Success(Sim(a, s.values + [Value(a, data[k - 1].close)]))
  }

  /**
   * pd.DataFrame({'Portfolio Value': values}, index=data.index[:len(values)]):
   * pandas refuses more values than index entries.
   */
  function Results(data: seq<Bar>, values: seq<real>): (r: Result<seq<Row>, Error>)
    ensures r.Success? <==> |values| <= |data|
    ensures r.Failure? ==> r.error == LengthMismatch
    ensures r.Success? ==> |r.value| == |values|
    ensures r.Success? ==>
      forall k :: 0 <= k < |values| ==> r.value[k].date == data[k].date && r.value[k].value == values[k]
  {
    if |values| <= |data| then
      Success(seq(|values|, i requires 0 <= i < |values| => Row(data[i].date, values[i])))
    else Failure(LengthMismatch)
  }

  /**
   * Step i raised: the first i steps went through and step i's next() did not.
   * run() then stops with the cursor at i, the i values recorded and the
   * broker as those steps left it.
   */
  predicate RaisedAt(rule: Rule, c: Costs, data: seq<Bar>, a0: Account, i: nat)
    requires RuleFits(rule, |data|)
  {
    i < |data| && Replay(rule, c, data, a0, i).Success? && Replay(rule, c, data, a0, i + 1).Failure?
  }

  class Backtest {
    const data: seq<Bar>
    const cash: real
    const commission: real
    const slippage: real
    const broker: Broker
    const strategy: Strategy
    var portfolioValues: seq<real>
    var results: Option<seq<Row>>

    ghost predicate Valid()
      reads this, strategy
    {
      strategy.broker == broker && strategy.data == data && strategy.Valid()
    }

    /** __init__: a fresh broker, the strategy built once (running its init()), no values yet. */
    constructor (data: seq<Bar>, cls: StrategyClass, cash: real, commission: real, slippage: real)
      ensures Valid() && fresh(broker) && fresh(strategy)
      ensures this.data == data && this.cash == cash && this.commission == commission && this.slippage == slippage
      ensures broker.State() == Account(cash, 0, []) && broker.Charges() == Costs(commission, slippage)
      ensures strategy.currentIndex == 0
      ensures strategy.rule == InitialRule(cls, Closes(data))
      ensures strategy.indicators == Registered(map[], cls, Closes(data))
      ensures portfolioValues == [] && results == None
    {
      this.data := data;
      this.cash := cash;
      this.commission := commission;
      this.slippage := slippage;
      var b := new Broker(cash, commission, slippage);
      broker := b;
      strategy := new Strategy(b, data, cls);
      portfolioValues := [];
      results := None;
    }

    /**
     * run(): one step per bar, in order. The values are appended to what
     * earlier runs left, and the broker carries on from its current state.
     */
    method Run() returns (r: Result<seq<Row>, Error>)
      requires Valid()
      modifies this, strategy, broker
      ensures Valid()
      ensures strategy.rule == old(strategy.rule) && strategy.indicators == old(strategy.indicators)
      ensures match Replay(strategy.rule, broker.Charges(), data, old(broker.State()), |data|)
        case Success(s) =>
          broker.State() == s.account && portfolioValues == old(portfolioValues) + s.values &&
          r == Results(data, portfolioValues) &&
          results == (if r.Success? then Some(r.value) else old(results)) &&
          strategy.currentIndex == (if |data| == 0 then old(strategy.currentIndex) else |data| - 1)
        case Failure(e) =>
          r == Failure(e) && results == old(results) &&
          RaisedAt(strategy.rule, broker.Charges(), data, old(broker.State()), strategy.currentIndex) &&
          var s := Replay(strategy.rule, broker.Charges(), data, old(broker.State()), strategy.currentIndex).value;
          broker.State() == s.account && portfolioValues == old(portfolioValues) + s.values
    {
      var outcome := Steps();
      if outcome.Fail? {
        return Failure(outcome.error);
      }
      r := Results(data, portfolioValues);
      if r.Success? {
        results := Some(r.value);
      }
    }

    /** The loop of run(): for each bar, move the cursor, call next(), record the value. */
    method Steps() returns (outcome: Outcome<Error>)
      requires Valid()
      modifies this`portfolioValues, strategy`currentIndex, broker
      ensures Valid() && strategy.rule == old(strategy.rule) && strategy.indicators == old(strategy.indicators)
      ensures match Replay(strategy.rule, broker.Charges(), data, old(broker.State()), |data|)
        case Success(s) =>
          outcome == Pass && broker.State() == s.account && portfolioValues == old(portfolioValues) + s.values &&
          strategy.currentIndex == (if |data| == 0 then old(strategy.currentIndex) else |data| - 1)
        case Failure(e) =>
          outcome == Fail(e) &&
          RaisedAt(strategy.rule, broker.Charges(), data, old(broker.State()), strategy.currentIndex) &&
          var s := Replay(strategy.rule, broker.Charges(), data, old(broker.State()), strategy.currentIndex).value;
          broker.State() == s.account && portfolioValues == old(portfolioValues) + s.values
    {
      ghost var a0 := broker.State();
      ghost var rule := strategy.rule;
      ghost var c := broker.Charges();
      ghost var sim := Sim(a0, []);
      var dataLength := |data|;
      var idx := 0;
      while idx < dataLength
        invariant 0 <= idx <= dataLength
        invariant Valid() && strategy.rule == rule && strategy.indicators == old(strategy.indicators)
        invariant Replay(rule, c, data, a0, idx) == Success(sim)
        invariant broker.State() == sim.account
        invariant portfolioValues == old(portfolioValues) + sim.values
        invariant strategy.currentIndex == if idx == 0 then old(strategy.currentIndex) else idx - 1
      {
        ghost var step := StepAccount(rule, c, data, sim.account, idx);
        ReplayStep(rule, c, data, a0, idx);
        strategy.currentIndex := idx;
        var stepOutcome := strategy.Next();
        if stepOutcome.Fail? {
          StepRaises(rule, c, data, a0, idx);
          assert strategy.currentIndex == idx && broker.State() == sim.account;
          return stepOutcome;
        }
        assert step.Success? && broker.State() == step.value;
        var currentPrice := data[idx].close;
        var value := broker.PortfolioValue(currentPrice);
        portfolioValues := portfolioValues + [value];
        sim := Sim(step.value, sim.values + [value]);
        idx := idx + 1;
      }
      outcome := Pass;
    }
  }

  // ---------------------------------------------------------------------------
  // What a run promises

  /** One more step: next() at bar i, then the account marked at Close[i]. */
  lemma ReplayStep(rule: Rule, c: Costs, data: seq<Bar>, a0: Account, i: nat)
    requires RuleFits(rule, |data|) && i < |data|
    requires Replay(rule, c, data, a0, i).Success?
    ensures var s := Replay(rule, c, data, a0, i).value;
      match StepAccount(rule, c, data, s.account, i)
      case Success(a) => Replay(rule, c, data, a0, i + 1) == Success(Sim(a, s.values + [Value(a, data[i].close)]))
      case Failure(e) => Replay(rule, c, data, a0, i + 1) == Failure(e)
  {
  }

  /** A step whose next() raises ends the whole run in its error, and the run stops there. */
  lemma StepRaises(rule: Rule, c: Costs, data: seq<Bar>, a0: Account, i: nat)
    requires RuleFits(rule, |data|) && i < |data|
    requires Replay(rule, c, data, a0, i).Success?
    requires StepAccount(rule, c, data, Replay(rule, c, data, a0, i).value.account, i).Failure?
    ensures RaisedAt(rule, c, data, a0, i)
    ensures Replay(rule, c, data, a0, |data|)
         == Failure(StepAccount(rule, c, data, Replay(rule, c, data, a0, i).value.account, i).error)
  {
    ReplayStep(rule, c, data, a0, i);
    ReplayFailurePersists(rule, c, data, a0, i + 1, |data|);
  }

  /** Once a step has raised, every longer run ends in the same error. */
  lemma {:induction false} ReplayFailurePersists(rule: Rule, c: Costs, data: seq<Bar>, a0: Account, j: nat, k: nat)
    requires RuleFits(rule, |data|) && j <= k <= |data|
    requires Replay(rule, c, data, a0, j).Failure?
    ensures Replay(rule, c, data, a0, k) == Replay(rule, c, data, a0, j)
  {
    if j < k {
      ReplayFailurePersists(rule, c, data, a0, j, k - 1);
    }
  }

  /** Later steps only append: the first j values of a longer run are those of the j-step run. */
  lemma {:induction false} ReplayExtends(rule: Rule, c: Costs, data: seq<Bar>, a0: Account, j: nat, k: nat)
    requires RuleFits(rule, |data|) && j <= k <= |data|
    requires Replay(rule, c, data, a0, k).Success?
    ensures Replay(rule, c, data, a0, j).Success?
    ensures Replay(rule, c, data, a0, k).value.values[..j] == Replay(rule, c, data, a0, j).value.values
  {
    if j < k {
      ReplayExtends(rule, c, data, a0, j, k - 1);
      var longer := Replay(rule, c, data, a0, k).value.values;
      var shorter := Replay(rule, c, data, a0, k - 1).value.values;
      assert longer[..k - 1] == shorter;
      assert longer[..j] == shorter[..j];
    }
  }

  /**
   * Value i is the broker's cash plus position at Close[i], read after step i's
   * next(): a trade at bar i already shows in value i.
   */
  lemma ValueAfterTrade(rule: Rule, c: Costs, data: seq<Bar>, a0: Account, k: nat, i: nat)
    requires RuleFits(rule, |data|) && i < k <= |data|
    requires Replay(rule, c, data, a0, k).Success?
    ensures Replay(rule, c, data, a0, i + 1).Success?
    ensures var after := Replay(rule, c, data, a0, i + 1).value.account;
      Replay(rule, c, data, a0, k).value.values[i] == Value(after, data[i].close)
  {
    ReplayExtends(rule, c, data, a0, i + 1, k);
    var vs := Replay(rule, c, data, a0, k).value.values;
    var step := Replay(rule, c, data, a0, i + 1).value;
    LastValueMarksAccount(rule, c, data, a0, i);
    assert vs[i] == vs[..i + 1][i] == step.values[i];
  }

  /** The value a step appends marks the account that step leaves. */
  lemma LastValueMarksAccount(rule: Rule, c: Costs, data: seq<Bar>, a0: Account, i: nat)
    requires RuleFits(rule, |data|) && i < |data|
    requires Replay(rule, c, data, a0, i + 1).Success?
    ensures var s := Replay(rule, c, data, a0, i + 1).value;
      s.values[i] == Value(s.account, data[i].close)
  {
    var prev := Replay(rule, c, data, a0, i).value;
    var a := StepAccount(rule, c, data, prev.account, i).value;
    assert Replay(rule, c, data, a0, i + 1).value == Sim(a, prev.values + [Value(a, data[i].close)]);
  }

  /**
   * A step whose next() places no order leaves the broker as it was, and its
   * value reprices that unchanged holding at the new Close.
   */
  lemma QuietStepReprices(rule: Rule, c: Costs, data: seq<Bar>, a0: Account, i: nat)
    requires RuleFits(rule, |data|) && i < |data|
    requires Replay(rule, c, data, a0, i).Success?
    requires Decide(rule, |data|, i, Replay(rule, c, data, a0, i).value.account.position) == Success([])
    ensures Replay(rule, c, data, a0, i + 1).Success?
    ensures var before := Replay(rule, c, data, a0, i).value.account;
      Replay(rule, c, data, a0, i + 1).value.account == before &&
      Replay(rule, c, data, a0, i + 1).value.values[i] == Value(before, data[i].close)
  {
  }

  /** On empty data nothing runs and nothing is recorded. */
  lemma EmptyDataRecordsNothing(rule: Rule, c: Costs, a0: Account)
    requires RuleFits(rule, 0)
    ensures Replay(rule, c, [], a0, 0) == Success(Sim(a0, []))
  {
  }

  /**
   * The example strategies keep the broker solvent on every bar a run reaches,
   * given a solvent start, a commission rate in [0, 1] and Closes that cover
   * the slippage; none of these is checked by the source. With no zero unit
   * cost the run reaches every bar.
   */
  lemma {:induction false} ExamplesStaySolvent(rule: Rule, c: Costs, data: seq<Bar>, a0: Account, k: nat)
    requires RuleFits(rule, |data|) && k <= |data|
    requires !rule.BaseRule? && Solvent(a0) && c.commission <= 1.0
    requires forall i :: 0 <= i < |data| ==> data[i].close >= c.slippage
    ensures Tradable(c, data) ==> Replay(rule, c, data, a0, k).Success?
    ensures Replay(rule, c, data, a0, k).Success? ==> Solvent(Replay(rule, c, data, a0, k).value.account)
  {
    if k > 0 && Replay(rule, c, data, a0, k).Success? {
      ExamplesStaySolvent(rule, c, data, a0, k - 1);
      var before := Replay(rule, c, data, a0, k - 1).value.account;
      var orders := Decide(rule, |data|, k - 1, before.position).value;
      ExampleRulesPlaceOneOrder(rule, |data|, k - 1, before.position);
      assert AllSizable(c, data, k - 1, orders);
      if |orders| == 1 {
        PlacedSingle(before, c, data, k - 1, orders[0]);
        assert orders == [orders[0]];
        ExecutedKeepsSolvent(before, c, data[k - 1].close, orders[0], Some(data[k - 1].date));
      }
    }
  }

  /** Every trade logged by mean reversion on strictly rising Closes is a buy. */
  lemma {:induction false} RisingPricesOnlyBuy(c: Costs, data: seq<Bar>, a0: Account, k: nat)
    requires k <= |data| && StrictlyIncreasing(Closes(data))
    requires forall t :: t in a0.history ==> t.action == BuyAction
    ensures var rule := InitialRule(RSIMeanReversionStrategy, Closes(data));
      Tradable(c, data) ==> Replay(rule, c, data, a0, k).Success?
    ensures var rule := InitialRule(RSIMeanReversionStrategy, Closes(data));
      Replay(rule, c, data, a0, k).Success? ==>
      forall t :: t in Replay(rule, c, data, a0, k).value.account.history ==> t.action == BuyAction
  {
    var rule := InitialRule(RSIMeanReversionStrategy, Closes(data));
    if k > 0 && Replay(rule, c, data, a0, k).Success? {
      RisingPricesOnlyBuy(c, data, a0, k - 1);
      var before := Replay(rule, c, data, a0, k - 1).value.account;
      RisingPricesNeverSell(Closes(data), k - 1, before.position);
      var orders := Decide(rule, |data|, k - 1, before.position).value;
      assert AllSizable(c, data, k - 1, orders);
      if before.position == 0 {
        assert orders == [BuyOrder(DefaultSize)];
        PlacedSingle(before, c, data, k - 1, orders[0]);
      } else {
        assert orders == [];
      }
    }
  }

  /**
   * Through the RSI warm-up (the first 13 bars) mean reversion reads 0: a flat
   * broker that can afford a unit buys at bar 0 and then holds.
   */
  lemma {:induction false} WarmUpBuyAndHold(c: Costs, data: seq<Bar>, a0: Account, k: nat)
    requires 1 <= k <= |data| && k < RSIPeriod
    requires a0.position == 0 && UnitCost(c, data[0].close) > 0.0 && a0.cash >= UnitCost(c, data[0].close)
    ensures var rule := InitialRule(RSIMeanReversionStrategy, Closes(data));
      Replay(rule, c, data, a0, k).Success? &&
      Replay(rule, c, data, a0, k).value.account == Bought(a0, c, data[0].close, DefaultSize, Some(data[0].date))
  {
    var rule := InitialRule(RSIMeanReversionStrategy, Closes(data));
    var closes := Closes(data);
    var bought := Bought(a0, c, data[0].close, DefaultSize, Some(data[0].date));
    RSIZeroExactly(closes, RSIPeriod, k - 1);
    RSIBounded(closes, RSIPeriod, k - 1);
    if k == 1 {
      assert Decide(rule, |data|, 0, 0) == Success([BuyOrder(DefaultSize)]);
      PlacedSingle(a0, c, data, 0, BuyOrder(DefaultSize));
    } else {
      WarmUpBuyAndHold(c, data, a0, k - 1);
      DefaultBuyFillsIffOneUnitAffordable(a0, c, data[0].close, Some(data[0].date));
      DefaultBuyIsLargestAffordable(a0, c, data[0].close, Some(data[0].date));
      assert bought.position > 0;
      assert Decide(rule, |data|, k - 1, bought.position) == Success([]);
    }
  }

  /** 100 in cash and no costs: a default buy at 10 takes 10 units and leaves no cash. */
  lemma WorkedExampleBuy(date: Date)
    ensures Bought(Account(100.0, 0, []), Costs(0.0, 0.0), 10.0, DefaultSize, Some(date))
         == Account(0.0, 10, [Trade(BuyAction, 10.0, 10, Some(date))])
  {
    assert UnitCost(Costs(0.0, 0.0), 10.0) == 10.0;
    assert (100.0 / 10.0).Floor == 10;
  }

  /**
   * The worked example: eleven bars whose first Close is 10 and last is 20,
   * 100 in cash, no costs. Mean reversion buys floor(100/10) = 10 units at
   * bar 0, leaving no cash, and the last value is 0 + 10 * 20 = 200.
   */
  lemma WorkedExample(data: seq<Bar>)
    requires |data| == 11 && data[0].close == 10.0 && data[10].close == 20.0
    ensures var rule := InitialRule(RSIMeanReversionStrategy, Closes(data));
      var run := Replay(rule, Costs(0.0, 0.0), data, Account(100.0, 0, []), 11);
      run.Success? && run.value.account == Account(0.0, 10, [Trade(BuyAction, 10.0, 10, Some(data[0].date))]) &&
      run.value.values[10] == 200.0
  {
    var c := Costs(0.0, 0.0);
    var a0 := Account(100.0, 0, []);
    var rule := InitialRule(RSIMeanReversionStrategy, Closes(data));
    var held := Account(0.0, 10, [Trade(BuyAction, 10.0, 10, Some(data[0].date))]);
    WorkedExampleBuy(data[0].date);
    WarmUpBuyAndHold(c, data, a0, 11);
    var run := Replay(rule, c, data, a0, 11);
    assert run.value.account == held;
    ValueAfterTrade(rule, c, data, a0, 11, 10);
    assert run.value.values[10] == Value(held, 20.0);
  }

  /**
   * Running twice without rebuilding: the second run appends another N values
   * onto the state the first left, and building its results table then fails,
   * since there are 2N values for N dates.
   */
  method RunTwice(data: seq<Bar>, cls: StrategyClass, cash: real, commission: real, slippage: real)
    returns (first: Result<seq<Row>, Error>, second: Result<seq<Row>, Error>, values: seq<real>)
    requires Tradable(Costs(commission, slippage), data) && cls != BaseStrategy
    ensures first.Success? && |first.value| == |data|
    ensures |values| == 2 * |data|
    ensures second == if |data| == 0 then Success([]) else Failure(LengthMismatch)
  {
    var bt := new Backtest(data, cls, cash, commission, slippage);
    first := bt.Run();
    second := bt.Run();
    values := bt.portfolioValues;
  }

  /** Two backtests built from the same inputs produce the same results. */
  method RunsAreDeterministic(data: seq<Bar>, cls: StrategyClass, cash: real, commission: real, slippage: real)
    returns (first: Result<seq<Row>, Error>, second: Result<seq<Row>, Error>)
    ensures first == second
    ensures cls == BaseStrategy && |data| > 0 ==> first == Failure(NotImplemented)
    ensures Tradable(Costs(commission, slippage), data) ==> (first.Failure? <==> cls == BaseStrategy && |data| > 0)
  {
    var bt1 := new Backtest(data, cls, cash, commission, slippage);
    first := bt1.Run();
    var bt2 := new Backtest(data, cls, cash, commission, slippage);
    second := bt2.Run();
  }
}
