/**
 * The broker of backtesting_lib/execution.py: orders execute immediately at a
 * price the caller supplies, with a fixed slippage and commission; oversized
 * orders are dropped whole, never clipped.
 *
 * The pure functions Bought and Sold give the broker's next state; the class
 * Broker updates its fields in place and is proved to follow them.
 */
module Execution {
  import opened Common
  import opened Arith

  /** A bar's timestamp; the model never looks inside it. */
  datatype Date = Date(stamp: int)

  datatype Action = BuyAction | SellAction

  /** One entry of the trade log; `date` is None when the caller passed none. */
  datatype Trade = Trade(action: Action, price: real, amount: int, date: Option<Date>)

  /** `amount=None` sizes the order from cash (buy) or the position (sell). */
  datatype OrderSize = DefaultSize | Units(count: int)

  /** A call the strategy makes on the broker. */
  datatype Order = BuyOrder(size: OrderSize) | SellOrder(size: OrderSize)

  /** Commission rate and slippage, fixed when the broker is built. */
  datatype Costs = Costs(commission: real, slippage: real)

  /** The part of a broker that orders change: cash, units held and the trade log. */
  datatype Account = Account(cash: real, position: int, history: seq<Trade>)

  /** `{'cash': ..., 'position': ...}` as returned by get_positions. */
  datatype Holdings = Holdings(cash: real, position: int)

  function BuyPrice(c: Costs, price: real): real { price + c.slippage }

  function UnitCost(c: Costs, price: real): real { BuyPrice(c, price) * (1.0 + c.commission) }

  function SellPrice(c: Costs, price: real): real { price - c.slippage }

  function UnitRevenue(c: Costs, price: real): real { SellPrice(c, price) * (1.0 - c.commission) }

  /** Cash plus the position marked at `price`. */
  function Value(a: Account, price: real): real { a.cash + a.position as real * price }

  /** Default buy sizing needs a division by the unit cost. */
  predicate CanSizeBuy(c: Costs, price: real, size: OrderSize) {
    size.Units? || UnitCost(c, price) != 0.0
  }

  /** The units a buy asks for; None for the early return of default sizing. */
  function BuyQuantity(cash: real, c: Costs, price: real, size: OrderSize): Option<int>
    requires CanSizeBuy(c, price, size)
  {
    match size
    case Units(n) => Some(n)
    case DefaultSize =>
      var n := (cash / UnitCost(c, price)).Floor;
      if n <= 0 then None else Some(n)
  }

  /** The account after `buy(price, amount, date)`. */
  function Bought(a: Account, c: Costs, price: real, size: OrderSize, date: Option<Date>): (r: Account)
    requires CanSizeBuy(c, price, size)
    ensures LogsOnce(a, r)
    ensures r != a ==>
      r.history[|a.history|] == Trade(BuyAction, BuyPrice(c, price), r.position - a.position, date)
  {
    match BuyQuantity(a.cash, c, price, size)
    case None => a
    case Some(n) =>
      var cost := UnitCost(c, price) * n as real;
      if a.cash >= cost then
        Account(a.cash - cost, a.position + n, a.history + [Trade(BuyAction, BuyPrice(c, price), n, date)])
      else a
  }

  /** The units a sell asks for; None for the early return on an empty position. */
  function SellQuantity(position: int, size: OrderSize): Option<int> {
    match size
    case Units(n) => Some(n)
    case DefaultSize => if position <= 0 then None else Some(position)
  }

  /** The account after `sell(price, amount, date)`. */
  function Sold(a: Account, c: Costs, price: real, size: OrderSize, date: Option<Date>): (r: Account)
    ensures LogsOnce(a, r)
    ensures r != a ==> r.position >= 0
    ensures r != a ==>
      r.history[|a.history|] == Trade(SellAction, SellPrice(c, price), a.position - r.position, date)
  {
    match SellQuantity(a.position, size)
    case None => a
    case Some(n) =>
      if a.position >= n then
        Account(a.cash + UnitRevenue(c, price) * n as real, a.position - n,
                a.history + [Trade(SellAction, SellPrice(c, price), n, date)])
      else a
  }

  /** The account after placing one order at `price`. */
  function Executed(a: Account, c: Costs, price: real, order: Order, date: Option<Date>): Account
    requires CanSizeBuy(c, price, order.size) || order.SellOrder?
  {
    match order
    case BuyOrder(size) => Bought(a, c, price, size, date)
    case SellOrder(size) => Sold(a, c, price, size, date)
  }

  /** The invariant the broker is meant to keep: no debt, no short position. */
  predicate Solvent(a: Account) { a.cash >= 0.0 && a.position >= 0 }

  /** A trade either leaves the account alone or logs exactly one record. */
  predicate LogsOnce(before: Account, after: Account) {
    after == before ||
    (|after.history| == |before.history| + 1 && after.history[..|before.history|] == before.history)
  }

  // ---------------------------------------------------------------------------
  // The broker object

  class Broker {
    var cash: real
    var position: int
    var history: seq<Trade>
    const commission: real
    const slippage: real

    constructor (cash: real, commission: real, slippage: real)
      ensures State() == Account(cash, 0, [])
      ensures Charges() == Costs(commission, slippage)
    {
      this.cash := cash;
      this.commission := commission;
      this.slippage := slippage;
      position := 0;
      history := [];
    }

    function State(): Account
      reads this
    {
      Account(cash, position, history)
    }

    function Charges(): Costs {
      Costs(commission, slippage)
    }

    /**
     * buy(): a default-sized buy at a zero unit cost raises before anything
     * changes (ZeroDivisionError on a float, OverflowError or ValueError from
     * int() of numpy's inf or NaN quotient); that is the ZeroUnitCost error.
     */
    method Buy(price: real, size: OrderSize, date: Option<Date>) returns (r: Outcome<Error>)
      modifies this
      ensures r.Fail? <==> !CanSizeBuy(Charges(), price, size)
      ensures r.Fail? ==> r.error == ZeroUnitCost && State() == old(State())
      ensures r.Pass? ==> State() == Bought(old(State()), Charges(), price, size, date)
    {
      r := Pass;
      ghost var before := State();
      var adjustedPrice := price + slippage;
      var unitCost := adjustedPrice * (1.0 + commission);
      assert adjustedPrice == BuyPrice(Charges(), price) && unitCost == UnitCost(Charges(), price);
      var amount: int;
      match size {
        case Units(n) =>
          amount := n;
        case DefaultSize =>
          if unitCost == 0.0 {
            return Fail(ZeroUnitCost);
          }
          amount := (cash / unitCost).Floor;
          if amount <= 0 {
            return;
          }
      }
      assert BuyQuantity(before.cash, Charges(), price, size) == Some(amount);
      var cost := unitCost * amount as real;
      if cash >= cost {
        cash := cash - cost;
        position := position + amount;
        history := history + [Trade(BuyAction, adjustedPrice, amount, date)];
      }
    }

    method Sell(price: real, size: OrderSize, date: Option<Date>)
      modifies this
      ensures State() == Sold(old(State()), Charges(), price, size, date)
    {
      var adjustedPrice := price - slippage;
      var unitRevenue := adjustedPrice * (1.0 - commission);
      var amount: int;
      match size {
        case Units(n) =>
          amount := n;
        case DefaultSize =>
          amount := position;
          if amount <= 0 {
            return;
          }
      }
      if position >= amount {
        cash := cash + unitRevenue * amount as real;
        position := position - amount;
        history := history + [Trade(SellAction, adjustedPrice, amount, date)];
      }
    }

    /** get_portfolio_value: a pure read. */
    method PortfolioValue(currentPrice: real) returns (v: real)
      ensures v == Value(State(), currentPrice)
    {
      v := cash + position as real * currentPrice;
    }

    /** get_positions: a snapshot of cash and position. */
    method Positions() returns (h: Holdings)
      ensures h.cash == cash && h.position == position
    {
      h := Holdings(cash, position);
    }
  }

  // ---------------------------------------------------------------------------
  // What the broker promises

  /** Default sizing buys the largest whole number of units the cash pays for. */
  lemma DefaultBuyIsLargestAffordable(a: Account, c: Costs, price: real, date: Option<Date>)
    requires UnitCost(c, price) > 0.0 && a.cash >= 0.0
    ensures var r := Bought(a, c, price, DefaultSize, date);
      var n := r.position - a.position;
      var u := UnitCost(c, price);
      n >= 0 && u * n as real <= a.cash && a.cash < u * (n + 1) as real &&
      r.cash == a.cash - u * n as real
  {
    var u := UnitCost(c, price);
    var q := (a.cash / u).Floor;
    FloorDivBounds(a.cash, u);
    if q > 0 {
      assert BuyQuantity(a.cash, c, price, DefaultSize) == Some(q);
      assert Bought(a, c, price, DefaultSize, date).position == a.position + q;
    }
  }

  /** Default sizing fills exactly when at least one unit is affordable. */
  lemma DefaultBuyFillsIffOneUnitAffordable(a: Account, c: Costs, price: real, date: Option<Date>)
    requires UnitCost(c, price) > 0.0 && a.cash >= 0.0
    ensures Bought(a, c, price, DefaultSize, date) != a <==> a.cash >= UnitCost(c, price)
    ensures Bought(a, c, price, DefaultSize, date) != a ==>
      |Bought(a, c, price, DefaultSize, date).history| == |a.history| + 1
  {
    var u := UnitCost(c, price);
    var q := (a.cash / u).Floor;
    DefaultBuyIsLargestAffordable(a, c, price, date);
    DivAtLeast(a.cash, u, 1.0);
    if q > 0 {
      assert BuyQuantity(a.cash, c, price, DefaultSize) == Some(q);
    }
  }

  /** An explicit buy is all or nothing: it fills in full exactly when the cash covers it. */
  lemma ExplicitBuyAllOrNothing(a: Account, c: Costs, price: real, n: int, date: Option<Date>)
    ensures var r := Bought(a, c, price, Units(n), date);
      if UnitCost(c, price) * n as real <= a.cash then
        r.cash == a.cash - UnitCost(c, price) * n as real && r.position == a.position + n &&
        r.history == a.history + [Trade(BuyAction, price + c.slippage, n, date)]
      else r == a
  {
  }

  /** A default sell empties the position; on a flat (or negative) position it does nothing. */
  lemma DefaultSellFlattens(a: Account, c: Costs, price: real, date: Option<Date>)
    ensures var r := Sold(a, c, price, DefaultSize, date);
      if a.position > 0 then
        r.position == 0 && r.cash == a.cash + UnitRevenue(c, price) * a.position as real &&
        r.history == a.history + [Trade(SellAction, price - c.slippage, a.position, date)]
      else r == a
  {
  }

  /** An explicit sell of more than is held is dropped; otherwise it leaves a non-negative position. */
  lemma ExplicitSellAllOrNothing(a: Account, c: Costs, price: real, n: int, date: Option<Date>)
    ensures var r := Sold(a, c, price, Units(n), date);
      if n > a.position then r == a
      else r.position == a.position - n && r.position >= 0 &&
           r.cash == a.cash + UnitRevenue(c, price) * n as real &&
           r.history == a.history + [Trade(SellAction, price - c.slippage, n, date)]
  {
  }

  /** Commission and slippage: every order is all or nothing and logs at most one trade. */
  lemma ExecutedLogsOnce(a: Account, c: Costs, price: real, order: Order, date: Option<Date>)
    requires CanSizeBuy(c, price, order.size) || order.SellOrder?
    ensures LogsOnce(a, Executed(a, c, price, order, date))
  {
  }

  /** Cash never goes negative through a buy, whatever its size. */
  lemma BuyKeepsCash(a: Account, c: Costs, price: real, size: OrderSize, date: Option<Date>)
    requires CanSizeBuy(c, price, size)
    requires a.cash >= 0.0
    ensures Bought(a, c, price, size, date).cash >= 0.0
  {
  }

  /**
   * Orders of non-negative size keep the account solvent, provided a sale
   * never earns a negative amount per unit: the price covers the slippage
   * and the commission rate is at most 1. The source checks neither.
   */
  lemma ExecutedKeepsSolvent(a: Account, c: Costs, price: real, order: Order, date: Option<Date>)
    requires CanSizeBuy(c, price, order.size) || order.SellOrder?
    requires Solvent(a)
    requires order.size.Units? ==> order.size.count >= 0
    requires price >= c.slippage && c.commission <= 1.0
    ensures Solvent(Executed(a, c, price, order, date))
  {
    match order
    case BuyOrder(size) =>
      var r := Bought(a, c, price, size, date);
      if size == DefaultSize && UnitCost(c, price) != 0.0 {
        var q := (a.cash / UnitCost(c, price)).Floor;
        assert r == a || r.position == a.position + q;
      }
    case SellOrder(size) =>
      var r := Sold(a, c, price, size, date);
      if r != a {
        var n := a.position - r.position;
        assert n >= 0;
        MulNonNegative(SellPrice(c, price), 1.0 - c.commission);
        MulNonNegative(UnitRevenue(c, price), n as real);
      }
  }

  /** The source does not check the sign of an amount: buying -1 unit opens a short position. */
  lemma NegativeBuyGoesShort(a: Account, c: Costs, price: real, date: Option<Date>)
    requires Solvent(a) && a.position == 0 && UnitCost(c, price) > 0.0
    ensures Bought(a, c, price, Units(-1), date).position == -1
    ensures Bought(a, c, price, Units(-1), date).cash == a.cash + UnitCost(c, price)
  {
    ExplicitBuyAllOrNothing(a, c, price, -1, date);
  }

  /** Nor does it check the sign of a sell amount: selling -1 unit passes the position check and adds a unit. */
  lemma NegativeSellAddsUnit(a: Account, c: Costs, price: real, date: Option<Date>)
    requires a.position >= 0
    ensures Sold(a, c, price, Units(-1), date).position == a.position + 1
    ensures Sold(a, c, price, Units(-1), date).cash == a.cash - UnitRevenue(c, price)
  {
    ExplicitSellAllOrNothing(a, c, price, -1, date);
  }

  /**
   * The source does not check the price against the slippage: with a
   * commission below 1, such a sale costs cash.
   */
  lemma SellBelowSlippageLosesCash(a: Account, c: Costs, price: real, date: Option<Date>)
    requires a.position > 0
    requires price < c.slippage && c.commission < 1.0
    ensures Sold(a, c, price, DefaultSize, date).cash < a.cash
  {
    MulNegative(SellPrice(c, price), 1.0 - c.commission, a.position as real);
  }

  /**
   * Nor does it check the commission rate: above 1, a sale priced above the
   * slippage costs cash.
   */
  lemma CommissionAboveOneLosesCash(a: Account, c: Costs, price: real, date: Option<Date>)
    requires a.position > 0
    requires price > c.slippage && c.commission > 1.0
    ensures Sold(a, c, price, DefaultSize, date).cash < a.cash
  {
    var n := a.position as real;
    MulNegative(1.0 - c.commission, SellPrice(c, price), n);
    assert UnitRevenue(c, price) * n == (1.0 - c.commission) * SellPrice(c, price) * n;
  }

  /** With no commission and no slippage, buying n and selling n at one price restores cash and position. */
  lemma FrictionlessRoundTrip(a: Account, price: real, n: int, d1: Option<Date>, d2: Option<Date>)
    requires a.position >= 0 && n >= 0 && price * n as real <= a.cash
    ensures var c := Costs(0.0, 0.0);
      var r := Sold(Bought(a, c, price, Units(n), d1), c, price, Units(n), d2);
      r.cash == a.cash && r.position == a.position &&
      r.history == a.history + [Trade(BuyAction, price, n, d1), Trade(SellAction, price, n, d2)]
  {
    var c := Costs(0.0, 0.0);
    var cost := price * n as real;
    assert UnitCost(c, price) == price && UnitRevenue(c, price) == price;
    assert BuyPrice(c, price) == price && SellPrice(c, price) == price;
    var b := Bought(a, c, price, Units(n), d1);
    assert b.cash == a.cash - cost && b.position == a.position + n;
    assert b.history == a.history + [Trade(BuyAction, price, n, d1)];
    var r := Sold(b, c, price, Units(n), d2);
    assert r.cash == b.cash + cost && r.position == a.position;
    assert r.history == b.history + [Trade(SellAction, price, n, d2)];
  }

  /**
   * With commission k and no slippage, buying n units and selling them again
   * at one price p restores the position and costs exactly the commission on
   * both legs, 2 * k * p * n.
   */
  lemma CommissionRoundTrip(a: Account, c: Costs, price: real, n: int, d1: Option<Date>, d2: Option<Date>)
    requires c.slippage == 0.0 && a.position >= 0 && n >= 0 && UnitCost(c, price) * n as real <= a.cash
    ensures var r := Sold(Bought(a, c, price, Units(n), d1), c, price, Units(n), d2);
      r.cash == a.cash - 2.0 * c.commission * price * n as real && r.position == a.position &&
      r.history == a.history + [Trade(BuyAction, price, n, d1), Trade(SellAction, price, n, d2)]
  {
    var u := UnitCost(c, price);
    var v := UnitRevenue(c, price);
    assert u == price * (1.0 + c.commission) && v == price * (1.0 - c.commission);
    var b := Bought(a, c, price, Units(n), d1);
    assert b.cash == a.cash - u * n as real && b.position == a.position + n;
    assert b.history == a.history + [Trade(BuyAction, price, n, d1)];
    var r := Sold(b, c, price, Units(n), d2);
    assert r.cash == b.cash + v * n as real && r.position == a.position;
    assert r.history == b.history + [Trade(SellAction, price, n, d2)];
    CommissionDrag(a.cash, price, c.commission, n as real);
  }

  /** Buying all the cash allows, then selling it all, at one frictionless price, gives the cash back. */
  lemma FrictionlessBuyAllSellAll(a: Account, price: real, d1: Option<Date>, d2: Option<Date>)
    requires a.position == 0 && price > 0.0 && a.cash >= 0.0
    ensures var c := Costs(0.0, 0.0);
      var r := Sold(Bought(a, c, price, DefaultSize, d1), c, price, DefaultSize, d2);
      r.cash == a.cash && r.position == 0
  {
    var c := Costs(0.0, 0.0);
    assert UnitCost(c, price) == price;
    DefaultBuyIsLargestAffordable(a, c, price, d1);
  }

  /**
   * Marked at the quoted price (the bar's Close, before slippage), a buy lowers
   * the portfolio value by exactly what the costs take: n units times the gap
   * between unit cost and quoted price.
   */
  lemma BuyValueDrag(a: Account, c: Costs, price: real, size: OrderSize, date: Option<Date>)
    requires CanSizeBuy(c, price, size)
    ensures var r := Bought(a, c, price, size, date);
      Value(r, price) == Value(a, price) - (UnitCost(c, price) - price) * (r.position - a.position) as real
  {
    var r := Bought(a, c, price, size, date);
    var n := r.position - a.position;
    if r != a {
      var u := UnitCost(c, price);
      assert r.cash == a.cash - u * n as real;
      assert r.position as real == a.position as real + n as real;
      ValueShift(a.cash, a.position as real, n as real, u, price);
    }
  }

  /** With no costs, a trade at the marking price leaves the portfolio value unchanged. */
  lemma FrictionlessTradeKeepsValue(a: Account, price: real, order: Order, date: Option<Date>)
    requires CanSizeBuy(Costs(0.0, 0.0), price, order.size) || order.SellOrder?
    ensures Value(Executed(a, Costs(0.0, 0.0), price, order, date), price) == Value(a, price)
  {
    var c := Costs(0.0, 0.0);
    var r := Executed(a, c, price, order, date);
    assert UnitCost(c, price) == price && UnitRevenue(c, price) == price;
    if order.BuyOrder? {
      BuyValueDrag(a, c, price, order.size, date);
    } else if r != a {
      var n := a.position - r.position;
      assert r.cash == a.cash + price * n as real;
      assert r.position as real == a.position as real - n as real;
      ValueShift(a.cash, a.position as real, n as real, price, price);
    }
  }

  /** The worked example: 1000 in cash, 1% commission, a default buy at 100 takes 9 units for 909. */
  lemma CommissionExample()
    ensures Bought(Account(1000.0, 0, []), Costs(0.01, 0.0), 100.0, DefaultSize, None)
         == Account(91.0, 9, [Trade(BuyAction, 100.0, 9, None)])
  {
    var c := Costs(0.01, 0.0);
    assert UnitCost(c, 100.0) == 101.0;
    assert 9.0 <= 1000.0 / 101.0 < 10.0;
    assert (1000.0 / 101.0).Floor == 9;
  }
}
