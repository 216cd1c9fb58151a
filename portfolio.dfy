/** The portfolio simulator of engine/portfolio.py: cash plus positions keyed by
    instrument id, marked to market against a price map, rebalanced to target
    weights with directional slippage and a linear transaction cost, and exported
    as a snapshot that ends in a synthetic cash row.

    Python's insertion-ordered `positions` dict is the pair (`order`, `positions`):
    the keys in insertion order and the map from key to position. */
module PortfolioSim {
  import opened Common

  /** Instrument id of the synthetic cash row (engine/constants.py). */
  const CASH_INSTRUMENT_ID: int := 0

  datatype Position = Position(quantity: real, buyPrice: real)

  /** The cost parameters of a portfolio; `exchangeCost` is stored but never used. */
  datatype Costs = Costs(slippage: real, transactionCost: real, exchangeCost: real, reinvestRatio: real)

  /** The abstract value of a portfolio object. */
  datatype Book = Book(cash: real, order: seq<int>, positions: map<int, Position>)

  ghost predicate WellFormed(b: Book) {
    Distinct(b.order) && (forall id :: id in b.positions <==> id in b.order)
  }

  function KeysOf(targets: seq<(int, real)>): (ks: seq<int>)
    ensures |ks| == |targets|
    ensures forall i :: 0 <= i < |targets| ==> ks[i] == targets[i].0
  {
    if targets == [] then [] else KeysOf(targets[..|targets| - 1]) + [targets[|targets| - 1].0]
  }

  // ------------------------------------------------------------------
  // Mark to market
  // ------------------------------------------------------------------

  /** Sum of quantity * price over the ids in `order` that have a price; an
      unpriced position contributes nothing. */
  function HeldValue(order: seq<int>, positions: map<int, Position>, prices: map<int, real>): real
    requires forall id :: id in order ==> id in positions
  {
    if order == [] then 0.0
    else
      var id := order[|order| - 1];
      HeldValue(order[..|order| - 1], positions, prices)
        + (if id in prices then positions[id].quantity * prices[id] else 0.0)
  }

  /** Sum of quantity * price over ids that all have a price (the `invested_value`
      sum of the rebalance, which indexes `prices` without a membership test). */
  function PricedValue(order: seq<int>, positions: map<int, Position>, prices: map<int, real>): real
    requires forall id :: id in order ==> id in positions && id in prices
  {
    if order == [] then 0.0
    else
      var id := order[|order| - 1];
      PricedValue(order[..|order| - 1], positions, prices) + positions[id].quantity * prices[id]
  }

  /** The value `total_value` computes: cash plus every priced position. */
  function MarkToMarket(b: Book, prices: map<int, real>): real
    requires WellFormed(b)
  {
    b.cash + HeldValue(b.order, b.positions, prices)
  }

  lemma {:induction false} HeldIsPricedWhenAllPriced(order: seq<int>, positions: map<int, Position>, prices: map<int, real>)
    requires forall id :: id in order ==> id in positions && id in prices
    ensures HeldValue(order, positions, prices) == PricedValue(order, positions, prices)
  {
    if order != [] {
      HeldIsPricedWhenAllPriced(order[..|order| - 1], positions, prices);
    }
  }

  /** An unpriced position is valued at zero: dropping it from the book does not
      change the marked value. */
  lemma {:induction false} UnpricedPositionIgnored(order: seq<int>, positions: map<int, Position>, prices: map<int, real>, k: nat)
    requires forall id :: id in order ==> id in positions
    requires k < |order| && order[k] !in prices
    ensures HeldValue(order, positions, prices) == HeldValue(order[..k] + order[k + 1..], positions, prices)
  {
    var n := |order|;
    if k == n - 1 {
      assert order[..k] + order[k + 1..] == order[..n - 1];
    } else {
      var init := order[..n - 1];
      UnpricedPositionIgnored(init, positions, prices, k);
      assert (order[..k] + order[k + 1..])[..n - 2] == init[..k] + init[k + 1..];
      assert (order[..k] + order[k + 1..])[n - 2] == order[n - 1];
    }
  }

  // ------------------------------------------------------------------
  // Rebalance
  // ------------------------------------------------------------------

  /** One filled target: the new position and the trading cost it incurs. */
  datatype Fill = Fill(id: int, pos: Position, cost: real)

  /** The signed trade that brings `id` from its current holding to its target. */
  function Delta(id: int, weight: real, b: Book, targetTotal: real, prices: map<int, real>): real
    requires id in prices
  {
    targetTotal * weight - (if id in b.positions then b.positions[id].quantity * prices[id] else 0.0)
  }

  /** The slipped execution price: above the market price for a buy, below it
      for a sell or a zero trade. */
  function ExecPrice(price: real, delta: real, slippage: real): real {
    if delta > 0.0 then price * (1.0 + slippage) else price * (1.0 - slippage)
  }

  /** One iteration of the rebalance loop over `target_weights`. */
  function FillFor(id: int, weight: real, b: Book, c: Costs, targetTotal: real, prices: map<int, real>): Result<Fill>
  {
    if id !in prices then Err(KeyError)
    else if prices[id] <= 0.0 then Err(ValueError)
    else
      var execPrice := ExecPrice(prices[id], Delta(id, weight, b, targetTotal, prices), c.slippage);
      if execPrice == 0.0 then Err(ZeroDivisionError)
      else Ok(Fill(id, Position(targetTotal * weight / execPrice, execPrice),
                   Abs(Delta(id, weight, b, targetTotal, prices)) * c.transactionCost))
  }

  /** The whole target loop: the fill of each target in order, or the exception
      of the first target that cannot be filled (see `FillsAt` and `FillsFailure`). */
  function Fills(targets: seq<(int, real)>, b: Book, c: Costs, targetTotal: real, prices: map<int, real>): (r: Result<seq<Fill>>)
    ensures r.Ok? ==> |r.value| == |targets|
    ensures r.Ok? ==> forall i :: 0 <= i < |targets| ==> r.value[i].id == targets[i].0 && r.value[i].id in prices
  {
    if targets == [] then Ok([])
    else
      var n := |targets|;
      var init := Fills(targets[..n - 1], b, c, targetTotal, prices);
      if init.Err? then Err(init.error)
      else
        var last := FillFor(targets[n - 1].0, targets[n - 1].1, b, c, targetTotal, prices);
        if last.Err? then Err(last.error) else Ok(init.value + [last.value])
  }

  /** Each fill is the one its target gives. */
  lemma {:induction false} FillsAt(targets: seq<(int, real)>, b: Book, c: Costs, targetTotal: real, prices: map<int, real>, i: nat)
    requires Fills(targets, b, c, targetTotal, prices).Ok? && i < |targets|
    ensures FillFor(targets[i].0, targets[i].1, b, c, targetTotal, prices) == Ok(Fills(targets, b, c, targetTotal, prices).value[i])
  {
    var n := |targets|;
    if i < n - 1 {
      assert targets[..n - 1][i] == targets[i];
      FillsAt(targets[..n - 1], b, c, targetTotal, prices, i);
    }
  }

  /** The loop fails exactly when some target fails, and then with the exception
      of the first failing target. */
  lemma {:induction false} FillsFailure(targets: seq<(int, real)>, b: Book, c: Costs, targetTotal: real, prices: map<int, real>)
    ensures Fills(targets, b, c, targetTotal, prices).Err?
      <==> exists i :: 0 <= i < |targets| && FillFor(targets[i].0, targets[i].1, b, c, targetTotal, prices).Err?
    ensures Fills(targets, b, c, targetTotal, prices).Err? ==>
      exists i :: 0 <= i < |targets| && FirstFailure(targets, b, c, targetTotal, prices, i)
        && FillFor(targets[i].0, targets[i].1, b, c, targetTotal, prices).error == Fills(targets, b, c, targetTotal, prices).error
  {
    if targets != [] {
      var n := |targets|;
      var init := targets[..n - 1];
      FillsFailure(init, b, c, targetTotal, prices);
      assert forall i :: 0 <= i < n - 1 ==> init[i] == targets[i];
      if Fills(init, b, c, targetTotal, prices).Ok? {
        forall i | 0 <= i < n - 1 ensures FillFor(targets[i].0, targets[i].1, b, c, targetTotal, prices).Ok? {
          FillsAt(init, b, c, targetTotal, prices, i);
        }
        if Fills(targets, b, c, targetTotal, prices).Err? {
          assert FirstFailure(targets, b, c, targetTotal, prices, n - 1);
        }
      } else {
        var i :| 0 <= i < n - 1 && FirstFailure(init, b, c, targetTotal, prices, i)
          && FillFor(init[i].0, init[i].1, b, c, targetTotal, prices).error == Fills(init, b, c, targetTotal, prices).error;
        assert FirstFailure(targets, b, c, targetTotal, prices, i);
      }
    }
  }

  /** Target `i` is the first one that cannot be filled. */
  ghost predicate FirstFailure(targets: seq<(int, real)>, b: Book, c: Costs, targetTotal: real, prices: map<int, real>, i: int)
    requires 0 <= i < |targets|
  {
    FillFor(targets[i].0, targets[i].1, b, c, targetTotal, prices).Err?
    && forall j :: 0 <= j < i ==> FillFor(targets[j].0, targets[j].1, b, c, targetTotal, prices).Ok?
  }

  function IdsOf(fills: seq<Fill>): (ids: seq<int>)
    ensures |ids| == |fills| && forall i :: 0 <= i < |fills| ==> ids[i] == fills[i].id
  {
    if fills == [] then [] else IdsOf(fills[..|fills| - 1]) + [fills[|fills| - 1].id]
  }

  /** The `new_positions` dict the loop fills in. */
  function BookOf(fills: seq<Fill>): (m: map<int, Position>)
    ensures forall id :: id in m <==> id in IdsOf(fills)
  {
    if fills == [] then map[]
    else
      var f := fills[|fills| - 1];
      BookOf(fills[..|fills| - 1])[f.id := f.pos]
  }

  function CostOf(fills: seq<Fill>): real {
    if fills == [] then 0.0 else CostOf(fills[..|fills| - 1]) + fills[|fills| - 1].cost
  }

  lemma {:induction false} BookOfAt(fills: seq<Fill>, k: nat)
    requires Distinct(IdsOf(fills)) && k < |fills|
    ensures fills[k].id in BookOf(fills) && BookOf(fills)[fills[k].id] == fills[k].pos
  {
    var n := |fills|;
    if k < n - 1 {
      var init := fills[..n - 1];
      assert IdsOf(init) == IdsOf(fills)[..n - 1];
      BookOfAt(init, k);
      assert fills[n - 1].id != fills[k].id by { assert IdsOf(fills)[k] != IdsOf(fills)[n - 1]; }
    }
  }

  /** `target_total`: the current value scaled by the reinvest ratio. */
  function TargetTotal(b: Book, c: Costs, prices: map<int, real>): real
    requires WellFormed(b)
  {
    MarkToMarket(b, prices) * c.reinvestRatio
  }

  lemma {:induction false} SameTargetTotal(b: Book, c1: Costs, c2: Costs, prices: map<int, real>)
    requires WellFormed(b) && c1.reinvestRatio == c2.reinvestRatio
    ensures TargetTotal(b, c1, prices) == TargetTotal(b, c2, prices)
  {
  }

  /** The fills of a rebalance: the target loop run against the current total
      scaled by the reinvest ratio. */
  function FillsOf(b: Book, c: Costs, targets: seq<(int, real)>, prices: map<int, real>): Result<seq<Fill>>
    requires WellFormed(b)
  {
    Fills(targets, b, c, TargetTotal(b, c, prices), prices)
  }

  /** The book after the fills: positions exactly the fills, cash what the old
      total leaves after the invested value and the trading cost. */
  function AfterFills(currentTotal: real, fills: seq<Fill>, prices: map<int, real>): Book
    requires forall i :: 0 <= i < |fills| ==> fills[i].id in prices
  {
    var ids := IdsOf(fills);
    var newPositions := BookOf(fills);
    assert forall id :: id in ids ==> id in newPositions && id in prices;
    Book(currentTotal - PricedValue(ids, newPositions, prices) - CostOf(fills), ids, newPositions)
  }

  /** What `rebalance` does to a book. */
  function Rebalanced(b: Book, c: Costs, targets: seq<(int, real)>, prices: map<int, real>): Result<Book>
    requires WellFormed(b)
  {
    var r := FillsOf(b, c, targets, prices);
    if r.Err? then Err(r.error) else Ok(AfterFills(MarkToMarket(b, prices), r.value, prices))
  }

  /** A successful rebalance leaves exactly the fills as positions. */
  lemma {:induction false} RebalancedShape(b: Book, c: Costs, targets: seq<(int, real)>, prices: map<int, real>)
    requires WellFormed(b)
    requires Rebalanced(b, c, targets, prices).Ok?
    ensures FillsOf(b, c, targets, prices).Ok?
    ensures var fills := FillsOf(b, c, targets, prices).value;
      var b' := Rebalanced(b, c, targets, prices).value;
      b'.order == IdsOf(fills) && b'.positions == BookOf(fills) && IdsOf(fills) == KeysOf(targets)
  {
  }

  /** After a successful rebalance the position keys are exactly the target keys,
      in target order; non-targets are gone. */
  lemma {:induction false} RebalanceKeys(b: Book, c: Costs, targets: seq<(int, real)>, prices: map<int, real>)
    requires WellFormed(b) && Distinct(KeysOf(targets))
    requires Rebalanced(b, c, targets, prices).Ok?
    ensures var b' := Rebalanced(b, c, targets, prices).value;
      WellFormed(b') && b'.order == KeysOf(targets)
      && forall id :: id in b'.positions <==> id in KeysOf(targets)
  {
    RebalancedShape(b, c, targets, prices);
  }

  /** Each target is held after the rebalance with exactly the position its
      fill computes (see `FillForOk` for what that position is). */
  lemma {:induction false} RebalancePosition(b: Book, c: Costs, targets: seq<(int, real)>, prices: map<int, real>, i: nat)
    requires WellFormed(b) && Distinct(KeysOf(targets)) && i < |targets|
    requires Rebalanced(b, c, targets, prices).Ok?
    ensures targets[i].0 in Rebalanced(b, c, targets, prices).value.positions
    ensures var p := Rebalanced(b, c, targets, prices).value.positions[targets[i].0];
      var fill := FillFor(targets[i].0, targets[i].1, b, c, TargetTotal(b, c, prices), prices);
      fill.Ok? && p == fill.value.pos
  {
    RebalancedShape(b, c, targets, prices);
    var tt := TargetTotal(b, c, prices);
    var fills := Fills(targets, b, c, tt, prices).value;
    BookOfAt(fills, i);
    FillsAt(targets, b, c, tt, prices, i);
  }

  /** What one successful fill is: the id has a positive market price; the
      buy price is the slipped execution price, price * (1 + slippage) for a
      buy and price * (1 - slippage) otherwise (a zero trade included); the
      quantity is worth the target value at that price; the cost is the
      transaction-cost rate times the traded value. */
  lemma {:induction false} FillForOk(id: int, weight: real, b: Book, c: Costs, targetTotal: real, prices: map<int, real>)
    requires FillFor(id, weight, b, c, targetTotal, prices).Ok?
    ensures id in prices && prices[id] > 0.0
    ensures var f := FillFor(id, weight, b, c, targetTotal, prices).value;
      var delta := Delta(id, weight, b, targetTotal, prices);
      f.id == id && f.pos.buyPrice == ExecPrice(prices[id], delta, c.slippage) && f.pos.buyPrice != 0.0
      && f.pos.quantity * f.pos.buyPrice == targetTotal * weight
      && f.cost == Abs(delta) * c.transactionCost
  {
    var f := FillFor(id, weight, b, c, targetTotal, prices).value;
    var v := targetTotal * weight;
    assert f.pos.quantity == v / f.pos.buyPrice;
  }

  /** The rebalance fails exactly when some target cannot be filled, and then with
      the exception of the first such target: a missing price is a KeyError, a
      non-positive price a ValueError, a zero execution price a ZeroDivisionError. */
  lemma {:induction false} RebalanceFailure(b: Book, c: Costs, targets: seq<(int, real)>, prices: map<int, real>)
    requires WellFormed(b)
    ensures var tt := TargetTotal(b, c, prices);
      (Rebalanced(b, c, targets, prices).Err?
       <==> exists i :: 0 <= i < |targets| && FillFor(targets[i].0, targets[i].1, b, c, tt, prices).Err?)
    ensures var tt := TargetTotal(b, c, prices);
      forall i :: 0 <= i < |targets| && FirstFailure(targets, b, c, tt, prices, i) ==>
        Rebalanced(b, c, targets, prices)
          == Err(if targets[i].0 !in prices then KeyError
                 else if prices[targets[i].0] <= 0.0 then ValueError
                 else ZeroDivisionError)
  {
    var tt := TargetTotal(b, c, prices);
    FillsFailure(targets, b, c, tt, prices);
    forall i | 0 <= i < |targets| && FirstFailure(targets, b, c, tt, prices, i)
      ensures Rebalanced(b, c, targets, prices) == Err(FillFor(targets[i].0, targets[i].1, b, c, tt, prices).error)
    {
      var k :| 0 <= k < |targets| && FirstFailure(targets, b, c, tt, prices, k)
        && FillFor(targets[k].0, targets[k].1, b, c, tt, prices).error == Fills(targets, b, c, tt, prices).error;
      assert k == i;
    }
  }

  lemma {:induction false} PricedValueAgrees(fills: seq<Fill>, k: nat, prices: map<int, real>)
    requires Distinct(IdsOf(fills)) && k <= |fills|
    requires forall i :: 0 <= i < |fills| ==> fills[i].id in prices
    ensures forall id :: id in IdsOf(fills)[..k] ==> id in BookOf(fills) && id in prices
    ensures HeldValue(IdsOf(fills)[..k], BookOf(fills), prices) == PricedValue(IdsOf(fills)[..k], BookOf(fills), prices)
  {
    var ids := IdsOf(fills);
    assert forall id :: id in ids[..k] ==> id in ids;
    HeldIsPricedWhenAllPriced(ids[..k], BookOf(fills), prices);
  }

  /** Value conservation: marking the rebalanced book at the same prices gives
      the old value less the trading cost; slippage moves value between cash and
      quantities but not out of the portfolio. */
  lemma {:induction false} RebalanceConservesValue(b: Book, c: Costs, targets: seq<(int, real)>, prices: map<int, real>)
    requires WellFormed(b) && Distinct(KeysOf(targets))
    requires Rebalanced(b, c, targets, prices).Ok?
    ensures var b' := Rebalanced(b, c, targets, prices).value;
      WellFormed(b')
      && MarkToMarket(b', prices) == MarkToMarket(b, prices) - CostOf(FillsOf(b, c, targets, prices).value)
  {
    RebalanceKeys(b, c, targets, prices);
    var fills := FillsOf(b, c, targets, prices).value;
    assert IdsOf(fills) == KeysOf(targets);
    PricedValueAgrees(fills, |fills|, prices);
    assert IdsOf(fills)[..|fills|] == IdsOf(fills);
  }

  /** The trading cost is transaction_cost times the traded value (the sum of
      |delta| over the targets), so it is non-negative for a non-negative cost
      rate and does not depend on slippage. */
  lemma {:induction false} CostIsRateTimesTraded(targets: seq<(int, real)>, b: Book, c: Costs, targetTotal: real, prices: map<int, real>)
    requires Fills(targets, b, c, targetTotal, prices).Ok?
    ensures var fills := Fills(targets, b, c, targetTotal, prices).value;
      CostOf(fills) == c.transactionCost * Sum(TradedAmounts(targets, b, targetTotal, prices))
      && (c.transactionCost >= 0.0 ==> CostOf(fills) >= 0.0)
  {
    CostIsScaledTrades(targets, b, c, targetTotal, prices);
    RateTimesAmounts(CostOf(Fills(targets, b, c, targetTotal, prices).value), c.transactionCost,
                     TradedAmounts(targets, b, targetTotal, prices));
  }

  /** A cost of `rate` per unit of non-negative amounts is `rate` times their
      sum, and non-negative for a non-negative rate. */
  lemma {:induction false} RateTimesAmounts(cost: real, rate: real, amounts: seq<real>)
    requires cost == Sum(Scaled(amounts, rate)) && forall i :: 0 <= i < |amounts| ==> amounts[i] >= 0.0
    ensures cost == rate * Sum(amounts) && (rate >= 0.0 ==> cost >= 0.0)
  {
    SumScaled(amounts, rate);
    if rate >= 0.0 {
      SumNonNegative(amounts);
      NonNegativeProduct(rate, Sum(amounts));
    }
  }

  /** |delta| of each target, or 0 for a target without a price. */
  function TradedAmounts(targets: seq<(int, real)>, b: Book, targetTotal: real, prices: map<int, real>): (r: seq<real>)
    ensures |r| == |targets| && forall i :: 0 <= i < |r| ==> r[i] >= 0.0
  {
    if targets == [] then []
    else
      var (id, w) := targets[|targets| - 1];
      TradedAmounts(targets[..|targets| - 1], b, targetTotal, prices)
        + [if id in prices then Abs(Delta(id, w, b, targetTotal, prices)) else 0.0]
  }

  lemma {:induction false} CostIsScaledTrades(targets: seq<(int, real)>, b: Book, c: Costs, targetTotal: real, prices: map<int, real>)
    requires Fills(targets, b, c, targetTotal, prices).Ok?
    ensures CostOf(Fills(targets, b, c, targetTotal, prices).value)
         == Sum(Scaled(TradedAmounts(targets, b, targetTotal, prices), c.transactionCost))
  {
    FillCosts(targets, b, c, targetTotal, prices);
    CostOfScaled(Fills(targets, b, c, targetTotal, prices).value, TradedAmounts(targets, b, targetTotal, prices), c.transactionCost);
  }

  /** Each fill costs its own amount times one rate. */
  predicate CostsAre(fills: seq<Fill>, amounts: seq<real>, rate: real) {
    |fills| == |amounts| && forall i :: 0 <= i < |fills| ==> fills[i].cost == amounts[i] * rate
  }

  lemma {:induction false} FillCosts(targets: seq<(int, real)>, b: Book, c: Costs, targetTotal: real, prices: map<int, real>)
    requires Fills(targets, b, c, targetTotal, prices).Ok?
    ensures CostsAre(Fills(targets, b, c, targetTotal, prices).value, TradedAmounts(targets, b, targetTotal, prices), c.transactionCost)
  {
    if targets != [] {
      var n := |targets|;
      FillsLast(targets, b, c, targetTotal, prices);
      FillCosts(targets[..n - 1], b, c, targetTotal, prices);
      FillForCost(targets[n - 1].0, targets[n - 1].1, b, c, targetTotal, prices);
      TradedAmountsLast(targets, b, targetTotal, prices);
      CostsAreSnoc(Fills(targets[..n - 1], b, c, targetTotal, prices).value,
                   FillFor(targets[n - 1].0, targets[n - 1].1, b, c, targetTotal, prices).value,
                   Fills(targets, b, c, targetTotal, prices).value,
                   TradedAmounts(targets[..n - 1], b, targetTotal, prices),
                   Abs(Delta(targets[n - 1].0, targets[n - 1].1, b, targetTotal, prices)),
                   TradedAmounts(targets, b, targetTotal, prices), c.transactionCost);
    }
  }

  /** `CostsAre` extends by one fill whose cost is its amount times the rate. */
  lemma {:induction false} CostsAreSnoc(fills: seq<Fill>, f: Fill, fillsAfter: seq<Fill>, amounts: seq<real>, d: real,
                                        amountsAfter: seq<real>, rate: real)
    requires CostsAre(fills, amounts, rate) && f.cost == d * rate
    requires fillsAfter == fills + [f] && amountsAfter == amounts + [d]
    ensures CostsAre(fillsAfter, amountsAfter, rate)
  {
  }

  /** The last step of a successful target loop. */
  lemma {:induction false} FillsLast(targets: seq<(int, real)>, b: Book, c: Costs, targetTotal: real, prices: map<int, real>)
    requires |targets| > 0 && Fills(targets, b, c, targetTotal, prices).Ok?
    ensures var n := |targets|;
      Fills(targets[..n - 1], b, c, targetTotal, prices).Ok?
      && FillFor(targets[n - 1].0, targets[n - 1].1, b, c, targetTotal, prices).Ok?
      && Fills(targets, b, c, targetTotal, prices).value
         == Fills(targets[..n - 1], b, c, targetTotal, prices).value + [FillFor(targets[n - 1].0, targets[n - 1].1, b, c, targetTotal, prices).value]
  {
  }

  /** The last traded amount of a target that has a price. */
  lemma {:induction false} TradedAmountsLast(targets: seq<(int, real)>, b: Book, targetTotal: real, prices: map<int, real>)
    requires |targets| > 0 && targets[|targets| - 1].0 in prices
    ensures var n := |targets|;
      TradedAmounts(targets, b, targetTotal, prices)
      == TradedAmounts(targets[..n - 1], b, targetTotal, prices) + [Abs(Delta(targets[n - 1].0, targets[n - 1].1, b, targetTotal, prices))]
  {
  }

  /** Fills whose costs are the amounts times one rate cost the scaled sum. */
  lemma {:induction false} CostOfScaled(fills: seq<Fill>, amounts: seq<real>, rate: real)
    requires CostsAre(fills, amounts, rate)
    ensures CostOf(fills) == Sum(Scaled(amounts, rate))
  {
    if fills != [] {
      var n := |fills|;
      assert CostsAre(fills[..n - 1], amounts[..n - 1], rate);
      CostOfScaled(fills[..n - 1], amounts[..n - 1], rate);
      assert amounts == amounts[..n - 1] + [amounts[n - 1]];
      SumScaledSnoc(amounts[..n - 1], amounts[n - 1], amounts, rate);
    }
  }

  /** A filled target costs its traded amount times the cost rate. */
  lemma {:induction false} FillForCost(id: int, weight: real, b: Book, c: Costs, targetTotal: real, prices: map<int, real>)
    requires FillFor(id, weight, b, c, targetTotal, prices).Ok?
    ensures id in prices
    ensures FillFor(id, weight, b, c, targetTotal, prices).value.cost == Abs(Delta(id, weight, b, targetTotal, prices)) * c.transactionCost
  {
  }

  /** Two rebalances that differ only in slippage leave the same total value. */
  lemma {:induction false} SlippageDoesNotChangeValue(b: Book, c1: Costs, c2: Costs, targets: seq<(int, real)>, prices: map<int, real>)
    requires WellFormed(b) && Distinct(KeysOf(targets))
    requires c1.transactionCost == c2.transactionCost && c1.reinvestRatio == c2.reinvestRatio
    requires Rebalanced(b, c1, targets, prices).Ok? && Rebalanced(b, c2, targets, prices).Ok?
    ensures WellFormed(Rebalanced(b, c1, targets, prices).value) && WellFormed(Rebalanced(b, c2, targets, prices).value)
    ensures MarkToMarket(Rebalanced(b, c1, targets, prices).value, prices)
         == MarkToMarket(Rebalanced(b, c2, targets, prices).value, prices)
  {
    RebalanceConservesValue(b, c1, targets, prices);
    RebalanceConservesValue(b, c2, targets, prices);
    SameTargetTotal(b, c1, c2, prices);
    CostIsScaledTrades(targets, b, c1, TargetTotal(b, c1, prices), prices);
    CostIsScaledTrades(targets, b, c2, TargetTotal(b, c1, prices), prices);
  }

  /** The target loop never reads the exchange cost. */
  lemma {:induction false} FillsIgnoreExchangeCost(targets: seq<(int, real)>, b: Book, c: Costs, e: real, targetTotal: real,
                                                   prices: map<int, real>)
    ensures Fills(targets, b, c, targetTotal, prices) == Fills(targets, b, c.(exchangeCost := e), targetTotal, prices)
  {
    if targets != [] {
      var n := |targets|;
      FillsIgnoreExchangeCost(targets[..n - 1], b, c, e, targetTotal, prices);
      var f := FillFor(targets[n - 1].0, targets[n - 1].1, b, c, targetTotal, prices);
      var f' := FillFor(targets[n - 1].0, targets[n - 1].1, b, c.(exchangeCost := e), targetTotal, prices);
      if f.Ok? {
        assert f.value.pos == f'.value.pos;
        assert f.value == f'.value;
      }
    }
  }

  /** Two portfolios that differ only in their exchange cost rebalance to the
      same book, or fail with the same exception. */
  lemma {:induction false} ExchangeCostUnused(b: Book, c: Costs, e: real, targets: seq<(int, real)>, prices: map<int, real>)
    requires WellFormed(b)
    ensures Rebalanced(b, c, targets, prices) == Rebalanced(b, c.(exchangeCost := e), targets, prices)
  {
    SameTargetTotal(b, c, c.(exchangeCost := e), prices);
    FillsIgnoreExchangeCost(targets, b, c, e, TargetTotal(b, c, prices), prices);
  }

  // ------------------------------------------------------------------
  // Snapshot
  // ------------------------------------------------------------------

  datatype SnapshotRow = SnapshotRow(date: string, instrumentId: int, quantity: real,
                                     buyPrice: real, currentPrice: real, marketValue: real)

  /** The row of one held position: its quantity and buy price, the current
      price and the market value quantity * price. */
  function RowOf(date: string, id: int, p: Position, price: real): SnapshotRow {
    SnapshotRow(date, id, p.quantity, p.buyPrice, price, p.quantity * price)
  }

  function PositionRows(order: seq<int>, positions: map<int, Position>, date: string, prices: map<int, real>): Result<seq<SnapshotRow>>
    requires forall id :: id in order ==> id in positions
  {
    if order == [] then Ok([])
    else
      var init := PositionRows(order[..|order| - 1], positions, date, prices);
      var id := order[|order| - 1];
      if init.Err? then init
      else if id !in prices then Err(KeyError)
      else
        Ok(init.value + [RowOf(date, id, positions[id], prices[id])])
  }

  /** The rows `snapshot` builds: one per position, then the cash row. */
  function SnapshotOf(b: Book, date: string, prices: map<int, real>): Result<seq<SnapshotRow>>
    requires WellFormed(b)
  {
    var rows := PositionRows(b.order, b.positions, date, prices);
    if rows.Err? then rows
    else Ok(rows.value + [SnapshotRow(date, CASH_INSTRUMENT_ID, b.cash, 1.0, 1.0, b.cash)])
  }

  lemma {:induction false} PositionRowsShape(order: seq<int>, positions: map<int, Position>, date: string, prices: map<int, real>)
    requires forall id :: id in order ==> id in positions
    ensures PositionRows(order, positions, date, prices).Ok? <==> forall id :: id in order ==> id in prices
    ensures PositionRows(order, positions, date, prices).Err? ==> PositionRows(order, positions, date, prices).error == KeyError
    ensures PositionRows(order, positions, date, prices).Ok? ==>
      var rows := PositionRows(order, positions, date, prices).value;
      |rows| == |order| && forall i :: 0 <= i < |order| ==>
        var id := order[i];
        rows[i] == SnapshotRow(date, id, positions[id].quantity, positions[id].buyPrice, prices[id], positions[id].quantity * prices[id])
  {
    if order != [] {
      var n := |order|;
      PositionRowsShape(order[..n - 1], positions, date, prices);
      assert forall id :: id in order <==> id in order[..n - 1] || id == order[n - 1];
    }
  }

  /** The snapshot succeeds exactly when every held position has a price (else
      KeyError); it has one row per position in dict order with market value
      quantity * price, followed by exactly one cash row with id 0, quantity and
      market value equal to cash and both prices 1. */
  lemma {:induction false} SnapshotShape(b: Book, date: string, prices: map<int, real>)
    requires WellFormed(b)
    ensures SnapshotOf(b, date, prices).Ok? <==> forall id :: id in b.positions ==> id in prices
    ensures SnapshotOf(b, date, prices).Err? ==> SnapshotOf(b, date, prices).error == KeyError
    ensures SnapshotOf(b, date, prices).Ok? ==>
      var rows := SnapshotOf(b, date, prices).value;
      |rows| == |b.order| + 1
      && (forall i :: 0 <= i < |b.order| ==>
            var id := b.order[i];
            rows[i] == SnapshotRow(date, id, b.positions[id].quantity, b.positions[id].buyPrice, prices[id],
                                   b.positions[id].quantity * prices[id]))
      && rows[|b.order|] == SnapshotRow(date, CASH_INSTRUMENT_ID, b.cash, 1.0, 1.0, b.cash)
  {
    PositionRowsShape(b.order, b.positions, date, prices);
  }

  /** The backtest snapshots right after rebalancing with the same prices; that
      snapshot cannot fail, because every new position was priced. */
  lemma {:induction false} SnapshotAfterRebalance(b: Book, c: Costs, targets: seq<(int, real)>, prices: map<int, real>, date: string)
    requires WellFormed(b) && Distinct(KeysOf(targets))
    requires Rebalanced(b, c, targets, prices).Ok?
    ensures WellFormed(Rebalanced(b, c, targets, prices).value)
    ensures SnapshotOf(Rebalanced(b, c, targets, prices).value, date, prices).Ok?
  {
    RebalanceKeys(b, c, targets, prices);
    var b' := Rebalanced(b, c, targets, prices).value;
    forall id | id in b'.positions ensures id in prices {
      var i :| 0 <= i < |targets| && targets[i].0 == id;
      RebalancePosition(b, c, targets, prices, i);
    }
    SnapshotShape(b', date, prices);
  }

  // ------------------------------------------------------------------
  // The examples of the portfolio tests
  // ------------------------------------------------------------------

  /** Buying weight 1 at 100 with 1% slippage records a buy price of 101. */
  lemma {:induction false} BuyAtSlippedPrice()
    ensures var r := Rebalanced(Book(100000.0, [], map[]), Costs(0.01, 0.0, 0.0, 1.0), [(1, 1.0)], map[1 := 100.0]);
      r.Ok? && 1 in r.value.positions && r.value.positions[1].buyPrice == 101.0
  {
    var b := Book(100000.0, [], map[]);
    var c := Costs(0.01, 0.0, 0.0, 1.0);
    var prices := map[1 := 100.0];
    assert MarkToMarket(b, prices) == 100000.0;
    RebalancePosition(b, c, [(1, 1.0)], prices, 0);
  }

  /** Selling everything (weight 0) keeps the key with quantity 0. */
  lemma {:induction false} SellToZero()
    ensures var b := Book(0.0, [1], map[1 := Position(1000.0, 100.0)]);
      var r := Rebalanced(b, Costs(0.01, 0.0, 0.0, 1.0), [(1, 0.0)], map[1 := 100.0]);
      r.Ok? && r.value.order == [1] && r.value.positions[1].quantity == 0.0 && r.value.cash == 100000.0
  {
    SellFills();
    SellBook();
  }

  /** The one fill of `SellToZero`: 1000 shares at 100 sold at the slipped
      price 99 to quantity 0, at no cost. */
  lemma {:induction false} SellFills()
    ensures var b := Book(0.0, [1], map[1 := Position(1000.0, 100.0)]);
      WellFormed(b) && MarkToMarket(b, map[1 := 100.0]) == 100000.0
      && FillsOf(b, Costs(0.01, 0.0, 0.0, 1.0), [(1, 0.0)], map[1 := 100.0]) == Ok([Fill(1, Position(0.0, 99.0), 0.0)])
  {
    var b := Book(0.0, [1], map[1 := Position(1000.0, 100.0)]);
    var c := Costs(0.01, 0.0, 0.0, 1.0);
    var prices := map[1 := 100.0];
    assert [1][..0] == [];
    assert MarkToMarket(b, prices) == 100000.0;
    assert TargetTotal(b, c, prices) == 100000.0;
    assert Delta(1, 0.0, b, 100000.0, prices) == -100000.0;
    assert FillFor(1, 0.0, b, c, 100000.0, prices) == Ok(Fill(1, Position(0.0, 99.0), 0.0));
    assert [(1, 0.0)][..0] == [];
    assert Fills([(1, 0.0)][..0], b, c, 100000.0, prices) == Ok([]);
    assert [] + [Fill(1, Position(0.0, 99.0), 0.0)] == [Fill(1, Position(0.0, 99.0), 0.0)];
    assert Fills([(1, 0.0)], b, c, 100000.0, prices) == Ok([Fill(1, Position(0.0, 99.0), 0.0)]);
  }

  /** The book `SellToZero`'s fill leaves: the key kept at quantity 0 and the
      whole old value in cash. */
  lemma {:induction false} SellBook()
    ensures AfterFills(100000.0, [Fill(1, Position(0.0, 99.0), 0.0)], map[1 := 100.0])
         == Book(100000.0, [1], map[1 := Position(0.0, 99.0)])
  {
    var fills := [Fill(1, Position(0.0, 99.0), 0.0)];
    assert fills[..0] == [] && [1][..0] == [];
    assert IdsOf(fills) == [1];
    assert BookOf(fills) == map[1 := Position(0.0, 99.0)];
    assert PricedValue([1], map[1 := Position(0.0, 99.0)], map[1 := 100.0]) == 0.0;
    assert CostOf(fills) == 0.0;
  }

  /** With a positive transaction cost a fully invested rebalance of 100000 ends
      below 100000; with no slippage and no cost, weight 1 at price 100 buys 1000
      shares and leaves no cash. */
  lemma {:induction false} CostReducesValue(tc: real)
    requires tc > 0.0
    ensures var b := Book(100000.0, [], map[]);
      var r := Rebalanced(b, Costs(0.0, tc, 0.0, 1.0), [(1, 1.0)], map[1 := 100.0]);
      r.Ok? && WellFormed(r.value) && MarkToMarket(r.value, map[1 := 100.0]) < 100000.0
  {
    var b := Book(100000.0, [], map[]);
    var c := Costs(0.0, tc, 0.0, 1.0);
    var prices := map[1 := 100.0];
    var targets := [(1, 1.0)];
    assert MarkToMarket(b, prices) == 100000.0;
    assert TargetTotal(b, c, prices) == 100000.0;
    assert targets[..0] == [];
    assert ExecPrice(100.0, Delta(1, 1.0, b, TargetTotal(b, c, prices), prices), 0.0) == 100.0;
    assert FillFor(1, 1.0, b, c, TargetTotal(b, c, prices), prices).Ok?;
    assert Fills(targets[..0], b, c, TargetTotal(b, c, prices), prices) == Ok([]);
    assert FillsOf(b, c, targets, prices).Ok?;
    assert Distinct(KeysOf(targets));
    RebalanceConservesValue(b, c, targets, prices);
    CostIsRateTimesTraded(targets, b, c, TargetTotal(b, c, prices), prices);
    assert Sum(TradedAmounts(targets, b, TargetTotal(b, c, prices), prices)) == 100000.0;
    PositiveProduct(c.transactionCost, Sum(TradedAmounts(targets, b, TargetTotal(b, c, prices), prices)));
  }

  lemma {:induction false} ExactWithoutFrictions()
    ensures var b := Book(100000.0, [], map[]);
      var r := Rebalanced(b, Costs(0.0, 0.0, 0.0, 1.0), [(1, 1.0)], map[1 := 100.0]);
      r.Ok? && r.value.positions == map[1 := Position(1000.0, 100.0)] && r.value.cash == 0.0
  {
    var b := Book(100000.0, [], map[]);
    var c := Costs(0.0, 0.0, 0.0, 1.0);
    var prices := map[1 := 100.0];
    assert MarkToMarket(b, prices) == 100000.0;
    var fills := FillsOf(b, c, [(1, 1.0)], prices).value;
    assert fills == [Fill(1, Position(1000.0, 100.0), 0.0)];
    assert [Fill(1, Position(1000.0, 100.0), 0.0)][..0] == [];
    assert IdsOf(fills) == [1];
    assert [1][..0] == [];
  }

  /** The snapshot of a fresh portfolio with cash 5000 is the single cash row. */
  lemma {:induction false} SnapshotOfCashOnly()
    ensures SnapshotOf(Book(5000.0, [], map[]), "2024-01-31", map[])
         == Ok([SnapshotRow("2024-01-31", CASH_INSTRUMENT_ID, 5000.0, 1.0, 1.0, 5000.0)])
  {
    var row := SnapshotRow("2024-01-31", CASH_INSTRUMENT_ID, 5000.0, 1.0, 1.0, 5000.0);
    assert [] + [row] == [row];
  }

  // ------------------------------------------------------------------
  // The stateful object
  // ------------------------------------------------------------------

  class Portfolio {
    var cash: real
    const slippage: real
    const transactionCost: real
    const exchangeCost: real
    const reinvestRatio: real
    var order: seq<int>
    var positions: map<int, Position>

    ghost predicate Valid()
      reads this
    {
      WellFormed(Book(cash, order, positions))
    }

    function State(): Book
      reads this
    {
      Book(cash, order, positions)
    }

    function Params(): Costs {
      Costs(slippage, transactionCost, exchangeCost, reinvestRatio)
    }

    constructor (cash: real, slippage: real, transactionCost: real, exchangeCost: real, reinvestRatio: real)
      ensures Valid()
      ensures State() == Book(cash, [], map[])
      ensures Params() == Costs(slippage, transactionCost, exchangeCost, reinvestRatio)
    {
      this.cash := cash;
      this.slippage := slippage;
      this.transactionCost := transactionCost;
      this.exchangeCost := exchangeCost;
      this.reinvestRatio := reinvestRatio;
      this.order := [];
      this.positions := map[];
    }

    /** `total_value`: cash plus quantity * price over the priced positions. */
    method TotalValue(prices: map<int, real>) returns (total: real)
      requires Valid()
      ensures total == MarkToMarket(State(), prices)
    {
      total := cash;
      var i := 0;
      while i < |order|
        invariant 0 <= i <= |order|
        invariant total == cash + HeldValue(order[..i], positions, prices)
      {
        var id := order[i];
        assert order[..i + 1][..i] == order[..i];
        if id in prices {
          total := total + positions[id].quantity * prices[id];
        }
        i := i + 1;
      }
      assert order[..|order|] == order;
    }

    /** `rebalance`: on success the book becomes `Rebalanced` of the old book;
        on an exception nothing changes. */
    method Rebalance(targets: seq<(int, real)>, prices: map<int, real>) returns (outcome: Outcome)
      requires Valid() && Distinct(KeysOf(targets))
      modifies this
      ensures Valid()
      ensures var r := Rebalanced(old(State()), Params(), targets, prices);
        (r.Ok? ==> outcome == Done && State() == r.value)
        && (r.Err? ==> outcome == Raised(r.error) && State() == old(State()))
    {
      ghost var b := State();
      ghost var c := Params();
      var currentTotal := TotalValue(prices);
      var targetTotal := currentTotal * reinvestRatio;
      TargetTotalIs(b, c, prices, currentTotal, reinvestRatio, targetTotal);
      var newOrder, newPositions, totalCost;
      outcome, newOrder, newPositions, totalCost := FillTargets(targets, prices, targetTotal);
      if outcome.Raised? {
        return;
      }
      ghost var fills := Fills(targets, b, c, targetTotal, prices).value;
      FillsBook(b, c, targets, prices, targetTotal, fills);
      var invested := InvestedValue(newOrder, newPositions, prices);
      var newCash := currentTotal - invested - totalCost;
      RebalancedIs(b, c, targets, prices, targetTotal, fills, currentTotal, invested, totalCost, newCash, newOrder, newPositions);
      positions := newPositions;
      order := newOrder;
      cash := newCash;
    }

    /** The loop over `target_weights`: the new positions in insertion order and
        the summed trading cost, or the exception of the first target that
        cannot be filled. */
    method FillTargets(targets: seq<(int, real)>, prices: map<int, real>, targetTotal: real)
      returns (outcome: Outcome, newOrder: seq<int>, newPositions: map<int, Position>, totalCost: real)
      requires Valid()
      ensures var r := Fills(targets, State(), Params(), targetTotal, prices);
        (r.Err? ==> outcome == Raised(r.error))
        && (r.Ok? ==> outcome == Done && newOrder == IdsOf(r.value)
                      && newPositions == BookOf(r.value) && totalCost == CostOf(r.value))
    {
      ghost var b := State();
      ghost var c := Params();
      newOrder, newPositions, totalCost := [], map[], 0.0;
      ghost var fills: seq<Fill> := [];
      var i := 0;
      while i < |targets|
        invariant 0 <= i <= |targets|
        invariant Fills(targets[..i], b, c, targetTotal, prices) == Ok(fills)
        invariant newOrder == IdsOf(fills) && newPositions == BookOf(fills) && totalCost == CostOf(fills)
      {
        FillsStep(targets, i, b, c, targetTotal, prices);
        var (id, weight) := targets[i];
        var fill := FillTarget(id, weight, prices, targetTotal);
        if fill.Err? {
          FillsPrefixErr(targets, i + 1, b, c, targetTotal, prices);
          return Raised(fill.error), [], map[], 0.0;
        }
        ExtendFills(fills, fill.value);
        totalCost := totalCost + fill.value.cost;
        newPositions := newPositions[id := fill.value.pos];
        newOrder := newOrder + [id];
        fills := fills + [fill.value];
        i := i + 1;
      }
      assert targets[..|targets|] == targets;
      outcome := Done;
    }

    /** One iteration of the loop over `target_weights`: the new position of
        `id` at its slipped execution price and the cost of the trade. */
    method FillTarget(id: int, weight: real, prices: map<int, real>, targetTotal: real) returns (r: Result<Fill>)
      requires Valid()
      ensures r == FillFor(id, weight, State(), Params(), targetTotal, prices)
    {
      if id !in prices {
        return Err(KeyError);
      }
      var price := prices[id];
      if price <= 0.0 {
        return Err(ValueError);
      }
      var targetValue := targetTotal * weight;
      var currentValue := if id in positions then positions[id].quantity * price else 0.0;
      var delta := targetValue - currentValue;
      var execPrice := if delta > 0.0 then price * (1.0 + slippage) else price * (1.0 - slippage);
      var tradeCost := Abs(delta) * transactionCost;
      FillComputed(id, weight, State(), Params(), targetTotal, prices, positions, price, targetValue, currentValue, delta,
                   slippage, execPrice, transactionCost, tradeCost);
      if execPrice == 0.0 {
        return Err(ZeroDivisionError);
      }
      var quantity := targetValue / execPrice;
      r := Ok(Fill(id, Position(quantity, execPrice), tradeCost));
    }

    /** `snapshot`: the rows of `SnapshotOf`, without changing the portfolio. */
    method Snapshot(date: string, prices: map<int, real>) returns (r: Result<seq<SnapshotRow>>)
      requires Valid()
      ensures r == SnapshotOf(State(), date, prices)
    {
      var rows: seq<SnapshotRow> := [];
      var i := 0;
      while i < |order|
        invariant 0 <= i <= |order|
        invariant forall id :: id in order[..i] ==> id in positions
        invariant PositionRows(order[..i], positions, date, prices) == Ok(rows)
      {
        PositionRowsStep(order, i, positions, date, prices);
        var id := order[i];
        if id !in prices {
          PositionRowsPrefixErr(order, i + 1, positions, date, prices);
          return Err(KeyError);
        }
        rows := rows + [RowOf(date, id, positions[id], prices[id])];
        i := i + 1;
      }
      assert order[..|order|] == order;
      r := Ok(rows + [SnapshotRow(date, CASH_INSTRUMENT_ID, cash, 1.0, 1.0, cash)]);
    }
  }

  /** The `invested_value` sum over the new positions. */
  method InvestedValue(order: seq<int>, positions: map<int, Position>, prices: map<int, real>) returns (invested: real)
    requires forall id :: id in order ==> id in positions && id in prices
    ensures invested == PricedValue(order, positions, prices)
  {
    invested := 0.0;
    var j := 0;
    while j < |order|
      invariant 0 <= j <= |order|
      invariant invested == PricedValue(order[..j], positions, prices)
    {
      assert order[..j + 1][..j] == order[..j];
      var id := order[j];
      invested := invested + positions[id].quantity * prices[id];
      j := j + 1;
    }
    assert order[..|order|] == order;
  }

  /** The fills of a successful loop give a well-formed book of priced ids. */
  lemma {:induction false} FillsBook(b: Book, c: Costs, targets: seq<(int, real)>, prices: map<int, real>,
                                     targetTotal: real, fills: seq<Fill>)
    requires WellFormed(b) && Distinct(KeysOf(targets))
    requires Fills(targets, b, c, targetTotal, prices) == Ok(fills)
    ensures forall id :: id in IdsOf(fills) ==> id in BookOf(fills) && id in prices
    ensures WellFormed(Book(0.0, IdsOf(fills), BookOf(fills)))
  {
    FillsWellFormed(targets, b, c, targetTotal, prices);
  }

  /** `Rebalanced` in terms of the target loop's fills, as the method assembles it. */
  lemma {:induction false} RebalancedByFills(b: Book, c: Costs, targets: seq<(int, real)>, prices: map<int, real>,
                                             targetTotal: real, fills: seq<Fill>)
    requires WellFormed(b) && Distinct(KeysOf(targets)) && targetTotal == TargetTotal(b, c, prices)
    requires Fills(targets, b, c, targetTotal, prices) == Ok(fills)
    ensures forall id :: id in IdsOf(fills) ==> id in BookOf(fills) && id in prices
    ensures Rebalanced(b, c, targets, prices)
      == Ok(Book(MarkToMarket(b, prices) - PricedValue(IdsOf(fills), BookOf(fills), prices) - CostOf(fills),
                 IdsOf(fills), BookOf(fills)))
  {
    FillsBook(b, c, targets, prices, targetTotal, fills);
    assert FillsOf(b, c, targets, prices) == Ok(fills);
    assert Rebalanced(b, c, targets, prices) == Ok(AfterFills(MarkToMarket(b, prices), fills, prices));
    BookEq(AfterFills(MarkToMarket(b, prices), fills, prices),
           MarkToMarket(b, prices) - PricedValue(IdsOf(fills), BookOf(fills), prices) - CostOf(fills),
           IdsOf(fills), BookOf(fills));
  }

  lemma {:induction false} BookEq(x: Book, cash: real, order: seq<int>, positions: map<int, Position>)
    requires x.cash == cash && x.order == order && x.positions == positions
    ensures x == Book(cash, order, positions)
  {
  }

  /** `target_total` as the method computes it is `TargetTotal`. */
  /** `Rebalance`'s new fields are the book `Rebalanced` gives. */
  lemma {:induction false} RebalancedIs(b: Book, c: Costs, targets: seq<(int, real)>, prices: map<int, real>, targetTotal: real,
                                        fills: seq<Fill>, currentTotal: real, invested: real, totalCost: real, newCash: real,
                                        newOrder: seq<int>, newPositions: map<int, Position>)
    requires WellFormed(b) && Distinct(KeysOf(targets)) && targetTotal == TargetTotal(b, c, prices)
    requires Fills(targets, b, c, targetTotal, prices) == Ok(fills) && currentTotal == MarkToMarket(b, prices)
    requires newOrder == IdsOf(fills) && newPositions == BookOf(fills) && totalCost == CostOf(fills)
    requires forall id :: id in newOrder ==> id in newPositions && id in prices
    requires invested == PricedValue(newOrder, newPositions, prices) && newCash == currentTotal - invested - totalCost
    ensures WellFormed(Book(newCash, newOrder, newPositions))
    ensures Rebalanced(b, c, targets, prices) == Ok(Book(newCash, newOrder, newPositions))
  {
    FillsBook(b, c, targets, prices, targetTotal, fills);
    RebalancedByFills(b, c, targets, prices, targetTotal, fills);
    BookEq(Book(MarkToMarket(b, prices) - PricedValue(IdsOf(fills), BookOf(fills), prices) - CostOf(fills),
                IdsOf(fills), BookOf(fills)), newCash, newOrder, newPositions);
  }

  lemma {:induction false} TargetTotalIs(b: Book, c: Costs, prices: map<int, real>, currentTotal: real, ratio: real, targetTotal: real)
    requires WellFormed(b) && currentTotal == MarkToMarket(b, prices)
    requires ratio == c.reinvestRatio && targetTotal == currentTotal * ratio
    ensures targetTotal == TargetTotal(b, c, prices)
  {
  }

  /** Appending a fill appends its id, sets its position and adds its cost. */
  lemma {:induction false} ExtendFills(fills: seq<Fill>, f: Fill)
    ensures IdsOf(fills + [f]) == IdsOf(fills) + [f.id]
    ensures BookOf(fills + [f]) == BookOf(fills)[f.id := f.pos]
    ensures CostOf(fills + [f]) == CostOf(fills) + f.cost
  {
    assert (fills + [f])[..|fills|] == fills;
  }

  /** The values one iteration of the target loop computes are those of `FillFor`. */
  lemma {:induction false} FillComputed(id: int, weight: real, b: Book, c: Costs, targetTotal: real, prices: map<int, real>,
                                        positions: map<int, Position>, price: real, targetValue: real, currentValue: real,
                                        delta: real, slippage: real, execPrice: real, rate: real, tradeCost: real)
    requires id in prices && price == prices[id] && price > 0.0 && positions == b.positions
    requires slippage == c.slippage && rate == c.transactionCost
    requires targetValue == targetTotal * weight
    requires currentValue == if id in positions then positions[id].quantity * price else 0.0
    requires delta == targetValue - currentValue
    requires execPrice == if delta > 0.0 then price * (1.0 + slippage) else price * (1.0 - slippage)
    requires tradeCost == Abs(delta) * rate
    ensures execPrice == 0.0 ==> FillFor(id, weight, b, c, targetTotal, prices) == Err(ZeroDivisionError)
    ensures execPrice != 0.0 ==>
      FillFor(id, weight, b, c, targetTotal, prices) == Ok(Fill(id, Position(targetValue / execPrice, execPrice), tradeCost))
  {
    var d := Delta(id, weight, b, targetTotal, prices);
    assert delta == d;
    var e := ExecPrice(prices[id], d, c.slippage);
    assert execPrice == e;
    assert tradeCost == Abs(d) * c.transactionCost;
    if execPrice != 0.0 {
      assert targetValue / execPrice == targetTotal * weight / e;
      var f := FillFor(id, weight, b, c, targetTotal, prices);
      assert f.Ok? && f.value.pos.quantity == targetTotal * weight / e;
      assert f.value.cost == Abs(d) * c.transactionCost;
    }
  }

  /** One more iteration of the target loop. */
  lemma {:induction false} FillsStep(targets: seq<(int, real)>, k: nat, b: Book, c: Costs, targetTotal: real, prices: map<int, real>)
    requires k < |targets|
    ensures targets[..k + 1][..k] == targets[..k] && targets[..k + 1][k] == targets[k]
    ensures Fills(targets[..k], b, c, targetTotal, prices).Ok? ==>
      Fills(targets[..k + 1], b, c, targetTotal, prices)
        == if FillFor(targets[k].0, targets[k].1, b, c, targetTotal, prices).Err?
           then Err(FillFor(targets[k].0, targets[k].1, b, c, targetTotal, prices).error)
           else Ok(Fills(targets[..k], b, c, targetTotal, prices).value + [FillFor(targets[k].0, targets[k].1, b, c, targetTotal, prices).value])
  {
    assert targets[..k + 1][..k] == targets[..k];
  }

  lemma {:induction false} FillsPrefixErr(targets: seq<(int, real)>, k: nat, b: Book, c: Costs, targetTotal: real, prices: map<int, real>)
    requires k <= |targets| && Fills(targets[..k], b, c, targetTotal, prices).Err?
    ensures Fills(targets, b, c, targetTotal, prices) == Fills(targets[..k], b, c, targetTotal, prices)
    decreases |targets| - k
  {
    if k < |targets| {
      var n := |targets|;
      assert targets[..k + 1][..k] == targets[..k];
      FillsPrefixErr(targets, k + 1, b, c, targetTotal, prices);
    } else {
      assert targets[..k] == targets;
    }
  }

  /** One more iteration of the snapshot loop. */
  lemma {:induction false} PositionRowsStep(order: seq<int>, k: nat, positions: map<int, Position>, date: string, prices: map<int, real>)
    requires forall id :: id in order ==> id in positions
    requires k < |order|
    ensures order[..k + 1][..k] == order[..k] && order[k] in positions
    ensures forall id :: id in order[..k + 1] ==> id in positions
    ensures PositionRows(order[..k], positions, date, prices).Ok? ==>
      PositionRows(order[..k + 1], positions, date, prices)
        == if order[k] !in prices then Err(KeyError)
           else Ok(PositionRows(order[..k], positions, date, prices).value
                   + [RowOf(date, order[k], positions[order[k]], prices[order[k]])])
  {
    assert order[..k + 1][..k] == order[..k];
    assert order[..k + 1][k] == order[k] && order[k] in order;
    assert forall id :: id in order[..k + 1] ==> id in order;
  }

  lemma {:induction false} PositionRowsPrefixErr(order: seq<int>, k: nat, positions: map<int, Position>, date: string, prices: map<int, real>)
    requires forall id :: id in order ==> id in positions
    requires k <= |order|
    requires forall id :: id in order[..k] ==> id in positions
    requires PositionRows(order[..k], positions, date, prices).Err?
    ensures PositionRows(order, positions, date, prices) == PositionRows(order[..k], positions, date, prices)
    decreases |order| - k
  {
    if k < |order| {
      assert order[..k + 1][..k] == order[..k];
      assert forall id :: id in order[..k + 1] ==> id in order;
      PositionRowsPrefixErr(order, k + 1, positions, date, prices);
    } else {
      assert order[..k] == order;
    }
  }

  /** The fills of a successful target loop have distinct ids when the targets do. */
  lemma {:induction false} FillsWellFormed(targets: seq<(int, real)>, b: Book, c: Costs, targetTotal: real, prices: map<int, real>)
    requires Fills(targets, b, c, targetTotal, prices).Ok?
    ensures var fills := Fills(targets, b, c, targetTotal, prices).value;
      IdsOf(fills) == KeysOf(targets)
      && (forall id :: id in IdsOf(fills) ==> id in BookOf(fills) && id in prices)
      && (Distinct(KeysOf(targets)) ==> WellFormed(Book(0.0, IdsOf(fills), BookOf(fills))))
  {
  }
}
