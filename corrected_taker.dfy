/**
 * The liquidity taker as both versions evidently intend it: ask amounts are
 * negative, so the offered size is `-amount`; each order is clamped by both
 * the offered size and the remaining capacity, and an order of size zero is
 * never placed. The sell side is that of fairpriceMean2.py, which already
 * does this.
 */
module CorrectedTaker {
  import opened Market
  import FairpriceMean2

  /** Buy at the first ask below fair, `min(-ask amount, can_buy)` lots, when that is positive. */
  function BuyLeg(product: Symbol, sellOrders: Side, fair: int, canBuy: int): (r: seq<Order>)
    ensures |r| <= 1
    ensures r != [] <==> sellOrders != [] && sellOrders[0].price < fair
                         && sellOrders[0].volume < 0 && canBuy > 0
    ensures r != [] ==> r[0].symbol == product && r[0].price == sellOrders[0].price
    ensures r != [] ==> 0 < r[0].quantity <= canBuy && r[0].quantity <= -sellOrders[0].volume
    ensures r != [] ==> r[0].quantity == canBuy || r[0].quantity == -sellOrders[0].volume
  {
    if sellOrders == [] then []
    else
      var bestAsk := sellOrders[0];
      if bestAsk.price < fair then
        var volumeToBuy := Min(-bestAsk.volume, canBuy);
        if volumeToBuy > 0 then [Order(product, bestAsk.price, volumeToBuy)] else []
      else []
  }

  /** The orders placed for one product, or the KeyError of an unknown product with a non-empty side. */
  function ProductOrders(product: Symbol, depth: OrderDepth, position: int): (r: Result<seq<Order>, Error>)
    ensures r.Err? <==> NeedsFairPrice(depth) && product !in FAIR_PRICES
    ensures r.Err? ==> r.error == KeyError(product)
    ensures r.Ok? ==> r.value == BuyLeg(product, depth.sellOrders, FairPrice(product), CanBuy(position))
                                 + FairpriceMean2.SellLeg(product, depth.buyOrders, FairPrice(product), CanSell(position))    ensures r.Ok? ==> |r.value| <= 2
    ensures r.Ok? ==> forall o :: o in r.value ==> o.symbol == product && o.quantity != 0
    ensures r.Ok? ==> forall i, j :: 0 <= i < j < |r.value| ==>
              r.value[i].quantity > 0 > r.value[j].quantity && r.value[i].price < r.value[j].price
  {
    if NeedsFairPrice(depth) && product !in FAIR_PRICES then Err(KeyError(product))
    else Ok(BuyLeg(product, depth.sellOrders, FairPrice(product), CanBuy(position))
            + FairpriceMean2.SellLeg(product, depth.buyOrders, FairPrice(product), CanSell(position)))
  }

  /** Filling every order placed for a product keeps a position inside the limits inside them. */
  lemma {:induction false} FillsStayWithinLimit(product: Symbol, depth: OrderDepth, position: int)
    requires -POSITION_LIMIT <= position <= POSITION_LIMIT
    requires ProductOrders(product, depth, position).Ok?
    ensures FillsWithinLimit(position, ProductOrders(product, depth, position).value)
  {
    var buys := BuyLeg(product, depth.sellOrders, FairPrice(product), CanBuy(position));
    var sells := FairpriceMean2.SellLeg(product, depth.buyOrders, FairPrice(product), CanSell(position));
    FairpriceMean2.LegVolumes(buys, sells);
  }

  /** 5 lots offered at 9998 against a fair price of 10000 from a flat position: all 5 are bought. */
  lemma TakesUnderpricedAsk()
    ensures ProductOrders("RAINFOREST_RESIN", OrderDepth([], [Level(9998, -5)]), 0)
            == Ok([Order("RAINFOREST_RESIN", 9998, 5)])
  {
    assert FairPrice("RAINFOREST_RESIN") == 10000;
    assert BuyLeg("RAINFOREST_RESIN", [Level(9998, -5)], 10000, CanBuy(0)) == [Order("RAINFOREST_RESIN", 9998, 5)];
    assert FairpriceMean2.SellLeg("RAINFOREST_RESIN", [], 10000, CanSell(0)) == [];
    assert [Order("RAINFOREST_RESIN", 9998, 5)] + [] == [Order("RAINFOREST_RESIN", 9998, 5)];
  }

  /** The same ask at the long limit: nothing is bought. */
  lemma RespectsLongLimit()
    ensures ProductOrders("RAINFOREST_RESIN", OrderDepth([], [Level(9998, -5)]), 50) == Ok([])
  {
    assert FairPrice("RAINFOREST_RESIN") == 10000;
    assert CanBuy(50) == 0;
    assert BuyLeg("RAINFOREST_RESIN", [Level(9998, -5)], 10000, 0) == [];
    assert FairpriceMean2.SellLeg("RAINFOREST_RESIN", [], 10000, CanSell(50)) == [];
    var none: seq<Order> := [];
    assert none + none == none;
  }

  /** A bid above fair at the short limit: no order, not an order of size zero. */
  lemma OmitsZeroSizeSell()
    ensures ProductOrders("KELP", OrderDepth([Level(2021, 4)], []), -50) == Ok([])
  {
    assert FairPrice("KELP") == 2019;
    assert CanSell(-50) == 0;
    assert BuyLeg("KELP", [], 2019, CanBuy(-50)) == [];
    assert FairpriceMean2.SellLeg("KELP", [Level(2021, 4)], 2019, 0) == [];
    var none: seq<Order> := [];
    assert none + none == none;
  }
}
