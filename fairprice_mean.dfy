/**
 * The earlier liquidity-taking trader (fairpriceMean.py): per product it
 * buys at the first ask below fair and sells at the first bid above fair,
 * with quantity `-min(amount, capacity)` on both sides and no zero guard.
 */
module FairpriceMean {
  import opened Market

  /** The ask-side order: at the first ask, when it is below fair, for `-min(ask amount, can_buy)`. */
  function BuyLeg(product: Symbol, sellOrders: Side, fair: int, canBuy: int): (r: seq<Order>)
    ensures |r| <= 1
    ensures r != [] <==> sellOrders != [] && sellOrders[0].price < fair
    ensures r != [] ==> r[0].symbol == product && r[0].price == sellOrders[0].price
    ensures r != [] ==> r[0].quantity >= -sellOrders[0].volume && r[0].quantity >= -canBuy
    ensures r != [] ==> r[0].quantity == -sellOrders[0].volume || r[0].quantity == -canBuy
  {
    if sellOrders == [] then []
    else
      var bestAsk := sellOrders[0];
      if bestAsk.price < fair then [Order(product, bestAsk.price, -Min(bestAsk.volume, canBuy))]
      else []
  }

  /** The bid-side order: at the first bid, when it is above fair, for `-min(bid amount, can_sell)`. */
  function SellLeg(product: Symbol, buyOrders: Side, fair: int, canSell: int): (r: seq<Order>)
    ensures |r| <= 1
    ensures r != [] <==> buyOrders != [] && buyOrders[0].price > fair
    ensures r != [] ==> r[0].symbol == product && r[0].price == buyOrders[0].price
    ensures r != [] ==> -r[0].quantity <= buyOrders[0].volume && -r[0].quantity <= canSell
    ensures r != [] ==> -r[0].quantity == buyOrders[0].volume || -r[0].quantity == canSell
  {
    if buyOrders == [] then []
    else
      var bestBid := buyOrders[0];
      if bestBid.price > fair then [Order(product, bestBid.price, -Min(bestBid.volume, canSell))]
      else []
  }

  /** The orders `run` places for one product, or the KeyError its fair-price lookup raises. */
  function ProductOrders(product: Symbol, depth: OrderDepth, position: int): (r: Result<seq<Order>, Error>)
    ensures r.Err? <==> NeedsFairPrice(depth) && product !in FAIR_PRICES
    ensures r.Err? ==> r.error == KeyError(product)
    ensures r.Ok? ==> r.value == BuyLeg(product, depth.sellOrders, FairPrice(product), CanBuy(position))
                                 + SellLeg(product, depth.buyOrders, FairPrice(product), CanSell(position))
    ensures r.Ok? ==> |r.value| <= 2 && forall o :: o in r.value ==> o.symbol == product
    ensures r.Ok? ==> forall i, j :: 0 <= i < j < |r.value| ==> r.value[i].price < r.value[j].price
  {
    if NeedsFairPrice(depth) && product !in FAIR_PRICES then Err(KeyError(product))
    else Ok(BuyLeg(product, depth.sellOrders, FairPrice(product), CanBuy(position)) + SellLeg(product, depth.buyOrders, FairPrice(product), CanSell(position)))
  }

  /** The body of `run`'s loop for one product: its order list, or the KeyError of its fair-price lookup. */
  method TradeProduct(product: Symbol, orderDepth: OrderDepth, currentPos: int) returns (r: Result<seq<Order>, Error>)
    ensures r == ProductOrders(product, orderDepth, currentPos)
  {
    var orders: seq<Order> := [];
    var canSell := CanSell(currentPos);
    var canBuy := CanBuy(currentPos);

    if |orderDepth.sellOrders| != 0 {
      var bestAsk := orderDepth.sellOrders[0];
      if product !in FAIR_PRICES {
        return Err(KeyError(product));
      }
      if bestAsk.price < FAIR_PRICES[product] {
        orders := orders + [Order(product, bestAsk.price, -Min(bestAsk.volume, canBuy))];
      }
    }
    assert orders == BuyLeg(product, orderDepth.sellOrders, FairPrice(product), canBuy);
    ghost var buys := orders;

    if |orderDepth.buyOrders| != 0 {
      var bestBid := orderDepth.buyOrders[0];
      if product !in FAIR_PRICES {
        return Err(KeyError(product));
      }
      if bestBid.price > FAIR_PRICES[product] {
        orders := orders + [Order(product, bestBid.price, -Min(bestBid.volume, canSell))];
      }
    }
    assert orders == buys + SellLeg(product, orderDepth.buyOrders, FairPrice(product), canSell);
    return Ok(orders);
  }

  /**
   * One tick: for every product in the book, the orders above; the tick aborts
   * with a KeyError when some product with a non-empty side has no fair price.
   */
  method Run(state: TradingState) returns (out: Result<RunOutput, Error>)
    ensures out.Err? <==> exists p :: p in state.orderDepths && ProductOrders(p, state.orderDepths[p], PositionOf(state.position, p)).Err?
    ensures out.Err? ==> out.error.key in state.orderDepths
                         && NeedsFairPrice(state.orderDepths[out.error.key]) && out.error.key !in FAIR_PRICES
    ensures out.Ok? ==> out.value.result.Keys == state.orderDepths.Keys
    ensures out.Ok? ==> forall p :: p in out.value.result ==>
              ProductOrders(p, state.orderDepths[p], PositionOf(state.position, p)) == Ok(out.value.result[p])
    ensures out.Ok? ==> out.value.conversions == 1 && out.value.traderData == "SAMPLE"
  {
    var result: map<Symbol, seq<Order>> := map[];
    var remaining := state.orderDepths.Keys;
    while remaining != {}
      invariant remaining <= state.orderDepths.Keys
      invariant result.Keys == state.orderDepths.Keys - remaining
      invariant forall p :: p in result ==>
                  ProductOrders(p, state.orderDepths[p], PositionOf(state.position, p)) == Ok(result[p])
      decreases remaining
    {
      var product :| product in remaining;
      var step := TradeProduct(product, state.orderDepths[product], PositionOf(state.position, product));
      if step.Err? {
        return Err(step.error);
      }
      result := result[product := step.value];
      remaining := remaining - {product};
    }
    out := Ok(RunOutput(result, CONVERSIONS, TRADER_DATA));
  }

  /**
   * The fair price of an unknown product is never compared against: the tick
   * fails on its KeyError when its book has a level, and with an empty book
   * nothing is placed.
   */
  lemma UnknownProductPlacesNothing(product: Symbol, depth: OrderDepth, position: int)
    requires product !in FAIR_PRICES
    ensures ProductOrders(product, depth, position)
            == if NeedsFairPrice(depth) then Err(KeyError(product)) else Ok([])
  {
  }

  /** With a conventional (non-positive) ask amount the `can_buy` clamp never bites: the order buys the whole offer. */
  lemma BuyIgnoresCapacity(product: Symbol, sellOrders: Side, fair: int, canBuy: int)
    requires sellOrders != [] && sellOrders[0].price < fair
    requires sellOrders[0].volume <= 0 && canBuy >= 0
    ensures BuyLeg(product, sellOrders, fair, canBuy) == [Order(product, sellOrders[0].price, -sellOrders[0].volume)]
  {
  }

  /** The bid-side order never sells more than the room left before the short limit. */
  lemma {:induction false} SellsWithinLimit(product: Symbol, depth: OrderDepth, position: int)
    requires -POSITION_LIMIT <= position
    requires ProductOrders(product, depth, position).Ok?
    requires forall l :: l in depth.sellOrders ==> l.volume <= 0
    ensures -POSITION_LIMIT <= position - SellVolume(ProductOrders(product, depth, position).value)
  {
    var buys := BuyLeg(product, depth.sellOrders, FairPrice(product), CanBuy(position));
    var sells := SellLeg(product, depth.buyOrders, FairPrice(product), CanSell(position));
    assert buys != [] ==> buys[0].quantity >= 0;
    SellVolumeOfLegs(buys, sells);
  }

  lemma SellVolumeOfLegs(buys: seq<Order>, sells: seq<Order>)
    requires |buys| <= 1 && |sells| <= 1
    requires buys != [] ==> buys[0].quantity >= 0
    ensures SellVolume(buys + sells) == SellVolume(sells)
  {
  }

  /**
   * Finding: at the long limit (can_buy = 0) an ask of 5 lots below fair is
   * still bought in full, taking the position to 55.
   */
  lemma OverBuysAtLimit()
    ensures ProductOrders("RAINFOREST_RESIN", OrderDepth([], [Level(9998, -5)]), 50)
            == Ok([Order("RAINFOREST_RESIN", 9998, 5)])
    ensures !FillsWithinLimit(50, [Order("RAINFOREST_RESIN", 9998, 5)])
  {
    assert FairPrice("RAINFOREST_RESIN") == 10000;
    assert CanBuy(50) == 0;
    assert BuyLeg("RAINFOREST_RESIN", [Level(9998, -5)], 10000, 0) == [Order("RAINFOREST_RESIN", 9998, 5)];
    assert SellLeg("RAINFOREST_RESIN", [], 10000, CanSell(50)) == [];
    assert [Order("RAINFOREST_RESIN", 9998, 5)] + [] == [Order("RAINFOREST_RESIN", 9998, 5)];
    assert [Order("RAINFOREST_RESIN", 9998, 5)][1..] == [];
  }

  /** Finding: at the short limit (can_sell = 0) a bid above fair still yields an order of size 0. */
  lemma ZeroSizeOrder()
    ensures ProductOrders("KELP", OrderDepth([Level(2021, 4)], []), -50) == Ok([Order("KELP", 2021, 0)])
  {
    assert FairPrice("KELP") == 2019;
    assert CanSell(-50) == 0;
    assert BuyLeg("KELP", [], 2019, CanBuy(-50)) == [];
    assert SellLeg("KELP", [Level(2021, 4)], 2019, 0) == [Order("KELP", 2021, 0)];
    assert [] + [Order("KELP", 2021, 0)] == [Order("KELP", 2021, 0)];
  }
}
