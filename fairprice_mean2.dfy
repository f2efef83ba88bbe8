/**
 * The later liquidity-taking trader (fairpriceMean2.py): per product it buys
 * at the first ask below fair for `min(ask amount, can_buy)` and sells at the
 * highest bid above fair for `min(bid volume, can_sell)`, each only when that
 * quantity is positive.
 */
module FairpriceMean2 {
  import opened Market

  /** The buy order: at the first ask, when it is below fair and `min(ask amount, can_buy)` is positive. */
  function BuyLeg(product: Symbol, sellOrders: Side, fair: int, canBuy: int): (r: seq<Order>)
    ensures |r| <= 1
    ensures r != [] <==> sellOrders != [] && sellOrders[0].price < fair
                         && sellOrders[0].volume > 0 && canBuy > 0
    ensures r != [] ==> r[0].symbol == product && r[0].price == sellOrders[0].price
    ensures r != [] ==> 0 < r[0].quantity <= canBuy && r[0].quantity <= sellOrders[0].volume
    ensures r != [] ==> r[0].quantity == canBuy || r[0].quantity == sellOrders[0].volume
  {
    if sellOrders == [] then []
    else
      var bestAsk := sellOrders[0];
      if bestAsk.price < fair then
        var volumeToBuy := Min(bestAsk.volume, canBuy);
        if volumeToBuy > 0 then [Order(product, bestAsk.price, volumeToBuy)] else []
      else []
  }

  /** The sell order: at the highest bid, when it is above fair and `min(bid volume, can_sell)` is positive. */
  function SellLeg(product: Symbol, buyOrders: Side, fair: int, canSell: int): (r: seq<Order>)
    ensures |r| <= 1
    ensures r != [] <==> buyOrders != [] && BestBid(buyOrders).price > fair
                         && BestBid(buyOrders).volume > 0 && canSell > 0
    ensures r != [] ==> r[0].symbol == product && r[0].price == BestBid(buyOrders).price
    ensures r != [] ==> 0 < -r[0].quantity <= canSell && -r[0].quantity <= BestBid(buyOrders).volume
    ensures r != [] ==> -r[0].quantity == canSell || -r[0].quantity == BestBid(buyOrders).volume
  {
    if buyOrders == [] then []
    else
      var bestBid := BestBid(buyOrders);
      if bestBid.price > fair then
        var volumeToSell := Min(bestBid.volume, canSell);
        if volumeToSell > 0 then [Order(product, bestBid.price, -volumeToSell)] else []
      else []
  }

  /** The orders `run` places for one product, or the KeyError its fair-price lookup raises. */
  function ProductOrders(product: Symbol, depth: OrderDepth, position: int): (r: Result<seq<Order>, Error>)
    ensures r.Err? <==> NeedsFairPrice(depth) && product !in FAIR_PRICES
    ensures r.Err? ==> r.error == KeyError(product)
    ensures r.Ok? ==> r.value == BuyLeg(product, depth.sellOrders, FairPrice(product), CanBuy(position))
                                 + SellLeg(product, depth.buyOrders, FairPrice(product), CanSell(position))    ensures r.Ok? ==> |r.value| <= 2
    ensures r.Ok? ==> forall o :: o in r.value ==> o.symbol == product && o.quantity != 0
    ensures r.Ok? ==> forall i, j :: 0 <= i < j < |r.value| ==>
              r.value[i].quantity > 0 > r.value[j].quantity && r.value[i].price < r.value[j].price
  {
    if NeedsFairPrice(depth) && product !in FAIR_PRICES then Err(KeyError(product))
    else Ok(BuyLeg(product, depth.sellOrders, FairPrice(product), CanBuy(position)) + SellLeg(product, depth.buyOrders, FairPrice(product), CanSell(position)))
  }

  /** The body of `run`'s loop for one product: its order list, or the KeyError of its fair-price lookup. */
  method TradeProduct(product: Symbol, orderDepth: OrderDepth, currentPos: int) returns (r: Result<seq<Order>, Error>)
    ensures r == ProductOrders(product, orderDepth, currentPos)
  {
    var orders: seq<Order> := [];
    var canBuy := CanBuy(currentPos);
    var canSell := CanSell(currentPos);

    if |orderDepth.sellOrders| > 0 {
      var bestAsk := orderDepth.sellOrders[0];
      if product !in FAIR_PRICES {
        return Err(KeyError(product));
      }
      if bestAsk.price < FAIR_PRICES[product] {
        var volumeToBuy := Min(bestAsk.volume, canBuy);
        if volumeToBuy > 0 {
          orders := orders + [Order(product, bestAsk.price, volumeToBuy)];
        }
      }
    }
    assert orders == BuyLeg(product, orderDepth.sellOrders, FairPrice(product), canBuy);
    ghost var buys := orders;

    if |orderDepth.buyOrders| > 0 {
      var bestBidPrice := MaxPrice(orderDepth.buyOrders);
      var bestBidVolume := VolumeAt(orderDepth.buyOrders, bestBidPrice);
      if product !in FAIR_PRICES {
        return Err(KeyError(product));
      }
      if bestBidPrice > FAIR_PRICES[product] {
        var volumeToSell := Min(bestBidVolume, canSell);
        if volumeToSell > 0 {
          orders := orders + [Order(product, bestBidPrice, -volumeToSell)];
        }
      }
    }
    assert orders == buys + SellLeg(product, orderDepth.buyOrders, FairPrice(product), canSell);
    return Ok(orders);
  }

  /**
   * One tick: for every product in the book, the orders above; the tick aborts
   * with a KeyError when some product with a non-empty side has no fair price.
   */
  method Run(state: TradingState) returns (out: Result<RunOutput, Error>)
    ensures out.Err? <==> exists p :: p in state.orderDepths && ProductOrders(p, state.orderDepths[p], PositionOf(state.position, p)).Err?
    ensures out.Err? ==> out.error.key in state.orderDepths
                         && NeedsFairPrice(state.orderDepths[out.error.key]) && out.error.key !in FAIR_PRICES
    ensures out.Ok? ==> out.value.result.Keys == state.orderDepths.Keys
    ensures out.Ok? ==> forall p :: p in out.value.result ==>
              ProductOrders(p, state.orderDepths[p], PositionOf(state.position, p)) == Ok(out.value.result[p])
    ensures out.Ok? ==> out.value.conversions == 1 && out.value.traderData == "SAMPLE"
  {
    var result: map<Symbol, seq<Order>> := map[];
    var remaining := state.orderDepths.Keys;
    while remaining != {}
      invariant remaining <= state.orderDepths.Keys
      invariant result.Keys == state.orderDepths.Keys - remaining
      invariant forall p :: p in result ==>
                  ProductOrders(p, state.orderDepths[p], PositionOf(state.position, p)) == Ok(result[p])
      decreases remaining
    {
      var product :| product in remaining;
      var step := TradeProduct(product, state.orderDepths[product], PositionOf(state.position, product));
      if step.Err? {
        return Err(step.error);
      }
      result := result[product := step.value];
      remaining := remaining - {product};
    }
    out := Ok(RunOutput(result, CONVERSIONS, TRADER_DATA));
  }

  /**
   * The fair price of an unknown product is never compared against: the tick
   * fails on its KeyError when its book has a level, and with an empty book
   * nothing is placed.
   */
  lemma UnknownProductPlacesNothing(product: Symbol, depth: OrderDepth, position: int)
    requires product !in FAIR_PRICES
    ensures ProductOrders(product, depth, position)
            == if NeedsFairPrice(depth) then Err(KeyError(product)) else Ok([])
  {
  }

  /** Finding: with a conventional (non-positive) ask amount no buy order is ever placed. */
  lemma NeverBuysNegativeAsk(product: Symbol, sellOrders: Side, fair: int, canBuy: int)
    requires sellOrders != [] ==> sellOrders[0].volume <= 0
    ensures BuyLeg(product, sellOrders, fair, canBuy) == []
  {
  }

  /** Finding: 5 lots offered at 9998 against a fair price of 10000, flat position, and nothing is bought. */
  lemma MissesUnderpricedAsk()
    ensures ProductOrders("RAINFOREST_RESIN", OrderDepth([], [Level(9998, -5)]), 0) == Ok([])
  {
    assert FairPrice("RAINFOREST_RESIN") == 10000;
    assert BuyLeg("RAINFOREST_RESIN", [Level(9998, -5)], 10000, CanBuy(0)) == [];
    assert SellLeg("RAINFOREST_RESIN", [], 10000, CanSell(0)) == [];
    var none: seq<Order> := [];
    assert none + none == none;
  }

  /** Filling every order placed for a product keeps a position inside the limits inside them. */
  lemma {:induction false} FillsStayWithinLimit(product: Symbol, depth: OrderDepth, position: int)
    requires -POSITION_LIMIT <= position <= POSITION_LIMIT
    requires ProductOrders(product, depth, position).Ok?
    ensures FillsWithinLimit(position, ProductOrders(product, depth, position).value)
  {
    var buys := BuyLeg(product, depth.sellOrders, FairPrice(product), CanBuy(position));
    var sells := SellLeg(product, depth.buyOrders, FairPrice(product), CanSell(position));
    LegVolumes(buys, sells);
  }

  /** Buy and sell volumes of a buy leg followed by a sell leg. */
  lemma {:induction false} LegVolumes(buys: seq<Order>, sells: seq<Order>)
    requires |buys| <= 1 && |sells| <= 1
    requires buys != [] ==> buys[0].quantity > 0
    requires sells != [] ==> sells[0].quantity < 0
    ensures BuyVolume(buys + sells) == (if buys == [] then 0 else buys[0].quantity)
    ensures SellVolume(buys + sells) == (if sells == [] then 0 else -sells[0].quantity)
  {
    if sells != [] {
      assert sells[1..] == [];
      assert BuyVolume(sells) == 0 && SellVolume(sells) == -sells[0].quantity;
    }
    if buys == [] {
      assert buys + sells == sells;
    } else {
      assert (buys + sells)[1..] == sells;
    }
  }

  /** Empty ask side: every order placed for the product sells. */
  lemma EmptyAskOnlySells(product: Symbol, buyOrders: Side, position: int)
    requires ProductOrders(product, OrderDepth(buyOrders, []), position).Ok?
    ensures forall o :: o in ProductOrders(product, OrderDepth(buyOrders, []), position).value ==> o.quantity < 0
  {
  }
}
