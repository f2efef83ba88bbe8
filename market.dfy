/**
 * The data the trader sees and produces in one tick, the constants both
 * versions of the trader share, and the book lookups they use.
 */
module Market {

  type Symbol = string

  /** Either a value or the exception that aborts the tick. */
  datatype Result<+T, +E> = Ok(value: T) | Err(error: E)

  /** The only exception `run` can raise: a fair-price lookup of an unknown product. */
  datatype Error = KeyError(key: Symbol)

  /** One resting price level: its price and signed volume (asks are conventionally negative). */
  datatype Level = Level(price: int, volume: int)

  /** A book side: the harness's price-to-volume dict, in its iteration order. */
  type Side = seq<Level>

  datatype OrderDepth = OrderDepth(buyOrders: Side, sellOrders: Side)

  /** An order; a positive quantity buys, a negative one sells. */
  datatype Order = Order(symbol: Symbol, price: int, quantity: int)

  /** The parts of the harness's per-tick state that `run` reads. */
  datatype TradingState = TradingState(
    traderData: string,
    orderDepths: map<Symbol, OrderDepth>,
    position: map<Symbol, int>)

  /** The triple `run` returns: orders per product, conversions and the state blob. */
  datatype RunOutput = RunOutput(result: map<Symbol, seq<Order>>, conversions: int, traderData: string)

  const POSITION_LIMIT := 50
  const CONVERSIONS := 1
  const TRADER_DATA := "SAMPLE"

  /** The hard-coded fair prices (`acceptable_prices`). */
  const FAIR_PRICES: map<Symbol, int> := map["KELP" := 2019, "RAINFOREST_RESIN" := 10000]

  /**
   * The fair price `run` compares against. It is consulted only for a product
   * the table holds, or for one whose book is empty on both sides, where it
   * decides nothing.
   */
  function FairPrice(product: Symbol): (r: int)
    ensures product in FAIR_PRICES ==> r == FAIR_PRICES[product]
    ensures product !in FAIR_PRICES ==> r == 0
  {
    if product in FAIR_PRICES then FAIR_PRICES[product] else 0
  }

  /** Python's two-argument `min`: the smaller argument. */
  function Min(a: int, b: int): (r: int)
    ensures r <= a && r <= b
    ensures r == a || r == b
  {
    if b < a then b else a
  }

  /** Python's two-argument `max`: the larger argument. */
  function Max(a: int, b: int): (r: int)
    ensures r >= a && r >= b
    ensures r == a || r == b
  {
    if b > a then b else a
  }

  /** `state.position.get(product, 0)`: the recorded position, or flat when none is recorded. */
  function PositionOf(position: map<Symbol, int>, product: Symbol): (r: int)
    ensures product in position ==> r == position[product]
    ensures product !in position ==> r == 0
  {
    if product in position then position[product] else 0
  }

  /** Remaining room to buy before the long limit: `max(0, 50 - position)`. */
  function CanBuy(position: int): (r: int)
    ensures r >= 0
    ensures position <= POSITION_LIMIT ==> position + r == POSITION_LIMIT
    ensures position > POSITION_LIMIT ==> r == 0
    ensures -POSITION_LIMIT <= position ==> r <= 2 * POSITION_LIMIT
  {
    Max(0, POSITION_LIMIT - position)
  }

  /** Remaining room to sell before the short limit: `max(0, 50 + position)`. */
  function CanSell(position: int): (r: int)
    ensures r >= 0
    ensures position >= -POSITION_LIMIT ==> position - r == -POSITION_LIMIT
    ensures position < -POSITION_LIMIT ==> r == 0
    ensures position <= POSITION_LIMIT ==> r <= 2 * POSITION_LIMIT
  {
    Max(0, POSITION_LIMIT + position)
  }

  /** Does the product need a fair price this tick, i.e. does either side of its book hold a level? */
  predicate NeedsFairPrice(depth: OrderDepth): (r: bool)
    ensures r <==> |depth.sellOrders| > 0 || |depth.buyOrders| > 0
  {
    depth.sellOrders != [] || depth.buyOrders != []
  }

  predicate HasPrice(side: Side, price: int)
  {
    exists i :: 0 <= i < |side| && side[i].price == price
  }

  /** `max(side.keys())`: the highest price on a non-empty side. */
  function MaxPrice(side: Side): (r: int)
    requires side != []
    ensures HasPrice(side, r)
    ensures forall i :: 0 <= i < |side| ==> side[i].price <= r
  {
    if |side| == 1 then side[0].price
    else
      var rest := MaxPrice(side[1..]);
      assert forall i :: 1 <= i < |side| ==> side[i] == side[1..][i - 1];
      Max(side[0].price, rest)
  }

  /** A dict holds one entry per key: no two levels of the side share a price. */
  predicate DistinctPrices(side: Side)
  {
    forall i, j :: 0 <= i < j < |side| ==> side[i].price != side[j].price
  }

  /**
   * `side[price]`: the volume stored under a price the side holds. On a side
   * with distinct prices, as every dict is, it is the volume of the one level
   * at that price.
   */
  function VolumeAt(side: Side, price: int): (r: int)
    requires HasPrice(side, price)
    ensures Level(price, r) in side
    ensures DistinctPrices(side) ==> forall i :: 0 <= i < |side| && side[i].price == price ==> side[i].volume == r
  {
    if side[0].price == price then side[0].volume
    else
      assert HasPrice(side[1..], price) by {
        var i :| 0 <= i < |side| && side[i].price == price;
        assert side[1..][i - 1].price == price;
      }
      VolumeAt(side[1..], price)
  }

  /** The best bid of fairpriceMean2.py: the level at the highest price. */
  function BestBid(side: Side): (r: Level)
    requires side != []
    ensures r in side
    ensures forall l :: l in side ==> l.price <= r.price
  {
    var price := MaxPrice(side);
    Level(price, VolumeAt(side, price))
  }

  /** A side sorted best-first the way bids conventionally are: strictly falling prices. */
  predicate Descending(side: Side)
  {
    forall i, j :: 0 <= i < j < |side| ==> side[j].price < side[i].price
  }

  /** On a conventionally ordered bid side, the first level is the best bid. */
  lemma FirstBidIsBest(side: Side)
    requires side != [] && Descending(side)
    ensures BestBid(side) == side[0]
  {
  }

  /** A side sorted best-first the way asks conventionally are: strictly rising prices. */
  predicate Ascending(side: Side)
  {
    forall i, j :: 0 <= i < j < |side| ==> side[i].price < side[j].price
  }

  /** On a conventionally ordered ask side, the first level is the lowest ask, the one both versions take. */
  lemma FirstAskIsBest(side: Side)
    requires side != [] && Ascending(side)
    ensures forall l :: l in side ==> side[0].price <= l.price
    ensures DistinctPrices(side)
  {
  }

  /** Total quantity bought if every buy order in the list fills. */
  function BuyVolume(orders: seq<Order>): (r: int)
    ensures r >= 0
    ensures forall i :: 0 <= i < |orders| && orders[i].quantity > 0 ==> orders[i].quantity <= r
  {
    if orders == [] then 0
    else
      var rest := BuyVolume(orders[1..]);
      assert forall i :: 1 <= i < |orders| ==> orders[i] == orders[1..][i - 1];
      Max(0, orders[0].quantity) + rest
  }

  /** Total quantity sold if every sell order in the list fills. */
  function SellVolume(orders: seq<Order>): (r: int)
    ensures r >= 0
    ensures forall i :: 0 <= i < |orders| && orders[i].quantity < 0 ==> -orders[i].quantity <= r
  {
    if orders == [] then 0
    else
      var rest := SellVolume(orders[1..]);
      assert forall i :: 1 <= i < |orders| ==> orders[i] == orders[1..][i - 1];
      Max(0, -orders[0].quantity) + rest
  }

  /** Filling every order of the list keeps the position within the limit on both sides. */
  predicate FillsWithinLimit(position: int, orders: seq<Order>)
  {
    -POSITION_LIMIT <= position - SellVolume(orders) && position + BuyVolume(orders) <= POSITION_LIMIT
  }
}
