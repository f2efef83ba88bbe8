# Fair-price liquidity taker, modelled in Dafny

This project models `Trader.run` from a trading bot for a market-making
competition. The harness calls `run` once per tick. It passes a
`TradingState` that holds, per product, the resting bids (`buy_orders`) and
asks (`sell_orders`) and the agent's signed position. For every product in
the book, `run` does the following:

- looks up a hard-coded fair price: `KELP` is 2019, `RAINFOREST_RESIN` is 10000;
- computes the remaining capacity against a position limit of 50:
  `can_buy = max(0, 50 - pos)` and `can_sell = max(0, 50 + pos)`;
- buys at the best ask when it is below fair;
- sells at the best bid when it is above fair.

It returns the orders per product, `conversions = 1` and
`traderData = "SAMPLE"`. Two versions exist, and both are modelled:

- `fairpriceMean.py` is module `FairpriceMean`. It takes the first ask and the
  first bid. Both quantities are `-min(amount, capacity)`. It has no guard
  against size zero.
- `fairpriceMean2.py` is module `FairpriceMean2`. It takes the first ask and
  the highest bid. The buy quantity is `min(ask amount, can_buy)` and the sell
  quantity is `-min(bid volume, can_sell)`. An order is placed only when its
  size is positive.

Files:

- `market.dfy` (module `Market`) holds what both versions share: the data
  types, the fair-price table, the limit, the two capacities, the
  highest-bid lookup of `max(keys)` followed by `dict[key]`, and the fill
  volumes used to state the position-limit property.
- `fairprice_mean.dfy` and `fairprice_mean2.dfy` each model one version.
  - `Run` is a method that loops over the products and stores each product's
    list in the result map.
  - `TradeProduct` is the loop body for one product. It appends each order to
    the list, as the source does.
  - Both methods are proved against a per-product specification
    `ProductOrders = BuyLeg + SellLeg`. The lemmas beside them state what the
    source promises of those functions.
- `versions.dfy` relates the two versions on a conventionally ordered book.
- `corrected_taker.dfy` is the behaviour both versions evidently intend (see
  Findings).

A book side is a sequence of `Level(price, volume)` in the dict's iteration
order. This gives "the first entry" (`list(d.items())[0]`) a meaning. A dict
holds one entry per price (`DistinctPrices`); `d[price]` is modelled as the
first level at that price, which on such a side is the only one. A
failed fair-price lookup raises `KeyError` in the source. Here it is the
result `Err(KeyError(product))`, not a precondition.

The position-limit properties assume the harness's convention that ask
volumes are negative (the size on offer) and bid volumes are positive. Under
that convention:

- v1 can buy past the long limit;
- v2 never buys at all;
- both versions keep the short side within the limit.

## Model

| member | source | states |
|---|---|---|
| Market.CanBuy | fairpriceMean2.py:29-30 | buy capacity is never negative; from any position at or under +50 it is exactly the room up to +50, and above +50 it is 0 (same formula at fairpriceMean.py:21) |
| Market.CanSell | fairpriceMean2.py:32-34 | sell capacity is never negative; from any position at or over -50 it is exactly the room down to -50, and below -50 it is 0 (same formula at fairpriceMean.py:20) |
| Market.FairPrice | fairpriceMean2.py:45 | the table's fair price for a product it holds (`acceptable_prices[product]`, also fairpriceMean.py:27, 33 and fairpriceMean2.py:63); the 0 default for other products is reached only when both book sides are empty, where it decides nothing (see UnknownProductPlacesNothing) |
| Market.Min | fairpriceMean2.py:48 | Python's `min`: no larger than either argument and equal to one of them (also fairpriceMean2.py:65, fairpriceMean.py:29, 35) |
| Market.Max | fairpriceMean2.py:30 | Python's `max`: no smaller than either argument and equal to one of them (also fairpriceMean2.py:34, 59 and fairpriceMean.py:20-21) |
| Market.PositionOf | fairpriceMean2.py:27 | `state.position.get(product, 0)`: the recorded position, or 0 when the product has none (also fairpriceMean.py:19) |
| Market.NeedsFairPrice | fairpriceMean2.py:39-57 | the fair-price lookup is reached exactly when one of the two `len(...) > 0` tests holds (fairpriceMean.py:25, 31 test `!= 0`) |
| Market.MaxPrice | fairpriceMean2.py:59 | `max(keys)` is a price present on the side and no level has a higher price |
| Market.VolumeAt | fairpriceMean2.py:60 | `buy_orders[best_bid]` returns the volume of a level of the side that has that price; on a side with distinct prices (every dict) it is the volume of every level at that price, i.e. of the only one |
| Market.BestBid | fairpriceMean2.py:58-60 | the best bid is a level of the side, and no level is priced above it |
| Market.FirstBidIsBest | fairpriceMean2.py:58-60 | on a bid side sorted best-first (strictly falling prices), the highest bid is the first entry, the one v1 takes |
| Market.FirstAskIsBest | fairpriceMean2.py:40-41 | on an ask side sorted best-first (strictly rising prices), the first entry, which both versions take, is the lowest ask, and the prices are distinct |
| FairpriceMean.BuyLeg | fairpriceMean.py:25-29 | an ask-side order exists iff the side is non-empty and its first price is below fair; it is priced at that ask, and its quantity equals `-amount` or `-can_buy`, whichever is larger |
| FairpriceMean.SellLeg | fairpriceMean.py:31-35 | a bid-side order exists iff the side is non-empty and its first price is above fair; it is priced at that bid and sells no more than the bid amount or `can_sell`, and exactly one of them |
| FairpriceMean.ProductOrders | fairpriceMean.py:14-37 | KeyError exactly when a non-empty side meets a product without a fair price; otherwise the ask-side order (if any) followed by the bid-side order (if any), at most two, all for that product, the first priced strictly below the second (it never crosses itself) |
| FairpriceMean.TradeProduct | fairpriceMean.py:15-37 | the loop body for one product, with its appends, yields exactly ProductOrders: the KeyError, or the ask-side then bid-side order |
| FairpriceMean.Run | fairpriceMean.py:9-43 | fails iff some product raises KeyError, and then names such a product; otherwise the result has exactly the book's products as keys, each with ProductOrders' list, and conversions 1 and traderData "SAMPLE" |
| FairpriceMean.UnknownProductPlacesNothing | fairpriceMean.py:25-35 | for a product without a fair price: KeyError when either side has a level, otherwise no orders |
| FairpriceMean.BuyIgnoresCapacity | fairpriceMean.py:29 | with a non-positive ask amount the buy quantity is `-amount` whatever `can_buy` is |
| FairpriceMean.SellsWithinLimit | fairpriceMean.py:20-35 | with non-positive ask amounts and a position at or above -50, filling every sell order placed never takes the position below -50 |
| FairpriceMean.OverBuysAtLimit | fairpriceMean.py:29 | at position 50, an ask of 5 at 9998 on RAINFOREST_RESIN is bought in full, breaching the limit |
| FairpriceMean.ZeroSizeOrder | fairpriceMean.py:35 | at position -50, a KELP bid at 2021 yields an order of quantity 0 |
| FairpriceMean2.BuyLeg | fairpriceMean2.py:39-52 | a buy exists iff the first ask is below fair and both the ask amount and `can_buy` are positive; its price is that ask; its quantity is positive, within `can_buy` and the ask amount, and equals one of them |
| FairpriceMean2.SellLeg | fairpriceMean2.py:57-69 | a sell exists iff the highest bid is above fair and both its volume and `can_sell` are positive; its price is the highest bid; its negated quantity is positive, within `can_sell` and the bid volume, and equals one of them |
| FairpriceMean2.ProductOrders | fairpriceMean2.py:23-72 | KeyError exactly when a non-empty side meets a product without a fair price; otherwise the buy order (if any) followed by the sell order (if any): at most two orders, all for the product, none of size zero, any buy before any sell and priced strictly below it |
| FairpriceMean2.TradeProduct | fairpriceMean2.py:23-72 | the loop body for one product, with its appends, yields exactly ProductOrders: the KeyError, or the buy then sell order |
| FairpriceMean2.Run | fairpriceMean2.py:6-79 | fails iff some product raises KeyError, and then names such a product; otherwise the result has exactly the book's products as keys, each with ProductOrders' list, and conversions 1 and traderData "SAMPLE" |
| FairpriceMean2.UnknownProductPlacesNothing | fairpriceMean2.py:39-69 | for a product without a fair price: KeyError when either side has a level, otherwise no orders |
| FairpriceMean2.NeverBuysNegativeAsk | fairpriceMean2.py:48-52 | when the first ask amount is not positive, no buy order is placed |
| FairpriceMean2.MissesUnderpricedAsk | fairpriceMean2.py:48-52 | flat position, 5 offered at 9998 against fair 10000: no order at all |
| FairpriceMean2.FillsStayWithinLimit | fairpriceMean2.py:29-34 | from a position within +-50, filling every order placed keeps it within +-50 |
| FairpriceMean2.EmptyAskOnlySells | fairpriceMean2.py:39 | with an empty ask side every order placed is a sell |
| Versions.SellLegsAgree | fairpriceMean.py:31-35 | on a bid side sorted best-first with positive volume and room to sell, v1's first-bid sell equals v2's highest-bid sell |
| Versions.SellLegsDifferAtShortLimit | fairpriceMean.py:35 | with no room to sell and a bid above fair, v1 places a size-0 order where v2 places none |
| CorrectedTaker.BuyLeg | fairpriceMean2.py:44-52 | a buy exists iff the first ask is below fair, something is offered (negative amount) and `can_buy` is positive; its quantity is positive, within `can_buy` and the offered size, and equals one of them |
| CorrectedTaker.ProductOrders | fairpriceMean2.py:23-72 | as FairpriceMean2.ProductOrders with the corrected buy order: at most two orders, all for the product, none of size zero, any buy before any sell and priced strictly below it |
| CorrectedTaker.FillsStayWithinLimit | fairpriceMean2.py:29-34 | from a position within +-50, filling every order placed keeps it within +-50 |
| CorrectedTaker.TakesUnderpricedAsk | fairpriceMean2.py:44-52 | flat position, 5 offered at 9998 against fair 10000: buys 5 at 9998 |
| CorrectedTaker.RespectsLongLimit | fairpriceMean.py:29 | the same ask at position 50: no order |
| CorrectedTaker.OmitsZeroSizeSell | fairpriceMean.py:35 | a KELP bid at 2021 at position -50: no order |

## Findings

| source | as written | input that shows it | evidently intended | confidence | as-written member | corrected member |
|---|---|---|---|---|---|---|
| fairpriceMean.py:29 | buy quantity `-min(best_ask_amount, can_buy)`; for a negative ask amount this is `-best_ask_amount`, so `can_buy` never limits it | position 50 (can_buy 0), RAINFOREST_RESIN ask 9998 with amount -5: buys 5, position would become 55 | `min(-best_ask_amount, can_buy)` | medium (relies on negative ask amounts); not executed | FairpriceMean.OverBuysAtLimit | CorrectedTaker.RespectsLongLimit |
| fairpriceMean.py:35 | sell order appended even when `min(best_bid_amount, can_sell)` is 0 | position -50 (can_sell 0), KELP bid 2021 with volume 4: order of quantity 0 | no order when the clamped size is 0 | medium; not executed | FairpriceMean.ZeroSizeOrder | CorrectedTaker.OmitsZeroSizeSell |
| fairpriceMean2.py:48 | `min(best_ask_amount, can_buy)` with a negative ask amount is negative, so the `> 0` guard drops every buy | position 0, RAINFOREST_RESIN ask 9998 with amount -5: no order | `min(-best_ask_amount, can_buy)` | high (relies on negative ask amounts); not executed | FairpriceMean2.MissesUnderpricedAsk | CorrectedTaker.TakesUnderpricedAsk |

## Left out

- The `print` calls (fairpriceMean.py:11-12, 17, 28, 34; fairpriceMean2.py:8-9) only write debug output. `state.observations` and the incoming `state.traderData` are only printed, so they are not part of the model.
- Only the `TradingState`, `OrderDepth` and `Order` fields that `run` uses are modelled. The `datamodel` module is not part of this model.
- FairpriceMean.Run: when several products would raise KeyError, the source raises for the first in the dict's iteration order. The model leaves that order open, so it names some such product.
- FairpriceMean2.Run: as for FairpriceMean.Run, the KeyError names some failing product, not necessarily the first in iteration order.
- The order of keys in the returned `result` dict is not modelled, because a Dafny `map` is unordered. The keys and each product's list are modelled exactly.
- The `int(...)` casts at fairpriceMean.py:27 and 33 are the identity on integer prices.
- vis.py and DifferencingViz.py are offline plotting scripts. They use CSV input and floating-point rolling means, and are not part of this model.
- The code has no rolling-average fair value, no inventory-skewed thresholds, no passive quoting and no state (de)serialisation, so none of these is modelled. Three behaviours of the code are modelled as written, where a more defensive trader would differ:
  - an unknown product with a non-empty book side raises KeyError; a defensive trader would skip the product;
  - v1 places orders of size 0; a defensive trader would omit them;
  - capacity is not consumed across orders; a trader taking several levels per side would reduce `can_buy`/`can_sell` after each order, but here there is at most one order per side.
