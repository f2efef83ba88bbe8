/**
 * How the two versions of the trader relate on a conventionally ordered
 * book (bids best-first, i.e. with strictly falling prices).
 */
module Versions {
  import opened Market
  import FairpriceMean
  import FairpriceMean2

  /**
   * With a positive bid volume and room to sell, taking the first bid
   * (fairpriceMean.py) and taking the highest bid (fairpriceMean2.py) place
   * the same sell order.
   */
  lemma SellLegsAgree(product: Symbol, buyOrders: Side, fair: int, canSell: int)
    requires buyOrders != [] && Descending(buyOrders)
    requires buyOrders[0].volume > 0 && canSell > 0
    ensures FairpriceMean2.SellLeg(product, buyOrders, fair, canSell) == FairpriceMean.SellLeg(product, buyOrders, fair, canSell)
  {
  }

  /**
   * With no room to sell, fairpriceMean.py still places an order of size 0 at
   * a bid above fair, where fairpriceMean2.py places nothing.
   */
  lemma SellLegsDifferAtShortLimit(product: Symbol, buyOrders: Side, fair: int)
    requires buyOrders != [] && buyOrders[0].price > fair && buyOrders[0].volume > 0
    ensures FairpriceMean.SellLeg(product, buyOrders, fair, 0) == [Order(product, buyOrders[0].price, 0)]
    ensures FairpriceMean2.SellLeg(product, buyOrders, fair, 0) == []
  {
  }
}
