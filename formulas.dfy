/**
 * The two formulas the routine is normally given: the revenue of one
 * purchase line and the bonus for a place in the profit ranking.
 */
module Formulas {
  import opened SalesTypes

  /**
   * Revenue of one line: the sale price, reduced by `discount` percent, times
   * the quantity. The product card is not used. The discount is not clamped.
   */
  function SimpleRevenue(item: Item, product: Product): (r: real)
    ensures item.discount == 0.0 ==> r == item.sale_price * item.quantity
    ensures item.quantity == 0.0 || item.discount == 100.0 ==> r == 0.0
    ensures 0.0 <= item.discount <= 100.0 && 0.0 <= item.sale_price && 0.0 <= item.quantity ==>
              0.0 <= r <= item.sale_price * item.quantity
  {
    var effectivePrice := item.sale_price * (1.0 - item.discount / 100.0);
    var revenue := effectivePrice * item.quantity;
    RevenueFacts(item.sale_price, item.discount, item.quantity, revenue);
    revenue
  }

  /** `a <= b` is kept when both sides are multiplied by a non-negative `c`. */
  lemma ScaleMonotone(a: real, b: real, c: real)
    requires a <= b && 0.0 <= c
    ensures a * c <= b * c
  {
    assert b * c - a * c == (b - a) * c;
  }

  /**
   * The discounted line `revenue` equals the undiscounted one for no
   * discount, is 0 for a zero quantity or a full discount, and for a discount
   * in [0, 100] lies between 0 and the undiscounted line.
   */
  lemma RevenueFacts(price: real, discount: real, quantity: real, revenue: real)
    requires revenue == price * (1.0 - discount / 100.0) * quantity
    ensures discount == 0.0 ==> revenue == price * quantity
    ensures quantity == 0.0 || discount == 100.0 ==> revenue == 0.0
    ensures 0.0 <= discount <= 100.0 && 0.0 <= price && 0.0 <= quantity ==> 0.0 <= revenue <= price * quantity
  {
    var f := 1.0 - discount / 100.0;
    var effective := price * f;
    assert revenue == effective * quantity;
    if discount == 0.0 {
      assert f == 1.0;
    }
    if discount == 100.0 {
      assert f == 0.0;
      assert effective == 0.0;
    }
    if 0.0 <= discount <= 100.0 && 0.0 <= price && 0.0 <= quantity {
      assert 0.0 <= f <= 1.0;
      ScaleMonotone(f, 1.0, price);
      ScaleMonotone(0.0, f, price);
      assert effective == f * price;
      ScaleMonotone(effective, price, quantity);
      ScaleMonotone(0.0, effective, quantity);
    }
  }

  /**
   * A larger discount never gives a larger revenue, for a non-negative price
   * and quantity.
   */
  lemma RevenueFallsWithDiscount(item: Item, product: Product, discount: real)
    requires 0.0 <= item.sale_price && 0.0 <= item.quantity
    requires item.discount <= discount
    ensures SimpleRevenue(item.(discount := discount), product) <= SimpleRevenue(item, product)
  {
    var p, q := item.sale_price, item.quantity;
    var f, g := 1.0 - item.discount / 100.0, 1.0 - discount / 100.0;
    assert g <= f;
    ScaleMonotone(g, f, p);
    assert p * g == g * p && p * f == f * p;
    ScaleMonotone(p * g, p * f, q);
  }

  /**
   * The bonus for the seller at zero-based place `index` of `total` sellers,
   * ranked by profit. The branches are tried in order, so the first three
   * places win over "last place": a lone seller gets 15 percent and the third
   * of three sellers gets 10 percent. Only a last place at index 3 or beyond
   * gets nothing.
   */
  function BonusByProfit(index: int, total: int, seller: SellerStats): (r: real)
    ensures index == 0 ==> r == seller.profit * 0.15
    ensures index == 1 && total > 1 ==> r == seller.profit * 0.10
    ensures index == 2 && total > 2 ==> r == seller.profit * 0.10
    ensures 3 <= index && index == total - 1 ==> r == 0.0
    ensures 3 <= index && index != total - 1 ==> r == seller.profit * 0.05
    ensures 0 <= index < total && 0.0 <= seller.profit ==> 0.0 <= r <= seller.profit * 0.15
  {
    var profit := seller.profit;
    if index == 0 then
      profit * 0.15
    else if index == 1 && total > 1 then
      profit * 0.10
    else if index == 2 && total > 2 then
      profit * 0.10
    else if index == total - 1 then
      0.0
    else
      profit * 0.05
  }

  /**
   * The last place gets no bonus exactly when there are at least four
   * sellers (or its profit is 0): with fewer, the last place is also one of
   * the first three places, whose branches are tried first.
   */
  lemma LastPlaceBonus(total: int, seller: SellerStats)
    requires total >= 1
    requires seller.profit != 0.0
    ensures BonusByProfit(total - 1, total, seller) == 0.0 <==> total >= 4
  {
  }

  /**
   * A better place never earns a smaller share: for a non-negative profit the
   * bonus does not increase down the ranking.
   */
  lemma BonusFallsWithRank(i: int, j: int, total: int, seller: SellerStats)
    requires 0 <= i < j < total
    requires 0.0 <= seller.profit
    ensures BonusByProfit(i, total, seller) >= BonusByProfit(j, total, seller)
  {
  }
}
