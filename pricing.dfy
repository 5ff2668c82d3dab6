/** The two pure pricing helpers of the cart store, `calculateSubTotal` and
    `calculateTotalPrice`, with the shipping-cost computation the latter
    performs and then discards. */
module Pricing {
  import opened CartTypes

  function Max(a: real, b: real): real
  {
    if a >= b then a else b
  }

  /** The per-line discount rule of `addToCart`, `updateProductCount` and
      `removeFromCart`: a FLAT discount takes its amount off once (not per
      unit), any other kind takes `amount` percent of the line total, and no
      discount takes nothing. */
  function DiscountValue(d: Option<Discount>, total: real): real
  {
    match d
    case None => 0.0
    case Some(disc) => if disc.kind == Flat then disc.amount else total * (disc.amount / 100.0)
  }

  /** A line's share of the subtotal: its discounted total when checked. */
  function Contribution(item: CartItem): real
  {
    if item.isChecked then item.discountedTotal else 0.0
  }

  /** `items.filter(item => item.isChecked)` */
  function CheckedItems(items: seq<CartItem>): (r: seq<CartItem>)
    ensures forall j :: 0 <= j < |r| ==> r[j].isChecked
  {
    if |items| == 0 then []
    else
      var last := items[|items| - 1];
      CheckedItems(items[..|items| - 1]) + (if last.isChecked then [last] else [])
  }

  /** `reduce((sum, item) => sum + item.discountedTotal, 0)`, a left fold. */
  function SumDiscounted(items: seq<CartItem>): real
  {
    if |items| == 0 then 0.0
    else SumDiscounted(items[..|items| - 1]) + items[|items| - 1].discountedTotal
  }

  /** `calculateSubTotal`: the sum of the discounted totals of the checked lines. */
  function SubTotal(items: seq<CartItem>): real
  {
    SumDiscounted(CheckedItems(items))
  }

  /** The subtotal after the cart's coupon, before the floor at 0. Only an
      available coupon applies: PERCENT scales, FLAT subtracts. */
  function CouponAdjusted(subTotal: real, coupon: Option<Coupon>): real
  {
    if coupon.Some? && coupon.value.available then
      if coupon.value.kind == Percent then subTotal * (1.0 - coupon.value.amount / 100.0)
      else subTotal - coupon.value.amount
    else subTotal
  }

  /** The shipping cost `calculateTotalPrice` computes: the option's price,
      reduced (never below 0) when the option's discount band holds for
      `subTotal` and `today`; 0 with no option. */
  function ShippingCost(shipping: Option<ShippingOption>, subTotal: real, today: Timestamp): (cost: real)
    ensures shipping.None? ==> cost == 0.0
    ensures shipping.Some? && shipping.value.discount.None? ==> cost == shipping.value.price
    ensures shipping.Some? && shipping.value.price >= 0.0 ==> cost >= 0.0
  {
    match shipping
    case None => 0.0
    case Some(option) =>
      match option.discount
      case None => option.price
      case Some(rule) =>
        if subTotal >= rule.minimumAmount && subTotal <= rule.maximumAmount &&
           today >= rule.startDay && today <= rule.endDay
        then
          if rule.kind == FlatOff then Max(0.0, option.price - rule.value)
          else Max(0.0, option.price * (1.0 - rule.value / 100.0))
        else option.price
  }

  /** `calculateTotalPrice`: the coupon-adjusted subtotal floored at 0. The
      shipping cost is computed and then not used, so neither `shipping` nor
      `today` reaches the result. */
  function TotalPrice(items: seq<CartItem>, shipping: Option<ShippingOption>, coupon: Option<Coupon>,
                      today: Timestamp): (r: real)
    ensures r >= 0.0
    ensures r >= CouponAdjusted(SubTotal(items), coupon)
    ensures r == 0.0 || r == CouponAdjusted(SubTotal(items), coupon)
  {
    var subTotal := CouponAdjusted(SubTotal(items), coupon);
    var shippingCost := ShippingCost(shipping, subTotal, today);
    Max(subTotal, 0.0)
  }

  // ---------------------------------------------------------------------
  // The subtotal

  lemma SubTotalEmpty()
    ensures SubTotal([]) == 0.0
  {
  }

  /** Appending a line adds exactly its contribution. */
  lemma SubTotalSnoc(items: seq<CartItem>, x: CartItem)
    ensures SubTotal(items + [x]) == SubTotal(items) + Contribution(x)
  {
    assert (items + [x])[..|items|] == items;
    var c := CheckedItems(items);
    if x.isChecked {
      assert CheckedItems(items + [x]) == c + [x];
      assert (c + [x])[..|c|] == c;
    } else {
      assert CheckedItems(items + [x]) == c + [] == c;
    }
  }

  /** The subtotal of a concatenation is the sum of the subtotals. */
  lemma {:induction false} SubTotalConcat(a: seq<CartItem>, b: seq<CartItem>)
    ensures SubTotal(a + b) == SubTotal(a) + SubTotal(b)
    decreases |b|
  {
    if |b| == 0 {
      assert a + b == a;
      SubTotalEmpty();
    } else {
      var b' := b[..|b| - 1];
      var x := b[|b| - 1];
      assert b == b' + [x];
      assert a + b == (a + b') + [x];
      SubTotalConcat(a, b');
      SubTotalSnoc(a + b', x);
      SubTotalSnoc(b', x);
    }
  }

  /** Replacing one line changes the subtotal by the difference of the two
      lines' contributions; nothing else moves. */
  lemma SubTotalUpdate(items: seq<CartItem>, k: nat, x: CartItem)
    requires k < |items|
    ensures SubTotal(items[k := x]) == SubTotal(items) - Contribution(items[k]) + Contribution(x)
  {
    var pre, post := items[..k], items[k + 1..];
    assert items == pre + [items[k]] + post;
    assert items[k := x] == pre + [x] + post;
    SubTotalConcat(pre + [items[k]], post);
    SubTotalConcat(pre + [x], post);
    SubTotalSnoc(pre, items[k]);
    SubTotalSnoc(pre, x);
  }

  /** Unchecked lines contribute nothing: a cart with no checked line has
      subtotal 0, whatever its lines' prices. */
  lemma {:induction false} SubTotalNoneChecked(items: seq<CartItem>)
    requires forall j :: 0 <= j < |items| ==> !items[j].isChecked
    ensures SubTotal(items) == 0.0
    decreases |items|
  {
    if |items| > 0 {
      var init := items[..|items| - 1];
      assert items == init + [items[|items| - 1]];
      SubTotalNoneChecked(init);
      SubTotalSnoc(init, items[|items| - 1]);
    }
  }

  /** With every line checked the subtotal is the plain sum of discounted totals. */
  lemma {:induction false} SubTotalAllChecked(items: seq<CartItem>)
    requires forall j :: 0 <= j < |items| ==> items[j].isChecked
    ensures SubTotal(items) == SumDiscounted(items)
    decreases |items|
  {
    if |items| > 0 {
      var init := items[..|items| - 1];
      assert items == init + [items[|items| - 1]];
      SubTotalAllChecked(init);
      SubTotalSnoc(init, items[|items| - 1]);
    }
  }

  // ---------------------------------------------------------------------
  // The total price

  /** The shipping option and the day never change the total. */
  lemma TotalPriceIgnoresShipping(items: seq<CartItem>, coupon: Option<Coupon>,
                                  s1: Option<ShippingOption>, t1: Timestamp,
                                  s2: Option<ShippingOption>, t2: Timestamp)
    ensures TotalPrice(items, s1, coupon, t1) == TotalPrice(items, s2, coupon, t2)
  {
  }

  /** Without a coupon, or with one that is not available, the total is the
      subtotal floored at 0. */
  lemma TotalPriceWithoutCoupon(items: seq<CartItem>, shipping: Option<ShippingOption>,
                                coupon: Option<Coupon>, today: Timestamp)
    requires coupon.None? || !coupon.value.available
    ensures TotalPrice(items, shipping, coupon, today) == Max(SubTotal(items), 0.0)
  {
  }

  /** With an available coupon, a PERCENT coupon scales the subtotal by
      (1 - amount/100) and a FLAT one subtracts its amount, before the floor. */
  lemma TotalPriceWithCoupon(items: seq<CartItem>, shipping: Option<ShippingOption>,
                             c: Coupon, today: Timestamp)
    requires c.available
    ensures c.kind == Percent ==>
      TotalPrice(items, shipping, Some(c), today) == Max(SubTotal(items) * (1.0 - c.amount / 100.0), 0.0)
    ensures c.kind == Flat ==>
      TotalPrice(items, shipping, Some(c), today) == Max(SubTotal(items) - c.amount, 0.0)
  {
    assert CouponAdjusted(SubTotal(items), Some(c)) ==
      if c.kind == Percent then SubTotal(items) * (1.0 - c.amount / 100.0) else SubTotal(items) - c.amount;
  }

  /** A coupon never raises the total when its amount is non-negative and, for
      a PERCENT coupon, at most 100. (A PERCENT coupon above 100 turns a
      negative subtotal into a positive total.) */
  lemma CouponNeverRaisesPrice(items: seq<CartItem>, shipping: Option<ShippingOption>,
                               c: Coupon, today: Timestamp)
    requires c.amount >= 0.0
    requires c.kind == Percent ==> c.amount <= 100.0
    ensures TotalPrice(items, shipping, Some(c), today) <= TotalPrice(items, shipping, None, today)
  {
    var s := SubTotal(items);
    if c.available && c.kind == Percent {
      var f := 1.0 - c.amount / 100.0;
      assert 0.0 <= f <= 1.0;
      if s >= 0.0 {
        assert s * f <= s * 1.0;
      } else {
        assert s * f <= 0.0;
      }
    }
  }

  /** Under the per-line rule a non-negative discount never raises a
      non-negative line total, and no discount leaves it as it is. */
  lemma DiscountNeverRaisesLine(d: Option<Discount>, total: real)
    requires total >= 0.0
    requires d.Some? ==> d.value.amount >= 0.0
    ensures total - DiscountValue(d, total) <= total
    ensures d.None? ==> total - DiscountValue(d, total) == total
  {
    if d.Some? && d.value.kind == Percent {
      assert total * (d.value.amount / 100.0) >= 0.0;
    }
  }
}
