/** The cart slice of the store: one mutable object whose commands each read
    the current state and overwrite some of its fields (the shallow merge of
    `set`). Clock reads become a `now` argument. */
module CartStore {
  import opened CartTypes
  import opened Lookup
  import opened Pricing
  import opened ItemOrder
  import opened CartLines

  /** `coupons.find(c => c.code === code && c.available)` */
  function CouponFor(coupons: seq<Coupon>, code: string): Option<Coupon>
  {
    Find(coupons, (c: Coupon) => c.code == code && c.available)
  }

  /** `shippingOptions.find(c => c.code === code)` */
  function ShippingFor(options: seq<ShippingOption>, code: string): Option<ShippingOption>
  {
    Find(options, (s: ShippingOption) => s.code == code)
  }

  /** `!termsAndAgreement`, where an absent flag counts as false. */
  function ToggledAgreement(t: Option<bool>): Option<bool>
  {
    Some(!(t == Some(true)))
  }

  /** `applyCoupon` attaches the first catalog coupon that has the code and
      is available, and nothing when there is none. */
  lemma CouponForSpec(coupons: seq<Coupon>, code: string)
    ensures var r := CouponFor(coupons, code);
      && (r.None? <==> forall j :: 0 <= j < |coupons| ==> !(coupons[j].code == code && coupons[j].available))
      && (r.Some? ==> r.value.code == code && r.value.available)
      && (r.Some? ==> exists k :: (0 <= k < |coupons| && coupons[k] == r.value &&
            forall j :: 0 <= j < k ==> !(coupons[j].code == code && coupons[j].available)))
  {
  }

  /** An absent flag toggles to true, and from then on two toggles restore it. */
  lemma AgreementToggle(t: Option<bool>)
    ensures t.None? ==> ToggledAgreement(t) == Some(true)
    ensures t.Some? ==> ToggledAgreement(ToggledAgreement(t)) == t
  {
    match t
    case None =>
    case Some(b) =>
      assert ToggledAgreement(t) == Some(!b);
      assert ToggledAgreement(Some(!b)) == Some(b);
  }

  /** The lines `addToCart` leaves are consistent, have unique product ids
      and are in order, whenever the old lines were consistent with unique ids. */
  lemma AddedSortedValid(items: seq<CartItem>, product: Product, count: int, isChecked: bool,
                         catalog: seq<Discount>, now: Timestamp)
    requires AllConsistent(items) && UniqueIds(items)
    ensures var s := SortDesc(AddedItems(items, product, count, isChecked, catalog, now));
      AllConsistent(s) && UniqueIds(s) && SortedDesc(s)
  {
    var pre := AddedItems(items, product, count, isChecked, catalog, now);
    AddedItemsUnique(items, product, count, isChecked, catalog, now);
    AddedItemsConsistent(items, product, count, isChecked, catalog, now);
    SortDescUnique(pre);
    SortDescSorted(pre);
    SortDescMembers(pre);
    var s := SortDesc(pre);
    forall j | 0 <= j < |s| ensures ItemConsistent(s[j]) {
      var m :| 0 <= m < |pre| && pre[m] == s[j];
    }
  }

  /** A product of unit price 10 with discount code `code`. */
  function SampleProduct(code: DiscountCode): Product
  {
    Product("", Some("p1"), "", "", Small, 10.0, [], 0, code, "")
  }

  /** Two units of a 10-priced product whose code has a 10 percent catalog
      discount, added to an empty cart: a line total of 20 discounted to 18,
      which is the subtotal. */
  lemma AddPercentScenario(now: Timestamp)
    ensures var d := Discount("X", 10.0, Percent, true, None, None, None);
      var r := SortDesc(AddedItems([], SampleProduct(Single("X")), 2, true, [d], now));
      |r| == 1 && r[0].total == 20.0 && r[0].discountedTotal == 18.0 && SubTotal(r) == 18.0
  {
    var d := Discount("X", 10.0, Percent, true, None, None, None);
    var p := SampleProduct(Single("X"));
    var line := NewLine(p, 2, true, [d], now);
    assert line.total == 20.0 && line.discountedTotal == 18.0 && line.isChecked by {
      assert StrictCodeMatch(p.discountCode, d.code);
      assert StrictDiscount([d], p.discountCode) == Some(d);
    }
    var pre := AddedItems([], p, 2, true, [d], now);
    assert pre == [line] by {
      assert ItemWithId([], p.id).None?;
    }
    assert SortDesc(pre) == pre by {
      SortDescOfSorted(pre);
    }
    assert SubTotal(pre) == 18.0 by {
      SubTotalSnoc([], line);
      assert [] + [line] == pre;
    }
  }

  /** A FLAT coupon of 10 on a subtotal of 50 gives a total of 40. */
  lemma FlatCouponScenario(items: seq<CartItem>, shipping: Option<ShippingOption>, today: Timestamp)
    requires SubTotal(items) == 50.0
    ensures TotalPrice(items, shipping, Some(Coupon("SAVE10", 10.0, Flat, true, None, None, None, None)), today)
            == 40.0
  {
    TotalPriceWithCoupon(items, shipping, Coupon("SAVE10", 10.0, Flat, true, None, None, None, None), today);
  }

  /** After `applyDiscount` the subtotal can disagree with the lines: a
      checked line of 10 whose product offers "X" drops to 8, while the
      stored subtotal stays at 10. */
  lemma ApplyDiscountStaleSubTotal()
    ensures var item := CartItem(SampleProduct(Many(["X"])), None, 1, 10.0, 10.0, true, 0);
      var d := CreatedDiscount("X", CarriesCode([item], "X"));
      SubTotal([item]) == 10.0 && SubTotal(DiscountItems([item], "X", d)) == 8.0
  {
    var item := CartItem(SampleProduct(Many(["X"])), None, 1, 10.0, 10.0, true, 0);
    assert OffersCode([item][0].product.discountCode, "X") by {
      assert [item][0] == item;
      assert "X" in ["X"];
    }
    assert CarriesCode([item], "X");
    var d := CreatedDiscount("X", true);
    var r := DiscountItems([item], "X", d);
    assert r == [DiscountLine(item, d)];
    assert r[0].discountedTotal == 8.0;
    SubTotalSnoc([], item);
    SubTotalSnoc([], r[0]);
    assert [] + [item] == [item];
    assert [] + [r[0]] == r;
  }

  class CartSlice {
    var cart: Cart
    var discount: seq<Discount>
    var coupons: seq<Coupon>
    var availableProducts: seq<Product>
    var shippingOptions: seq<ShippingOption>
    var totalDiscount: real

    /** What every command keeps: consistent lines, unique product ids, most
        recent line first, and a total price equal to `calculateTotalPrice`
        of the lines and the coupon. */
    ghost predicate Valid()
      reads this
    {
      AllConsistent(cart.items) && UniqueIds(cart.items) && SortedDesc(cart.items) &&
      cart.totalPrice == TotalPrice(cart.items, None, cart.coupon, 0)
    }

    /** The subtotal agrees with the lines. `applyDiscount` is the one command
        that does not recompute it. */
    ghost predicate SubTotalCurrent()
      reads this
    {
      cart.subTotal == SubTotal(cart.items)
    }

    /** The initial state of the slice. */
    constructor ()
      ensures Valid() && SubTotalCurrent()
      ensures cart == EmptyCart && discount == [] && coupons == []
      ensures availableProducts == [] && shippingOptions == [] && totalDiscount == 0.0
    {
      cart := EmptyCart;
      discount := [];
      coupons := [];
      availableProducts := [];
      shippingOptions := [];
      totalDiscount := 0.0;
    }

    /** `initializeStore`: replaces the catalogs; the cart is kept as it is
        whether or not it has lines. */
    method InitializeStore(products: seq<Product>, discounts: seq<Discount>, couponList: seq<Coupon>,
                           shipping: seq<ShippingOption>)
      requires Valid()
      modifies this
      ensures Valid()
      ensures availableProducts == products && discount == discounts
      ensures coupons == couponList && shippingOptions == shipping
      ensures cart == old(cart) && totalDiscount == old(totalDiscount)
    {
      availableProducts := products;
      discount := discounts;
      coupons := couponList;
      shippingOptions := shipping;
    }

    /** `addToCart`: merges into the product's line or appends a new one,
        sorts the lines most recent first, recomputes the subtotal and the
        total, and sets `totalDiscount` to this call's line discount alone. */
    method AddToCart(product: Product, count: int, now: Timestamp, isChecked: bool := true)
      requires Valid()
      modifies this
      ensures Valid() && SubTotalCurrent()
      ensures cart.items == SortDesc(AddedItems(old(cart.items), product, count, isChecked, old(discount), now))
      ensures totalDiscount ==
        MatchedDiscount(AddedItems(old(cart.items), product, count, isChecked, old(discount), now), product.id)
      ensures cart == old(cart).(items := cart.items, subTotal := cart.subTotal, totalPrice := cart.totalPrice)
      ensures discount == old(discount) && coupons == old(coupons)
      ensures availableProducts == old(availableProducts) && shippingOptions == old(shippingOptions)
    {
      var updatedItems, lineDiscount := BuildAddedItems(cart.items, product, count, isChecked, discount, now);
      var sorted := SortedLines(updatedItems);
      assert AllConsistent(sorted) && UniqueIds(sorted) && SortedDesc(sorted) by {
        AddedSortedValid(cart.items, product, count, isChecked, discount, now);
      }
      TotalPriceIgnoresShipping(sorted, cart.coupon, cart.shipping, now, None, 0);
      cart := cart.(items := sorted,
                    totalPrice := TotalPrice(sorted, cart.shipping, cart.coupon, now),
                    subTotal := SubTotal(sorted));
      totalDiscount := lineDiscount;
    }

    /** `updateProductCount`: sets the count of the product's line to exactly
        `count`, recomputes the subtotal and the total, and sets
        `totalDiscount` to the repriced line's discount (0 for an unknown id). */
    method UpdateProductCount(productId: string, count: int, now: Timestamp)
      requires Valid()
      modifies this
      ensures Valid() && SubTotalCurrent()
      ensures cart.items == RecountedItems(old(cart.items), Some(productId), count, old(discount))
      ensures totalDiscount == MatchedDiscount(cart.items, Some(productId))
      ensures cart == old(cart).(items := cart.items, subTotal := cart.subTotal, totalPrice := cart.totalPrice)
      ensures discount == old(discount) && coupons == old(coupons)
      ensures availableProducts == old(availableProducts) && shippingOptions == old(shippingOptions)
    {
      var updatedItems, lineDiscount := RecountMatching(cart.items, Some(productId), count, discount);
      assert AllConsistent(updatedItems) && UniqueIds(updatedItems) && SortedDesc(updatedItems) by {
        SameKeys(cart.items, updatedItems);
        RecountedConsistent(cart.items, Some(productId), count, discount);
      }
      TotalPriceIgnoresShipping(updatedItems, cart.coupon, cart.shipping, now, None, 0);
      cart := cart.(items := updatedItems,
                    totalPrice := TotalPrice(updatedItems, cart.shipping, cart.coupon, now),
                    subTotal := SubTotal(updatedItems));
      totalDiscount := lineDiscount;
    }

    /** `removeFromCart`: drops the product's lines, recomputes the subtotal
        and the total, and subtracts from `totalDiscount` the discount of the
        first line of ANOTHER product (the predicate is inverted). */
    method RemoveFromCart(productId: string, now: Timestamp)
      requires Valid()
      modifies this
      ensures Valid() && SubTotalCurrent()
      ensures cart.items == Without(old(cart.items), Some(productId))
      ensures totalDiscount == old(totalDiscount) - RemovedDiscount(old(cart.items), Some(productId))
      ensures cart == old(cart).(items := cart.items, subTotal := cart.subTotal, totalPrice := cart.totalPrice)
      ensures discount == old(discount) && coupons == old(coupons)
      ensures availableProducts == old(availableProducts) && shippingOptions == old(shippingOptions)
    {
      var discountToRemove := RemovedDiscount(cart.items, Some(productId));
      var updatedItems := Without(cart.items, Some(productId));
      assert AllConsistent(updatedItems) && UniqueIds(updatedItems) && SortedDesc(updatedItems) by {
        WithoutSorted(cart.items, Some(productId));
        WithoutUniqueIds(cart.items, Some(productId));
        WithoutConsistent(cart.items, Some(productId));
      }
      TotalPriceIgnoresShipping(updatedItems, cart.coupon, cart.shipping, now, None, 0);
      cart := cart.(items := updatedItems,
                    totalPrice := TotalPrice(updatedItems, cart.shipping, cart.coupon, now),
                    subTotal := SubTotal(updatedItems));
      totalDiscount := totalDiscount - discountToRemove;
    }

    /** `applyDiscount`: creates a 20 percent discount when some line's product
        lists the code in an array (0 percent and unavailable otherwise),
        appends it to the catalog either way, rewrites the matching lines, and
        recomputes the total but NOT the subtotal. */
    method ApplyDiscount(code: string, now: Timestamp)
      requires Valid()
      modifies this
      ensures Valid()
      ensures discount == old(discount) + [CreatedDiscount(code, CarriesCode(old(cart.items), code))]
      ensures cart.items ==
        DiscountItems(old(cart.items), code, CreatedDiscount(code, CarriesCode(old(cart.items), code)))
      ensures cart.subTotal == old(cart.subTotal)
      ensures cart == old(cart).(items := cart.items, totalPrice := cart.totalPrice)
      ensures coupons == old(coupons) && totalDiscount == old(totalDiscount)
      ensures availableProducts == old(availableProducts) && shippingOptions == old(shippingOptions)
    {
      var isValidDiscount := CarriesCode(cart.items, code);
      var newDiscount := CreatedDiscount(code, isValidDiscount);
      discount := discount + [newDiscount];
      var updatedItems := DiscountItems(cart.items, code, newDiscount);
      DiscountItemsConsistent(cart.items, code, newDiscount);
      SameKeys(cart.items, updatedItems);
      TotalPriceIgnoresShipping(updatedItems, cart.coupon, cart.shipping, now, None, 0);
      cart := cart.(items := updatedItems,
                    totalPrice := TotalPrice(updatedItems, cart.shipping, cart.coupon, now));
    }

    /** `applyCoupon`: attaches the coupon the catalog has for the code (or
        none, dropping any earlier one) and recomputes the total with it. */
    method ApplyCoupon(code: string, now: Timestamp)
      requires Valid()
      modifies this
      ensures Valid()
      ensures cart.coupon == CouponFor(old(coupons), code)
      ensures cart == old(cart).(coupon := cart.coupon, totalPrice := cart.totalPrice)
      ensures discount == old(discount) && coupons == old(coupons) && totalDiscount == old(totalDiscount)
      ensures availableProducts == old(availableProducts) && shippingOptions == old(shippingOptions)
    {
      var coupon := CouponFor(coupons, code);
      TotalPriceIgnoresShipping(cart.items, coupon, cart.shipping, now, None, 0);
      cart := cart.(coupon := coupon, totalPrice := TotalPrice(cart.items, cart.shipping, coupon, now));
    }

    /** `removeCoupon`: detaches the coupon; the total becomes the subtotal of
        the lines floored at 0. */
    method RemoveCoupon(now: Timestamp)
      requires Valid()
      modifies this
      ensures Valid()
      ensures cart.coupon.None? && cart.totalPrice == Max(SubTotal(cart.items), 0.0)
      ensures cart == old(cart).(coupon := None, totalPrice := cart.totalPrice)
      ensures discount == old(discount) && coupons == old(coupons) && totalDiscount == old(totalDiscount)
      ensures availableProducts == old(availableProducts) && shippingOptions == old(shippingOptions)
    {
      TotalPriceIgnoresShipping(cart.items, None, cart.shipping, now, None, 0);
      TotalPriceWithoutCoupon(cart.items, cart.shipping, None, now);
      cart := cart.(coupon := None, totalPrice := TotalPrice(cart.items, cart.shipping, None, now));
    }

    /** `setShipping`: attaches the catalog option with the given code; with no
        such option the state is unchanged. Because the total ignores shipping,
        the total price never moves. */
    method SetShipping(option: ShippingOption, now: Timestamp)
      requires Valid()
      modifies this
      ensures Valid()
      ensures var found := ShippingFor(old(shippingOptions), option.code);
        if found.Some? then cart == old(cart).(shipping := found) else cart == old(cart)
      ensures cart.totalPrice == old(cart.totalPrice)
      ensures discount == old(discount) && coupons == old(coupons) && totalDiscount == old(totalDiscount)
      ensures availableProducts == old(availableProducts) && shippingOptions == old(shippingOptions)
    {
      var shipping := ShippingFor(shippingOptions, option.code);
      if shipping.Some? {
        TotalPriceIgnoresShipping(cart.items, cart.coupon, shipping, now, None, 0);
        cart := cart.(shipping := shipping, totalPrice := TotalPrice(cart.items, shipping, cart.coupon, now));
      }
    }

    /** `clearCart`: installs an empty cart and empties the discount and coupon
        catalogs; products, shipping options and `totalDiscount` stay. */
    method ClearCart()
      requires Valid()
      modifies this
      ensures Valid() && SubTotalCurrent()
      ensures cart == EmptyCart && discount == [] && coupons == []
      ensures totalDiscount == old(totalDiscount)
      ensures availableProducts == old(availableProducts) && shippingOptions == old(shippingOptions)
    {
      cart := EmptyCart;
      discount := [];
      coupons := [];
    }

    /** `updateProductCheck`: flips the product's check mark and recomputes
        the subtotal and the total. */
    method UpdateProductCheck(productId: string, now: Timestamp)
      requires Valid()
      modifies this
      ensures Valid() && SubTotalCurrent()
      ensures cart.items == ToggleChecked(old(cart.items), Some(productId))
      ensures cart == old(cart).(items := cart.items, subTotal := cart.subTotal, totalPrice := cart.totalPrice)
      ensures discount == old(discount) && coupons == old(coupons) && totalDiscount == old(totalDiscount)
      ensures availableProducts == old(availableProducts) && shippingOptions == old(shippingOptions)
    {
      var updatedItems := ToggleChecked(cart.items, Some(productId));
      SameKeys(cart.items, updatedItems);
      TotalPriceIgnoresShipping(updatedItems, cart.coupon, cart.shipping, now, None, 0);
      cart := cart.(items := updatedItems,
                    totalPrice := TotalPrice(updatedItems, cart.shipping, cart.coupon, now),
                    subTotal := SubTotal(updatedItems));
    }

    /** `checkAllItem`: gives every line the check mark `check` and recomputes
        the subtotal and the total. */
    method CheckAllItem(check: bool, now: Timestamp)
      requires Valid()
      modifies this
      ensures Valid() && SubTotalCurrent()
      ensures cart.items == SetAllChecked(old(cart.items), check)
      ensures cart == old(cart).(items := cart.items, subTotal := cart.subTotal, totalPrice := cart.totalPrice)
      ensures discount == old(discount) && coupons == old(coupons) && totalDiscount == old(totalDiscount)
      ensures availableProducts == old(availableProducts) && shippingOptions == old(shippingOptions)
    {
      var updatedItems := SetAllChecked(cart.items, check);
      SameKeys(cart.items, updatedItems);
      TotalPriceIgnoresShipping(updatedItems, cart.coupon, cart.shipping, now, None, 0);
      cart := cart.(items := updatedItems,
                    totalPrice := TotalPrice(updatedItems, cart.shipping, cart.coupon, now),
                    subTotal := SubTotal(updatedItems));
    }

    /** `setAgreement`: toggles the terms flag; nothing is recomputed. */
    method SetAgreement()
      requires Valid()
      modifies this
      ensures Valid()
      ensures cart == old(cart).(termsAndAgreement := ToggledAgreement(old(cart.termsAndAgreement)))
      ensures discount == old(discount) && coupons == old(coupons) && totalDiscount == old(totalDiscount)
      ensures availableProducts == old(availableProducts) && shippingOptions == old(shippingOptions)
    {
      cart := cart.(termsAndAgreement := ToggledAgreement(cart.termsAndAgreement));
    }
  }
}
