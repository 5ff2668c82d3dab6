/** What the store's commands do to the list of cart lines: the callbacks of
    their `map`, `filter`, `find` and `some` calls. The two `map`s that also
    accumulate `totalDiscount` are methods with loops; the others are
    functions. */
module CartLines {
  import opened CartTypes
  import opened Lookup
  import opened Pricing
  import opened ItemOrder

  // ---------------------------------------------------------------------
  // Discount codes

  /** `product.discountCode === d.code`: only a single code can be strictly
      equal to a string. */
  predicate StrictCodeMatch(dc: DiscountCode, code: string)
  {
    dc == Single(code)
  }

  /** `Array.prototype.join(",")`. */
  function Join(parts: seq<string>): string
  {
    if |parts| == 0 then ""
    else if |parts| == 1 then parts[0]
    else parts[0] + "," + Join(parts[1..])
  }

  /** `product.discountCode == d.code`: loose equality turns an array into
      its comma-joined string before comparing. */
  predicate LooseCodeMatch(dc: DiscountCode, code: string)
  {
    match dc
    case Single(s) => s == code
    case Many(cs) => Join(cs) == code
  }

  /** `Array.isArray(discountCode) && discountCode.includes(code)`. */
  predicate OffersCode(dc: DiscountCode, code: string)
  {
    dc.Many? && code in dc.codes
  }

  /** The discount `addToCart` finds for a product: the first catalog entry
      whose code is strictly equal. Availability is not consulted. */
  function StrictDiscount(catalog: seq<Discount>, dc: DiscountCode): Option<Discount>
  {
    Find(catalog, (d: Discount) => StrictCodeMatch(dc, d.code))
  }

  /** The discount `updateProductCount` finds: the first loosely equal code. */
  function LooseDiscount(catalog: seq<Discount>, dc: DiscountCode): Option<Discount>
  {
    Find(catalog, (d: Discount) => LooseCodeMatch(dc, d.code))
  }

  /** Strict equality implies loose equality, but a one-code array is loosely
      equal to that code and never strictly equal to it; a single code is
      never offered in the array sense of `applyDiscount`. */
  lemma CodeMatchQuirk(dc: DiscountCode, c: string)
    ensures StrictCodeMatch(dc, c) ==> LooseCodeMatch(dc, c)
    ensures LooseCodeMatch(Many([c]), c) && !StrictCodeMatch(Many([c]), c)
    ensures !OffersCode(Single(c), c)
  {
  }

  // ---------------------------------------------------------------------
  // Pricing one line

  /** The line `addToCart` and `updateProductCount` build: `count` units at the
      product's unit price, less the discount `d` under the per-line rule. */
  function PricedLine(product: Product, count: int, isChecked: bool, d: Option<Discount>,
                      time: Timestamp): CartItem
  {
    var total := product.amount * count as real;
    CartItem(product, d, count, total, total - DiscountValue(d, total), isChecked, time)
  }

  /** A line whose total is the unit price times the count and whose
      discounted total is the total less its own discount. */
  ghost predicate ItemConsistent(item: CartItem)
  {
    item.total == item.product.amount * item.count as real &&
    item.discountedTotal == item.total - DiscountValue(item.discount, item.total)
  }

  /** Every line priced by the per-line rule is consistent. */
  lemma PricedLineConsistent(product: Product, count: int, isChecked: bool, d: Option<Discount>,
                             time: Timestamp)
    ensures ItemConsistent(PricedLine(product, count, isChecked, d, time))
  {
  }

  ghost predicate AllConsistent(items: seq<CartItem>)
  {
    forall j :: 0 <= j < |items| ==> ItemConsistent(items[j])
  }

  /** `addToCart` on the line already holding the product: the count grows
      by `count`, the line is repriced with the stored product, checked as
      requested and stamped `now`. */
  function AddLine(item: CartItem, count: int, isChecked: bool, catalog: seq<Discount>,
                   now: Timestamp): CartItem
  {
    PricedLine(item.product, item.count + count, isChecked,
               StrictDiscount(catalog, item.product.discountCode), now)
  }

  /** `addToCart`'s new line for a product not yet in the cart. */
  function NewLine(product: Product, count: int, isChecked: bool, catalog: seq<Discount>,
                   now: Timestamp): CartItem
  {
    PricedLine(product, count, isChecked, StrictDiscount(catalog, product.discountCode), now)
  }

  /** `updateProductCount` on a matching line: the count becomes `count`;
      check mark and timestamp stay. */
  function RecountLine(item: CartItem, count: int, catalog: seq<Discount>): CartItem
  {
    PricedLine(item.product, count, item.isChecked,
               LooseDiscount(catalog, item.product.discountCode), item.addedDateTime)
  }

  // ---------------------------------------------------------------------
  // addToCart and updateProductCount

  /** `items.find(item => item.product.id === id)` */
  function ItemWithId(items: seq<CartItem>, id: Option<string>): Option<CartItem>
  {
    Find(items, (x: CartItem) => x.product.id == id)
  }

  /** The `map` of `addToCart` when the product is already in the cart. */
  function Incremented(items: seq<CartItem>, id: Option<string>, count: int, isChecked: bool,
                       catalog: seq<Discount>, now: Timestamp): seq<CartItem>
  {
    seq(|items|, i requires 0 <= i < |items| =>
      if items[i].product.id == id then AddLine(items[i], count, isChecked, catalog, now) else items[i])
  }

  /** The lines `addToCart` builds before sorting them. */
  function AddedItems(items: seq<CartItem>, product: Product, count: int, isChecked: bool,
                      catalog: seq<Discount>, now: Timestamp): seq<CartItem>
  {
    if ItemWithId(items, product.id).Some? then Incremented(items, product.id, count, isChecked, catalog, now)
    else items + [NewLine(product, count, isChecked, catalog, now)]
  }

  /** The `map` of `updateProductCount`. */
  function RecountedItems(items: seq<CartItem>, id: Option<string>, count: int,
                          catalog: seq<Discount>): seq<CartItem>
  {
    seq(|items|, i requires 0 <= i < |items| =>
      if items[i].product.id == id then RecountLine(items[i], count, catalog) else items[i])
  }

  /** The sum of the line discounts of the lines holding product `id`: what the
      `totalDiscount` accumulator of `addToCart` and `updateProductCount` ends at. */
  function MatchedDiscount(items: seq<CartItem>, id: Option<string>): real
  {
    if |items| == 0 then 0.0
    else
      var last := items[|items| - 1];
      MatchedDiscount(items[..|items| - 1], id) +
        (if last.product.id == id then DiscountValue(last.discount, last.total) else 0.0)
  }

  /** The `map` of `addToCart` over a cart that holds the product, with its
      running `totalDiscount += ...`. */
  method IncrementMatching(items: seq<CartItem>, id: Option<string>, count: int, isChecked: bool,
                           catalog: seq<Discount>, now: Timestamp)
    returns (updated: seq<CartItem>, totalDiscount: real)
    ensures updated == Incremented(items, id, count, isChecked, catalog, now)
    ensures totalDiscount == MatchedDiscount(updated, id)
  {
    updated, totalDiscount := [], 0.0;
    ghost var full := Incremented(items, id, count, isChecked, catalog, now);
    var i := 0;
    while i < |items|
      invariant 0 <= i <= |items|
      invariant updated == full[..i]
      invariant totalDiscount == MatchedDiscount(updated, id)
    {
      var item := items[i];
      var availableDiscount := StrictDiscount(catalog, item.product.discountCode);
      var line := item;
      if item.product.id == id {
        var total := item.product.amount * (item.count + count) as real;
        totalDiscount := totalDiscount + DiscountValue(availableDiscount, total);
        line := item.(count := item.count + count, total := total,
                      discountedTotal := total - DiscountValue(availableDiscount, total),
                      isChecked := isChecked, discount := availableDiscount, addedDateTime := now);
        assert line == AddLine(item, count, isChecked, catalog, now);
      }
      assert line == full[i];
      assert full[..i + 1] == full[..i] + [line];
      assert (updated + [line])[..|updated|] == updated;
      updated := updated + [line];
      i := i + 1;
    }
    assert full[..|items|] == full;
  }

  /** The `map` of `updateProductCount`, with its running `totalDiscount += ...`. */
  method RecountMatching(items: seq<CartItem>, id: Option<string>, count: int, catalog: seq<Discount>)
    returns (updated: seq<CartItem>, totalDiscount: real)
    ensures updated == RecountedItems(items, id, count, catalog)
    ensures totalDiscount == MatchedDiscount(updated, id)
  {
    updated, totalDiscount := [], 0.0;
    ghost var full := RecountedItems(items, id, count, catalog);
    var i := 0;
    while i < |items|
      invariant 0 <= i <= |items|
      invariant updated == full[..i]
      invariant totalDiscount == MatchedDiscount(updated, id)
    {
      var item := items[i];
      var availableDiscount := LooseDiscount(catalog, item.product.discountCode);
      var line := item;
      if item.product.id == id {
        var total := item.product.amount * count as real;
        totalDiscount := totalDiscount + DiscountValue(availableDiscount, total);
        line := item.(count := count, total := total,
                      discountedTotal := total - DiscountValue(availableDiscount, total),
                      discount := availableDiscount);
        assert line == RecountLine(item, count, catalog);
      }
      assert line == full[i];
      assert full[..i + 1] == full[..i] + [line];
      assert (updated + [line])[..|updated|] == updated;
      updated := updated + [line];
      i := i + 1;
    }
    assert full[..|items|] == full;
  }

  /** The lines of `addToCart` before the sort, with its `totalDiscount`:
      the product's line merged when it is there, else one new line appended. */
  method BuildAddedItems(items: seq<CartItem>, product: Product, count: int, isChecked: bool,
                         catalog: seq<Discount>, now: Timestamp)
    returns (updatedItems: seq<CartItem>, totalDiscount: real)
    ensures updatedItems == AddedItems(items, product, count, isChecked, catalog, now)
    ensures totalDiscount == MatchedDiscount(updatedItems, product.id)
  {
    var existingItem := ItemWithId(items, product.id);
    if existingItem.Some? {
      updatedItems, totalDiscount := IncrementMatching(items, product.id, count, isChecked, catalog, now);
    } else {
      var availableDiscount := StrictDiscount(catalog, product.discountCode);
      var total := product.amount * count as real;
      totalDiscount := DiscountValue(availableDiscount, total);
      var line := CartItem(product, availableDiscount, count, total,
                           total - DiscountValue(availableDiscount, total), isChecked, now);
      updatedItems := items + [line];
      MatchedDiscountNone(items, product.id);
      assert updatedItems[..|items|] == items;
      assert line == NewLine(product, count, isChecked, catalog, now);
    }
  }

  /** When the product is in the cart, `addToCart` keeps the number of lines,
      raises that line's count by `count`, reprices it from the stored unit
      price with the strictly matching catalog discount, and leaves every
      other line as it was. */
  lemma AddExisting(items: seq<CartItem>, product: Product, count: int, isChecked: bool,
                    catalog: seq<Discount>, now: Timestamp, k: nat)
    requires k < |items| && items[k].product.id == product.id
    ensures var r := AddedItems(items, product, count, isChecked, catalog, now);
      && |r| == |items|
      && r[k].product == items[k].product
      && r[k].count == items[k].count + count
      && r[k].total == items[k].product.amount * (items[k].count + count) as real
      && r[k].discount == StrictDiscount(catalog, items[k].product.discountCode)
      && r[k].discountedTotal == r[k].total - DiscountValue(r[k].discount, r[k].total)
      && r[k].isChecked == isChecked && r[k].addedDateTime == now
      && forall j :: 0 <= j < |items| && items[j].product.id != product.id ==> r[j] == items[j]
  {
  }

  /** When the product is not in the cart, `addToCart` appends exactly one
      line, of `count` units at the product's price. */
  lemma AddNew(items: seq<CartItem>, product: Product, count: int, isChecked: bool,
               catalog: seq<Discount>, now: Timestamp)
    requires forall j :: 0 <= j < |items| ==> items[j].product.id != product.id
    ensures var r := AddedItems(items, product, count, isChecked, catalog, now);
      && |r| == |items| + 1 && r[..|items|] == items
      && r[|items|].product == product && r[|items|].count == count
      && r[|items|].discount == StrictDiscount(catalog, product.discountCode)
      && r[|items|].total == product.amount * count as real
      && r[|items|].discountedTotal == r[|items|].total - DiscountValue(r[|items|].discount, r[|items|].total)
      && r[|items|].isChecked == isChecked && r[|items|].addedDateTime == now
  {
    assert ItemWithId(items, product.id).None?;
  }

  /** `addToCart` keeps product ids unique, and afterwards exactly the ids of
      before plus the product's are present. */
  lemma AddedItemsUnique(items: seq<CartItem>, product: Product, count: int, isChecked: bool,
                         catalog: seq<Discount>, now: Timestamp)
    requires UniqueIds(items)
    ensures UniqueIds(AddedItems(items, product, count, isChecked, catalog, now))
    ensures var r := AddedItems(items, product, count, isChecked, catalog, now);
      (exists j :: 0 <= j < |r| && r[j].product.id == product.id) &&
      forall j :: 0 <= j < |r| && r[j].product.id != product.id ==> r[j] in items
  {
    var r := AddedItems(items, product, count, isChecked, catalog, now);
    var found := ItemWithId(items, product.id);
    if found.Some? {
      var k :| 0 <= k < |items| && items[k] == found.value && items[k].product.id == product.id;
      assert r[k].product.id == product.id;
    } else {
      assert r[|items|].product.id == product.id;
    }
  }

  /** Every line `addToCart` produces is consistent if the old ones were. */
  lemma AddedItemsConsistent(items: seq<CartItem>, product: Product, count: int, isChecked: bool,
                             catalog: seq<Discount>, now: Timestamp)
    requires AllConsistent(items)
    ensures AllConsistent(AddedItems(items, product, count, isChecked, catalog, now))
  {
    var r := AddedItems(items, product, count, isChecked, catalog, now);
    if ItemWithId(items, product.id).Some? {
      forall j | 0 <= j < |r| ensures ItemConsistent(r[j]) {
        if items[j].product.id == product.id {
          PricedLineConsistent(items[j].product, items[j].count + count, isChecked,
                               StrictDiscount(catalog, items[j].product.discountCode), now);
        } else {
          assert r[j] == items[j];
        }
      }
    } else {
      PricedLineConsistent(product, count, isChecked, StrictDiscount(catalog, product.discountCode), now);
      assert r == items + [NewLine(product, count, isChecked, catalog, now)];
      forall j | 0 <= j < |r| ensures ItemConsistent(r[j]) {
        if j < |items| {
          assert r[j] == items[j];
        }
      }
    }
  }

  /** `updateProductCount` sets the count of every line holding the product to
      exactly `count`, reprices it with the loosely matching catalog discount,
      and leaves the other lines as they were; with an unknown id nothing changes. */
  lemma RecountSetsCount(items: seq<CartItem>, id: Option<string>, count: int, catalog: seq<Discount>)
    ensures var r := RecountedItems(items, id, count, catalog);
      && |r| == |items|
      && (forall j :: 0 <= j < |items| && items[j].product.id == id ==>
            r[j].count == count && r[j].total == items[j].product.amount * count as real &&
            r[j].discount == LooseDiscount(catalog, items[j].product.discountCode) &&
            r[j].discountedTotal == r[j].total - DiscountValue(r[j].discount, r[j].total) &&
            r[j].isChecked == items[j].isChecked && r[j].addedDateTime == items[j].addedDateTime &&
            r[j].product == items[j].product)
      && (forall j :: 0 <= j < |items| && items[j].product.id != id ==> r[j] == items[j])
      && ((forall j :: 0 <= j < |items| ==> items[j].product.id != id) ==> r == items)
  {
  }

  /** Every line `updateProductCount` produces is consistent if the old ones were. */
  lemma RecountedConsistent(items: seq<CartItem>, id: Option<string>, count: int, catalog: seq<Discount>)
    requires AllConsistent(items)
    ensures AllConsistent(RecountedItems(items, id, count, catalog))
  {
    var r := RecountedItems(items, id, count, catalog);
    forall j | 0 <= j < |r| ensures ItemConsistent(r[j]) {
      if items[j].product.id == id {
        PricedLineConsistent(items[j].product, count, items[j].isChecked,
                             LooseDiscount(catalog, items[j].product.discountCode), items[j].addedDateTime);
      } else {
        assert r[j] == items[j];
      }
    }
  }

  /** With unique ids, the accumulated discount is the one matching line's
      discount: the previous `totalDiscount` plays no part. */
  lemma {:induction false} MatchedDiscountUnique(items: seq<CartItem>, id: Option<string>, k: nat)
    requires UniqueIds(items)
    requires k < |items| && items[k].product.id == id
    ensures MatchedDiscount(items, id) == DiscountValue(items[k].discount, items[k].total)
    decreases |items|
  {
    var n := |items| - 1;
    var init := items[..n];
    assert UniqueIds(init);
    if k == n {
      MatchedDiscountNone(init, id);
    } else {
      MatchedDiscountUnique(init, id, k);
    }
  }

  /** No line holding the product: the accumulated discount is 0. */
  lemma {:induction false} MatchedDiscountNone(items: seq<CartItem>, id: Option<string>)
    requires forall j :: 0 <= j < |items| ==> items[j].product.id != id
    ensures MatchedDiscount(items, id) == 0.0
    decreases |items|
  {
    if |items| > 0 {
      MatchedDiscountNone(items[..|items| - 1], id);
    }
  }

  // ---------------------------------------------------------------------
  // removeFromCart

  /** `items.filter(item => item.product.id !== id)` */
  function Without(items: seq<CartItem>, id: Option<string>): (r: seq<CartItem>)
    ensures |r| <= |items|
    ensures forall j :: 0 <= j < |r| ==> r[j].product.id != id
  {
    if |items| == 0 then []
    else
      var last := items[|items| - 1];
      Without(items[..|items| - 1], id) + (if last.product.id != id then [last] else [])
  }

  /** The filter keeps exactly the lines of other products. */
  lemma {:induction false} WithoutMembers(items: seq<CartItem>, id: Option<string>)
    ensures forall x :: x in Without(items, id) <==> x in items && x.product.id != id
    decreases |items|
  {
    if |items| > 0 {
      var init, last := items[..|items| - 1], items[|items| - 1];
      WithoutMembers(init, id);
      assert items == init + [last];
    }
  }

  lemma {:induction false} WithoutConcat(a: seq<CartItem>, b: seq<CartItem>, id: Option<string>)
    ensures Without(a + b, id) == Without(a, id) + Without(b, id)
    decreases |b|
  {
    if |b| == 0 {
      assert a + b == a;
    } else {
      var b' := b[..|b| - 1];
      assert (a + b)[..|a + b| - 1] == a + b';
      WithoutConcat(a, b', id);
    }
  }

  lemma {:induction false} WithoutNoMatch(items: seq<CartItem>, id: Option<string>)
    requires forall j :: 0 <= j < |items| ==> items[j].product.id != id
    ensures Without(items, id) == items
    decreases |items|
  {
    if |items| > 0 {
      WithoutNoMatch(items[..|items| - 1], id);
      assert items == items[..|items| - 1] + [items[|items| - 1]];
    }
  }

  /** With unique ids, removing the product drops exactly its line and keeps
      the others in their order. */
  lemma WithoutUnique(items: seq<CartItem>, id: Option<string>, k: nat)
    requires UniqueIds(items)
    requires k < |items| && items[k].product.id == id
    ensures Without(items, id) == items[..k] + items[k + 1..]
  {
    var pre, post := items[..k], items[k + 1..];
    assert items == pre + [items[k]] + post;
    assert Without(pre, id) == pre by {
      forall j | 0 <= j < |pre| ensures pre[j].product.id != id {
        assert pre[j] == items[j];
      }
      WithoutNoMatch(pre, id);
    }
    assert Without(post, id) == post by {
      forall j | 0 <= j < |post| ensures post[j].product.id != id {
        assert post[j] == items[k + 1 + j];
      }
      WithoutNoMatch(post, id);
    }
    assert Without(pre + [items[k]], id) == pre by {
      WithoutConcat(pre, [items[k]], id);
      assert Without([items[k]], id) == [];
    }
    WithoutConcat(pre + [items[k]], post, id);
  }

  /** Filtering keeps the lines in order. */
  lemma {:induction false} WithoutSorted(items: seq<CartItem>, id: Option<string>)
    requires SortedDesc(items)
    ensures SortedDesc(Without(items, id))
    decreases |items|
  {
    if |items| > 0 {
      var init, last := items[..|items| - 1], items[|items| - 1];
      assert SortedDesc(init);
      WithoutSorted(init, id);
      if last.product.id != id {
        var w := Without(init, id);
        WithoutMembers(init, id);
        forall j | 0 <= j < |w| ensures w[j].addedDateTime >= last.addedDateTime {
          assert w[j] in init;
          var m :| 0 <= m < |init| && init[m] == w[j];
          assert items[m] == init[m];
        }
      }
    }
  }

  /** Filtering keeps product ids unique. */
  lemma {:induction false} WithoutUniqueIds(items: seq<CartItem>, id: Option<string>)
    requires UniqueIds(items)
    ensures UniqueIds(Without(items, id))
    decreases |items|
  {
    if |items| > 0 {
      var init, last := items[..|items| - 1], items[|items| - 1];
      assert UniqueIds(init);
      WithoutUniqueIds(init, id);
      if last.product.id != id {
        var w := Without(init, id);
        WithoutMembers(init, id);
        forall j | 0 <= j < |w| ensures w[j].product.id != last.product.id {
          assert w[j] in init;
          var m :| 0 <= m < |init| && init[m] == w[j];
          assert items[m] == init[m];
        }
      }
    }
  }

  /** Filtering keeps every line consistent. */
  lemma {:induction false} WithoutConsistent(items: seq<CartItem>, id: Option<string>)
    requires AllConsistent(items)
    ensures AllConsistent(Without(items, id))
    decreases |items|
  {
    if |items| > 0 {
      var init, last := items[..|items| - 1], items[|items| - 1];
      assert ItemConsistent(last);
      WithoutConsistent(init, id);
    }
  }

  /** `items.find(item => item.product.id !== id)`: the first line that does
      NOT hold the product, which `removeFromCart` takes as the line to remove. */
  function FirstOtherItem(items: seq<CartItem>, id: Option<string>): Option<CartItem>
  {
    Find(items, (x: CartItem) => x.product.id != id)
  }

  /** The discount `removeFromCart` subtracts from `totalDiscount`. */
  function RemovedDiscount(items: seq<CartItem>, id: Option<string>): real
  {
    match FirstOtherItem(items, id)
    case None => 0.0
    case Some(x) => DiscountValue(x.discount, x.total)
  }

  /** The inverted predicate: when the first line is another product's, its
      discount is subtracted, and that line stays in the cart. */
  lemma RemovedDiscountInverted(items: seq<CartItem>, id: Option<string>)
    requires |items| > 0 && items[0].product.id != id
    ensures RemovedDiscount(items, id) == DiscountValue(items[0].discount, items[0].total)
    ensures items[0] in Without(items, id)
  {
    WithoutMembers(items, id);
  }

  /** When every line holds the product (removing the only line, say),
      nothing is subtracted, however large the removed line's discount. */
  lemma RemovedDiscountOnlyTarget(items: seq<CartItem>, id: Option<string>)
    requires forall j :: 0 <= j < |items| ==> items[j].product.id == id
    ensures RemovedDiscount(items, id) == 0.0
    ensures Without(items, id) == []
  {
    WithoutMembers(items, id);
    var w := Without(items, id);
    assert forall x :: x in w ==> x in items && x.product.id != id;
    assert forall x :: x in items ==> x.product.id == id;
    assert forall x :: x !in w;
  }

  /** The line whose discount is subtracted is never a removed one. */
  lemma RemovedDiscountNeverFromRemoved(items: seq<CartItem>, id: Option<string>)
    ensures FirstOtherItem(items, id).Some? ==>
      FirstOtherItem(items, id).value in Without(items, id)
  {
    WithoutMembers(items, id);
  }

  // ---------------------------------------------------------------------
  // updateProductCheck and checkAllItem

  /** The `map` of `updateProductCheck`: flips the check mark of the lines
      holding the product. */
  function ToggleChecked(items: seq<CartItem>, id: Option<string>): seq<CartItem>
  {
    seq(|items|, i requires 0 <= i < |items| =>
      if items[i].product.id == id then items[i].(isChecked := !items[i].isChecked) else items[i])
  }

  /** The `map` of `checkAllItem`. */
  function SetAllChecked(items: seq<CartItem>, check: bool): seq<CartItem>
  {
    seq(|items|, i requires 0 <= i < |items| => items[i].(isChecked := check))
  }

  /** Toggling an id no line holds changes nothing. */
  lemma ToggleUnknown(items: seq<CartItem>, id: Option<string>)
    requires forall j :: 0 <= j < |items| ==> items[j].product.id != id
    ensures ToggleChecked(items, id) == items
  {
  }

  /** Toggling twice restores every check mark. */
  lemma ToggleTwice(items: seq<CartItem>, id: Option<string>)
    ensures ToggleChecked(ToggleChecked(items, id), id) == items
  {
    var r := ToggleChecked(ToggleChecked(items, id), id);
    assert forall j :: 0 <= j < |items| ==> r[j] == items[j];
  }

  /** With unique ids, toggling a line moves the subtotal by exactly that
      line's discounted total: down when it was checked, up when it was not. */
  lemma ToggleSubTotal(items: seq<CartItem>, id: Option<string>, k: nat)
    requires UniqueIds(items)
    requires k < |items| && items[k].product.id == id
    ensures SubTotal(ToggleChecked(items, id)) ==
      if items[k].isChecked then SubTotal(items) - items[k].discountedTotal
      else SubTotal(items) + items[k].discountedTotal
  {
    var x := items[k].(isChecked := !items[k].isChecked);
    assert ToggleChecked(items, id) == items[k := x];
    SubTotalUpdate(items, k, x);
  }

  /** `checkAllItem(b)` leaves every line with check mark `b`, and doing it
      twice is the same as doing it once. */
  lemma SetAllCheckedIdempotent(items: seq<CartItem>, check: bool)
    ensures forall j :: 0 <= j < |items| ==> SetAllChecked(items, check)[j].isChecked == check
    ensures SetAllChecked(SetAllChecked(items, check), check) == SetAllChecked(items, check)
  {
  }

  /** Unchecking everything makes the subtotal 0. */
  lemma UncheckAllSubTotal(items: seq<CartItem>)
    ensures SubTotal(SetAllChecked(items, false)) == 0.0
  {
    SubTotalNoneChecked(SetAllChecked(items, false));
  }

  /** A map that keeps every line's product id and timestamp keeps the order
      and the uniqueness of ids. */
  lemma SameKeys(items: seq<CartItem>, r: seq<CartItem>)
    requires |r| == |items|
    requires forall j :: 0 <= j < |items| ==>
      r[j].product.id == items[j].product.id && r[j].addedDateTime == items[j].addedDateTime
    ensures SortedDesc(items) ==> SortedDesc(r)
    ensures UniqueIds(items) ==> UniqueIds(r)
  {
  }

  // ---------------------------------------------------------------------
  // applyDiscount

  /** `items.some(...)`: some line's product lists `code` in an array of codes. */
  predicate CarriesCode(items: seq<CartItem>, code: string)
  {
    exists j :: 0 <= j < |items| && OffersCode(items[j].product.discountCode, code)
  }

  /** The discount `applyDiscount` creates: a fixed 20 percent when valid,
      0 percent and unavailable otherwise. */
  function CreatedDiscount(code: string, valid: bool): Discount
  {
    if valid then Discount(code, 20.0, Percent, true, None, None, None)
    else Discount(code, 0.0, Percent, false, None, None, None)
  }

  /** A line `applyDiscount` matches: its discounted total is recomputed from
      the unit price, whatever discount it had. */
  function DiscountLine(item: CartItem, d: Discount): CartItem
  {
    var discountedPrice := item.product.amount * (1.0 - d.amount / 100.0);
    item.(discount := Some(d), discountedTotal := discountedPrice * item.count as real)
  }

  /** The `map` of `applyDiscount`. */
  function DiscountItems(items: seq<CartItem>, code: string, d: Discount): seq<CartItem>
  {
    seq(|items|, i requires 0 <= i < |items| =>
      if OffersCode(items[i].product.discountCode, code) then DiscountLine(items[i], d) else items[i])
  }

  /** A valid code takes 20 percent off each matching line, computed from the
      unit price; an invalid one changes no line; other lines never change. */
  lemma DiscountItemsEffect(items: seq<CartItem>, code: string)
    requires AllConsistent(items)
    ensures var d := CreatedDiscount(code, CarriesCode(items, code));
      var r := DiscountItems(items, code, d);
      && |r| == |items|
      && (forall j :: 0 <= j < |items| && OffersCode(items[j].product.discountCode, code) ==>
            r[j].discount == Some(d) && d.amount == 20.0 &&
            r[j].discountedTotal == items[j].total * 0.8 && r[j].total == items[j].total &&
            r[j].product == items[j].product && r[j].count == items[j].count &&
            r[j].isChecked == items[j].isChecked && r[j].addedDateTime == items[j].addedDateTime)
      && (forall j :: 0 <= j < |items| && !OffersCode(items[j].product.discountCode, code) ==>
            r[j] == items[j])
      && (!CarriesCode(items, code) ==> r == items)
  {
    var d := CreatedDiscount(code, CarriesCode(items, code));
    forall j | 0 <= j < |items| && OffersCode(items[j].product.discountCode, code)
      ensures DiscountItems(items, code, d)[j].discountedTotal == items[j].total * 0.8
    {
      var a, c := items[j].product.amount, items[j].count as real;
      assert (a * (1.0 - 20.0 / 100.0)) * c == (a * c) * 0.8;
    }
  }

  /** A line `applyDiscount` rewrites is consistent again, with the new
      PERCENT discount as its discount. */
  lemma DiscountLineConsistent(item: CartItem, d: Discount)
    requires ItemConsistent(item) && d.kind == Percent
    ensures ItemConsistent(DiscountLine(item, d))
  {
    var a, c, p := item.product.amount, item.count as real, d.amount / 100.0;
    assert (a * (1.0 - p)) * c == a * c - (a * c) * p;
  }

  lemma DiscountItemsConsistent(items: seq<CartItem>, code: string, d: Discount)
    requires AllConsistent(items) && d.kind == Percent
    ensures AllConsistent(DiscountItems(items, code, d))
  {
    forall j | 0 <= j < |items| ensures ItemConsistent(DiscountItems(items, code, d)[j]) {
      if OffersCode(items[j].product.discountCode, code) {
        DiscountLineConsistent(items[j], d);
      }
    }
  }

  /** A cart whose products all carry a single code never validates a code. */
  lemma SingleCodesNeverMatch(items: seq<CartItem>, code: string)
    requires forall j :: 0 <= j < |items| ==> items[j].product.discountCode.Single?
    ensures !CarriesCode(items, code)
    ensures DiscountItems(items, code, CreatedDiscount(code, false)) == items
  {
  }
}
