/** The shapes of the cart store's data: products, discounts, coupons,
    shipping options, cart lines and the cart itself. Money is an exact
    `real`; a JavaScript `Date` is a `Timestamp` (milliseconds, as a `nat`). */
module CartTypes {

  /** An optional field or the result of a lookup that may find nothing
      (`undefined` / `null` in the store). */
  datatype Option<T> = None | Some(value: T)

  type Timestamp = nat

  datatype Size = Small | Medium | Large

  /** A product's discount code. It is declared as one string, but
      `applyDiscount` also accepts an array of codes, so both shapes exist. */
  datatype DiscountCode = Single(code: string) | Many(codes: seq<string>)

  datatype Product = Product(
    image: string,
    id: Option<string>,
    name: string,
    description: string,
    size: Size,
    amount: real,
    tags: seq<string>,
    stock: int,
    discountCode: DiscountCode,
    category: string)

  datatype DiscountKind = Percent | Flat

  datatype Discount = Discount(
    code: string,
    amount: real,
    kind: DiscountKind,
    available: bool,
    startDate: Option<Timestamp>,
    endDate: Option<Timestamp>,
    minimumPurchase: Option<real>)

  datatype Coupon = Coupon(
    code: string,
    amount: real,
    kind: DiscountKind,
    available: bool,
    startDate: Option<Timestamp>,
    endDate: Option<Timestamp>,
    minimumPurchase: Option<real>,
    freeShippingThreshold: Option<real>)

  datatype ShippingDiscountKind = FlatOff | PercentageOff

  /** A shipping option's price reduction: applies when the cart amount lies in
      [minimumAmount, maximumAmount] and the day lies in [startDay, endDay]. */
  datatype ShippingDiscount = ShippingDiscount(
    minimumAmount: real,
    maximumAmount: real,
    startDay: Timestamp,
    endDay: Timestamp,
    kind: ShippingDiscountKind,
    value: real)

  datatype ShippingOption = ShippingOption(
    code: string,
    name: string,
    price: real,
    discount: Option<ShippingDiscount>)

  /** One cart line: `total` is the pre-discount price of `count` units,
      `discountedTotal` what remains after the line's discount. */
  datatype CartItem = CartItem(
    product: Product,
    discount: Option<Discount>,
    count: int,
    total: real,
    discountedTotal: real,
    isChecked: bool,
    addedDateTime: Timestamp)

  datatype Cart = Cart(
    userId: string,
    items: seq<CartItem>,
    coupon: Option<Coupon>,
    shipping: Option<ShippingOption>,
    subTotal: real,
    totalPrice: real,
    termsAndAgreement: Option<bool>)

  /** The cart the store starts with and the one `clearCart` installs. */
  const EmptyCart: Cart := Cart("", [], None, None, 0.0, 0.0, None)
}

/** `Array.prototype.find` and `findIndex`: the first element satisfying a
    predicate, or nothing. */
module Lookup {
  import opened CartTypes

  function FindIndex<T>(s: seq<T>, p: T -> bool): (r: Option<nat>)
    ensures r.Some? ==> r.value < |s| && p(s[r.value])
    ensures r.Some? ==> forall j :: 0 <= j < r.value ==> !p(s[j])
    ensures r.None? ==> forall j :: 0 <= j < |s| ==> !p(s[j])
  {
    if |s| == 0 then None
    else if p(s[0]) then Some(0)
    else
      match FindIndex(s[1..], p)
      case None =>
        assert forall j :: 1 <= j < |s| ==> s[j] == s[1..][j - 1];
        None
      case Some(k) =>
        assert forall j :: 1 <= j < k + 1 ==> s[j] == s[1..][j - 1];
        Some(k + 1)
  }

  function Find<T>(s: seq<T>, p: T -> bool): (r: Option<T>)
    ensures r.None? <==> forall j :: 0 <= j < |s| ==> !p(s[j])
    ensures r.Some? ==> exists k :: 0 <= k < |s| && s[k] == r.value && p(s[k]) &&
                                    forall j :: 0 <= j < k ==> !p(s[j])
  {
    match FindIndex(s, p)
    case None => None
    case Some(k) => Some(s[k])
  }
}
