/**
 * `applyCoupon`: the cart rebuilt line by line with each line's discount and, for
 * buy-X-get-Y coupons, its quantity raised by the free units; with the cart total,
 * the coupon's discount and the price left to pay.
 */
module Apply {
  import opened Wrappers
  import opened IntArith
  import opened Cart
  import opened Coupons
  import opened Discount

  datatype LineOut = LineOut(productId: ProductId, quantity: int, price: real, discount: real)

  datatype UpdatedCart = UpdatedCart(items: seq<LineOut>, totalPrice: real, totalDiscount: real, finalPrice: real)

  /**
   * What applying a coupon to a cart needs so that it cannot fail: no zero buy quantity
   * for a buy-X-get-Y coupon, and no line of a product-wise coupon's product when the
   * coupon has no discount percentage.
   */
  predicate ApplySafe(c: Coupon, items: seq<CartItem>) {
    && (c.ctype.BxGy? ==> NoZeroBuy(c.details))
    && (c.ctype.ProductWise? && c.details.productId.Some? && c.details.discount.None? ==>
          forall k :: 0 <= k < |items| ==> items[k].productId != c.details.productId.value)
  }

  /** The repetitions used on each line: the limited repetitions, never below 0. */
  function LineRepetitions(items: seq<CartItem>, d: Details): (t: nat)
    requires NoZeroBuy(d)
    ensures t >= LimitedRepetitions(items, d)
    ensures t == 0 || t == LimitedRepetitions(items, d)
  {
    Max(LimitedRepetitions(items, d), 0)
  }

  /** The get list, an absent one read as empty. */
  function GetList(d: Details): seq<BuyGet> {
    if d.getProducts.Some? then d.getProducts.value else []
  }

  /** The value of a line's free units: its price times the free units of every get entry for its product. */
  function GetLineValue(item: CartItem, gets: seq<BuyGet>, reps: int): real {
    if |gets| == 0 then 0.0
    else
      var g := gets[|gets| - 1];
      GetLineValue(item, gets[..|gets| - 1], reps)
      + (if g.productId == item.productId then item.price * (g.quantity * reps) as real else 0.0)
  }

  /**
   * A line's reported quantity: each get entry for its product overwrites it with the
   * ordered quantity plus that entry's free units, so the last such entry decides.
   */
  function GetLineQuantity(item: CartItem, gets: seq<BuyGet>, reps: int): int {
    if |gets| == 0 then item.quantity
    else
      var g := gets[|gets| - 1];
      if g.productId == item.productId then item.quantity + g.quantity * reps
      else GetLineQuantity(item, gets[..|gets| - 1], reps)
  }

  /** One output line. */
  function ApplyLine(c: Coupon, items: seq<CartItem>, item: CartItem): (r: LineOut)
    requires ApplySafe(c, items)
    requires item in items
    ensures r.productId == item.productId && r.price == item.price
    ensures !c.ctype.BxGy? ==> r.quantity == item.quantity
  {
    match c.ctype
    case CartWise => LineOut(item.productId, item.quantity, item.price, 0.0)
    case ProductWise =>
      if c.details.productId == Some(item.productId) then
        LineOut(item.productId, item.quantity, item.price, LinePercent(item, c.details.discount.value))
      else LineOut(item.productId, item.quantity, item.price, 0.0)
    case BxGy =>
      var reps := LineRepetitions(items, c.details);
      var gets := GetList(c.details);
      LineOut(item.productId, GetLineQuantity(item, gets, reps), item.price, GetLineValue(item, gets, reps))
  }

  predicate AllIn(lines: seq<CartItem>, items: seq<CartItem>) {
    forall k :: 0 <= k < |lines| ==> lines[k] in items
  }

  /** The output lines for `lines`, which are lines of the cart `items`, in order. */
  function AppliedLines(c: Coupon, items: seq<CartItem>, lines: seq<CartItem>): (r: seq<LineOut>)
    requires ApplySafe(c, items) && AllIn(lines, items)
    ensures |r| == |lines|
    ensures forall k :: 0 <= k < |lines| ==> r[k] == ApplyLine(c, items, lines[k])
  {
    if |lines| == 0 then []
    else
      var n := |lines| - 1;
      AppliedLines(c, items, lines[..n]) + [ApplyLine(c, items, lines[n])]
  }

  /** The reference definition of `applyCoupon`. */
  function AppliedCart(store: seq<Coupon>, id: CouponId, items: seq<CartItem>): (r: Result<UpdatedCart, StoreError>)
    requires Get(store, id).Ok? ==> ApplySafe(Get(store, id).value, items)
    ensures r.Err? <==> !Stored(store, id)
    ensures r.Ok? ==>
      && |r.value.items| == |items|
      && (forall k :: 0 <= k < |items| ==>
            r.value.items[k].productId == items[k].productId && r.value.items[k].price == items[k].price)
      && r.value.totalPrice == CartTotal(items)
      && r.value.finalPrice == r.value.totalPrice - r.value.totalDiscount
    ensures r.Ok? ==> r.value.totalDiscount == CouponDiscount(Get(store, id).value, items)
    ensures r.Ok? ==> AllIn(items, items) && r.value.items == AppliedLines(Get(store, id).value, items, items)
  {
    match Get(store, id)
    case Err(e) => Err(e)
    case Ok(c) =>
      assert AllIn(items, items);
      var total := CartTotal(items);
      var discount := CouponDiscount(c, items);
      Ok(UpdatedCart(AppliedLines(c, items, items), total, discount, total - discount))
  }

  // ---------------------------------------------------------------------------
  // The source's loops

  /** The inner loop of `applyCoupon` over the get entries, for one line. */
  method ApplyGetEntries(item: CartItem, gets: seq<BuyGet>, reps: int) returns (quantity: int, itemDiscount: real)
    ensures quantity == GetLineQuantity(item, gets, reps)
    ensures itemDiscount == GetLineValue(item, gets, reps)
  {
    quantity, itemDiscount := item.quantity, 0.0;
    for j := 0 to |gets|
      invariant quantity == GetLineQuantity(item, gets[..j], reps)
      invariant itemDiscount == GetLineValue(item, gets[..j], reps)
    {
      var get := gets[j];
      assert gets[..j + 1][..j] == gets[..j];
      if get.productId == item.productId {
        var freeQty := get.quantity * reps;
        itemDiscount := itemDiscount + item.price * freeQty as real;
        quantity := item.quantity + freeQty;
      }
    }
    assert gets[..|gets|] == gets;
  }

  /** The body of `applyCoupon`'s loop over the cart: the output line for one cart line. */
  method ApplyToLine(coupon: Coupon, items: seq<CartItem>, item: CartItem) returns (line: LineOut)
    requires ApplySafe(coupon, items) && item in items
    ensures line == ApplyLine(coupon, items, item)
  {
    var d := coupon.details;
    var quantity := item.quantity;
    var itemDiscount := 0.0;
    if coupon.ctype.ProductWise? && d.productId == Some(item.productId) {
      itemDiscount := LinePercent(item, d.discount.value);
    }
    if coupon.ctype.BxGy? {
      var reps := ComputeBxGyRepetitions(items, d);
      if d.repetitionLimit.Some? {
        reps := Min(reps, d.repetitionLimit.value);
      }
      quantity, itemDiscount := ApplyGetEntries(item, GetList(d), Max(reps, 0));
    }
    line := LineOut(item.productId, quantity, item.price, itemDiscount);
  }

  /** `applyCoupon`: look the coupon up, evaluate it, then rebuild the cart line by line. */
  method ApplyCoupon(store: seq<Coupon>, id: CouponId, items: seq<CartItem>) returns (res: Result<UpdatedCart, StoreError>)
    requires Get(store, id).Ok? ==> ApplySafe(Get(store, id).value, items)
    ensures res == AppliedCart(store, id, items)
  {
    var found := Get(store, id);
    if found.Err? {
      return Err(found.error);
    }
    var coupon := found.value;
    var totalPrice := CartTotal(items);
    var totalDiscount := EvaluateDiscount(coupon, items, totalPrice);
    var lines: seq<LineOut> := [];
    for k := 0 to |items|
      invariant AllIn(items[..k], items)
      invariant lines == AppliedLines(coupon, items, items[..k])
    {
      assert items[..k + 1][..k] == items[..k];
      assert AllIn(items[..k + 1], items);
      var line := ApplyToLine(coupon, items, items[k]);
      lines := lines + [line];
    }
    assert items[..|items|] == items;
    res := Ok(UpdatedCart(lines, totalPrice, totalDiscount, totalPrice - totalDiscount));
  }
}
