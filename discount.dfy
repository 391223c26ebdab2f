/**
 * The discount each coupon type earns on a cart. The functions are the reference
 * definitions; the methods are the source's loops (the HashMap of quantities, the
 * running minimum of repetitions, the running sum of free value), proved to compute them.
 */
module Discount {
  import opened Wrappers
  import opened Money
  import opened IntArith
  import opened Cart
  import opened Coupons

  /** Cart-wise: the percentage of the total, only when the total is strictly above the threshold. */
  function CartWiseDiscount(total: real, d: Details): (r: real)
    ensures IsCents(r)
    ensures r != 0.0 ==> d.threshold.Some? && d.discount.Some? && total > d.threshold.value
    ensures d.threshold.Some? && d.discount.Some? && total > d.threshold.value ==>
      r == Round2(total * d.discount.value / 100.0)
  {
    if d.threshold.None? || d.discount.None? then 0.0
    else if total <= d.threshold.value then 0.0
    else Round2(total * d.discount.value / 100.0)
  }

  /** The given percentage of a line's subtotal, rounded to cents. */
  function LinePercent(item: CartItem, pct: real): (r: real)
    ensures IsCents(r)
    ensures var exact := Subtotal(item) * pct / 100.0;
      exact - 0.005 <= r <= exact + 0.005
  {
    Round2(Subtotal(item) * pct / 100.0)
  }

  /** Product-wise: the percentage of the subtotal of the first line holding the product. */
  function ProductWiseDiscount(items: seq<CartItem>, d: Details): (r: real)
    ensures IsCents(r)
    ensures r != 0.0 ==>
      d.productId.Some? && d.discount.Some?
      && exists k :: 0 <= k < |items| && items[k].productId == d.productId.value
    ensures d.productId.Some? && d.discount.Some? ==>
      forall k :: IsFirstWith(items, d.productId.value, k) ==> r == LinePercent(items[k], d.discount.value)
  {
    if d.productId.None? || d.discount.None? then 0.0
    else
      var first := FirstWith(items, d.productId.value);
      var pct := d.discount.value;
      assert forall k :: IsFirstWith(items, d.productId.value, k) ==> first == Some(items[k]);
      if first.None? then 0.0 else LinePercent(first.value, pct)
  }

  /** Every buy entry names a non-zero quantity (a zero one would divide by zero). */
  predicate NoZeroBuy(d: Details) {
    d.buyProducts.Some? ==>
      forall k :: 0 <= k < |d.buyProducts.value| ==> d.buyProducts.value[k].quantity != 0
  }

  /** The quantity of product `pid` in the cart: that of its last line, 0 if it has none. */
  function Available(items: seq<CartItem>, pid: ProductId): int {
    var index := ProductIndex(items);
    if pid in index then index[pid].quantity else 0
  }

  /** How many times the cart covers one buy entry (Java integer division). */
  function Ratio(items: seq<CartItem>, buy: BuyGet): int
    requires buy.quantity != 0
  {
    TruncDiv(Available(items, buy.productId), buy.quantity)
  }

  /** The smallest ratio over a non-empty list of buy entries. */
  function MinRatio(items: seq<CartItem>, buys: seq<BuyGet>): (t: int)
    requires |buys| > 0
    requires forall k :: 0 <= k < |buys| ==> buys[k].quantity != 0
    ensures forall k :: 0 <= k < |buys| ==> t <= Ratio(items, buys[k])
    ensures exists k :: 0 <= k < |buys| && t == Ratio(items, buys[k])
  {
    var n := |buys| - 1;
    if n == 0 then Ratio(items, buys[0])
    else
      var prefix := buys[..n];
      assert forall k :: 0 <= k < n ==> prefix[k] == buys[k];
      Min(MinRatio(items, prefix), Ratio(items, buys[n]))
  }

  /**
   * The number of complete buy sets in the cart: 0 without buy entries, otherwise the
   * smallest ratio over the buy entries.
   */
  function Repetitions(items: seq<CartItem>, d: Details): (t: int)
    requires NoZeroBuy(d)
    ensures d.buyProducts.None? || |d.buyProducts.value| == 0 ==> t == 0
    ensures d.buyProducts.Some? ==>
      forall k :: 0 <= k < |d.buyProducts.value| ==> t <= Ratio(items, d.buyProducts.value[k])
    ensures d.buyProducts.Some? && |d.buyProducts.value| > 0 ==>
      exists k :: 0 <= k < |d.buyProducts.value| && t == Ratio(items, d.buyProducts.value[k])
  {
    if d.buyProducts.None? || |d.buyProducts.value| == 0 then 0
    else MinRatio(items, d.buyProducts.value)
  }

  /** The repetitions, clamped to the repetition limit when there is one. */
  function LimitedRepetitions(items: seq<CartItem>, d: Details): (t: int)
    requires NoZeroBuy(d)
    ensures t <= Repetitions(items, d)
    ensures d.repetitionLimit.Some? ==> t <= d.repetitionLimit.value
    ensures t == Repetitions(items, d) || (d.repetitionLimit.Some? && t == d.repetitionLimit.value)
  {
    if d.repetitionLimit.Some? then Min(Repetitions(items, d), d.repetitionLimit.value)
    else Repetitions(items, d)
  }

  /** The value of one get entry's free units: nothing when its product is not in the cart. */
  function FreeUnitsValue(get: BuyGet, index: map<ProductId, CartItem>, reps: int): real {
    if get.productId in index then index[get.productId].price * (get.quantity * reps) as real else 0.0
  }

  /** The value of the free units of all get entries, priced from the cart's product index. */
  function FreeValue(gets: seq<BuyGet>, index: map<ProductId, CartItem>, reps: int): real {
    if |gets| == 0 then 0.0
    else FreeValue(gets[..|gets| - 1], index, reps) + FreeUnitsValue(gets[|gets| - 1], index, reps)
  }

  /**
   * Buy-X-get-Y: the value of the free units, when both lists are present and the
   * limited repetitions are positive; nothing otherwise. Not rounded.
   */
  function BxGyDiscount(items: seq<CartItem>, d: Details): (r: real)
    requires d.getProducts.Some? ==> NoZeroBuy(d)
    ensures r != 0.0 ==>
      d.buyProducts.Some? && d.getProducts.Some? && |d.buyProducts.value| > 0
      && LimitedRepetitions(items, d) > 0
    ensures d.buyProducts.Some? && d.getProducts.Some? && LimitedRepetitions(items, d) > 0 ==>
      r == FreeValue(d.getProducts.value, ProductIndex(items), LimitedRepetitions(items, d))
  {
    if d.buyProducts.None? || d.getProducts.None? then 0.0
    else
      var reps := LimitedRepetitions(items, d);
      if reps <= 0 then 0.0 else FreeValue(d.getProducts.value, ProductIndex(items), reps)
  }

  /** What a coupon needs so that evaluating it cannot divide by zero. */
  predicate Evaluable(c: Coupon) {
    c.ctype.BxGy? && c.details.getProducts.Some? ==> NoZeroBuy(c.details)
  }

  /** The discount a coupon earns on a cart, by type. */
  function CouponDiscount(c: Coupon, items: seq<CartItem>): (r: real)
    requires Evaluable(c)
    ensures !c.ctype.BxGy? ==> IsCents(r)
  {
    match c.ctype
    case CartWise => CartWiseDiscount(CartTotal(items), c.details)
    case ProductWise => ProductWiseDiscount(items, c.details)
    case BxGy => BxGyDiscount(items, c.details)
  }

  // ---------------------------------------------------------------------------
  // The source's loops

  /** `computeBxGyRepetitions`: a map of quantities, then the running minimum of the ratios. */
  method ComputeBxGyRepetitions(items: seq<CartItem>, d: Details) returns (times: int)
    requires NoZeroBuy(d)
    ensures times == Repetitions(items, d)
  {
    var counts: map<ProductId, int> := map[];
    for k := 0 to |items|
      invariant forall pid :: pid in counts <==> pid in ProductIndex(items[..k])
      invariant forall pid :: pid in counts ==> counts[pid] == ProductIndex(items[..k])[pid].quantity
    {
      assert items[..k + 1][..k] == items[..k];
      counts := counts[items[k].productId := items[k].quantity];
    }
    assert items[..|items|] == items;
    if d.buyProducts.None? || |d.buyProducts.value| == 0 {
      return 0;
    }
    var buys := d.buyProducts.value;
    var first := buys[0];
    times := TruncDiv(if first.productId in counts then counts[first.productId] else 0, first.quantity);
    for j := 1 to |buys|
      invariant times == MinRatio(items, buys[..j])
    {
      var buy := buys[j];
      var available := if buy.productId in counts then counts[buy.productId] else 0;
      assert buys[..j + 1][..j] == buys[..j];
      times := Min(times, TruncDiv(available, buy.quantity));
    }
    assert buys[..|buys|] == buys;
  }

  /** `applicableBxGy`: the product index of the cart, then the running sum of free value. */
  method ApplicableBxGy(items: seq<CartItem>, d: Details) returns (freeValue: real)
    requires d.getProducts.Some? ==> NoZeroBuy(d)
    ensures freeValue == BxGyDiscount(items, d)
  {
    if d.buyProducts.None? || d.getProducts.None? {
      return 0.0;
    }
    var repetitions := ComputeBxGyRepetitions(items, d);
    if d.repetitionLimit.Some? {
      repetitions := Min(repetitions, d.repetitionLimit.value);
    }
    if repetitions <= 0 {
      return 0.0;
    }
    var cartMap: map<ProductId, CartItem> := map[];
    for k := 0 to |items|
      invariant cartMap == ProductIndex(items[..k])
    {
      assert items[..k + 1][..k] == items[..k];
      cartMap := cartMap[items[k].productId := items[k]];
    }
    assert items[..|items|] == items;
    freeValue := SumFreeValue(d.getProducts.value, cartMap, repetitions);
  }

  /** The loop of `applicableBxGy` that adds up the value of each get entry's free units. */
  method SumFreeValue(gets: seq<BuyGet>, cartMap: map<ProductId, CartItem>, repetitions: int)
    returns (freeValue: real)
    ensures freeValue == FreeValue(gets, cartMap, repetitions)
  {
    freeValue := 0.0;
    for j := 0 to |gets|
      invariant freeValue == FreeValue(gets[..j], cartMap, repetitions)
    {
      var get := gets[j];
      assert gets[..j + 1][..j] == gets[..j];
      if get.productId in cartMap {
        var item := cartMap[get.productId];
        var freeQty := get.quantity * repetitions;
        freeValue := freeValue + item.price * freeQty as real;
      }
    }
    assert gets[..|gets|] == gets;
  }

  /** The per-type dispatch of `applicableCoupons` and `applyCoupon`, given the cart total. */
  method EvaluateDiscount(c: Coupon, items: seq<CartItem>, total: real) returns (discount: real)
    requires Evaluable(c)
    requires total == CartTotal(items)
    ensures discount == CouponDiscount(c, items)
  {
    match c.ctype
    case CartWise =>
      discount := CartWiseDiscount(total, c.details);
    case ProductWise =>
      discount := ProductWiseDiscount(items, c.details);
    case BxGy =>
      discount := ApplicableBxGy(items, c.details);
  }
}
