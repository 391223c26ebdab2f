/** What `applyCoupon` does to each line, and how the line discounts add up. */
module ApplyProperties {
  import opened Wrappers
  import opened IntArith
  import opened Cart
  import opened Coupons
  import opened Discount
  import opened DiscountProperties
  import opened Apply

  /** `j` is the last get entry for product `pid`. */
  predicate IsLastGet(gets: seq<BuyGet>, pid: ProductId, j: int) {
    0 <= j < |gets| && gets[j].productId == pid
    && forall i :: j < i < |gets| ==> gets[i].productId != pid
  }

  /** A line that no get entry names keeps its quantity and earns nothing. */
  lemma {:induction false} GetLineUnnamed(item: CartItem, gets: seq<BuyGet>, reps: int)
    requires forall j :: 0 <= j < |gets| ==> gets[j].productId != item.productId
    ensures GetLineQuantity(item, gets, reps) == item.quantity
    ensures GetLineValue(item, gets, reps) == 0.0
  {
    if |gets| > 0 {
      GetLineUnnamed(item, gets[..|gets| - 1], reps);
    }
  }

  /** A line that get entries name reports its ordered quantity plus the free units of the LAST such entry. */
  lemma {:induction false} GetLineLastNamed(item: CartItem, gets: seq<BuyGet>, reps: int, j: int)
    requires IsLastGet(gets, item.productId, j)
    ensures GetLineQuantity(item, gets, reps) == item.quantity + gets[j].quantity * reps
  {
    var n := |gets| - 1;
    if j < n {
      assert IsLastGet(gets[..n], item.productId, j);
      GetLineLastNamed(item, gets[..n], reps, j);
    }
  }

  /** Cart-wise: no line is discounted and no quantity changes. */
  lemma CartWiseLines(c: Coupon, items: seq<CartItem>, k: int)
    requires c.ctype.CartWise? && ApplySafe(c, items)
    requires 0 <= k < |items|
    ensures AppliedLines(c, items, items)[k] == LineOut(items[k].productId, items[k].quantity, items[k].price, 0.0)
  {
    assert AllIn(items, items);
  }

  /** Product-wise: only lines of the coupon's product are discounted, each by its own rounded percentage. */
  lemma ProductWiseLines(c: Coupon, items: seq<CartItem>, k: int)
    requires c.ctype.ProductWise? && ApplySafe(c, items)
    requires 0 <= k < |items|
    ensures AllIn(items, items)
    ensures AppliedLines(c, items, items)[k].quantity == items[k].quantity
    ensures c.details.productId != Some(items[k].productId) ==> AppliedLines(c, items, items)[k].discount == 0.0
    ensures c.details.productId == Some(items[k].productId) ==>
      c.details.discount.Some?
      && AppliedLines(c, items, items)[k].discount == LinePercent(items[k], c.details.discount.value)
  {
    assert AllIn(items, items);
  }

  /**
   * Buy-X-get-Y: a line that no get entry names is unchanged and earns nothing; a line
   * that one names has its quantity raised by that entry's quantity times the repetitions
   * (the limited repetitions, never below 0).
   */
  lemma BxGyLines(c: Coupon, items: seq<CartItem>, k: int)
    requires c.ctype.BxGy? && ApplySafe(c, items)
    requires 0 <= k < |items|
    ensures AllIn(items, items)
    ensures var gets := GetList(c.details);
      (forall j :: 0 <= j < |gets| ==> gets[j].productId != items[k].productId) ==>
        AppliedLines(c, items, items)[k] == LineOut(items[k].productId, items[k].quantity, items[k].price, 0.0)
    ensures var gets := GetList(c.details);
      forall j :: IsLastGet(gets, items[k].productId, j) ==>
        AppliedLines(c, items, items)[k].quantity
          == items[k].quantity + gets[j].quantity * Max(LimitedRepetitions(items, c.details), 0)
  {
    assert AllIn(items, items);
    var gets, reps := GetList(c.details), LineRepetitions(items, c.details);
    if forall j :: 0 <= j < |gets| ==> gets[j].productId != items[k].productId {
      GetLineUnnamed(items[k], gets, reps);
    }
    forall j | IsLastGet(gets, items[k].productId, j)
      ensures AppliedLines(c, items, items)[k].quantity == items[k].quantity + gets[j].quantity * reps
    {
      GetLineLastNamed(items[k], gets, reps, j);
    }
  }

  /** The sum of the line discounts. */
  function LineDiscountTotal(lines: seq<LineOut>): real {
    if |lines| == 0 then 0.0
    else LineDiscountTotal(lines[..|lines| - 1]) + lines[|lines| - 1].discount
  }

  /** Adding a line for a product not yet in the index adds that line's free value. */
  lemma {:induction false} FreeValueAddLine(gets: seq<BuyGet>, index: map<ProductId, CartItem>, x: CartItem, reps: int)
    requires x.productId !in index
    ensures FreeValue(gets, index[x.productId := x], reps) == FreeValue(gets, index, reps) + GetLineValue(x, gets, reps)
  {
    if |gets| > 0 {
      FreeValueAddLine(gets[..|gets| - 1], index, x, reps);
    }
  }

  /** With one line per product, the lines' free values add up to the free value of the cart. */
  lemma {:induction false} BxGyLinesTotal(c: Coupon, items: seq<CartItem>, lines: seq<CartItem>)
    requires c.ctype.BxGy? && ApplySafe(c, items) && AllIn(lines, items)
    requires DistinctProducts(lines)
    ensures LineDiscountTotal(AppliedLines(c, items, lines))
      == FreeValue(GetList(c.details), ProductIndex(lines), LineRepetitions(items, c.details))
  {
    var gets, reps := GetList(c.details), LineRepetitions(items, c.details);
    if |lines| > 0 {
      var n := |lines| - 1;
      var prefix, x := lines[..n], lines[n];
      assert AllIn(prefix, items);
      assert DistinctProducts(prefix);
      BxGyLinesTotal(c, items, prefix);
      var out := AppliedLines(c, items, lines);
      assert out[..n] == AppliedLines(c, items, prefix);
      assert LineDiscountTotal(out) == LineDiscountTotal(out[..n]) + GetLineValue(x, gets, reps);
      ProductIndexKeys(prefix, x.productId);
      assert forall k :: 0 <= k < n ==> prefix[k].productId != x.productId;
      assert x.productId !in ProductIndex(prefix);
      assert ProductIndex(lines) == ProductIndex(prefix)[x.productId := x];
      FreeValueAddLine(gets, ProductIndex(prefix), x, reps);
    } else {
      FreeValueEmptyCart(gets, reps);
    }
  }

  /** With one line per product, the product-wise line discounts add up to the coupon's discount. */
  lemma {:induction false} ProductWiseLinesTotal(c: Coupon, items: seq<CartItem>, lines: seq<CartItem>)
    requires c.ctype.ProductWise? && ApplySafe(c, items) && AllIn(lines, items)
    requires DistinctProducts(lines)
    ensures LineDiscountTotal(AppliedLines(c, items, lines)) == ProductWiseDiscount(lines, c.details)
  {
    var d := c.details;
    if |lines| > 0 {
      var n := |lines| - 1;
      var prefix, x := lines[..n], lines[n];
      assert AllIn(prefix, items);
      assert DistinctProducts(prefix);
      ProductWiseLinesTotal(c, items, prefix);
      var out := AppliedLines(c, items, lines);
      assert out[..n] == AppliedLines(c, items, prefix);
      assert LineDiscountTotal(out) == LineDiscountTotal(out[..n]) + ApplyLine(c, items, x).discount;
      ProductWiseDiscountSnoc(lines, d);
    }
  }

  /** With one line per product, the buy-X-get-Y line discounts add up to the coupon's discount. */
  lemma BxGyReconcile(c: Coupon, items: seq<CartItem>)
    requires DistinctProducts(items)
    requires c.ctype.BxGy? && ApplySafe(c, items)
    ensures AllIn(items, items)
    ensures LineDiscountTotal(AppliedLines(c, items, items)) == CouponDiscount(c, items)
  {
    var d := c.details;
    var reps := LineRepetitions(items, d);
    assert AllIn(items, items);
    BxGyLinesTotal(c, items, items);
    assert CouponDiscount(c, items) == BxGyDiscount(items, d);
    if reps == 0 {
      FreeValueZero(GetList(d), ProductIndex(items));
    } else {
      assert reps == LimitedRepetitions(items, d) > 0;
      assert d.buyProducts.Some? && |d.buyProducts.value| > 0;
    }
  }

  /**
   * With one line per product in the cart, the line discounts of a product-wise or a
   * buy-X-get-Y coupon add up to the total discount reported for the cart.
   */
  lemma LineDiscountsReconcile(store: seq<Coupon>, id: CouponId, items: seq<CartItem>)
    requires DistinctProducts(items)
    requires Get(store, id).Ok? ==> ApplySafe(Get(store, id).value, items)
    requires Get(store, id).Ok? && !Get(store, id).value.ctype.CartWise?
    ensures AppliedCart(store, id, items).Ok?
    ensures LineDiscountTotal(AppliedCart(store, id, items).value.items)
      == AppliedCart(store, id, items).value.totalDiscount
  {
    var c := Get(store, id).value;
    assert AllIn(items, items);
    var r := AppliedCart(store, id, items).value;
    assert r.items == AppliedLines(c, items, items) && r.totalDiscount == CouponDiscount(c, items);
    if c.ctype.ProductWise? {
      ProductWiseLinesTotal(c, items, items);
    } else {
      BxGyReconcile(c, items);
    }
  }
}
