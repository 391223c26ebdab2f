/** Properties of the discount rules, stated over the reference definitions. */
module DiscountProperties {
  import opened Wrappers
  import opened Cart
  import opened Coupons
  import opened Discount

  /** `counts.getOrDefault(pid, 0)`: the quantity of the last line holding the product, else 0. */
  lemma AvailableIsLastLine(items: seq<CartItem>, pid: ProductId)
    ensures (forall k :: 0 <= k < |items| ==> items[k].productId != pid) ==> Available(items, pid) == 0
    ensures forall k :: IsLastWith(items, pid, k) ==> Available(items, pid) == items[k].quantity
  {
    ProductIndexKeys(items, pid);
    forall k | IsLastWith(items, pid, k)
      ensures Available(items, pid) == items[k].quantity
    {
      ProductIndexLast(items, pid, k);
    }
  }

  lemma AvailableNonNegative(items: seq<CartItem>, pid: ProductId)
    requires ValidItems(items)
    ensures Available(items, pid) >= 0
  {
    if pid in ProductIndex(items) {
      var item := ProductIndex(items)[pid];
      var k :| 0 <= k < |items| && items[k] == item;
      assert ValidItem(items[k]);
    }
  }

  /** With a valid cart and positive buy quantities the repetitions are never negative. */
  lemma RepetitionsNonNegative(items: seq<CartItem>, d: Details)
    requires ValidItems(items)
    requires d.buyProducts.Some? ==>
      forall k :: 0 <= k < |d.buyProducts.value| ==> d.buyProducts.value[k].quantity > 0
    ensures NoZeroBuy(d) && Repetitions(items, d) >= 0
  {
    if d.buyProducts.Some? && |d.buyProducts.value| > 0 {
      var buys := d.buyProducts.value;
      var k :| 0 <= k < |buys| && Repetitions(items, d) == Ratio(items, buys[k]);
      AvailableNonNegative(items, buys[k].productId);
    }
  }

  /** The free value grows linearly with the number of repetitions. */
  lemma {:induction false} FreeValueLinear(gets: seq<BuyGet>, index: map<ProductId, CartItem>, reps: int)
    ensures FreeValue(gets, index, reps) == reps as real * FreeValue(gets, index, 1)
  {
    if |gets| > 0 {
      var n := |gets| - 1;
      var g := gets[n];
      FreeValueLinear(gets[..n], index, reps);
      if g.productId in index {
        var p := index[g.productId].price;
        assert (g.quantity * reps) as real == reps as real * g.quantity as real;
        assert p * (g.quantity * reps) as real == reps as real * (p * (g.quantity * 1) as real);
      }
    }
  }

  /** An empty cart gives no free value. */
  lemma {:induction false} FreeValueEmptyCart(gets: seq<BuyGet>, reps: int)
    ensures FreeValue(gets, map[], reps) == 0.0
  {
    if |gets| > 0 {
      FreeValueEmptyCart(gets[..|gets| - 1], reps);
    }
  }

  /** No repetitions give no free value. */
  lemma {:induction false} FreeValueZero(gets: seq<BuyGet>, index: map<ProductId, CartItem>)
    ensures FreeValue(gets, index, 0) == 0.0
  {
    FreeValueLinear(gets, index, 0);
  }

  predicate NonNegativePrices(index: map<ProductId, CartItem>) {
    forall pid :: pid in index ==> index[pid].price >= 0.0
  }

  predicate NonNegativeQuantities(entries: seq<BuyGet>) {
    forall k :: 0 <= k < |entries| ==> entries[k].quantity >= 0
  }

  lemma {:induction false} FreeValueNonNegative(gets: seq<BuyGet>, index: map<ProductId, CartItem>, reps: int)
    requires NonNegativePrices(index) && NonNegativeQuantities(gets) && reps >= 0
    ensures FreeValue(gets, index, reps) >= 0.0
  {
    if |gets| > 0 {
      var n := |gets| - 1;
      assert NonNegativeQuantities(gets[..n]);
      FreeValueNonNegative(gets[..n], index, reps);
      var g := gets[n];
      assert g.quantity >= 0;
      if g.productId in index {
        assert (g.quantity * reps) >= 0;
      }
    }
  }

  /** The get entries whose product is in the cart, in their order. */
  function InCart(gets: seq<BuyGet>, index: map<ProductId, CartItem>): (r: seq<BuyGet>)
    ensures forall k :: 0 <= k < |r| ==> r[k].productId in index && r[k] in gets
    ensures forall k :: 0 <= k < |gets| && gets[k].productId in index ==> gets[k] in r
  {
    if |gets| == 0 then []
    else
      var n := |gets| - 1;
      InCart(gets[..n], index) + (if gets[n].productId in index then [gets[n]] else [])
  }

  /** Get entries for products absent from the cart contribute nothing. */
  lemma {:induction false} FreeValueOnlyCartProducts(gets: seq<BuyGet>, index: map<ProductId, CartItem>, reps: int)
    ensures FreeValue(gets, index, reps) == FreeValue(InCart(gets, index), index, reps)
  {
    if |gets| > 0 {
      var n := |gets| - 1;
      var g := gets[n];
      var prefix := InCart(gets[..n], index);
      FreeValueOnlyCartProducts(gets[..n], index, reps);
      if g.productId in index {
        assert (prefix + [g])[..|prefix|] == prefix;
      } else {
        assert InCart(gets, index) == prefix + [];
        assert prefix + [] == prefix;
      }
    }
  }

  /** For a valid cart and non-negative get quantities, the buy-X-get-Y discount is not negative. */
  lemma BxGyDiscountNonNegative(items: seq<CartItem>, d: Details)
    requires ValidItems(items)
    requires d.getProducts.Some? ==> NoZeroBuy(d) && NonNegativeQuantities(d.getProducts.value)
    ensures BxGyDiscount(items, d) >= 0.0
  {
    if d.buyProducts.Some? && d.getProducts.Some? && LimitedRepetitions(items, d) > 0 {
      var index := ProductIndex(items);
      forall pid | pid in index
        ensures index[pid].price >= 0.0
      {
        var k :| 0 <= k < |items| && items[k] == index[pid];
        assert ValidItem(items[k]);
      }
      FreeValueNonNegative(d.getProducts.value, index, LimitedRepetitions(items, d));
    }
  }

  /** With one line per product, a product-wise discount grows only by a last line of the coupon's product. */
  lemma ProductWiseDiscountSnoc(lines: seq<CartItem>, d: Details)
    requires |lines| > 0 && DistinctProducts(lines)
    ensures var n := |lines| - 1;
      ProductWiseDiscount(lines, d) == ProductWiseDiscount(lines[..n], d)
        + (if d.productId == Some(lines[n].productId) && d.discount.Some?
           then LinePercent(lines[n], d.discount.value) else 0.0)
  {
    var n := |lines| - 1;
    var prefix, x := lines[..n], lines[n];
    if d.productId.Some? && d.discount.Some? {
      var pid := d.productId.value;
      if x.productId == pid {
        assert forall k :: 0 <= k < n ==> prefix[k].productId != pid;
        assert FirstWith(prefix, pid).None?;
        assert IsFirstWith(lines, pid, n);
      } else if exists k :: 0 <= k < n && prefix[k].productId == pid {
        var k :| 0 <= k < n && prefix[k].productId == pid;
        assert IsFirstWith(prefix, pid, k) && IsFirstWith(lines, pid, k);
      } else {
        assert forall k :: 0 <= k < |lines| ==> lines[k].productId != pid;
      }
    }
  }
}
