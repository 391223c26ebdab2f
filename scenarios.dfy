/** Worked cases: the sample cart of the service's tests and small buy-X-get-Y carts. */
module Scenarios {
  import opened Wrappers
  import opened Money
  import opened Cart
  import opened Coupons
  import opened Discount
  import opened Applicable
  import opened Apply
  import opened ApplyProperties

  /** Six of product 1 at 50, three of product 2 at 30, two of product 3 at 25. */
  function SampleCart(): seq<CartItem> {
    [CartItem(1, 6, 50.0), CartItem(2, 3, 30.0), CartItem(3, 2, 25.0)]
  }

  /** 10% off carts above 100. */
  function TenPercentOverHundred(id: CouponId): Coupon {
    Coupon(id, "CartWise Test", CartWise, Details(Some(100.0), Some(10.0), None, None, None, None))
  }

  /** The sample cart totals 440; the cart-wise coupon is listed with 44.00 and leaves 396.00 to pay. */
  lemma SampleCartWise(id: CouponId)
    ensures CartTotal(SampleCart()) == 440.0
    ensures ApplicableList([TenPercentOverHundred(id)], SampleCart()) == [Entry(id, "cart_wise", 44.0)]
    ensures AppliedCart([TenPercentOverHundred(id)], id, SampleCart()).Ok?
    ensures AppliedCart([TenPercentOverHundred(id)], id, SampleCart()).value.totalDiscount == 44.0
    ensures AppliedCart([TenPercentOverHundred(id)], id, SampleCart()).value.finalPrice == 396.0
  {
    var cart := SampleCart();
    assert cart[..2] == [CartItem(1, 6, 50.0), CartItem(2, 3, 30.0)];
    assert cart[..2][..1] == [CartItem(1, 6, 50.0)];
    assert cart[..2][..1][..0] == [];
    assert CartTotal(cart[..2][..1]) == 300.0;
    assert CartTotal(cart[..2]) == 390.0;
    assert CartTotal(cart) == 440.0;
    assert IsCents(44.0);
    Round2OfCents(44.0);
    var store := [TenPercentOverHundred(id)];
    assert store[..0] == [];
    assert Get(store, id) == Ok(store[0]);
  }

  /** A cart exactly at the threshold earns nothing. */
  lemma AtThresholdNothing(id: CouponId)
    ensures ApplicableList([TenPercentOverHundred(id)], [CartItem(1, 2, 50.0)]) == []
  {
    var cart := [CartItem(1, 2, 50.0)];
    assert cart[..0] == [];
    assert CartTotal(cart) == 100.0;
    var store := [TenPercentOverHundred(id)];
    assert store[..0] == [];
  }

  /** Buy 2 of product 7, get 1 of product 8: five of product 7 make two complete sets. */
  lemma BuyTwoOfFive()
    ensures Repetitions([CartItem(7, 5, 4.0), CartItem(8, 1, 3.0)],
      Details(None, None, None, Some([BuyGet(7, 2)]), Some([BuyGet(8, 1)]), None)) == 2
  {
    var cart := [CartItem(7, 5, 4.0), CartItem(8, 1, 3.0)];
    assert cart[..1] == [CartItem(7, 5, 4.0)];
    assert cart[..1][..0] == [];
    assert ProductIndex(cart)[7] == CartItem(7, 5, 4.0);
  }

  /**
   * With two lines of the same product, each line of a product-wise coupon is discounted
   * while the reported total counts the first line only: the line discounts add up to
   * 2.00 against a total discount of 1.00.
   */
  lemma DuplicateLinesDoNotReconcile(id: CouponId)
    ensures var store := [Coupon(id, "P", ProductWise, Details(None, Some(10.0), Some(1), None, None, None))];
      var r := AppliedCart(store, id, [CartItem(1, 1, 10.0), CartItem(1, 1, 10.0)]);
      r.Ok? && r.value.totalDiscount == 1.0 && LineDiscountTotal(r.value.items) == 2.0
  {
    var c := Coupon(id, "P", ProductWise, Details(None, Some(10.0), Some(1), None, None, None));
    var store := [c];
    var cart := [CartItem(1, 1, 10.0), CartItem(1, 1, 10.0)];
    assert store[..0] == [];
    assert Get(store, id) == Ok(c);
    assert IsCents(1.0);
    Round2OfCents(1.0);
    assert LinePercent(cart[0], 10.0) == 1.0;
    assert IsFirstWith(cart, 1, 0);
    assert AllIn(cart, cart);
    var lines := AppliedLines(c, cart, cart);
    assert lines[0].discount == 1.0 && lines[1].discount == 1.0;
    assert lines[..1][..0] == [];
    assert LineDiscountTotal(lines[..1]) == 1.0;
    assert LineDiscountTotal(lines) == 2.0;
  }
}
