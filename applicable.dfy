/**
 * `applicableCoupons`: every stored coupon, in store order, whose discount on the cart
 * is positive, listed with its id, its type name and that discount.
 */
module Applicable {
  import opened Cart
  import opened Coupons
  import opened Discount

  datatype Entry = Entry(couponId: CouponId, typeName: string, discount: real)

  /** No stored coupon makes the evaluation divide by zero. */
  predicate AllEvaluable(store: seq<Coupon>) {
    forall k :: 0 <= k < |store| ==> Evaluable(store[k])
  }

  function EntryFor(c: Coupon, items: seq<CartItem>): Entry
    requires Evaluable(c)
  {
    Entry(c.id, TypeName(c.ctype), CouponDiscount(c, items))
  }

  /** The reference definition: the store filtered to the coupons with a positive discount. */
  function ApplicableList(store: seq<Coupon>, items: seq<CartItem>): (r: seq<Entry>)
    requires AllEvaluable(store)
    ensures |r| <= |store|
    ensures forall k :: 0 <= k < |r| ==> r[k].discount > 0.0
  {
    if |store| == 0 then []
    else
      var n := |store| - 1;
      var c := store[n];
      ApplicableList(store[..n], items) + (if CouponDiscount(c, items) > 0.0 then [EntryFor(c, items)] else [])
  }

  /** Store order is kept: the entries of an earlier part of the store come first. */
  lemma {:induction false} ApplicableAppend(a: seq<Coupon>, b: seq<Coupon>, items: seq<CartItem>)
    requires AllEvaluable(a) && AllEvaluable(b)
    ensures AllEvaluable(a + b)
    ensures ApplicableList(a + b, items) == ApplicableList(a, items) + ApplicableList(b, items)
    decreases |b|
  {
    if |b| == 0 {
      assert a + b == a;
    } else {
      var n := |b| - 1;
      var c := b[n];
      var tail := if CouponDiscount(c, items) > 0.0 then [EntryFor(c, items)] else [];
      assert (a + b)[..|a + b| - 1] == a + b[..n];
      assert (a + b)[|a + b| - 1] == c;
      ApplicableAppend(a, b[..n], items);
      assert ApplicableList(a + b, items) == ApplicableList(a + b[..n], items) + tail;
      assert ApplicableList(b, items) == ApplicableList(b[..n], items) + tail;
    }
  }

  /** Every stored coupon with a positive discount is listed. */
  lemma {:induction false} ApplicableComplete(store: seq<Coupon>, items: seq<CartItem>, k: int)
    requires AllEvaluable(store)
    requires 0 <= k < |store| && CouponDiscount(store[k], items) > 0.0
    ensures EntryFor(store[k], items) in ApplicableList(store, items)
  {
    var c := store[k];
    var before, after := store[..k], store[k + 1..];
    assert store == before + [c] + after;
    assert [c][..0] == [];
    assert ApplicableList([c], items) == [EntryFor(c, items)];
    ApplicableAppend(before, [c], items);
    ApplicableAppend(before + [c], after, items);
    assert ApplicableList(store, items)
      == ApplicableList(before, items) + [EntryFor(c, items)] + ApplicableList(after, items);
  }

  /** Every listed entry describes a stored coupon with a positive discount. */
  lemma {:induction false} ApplicableSound(store: seq<Coupon>, items: seq<CartItem>, e: Entry)
    requires AllEvaluable(store)
    requires e in ApplicableList(store, items)
    ensures exists k :: 0 <= k < |store| && CouponDiscount(store[k], items) > 0.0 && e == EntryFor(store[k], items)
  {
    var n := |store| - 1;
    var prefix, c := store[..n], store[n];
    var tail := if CouponDiscount(c, items) > 0.0 then [EntryFor(c, items)] else [];
    assert ApplicableList(store, items) == ApplicableList(prefix, items) + tail;
    if e in ApplicableList(prefix, items) {
      ApplicableSound(prefix, items, e);
      var k :| 0 <= k < n && CouponDiscount(prefix[k], items) > 0.0 && e == EntryFor(prefix[k], items);
      assert prefix[k] == store[k];
    } else {
      assert e in tail;
    }
  }

  /** `applicableCoupons`: one pass over the store, appending each coupon that earns a discount. */
  method ApplicableCoupons(store: seq<Coupon>, items: seq<CartItem>) returns (result: seq<Entry>)
    requires AllEvaluable(store)
    ensures result == ApplicableList(store, items)
  {
    var total := CartTotal(items);
    result := [];
    for k := 0 to |store|
      invariant result == ApplicableList(store[..k], items)
    {
      var coupon := store[k];
      assert store[..k + 1][..k] == store[..k];
      var discount := EvaluateDiscount(coupon, items, total);
      if discount > 0.0 {
        result := result + [Entry(coupon.id, TypeName(coupon.ctype), discount)];
      }
    }
    assert store[..|store|] == store;
  }
}
