/**
 * The cart the engine works on: an ordered list of lines (product id, quantity,
 * unit price), its total, and the two product lookups the engine uses: the first line
 * with a product (a stream's findFirst) and the product index a HashMap builds, in
 * which a later line with the same product replaces an earlier one.
 */
module Cart {
  import opened Wrappers

  type ProductId = int

  datatype CartItem = CartItem(productId: ProductId, quantity: int, price: real)

  /**
   * The line constraints the request classes declare (quantity at least 1, price not
   * negative) but nothing enforces. The engine does not need them; only the
   * non-negativity lemmas take them as hypotheses.
   */
  predicate ValidItem(item: CartItem) {
    item.quantity >= 1 && item.price >= 0.0
  }

  predicate ValidItems(items: seq<CartItem>) {
    forall k :: 0 <= k < |items| ==> ValidItem(items[k])
  }

  /** No product appears on two lines. */
  predicate DistinctProducts(items: seq<CartItem>) {
    forall i, j :: 0 <= i < j < |items| ==> items[i].productId != items[j].productId
  }

  /** price × quantity of one line. */
  function Subtotal(item: CartItem): real {
    item.price * item.quantity as real
  }

  /** The sum of the line subtotals, added from the first line on, starting at 0. */
  function CartTotal(items: seq<CartItem>): real {
    if |items| == 0 then 0.0 else CartTotal(items[..|items| - 1]) + Subtotal(items[|items| - 1])
  }

  lemma {:induction false} CartTotalAppend(a: seq<CartItem>, b: seq<CartItem>)
    ensures CartTotal(a + b) == CartTotal(a) + CartTotal(b)
    decreases |b|
  {
    if |b| == 0 {
      assert a + b == a;
    } else {
      var n := |b| - 1;
      assert (a + b)[..|a + b| - 1] == a + b[..n];
      CartTotalAppend(a, b[..n]);
    }
  }

  /** The total does not depend on the order of the lines. */
  lemma {:induction false} CartTotalPermutation(a: seq<CartItem>, b: seq<CartItem>)
    requires multiset(a) == multiset(b)
    ensures CartTotal(a) == CartTotal(b)
    decreases |a|
  {
    if |a| > 0 {
      var n := |a| - 1;
      var x := a[n];
      assert x in multiset(b);
      var k :| 0 <= k < |b| && b[k] == x;
      var rest := b[..k] + b[k + 1..];
      assert b == b[..k] + [x] + b[k + 1..];
      assert a == a[..n] + [x];
      assert multiset(b) == multiset(b[..k]) + multiset([x]) + multiset(b[k + 1..]);
      assert multiset(rest) == multiset(b[..k]) + multiset(b[k + 1..]);
      assert multiset(a) == multiset(a[..n]) + multiset([x]);
      assert multiset(a[..n]) == multiset(a) - multiset{x};
      assert multiset(rest) == multiset(b) - multiset{x};
      CartTotalPermutation(a[..n], rest);
      CartTotalAppend(b[..k] + [x], b[k + 1..]);
      CartTotalAppend(b[..k], [x]);
      CartTotalAppend(b[..k], b[k + 1..]);
      assert CartTotal([x]) == Subtotal(x);
    } else {
      assert b == [];
    }
  }

  lemma {:induction false} CartTotalNonNegative(items: seq<CartItem>)
    requires ValidItems(items)
    ensures CartTotal(items) >= 0.0
  {
    if |items| > 0 {
      CartTotalNonNegative(items[..|items| - 1]);
    }
  }

  /** `k` is the first line holding product `pid`. */
  predicate IsFirstWith(items: seq<CartItem>, pid: ProductId, k: int) {
    0 <= k < |items| && items[k].productId == pid
    && forall j :: 0 <= j < k ==> items[j].productId != pid
  }

  /** `k` is the last line holding product `pid`. */
  predicate IsLastWith(items: seq<CartItem>, pid: ProductId, k: int) {
    0 <= k < |items| && items[k].productId == pid
    && forall j :: k < j < |items| ==> items[j].productId != pid
  }

  /** The first line with product `pid`, if any (filter + findFirst). */
  function FirstWith(items: seq<CartItem>, pid: ProductId): (r: Option<CartItem>)
    ensures r.None? <==> forall k :: 0 <= k < |items| ==> items[k].productId != pid
    ensures forall k :: IsFirstWith(items, pid, k) ==> r == Some(items[k])
  {
    if |items| == 0 then None
    else if items[0].productId == pid then Some(items[0])
    else
      assert forall k :: 0 < k < |items| ==> items[k] == items[1..][k - 1];
      assert forall k :: IsFirstWith(items, pid, k) ==> IsFirstWith(items[1..], pid, k - 1);
      FirstWith(items[1..], pid)
  }

  /**
   * The index the source builds with `map.put(line.productId, line)` over the lines in
   * order: every product of the cart maps to a line holding it, a later line replacing
   * an earlier one.
   */
  function ProductIndex(items: seq<CartItem>): (m: map<ProductId, CartItem>)
    ensures forall pid :: pid in m ==> m[pid].productId == pid && m[pid] in items
  {
    if |items| == 0 then map[]
    else
      var last := items[|items| - 1];
      ProductIndex(items[..|items| - 1])[last.productId := last]
  }

  /** The index holds exactly the cart's products. */
  lemma {:induction false} ProductIndexKeys(items: seq<CartItem>, pid: ProductId)
    ensures pid in ProductIndex(items) <==> exists k :: 0 <= k < |items| && items[k].productId == pid
  {
    if |items| > 0 {
      var n := |items| - 1;
      var prefix, last := items[..n], items[n];
      ProductIndexKeys(prefix, pid);
      assert ProductIndex(items) == ProductIndex(prefix)[last.productId := last];
      if last.productId != pid {
        if pid in ProductIndex(prefix) {
          var k :| 0 <= k < n && prefix[k].productId == pid;
          assert items[k] == prefix[k];
        } else {
          forall k | 0 <= k < |items|
            ensures items[k].productId != pid
          {
            if k < n {
              assert items[k] == prefix[k];
            }
          }
        }
      }
    }
  }

  /** The index maps each product to its LAST line. */
  lemma {:induction false} ProductIndexLast(items: seq<CartItem>, pid: ProductId, k: int)
    requires IsLastWith(items, pid, k)
    ensures pid in ProductIndex(items) && ProductIndex(items)[pid] == items[k]
  {
    var n := |items| - 1;
    var prefix, last := items[..n], items[n];
    assert ProductIndex(items) == ProductIndex(prefix)[last.productId := last];
    if k < n {
      assert last.productId != pid;
      assert IsLastWith(prefix, pid, k);
      ProductIndexLast(prefix, pid, k);
    }
  }

  /** With one line per product, the index finds THE line of each product. */
  lemma ProductIndexDistinct(items: seq<CartItem>, k: int)
    requires DistinctProducts(items)
    requires 0 <= k < |items|
    ensures items[k].productId in ProductIndex(items)
    ensures ProductIndex(items)[items[k].productId] == items[k]
  {
    assert IsLastWith(items, items[k].productId, k);
    ProductIndexLast(items, items[k].productId, k);
  }
}
