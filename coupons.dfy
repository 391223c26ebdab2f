/**
 * Coupon records and the coupon store. The store is the repository's content in
 * insertion order; lookups by an unknown id fail with NotFound.
 */
module Coupons {
  import opened Wrappers
  import opened Cart

  type CouponId = int

  datatype CouponType = CartWise | ProductWise | BxGy

  /** One entry of a buy or get list: a product and a quantity. */
  datatype BuyGet = BuyGet(productId: ProductId, quantity: int)

  /**
   * The type-specific parameters, as one record whose every field may be absent:
   * threshold and discount (a percentage) for cart-wise coupons, product id and
   * discount for product-wise coupons, the buy and get lists and an optional
   * repetition limit for buy-X-get-Y coupons.
   */
  datatype Details = Details(
    threshold: Option<real>,
    discount: Option<real>,
    productId: Option<ProductId>,
    buyProducts: Option<seq<BuyGet>>,
    getProducts: Option<seq<BuyGet>>,
    repetitionLimit: Option<int>)

  datatype Coupon = Coupon(id: CouponId, name: string, ctype: CouponType, details: Details)

  /** The fields a create or update request carries. */
  datatype CouponRequest = CouponRequest(name: string, ctype: CouponType, details: Details)

  datatype StoreError = NotFound

  /** The name of the type as listed: the enum constant's name in lower case. */
  function TypeName(t: CouponType): (r: string)
    ensures |r| > 0
    ensures forall i :: 0 <= i < |r| ==> 'a' <= r[i] <= 'z' || r[i] == '_'
  {
    match t
    case CartWise => "cart_wise"
    case ProductWise => "product_wise"
    case BxGy => "bxgy"
  }

  /** Different types are listed under different names. */
  lemma TypeNameInjective(s: CouponType, t: CouponType)
    ensures TypeName(s) == TypeName(t) ==> s == t
  {
    if s != t {
      assert TypeName(s)[0] != TypeName(t)[0];
    }
  }

  /** Ids are primary keys: no two stored coupons share one. */
  predicate UniqueIds(store: seq<Coupon>) {
    forall i, j :: 0 <= i < j < |store| ==> store[i].id != store[j].id
  }

  predicate Stored(store: seq<Coupon>, id: CouponId) {
    exists k :: 0 <= k < |store| && store[k].id == id
  }

  /** The position of the coupon with id `id`, if any. */
  function IndexOf(store: seq<Coupon>, id: CouponId): (r: Option<nat>)
    ensures r.None? <==> !Stored(store, id)
    ensures r.Some? ==> r.value < |store| && store[r.value].id == id
    ensures r.Some? ==> forall j :: 0 <= j < r.value ==> store[j].id != id
  {
    if |store| == 0 then None
    else if store[0].id == id then Some(0)
    else
      match IndexOf(store[1..], id)
      case None =>
        assert forall k :: 0 < k < |store| ==> store[k] == store[1..][k - 1];
        None
      case Some(k) => Some(k + 1)
  }

  /** `get(id)`: the stored coupon with that id, or NotFound. */
  function Get(store: seq<Coupon>, id: CouponId): (r: Result<Coupon, StoreError>)
    ensures r.Err? <==> !Stored(store, id)
    ensures r.Ok? ==> r.value in store && r.value.id == id
    ensures r.Ok? && UniqueIds(store) ==> forall c :: c in store && c.id == id ==> c == r.value
  {
    match IndexOf(store, id)
    case None => Err(NotFound)
    case Some(k) => Ok(store[k])
  }

  /**
   * `update(id, request)`: NotFound for an unknown id; otherwise the coupon keeps its
   * id and its place in the store, takes the request's name, type and details, and is
   * returned with the new store.
   */
  function Update(store: seq<Coupon>, id: CouponId, req: CouponRequest): (r: Result<(seq<Coupon>, Coupon), StoreError>)
    ensures r.Err? <==> !Stored(store, id)
    ensures r.Ok? ==> r.value.1 == Coupon(id, req.name, req.ctype, req.details)
    ensures r.Ok? ==> |r.value.0| == |store|
    ensures r.Ok? ==> forall k :: 0 <= k < |store| ==> r.value.0[k].id == store[k].id
  {
    match IndexOf(store, id)
    case None => Err(NotFound)
    case Some(k) =>
      var updated := Coupon(id, req.name, req.ctype, req.details);
      Ok((store[k := updated], updated))
  }

  /** Reading back an updated coupon returns the update; every other coupon is as before. */
  lemma UpdateThenGet(store: seq<Coupon>, id: CouponId, req: CouponRequest, other: CouponId)
    requires UniqueIds(store)
    requires Update(store, id, req).Ok?
    ensures UniqueIds(Update(store, id, req).value.0)
    ensures Get(Update(store, id, req).value.0, id) == Ok(Update(store, id, req).value.1)
    ensures other != id ==> Get(Update(store, id, req).value.0, other) == Get(store, other)
  {
    var k := IndexOf(store, id).value;
    var s' := Update(store, id, req).value.0;
    assert s' == store[k := Coupon(id, req.name, req.ctype, req.details)];
    assert IndexOf(s', id) == Some(k);
    if other != id {
      match IndexOf(store, other)
      case None =>
        assert !Stored(s', other);
      case Some(j) =>
        assert IndexOf(s', other) == Some(j);
    }
  }
}
