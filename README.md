# Coupon discount engine

A Dafny model of the discount engine of the coupon service (`CouponService`). Given a
cart (lines of product id, quantity and decimal price) and the coupons held in a store,
the engine computes:

- the cart total;
- the discount of one coupon, by type:
  - cart-wise: a percentage of the total above a threshold;
  - product-wise: a percentage of the first line holding a product;
  - buy-X-get-Y: the value of the free units earned by complete sets of bought products;
- the list of applicable coupons;
- the cart rebuilt with one coupon applied.

The coupon store is a sequence of coupons in insertion order. `get` and `update` fail
with `NotFound` for an unknown id.

Each of the service's loops is a method proved equal to a recursive reference function:

| loop | method | reference function |
|---|---|---|
| count quantities, then keep the running minimum ratio | `ComputeBxGyRepetitions` | `Repetitions` |
| build `cartMap`, then add up the free value | `ApplicableBxGy` | `BxGyDiscount` |
| pass over the store | `ApplicableCoupons` | `ApplicableList` |
| rebuild the cart | `ApplyCoupon` | `AppliedCart` |

The properties are proved as lemmas about the reference functions.

Conventions:

- Money is a `real`.
- `BigDecimal.divide(…, 2, HALF_UP)` is `Money.Round2`: the unique amount in whole cents
  within half a cent of its argument, with ties rounded away from zero.
- Java's truncating integer division is `IntArith.TruncDiv`.
- Every nullable field of the coupon details is an `Option`.

Files:

| file | contents |
|---|---|
| `wrappers.dfy` | `Option` and `Result` |
| `money.dfy` | rounding to cents |
| `int_arith.dfy` | `Math.min`, `Math.max` and Java's truncating integer division |
| `cart.dfy` | cart lines, the total, the first line of a product, and the product index that `HashMap.put` builds (the last line of a product wins) |
| `coupons.dfy` | coupons and the store |
| `discount.dfy` | the three discounts and the two evaluation loops |
| `discount_properties.dfy` | properties of the discounts |
| `applicable.dfy` | the applicable list |
| `apply.dfy` | applying a coupon |
| `apply_properties.dfy` | per-line results and how line discounts add up |
| `scenarios.dfy` | worked carts, including the sample cart of the service's tests |

Behaviour of the code that the model keeps as written (lines of
`src/main/java/com/monkcommerce/couponapi/service/CouponService.java`):

- **No expiry.** The tests expect an expired coupon to be left out of the applicable
  list and to make apply fail (`CouponServiceTest.java:88-99`). The coupon entity and
  its details have no expiry field, and neither `applicableCoupons` (68-87) nor
  `applyCoupon` (137-182) checks a date. The model has no expiry either.
- **Rounding.** The cart-wise and product-wise discounts are rounded to cents with
  HALF_UP (92, 101, 158). The buy-X-get-Y free value is a sum of price × units (110-121)
  and is never rounded.
- **Total discount.** `applyCoupon` reports the discount computed by type (143-147, 178).
  That is not built from the line discounts (155-171).
  - `ApplyProperties.LineDiscountsReconcile` proves the two agree when the cart has one
    line per product.
  - `Scenarios.DuplicateLinesDoNotReconcile` shows they differ when a product repeats.
    The product-wise total counts only the first line of the product (97-99). The
    per-line loop discounts every line that holds it (156-158).
- **Repetition limit.** Any integer limit is accepted (108). A limit of 0 or below
  makes the repetitions at most that limit, so the coupon earns nothing (109, 165).
- **Quantity of a buy-X-get-Y line.** When several get entries name the same product,
  the line's discount adds up the free units of all of them (166). The line's quantity
  is overwritten by each entry in turn (167), so it shows only the free units of the
  last one. `ApplyProperties.BxGyLines` states this.
- **Cart validation.** The engine runs on any list of lines. The cart classes declare
  constraints (a non-empty list, `CartDto.java:12`; a product id and a price present,
  quantity at least 1 and price at least 0, `CartDto.java:24-32`), but nothing enforces
  them. The request body is a `Map` whose `@Valid` does not cascade into the cart
  (`CouponController.java:56,66`). So the model does not require them. `Cart.ValidItems`
  (quantity at least 1, price at least 0 on every line) is a hypothesis of the
  non-negativity lemmas only.

## Model

| member | source | states |
|---|---|---|
| Money.Round2 | src/main/java/com/monkcommerce/couponapi/service/CouponService.java:92 | HALF_UP to two places: the result is a whole number of cents within half a cent of the argument, a tie going up for non-negative amounts and down for negative ones |
| Money.Round2Unique | src/main/java/com/monkcommerce/couponapi/service/CouponService.java:92 | any amount in whole cents inside that half-cent window is the rounded value, so the rounding is fully determined |
| Money.Round2OfCents | src/main/java/com/monkcommerce/couponapi/service/CouponService.java:101 | an amount already in whole cents is left unchanged by the rounding |
| Money.Round2Symmetric | src/main/java/com/monkcommerce/couponapi/service/CouponService.java:158 | HALF_UP rounds away from zero: rounding a negated amount negates the rounded amount |
| IntArith.TruncDiv | src/main/java/com/monkcommerce/couponapi/service/CouponService.java:131 | Java's `int` division: the magnitude is the quotient of the magnitudes and the sign is the product of the signs, which agrees with floor division for non-negative operands |
| IntArith.TruncDivBounds | src/main/java/com/monkcommerce/couponapi/service/CouponService.java:131 | the truncated quotient times the divisor never overshoots the dividend in magnitude, and one more would |
| Cart.CartTotal | src/main/java/com/monkcommerce/couponapi/service/CouponService.java:62-66 | `cartTotal`: the sum of price × quantity over the lines, folded from 0; its properties are the three lemmas below |
| Cart.CartTotalAppend | src/main/java/com/monkcommerce/couponapi/service/CouponService.java:62-66 | the total of a concatenation is the sum of the totals, so the total of the empty cart is 0 and each line adds price × quantity |
| Cart.CartTotalPermutation | src/main/java/com/monkcommerce/couponapi/service/CouponService.java:62-66 | the total does not depend on the order of the lines: two carts with the same multiset of lines have equal totals |
| Cart.CartTotalNonNegative | src/main/java/com/monkcommerce/couponapi/service/CouponService.java:62-66 | a cart of valid lines, with quantity ≥ 1 and price ≥ 0, has a total of at least 0 |
| Cart.FirstWith | src/main/java/com/monkcommerce/couponapi/service/CouponService.java:97-99 | `filter` then `findFirst`: nothing exactly when no line holds the product, otherwise the line at the first index that holds it |
| Cart.ProductIndex | src/main/java/com/monkcommerce/couponapi/service/CouponService.java:111-112 | every entry of the map built by `put` over the lines maps a product to one of the cart's lines holding that product |
| Cart.ProductIndexKeys | src/main/java/com/monkcommerce/couponapi/service/CouponService.java:126 | the map's keys are exactly the products of the cart |
| Cart.ProductIndexLast | src/main/java/com/monkcommerce/couponapi/service/CouponService.java:112 | a later `put` replaces an earlier one: each product maps to its LAST line |
| Cart.ProductIndexDistinct | src/main/java/com/monkcommerce/couponapi/service/CouponService.java:111-112 | with one line per product, each line is the map's entry for its product |
| Coupons.TypeName | src/main/java/com/monkcommerce/couponapi/service/CouponService.java:81 | the listed type name is the enum constant's name in lower case: non-empty, lower-case letters and underscores only |
| Coupons.TypeNameInjective | src/main/java/com/monkcommerce/couponapi/service/CouponService.java:81 | two coupon types never share a listed name |
| Coupons.IndexOf | src/main/java/com/monkcommerce/couponapi/service/CouponService.java:48 | lookup by id: nothing exactly when no coupon has the id, otherwise the first position holding it |
| Coupons.Get | src/main/java/com/monkcommerce/couponapi/service/CouponService.java:48 | `get` fails with NotFound exactly when no stored coupon has the id; otherwise it returns a stored coupon with that id, the only one when ids are unique |
| Coupons.Update | src/main/java/com/monkcommerce/couponapi/service/CouponService.java:38-44 | `update` fails with NotFound exactly when the id is unknown; otherwise the returned coupon keeps its id and takes the request's name, type and details, and the store keeps its length and its ids |
| Coupons.UpdateThenGet | src/main/java/com/monkcommerce/couponapi/service/CouponService.java:38-48 | after an update ids stay unique, `get` of the updated id returns the update, and `get` of any other id is unchanged |
| Discount.CartWiseDiscount | src/main/java/com/monkcommerce/couponapi/service/CouponService.java:89-93 | a whole number of cents; non-zero only when threshold and percentage are both present and the total is strictly above the threshold, and then the percentage of the total rounded HALF_UP |
| Discount.ProductWiseDiscount | src/main/java/com/monkcommerce/couponapi/service/CouponService.java:95-103 | a whole number of cents; non-zero only when product and percentage are present and some line holds the product; equals the rounded percentage of the subtotal of the FIRST such line |
| Discount.LinePercent | src/main/java/com/monkcommerce/couponapi/service/CouponService.java:100-101 | the percentage of a line's subtotal, rounded HALF_UP: a whole number of cents within half a cent of the exact amount |
| Discount.Available | src/main/java/com/monkcommerce/couponapi/service/CouponService.java:126-130 | the quantity `counts.getOrDefault` returns: that of the product's index entry, 0 without one; `AvailableIsLastLine` states which line that is |
| Discount.Ratio | src/main/java/com/monkcommerce/couponapi/service/CouponService.java:131 | one buy entry's ratio: the available quantity divided by the entry's quantity with Java's truncating division |
| Discount.MinRatio | src/main/java/com/monkcommerce/couponapi/service/CouponService.java:129-132 | the running minimum of the ratios is at most every entry's ratio and equal to one of them |
| Discount.Repetitions | src/main/java/com/monkcommerce/couponapi/service/CouponService.java:124-135 | 0 without buy entries; otherwise at most every buy entry's ratio of available to required quantity and equal to one of them |
| Discount.LimitedRepetitions | src/main/java/com/monkcommerce/couponapi/service/CouponService.java:108 | `Math.min` with the limit: at most the repetitions and at most the limit when there is one, and equal to one of the two |
| Discount.FreeUnitsValue | src/main/java/com/monkcommerce/couponapi/service/CouponService.java:114-119 | one get entry's free value: the price of the product's index entry times get quantity × repetitions, nothing when the product has no line |
| Discount.FreeValue | src/main/java/com/monkcommerce/couponapi/service/CouponService.java:110-120 | the free value of a get list: the sum of the entries' free values in list order; its properties are the `FreeValue…` lemmas |
| Discount.BxGyDiscount | src/main/java/com/monkcommerce/couponapi/service/CouponService.java:105-122 | non-zero only when both lists are present, the buy list is non-empty and the limited repetitions are positive; then the free value of the get list over the cart's product index (last line of each product) at the limited repetitions |
| Discount.CouponDiscount | src/main/java/com/monkcommerce/couponapi/service/CouponService.java:73-77 | the switch on the coupon type: the type's discount, whole cents for cart-wise and product-wise coupons |
| Discount.ComputeBxGyRepetitions | src/main/java/com/monkcommerce/couponapi/service/CouponService.java:124-135 | the loops over the counts map and the buy entries compute exactly `Repetitions` |
| Discount.ApplicableBxGy | src/main/java/com/monkcommerce/couponapi/service/CouponService.java:105-122 | the guards, the `cartMap` loop and the free-value loop compute exactly `BxGyDiscount` |
| Discount.SumFreeValue | src/main/java/com/monkcommerce/couponapi/service/CouponService.java:113-120 | the loop over the get entries adds up exactly the free value of the entries whose product is in the map |
| Discount.EvaluateDiscount | src/main/java/com/monkcommerce/couponapi/service/CouponService.java:73-77 | the switch on the coupon type computes exactly the type's discount |
| DiscountProperties.AvailableIsLastLine | src/main/java/com/monkcommerce/couponapi/service/CouponService.java:126-130 | `getOrDefault` gives 0 for a product with no line, and otherwise the quantity of the product's last line |
| DiscountProperties.AvailableNonNegative | src/main/java/com/monkcommerce/couponapi/service/CouponService.java:130 | for a valid cart the available quantity is never negative |
| DiscountProperties.RepetitionsNonNegative | src/main/java/com/monkcommerce/couponapi/service/CouponService.java:124-135 | for a valid cart and positive buy quantities the repetitions are at least 0 |
| DiscountProperties.FreeValueLinear | src/main/java/com/monkcommerce/couponapi/service/CouponService.java:113-120 | the free value is the number of repetitions times the free value of a single repetition |
| DiscountProperties.FreeValueZero | src/main/java/com/monkcommerce/couponapi/service/CouponService.java:113-120 | with 0 repetitions the free value is 0 |
| DiscountProperties.FreeValueNonNegative | src/main/java/com/monkcommerce/couponapi/service/CouponService.java:113-120 | with non-negative prices, get quantities and repetitions the free value is at least 0 |
| DiscountProperties.InCart | src/main/java/com/monkcommerce/couponapi/service/CouponService.java:114-115 | the `item != null` filter: the entries kept are entries of the list whose product is in the cart, and every such entry is kept |
| DiscountProperties.FreeValueOnlyCartProducts | src/main/java/com/monkcommerce/couponapi/service/CouponService.java:114-119 | get entries for products absent from the cart contribute nothing: the free value over all entries equals that over the entries in the cart |
| DiscountProperties.BxGyDiscountNonNegative | src/main/java/com/monkcommerce/couponapi/service/CouponService.java:105-122 | for a valid cart and non-negative get quantities the buy-X-get-Y discount is at least 0 |
| DiscountProperties.ProductWiseDiscountSnoc | src/main/java/com/monkcommerce/couponapi/service/CouponService.java:95-103 | with one line per product, adding a line adds its rounded percentage when it holds the coupon's product and nothing otherwise |
| Applicable.ApplicableList | src/main/java/com/monkcommerce/couponapi/service/CouponService.java:68-87 | no longer than the store, and every listed discount is strictly positive |
| Applicable.ApplicableAppend | src/main/java/com/monkcommerce/couponapi/service/CouponService.java:71-85 | store order is kept: the list for a store made of two parts is the first part's list followed by the second's |
| Applicable.ApplicableComplete | src/main/java/com/monkcommerce/couponapi/service/CouponService.java:78-84 | every stored coupon with a positive discount is listed with its id, lower-case type name and discount |
| Applicable.ApplicableSound | src/main/java/com/monkcommerce/couponapi/service/CouponService.java:78-84 | every listed entry is that of a stored coupon whose discount is positive |
| Applicable.ApplicableCoupons | src/main/java/com/monkcommerce/couponapi/service/CouponService.java:68-87 | the loop over the store computes exactly `ApplicableList` |
| Apply.LineRepetitions | src/main/java/com/monkcommerce/couponapi/service/CouponService.java:161-165 | `Math.max(reps, 0)`: never negative, at least the limited repetitions, and either 0 or the limited repetitions |
| Apply.GetLineValue | src/main/java/com/monkcommerce/couponapi/service/CouponService.java:163-169 | a line's buy-X-get-Y discount: price × get quantity × repetitions added over every get entry naming its product; see `GetLineUnnamed` |
| Apply.GetLineQuantity | src/main/java/com/monkcommerce/couponapi/service/CouponService.java:163-169 | a line's reported quantity: each get entry naming its product overwrites it with ordered quantity plus that entry's free units; see `GetLineLastNamed` |
| Apply.ApplyLine | src/main/java/com/monkcommerce/couponapi/service/CouponService.java:151-171 | one output line: product and price kept, quantity kept unless the coupon is buy-X-get-Y; the per-type lemmas state the discount |
| Apply.AppliedLines | src/main/java/com/monkcommerce/couponapi/service/CouponService.java:150-173 | one output line per cart line, in order, each the line the loop body builds for it |
| Apply.AppliedCart | src/main/java/com/monkcommerce/couponapi/service/CouponService.java:137-182 | fails with NotFound exactly for an unknown id; otherwise one line per cart line with product and price kept, the lines those of `AppliedLines`, total price equal to the cart total, total discount equal to the coupon's discount by type, and final price equal to total price minus total discount |
| Apply.ApplyGetEntries | src/main/java/com/monkcommerce/couponapi/service/CouponService.java:163-169 | the loop over the get entries yields the reported quantity and the accumulated discount of the line |
| Apply.ApplyToLine | src/main/java/com/monkcommerce/couponapi/service/CouponService.java:151-171 | the loop body computes exactly the output line of the reference definition |
| Apply.ApplyCoupon | src/main/java/com/monkcommerce/couponapi/service/CouponService.java:137-182 | the lookup, the evaluation and the per-line loop compute exactly `AppliedCart` |
| ApplyProperties.GetLineUnnamed | src/main/java/com/monkcommerce/couponapi/service/CouponService.java:163-169 | a line that no get entry names keeps its quantity and earns no discount |
| ApplyProperties.GetLineLastNamed | src/main/java/com/monkcommerce/couponapi/service/CouponService.java:163-169 | a line that get entries name reports its ordered quantity plus the free units of the LAST such entry |
| ApplyProperties.CartWiseLines | src/main/java/com/monkcommerce/couponapi/service/CouponService.java:150-173 | a cart-wise coupon leaves every line's quantity unchanged and gives every line a discount of 0 |
| ApplyProperties.ProductWiseLines | src/main/java/com/monkcommerce/couponapi/service/CouponService.java:155-159 | a product-wise coupon keeps every quantity, discounts only lines of its product, and gives each such line its own rounded percentage |
| ApplyProperties.BxGyLines | src/main/java/com/monkcommerce/couponapi/service/CouponService.java:160-170 | a buy-X-get-Y line not named by a get entry keeps its quantity and earns 0; a named one reports its quantity raised by the last entry's quantity × max(repetitions, 0) |
| ApplyProperties.FreeValueAddLine | src/main/java/com/monkcommerce/couponapi/service/CouponService.java:111-120 | adding a line for a new product adds that line's per-line free value to the free value |
| ApplyProperties.BxGyLinesTotal | src/main/java/com/monkcommerce/couponapi/service/CouponService.java:160-170 | with one line per product, the buy-X-get-Y line discounts add up to the free value of those lines |
| ApplyProperties.ProductWiseLinesTotal | src/main/java/com/monkcommerce/couponapi/service/CouponService.java:155-159 | with one line per product, the product-wise line discounts add up to the coupon's product-wise discount |
| ApplyProperties.BxGyReconcile | src/main/java/com/monkcommerce/couponapi/service/CouponService.java:143-173 | with one line per product, the buy-X-get-Y line discounts add up to the coupon's discount |
| ApplyProperties.LineDiscountsReconcile | src/main/java/com/monkcommerce/couponapi/service/CouponService.java:137-182 | with one line per product, the line discounts of a product-wise or buy-X-get-Y coupon add up to the reported total discount |
| Scenarios.SampleCartWise | src/test/java/com/monkcommerce/couponapi/service/CouponServiceTest.java:78-86 | the sample cart totals 440; 10% above 100 is listed with 44.00 and applying it leaves 396.00 to pay |
| Scenarios.AtThresholdNothing | src/main/java/com/monkcommerce/couponapi/service/CouponService.java:91 | a cart whose total equals the threshold is not listed |
| Scenarios.BuyTwoOfFive | src/main/java/com/monkcommerce/couponapi/service/CouponService.java:129-132 | five units against a buy quantity of 2 make 2 repetitions (floor division) |
| Scenarios.DuplicateLinesDoNotReconcile | src/main/java/com/monkcommerce/couponapi/service/CouponService.java:143-173 | with two lines of the same product, the product-wise line discounts add up to 2.00 while the reported total discount is 1.00 |

## Left out

- Expiry: no code in the service, the coupon entity or its details reads an expiry date.
  Only the tests mention one, so the model has no expiry.
- Create, delete and list: these are JPA and Spring Data calls. Id generation and
  `deleteById` on a missing id happen in libraries that are not part of this model.
- JSON: the `readDetails` and `writeJson` round trip through Jackson is left out. The
  details are modelled directly as a record of options.
- REST controller, OpenAPI configuration and transactions: these are routing and
  infrastructure with no discount logic.
- Discount.Repetitions: does not model the `Integer.MAX_VALUE` starting value. The
  source returns 0 when the minimum ratio is itself `Integer.MAX_VALUE`, for example a
  line of 2147483647 units against a buy quantity of 1. Since quantities are not
  validated, −2147483647 units against −1 gives the same. Integers here are unbounded.
- Discount.FreeUnitsValue: does not model 32-bit overflow of `get.getQuantity() *
  repetitions`, because integers here are unbounded.
- Apply.ApplyLine: does not model 32-bit overflow of the free units or of the raised
  quantity, for the same reason.
- `BigDecimal` scale: 44 and 44.00 are the same `real`. The model keeps values, not
  their printed scale.
- Null product ids and prices on cart lines are not modelled: line fields are plain
  values. A null price throws `NullPointerException` in `cartTotal`
  (`CouponService.java:64`), which both entry points call first. A null product id
  throws at `CouponService.java:98` for a product-wise coupon with both fields set.
- Null product ids inside buy and get entries are not modelled: the model's entry ids
  are plain integers. The `@NotNull` on them is not enforced, because the lists carry no
  `@Valid`. Entry quantities are primitive `int`s in the source and cannot be null.
- Coupons.TypeName: assumes `toLowerCase()` lower-cases ASCII letters as in English.
  Under a Turkish default locale `I` becomes a dotless `ı` (for example `"cart_wıse"`),
  and the model does not capture that.
- A buy entry with quantity 0 throws `ArithmeticException`. The model does not include
  this crash; evaluation requires every buy quantity to be non-zero (`NoZeroBuy`).
- A product-wise coupon with a product id but no percentage throws
  `NullPointerException` in the per-line loop when a line holds that product. The model
  does not include this crash; applying a coupon requires `ApplySafe`.
- Concurrency: the engine has none.
