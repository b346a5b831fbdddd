/** The cart / wishlist / orders store of src/store/MeshContext.jsx.

    The provider keeps five pieces of state (`cart`, `wishlist`, `orders`,
    `coupon`, `pincode`) and replaces them through its API; here that is the
    class `MeshStore`, whose methods are proved against the pure list
    operations below. The derived money values (`cartCount`, `subtotal`,
    `couponDiscount`, `shipping`, `total`) are functions. Money is `real`,
    so no floating-point rounding is modelled. */
module Mesh {
  import opened Wrappers
  import Text

  type ProductId = int

  /** A catalog product; a missing `price` is `None` and counts as 0. */
  datatype Product = Product(
    id: ProductId,
    title: string,
    price: Option<real>,
    thumbnail: Option<string>,
    image: Option<string>,
    images: seq<string>)

  /** One cart line `{product, qty}`. */
  datatype Line = Line(product: Product, qty: int)

  /** An applied coupon `{code, type, value}`; `kind` is the source's `type`. */
  datatype Coupon = Coupon(code: string, kind: string, value: real)

  datatype Address = Address(
    name: string, phone: string, addressLine: string, city: string, state: string, pincode: string)

  /** The `payment` record of an order (`payMethod` is its `method`); absent fields are `None`. */
  datatype Payment = Payment(payMethod: Option<string>, gateway: Option<string>)

  /** An order `{id, items, subtotal, couponDiscount, shipping, total, pincode,
      address, paid, payment, status, createdAt}`. */
  datatype Order = Order(
    id: string,
    items: seq<Line>,
    subtotal: real,
    couponDiscount: real,
    shipping: real,
    total: real,
    pincode: string,
    address: Address,
    paid: bool,
    payment: Option<Payment>,
    status: Option<string>,
    createdAt: string)

  /** `product.price || 0` */
  function PriceOf(p: Product): real {
    match p.price
    case Some(v) => v
    case None => 0.0
  }

  /* ---------- cart lines ---------- */

  function Ids(cart: seq<Line>): (ids: seq<ProductId>)
    ensures |ids| == |cart|
    ensures forall k :: 0 <= k < |cart| ==> ids[k] == cart[k].product.id
  {
    seq(|cart|, k requires 0 <= k < |cart| => cart[k].product.id)
  }

  predicate HasLine(cart: seq<Line>, id: ProductId) {
    exists k :: 0 <= k < |cart| && cart[k].product.id == id
  }

  predicate Distinct<T(==)>(s: seq<T>) {
    forall i, j :: 0 <= i < j < |s| ==> s[i] != s[j]
  }

  /** `cart.findIndex(p => p.product.id === id)`: the first line with that id, or -1. */
  function FindLine(cart: seq<Line>, id: ProductId): (i: int)
    ensures -1 <= i < |cart|
    ensures i == -1 <==> !HasLine(cart, id)
    ensures i >= 0 ==> cart[i].product.id == id
    ensures forall k :: 0 <= k < i ==> cart[k].product.id != id
  {
    if cart == [] then -1
    else if cart[0].product.id == id then 0
    else
      var j := FindLine(cart[1..], id);
      assert forall k :: 1 <= k < |cart| ==> cart[k] == cart[1..][k - 1];
      if j == -1 then -1 else j + 1
  }

  /** addToCart's update: merge `qty` into the first line with the product's
      id, or append a new line. */
  function CartAdd(cart: seq<Line>, product: Product, qty: int): seq<Line> {
    var idx := FindLine(cart, product.id);
    if idx > -1 then cart[idx := cart[idx].(qty := cart[idx].qty + qty)]
    else cart + [Line(product, qty)]
  }

  /** removeFromCart's update: `prev.filter(c => c.product.id !== id)`. */
  function CartRemove(cart: seq<Line>, id: ProductId): (r: seq<Line>)
    ensures !HasLine(r, id)
    ensures forall l :: l in r <==> l in cart && l.product.id != id
    ensures |r| <= |cart|
  {
    if cart == [] then []
    else if cart[0].product.id == id then CartRemove(cart[1..], id)
    else [cart[0]] + CartRemove(cart[1..], id)
  }

  /** updateQty's mapping branch: every line with the id gets the new quantity. */
  function SetQty(cart: seq<Line>, id: ProductId, qty: int): seq<Line> {
    seq(|cart|, k requires 0 <= k < |cart| =>
      if cart[k].product.id == id then cart[k].(qty := qty) else cart[k])
  }

  /** updateQty's update: a non-positive quantity removes the product. */
  function CartUpdateQty(cart: seq<Line>, id: ProductId, qty: int): seq<Line> {
    if qty <= 0 then CartRemove(cart, id) else SetQty(cart, id, qty)
  }

  /* ---------- wishlist and orders ---------- */

  predicate InWishlist(wishlist: seq<Product>, id: ProductId) {
    exists k :: 0 <= k < |wishlist| && wishlist[k].id == id
  }

  function ProductIds(products: seq<Product>): (ids: seq<ProductId>)
    ensures |ids| == |products|
    ensures forall k :: 0 <= k < |products| ==> ids[k] == products[k].id
  {
    seq(|products|, k requires 0 <= k < |products| => products[k].id)
  }

  /** addToWishlist's update: keep the list when the id is present, else prepend. */
  function WishAdd(wishlist: seq<Product>, product: Product): (r: seq<Product>)
    ensures InWishlist(r, product.id)
    ensures forall p :: p in wishlist ==> p in r
    ensures InWishlist(wishlist, product.id) ==> r == wishlist
    ensures !InWishlist(wishlist, product.id) ==> r[0] == product && r[1..] == wishlist
  {
    if InWishlist(wishlist, product.id) then wishlist
    else
      var r := [product] + wishlist;
      assert r[0].id == product.id;
      r
  }

  /** removeFromWishlist's update. */
  function WishRemove(wishlist: seq<Product>, id: ProductId): (r: seq<Product>)
    ensures !InWishlist(r, id)
    ensures forall p :: p in r <==> p in wishlist && p.id != id
  {
    if wishlist == [] then []
    else if wishlist[0].id == id then WishRemove(wishlist[1..], id)
    else [wishlist[0]] + WishRemove(wishlist[1..], id)
  }

  /** The order addOrder stores: the caller's order with `id`, `createdAt`
      and `status` overridden. `now` is Date.now() and `nowIso` the ISO time. */
  function PlacedOrder(order: Order, now: nat, nowIso: string): Order {
    order.(id := "ORD-" + Text.Decimal(now), createdAt := nowIso, status := Some("Processing"))
  }

  /** removeOrder's update. */
  function OrdersRemove(orders: seq<Order>, id: string): (r: seq<Order>)
    ensures forall o :: o in r <==> o in orders && o.id != id
  {
    if orders == [] then []
    else if orders[0].id == id then OrdersRemove(orders[1..], id)
    else [orders[0]] + OrdersRemove(orders[1..], id)
  }

  /* ---------- derived money values ---------- */

  /** `cart.reduce((s, it) => s + it.qty, 0)` */
  function CartCount(cart: seq<Line>): int {
    if cart == [] then 0 else cart[0].qty + CartCount(cart[1..])
  }

  /** `cart.reduce((s, it) => s + (it.product.price || 0) * it.qty, 0)` */
  function Subtotal(cart: seq<Line>): real {
    if cart == [] then 0.0 else PriceOf(cart[0].product) * cart[0].qty as real + Subtotal(cart[1..])
  }

  function CouponDiscount(coupon: Option<Coupon>, subtotal: real): (d: real)
    ensures coupon.None? ==> d == 0.0
    ensures coupon.Some? && coupon.value.kind == "percent" ==> d == subtotal * coupon.value.value / 100.0
    ensures coupon.Some? && coupon.value.kind == "flat" ==> d == coupon.value.value
    ensures coupon.Some? && coupon.value.kind != "percent" && coupon.value.kind != "flat" ==> d == 0.0
  {
    match coupon
    case None => 0.0
    case Some(c) =>
      if c.kind == "percent" then subtotal * (c.value / 100.0)
      else if c.kind == "flat" then c.value
      else 0.0
  }

  /** Free shipping above 499 and for an empty subtotal, 49 otherwise. */
  function Shipping(subtotal: real): (fee: real)
    ensures fee == 0.0 || fee == 49.0
    ensures fee == 49.0 <==> subtotal <= 499.0 && subtotal != 0.0
  {
    if subtotal > 499.0 then 0.0 else if subtotal == 0.0 then 0.0 else 49.0
  }

  /** `Math.max(0, subtotal - couponDiscount + shipping)` */
  function Total(subtotal: real, discount: real, shipping: real): (t: real)
    ensures t >= 0.0 && t >= subtotal - discount + shipping
    ensures t == 0.0 || t == subtotal - discount + shipping
  {
    if subtotal - discount + shipping > 0.0 then subtotal - discount + shipping else 0.0
  }

  /* ---------- properties of the list operations ---------- */

  /** Adding a product already in the cart changes no line's position or id:
      the quantity of its (first) line grows by `qty` and every other line is
      untouched. */
  lemma AddExisting(cart: seq<Line>, product: Product, qty: int)
    requires HasLine(cart, product.id)
    ensures var r := CartAdd(cart, product, qty);
      && |r| == |cart| && Ids(r) == Ids(cart)
      && (exists i :: 0 <= i < |cart| && cart[i].product.id == product.id
                      && r[i] == cart[i].(qty := cart[i].qty + qty)
                      && forall k :: 0 <= k < |cart| && k != i ==> r[k] == cart[k])
  {
    var i := FindLine(cart, product.id);
    var r := CartAdd(cart, product, qty);
    assert r[i] == cart[i].(qty := cart[i].qty + qty);
  }

  /** Adding a product not in the cart appends exactly one line `{product, qty}`. */
  lemma AddNew(cart: seq<Line>, product: Product, qty: int)
    requires !HasLine(cart, product.id)
    ensures CartAdd(cart, product, qty) == cart + [Line(product, qty)]
  {
  }

  /** addToCart keeps the product ids of the cart distinct. */
  lemma AddKeepsIdsDistinct(cart: seq<Line>, product: Product, qty: int)
    requires Distinct(Ids(cart))
    ensures Distinct(Ids(CartAdd(cart, product, qty)))
  {
    var r := CartAdd(cart, product, qty);
    if HasLine(cart, product.id) {
      AddExisting(cart, product, qty);
    } else {
      assert Ids(r) == Ids(cart) + [product.id];
    }
  }

  lemma {:induction false} CartCountAppend(a: seq<Line>, b: seq<Line>)
    ensures CartCount(a + b) == CartCount(a) + CartCount(b)
  {
    if a != [] {
      assert (a + b)[0] == a[0];
      assert (a + b)[1..] == a[1..] + b;
      CartCountAppend(a[1..], b);
    } else {
      assert a + b == b;
    }
  }

  lemma {:induction false} SubtotalAppend(a: seq<Line>, b: seq<Line>)
    ensures Subtotal(a + b) == Subtotal(a) + Subtotal(b)
  {
    if a != [] {
      assert (a + b)[0] == a[0];
      assert (a + b)[1..] == a[1..] + b;
      SubtotalAppend(a[1..], b);
    } else {
      assert a + b == b;
    }
  }

  /** With no negative price and no negative quantity the sum is never
      negative. */
  lemma {:induction false} SubtotalNonNegative(cart: seq<Line>)
    ensures (forall k :: 0 <= k < |cart| ==> PriceOf(cart[k].product) >= 0.0 && cart[k].qty >= 0)
            ==> Subtotal(cart) >= 0.0
  {
    if cart != [] {
      SubtotalNonNegative(cart[1..]);
      if forall k :: 0 <= k < |cart| ==> PriceOf(cart[k].product) >= 0.0 && cart[k].qty >= 0 {
        assert forall k :: 0 <= k < |cart| - 1 ==> cart[1..][k] == cart[k + 1];
        assert PriceOf(cart[0].product) * cart[0].qty as real >= 0.0;
      }
    }
  }

  lemma {:induction false} CartCountReplace(cart: seq<Line>, i: nat, l: Line)
    requires i < |cart|
    ensures CartCount(cart[i := l]) == CartCount(cart) - cart[i].qty + l.qty
  {
    if i > 0 {
      assert cart[i := l][1..] == cart[1..][i - 1 := l];
      CartCountReplace(cart[1..], i - 1, l);
    }
  }

  lemma {:induction false} SubtotalReplace(cart: seq<Line>, i: nat, l: Line)
    requires i < |cart|
    ensures Subtotal(cart[i := l]) == Subtotal(cart) - PriceOf(cart[i].product) * cart[i].qty as real
                                      + PriceOf(l.product) * l.qty as real
  {
    if i > 0 {
      assert cart[i := l][1..] == cart[1..][i - 1 := l];
      SubtotalReplace(cart[1..], i - 1, l);
    }
  }

  /** cartCount after addToCart grows by exactly `qty`. */
  lemma CartCountAdd(cart: seq<Line>, product: Product, qty: int)
    ensures CartCount(CartAdd(cart, product, qty)) == CartCount(cart) + qty
  {
    var i := FindLine(cart, product.id);
    if i > -1 {
      CartCountReplace(cart, i, cart[i].(qty := cart[i].qty + qty));
    } else {
      CartCountAppend(cart, [Line(product, qty)]);
    }
  }

  /** subtotal after addToCart grows by `qty` times the price of the product
      on the line it lands on; a merged line keeps the product object it
      already had, so the price of the earlier copy is the one that counts. */
  lemma SubtotalAdd(cart: seq<Line>, product: Product, qty: int)
    ensures var i := FindLine(cart, product.id);
      var price := if i > -1 then PriceOf(cart[i].product) else PriceOf(product);
      Subtotal(CartAdd(cart, product, qty)) == Subtotal(cart) + price * qty as real
  {
    var i := FindLine(cart, product.id);
    if i > -1 {
      var l := cart[i].(qty := cart[i].qty + qty);
      SubtotalReplace(cart, i, l);
      assert PriceOf(l.product) * l.qty as real
          == PriceOf(cart[i].product) * cart[i].qty as real + PriceOf(cart[i].product) * qty as real;
    } else {
      SubtotalAppend(cart, [Line(product, qty)]);
    }
  }

  /** removeFromCart keeps the remaining lines in their order: removing an
      id that is not in the cart changes nothing. */
  lemma {:induction false} RemoveAbsent(cart: seq<Line>, id: ProductId)
    requires !HasLine(cart, id)
    ensures CartRemove(cart, id) == cart
  {
    if cart != [] {
      assert !HasLine(cart[1..], id) by {
        forall k | 0 <= k < |cart| - 1 ensures cart[1..][k].product.id != id {
          assert cart[1..][k] == cart[k + 1];
        }
      }
      RemoveAbsent(cart[1..], id);
      assert [cart[0]] + cart[1..] == cart;
    }
  }

  lemma {:induction false} RemoveAppend(a: seq<Line>, b: seq<Line>, id: ProductId)
    ensures CartRemove(a + b, id) == CartRemove(a, id) + CartRemove(b, id)
  {
    if a != [] {
      assert (a + b)[0] == a[0];
      assert (a + b)[1..] == a[1..] + b;
      RemoveAppend(a[1..], b, id);
    } else {
      assert a + b == b;
    }
  }

  /** Removing a product just added to a cart that did not hold it gives back
      the cart: removeFromCart undoes addToCart. */
  lemma RemoveUndoesAdd(cart: seq<Line>, product: Product, qty: int)
    requires !HasLine(cart, product.id)
    ensures CartRemove(CartAdd(cart, product, qty), product.id) == cart
  {
    RemoveAppend(cart, [Line(product, qty)], product.id);
    RemoveAbsent(cart, product.id);
  }

  /** Removing an id the wishlist does not hold leaves it as it was, order
      included. */
  lemma {:induction false} WishRemoveAbsent(wishlist: seq<Product>, id: ProductId)
    requires !InWishlist(wishlist, id)
    ensures WishRemove(wishlist, id) == wishlist
  {
    if wishlist != [] {
      assert !InWishlist(wishlist[1..], id) by {
        forall k | 0 <= k < |wishlist| - 1 ensures wishlist[1..][k].id != id {
          assert wishlist[1..][k] == wishlist[k + 1];
        }
      }
      WishRemoveAbsent(wishlist[1..], id);
      assert [wishlist[0]] + wishlist[1..] == wishlist;
    }
  }

  /** One step of the wishlist filter. */
  lemma WishRemoveCons(h: Product, t: seq<Product>, id: ProductId)
    ensures WishRemove([h] + t, id) == if h.id == id then WishRemove(t, id) else [h] + WishRemove(t, id)
  {
    assert ([h] + t)[0] == h;
    assert ([h] + t)[1..] == t;
  }

  /** The wishlist filter distributes over concatenation: the kept products
      stay in their order, each as often as it was there. */
  lemma {:induction false} WishRemoveAppend(a: seq<Product>, b: seq<Product>, id: ProductId)
    ensures WishRemove(a + b, id) == WishRemove(a, id) + WishRemove(b, id)
  {
    if a == [] {
      assert a + b == b;
    } else {
      var h, t := a[0], a[1..];
      assert a == [h] + t;
      assert a + b == [h] + (t + b);
      WishRemoveCons(h, t, id);
      WishRemoveCons(h, t + b, id);
      WishRemoveAppend(t, b, id);
      FilterStep(h.id == id, h, WishRemove(t, id), WishRemove(b, id), WishRemove(a, id), WishRemove(a + b, id));
    }
  }

  /** The inductive step of a filter distributing over concatenation: when the
      head is dropped from both sides or kept on both, the results still
      concatenate. */
  lemma FilterStep<T>(drop: bool, h: T, rt: seq<T>, rb: seq<T>, ra: seq<T>, rab: seq<T>)
    requires ra == if drop then rt else [h] + rt
    requires rab == if drop then rt + rb else [h] + (rt + rb)
    ensures rab == ra + rb
  {
  }

  /** Removing an order id no order has leaves the orders as they were. */
  lemma {:induction false} OrdersRemoveAbsent(orders: seq<Order>, id: string)
    requires forall k :: 0 <= k < |orders| ==> orders[k].id != id
    ensures OrdersRemove(orders, id) == orders
  {
    if orders != [] {
      assert forall k :: 0 <= k < |orders| - 1 ==> orders[1..][k] == orders[k + 1];
      OrdersRemoveAbsent(orders[1..], id);
      assert [orders[0]] + orders[1..] == orders;
    }
  }

  /** The orders filter distributes over concatenation: the kept orders stay
      in their order, each as often as it was there. */
  lemma {:induction false} OrdersRemoveAppend(a: seq<Order>, b: seq<Order>, id: string)
    ensures OrdersRemove(a + b, id) == OrdersRemove(a, id) + OrdersRemove(b, id)
  {
    if a == [] {
      assert a + b == b;
    } else {
      var h, t := a[0], a[1..];
      assert a == [h] + t;
      assert a + b == [h] + (t + b);
      assert (a + b)[0] == h && (a + b)[1..] == t + b;
      OrdersRemoveAppend(t, b, id);
      FilterStep(h.id == id, h, OrdersRemove(t, id), OrdersRemove(b, id), OrdersRemove(a, id), OrdersRemove(a + b, id));
    }
  }

  /** Removing is idempotent. */
  lemma RemoveTwice(cart: seq<Line>, id: ProductId)
    ensures CartRemove(CartRemove(cart, id), id) == CartRemove(cart, id)
  {
    RemoveAbsent(CartRemove(cart, id), id);
  }

  /** updateQty with a non-positive quantity is removeFromCart; with a
      positive one it keeps every line in place, gives the lines with that id
      the new quantity and leaves all other lines as they were. */
  lemma UpdateQtySpec(cart: seq<Line>, id: ProductId, qty: int)
    ensures qty <= 0 ==> CartUpdateQty(cart, id, qty) == CartRemove(cart, id)
    ensures qty > 0 ==>
      var r := CartUpdateQty(cart, id, qty);
      && |r| == |cart| && Ids(r) == Ids(cart)
      && (forall k :: 0 <= k < |cart| && cart[k].product.id == id ==> r[k].qty == qty && r[k].product == cart[k].product)
      && (forall k :: 0 <= k < |cart| && cart[k].product.id != id ==> r[k] == cart[k])
  {
  }

  /** With distinct ids, setting a present product's quantity changes
      cartCount by the difference of the quantities. */
  lemma CartCountUpdate(cart: seq<Line>, id: ProductId, qty: int)
    requires Distinct(Ids(cart)) && HasLine(cart, id) && qty > 0
    ensures CartCount(CartUpdateQty(cart, id, qty)) == CartCount(cart) - cart[FindLine(cart, id)].qty + qty
  {
    var i := FindLine(cart, id);
    assert forall k :: 0 <= k < |cart| && k != i ==> cart[k].product.id != id by {
      assert forall k :: 0 <= k < |cart| && k != i ==> Ids(cart)[k] != Ids(cart)[i];
    }
    assert SetQty(cart, id, qty) == cart[i := cart[i].(qty := qty)];
    CartCountReplace(cart, i, cart[i].(qty := qty));
  }

  /** updateQty and removeFromCart keep the product ids distinct. */
  lemma UpdateKeepsIdsDistinct(cart: seq<Line>, id: ProductId, qty: int)
    requires Distinct(Ids(cart))
    ensures Distinct(Ids(CartUpdateQty(cart, id, qty)))
  {
    if qty <= 0 {
      RemoveKeepsIdsDistinct(cart, id);
    }
  }

  /** A line whose id no other line has keeps the ids distinct. */
  lemma IdsConsDistinct(l: Line, rest: seq<Line>)
    requires Distinct(Ids(rest))
    requires forall k :: 0 <= k < |rest| ==> rest[k].product.id != l.product.id
    ensures Distinct(Ids([l] + rest))
  {
    var s := [l] + rest;
    assert forall k :: 1 <= k < |s| ==> s[k] == rest[k - 1];
  }

  /** A product whose id no other product has keeps the ids distinct. */
  lemma ProductIdsConsDistinct(p: Product, rest: seq<Product>)
    requires Distinct(ProductIds(rest))
    requires forall k :: 0 <= k < |rest| ==> rest[k].id != p.id
    ensures Distinct(ProductIds([p] + rest))
  {
    var s := [p] + rest;
    assert forall k :: 1 <= k < |s| ==> s[k] == rest[k - 1];
  }

  lemma {:induction false} RemoveKeepsIdsDistinct(cart: seq<Line>, id: ProductId)
    requires Distinct(Ids(cart))
    ensures Distinct(Ids(CartRemove(cart, id)))
  {
    if cart != [] {
      assert Distinct(Ids(cart[1..])) by {
        assert forall k :: 0 <= k < |cart| - 1 ==> Ids(cart[1..])[k] == Ids(cart)[k + 1];
      }
      RemoveKeepsIdsDistinct(cart[1..], id);
      if cart[0].product.id != id {
        var rest := CartRemove(cart[1..], id);
        forall k | 0 <= k < |rest| ensures rest[k].product.id != cart[0].product.id {
          assert rest[k] in cart[1..];
          var j :| 0 <= j < |cart| - 1 && cart[1..][j] == rest[k];
          assert Ids(cart)[j + 1] != Ids(cart)[0];
        }
        assert CartRemove(cart, id) == [cart[0]] + rest;
        IdsConsDistinct(cart[0], rest);
      } else {
        assert CartRemove(cart, id) == CartRemove(cart[1..], id);
      }
    }
  }

  /** addToWishlist is idempotent. */
  lemma WishAddIdempotent(wishlist: seq<Product>, product: Product)
    ensures WishAdd(WishAdd(wishlist, product), product) == WishAdd(wishlist, product)
  {
    if !InWishlist(wishlist, product.id) {
      assert WishAdd(wishlist, product)[0].id == product.id;
    }
  }

  /** addToWishlist keeps the wishlist's ids distinct. */
  lemma WishAddKeepsIdsDistinct(wishlist: seq<Product>, product: Product)
    requires Distinct(ProductIds(wishlist))
    ensures Distinct(ProductIds(WishAdd(wishlist, product)))
  {
    if !InWishlist(wishlist, product.id) {
      var r := WishAdd(wishlist, product);
      assert forall k :: 1 <= k < |r| ==> r[k] == wishlist[k - 1];
    }
  }

  lemma {:induction false} WishRemoveKeepsIdsDistinct(wishlist: seq<Product>, id: ProductId)
    requires Distinct(ProductIds(wishlist))
    ensures Distinct(ProductIds(WishRemove(wishlist, id)))
  {
    if wishlist != [] {
      assert Distinct(ProductIds(wishlist[1..])) by {
        assert forall k :: 0 <= k < |wishlist| - 1 ==> ProductIds(wishlist[1..])[k] == ProductIds(wishlist)[k + 1];
      }
      WishRemoveKeepsIdsDistinct(wishlist[1..], id);
      if wishlist[0].id != id {
        var rest := WishRemove(wishlist[1..], id);
        forall k | 0 <= k < |rest| ensures rest[k].id != wishlist[0].id {
          assert rest[k] in wishlist[1..];
          var j :| 0 <= j < |wishlist| - 1 && wishlist[1..][j] == rest[k];
          assert ProductIds(wishlist)[j + 1] != ProductIds(wishlist)[0];
        }
        assert WishRemove(wishlist, id) == [wishlist[0]] + rest;
        ProductIdsConsDistinct(wishlist[0], rest);
      } else {
        assert WishRemove(wishlist, id) == WishRemove(wishlist[1..], id);
      }
    }
  }

  /** The id addOrder gives an order encodes the clock value it was placed at. */
  lemma PlacedOrderId(order: Order, now: nat, nowIso: string)
    ensures var id := PlacedOrder(order, now, nowIso).id;
      Text.StartsWith(id, "ORD-") && Text.IsDigits(id[4..]) && Text.ParseDecimal(id[4..]) == now
  {
    var id := PlacedOrder(order, now, nowIso).id;
    assert id[4..] == Text.Decimal(now);
    Text.DecimalRoundTrip(now);
  }

  /* ---------- the store ---------- */

  class MeshStore {
    var cart: seq<Line>
    var wishlist: seq<Product>
    var orders: seq<Order>
    var coupon: Option<Coupon>
    var pincode: string

    /** The store's invariant: one cart line and one wishlist entry per product id. */
    ghost predicate Valid()
      reads this
    {
      Distinct(Ids(cart)) && Distinct(ProductIds(wishlist))
    }

    constructor ()
      ensures Valid()
      ensures cart == [] && wishlist == [] && orders == [] && coupon == None && pincode == ""
    {
      cart, wishlist, orders, coupon, pincode := [], [], [], None, "";
    }

    function CartCountNow(): int reads this { CartCount(cart) }
    function SubtotalNow(): real reads this { Subtotal(cart) }
    function CouponDiscountNow(): real reads this { CouponDiscount(coupon, Subtotal(cart)) }
    function ShippingNow(): real reads this { Shipping(Subtotal(cart)) }

    /** The order total shown at checkout; never negative. */
    function TotalNow(): (t: real)
      reads this
      ensures t >= 0.0
    {
      Total(SubtotalNow(), CouponDiscountNow(), ShippingNow())
    }

    method AddToCart(product: Product, qty: int)
      requires Valid()
      modifies this
      ensures Valid()
      ensures cart == CartAdd(old(cart), product, qty)
      ensures wishlist == old(wishlist) && orders == old(orders)
      ensures coupon == old(coupon) && pincode == old(pincode)
    {
      var idx := FindLine(cart, product.id);
      AddKeepsIdsDistinct(cart, product, qty);
      if idx > -1 {
        var copy := cart;
        copy := copy[idx := copy[idx].(qty := copy[idx].qty + qty)];
        cart := copy;
      } else {
        cart := cart + [Line(product, qty)];
      }
    }

    method RemoveFromCart(id: ProductId)
      requires Valid()
      modifies this
      ensures Valid()
      ensures cart == CartRemove(old(cart), id)
      ensures wishlist == old(wishlist) && orders == old(orders)
      ensures coupon == old(coupon) && pincode == old(pincode)
    {
      RemoveKeepsIdsDistinct(cart, id);
      cart := CartRemove(cart, id);
    }

    method UpdateQty(id: ProductId, qty: int)
      requires Valid()
      modifies this
      ensures Valid()
      ensures cart == CartUpdateQty(old(cart), id, qty)
      ensures wishlist == old(wishlist) && orders == old(orders)
      ensures coupon == old(coupon) && pincode == old(pincode)
    {
      if qty <= 0 {
        RemoveFromCart(id);
        return;
      }
      UpdateKeepsIdsDistinct(cart, id, qty);
      cart := SetQty(cart, id, qty);
    }

    /** clearCart also drops the coupon and the delivery pincode. */
    method ClearCart()
      requires Valid()
      modifies this
      ensures Valid()
      ensures cart == [] && coupon == None && pincode == ""
      ensures wishlist == old(wishlist) && orders == old(orders)
    {
      cart := [];
      coupon := None;
      pincode := "";
    }

    method AddToWishlist(product: Product)
      requires Valid()
      modifies this
      ensures Valid()
      ensures wishlist == WishAdd(old(wishlist), product)
      ensures cart == old(cart) && orders == old(orders)
      ensures coupon == old(coupon) && pincode == old(pincode)
    {
      WishAddKeepsIdsDistinct(wishlist, product);
      if InWishlist(wishlist, product.id) {
        return;
      }
      wishlist := [product] + wishlist;
    }

    method RemoveFromWishlist(id: ProductId)
      requires Valid()
      modifies this
      ensures Valid()
      ensures wishlist == WishRemove(old(wishlist), id)
      ensures cart == old(cart) && orders == old(orders)
      ensures coupon == old(coupon) && pincode == old(pincode)
    {
      WishRemoveKeepsIdsDistinct(wishlist, id);
      wishlist := WishRemove(wishlist, id);
    }

    /** moveWishlistToCart is addToCart followed by removeFromWishlist. */
    method MoveWishlistToCart(product: Product, qty: int)
      requires Valid()
      modifies this
      ensures Valid()
      ensures cart == CartAdd(old(cart), product, qty)
      ensures wishlist == WishRemove(old(wishlist), product.id)
      ensures orders == old(orders) && coupon == old(coupon) && pincode == old(pincode)
    {
      AddToCart(product, qty);
      RemoveFromWishlist(product.id);
    }

    /** addOrder prepends the placed order and then empties the cart, the
        coupon and the pincode; the wishlist and the older orders stay. */
    method AddOrder(order: Order, now: nat, nowIso: string)
      requires Valid()
      modifies this
      ensures Valid()
      ensures orders == [PlacedOrder(order, now, nowIso)] + old(orders)
      ensures cart == [] && coupon == None && pincode == ""
      ensures wishlist == old(wishlist)
    {
      orders := [PlacedOrder(order, now, nowIso)] + orders;
      cart := [];
      coupon := None;
      pincode := "";
    }

    method RemoveOrder(id: string)
      requires Valid()
      modifies this
      ensures Valid()
      ensures orders == OrdersRemove(old(orders), id)
      ensures cart == old(cart) && wishlist == old(wishlist)
      ensures coupon == old(coupon) && pincode == old(pincode)
    {
      orders := OrdersRemove(orders, id);
    }

    method SetCouponCode(c: Option<Coupon>)
      requires Valid()
      modifies this
      ensures Valid()
      ensures coupon == c
      ensures cart == old(cart) && wishlist == old(wishlist) && orders == old(orders) && pincode == old(pincode)
    {
      coupon := c;
    }

    method SetDeliveryPincode(pin: string)
      requires Valid()
      modifies this
      ensures Valid()
      ensures pincode == pin
      ensures cart == old(cart) && wishlist == old(wishlist) && orders == old(orders) && coupon == old(coupon)
    {
      pincode := pin;
    }
  }
}
