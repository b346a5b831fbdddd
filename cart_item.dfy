/** One cart row of src/pages/cart/CartItem.jsx: the +/- buttons, "Remove",
    "Move to wishlist", and the image-source fallback. The handlers are
    sequences of store calls. */
module CartItem {
  import opened Wrappers
  import Text
  import opened Mesh

  /** The inline SVG "No image" picture, URI-encoded behind its data: prefix. */
  const Placeholder: string :=
    "data:image/svg+xml;charset=utf-8,"
    + "%3Csvg%20xmlns%3D'http%3A%2F%2Fwww.w3.org%2F2000%2Fsvg'%20width%3D'400'%20height%3D'300'%3E"
    + "%3Crect%20width%3D'100%25'%20height%3D'100%25'%20fill%3D'%23f3f4f6'%2F%3E"
    + "%3Ctext%20x%3D'50%25'%20y%3D'50%25'%20dominant-baseline%3D'middle'%20text-anchor%3D'middle'"
    + "%20fill%3D'%239ca3af'%20font-family%3D'Arial'%20font-size%3D'18'%3ENo%20image%3C%2Ftext%3E%3C%2Fsvg%3E"

  /** A JavaScript string value that is present and non-empty (truthy). */
  predicate Truthy(s: Option<string>) {
    s.Some? && s.value != ""
  }

  /** `thumbnail || image || images?.[0] || PLACEHOLDER` */
  function ImageSource(p: Product): (src: string)
    ensures src != ""
    ensures Truthy(p.thumbnail) ==> src == p.thumbnail.value
    ensures !Truthy(p.thumbnail) && Truthy(p.image) ==> src == p.image.value
    ensures !Truthy(p.thumbnail) && !Truthy(p.image) && |p.images| > 0 && p.images[0] != "" ==> src == p.images[0]
    ensures !Truthy(p.thumbnail) && !Truthy(p.image) && (|p.images| == 0 || p.images[0] == "") ==> src == Placeholder
  {
    if Truthy(p.thumbnail) then p.thumbnail.value
    else if Truthy(p.image) then p.image.value
    else if |p.images| > 0 && p.images[0] != "" then p.images[0]
    else Placeholder
  }

  /** "+" : updateQty(id, qty + 1). */
  method Increment(store: MeshStore, item: Line)
    requires store.Valid()
    modifies store
    ensures store.Valid()
    ensures store.cart == CartUpdateQty(old(store.cart), item.product.id, item.qty + 1)
    ensures store.wishlist == old(store.wishlist) && store.orders == old(store.orders)
    ensures store.coupon == old(store.coupon) && store.pincode == old(store.pincode)
  {
    store.UpdateQty(item.product.id, item.qty + 1);
  }

  /** "-" : updateQty(id, qty - 1). */
  method Decrement(store: MeshStore, item: Line)
    requires store.Valid()
    modifies store
    ensures store.Valid()
    ensures store.cart == CartUpdateQty(old(store.cart), item.product.id, item.qty - 1)
    ensures item.qty <= 1 ==> !HasLine(store.cart, item.product.id)
    ensures store.wishlist == old(store.wishlist) && store.orders == old(store.orders)
    ensures store.coupon == old(store.coupon) && store.pincode == old(store.pincode)
  {
    store.UpdateQty(item.product.id, item.qty - 1);
  }

  /** "Remove" : removeFromCart(id). */
  method Remove(store: MeshStore, item: Line)
    requires store.Valid()
    modifies store
    ensures store.Valid()
    ensures store.cart == CartRemove(old(store.cart), item.product.id)
    ensures store.wishlist == old(store.wishlist) && store.orders == old(store.orders)
    ensures store.coupon == old(store.coupon) && store.pincode == old(store.pincode)
  {
    store.RemoveFromCart(item.product.id);
  }

  /** handleMoveToWishlist: addToWishlist(product), then removeFromCart(id). */
  method MoveToWishlist(store: MeshStore, item: Line)
    requires store.Valid()
    modifies store
    ensures store.Valid()
    ensures store.wishlist == WishAdd(old(store.wishlist), item.product)
    ensures store.cart == CartRemove(old(store.cart), item.product.id)
    ensures InWishlist(store.wishlist, item.product.id) && !HasLine(store.cart, item.product.id)
    ensures store.orders == old(store.orders)
    ensures store.coupon == old(store.coupon) && store.pincode == old(store.pincode)
  {
    store.AddToWishlist(item.product);
    store.RemoveFromCart(item.product.id);
  }

  /** At quantity 1 the "-" button removes the line: the cart keeps every
      other line, in order, and no line for the product. */
  lemma DecrementAtOneRemoves(cart: seq<Line>, item: Line)
    requires item.qty == 1
    ensures CartUpdateQty(cart, item.product.id, item.qty - 1) == CartRemove(cart, item.product.id)
    ensures !HasLine(CartUpdateQty(cart, item.product.id, item.qty - 1), item.product.id)
  {
  }

  /** "+" then "-" on a line with a positive quantity gives back the cart,
      provided the line's quantity is the one shown. */
  lemma IncrementThenDecrement(cart: seq<Line>, item: Line)
    requires Distinct(Ids(cart)) && item.qty > 0
    requires forall k :: 0 <= k < |cart| && cart[k].product.id == item.product.id ==> cart[k].qty == item.qty
    ensures CartUpdateQty(CartUpdateQty(cart, item.product.id, item.qty + 1), item.product.id, item.qty) == cart
  {
    var once := CartUpdateQty(cart, item.product.id, item.qty + 1);
    var twice := CartUpdateQty(once, item.product.id, item.qty);
    assert |twice| == |cart|;
    forall k | 0 <= k < |cart| ensures twice[k] == cart[k] {
    }
  }
}
