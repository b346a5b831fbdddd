/** The cart page of src/pages/cart/Cart.jsx: coupon entry and the
    "Place Order" button that opens checkout. */
module CartPage {
  import opened Wrappers
  import Text
  import opened Mesh

  /** The entered code as applyCoupon matches it: trimmed, then upper-cased. */
  function NormalizeCode(input: string): string {
    Text.Upper(Text.Trim(input))
  }

  /** What applyCoupon does with the store's coupon, given the entered text:
      a blank code clears it, SAVE10 and FLAT50 set the known coupons, and any
      other code leaves the current coupon as it was. */
  function CouponAfterApply(input: string, current: Option<Coupon>): (r: Option<Coupon>)
    ensures NormalizeCode(input) == "" ==> r == None
    ensures NormalizeCode(input) == "SAVE10" ==> r == Some(Coupon("SAVE10", "percent", 10.0))
    ensures NormalizeCode(input) == "FLAT50" ==> r == Some(Coupon("FLAT50", "flat", 50.0))
    ensures NormalizeCode(input) !in {"", "SAVE10", "FLAT50"} ==> r == current
  {
    var code := NormalizeCode(input);
    if code == "" then None
    else if code == "SAVE10" then Some(Coupon(code, "percent", 10.0))
    else if code == "FLAT50" then Some(Coupon(code, "flat", 50.0))
    else current
  }

  /** Normalising an already normalised code changes nothing, so a code
      round-trips through the coupon's `code` field and the input box. */
  lemma NormalizeIdempotent(input: string)
    ensures NormalizeCode(NormalizeCode(input)) == NormalizeCode(input)
  {
    var t := Text.Trim(input);
    var u := Text.Upper(t);
    Text.TrimStartOfTrimmed(u);
    Text.TrimEndOfTrimmed(u);
    Text.UpperIdempotent(t);
  }

  /** Only the code's letters and surrounding white space are forgiven:
      " save10 " applies SAVE10. */
  lemma LowerCaseCodeApplies(current: Option<Coupon>)
    ensures CouponAfterApply(" save10 ", current) == Some(Coupon("SAVE10", "percent", 10.0))
  {
    var s := " save10 ";
    assert s[1..] == "save10 ";
    assert Text.TrimStart(s[1..]) == "save10 ";
    assert Text.TrimStart(s) == "save10 ";
    var t := "save10 ";
    assert t[..|t| - 1] == "save10";
    assert Text.TrimEnd(t[..|t| - 1]) == "save10";
    assert Text.TrimEnd(t) == "save10";
    assert Text.Upper("save10") == "SAVE10";
  }

  /** An applied SAVE10 takes a tenth of the subtotal off. */
  lemma Save10Discount(input: string, current: Option<Coupon>, subtotal: real)
    requires NormalizeCode(input) == "SAVE10"
    ensures CouponDiscount(CouponAfterApply(input, current), subtotal) == subtotal / 10.0
  {
  }

  /** The page-local state of the cart page. */
  class CartView {
    var couponInput: string
    var showCheckout: bool

    /** The coupon box starts with the applied coupon's code, checkout closed. */
    constructor (store: MeshStore)
      ensures couponInput == (if store.coupon.Some? then store.coupon.value.code else "")
      ensures !showCheckout
    {
      couponInput := if store.coupon.Some? then store.coupon.value.code else "";
      showCheckout := false;
    }

    method SetCouponInput(text: string)
      modifies this`couponInput
      ensures couponInput == text
    {
      couponInput := text;
    }

    /** applyCoupon: one write of the store's coupon, decided by the entered code. */
    method ApplyCoupon(store: MeshStore)
      requires store.Valid()
      modifies store
      ensures store.Valid()
      ensures store.coupon == CouponAfterApply(couponInput, old(store.coupon))
      ensures store.cart == old(store.cart) && store.wishlist == old(store.wishlist)
      ensures store.orders == old(store.orders) && store.pincode == old(store.pincode)
    {
      var code := NormalizeCode(couponInput);
      if code == "" {
        store.SetCouponCode(None);
        return;
      }
      if code == "SAVE10" {
        store.SetCouponCode(Some(Coupon(code, "percent", 10.0)));
        return;
      }
      if code == "FLAT50" {
        store.SetCouponCode(Some(Coupon(code, "flat", 50.0)));
        return;
      }
    }

    /** handlePlaceOrder: an empty cart never opens checkout. */
    method HandlePlaceOrder(store: MeshStore)
      modifies this`showCheckout
      ensures showCheckout == (old(showCheckout) || |store.cart| > 0)
    {
      if |store.cart| == 0 {
        return;
      }
      showCheckout := true;
    }

    /** The checkout modal's onClose. */
    method CloseCheckout()
      modifies this`showCheckout
      ensures !showCheckout
    {
      showCheckout := false;
    }
  }
}
