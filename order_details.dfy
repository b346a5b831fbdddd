/** The order detail page of src/pages/user/OrderDetails.jsx: which order is
    shown, the item-cost sum, the payment fallbacks and the invoice PDF's
    paging loop. Rendering (canvas capture, PDF and QR libraries) is outside
    the model; the captured image height is an input. */
module OrderDetails {
  import opened Wrappers
  import Text
  import opened Mesh
  import Checkout

  /** `orders.find(o => o.id === id)`; `None` is the page rendering nothing. */
  function FindOrder(orders: seq<Order>, id: string): (r: Option<Order>)
    ensures r.Some? ==> r.value in orders && r.value.id == id
    ensures r.None? <==> forall k :: 0 <= k < |orders| ==> orders[k].id != id
    ensures r.Some? ==> exists i :: 0 <= i < |orders| && orders[i] == r.value
                                    && forall k :: 0 <= k < i ==> orders[k].id != id
  {
    if orders == [] then None
    else if orders[0].id == id then Some(orders[0])
    else
      var r := FindOrder(orders[1..], id);
      assert forall k :: 1 <= k < |orders| ==> orders[k] == orders[1..][k - 1];
      if r.Some? then
        var i :| 0 <= i < |orders[1..]| && orders[1..][i] == r.value
                 && forall k :: 0 <= k < i ==> orders[1..][k].id != id;
        assert orders[i + 1] == r.value;
        r
      else r
  }

  /** `order.items.reduce((s, it) => s + (it.product.price || 0) * it.qty, 0)`:
      the same sum as the store's subtotal, over the order's items. */
  function TotalItemCost(o: Order): (c: real)
    ensures (forall k :: 0 <= k < |o.items| ==> PriceOf(o.items[k].product) >= 0.0 && o.items[k].qty >= 0)
            ==> c >= 0.0
  {
    SubtotalNonNegative(o.items);
    Subtotal(o.items)
  }

  /** `payment?.method || (paid ? "Online" : "COD")` */
  function PaymentMethod(o: Order): (m: string)
    ensures m != ""
    ensures o.payment.Some? && o.payment.value.payMethod.Some? && o.payment.value.payMethod.value != ""
            ==> m == o.payment.value.payMethod.value
    ensures !(o.payment.Some? && o.payment.value.payMethod.Some? && o.payment.value.payMethod.value != "")
            ==> m == (if o.paid then "Online" else "COD")
  {
    match o.payment
    case Some(Payment(Some(m), _)) =>
      if m != "" then m else if o.paid then "Online" else "COD"
    case _ => if o.paid then "Online" else "COD"
  }

  /** `payment?.gateway || (paid ? "razorpay" : null)` */
  function PaymentGateway(o: Order): (g: Option<string>)
    ensures o.payment.Some? && o.payment.value.gateway.Some? && o.payment.value.gateway.value != ""
            ==> g == o.payment.value.gateway
    ensures !(o.payment.Some? && o.payment.value.gateway.Some? && o.payment.value.gateway.value != "")
            ==> g == (if o.paid then Some("razorpay") else None)
  {
    match o.payment
    case Some(Payment(_, Some(gw))) =>
      if gw != "" then Some(gw) else if o.paid then Some("razorpay") else None
    case _ => if o.paid then Some("razorpay") else None
  }

  /** `${order.id}_invoice.pdf` */
  function InvoiceFileName(o: Order): string {
    o.id + "_invoice.pdf"
  }

  /** A cash-on-delivery order, once the store has placed it, shows as "COD"
      with no gateway, and its item cost is the cart's subtotal when the
      checkout totals were the store's. */
  lemma PlacedCodOrderDetails(cart: seq<Line>, totals: Checkout.Totals, address: Address,
                              savedPincode: string, payMethod: string, now: nat, nowIso: string)
    requires totals.subtotal == Subtotal(cart)
    ensures var o := PlacedOrder(Checkout.CodOrder(Checkout.BuildPayload(cart, totals, address, savedPincode, payMethod), now), now, nowIso);
      && PaymentMethod(o) == "COD" && PaymentGateway(o) == None
      && TotalItemCost(o) == o.subtotal
      && o.status == Some("Processing")
  {
  }

  /** An order the store holds is found by its id once it is at the front. */
  lemma FindsNewestOrder(orders: seq<Order>, order: Order, now: nat, nowIso: string)
    ensures FindOrder([PlacedOrder(order, now, nowIso)] + orders, "ORD-" + Text.Decimal(now))
            == Some(PlacedOrder(order, now, nowIso))
  {
  }

  /** Page geometry of jsPDF's "a4" format in points, and the page margin. */
  const PageHeight: real := 841.89
  const Margin: real := 20.0
  /** The image height one page shows: `pageHeight - margin * 2`. */
  const Usable: real := PageHeight - Margin * 2.0

  /** The paging loop of generatePdf. One page is always added; while image
      height is left, another page is added, with the image shifted up by the
      height already shown, and a usable page height is subtracted. Returns
      the vertical offset of the image on each page: the page count is
      |offsets|, the least n >= 1 with n pages covering `imgHeight`. */
  method PageOffsets(imgHeight: real) returns (offsets: seq<real>)
    ensures |offsets| >= 1
    ensures imgHeight <= |offsets| as real * Usable
    ensures |offsets| == 1 || imgHeight > (|offsets| - 1) as real * Usable
    ensures forall k :: 0 <= k < |offsets| ==> offsets[k] == Margin - k as real * Usable
  {
    var position := Margin;
    offsets := [position];
    var heightLeft := imgHeight - Usable;
    while heightLeft > 0.0
      invariant |offsets| >= 1
      invariant heightLeft == imgHeight - |offsets| as real * Usable
      invariant |offsets| == 1 || imgHeight > (|offsets| - 1) as real * Usable
      invariant forall k :: 0 <= k < |offsets| ==> offsets[k] == Margin - k as real * Usable
      decreases heightLeft.Floor
    {
      offsets := offsets + [-(imgHeight - heightLeft) + Margin];
      heightLeft := heightLeft - Usable;
    }
  }

  /** The invoice page's PDF state: whether a generation is running, and
      whether the invoice element is mounted. */
  class InvoiceView {
    var pdfGenerating: bool
    var invoiceMounted: bool

    constructor (mounted: bool)
      ensures !pdfGenerating && invoiceMounted == mounted
    {
      pdfGenerating := false;
      invoiceMounted := mounted;
    }

    /** generatePdf up to the await of the page capture. Without the invoice
        element, or while a generation runs, it returns at once; otherwise it
        sets the flag, which stays set until PdfSettled. */
    method StartPdf() returns (started: bool)
      modifies this`pdfGenerating
      ensures started == (invoiceMounted && !old(pdfGenerating))
      ensures pdfGenerating == (old(pdfGenerating) || invoiceMounted)
    {
      if !invoiceMounted || pdfGenerating {
        return false;
      }
      pdfGenerating := true;
      started := true;
    }

    /** The rest of generatePdf once the capture has settled: `captured` is
        the rendering library's success and `imgHeight` the captured height
        scaled to the page width. A successful capture lays out the pages and
        saves `<id>_invoice.pdf` with that many pages; the `finally` clears the
        flag either way. */
    method PdfSettled(order: Order, captured: bool, imgHeight: real) returns (saved: Option<(string, nat)>)
      modifies this`pdfGenerating
      ensures !pdfGenerating
      ensures saved.Some? <==> captured
      ensures saved.Some? ==> saved.value.0 == InvoiceFileName(order) && saved.value.1 >= 1
                              && imgHeight <= saved.value.1 as real * Usable
                              && (saved.value.1 == 1 || imgHeight > (saved.value.1 - 1) as real * Usable)
    {
      if !captured {
        saved := None;
      } else {
        var offsets := PageOffsets(imgHeight);
        saved := Some((InvoiceFileName(order), |offsets|));
      }
      pdfGenerating := false;
    }
  }
}
