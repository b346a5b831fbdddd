/** The checkout modal of src/pages/cart/CheckoutModel.jsx: the address
    validator, the three-stage flow (0 address, 1 payment method, 2 review),
    the re-entry guard on "place order", the order payload and the
    cash-on-delivery order. The online payment flow (payment SDK, create-order
    and verify-payment requests) is outside the model; its only effect here is
    that `processing` stays set until it settles. */
module Checkout {
  import opened Wrappers
  import Text
  import opened Mesh

  /** `/^\d{N}$/.test(s)`: exactly `n` ASCII digits. */
  predicate IsDigitsOfLength(s: string, n: nat) {
    |s| == n && Text.IsDigits(s)
  }

  /** isAddressValid: name, phone, address line, city and pincode are
      non-blank after trimming, the trimmed pincode is 6 digits and the
      trimmed phone 10 digits. `state` is not checked. */
  predicate IsAddressValid(a: Address) {
    var name, phone, line, city, pin :=
      Text.Trim(a.name), Text.Trim(a.phone), Text.Trim(a.addressLine), Text.Trim(a.city), Text.Trim(a.pincode);
    if name == "" || phone == "" || line == "" || city == "" || pin == "" then false
    else if !IsDigitsOfLength(pin, 6) then false
    else if !IsDigitsOfLength(phone, 10) then false
    else true
  }

  /** The validator in terms of the raw fields: none of the five required
      fields is blank, and the pincode and phone are 6 and 10 digits once
      surrounding white space is dropped. */
  lemma AddressValidIff(a: Address)
    ensures IsAddressValid(a) <==>
      && !Text.IsBlank(a.name) && !Text.IsBlank(a.addressLine) && !Text.IsBlank(a.city)
      && IsDigitsOfLength(Text.Trim(a.pincode), 6)
      && IsDigitsOfLength(Text.Trim(a.phone), 10)
  {
    Text.TrimEmptyIffBlank(a.name);
    Text.TrimEmptyIffBlank(a.addressLine);
    Text.TrimEmptyIffBlank(a.city);
  }

  /** The `state` field never affects validity. */
  lemma StateNotRequired(a: Address, state: string)
    ensures IsAddressValid(a.(state := state)) == IsAddressValid(a)
  {
  }

  /** handleNext: from stage 0 only with a valid address, from 1 to 2, and
      nothing at 2. */
  function NextStage(stage: int, addressValid: bool): (s: int)
    ensures 0 <= stage <= 2 ==> 0 <= s <= 2
    ensures stage == 0 ==> (s == 1 <==> addressValid) && (s == 0 <==> !addressValid)
    ensures stage == 1 ==> s == 2
    ensures stage == 2 ==> s == 2
  {
    if stage == 0 then (if addressValid then 1 else 0)
    else if stage == 1 then 2
    else stage
  }

  /** handleBack: `Math.max(0, s - 1)`. */
  function BackStage(stage: int): (s: int)
    ensures 0 <= stage <= 2 ==> 0 <= s <= 2
    ensures s >= 0 && (stage > 0 ==> s == stage - 1) && (stage <= 0 ==> s == 0)
  {
    if stage - 1 > 0 then stage - 1 else 0
  }

  /** A click on "Next" (with the address valid or not at that moment) or "Back". */
  datatype StageEvent = Next(addressValid: bool) | Back

  function RunStages(stage: int, events: seq<StageEvent>): int
    decreases |events|
  {
    if events == [] then stage
    else
      var s := match events[0]
        case Next(valid) => NextStage(stage, valid)
        case Back => BackStage(stage);
      RunStages(s, events[1..])
  }

  /** Any sequence of clicks keeps the stage in {0, 1, 2}. */
  lemma {:induction false} StagesStayInRange(stage: int, events: seq<StageEvent>)
    requires 0 <= stage <= 2
    ensures 0 <= RunStages(stage, events) <= 2
    decreases |events|
  {
    if events != [] {
      var s := match events[0]
        case Next(valid) => NextStage(stage, valid)
        case Back => BackStage(stage);
      StagesStayInRange(s, events[1..]);
    }
  }

  /** The checkout never leaves the address stage unless "Next" was clicked
      while the address was valid. */
  lemma {:induction false} LeavingAddressNeedsValidAddress(events: seq<StageEvent>)
    requires RunStages(0, events) != 0
    ensures exists i :: 0 <= i < |events| && events[i] == Next(true)
    decreases |events|
  {
    var e := events[0];
    if e == Next(true) {
      assert events[0] == Next(true);
    } else {
      assert RunStages(0, events) == RunStages(0, events[1..]);
      LeavingAddressNeedsValidAddress(events[1..]);
      var i :| 0 <= i < |events[1..]| && events[1..][i] == Next(true);
      assert events[i + 1] == Next(true);
    }
  }

  /** The totals the cart page passes to the modal as props. */
  datatype Totals = Totals(subtotal: real, couponDiscount: real, shipping: real, total: real)

  /** orderPayload, without the client timestamp. */
  datatype Payload = Payload(
    items: seq<Line>,
    subtotal: real,
    couponDiscount: real,
    shipping: real,
    total: real,
    pincode: string,
    address: Address,
    paymentMethod: string)

  /** The payload built from the cart: items copied in order, the form's
      pincode unless it is empty, then the saved one. */
  function BuildPayload(cart: seq<Line>, totals: Totals, address: Address, savedPincode: string, paymentMethod: string): (p: Payload)
    ensures p.items == cart
    ensures p.pincode == (if address.pincode != "" then address.pincode else savedPincode)
    ensures p.subtotal == totals.subtotal && p.couponDiscount == totals.couponDiscount
    ensures p.shipping == totals.shipping && p.total == totals.total
    ensures p.address == address && p.paymentMethod == paymentMethod
  {
    var items := seq(|cart|, k requires 0 <= k < |cart| => Line(cart[k].product, cart[k].qty));
    Payload(items, totals.subtotal, totals.couponDiscount, totals.shipping, totals.total,
            if address.pincode != "" then address.pincode else savedPincode, address, paymentMethod)
  }

  /** The local order of the cash-on-delivery branch: unpaid, method "COD",
      carrying the payload's items, totals, address and pincode. */
  function CodOrder(p: Payload, now: nat): (o: Order)
    ensures !o.paid && o.payment == Some(Payment(Some("COD"), None))
    ensures o.items == p.items && o.address == p.address && o.pincode == p.pincode
    ensures o.subtotal == p.subtotal && o.couponDiscount == p.couponDiscount
    ensures o.shipping == p.shipping && o.total == p.total
  {
    Order("local_" + Text.Decimal(now), p.items, p.subtotal, p.couponDiscount, p.shipping, p.total,
          p.pincode, p.address, false, Some(Payment(Some("COD"), None)), None, Text.Decimal(now))
  }

  const EmptyAddress := Address("", "", "", "", "", "")

  datatype AddressField = NameField | PhoneField | AddressLineField | CityField | StateField | PincodeField

  /** updateField(k, v): one field of the form replaced. */
  function WithField(a: Address, k: AddressField, v: string): Address {
    match k
    case NameField => a.(name := v)
    case PhoneField => a.(phone := v)
    case AddressLineField => a.(addressLine := v)
    case CityField => a.(city := v)
    case StateField => a.(state := v)
    case PincodeField => a.(pincode := v)
  }

  class CheckoutModal {
    const totals: Totals
    var stage: int
    var processing: bool
    var address: Address
    var paymentMethod: string

    ghost predicate Valid()
      reads this
    {
      0 <= stage <= 2
    }

    constructor (totals: Totals)
      ensures Valid() && this.totals == totals
      ensures stage == 0 && !processing && address == EmptyAddress && paymentMethod == "UPI"
    {
      this.totals := totals;
      stage := 0;
      processing := false;
      address := EmptyAddress;
      paymentMethod := "UPI";
    }

    method UpdateField(k: AddressField, v: string)
      modifies this`address
      ensures address == WithField(old(address), k, v)
    {
      address := WithField(address, k, v);
    }

    method SetPaymentMethod(m: string)
      modifies this`paymentMethod
      ensures paymentMethod == m
    {
      paymentMethod := m;
    }

    method HandleNext()
      requires Valid()
      modifies this`stage
      ensures Valid()
      ensures stage == NextStage(old(stage), IsAddressValid(address))
    {
      if stage == 0 {
        if !IsAddressValid(address) {
          return;
        }
        stage := 1;
        return;
      }
      if stage == 1 {
        stage := 2;
      }
    }

    method HandleBack()
      requires Valid()
      modifies this`stage
      ensures Valid()
      ensures stage == BackStage(old(stage))
    {
      stage := if stage - 1 > 0 then stage - 1 else 0;
    }

    /** handlePlace. While a previous placement is still processing it does
        nothing. Otherwise it builds the payload from the store; cash on
        delivery adds the local order to the store (which empties the cart)
        and clears `processing` in the `finally`; any other method starts the
        online flow, which keeps `processing` set until OnlineFlowSettled.
        `now` and `nowIso` are the clock. */
    method HandlePlace(store: MeshStore, now: nat, nowIso: string)
      requires store.Valid()
      modifies this`processing, store
      ensures store.Valid()
      ensures old(processing) ==> processing && unchanged(store)
      ensures !old(processing) && paymentMethod == "COD" ==>
        var order := CodOrder(BuildPayload(old(store.cart), totals, address, old(store.pincode), paymentMethod), now);
        && !processing
        && store.orders == [PlacedOrder(order, now, nowIso)] + old(store.orders)
        && store.cart == [] && store.coupon == None && store.pincode == ""
        && store.wishlist == old(store.wishlist)
      ensures !old(processing) && paymentMethod != "COD" ==> processing && unchanged(store)
    {
      if processing {
        return;
      }
      processing := true;
      var payload := BuildPayload(store.cart, totals, address, store.pincode, paymentMethod);
      if paymentMethod == "COD" {
        var localOrder := CodOrder(payload, now);
        store.AddOrder(localOrder, now, nowIso);
        processing := false;
        return;
      }
    }

    /** The `finally` of the online flow, once the awaited SDK load and
        create-order request have settled and the gateway was opened or failed. */
    method OnlineFlowSettled()
      modifies this`processing
      ensures !processing
    {
      processing := false;
    }
  }
}
