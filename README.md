# MarketMesh storefront core in Dafny

MarketMesh is a React storefront: a host shell that loads catalog,
inventory and dashboard micro-frontends at run time, plus a cart, a
wishlist, orders and a checkout. This project models the logic of that
storefront which can be stated precisely, and proves properties of it.

- **The store** (`Mesh`, mesh.dfy) models `MeshContext.jsx`:
  - the class `MeshStore` holds the `cart`, `wishlist`, `orders`, `coupon` and `pincode` fields;
  - its methods (addToCart, removeFromCart, updateQty, clearCart, the wishlist calls, addOrder, removeOrder) are proved equal to pure list operations;
  - those methods keep one cart line and one wishlist entry per product id;
  - the derived money values (cartCount, subtotal, coupon discount, shipping, total) are functions, with money as `real`.
- **The cart page** (`CartPage`, cart_page.dfy) models coupon-code normalisation and lookup, and the empty-cart guard on "Place Order".
- **A cart row** (`CartItem`, cart_item.dfy) models:
  - the +/- buttons, Remove and Move to wishlist, each as a sequence of store calls;
  - the image-source fallback.
- **The checkout modal** (`Checkout`, checkout.dfy) models:
  - the address validator;
  - the three-stage flow (address, payment method, review);
  - the `processing` re-entry guard;
  - the order payload and the cash-on-delivery order.
- **The order page** (`OrderDetails`, order_details.dfy) models:
  - the order lookup, the item cost, and the payment method and gateway fallbacks;
  - the invoice PDF's paging loop, and its re-entry guard, whose flag stays set from the start of generatePdf until the capture has settled.
- **The catalog** (`Catalog`, catalog.dfy) models `apiFetch`'s pagination state: products, `skip`, `loading` and `hasMore`.
- **Navigation** (`Navbar`, navbar.dfy; `SideNav`, sidenav.dfy) models:
  - the active-path matcher and the visible-item filter;
  - first-segment tab selection and action routing.
- **The greeting** (`Home`, home.dfy) models the choice of name and its per-word title-casing.
- **The remote-module loader** (`ScriptInjector`, script_injector.dfy; `LoadRemote`, load_remote.dfy) models `loadRemote.js`.
  - `injectScript` is a state machine over a registry. It records the tagged script elements in head order, each element's state (handlers set, timer armed, loaded, fired, listeners attached) and every request with its outcome.
  - The calls and the browser's load, error and timer events are steps.
  - The invariant is one element per url in the head, with each element's bookkeeping agreeing with the requests. Every step keeps it.
  - The class `RemoteLoader` holds the registry, the global containers (`window[name]`, a map), the share-scope flag, and logs of `init` calls and warnings. Its methods are proved equal to the steps.
  - `tryInitContainer` and the two halves of `loadRemoteAndGet` (before and after its awaits) are methods. The federated `import()` outcome is an input.
- `Text` (text.dfy) holds the string functions these rely on: trim, ASCII upper and lower case, split and join on one character, and decimal numerals. `Wrappers` holds `Option` and `Result`.

Facts the proofs bring out, all modelled as the code behaves:
- The root path "/" is active only at "/". Any other item path is active on every location it is a textual prefix of, so "/orders" is active on "/ordersX" (`Navbar.OrdersPrefixExamples`).
- A request that throws in `apiFetch` leaves `loading` set. Every later fetch is then a no-op (`Catalog.ThrowStopsPaging`).
- Take an element whose load failed or timed out and then fired. A later request for its url attaches listeners that will never fire, and no timer covers it, so that request stays pending forever (`ScriptInjector.RetryAfterFailureNeverSettles`).
- A failed federated import always reports "Container present: true" and the container's keys. The model reads `window` once for both the container check and the diagnostic, so the "none" text cannot be reached (`LoadRemote.FinishOnImportFailure`); in the browser the container could disappear during the `import()` await between them.
- Passing `opts` without a `timeout` hands `undefined` to `injectScript`. Its own default of 10000 ms then applies, not the 12000 ms of `loadRemoteAndGet`'s default `opts` (`LoadRemote.EffectiveTimeout`).
- The "/wish" fallback of the side navigation is never taken by a configured action. The wish action carries `to: "/wishlist"` (`SideNav.ConfiguredActionTargets`).

## Model

| member | source | states |
|---|---|---|
| Mesh.FindLine | src/store/MeshContext.jsx:45 | the index of the first line with the id, and -1 exactly when no line has it |
| Mesh.AddExisting | src/store/MeshContext.jsx:44-49 | adding a product already in the cart keeps length, order and ids; only that line's quantity grows by `qty`, every other line is unchanged |
| Mesh.AddNew | src/store/MeshContext.jsx:51 | adding a product not in the cart appends exactly `{product, qty}` at the end |
| Mesh.AddKeepsIdsDistinct | src/store/MeshContext.jsx:43-52 | addToCart keeps the cart's product ids distinct |
| Mesh.CartCountAdd | src/store/MeshContext.jsx:102 | after addToCart, cartCount has grown by exactly `qty` |
| Mesh.SubtotalAdd | src/store/MeshContext.jsx:106 | after addToCart, subtotal has grown by `qty` times the price of the product on the line it lands on (the earlier copy's price when merged) |
| Mesh.CartCountAppend | src/store/MeshContext.jsx:102 | the quantity sum distributes over concatenation |
| Mesh.SubtotalAppend | src/store/MeshContext.jsx:106 | the `(price or 0) * qty` sum distributes over concatenation |
| Mesh.SubtotalNonNegative | src/store/MeshContext.jsx:106 | the sum is never negative when no line has a negative price or quantity |
| Mesh.CartCountReplace | src/store/MeshContext.jsx:102 | replacing one line changes cartCount by the difference of the quantities |
| Mesh.SubtotalReplace | src/store/MeshContext.jsx:106 | replacing one line changes subtotal by the difference of the line amounts |
| Mesh.CartRemove | src/store/MeshContext.jsx:55 | removeFromCart leaves no line with the id and keeps exactly the other lines |
| Mesh.RemoveAbsent | src/store/MeshContext.jsx:55 | removing an id the cart does not hold leaves the cart unchanged, order included |
| Mesh.RemoveAppend | src/store/MeshContext.jsx:55 | removal distributes over concatenation, so the kept lines stay in order |
| Mesh.RemoveUndoesAdd | src/store/MeshContext.jsx:55 | removeFromCart undoes addToCart of a product that was not in the cart |
| Mesh.RemoveTwice | src/store/MeshContext.jsx:55 | removing twice is removing once |
| Mesh.RemoveKeepsIdsDistinct | src/store/MeshContext.jsx:55 | removeFromCart keeps the product ids distinct |
| Mesh.UpdateQtySpec | src/store/MeshContext.jsx:57-63 | updateQty with qty <= 0 is removeFromCart; otherwise lines with the id get the new qty and nothing else changes, order and ids kept |
| Mesh.CartCountUpdate | src/store/MeshContext.jsx:62 | with distinct ids, setting a present product's quantity changes cartCount by the difference |
| Mesh.UpdateKeepsIdsDistinct | src/store/MeshContext.jsx:57-63 | updateQty keeps the product ids distinct |
| Mesh.WishAdd | src/store/MeshContext.jsx:72-77 | after addToWishlist the id is in the wishlist; a present id leaves the list unchanged, a new product is prepended |
| Mesh.WishAddIdempotent | src/store/MeshContext.jsx:72-77 | addToWishlist twice is addToWishlist once |
| Mesh.WishAddKeepsIdsDistinct | src/store/MeshContext.jsx:72-77 | addToWishlist keeps the wishlist ids distinct |
| Mesh.WishRemove | src/store/MeshContext.jsx:79 | removeFromWishlist leaves no entry with the id and keeps exactly the others |
| Mesh.WishRemoveAbsent | src/store/MeshContext.jsx:79 | removing an id the wishlist does not hold leaves it unchanged, order included |
| Mesh.WishRemoveAppend | src/store/MeshContext.jsx:79 | the wishlist filter distributes over concatenation, so kept products stay in order and keep their multiplicity |
| Mesh.WishRemoveKeepsIdsDistinct | src/store/MeshContext.jsx:79 | removeFromWishlist keeps the wishlist ids distinct |
| Mesh.PlacedOrderId | src/store/MeshContext.jsx:89 | the stored order's id is "ORD-" followed by the decimal clock value, which parses back to that value |
| Mesh.OrdersRemove | src/store/MeshContext.jsx:96 | removeOrder keeps exactly the orders with another id |
| Mesh.OrdersRemoveAbsent | src/store/MeshContext.jsx:96 | removing an id no order has leaves the orders unchanged, order included |
| Mesh.OrdersRemoveAppend | src/store/MeshContext.jsx:96 | the orders filter distributes over concatenation, so kept orders stay in order and keep their multiplicity |
| Mesh.CouponDiscount | src/store/MeshContext.jsx:108-113 | no coupon gives 0, percent gives subtotal*value/100, flat gives value, any other type 0 |
| Mesh.Shipping | src/store/MeshContext.jsx:115 | the fee is 0 or 49, and 49 exactly when the subtotal is non-zero and at most 499 |
| Mesh.Total | src/store/MeshContext.jsx:116 | the total is never negative and is either 0 or subtotal - discount + shipping, whichever is larger |
| Mesh.MeshStore.TotalNow | src/store/MeshContext.jsx:116 | the store's total is never negative |
| Mesh.MeshStore.AddToCart | src/store/MeshContext.jsx:43-53 | the cart becomes the merge-or-append of the product, ids stay distinct, nothing else changes |
| Mesh.MeshStore.RemoveFromCart | src/store/MeshContext.jsx:55 | the cart becomes the filtered cart, nothing else changes |
| Mesh.MeshStore.UpdateQty | src/store/MeshContext.jsx:57-63 | the cart becomes updateQty's result (removal for qty <= 0), nothing else changes |
| Mesh.MeshStore.ClearCart | src/store/MeshContext.jsx:65-69 | cart, coupon and pincode are emptied; wishlist and orders kept |
| Mesh.MeshStore.AddToWishlist | src/store/MeshContext.jsx:72-77 | the wishlist becomes the dedupe-or-prepend result, nothing else changes |
| Mesh.MeshStore.RemoveFromWishlist | src/store/MeshContext.jsx:79 | the wishlist becomes the filtered wishlist, nothing else changes |
| Mesh.MeshStore.MoveWishlistToCart | src/store/MeshContext.jsx:81-84 | the result is addToCart followed by removeFromWishlist |
| Mesh.MeshStore.AddOrder | src/store/MeshContext.jsx:88-94 | the order, with id, createdAt and status "Processing" overridden, is prepended; cart, coupon and pincode are emptied; wishlist and older orders kept |
| Mesh.MeshStore.RemoveOrder | src/store/MeshContext.jsx:96 | the orders become the filtered orders, nothing else changes |
| Mesh.MeshStore.SetCouponCode | src/store/MeshContext.jsx:99 | only the coupon changes |
| Mesh.MeshStore.SetDeliveryPincode | src/store/MeshContext.jsx:100 | only the pincode changes |
| CartPage.CouponAfterApply | src/pages/cart/Cart.jsx:26-41 | a blank normalised code clears the coupon, SAVE10 and FLAT50 set their coupons, any other code keeps the current one |
| CartPage.NormalizeIdempotent | src/pages/cart/Cart.jsx:27 | trimming and upper-casing an already normalised code changes nothing |
| CartPage.LowerCaseCodeApplies | src/pages/cart/Cart.jsx:27-34 | " save10 " applies the SAVE10 coupon |
| CartPage.Save10Discount | src/pages/cart/Cart.jsx:32-34 | an applied SAVE10 takes a tenth of the subtotal off |
| CartPage.CartView.constructor | src/pages/cart/Cart.jsx:23-24 | the coupon box starts with the applied coupon's code, checkout closed |
| CartPage.CartView.SetCouponInput | src/pages/cart/Cart.jsx:82 | the coupon box holds the typed text |
| CartPage.CartView.ApplyCoupon | src/pages/cart/Cart.jsx:26-41 | the store's coupon becomes the lookup result; nothing else in the store changes |
| CartPage.CartView.HandlePlaceOrder | src/pages/cart/Cart.jsx:48-51 | checkout is opened only when the cart is non-empty |
| CartPage.CartView.CloseCheckout | src/pages/cart/Cart.jsx:134 | checkout is closed |
| CartItem.ImageSource | src/pages/cart/CartItem.jsx:16 | the first truthy of thumbnail, image, images[0], else the placeholder; never empty |
| CartItem.Increment | src/pages/cart/CartItem.jsx:45 | the cart becomes updateQty(id, qty + 1) |
| CartItem.Decrement | src/pages/cart/CartItem.jsx:43 | the cart becomes updateQty(id, qty - 1), and at qty 1 the product has no line left |
| CartItem.Remove | src/pages/cart/CartItem.jsx:51 | the cart becomes removeFromCart(id) |
| CartItem.MoveToWishlist | src/pages/cart/CartItem.jsx:19-21 | the product is in the wishlist (added if new) and has no cart line |
| CartItem.DecrementAtOneRemoves | src/pages/cart/CartItem.jsx:43 | "-" at quantity 1 is removeFromCart |
| CartItem.IncrementThenDecrement | src/pages/cart/CartItem.jsx:43-45 | "+" then "-" gives back the cart |
| Text.TrimStart | src/pages/cart/CheckoutModel.jsx:52 | drops exactly the leading white space: the result is a suffix, what was dropped is blank, it starts with a non-space |
| Text.TrimEnd | src/pages/cart/CheckoutModel.jsx:52 | drops exactly the trailing white space |
| Text.Trim | src/pages/cart/Cart.jsx:27 | the result has no white space at either end |
| Text.TrimIsInfix | src/pages/cart/CheckoutModel.jsx:52 | the trimmed text sits between two blank pieces of the input |
| Text.TrimEmptyIffBlank | src/pages/cart/CheckoutModel.jsx:51-58 | a field trims to "" exactly when it is blank |
| Text.TrimIdempotent | src/pages/cart/Cart.jsx:27 | trimming twice is trimming once |
| Text.Upper | src/pages/cart/Cart.jsx:27 | keeps the length; each character is upper-cased in place |
| Text.UpperIdempotent | src/pages/cart/Cart.jsx:27 | upper-casing twice is upper-casing once |
| Text.Lower | src/pages/landing/Home.jsx:52 | keeps the length; each character is lower-cased in place |
| Text.LowerIdempotent | src/pages/landing/Home.jsx:52 | lower-casing twice is lower-casing once |
| Text.Split | src/pages/landing/Home.jsx:48 | at least one piece, and no piece holds the separator |
| Text.JoinSplit | src/pages/landing/Home.jsx:48-54 | joining the pieces of a split with the separator gives back the text |
| Text.SplitJoin | src/pages/landing/Home.jsx:48-54 | splitting a join of separator-free pieces gives back the pieces |
| Text.SplitCount | src/pages/landing/Home.jsx:48 | a split has one more piece than the text has separators |
| Text.SplitAppend | src/sidenavbar/SideNav.jsx:60 | splitting `a + sep + b` with no separator in `a` gives `a` followed by the pieces of `b` |
| Text.DecimalRoundTrip | src/store/MeshContext.jsx:89 | a decimal numeral is all digits and parses back to its number |
| Checkout.AddressValidIff | src/pages/cart/CheckoutModel.jsx:49-62 | valid exactly when name, address line and city are not blank, the trimmed pincode is 6 digits and the trimmed phone 10 digits |
| Checkout.StateNotRequired | src/pages/cart/CheckoutModel.jsx:50 | the state field never affects validity |
| Checkout.NextStage | src/pages/cart/CheckoutModel.jsx:76-89 | stage 0 goes to 1 exactly with a valid address, 1 goes to 2, 2 stays |
| Checkout.BackStage | src/pages/cart/CheckoutModel.jsx:91 | one stage back, never below 0 |
| Checkout.StagesStayInRange | src/pages/cart/CheckoutModel.jsx:76-91 | any sequence of Next and Back keeps the stage in {0, 1, 2} |
| Checkout.LeavingAddressNeedsValidAddress | src/pages/cart/CheckoutModel.jsx:77-86 | the stage leaves 0 only if Next was clicked with a valid address |
| Checkout.BuildPayload | src/pages/cart/CheckoutModel.jsx:97-107 | items copied from the cart in order, the form's pincode unless empty then the saved one, the totals, address and method |
| Checkout.CodOrder | src/pages/cart/CheckoutModel.jsx:112-124 | unpaid, method "COD", carrying the payload's items, totals, address and pincode |
| Checkout.CheckoutModal.constructor | src/pages/cart/CheckoutModel.jsx:36-47 | stage 0, not processing, an empty address, method "UPI" |
| Checkout.CheckoutModal.UpdateField | src/pages/cart/CheckoutModel.jsx:64 | one address field is replaced |
| Checkout.CheckoutModal.SetPaymentMethod | src/pages/cart/CheckoutModel.jsx:47 | the chosen payment method is stored |
| Checkout.CheckoutModal.HandleNext | src/pages/cart/CheckoutModel.jsx:76-89 | the stage becomes NextStage of the old stage and the current address's validity, staying in range |
| Checkout.CheckoutModal.HandleBack | src/pages/cart/CheckoutModel.jsx:91 | the stage becomes BackStage of the old stage, staying in range |
| Checkout.CheckoutModal.HandlePlace | src/pages/cart/CheckoutModel.jsx:93-130 | while processing it changes nothing; COD places the order in the store (which empties the cart) and clears processing; any other method leaves processing set and the store untouched |
| Checkout.CheckoutModal.OnlineFlowSettled | src/pages/cart/CheckoutModel.jsx:256-258 | processing is cleared |
| OrderDetails.FindOrder | src/pages/user/OrderDetails.jsx:20 | the first order with the id; none exactly when no order has it |
| OrderDetails.FindsNewestOrder | src/pages/user/OrderDetails.jsx:20 | an order just placed by the store is found by its "ORD-" id |
| OrderDetails.PaymentMethod | src/pages/user/OrderDetails.jsx:114 | payment.method when set, else "Online" when paid, else "COD"; never empty |
| OrderDetails.PaymentGateway | src/pages/user/OrderDetails.jsx:115 | payment.gateway when set, else "razorpay" when paid, else null |
| OrderDetails.TotalItemCost | src/pages/user/OrderDetails.jsx:109 | the `(price \|\| 0) * qty` sum over the order's items (the store's subtotal fold, with SubtotalAppend as its partner); never negative when no price or quantity is |
| OrderDetails.PlacedCodOrderDetails | src/pages/user/OrderDetails.jsx:109-115 | a placed COD order shows method "COD", no gateway, status "Processing", and an item cost equal to its subtotal |
| OrderDetails.PageOffsets | src/pages/user/OrderDetails.jsx:65-73 | at least one page; the page count is the least n >= 1 whose n usable page heights cover the image; page k shows the image shifted up by k usable heights |
| OrderDetails.InvoiceView.constructor | src/pages/user/OrderDetails.jsx:22-23 | not generating |
| OrderDetails.InvoiceView.StartPdf | src/pages/user/OrderDetails.jsx:48-53 | generatePdf goes past its guard exactly when the invoice element is mounted and no generation runs, and the flag stays set across the capture's await, so a second click meanwhile does nothing |
| OrderDetails.InvoiceView.PdfSettled | src/pages/user/OrderDetails.jsx:53-84 | after the capture the flag is cleared; a file "<id>_invoice.pdf" is saved exactly when the capture succeeded, with the minimal page count |
| Catalog.FetchStep | src/modules/catalog/CatalogApp.jsx:24-38 | a no-op unless idle with more to load; a thrown request leaves loading set; a page is appended, skip grows by its length, a short page ends hasMore, loading is cleared |
| Catalog.Request | src/modules/catalog/CatalogApp.jsx:28-30 | a query is sent exactly when the guard passes, asking for LIMIT from the current skip |
| Catalog.FetchKeepsSkip | src/modules/catalog/CatalogApp.jsx:34 | one fetch keeps skip equal to the number of products |
| Catalog.SkipAlwaysCountsProducts | src/modules/catalog/CatalogApp.jsx:13 | after any fetches skip equals the number of products, so each request asks for the products after those shown |
| Catalog.ProductsOnlyGrow | src/modules/catalog/CatalogApp.jsx:33 | the products shown are always a prefix of the later list |
| Catalog.NoMoreIsFinal | src/modules/catalog/CatalogApp.jsx:36 | once hasMore is false no fetch changes anything |
| Catalog.HasMoreNeverReturns | src/modules/catalog/CatalogApp.jsx:15 | hasMore true at the end means it was true at the start |
| Catalog.ShortPageEnds | src/modules/catalog/CatalogApp.jsx:36 | a page shorter than LIMIT is the last one fetched |
| Catalog.StuckWhileLoading | src/modules/catalog/CatalogApp.jsx:25 | while loading is set every fetch is a no-op |
| Catalog.ThrowStopsPaging | src/modules/catalog/CatalogApp.jsx:26-28 | after a thrown request the state never changes again |
| Catalog.CatalogApp.constructor | src/modules/catalog/CatalogApp.jsx:12-15 | no products, skip 0, not loading, more to load |
| Catalog.CatalogApp.ApiFetch | src/modules/catalog/CatalogApp.jsx:24-38 | sends the query Request gives and leaves the state FetchStep gives |
| Navbar.CurrentPath | src/topnavigation/Navbar.jsx:18 | the pathname, or "/" when empty |
| Navbar.IsActiveSpec | src/topnavigation/Navbar.jsx:47-55 | a null or empty path is never active; the root, given or defaulted, is active exactly at "/"; any other path exactly when the current path starts with it |
| Navbar.RootOnlyAtRoot | src/topnavigation/Navbar.jsx:50 | the root item is not active on any other page |
| Navbar.OrdersPrefixExamples | src/topnavigation/Navbar.jsx:54 | "/orders" is active on "/orders/123" and "/ordersX" but not on "/order" |
| Navbar.VisibleOnly | src/topnavigation/Navbar.jsx:25 | keeps exactly the visible items |
| Navbar.VisibleOnlyAppend | src/topnavigation/Navbar.jsx:25 | the filter distributes over concatenation, so order is kept |
| Navbar.VisibleOnlyIdempotent | src/topnavigation/Navbar.jsx:25 | filtering twice is filtering once |
| Navbar.NavItemsAfterFetch | src/topnavigation/Navbar.jsx:22-28 | a rejection keeps the previous items, a non-array gives none, an array gives exactly VisibleOnly of it: its visible items in order (VisibleOnlyAppend, VisibleOnlyIdempotent) |
| SideNav.FirstSegment | src/sidenavbar/SideNav.jsx:59-60 | never empty and never holds "/" |
| SideNav.FirstSegmentBetweenSlashes | src/sidenavbar/SideNav.jsx:60 | the text between the first and second "/", or "home" when that is empty |
| SideNav.CurrentKey | src/sidenavbar/SideNav.jsx:61 | one of the four configured tabs; the first segment when it is catalog, inventory or dashboard, else "home" |
| SideNav.CurrentKeyExamples | src/sidenavbar/SideNav.jsx:61 | "/catalog/…" selects catalog; "/cart/…", "/" and "" select home |
| SideNav.ActionTarget | src/sidenavbar/SideNav.jsx:70-87 | a truthy `to` wins whatever the key; else "/cart" for cart, "/wish" for wish, else no navigation |
| SideNav.ConfiguredActionTargets | src/sidenavbar/SideNav.jsx:24-55 | home has no actions, catalog has exactly cart, filter, sort, wish; only cart and wish navigate, to "/cart" and "/wishlist" |
| Home.GreetingName | src/pages/landing/Home.jsx:47 | name if not nullish (an empty name kept), else email, else "User" |
| Home.CapWord | src/pages/landing/Home.jsx:50-52 | same length; the first character upper-cased and the rest lower-cased; "" stays "" |
| Home.CapAll | src/pages/landing/Home.jsx:49-53 | each piece capitalised, in place |
| Home.CapWordKeepsSpaces | src/pages/landing/Home.jsx:50-52 | capitalising never creates or removes a space |
| Home.TitleCasePieces | src/pages/landing/Home.jsx:48-54 | splitting the greeting gives the capitalised pieces of the name, empty ones included, as many as the name had |
| Home.TitleCaseLength | src/pages/landing/Home.jsx:48-54 | the greeting has the name's length |
| Home.CapWordIdempotent | src/pages/landing/Home.jsx:50-52 | capitalising twice is capitalising once |
| Home.TitleCaseIdempotent | src/pages/landing/Home.jsx:48-54 | title-casing twice is title-casing once |
| Home.TitleCaseExample | src/pages/landing/Home.jsx:48-54 | "jOHN  doe" becomes "John  Doe", the double space kept |
| ScriptInjector.Settle | src/utils/loadRemote.js:19-25 | settles one pending request; settled requests and all others are untouched |
| ScriptInjector.SettleAll | src/utils/loadRemote.js:19-33 | settles the pending listed requests; all others are untouched |
| ScriptInjector.MissingUrlRejects | src/utils/loadRemote.js:12 | an empty url rejects with "Missing url" and touches no element |
| ScriptInjector.LoadedResolvesAtOnce | src/utils/loadRemote.js:14-17 | an element marked loaded resolves the request at once; no element added |
| ScriptInjector.InFlightWaits | src/utils/loadRemote.js:19-33 | an unmarked element gets the request's listeners; the request waits; no element added |
| ScriptInjector.FirstRequestAppends | src/utils/loadRemote.js:36-58 | a first request appends exactly one element tagged with its url, owned by it, timer armed |
| ScriptInjector.LoadSettles | src/utils/loadRemote.js:47-51 | on load the timer is cleared, the element marked loaded, the owner and every listener resolve with the url |
| ScriptInjector.ErrorSettles | src/utils/loadRemote.js:53-56 | on error the timer is cleared, the owner rejects with "Failed to load", every listener with "Script tag load failed"; the element stays unmarked |
| ScriptInjector.TimeoutRejects | src/utils/loadRemote.js:42-45 | on timeout the handlers are nulled and the owner rejects with a message naming the delay and url; the element stays, unmarked |
| ScriptInjector.LateLoadAfterTimeout | src/utils/loadRemote.js:43 | a load after the timeout does not change the owner's rejection nor mark the element; listeners still resolve |
| ScriptInjector.InjectKeepsValid | src/utils/loadRemote.js:10-59 | injectScript keeps one element per url and the bookkeeping consistent |
| ScriptInjector.LoadKeepsValid | src/utils/loadRemote.js:47-51 | a load event keeps the invariant |
| ScriptInjector.ErrorKeepsValid | src/utils/loadRemote.js:53-56 | an error event keeps the invariant |
| ScriptInjector.TimeoutKeepsValid | src/utils/loadRemote.js:42-45 | a timer event keeps the invariant |
| ScriptInjector.StepKeepsValid | src/utils/loadRemote.js:10-59 | every call or event keeps the invariant |
| ScriptInjector.RunKeepsValid | src/utils/loadRemote.js:14-40 | after any calls and events the head never holds two elements for one url |
| ScriptInjector.EventTouchesOnlyItsUrl | src/utils/loadRemote.js:19-56 | an event on a url changes only that url's element and requests for that url |
| ScriptInjector.StepOnlyAppends | src/utils/loadRemote.js:10-59 | elements are never removed, requests only appended, settled requests unchanged |
| ScriptInjector.SettledIsFinal | src/utils/loadRemote.js:42-56 | a settled request keeps its outcome whatever happens later |
| ScriptInjector.HungStaysPending | src/utils/loadRemote.js:19-33 | a request listening on an element that already fired unloaded stays pending forever |
| ScriptInjector.RetryAfterFailureNeverSettles | src/utils/loadRemote.js:14-33 | a new request for a url whose element failed or timed out and fired never settles |
| ScriptInjector.LoadThenReuse | src/utils/loadRemote.js:14-17 | request, load, request again: one element, both requests resolved |
| LoadRemote.EffectiveTimeout | src/utils/loadRemote.js:105-111 | 12000 for omitted opts, 10000 for opts without timeout, else the given timeout |
| LoadRemote.InitContainer | src/utils/loadRemote.js:67-95 | a missing container fails tagged with its name; init is called exactly when it is a function and a default share scope exists; a throwing init only warns and the container is returned |
| LoadRemote.NormalizeSpec | src/utils/loadRemote.js:122 | exactly one leading "./" is dropped; both spellings give the same specifier |
| LoadRemote.SpecifierExample | src/utils/loadRemote.js:128 | "./CatalogApp" and "CatalogApp" in remote "catalog" give "catalog/CatalogApp" |
| LoadRemote.Lookup | src/utils/loadRemote.js:133 | the container when present, none otherwise |
| LoadRemote.DiagnosticComplete | src/utils/loadRemote.js:135-138 | the import-failure message contains the specifier, the import's message, the presence flag and the keys or "none" |
| LoadRemote.FinishOnScriptFailure | src/utils/loadRemote.js:111-116 | a failed script load is reported behind the remote's name with the injector's message |
| LoadRemote.FinishAfterLoad | src/utils/loadRemote.js:119-130 | after the load a missing container fails first; a present one leads to the import, whose module is returned |
| LoadRemote.FinishOnImportFailure | src/utils/loadRemote.js:131-142 | a failed import keeps the original error and reports the specifier, "Container present: true" and the keys |
| LoadRemote.RemoteLoader.InjectScript | src/utils/loadRemote.js:10-59 | the registry becomes the Inject step's result and the invariant holds |
| LoadRemote.RemoteLoader.FireListeners | src/utils/loadRemote.js:19-33 | firing the attached listeners one by one settles them as SettleAll does |
| LoadRemote.RemoteLoader.ScriptLoaded | src/utils/loadRemote.js:47-51 | the registry becomes the load step's result and the invariant holds |
| LoadRemote.RemoteLoader.ScriptFailed | src/utils/loadRemote.js:53-56 | the registry becomes the error step's result and the invariant holds |
| LoadRemote.RemoteLoader.TimerFired | src/utils/loadRemote.js:42-45 | the registry becomes the timeout step's result and the invariant holds |
| LoadRemote.RemoteLoader.DefineContainer | src/utils/loadRemote.js:70 | `window[name]` holds the container |
| LoadRemote.RemoteLoader.TryInitContainer | src/utils/loadRemote.js:67-95 | returns InitContainer's result, logging an init call and a warning exactly when it says so |
| LoadRemote.RemoteLoader.StartRemoteLoad | src/utils/loadRemote.js:105-116 | a missing argument throws before any injection; otherwise the url is injected with the effective timeout |
| LoadRemote.RemoteLoader.FinishRemoteLoad | src/utils/loadRemote.js:111-143 | the result FinishResult gives; the specifier is imported exactly when the script loaded and the container exists; no init after a failed load |
| LoadRemote.CatalogExample | src/utils/loadRemote.js:4 | loading "catalog" with "./CatalogApp" injects one element, resolves, imports the module, and a second load reuses the element |

## Left out

- Network and payment gateway. The axios and fetch calls, the create-order and verify-payment requests, and the Razorpay SDK and modal (src/pages/cart/CheckoutModel.jsx:66-74 and 133-252) are outside the model. Their outcomes are inputs: `Catalog.Response`, `Navbar.NavResponse`, and `Checkout.CheckoutModal.OnlineFlowSettled` for the online flow's `finally`.
- Persistence. The localStorage load and save and the JSON parsing in the store are not modelled; the store starts empty.
- Floating point. Money is `real`, so `toFixed`, `fmt` and rounding are not modelled.
- Clocks. `Date.now()` and `toISOString()` are parameters (`now`, `nowIso`).
- Rendering libraries. html2canvas, jsPDF and qrcode are not modelled. The captured image height and the capture's success are inputs to `OrderDetails.InvoiceView.PdfSettled`. The QR-code effect and the 400 ms auto-download timer are left out.
- UI side effects: toasts, alerts, navigation calls, scroll listeners and JSX rendering.
- Case mapping and white space. `Text.Upper` and `Text.Lower` map ASCII letters only, where JavaScript's toUpperCase also maps other scripts and can change a string's length. Trim uses the JavaScript white-space and line-terminator set.
- Home.TitleCaseLength: holds for the ASCII case mapping modelled here; JavaScript's full Unicode mapping can change lengths.
- Selector quoting. The `querySelector` that finds an existing element is modelled as an exact url lookup, so urls containing `"` are not modelled.
- React scheduling. State updates are applied in order within one call: stale closures and batched renders are not modelled, and `apiFetch` is one atomic step.
- Timeouts are natural numbers. Negative or fractional `timeout` values are not modelled.
- The effect of `container.init` on the shared modules is not modelled; only the fact that it was called, and any warning it caused, are logged.
- The `window` object is treated as unchanged across the `await import(spec)` in loadRemote.js:119-133: `LoadRemote.FinishResult` and `LoadRemote.RemoteLoader.FinishRemoteLoad` use one snapshot of the containers for `tryInitContainer` and for the diagnostic, so a container removed by other code during that await is not modelled.
- Default quantity. `addToCart(product, qty = 1)` and `moveWishlistToCart(product, qty = 1)` (src/store/MeshContext.jsx:43 and 81) take the quantity explicitly in `Mesh.MeshStore.AddToCart` and `Mesh.MeshStore.MoveWishlistToCart`; a call without one is the call with 1.
- `Navbar.NavResponse.Rejected` is kept for the effect's `catch` in Navbar.jsx, but src/topnavigation/topNav.service.js catches every error and resolves with [], so that branch is not a live path.
- Falsy strings. JavaScript's falsy values are modelled as an empty string or a missing value (`Option`).
- `wishlistCount` and `ordersCount` (list lengths) have no separate member. Neither does the best-effort count in CartItem.jsx's move handler, which only feeds an alert.
