# quickCart storefront core, modelled in Dafny

quickCart is a React storefront. Shoppers browse and filter a catalogue,
keep a cart in memory, and sign in through a mock login that invents a
session token. They check out into an order on the backend and pay for it
through the Razorpay widget. A service worker keeps payment traffic away
from its own fetch handler.

This project models the parts of the storefront that make decisions:

- **Cart state holder** (`CartContext`): add, remove, set quantity, clear, total and count, over a sequence of line items. The invariant that every line has a distinct id and a positive quantity is proved for every operation.
- **Auth state holder** (`AuthContext`): the mock token, login, register and logout against a storage map, and the start-up restore. `Json` gives the `JSON.stringify`/`JSON.parse` round trip the stored user relies on.
- **Backend services** (`OrderService`, `PaymentService`, over `SessionToken` and `Api`): the token lookup shared by every call, the request each call sends, and how a reply settles into a result or an error message. The network reply is a parameter.
- **Views**:
  - cart drawer and checkout (`Cart`);
  - product grid with category, search and sort (`Products`);
  - paginated shop with its query string (`Shop`);
  - product page with its quantity stepper (`ProductDetails`);
  - carousel (`Carousel`);
  - login modal and login page (`LoginModal`, `LoginPage`, sharing `AuthForm`);
  - contact form (`Contact`);
  - order page with the payment flow (`OrderDetailPage`);
  - order list (`OrdersPage`).
- **Service worker** (`ServiceWorker`): the fetch routing.

Each view is a class whose fields are the component's state variables. Each event handler is a method whose `ensures` gives the new value of every field it may change. Navigation is a `location` field. Browser alerts are a returned `notice` string. Timer callbacks and `useEffect` effects (such as `LoginPage.LoginForm.RedirectIfAuthenticated`) are separate methods, which the environment must call when React would run them. On the login page this matters: a successful sign-in or registration sets the user, so the redirect effect (src/pages/LoginPage.jsx:23-29) fires at once, before the delayed callback runs.

## Model

| member | source | states |
|---|---|---|
| Text.OrElse | src/components/Cart.jsx:30-32 | `a \|\| b` on strings: `a` unless it is empty, else `b` |
| Text.ContainsIff | src/components/Products.jsx:68-73 | `includes` holds exactly when the pattern occurs at some index |
| Text.ContainsInfix | public/sw.js:15-44 | a URL built around a pattern includes that pattern |
| Text.Lower | src/components/Products.jsx:68-73 | lower-casing keeps the length and maps each letter |
| Text.Upper | src/pages/OrdersPage.jsx:104 | upper-casing keeps the length and maps each letter |
| Text.UpperHasNoLowerCase | src/pages/OrderDetailPage.jsx:201 | an upper-cased order number has no lower-case letter |
| Text.NatToString | src/components/AuthContext.jsx:23 | `String(n)` is a non-empty digit string without a leading zero |
| Text.NatToStringRoundTrip | src/components/AuthContext.jsx:23 | reading back the rendered timestamp gives the timestamp |
| Text.NatToStringInjective | src/components/AuthContext.jsx:23 | distinct timestamps render differently |
| Text.IndexOf | src/components/LoginModal.jsx:84 | the index of the first occurrence: it holds the element, and no earlier index does |
| Text.ReplaceFirstSpec | src/components/AuthContext.jsx:23 | `replace('@','_')` replaces only the first `@`, and leaves a string without one unchanged |
| Text.BeforeFirstSpec | src/components/LoginModal.jsx:84 | `split('@')[0]` is the prefix before the first `@`, or the whole string when there is none |
| Text.TakeLast | src/pages/OrderDetailPage.jsx:201 | `substring(length - n)` is the last `n` characters, or all of a shorter string |
| Text.Filter | src/components/CartContext.jsx:48-55 | `filter` keeps exactly the elements that pass, drawn from the input |
| Text.FilterAppend | src/components/CartContext.jsx:48-55 | filtering a concatenation is the concatenation of the filtered parts, so order is kept |
| Text.FilterOrder | src/components/Products.jsx:63-73 | at any split point the result is the filtered prefix then the filtered suffix, and each element is kept once, exactly when it passes |
| Text.FilterAll | src/components/Products.jsx:63-65 | a filter that every element passes changes nothing |
| Text.DedupSpec | src/components/Products.jsx:56 | `[...new Set(s)]` has no duplicates and the same elements, in order of first occurrence |
| Json.Stringify | src/components/AuthContext.jsx:33 | `JSON.stringify` of an object of string members is a braced text |
| Json.Get | src/components/AuthContext.jsx:15 | a member lookup finds the value of the last member with that key; no later member has the key |
| Json.Parse | src/components/AuthContext.jsx:15 | only text that opens with `{` parses to an object |
| Json.EscapeRoundTrip | src/components/AuthContext.jsx:33 | the string body of an escaped string parses back to that string |
| Json.MemberRoundTrip | src/components/AuthContext.jsx:33 | one stringified member parses back to itself |
| Json.MembersRoundTrip | src/components/AuthContext.jsx:33 | a stringified member list parses back to itself |
| Json.ParseStringify | src/components/AuthContext.jsx:15 | `JSON.parse(JSON.stringify(o))` gives back `o` |
| CartContext.ProductId | src/components/CartContext.jsx:19-22 | a product's id is `id`, falling back to `_id` |
| CartContext.Normalize | src/components/CartContext.jsx:19-22 | normalising sets `id` to the product id and changes nothing else |
| CartContext.Bump | src/components/CartContext.jsx:26-39 | the matching lines gain one unit; the other lines are unchanged |
| CartContext.Requantified | src/components/CartContext.jsx:58-71 | the matching lines take the new quantity; the others are unchanged |
| CartContext.CartProvider.constructor | src/components/CartContext.jsx:8-9 | the cart starts empty and closed |
| CartContext.CartProvider.ToggleCart | src/components/CartContext.jsx:12-14 | opens a closed cart and closes an open one; the items are kept |
| CartContext.CartProvider.AddToCart | src/components/CartContext.jsx:17-45 | adds one unit of the product and keeps the cart well formed |
| CartContext.CartProvider.RemoveFromCart | src/components/CartContext.jsx:48-55 | drops the lines with that id and keeps the cart well formed |
| CartContext.CartProvider.UpdateQuantity | src/components/CartContext.jsx:58-71 | a quantity of 0 or less removes the line; otherwise it sets the quantity; the cart stays well formed |
| CartContext.CartProvider.ClearCart | src/components/CartContext.jsx:74-76 | empties the cart; its total and count become 0 |
| CartContext.MatchCountPositive | src/components/CartContext.jsx:26-39 | the cart has a line for a product exactly when some line matches it |
| CartContext.CountAppend | src/components/CartContext.jsx:79-85 | the count and the total of a concatenation are the sums of the parts |
| CartContext.BumpCount | src/components/CartContext.jsx:26-39 | bumping raises the count by the number of matching lines |
| CartContext.AddedShape | src/components/CartContext.jsx:17-45 | an existing line is bumped in place; a new product is appended with quantity 1 |
| CartContext.AddedCount | src/components/CartContext.jsx:79-85 | adding a new product raises the count by 1 and the total by its price |
| CartContext.Added | src/components/CartContext.jsx:17-45 | the line count grows by one exactly when the product had no line |
| CartContext.Removed | src/components/CartContext.jsx:48-55 | no line of the result has the id, and the list never grows |
| CartContext.Updated | src/components/CartContext.jsx:58-71 | a quantity of zero or less removes every matching line; a positive one keeps the length and sets every matching line to it |
| CartContext.CountAtLeastLines | src/components/CartContext.jsx:85 | with positive quantities the item count is at least the number of lines |
| CartContext.CartProvider.CartTotal | src/components/CartContext.jsx:79-82 | the total is the sum over the current lines; an empty cart totals 0 |
| CartContext.CartProvider.ItemCount | src/components/CartContext.jsx:85 | the count is the sum over the current lines, and at least the number of lines in a valid cart |
| CartContext.RemovedShape | src/components/CartContext.jsx:48-55 | no remaining line has the id; every other line is kept once, in its original order; removing an absent id changes nothing |
| CartContext.UpdatedPositive | src/components/CartContext.jsx:58-71 | a positive quantity keeps every line and id in place and only re-quantifies the matches |
| CartContext.AddTwiceThenRemove | src/components/CartContext.jsx:17-55 | adding a product twice gives one line of quantity 2; removing it empties the cart |
| CartContext.ExampleTotals | src/components/CartContext.jsx:79-85 | two units at 10.0 and one at 5.5 total 25.5 and count 3 |
| CartContext.AddedWellFormed | src/components/CartContext.jsx:17-45 | adding keeps ids distinct and quantities positive |
| CartContext.RemovedWellFormed | src/components/CartContext.jsx:48-55 | removing keeps the cart well formed |
| CartContext.RequantifiedWellFormed | src/components/CartContext.jsx:58-71 | a positive re-quantification keeps the cart well formed |
| AuthContext.MockTokenShape | src/components/AuthContext.jsx:23 | the token is `mock_token_`, the timestamp, `_`, then the email with its first `@` made `_` |
| AuthContext.MockToken | src/components/AuthContext.jsx:23 | the token starts with `mock_token_` and is longer than the prefix plus the e-mail |
| AuthContext.StoredUser | src/components/AuthContext.jsx:12-18 | start-up stays signed out exactly when no non-empty `user` entry is stored; a restored user came from text that parses |
| AuthContext.AuthProvider.IsAuthenticated | src/components/AuthContext.jsx:75 | signed in exactly when a user is set |
| AuthContext.SessionUser | src/components/AuthContext.jsx:26-29 | the session user is the form data plus the non-empty mock token |
| AuthContext.UserRoundTrip | src/components/AuthContext.jsx:33 | the stored user parses back to the same user, and its `token` member is the token |
| AuthContext.SignedInStorage | src/components/AuthContext.jsx:33-36 | sign-in writes `user` and `token` and keeps every other key |
| AuthContext.SignedOutStorage | src/components/AuthContext.jsx:65-66 | sign-out removes `user` and `token` and keeps every other key |
| AuthContext.RestoreAfterSignIn | src/components/AuthContext.jsx:12-18 | a restart after sign-in restores the same user |
| AuthContext.RestoreAfterSignOut | src/components/AuthContext.jsx:12-18 | a restart after sign-out restores nobody |
| AuthContext.AuthProvider.constructor | src/components/AuthContext.jsx:8-9 | nobody is signed in and the provider is loading |
| AuthContext.AuthProvider.RestoreSession | src/components/AuthContext.jsx:12-18 | a stored user is restored; with none, loading ends; malformed JSON throws before loading ends |
| AuthContext.AuthProvider.Login | src/components/AuthContext.jsx:21-39 | sets the session user, writes both keys, returns true |
| AuthContext.AuthProvider.Register | src/components/AuthContext.jsx:42-60 | does the same as login |
| AuthContext.AuthProvider.Logout | src/components/AuthContext.jsx:63-67 | clears the user and both keys |
| SessionToken.StoredToken | src/services/orderService.js:16-30 | the `token` key if non-empty, else the stored user's token; a found token is never empty |
| SessionToken.ReadToken | src/services/orderService.js:16-26 | the lookup returns the token `StoredToken` specifies |
| SessionToken.TokenAfterSignIn | src/services/orderService.js:16-30 | after sign-in the lookup finds the session token |
| SessionToken.TokenAfterSignOut | src/services/orderService.js:16-30 | after sign-out the lookup finds nothing |
| SessionToken.TokenFromStoredUser | src/services/orderService.js:19-25 | without a `token` key the lookup falls back to the stored user's token |
| Api.StatusMessage | src/services/orderService.js:46 | the status fallback message is its prefix followed by the status's decimal digits, which read back as the status |
| Api.FailureMessage | src/services/orderService.js:44-47 | a failure message is the body's `message` if any, else "Failed with status: " and the status; a body that is not JSON gives the parse error; never empty |
| Api.GuardedFailureMessage | src/services/paymentService.js:44-53 | a body that is not JSON gives "Request failed with status: " and the status instead of a parse error |
| Api.Settle | src/services/orderService.js:40-50 | a call succeeds exactly on an ok reply with a JSON body, which is the result; a rejected fetch fails with its reason; an ok reply that is not JSON fails with the parse error |
| Api.SettleGuarded | src/services/paymentService.js:44-57 | the guarded settle succeeds in exactly the same cases, and fails the same way when offline or on an unreadable ok reply |
| Api.SettleGuardedDiffers | src/services/paymentService.js:44-53 | the two settles differ exactly on a failed reply without a JSON body |
| OrderService.Dispatch | src/services/orderService.js:28-31 | a request is sent, with the bearer token, exactly when a token is found; otherwise the call fails with the login message |
| OrderService.CreateOrder | src/services/orderService.js:9-55 | POSTs the order to `/api/orders` with the token; without a token it fails without sending; an unreadable stored user fails with the parse error; once sent, the outcome is the settled reply |
| OrderService.UpdateOrderToPaid | src/services/orderService.js:63-100 | PUTs the payment result to `/api/orders/{id}/pay` with the token; an unreadable stored user fails with the parse error; once sent, the outcome is the settled reply |
| OrderService.CheckOrder | src/services/orderService.js:143-145 | an order without `_id` is rejected as invalid |
| OrderService.GetOrderById | src/services/orderService.js:107-153 | an empty id fails before anything is sent; a success always has an `_id`; once sent, the outcome is the settled reply checked for an `_id` |
| OrderService.GetMyOrders | src/services/orderService.js:159-193 | GETs `/api/orders/myorders` with the token; an unreadable stored user fails with the parse error; once sent, the outcome is the settled reply |
| OrderService.FailedReplyMessages | src/services/orderService.js:44-47 | with a stored token, a failed reply makes each order call fail with the body's message, the status text, or the parse error |
| OrderService.SignedOutSendsNothing | src/services/orderService.js:16-30 | after logout no order call sends a request |
| OrderService.SignedInSendsToken | src/services/orderService.js:16-38 | after login the order is sent with the session token |
| PaymentService.ProviderOrderBody | src/services/paymentService.js:34-41 | currency defaults to INR, receipt to `receipt_<now>`, notes to the source note |
| PaymentService.CreateRazorpayOrder | src/services/paymentService.js:9-63 | POSTs the provider order with the token and settles the reply guardedly; a missing token or an unreadable stored user fails without sending |
| PaymentService.VerifyPayment | src/services/paymentService.js:70-117 | POSTs the payment to `/api/payment/verify-upi` with the token; a missing token or an unreadable stored user fails without sending |
| PaymentService.GetPaymentDetails | src/services/paymentService.js:124-160 | GETs `/api/payment/{id}` with the token; a missing token or an unreadable stored user fails without sending |
| PaymentService.CreateFailureMessages | src/services/paymentService.js:44-53 | a failed provider-order reply gives the body message, the status text, or the "Request failed" text |
| Cart.OrderItemOf | src/components/Cart.jsx:73-79 | an order line copies the line's name, quantity, image and price, and its product id |
| Cart.OrderRequest | src/components/Cart.jsx:82-98 | one order line per cart line; the items and total price are the cart total; fixed address, Stripe, no tax or shipping |
| Cart.OrderRequestTotal | src/components/Cart.jsx:90-98 | the order's total equals the sum of its own lines |
| Cart.Classify | src/components/Cart.jsx:129-136 | "Authentication" errors show session-expired and open the login; "Payment gateway" errors show the payment message; otherwise the message itself |
| Cart.CreatedOrderId | src/components/Cart.jsx:108-115 | the new order's `_id` when the reply has an order, else the empty id that the validity check refuses |
| Cart.CartDrawer.constructor | src/components/Cart.jsx:20-22 | no modal, not processing, no error |
| Cart.CartDrawer.CloseLoginModal | src/components/Cart.jsx:25-27 | only the login modal closes |
| Cart.CartDrawer.HandleCheckout | src/components/Cart.jsx:56-145 | signed out: login prompt and nothing sent; empty cart: message and nothing sent; otherwise the order is sent; success closes the drawer, alerts "Order created successfully! Order ID: " with the new id and navigates to that order; failure is classified; every other path shows no alert; the cart's lines never change |
| Cart.CloseOnLogout | src/components/Cart.jsx:147-152 | signing out closes an open cart and keeps its items |
| Cart.SignedOutCheckoutSendsNothing | src/components/Cart.jsx:57-66 | a signed-out checkout never reaches the order endpoint |
| Products.CategoryColumn | src/components/Products.jsx:56 | the category of every product, in order |
| Products.CategoriesSpec | src/components/Products.jsx:56 | "All" first, then each product category exactly once |
| Products.Categories | src/components/Products.jsx:56 | the list is never empty and starts with "All" |
| Products.ByCategory | src/components/Products.jsx:63-65 | never longer than the catalogue; for a real category every product kept is in it |
| Products.BySearch | src/components/Products.jsx:68-73 | never longer than its input; for a non-empty term every product kept matches it |
| Products.ByCategorySpec | src/components/Products.jsx:63-65 | "All" keeps every product; otherwise exactly the products of that category, each once and in catalogue order |
| Products.BySearchSpec | src/components/Products.jsx:68-73 | an empty term keeps every product; otherwise exactly the products whose name or category contains the term, ignoring case, each once and in catalogue order |
| Products.SearchFindsOwnName | src/components/Products.jsx:68-73 | a product is found by its own name in any case |
| Products.SortProducts | src/components/Products.jsx:76-82 | the array ends sorted by the chosen key and is a permutation of itself |
| Products.Insert | src/components/Products.jsx:76-82 | one insertion step extends the sorted prefix and permutes the array |
| Products.Swap | src/components/Products.jsx:76-82 | exchanges two elements and nothing else |
| Products.VisibleProducts | src/components/Products.jsx:58-85 | the shown list is a permutation of the category-then-search result, ordered by the sort option |
| Products.ProductsView.constructor | src/components/Products.jsx:15-17 | no login prompt, no modal, nothing added |
| Products.ProductsView.HandleAddToCart | src/components/Products.jsx:87-106 | signed out: login prompt and the cart unchanged; signed in: the product is added and confirmed |
| Products.ProductsView.CloseLoginModal | src/components/Products.jsx:108-110 | only the modal closes |
| Products.ProductsView.LoginPromptElapsed | src/components/Products.jsx:94-96 | the login prompt clears; nothing else changes |
| Products.ProductsView.AddedElapsed | src/components/Products.jsx:103-105 | the added-to-cart notice clears; nothing else changes |
| Shop.QueryParams | src/components/Shop.jsx:33-37 | the query string is built in the order page, category, sort, keyword |
| Shop.QueryKeys | src/components/Shop.jsx:33-37 | each parameter is present exactly when its guard holds |
| Shop.QueryOrder | src/components/Shop.jsx:33-37 | parameters appear in the fixed order |
| Shop.DefaultQuery | src/components/Shop.jsx:33-37 | the default filters send only the page |
| Shop.ShopView.constructor | src/components/Shop.jsx:12-21 | page 1 of 1, all categories, default sort, no search |
| Shop.ShopView.PreviousPage | src/components/Shop.jsx:263 | moves back one page, never below 1; the login prompt, modal and added notice are kept |
| Shop.ShopView.NextPage | src/components/Shop.jsx:287 | moves on one page, never past the last; the login prompt, modal and added notice are kept |
| Shop.ShopView.GoToPage | src/components/Shop.jsx:277 | a page button selects its page; the login prompt, modal and added notice are kept |
| Shop.ShopView.SelectCategory | src/components/Shop.jsx:131-134 | a category choice resets to page 1; the login prompt, modal and added notice are kept |
| Shop.ShopView.SelectSort | src/components/Shop.jsx:149-152 | a sort choice resets to page 1; the login prompt, modal and added notice are kept |
| Shop.ShopView.Search | src/components/Shop.jsx:178-181 | a search resets to page 1; the login prompt, modal and added notice are kept |
| Shop.ShopView.HandleAddToCart | src/components/Shop.jsx:81-100 | signed out: login prompt; signed in: the product is added; the page, filters and search are kept |
| Shop.ShopView.CloseLoginModal | src/components/Shop.jsx:102-104 | only the login modal closes |
| Shop.ShopView.ReceivePages | src/components/Shop.jsx:48 | the page count becomes the server's; nothing else changes |
| Shop.ShopView.LoginPromptElapsed | src/components/Shop.jsx:88-90 | the login prompt clears; page, filters and search are kept |
| Shop.ShopView.AddedElapsed | src/components/Shop.jsx:97-99 | the added-to-cart notice clears; page, filters and search are kept |
| Shop.ClampsStayInRange | src/components/Shop.jsx:263-287 | previous and next stay within 1..totalPages |
| ProductDetails.ProductImages | src/components/ProductDetails.jsx:42-47 | the gallery is the product's images, else its single image; never empty |
| ProductDetails.AddedTimesExisting | src/components/ProductDetails.jsx:84-86 | adding `n` times bumps an existing line by `n` |
| ProductDetails.AddedTimesNew | src/components/ProductDetails.jsx:84-86 | adding `n` times appends one new line of quantity `n` |
| ProductDetails.AddedTimesCount | src/components/ProductDetails.jsx:84-86 | adding `n` times raises the count by `n` per matching line |
| ProductDetails.ProductDetailsView.constructor | src/components/ProductDetails.jsx:10-21 | quantity 1, no product, nothing added |
| ProductDetails.ProductDetailsView.ReceiveProduct | src/components/ProductDetails.jsx:42-47 | stores the product and its gallery |
| ProductDetails.ProductDetailsView.HandleQuantityChange | src/components/ProductDetails.jsx:59-62 | typed values below 1 become 1 |
| ProductDetails.ProductDetailsView.Decrement | src/components/ProductDetails.jsx:241 | decreases the quantity, never below 1 |
| ProductDetails.ProductDetailsView.Increment | src/components/ProductDetails.jsx:253 | increases the quantity, never above the stock |
| ProductDetails.ProductDetailsView.HandleAddToCart | src/components/ProductDetails.jsx:64-94 | signed out: login prompt; signed in: the product is added `quantity` times |
| ProductDetails.ProductDetailsView.CloseLoginModal | src/components/ProductDetails.jsx:96-98 | only the modal closes |
| ProductDetails.ProductDetailsView.LoginRequiredElapsed | src/components/ProductDetails.jsx:70-72 | the login message hides; the modal, product and quantity are kept |
| ProductDetails.ProductDetailsView.AddedElapsed | src/components/ProductDetails.jsx:90-92 | the added message hides; the product and quantity are kept |
| Carousel.JsRem | src/components/Carousel.jsx:7-9 | JavaScript `%` truncates: the remainder takes the dividend's sign |
| Carousel.NextIndex | src/components/Carousel.jsx:7-9 | from a slide, next is a slide |
| Carousel.PrevIndex | src/components/Carousel.jsx:15-17 | from a slide, previous is a slide |
| Carousel.NextIndexSpec | src/components/Carousel.jsx:7-9 | next wraps from the last slide to the first |
| Carousel.PrevIndexSpec | src/components/Carousel.jsx:15-17 | previous wraps from the first slide to the last |
| Carousel.NextPrevInverse | src/components/Carousel.jsx:7-17 | previous undoes next and next undoes previous |
| Carousel.AdvanceSpec | src/components/Carousel.jsx:7-9 | `n` nexts move `n` places modulo the slide count |
| Carousel.FiveNextsReturn | src/components/Carousel.jsx:5-9 | a full round of nexts returns to the start |
| Carousel.NegativeIndexStaysOut | src/components/Carousel.jsx:7-17 | from a negative index, which no button produces, next and previous would not wrap into range, which is why the range invariant is needed |
| Carousel.SlideShow.constructor | src/components/Carousel.jsx:4 | the first slide is shown |
| Carousel.SlideShow.NextSlide | src/components/Carousel.jsx:7-9 | advances with wrap-around and stays in range |
| Carousel.SlideShow.PrevSlide | src/components/Carousel.jsx:15-17 | goes back with wrap-around and stays in range |
| Carousel.SlideShow.GoToSlide | src/components/Carousel.jsx:11-13 | shows the chosen slide |
| AuthForm.Validate | src/components/LoginModal.jsx:35-53 | valid exactly when the passwords match (registering only) and are at least 6 long; mismatch is reported first |
| AuthForm.MismatchTakesPrecedence | src/pages/LoginPage.jsx:31-49 | a short, mismatched registration reports the mismatch |
| AuthForm.LoginIgnoresConfirmation | src/pages/LoginPage.jsx:31-49 | sign-in validation ignores the confirmation field |
| AuthForm.RegisterPayload | src/components/LoginModal.jsx:66-70 | registration sends the name, the email and the timestamp as id |
| AuthForm.LoginPayload | src/components/LoginModal.jsx:83-87 | sign-in takes the name from the email up to its first `@` |
| AuthForm.PayloadIdIsTimestamp | src/components/LoginModal.jsx:66-86 | both payload ids read back as the timestamp |
| LoginModal.LoginDialog.constructor | src/components/LoginModal.jsx:4-20 | the mode follows `initialMode`; every field is empty |
| LoginModal.LoginDialog.Reset | src/components/LoginModal.jsx:23-33 | clears every field and message |
| LoginModal.LoginDialog.Open | src/components/LoginModal.jsx:23-33 | opening a closed modal clears it |
| LoginModal.LoginDialog.Close | src/components/LoginModal.jsx:107 | closes and keeps the fields |
| LoginModal.LoginDialog.SetRegister | src/components/LoginModal.jsx:275-279 | switching mode while open clears the form |
| LoginModal.LoginDialog.HandleSubmit | src/components/LoginModal.jsx:55-97 | invalid: the error is shown and nobody signs in; otherwise register or login with the payload, and the success message |
| LoginModal.LoginDialog.RegisterDelayElapsed | src/components/LoginModal.jsx:74-80 | after registering, the modal switches to sign-in |
| LoginModal.LoginDialog.LoginDelayElapsed | src/components/LoginModal.jsx:91-93 | after signing in, the modal closes |
| LoginPage.RedirectTarget | src/pages/LoginPage.jsx:26 | the page the visitor came from, else home |
| LoginPage.LoginForm.constructor | src/pages/LoginPage.jsx:10-18 | sign-in mode, empty fields |
| LoginPage.LoginForm.RedirectIfAuthenticated | src/pages/LoginPage.jsx:23-29 | a signed-in visitor is sent back to where they came from |
| LoginPage.LoginForm.SetRegister | src/pages/LoginPage.jsx:240-251 | switches mode and keeps the fields |
| LoginPage.LoginForm.HandleSubmit | src/pages/LoginPage.jsx:51-95 | the same validation and sign-in as the modal |
| LoginPage.LoginForm.RegisterDelayElapsed | src/pages/LoginPage.jsx:70-75 | after registering, the form switches to sign-in |
| LoginPage.LoginForm.LoginDelayElapsed | src/pages/LoginPage.jsx:87-90 | after signing in, the visitor is redirected |
| Contact.Submitted | src/pages/Contact.jsx:7-14 | a complete form is cleared and confirmed; an incomplete one is left as it is |
| Contact.SubmitTwice | src/pages/Contact.jsx:7-14 | submitting again right after changes nothing |
| Contact.ContactPage.constructor | src/pages/Contact.jsx:4-5 | empty form, no confirmation |
| Contact.ContactPage.HandleSubmit | src/pages/Contact.jsx:7-14 | the page state after a submit is `Submitted` of the old state |
| Contact.ContactPage.Edit | src/pages/Contact.jsx:21-29 | typing replaces the form data and leaves the confirmation flag alone |
| Contact.ContactPage.ConfirmationElapsed | src/pages/Contact.jsx:11 | the confirmation hides; the form is kept |
| OrderDetailPage.AmountInPaise | src/pages/OrderDetailPage.jsx:58 | the amount is the nearest whole paisa to the price |
| OrderDetailPage.WholePaiseExact | src/pages/OrderDetailPage.jsx:58 | a price in whole paise is sent exactly |
| OrderDetailPage.AmountExamples | src/pages/OrderDetailPage.jsx:58 | 199.99 becomes 19999 and 0.005 rounds up to 1 |
| OrderDetailPage.ShortOrderNumber | src/pages/OrderDetailPage.jsx:201 | the last six characters of the id, upper-cased |
| OrderDetailPage.PaymentResultOf | src/pages/OrderDetailPage.jsx:85-91 | the widget's three ids, "succeeded" and the time |
| OrderDetailPage.ProviderOrderFor | src/pages/OrderDetailPage.jsx:59-63 | the amount in paise, INR, and the order id as receipt |
| OrderDetailPage.CheckoutFor | src/pages/OrderDetailPage.jsx:73-121 | the server's key or the fallback key, the amount, the store name, the provider order id, the order number in the description |
| OrderDetailPage.OrderDetailView.constructor | src/pages/OrderDetailPage.jsx:8-12 | loading, no order, no error |
| OrderDetailPage.OrderDetailView.Mount | src/pages/OrderDetailPage.jsx:16-33 | signed out: redirect to login with the way back and nothing fetched; otherwise the order or the error |
| OrderDetailPage.OrderDetailView.HandlePayment | src/pages/OrderDetailPage.jsx:49-132 | no SDK or a failed provider order: an alert and no widget; otherwise the widget opens; payment stays in progress exactly while it is open |
| OrderDetailPage.OrderDetailView.OnPaymentSuccess | src/pages/OrderDetailPage.jsx:80-104 | the order is marked paid and replaced, or the verification-failed alert; payment ends |
| OrderDetailPage.OrderDetailView.Dismiss | src/pages/OrderDetailPage.jsx:116-120 | closing the widget only ends the payment |
| OrderDetailPage.SignedOutFetchesNothing | src/pages/OrderDetailPage.jsx:16-20 | a signed-out visit sends no request |
| OrdersPage.ItemsLabel | src/pages/OrdersPage.jsx:113-114 | "item" exactly for one item |
| OrdersPage.PaymentLabel | src/pages/OrdersPage.jsx:127 | "Paid" exactly when paid |
| OrdersPage.DeliveryLabel | src/pages/OrdersPage.jsx:136 | "Delivered" exactly when delivered |
| OrdersPage.RowOf | src/pages/OrdersPage.jsx:98-136 | a row links to its order and shows its short number and labels |
| OrdersPage.RowLinksToItsOrder | src/pages/OrdersPage.jsx:98-104 | the link's id is the one whose number is shown |
| OrdersPage.OrdersView.constructor | src/pages/OrdersPage.jsx:7-9 | loading, no orders |
| OrdersPage.OrdersView.Mount | src/pages/OrdersPage.jsx:13-34 | signed out: home and nothing fetched; otherwise the orders or the error |
| OrdersPage.OrdersView.Rows | src/pages/OrdersPage.jsx:96-140 | one row per order, in order |
| OrdersPage.SignedOutFetchesNothing | src/pages/OrdersPage.jsx:15-18 | a signed-out visit sends no request |
| ServiceWorker.RouteOf | public/sw.js:13-52 | provider host first, then the manifest, then payment paths; each URL gets exactly one route |
| ServiceWorker.HandleFetch | public/sw.js:13-52 | pass-throughs are left to the browser; the manifest is answered as JSON; a failed fetch gives 503 |
| ServiceWorker.ProviderRequestsPassThrough | public/sw.js:15-18 | any URL on the provider's host passes through |
| ServiceWorker.ManifestAnsweredLocally | public/sw.js:21-37 | a manifest URL off the provider host is answered locally |
| ServiceWorker.PaymentApiBypasses | public/sw.js:40-44 | a payment-API URL passes through |
| ServiceWorker.AnsweredRequestsHaveAStatus | public/sw.js:47-51 | a request the worker answers gets the manifest, the network's answer, or 503 |

## Left out

- The network: every fetch is the parameter `reply` (or `received` for the order list). The API base URL, the headers and the request bodies' JSON encoding are not modelled.
- The catalogue fetches in `Products`, `Shop` and `ProductDetails` are not modelled: products, categories and one product. Their results are inputs to the model; the shop's page count enters through `Shop.ShopView.ReceivePages`.
- The DOM, the Razorpay script tag and the Razorpay SDK are not modelled. Whether the SDK loaded is the parameter `sdkLoaded`, and opening the widget is the returned `Checkout` value.
- `alert` and `console` output: alerts are a returned `notice` string, and console logging is dropped.
- Timers: every `setTimeout` callback is a separate method that the environment is expected to call later.
- Clocks: `Date.now()` is the parameter `now`, and `toISOString()` is the parameter `nowIso`. A login reads `Date.now()` twice, for the id and the token; the model uses one `now` for both.
- Prices are exact reals. IEEE rounding of `totalPrice * 100` and `toFixed(2)` are not modelled.
- Carousel.JsRem: the remainder of a negative dividend is bounded (between the negated divisor and zero) but not given exactly; the carousel only divides non-negative numbers.
- ProductDetails.ProductDetailsView.HandleQuantityChange: a cleared or non-numeric box is not modelled. There `parseInt` gives `NaN`, which the source stores as the quantity (src/components/ProductDetails.jsx:60-61). The − and + buttons then keep `NaN`, and adding to cart runs its loop zero times yet still shows the added message (src/components/ProductDetails.jsx:84-89). The model takes only whole numbers.
- AuthForm.Validate, LoginModal.LoginDialog.HandleSubmit and LoginPage.LoginForm.HandleSubmit: the six-character minimum counts characters (code points), while JavaScript's `length` (src/components/LoginModal.jsx:47, src/pages/LoginPage.jsx:43) counts UTF-16 code units. A password of three emoji is six units long and accepted by the source, but is three characters and rejected by the model.
- JSON members are strings only. Whitespace, numbers and nesting in stored JSON are not modelled, and `JSON.parse`'s error text is the constant `SyntaxErrorText`.
- A missing id and an empty id are both "". This is the way the source's `||` treats them.
- Case mapping covers ASCII letters only.
- Cart.CartDrawer.HandleCheckout: the outer `catch` (src/components/Cart.jsx:142) cannot be reached, because every error is caught inside the try. It is not modelled.
- LoginModal.LoginDialog.HandleSubmit and LoginPage.LoginForm.HandleSubmit: the "Authentication failed" catch is not modelled, because `login` and `register` never throw.
- Products.SortProducts: the stability of `Array.prototype.sort` is not proved. Equal keys may come out in any order.
- Shop.QueryParams: `URLSearchParams` percent-encoding is not modelled.
- State that only affects display is left out: `rememberMe`, `activeImage`, and the `disabled` flag while processing.
- The service worker's install and activate listeners are left out.
- NavBar, App, main, About and Footer are not part of this model.
