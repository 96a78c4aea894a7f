# Perfume storefront: a Dafny model of its client-side state

The storefront is a React single-page shop for perfumes and body products. It
keeps its state in three context providers, and seven pages read and change
that state. This project models the following parts:

- **Authentication session** (`AuthContext`): the five in-memory fields and the
  three `localStorage` keys they are mirrored in, including:
  - restoring the session at start-up;
  - login, logout and `clearAuth`;
  - the bearer-token headers;
  - the 401 handling.
- **Cart store** (`CartContext`): the list of line items keyed by product id,
  including:
  - `addToCart`, `removeFromCart`, `updateQuantity` and `clearCart`;
  - the item count and the price total;
  - the pull from the cart API after login, as a request and a later response;
  - the debounced push after every change, gated on the session.
- **Order store** (`OrderContext`): the three sample orders it starts with,
  `createOrder` with its spread of the caller's data over the defaults, status
  changes, lookup by id, and the newest-first sort.
- **The pages**:
  - Checkout: the summary amounts, the form, and submitting an order.
  - Cart: the size and type labels, the quantity buttons, and where
    "Proceed to Checkout" leads.
  - Product detail: `parseInt` of the route id, the lookup, and the quantity
    stepper.
  - Shop: the two wrap-around carousels and their dots.
  - Search: the case-insensitive filter and the result-count label.
  - Profile: the details form, the password checks, and the toast.
  - Receipt: the status badge, payment label, address lines, item labels and
    summary.

Several modelling choices run through the whole project:

- **Prices.** Amounts are exact integer cents (`Money.Amount`). `NaN` stands
  for what `parseFloat` gives on a price string that is not a number.
- **Storage and JSON.** Browser storage is a finite map.
  `JSON.stringify`/`JSON.parse` of the user record are functions given to the
  session.
- **Clock.** It is a parameter `now`, in milliseconds.
- **Timers.** Each timer (the cart's 1-second debounce, the toasts and notices,
  the profile page's simulated delays) is a pending flag or a separate method
  that the timer would call.

Each context is a class whose methods replace its fields the way the React
setters do. Each new value is built by a pure function, and the properties of
those functions are proved as lemmas.

## Model

| member | source | states |
|---|---|---|
| Common.OrElse | src/pages/Profile.jsx:53-55 | `s \|\| fallback`: the string when it is present and non-empty, otherwise the fallback |
| Common.TrimStart | src/pages/Search.jsx:98 | the result is a suffix of the input; everything dropped is JavaScript white space; the result does not start with white space |
| Common.ToUpper | src/pages/Receipt.jsx:193 | lower-case ASCII letters move to their upper-case letter; every other character is unchanged |
| Common.ToLower | src/pages/Search.jsx:100-101 | upper-case ASCII letters move to their lower-case letter; every other character is unchanged |
| Decimal.NatToString | src/context/OrderContext.jsx:119-120 | `n.toString()`: a non-empty digit string with no leading zero |
| Decimal.ValueOfNatToString | src/context/OrderContext.jsx:119 | reading the text of a number back gives the number |
| Decimal.NatToStringInjective | src/context/OrderContext.jsx:119 | distinct clock readings give distinct id texts |
| Decimal.ValueTwoDigits | src/context/CartContext.jsx:115 | a two-digit numeral is worth ten times its first digit plus its second |
| Decimal.DigitRun | src/pages/ProductDetail.jsx:124 | the length of the longest digit prefix: all digits before it, and a non-digit (or the end) at it |
| Money.Plus | src/context/CartContext.jsx:116 | addition of cents; NaN when either side is NaN |
| Money.Times | src/context/CartContext.jsx:116 | price times quantity in cents; NaN exactly when the price is NaN |
| Money.RemoveFirst | src/context/CartContext.jsx:115 | `replace('$', '')` removes only the first `$`: one character shorter when there is one, unchanged otherwise |
| Money.FirstIndex | src/context/CartContext.jsx:115 | the position of the first occurrence, or the length when there is none |
| Money.ParseDecimal | src/context/CartContext.jsx:115 | a parsed amount is non-negative and comes from text that starts with a digit |
| Money.FormatPrice | src/pages/Receipt.jsx:246 | `"$" + toFixed(2)`: starts with `$` and has a point before the last two digits |
| Money.ParseDecimalOfParts | src/context/CartContext.jsx:115 | digits, a point and at most two fraction digits read as whole times 100 plus the fraction's cents |
| Money.ParsePriceOfDollar | src/context/CartContext.jsx:115 | a leading `$` is dropped before parsing |
| Money.ParseDollars | src/context/CartContext.jsx:115 | a whole-dollar price `$N.00` reads as N x 100 cents |
| Money.CentsSplit | src/pages/Receipt.jsx:246 | the dollars and the two cent digits of an amount recombine to it |
| Money.PriceRoundTrip | src/context/CartContext.jsx:115 | parsing a displayed price gives back exactly its cents (no floating-point drift) |
| Catalog.WithDefaultSize | src/pages/Shop.jsx:126-131 | the product with size 250ml for ids from 100 on and 100ml below that; every other field kept |
| Catalog.IncreasingIdsAreDistinct | src/pages/ProductDetail.jsx:21-122 | strictly increasing ids are pairwise distinct, and the first id is the smallest |
| Catalog.CatalogueIdsDistinct | src/pages/ProductDetail.jsx:21-122 | the search and product-page catalogues have one product per id |
| Catalog.CatalogueKinds | src/pages/Shop.jsx:19-100 | the shop's perfumes have ids 1 to 99 and its body products ids from 100 on |
| Catalog.DetailIdsPositive | src/pages/ProductDetail.jsx:21-122 | every product-page id is positive |
| AuthContext.Restore | src/context/AuthContext.jsx:19-40 | skipped exactly when the guard (three truthy keys, no "undefined" token or user record) fails; discarded exactly when the guard holds and the record does not parse; otherwise the stored user, type and token are taken over |
| AuthContext.Cleared | src/context/AuthContext.jsx:55-64 | the three session keys are gone; every other key keeps its value; no key is added |
| AuthContext.LoggedIn | src/context/AuthContext.jsx:43-46 | the three keys hold the token, the encoded user and the type; other keys are kept |
| AuthContext.AuthHeaders | src/context/AuthContext.jsx:84-94 | always a JSON content type; a `Bearer` authorization exactly when the token is truthy; no other header |
| AuthContext.ReloadAfterLogin | src/context/AuthContext.jsx:19-52 | a reload after login restores exactly the logged-in user, type and token, when the stored texts pass the guard |
| AuthContext.ReloadAfterLogout | src/context/AuthContext.jsx:19-64 | a reload after logout restores nothing |
| AuthContext.AuthSession.constructor | src/context/AuthContext.jsx:11-16 | the provider starts anonymous and loading |
| AuthContext.AuthSession.Initialize | src/context/AuthContext.jsx:19-40 | the start-up effect: take over, leave alone, or clear, as `Restore` decides; loading ends in every case |
| AuthContext.AuthSession.Login | src/context/AuthContext.jsx:43-52 | storage becomes `LoggedIn`; user, type and token are set; the session is authenticated |
| AuthContext.AuthSession.Logout | src/context/AuthContext.jsx:55-64 | storage becomes `Cleared`; all fields are null; the session is anonymous |
| AuthContext.AuthSession.ClearAuth | src/context/AuthContext.jsx:67-76 | the same new state as `Logout` |
| AuthContext.AuthSession.GetAuthToken | src/context/AuthContext.jsx:79-81 | the in-memory token when truthy, otherwise the stored one, otherwise nothing |
| AuthContext.AuthSession.GetAuthHeaders | src/context/AuthContext.jsx:84-94 | a `Bearer` header exactly when `getAuthToken` gives a truthy token |
| AuthContext.AuthSession.ValidateToken | src/context/AuthContext.jsx:97-104 | invalid exactly on status 401, which clears the session and redirects to /login; any other failure changes nothing |
| AuthContext.AuthSession.IsUser | src/context/AuthContext.jsx:107 | true exactly when the user type is "user" |
| AuthContext.UserTypeAcrossLogin | src/context/AuthContext.jsx:43-63 | a login with the default type makes `isUser` true and a logout makes it false |
| CartContext.IndexOf | src/context/CartContext.jsx:81 | the position of the first line with the id, or the length when there is none |
| CartContext.Find | src/context/CartContext.jsx:81 | none exactly when no line has the id; otherwise the first line with that id |
| CartContext.Bumped | src/context/CartContext.jsx:83-87 | lines with the id get `q` more; all other lines and all products are unchanged |
| CartContext.Requantified | src/context/CartContext.jsx:102-106 | lines with the id get quantity `q`; all other lines are unchanged |
| CartContext.Removed | src/context/CartContext.jsx:93-95 | exactly the lines with another id, each kept as many times as it occurs, in order; unchanged when the id is absent; shorter when it is present |
| CartContext.Added | src/context/CartContext.jsx:79-91 | a present id has its quantity raised by `q` in place; otherwise a new line with quantity `q` is appended |
| CartContext.Updated | src/context/CartContext.jsx:97-107 | below 1 it is `Removed`; otherwise the line with the id takes the new quantity and nothing else changes |
| CartContext.ItemCount | src/context/CartContext.jsx:109-111 | 0 for an empty cart; with positive quantities, at least the number of lines |
| CartContext.Subtotal | src/context/CartContext.jsx:113-118 | zero cents for an empty cart |
| CartContext.ItemCountAppend | src/context/CartContext.jsx:109-111 | the count of a concatenation is the sum of the counts |
| CartContext.SubtotalAppend | src/context/CartContext.jsx:113-118 | the total of a concatenation is the sum of the totals |
| CartContext.BumpedItemCount | src/context/CartContext.jsx:83-87 | with one line per id, bumping adds `q` to the count when the id is present and 0 otherwise |
| CartContext.AddedItemCount | src/context/CartContext.jsx:79-91 | with one line per id, `addToCart(p, q)` raises the item count by exactly `q` |
| CartContext.AddedKeepsInvariant | src/context/CartContext.jsx:79-91 | adding a positive quantity keeps one line per id and all quantities positive |
| CartContext.RemovedKeepsUnique | src/context/CartContext.jsx:93-95 | removal keeps one line per id |
| CartContext.UpdatedKeepsInvariant | src/context/CartContext.jsx:97-107 | `updateQuantity` with any quantity keeps the cart invariant |
| CartContext.AddTwiceMerges | src/context/CartContext.jsx:79-91 | adding a new product twice gives one line with the summed quantity, not two lines |
| CartContext.RunKeepsInvariant | src/context/CartContext.jsx:79-122 | any sequence of add (positive), remove, update and clear calls keeps the invariant |
| CartContext.SubtotalIsExact | src/context/CartContext.jsx:113-118 | three additions of a $0.10 product total exactly 30 cents |
| CartContext.CartStore.constructor | src/context/CartContext.jsx:18 | the cart starts empty with no push pending |
| CartContext.CartStore.Reschedule | src/context/CartContext.jsx:68-77 | a push is pending exactly when authenticated with a non-empty cart |
| CartContext.CartStore.AddToCart | src/context/CartContext.jsx:79-91 | the items become `Added(old, p, q)`; the invariant is kept; the count rises by `q`; the debounce is re-armed |
| CartContext.CartStore.RemoveFromCart | src/context/CartContext.jsx:93-95 | the items become `Removed(old, id)`; the invariant is kept; the debounce is re-armed |
| CartContext.CartStore.UpdateQuantity | src/context/CartContext.jsx:97-107 | the items become `Updated(old, id, q)`; the invariant is kept; the debounce is re-armed |
| CartContext.CartStore.ClearCart | src/context/CartContext.jsx:120-122 | the cart is empty and nothing is pending |
| CartContext.CartStore.RequestPull | src/context/CartContext.jsx:21-30 | the request goes out exactly when authenticated; the cart is untouched |
| CartContext.CartStore.ReceivePull | src/context/CartContext.jsx:32-38 | a response carrying items replaces the cart wholesale, without a second look at the session; a failed or empty response leaves the cart as it was |
| CartContext.LatePullAfterLogout | src/context/CartContext.jsx:21-38 | a pull sent while logged in and answered after a logout still replaces the cart, including lines added meanwhile |
| CartContext.CartStore.SyncWithApi | src/context/CartContext.jsx:42-58 | posts the current items exactly when authenticated |
| CartContext.CartStore.DebounceElapsed | src/context/CartContext.jsx:68-77 | the timer firing sends the current (non-empty) items exactly when a push was pending and the session is still authenticated; nothing stays pending |
| CartContext.LogoutDropsPendingPush | src/context/CartContext.jsx:68-77 | after a logout the pending push sends nothing, and the cart is kept |
| OrderContext.NewOrder | src/context/OrderContext.jsx:117-128 | each key the data carries wins (it is spread last); otherwise the id and number come from the clock, the status is "processing", the payment is "Not specified" and the amounts are 0 |
| OrderContext.NewOrderIdsDiffer | src/context/OrderContext.jsx:119 | orders created without an id at different clock readings get different ids |
| OrderContext.OrderIndex | src/context/OrderContext.jsx:141-143 | the position of the first order with the id, or the length when there is none |
| OrderContext.FindOrder | src/context/OrderContext.jsx:141-143 | none exactly when no order has the id; otherwise the first order with it |
| OrderContext.StatusUpdated | src/context/OrderContext.jsx:133-139 | orders with the id take the new status (any status is accepted); nothing else changes |
| OrderContext.FindAfterStatusUpdate | src/context/OrderContext.jsx:133-143 | a lookup after a status change finds the same order with the new status; an unknown id is still not found |
| OrderContext.OrderIndexExact | src/context/OrderContext.jsx:141-143 | the first index with the id is the lookup position |
| OrderContext.InsertByDate | src/context/OrderContext.jsx:145-147 | inserting one order lengthens the list by exactly one |
| OrderContext.InsertByDatePermutes | src/context/OrderContext.jsx:145-147 | inserting keeps every order and adds exactly the inserted one |
| OrderContext.InsertKeepsNewestFirst | src/context/OrderContext.jsx:145-147 | inserting into a newest-first list keeps it newest first |
| OrderContext.LaterIsOlder | src/context/OrderContext.jsx:145-147 | everything inserted behind the head is not newer than it |
| OrderContext.SortNewestFirst | src/context/OrderContext.jsx:145-147 | the sort is a permutation and puts the newest first |
| OrderContext.WithDateCons | src/context/OrderContext.jsx:145-147 | the orders of one date in a list are its head (when it has that date) followed by those of the rest |
| OrderContext.WithDateOfInsert | src/context/OrderContext.jsx:145-147 | insertion places the new order ahead of the orders with the same date |
| OrderContext.SortIsStable | src/context/OrderContext.jsx:145-147 | orders with the same date keep their relative order |
| OrderContext.Price72 | src/context/OrderContext.jsx:37 | the price text `$72.00` reads as 7200 cents |
| OrderContext.Price83 | src/context/OrderContext.jsx:67 | the price text `$83.00` reads as 8300 cents |
| OrderContext.Price45 | src/context/OrderContext.jsx:75 | the price text `$45.00` reads as 4500 cents |
| OrderContext.Price90 | src/context/OrderContext.jsx:105 | the price text `$90.00` reads as 9000 cents |
| OrderContext.SubtotalOfOne | src/context/CartContext.jsx:113-118 | a one-line list costs what its line costs |
| OrderContext.SubtotalOfTwo | src/context/CartContext.jsx:113-118 | a two-line list costs the sum of its two lines |
| OrderContext.OneLineConsistent | src/context/OrderContext.jsx:17-46 | an order with one line whose stored subtotal and total match that line's cost is consistent |
| OrderContext.TwoLineConsistent | src/context/OrderContext.jsx:47-84 | an order with two lines whose stored subtotal and total match their summed cost is consistent |
| OrderContext.SeedOrder1Line | src/context/OrderContext.jsx:33-40 | the first sample order's single line costs $72.00 |
| OrderContext.SeedOrder1Consistent | src/context/OrderContext.jsx:17-46 | the first sample order's subtotal and total agree with its lines |
| OrderContext.SeedOrder2First | src/context/OrderContext.jsx:63-70 | the second sample order's first line costs $83.00 |
| OrderContext.SeedOrder2Second | src/context/OrderContext.jsx:71-78 | the second sample order's second line costs 2 x $45.00 |
| OrderContext.SeedOrder2Consistent | src/context/OrderContext.jsx:47-84 | the second sample order's subtotal and total agree with its lines |
| OrderContext.SeedOrder3Line | src/context/OrderContext.jsx:101-108 | the third sample order's single line costs $90.00 |
| OrderContext.SeedOrder3Consistent | src/context/OrderContext.jsx:85-114 | the third sample order's subtotal and total agree with its lines |
| OrderContext.SeedOrdersConsistent | src/context/OrderContext.jsx:16-115 | every sample order's amounts agree with its lines |
| OrderContext.SeedOrdersNewestFirst | src/context/OrderContext.jsx:16-115 | the sample orders, dated 5, 10 and 15 days ago, are already newest first |
| OrderContext.OrderStore.constructor | src/context/OrderContext.jsx:16-115 | the store starts with the three sample orders |
| OrderContext.OrderStore.GetOrderById | src/context/OrderContext.jsx:141-143 | none exactly when no held order has the id; otherwise the first order with it |
| OrderContext.OrderStore.CreateOrder | src/context/OrderContext.jsx:117-131 | the new order is `NewOrder(data, now)`; it is prepended; it is found by its id |
| OrderContext.OrderStore.UpdateOrderStatus | src/context/OrderContext.jsx:133-139 | the held orders become `StatusUpdated` |
| OrderContext.OrderStore.GetAllOrders | src/context/OrderContext.jsx:145-147 | the held list is sorted in place and returned: newest first, and a permutation of the old list |
| Checkout.OrderTotal | src/pages/Checkout.jsx:13-16 | subtotal plus 59.99 plus 5.00, that is plus 6499 cents; NaN stays NaN |
| Checkout.WithField | src/pages/Checkout.jsx:29-35 | the named field takes the value; every other field is unchanged |
| Checkout.OrderDataFrom | src/pages/Checkout.jsx:40-56 | the order data carries the cart lines, the seven address fields and the payment method as typed, and the subtotal, fee, tax and total; id, number, date and status are left out |
| Checkout.PlacedOrderFacts | src/pages/Checkout.jsx:37-63 | the placed order is consistent, carries the cart lines, is "processing", is numbered after the clock, and keeps the payment method as typed |
| Checkout.SingleBottleTotal | src/pages/Checkout.jsx:13-16 | one $72.00 bottle comes to $136.99 |
| Checkout.Submit | src/pages/Checkout.jsx:37-63 | called only with a complete form (`FormComplete`, the `required` inputs of lines 151-270); with a non-empty cart: exactly one order is built from the cart as it is now and prepended, the cart is emptied, and the route is `/receipt/<id>`; with an empty cart (line 72) nothing happens; a cart pull in flight stays in flight |
| Checkout.SubmitThenShop | src/pages/Checkout.jsx:41 | an order keeps the cart lines it was placed with after the cart changes again |
| Checkout.LatePullAfterCheckout | src/context/CartContext.jsx:21-38 | a cart pull sent before checkout and answered after it refills the emptied cart, while the placed order keeps its lines |
| CartPage.ProductSize | src/pages/Cart.jsx:44-49 | the product's own size when it has one, otherwise 250ml from id 100 on and 100ml below |
| CartPage.ProductType | src/pages/Cart.jsx:51-57 | "Body Care" exactly from id 100 on, otherwise "Eau de perfum Spray" |
| CartPage.Total | src/pages/Cart.jsx:28-31 | the cart subtotal plus 6499 cents (64.99 for an empty cart); NaN stays NaN |
| CartPage.HandleQuantityChange | src/pages/Cart.jsx:33-38 | a line in the cart moves by `change` through `updateQuantity` and disappears at 0 or below, re-arming the debounced push; an absent id changes nothing; the invariant is kept; a pull in flight stays in flight |
| CartPage.ProceedToCheckout | src/pages/Cart.jsx:180-187 | checkout when authenticated; otherwise login, carrying from /cart and returnTo /checkout |
| CartPage.OnAuthenticationChange | src/pages/Cart.jsx:14-18 | pushes the items at once exactly when authenticated with a non-empty cart |
| ProductDetail.HexDigitValue | src/pages/ProductDetail.jsx:124 | a hexadecimal digit is worth less than 16 |
| ProductDetail.HexRun | src/pages/ProductDetail.jsx:124 | the length of the longest hexadecimal-digit prefix |
| ProductDetail.Magnitude | src/pages/ProductDetail.jsx:124 | NaN exactly when no digit follows (a hex digit after "0x"/"0X", a decimal digit otherwise) |
| ProductDetail.ParseInt | src/pages/ProductDetail.jsx:124 | `parseInt` skips leading white space, takes one sign, and reads the magnitude; NaN exactly when the magnitude is NaN |
| ProductDetail.MagnitudeOfNumeral | src/pages/ProductDetail.jsx:124 | a numeral followed by text that does not continue it reads as its value |
| ProductDetail.ParseIntOfUnsigned | src/pages/ProductDetail.jsx:124 | text that starts with a digit is read as its magnitude |
| ProductDetail.ParseIntOfNatToString | src/pages/ProductDetail.jsx:124 | the text of a number parses back to it |
| ProductDetail.ParseIntIgnoresTrailingText | src/pages/ProductDetail.jsx:124 | trailing text after the digits is ignored ("3abc" reads as 3) |
| ProductDetail.HexPrefixExample | src/pages/ProductDetail.jsx:124 | "0x1A" reads as 26 |
| ProductDetail.DigitRunOfPrefix | src/pages/ProductDetail.jsx:124 | the digit run of digits followed by a non-digit is the digits' length |
| ProductDetail.FindById | src/pages/ProductDetail.jsx:124 | none exactly when no product has the id; otherwise a product of the list with that id |
| ProductDetail.Lookup | src/pages/ProductDetail.jsx:124-135 | the product whose id `parseInt` reads from the route; not found for NaN or an unknown id |
| ProductDetail.FindByDistinctId | src/pages/ProductDetail.jsx:124 | with distinct ids, looking up a product's id finds that product |
| ProductDetail.LookupOfOwnId | src/pages/ProductDetail.jsx:124-135 | every product's page, addressed by its id, shows that product |
| ProductDetail.Stepped | src/pages/ProductDetail.jsx:137-142 | the quantity moves by `change` but never goes below 1 |
| ProductDetail.ProductPage.constructor | src/pages/ProductDetail.jsx:13 | the quantity starts at 1 and the product is the lookup of the route id |
| ProductDetail.ProductPage.HandleQuantityChange | src/pages/ProductDetail.jsx:137-142 | the quantity becomes `Stepped(old, change)`, at least 1 |
| ProductDetail.ProductPage.HandleAddToCart | src/pages/ProductDetail.jsx:144-152 | the product goes to the cart with the selected quantity; the debounced push is re-armed (pending exactly when authenticated with a non-empty cart); a pull in flight stays in flight; the invariant is kept |
| Shop.MaxIndex | src/pages/Shop.jsx:103 | `Math.max(0, len - 3)`: three cards from the last index fill the list |
| Shop.Next | src/pages/Shop.jsx:102-105 | from the last index or past it, back to 0; otherwise one on |
| Shop.Prev | src/pages/Shop.jsx:107-110 | from 0 or below, to the last index; otherwise one back |
| Shop.DotCount | src/pages/Shop.jsx:252 | `Math.max(1, len - 2)` dots: exactly one per reachable index |
| Shop.NextPrevInverse | src/pages/Shop.jsx:102-110 | on reachable indices the two buttons undo each other |
| Shop.WalkStaysInRange | src/pages/Shop.jsx:102-120 | any sequence of next, prev and rendered-dot clicks keeps the index reachable |
| Shop.ShopPage.constructor | src/pages/Shop.jsx:14-17 | both carousels start at 0 with no notice shown |
| Shop.ShopPage.NextPerfume | src/pages/Shop.jsx:102-105 | the perfume index advances with wrap-around; the body index is kept |
| Shop.ShopPage.PrevPerfume | src/pages/Shop.jsx:107-110 | the perfume index goes back with wrap-around |
| Shop.ShopPage.NextBodyProduct | src/pages/Shop.jsx:112-115 | the body index advances with wrap-around |
| Shop.ShopPage.PrevBodyProduct | src/pages/Shop.jsx:117-120 | the body index goes back with wrap-around |
| Shop.ShopPage.SelectPerfumeDot | src/pages/Shop.jsx:252-256 | a rendered perfume dot sets the perfume index to its own index |
| Shop.ShopPage.SelectBodyDot | src/pages/Shop.jsx:312-316 | a rendered body dot sets the body index to its own index |
| Shop.ShopPage.HandleAddToCart | src/pages/Shop.jsx:122-138 | one unit of the product with its default size goes to the cart, the debounced push is re-armed, a pull in flight stays in flight, and the notice names it |
| Shop.ShopPage.HideNotice | src/pages/Shop.jsx:135-137 | the notice goes away; the indices are kept |
| Shop.ShopCarousels | src/pages/Shop.jsx:19-100 | the shop's perfume carousel has 5 positions and its body carousel 2 |
| Search.Lower | src/pages/Search.jsx:100-101 | `toLowerCase`: the same length, each character lower-cased |
| Search.TrimEnd | src/pages/Search.jsx:98 | a prefix of the input; everything dropped is white space; the result does not end in white space |
| Search.BlankIffAllWhitespace | src/pages/Search.jsx:98 | the query trims to nothing exactly when it is all white space |
| Search.Contains | src/pages/Search.jsx:100-101 | `includes`: true exactly when the substring occurs at some position |
| Search.ContainsShift | src/pages/Search.jsx:100-101 | when there is no match at the front, an occurrence exists exactly when it exists in the tail |
| Search.Filtered | src/pages/Search.jsx:99-102 | keeps exactly the matching products, each as many times as it occurs, in catalogue order |
| Search.Results | src/pages/Search.jsx:97-107 | a blank query shows the whole catalogue; any other query shows exactly the products whose name or description contains it, ignoring case |
| Search.SubsequenceRefl | src/pages/Search.jsx:105 | the full list is a subsequence of itself |
| Search.MatchIgnoresCase | src/pages/Search.jsx:100-101 | queries that lower-case alike match the same products |
| Search.UntrimmedQueryExample | src/pages/Search.jsx:98-101 | "rose" finds "Rose" but "rose " does not: only blankness is tested on the trimmed query |
| Search.ResultLabel | src/pages/Search.jsx:194-198 | no label for an empty query; "1 result found" for one result; "N results found" otherwise |
| Search.HandleAddToCart | src/pages/Search.jsx:115-129 | one unit of the product with its default size goes to the cart, the debounced push is re-armed, a pull in flight stays in flight, and the notice names it |
| Profile.WithUserField | src/pages/Profile.jsx:102-108 | the named detail takes the value; the others are kept |
| Profile.WithPassword | src/pages/Profile.jsx:110-116 | the named password field takes the value; the others are kept |
| Profile.PasswordError | src/pages/Profile.jsx:162-172 | no error exactly when the two new passwords agree and have at least 6 characters; a mismatch is reported before the length |
| Profile.PlaceholderUserData | src/pages/Profile.jsx:45-59 | the session user's name, email and phone where truthy, sample values otherwise, and the fixed address |
| Profile.ProfilePage.constructor | src/pages/Profile.jsx:12-29 | empty details and passwords, hidden toast, nothing loading |
| Profile.ProfilePage.ShowToast | src/pages/Profile.jsx:91-96 | the toast shows the message with the kind ("error" by default); nothing else changes |
| Profile.ProfilePage.HideToast | src/pages/Profile.jsx:97-99 | the toast returns to hidden |
| Profile.ProfilePage.LoadUserData | src/pages/Profile.jsx:39-59 | when authenticated, the details become the placeholder details; otherwise they are kept |
| Profile.ProfilePage.HandleUserDataChange | src/pages/Profile.jsx:102-108 | the details become `WithUserField` |
| Profile.ProfilePage.HandlePasswordChange | src/pages/Profile.jsx:110-116 | the passwords become `WithPassword` |
| Profile.ProfilePage.HandleChangePassword | src/pages/Profile.jsx:159-174 | called only with the three required fields filled and no change loading (lines 349-395); a failed check shows its error and starts nothing; a passing one starts the change |
| Profile.ProfilePage.PasswordChangeSettled | src/pages/Profile.jsx:182-190 | the success toast is shown, the three fields are emptied and loading ends |
| Profile.ProfilePage.HandleUpdateProfile | src/pages/Profile.jsx:118-126 | called only with name, email and phone filled and no save loading (lines 281-340); loading starts; the details are kept |
| Profile.ProfilePage.ProfileUpdateSettled | src/pages/Profile.jsx:128-131 | the success toast is shown and loading ends; nothing is saved |
| Profile.ChangePasswordFlow | src/pages/Profile.jsx:159-192 | a valid change ends with empty fields and the success toast; an invalid one keeps the fields and shows the first failing check |
| Receipt.StatusText | src/pages/Receipt.jsx:77-90 | the four known statuses are capitalised; any other status is shown as is |
| Receipt.StatusColor | src/pages/Receipt.jsx:62-75 | one colour each for shipped, delivered and cancelled; grey for processing and anything else |
| Receipt.UnknownStatusBadge | src/pages/Receipt.jsx:62-90 | an unknown status gets the processing grey and its own text |
| Receipt.KnownStatusesDistinct | src/pages/Receipt.jsx:62-90 | the four known statuses have four different texts and four different colours |
| Receipt.PaymentLabel | src/pages/Receipt.jsx:190-196 | an empty method shows "Not specified"; otherwise the first character is upper-cased and the rest kept |
| Receipt.PaymentLabelExamples | src/pages/Receipt.jsx:190-196 | "" shows "Not specified" and "credit card" shows "Credit card" |
| Receipt.Shown | src/pages/Receipt.jsx:207 | `field \|\| fallback` on an address field |
| Receipt.AddressLines | src/pages/Receipt.jsx:203-215 | five lines, with "N/A" for an empty name, street, country or phone |
| Receipt.ItemInfo | src/pages/Receipt.jsx:229 | the type and size of a line by the cart page's id rule |
| Receipt.ItemInfos | src/pages/Receipt.jsx:222-236 | one info line per item, in order |
| Receipt.SummaryCents | src/pages/Receipt.jsx:246 | `(x \|\| 0)`: a missing or NaN amount shows 0 |
| Receipt.SummaryOf | src/pages/Receipt.jsx:244-259 | the four summary lines, each `(x \|\| 0)` of the order's amount |
| Receipt.SummaryAddsUp | src/pages/Receipt.jsx:244-259 | for a consistent order, the total shown is the sum of the three lines above it |
| Receipt.ReceiptView | src/pages/Receipt.jsx:13-60 | not found exactly when no order has the route id; otherwise the badge, payment and summary of that order, its address lines when it has an address and its item labels when it has an item list |
| Receipt.ReceiptOfNewOrder | src/pages/Receipt.jsx:13 | the receipt of an order just created finds it, with status "Processing" |
| Receipt.ReceiptOfCheckout | src/pages/Receipt.jsx:190-215 | the receipt of an order placed from a complete checkout form names its payment method (never "Not specified") and shows the entered name, street, city line, country and phone (never "N/A") |

## Left out

- Network calls: the cart API (GET and POST), the profile and password
  endpoints, and the login and register calls. Only their outcome is a
  parameter: the pull response, and the status given to `ValidateToken`. The
  body of a push is returned as a value.
- JSON encoding and decoding of the stored user record. `stringify` and `parse`
  are functions given to the session, and `parse` answers None where
  `JSON.parse` throws.
- Timers and scheduling. The cart's debounce is a pending flag, and the timer
  firing is `DebounceElapsed`. The toast and notice timers (`HideToast`,
  `HideNotice`) and the profile delays are separate steps. Their durations are
  not modelled, and neither are React's render batching or effect ordering.
- Money.ParseDecimal: floating-point numbers are not modelled. Amounts are exact
  cents.
  - Only digits with an optional point and at most two fraction digits are
    read. These read as NaN here, where `parseFloat` gives a number: more than
    two fraction digits, text after the number (it reads a prefix), leading
    white space (" 72"), a sign ("-5", "+5"), no digits before the point
    (".5"), an exponent ("1e3") and "Infinity". Catalogue prices never take
    these forms; lines from a cart pull could.
  - Sums are exact, where the storefront's floating-point sums can drift.
- Common.ToUpper and Common.ToLower: only ASCII letters change case, not the
  full Unicode case mapping.
- String lengths count code points. JavaScript counts UTF-16 units, which
  differs for characters outside the basic plane (the 6-character password
  check).
- OrderContext.NewOrder: the three clock reads of `createOrder` (id, number and
  date) are one `now`, so they always agree. Dates are integer milliseconds
  instead of ISO strings.
  - `toLocaleDateString` formatting of dates is not modelled.
  - `updateOrderStatus` and `getAllOrders` do not model the render cycle. The
    source's in-place `sort` of the state array is modelled as writing the
    sorted list back into the store.
- The `inStock` flag that the shop and search pages add is not modelled.
- Profile.ProfilePage.HandleUpdateProfile: the browser's format check on the
  `type="email"` input is not modelled; only its `required` gate is.
- Product ids are numbers. A line from a cart pull whose id is a string ("1")
  would not match the catalogue's number 1 under `===`; pulled ids are taken to
  be numbers.
- Rendering, navigation and the other effects of the page components. Routes
  are modelled only as the values the pages navigate to. Left out:
  - the profile page's redirect to /login;
  - the product page's navigation to /cart after its 2-second notice;
  - scrolling to the top of the page.
- The profile page's API paths behind its `USE_PLACEHOLDER` switch. The switch
  is always true, so only the placeholder path is modelled.
- `getUserType` returns the stored user type unchanged. It has no model of its
  own, because the `userType` field already is that value.
- ProductDetail.ParseInt: a number that does not fit exactly in a double is
  read exactly here.
- Receipt.ReceiptView: an order without an item list makes the page's `map`
  throw. The model reports it as `items == None` instead of failing.
- The home, orders, login and register pages, the cart icon and the routing
  table are not part of this model.
- CartContext.Subtotal: only the empty cart's total is stated on the function.
  Its other properties (exactness, and behaviour on concatenation) are lemmas
  beside it.
- AuthContext.AuthSession.ValidateToken: on a 401 the code calls `clearAuth`,
  whose effect equals that of `logout`; the model calls `ClearAuth` and states
  that new state.
