# Multani Mango storefront: a verified model of its client-side logic

This project is a Dafny model of the decision logic in the Multani Mango
storefront, a React shop for mangoes with a small admin area. It covers:

- the cart store and the cart page;
- the checkout page and the order request it sends;
- the contact form;
- the catalog search;
- the navigation bar's badge, search and links;
- the admin form for a new product;
- the admin order list.

Each module matches one component of the repository:

| module | component |
|---|---|
| `Common` | shared values: `Option`, `Product`, `Toast`, and the abstract `Reply` of a backend request |
| `Text` | the JavaScript string operations the handlers use: `trim`, `includes`, `startsWith`, `slice(-n)`, case mapping, UTF-16 `length`, decimal rendering |
| `CartContext` | `CartProvider` as the class `CartStore`, with pure list transforms for `addToCart`, `removeFromCart` and `updateQuantity` |
| `CartPage` | `Cart.jsx`: totals, the 1..10 quantity gate, removal, checkout, display predicates |
| `OrderCheckout` | `OrderCheckout.jsx`: validation, the order request, and the page as the class `CheckoutPage` |
| `Contact` | `Contact.jsx` |
| `ProductPage` | `ProductPage.jsx` |
| `Navbar` | `Navbar.jsx` |
| `AddNewMango` | `AddNewMango.jsx` |
| `ViewOrders` | `ViewOrders.jsx` |

How the model treats the browser and the backend:

- Toasts are returned as values instead of being shown.
- Each reply from the backend is a parameter, in the order the handler awaits it.
- Component state the source updates is a class field, and stores and pages are classes whose methods state the new state exactly. There are two exceptions:
  - The catalog page's `mangoes` and `searchTerm` are kept in the value `ProductPage.PageState`. The pure functions `Load` and `Search` update it.
  - The navbar's `searchTerm` is a parameter of `Navbar.HandleSearch`.
- Prices and quantities are unbounded integers.
- Strings are sequences of Unicode scalar values.

The checkout handler waits for the backend in the middle. It is modelled in
two halves:

- `BeginSubmit` runs up to the request.
- `FinishSubmit` runs after the reply.
- `Submit` composes the two for the case where nothing happens in between.

Three behaviours of the code worth knowing:

- The store has no upper bound on a quantity. `addToCart` takes a line from 10 to 11, and only the cart page's controls check 1..10.
- Fetch failures in the admin order list toast only when the request throws. A reply with `success: false` is silent.
- The checkout clears only the lines it submitted. Lines added while the request is pending survive.

## Model

| member | source | states |
|---|---|---|
| Common.MessageOr | src/Components/Contact.jsx:62 | `message \|\| fallback`: a present non-empty message wins; an absent or empty one gives the fallback |
| Text.TrimStartShape | src/OrderCheckout.jsx:25 | leading trim keeps a suffix, drops only whitespace, and the kept part does not start with whitespace |
| Text.TrimEndShape | src/OrderCheckout.jsx:25 | trailing trim keeps a prefix, drops only whitespace, and the kept part does not end with whitespace |
| Text.TrimEmptyIffBlank | src/OrderCheckout.jsx:25-46 | `!s.trim()` holds exactly when every character of `s` is whitespace |
| Text.TrimShape | src/Components/Contact.jsx:32 | a trimmed string is no longer than its input, has no whitespace at either end, and trimming is idempotent |
| Text.TrimDropsPadding | src/Components/Contact.jsx:32 | trimming a whitespace-padded string whose ends are not whitespace gives that string back |
| Text.IncludesIffOccurs | src/OrderCheckout.jsx:33 | `s.includes(t)` holds exactly when `t` occurs at some position of `s` |
| Text.IncludesChar | src/OrderCheckout.jsx:33 | including a one-character string is membership of that character |
| Text.Utf16Length | src/Components/Contact.jsx:32 | `length` counts UTF-16 units: between one and two per character |
| Text.DecimalRoundTrip | src/Components/Cart.jsx:33 | the rendering of a count inside a template string reads back as that count |
| Text.Trim | src/OrderCheckout.jsx:25 | `trim()` over the ECMAScript whitespace set (its laws in TrimShape, TrimEmptyIffBlank and TrimDropsPadding) |
| Text.Includes | src/OrderCheckout.jsx:33 | `includes` by a left-to-right scan (see IncludesIffOccurs) |
| Text.StartsWith | src/admin/AddNewMango.jsx:23 | `startsWith`: the string begins with the prefix (used in CheckFile and MimeExamples) |
| Text.TakeLast | src/admin/ViewOrders.jsx:176 | `slice(-n)`: the last `n` characters, or the whole string when shorter (see OrderCode) |
| Text.ToLower | src/Components/ProductPage.jsx:47-48 | `toLowerCase()` on ASCII letters (see SearchIgnoresCase) |
| Text.ToUpper | src/admin/ViewOrders.jsx:176 | `toUpperCase()` on ASCII letters (see OrderCode) |
| Text.DecimalString | src/Components/Cart.jsx:33 | a count rendered in a template string (see DecimalRoundTrip) |
| CartContext.Find | src/Components/CartContext.jsx:12 | `find` succeeds exactly when some line has the id, and returns such a line |
| CartContext.FindUnique | src/Components/CartContext.jsx:12 | with unique ids, `find` returns the one line with that id |
| CartContext.FindIsFirst | src/Components/CartContext.jsx:12 | `find` returns the first line carrying the id |
| CartContext.AddAbsentAppends | src/Components/CartContext.jsx:19-21 | adding a new product appends one line of quantity 1 and keeps the rest in order |
| CartContext.AddPresentIncrements | src/Components/CartContext.jsx:13-18 | adding a present product raises that line's quantity by 1 and changes nothing else |
| CartContext.AddHasNoCap | src/Components/CartContext.jsx:14-16 | a line at 10 goes to 11: the store enforces no maximum |
| CartContext.AddTwiceMerges | src/Components/CartContext.jsx:10-24 | adding the same product twice gives one line of quantity 2 |
| CartContext.AddedWellFormed | src/Components/CartContext.jsx:10-24 | adding keeps ids unique and quantities at least 1 |
| CartContext.RemovedMembers | src/Components/CartContext.jsx:27 | after removal a line remains exactly when it was there and has another id |
| CartContext.RemoveAbsentIsNoop | src/Components/CartContext.jsx:27 | removing an absent id leaves the cart unchanged |
| CartContext.RemoveAtDropsLine | src/Components/CartContext.jsx:27 | removing the id of line `k` drops exactly that line |
| CartContext.RemovedWellFormed | src/Components/CartContext.jsx:26-28 | removal keeps the store invariant |
| CartContext.UpdateAbsentIsNoop | src/Components/CartContext.jsx:30-36 | updating an id no line carries leaves the cart unchanged |
| CartContext.UpdatedWellFormed | src/Components/CartContext.jsx:30-36 | an update keeps ids unique and quantities at least 1, the coercion included |
| CartContext.UpdateSetsLine | src/Components/CartContext.jsx:30-36 | updating sets exactly that line to `q`, or to 1 when `q` is not positive |
| CartContext.TotalItemsAppend | src/Components/Cart.jsx:10-11 | both folds distribute over concatenation |
| CartContext.TotalItemsAtLeastLines | src/Components/Cart.jsx:10 | with positive quantities the item count is at least the line count, and positive exactly for a non-empty cart |
| CartContext.TotalsReplaceLine | src/Components/Cart.jsx:10-11 | replacing one line changes each total by that line's difference |
| CartContext.AddedTotals | src/Components/CartContext.jsx:10-24 | every add raises the item count by 1 and the subtotal by the stored (or new) unit price |
| CartContext.RemovedTotals | src/Components/CartContext.jsx:26-28 | removing line `k` lowers the totals by that line's share |
| CartContext.SubtotalExample | src/Components/Cart.jsx:10-11 | lines 1500 x 2 and 500 x 1 give 3 items and a subtotal of 3500 |
| CartContext.Added | src/Components/CartContext.jsx:10-24 | the list `addToCart` leaves: the present line incremented, or the product appended with quantity 1 (proved in AddPresentIncrements and AddAbsentAppends) |
| CartContext.Removed | src/Components/CartContext.jsx:26-28 | the list `removeFromCart` leaves: the lines with another id, in order (proved in RemovedMembers and RemoveAtDropsLine) |
| CartContext.WithQuantity | src/Components/CartContext.jsx:30-36 | the list `updateQuantity` leaves: the lines with the id take `q`, or 1 when `q` is not positive (proved in UpdateSetsLine) |
| CartContext.TotalItems | src/Components/Cart.jsx:10 | the sum of the quantities (its laws in TotalItemsAppend and TotalItemsAtLeastLines) |
| CartContext.Subtotal | src/Components/Cart.jsx:11 | the sum of price × quantity over the lines (its laws in TotalItemsAppend and TotalsReplaceLine) |
| CartContext.Incremented | src/Components/CartContext.jsx:14-16 | the `map` that raises the quantity of the lines with the id by 1 (see AddPresentIncrements) |
| CartContext.StoredQuantity | src/Components/CartContext.jsx:33 | `quantity > 0 ? quantity : 1` (see UpdateSetsLine and UpdatedWellFormed) |
| CartContext.CartStore.constructor | src/Components/CartContext.jsx:8 | the cart starts empty and well formed |
| CartContext.CartStore.AddToCart | src/Components/CartContext.jsx:10-24 | the new list is the add transform; the toast says "quantity increased" or "added" as the product was present or not |
| CartContext.CartStore.RemoveFromCart | src/Components/CartContext.jsx:26-28 | the new list is the filter, and no line with the id remains |
| CartContext.CartStore.UpdateQuantity | src/Components/CartContext.jsx:30-36 | the new list is the map with the coerced quantity; the length is unchanged |
| CartPage.TotalExample | src/Components/Cart.jsx:11-13 | the worked example's total is 4000, the subtotal plus the 500 fee |
| CartPage.HandleUpdateQuantity | src/Components/Cart.jsx:22-37 | below 1 or above 10 the cart is unchanged and the matching error is returned; inside 1..10 the store's update runs with that value |
| CartPage.AcceptedQuantityIsStored | src/Components/Cart.jsx:22-31 | an accepted quantity is stored as given, inside 1..10, and nothing else moves |
| CartPage.ControlsKeepRange | src/Components/Cart.jsx:158-167 | from a line in 1..10, − is refused exactly at 1, + exactly at 10, and an accepted request stays in 1..10 |
| CartPage.ControlsRefuseAboveEleven | src/Components/Cart.jsx:158-167 | a line at 12 or more, reachable only through `addToCart`, accepts neither control |
| CartPage.ControlToastIgnoresName | src/Components/Cart.jsx:158-167 | as wired with `item.title`, the toast is the same whatever the product's name, and reads "undefined" |
| CartPage.ControlToastNamesProduct | src/Components/Cart.jsx:33 | passing the product's name, an accepted press's toast names it at position 8 |
| CartPage.PressControl | src/Components/Cart.jsx:158-167 | a control press asks the 1..10 gate for quantity ± 1 of that line's id; as wired with `item.title`, its toast is the one naming "undefined" |
| CartPage.HandleRemoveFromCart | src/Components/Cart.jsx:17-20 | the line is removed through the store and the removal toast is returned |
| CartPage.CheckoutRefusedIffEmpty | src/Components/Cart.jsx:39-46 | checkout stays with an error exactly for an empty cart, and otherwise goes to /user/order |
| CartPage.HeaderSingularIffOneUnit | src/Components/Cart.jsx:73 | the header says "item" exactly for a single line of quantity 1 |
| CartPage.ShowsSavingsIffSomeOnSale | src/Components/Cart.jsx:248 | the savings banner shows exactly when some line's truthy original price exceeds its price |
| CartPage.Total | src/Components/Cart.jsx:12-13 | the subtotal plus the 500 shipping fee (checked in TotalExample) |
| CartPage.UpdateToast | src/Components/Cart.jsx:22-37 | the toast of `handleUpdateQuantity` for a requested quantity: the two errors outside 1..10, the update message inside |
| CartPage.ControlToastAsWritten | src/Components/Cart.jsx:158-167 | the toast of a control press as wired with `item.title` (see ControlToastIgnoresName) |
| CartPage.ControlToast | src/Components/Cart.jsx:22-37 | the toast of a control press passing the product's name (see ControlToastNamesProduct) |
| CartPage.CheckoutAction | src/Components/Cart.jsx:39-46 | `handleCheckout`: stay with an error for an empty cart, otherwise go to /user/order (see CheckoutRefusedIffEmpty) |
| CartPage.ItemsNoun | src/Components/Cart.jsx:73 | "item" for a count of 1, "items" otherwise (see HeaderSingularIffOneUnit) |
| CartPage.OnSale | src/Components/Cart.jsx:130 | a truthy original price above the price |
| CartPage.ShowsSavings | src/Components/Cart.jsx:248 | `some` line is on sale, scanned from the front (see ShowsSavingsIffSomeOnSale) |
| CartPage.CheckQuantity | src/Components/Cart.jsx:23-30 | the two guards of `handleUpdateQuantity`: below 1, above 10, or in range (see ControlsKeepRange) |
| CartPage.Requested | src/Components/Cart.jsx:158-167 | the quantity a control asks for: minus one for −, plus one for + (see ControlsKeepRange) |
| OrderCheckout.ValidateByBlankness | src/OrderCheckout.jsx:24-54 | validation is the fail-fast chain: blank name, blank email, no '@', blank address, city, postal code, empty cart |
| OrderCheckout.ValidateIsChain | src/OrderCheckout.jsx:24-54 | validation is the first violated rule of the seven-entry violation vector |
| OrderCheckout.FirstViolatedIsFirst | src/OrderCheckout.jsx:24-54 | the chain passes iff nothing is violated, and yields rule `e` iff `e` is violated and no earlier rule is |
| OrderCheckout.ValidateIsFirstViolation | src/OrderCheckout.jsx:24-54 | validation passes iff no rule is violated, and fails with `e` iff `e` is the first violated rule |
| OrderCheckout.MalformedEmailRefused | src/OrderCheckout.jsx:33-36 | with a name filled in, the email "abc" fails for lacking '@' |
| OrderCheckout.BuildOrderContents | src/OrderCheckout.jsx:65-86 | the request holds the untrimmed form fields, one item per line in cart order, and total = subtotal + 500 |
| OrderCheckout.PaymentMethodNotSent | src/OrderCheckout.jsx:71-86 | the payment method never reaches the request |
| OrderCheckout.WithoutNothing | src/OrderCheckout.jsx:103 | removing no ids keeps the cart |
| OrderCheckout.RemovedExtendsWithout | src/OrderCheckout.jsx:103 | one more `removeFromCart` extends the removed id set by one id |
| OrderCheckout.WithoutOwnIdsIsEmpty | src/OrderCheckout.jsx:103 | removing every id of a cart empties it |
| OrderCheckout.IdsOfPrefix | src/OrderCheckout.jsx:103 | the ids of a prefix grow by one id per line |
| OrderCheckout.ValidateForm | src/OrderCheckout.jsx:24-54 | `validateForm`: the first failing check in source order decides the error (see ValidateIsFirstViolation) |
| OrderCheckout.OrderItems | src/OrderCheckout.jsx:78-84 | one order item per cart line, in cart order (see BuildOrderContents) |
| OrderCheckout.BuildOrder | src/OrderCheckout.jsx:66-86 | the order payload from form and cart (see BuildOrderContents) |
| OrderCheckout.Without | src/OrderCheckout.jsx:103 | the cart lines whose id is not among the removed ones, in order (see RemovedExtendsWithout and WithoutOwnIdsIsEmpty) |
| OrderCheckout.ReplyToast | src/OrderCheckout.jsx:99-125 | the order-placed toast on success, `result.message \|\| fallback` on a refusal, the fallback on a thrown error |
| OrderCheckout.WithField | src/OrderCheckout.jsx:21 | `{ ...formData, [name]: value }`: one field replaced (see CheckoutPage.HandleChange) |
| OrderCheckout.ToOrderItem | src/OrderCheckout.jsx:79-83 | one cart line as an order item: id, name, quantity, price and image URL (see BuildOrderContents) |
| OrderCheckout.CheckoutPage.constructor | src/OrderCheckout.jsx:9-18 | the form starts empty with JazzCash, not loading |
| OrderCheckout.CheckoutPage.HandleChange | src/OrderCheckout.jsx:20-22 | exactly the named field takes the typed value |
| OrderCheckout.CheckoutPage.BeginSubmit | src/OrderCheckout.jsx:56-86 | a failed validation issues nothing and changes nothing; otherwise `loading` is set and the request built from form and cart is issued |
| OrderCheckout.CheckoutPage.FinishSubmit | src/OrderCheckout.jsx:99-128 | success removes the submitted ids one by one and resets the form; failure keeps cart and form; `loading` ends false; the toast follows the reply |
| OrderCheckout.CheckoutPage.Submit | src/OrderCheckout.jsx:56-129 | with no change in between, a placed order leaves the cart empty and the form reset, a failure leaves both, a rejection changes nothing |
| Contact.ValidateByBlankness | src/Components/Contact.jsx:15-37 | validation is the chain: blank name, blank email, no '@', blank message, trimmed message under 10 units |
| Contact.AcceptedIff | src/Components/Contact.jsx:15-37 | the form passes iff name and email are not blank, the email has '@', and the trimmed message has at least 10 units |
| Contact.MessageLengthBoundary | src/Components/Contact.jsx:32 | a trimmed message of 10 units passes and one of 9 is too short |
| Contact.PaddingDoesNotCount | src/Components/Contact.jsx:28-35 | whitespace around the message changes no verdict |
| Contact.Validate | src/Components/Contact.jsx:15-37 | `validateForm`: the first failing check in source order decides the error (see AcceptedIff and ValidateByBlankness) |
| Contact.ReplyToast | src/Components/Contact.jsx:52-67 | success only for `success: true`; otherwise the server's message when present, else the fallback |
| Contact.ContactPage.constructor | src/Components/Contact.jsx:7-11 | all fields empty, not loading |
| Contact.ContactPage.Edit | src/Components/Contact.jsx:98-131 | exactly the edited field changes |
| Contact.ContactPage.Submit | src/Components/Contact.jsx:39-70 | invalid: nothing posted or changed; valid: the four fields posted as typed; success clears all four, failure keeps them; `loading` ends false |
| ProductPage.Filter | src/Components/ProductPage.jsx:46-49 | the filtered list is no longer than the loaded one |
| ProductPage.FilterMembers | src/Components/ProductPage.jsx:46-49 | a product is shown iff it is loaded and its lowered name or description includes the lowered term |
| ProductPage.FilterIsSublist | src/Components/ProductPage.jsx:46-50 | the shown list keeps the loaded order |
| ProductPage.FilterKeepsAllIff | src/Components/ProductPage.jsx:46-49 | the list is kept whole iff every product matches |
| ProductPage.EmptyTermShowsAll | src/Components/ProductPage.jsx:46-49 | the empty term shows every product |
| ProductPage.SearchIgnoresCase | src/Components/ProductPage.jsx:47-48 | an upper-cased term shows the same list |
| ProductPage.Load | src/Components/ProductPage.jsx:25-38 | a reply sets the list to `allData \|\| []` and reports success; a thrown error keeps the list and reports failure |
| ProductPage.MissingDataShowsNothing | src/Components/ProductPage.jsx:29-30 | a reply without `allData` leaves both lists empty |
| ProductPage.ClearSearchShowsAll | src/Components/ProductPage.jsx:140 | the clear-search button shows the whole list again |
| ProductPage.CountLabelBounds | src/Components/ProductPage.jsx:118 | the shown count never exceeds the total, and equals it for the empty term |
| ProductPage.Matches | src/Components/ProductPage.jsx:47-48 | lower-cased name or description includes the lower-cased term (see FilterMembers) |
| ProductPage.Shown | src/Components/ProductPage.jsx:44-51 | the filtered list the effect leaves after every change (see FilterMembers and ClearSearchShowsAll) |
| ProductPage.Search | src/Components/ProductPage.jsx:111 | typing into the search box replaces the term and keeps the list (see ClearSearchShowsAll) |
| ProductPage.CountLabel | src/Components/ProductPage.jsx:118 | "`shown` of `total` mangoes found" (see CountLabelBounds) |
| Navbar.BadgeShownIff | src/Components/Navbar.jsx:128-130 | the badge shows iff the quantities sum above 0, i.e. iff the cart is non-empty |
| Navbar.BadgeLabels | src/Components/Navbar.jsx:130 | for 1..9 the label is the count as one digit; above 9 it is "9+" |
| Navbar.BadgeSaturates | src/Components/Navbar.jsx:128-130 | once the badge reads "9+", adding a product keeps it at "9+" |
| Navbar.HandleSearch | src/Components/Navbar.jsx:37-42 | navigation carries the term as typed |
| Navbar.SearchNavigatesIff | src/Components/Navbar.jsx:39 | search navigates iff the term has a non-whitespace character |
| Navbar.AtMostOneActive | src/Components/Navbar.jsx:15-46 | at most one link is active, and Home only on "/" exactly |
| Navbar.CartBadge | src/Components/Navbar.jsx:128-130 | no badge for a zero count, "9+" above nine, otherwise the count (see BadgeShownIff and BadgeLabels) |
| Navbar.IsActiveLink | src/Components/Navbar.jsx:44-46 | exact equality of the path and the link's href (see AtMostOneActive) |
| AddNewMango.CheckFile | src/admin/AddNewMango.jsx:14-32 | a file is read iff present, of an "image/" type and at most 5 MiB; otherwise the result is the first failing guard: no file, then not an image, then too large |
| AddNewMango.SizeLimitBoundary | src/admin/AddNewMango.jsx:29 | exactly 5 MiB is accepted, one byte more is refused |
| AddNewMango.MimeExamples | src/admin/AddNewMango.jsx:23-32 | a file of type "image/png" of any size up to 5 MiB is read, and a file of type "application/pdf" is refused as not an image whatever its size |
| AddNewMango.FormReadyIff | src/admin/AddNewMango.jsx:53 | the form is ready iff name, description and price are not blank and an image is held |
| AddNewMango.FormReady | src/admin/AddNewMango.jsx:53 | the trimmed name, description and price are not empty and an image is held (see FormReadyIff) |
| AddNewMango.ReplyToast | src/admin/AddNewMango.jsx:69-80 | success only for `success: true`; otherwise the server's message when present, else "Failed to add mango" |
| AddNewMango.AddMangoPage.constructor | src/admin/AddNewMango.jsx:8-12 | all fields empty, not loading |
| AddNewMango.AddMangoPage.Edit | src/admin/AddNewMango.jsx:121-143 | exactly the edited text field changes |
| AddNewMango.AddMangoPage.HandleImageChange | src/admin/AddNewMango.jsx:14-48 | a refused file keeps the stored image and reports why; an accepted one stores the read data URL |
| AddNewMango.AddMangoPage.Submit | src/admin/AddNewMango.jsx:50-84 | not ready: nothing posted or changed; ready: fields posted as typed; success clears all four, failure keeps them; `loading` ends false |
| ViewOrders.StatusInfo | src/admin/ViewOrders.jsx:104-119 | total: any value outside the five statuses gets the gray clock default, and none of the five gets it |
| ViewOrders.StatusColorsDistinct | src/admin/ViewOrders.jsx:104-115 | the five statuses get five different colours |
| ViewOrders.PaymentColor | src/admin/ViewOrders.jsx:239 | green for "paid", yellow for anything else (see PaymentColorOfOptions) |
| ViewOrders.PaymentColorOfOptions | src/admin/ViewOrders.jsx:239 | of the three payment options only "paid" is green, and "failed" shares the yellow of "pending" |
| ViewOrders.OrderCode | src/admin/ViewOrders.jsx:176 | the code is the last six characters (fewer for a shorter id), upper-cased, with no lower-case ASCII letter |
| ViewOrders.OrderCodeIgnoresPrefix | src/admin/ViewOrders.jsx:176 | ids whose last six characters agree up to case share a code, whatever comes before them |
| ViewOrders.LineTotalsMatchCart | src/admin/ViewOrders.jsx:274 | for an order built from a cart, the quantity × price line totals add up to the cart's subtotal |
| ViewOrders.Refreshed | src/admin/ViewOrders.jsx:27-40 | the list is replaced by `orders \|\| []` only on `success`, and kept otherwise |
| ViewOrders.UpdatesTouchOneField | src/admin/ViewOrders.jsx:43-74 | a status update names only `orderStatus` and a payment update only `paymentStatus`, each leaving the other field alone |
| ViewOrders.OrdersPage.constructor | src/admin/ViewOrders.jsx:23-24 | no orders yet, loading |
| ViewOrders.OrdersPage.GetAllOrders | src/admin/ViewOrders.jsx:27-40 | the list becomes the refreshed list; only a thrown error toasts; `loading` ends false |
| ViewOrders.OrdersPage.HandleStatusUpdate | src/admin/ViewOrders.jsx:43-57 | the request for the id names only `orderStatus`; success toasts and refetches; a refusal is silent; a throw toasts the failure |
| ViewOrders.OrdersPage.HandlePaymentStatusUpdate | src/admin/ViewOrders.jsx:60-74 | the same for `paymentStatus` |
| ViewOrders.OrdersPage.HandleDelete | src/admin/ViewOrders.jsx:77-90 | a delete is sent iff confirmed; unconfirmed, nothing changes |
| ViewOrders.FailedFetchesKeepList | src/admin/ViewOrders.jsx:31-36 | under any run of unsuccessful fetches the list shown stays the same |
| ViewOrders.ListToasts | src/admin/ViewOrders.jsx:34-36 | only a thrown list request toasts, with "Failed to fetch orders" |
| ViewOrders.Patched | src/admin/ViewOrders.jsx:45-47 | the assumed effect of a partial PUT: each named status field takes its value, the rest stays (see Left out) |
| ViewOrders.OrdersPage.FinishUpdate | src/admin/ViewOrders.jsx:49-56 | after an update: success toasts and refetches, a refusal is silent and changes nothing, a throw toasts the failure |
| ViewOrders.LineTotal | src/admin/ViewOrders.jsx:274 | quantity × price of one order item (see LineTotalsMatchCart) |
| ViewOrders.StatusBody | src/admin/ViewOrders.jsx:45-47 | the PUT body `{ orderStatus }` (see UpdatesTouchOneField) |
| ViewOrders.PaymentBody | src/admin/ViewOrders.jsx:62-64 | the PUT body `{ paymentStatus }` (see UpdatesTouchOneField) |

## Left out

- HTTP transport: the URLs, axios/fetch, JSON parsing and response shapes. Each observable reply is a parameter (`Reply`, `CatalogReply`, `ListReply`).
- Rendering: toasts, animation, styling and layout. Toasts are returned values. Status styles are kept only as the class names and icon the page picks.
- Routing and timers: navigation is a returned value (`PageAction`, `SearchAction`), and the 2-second redirects are not modelled.
- `encodeURIComponent` in the navbar's search URL is not modelled. The model keeps the raw term.
- Reading the image into a data URL. Its result is a parameter, and a read error (`onerror`, then `loadend`) is not modelled.
- `window.confirm` is a boolean parameter of `HandleDelete`.
- React state batching, effects and StrictMode. State updates are sequential, and the effect that re-filters the catalog is folded into `ProductPage.Shown`.
- Floating point and locale formatting: the discount percentage, dates and `toLocaleString`.
- The greeting toast the cart page shows when it mounts (src/Components/Cart.jsx:54-58), and the continue-shopping toast with its navigation (src/Components/Cart.jsx:48-51).
- The navbar's mobile menu and search toggles.
- Text.ToLower and Text.ToUpper map ASCII letters only, while JavaScript maps all of Unicode. ProductPage.SearchIgnoresCase is stated for that ASCII mapping.
- Numbers are unbounded integers, not IEEE doubles. Prices, totals and sizes never round.
- Model cart lines store the product record as added. The request copies `image.url`, which is the product's optional `imageUrl`.
- CartPage.HandleRemoveFromCart takes the name as a parameter. The page passes `item.title` there as well, so its toast reads "undefined removed from cart!" (see Findings).
- ViewOrders.Patched is this model's assumption about how the backend applies a partial update, which the client never computes. The client-side fact in ViewOrders.UpdatesTouchOneField is that each request body names a single field. Its "the other field stays" half holds by the definition of Patched.
- Contact.ContactPage.Submit and AddNewMango.AddMangoPage.Submit take the reply in one step. Edits made while the POST is pending are not modelled: the pages disable only the submit button, not the inputs (src/Components/Contact.jsx:138). The checkout alone is split into a begin and a finish half.
- Not part of this model: authentication, login, the admin layout, the admin dashboard, the contacts and products admin lists, and the static pages.

## Findings

| source | as written | input that shows it | evidently intended | confidence | as-written member | corrected member |
|---|---|---|---|---|---|---|
| src/Components/Cart.jsx:158-182 | the − / + / remove controls pass `item.title` as the item name, but cart lines are products, which have `name` and no `title` | any line, e.g. a product named "Sindhri" at quantity 1 with + pressed: the toast reads "Updated undefined quantity to 2" | pass `item.name`, so the toast names the product | medium (the backend's product schema is not visible); not executed | CartPage.ControlToastIgnoresName | CartPage.ControlToastNamesProduct |
