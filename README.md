# Startup Kafé digital menu — a verified model

Startup Kafé's digital menu is a single-page ordering app for a café. A
diner browses a fixed catalogue of 73 items in eleven categories. They can
search it, keep favourites, fill a cart, and check out through a UPI
payment gateway, pay at the counter, or pay by card or net banking. They can
sign in with a phone number and a one-time code, and look back over past
orders.

This project models the logic of that app in Dafny and proves properties of
the model. The parts modelled are:

- the client-side stores: cart, user, orders, toasts and UI flags;
- the checkout form and payment flow;
- the catalogue and its queries;
- the order-history page;
- the item sheet;
- the favourites page;
- the sign-in sheet and the sign-in hook;
- the payment service;
- the welcome page and the profile sheet.

Each store is a `class` whose fields are the store's state. Its actions are
methods whose `ensures` tie the new state to a function of the old one (for
example `items == Added(old(items), p)`). The store invariants are stated
about those functions: one cart line per product, no line with a quantity
below one, duplicate-free favourites, and at most ten entries in the order
history. The methods preserve the invariants through `Valid()`. Pure getters
and queries are functions with named results. Lemmas relate the operations:
how quantities and totals change, inverses, idempotence, round trips, and
how each page handler composes the store actions it calls.

The model is split into modules:

| module | file |
|---|---|
| `Util` | Option, filter, find, subsequence, duplicate-free |
| `Text` | JavaScript `trim`, `\d`, ASCII case, `includes`, decimal rendering |
| `Menu` | `src/data/menuData.js` |
| `CartStore`, `UserStore`, `OrderStore`, `ToastStore`, `UIStore` | `src/store/store.js` |
| `Checkout` | `src/pages/Checkout.jsx` |
| `OrdersPage` | `src/pages/Orders.jsx` |
| `ItemDetail` | `src/components/ItemDetailModal.jsx` |
| `FavoritesPage` | `src/pages/Favorites.jsx` |
| `AuthModal` | `src/components/AuthModal.jsx` |
| `Auth` | `src/hooks/useAuth.js` |
| `Payment` | `src/services/paymentService.js` |
| `WelcomePage` | `src/pages/Welcome.jsx` |
| `UserModal` | `src/components/UserModal.jsx` |

Anything the app reads from outside becomes a parameter of the operation
that reads it:

- clock readings: `Date.now()` and `new Date()`;
- the random part of a transaction id;
- the outcome of each Firebase call;
- whether the gateway call threw;
- the address detected by the location hook;
- the locale day label of an order.

Values have these types in the model:

- amounts are integers in rupees;
- strings are `seq<char>`.

## Model

| member | source | states |
|---|---|---|
| `CartStore.IndexOf` | src/store/store.js:121 | The position `find` reaches: the first line with the id, or -1 when no line has it. |
| `CartStore.Quantity` | src/store/store.js:136-139 | `getItemQuantity`: the quantity of the line `find` reaches for the id, or 0 when there is none. The `*Quantity` lemmas below state how each action changes it. |
| `CartStore.TotalItems` | src/store/store.js:141-143 | `getTotalItems`: the sum of the lines' quantities. `TotalsConcat` and `TotalItemsBound` state its properties. |
| `CartStore.TotalPrice` | src/store/store.js:145-150 | `getTotalPrice`: the sum of each line's price times its quantity. `TotalsConcat` and `AddedTotals` state its properties. |
| `CartStore.Bump` | src/store/store.js:93-97 | The lines keep their order and length; lines with the id gain exactly one unit and no other field changes. |
| `CartStore.SetQuantity` | src/store/store.js:114-116 | The lines keep their order and length; lines with the id take the new quantity and no other field changes. |
| `CartStore.Added` | src/store/store.js:87-102 | `addItem` on the lines: when `find` finds the product's id that line is bumped, else a line of quantity 1 is appended. `AddedQuantity`, `AddedTotals` and `AddedWellFormed` state what it does. |
| `CartStore.Removed` | src/store/store.js:104-106 | `filter`: the result holds each line whose id differs exactly as often as the cart does, in cart order (a subsequence), and no line with the id. |
| `CartStore.Updated` | src/store/store.js:108-118 | `updateQuantity` on the lines: `removeItem` for a quantity of zero or below, else the quantity set on the line with the id. `UpdatedQuantity` and `UpdatedWellFormed` state what it does. |
| `CartStore.Incremented` | src/store/store.js:120-125 | `incrementQuantity` on the lines: `updateQuantity` with one more when `find` finds the id, else the lines unchanged. `IncrementedQuantity` states what it does. |
| `CartStore.Decremented` | src/store/store.js:127-132 | `decrementQuantity` on the lines: `updateQuantity` with one less when `find` finds the id, else the lines unchanged. `DecrementedQuantity` states what it does. |
| `CartStore.AddedQuantity` | src/store/store.js:87-102 | Adding a product raises its quantity by one and leaves every other id's quantity unchanged. |
| `CartStore.RemovedQuantity` | src/store/store.js:104-106 | After removal the id's quantity is 0 and every other id's quantity is unchanged. |
| `CartStore.UpdatedQuantity` | src/store/store.js:108-118 | A quantity of zero or below removes the line. A positive one sets a present line and leaves an absent id at 0. Other ids are untouched. |
| `CartStore.IncrementedQuantity` | src/store/store.js:120-125 | A present line gains one unit; an absent id and every other id are unchanged. |
| `CartStore.DecrementedQuantity` | src/store/store.js:127-132 | A present line loses one unit, and a line at quantity 1 leaves the cart; an absent id is unchanged. |
| `CartStore.AddedWellFormed` | src/store/store.js:87-102 | `addItem` keeps ids distinct and quantities positive. |
| `CartStore.RemovedDistinct` | src/store/store.js:105 | Filtering out an id keeps the remaining ids distinct. |
| `CartStore.RemovedWellFormed` | src/store/store.js:104-106 | `removeItem` keeps the cart well formed. |
| `CartStore.UpdatedWellFormed` | src/store/store.js:108-118 | `updateQuantity` keeps the cart well formed for every quantity, including zero and negative ones. |
| `CartStore.ApplyWellFormed` | src/store/store.js:87-134 | Each of the six cart actions keeps the cart well formed. |
| `CartStore.ReachableWellFormed` | src/store/store.js:85-134 | Any sequence of cart actions from a well-formed cart (such as the empty one) yields a well-formed cart. |
| `CartStore.TotalsConcat` | src/store/store.js:141-150 | The item count and the total price are additive over concatenation. |
| `CartStore.TotalItemsBound` | src/store/store.js:141-143 | A well-formed cart holds at least one unit per line, and its item count is 0 exactly when it is empty. |
| `CartStore.BumpTotals` | src/store/store.js:91-98 | Bumping the line with an id adds one unit and that line's own price. |
| `CartStore.AddedTotals` | src/store/store.js:87-102 | `addItem` adds one unit. It adds the price of the existing line for that id (which `addItem` keeps) or else the new product's price. |
| `CartStore.AddedUnitPrice` | src/store/store.js:87-102 | After adding, further copies of the same product are still charged the same unit price. |
| `CartStore.AddedTimesSpec` | src/store/store.js:87-102 | Adding a product n times keeps the cart well formed, raises its quantity and the item count by n, adds n times the unit price, and keeps the unit price. |
| `CartStore.RemovedAbsent` | src/store/store.js:105 | Removing an id no line carries leaves the cart as it was. |
| `CartStore.RemovedTotals` | src/store/store.js:104-150 | Removing an id takes away exactly that id's units and that line's cost. |
| `CartStore.Cart.constructor` | src/store/store.js:85 | The cart starts empty and well formed. |
| `CartStore.Cart.AddItem` | src/store/store.js:87-102 | The new lines are `Added(old lines, product)`; the invariant is kept. |
| `CartStore.Cart.RemoveItem` | src/store/store.js:104-106 | The new lines are `Removed(old lines, id)`; the invariant is kept. |
| `CartStore.Cart.UpdateQuantity` | src/store/store.js:108-118 | The new lines are `Updated(old lines, id, quantity)`; the invariant is kept. |
| `CartStore.Cart.IncrementQuantity` | src/store/store.js:120-125 | The new lines are `Incremented(old lines, id)`; the invariant is kept. |
| `CartStore.Cart.DecrementQuantity` | src/store/store.js:127-132 | The new lines are `Decremented(old lines, id)`; the invariant is kept. |
| `CartStore.Cart.ClearCart` | src/store/store.js:134 | The cart is empty and well formed. |
| `UserStore.Merge` | src/store/store.js:39-41 | A shallow merge of name, phone and table number; the favourites are never touched. |
| `UserStore.MergeThen` | src/store/store.js:39-41 | Two merges in a row equal one merge of the combined patch, with later keys winning; merging the same patch twice is merging it once. |
| `UserStore.MergeKeepsUnmentioned` | src/store/store.js:39-41 | A key the patch does not mention keeps its value; the empty patch changes nothing. |
| `UserStore.IsFavorite` | src/store/store.js:64 | `isFavorite`: the id is in the favourites list. |
| `UserStore.WithFavorite` | src/store/store.js:43-53 | `addToFavorites` on the preferences: the id appended when it is not already there, otherwise nothing changes. `WithFavoriteSpec` states what it does. |
| `UserStore.WithoutFavorite` | src/store/store.js:55-62 | `removeFromFavorites` on the preferences: the favourites filtered to the other ids. `WithoutFavoriteSpec` states what it does. |
| `UserStore.WithFavoriteSpec` | src/store/store.js:43-53 | After adding, exactly the old favourites plus the id are favourites. Adding twice is adding once, and the list stays duplicate-free. |
| `UserStore.WithoutFavoriteSpec` | src/store/store.js:55-62 | After removing, exactly the old favourites other than the id remain; the list stays duplicate-free. |
| `UserStore.AddThenRemove` | src/store/store.js:43-62 | Removing a favourite that was just added restores the preferences exactly. |
| `UserStore.Recorded` | src/store/store.js:66-73 | The history puts the new entry first, holds the older entries in order after it, and keeps at most ten. |
| `UserStore.User.constructor` | src/store/store.js:9-22 | Nobody is signed in, the welcome is not seen, the preferences are empty and the history is empty. |
| `UserStore.User.SetHasSeenWelcome` | src/store/store.js:25 | Only the welcome flag changes. |
| `UserStore.User.Login` | src/store/store.js:27-31 | The user is recorded and signed in, and the user data is merged into the preferences; the flag and the history are kept. |
| `UserStore.User.Logout` | src/store/store.js:33-37 | The user, the sign-in flag and every preference (favourites included) are reset; the welcome flag and the history are kept. |
| `UserStore.User.UpdatePreferences` | src/store/store.js:39-41 | The preferences become the merge; nothing else changes. |
| `UserStore.User.AddToFavorites` | src/store/store.js:43-53 | The preferences become `WithFavorite`; nothing else changes; the favourites stay duplicate-free. |
| `UserStore.User.RemoveFromFavorites` | src/store/store.js:55-62 | The preferences become `WithoutFavorite`; nothing else changes. |
| `UserStore.User.AddOrder` | src/store/store.js:66-73 | The history becomes `Recorded(old, stamped order)`; nothing else changes. |
| `OrderStore.Stamp` | src/store/store.js:213-219 | The order carries the given id and date and status `confirmed`; removing the stamp gives back the draft. |
| `OrderStore.OrderById` | src/store/store.js:226 | Nothing is found exactly when no order has the id; a found order is in the list and has that id. |
| `OrderStore.AddedOrderLookup` | src/store/store.js:213-226 | After adding, looking up the new id finds the new order, and every other id finds what it found before. |
| `OrderStore.FreshIdKeepsIdsUnique` | src/store/store.js:216 | An order added under an id new to the store keeps the ids duplicate-free. |
| `OrderStore.SameIdShadowsOlder` | src/store/store.js:216-226 | Two orders stamped in the same millisecond share an id; the older one can no longer be found by id. |
| `OrderStore.Orders.constructor` | src/store/store.js:211 | The store starts with no orders. |
| `OrderStore.Orders.AddOrder` | src/store/store.js:213-222 | Returns the stamped order and puts it first, before the old orders. |
| `ToastStore.Raised` | src/store/store.js:193-195 | The queue keeps its old toasts in order and gains one at the end; its type defaults to success. |
| `ToastStore.Dismissed` | src/store/store.js:202-204 | Exactly the toasts with other ids remain, in their old order. |
| `ToastStore.RaiseThenDismiss` | src/store/store.js:193-204 | A toast raised under a fresh id and then dismissed leaves the queue as it was. |
| `ToastStore.SameIdDismissedTogether` | src/store/store.js:194-198 | Two toasts raised in the same millisecond are both queued, and one dismissal removes both. |
| `ToastStore.Toasts.constructor` | src/store/store.js:191 | The queue starts empty. |
| `ToastStore.Toasts.AddToast` | src/store/store.js:193-200 | The queue becomes `Raised(old, now, message, type)`. |
| `ToastStore.Toasts.RemoveToast` | src/store/store.js:202-204 | The queue becomes `Dismissed(old, id)`. |
| `ToastStore.Toasts.Expire` | src/store/store.js:197-199 | The expiry timer dismisses the toast's id like `removeToast`. |
| `UIStore.UI.constructor` | src/store/store.js:159-168 | Every overlay is closed, no item is selected, the category is `hot-beverages` and the query is empty. |
| `UIStore.UI.OpenCart` | src/store/store.js:169 | The cart is open and no other flag changes. |
| `UIStore.UI.CloseCart` | src/store/store.js:170 | The cart is closed and no other flag changes. |
| `UIStore.UI.ToggleCart` | src/store/store.js:171 | The cart flag flips and no other flag changes. |
| `UIStore.UI.OpenSearch` | src/store/store.js:173 | The search is open. |
| `UIStore.UI.CloseSearch` | src/store/store.js:174 | The search is closed. |
| `UIStore.UI.OpenItemDetail` | src/store/store.js:176 | The sheet is open on the given item. |
| `UIStore.UI.CloseItemDetail` | src/store/store.js:177 | The sheet is closed and no item is selected. |
| `UIStore.UI.OpenUserModal` | src/store/store.js:179 | The profile sheet is open. |
| `UIStore.UI.CloseUserModal` | src/store/store.js:180 | The profile sheet is closed. |
| `UIStore.UI.OpenAuthModal` | src/store/store.js:182 | The sign-in sheet is open. |
| `UIStore.UI.CloseAuthModal` | src/store/store.js:183 | The sign-in sheet is closed. |
| `UIStore.UI.SetActiveCategory` | src/store/store.js:185 | The active category is the given one. |
| `UIStore.UI.SetSearchQuery` | src/store/store.js:186 | The query is the given one. |
| `Menu.CatalogueNumbered` | src/data/menuData.js:17-112 | The catalogue has 73 items with ids 1, 2, …, 73 in order. Every item has a positive price and a listed category. |
| `Menu.CatalogueWellFormed` | src/data/menuData.js:3-112 | The 73 ids are `i + 1` at position i and pairwise distinct. Every price is positive and every category is found by `getCategoryById`. |
| `Menu.Items` | src/data/menuData.js:17-112 | The 73 catalogue items as listed. `CatalogueNumbered` and `CatalogueWellFormed` state their ids, prices and categories. |
| `Menu.ItemsByCategory` | src/data/menuData.js:115-117 | Exactly the items of that category, each as often as in the catalogue, as a subsequence of the catalogue. |
| `Menu.PopularItems` | src/data/menuData.js:119-121 | Exactly the items flagged popular, each as often as in the catalogue, as a subsequence of the catalogue. |
| `Menu.SearchItems` | src/data/menuData.js:123-130 | Exactly the items whose lower-cased name, description or category contains the lower-cased query, each as often as in the catalogue, as a subsequence of the catalogue. |
| `Menu.CategoryById` | src/data/menuData.js:132-134 | Nothing exactly when no category has the id; otherwise a listed category with that id. |
| `Menu.SearchEmptyIsAll` | src/data/menuData.js:123-130 | Searching for the empty string returns the whole catalogue. |
| `Menu.SearchIgnoresCase` | src/data/menuData.js:123-130 | Upper- or lower-casing the query does not change the result. |
| `Menu.CategoryIdsDistinct` | src/data/menuData.js:3-15 | The eleven category ids are pairwise distinct. |
| `Menu.CategoryByIdFindsListed` | src/data/menuData.js:132-134 | Looking up a listed category's id returns that very category. |
| `Checkout.TaxesRounding` | src/pages/Checkout.jsx:56 | The integer tax is `Math.round(subtotal / 20)`: the greatest integer not above `subtotal/20 + 1/2`, for every integer subtotal. |
| `Checkout.TaxesBounds` | src/pages/Checkout.jsx:55-58 | The tax is within half a rupee of 5%. It lies between 0 and the subtotal for a non-negative subtotal. The total is subtotal plus tax plus the zero delivery fee. |
| `Checkout.Taxes` | src/pages/Checkout.jsx:56 | `Math.round(subtotal * 0.05)` in integer arithmetic. `TaxesRounding` proves it equal to the real rounding. |
| `Checkout.Total` | src/pages/Checkout.jsx:55-58 | The subtotal plus the tax plus the zero delivery fee. `TaxesBounds` states the total. |
| `Checkout.Projected` | src/pages/Checkout.jsx:198-204 | One order item per cart line, in cart order, carrying id, name, price, quantity and image. |
| `Checkout.ProjectedTotals` | src/pages/Checkout.jsx:198-204 | The recorded items carry the cart's unit count, and their prices times quantities sum to the cart's total price. |
| `Checkout.ProjectedReorder` | src/pages/Checkout.jsx:198-204 | Re-ordering a recorded order adds back, for every product id, exactly its quantity in the cart it came from. |
| `Checkout.Draft` | src/pages/Checkout.jsx:219-256 | The object `addOrder` receives: the projected items, subtotal, taxes, delivery fee and total, plus the form, the option's name, the payment status and the transaction id. `DraftConsistent` states that its figures agree. |
| `Checkout.DraftConsistent` | src/pages/Checkout.jsx:241-256 | An order draft's subtotal is its items' sum, its total is subtotal plus taxes plus the zero delivery fee, and its item count is the cart's. |
| `Checkout.ValidEmailMatches` | src/pages/Checkout.jsx:161 | The direct address test accepts only strings the email regular expression matches. |
| `Checkout.MatchIsValidEmail` | src/pages/Checkout.jsx:161 | Every string the email regular expression matches passes the direct test. |
| `Checkout.EmailRegex` | src/pages/Checkout.jsx:161 | `/^[^\s@]+@[^\s@]+\.[^\s@]+$/` as a predicate: a split into three non-empty runs without white space or `@`, joined by `@` and a dot. `EmailIff` ties it to the direct test. |
| `Checkout.IndianMobile` | src/pages/Checkout.jsx:157 | `/^[6-9]\d{9}$/` as a predicate: ten digits, the first 6 to 9. `PhoneError` and `FormErrorsPhone` use it. |
| `Checkout.EmailIff` | src/pages/Checkout.jsx:161 | The direct test and the regular expression accept exactly the same strings. |
| `Checkout.NameError` | src/pages/Checkout.jsx:151-153 | An error exactly when the name is all white space, with a non-empty message. |
| `Checkout.PhoneError` | src/pages/Checkout.jsx:155-159 | An error exactly when the trimmed phone is not ten digits starting 6–9, with a non-empty message. |
| `Checkout.EmailError` | src/pages/Checkout.jsx:161-163 | An error exactly when the email is non-empty and malformed, with a non-empty message. |
| `Checkout.FormErrors` | src/pages/Checkout.jsx:148-167 | Only the name, phone and email fields can carry errors. |
| `Checkout.FormErrorsName` | src/pages/Checkout.jsx:151-153 | The name has an error exactly when it is blank after trimming. |
| `Checkout.FormErrorsPhone` | src/pages/Checkout.jsx:155-159 | The phone has an error exactly when its trimmed text is not an Indian mobile number. |
| `Checkout.FormErrorsEmail` | src/pages/Checkout.jsx:161-163 | The email has an error exactly when it is non-empty and the regular expression rejects it. |
| `Checkout.FormErrorsMessages` | src/pages/Checkout.jsx:148-164 | Every recorded error has a non-empty message. |
| `Checkout.FormErrorsSpec` | src/pages/Checkout.jsx:148-167 | The three rules together, in both directions, with non-empty messages. |
| `Checkout.FormValidIff` | src/pages/Checkout.jsx:165-166 | The error map is empty exactly when the name is not blank, the trimmed phone is a mobile number and the email is empty or well formed. |
| `Checkout.PhoneMessages` | src/pages/Checkout.jsx:155-159 | A blank phone gets "Phone number is required"; a non-blank malformed one gets "Enter a valid 10-digit phone number". |
| `Checkout.EmailAccepted` | src/pages/Checkout.jsx:161 | `diner@cafe.in` is accepted. |
| `Checkout.EmailRejected` | src/pages/Checkout.jsx:161 | `a@b.` and `a b@c.de` are rejected. |
| `Checkout.Prefilled` | src/pages/Checkout.jsx:121-129 | Email, notes and address are kept. Without a saved name the typed name is kept. With nothing saved and nobody signed in the form is unchanged. |
| `Checkout.PrefillSignedIn` | src/pages/Checkout.jsx:126 | A signed-in number `+91` followed by digits fills the phone with just the digits. |
| `Checkout.OptionsByRoute` | src/pages/Checkout.jsx:61-118 | Of the seven options the first four go through the UPI gateway and the last three do not; only the seventh is `cod`. |
| `Checkout.PaymentOptions` | src/pages/Checkout.jsx:61-118 | The seven payment options with their ids, names, descriptions and popular flags. `OptionsByRoute` states how they are routed. |
| `Checkout.IsUpi` | src/pages/Checkout.jsx:193 | The four ids `phonepe`, `gpay`, `paytm` and `upi` that go through the gateway. |
| `Checkout.LeavesPage` | src/pages/Checkout.jsx:137-141 | The empty-cart effect's test: the cart is empty and the step is not success. `HandlePayment` ensures it is false after every placed order. |
| `Checkout.GatewayFailureShown` | src/pages/Checkout.jsx:291-295 | A failed gateway call always shows the gateway's own non-empty message, never the fallback text. |
| `Checkout.CheckoutPage.constructor` | src/pages/Checkout.jsx:33-42 | The page starts at the details step, with no option chosen, an empty form and no errors. |
| `Checkout.CheckoutPage.PrefillFromProfile` | src/pages/Checkout.jsx:121-129 | The form becomes `Prefilled(old form, saved name, saved phone, signed-in phone)`. |
| `Checkout.CheckoutPage.PrefillAddress` | src/pages/Checkout.jsx:131-135 | A detected address fills an empty address field; otherwise the form is kept. |
| `Checkout.CheckoutPage.ValidateForm` | src/pages/Checkout.jsx:148-167 | The errors become `FormErrors(form)`. The result is true exactly when there are none, that is exactly when the three rules pass. |
| `Checkout.CheckoutPage.HandleInputChange` | src/pages/Checkout.jsx:169-175 | The field takes the value. A shown error on that field is blanked and every other error is kept. |
| `Checkout.CheckoutPage.HandleProceedToPayment` | src/pages/Checkout.jsx:177-185 | The errors are recomputed, and the step becomes payment exactly when there are none. |
| `Checkout.CheckoutPage.HandleBack` | src/pages/Checkout.jsx:378 | From the payment step it returns to details; from any other step it navigates back. |
| `Checkout.CheckoutPage.PlaceOrder` | src/pages/Checkout.jsx:219-233 | The draft is stamped and put first in the order store, the cart is emptied, a success toast is raised and the step is success. |
| `Checkout.CheckoutPage.PayThroughGateway` | src/pages/Checkout.jsx:193-236 | When initiation fails, the step returns to payment, the gateway's message is shown, and nothing is stored or cleared. When it succeeds, the pending transaction is recorded and a completed order with the transaction id is placed. |
| `Checkout.CheckoutPage.HandlePayment` | src/pages/Checkout.jsx:187-296 | The whole handler. A failed gateway call returns to the payment step, shows the gateway's message and changes nothing stored. An initiated gateway payment, `cod` and the other options all end at the success step with an empty cart. The gateway one records the pending transaction and a completed order with its id. `cod` places a pending order and the others a completed one, without a transaction. The empty-cart effect never fires after success. |
| `OrdersPage.Badge` | src/pages/Orders.jsx:20-53 | Each of the four known statuses gets its own icon, colour and label (confirmed: CheckCircle, green, "Confirmed"; preparing: ChefHat, orange, "Preparing"; ready: Package, blue, "Ready"; delivered: Truck, primary, "Delivered"). An unknown status gets the Clock icon, the grey style and the raw status as its label; the known ones never get Clock. |
| `OrdersPage.ItemCount` | src/pages/Orders.jsx:122 | A card's item count: the sum of its lines' quantities. `Checkout.ProjectedTotals` ties it to the cart's item count. |
| `OrdersPage.TotalUnits` | src/pages/Orders.jsx:315 | The "Items" statistic: the item counts of all orders added up. `StatsConcat` and `StatsAfterAddOrder` state its properties. |
| `OrdersPage.TotalSpent` | src/pages/Orders.jsx:321 | The "Total Spent" statistic: the order totals added up. `StatsConcat` and `StatsAfterAddOrder` state its properties. |
| `OrdersPage.StatsConcat` | src/pages/Orders.jsx:310-321 | The unit and amount statistics are additive over any split of the order list. |
| `OrdersPage.StatsAfterAddOrder` | src/pages/Orders.jsx:310-321 | A new order adds one to the count, its item count to the units and its total to the amount spent. |
| `OrdersPage.DayKeysSpec` | src/pages/Orders.jsx:223-234 | The group labels are duplicate-free and are exactly the day labels of the orders. |
| `OrdersPage.EachOrderInOneGroup` | src/pages/Orders.jsx:223-234 | Each order's day is a group, and the order lies in a group exactly when it is its own day's. |
| `OrdersPage.GroupsPartition` | src/pages/Orders.jsx:223-234 | Its own day's group holds each order as often as the list does, and no other group holds it. |
| `OrdersPage.Group` | src/pages/Orders.jsx:223-234 | The orders carrying one day label, filtered in list order. `GroupsPartition` and `GroupByDate` state its properties. |
| `OrdersPage.DayKeys` | src/pages/Orders.jsx:223-234 | The day labels in order of first appearance. `DayKeysSpec` states its properties. |
| `OrdersPage.GroupByDate` | src/pages/Orders.jsx:223-234 | The reduce yields the labels in order of first appearance. Each label's list holds exactly that day's orders, in list order. |
| `OrdersPage.HandleReorder` | src/pages/Orders.jsx:213-220 | The cart becomes `Reordered(old cart, order.items)`: each line added as often as its quantity, in order. So every id's cart quantity grows by its summed positive quantities in the order, the cart stays well formed, and one toast reports the number of lines. |
| `OrdersPage.Reordered` | src/pages/Orders.jsx:213-218 | The cart lines after the nested loops: for each order line in turn, `addItem` repeated its quantity times (none for zero or below). `ReorderedQuantity` and `ReorderedWellFormed` state its properties. |
| `OrdersPage.AddedTimesQuantity` | src/store/store.js:87-102 | Adding a product n times raises the quantity of its id by n and leaves every other id's quantity alone, for any cart. |
| `OrdersPage.ReorderedQuantity` | src/pages/Orders.jsx:213-218 | After re-ordering, every id's quantity is its old quantity plus `ReorderUnits` of the order for that id. |
| `OrdersPage.ReorderedWellFormed` | src/pages/Orders.jsx:213-218 | Re-ordering into a well-formed cart leaves it well formed. |
| `OrdersPage.ReorderUnits` | src/pages/Orders.jsx:213-218 | The units of an id the nested loops add: each line with that id contributes its quantity, and a line of quantity zero or below none. `HandleReorder` and `Checkout.ProjectedReorder` use it. |
| `ItemDetail.PickerStaysInRange` | src/components/ItemDetailModal.jsx:120-134 | Both buttons keep the quantity in 1..10, stop exactly at the ends, and undo each other inside the range. |
| `ItemDetail.PressesStayInRange` | src/components/ItemDetailModal.jsx:120-134 | Any sequence of presses from a quantity in 1..10 stays in 1..10. |
| `ItemDetail.ButtonPriceCharged` | src/components/ItemDetailModal.jsx:308 | The price on the button is what the cart's total grows by when the item's line charges the catalogue price. |
| `ItemDetail.ToggledFlips` | src/components/ItemDetailModal.jsx:102-111 | The heart flips the item's favourite status, touches no other id, keeps the list duplicate-free, and two toggles cancel. |
| `ItemDetail.StepUp` | src/components/ItemDetailModal.jsx:121 | `Math.min(prev + 1, 10)`. `PickerStaysInRange` states its properties. |
| `ItemDetail.StepDown` | src/components/ItemDetailModal.jsx:129 | `Math.max(prev - 1, 1)`. `PickerStaysInRange` states its properties. |
| `ItemDetail.Toggled` | src/components/ItemDetailModal.jsx:102-111 | The heart's effect on the preferences: `removeFromFavorites` for a favourite, `addToFavorites` otherwise. `ToggledFlips` states its properties. |
| `ItemDetail.ItemSheet.constructor` | src/components/ItemDetailModal.jsx:11 | The picker starts at 1. |
| `ItemDetail.ItemSheet.Opened` | src/components/ItemDetailModal.jsx:21-24 | Opening on an item resets the quantity to 1; otherwise it is kept. |
| `ItemDetail.ItemSheet.IncrementQuantity` | src/components/ItemDetailModal.jsx:120-121 | The quantity becomes `min(q + 1, 10)` and stays in range. |
| `ItemDetail.ItemSheet.DecrementQuantity` | src/components/ItemDetailModal.jsx:128-129 | The quantity becomes `max(q - 1, 1)` and stays in range. |
| `ItemDetail.ItemSheet.HandleAddToCart` | src/components/ItemDetailModal.jsx:77-100 | With nothing selected nothing changes. Otherwise the item is added `quantity` times, a toast names the count and the item, the sheet closes, and the cart stays well formed. |
| `ItemDetail.ItemSheet.HandleLikeToggle` | src/components/ItemDetailModal.jsx:102-111 | With nothing selected nothing changes. Otherwise the favourite is toggled and the toast says which way it went. |
| `FavoritesPage.FavoriteItems` | src/pages/Favorites.jsx:26 | Exactly the catalogue items whose id is saved, each as often as in the catalogue, in catalogue order; saved ids with no item are dropped. |
| `FavoritesPage.SelectAsWritten` | src/pages/Favorites.jsx:13-26 | With no `menuItems` binding the page fails to render; with one it shows the filtered list. |
| `FavoritesPage.AsWrittenNeverShows` | src/pages/Favorites.jsx:13-26 | As written the page fails even when a saved id belongs to a catalogue item, which the corrected list shows. |
| `FavoritesPage.CountIdFavorites` | src/pages/Favorites.jsx:26 | The list holds a saved id as often as the catalogue does, and an unsaved one never. |
| `FavoritesPage.ShownOnceEach` | src/pages/Favorites.jsx:185-188 | Over a catalogue numbered 1..n, the list holds each saved id in 1..n exactly once and nothing else. |
| `FavoritesPage.CatalogueShownOnceEach` | src/pages/Favorites.jsx:185-188 | Over the real catalogue, the list holds each saved id in 1..73 exactly once and nothing else. |
| `FavoritesPage.AddedEachQuantity` | src/pages/Favorites.jsx:186 | Adding each item of a list raises every id's quantity by its count in the list. |
| `FavoritesPage.HandleAddToCart` | src/pages/Favorites.jsx:51-54 | One unit of the item is added and a success toast names it. |
| `FavoritesPage.HandleRemoveFavorite` | src/pages/Favorites.jsx:66-70 | The id leaves the favourites, nothing else in the user store changes, and an info toast names the item. |
| `FavoritesPage.AddAll` | src/pages/Favorites.jsx:185-188 | Every id's quantity grows by its count among the shown items. The cart stays well formed and one toast reports the count. |
| `AuthModal.SanitizePhone` | src/components/AuthModal.jsx:227 | The result is the first digits of the input, at most ten; it has ten exactly when the input has ten or more digits. |
| `AuthModal.SanitizeIdempotent` | src/components/AuthModal.jsx:227 | Filtering a filtered phone changes nothing. |
| `AuthModal.JoinFull` | src/components/AuthModal.jsx:131-132 | Boxes of at most one character join to at most one character per box, and to exactly one per box only when all are filled. |
| `AuthModal.JoinSingles` | src/components/AuthModal.jsx:131 | Boxes holding one character each spell those characters. |
| `AuthModal.Pasted` | src/components/AuthModal.jsx:101-108 | A paste of at most six digits always yields six boxes. |
| `AuthModal.PasteOfSix` | src/components/AuthModal.jsx:101-108 | Pasting six or more digits fills every box, and the boxes spell the first six digits. |
| `AuthModal.AstralCharacterKeepsBoxes` | src/components/AuthModal.jsx:101-108 | One character outside the Basic Multilingual Plane is two code units long, so it takes the paste branch, which finds no digit and leaves all six boxes as they were. |
| `AuthModal.EmptyBoxesOk` | src/components/AuthModal.jsx:15 | Six empty boxes are well formed and spell the empty string. |
| `AuthModal.PastedOk` | src/components/AuthModal.jsx:101-108 | A paste of at most six digits keeps every box to at most one digit. |
| `AuthModal.TypedOk` | src/components/AuthModal.jsx:114-116 | A typed character with its non-digits removed keeps every box to at most one digit. |
| `AuthModal.GuardMeansAllFilled` | src/components/AuthModal.jsx:131-135 | On well-formed boxes the six-character guard passes exactly when all six boxes are filled. |
| `AuthModal.TicksSpec` | src/components/AuthModal.jsx:66-71 | n ticks from t leave `t - n` while that is positive and 0 afterwards. |
| `AuthModal.ResendAfterThirty` | src/components/AuthModal.jsx:66-71 | From 30 the countdown is positive for the first 29 ticks and reaches 0 at the thirtieth. |
| `AuthModal.AuthSheet.constructor` | src/components/AuthModal.jsx:14-16 | The phone is empty, the six boxes are empty and the countdown is 0. |
| `AuthModal.AuthSheet.SetPhoneNumber` | src/components/AuthModal.jsx:227 | The phone becomes the sanitised input; the boxes and countdown are kept. |
| `AuthModal.AuthSheet.Tick` | src/components/AuthModal.jsx:66-71 | One tick of the countdown; nothing else changes. |
| `AuthModal.AuthSheet.HandleOtpChange` | src/components/AuthModal.jsx:100-122 | A value longer than one UTF-16 code unit pastes its first six digits from box 0. Otherwise only the box at the index changes, to the value's digits. The boxes stay well formed. |
| `AuthModal.AuthSheet.HandleSendOTP` | src/components/AuthModal.jsx:83-98 | A phone of other than ten characters is refused with a toast and the hook is not called. Otherwise a sent code starts the 30-second countdown, and a toast reports success or the hook's message. |
| `AuthModal.AuthSheet.HandleVerifyOTP` | src/components/AuthModal.jsx:130-143 | Boxes that do not spell six characters are refused with a toast. Otherwise a rejected code is reported and all six boxes are cleared. |
| `AuthModal.AuthSheet.HandleResendOTP` | src/components/AuthModal.jsx:145-154 | Nothing at all while the countdown runs. Otherwise the code is sent; success restarts the countdown, clears the boxes and raises a toast, and a failed resend raises none. |
| `AuthModal.AuthSheet.HandleClose` | src/components/AuthModal.jsx:156-161 | The sheet closes, the hook is reset, and the phone and all six boxes are emptied. |
| `AuthModal.AuthSheet.HandleChangeNumber` | src/components/AuthModal.jsx:341-345 | The hook's state becomes its reset state, which shows the phone step again; the six boxes are emptied; the phone and the countdown are kept; both invariants are preserved. |
| `AuthModal.OnAuthenticated` | src/components/AuthModal.jsx:74-81 | Only when a user is present and the sheet is open: a toast, the user's phone merged into the preferences, the sheet closed and the hook reset. |
| `Auth.StripLeadingZeros` | src/hooks/useAuth.js:81 | A suffix of the input, no longer than it, preceded only by zeros and not starting with a zero. |
| `Auth.FormatPhone` | src/hooks/useAuth.js:79-81 | A number starting with `+` is kept. Any other becomes `+91` followed by the number without its leading zeros. The result always starts with `+`. |
| `Auth.FormatPhoneIdempotent` | src/hooks/useAuth.js:79-81 | Formatting a formatted number changes nothing. |
| `Auth.FormatLocalNumber` | src/hooks/useAuth.js:79-81 | A national number of digits not starting with 0 only gains `+91`. |
| `Auth.FormatTrunkPrefix` | src/hooks/useAuth.js:79-81 | `0987654321` becomes `+91987654321`. |
| `Auth.SendErrorMessage` | src/hooks/useAuth.js:120-136 | Each of the six codes gets its fixed text; any other code gets the error's own message if it has one, else the default; never empty. |
| `Auth.VerifyErrorMessage` | src/hooks/useAuth.js:166-172 | Only the two listed codes change the default verify message. |
| `Auth.SendFailure` | src/hooks/useAuth.js:106-139 | A failed send always reports a non-empty message. |
| `Auth.NoRecaptchaMessage` | src/hooks/useAuth.js:85-136 | A verifier that cannot be set up is reported as "Failed to setup reCAPTCHA". |
| `Auth.PhoneNumber` | src/hooks/useAuth.js:210-215 | A phone number exactly when a user with a non-empty number is signed in, and then that number. |
| `Auth.IsAuthenticated` | src/hooks/useAuth.js:210 | `isAuthenticated: !!user`: a user is present. |
| `Auth.TransitionsKeepConsistent` | src/hooks/useAuth.js:73-203 | The initial state and every transition keep "code sent" tied to a pending verification. |
| `Auth.SendFlags` | src/hooks/useAuth.js:73-141 | Loading always stops. A sent code sets the OTP flag and the verification id and clears the error. A failed send keeps both and records a non-empty error. |
| `Auth.SendThenVerify` | src/hooks/useAuth.js:144-161 | A code sent and then confirmed signs the user in, clears the OTP flag and the error, and returns that user. |
| `Auth.VerifyAfterReset` | src/hooks/useAuth.js:149-203 | After `resetAuth` no code verifies: the reply is the default message and the user is kept. |
| `Auth.VerifyRejectedKeepsSession` | src/hooks/useAuth.js:162-176 | A rejected code keeps the user, the OTP flag and the verification id, and reports the mapped message. |
| `Auth.ResetKeepsUserLogoutDrops` | src/hooks/useAuth.js:180-203 | `resetAuth` keeps the user. A successful logout signs out and clears the phone number; a failed one changes nothing. |
| `Auth.AfterSend` | src/hooks/useAuth.js:73-141 | The hook's state after `sendOTP`. A sent code stores the verification and clears the error. A failure records the mapped message. Loading ends either way. `SendFlags` states its properties. |
| `Auth.AfterVerify` | src/hooks/useAuth.js:144-177 | The hook's state after `verifyOTP`. A confirmed pending code signs the user in. Anything else records the verify error. The `SendThenVerify`, `VerifyAfterReset` and `VerifyRejectedKeepsSession` lemmas state its properties. |
| `Auth.AfterLogout` | src/hooks/useAuth.js:180-191 | The hook's state after `logout`: a sign-out drops the user and the pending code, and a failure changes nothing. `ResetKeepsUserLogoutDrops` states its properties. |
| `Auth.AfterReset` | src/hooks/useAuth.js:194-203 | The hook's state after `resetAuth`: the error, the OTP flag and the pending verification are cleared. `ResetKeepsUserLogoutDrops` states its properties. |
| `Auth.AuthSession.constructor` | src/hooks/useAuth.js:11-16 | The hook starts in its initial state. |
| `Auth.AuthSession.OnAuthStateChanged` | src/hooks/useAuth.js:19-26 | Only the user changes, to the one the provider reports. |
| `Auth.AuthSession.SendOTP` | src/hooks/useAuth.js:73-141 | The provider is handed `FormatPhone(number)`, the state becomes `AfterSend` and the reply is `SendReply`. |
| `Auth.AuthSession.VerifyOTP` | src/hooks/useAuth.js:144-177 | The state becomes `AfterVerify` and the reply is `VerifyReplyOf` the old state. |
| `Auth.AuthSession.Logout` | src/hooks/useAuth.js:180-191 | The state becomes `AfterLogout`; the reply is success, or "Failed to logout". |
| `Auth.AuthSession.ResetAuth` | src/hooks/useAuth.js:194-203 | The state becomes `AfterReset`. |
| `Payment.TransactionId` | src/services/paymentService.js:12-16 | Starts with `TXN` and contains no lower-case letter. |
| `Payment.TransactionIdShape` | src/services/paymentService.js:12-16 | The id begins with `TXN` followed by the clock reading's decimal digits, and upper-casing it changes nothing. |
| `Payment.CreatePaymentPayload` | src/services/paymentService.js:27-45 | The amount is the total times 100, and the merchant transaction id is the given one. The user is the phone, or `GUEST_USER` when empty. The redirect URL is the configured one followed by `?txnId=` and the id. |
| `Payment.AmountInPaise` | src/services/paymentService.js:34 | The amount in paise divides by 100 and gives back the total in rupees. |
| `Payment.StatusOf` | src/services/paymentService.js:122-138 | Found exactly when the slot holds that transaction, and then with its status and amount; otherwise not found. |
| `Payment.AfterCallback` | src/services/paymentService.js:151-163 | A slot stays filled exactly when it was, and a callback for another transaction leaves it unchanged. |
| `Payment.CallbackThenStatus` | src/services/paymentService.js:122-163 | A callback for the stored transaction makes the status SUCCESS exactly for the success code and FAILED otherwise, keeping the amount. Other transactions read as before. |
| `Payment.InitiateThenStatus` | src/services/paymentService.js:68-131 | After initiation, the status check for the new id finds it `INITIATED` with the order total. |
| `Payment.Recorded` | src/services/paymentService.js:68-74 | The slot `initiatePayment` writes: the transaction id, the order id, the amount, the clock reading and `INITIATED`. `InitiateThenStatus` states what a status check then finds. |
| `Payment.FailureText` | src/services/paymentService.js:97-103 | The exception's message when it has one, else the fixed text; never empty. |
| `Payment.PaymentService.constructor` | src/services/paymentService.js:120-121 | No transaction is pending when nothing has been stored. |
| `Payment.PaymentService.InitiatePayment` | src/services/paymentService.js:53-104 | A throw stores nothing and reports the failure text. Otherwise the single slot is overwritten with the INITIATED record, and success is returned with the same id, the pay URL and the payload. |
| `Payment.PaymentService.HandlePaymentCallback` | src/services/paymentService.js:151-170 | The slot becomes `AfterCallback`; the reply is success exactly for the success code and echoes the code and id. |
| `WelcomePage.SubmittedSpec` | src/pages/Welcome.jsx:79-81 | A non-blank name is stored trimmed with the trimmed table, keeping the phone and favourites. A blank name keeps the preferences exactly, whatever table was entered. |
| `WelcomePage.SubmittedTwice` | src/pages/Welcome.jsx:79-81 | Submitting the same entries twice is submitting them once. |
| `WelcomePage.Submitted` | src/pages/Welcome.jsx:79-81 | The preferences after submitting. The trimmed name and table are merged when the trimmed name is non-empty; otherwise nothing changes. `SubmittedSpec` states this. |
| `WelcomePage.Welcome.constructor` | src/pages/Welcome.jsx:11-13 | The page starts at the intro with empty fields. |
| `WelcomePage.Welcome.SetName` | src/pages/Welcome.jsx:229 | Only the name changes. |
| `WelcomePage.Welcome.SetTableNumber` | src/pages/Welcome.jsx:242 | Only the table number changes. |
| `WelcomePage.Welcome.HandleGetStarted` | src/pages/Welcome.jsx:67-76 | The step becomes 1 (the form); the entered name and table number are kept. |
| `WelcomePage.Welcome.HandleSubmit` | src/pages/Welcome.jsx:78-92 | The preferences become `Submitted(old, name, table)`, the welcome is marked seen, and nothing else in the user store changes. |
| `WelcomePage.Welcome.HandleSkip` | src/pages/Welcome.jsx:94-100 | Only the welcome flag changes, to seen. |
| `UserModal.SaveSpec` | src/components/UserModal.jsx:55-58 | Saving stores exactly the trimmed entries, blank ones included, keeping the phone and favourites. |
| `UserModal.SaveTwice` | src/components/UserModal.jsx:55-58 | Saving again the fields refilled from the saved preferences changes nothing. |
| `UserModal.SavePatch` | src/components/UserModal.jsx:56 | The patch `handleSave` merges: the trimmed name and the trimmed table, empty ones included. `SaveSpec` states what merging it does. |
| `UserModal.ProfileSheet.constructor` | src/components/UserModal.jsx:11-13 | Not editing, with empty fields. |
| `UserModal.ProfileSheet.SyncFromPreferences` | src/components/UserModal.jsx:19-22 | The fields take the stored name and table number. |
| `UserModal.ProfileSheet.StartEditing` | src/components/UserModal.jsx:122 | Edit mode starts and the fields are kept. |
| `UserModal.ProfileSheet.SetEditName` | src/components/UserModal.jsx:134 | Only the name field changes. |
| `UserModal.ProfileSheet.SetEditTable` | src/components/UserModal.jsx:141 | Only the table field changes. |
| `UserModal.ProfileSheet.HandleSave` | src/components/UserModal.jsx:55-58 | The preferences become the merge of the trimmed fields, edit mode ends, and nothing else in the user store changes. |
| `UserModal.ProfileSheet.Cancel` | src/components/UserModal.jsx:147 | Edit mode ends and the preferences are unchanged. |
| `UserModal.ProfileSheet.HandleReset` | src/components/UserModal.jsx:60-65 | The welcome is unseen, the user is signed out with empty preferences and no favourites, and the sheet closes. The cart and the placed orders are untouched. |
| `Text.TrimEmptyIffBlank` | src/pages/Checkout.jsx:151 | `trim()` gives the empty string exactly when the text is all white space. |
| `Text.TrimIdempotent` | src/components/UserModal.jsx:56 | Trimming leaves no white space at either end, and trimming twice is trimming once. |
| `Text.DigitsOf` | src/components/AuthModal.jsx:115 | `replace(/\D/g, '')` keeps exactly the digits, in order. |
| `Text.DigitsOfDigits` | src/components/AuthModal.jsx:227 | A string of digits is its own digit string. |
| `Text.Prefix` | src/components/AuthModal.jsx:103 | `slice(0, n)`: the first n elements, or all of them when there are fewer. |
| `Text.RemoveFirst` | src/pages/Checkout.jsx:126 | `replace('+91', '')` on a string pattern drops the first occurrence: a prefix is cut off, and text without it is unchanged. |
| `Text.ContainsEmpty` | src/data/menuData.js:126 | Every string contains the empty string. |
| `Text.ToLower` | src/data/menuData.js:124 | Lower-cases each ASCII letter, position by position. |
| `Text.ToUpper` | src/services/paymentService.js:15 | Upper-cases each ASCII letter, position by position. |
| `Text.LowerAfterCase` | src/data/menuData.js:124-128 | Lower-casing after either case change gives the same text. |
| `Text.Decimal` | src/pages/Favorites.jsx:187 | A number in a template literal: a canonical digit string (non-empty, no leading zero unless it is `0`) whose digits denote the number. |
| `Text.DecimalRoundTrip` | src/pages/Favorites.jsx:187 | Every canonical digit string is the rendering of the number it denotes, so rendering and reading back are inverse both ways. |
| `Text.JsLength` | src/components/AuthModal.jsx:101 | `value.length`: the number of UTF-16 code units, between the character count and twice it. It equals the character count exactly when no character lies outside the Basic Multilingual Plane. |
| `Util.Filter` | src/data/menuData.js:116 | `filter`: the kept elements, each as often as in the input, in input order. |
| `Util.FilterNoDup` | src/store/store.js:59 | Filtering a duplicate-free list leaves it duplicate-free. |
| `Util.Find` | src/data/menuData.js:133 | `find`: nothing exactly when no element qualifies; otherwise the element at the first qualifying position. |

## Left out

- Persistence: the zustand `persist` middleware and `localStorage` are treated as an identity round trip. The payment service's `pending_transaction` slot is a field.
- GSAP animations, `document.body.style`, focus handling and all markup are not modelled. Steps that wait for an animation (the welcome step change, the item sheet's toast and close) happen at once.
- Routing: `navigate` calls are left out. The empty-cart guard of the checkout is the predicate `Checkout.LeavesPage`; the back button returns whether it navigates back.
- Firebase (`RecaptchaVerifier`, `signInWithPhoneNumber`, `confirm`, `signOut`, the auth listener) is a foreign library. Each call's outcome is a parameter (`SendOutcome`, `VerifyOutcome`, a sign-out flag, the reported user).
- `window.confirmationResult` is a global shared by every hook instance; the model keeps it per session as `hasConfirmation`.
- A Firebase user whose `phoneNumber` is null carries `""` in the model.
- CryptoJS SHA-256, the `btoa`/`JSON.stringify` checksum and the `X-VERIFY` header are foreign calls; the initiation result carries the payload but no checksum.
- `generateUPIIntent` builds a URL with the `URL` API and is never called by the app; it is not part of this model.
- `checkPaymentStatus` and `handlePaymentCallback` each have a `try` whose catch the model does not reach. It is taken only when `localStorage` or `JSON.parse` throws, and those are outside the model.
- The configuration in `src/config/phonepe.js` is a parameter (`GatewayConfig`). The success code is the constant `PAYMENT_SUCCESS`.
- `src/hooks/useLocation.js` (geolocation, the network fetch) is not part of this model. Its detected address is a parameter of `PrefillAddress`.
- Clock readings and `Math.random` are parameters: `Date.now()` ids, ISO dates, toast ids and the random part of a transaction id.
- The `setTimeout` waits (payment delays, toast expiry, the countdown, focus) are explicit events (`Toasts.Expire`, `AuthSheet.Tick`) or, for the payment delays, no-ops.
- Floating point: `Math.round(subtotal * 0.05)` is computed on integers as `(5 * subtotal + 50) div 100`. It is proved equal to the exact rounding of `subtotal / 20` for every integer. Double rounding for subtotals beyond 2^53 is not modelled.
- Locale dates: `toLocaleDateString` is an opaque function `dateKey` from an order to its day label. The order of `Object.entries` is taken to be insertion order, which holds for non-numeric labels.
- Unicode: `toLowerCase`/`toUpperCase` are modelled on ASCII letters only. `trim` and `\s` on the white space characters JavaScript lists, and `\d` on ASCII digits. `value.length` in `handleOtpChange` counts UTF-16 code units (`Text.JsLength`); the other length tests apply to strings of ASCII digits, where code units and characters agree.
- Order and toast ids come from `Date.now()`, and the source does not make them unique. `OrderStore.FreshIdKeepsIdsUnique` and `OrderStore.SameIdShadowsOlder`, and `ToastStore.SameIdDismissedTogether`, state what happens with a fresh and with a repeated id.
- `login(userData)` may spread keys other than name, phone and table number into the preferences; the model's patch has only those three, the ones every caller passes.
- Values the source leaves untyped are typed in the model:
  - a cart line keeps the object that was spread into it (a menu item, or an order item when re-ordering);
  - prices and quantities are integers;
  - the favourites are integer ids.
- The page reload at the end of "Start Fresh" (`window.location.reload()`) is not modelled.
- The call to `setupRecaptcha` is folded into the send outcome `NoRecaptcha`, together with the DOM element lookup and the verifier's expiry callback.
- `handleOtpKeyDown` only moves focus and is not modelled.
- Presentational components are not modelled: `Home.jsx`, `Header.jsx`, `Footer.jsx`, `Logo.jsx`, `CategoryNav.jsx`, `Toast.jsx`, `FloatingCartButton.jsx`, `Cart.jsx`, `MenuItem.jsx` and `SearchModal.jsx`.

## Findings

| source | as written | input that shows it | evidently intended | confidence | as-written member | corrected member |
|---|---|---|---|---|---|---|
| src/pages/Favorites.jsx:13-26 | The page imports `menuItems` from the menu data, which exports only `menuData` and the query functions. A named import the target module does not export is an error when the modules are linked (a build with Rollup or Vite reports a missing export). The page module therefore never loads and the list is never shown. | Any saved favourite, e.g. the favourites `[1]` with catalogue item 1 (Espresso). | Filter `menuData.items`: show the catalogue items whose id is saved, in catalogue order. | not executed | `FavoritesPage.SelectAsWritten`, `FavoritesPage.AsWrittenNeverShows` | `FavoritesPage.FavoriteItems` |
