# E-Shop storefront: a Dafny model of its data layer and pages

This project models the core logic of a Next.js storefront. It covers the
following parts:

- **Mock store** (`lib/api.ts`):
  - two module-level arrays, `mockProducts` and `mockOrders`;
  - the queries over them: `getProducts` (a case-insensitive search
    filter, a category filter, then `page`/`limit` pagination), `getProduct`
    and `getOrders`;
  - the operations that change the arrays in place: `createProduct`,
    `updateProduct`, `deleteProduct`, `createOrder` and `updateOrderStatus`.
- **Auth provider** (`contexts/auth-context.tsx`): the signed-in user, the
  loading flag and the stored bearer token, as changed by the mount effect,
  `login` and `logout`. It also covers `useAuth`.
- **Checkout page**: the redirect away from an empty cart, the form's
  default values, the order built on submit, and what follows a placed
  order.
- **Products page**: the query it runs and its Previous/Next pagination
  state.
- **Admin summary cards**: product count, order count, revenue and distinct
  customers.
- **Admin order table**: the status badge colours, the statuses an admin can
  pick, and the status change.
- **User dashboard**: the order counters and the recent-orders card.

Where the source mutates state, the model does too. `Api.MockStore`,
`AuthContext.AuthProvider` and `ProductsPage.ProductsPageState` are classes
whose methods update their fields. The queries and the page logic are
functions, and lemmas prove the properties the code promises.

Module `Js` models the JavaScript built-ins the code relies on:

- `filter`, `findIndex` and `find`;
- `slice` with negative indices;
- ASCII `toLowerCase` and `includes`;
- `String(number)` and `Math.ceil` of a quotient;
- truthiness and strict equality of strings and numbers.

Module `Wrappers` holds `Option` and `Result`. A thrown `Error` is modelled
as a `Failure` that carries its message.

The network, the clock and the browser are parameters of the model:

- The auth service's answers reach `Login` and `Mount` as `Result` values.
- The ids and timestamps made from `Date.now()` reach `CreateProduct` and
  `CreateOrder` as arguments.
- `localStorage`'s `"token"` item is the field
  `AuthContext.AuthProvider.storedToken`.
- Router navigation is a returned target path or a `Navigate` effect.

## Model

| member | source | states |
|---|---|---|
| Js.Filter | lib/api.ts:129-133 | the result has at most as many elements as the input, holds only input elements that pass the predicate, and holds every input element that passes it; lemmas `Js.FilterIsSubsequence` and `Js.FilterAppend` add that it keeps their order and filters a concatenation part by part |
| Js.Find | lib/api.ts:155 | `undefined` exactly when no element matches; otherwise the element at the first matching index |
| Js.FindIndex | lib/api.ts:171 | -1 exactly when no element matches; otherwise the index of the first match |
| Js.Slice | lib/api.ts:146 | for non-negative indices, `slice` is the run between them clipped to the sequence, empty when the end is not after the start (negative indices count from the end in the body and are left unconstrained by the contract) |
| Js.Lower | lib/api.ts:131-132 | `toLowerCase` keeps the length and lower-cases each character (ASCII letters only) |
| Js.Includes | lib/api.ts:131-132 | `includes` holds exactly when the needle occurs at some position of the text |
| Js.CeilDivBounds | lib/api.ts:149 | `Math.ceil(n / d)` is the least count with `n <= r * d` for a positive `d`, and the mirrored bound holds for a negative `d` |
| Js.IntToString | app/checkout/page.tsx:87 | `String(n)` is non-empty and starts with `-` exactly when `n` is negative |
| Js.IntToStringInjective | app/checkout/page.tsx:87 | distinct numbers give distinct strings |
| Api.OrDefault | lib/api.ts:140-141 | the `or` default of `page` and `limit`: an absent or zero value falls back to the default, and any other value is kept |
| Api.SearchFiltered | lib/api.ts:128-134 | a missing or empty search text filters nothing |
| Api.CategoryFiltered | lib/api.ts:136-138 | a missing or empty category filters nothing |
| Api.Matching | lib/api.ts:126-138 | with neither filter given, every product matches |
| Api.MatchingIsOneFilter | lib/api.ts:126-138 | the search filter followed by the category filter is a single filter by `Selected`, and it keeps store order |
| Api.MatchingMembers | lib/api.ts:126-138 | a product matches exactly when it is in the store and passes both active filters (`Selected`: the lower-cased search text occurs in the lower-cased name or description, as predicate `Api.MatchesSearch`, and the category is equal) |
| Api.SearchIgnoresCase | lib/api.ts:131-132 | searching for a text and for its lower-cased form match the same products |
| Api.PageSliceRun | lib/api.ts:142-146 | for a page at or after the first and a positive limit, the slice is the clipped run from `(page-1)*limit` to `page*limit`, and it holds at most `limit` products |
| Api.Paginate | lib/api.ts:140-150 | the pagination step reports the number of products it was given as `total` and the requested page, or 1, as `page` |
| Api.GetProducts | lib/api.ts:145-150 | `total` is the number of matching products, and `page` is the requested page or 1 |
| Api.PageCountBounds | lib/api.ts:149 | `totalPages` is the least number of pages of size `limit` that hold all matching products |
| Api.PageContents | lib/api.ts:142-146 | a page holds at most `limit` products, namely the clipped run of the matching products at its offset |
| Api.PageHoldsSelectedProducts | lib/api.ts:126-146 | every product on a page is a store product that passes the filters |
| Api.PageNonEmptyIffInRange | lib/api.ts:140-150 | a page at or after the first holds products exactly when it is not past `totalPages` |
| Api.GetProduct | lib/api.ts:153-160 | fails with "Product not found" exactly when no product has that id; otherwise it returns the first product with that id |
| Api.ProductIndex | lib/api.ts:171 | -1 exactly when no product has the id; otherwise the first index that holds it |
| Api.OrderIndex | lib/api.ts:212 | -1 exactly when no order has the id; otherwise the first index that holds it |
| Api.GetOrders | lib/api.ts:191-197 | with a non-empty user id, exactly that user's orders; otherwise every order |
| Api.UserOrdersInStoreOrder | lib/api.ts:191-197 | the returned orders appear in store order |
| Api.GetOrdersWith | lib/api.ts:191-197 | `getOrders` called with an untyped argument returns every order when the argument is absent or falsy |
| Api.GetOrdersWithString | lib/api.ts:191-197 | called with a string, the untyped `getOrders` is the typed one |
| Api.GetOrdersWithNumber | lib/api.ts:193-194 | called with a non-zero number, `getOrders` returns no orders at all |
| Api.Merge | lib/api.ts:175 | every field present in the patch wins, and every absent field keeps the old value |
| Api.MergeLaws | lib/api.ts:175 | an empty patch changes nothing, a full patch replaces the record, and applying the same patch twice equals applying it once |
| Api.CreatedProductIsFound | lib/api.ts:162-167 | a product appended under a fresh id is what `getProduct` finds for that id, and it carries the draft's fields |
| Api.CreateKeepsOtherLookups | lib/api.ts:165 | an append does not change the lookup of any other id |
| Api.CreateKeepsIdsUnique | lib/api.ts:165 | appending a product with a fresh id keeps ids unique |
| Api.UpdatedProductIsFound | lib/api.ts:169-177 | after a merge that keeps the id, `getProduct` returns the merged record |
| Api.DeletedProductIsGone | lib/api.ts:179-187 | when the store's ids are unique, after the removal the id is no longer found, the ids stay unique, the length drops by one, and exactly that record is removed |
| Api.SeedIdsUnique | lib/api.ts:13-54 | the seeded products have distinct ids |
| Api.MockStore.constructor | lib/api.ts:13-75 | the store starts with the four seeded products and the two seeded orders |
| Api.MockStore.CreateProduct | lib/api.ts:162-167 | the draft, with the new id, is appended to the products, and the orders are unchanged |
| Api.MockStore.UpdateProduct | lib/api.ts:169-177 | an unknown id fails with "Product not found" and changes nothing; otherwise only the first match is replaced by the merge, and the merge is returned |
| Api.MockStore.DeleteProduct | lib/api.ts:179-187 | an unknown id fails with "Product not found" and changes nothing; otherwise exactly the first match is spliced out and the result is success |
| Api.MockStore.CreateOrder | lib/api.ts:199-208 | the draft, with the new id and timestamp, is appended to the orders and returned, and the products are unchanged |
| Api.MockStore.UpdateOrderStatus | lib/api.ts:210-218 | an unknown id fails with "Order not found" and changes nothing; otherwise only the first match's status is rewritten, and that order is returned |
| AuthContext.RedirectTarget | contexts/auth-context.tsx:52-56 | admins go to "/admin" and everyone else goes to "/dashboard" |
| AuthContext.UseAuth | contexts/auth-context.tsx:83-89 | outside a provider, it fails with the error message; inside one, it returns the provider's value |
| AuthContext.AuthProvider.constructor | contexts/auth-context.tsx:25-26 | no user yet, still loading, and the browser's stored token |
| AuthContext.AuthProvider.Mount | contexts/auth-context.tsx:29-43 | loading ends. A non-empty token whose verification succeeds sets the user; a failed verification removes the token; with no token nothing else changes |
| AuthContext.AuthProvider.Login | contexts/auth-context.tsx:45-60 | a successful login stores the access token, sets the user and yields the redirect target; a failure is passed on and changes nothing |
| AuthContext.AuthProvider.Logout | contexts/auth-context.tsx:62-66 | the token and the user are both cleared, and the target is "/login" |
| AuthContext.AuthProvider.IsAuthenticated | contexts/auth-context.tsx:75 | true exactly when a user is set |
| AuthContext.AuthProvider.Value | contexts/auth-context.tsx:68-76 | the context value carries the user and the loading flag, and reports authenticated exactly when there is a user |
| Checkout.EmptyCartRedirect | app/checkout/page.tsx:40-44 | an empty cart navigates to "/cart", and a non-empty cart does nothing |
| Checkout.DefaultForm | app/checkout/page.tsx:59-70 | the email field is the user's email when there is a user; every other field is empty |
| Checkout.OrderItems | app/checkout/page.tsx:88-92 | one order item per cart item, in order, with the same product id, quantity and price |
| Checkout.ShippingAddress | app/checkout/page.tsx:95 | the address, ", ", the city, ", ", the state, one space and the zip code, each at its offset, and nothing else |
| Checkout.ShippingAddressFields | app/checkout/page.tsx:95 | for forms whose fields have the same lengths, the joined addresses are equal exactly when every field is |
| Checkout.UserIdString | app/checkout/page.tsx:87 | with no user, the text is "undefined" |
| Checkout.UserIdStringIdentifies | app/checkout/page.tsx:87 | equal order user ids mean equal users, and a signed-in user's id is never "undefined" |
| Checkout.BuildOrder | app/checkout/page.tsx:85-96 | the order is pending and belongs to `String(user?.id)`; it has one item per cart item and the given total; it ships to the joined address |
| Checkout.OrderPlacedEffects | app/checkout/page.tsx:75-82 | three effects: the cart is cleared first, then the "Order placed successfully!" toast, and the shopper is sent to "/dashboard" last |
| Checkout.Submit | app/checkout/page.tsx:85-98 | the built order is appended to the store with the new id and timestamp, the products are unchanged, and the success effects follow |
| ProductsPage.QueryFor | app/products/page.tsx:22-25 | the query carries the search text, category and page, with a page size of 12 |
| ProductsPage.ListedProducts | app/products/page.tsx:22-25 | at most 12 products are listed, all of them matching; a page up to the last one is never empty |
| ProductsPage.ProductsPageState.constructor | app/products/page.tsx:17-19 | empty search, empty category, page 1 |
| ProductsPage.ProductsPageState.SetSearch | app/products/page.tsx:51 | only the search text changes |
| ProductsPage.ProductsPageState.SetCategory | app/products/page.tsx:40 | only the category changes |
| ProductsPage.ProductsPageState.HandleSearch | app/products/page.tsx:27-30 | submitting the search returns to page 1 and keeps the search and the category |
| ProductsPage.ProductsPageState.PreviousDisabled | app/products/page.tsx:109 | disabled exactly on page 1 |
| ProductsPage.ProductsPageState.NextDisabled | app/products/page.tsx:115 | disabled exactly on the last page |
| ProductsPage.ProductsPageState.ClickPrevious | app/products/page.tsx:107-111 | shown only when the data has more than one page (`ProductsPage.PaginationVisible`); page 1 stays; any other page steps back, never below 1; a page within range stays within range |
| ProductsPage.ProductsPageState.ClickNext | app/products/page.tsx:107-117 | shown only when the data has more than one page; the last page stays; any other page steps forward; from a page up to the last, it never goes past the last, and from a page already past the last (the search or category changed while the page was kept) it keeps counting up |
| ProductsPage.StateListsMatchingProducts | app/products/page.tsx:17-25 | in every state the page can reach, its query returns the current page with at most twelve matching products, non-empty exactly up to the last page |
| AdminStats.RevenueAppend | components/admin/admin-stats.tsx:19 | the revenue (`AdminStats.Revenue`, the left fold of the totals from 0) of two runs of orders is the sum of their revenues |
| AdminStats.RevenueCoversEachOrder | components/admin/admin-stats.tsx:19 | when no total is negative, revenue is at least every single order's total |
| AdminStats.RevenueNonNegative | components/admin/admin-stats.tsx:19 | when no total is negative, revenue is not negative |
| AdminStats.RevenueIgnoresStatus | components/admin/admin-stats.tsx:19 | a status change leaves revenue unchanged |
| AdminStats.TotalProducts | components/admin/admin-stats.tsx:20 | the product query's `total`, or 0 before data has arrived |
| AdminStats.CustomerIds | components/admin/admin-stats.tsx:22 | exactly the user ids that occur among the orders |
| AdminStats.CustomersBounded | components/admin/admin-stats.tsx:22 | the customer count (`AdminStats.TotalCustomers`, the size of the set of user ids) is never more than the orders, and at least one when there is any order |
| AdminStats.Cards | components/admin/admin-stats.tsx:14-22 | the products card is the product query's total; orders, revenue and customers are the count, revenue and distinct user ids of the fetched orders, with customers between 1 and the order count when there are orders; before the orders arrive the three order cards are zero |
| AdminStats.ProductsCardCountsStore | components/admin/admin-stats.tsx:9-20 | the products card counts every product in the store |
| OrderManagement.StatusColor | components/admin/order-management.tsx:38-51 | each of the four statuses maps to its own badge classes, and any other status maps to gray |
| OrderManagement.ColorsOfSelectableStatuses | components/admin/order-management.tsx:97-100 | a status gets a non-gray badge exactly when an admin can select it, and the four selectable statuses get four different colours |
| OrderManagement.HandleStatusChange | components/admin/order-management.tsx:53-55 | the mutation receives the order id and the new status unchanged |
| OrderManagement.ChangeStatus | components/admin/order-management.tsx:19-20 | a known id succeeds with the updated order, whose status is the new status, and nothing else in the store changes; an unknown id fails with "Order not found" and changes nothing |
| DashboardStats.QueriedOrders | components/dashboard/dashboard-stats.tsx:12-16 | the list is empty with no user or no data; otherwise it is the fetched data |
| DashboardStats.CountStatus | components/dashboard/dashboard-stats.tsx:27 | the number of orders with a status is at most the number of orders, and zero exactly when no order has it |
| DashboardStats.DashboardCounts | components/dashboard/dashboard-stats.tsx:18-43 | the total is the number of orders, and each counter is the number of orders with exactly that status |
| DashboardStats.CountsBounded | components/dashboard/dashboard-stats.tsx:27-39 | pending, shipped and delivered together never exceed the total |
| DashboardStats.NoUserNoCounts | components/dashboard/dashboard-stats.tsx:12-16 | with no user, every counter is zero |
| DashboardStats.StatusWriteCount | components/dashboard/dashboard-stats.tsx:27-39 | setting one order to a status adds one to that status's count, unless the order already had that status |
| DashboardStats.FetchedAsWritten | components/dashboard/dashboard-stats.tsx:14 | the query as written returns data exactly when there is a user |
| DashboardStats.SignedInUserSeesNoOrders | components/dashboard/dashboard-stats.tsx:14 | as written, a user with a non-zero id is shown no orders; seeded user 2 owns both seeded orders and still sees zero |
| DashboardStats.ZeroIdSeesEveryOrder | components/dashboard/dashboard-stats.tsx:14 | as written, a user with id 0 makes the argument falsy and is shown every order in the store |
| DashboardStats.Fetched | components/dashboard/dashboard-stats.tsx:14 | the corrected query returns data exactly when there is a user |
| DashboardStats.UserSeesOwnOrders | components/dashboard/dashboard-stats.tsx:14 | corrected, a user is shown exactly the orders placed under their `String(id)`, in store order |
| DashboardStats.OthersOrdersHidden | components/dashboard/dashboard-stats.tsx:14 | corrected, an order checked out by a different user never appears |
| RecentOrders.Recent | components/dashboard/recent-orders.tsx:21 | at most five orders, forming a prefix of the list; all orders when there are at most five, and exactly five otherwise |
| RecentOrders.CardView | components/dashboard/recent-orders.tsx:55-63 | loading shows the skeleton; otherwise "No orders yet" shows exactly when there are no orders, and a non-empty list shows the first five orders as rows |
| RecentOrders.ShownBadges | components/dashboard/recent-orders.tsx:31-44 | every order the card shows gets a gray badge exactly when its status is not one of the four an admin can select |
| RecentOrders.CardForSignedInUser | components/dashboard/recent-orders.tsx:15-21 | as written, a user with a non-zero id always sees "No orders yet"; corrected, the card lists the first five of their own orders |

## Left out

- Network calls: the calls to the auth service (`login`, `verifyToken`) and
  the 500–1000 ms `delay` of every mock call are not modelled. Their
  outcomes are parameters, and the mock store answers immediately.
- Clock values: `Date.now().toString()` ids and `new Date().toISOString()`
  timestamps are arguments. The operations do not demand fresh ids; the
  lookup lemmas that need a fresh id state it as a precondition.
- Api.MockStore: the array that `getOrders()` returns is the store's own
  array, not a copy, and `updateOrderStatus` writes into an order object
  that callers may still hold. The model uses values, so this aliasing is
  not captured.
- Api.Merge: a patch key that is present but holds `undefined` would
  overwrite the field with `undefined`. The model only has absent keys and
  keys with values.
- Api.ProductQuery: pages and limits are integers. Fractional values and
  `NaN` are not modelled.
- Js.Lower: case mapping covers only ASCII `A`–`Z`. Other characters are
  left as they are.
- Js.IntToString: prints every decimal digit of an unbounded integer.
  JavaScript switches to exponent form for magnitudes of 1e21 and more, and
  numbers above 2^53 are not exact. Those ids are not modelled.
- AdminStats.Revenue: sums exact integer totals. The checkout stores the
  floating-point `totalPrice * 1.18`, and summing floats rounds and is not
  associative. `AdminStats.RevenueAppend` therefore holds for the model's
  integers, not for the page's floats.
- Checkout.BuildOrder: the order total is a parameter standing for
  `totalPrice * 1.18`, because the floating-point GST and the cart's
  `totalPrice` are not modelled. The cart context is not part of this
  model. The first-name, last-name, email, card-number, expiry and CVV fields
  are carried but never read, as on the page.
- Checkout.OrderPlacedEffects / Checkout.EmptyCartRedirect: the model keeps
  the two apart. On the page, `clearCart()` empties the items, and the
  empty-cart effect can then run again and push "/cart" after
  "/dashboard". That depends on when the framework re-runs effects, and the
  model does not capture it.
- `Intl.NumberFormat` price formatting, `toLocaleDateString`, the toasts'
  rendering and every piece of JSX layout are presentational and are left
  out.
- React Query's caching, `enabled`-driven refetching and
  `invalidateQueries` are left out. A query's data is passed in as an
  `Option`, which is `None` until it arrives.
- AuthContext.AuthProvider.Mount: the verification is taken as already
  settled. A `login` that completes while the mount's verification is still
  pending, interleaving the two, is not modelled.
- The category filter of the products page is modelled with string
  categories. The filter sidebar's numeric category ids are not modelled.
- The dashboard and recent-orders cards do not model their loading
  skeletons, beyond `RecentOrders.CardView`'s loading case.

## Findings

| source | as written | input that shows it | evidently intended | confidence | as-written member | corrected member |
|---|---|---|---|---|---|---|
| components/dashboard/dashboard-stats.tsx:14 | `getOrders(user?.id)` passes the user's numeric id. `getOrders` then filters the stored string `userId`s with `===`, which never holds between a string and a number. The recent-orders card repeats the call at components/dashboard/recent-orders.tsx:17. | The signed-in user with id 2 owns both seeded orders ("2"), yet the dashboard shows 0 orders and "No orders yet". A user with id 0 is shown every order instead. | Pass `String(user.id)`, the conversion the checkout uses for `userId`, so that users see their own orders. | high; not executed | DashboardStats.SignedInUserSeesNoOrders | DashboardStats.UserSeesOwnOrders |
