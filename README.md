# Goeat storefront client — verified model

A Dafny model of the decision and state logic of the Goeat React storefront: the cart,
wishlist and session stores, the login and sign-up handlers, the three route guards,
checkout, the order history, the shop's catalogue filter, the admin tables for products,
users and orders, and the home-page carousel.

Every remote call is a parameter of the operation that makes it. Calls through the axios
client end as `Reply<T>` (`Ok(body)`, `Fail`, or `Unauthorized` for a 401). Calls through
`fetch` end as `FetchOutcome`: `Resolved(ok)` on every HTTP status, `Rejected` on a network
error. The cart and wishlist stores return the requests they send and how many
`userLogout` events they dispatched. `ProductAdmin`'s remote handlers return the requests
they send, and `Checkout.PlaceOrder` returns the order it POSTs. The other handlers return
whether a request was made, or only its result or the message shown. The session store's
queries become filters over its account list `users`. Each store applies its own listener to its own events,
and `Storefront` delivers the events to the other store. `localStorage` is a
`map<string, string>`. `JSON.stringify`/`JSON.parse` form a `Json` value whose round trip
is the predicate `RoundTrips`. `String.prototype.toLowerCase` is a function parameter, and
so is `localeCompare`, read as a collation key. Prices are `nat` minor units and dates are
`int` timestamps. Pages hold five rows, following `Array.prototype.slice`.

Modules, one per source file, plus shared ones:
- `Wrappers`, `Text`, `Seqs`, `Sorting`, `Paging`, `Accounts` and `Catalog` are shared.
- `CartContext`, `WishlistContext` and `AuthContext` model the stores, as classes `Cart`, `Wishlist` and `Session`.
- `LoginPage`, `SignupPage`, `RouteGuards`, `Checkout`, `OrdersPage` and `Shop` model the pages and guards.
- `ManageProducts`, `ManageUsers` and `ManageOrders` model the admin pages.
- `Slide` models the carousel; `Storefront` models the wiring between the stores.

The session store does not listen to `userLogout`. A 401 from the cart or wishlist
endpoints therefore empties both stores but leaves the user logged in
(`Storefront.AddToCartRouted`).

## Model

| member | source | states |
|---|---|---|
| Sorting.SortBy | src/pages/Shop.jsx:48-63 | the numeric-comparator `sort` of the shop's four modes and of both order tables; the result is a permutation of its input (its order is stated by SortByCorrect) |
| Sorting.SortByCorrect | src/pages/Shop.jsx:48-63 | the numeric-comparator sort returns a permutation of its input, ordered by the key in the requested direction |
| Paging.JsSlice | src/pages/admin/ManageProducts.jsx:102-105 | `Array.prototype.slice`, with negative indices counted from the end and both clamped to the list; never longer than the list (pages: PageContents, PageBeyondLastEmpty) |
| Paging.TotalPages | src/pages/admin/ManageProducts.jsx:101 | `Math.ceil(n / 5)`: the smallest page count whose pages hold all n rows |
| Paging.PageContents | src/pages/admin/ManageProducts.jsx:102-105 | a page in 1..totalPages is non-empty, shows rows (p-1)·5 onward in order, and is full unless it is the last |
| Paging.PageAtMostFive | src/pages/admin/ManageProducts.jsx:102-105 | whatever the page number, the slice holds at most five rows |
| Paging.RowOnItsPage | src/pages/admin/ManageUsers.jsx:82-85 | row i is on page i/5+1 at position i%5, so the pages cover the list |
| Paging.PageBeyondLastEmpty | src/pages/admin/ManageUsers.jsx:82-85 | a page past the last is empty |
| Accounts.LandingPage | src/LoginRedirect.jsx:12-16 | the landing path is "/admin" exactly for the admin role, "/" otherwise |
| CartContext.IsLineFor | src/context/CartContext.jsx:44-48 | a line is for a product when its nested product has that id or its bare product field is that id (LineForOneProduct: never for two products) |
| CartContext.FindProduct | src/context/CartContext.jsx:44-48 | the first line for the product, or none when no line is for it; it picks POST or PATCH in `AddToCart` |
| CartContext.WithQuantity | src/context/CartContext.jsx:58-62 | the lines with that id take the new quantity; what stays is stated by IncrementOnlyTarget and QuantityKeepsLines |
| CartContext.AppendNewLine | src/context/CartContext.jsx:51-53 | appending the server's line for a product with no line makes it that product's only line and leaves other products' lines alone |
| CartContext.AddKeepsOneLinePerProduct | src/context/CartContext.jsx:44-63 | both branches of add keep at most one line per product |
| CartContext.QuantityKeepsLines | src/context/CartContext.jsx:98-100 | a quantity change never changes how many lines a product has |
| CartContext.IncrementOnlyTarget | src/context/CartContext.jsx:58-62 | a quantity update keeps the length, changes nothing of the target line but its quantity, and leaves every other line untouched |
| CartContext.RemoveDropsExactly | src/context/CartContext.jsx:82 | removal keeps exactly the lines with another id, and removing an absent id changes nothing |
| CartContext.LineForOneProduct | src/context/CartContext.jsx:44-48 | a line, in either shape, is for one product only |
| CartContext.Cart.Fetch | src/context/CartContext.jsx:17-33 | with no user the cart empties without a request; otherwise it becomes the server's list, or empty on failure, and a 401 dispatches one logout event |
| CartContext.Cart.AddToCart | src/context/CartContext.jsx:38-74 | no user: no request, no change; a new product is POSTed with quantity 1 and the server's line appended; an existing line is PATCHed to quantity+1; failures change nothing, but a 401 dispatches the event and empties the cart |
| CartContext.Cart.RemoveFromCart | src/context/CartContext.jsx:79-88 | DELETE, then the lines with that id are dropped only on success |
| CartContext.Cart.UpdateQuantity | src/context/CartContext.jsx:93-105 | a quantity below 1 becomes a removal, so no PATCH carries a quantity below 1 and positive quantities stay positive |
| CartContext.Cart.IncreaseQty | src/context/CartContext.jsx:107-110 | an unknown id does nothing; otherwise the line's quantity + 1 is requested |
| CartContext.Cart.DecreaseQty | src/context/CartContext.jsx:112-115 | an unknown id does nothing; otherwise quantity − 1, which removes a line of quantity 1 |
| CartContext.Cart.ClearCart | src/context/CartContext.jsx:120-129 | the cart ends empty whether the backend delete succeeds or fails |
| CartContext.Cart.HandleLogout | src/context/CartContext.jsx:134-140 | the logout listener empties the cart |
| WishlistContext.Matches | src/context/WishlistContext.jsx:45-50 | an entry matches a product through its nested product's id, its `product_details` id, or its bare product id |
| WishlistContext.WithoutProduct | src/context/WishlistContext.jsx:59-67 | the optimistic removal keeps exactly the entries that match the product under none of the three shapes (TogglePresentRemoves) |
| WishlistContext.Toggled | src/context/WishlistContext.jsx:45-67 | the list after the optimistic step: the matching entries removed for a member, the optimistic entry appended otherwise (ToggleAbsentAdds, TogglePresentRemoves, ToggleTwice, ToggleKeepsOthers) |
| WishlistContext.Fetched | src/context/WishlistContext.jsx:24-32 | the list a GET leaves: `res.data || []` on success, [] in the catch |
| WishlistContext.OptimisticMatches | src/context/WishlistContext.jsx:55 | the optimistically added entry matches its product |
| WishlistContext.ToggleAbsentAdds | src/context/WishlistContext.jsx:53-57 | toggling an absent product appends one entry and makes it a member |
| WishlistContext.TogglePresentRemoves | src/context/WishlistContext.jsx:58-67 | toggling a present product removes every matching entry, keeps all others, and ends its membership |
| WishlistContext.ToggleTwice | src/context/WishlistContext.jsx:45-67 | toggling twice restores membership, and restores the exact list when the product was absent |
| WishlistContext.ToggleKeepsOthers | src/context/WishlistContext.jsx:45-67 | toggling one product leaves the membership of any product no entry shares with it unchanged |
| WishlistContext.Wishlist.Fetch | src/context/WishlistContext.jsx:17-33 | no user: empty, no request; otherwise the server's list or empty, with a logout event on a 401 |
| WishlistContext.Wishlist.Toggle | src/context/WishlistContext.jsx:38-81 | the optimistic step plus POST or DELETE; on failure, one logout event per 401 and the list becomes the re-fetched one |
| WishlistContext.Wishlist.RemoveFromWishlist | src/context/WishlistContext.jsx:86-102 | the matching entries are dropped only after a successful DELETE |
| WishlistContext.Wishlist.HandleLogout | src/context/WishlistContext.jsx:107-111 | the logout listener empties the wishlist |
| AuthContext.Restore | src/context/AuthContext.jsx:10-24 | a session is restored only when both keys are set and the user parses; an unparsable user removes both keys |
| AuthContext.RestoreAfterLogin | src/context/AuthContext.jsx:41-46 | what login persists restores the same user and role, unless the role is the empty string |
| AuthContext.RegisterKeepsEmailsUnique | src/context/AuthContext.jsx:78-92 | adding an account whose email is not taken keeps emails unique |
| AuthContext.Session.constructor | src/context/AuthContext.jsx:6-24 | a new store starts from the restore effect |
| AuthContext.LoginOutcome | src/context/AuthContext.jsx:26-56 | login succeeds exactly when the request goes through and the first matching account is not blocked, with that account's role; each refusal has its own message |
| AuthContext.RegisterOutcome | src/context/AuthContext.jsx:70-104 | registering succeeds exactly when the duplicate query went through, the email is free and the POST returned 2xx; every error carries a message |
| AuthContext.Session.Login | src/context/AuthContext.jsx:26-56 | request failure, no match and a blocked match each refuse with their message and change nothing; otherwise the first match becomes the session and both keys are written; the result is `LoginOutcome` |
| AuthContext.Session.Logout | src/context/AuthContext.jsx:58-68 | the session and both keys are cleared and one logout event is dispatched |
| AuthContext.Session.Register | src/context/AuthContext.jsx:70-104 | a duplicate email or any failure creates nothing and returns its error; a 2xx POST adds one "user" account that is not blocked; emails stay unique; the result is `RegisterOutcome` |
| AuthContext.Session.UpdateUser | src/context/AuthContext.jsx:106-109 | the session user and its stored copy are replaced; the role is kept |
| RouteGuards.PrivateRoute | src/PrivateRoute.jsx:4-14 | children exactly for a user whose role is allowed (or when no roles are given); no user goes to /login, a wrong role to / |
| RouteGuards.ProtectAdminRoute | src/ProtectAdminRoute.jsx:4-12 | children exactly for an admin; everyone else is replaced by /login |
| RouteGuards.ProtectAdminRouteReadsOnlyRole | src/ProtectAdminRoute.jsx:7 | the admin guard depends only on whether there is a user and what its role is |
| RouteGuards.AdminGuardsAgree | src/PrivateRoute.jsx:9-11 | the two guards admit the same users to admin pages and differ only in where a non-admin is sent |
| RouteGuards.LoginRedirect | src/LoginRedirect.jsx:10-18 | a logged-in user is sent to /admin or / by role; no user, no navigation |
| LoginPage.Respond | src/pages/Login.jsx:131-145 | the handler's branches on success, error message, `user.is_active` and role, with the generic error when reading `user` throws |
| LoginPage.LoginNeverNavigates | src/pages/Login.jsx:129-145 | against the real `login`, a refusal always shows the default message and a success always ends in the generic error, never navigating |
| LoginPage.RespondIntended | src/pages/Login.jsx:131-142 | corrected handler: navigates exactly on success, to the role's landing page, and shows the refusal's message |
| LoginPage.IntendedShowsLoginMessages | src/context/AuthContext.jsx:38-54 | the corrected handler shows each of login's three refusal messages |
| LoginPage.LoginForm.HandleLogin | src/pages/Login.jsx:118-149 | blank fields (after trimming) stop before login; otherwise login's result is `LoginOutcome` for the submitted credentials, a success sets the first matching account as the session, and loading rises and falls around it; the handler never navigates |
| SignupPage.Validate | src/pages/Signup.jsx:20-23 | the error is set exactly when a field is empty, without trimming |
| SignupPage.WhitespaceOnlyPasses | src/pages/Signup.jsx:20 | whitespace-only fields pass the guard |
| SignupPage.SignupForm.HandleChange | src/pages/Signup.jsx:12-14 | one field of the form changes |
| SignupPage.SignupForm.HandleSubmit | src/pages/Signup.jsx:16-31 | a failed guard never calls register; otherwise register's result is `RegisterOutcome` for the submitted email; a register error is shown; anything else goes to /login; the session is untouched |
| Checkout.TotalAmount | src/pages/Checkout.jsx:26-29 | the `reduce` of price × quantity over the cart lines (additive: TotalAmountConcat; non-negative: TotalAmountNonNegative) |
| Checkout.TotalAmountConcat | src/pages/Checkout.jsx:26-29 | the total of price × quantity is additive over concatenation |
| Checkout.TotalAmountNonNegative | src/pages/Checkout.jsx:26-29 | with positive quantities the total is never negative |
| Checkout.Decide | src/pages/Checkout.jsx:31-63 | the guards in order (user id, six required address fields, non-empty cart), each an if-and-only-if; the order carries the cart, its total, "Processing" and the user's id, email and address |
| Checkout.PlaceOrder | src/pages/Checkout.jsx:31-79 | only a passed guard chain POSTs; a resolved POST clears the cart and opens /orders; a rejected one keeps the cart |
| OrdersPage.NewestFirst | src/pages/Orders.jsx:202-204 | the sort by `created_at`, newest first (NewestFirstCorrect) |
| OrdersPage.NewestFirstCorrect | src/pages/Orders.jsx:202-204 | the history is a permutation of the fetched orders, newest first |
| OrdersPage.OrderHistory.Load | src/pages/Orders.jsx:185-219 | no user: empty list, no request; an array body replaces the list sorted newest first; anything else keeps it; loading always ends |
| Shop.CategoryLabel | src/pages/Shop.jsx:35 | a product's label in the category list: its `category_name`, or "Uncategorized" when there is none (UncategorizedShowsNoMissing shows the filter does not use it) |
| Shop.Distinct | src/pages/Shop.jsx:35 | `[...new Set(s)]`: the same values as `s` (first-seen order and no duplicates: DistinctFirstSeenOrder) |
| Shop.FirstIndex | src/pages/Shop.jsx:35 | the first position of a value in the list |
| Shop.DistinctFirstSeenOrder | src/pages/Shop.jsx:35 | the de-duplicated labels contain no value twice and keep first-seen order |
| Shop.CategoriesCorrect | src/pages/Shop.jsx:34-37 | "All" first, then every product's label exactly once and nothing else |
| Shop.Shown | src/pages/Shop.jsx:41-45 | the three filter tests: the lower-cased name contains the lower-cased search, the category is "All" or the product's own, and the price is at most the maximum |
| Shop.Filtered | src/pages/Shop.jsx:41-46 | the products passing `Shown`, in catalogue order |
| Shop.UncategorizedShowsNoMissing | src/pages/Shop.jsx:43 | choosing "Uncategorized" shows only products whose category really is that string |
| Shop.EmptySearchKeepsAllInPrice | src/pages/Shop.jsx:41-46 | an empty search under "All" shows every product within the price limit |
| Shop.ModeOf | src/pages/Shop.jsx:48-63 | the `sort` value's case of the switch; any other value is the default case |
| Shop.Arrange | src/pages/Shop.jsx:48-64 | the switch: sort by price or collation key in the mode's direction, or keep the order (ArrangePermutes, PriceModesOrder, NameModesOrder) |
| Shop.Visible | src/pages/Shop.jsx:40-65 | `filtered`: the filtered products arranged by the sort mode (VisibleShown) |
| Shop.ArrangePermutes | src/pages/Shop.jsx:48-64 | every sort mode shows exactly its input; the default keeps the order |
| Shop.VisibleShown | src/pages/Shop.jsx:40-65 | the page shows exactly the products that pass the search, category and price filter, in every sort mode |
| Shop.PriceModesOrder | src/pages/Shop.jsx:49-54 | the two price modes order by price ascending and descending |
| Shop.NameModesOrder | src/pages/Shop.jsx:55-60 | the two name modes order by the name's collation key ascending and descending |
| Shop.LovedAsWritten | src/pages/Shop.jsx:186 | the badge as written, `w.product.id === product.id` over the entries: an entry holding a bare id never matches, and an entry with no `product` throws (None) |
| Shop.LovedMissesOptimisticEntry | src/pages/Shop.jsx:186 | as written, the badge stays off for a product just added by the toggle, although it is a member |
| Shop.Loved | src/pages/Shop.jsx:186 | corrected badge: lit exactly when some entry matches the product |
| Shop.LovedFollowsToggle | src/pages/Shop.jsx:186 | the corrected badge flips with every toggle |
| Shop.LovedAsWrittenImpliesLoved | src/pages/Shop.jsx:186 | wherever the written badge lights, the corrected one does too |
| ManageProducts.IsDuplicate | src/pages/admin/ManageProducts.jsx:54-57 | a duplicate is any row, soft-deleted or not, with the same name and category |
| ManageProducts.Listed | src/pages/admin/ManageProducts.jsx:100 | `filteredProducts`: the rows whose `active` is not `false`, missing flags included |
| ManageProducts.SoftDeleted | src/pages/admin/ManageProducts.jsx:87-91 | the soft delete sets `active: false` on the rows of that id and changes nothing else |
| ManageProducts.SoftDeleteHidesButBlocks | src/pages/admin/ManageProducts.jsx:54-100 | a soft-deleted product leaves the table but still blocks re-adding it; the other products stay listed |
| ManageProducts.PagerShown | src/pages/admin/ManageProducts.jsx:159 | the pager exists only for more than one page |
| ManageProducts.PrevEnabled | src/pages/admin/ManageProducts.jsx:162 | Previous is disabled exactly on page 1 |
| ManageProducts.NextEnabled | src/pages/admin/ManageProducts.jsx:172 | Next is disabled exactly on the last page |
| ManageProducts.PagerStaysInRange | src/pages/admin/ManageProducts.jsx:159-178 | from a page in range, Previous and Next only lead to pages in range |
| ManageProducts.PageStrandedAfterDelete | src/pages/admin/ManageProducts.jsx:99-105 | as written, with six products on page 2, soft-deleting the sixth leaves page 2 empty with the pager gone |
| ManageProducts.ClampedPage | src/pages/admin/ManageProducts.jsx:99-105 | corrected page choice: an existing page, unchanged while the current one exists |
| ManageProducts.ClampedPageNeverEmpty | src/pages/admin/ManageProducts.jsx:102-105 | with the clamped page, the table shows one to five rows while any product is listed |
| ManageProducts.ProductAdmin.Paginated | src/pages/admin/ManageProducts.jsx:100-105 | the page holds at most five rows, all of them listed products |
| ManageProducts.ProductAdmin.FetchProducts | src/pages/admin/ManageProducts.jsx:24-32 | the fetched list replaces the products; a failure keeps them |
| ManageProducts.ProductAdmin.HandleInputChange | src/pages/admin/ManageProducts.jsx:34-37 | one form field changes |
| ManageProducts.ProductAdmin.OpenAdd | src/pages/admin/ManageProducts.jsx:111-119 | the modal opens out of edit mode and the form is kept |
| ManageProducts.ProductAdmin.HandleEdit | src/pages/admin/ManageProducts.jsx:77-81 | the form takes the whole row and the modal opens in edit mode |
| ManageProducts.ProductAdmin.CloseModal | src/pages/admin/ManageProducts.jsx:250-255 | Cancel closes the modal |
| ManageProducts.ProductAdmin.HandleAddOrUpdate | src/pages/admin/ManageProducts.jsx:39-75 | a missing field or a duplicate addition sends nothing and changes nothing; an edit is PUT to its id, an addition POSTed with `active: true`; a resolved call empties the form, closes the modal, leaves edit mode and re-fetches |
| ManageProducts.ProductAdmin.HandleDelete | src/pages/admin/ManageProducts.jsx:83-97 | nothing without confirmation; otherwise only `active: false` is PATCHed, then the list is re-fetched |
| ManageProducts.ProductAdmin.PrevPage | src/pages/admin/ManageProducts.jsx:159-167 | the button exists only while there is more than one page: then it moves back one page unless on page 1, staying in range; otherwise the page is unchanged |
| ManageProducts.ProductAdmin.NextPage | src/pages/admin/ManageProducts.jsx:159-177 | the button exists only while there is more than one page: then it moves on one page unless on the last, staying in range; otherwise the page is unchanged |
| ManageUsers.RowOf | src/pages/admin/ManageUsers.jsx:26-50 | the stats are the lookups' lengths and the sum of order totals, or all zeros when a lookup failed |
| ManageUsers.WithStats | src/pages/admin/ManageUsers.jsx:22-55 | the table's rows: admins mapped to `null` and dropped, every other user's row built from its lookup (WithStatsRows, WithStatsKeepsOrder) |
| ManageUsers.WithStatsRows | src/pages/admin/ManageUsers.jsx:22-54 | no admin has a row; every other user has the row built from its own lookup |
| ManageUsers.WithStatsKeepsOrder | src/pages/admin/ManageUsers.jsx:22-54 | the rows' users are the non-admin users in the server's order |
| ManageUsers.NoAdminsAllListed | src/pages/admin/ManageUsers.jsx:24 | only admins are left out |
| ManageUsers.WithBlocked | src/pages/admin/ManageUsers.jsx:70-74 | the rows of that user id take the new blocked flag (WithBlockedOnlyTarget) |
| ManageUsers.WithBlockedOnlyTarget | src/pages/admin/ManageUsers.jsx:70-74 | only rows of that id change, and in them only `isBlocked` |
| ManageUsers.PageButtons | src/pages/admin/ManageUsers.jsx:164-178 | buttons 1..ceil(n/5), or none for a single page |
| ManageUsers.PageButtonsCoverRows | src/pages/admin/ManageUsers.jsx:164-178 | every button opens a non-empty page and every row is on some button's page |
| ManageUsers.UsersAdmin.FetchUsers | src/pages/admin/ManageUsers.jsx:16-62 | on success the rows replace the list; a failure keeps it and shows its message; loading ends |
| ManageUsers.UsersAdmin.ToggleUserBlock | src/pages/admin/ManageUsers.jsx:64-80 | after a successful PATCH that user's flag becomes the negated status; otherwise nothing changes |
| ManageUsers.UsersAdmin.HandlePageChange | src/pages/admin/ManageUsers.jsx:87 | the current page becomes the clicked one |
| ManageOrders.NewestFirst | src/pages/admin/ManageOrders.jsx:19 | the sort by `date`, newest first (NewestFirstCorrect) |
| ManageOrders.NewestFirstCorrect | src/pages/admin/ManageOrders.jsx:19 | the table is a permutation of the fetched orders, newest first |
| ManageOrders.WithStatus | src/pages/admin/ManageOrders.jsx:35-39 | the orders of that id take the new status (StatusUpdateOnlyTarget) |
| ManageOrders.WithoutOrder | src/pages/admin/ManageOrders.jsx:55 | the orders whose id differs (DeleteRemovesExactly) |
| ManageOrders.StatusUpdateOnlyTarget | src/pages/admin/ManageOrders.jsx:35-39 | only the status of orders with that id changes |
| ManageOrders.DeleteRemovesExactly | src/pages/admin/ManageOrders.jsx:55 | deleting keeps exactly the orders with another id |
| ManageOrders.StatusColor | src/pages/admin/ManageOrders.jsx:63-76 | `getStatusColor`: one badge colour per known status, a grey default otherwise (StatusColorsDistinct) |
| ManageOrders.StatusColorsDistinct | src/pages/admin/ManageOrders.jsx:63-76 | the four known statuses get four distinct non-default colours; any other status gets the default |
| ManageOrders.TotalItems | src/pages/admin/ManageOrders.jsx:202 | "Total Items": the `reduce` of the lines' quantities (TotalItemsAtLeastLines) |
| ManageOrders.TotalItemsAtLeastLines | src/pages/admin/ManageOrders.jsx:202 | with positive quantities, the "Total Items" an order shows (`TotalItems`) is at least its number of lines |
| ManageOrders.OrdersAdmin.FetchOrders | src/pages/admin/ManageOrders.jsx:14-27 | the fetched orders, newest first, or the old table on failure; loading ends |
| ManageOrders.OrdersAdmin.UpdateOrderStatus | src/pages/admin/ManageOrders.jsx:29-46 | the status changes only after a successful PATCH |
| ManageOrders.OrdersAdmin.DeleteOrder | src/pages/admin/ManageOrders.jsx:48-61 | no request without confirmation; the order leaves only after a successful DELETE |
| Slide.NextIndex | src/components/Slide.jsx:118 | the next index is in range and wraps from the last to 0 |
| Slide.PrevIndex | src/components/Slide.jsx:108 | the previous index is in range and wraps from 0 to the last |
| Slide.PrevUndoesNext | src/components/Slide.jsx:107-124 | prev after next, and next after prev, return to the same index |
| Slide.Advance | src/components/Slide.jsx:13-16 | the index after k interval ticks, always in range (AdvanceIsModular) |
| Slide.AdvanceIsModular | src/components/Slide.jsx:13-16 | k ticks move the index forward by k modulo the image count |
| Slide.FullCycleReturns | src/components/Slide.jsx:13-16 | three ticks return to the start |
| Slide.ActiveFlags | src/components/Slide.jsx:23-30 | a slide is active exactly when its index is the current one |
| Slide.ExactlyOneActive | src/components/Slide.jsx:92-100 | with the index in range, exactly one slide and indicator is active |
| Slide.Carousel.Tick | src/components/Slide.jsx:14-16 | the interval advances the index, which stays in range |
| Slide.Carousel.Next | src/components/Slide.jsx:117-118 | the right arrow advances the index, which stays in range |
| Slide.Carousel.Prev | src/components/Slide.jsx:107-108 | the left arrow moves the index back, which stays in range |
| Slide.Carousel.Jump | src/components/Slide.jsx:92-95 | an indicator sets the index to its own |
| Storefront.Broadcast | src/context/CartContext.jsx:134-140 | a dispatched logout event empties both the cart and the wishlist |
| Storefront.SignOut | src/context/AuthContext.jsx:58-68 | logging out clears the session and its keys, keeps the account list, and empties both stores |
| Storefront.AddRejected | src/context/CartContext.jsx:44-70 | whether the one request add sends comes back 401: the POST for a product without a line, the PATCH for one with a line |
| Storefront.AddToCartRouted | src/context/CartContext.jsx:44-70 | a 401 on the one request add sends (POST for a new product, PATCH for an existing line) empties both stores but leaves the session logged in; any other outcome leaves the wishlist unchanged |
| Storefront.LoginThroughRedirect | src/LoginRedirect.jsx:10-18 | after a successful login the wrapping redirect sends the user to the role's landing page, although the handler shows the generic error and navigates nowhere |
| Storefront.AddSameProductTwice | src/context/CartContext.jsx:44-63 | adding a product twice to an empty cart gives one line of quantity 2 whose amount is twice the price |

## Left out

- Network I/O, `await` interleavings and React's batching of state updates. Each handler runs to completion with given outcomes; two handlers never overlap.
- Toasts, apart from the messages some handlers return, and all markup and styling.
- Sorting.SortBy: stability is not proved. Equal keys keep their input order in the insertion sort, as in `Array.prototype.sort`, but no lemma states it.
- Query strings come from unescaped user input (`users?email=…&password=…`). The model reads them as exact-match filters, so it does not capture parameter injection.
- AuthContext.Restore: a stored user of `"null"` parses without throwing in JavaScript, giving a session with a role but no user. The model treats every failed parse alike.
- Text.IsBlank covers the common whitespace characters only, not the whole Unicode set that `trim` removes.
- `parseFloat` prices and `toFixed` display are left out: prices are whole minor units.
- Dates are `int` timestamps. `toLocaleString` and re-parsing with `new Date` are not modelled, so neither are dates that fail to parse.
- The error-detail toast of the order history is not modelled.
- `removeFromCart`, `updateQuantity` and `removeFromWishlist` do not look for a 401, and the model follows the code.
- The admin dashboard, profile, password change, product details, category, menu, cart and wishlist pages are not part of this model, and neither are the navbar and footer.
- The `Promise.all` fan-out of the users table is one `lookup` function per user.
- ManageProducts.ProductAdmin.HandleAddOrUpdate: a price of the number 0 from a server row is falsy in JavaScript. The form holds strings, so only the empty string counts as missing.

## Findings

| source | as written | input that shows it | evidently intended | confidence | as-written member | corrected member |
|---|---|---|---|---|---|---|
| src/pages/Login.jsx:131-145 | the handler reads `res.error` and `res.user.is_active`, which `login` never returns | any successful login: reading `res.user.is_active` throws, so the generic error toast shows instead of the success toast (the role redirect still comes from `LoginRedirect`); any refusal shows the default text instead of `message` | show `message` on refusal and the success toast on success | high, not executed | LoginPage.LoginNeverNavigates | LoginPage.RespondIntended |
| src/pages/Shop.jsx:186 | the badge tests `w.product.id`, which entries keyed by a product id (such as the one the toggle adds) do not have | toggle a product into an empty wishlist: it is a member, but the badge stays off | use the wishlist's own three-shape membership test | high, not executed | Shop.LovedMissesOptimisticEntry | Shop.Loved |
| src/pages/admin/ManageProducts.jsx:99-105 | `currentPage` is never brought back into range when the list shrinks | six listed products, on page 2, soft-delete the sixth: page 2 is empty and the pager is hidden | move to the last existing page | medium, not executed | ManageProducts.PageStrandedAfterDelete | ManageProducts.ClampedPage |
