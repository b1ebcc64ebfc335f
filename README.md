# MateMarket storefront core, modelled in Dafny

MateMarket is a React storefront for South African building-materials
vendors, with a small Supabase edge server for registration. This project
models the parts of it that decide something: the product filter and sort
engine, the products and favourites contexts, the vendor directory and
vendor store pipelines, the product page's stepper and carousel, the
checkout state machine and its fees, the home and dashboard aggregates,
the two sign-up pages, the registration server's endpoints, and the
admin one-time-code table.

Layout, one module per file:

- `seqs.dfy`, `strings.dfy`: the list and string operations the pages use
  (`filter`, `find`, `slice`, a stable insertion sort over a "may stay
  before" relation, ASCII `toLowerCase`, `includes`, `join`, code-point
  string order for `localeCompare`, `trim` whitespace).
- `catalog.dfy`: the `Product` and `Vendor` records, `filterProducts` and
  `sortProducts`.
- `cart.dfy`: the cart as a recorder of `addItem` and `clearCart` calls.
- `products_context.dfy`: the products context state (`ProductsStore`, a
  class whose setters recompute the visible list) and its lookups.
- `favorites.dfy`, `favorite_button.dfy`: the favourites context
  (`FavoritesStore`) and the heart button's toggle.
- `vendor_directory.dfy`: the directory's filter, sort, pagination, page
  buttons and category toggles (`DirectoryPage`).
- `vendor_store.dfy`: a vendor's store page, whose effect narrows a local
  list stage by stage (`ApplyFilters`) and then sorts it.
- `product_detail.dfy`, `checkout.dfy`, `home.dfy`, `dashboard.dfy`: the
  page logic of those pages.
- `register_form.dfy`, `register_page.dfy`, `register_fallback.dfy`: the
  shared form and ordered validation, the server-backed sign-up page, and
  the fallback page that signs up directly with the auth service.
- `admin_codes.dfy`, `server.dfy`: the `admin_confirmation_codes` table
  (`CodeTable`) and the registration endpoints (`Backend`).

Prices are whole cents (`int`), so R2500 is `250000`; ratings are `real`.
State the source keeps in React state cells or in Supabase becomes a class
whose methods say, with `modifies` and `old`, exactly what they change. The
authentication service, the `users` insert and whether the database answers
are parameters of the methods that call them.

Some facts the proofs make explicit:

- Two clicks on a favourite's heart restore the set of favourite ids. If
  the product was not a favourite, they restore the exact list
  (`FavoriteButton.ToggleTwiceRestoresList`).
- The checkout's total is not monotone. A R2500.01 basket costs less than
  a R2500 one, because delivery becomes free (`Checkout.ThresholdDip`).
- The total sent to the dashboard leaves out the cash-on-delivery fee that
  the summary showed (`Checkout.ConfirmedTotalOmitsCodFee`).
- With a stock of 0, the product page's "+" button sets the quantity to 0
  (`ProductDetail.IncrementWithoutStock`).
- Following a "More from this vendor" link keeps the product page mounted,
  so the quantity and the image index carry over to the new product
  (`ProductDetail.DetailPage.ShowProduct`). An index past the new product's
  last image is not wrapped back by the right arrow
  (`ProductDetail.StaleIndexNeverWraps`). The quantity can also exceed the
  new product's stock until "+" is pressed, which sets it to the stock; "-"
  only steps it down by one.
- On the server, the three default admin codes never expire. A used row
  only sends the check on to the fallback list, and that list accepts the
  code (`AdminCodes.DefaultCodesNeverExpire`). Any other code admits one
  admin at most when registrations are handled one after another
  (`AdminCodes.NonDefaultCodeSingleUse`).
- The admin route marks a code used before it creates the account. A
  failed account creation still uses up the code (`Server.Backend.RegisterAdmin`).
- Every request the sign-up page sends passes the server's missing-field
  check for its route (`Server.PageRequestsPassRequiredCheck`).

## Model

| member | source | states |
|---|---|---|
| Catalog.FilterProducts | src/data/mockData.ts:1305-1333 | the result is an order-preserving subsequence of the input, and a product is in it iff it meets every truthy filter: exact category, subcategory, vendor id and location, inclusive price bounds, in stock, and the lower-cased search found in name, description and tags; every copy of such a product is kept, and none of any other |
| Catalog.NoFiltersKeepAll | src/data/mockData.ts:1318-1332 | with every filter absent or falsy, the result is the input list itself |
| Catalog.ZeroPriceBoundsIgnored | src/data/mockData.ts:1323-1324 | a min or max price of 0 filters exactly as an absent bound does |
| Catalog.NameHitIsSearchHit | src/data/mockData.ts:1326-1330 | a term found in the lower-cased name passes the search, whatever the description and tags |
| Catalog.SortProducts | src/data/mockData.ts:1335-1354 | the result is a permutation of the input; price-low gives non-decreasing prices, price-high non-increasing prices, rating non-increasing ratings, name ascending names; newest returns the input order |
| Catalog.SortedMembers | src/data/mockData.ts:1339 | sorting keeps exactly the same products |
| ProductsContext.MergeFilters | src/contexts/ProductsContext.tsx:72-74 | each key present in the patch takes the patch's value (possibly undefined); every other key keeps its old value |
| ProductsContext.EmptyPatchKeepsFilters | src/contexts/ProductsContext.tsx:72-74 | merging an empty patch changes nothing |
| ProductsContext.VisibleProducts | src/contexts/ProductsContext.tsx:55-58 | each product meeting the filters (with `search` replaced by the search term) is listed as often as in the catalogue, and no other; price-low, price-high, rating and name give their sort orders; under 'newest' the list keeps catalogue order |
| ProductsContext.InitialViewIsCatalogue | src/contexts/ProductsContext.tsx:49-52 | no filters, an empty search and 'newest' show the whole catalogue in order |
| ProductsContext.GetProductById | src/contexts/ProductsContext.tsx:82-84 | nothing iff no product has the id; otherwise the first product with that id |
| ProductsContext.GetVendorById | src/contexts/ProductsContext.tsx:86-88 | nothing iff no vendor has the id; otherwise the first vendor with that id |
| ProductsContext.GetVendorProducts | src/contexts/ProductsContext.tsx:90-92 | exactly the products whose vendor has that id, every copy of each, in catalogue order |
| ProductsContext.GetFeaturedProducts | src/contexts/ProductsContext.tsx:94-96 | exactly the products with a truthy `featured`, every copy of each, in catalogue order |
| ProductsContext.ProductsStore.constructor | src/contexts/ProductsContext.tsx:44-52 | empty search, no filters, 'newest', and the visible list is the catalogue |
| ProductsContext.ProductsStore.SetSearchTerm | src/contexts/ProductsContext.tsx:55-70 | the search term changes, filters and sort stay, and the visible list is recomputed |
| ProductsContext.ProductsStore.SetFilters | src/contexts/ProductsContext.tsx:72-74 | the filters become the shallow merge of the old filters and the patch; the visible list is recomputed |
| ProductsContext.ProductsStore.SetSortBy | src/contexts/ProductsContext.tsx:55-70 | the sort key changes, filters and search stay, and the visible list is recomputed |
| ProductsContext.ProductsStore.ClearFilters | src/contexts/ProductsContext.tsx:76-80 | filters `{}`, search `''`, sort 'newest', and the visible list is the whole catalogue |
| Cart.FirstImage | src/components/vendors/VendorStorePage.tsx:101 | `images[0]`, or nothing for a product without images |
| Cart.CartRecorder.AddItem | src/components/vendors/VendorStorePage.tsx:97-104 | one `addItem` call with that item is recorded |
| Cart.CartRecorder.ClearCart | src/components/checkout/CheckoutPage.tsx:106 | one `clearCart` call is recorded |
| Favorites.Ids | src/contexts/FavoritesContext.tsx:48-51 | the id set holds exactly the ids of the listed favourites |
| Favorites.HasIdIsMember | src/contexts/FavoritesContext.tsx:55 | `find` by id succeeds iff the id is in the id set |
| Favorites.AddedTo | src/contexts/FavoritesContext.tsx:53-58 | the list is unchanged when the id is present, otherwise the item is appended; the ids gain the item's id; unique ids stay unique |
| Favorites.AddIdempotent | src/contexts/FavoritesContext.tsx:53-58 | adding the same item twice is adding it once |
| Favorites.RemovedFrom | src/contexts/FavoritesContext.tsx:61-63 | the ids lose that id, every copy of every other item stays, in order, no item with that id stays, and an absent id changes nothing |
| Favorites.Load | src/contexts/FavoritesContext.tsx:34-45 | a saved list is loaded as it is; no saved value or unparseable text leaves the list empty |
| Favorites.FavoritesStore.constructor | src/contexts/FavoritesContext.tsx:30-51 | the list is the loaded one, the id set is its ids, and the slot holds the list |
| Favorites.FavoritesStore.AddToFavorites | src/contexts/FavoritesContext.tsx:53-58 | the list is updated by `AddedTo`, and the id set and the storage slot follow it |
| Favorites.FavoritesStore.RemoveFromFavorites | src/contexts/FavoritesContext.tsx:61-63 | the list is updated by `RemovedFrom`, and the id set and the storage slot follow it |
| Favorites.FavoritesStore.ClearFavorites | src/contexts/FavoritesContext.tsx:69-71 | the list and the id set are empty |
| Favorites.FavoritesStore.IsFavorite | src/contexts/FavoritesContext.tsx:65-67 | in a consistent state, true iff some favourite has that id |
| FavoriteButton.Toggle | src/components/common/FavoriteButton.tsx:21-32 | one click flips whether the product's id is a favourite, leaves every other id as it was, and keeps ids unique |
| FavoriteButton.ToggleTwice | src/components/common/FavoriteButton.tsx:21-32 | two clicks restore the set of favourite ids |
| FavoriteButton.ToggleTwiceRestoresList | src/components/common/FavoriteButton.tsx:25-30 | two clicks on a product that was not a favourite restore the exact list |
| FavoriteButton.HandleFavoriteClick | src/components/common/FavoriteButton.tsx:21-32 | a favourite is removed by id and a non-favourite is added, so the store's list becomes `Toggle` of the old list |
| VendorDirectory.FilterVendors | src/components/vendors/VendorDirectoryPage.tsx:28-39 | an order-preserving subsequence holding every copy of each vendor that passes all five checks, and no other vendor |
| VendorDirectory.ClearedFiltersKeepAll | src/components/vendors/VendorDirectoryPage.tsx:29-38 | with cleared filters every vendor is listed, in order |
| VendorDirectory.UnlistedCategoryHidesAll | src/components/vendors/VendorDirectoryPage.tsx:32-33 | selecting only categories that no vendor lists hides every vendor |
| VendorDirectory.SortVendors | src/components/vendors/VendorDirectoryPage.tsx:40-54 | a permutation; name and location ascending, reviews and rating descending, newest keeps the order |
| VendorDirectory.Listing | src/components/vendors/VendorDirectoryPage.tsx:28-54 | every copy of each matching vendor and no other; 'name' and 'location' ascending, 'reviews' descending, 'newest' in directory order, and 'rating' or any unknown key by descending rating |
| VendorDirectory.TotalPages | src/components/vendors/VendorDirectoryPage.tsx:57 | the fewest pages of 12 that hold n vendors (`Math.ceil(n / 12)`) |
| VendorDirectory.Page | src/components/vendors/VendorDirectoryPage.tsx:58-59 | item i of page p is item (p-1)*12+i; a page in range holds min(12, n-(p-1)*12) items, so pages before the last are full; later pages are empty |
| VendorDirectory.EveryIndexOnItsPage | src/components/vendors/VendorDirectoryPage.tsx:57-59 | every listed vendor appears on a page between 1 and the page count |
| VendorDirectory.PageWindow | src/components/vendors/VendorDirectoryPage.tsx:431-441 | min(5, totalPages) consecutive numbers in [1, totalPages], containing the current page iff it is in range, centred on it away from the ends |
| VendorDirectory.ToggleCategory | src/components/vendors/VendorDirectoryPage.tsx:63-68 | the category's membership flips and every other category's stays |
| VendorDirectory.ToggleCategoryTwice | src/components/vendors/VendorDirectoryPage.tsx:63-68 | two toggles restore the members, and the exact list when the category was absent |
| VendorDirectory.ToggleCategoryDistinct | src/components/vendors/VendorDirectoryPage.tsx:63-68 | toggling keeps the selection free of duplicates |
| VendorDirectory.Locations | src/components/vendors/VendorDirectoryPage.tsx:61 | exactly the vendors' locations, each once, in ascending order |
| VendorDirectory.DirectoryPage.constructor | src/components/vendors/VendorDirectoryPage.tsx:17-25 | cleared filters, sort 'rating', page 1 |
| VendorDirectory.DirectoryPage.PaginatedVendors | src/components/vendors/VendorDirectoryPage.tsx:56-59 | item i is item (currentPage-1)*12+i of the listing, and a page in range shows min(12, n-(currentPage-1)*12) vendors |
| VendorDirectory.DirectoryPage.HandleCategoryToggle | src/components/vendors/VendorDirectoryPage.tsx:63-70 | the selection is toggled, the other filters stay, and the page is 1 |
| VendorDirectory.DirectoryPage.ClearFilters | src/components/vendors/VendorDirectoryPage.tsx:72-80 | every filter cleared, sort 'rating', page 1 |
| VendorDirectory.DirectoryPage.SetSearchTerm | src/components/vendors/VendorDirectoryPage.tsx:111 | only the search changes, and the page is 1 |
| VendorDirectory.DirectoryPage.SetSortBy | src/components/vendors/VendorDirectoryPage.tsx:127 | only the sort key changes, and the page is 1 |
| VendorDirectory.DirectoryPage.SetLocation | src/components/vendors/VendorDirectoryPage.tsx:175 | only the location changes, and the page is 1 |
| VendorDirectory.DirectoryPage.SetRating | src/components/vendors/VendorDirectoryPage.tsx:191 | only the rating choice changes, and the page is 1 |
| VendorDirectory.DirectoryPage.SetVerifiedOnly | src/components/vendors/VendorDirectoryPage.tsx:229 | only the verified flag changes, and the page is 1 |
| VendorDirectory.DirectoryPage.PreviousPage | src/components/vendors/VendorDirectoryPage.tsx:421-425 | one page back, and still a real page |
| VendorDirectory.DirectoryPage.NextPage | src/components/vendors/VendorDirectoryPage.tsx:458-462 | one page on, and still a real page |
| VendorDirectory.DirectoryPage.GoToPage | src/components/vendors/VendorDirectoryPage.tsx:88-91 | a page button makes its number the current page, which is a real page |
| VendorStore.AllProducts | src/components/vendors/VendorStorePage.tsx:30-31 | for a known vendor exactly its products, every copy of each, in catalogue order; none for an unknown vendor |
| VendorStore.SearchStage | src/components/vendors/VendorStorePage.tsx:40-46 | the search stage runs only for a non-empty term and keeps the products whose name, description or category contains it |
| VendorStore.CategoryStage | src/components/vendors/VendorStorePage.tsx:49-51 | the category stage runs only for a selection other than `''` and `'all'` |
| VendorStore.MinStage | src/components/vendors/VendorStorePage.tsx:54-56 | the minimum-price stage runs only for a non-empty box and is inclusive |
| VendorStore.MaxStage | src/components/vendors/VendorStorePage.tsx:57-59 | the maximum-price stage runs only for a non-empty box and is inclusive |
| VendorStore.StockStage | src/components/vendors/VendorStorePage.tsx:62-64 | the stock stage runs only when `inStockOnly` is set |
| VendorStore.StoreListingMembers | src/components/vendors/VendorStorePage.tsx:36-86 | the sorted result lists exactly the vendor's products that pass every check whose input is set |
| VendorStore.ApplyFilters | src/components/vendors/VendorStorePage.tsx:36-86 | the five stages and the sort give `SortProducts` of the filtered list, which holds exactly the products passing every check |
| VendorStore.TypedZeroMaxApplies | src/components/vendors/VendorStorePage.tsx:54-59 | a typed bound m is applied for every m, while the catalogue's bound is ignored at 0: a typed maximum of "0" hides every priced product, a 0 maximum in the catalogue filter hides none |
| VendorStore.NotANumberHidesAll | src/components/vendors/VendorStorePage.tsx:54-59 | a price box whose text is not a number hides every product |
| VendorStore.VendorCategories | src/components/vendors/VendorStorePage.tsx:34 | exactly the categories of the vendor's products, each once, in ascending order |
| VendorStore.StoreCartItem | src/components/vendors/VendorStorePage.tsx:97-104 | the cart item copies id, name, price, first image and vendor, caps at the stock, and carries no quantity |
| VendorStore.HandleAddToCart | src/components/vendors/VendorStorePage.tsx:88-107 | an out-of-stock product makes no cart call; an in-stock one makes exactly one `addItem` |
| VendorStore.StorePage.constructor | src/components/vendors/VendorStorePage.tsx:22-28 | empty inputs, sort 'newest', and the vendor's products listed |
| VendorStore.StorePage.ClearedKeepsAll | src/components/vendors/VendorStorePage.tsx:109-115 | with every input cleared the page lists all of the vendor's products in order |
| VendorStore.StorePage.SetFilters | src/components/vendors/VendorStorePage.tsx:36-86 | the inputs change, and the listing is recomputed by `ApplyFilters` |
| VendorStore.StorePage.SetSortBy | src/components/vendors/VendorStorePage.tsx:36-86 | the sort key changes, and the listing is recomputed by `ApplyFilters` |
| VendorStore.StorePage.ClearFilters | src/components/vendors/VendorStorePage.tsx:109-115 | every input emptied, sort 'newest', and the whole list shown |
| ProductDetail.Decrement | src/components/products/ProductDetailPage.tsx:249 | `max(1, q - 1)`: never below 1 |
| ProductDetail.Increment | src/components/products/ProductDetailPage.tsx:256 | `min(stock, q + 1)`: never above the stock |
| ProductDetail.StepperStaysInRange | src/components/products/ProductDetailPage.tsx:249-256 | from a quantity in [1, stock], both buttons stay in [1, stock] |
| ProductDetail.IncrementThenDecrement | src/components/products/ProductDetailPage.tsx:249-256 | "-" undoes an uncapped "+" |
| ProductDetail.IncrementWithoutStock | src/components/products/ProductDetailPage.tsx:256 | with no stock, "+" sets the quantity to 0 |
| ProductDetail.NextImage | src/components/products/ProductDetailPage.tsx:58-62 | the last image wraps to 0, any other index moves on by one; the index stays in range |
| ProductDetail.PreviousImage | src/components/products/ProductDetailPage.tsx:64-68 | image 0 wraps to the last, any other index moves back by one; the index stays in range |
| ProductDetail.ArrowsInverse | src/components/products/ProductDetailPage.tsx:58-68 | the two arrows undo each other |
| ProductDetail.Iterate | src/components/products/ProductDetailPage.tsx:58-62 | any number of right-arrow clicks keeps the index in range |
| ProductDetail.ArrowClicks | src/components/products/ProductDetailPage.tsx:58-62 | k ≤ n clicks move k images on, wrapping once |
| ProductDetail.FullCycle | src/components/products/ProductDetailPage.tsx:58-62 | n clicks come back to the same image |
| ProductDetail.RelatedProducts | src/components/products/ProductDetailPage.tsx:41-43 | the first four of the same vendor's other products, in catalogue order |
| ProductDetail.DetailCartItem | src/components/products/ProductDetailPage.tsx:45-54 | the cart item carries the chosen quantity and the stock as its cap |
| ProductDetail.DetailPage.constructor | src/components/products/ProductDetailPage.tsx:20-21 | quantity 1, first image |
| ProductDetail.DetailPage.ShowProduct | src/components/products/ProductDetailPage.tsx:389 | a link to another product changes the product and keeps the quantity and the image index |
| ProductDetail.StaleIndexNeverWraps | src/components/products/ProductDetailPage.tsx:58-68 | from an index past the last image, the right arrow moves one further out and the left arrow one back |
| ProductDetail.DetailPage.DecreaseQuantity | src/components/products/ProductDetailPage.tsx:249 | the quantity becomes `Decrement` of the old one |
| ProductDetail.DetailPage.IncreaseQuantity | src/components/products/ProductDetailPage.tsx:256 | the quantity becomes `Increment` of the old one |
| ProductDetail.DetailPage.ShowNextImage | src/components/products/ProductDetailPage.tsx:58-62 | the index becomes `NextImage` of the old one; a valid index stays valid |
| ProductDetail.DetailPage.ShowPreviousImage | src/components/products/ProductDetailPage.tsx:64-68 | the index becomes `PreviousImage` of the old one; a valid index stays valid |
| ProductDetail.DetailPage.SelectImage | src/components/products/ProductDetailPage.tsx:139 | a thumbnail shows its own image |
| ProductDetail.DetailPage.AddToCart | src/components/products/ProductDetailPage.tsx:45-54 | exactly one `addItem` call with `DetailCartItem` |
| Checkout.DeliveryFee | src/components/checkout/CheckoutPage.tsx:70 | 0 iff the subtotal exceeds R2500, otherwise R150 |
| Checkout.FinalTotal | src/components/checkout/CheckoutPage.tsx:71 | the subtotal when delivery is free (over R2500), otherwise the subtotal plus R150 |
| Checkout.ThresholdDip | src/components/checkout/CheckoutPage.tsx:70-71 | a basket one cent over R2500 costs less in total than a R2500 one |
| Checkout.GrandTotal | src/components/checkout/CheckoutPage.tsx:416 | the shown total adds R50 iff the payment is 'cod' |
| Checkout.ConfirmedTotalOmitsCodFee | src/components/checkout/CheckoutPage.tsx:110-116 | the total handed to the dashboard equals the total shown iff the payment is not 'cod', and is R50 less under 'cod' |
| Checkout.With | src/components/checkout/CheckoutPage.tsx:121-123 | only the named address field changes |
| Checkout.EveryFieldRequired | src/components/checkout/CheckoutPage.tsx:82-84 | all eight address fields are required |
| Checkout.MissingFields | src/components/checkout/CheckoutPage.tsx:86 | exactly the empty fields are missing |
| Checkout.CheckoutPage.constructor | src/components/checkout/CheckoutPage.tsx:54-77 | step 1, an empty address, 'card', and a cart with no lines sends the shopper to the cart |
| Checkout.CheckoutPage.HandleInputChange | src/components/checkout/CheckoutPage.tsx:121-123 | the address becomes `With` of the old one; nothing else changes |
| Checkout.CheckoutPage.SelectPayment | src/components/checkout/CheckoutPage.tsx:282 | only the payment choice changes |
| Checkout.CheckoutPage.HandleAddressSubmit | src/components/checkout/CheckoutPage.tsx:79-94 | step 2 iff all eight fields are non-empty, otherwise still step 1 |
| Checkout.CheckoutPage.Back | src/components/checkout/CheckoutPage.tsx:137 | from step 1 to the cart, from step 2 back to step 1 |
| Checkout.CheckoutPage.HandlePlaceOrder | src/components/checkout/CheckoutPage.tsx:96-119 | one `clearCart` call, and the dashboard receives `finalTotal`: the total shown, less R50 under cash on delivery |
| Home.Summary | src/components/HomePage.tsx:22-31 | the card copies id, name, logo, rating, location, categories and verified, with reviews = totalReviews |
| Home.Summaries | src/components/HomePage.tsx:22-31 | one card per vendor, in order |
| Home.ByRating | src/components/HomePage.tsx:19-20 | a permutation with non-increasing ratings |
| Home.TopVendors | src/components/HomePage.tsx:19-31 | min(4, n) cards with non-increasing ratings, drawn from the vendors' cards without repeating any vendor more often than it is listed |
| Home.SummariesPermute | src/components/HomePage.tsx:22-31 | reordering the vendors gives the same cards, each as often |
| Home.TopVendorsAreTop | src/components/HomePage.tsx:19-21 | a vendor left off the list is rated no higher than any vendor on it |
| Home.HomeView | src/components/HomePage.tsx:12-31 | the context's shared vendors array is reordered in place by rating; the featured list and the top-4 cards are returned |
| Dashboard.StatusColor | src/components/dashboard/DashboardPage.tsx:58-66 | the four known statuses get their classes, anything else the grey default |
| Dashboard.TotalSpent | src/components/dashboard/DashboardPage.tsx:97 | 0 for no orders, the total of a single order, and with non-negative totals at least every order's total |
| Dashboard.TotalSpentIsSum | src/components/dashboard/DashboardPage.tsx:97 | the left fold equals the sum of the order totals taken from the first order on |
| Dashboard.TotalSpentAppend | src/components/dashboard/DashboardPage.tsx:97 | the sum over two runs of orders is the sum of the two sums |
| Dashboard.CompletedOrders | src/components/dashboard/DashboardPage.tsx:98 | the number of 'delivered' statuses among the orders; so 0 iff none is delivered and all iff all are |
| Dashboard.LineTotal | src/components/dashboard/DashboardPage.tsx:226 | non-negative for non-negative price and quantity, the price for a quantity of 1 |
| Dashboard.LineTotalPerUnit | src/components/dashboard/DashboardPage.tsx:226 | no units cost nothing, and each further unit adds the price |
| Dashboard.LineTotalIsUnitsCost | src/components/dashboard/DashboardPage.tsx:226 | a line's total is the price counted once per unit |
| Dashboard.ReorderOnCompletedOnly | src/components/dashboard/DashboardPage.tsx:235 | the order list renders as many Reorder buttons as the Completed Orders statistic counts |
| RegisterForm.ApplyInput | src/components/auth/RegisterPage.tsx:65-71 | the named field takes the value (text) or the checked state (checkbox); all other fields keep theirs |
| RegisterForm.Role | src/components/auth/RegisterPageFallback.tsx:93 | 'hybrid' iff a company account with the hybrid box ticked, otherwise the account type |
| RegisterForm.FirstFailure | src/components/auth/RegisterPage.tsx:111-143 | the reported check fails and every earlier check passes; nothing is reported iff all six pass |
| RegisterForm.ValidateForm | src/components/auth/RegisterPage.tsx:111-143 | true iff no check fails, so it implies the required fields, matching passwords of at least 6 characters, a company name for companies, an accepted code for admins and the terms |
| RegisterForm.AdminCodeOnlyForAdmins | src/components/auth/RegisterPage.tsx:132-135 | the code check does not affect customer and company forms |
| RegisterForm.ShortPasswordRefused | src/components/auth/RegisterPage.tsx:122-125 | a matching five-character password is reported as too short |
| RegisterPage.OrNull | src/components/auth/RegisterPage.tsx:158 | an empty text is sent as null, anything else as it is |
| RegisterPage.BuildRequest | src/components/auth/RegisterPage.tsx:152-182 | the endpoint is register/ plus the account type; the company keys only for companies, with empty numbers as null; the code only for admins |
| RegisterPage.SignUpPage.constructor | src/components/auth/RegisterPage.tsx:19-37 | a customer form with every field empty and no verified code |
| RegisterPage.SignUpPage.HandleInputChange | src/components/auth/RegisterPage.tsx:65-76 | the form takes the input; editing the confirmation code, and only that, withdraws its verification |
| RegisterPage.SignUpPage.SetUserType | src/components/auth/RegisterPage.tsx:244 | only the account type changes; a verified code stays verified |
| RegisterPage.SignUpPage.VerifyAdminCode | src/components/auth/RegisterPage.tsx:78-109 | a blank code sends nothing; otherwise the code is sent, and only a `valid` reply marks it verified |
| RegisterPage.SignUpPage.HandleSubmit | src/components/auth/RegisterPage.tsx:145-182 | a request is sent iff `validateForm` passes; it is `BuildRequest` of the form, and an admin request carries a verified, non-blank code |
| RegisterPage.SubmittedRequestComplete | src/components/auth/RegisterPage.tsx:111-182 | a request that passed the page's checks has email, password, name, and the company name or code its route needs |
| RegisterFallback.ValidateAdminCode | src/components/auth/RegisterPageFallback.tsx:45-48 | true iff the code is exactly one of the three listed codes |
| RegisterFallback.FallbackValidate | src/components/auth/RegisterPageFallback.tsx:51-83 | the same ordered checks, with the allow-list deciding the admin step |
| RegisterFallback.SignUpMetadata | src/components/auth/RegisterPageFallback.tsx:100-109 | the role from `Role`; `is_verified` iff admin; company fields as typed for companies and null otherwise; hybrid false unless a company; empty phone null |
| RegisterFallback.HybridOnlyForCompanies | src/components/auth/RegisterPageFallback.tsx:104-107 | the hybrid box leaves no trace on a customer or admin sign-up |
| RegisterFallback.FallbackPage.constructor | src/components/auth/RegisterPageFallback.tsx:19-32 | a customer form with every field empty |
| RegisterFallback.FallbackPage.HandleInputChange | src/components/auth/RegisterPageFallback.tsx:37-43 | only the named field changes |
| RegisterFallback.FallbackPage.SetUserType | src/components/auth/RegisterPageFallback.tsx:164 | only the account type changes |
| RegisterFallback.FallbackPage.HandleSubmit | src/components/auth/RegisterPageFallback.tsx:85-110 | a sign-up call is made iff the checks pass; an account marked verified needs a listed code |
| AdminCodes.InsertCode | src/supabase/functions/server/database.tsx:120-126 | a new code is added unused; a duplicate is refused and the table is unchanged |
| AdminCodes.AddMissing | src/supabase/functions/server/database.tsx:115-134 | the table then holds every seeded code once, old rows keep their state, new rows are unused |
| AdminCodes.AddMissingIdempotent | src/supabase/functions/server/database.tsx:115-134 | seeding twice is seeding once |
| AdminCodes.Consume | src/supabase/functions/server/database.tsx:137-161 | accepted iff the database answers and the code has an unused row; that row becomes used, every other row is unchanged, and a refusal changes nothing |
| AdminCodes.ConsumeOnce | src/supabase/functions/server/database.tsx:150-156 | a code just accepted is refused the next time |
| AdminCodes.ServerValidate | src/supabase/functions/server/index.tsx:30-55 | accepted iff the code has an unused row in a reachable table, or is a default code; the table changes as with `Consume` |
| AdminCodes.NonDefaultCodeSingleUse | src/supabase/functions/server/index.tsx:37-46 | for requests handled one after another, a code outside the defaults is accepted at most once |
| AdminCodes.DefaultCodesNeverExpire | src/supabase/functions/server/index.tsx:52-54 | a default code is accepted whatever the table, even after its row is used |
| AdminCodes.CodeIsValid | src/supabase/functions/server/index.tsx:337-354 | the verify lookup gives the same answer as the registration check, without marking anything used |
| AdminCodes.CodeTable.InsertDefaultAdminCodes | src/supabase/functions/server/database.tsx:115-134 | with one database answer per code, the loop leaves the table as `AddMissing` of the defaults whose call was answered, so every default when all are answered and no change when none is |
| AdminCodes.Answered | src/supabase/functions/server/database.tsx:118-133 | the defaults whose own call the database answered, in order: all of them when every call is answered, none when none is |
| AdminCodes.CodeTable.ConsumeCode | src/supabase/functions/server/database.tsx:137-161 | the answer and the new table are those of `Consume` |
| AdminCodes.CodeTable.ValidateWithFallback | src/supabase/functions/server/index.tsx:30-55 | the answer and the new table are those of `ServerValidate` |
| Server.RoleOf | src/supabase/functions/server/index.tsx:175 | 'hybrid' iff the company route with `is_hybrid`, 'company' otherwise on that route; 'customer' and 'admin' on theirs |
| Server.ProfileFor | src/supabase/functions/server/index.tsx:191-204 | the `users` row: empty phone and, for companies, empty numbers as null; company name only for companies; `is_verified` only for admins |
| Server.Handle | src/supabase/functions/server/index.tsx:85-326 | 400 on a missing field, then 403 on a refused admin code, then 400 with the auth error; an account exists iff the reply is a success, and a profile iff the insert worked |
| Server.AdminOnlyWithCode | src/supabase/functions/server/index.tsx:256-286 | an admin account, or a profile marked verified, is created only on the admin route with an accepted code |
| Server.VerifyEndpoint | src/supabase/functions/server/index.tsx:329-360 | an empty code is a 400; otherwise `valid` is the registration check's answer |
| Server.VerifiedCodeAccepted | src/supabase/functions/server/index.tsx:337-347 | a code reported valid is accepted by the admin route if nobody used it in between |
| Server.BodyOf | src/supabase/functions/server/index.tsx:160-169 | the server reads back the email, password, name, phone, company name, hybrid flag and code the page sent |
| Server.EndpointFor | src/components/auth/RegisterPage.tsx:160-182 | each account type's route is the one the page posts to |
| Server.PageRequestsPassRequiredCheck | src/supabase/functions/server/index.tsx:251-253 | whatever the page submits passes the server's missing-field check for its route, and a company's role follows the hybrid box |
| Server.Backend.RegisterUser | src/supabase/functions/server/index.tsx:85-155 | the reply is `Handle`'s; the account and the profile it creates are appended, and nothing else |
| Server.Backend.RegisterAdmin | src/supabase/functions/server/index.tsx:247-326 | fields are checked first; then the code is checked and marked used, before the account is created; the reply is `Handle`'s |

## Left out

- VerifyAdminCode: the reply is taken to arrive before any further edit of
  the code box. In the page the box stays editable while the request is in
  flight, so an edit made meanwhile clears the mark and a late `valid` reply
  sets it again for a code no longer in the box. The server checks the code
  again on registration.
- Load: a saved value that is valid JSON but not a list of favourites (such
  as `5` or `{}`) is stored by the page and then makes the save effect throw.
  The model's saved slot always holds a list.
- NonDefaultCodeSingleUse: each request's read-and-mark of a code is treated
  as atomic. The server selects the unused row and then updates it by id,
  with no `is_used = false` guard and no check of the update's result, so two
  concurrent admin registrations with the same code can both be accepted.
- StorePage: the page builds `allProducts` as a new array on every render and
  lists it as a dependency of the filter effect, so the effect runs again and
  sets `filteredProducts` after every render. The model keeps only the list
  that this loop keeps producing, not the repeated renders.

- The cart's own rules (merging items, clamping quantities, totals) are not
  modelled. `CartContext` is not part of this model, so the cart only
  records the calls the pages make.
- Rendering, toasts, navigation and scrolling are left out. Where a handler
  navigates, the model records where it would go (`Checkout.Exit`) or what it
  would send.
- Network and storage are left out: `fetch`, Supabase auth and tables,
  `localStorage` and JSON. They become parameters: the auth answer, the
  profile-insert outcome, whether the database answers, the server's reply to
  the code check, and the saved favourites slot. A request body that is not
  JSON (the routes' outer 500 and `{valid: false}` catches) is not modelled.
- The `is_used` update by id is taken to succeed when the database answers.
  The source does not check the update's result either.
- Timing is left out: the checkout's 2-second delay, the `Date.now()` order
  number, and the `loading` and `verifyingCode` flags. React's effect timing
  is also left out. Each setter recomputes derived state at once, so the
  one-render lag of `favoriteIds` behind `favorites` is not modelled.
- Floating point is left out. Prices are whole cents and ratings are reals, so
  `toFixed`, `Math.round` and discount percentages are not modelled.
- `toLowerCase` lowers ASCII letters only. `localeCompare` and the default
  `sort()` use code-point order (the same as UTF-16 code-unit order on
  text within the Basic Multilingual Plane), not locale collation.
- The sort is modelled as a stable sort, as current JavaScript engines
  require. Stability itself is not proved.
- `parseFloat` on a price or rating box is an input datatype (blank, a
  number, not a number) rather than a string parser.
- Password length counts Dafny characters, not UTF-16 code units.
- `testConnection` on the sign-up page and the health route only report
  reachability, and are not modelled.
- The DDL strings, the RPC calls and the `users` table creation are not
  modelled. The code table is a map from code to `is_used`, so the UNIQUE
  constraint on `code` holds by construction.
- The initial empty `filteredProducts` of the vendor store, before its
  first effect runs, is collapsed into the effect's result.
- ProductDetail.DetailPage.AddToCart: requires an in-stock product, because
  the button is disabled otherwise. A disabled button's click is not
  modelled.
- VendorDirectory.DirectoryPage.PreviousPage, NextPage and GoToPage:
  require the buttons to be enabled and shown, as the page renders them.
- Checkout.CheckoutPage.HandleAddressSubmit and HandlePlaceOrder: require
  the step at which the page shows their form or button.
