# Storefront screen logic, modelled in Dafny

This project models the state handling of a React Native storefront app. The app shows products from a public catalog service. The logic modelled is what is left once rendering, navigation and networking are removed:

- **Home screen product list** (`home_screen.dfy`). It loads pages of 10 products, appends the next page when the end of the list is reached, and replaces the list on pull-to-refresh. A debounced search box switches between the listing endpoint and the search endpoint. The list keeps a per-product "liked" flag. It also chooses the footer, the empty-list view and the caption above the list.
- **Product detail screen** (`product_detail.dfy`). It covers the quantity stepper, clamped to `[1, max(stock, 1)]`, and the enabled state of its minus and plus buttons. It also covers the discounted price, the discount badge, the stock label and the choice between loading, not-found and detail views.
- **Product screen** (`product_screen.dfy`). It covers the five-icon star rating (full, half or outline per position), the struck-through "was" price, and the choice between loading, error and detail views after a fetch.
- **Wishlist screen** (`wishlist.dfy`). It covers removal by id, the "N item(s) in your wishlist" line with its empty state, and the stock status and bag button of each item.
- **Filter sheet** (`filter_modal.dfy`). It covers single-field updates of the local filter copy, reset to fixed defaults, apply, and which chips are drawn active.
- **Product card** (`product_card.dfy`). It covers the like toggle, the discount badge and the prices shown on a card.

Shared modules: `Text` (JavaScript's `trim()`, string truthiness, and how an integer below 10^21 in magnitude is written inside a template literal), `Pricing` (the two price formulas), `Fetch` (how a failed request becomes an error message) and `Wrappers` (`Option`).

Where the source updates component state in place, the model is a class whose fields are the component's state variables. Each event handler is a method with a `modifies` clause, and its `ensures` gives the whole new state. A network request has two halves:

- the handler's synchronous part is a method that returns the `Request` it issues;
- the answer arrives later as a `FetchOutcome` argument to `Receive` or `FinishFetch`.

`HomeScreen.Valid` is an invariant that every home-screen event keeps. It says that a refresh is always a load in progress. It also says that `hasMore` is false only when the last page received reached the reported total. Pure pieces of logic, such as the endpoint choice, list merging, view selection and price formulas, are functions with contracts. Lemmas state their properties.

Prices, discounts and ratings are exact `real`s. A JavaScript number used as a count (stock, totals) is an `int`.

Three details of JavaScript are modelled exactly because the code depends on them:

- `trim()` removes the full ECMAScript whitespace and line-terminator set.
- `if (error)` is false for an empty string.
- `rating % 1` is a truncating remainder, so a negative fractional rating also asks for a half star.

`product?.stock || 1` treats a stock of 0 as 1. A negative stock is truthy and is used as it is. For that reason the quantity range is proved only for non-negative stock.

## Model

| member | source | states |
|---|---|---|
| `Text.Trim` | src/screens/HomeScreen.tsx:69-71 | `trim()` returns the slice `s[i..j]` of its input such that everything before `i` and from `j` on is whitespace, and the slice neither starts nor ends with whitespace: only leading and trailing whitespace is removed |
| `Text.TrimStart` | src/screens/HomeScreen.tsx:69-71 | the leading part removed is all whitespace; what remains is a suffix not starting with whitespace |
| `Text.TrimEnd` | src/screens/HomeScreen.tsx:69-71 | the trailing part removed is all whitespace; what remains is a prefix not ending with whitespace |
| `Text.TrimEmptyIff` | src/screens/HomeScreen.tsx:118 | a query trims to the empty (falsy) string exactly when every character is whitespace |
| `Text.TrimIdempotent` | src/screens/HomeScreen.tsx:150-151 | trimming twice equals trimming once, so re-trimming in `fetchProducts` changes nothing |
| `Text.IntToString` | src/screens/HomeScreen.tsx:295-297 | the rendering is non-empty and starts with `-` exactly for a negative number |
| `Text.IntToStringRoundTrip` | src/screens/HomeScreen.tsx:295-297 | the decimal text of an integer in a template literal reads back as the same integer |
| `Text.DigitsRoundTrip` | src/screens/HomeScreen.tsx:295-297 | the digit string of a natural number reads back as that number |
| `Pricing.DiscountedPrice` | src/screens/ProductDetailScreen.tsx:77 | the discounted price is in `[0, price]` for a price ≥ 0 and a discount in `[0, 100]`; it equals the price at 0 % and is below it for a positive price and discount |
| `Pricing.OriginalPrice` | src/screens/ProductScreen.tsx:147-148 | the "was" price is ≥ the price for non-negative inputs; it equals the price exactly when the price or the discount is 0 |
| `Fetch.ErrorMessage` | src/screens/HomeScreen.tsx:77-98 | a non-2xx status stores the screen's own message, a thrown `Error` stores its message, anything else a non-empty fallback; the stored error is empty (falsy) only for an empty message |
| `HomeScreen.EndpointFor` | src/screens/HomeScreen.tsx:65-73 | skip is `page * 10` and limit is 10; the search endpoint is used exactly when the term is present and has a non-whitespace character, and then with the trimmed term |
| `HomeScreen.Merged` | src/screens/HomeScreen.tsx:83-92 | a refresh yields exactly the fetched page; otherwise the old list is kept as a prefix; the new tail is the fetched items in order, each with `liked` false |
| `HomeScreen.Unliked` | src/screens/HomeScreen.tsx:85 | each fetched item enters the list with `liked` false and all its other fields unchanged |
| `HomeScreen.MergedPages` | src/screens/HomeScreen.tsx:88-91 | appending page a and then page b gives the same list as appending a + b at once |
| `HomeScreen.RefreshForgets` | src/screens/HomeScreen.tsx:83-86 | after a refresh the list does not depend on what it held before |
| `HomeScreen.ToggledLike` | src/screens/HomeScreen.tsx:171-179 | length and order are kept; only products with the given id change `liked`, and every other field is unchanged |
| `HomeScreen.ToggleLikeTwice` | src/screens/HomeScreen.tsx:171-179 | toggling the same id twice gives back the original list |
| `HomeScreen.ToggleLikeAbsent` | src/screens/HomeScreen.tsx:171-179 | toggling an id that no product has leaves the list unchanged |
| `HomeScreen.FooterFor` | src/screens/HomeScreen.tsx:218-246 | "no more" shows exactly when `!hasMore`; the loading-more footer shows exactly when `hasMore && loading` and the list is non-empty; the search or listing wording follows `isSearching` |
| `HomeScreen.EmptyViewFor` | src/screens/HomeScreen.tsx:248-291 | the empty view's priority is initial loading, then a truthy error (shown as is), then a search with no results, then the generic message |
| `HomeScreen.OneLoadingIndicator` | src/screens/HomeScreen.tsx:231-257 | the footer spinner and the initial-load spinner never show at the same time |
| `HomeScreen.SearchResultsText` | src/screens/HomeScreen.tsx:293-298 | the caption starts with the total, followed by the search wording with the query or by " products" |
| `HomeScreen.SearchResultsTextShowsTotal` | src/screens/HomeScreen.tsx:293-298 | the number at the head of the caption reads back as `totalProducts` |
| `HomeScreen.HomeScreen.constructor` | src/screens/HomeScreen.tsx:40-48 | initial state: empty query and list, loading, page 0, more to come, total 0, not searching; the invariant holds |
| `HomeScreen.HomeScreen.BeginFetch` | src/screens/HomeScreen.tsx:61-63 | starting a fetch sets `loading`, clears `error` and issues the request as called |
| `HomeScreen.HomeScreen.Mount` | src/screens/HomeScreen.tsx:158-160 | the mount effect requests page 0 of the listing in replace mode |
| `HomeScreen.HomeScreen.HandleSearch` | src/screens/HomeScreen.tsx:107-109 | typing stores the query at once and changes nothing else |
| `HomeScreen.HomeScreen.SearchTimerFired` | src/screens/HomeScreen.tsx:117-130 | the debounced body sets page 0 and `hasMore`; `isSearching` holds exactly when the query is not blank; it requests page 0 in replace mode, with the trimmed query only when it is not blank |
| `HomeScreen.HomeScreen.OnRefresh` | src/screens/HomeScreen.tsx:137-146 | refresh sets `refreshing`, page 0 and `hasMore`, and requests page 0 in replace mode for the current trimmed query, if it is not blank |
| `HomeScreen.HomeScreen.LoadMore` | src/screens/HomeScreen.tsx:148-156 | a request is issued exactly when `!loading && hasMore`; it asks for page `currentPage + 1` in append mode, passing the trimmed query only when it is not blank; otherwise nothing changes |
| `HomeScreen.HomeScreen.ToggleLike` | src/screens/HomeScreen.tsx:171-179 | the list becomes `ToggledLike` of the old list |
| `HomeScreen.HomeScreen.ClearSearch` | src/screens/HomeScreen.tsx:181-189 | it clears the query, search mode, list and total, sets page 0 and `hasMore`, and requests page 0 of the listing in replace mode |
| `HomeScreen.HomeScreen.Receive` | src/screens/HomeScreen.tsx:77-102 | on success: page, total, `hasMore` iff `p*10 + 10 < total`, and list replaced or appended; on failure: only `error` is set, and list, page, `hasMore` and total are unchanged; afterwards `loading` and `refreshing` are both false and the invariant still holds |
| `ProductDetail.StockCeiling` | src/screens/ProductDetailScreen.tsx:55 | `product?.stock \|\| 1` is 1 without a product and `max(stock, 1)` for a non-negative stock |
| `ProductDetail.Incremented` | src/screens/ProductDetailScreen.tsx:55 | plus gives one more than before unless that passes the ceiling, in which case it gives the ceiling |
| `ProductDetail.Decremented` | src/screens/ProductDetailScreen.tsx:57 | minus gives one less than before but never less than 1 |
| `ProductDetail.PressesStayInRange` | src/screens/ProductDetailScreen.tsx:53-59 | from any quantity in `[1, max(stock, 1)]`, every series of plus and minus presses stays in that range |
| `ProductDetail.QuantityChanged` | src/screens/ProductDetailScreen.tsx:53-59 | plus raises the quantity by one below the ceiling, minus lowers it by one above 1, and one press never leaves `[1, max(stock, 1)]` for a non-negative stock |
| `ProductDetail.MinusDisabled` | src/screens/ProductDetailScreen.tsx:178 | from a quantity ≥ 1, minus is disabled exactly when pressing it would not change the quantity |
| `ProductDetail.PlusDisabled` | src/screens/ProductDetailScreen.tsx:186 | from a quantity ≥ 1, plus is disabled exactly when pressing it would not raise the quantity, for any stock |
| `ProductDetail.ButtonsMatchHandler` | src/screens/ProductDetailScreen.tsx:175-189 | an enabled minus or plus button moves the quantity by one; a disabled one (`q <= 1`, `q >= stock`) would leave it unchanged, including plus at `q == stock` |
| `ProductDetail.StockLabel` | src/screens/ProductDetailScreen.tsx:160 | the label is "N available" for a positive stock, and it is "Out of stock" exactly when the stock is ≤ 0 |
| `ProductDetail.PriceBlockFor` | src/screens/ProductDetailScreen.tsx:128-154 | the current price is the discounted one and lies in `[0, price]`; the badge and the struck-through price show exactly for a positive discount |
| `ProductDetail.ViewFor` | src/screens/ProductDetailScreen.tsx:61-75 | the loading view shows exactly while loading, then "not found" exactly when there is no product, otherwise the detail view |
| `ProductDetail.ProductDetailScreen.constructor` | src/screens/ProductDetailScreen.tsx:23-26 | starts with no product, loading, and quantity 1 |
| `ProductDetail.ProductDetailScreen.BeginLoad` | src/screens/ProductDetailScreen.tsx:34 | a load sets `isLoading` |
| `ProductDetail.ProductDetailScreen.FinishLoad` | src/screens/ProductDetailScreen.tsx:32-43 | a loaded product replaces the old one, a failure keeps it, and loading ends |
| `ProductDetail.ProductDetailScreen.HandleQuantityChange` | src/screens/ProductDetailScreen.tsx:53-59 | the quantity follows the plus or minus rule and stays in `[1, max(stock, 1)]` once it is there |
| `ProductScreen.HalfStarIffFractional` | src/screens/ProductScreen.tsx:83 | JavaScript's truncating `rating % 1`, that is `rating - trunc(rating)`, is non-zero exactly when the rating is not a whole number, negative ratings included |
| `ProductScreen.HasHalfStar` | src/screens/ProductScreen.tsx:83 | `hasHalfStar` holds exactly when the rating is not a whole number |
| `ProductScreen.RenderStars` | src/screens/ProductScreen.tsx:80-99 | the loop yields exactly 5 icons; icon k is `StarAt(rating, k)`, and full icons come before a half icon, which comes before outline icons |
| `ProductScreen.FullStarsUpToFloor` | src/screens/ProductScreen.tsx:82-87 | icon i is full exactly when `i <= floor(rating)` |
| `ProductScreen.AtMostOneHalfStar` | src/screens/ProductScreen.tsx:88-91 | any two half icons are the same position, `floor(rating) + 1`, and only for a rating that is not whole |
| `ProductScreen.FractionalRatingShowsHalf` | src/screens/ProductScreen.tsx:83-91 | a rating that is not whole does get its half icon at `floor(rating) + 1` |
| `ProductScreen.WholeRatingStars` | src/screens/ProductScreen.tsx:85-96 | a whole rating n in 0..5 gives n full icons followed by outline icons, with no half icon |
| `ProductScreen.OriginalPriceShown` | src/screens/ProductScreen.tsx:205-209 | the "was" price shows exactly for a positive discount; it is then the original-price formula, ≥ the price, and > the price when the price is positive |
| `ProductScreen.ViewFor` | src/screens/ProductScreen.tsx:120-145 | the loading view shows exactly while loading; otherwise the error view shows exactly when the error is truthy or the product is missing, with `error \|\| 'Product not found'` as its text |
| `ProductScreen.ProductScreen.constructor` | src/screens/ProductScreen.tsx:49-51 | starts with no product, loading, and no error |
| `ProductScreen.ProductScreen.BeginFetch` | src/screens/ProductScreen.tsx:61-62 | a fetch sets `loading` and clears `error` |
| `ProductScreen.ProductScreen.FinishFetch` | src/screens/ProductScreen.tsx:59-78 | success stores the product; failure stores the message and keeps the old product; loading ends, and a failure with a non-empty message then shows the error view |
| `Wishlist.Removed` | src/screens/WishlistScreen.tsx:63 | no remaining item has the id; every item with another id is kept; the length drops by the number of items with the id |
| `Wishlist.CountWithId` | src/screens/WishlistScreen.tsx:63 | helper for `Removed`'s length clause, not source behaviour: the number of items with an id is at most the length of the list |
| `Wishlist.RemovedAppend` | src/screens/WishlistScreen.tsx:63 | removal distributes over concatenation, so the kept items stay in their original order |
| `Wishlist.RemovedAbsent` | src/screens/WishlistScreen.tsx:63 | removing an id that is not present leaves the list unchanged |
| `Wishlist.RemovedIdempotent` | src/screens/WishlistScreen.tsx:63 | removing the same id twice is the same as removing it once |
| `Wishlist.ItemNoun` | src/screens/WishlistScreen.tsx:159 | the noun is "item" exactly for one item, "items" otherwise |
| `Wishlist.BodyFor` | src/screens/WishlistScreen.tsx:151-160 | an empty list shows the empty state; otherwise the count line gives the length, a noun and " in your wishlist" |
| `Wishlist.CountTextSingular` | src/screens/WishlistScreen.tsx:157-159 | the count line says "item" exactly when the list has one item, and "items" otherwise |
| `Wishlist.ActionsFor` | src/screens/WishlistScreen.tsx:81-106 | the bag button is disabled, and labelled "Notify Me", exactly when the item is out of stock; the original price shows exactly when it is truthy |
| `Wishlist.WishlistScreen.constructor` | src/screens/WishlistScreen.tsx:60 | the list starts as the four built-in items |
| `Wishlist.WishlistScreen.RemoveFromWishlist` | src/screens/WishlistScreen.tsx:62-64 | the list becomes `Removed` of the old list: no item has the id, and the length drops by its count |
| `FilterModal.Updated` | src/components/FilterModal.tsx:48-50 | the updated key holds the new value and every other key keeps its old value |
| `FilterModal.LastWriteWins` | src/components/FilterModal.tsx:48-50 | of two updates to the same key, the last one wins |
| `FilterModal.UpdatesCommute` | src/components/FilterModal.tsx:48-50 | updates to different keys can be applied in either order |
| `FilterModal.SameEverywhere` | src/components/FilterModal.tsx:48-50 | helper for `UpdatesCommute`, not source behaviour: two filter records that agree on every key are equal |
| `FilterModal.AtMostOneActiveChip` | src/components/FilterModal.tsx:74-92 | in a row of distinct options, at most one chip is active |
| `FilterModal.ChipOptionsDistinct` | src/constants/Api.ts:21-41 | the category list, the sort keys and the sort orders each contain no repeated entry |
| `FilterModal.PressedCategoryChipAlone` | src/components/FilterModal.tsx:74-92 | after a category chip is pressed, it is the only active category chip |
| `FilterModal.SortLabel` | src/components/FilterModal.tsx:131 | a sort-by chip's label is the value it writes into `sortBy` with its first letter upper-cased |
| `FilterModal.OrderLabel` | src/components/FilterModal.tsx:157 | a sort-order chip reads "Low to High" exactly for ascending and "High to Low" exactly for descending |
| `FilterModal.ChipLabelsDistinct` | src/components/FilterModal.tsx:116-160 | no two sort-by chips, and no two sort-order chips, carry the same label |
| `FilterModal.FilterModal.constructor` | src/components/FilterModal.tsx:31 | the local filters start equal to the incoming `filters` prop |
| `FilterModal.FilterModal.UpdateFilter` | src/components/FilterModal.tsx:48-50 | the local filters become `Updated` of the old ones: this key holds the value and the others are unchanged |
| `FilterModal.FilterModal.HandleReset` | src/components/FilterModal.tsx:37-46 | the local filters become the fixed defaults (`''`, 0, 10000, title, asc), whatever they were before |
| `FilterModal.FilterModal.HandleApply` | src/components/FilterModal.tsx:33-35 | apply returns exactly the current local filters |
| `ProductCard.Render` | src/components/ProductCard.tsx:36-68 | the badge and the struck-through price show exactly for a positive discount; the shown price is the discounted one, in `[0, price]`; the heart is filled exactly when liked |
| `ProductCard.LikeChangesOnlyHeart` | src/components/ProductCard.tsx:30-36 | the liked flag changes only the heart: no product field and no computed price changes |
| `ProductCard.LikedAfterOddPresses` | src/components/ProductCard.tsx:30-34 | starting unliked, the card is liked after n presses exactly when n is odd |
| `ProductCard.ProductCard.constructor` | src/components/ProductCard.tsx:30 | a card starts unliked |
| `ProductCard.ProductCard.HandleLike` | src/components/ProductCard.tsx:32-34 | each press flips the liked flag |

## Left out

- Network I/O and JSON decoding: `fetch`, `response.json()` and `encodeURIComponent`. A request's outcome is an argument, either a decoded page or product, or a failure.
- A response whose JSON lacks `products` or `total`. The model assumes a well-formed page, or else passes the failure in. In the source, a missing `products` on a refresh makes the `.map` at src/screens/HomeScreen.tsx:85 throw inside the `try`, which reaches the error path. On an append, the `.map` runs inside the `setProducts` updater (src/screens/HomeScreen.tsx:88-91), which React calls outside the `try`. So the `catch` does not see it, lines 94-96 still run, and the error surfaces only at render. A missing `total` is `undefined` and makes `hasMore` false.
- The exact URL strings. `HomeScreen.Endpoint` records the endpoint and its `q`, `limit` and `skip` parameters instead.
- src/services/api.ts, the fetch wrapper with a timeout, is not part of this model. The detail screen's `getProductById` result is an argument of `FinishLoad`.
- The 500 ms debounce timer, `clearTimeout` of the previous timer, and the unmount cleanup. `HandleSearch` and `SearchTimerFired` model the two halves; which timer fires is up to the caller.
- Overlapping requests, React state batching and stale closures. Events are applied one at a time to the current state. This includes `toggleLike`, which in the source maps over the list captured at render time.
- Floating point, `toFixed`, `Math.round` of the discount badge, and the random review count. All arithmetic is on exact reals.
- Rendering, styling, navigation, `Alert.alert`, `console.error`, image URLs (the wishlist's built-in items carry empty image strings), and the thumbnail selection on the detail screen, which only stores an index.
- The reviews section of the product screen: its visibility test is not modelled. `renderStars` is the same for review ratings.
- The home screen's filter button, which sets a flag that no rendered component reads.
- `FilterModal.FilterModal.UpdateFilter`: the source's `value: any` is narrowed to a value of the key's own type, because every call site passes one.
- The filter sheet ignores later changes to its `filters` prop, because `useState` reads the prop only once. Only the constructor models the prop.
- The login, register, profile, offers and onboarding screens and App.tsx. They have no state logic: login and register navigate without validating anything.
- Text.IntToString: numbers of magnitude 10^21 or more, which JavaScript writes in exponent form, are written in plain digits; totals and stock counts stay far below that.
