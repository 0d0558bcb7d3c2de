# Audilog and the local marketplace, modelled in Dafny

This project models the application logic of a small React marketplace with
an inventory ledger ("Audilog"):

- **The ledger** (`CsvManager`, in `csv_manager.dfy`). It is a single sequence of
  vendor and customer records kept under one storage key. It supports reading and
  writing the whole sequence, appending a record, merge-updating the first record
  with a uid, and the available-products projection. It also supports the purchase
  transaction: parse the product id, find the vendor record, check its stock,
  decrement that record and append a customer record. The store is the `stored`
  field of the class `Ledger`. The specification functions `Available`, `Update`
  and `Purchase` state each operation on values, and every method is tied to them.
- **The Audilog provider** (`AudilogContext`). It caches the ledger's records and
  available products. `Synced()` says that both caches agree with the store. The
  mount refresh, `refreshData`, `addVendorProduct` and a successful purchase
  establish `Synced()`. A refused purchase leaves both the caches and the store
  untouched, so it keeps `Synced()` when it held before.
- **The shopping cart** (`AppContext`). It models add, remove, set-quantity and
  clear over a list of lines keyed by product id. Each updater is a pure function
  of the previous cart, and the class `CartState` replaces its `cart` field with
  that function's result. The invariant `ValidCart` says ids are distinct and
  quantities are at least one. The source does not state it, but all three
  updaters preserve it.
- **The marketplace page** (`Marketplace`). It models the filter pipeline (search,
  category, distance and tags) and the category list.
- **The seller dashboard** (`Dashboard`). It models the sales total, the pending
  count, the sorted copy of the orders, pagination five to a page, the Previous and
  Next clamps, and the validation of the add-product form.
- **The cart preview** (`CartPreview`). It models the item and price totals, when
  the preview renders, and the "-" and "+" buttons.
- **The tag toggle** of the filter panel (`ProductFilters`).

`SeqUtil` holds the array operations the code relies on, written once over
sequences: `filter`, `map`, `findIndex` and `Array.from(new Set(...))`.
`Wrappers` holds `Option`.

Some behaviours of the code are stated as lemmas rather than assumed away:

- **No uid for vendor records.** `addVendorProduct` stores a vendor record
  without a uid. The product derived from such a record gets the id
  `"undefined-<name>"`, because the template literal renders the missing uid
  as "undefined". Such a product cannot be bought by its own id unless some
  record actually carries the uid "undefined" (`UidlessListingNotPurchasable`).
  For this reason record uids are `Option<string>`, and no uniqueness of uids
  is claimed.
- **Id parsing.** Ids are joined with `-` and split on `-`. An id parses back to
  its uid and name exactly when neither contains `-` (`ParseProductIdRoundTrip`).
  With separator-free parts, a listed product can be bought by its own id,
  provided no earlier vendor record has the same uid and name
  (`ListedProductPurchasable`). Nothing makes that pair unique: an earlier
  record with it receives every purchase of the listing, and the purchase is
  refused when that record is short of stock, whatever the listing holds
  (`ShadowedListingNotDesignated`). When the uid or the name contains `-`, the
  product's own id never designates its own record (`SeparatorIdMissesOwnRecord`). It may even designate another record:
  the product "a-b" of vendor "v1" has the id "v1-a-b", which parses as
  ("v1", "a"), so buying it decrements the vendor's "a" listing
  (`HyphenatedNameHitsOtherRecord`).
- **No positivity check on `quantity`.** A purchase with a negative `quantity` is
  accepted and raises the vendor's stock (`NegativeQuantityRaisesStock`).
- **`handleSaveProduct` stores nothing.** It only validates the form, then closes
  the modal and clears the form.

## Model

| member | source | states |
|---|---|---|
| CsvManager.Ledger.constructor | src/utils/csvManager.ts:11-14 | a store whose key was never written holds nothing, so it reads as empty |
| CsvManager.Ledger.ReadRecords | src/utils/csvManager.ts:11-14 | a read returns the last written sequence, or the empty sequence when nothing was written |
| CsvManager.Ledger.WriteRecords | src/utils/csvManager.ts:17-19 | a write replaces the whole store, and a later read returns exactly the written sequence |
| CsvManager.Ledger.AddRecord | src/utils/csvManager.ts:22-26 | the store grows by exactly one record at the end, and every earlier record is unchanged and in order |
| CsvManager.Ledger.UpdateRecord | src/utils/csvManager.ts:29-36 | with no record carrying the uid, the store is untouched; otherwise the store becomes `Update` of the old one |
| CsvManager.Merge | src/utils/csvManager.ts:33 | each field present in the patch overrides the record's field, each absent one keeps it, and the empty patch leaves the record as it was |
| CsvManager.Update | src/utils/csvManager.ts:29-36 | None exactly when no record carries the uid; otherwise only the first record with the uid changes, to its shallow merge with the patch, and the length is kept |
| CsvManager.ToProduct | src/utils/csvManager.ts:43-51 | a product copies the record's uid, name, count, dates and phone, and its id is uid + "-" + name |
| CsvManager.Available | src/utils/csvManager.ts:39-52 | every product comes from a vendor record with positive stock, mapped field by field, and has the id uid + "-" + name with count > 0; there are at most as many products as records |
| CsvManager.AvailableAppend | src/utils/csvManager.ts:41-51 | the projection keeps store order: the projection of a concatenation is the concatenation of the projections |
| CsvManager.AvailableSingle | src/utils/csvManager.ts:42-51 | one record yields its product exactly when it is a vendor record with positive stock, and nothing otherwise |
| CsvManager.AvailableAppendOne | src/utils/csvManager.ts:39-52 | appending a record appends its product when it is listed and leaves the projection alone otherwise |
| CsvManager.ListedRecordIsAvailable | src/utils/csvManager.ts:41-51 | every vendor record with positive stock appears among the products |
| CsvManager.Ledger.GetAvailableProducts | src/utils/csvManager.ts:39-52 | the result is the projection of the current store, and the store is not modified, so two calls agree |
| CsvManager.Split | src/utils/csvManager.ts:57 | `split` on one character gives at least one piece, no piece contains the separator, and joining the pieces with it gives the input back |
| CsvManager.ParseProductId | src/utils/csvManager.ts:57 | the destructured uid and name contain no separator, and the name is missing exactly when the id has no separator |
| CsvManager.ParseProductIdRoundTrip | src/utils/csvManager.ts:44-57 | an id built from a uid and a name parses back to them if and only if neither contains "-" |
| CsvManager.Purchase | src/utils/csvManager.ts:55-85 | refused exactly when no vendor record matches the parsed uid and name or the first match has less stock than `quantity`; otherwise that record's stock drops by `quantity` and stays non-negative, one customer record with the customer uid, the quantity, the name, an empty phone and the vendor's dates is appended, and every other record is unchanged |
| CsvManager.CustomerRecord | src/utils/csvManager.ts:72-80 | the appended row has type customer, the customer's uid, an empty phone, the purchased quantity and name, and the vendor row's dates |
| CsvManager.ListedProductPurchasable | src/utils/csvManager.ts:44-66 | a listed product with a separator-free uid and name, whose record is the first vendor record with that uid and name, is found by its own id and can be bought up to its stock |
| CsvManager.ShadowedListingNotDesignated | src/utils/csvManager.ts:57-66 | a listing preceded by a vendor record with the same uid and name is not designated by its own id; the purchase goes to the first such record and is refused exactly when that record is short of stock |
| CsvManager.SeparatorIdMissesOwnRecord | src/utils/csvManager.ts:44-64 | when the uid or the name contains "-", the product's own id never designates its own record |
| CsvManager.HyphenatedNameHitsOtherRecord | src/utils/csvManager.ts:44-84 | a vendor's product named n1-n2 has an id that parses as (uid, n1), so buying it succeeds against, and decrements, the vendor's earlier n1 record, while the n1-n2 record is unchanged |
| CsvManager.UidlessListingNotPurchasable | src/utils/csvManager.ts:44-64 | a product derived from a record without a uid has the id "undefined-<name>", and no purchase by that id succeeds unless a record has the uid "undefined" |
| CsvManager.NegativeQuantityRaisesStock | src/utils/csvManager.ts:64-69 | a negative quantity against a matched vendor record with non-negative stock is accepted and raises that stock |
| CsvManager.Ledger.ProcessPurchase | src/utils/csvManager.ts:55-85 | the result is true exactly when `Purchase` accepts; on success the store becomes `Purchase` of the snapshot read at the start, and on refusal nothing changes |
| AudilogContext.VendorRecord | src/contexts/AudilogContext.tsx:27-31 | the stored record has type vendor, no uid, and the vendor's phone, count, name and dates |
| AudilogContext.AudilogProvider.constructor | src/contexts/AudilogContext.tsx:44-46 | after the mount refresh, the cached records equal the store and the cached products equal its projection; the store is untouched |
| AudilogContext.AudilogProvider.RefreshData | src/contexts/AudilogContext.tsx:20-25 | the records cache becomes the store and the products cache becomes the projection of that same store; the store is untouched |
| AudilogContext.AudilogProvider.AddVendorProduct | src/contexts/AudilogContext.tsx:27-34 | the store gains exactly the vendor record at the end; the caches are synced again, the products grow by that record's product exactly when its count is positive, and no uid is returned |
| AudilogContext.AudilogProvider.PurchaseProduct | src/contexts/AudilogContext.tsx:36-42 | the result is exactly the ledger's purchase verdict; on success the store is the purchased one and the caches are refreshed; on refusal neither the caches nor the store change; synced caches stay synced |
| AppContext.AddedToCart | src/contexts/AppContext.tsx:179-190 | for an id already in the cart, the length is kept, every line with that id gains one and the others are unchanged; for a new id, the product is appended with quantity one; the id is in the cart afterwards |
| AppContext.RemovedFromCart | src/contexts/AppContext.tsx:194-195 | every line with the id goes; every other line stays, as many times as it occurred, and the order is kept |
| AppContext.QuantityUpdated | src/contexts/AppContext.tsx:199-208 | a quantity of zero or less is exactly removal; otherwise the length is kept, lines with the id take the new quantity, and the others are unchanged |
| AppContext.AddPreservesValid | src/contexts/AppContext.tsx:179-190 | adding keeps ids distinct and quantities at least one |
| AppContext.RemovePreservesValid | src/contexts/AppContext.tsx:194-195 | removing keeps ids distinct and quantities at least one |
| AppContext.UpdatePreservesValid | src/contexts/AppContext.tsx:199-208 | updating a quantity keeps ids distinct and quantities at least one |
| SeqUtil.FilterCounts | src/contexts/AppContext.tsx:195 | `filter` drops only copies of rejected elements: no element gains copies, and an accepted one keeps all of them |
| AppContext.CartState.constructor | src/contexts/AppContext.tsx:68 | the cart starts empty, which satisfies the cart invariant |
| AppContext.CartState.AddToCart | src/contexts/AppContext.tsx:179-192 | the cart becomes `AddedToCart` of the old cart, and the cart invariant is kept |
| AppContext.CartState.RemoveFromCart | src/contexts/AppContext.tsx:194-197 | the cart becomes `RemovedFromCart` of the old cart, and the cart invariant is kept |
| AppContext.CartState.UpdateQuantity | src/contexts/AppContext.tsx:199-209 | the cart becomes `QuantityUpdated` of the old cart, through removal when the quantity is not positive, and the cart invariant is kept |
| AppContext.CartState.ClearCart | src/contexts/AppContext.tsx:211-214 | the cart is empty |
| Marketplace.MatchesSearch | src/pages/Marketplace.tsx:49-55 | a term that lowers to the empty text matches every product |
| Marketplace.Shown | src/pages/Marketplace.tsx:49-67 | a shown product is within the distance bound; with no search term, category or tag selected, the distance bound is the only test |
| Marketplace.FilterStep | src/pages/Marketplace.tsx:57-61 | one optional filter keeps the order, keeps only accepted products when active, and keeps every product that passes |
| Marketplace.FilterStepCounts | src/pages/Marketplace.tsx:57-61 | one filter step drops copies only of products it rejects |
| Marketplace.PipelineShowsOnlyShown | src/pages/Marketplace.tsx:47-69 | whatever leaves the last stage passes every active test |
| Marketplace.PipelineKeepsShownCopies | src/pages/Marketplace.tsx:47-69 | a product passing every active test keeps all its copies through the four stages, and no product gains copies |
| Marketplace.FilterProducts | src/pages/Marketplace.tsx:46-70 | the result is a subsequence of the catalog in catalog order; every result passes the active search, category, distance and tag tests; every catalog product that passes them is in the result, as many times as in the catalog |
| Marketplace.Categories | src/pages/Marketplace.tsx:20 | every product's category is listed, each listed category belongs to some product, and none is listed twice |
| Marketplace.CategoriesInFirstOccurrenceOrder | src/pages/Marketplace.tsx:20 | categories are listed in the order in which the catalog first mentions them |
| Dashboard.TotalSales | src/pages/Dashboard.tsx:99 | with no negative order total, the sales total is not negative |
| Dashboard.TotalSalesAppend | src/pages/Dashboard.tsx:99 | the sales total is additive over concatenation |
| Dashboard.TotalSalesSingle | src/pages/Dashboard.tsx:99 | one order contributes its own total, so the total is the sum of the order totals |
| Dashboard.PendingOrders | src/pages/Dashboard.tsx:100 | the count equals the number of occurrences of the pending status among the orders |
| Dashboard.CompareOrders | src/pages/Dashboard.tsx:102-107 | by date, an order compares before another exactly when it is newer, and equal exactly when the dates are equal |
| Dashboard.SortedOrders | src/pages/Dashboard.tsx:102-107 | the sorted copy is a permutation of the orders, and the orders value itself is not changed |
| Dashboard.SortSorted | src/pages/Dashboard.tsx:102-107 | with a comparator that orders every pair one way or the other, each order compares before or equal to the next |
| Dashboard.SortedByDateNewestFirst | src/pages/Dashboard.tsx:103 | sorted by date, the orders are newest first |
| Dashboard.Slice | src/pages/Dashboard.tsx:109-112 | `slice` with non-negative bounds takes the positions from start up to end, both clamped to the length, and nothing when end is not after start |
| Dashboard.PaginatedOrders | src/pages/Dashboard.tsx:109-112 | a page holds at most five orders, exactly those at positions (page-1)*5 up to page*5-1 that exist |
| Dashboard.TotalPages | src/pages/Dashboard.tsx:114 | the page count is the ceiling of n/5: enough pages of five for n orders, and one fewer would not be enough |
| Dashboard.OrderOnItsPage | src/pages/Dashboard.tsx:109-114 | every order is shown on the page its position gives it, and that page exists |
| Dashboard.ShowPagination | src/pages/Dashboard.tsx:294 | the page controls show exactly when there are more than five orders |
| Dashboard.ShowingRange | src/pages/Dashboard.tsx:297 | the upper bound of the label, min(page*5, n), never exceeds n |
| Dashboard.ShowingRangeCountsShown | src/pages/Dashboard.tsx:297 | on an existing page, the label counts exactly the orders shown, and there is at least one |
| Dashboard.PreviousPage | src/pages/Dashboard.tsx:301 | Previous never goes below page one, and goes one page back otherwise |
| Dashboard.NextPage | src/pages/Dashboard.tsx:308 | Next never goes past the last page, and goes one page on otherwise |
| Dashboard.DashboardState.constructor | src/pages/Dashboard.tsx:12-22 | the dashboard starts on page one with the modal closed and the form empty |
| Dashboard.DashboardState.Previous | src/pages/Dashboard.tsx:301 | the page becomes the clamped previous page, at least one, and nothing else changes |
| Dashboard.DashboardState.Next | src/pages/Dashboard.tsx:308 | the page becomes the clamped next page, at most the page count, and nothing else changes |
| Dashboard.DashboardState.SaveProduct | src/pages/Dashboard.tsx:125-141 | with the name, price or description empty nothing changes; otherwise the modal closes, every form field is cleared, and the page is kept |
| ProductFilters.ToggleTag | src/components/ProductFilters.tsx:28-33 | the tag's membership flips; an absent tag is appended at the end; a present tag is removed everywhere while the other tags stay in order, each as many times as before |
| ProductFilters.ToggleTwiceRestores | src/components/ProductFilters.tsx:28-33 | toggling an absent tag twice gives back the original selection |
| CartPreview.TotalItems | src/components/CartPreview.tsx:10 | with no negative quantity the item total is not negative |
| CartPreview.TotalPrice | src/components/CartPreview.tsx:11 | the sum of price times quantity over the lines; its meaning is stated by `TotalsAppend` (additive over concatenation), `TotalsAfterReplace` (one line's change alone moves it) and `TotalPriceNonNegative` |
| CartPreview.TotalPriceNonNegative | src/components/CartPreview.tsx:11 | with no negative price or quantity the price total is not negative |
| CartPreview.TotalsAppend | src/components/CartPreview.tsx:10-11 | both totals are additive over concatenation |
| CartPreview.TotalsAfterReplace | src/components/CartPreview.tsx:10-11 | replacing one line changes the totals by the difference of the two lines alone |
| CartPreview.TotalItemsAtLeastLines | src/components/CartPreview.tsx:10 | in a valid cart the item total is at least the number of lines |
| CartPreview.VisibleIffNonEmpty | src/components/CartPreview.tsx:13 | for a valid cart, the preview renders exactly when the cart has a line |
| CartPreview.SetQuantityOfLine | src/contexts/AppContext.tsx:204-208 | in a valid cart, setting a positive quantity by a line's id changes that line alone |
| CartPreview.TotalsAfterIncrement | src/components/CartPreview.tsx:10-11 | one more unit of a line adds one item and that line's unit price |
| CartPreview.TotalsAfterDecrement | src/components/CartPreview.tsx:10-11 | one less unit of a line removes one item and that line's unit price |
| CartPreview.AddExistingIsIncrement | src/contexts/AppContext.tsx:181-188 | in a valid cart, adding a product already on a line raises that line alone by one |
| CartPreview.AddToCartTotals | src/contexts/AppContext.tsx:179-190 | adding to a valid cart adds one item and one unit price: that of the line already in the cart, or the product's own |
| CartPreview.OnDecrease | src/components/CartPreview.tsx:61 | at quantity one or less, "-" is exactly removal of the line, and the id is then absent |
| CartPreview.DecreaseTotals | src/components/CartPreview.tsx:61 | in a valid cart, above quantity one, "-" lowers that line alone by one, the item total by one and the price total by its unit price |
| CartPreview.OnIncrease | src/components/CartPreview.tsx:69 | "+" on a line with a non-negative quantity raises that line by one and keeps the length; on a negative quantity it removes the line |
| CartPreview.IncreaseTotals | src/components/CartPreview.tsx:69 | in a valid cart, "+" raises that line alone by one, the item total by one and the price total by its unit price |

## Left out

- Storage and serialisation are not modelled. `localStorage`, `JSON.parse` and `JSON.stringify` become the `stored` field of `Ledger`. Corrupt stored JSON would throw, which is host behaviour.
- Cart persistence is not modelled either. Saving and loading the cart in `localStorage` (src/contexts/AppContext.tsx:137-160) is host storage.
- `showToast` (a DOM element and a timer), geolocation, language selection and the sample catalog and orders are not modelled. They are side effects or fixed data with no logic to state.
- Numbers are modelled as integers: prices, totals, quantities and counts. The model does not capture floating-point rounding or NaN. `distance` is a `real` that is only compared.
- `date` is an integer timestamp. Parsing a `Date` is not modelled.
- `toLowerCase` and `localeCompare` are not interpreted. They are the parameters `lower` and `collate`, because case mapping and collation belong to the host library.
- Dashboard.SortedOrders: the engine's sort is replaced by an insertion sort. The contract states only that the result is a permutation. Sortedness is proved only for a comparator that orders every pair one way or the other (`SortSorted`), as the date comparator does. `Array.prototype.sort` is stable (ECMAScript 2019 and later). The insertion sort is stable too, because `Sort` inserts each element in front of every later element that compares equal to it, but no lemma states stability. The result under an inconsistent comparator is not modelled.
- Dashboard.DashboardState.SaveProduct: `productForm.images` holds file names, not `File` objects. Image upload, voice description and the sort and tag setters are not modelled; they are bare state setters fed by browser APIs.
- CsvManager.Merge: a patch field is either absent or holds a value. A key present with the value `undefined` is not modelled; the spread at src/utils/csvManager.ts:33 would copy `undefined` over the field.
- AudilogContext.VendorRecord: src/components/ProductForm.tsx:46-55 also passes `productDescription` and `productImage`. The spread at src/contexts/AudilogContext.tsx:28-31 stores them in the vendor row. `VendorData` drops these two fields, and nothing in the ledger reads them.
- No uid allocator is modelled, because the code has none. `addRecord` returns nothing, and `addVendorProduct` passes that on.
- The remaining files are not part of this model: rendering, routing, voice input, translation, trust metrics, the product form and the product grid. They are UI glue around the operations above.
