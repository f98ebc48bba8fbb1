# PharmaCare point of sale — a Dafny model of the cart, checkout and display rules

This project models the logic of the FarmaSystem/PharmaCare pharmacy front end. That front end is
a Next.js application whose screens call a REST backend. The model covers:

- the **point-of-sale cart store**: lines keyed by product id, merge on re-add, removal,
  quantity updates bounded by stock;
- the **pricing** folds: subtotal, 18 % IGV tax and total, computed two ways;
- the **sale submission**: the payload sent to `POST /sales`, and how the no-token, success and
  failure outcomes update the page's state;
- the **checkout dialog**: the customer lookup, defaulting of blank buyer fields, and the
  confirmation gate;
- the **classification and filter rules** of the inventory table, the product grid and the
  sidebar.

Modules follow the source files:

| module | file | form |
|---|---|---|
| `PosPage` | app/pos/page.tsx | pure cart functions, plus class `PointOfSale`. The class holds `cartItems`, `isCheckoutOpen` and `isProcessing`, and its methods update them as `setCartItems` does. |
| `CartView` | components/pos/cart.tsx | pure folds and button/badge rules |
| `CheckoutDialog` | components/pos/checkout-dialog.tsx | pure submit decision, plus class `Dialog`. The class holds `clientDni`, `clientName` and `isSearching`. |
| `ProductGrid` | components/pos/product-grid.tsx | pure |
| `InventoryTable` | components/inventory/inventory-table.tsx | pure |
| `Sidebar` | components/sidebar.tsx | pure |
| `ApiTypes`, `CartItems` | types/api.ts, the cart line shape | datatypes |
| `Seqs`, `Text`, `Wrappers` | `Array.filter`, `toLowerCase`/`includes`/`startsWith`, optional values | helpers |

Modelling choices:

- Money is `real`. The two total formulas (`subtotal * 1.18` and `subtotal + subtotal * 0.18`)
  are therefore proved equal exactly.
- Every `reduce(..., 0)` is a left fold, recursing on the last element.
- A cart line carries an optional `salePrice`, because the cart holds untyped objects and
  reads `item.salePrice || 0`.
- The network calls are abstract outcome datatypes passed in as parameters:
  `SaleResponse`, `LookupOutcome`.
- The stored token is an `Option<string>`. `!token` is true both for a missing token and for
  the empty string.
- The browser's `confirm` answer is a boolean parameter.
- The days until expiry are an `int` field of an inventory row.

The two stock checks read different values, as in the source. Re-adding a product compares the
line's quantity with the product's **incoming** stock (app/pos/page.tsx:28). Updating a quantity
compares it with the line's **stored** stock snapshot (app/pos/page.tsx:48). As a result, a
product whose stock grew between two clicks can push its line past the stored snapshot
(`StaleSnapshotExceedsStoredStock`). Also, `addToCart` itself never checks the stock of a
product that is not yet in the cart; only the grid's disabled button keeps such products out
(`RepeatedAdd`, `GridAddKeepsWithinStock`).

Notes on the code:

- a new product is appended without a stock check;
- the seller id is `user?.id || 1`;
- a failed customer lookup blanks the name instead of only signalling "not found";
- the tax rate is a literal in two places: `1.18` in app/pos/page.tsx and `0.18` in
  components/pos/cart.tsx.

## Model

| member | source | states |
|---|---|---|
| `PosPage.FindLine` | app/pos/page.tsx:27 | `find` returns the first line carrying the id, and `None` exactly when no line carries it |
| `PosPage.AddRejected` | app/pos/page.tsx:28 | `existing && existing.quantity >= product.stock`: a refusal needs a line with the id whose quantity has reached the incoming stock; an id not in the cart is never refused |
| `PosPage.FindUnique` | app/pos/page.tsx:47 | in a cart with unique ids, `find` returns the one line with that id |
| `PosPage.MapQuantity` | app/pos/page.tsx:33 | the `map` rewrites the quantity of every line with the id and leaves the others as they were, same length and order |
| `PosPage.Added` | app/pos/page.tsx:26-37 | when the line holds at least the incoming stock, the add is refused and the cart is unchanged. Otherwise an existing id gets exactly +1 on its line and all other lines are unchanged. A new id is appended at the end with quantity 1 |
| `PosPage.Removed` | app/pos/page.tsx:39-41 | every line with the id is gone and the rest keep their order (a subsequence). An absent id changes nothing |
| `PosPage.UpdateRejected` | app/pos/page.tsx:48 | `item && quantity > item.stock`, reached only for a positive quantity: a refusal needs a line with the id whose stored stock is below the quantity; q ≤ 0 or an absent id is never refused |
| `PosPage.RemovedCounts` | app/pos/page.tsx:39-41 | each line with another id stays as many times as it was in the cart; no line with the id stays |
| `PosPage.Updated` | app/pos/page.tsx:43-54 | q ≤ 0 is `removeFromCart`. A positive q above the line's stored stock leaves the cart unchanged, and so does an absent id. Otherwise only that line's quantity becomes q |
| `PosPage.AddKeepsInvariant` | app/pos/page.tsx:26-37 | adding keeps ids unique and quantities ≥ 1, so any sequence of adds does |
| `PosPage.RemoveKeepsInvariant` | app/pos/page.tsx:39-41 | removing keeps ids unique and quantities ≥ 1 |
| `PosPage.UpdateKeepsInvariant` | app/pos/page.tsx:43-54 | updating keeps ids unique and quantities ≥ 1 |
| `PosPage.UpdateKeepsWithinStock` | app/pos/page.tsx:47-52 | an update never takes a line above its stored stock |
| `PosPage.AddKeepsWithinStock` | app/pos/page.tsx:27-35 | adding keeps lines within stored stock when the incoming stock is ≥ 1 and no larger than the line's snapshot |
| `PosPage.GridAddKeepsWithinStock` | components/pos/product-grid.tsx:113-114 | a product handed over by the enabled "+" button keeps the cart's invariant and stock bound, when the grid's current stock is no larger than the line's stored snapshot |
| `PosPage.StaleSnapshotExceedsStoredStock` | app/pos/page.tsx:28 | because re-add checks the incoming stock, a line can exceed its stored stock (concrete witness) |
| `PosPage.FindAfterAbsent` | app/pos/page.tsx:27 | `find` on a cart whose only line with the id is the last returns that line |
| `PosPage.AddToLastLine` | app/pos/page.tsx:27-33 | re-adding the product of the last line either refuses or raises only that line by one |
| `PosPage.RepeatedAdd` | app/pos/page.tsx:26-37 | n adds of a new product give one line at the end, with quantity min(n, incoming stock), and at least 1 (`CappedQuantity`); that quantity lies between 1 and n and, for a positive stock, within it |
| `PosPage.PlusAgreesWithReAdd` | components/pos/cart.tsx:66 | with an unchanged stock, the plus button and re-adding the product give the same cart |
| `PosPage.MinusOnLastUnitRemoves` | components/pos/cart.tsx:59 | minus on a line with quantity 1 requests 0, which removes the line (app/pos/page.tsx:44-45) |
| `PosPage.MinusLowersByOne` | components/pos/cart.tsx:59 | minus on a line with quantity > 1 lowers only that line, by one |
| `PosPage.MergeTouchesOnlyLine` | app/pos/page.tsx:32-33 | an accepted re-add changes only line k, by +1 |
| `PosPage.MergeRaisesSubtotal` | app/pos/page.tsx:111 | merging into line k raises the subtotal by that line's unit price |
| `PosPage.AddRaisesSubtotal` | app/pos/page.tsx:111 | an accepted add raises the subtotal by one unit price: the stored line's when merging, the product's when appending |
| `PosPage.TotalAmount` | app/pos/page.tsx:111-112 | `subtotal * 1.18` equals the panel's `subtotal + tax` (components/pos/cart.tsx:16-17) |
| `PosPage.SellerId` | app/pos/page.tsx:72 | the user's id when present and non-zero, otherwise 1; never 0 |
| `PosPage.SaleItems` | app/pos/page.tsx:73-76 | one `{productId, quantity}` per line, same length and order |
| `PosPage.BuildPayload` | app/pos/page.tsx:69-77 | the payload carries the dialog's dni and name, `SellerId` and `SaleItems` of the cart |
| `PosPage.PayloadNamesEachProductOnce` | app/pos/page.tsx:69-77 | a valid cart yields items with distinct product ids and positive quantities |
| `PosPage.SaleOutcomeOf` | app/pos/page.tsx:61-104 | no token means `NoToken`. `Ok` exactly when there is a token and the response is 2xx. A refusal reports the server's message or the non-empty fallback |
| `PosPage.CartAfterSale` | app/pos/page.tsx:98 | the cart is emptied on success only |
| `PosPage.HasToken` | app/pos/page.tsx:63 | the negation of `!token`: no token and the empty string both count as missing; a present token is non-empty |
| `PosPage.PointOfSale.constructor` | app/pos/page.tsx:16-20 | empty cart, dialog closed, not processing |
| `PosPage.PointOfSale.AddToCart` | app/pos/page.tsx:26-37 | the new cart is `Added(old cart)`. It reports refusal exactly as `AddRejected`, keeps the invariant and leaves the flags alone |
| `PosPage.PointOfSale.RemoveFromCart` | app/pos/page.tsx:39-41 | the new cart is `Removed(old cart)`; the invariant and the flags are kept |
| `PosPage.PointOfSale.UpdateQuantity` | app/pos/page.tsx:43-54 | the new cart is `Updated(old cart)`; it reports refusal exactly as `UpdateRejected` |
| `PosPage.PointOfSale.CheckoutClick` | components/pos/cart.tsx:100-104 | the dialog opens only on a non-empty cart (app/pos/page.tsx:144) |
| `PosPage.PointOfSale.HandleConfirmSale` | app/pos/page.tsx:57-108 | without a token nothing is sent and the cart is unchanged. Otherwise the payload of the current cart is sent; success empties the cart and closes the dialog, failure keeps both. Processing ends false |
| `PosPage.AddTwiceThenSell` | app/pos/page.tsx:26-112 | two adds of one product give quantity 2 and total 2 × price × 1.18. A successful sale sends `[{productId, 2}]` with seller 1 |
| `CartItems.NewLine` | app/pos/page.tsx:35 | a new line copies the product's id, price and stock with quantity 1 |
| `CartView.Subtotal` | components/pos/cart.tsx:15 | the fold; an empty cart gives 0 |
| `CartView.Tax` | components/pos/cart.tsx:16 | tax is 0.18 × subtotal |
| `CartView.Total` | components/pos/cart.tsx:17 | total is 1.18 × subtotal |
| `CartView.SubtotalAppend` | components/pos/cart.tsx:15 | the fold is a sum: subtotal(a + b) = subtotal(a) + subtotal(b) |
| `CartView.SubtotalNonNegative` | components/pos/cart.tsx:15-17 | with non-negative prices and quantities, 0 ≤ subtotal and 0 ≤ tax ≤ total |
| `CartView.SubtotalChangeAt` | components/pos/cart.tsx:15 | carts that differ in one line differ in subtotal by that line's change in amount |
| `CartView.OneMoreUnit` | components/pos/cart.tsx:15 | one more unit adds the line's price (missing price counted as 0) |
| `CartView.SubtotalOneMoreAt` | components/pos/cart.tsx:15 | raising one line by one unit raises the subtotal by its price |
| `CartView.LineTotal` | components/pos/cart.tsx:74 | the line total is price × quantity; it is absent exactly when the price is missing, where the source's `salePrice.toFixed(2)` on line 72 throws before this line is reached |
| `CartView.SubtotalSumsLineTotals` | components/pos/cart.tsx:15-74 | when every price is present, the subtotal equals the sum of the displayed line totals |
| `CartView.BadgeAtMostUnits` | components/pos/cart.tsx:29 | the badge counts lines: it is ≤ the units, and equal exactly when every quantity is 1 |
| `CartView.ItemBadge` | components/pos/cart.tsx:29 | the badge is `items.length`; it reads 0 exactly when the checkout button is disabled |
| `CartView.CheckoutDisabled` | components/pos/cart.tsx:103 | the checkout button is disabled exactly when the cart has no lines |
| `CartView.MinusRequest` | components/pos/cart.tsx:59 | minus requests a quantity below the current one |
| `CartView.PlusRequest` | components/pos/cart.tsx:66 | plus requests a quantity above the current one |
| `CheckoutDialog.NameAfterLookup` | components/pos/checkout-dialog.tsx:30-39 | a found customer gives its `nombre`; not-found and errors give "" |
| `CheckoutDialog.SubmitDecision` | components/pos/checkout-dialog.tsx:45-53 | nothing is submitted exactly when the name is blank and the confirmation is declined. Blank dni becomes "00000000" and blank name becomes "PÚBLICO GENERAL"; non-blank values pass through |
| `CheckoutDialog.PressConfirm` | components/pos/checkout-dialog.tsx:102 | while processing the confirm button submits nothing |
| `CheckoutDialog.LookupThenSubmit` | components/pos/checkout-dialog.tsx:25-53 | after a successful lookup with a name, the sale goes through under that name. After a failed one it goes through only if confirmed, as the walk-in customer |
| `CheckoutDialog.Dialog.constructor` | components/pos/checkout-dialog.tsx:20-22 | both fields blank, not searching |
| `CheckoutDialog.Dialog.SetClientDni` | components/pos/checkout-dialog.tsx:78 | the document input replaces only `clientDni` |
| `CheckoutDialog.Dialog.SetClientName` | components/pos/checkout-dialog.tsx:92 | the name input replaces only `clientName` |
| `CheckoutDialog.Dialog.HandleSearchClient` | components/pos/checkout-dialog.tsx:25-43 | a blank document does nothing. Otherwise the name becomes `NameAfterLookup(outcome)`, the document is kept and the spinner ends off |
| `CheckoutDialog.Dialog.HandleSubmit` | components/pos/checkout-dialog.tsx:45-53 | submits `PressConfirm` of the dialog's fields; a submitted name and dni are never blank |
| `ProductGrid.TotalStock` | components/pos/product-grid.tsx:28 | the batch sum, and 0 when `batches` is absent or empty |
| `ProductGrid.CurrentStock` | components/pos/product-grid.tsx:72 | `product.totalStock`, falling back to 0 when it is absent |
| `ProductGrid.BatchSumAppend` | components/pos/product-grid.tsx:28 | the batch fold is a sum over concatenation |
| `ProductGrid.BatchSumNonNegative` | components/pos/product-grid.tsx:28 | non-negative batch stocks give a non-negative total |
| `ProductGrid.Processed` | components/pos/product-grid.tsx:25-29 | processing sets `totalStock` to the batch sum and changes nothing else |
| `ProductGrid.FilterProducts` | components/pos/product-grid.tsx:37-41 | a product is kept iff the lower-cased query is in its lower-cased name or SKU; the result is an order-preserving subsequence |
| `ProductGrid.FilterProductsCounts` | components/pos/product-grid.tsx:37-41 | each matching product occurs in the result exactly as often as in the list, and no other product occurs (`Array.filter` keeps duplicates) |
| `ProductGrid.EmptyQueryKeepsAllProducts` | components/pos/product-grid.tsx:37-41 | an empty query keeps every product |
| `ProductGrid.ResultCount` | components/pos/product-grid.tsx:51 | the count is at most the product count and equals it for an empty query |
| `ProductGrid.StockBadge` | components/pos/product-grid.tsx:95 | "outline" iff stock > 10, "secondary" iff 0 < stock ≤ 10, "destructive" iff stock ≤ 0 |
| `ProductGrid.AddDisabled` | components/pos/product-grid.tsx:114 | "+" is disabled exactly when the badge is destructive |
| `ProductGrid.HandOff` | components/pos/product-grid.tsx:113 | the cart receives the product's id, name and price, with stock the current stock (`totalStock`, or 0 when absent, line 72) |
| `ProductGrid.PressAdd` | components/pos/product-grid.tsx:113-114 | nothing reaches the cart iff current stock ≤ 0; what does has stock ≥ 1 |
| `ProductGrid.HandOffCarriesBatchSum` | components/pos/product-grid.tsx:25-29 | for a fetched product the cart receives the summed batch stock (lines 72 and 113) |
| `InventoryTable.GetStockStatus` | components/inventory/inventory-table.tsx:96-100 | "Agotado" iff stock ≤ 0 whatever the minimum; "Bajo Stock" iff 0 < stock < minStock; otherwise "En Stock" |
| `InventoryTable.GetExpiryStatus` | components/inventory/inventory-table.tsx:102-110 | days < 0 gives "Vencido"; 0 ≤ days < 90 gives "Próximo a vencer"; otherwise "Válido". The warning is on iff days < 90 |
| `InventoryTable.FilterInventory` | components/inventory/inventory-table.tsx:89-94 | a row is kept iff the lower-cased query is in its lower-cased name, SKU or category; the result is an order-preserving subsequence |
| `InventoryTable.FilterInventoryCounts` | components/inventory/inventory-table.tsx:89-94 | each matching row occurs in the result exactly as often as in the list, and no other row occurs (`Array.filter` keeps duplicates) |
| `InventoryTable.EmptyQueryKeepsAllItems` | components/inventory/inventory-table.tsx:89-94 | an empty query keeps every row |
| `InventoryTable.StockTotalAppend` | components/inventory/inventory-table.tsx:218 | the stock total is a sum over the rows |
| `InventoryTable.ProductCount` | components/inventory/inventory-table.tsx:213 | `filteredData.length`, 0 exactly when no row survives the filter |
| `InventoryTable.StockTotal` | components/inventory/inventory-table.tsx:218 | the left fold of `stock` over the filtered rows from 0: 0 when there are none, non-negative when every row's stock is |
| `InventoryTable.LowStockCount` | components/inventory/inventory-table.tsx:224 | at most the product count |
| `InventoryTable.NearExpiryCount` | components/inventory/inventory-table.tsx:231-236 | at most the product count |
| `InventoryTable.LowStockCountsBothBadges` | components/inventory/inventory-table.tsx:224 | the low-stock figure is the rows badged "Bajo Stock" plus the "Agotado" rows whose stock is under their minimum |
| `InventoryTable.OutOfStockRowCountsAsLow` | components/inventory/inventory-table.tsx:224 | a row with no stock and a positive minimum counts as low stock (line 224) while badged "Agotado" (line 97) |
| `InventoryTable.NearExpiryCountMatchesBadge` | components/inventory/inventory-table.tsx:231-236 | the near-expiry figure is exactly the number of rows badged "Próximo a vencer" |
| `Sidebar.HomeActiveOnlyAtRoot` | components/sidebar.tsx:71 | "/" is active iff the path is exactly "/" |
| `Sidebar.MenuItemActive` | components/sidebar.tsx:71 | equality with the path, or a raw `startsWith` match for any href but "/": "/" is active only on "/"; any other href exactly when it is a raw prefix of the path |
| `Sidebar.BottomItemActive` | components/sidebar.tsx:95 | `pathname === item.href`: the href is a prefix of the path and exactly as long |
| `Sidebar.PrefixIgnoresSegments` | components/sidebar.tsx:71 | "/pos" is active for "/posx" and "/pos/1". A bottom item (line 95) is not active on a longer path |
| `Sidebar.MenuHrefsPrefixFree` | components/sidebar.tsx:8-34 | no non-root menu href is a prefix of another |
| `Sidebar.AtMostOneMenuItemActive` | components/sidebar.tsx:8-71 | for any path at most one menu item is active |
| `Text.Includes` | components/inventory/inventory-table.tsx:91-93 | `includes` holds iff the needle occurs at some position |

## Left out

- Network calls are not modelled. `fetch` to `/products`, `/sales` and `/customers/{dni}` is
  represented by the outcome datatypes passed in. `response.json()` failing after a 2xx is not
  modelled.
- The rest of the repository is not part of this model: the login and user screens, the reports
  screens, the route guard and the auth provider.
- Browser effects are not modelled: `alert`, `console.error`, `window.location.reload`,
  `router.push` and `localStorage`. The stored token is a parameter.
- `fetchProducts` and its `loading` flag are left out as I/O. Only the per-product `totalStock`
  step (`Processed`) is modelled.
- The source recomputes days until expiry from `new Date()` on every render, with `Math.floor`.
  The model takes the day count as a row field, so both badge and footer see one instant.
- `MOCK_INVENTORY`'s concrete rows are left out. The table functions take any list of rows.
- `sortBy` is left out: the source declares it and never uses it.
- Prices are exact reals. JavaScript floating-point rounding, NaN, and `toFixed(2)` display
  formatting are left out. The two total formulas are equal over reals, not necessarily in
  floating point.
- `isProcessing` and `isSearching` are modelled as plain flags set and cleared within one call.
  Interleaving of asynchronous callbacks is not modelled.
- `Text.ToLower`: lowers ASCII letters only, because JavaScript's full Unicode `toLowerCase` has
  no counterpart here. Queries with accented capitals such as "Á" are not folded.
- `PosPage.MinusLowersByOne`: requires the line to be within its stored stock. A line pushed
  past its snapshot by a stale re-add (`StaleSnapshotExceedsStoredStock`) can have its minus
  press refused by the same bound.
- `CartView.LineTotal`: with a missing price (`undefined` or `null`), `toFixed` throws at components/pos/cart.tsx:72 before line 74 is reached; the model returns `None`, and the failed render itself is not modelled.
- `PosPage.FindLine`: product ids are integers compared with `===`. Mixed id types from the
  untyped cart are not modelled.
