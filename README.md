# MÍSTICA inventory core, modelled in Dafny

MÍSTICA is an inventory dashboard for a shop of organic, aromatic and wellness
products. This project models its bookkeeping core and proves properties of it:

- **Stock arithmetic** (`StockUtils`, from `lib/stock-utils.ts`):
  - folding stock movements (`entrada`, `salida`, `ajuste`) into a current stock;
  - classifying a stock level as `sin_stock`, `stock_critico` or `stock_bajo`;
  - validating a manual adjustment;
  - per-type movement statistics over an inclusive date window;
  - the stock report;
  - sorting movements newest first and grouping them by product.
- **Stock ledger** (`Stock.StockStore`, from `stores/stock.store.ts`): four lists.
  - Movements, alerts and adjustments are each kept newest first.
  - Settings hold one row per product.
  - Alerts keep two invariants: ids are unique, and at most one alert per (product, type) is active.
- **Product catalog** (`Products.ProductStore`, from `stores/product.store.ts`):
  - add, update-by-id, delete, look-ups and statistics;
  - the three stock operations `updateStock`, `reduceStock` and `addStock`, with their "Product not found" and "Insufficient stock" failures.
- **Barcodes** (`BarcodeUtils`, from `lib/barcode-utils.ts`):
  - the home-grown "MST" + six clock digits + four-digit id format: its generator, validator and id extraction;
  - the profit-margin helper.
- **Activity log** (`Activities.ActivityStore`, from `stores/activity.store.ts`): a newest-first list of business events with a request status.
- **Session** (`Auth.AuthStore`, from `stores/auth.store.ts`): login with the credential check's answer as input, logout, the persisted projection and the normalisation applied on reload.

## Modelling choices

- **Stores as classes.** Each zustand store is a Dafny class whose fields are the store's state. Each action is a method with a `modifies` clause. The method states the new state through a pure function of the old state, and lemmas prove properties of that function.
- **Parameters for effects.** Ids (`crypto.randomUUID`) and the clock (`new Date()`, `Date.now()`) are method parameters. Fresh alert ids are required to be unused, as random UUIDs are. One clock reading stands for every clock read within an operation. So a new product's `createdAt` and `updatedAt` are equal, and an adjustment and the movement it creates share one timestamp, where JavaScript may read two instants a millisecond apart.
- **Collaborator stores.** The catalog's stock operations write to a stock ledger, and the ledger's `addMovement` writes to the activity log, only when these are registered on `window`. In the model they are nullable parameters: `null` means not registered.
- **Numbers.**
  - Stock quantities are integers.
  - For an integer stock, the comparison `currentStock <= minStock * 0.5` is exactly `2 * currentStock <= minStock`.
  - Prices and thresholds are reals.
  - Times are integer milliseconds, which is what comparing two `Date`s compares.
- **JavaScript behaviour written out.**
  - `String.prototype.trim` removes the ECMAScript white-space set.
  - `slice(0, limit)` counts a negative limit back from the end.
  - `padStart` never truncates.
  - `slice(-6)` keeps all of a shorter string.
  - `\d` matches ASCII digits only.
  - A `null` or empty error string is falsy.
  - `Math.round` rounds half up.

### Edge cases of the code

- **Short reasons.** A reason must have at least three UTF-16 code units once trimmed (lib/stock-utils.ts:170). So `validateStockAdjustment(5, 6, "ok")` fails with the too-short message (`StockUtils.TwoLetterReasonIsTooShort`). Two emoji pass, because each counts as two code units (`StockUtils.TwoEmojiReasonIsLongEnough`).
- **Negative stock.** The classification tests `currentStock === 0` before the bands (lib/stock-utils.ts:28-33). So a negative stock under a non-negative minimum is `stock_critico`, not `sin_stock` (`StockUtils.NegativeStockIsCritical`).
- **Barcode length.** The generator's doc comment promises a 13-character code (lib/barcode-utils.ts:5). The code keeps that length, and passes its own validator, only for integer ids 0..9999 and a clock of at least six digits; see "Findings".

## Model

| member | source | states |
|---|---|---|
| StockUtils.ApplyMovement | lib/stock-utils.ts:7-18 | one reducer step: `entrada` adds its quantity, `salida` subtracts it, `ajuste` replaces the running total by its `newStock`; `StockUtils.CurrentStockSnoc` ties it to the fold |
| StockUtils.CalculateCurrentStock | lib/stock-utils.ts:6-19 | without any `ajuste`, the stock is the sum of `entrada` quantities minus the sum of `salida` quantities |
| StockUtils.CurrentStockSnoc | lib/stock-utils.ts:7-18 | appending a movement applies exactly one step to the previous stock: `entrada` adds, `salida` subtracts, `ajuste` sets `newStock` |
| StockUtils.CurrentStockAfterLastAdjustment | lib/stock-utils.ts:13-14 | when the last `ajuste` is at position k, the stock is its `newStock` plus the entradas minus the salidas after it |
| StockUtils.CurrentStockIgnoresPrefix | lib/stock-utils.ts:13-14 | movements before a list that contains an `ajuste` have no effect on the stock |
| StockUtils.GetAlertType | lib/stock-utils.ts:24-41 | zero stock is `sin_stock` whatever the minimum; otherwise `stock_critico` iff `2*stock <= min`, `stock_bajo` iff `min/2 < stock <= min`, none iff `stock > min`; each an if-and-only-if |
| StockUtils.AlertTypeForPositiveStock | lib/stock-utils.ts:32-40 | for positive stock the classification is the three bands (0, min/2], (min/2, min], above min |
| StockUtils.NegativeStockIsCritical | lib/stock-utils.ts:28-34 | a negative stock under a non-negative minimum is `stock_critico`, not `sin_stock` |
| StockUtils.SeverityAntitone | lib/stock-utils.ts:28-40 | less stock never yields a milder classification |
| StockUtils.Trim | lib/stock-utils.ts:163-170 | the trimmed reason is the input with an all-white prefix and an all-white suffix removed (`PaddedAt`); it is empty exactly when the reason is all white space, and otherwise starts and ends with a non-space character |
| StockUtils.ValidateStockAdjustment | lib/stock-utils.ts:151-178 | valid iff `newStock >= 0` and the trimmed reason has at least 3 UTF-16 code units (JavaScript `length`); the error is the first failing check in the order negative, missing, too short, and is absent exactly when valid |
| StockUtils.ValidationIgnoresCurrentStock | lib/stock-utils.ts:151-155 | the verdict never depends on `currentStock` |
| StockUtils.TwoLetterReasonIsTooShort | lib/stock-utils.ts:170-175 | the reason "ok" fails with the too-short message even for a non-negative new stock |
| StockUtils.TwoEmojiReasonIsLongEnough | lib/stock-utils.ts:170-175 | a reason of two emoji is accepted: each counts as two UTF-16 code units |
| Types.Utf16Length | lib/stock-utils.ts:170 | the JavaScript length lies between the number of characters and twice it, and equals it when no character is outside the Basic Multilingual Plane |
| StockUtils.MovementsInWindow | lib/stock-utils.ts:109-117 | keeps exactly the movements inside the inclusive window, with an absent bound meaning unbounded, and keeps all of them when both bounds are absent |
| StockUtils.GetMovementStats | lib/stock-utils.ts:97-146 | the accumulating loop yields, for the kept movements, the per-type quantity sums, the absolute-quantity sum for `ajuste` (never negative) and the per-type counts |
| StockUtils.CountsCoverAll | lib/stock-utils.ts:119-145 | the three counts add up to the number of movements kept |
| StockUtils.AdjustmentTotalBoundsCount | lib/stock-utils.ts:130-133 | with no zero quantities, `totalAjustes` is at least `cantidadAjustes` |
| StockUtils.AlertTypesPartition | lib/stock-utils.ts:206-208 | the three per-type counts of a list of alerts add up to its length |
| StockUtils.RecentMovementsSince | lib/stock-utils.ts:197-199 | keeps exactly the movements created at or after seven days before `now` |
| StockUtils.GenerateStockReport | lib/stock-utils.ts:183-212 | `totalProducts` is the catalog size; `totalStockValue` is the sum of costPrice times stock; the low, critical and out-of-stock counts are the numbers of active alerts of each type, and add up to the active alerts <= all alerts; `recentMovements` counts the last week's movements |
| StockUtils.SortMovementsByDate | lib/stock-utils.ts:217-219 | the result is a permutation of the input, ordered by non-increasing `createdAt` |
| StockUtils.GroupPush | lib/stock-utils.ts:225-230 | one reduce step (create the group if missing, then push) keeps every group equal to its product's movements in order |
| StockUtils.GroupMovementsByProduct | lib/stock-utils.ts:224-232 | one group per product that has movements, holding exactly that product's movements in their original order |
| Activities.StampActivity | stores/activity.store.ts:45-49 | the stored activity carries the draft's type, description, amount, user and metadata unchanged, the fresh id and the current date |
| Activities.ActivityStore.constructor | stores/activity.store.ts:40-42 | the log starts empty and idle with no error |
| Activities.ActivityStore.AddActivity | stores/activity.store.ts:44-56 | prepends exactly one stamped activity, keeps the old ones after it, and reports success with no error |
| Activities.ActivityStore.GetActivitiesByType | stores/activity.store.ts:62-64 | exactly the activities of that type; all of them when every activity has it |
| Activities.ActivityStore.GetRecentActivities | stores/activity.store.ts:66-68 | a prefix of the stored list of length min(limit, size), ten by default |
| Activities.ActivityStore.ClearActivities | stores/activity.store.ts:70-76 | empty list, idle, no error |
| Activities.ActivityStore.SetLoading | stores/activity.store.ts:78-83 | loading clears the error; leaving loading gives idle and keeps the error |
| Activities.ActivityStore.SetError | stores/activity.store.ts:85-90 | stores the error; status is error when the message is non-empty, else success |
| Stock.StampMovement | stores/stock.store.ts:50-54 | the stored movement carries every field of the draft unchanged (product, type, quantity, reason, reference, user, previous and new stock), the fresh id and the timestamp |
| Stock.StampAlert | stores/stock.store.ts:109-113 | the new alert carries every field of the draft unchanged, the fresh id and the creation time |
| Stock.ActivityForMovement | stores/stock.store.ts:64-74 | `entrada` is logged as `ingreso`, `salida` as `egreso` and `ajuste` as `cambio_producto`; the description reads "<Entrada/Salida/Ajuste> de stock: <reason>"; no amount, user or metadata is set |
| Stock.ActiveAlertsFor | stores/stock.store.ts:92-96 | exactly the active alerts of one (product, type) key |
| Stock.FindActiveAlert | stores/stock.store.ts:92-96 | absent iff no alert of the key is active; otherwise the position of an active alert of the key |
| Stock.AlertsAfterCreate | stores/stock.store.ts:90-119 | the list grows by one exactly when the key has no active alert; an active draft always leaves an active alert of its key carrying the draft's stock (see also the create-alert lemmas below) |
| Stock.CreateAlertRefreshesOnlyTheMatch | stores/stock.store.ts:98-106 | with an active match, only that alert's `currentStock` changes and the length is unchanged |
| Stock.CreateAlertInsertsWhenNoMatch | stores/stock.store.ts:107-118 | without an active match, exactly one new alert is prepended to the old list |
| Stock.CreateAlertKeepsWellFormed | stores/stock.store.ts:90-119 | `createAlert` with a fresh id keeps ids unique and at most one active alert per key |
| Stock.CreateAlertNeverResolves | stores/stock.store.ts:90-119 | every alert active before `createAlert` is active after it |
| Stock.ActiveAlertIsAloneInItsKey | stores/stock.store.ts:92-96 | in a well-formed list, an active alert is the only active alert of its key |
| Stock.CreateAlertTwice | stores/stock.store.ts:90-119 | creating the same active alert twice leaves exactly one active alert of the key, carrying the second stock |
| Stock.ResolveAlertStampsOnlyId | stores/stock.store.ts:121-129 | every alert with the id is deactivated and gets `resolvedAt = now`, keeping all its other fields; every other alert is unchanged |
| Stock.AlertsAfterResolve | stores/stock.store.ts:121-129 | resolving keeps the length of the alert list |
| Stock.ResolveAlertDeactivatesOnlyId | stores/stock.store.ts:121-129 | removes exactly that id from the active ids, keeps every alert record, and keeps the list well formed |
| Stock.ResolveUnknownAlertIsNoop | stores/stock.store.ts:121-129 | resolving an id no alert has changes nothing |
| Stock.StampAdjustment | stores/stock.store.ts:140-145 | the stored adjustment carries every field of the draft unchanged, the fresh id and the creation time |
| Stock.AdjustmentMovement | stores/stock.store.ts:152-160 | the derived movement is an `ajuste` of the adjustment's product and user, with no reference, quantity \|difference\|, previous/new stock equal to old/new quantity and reason "Ajuste manual: " + reason |
| Stock.AdjustmentMovementSetsStock | stores/stock.store.ts:152-160 | after any history, the derived movement makes the folded stock equal to the adjustment's new quantity |
| Stock.OtherSettings | stores/stock.store.ts:176 | exactly the other products' rows |
| Stock.SettingsFor | stores/stock.store.ts:169-172 | the settings row carries the product id and every field of the draft unchanged |
| Stock.SettingsAfterUpdate | stores/stock.store.ts:168-180 | the last row is the new settings with the product id; no other row has that product; every other product's row is kept and nothing else is added |
| Stock.FindSettings | stores/stock.store.ts:182-184 | absent iff no row has the product; otherwise the first row of that product |
| Stock.UpdateKeepsOneRowPerProduct | stores/stock.store.ts:168-180 | replacing a product's settings keeps at most one settings row per product |
| Stock.OtherSettingsStayUnique | stores/stock.store.ts:176 | dropping one product's rows keeps the remaining rows one per product |
| Stock.FindSettingsFindsTheRow | stores/stock.store.ts:182-184 | with one row per product, looking up any row's product returns that row |
| Stock.SettingsReadBack | stores/stock.store.ts:168-184 | reading a product's settings after updating them yields exactly the row written |
| Stock.ZeroStockRaisesSinStock | stores/stock.store.ts:187-198 | under enabled settings, a zero stock leaves exactly one active `sin_stock` alert of the product, with stock 0, and leaves its `stock_critico` alerts as they were |
| Stock.AlertsAfterCheck | stores/stock.store.ts:187-216 | the check adds at most one alert; it changes the list only under enabled settings and a stock level that calls for an alert, and then leaves an active alert of the type `getAlertType` gives, carrying the current stock (see also `Stock.ZeroStockRaisesSinStock`, `Stock.CheckNeverResolves`) |
| Stock.CreateSinStockAlert | stores/stock.store.ts:90-119 | creating a zero-stock `sin_stock` alert leaves exactly one active one of the product, with stock 0, and the `stock_critico` alerts unchanged |
| Stock.CheckNeverResolves | stores/stock.store.ts:187-216 | an alert check never deactivates an alert |
| Stock.StockStore.constructor | stores/stock.store.ts:43-46 | four empty lists, which satisfy the alert invariants |
| Stock.StockStore.AddMovement | stores/stock.store.ts:49-77 | prepends exactly one stamped movement; alerts, adjustments and settings are untouched; a registered log gets one activity |
| Stock.StockStore.GetMovementsByProduct | stores/stock.store.ts:79-81 | exactly the movements of that product |
| Stock.StockStore.GetRecentMovements | stores/stock.store.ts:83-87 | sorts the stored movements in place, newest first, and returns a newest-first prefix of min(limit, size) of them, ten by default |
| Stock.StockStore.CreateAlert | stores/stock.store.ts:90-119 | the alerts become `AlertsAfterCreate` of the old ones, the invariants hold, the other lists are untouched |
| Stock.StockStore.ResolveAlert | stores/stock.store.ts:121-129 | the alerts become `AlertsAfterResolve` of the old ones, the invariants hold, the other lists are untouched |
| Stock.StockStore.GetActiveAlerts | stores/stock.store.ts:131-133 | exactly the active alerts |
| Stock.StockStore.GetAlertsByProduct | stores/stock.store.ts:135-137 | exactly the alerts of that product |
| Stock.StockStore.AddAdjustment | stores/stock.store.ts:140-161 | prepends exactly one adjustment and exactly one derived `ajuste` movement; alerts and settings are untouched |
| Stock.StockStore.GetAdjustmentsByProduct | stores/stock.store.ts:163-165 | exactly the adjustments of that product |
| Stock.StockStore.UpdateStockSettings | stores/stock.store.ts:168-180 | the settings become `SettingsAfterUpdate` of the old ones, still one row per product; the other lists are untouched |
| Stock.StockStore.GetStockSettings | stores/stock.store.ts:182-184 | absent iff the product has no row; otherwise the first row of that product |
| Stock.StockStore.CheckStockAlerts | stores/stock.store.ts:187-216 | the alerts become `AlertsAfterCheck`: unchanged without enabled settings, otherwise one `createAlert` with the type `getAlertType` gives and threshold 0, min/2 or min; the other lists are untouched |
| Stock.StockStore.GetStockSummary | stores/stock.store.ts:218-227 | `totalProducts` counts settings rows; the low, critical and out-of-stock counts are the numbers of active alerts of each type, and add up to the active alerts |
| Products.NewProduct | stores/product.store.ts:61-66 | the new product carries every field of the draft unchanged, the fresh id and both timestamps set to now |
| Products.ApplyPatch | stores/product.store.ts:96 | every field the patch sets takes the patch's value, every field it leaves out keeps the old value, and `updatedAt` is now |
| Products.StockPatchChangesOnlyStock | stores/product.store.ts:191 | the `{ stock }` update changes the stock and `updatedAt` and nothing else |
| Products.PatchWhere | stores/product.store.ts:93-98 | an update keeps the catalog's length |
| Products.PatchWhereChangesOnlyMatches | stores/product.store.ts:93-98 | products with the id are patched in place; every other product is unchanged |
| Products.PatchUnknownIdIsNoop | stores/product.store.ts:93-98 | updating an id no product has changes nothing |
| Products.PatchStockSetsStock | stores/product.store.ts:93-98 | after a stock update, every product with that id carries the new stock |
| Products.ReducedStockIsNonNegative | stores/product.store.ts:219-228 | when the guard lets `reduceStock` through, the stock written is `stock - quantity` and is non-negative |
| Products.WithoutProduct | stores/product.store.ts:119-123 | exactly the products with another id remain; nothing changes for an unknown id |
| Products.FindProduct | stores/product.store.ts:134-136 | absent iff no product has the id; otherwise the first product with that id |
| Products.DeletedProductIsGone | stores/product.store.ts:119-136 | after deleting an id, looking it up finds nothing |
| Products.LowStock | stores/product.store.ts:152-156 | exactly the products with `0 < stock <= threshold`; none for a threshold <= 0 |
| Products.UpdateStockMovement | stores/product.store.ts:197-205 | every field of the recorded movement: an `ajuste` of the product from the previous to the new stock with quantity \|new - previous\|, the caller's reason and user (`system` by default), and no reference |
| Products.ReduceStockMovement | stores/product.store.ts:234-243 | every field of the recorded movement: a `salida` of the product of `quantity`, new stock = previous - quantity, and the caller's reason, reference and user (`system` by default) |
| Products.AddStockMovement | stores/product.store.ts:271-280 | every field of the recorded movement: an `entrada` of the product of `quantity`, new stock = previous + quantity, and the caller's reason, reference and user (`system` by default) |
| Products.RecordedMovementReplays | stores/product.store.ts:197-205 | when a chronological history (the ledger's list read oldest first) folds to the previous stock, that history followed by the recorded movement folds to the movement's new stock |
| Products.ProductStore.constructor | stores/product.store.ts:31-34 | an empty catalog, idle, no error |
| Products.ProductStore.AddProduct | stores/product.store.ts:57-84 | prepends exactly one new product, keeps the old ones after it, reports success |
| Products.ProductStore.UpdateProduct | stores/product.store.ts:86-110 | the catalog becomes `PatchWhere` of the old one; reports success |
| Products.ProductStore.DeleteProduct | stores/product.store.ts:112-132 | the catalog becomes `WithoutProduct` of the old one; reports success |
| Products.ProductStore.GetProductById | stores/product.store.ts:134-136 | absent iff no product has the id; otherwise the first product with that id |
| Products.ProductStore.GetProductsByCategory | stores/product.store.ts:138-140 | exactly the products of that category |
| Products.ProductStore.GetProductStats | stores/product.store.ts:142-150 | `total` is the catalog size, `active` and `outOfStock` count the products with those statuses (so `active + outOfStock <= total`), `lowStock` counts `0 < stock <= 10` |
| Products.ProductStore.GetLowStockProducts | stores/product.store.ts:152-156 | exactly the products with `0 < stock <= threshold`, threshold 10 by default |
| Products.ProductStore.SetLoading | stores/product.store.ts:168-173 | loading clears the error; leaving loading gives idle and keeps the error; the catalog is untouched |
| Products.ProductStore.SetError | stores/product.store.ts:175-180 | stores the error; status is error when the message is non-empty, else success |
| Products.ProductStore.CommitStock | stores/product.store.ts:226-250 | writes the new stock to the product, then (with a ledger) prepends the movement and re-checks the product's alerts against the new stock, leaving adjustments and settings untouched; the activity log gets exactly the movement's activity with a ledger and is untouched without one (`Products.Logged`) |
| Products.ProductStore.UpdateStock | stores/product.store.ts:183-216 | unknown id: "Product not found" and nothing changes; otherwise the stock becomes `newStock`, the recorded `ajuste` goes from the previous stock to it, and the activity log gets its activity only when a ledger is registered |
| Products.ProductStore.ReduceStock | stores/product.store.ts:218-254 | unknown id: "Product not found"; stock below quantity: "Insufficient stock"; both change nothing; otherwise stock becomes previous - quantity, a matching `salida` is recorded, and the activity log gets its activity only when a ledger is registered |
| Products.ProductStore.AddStock | stores/product.store.ts:256-291 | unknown id: "Product not found" and nothing changes; otherwise stock becomes previous + quantity, a matching `entrada` is recorded, and the activity log gets its activity only when a ledger is registered |
| BarcodeUtils.DigitsValue | lib/barcode-utils.ts:50 | `parseInt` of k digits is below 10^k |
| BarcodeUtils.NatToString | lib/barcode-utils.ts:10 | the decimal text of n is made of digits, has no leading zero, and reads back as n |
| BarcodeUtils.IntToString | lib/barcode-utils.ts:11 | a negative id's text starts with '-'; a non-negative id's text is its decimal form |
| BarcodeUtils.PadStart | lib/barcode-utils.ts:11 | zeros in front of `s` until the UTF-16 length reaches `width` (a longer string is kept whole), so the result's JavaScript length is max(width, length of `s`); for BMP-only text this is also its character count |
| BarcodeUtils.AstralTextPadsByCodeUnits | lib/barcode-utils.ts:11 | an emoji id counts as two code units, so it is padded with two zeros, not three |
| BarcodeUtils.SliceLast | lib/barcode-utils.ts:10 | the last min(k, \|s\|) characters of `s` |
| BarcodeUtils.GenerateMisticaBarcode | lib/barcode-utils.ts:8-14 | the barcode starts with "MST" and its length is 3 + the clock part + the padded id part |
| BarcodeUtils.ValidateMisticaBarcode | lib/barcode-utils.ts:20-38 | true iff the length is 13, the first three characters are "MST" and the remaining ten are ASCII digits |
| BarcodeUtils.ExtractProductIdFromBarcode | lib/barcode-utils.ts:44-51 | null iff the barcode is invalid; otherwise a value below 10000 |
| BarcodeUtils.IsMisticaBarcode | lib/barcode-utils.ts:56-58 | agrees with validation on every input |
| BarcodeUtils.TimestampPart | lib/barcode-utils.ts:10 | for a clock of at least six digits, the clock part is six digits |
| BarcodeUtils.IdPart | lib/barcode-utils.ts:11 | for an id in 0..9999, the padded id is four digits worth the id |
| BarcodeUtils.WellFormedParts | lib/barcode-utils.ts:13 | "MST" + six digits + four digits validates |
| BarcodeUtils.ExtractParts | lib/barcode-utils.ts:49-50 | extraction from "MST" + six digits + four digits yields the value of the four digits |
| BarcodeUtils.GeneratedBarcodeValidates | lib/barcode-utils.ts:8-13 | for ids 0..9999 and a clock of at least six digits, the generated barcode validates |
| BarcodeUtils.ExtractInvertsGenerate | lib/barcode-utils.ts:44-51 | for ids 0..9999 and a clock of at least six digits, extracting from the generated barcode gives back exactly the id |
| BarcodeUtils.LargeIdFailsValidation | lib/barcode-utils.ts:11-13 | an id of 10000 or more gives a barcode longer than 13 characters, which fails validation |
| BarcodeUtils.NegativeIdFailsValidation | lib/barcode-utils.ts:11 | a negative id gives a barcode that fails validation |
| BarcodeUtils.GenerateMisticaBarcodeFixed | lib/barcode-utils.ts:8-14 | the corrected generator's barcode starts with "MST" |
| BarcodeUtils.FixedBarcodeRoundTrips | lib/barcode-utils.ts:44-51 | the corrected barcode validates for every id, and extraction yields the id's last four digits |
| BarcodeUtils.FixedAgreesOnSmallIds | lib/barcode-utils.ts:8-14 | for ids 0..9999 the corrected and original generators agree |
| BarcodeUtils.CalculateProfitMargin | lib/barcode-utils.ts:71-74 | zero when the cost is not positive; otherwise within half a hundredth of the exact percentage |
| Auth.AfterLogin | stores/auth.store.ts:27-52 | success stores user and token, authenticated, success, no error; failure clears user and token, unauthenticated, error status with the thrown message or "Error inesperado"; authenticated iff status success |
| Auth.Rehydrated | stores/auth.store.ts:74-88 | authenticated with status success iff a non-empty token and a user came back; otherwise the fully signed-out state |
| Auth.RehydrateIsIdempotent | stores/auth.store.ts:74-88 | normalising twice is normalising once |
| Auth.ReloadRestoresLogin | stores/auth.store.ts:68-88 | a reload after a login with a non-empty token restores the same session; after a failed login it gives the signed-out session |
| Auth.ReloadForgetsStatusAndError | stores/auth.store.ts:68-88 | after a reload the status is idle or success, and an unauthenticated session has no error |
| Auth.AuthStore.constructor | stores/auth.store.ts:21-25 | starts signed out |
| Auth.AuthStore.BeginLogin | stores/auth.store.ts:28 | status loading, error cleared, everything else kept |
| Auth.AuthStore.Login | stores/auth.store.ts:27-52 | the session becomes `AfterLogin(outcome)`; the result is false exactly when the original rethrows |
| Auth.AuthStore.Logout | stores/auth.store.ts:54-62 | from any state, the signed-out session, so a second logout changes nothing |
| Auth.Partialize | stores/auth.store.ts:68-72 | the saved record holds the session's user, token and authenticated flag |
| Auth.Merge | stores/auth.store.ts:19 | loading a saved record over a session (the persistence layer's shallow merge) makes the saved fields read back as saved and keeps status and error |
| Auth.SavedFieldsRoundTrip | stores/auth.store.ts:68-72 | only user, token and the authenticated flag are persisted: status and error do not affect the saved record, and loading it restores exactly those three fields |
| Auth.AuthStore.Hydrate | stores/auth.store.ts:68-72 | loading saved fields overwrites user, token and the flag and keeps status and error |
| Auth.AuthStore.OnRehydrate | stores/auth.store.ts:74-88 | the session becomes `Rehydrated` of what was loaded, which is always consistent |

## Findings

| source | as written | input that shows it | evidently intended | confidence | as-written member | corrected member |
|---|---|---|---|---|---|---|
| lib/barcode-utils.ts:11 | the id is padded to four characters but never cut to four, so an id of five digits or more gives a barcode longer than 13 characters that the same module's validator rejects; the product form passes the clock itself as the id (components/dashboard/product-form.tsx:64) | `generateMisticaBarcode(1700000000000)` at clock 1700000000000 gives "MST0000001700000000000", 22 characters, which fails validation | a 13-character barcode that validates and from which the id's last four digits are read back | not executed | BarcodeUtils.LargeIdFailsValidation | BarcodeUtils.GenerateMisticaBarcodeFixed |

`BarcodeUtils.FixedBarcodeRoundTrips` proves the intended property of the corrected generator for every id. `BarcodeUtils.FixedAgreesOnSmallIds` shows that the correction changes nothing for ids 0..9999.

## Left out

- **React pages, components, routing and toasts:** rendering only.
- **Simulated latency, `async`/`await` and the intermediate `loading` state.** The catalog's add, update and delete set status `loading` and then `success` after a timer. The model keeps only the final state. The error paths of these actions cannot be reached without a failing API, so they are not modelled.
- **Persistence.** zustand `persist`, `localStorage` and JSON storage are modelled only through `Auth.Partialize`, `Auth.Merge` and the rehydration callbacks. The ledger's date rehydration (stores/stock.store.ts:231-250) is an identity on integer times and is not modelled.
- **The `window` globals.** These are the ledger seen by the catalog and the activity log seen by the ledger. They are nullable parameters. Whether anything registers them is outside this model.
- **Activity `reference` field.** The activity a movement logs carries the product id in a `reference` field. The model's activity record has no such field.
- **Floating point.** Prices, thresholds, stock value and the profit margin are reals. IEEE rounding is not modelled, and the `profitMargin` product field is not modelled.
- **Number range.** Stock quantities, times and numeric ids are exact unbounded integers, while JavaScript numbers lose integer precision above 2^53. `BarcodeUtils.NatToString` gives plain decimal digits for every number, while `Number.prototype.toString` switches to exponent notation from 1e21 on.
- **Other catalog operations.** `loadProducts` loads fixture data and `searchProducts` depends on locale case folding; neither is modelled.
- **Other helpers.** The spreadsheet export (lib/excel-utils.ts) and the mock services and data are not modelled. The label and colour maps of lib/stock-utils.ts:46-92 are total lookup tables and are not modelled.
- **Composition on the adjustments page.** The page calls `addAdjustment` and then `updateStock`; only each operation on its own is modelled.
- **Failed rehydration.** A rehydration that yields no state at all is not modelled.
- BarcodeUtils.GenerateMisticaBarcode: only numeric ids are proved about. Text ids (`TextId`) are modelled but no lemma covers them.
- BarcodeUtils.GenerateMisticaBarcodeFixed: takes only numeric ids.
- StockUtils.SortMovementsByDate: the stability of the JavaScript sort for equal dates is not stated. Only ordering and permutation are stated.
- Products.WithoutProduct, Stock.OtherSettings, StockUtils.MovementsInWindow, StockUtils.RecentMovementsSince, Stock.ActiveAlertsFor, Stock.StockStore.GetMovementsByProduct, Stock.StockStore.GetActiveAlerts, Stock.StockStore.GetAlertsByProduct, Stock.StockStore.GetAdjustmentsByProduct, Products.LowStock, Products.ProductStore.GetProductsByCategory, Products.ProductStore.GetLowStockProducts and Activities.ActivityStore.GetActivitiesByType: each is a `filter`; they keep order because `Seqs.Filter` distributes over concatenation (`Seqs.FilterConcat`), but their contracts state membership, not order.
- BarcodeUtils.CalculateProfitMargin: rounding is stated as a bound, not as the exact two-decimal value.
- Products.ProductStore.UpdateStock, Products.ProductStore.ReduceStock and Products.ProductStore.AddStock: a thrown error is returned as `Failed(message)` instead of a rejected promise.
- Stock.StockStore.AddAdjustment: the activity logged through `addMovement` is stated only as one more entry, without its contents.
