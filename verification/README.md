# StockMaster inventory core in Dafny

This project models the in-memory core of the StockMaster inventory dashboard.

The whole application state is an `AppState` of three sequences: products, operations and locations. Every action is a pure function from the old state to the new one:

- adding a product or an operation (prepended, newest first);
- adding a warehouse (appended, always INTERNAL);
- the manual stock adjustment;
- validating an operation.

Validating an operation is the heart of the system:

- The source and the destination are each classified as internal or external. An unknown location id counts as external.
- A fold over the operation's lines applies one of four rules to the first product with the line's product id:
  - receipt: stock grows and the product moves to the destination;
  - delivery: stock shrinks, with no floor;
  - relocation: the product moves to the destination;
  - nothing, between two external locations.
- The operation is then marked DONE. Validating an operation that is already DONE, or an unknown id, changes nothing.

Around the engine, the model covers the pure rules of the views:

- dashboard figures: total stock, low-stock alerts, pending receipts and deliveries, READY internal transfers, stock grouped by category, the five most recent moves;
- per-type operation lists and the operation-creation form;
- the case-insensitive product search shared by two views;
- the product-creation form;
- warehouse cards and the warehouse-creation form;
- the stock editor.

The seed registry of six locations, five products and three operations is modelled as constants, with end-to-end lemmas about it.

Modules, leaves first:

- `Seqs` holds `find`/`findIndex` as first match, and order-preserving `filter` with its counting and subsequence lemmas.
- `Types` holds the records.
- `StockEngine` holds validation and its reference outcome.
- `Registry` holds the other mutators.
- `Dashboard` holds the derived figures.
- `Conservation` states how the mutators move those figures.
- `Text` holds lower-casing, `includes` and `trim`.
- `Search` holds the product search.
- `OperationsView`, `ProductView` and `AdjustmentsView` hold the form and list rules.
- `Seed` holds the fixtures.

The fold `StockEngine.ApplyLines` has an independent partner, `StockEngine.Settled`. It states each product's outcome without the fold: a product is affected when it is the first record with its id and some line names it, and it then receives the summed quantity of its lines in one move. `StockEngine.ApplyLinesSettles` proves the two agree on every product. The per-case lemmas `StockEngine.ValidateIncoming`, `ValidateOutgoing`, `ValidateRelocation` and `ValidateNoMove` are derived from that agreement. Idempotence rests on the validated operation being found again, now DONE. Conservation of the total stock has its own induction over the lines, `Conservation.ApplyLinesTotal`.

Several properties of the record shapes hold by construction of the datatypes:

- a status is exactly one of four values, and so is a location kind;
- a product has a single `locationId`;
- an operation has one source and one destination for all its lines;
- a line carries its own `productName`.

Three behaviours of the code worth knowing:

- **Ids need not be unique.** Nothing makes ids unique, so the model allows duplicates. Validation touches only the first product with an id (`findIndex`). A manual adjustment touches every product with the id (`map`).
- **Which statuses validate.** The handler refuses only DONE, so a DRAFT or a CANCELLED operation is also applied and marked DONE. The list view merely hides the button for CANCELLED.
- **Unknown locations.** An id missing from the registry counts as external, since it has no kind to be INTERNAL.

## Model

| member | source | states |
|---|---|---|
| StockEngine.Classify | App.tsx:114-121 | exactly one of the four movements applies to each internal/external pairing, and which one |
| StockEngine.LocationIsInternal | App.tsx:111-112 | a location id is internal iff the first location with that id has kind INTERNAL; an id not in the registry is external |
| StockEngine.MovementOf | App.tsx:111-121 | an operation is incoming iff its source is not internal and its destination is, outgoing iff the reverse, a relocation iff both are internal; an unknown source makes it incoming or inert, an unknown destination outgoing or inert |
| StockEngine.ProductIndex | App.tsx:107 | the product a line resolves to is the first with the id, and there is none iff no product has it |
| StockEngine.OperationIndex | App.tsx:97 | the operation an id designates is the first with that id, and there is none iff no operation has it |
| StockEngine.Move | App.tsx:109-123 | one line rewrites only stock and location, never name, SKU, category, unit or price |
| StockEngine.MoveAccumulates | App.tsx:106-123 | two lines on one product add up: applying a then b equals applying a+b once |
| StockEngine.ApplyLine | App.tsx:107-124 | one line keeps the product count and every product's identity fields |
| StockEngine.ApplyLines | App.tsx:104-125 | the fold over the lines keeps the product count, order and identity fields |
| StockEngine.ApplyLinesSettles | App.tsx:104-125 | the fold agrees product by product with the reference outcome: affected products get their summed quantity, all others are unchanged |
| StockEngine.UnknownLineIgnored | App.tsx:107-108 | a line whose product id names no product can be dropped without changing the result |
| StockEngine.Validate | App.tsx:95-136 | locations unchanged; products keep count and identity fields; only operations with the id can change, and only to DONE; an unknown id leaves the state unchanged |
| StockEngine.ValidateDoneIsNoOp | App.tsx:100-101 | validating a DONE operation returns the state unchanged |
| StockEngine.ValidateMarksDone | App.tsx:127-133 | the validated operation becomes DONE in place, whatever its previous status, and every other operation is kept in order |
| StockEngine.ValidateIdempotent | App.tsx:97-101 | validating the same id twice equals validating once |
| StockEngine.ValidateSettles | App.tsx:104-125 | after validation each product equals the reference outcome of the operation's lines |
| StockEngine.ValidateIncoming | App.tsx:114-116 | external to internal: affected products gain their summed quantity and move to the destination; the others are unchanged |
| StockEngine.ValidateOutgoing | App.tsx:117-118 | internal to external: affected products lose their summed quantity with no floor and keep their location |
| StockEngine.ValidateRelocation | App.tsx:119-120 | internal to internal: affected products keep their stock and move to the destination |
| StockEngine.ValidateNoMove | App.tsx:114-121 | external to external: the products are unchanged |
| Registry.AddProduct | App.tsx:81-86 | the new product is first, the old ones follow unchanged, nothing else changes |
| Registry.CreateOperation | App.tsx:88-93 | the new operation is first, the old ones follow unchanged, nothing else changes |
| Registry.AddLocation | App.tsx:138-148 | one INTERNAL location with the given id and name is appended; nothing else changes |
| Registry.AdjustStock | App.tsx:150-159 | every product with the id gets the new stock and location and keeps its other fields; other products, operations and locations are unchanged |
| Registry.AdjustStockIdempotent | App.tsx:150-159 | repeating an adjustment changes nothing further |
| Registry.AddLocationClassification | App.tsx:138-148 | a new warehouse never reclassifies an existing id and makes a fresh id internal |
| Registry.CreateThenValidate | App.tsx:88-136 | creating then validating an operation puts it first as DONE and applies its lines |
| Dashboard.TotalStockNonNegative | components/Dashboard.tsx:25 | the stock total of products with no negative stock is not negative |
| Dashboard.TotalStockFromFront | components/Dashboard.tsx:25 | the total is the first product's stock plus the total of the rest, whichever end the sum starts from |
| Dashboard.TotalStockConcat | components/Dashboard.tsx:25 | the stock total of a concatenation is the sum of the totals |
| Dashboard.TotalStockUpdate | components/Dashboard.tsx:25 | rewriting one product changes the total by exactly its change in stock |
| Dashboard.LowStockCount | components/Dashboard.tsx:26 | the alert count is the number of products with stock below 10, negatives included |
| Dashboard.PendingReceipts | components/Dashboard.tsx:27 | the count of receipts whose status is DRAFT or READY |
| Dashboard.PendingDeliveries | components/Dashboard.tsx:28 | the count of deliveries whose status is DRAFT or READY |
| Dashboard.ReadyInternalCount | components/Dashboard.tsx:46 | the count of internal transfers whose status is exactly READY |
| Dashboard.RecentMoves | components/Dashboard.tsx:147 | the first min(5, n) operations in registry order |
| Dashboard.EntryIndex | components/Dashboard.tsx:32 | the entry found for a category is one named by it, and there is none iff no entry is |
| Dashboard.CategoryData | components/Dashboard.tsx:31-39 | one entry per distinct category and one only, ordered by first occurrence, each holding its category's stock, the values adding up to the total stock |
| Dashboard.AddToCategoryGroups | components/Dashboard.tsx:32-38 | one step of the reduce turns a grouping of the first products into a grouping of one more |
| Conservation.StockDelta | App.tsx:114-121 | the change `Move` applies to any product's stock under a movement: +q from external to internal, -q from internal to external, 0 otherwise |
| Conservation.ApplyLinesTotal | App.tsx:104-125 | the fold changes the total stock by the delta of the summed quantity of the lines whose product exists |
| Conservation.ValidateTotalStock | App.tsx:104-125 | validation raises the total by the known quantity when the operation moves goods from an external location to an internal one, lowers it from internal to external, and keeps it otherwise; the locations decide, not the operation type |
| Conservation.ValidateUnknownProductsKeepTotal | App.tsx:107-108 | an operation whose lines all name missing products leaves the total stock as it was |
| Conservation.ValidatePendingReceipts | components/Dashboard.tsx:27 | validation lowers the pending-receipt count by one iff the operation was an open receipt |
| Conservation.ValidatePendingDeliveries | components/Dashboard.tsx:28 | validation lowers the pending-delivery count by one iff the operation was an open delivery |
| Conservation.CreateOperationPending | components/Dashboard.tsx:27-28 | a created operation raises a pending count by one iff it is an open operation of that type |
| Conservation.CreateOperationIsRecent | components/Dashboard.tsx:147 | a created operation is the first recent move |
| Conservation.AddProductFigures | components/Dashboard.tsx:25-26 | a new product adds its stock to the total and one alert iff its stock is below 10 |
| Conservation.AdjustStockTotal | App.tsx:150-159 | adjusting the only product with an id changes the total by new minus old stock |
| Text.LowerChar | components/ProductList.tsx:27-28 | lower-casing maps A-Z to a-z, keeps every other character, and never yields an upper-case letter |
| Text.ToLower | components/ProductList.tsx:27-28 | lower-casing keeps the length, lower-cases each character in place, and leaves no upper-case letter |
| Text.ToLowerIdempotent | components/ProductList.tsx:27-28 | lower-casing twice is lower-casing once |
| Text.Contains | components/ProductList.tsx:27-28 | `includes` holds iff the needle occurs at some position |
| Text.IsSpace | components/AdjustmentsView.tsx:36 | space, tab, newline and carriage return are whitespace to `trim`; letters, digits, `_` and `/` are not |
| Text.Trim | components/AdjustmentsView.tsx:36 | the result is a slice of the input with whitespace-only margins and no whitespace at either end |
| Text.TrimEmptyIff | components/AdjustmentsView.tsx:36 | trimming yields the empty string iff every character is whitespace |
| Search.SearchProducts | components/ProductList.tsx:26-29 | exactly the products whose lower-cased name or SKU contains the lower-cased term; the empty term keeps all |
| Search.SearchIsSubsequence | components/ProductList.tsx:26-29 | the result picks products at strictly increasing positions |
| Search.SearchConcat | components/AdjustmentsView.tsx:29-32 | searching splits over concatenation, so the registry order is kept |
| Search.SearchIgnoresCase | components/ProductList.tsx:26-29 | searching for a term or its lower-cased form gives the same result |
| Search.SearchFindsOwnName | components/ProductList.tsx:26-29 | a product is found by its own name and by its own SKU |
| OperationsView.FilterByType | components/OperationsList.tsx:30 | exactly the operations of the view's type, counted by their positions |
| OperationsView.CreatedOperationHeadsView | components/OperationsList.tsx:30 | a created operation heads its own view and leaves the other views unchanged |
| OperationsView.DefaultSource | components/OperationsList.tsx:25 | the form's source defaults to vendors exactly for a receipt and to the main stock otherwise |
| OperationsView.DefaultDest | components/OperationsList.tsx:26 | the form's destination defaults to customers exactly for a delivery and to the main stock otherwise |
| OperationsView.InitialForm | components/OperationsList.tsx:25-28 | the form starts with the default locations, no product, quantity 1 and the dialog closed, so submitting it creates nothing |
| OperationsView.ReferencePrefix | components/OperationsList.tsx:50 | a reference starts WH/IN/ exactly for a receipt, WH/OUT/ exactly for a delivery, and WH/INT/ for the other types |
| OperationsView.LastChars | components/OperationsList.tsx:50 | taking the last n characters (n positive, four for the reference) keeps a suffix of that length, or the whole string when shorter |
| OperationsView.LineName | components/OperationsList.tsx:45-57 | the line's name is that of the first product with the id, or 'Unknown' when there is none or its name is empty |
| OperationsView.Submit | components/OperationsList.tsx:41-65 | no product selected: nothing; otherwise a READY operation of the view's type with the form's locations and one line, then the line fields reset and the dialog closes |
| OperationsView.SubmitKeepsLocations | components/OperationsList.tsx:62-64 | the chosen locations survive a submission |
| OperationsView.SubmitTwiceCreatesOnce | components/OperationsList.tsx:43-63 | submitting the reset form creates nothing |
| OperationsView.CanValidate | components/OperationsList.tsx:127 | the validate button shows exactly for DRAFT and READY operations |
| OperationsView.ValidateHidesButton | components/OperationsList.tsx:127-130 | validating an operation that shows the button marks it DONE and hides the button |
| OperationsView.SubmitCreateValidate | components/OperationsList.tsx:41-65 | a submitted operation, created and validated, heads the registry as DONE and its line is applied |
| ProductView.SubmitProduct | components/ProductList.tsx:31-41 | a product is created iff name and SKU are non-empty, carrying the form's fields and the fresh id; then the form resets to its initial values and the dialog closes |
| ProductView.InitialProductFormValues | components/ProductList.tsx:16-24 | the form starts with empty name, SKU and category, unit Units, stock 0, price 0 and location loc_wh_stock, and submitting it creates nothing |
| ProductView.ResetFormIsInert | components/ProductList.tsx:33-39 | the reset form cannot create a second product |
| ProductView.NameAndSkuRequired | components/ProductList.tsx:33 | a missing name or a missing SKU creates nothing |
| AdjustmentsView.InternalLocations | components/AdjustmentsView.tsx:27 | exactly the INTERNAL locations, counted by their positions |
| AdjustmentsView.AddLocationShowsCard | components/AdjustmentsView.tsx:27 | a new warehouse appears as the last card |
| AdjustmentsView.ProductsStoredAt | components/AdjustmentsView.tsx:89 | a card counts the products whose location is the card's id |
| AdjustmentsView.AdjustMovesBetweenCards | components/AdjustmentsView.tsx:89 | adjusting the only product with an id moves one count from its old card to its new one |
| AdjustmentsView.LocationLabel | components/AdjustmentsView.tsx:182-183 | the shown location is the first matching location's name, or the id when there is none or the name is empty |
| AdjustmentsView.CreateWarehouse | components/AdjustmentsView.tsx:34-41 | a name is passed on, untrimmed, iff it has a non-whitespace character; then the field clears and the dialog closes |
| AdjustmentsView.StartEdit | components/AdjustmentsView.tsx:43-47 | the editor takes the product's id, stock and location |
| AdjustmentsView.CancelEdit | components/AdjustmentsView.tsx:166 | cancelling leaves nothing in edit |
| AdjustmentsView.SaveEdit | components/AdjustmentsView.tsx:49-54 | an adjustment with the editor's values is issued iff a non-empty id is in edit, after which nothing is |
| AdjustmentsView.SaveTwiceAdjustsOnce | components/AdjustmentsView.tsx:49-54 | a second save issues nothing |
| AdjustmentsView.EditUntouchedIsNoOp | components/AdjustmentsView.tsx:43-54 | applying an untouched edit of the only product with an id changes nothing |
| AdjustmentsView.EditThenSave | components/AdjustmentsView.tsx:43-54 | saving an edit sets exactly the edited stock and location on the product |
| Seed.SeedLocationIds | constants.ts:11-18 | six seed locations with distinct ids |
| Seed.SeedWarehouseCount | constants.ts:11-18 | exactly three seed locations are INTERNAL |
| Seed.SeedClassification | constants.ts:11-18 | the three warehouse ids are internal; vendors, customers and loss are external |
| Seed.SeedProductFacts | constants.ts:3-26 | five seed products with distinct ids, all at loc_wh_stock, each in an offered category |
| Seed.SeedStoredAtMain | constants.ts:20-26 | the main warehouse card counts five products |
| Seed.SeedOperationLines | constants.ts:28-58 | op1 DONE, op2 READY, op3 DRAFT, each with one line resolving to a seed product and a source and destination that are seed locations |
| Seed.SeedOperationLocations | constants.ts:28-58 | op1 runs from vendors to main stock, op2 from main stock to customers, op3 from main stock to the packing zone; every endpoint is a seed location |
| Seed.SeedMovements | constants.ts:28-58 | op1 is a receipt into stock, op2 a delivery out of it, op3 a relocation |
| Seed.SeedTotalStock | constants.ts:20-26 | the seed holds 715 items |
| Seed.SeedCounts | constants.ts:20-58 | one low-stock alert, no pending receipt, one pending delivery, no READY internal transfer |
| Seed.ValidateSeedOp1 | constants.ts:28-38 | validating op1, already DONE, changes nothing |
| Seed.ValidateSeedOp2 | constants.ts:39-48 | validating op2 takes Office Chair from 45 to 40 at loc_wh_stock and marks op2 DONE |
| Seed.ValidateSeedOp3 | constants.ts:49-58 | validating op3 keeps Bolt M4 at 500, moves it to loc_wh_pack and marks the DRAFT op3 DONE |
| Seed.SeedDashboardAfterOp2 | constants.ts:39-48 | after op2 the dashboard shows 710 items and no pending delivery |
| Seed.ReceiptIntoPackingZone | constants.ts:14-21 | a receipt of 20 steel rods into the packing zone gives 170 there |
| Seed.DefaultsClassify | components/OperationsList.tsx:25-26 | the form's default locations make a receipt incoming, a delivery outgoing and an internal transfer a relocation |
| Seqs.FirstIndex | App.tsx:97 | `findIndex`: the first match, with no match before it; none iff nothing matches |
| Seqs.Filter | components/Dashboard.tsx:26 | `filter`: only matching elements, every matching element, in order |
| Seqs.FilterIndices | components/Dashboard.tsx:26 | the kept elements sit at strictly increasing positions of the input, so `filter` keeps their order |
| Seqs.FilterCount | components/Dashboard.tsx:26 | a filter's length is the number of matching positions |

## Left out

- Rendering is left out because it computes nothing the model needs. This covers JSX and CSS, the charts and their colours, the dark-mode effect, sidebar navigation and page titles.
- The login, one-time-code and password-reset flow in components/Auth.tsx is left out. It shares no state with the inventory and is driven by timers and alerts.
- Clock values become parameters, because the clock is outside the model. This covers operation, product and location ids, the reference suffix and the operation date (`newId`, `stamp`, `today`). Nothing assumes they are unique.
- Prices are an opaque `real` that is never computed on. The `parseFloat`/`parseInt` conversions of form input are left out, NaN included. Stock and quantities are unbounded integers, so the source's floating-point `number` is not modelled.
- The `setState` updater mechanics and re-rendering are left out. Each action is one function on the state, matching the single writer the application has.
- The ADJUSTMENT operation type is declared but never created by any view. It is kept as a value and has no behaviour of its own.
- The view-switching and modal-opening buttons are left out, except where a submission closes a dialog.
- Text.LowerChar: lower-cases ASCII letters only. Unicode case mapping (`toLowerCase` on non-ASCII letters) is not modelled, so non-ASCII letters keep their case.
- OperationsView.Submit: the reference is stated only as the type's prefix followed by at most four characters. The digits come from the clock.
