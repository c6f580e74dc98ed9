# Warehouse stock ledger: a Dafny model

This project models the stock-ledger engine of a Convex warehouse backend, together with the
workflows that feed it.

Every stock-changing path does the same read-modify-write:
- read the stock level of a (product, location) pair, where a missing row counts as 0;
- compute the new quantity;
- patch the row, or insert one with `reservedQuantity` 0;
- append one stock movement that records the previous and the new quantity.

Four places do this:
- the public `updateStock`;
- its internal copy;
- the scanner mutations: single scan and bulk scan sessions;
- batch barcode generation.

The model also covers:
- the scan-session state machine: active, then completed or cancelled;
- SKU and barcode uniqueness on product creation and update;
- SKU generation;
- the low-stock report and the low-stock dashboard count;
- the search by barcode.

Each Convex mutation runs as a serializable transaction, so each becomes one atomic method on a
`Db` object. `Db` holds the tables:
- `products`, `stockLevels`, `stockMovements`, `scanSessions` and `barcodeScans` as sequences;
- `locations` as a set of ids.

Product and session ids are their positions in insertion order. Nothing in this core deletes a
product or a session.

Every mutation keeps the store invariant `Db.Valid()`. It has two parts.

The first part is the ledger invariant `LedgerOk`:
- each movement's `previousQuantity` is the fold (`Replay`) of all earlier movements of its pair;
- each movement's `newQuantity` is the quantity rule applied to it;
- every stock row's quantity equals the replay of its pair;
- pairs are unique;
- `reservedQuantity` is 0.

From it follow the chain properties:
- an entry's `previousQuantity` is the previous entry's `newQuantity`, or 0 for the first;
- a row's quantity is the `newQuantity` of its pair's last entry.

The second part is the session invariant `SessionsOk`:
- every scan row names an existing session;
- each session's `totalScanned` equals its number of scan rows;
- no user holds two active sessions.

Modules, one per source file, with shared foundations:

- `Schema` covers `convex/schema.ts`: the records, the five movement types and the three session statuses.
- `Ledger` holds the quantity rule, the replay of the ledger, the keyed stock-level table and the ledger invariant.
- `Sessions` holds the scan counts, the active-session lookup and the session invariant.
- `Decimal` holds `String(n)`, `padStart` and `slice(-n)` for the barcode strings, and a digit parser used in proofs.
- `Database` holds the `Db` class, the shared `RecordMovement`, and the SKU and barcode lookups.
- `Stock` covers `convex/stock.ts`.
- `Internal` covers `convex/internal.ts`.
- `Scanner` covers `convex/scanner.ts`.
- `BarcodeGenerator` covers `convex/barcodeGenerator.ts`.
- `Products` covers `convex/products.ts`.

## Model

| member | source | states |
|---|---|---|
| Ledger.Apply | convex/stock.ts:71-83 | A withdrawal never yields a negative quantity, and an over-withdrawal clamps to 0 rather than failing. Non-negative inputs give a non-negative result. With a non-negative amount a receipt never lowers the quantity, and with a non-negative amount and a non-negative quantity a withdrawal never raises it. From a negative stored quantity, which an adjustment can write, a withdrawal can raise it, since its result is never negative. |
| Ledger.ReceiveThenShip | convex/stock.ts:72-79 | A receipt followed by a withdrawal of the same non-negative amount restores a non-negative quantity. |
| Ledger.ShipThenReceive | convex/stock.ts:72-79 | A withdrawal that the stock covers is undone by a receipt of the same amount. |
| Ledger.AdjustmentOverrides | convex/stock.ts:80-82 | An adjustment sets the quantity to `q` whatever it was, and repeating it changes nothing. |
| Ledger.Replay | convex/stock.ts:67-114 | The quantity a pair reaches by applying, from 0 and in creation order, the quantity rule for each of that pair's movements; the invariant equates it with the stored level. |
| Ledger.ReplaySkips | convex/stock.ts:60-65 | Movements of other pairs do not affect a pair's replayed quantity. |
| Ledger.ReplayThrough | convex/stock.ts:102-114 | Replaying up to and including a movement gives that movement's `newQuantity`. |
| Ledger.ChainLinksToPrevious | convex/stock.ts:102-114 | An entry's `previousQuantity` is the `newQuantity` of the previous entry of the same pair. |
| Ledger.FirstEntryStartsAtZero | convex/stock.ts:67 | The first entry of a pair records `previousQuantity` 0. |
| Ledger.ReplayIsLastNewQuantity | convex/stock.ts:102-114 | A pair's replayed quantity is the `newQuantity` of its last entry. |
| Ledger.ReplayOfUntouchedPair | convex/stock.ts:67 | A pair without entries replays to 0. |
| Ledger.ReplayNonNegative | convex/stock.ts:71-83 | When no movement carries a negative amount, no pair ever replays to a negative quantity. |
| Ledger.ReplayAppend | convex/stock.ts:102-114 | Appending a movement changes only its own pair's replay, by the quantity rule. |
| Ledger.FindRow | convex/stock.ts:60-65 | The `by_product_location` lookup returns the first row of the pair. It returns none exactly when no row has the pair. |
| Ledger.Quantity | convex/stock.ts:67 | A missing row reads as 0. With unique pairs, the result is that pair's row quantity. |
| Ledger.Upsert | convex/stock.ts:86-99 | The write: the pair's first row gets the new quantity and `updatedAt`; a pair without a row gets a new row with `reservedQuantity` 0. |
| Ledger.UpsertEffect | convex/stock.ts:86-99 | After an upsert the pair reads the written quantity and every other pair reads as before. An existing row keeps its pair and `reservedQuantity`. At most one row is added, with `reservedQuantity` 0. Pairs stay unique. |
| Ledger.TotalStock | convex/stock.ts:213-219 | A product's stock summed over all its stock-level rows, as the dashboard and the low-stock report compute it. |
| Ledger.TotalStockPatch | convex/stock.ts:212-219 | Overwriting one row changes a product's total by the difference of the row's contributions. |
| Ledger.UpsertTotal | convex/stock.ts:86-99 | An upsert of a pair moves that product's summed stock by the pair's change and leaves every other product's total alone. |
| Ledger.SnapshotIsReplay | convex/stock.ts:59-114 | Under the ledger invariant, every pair's stock level equals the fold of its ledger entries. |
| Ledger.SnapshotIsLastEntry | convex/stock.ts:59-114 | Under the ledger invariant, a pair's stock level is the `newQuantity` of its last entry. |
| Ledger.AppendKeepsWellFormed | convex/stock.ts:102-114 | An entry that records its pair's current quantity as `previousQuantity`, and the rule's result as `newQuantity`, extends a well-formed ledger. |
| Ledger.RecordPreservesLedger | convex/stock.ts:59-114 | One read-modify-write with its appended entry preserves the ledger invariant, whatever the type, amount and metadata. |
| Sessions.CountScans | convex/scanner.ts:150-160 | The number of scan rows of a session, which the session's counter must track. |
| Sessions.SessionBarcodes | convex/barcodeGenerator.ts:124-134 | The barcodes of a session's scan rows in insertion order, as the `by_session` index read in ascending order gives them. |
| Sessions.BarcodesMatchCount | convex/scanner.ts:150-162 | A session lists exactly as many barcodes as it has scan rows. |
| Sessions.ScansAppend | convex/scanner.ts:150-155 | Counting and listing a session's scans distribute over appended rows. |
| Sessions.BatchScans | convex/barcodeGenerator.ts:50-57 | A batch whose rows all belong to one session counts every row for that session and none for any other. It lists the barcodes in order. |
| Sessions.NoScansOfUnusedSession | convex/scanner.ts:120-127 | A session that no row refers to has no scans. |
| Sessions.ActiveSessionOf | convex/scanner.ts:110-114 | The lookup returns an active session of the user. It returns none exactly when the user has no active session. |
| Sessions.ActiveSessionIsUnique | convex/scanner.ts:173-179 | With at most one active session per user, the lookup returns `s` if and only if `s` is the user's active session. |
| Sessions.OpenPreserves | convex/scanner.ts:109-127 | Opening a session with nothing scanned, active only for a user who has none, keeps the session invariant. |
| Sessions.ScanPreserves | convex/scanner.ts:150-160 | Appending a scan and incrementing its session's counter keeps the session invariant. |
| Sessions.ClosePreserves | convex/scanner.ts:305-308 | Moving a session to a terminal status with a completion time keeps the session invariant. |
| Sessions.BatchPreserves | convex/barcodeGenerator.ts:39-57 | Adding a non-active session whose counter is the batch size, with one scan row per batch entry, keeps the session invariant. |
| Decimal.NatToString | convex/barcodeGenerator.ts:32 | `String(n)` is non-empty and made of decimal digits. |
| Decimal.ParseNatToString | convex/barcodeGenerator.ts:32 | Round trip: parsing `String(n)` gives back `n`. |
| Decimal.NatToStringFits | convex/barcodeGenerator.ts:32 | A number below 10^k prints with at most k digits. |
| Decimal.PadStart | convex/barcodeGenerator.ts:32 | `padStart` with one fill character: a string already as wide as asked is unchanged, a shorter one gets fill characters in front up to that width. |
| Decimal.TakeLast | convex/barcodeGenerator.ts:34 | `slice(-n)` for positive `n`: the last `n` characters, or the whole string when it is shorter. |
| Decimal.ParseIgnoresLeadingZeros | convex/barcodeGenerator.ts:32 | Zero padding in front does not change the value read back. |
| Database.Db.constructor | convex/schema.ts:44-119 | An empty store over the given locations satisfies the store invariant. |
| Database.Db.RecordMovement | convex/stock.ts:59-114 | The shared read-modify-write. It returns the value read (0 for a missing row) and the rule's result. It upserts the pair and appends exactly one movement holding both. No other pair's quantity and no other table changes. The store invariant is kept. |
| Database.FindActiveByBarcode | convex/scanner.ts:16-20 | The result is the first ACTIVE product carrying the barcode. It is none exactly when no active product carries it. |
| Database.AddKeepsUnique | convex/products.ts:49-84 | Adding a product whose SKU, and whose barcode when given, no product holds keeps SKU and barcode uniqueness. |
| Database.ReplaceKeepsUnique | convex/products.ts:107-141 | Overwriting a product with identifiers no OTHER product holds keeps SKU and barcode uniqueness. |
| Stock.UpdateStock | convex/stock.ts:39-121 | The public stock update. The new quantity is the rule applied to the value read. It appends one movement with the requested amount, the value read, the value written and `transferToLocationId` copied through. No other pair changes, including the transfer destination. The store invariant is kept. |
| Stock.IsLowStock | convex/stock.ts:200-231 | A product counts as low on stock when it is active and its summed stock is at or below its reorder level. |
| Stock.CountActive | convex/stock.ts:199-209 | The number of active products, which is `totalProducts`. |
| Stock.CountLowStock | convex/stock.ts:212-226 | Never more low-stock products than active ones. |
| Stock.GetDashboardStats | convex/stock.ts:198-226 | `totalProducts` counts the active products. `lowStockCount` counts the active products whose summed stock is at or below their reorder level, and it is at most `totalProducts`. |
| Internal.UpdateStock | convex/internal.ts:5-80 | The same quantity rule and upsert as the public update. The movement is attributed to the given user and carries no transfer destination. |
| Internal.SkuFrom | convex/internal.ts:84-86 | The SKU is `SKU` followed by the clock part and the random part. |
| Internal.GenerateSku | convex/internal.ts:83-99 | The SKU returned is held by no product, active or inactive. It is the first draw in the retry order whose SKU is free. |
| Internal.CreateProduct | convex/internal.ts:102-144 | It fails if and only if a non-empty barcode is given that some product already holds. Otherwise it appends exactly one active product with a fresh SKU and changes no other product. Uniqueness is preserved. |
| Scanner.Placeholder | convex/scanner.ts:76-86 | The product registered for an unknown barcode: named "Product <barcode>", carrying the barcode and the new SKU, price 0, reorder level 10, active, created and updated at the scan time. |
| Scanner.SingleScan | convex/scanner.ts:6-97 | A barcode of an active product raises that pair by exactly 1, through the same upsert of the stock table as `updateStock`, with one inbound movement of amount 1. An unknown barcode registers "Product <barcode>" with price 0, reorder level 10 and active status, and moves no stock. |
| Scanner.PlaceholderCanRepeatBarcode | convex/scanner.ts:16-86 | A barcode held only by an inactive product is registered again by the new-product path, which breaks barcode uniqueness. |
| Scanner.StartBulkScanSession | convex/scanner.ts:100-129 | It fails if and only if the user already has an active session. Otherwise it adds one active session with nothing scanned, which becomes the user's active session. |
| Scanner.AddBarcodeToSession | convex/scanner.ts:132-164 | It succeeds if and only if the session exists, belongs to the caller and is active. Otherwise it refuses access, then refuses a non-active session, and writes nothing. On success it appends one scan, duplicates included, and raises the counter by exactly 1. It returns the new total, which equals the session's scan rows. |
| Scanner.GetActiveScanSession | convex/scanner.ts:167-190 | It returns `s` if and only if `s` is the user's active session. |
| Scanner.CompleteBulkScanSession | convex/scanner.ts:215-289 | It succeeds if and only if the session exists, belongs to the caller and is active, with the same errors as adding a scan. A positive total is received into the pair with one inbound movement, through the same upsert of the stock table as `updateStock`, and a zero total moves no stock. The session becomes completed with its completion time. It returns the product and the total. |
| Scanner.CancelBulkScanSession | convex/scanner.ts:292-310 | It fails if and only if the session is missing or belongs to someone else. Otherwise the session becomes cancelled from any status. Stock and the ledger never change. |
| BarcodeGenerator.SequenceField | convex/barcodeGenerator.ts:32 | The 1-based sequence number of barcode `i`, zero-padded to four characters. |
| BarcodeGenerator.BarcodeAt | convex/barcodeGenerator.ts:31-34 | Barcode `i`: the SKU followed by the last eight characters of the clock reading joined with the sequence field. |
| BarcodeGenerator.Batch | convex/barcodeGenerator.ts:30-36 | A batch of `q` has exactly `q` barcodes. |
| BarcodeGenerator.SequenceFieldShape | convex/barcodeGenerator.ts:32 | Below 9999 the padded sequence field is exactly four digits and reads back as `i + 1`. |
| BarcodeGenerator.BarcodeShape | convex/barcodeGenerator.ts:32-34 | Every barcode starts with the SKU, has 4 to 8 characters after it, and ends with its own sequence field. |
| BarcodeGenerator.BarcodesDistinct | convex/barcodeGenerator.ts:30-35 | Two positions of one batch never produce the same barcode. |
| BarcodeGenerator.BatchDistinct | convex/barcodeGenerator.ts:27-36 | In a batch of at most 1000, the barcodes are pairwise distinct. |
| BarcodeGenerator.BatchPositions | convex/barcodeGenerator.ts:27-36 | In a batch of at most 1000, every barcode starts with the SKU, and its last four characters read back as its 1-based sequence number. |
| BarcodeGenerator.BuildBarcodes | convex/barcodeGenerator.ts:27-36 | The loop produces exactly the batch, in sequence order. |
| BarcodeGenerator.ScanRows | convex/barcodeGenerator.ts:50-56 | One scan row per barcode, in order, each linked to the session. |
| BarcodeGenerator.BatchListing | convex/barcodeGenerator.ts:50-57 | Appending the batch's rows for a new session makes that session list exactly the batch. |
| BarcodeGenerator.GetGeneratedBarcodes | convex/barcodeGenerator.ts:110-137 | It fails exactly for a missing session. Under the session invariant it otherwise returns as many barcodes as the session's counter says. |
| BarcodeGenerator.RecordBatchSession | convex/barcodeGenerator.ts:39-57 | It adds one already-completed session whose counter is the batch size, with `createdAt = completedAt`. It adds one scan row per barcode linked to it, which the session then lists in order. The ledger and the other sessions stay as they were, and the store invariant is kept. |
| BarcodeGenerator.GenerateBarcodes | convex/barcodeGenerator.ts:6-107 | It succeeds if and only if the batch size is within 1..1000, the product exists and the location exists. Before any write it rejects a bad size, then a missing product, then a missing location. Otherwise it adds one already-completed session with the batch size as its counter and `createdAt = completedAt`. It adds one scan row per barcode, which `getGeneratedBarcodes` returns. The pair rises by exactly the batch size through the same upsert of the stock table as `updateStock`, with one inbound movement. |
| Products.Create | convex/products.ts:34-86 | It fails if and only if some product holds the SKU or a given non-empty barcode: first `SkuExists`, then `BarcodeExists`. Otherwise it appends exactly that product. SKU and barcode uniqueness are preserved. |
| Products.Patched | convex/products.ts:131-141 | The record `update` writes: the listed fields and `updatedAt` replaced; supplier, creator and creation time kept. |
| Products.Update | convex/products.ts:88-143 | It fails if and only if the product is missing or a DIFFERENT product holds the SKU or a given non-empty barcode, in that order of errors. Otherwise it overwrites the listed fields and `updatedAt`. Creator, creation time and supplier stay. Uniqueness is preserved. |
| Products.KeepOwnIdentifiers | convex/products.ts:107-129 | Under the uniqueness invariants, keeping a product's own SKU or barcode is never refused. |
| Products.LowStockList | convex/products.ts:176-193 | The entries the report collects before sorting: each low-stock active product in table order, with its record and summed stock. |
| Products.LowStockListMembers | convex/products.ts:171-192 | An entry is in the collected list if and only if its product is active and at or below its reorder level, and the entry carries that product's own record and summed stock. |
| Products.LowStockListShape | convex/products.ts:178-192 | The collected list is in table order, so each product appears at most once. It is exactly as long as the dashboard's low-stock count. |
| Products.Insert | convex/products.ts:195 | Insertion adds exactly the one entry. |
| Products.InsertSorted | convex/products.ts:195 | Inserting into a sorted list keeps it sorted. |
| Products.SortByTotal | convex/products.ts:195 | The sort returns a permutation of its input, ascending by total stock. |
| Products.InsertWithTotal | convex/products.ts:195 | Insertion places the entry ahead of every entry with the same total. |
| Products.SortKeepsTies | convex/products.ts:195 | The sort is stable: entries with equal totals keep their relative order. |
| Products.GetLowStockProducts | convex/products.ts:165-197 | The report is sorted ascending by total stock and stable. It is a permutation of the collected list. An entry appears in it if and only if it is a low-stock active product with its own record and summed stock. |
| Products.SearchByBarcode | convex/products.ts:199-222 | It never returns an inactive product. It returns none exactly when no active product carries the barcode. |

## Left out

- Authentication (`getAuthUserId`) is not modelled. The caller's user id is a parameter, and the "Not authenticated" failures are not modelled.
- The clock (`Date.now()`) and `Math.random()` are parameters. Each mutation takes one `now`, although the source reads the clock separately for the row and for the movement. The single-scan SKU takes the clock and random parts as strings.
- Numbers are JavaScript floats in the source. Quantities, reorder levels and counters are unbounded integers here, and `unitPrice` is a real. Fractional amounts, `NaN` and precision beyond 2^53 are not modelled.
- GenerateBarcodes: `quantity` is an integer. A fractional batch size such as 2.5 passes the source's range check, produces three barcodes and records 2.5 as the counter; that case is not captured.
- The floating-point `totalStockValue` and the seven-day `recentMovementsCount` of the dashboard are not modelled; they depend on prices and the clock.
- The read-only enrichment queries are not part of this model: `list`, `get`, `getStockLevels`, `getStockMovements`, `getSessionBarcodes` and the product/location joins in every query. The messages and joined records that mutations return are not modelled either; the ids and counts are.
- Locations are only a set of ids. Their names, addresses and active flag are not used by this core.
- Id validation by Convex (`v.id(...)`) is taken as given. A product id refers to a position in the table, and a session id that is out of range is a missing session.
- Concurrency is not modelled. Convex runs each mutation as a serializable transaction, so a sequential model is faithful to it. The race between two `startBulkScanSession` calls therefore does not arise in the model.
- Internal.GenerateSku: it requires that some draw in the given sequence of (clock, random) draws yields a free SKU. The source retries without bound on fresh random draws; its termination rests on randomness, which the model does not capture.
- Internal.CreateProduct: it inherits the requirement of `GenerateSku` that a free SKU is among the draws.
- GetLowStockProducts: the array of active products comes from an unindexed query, which the model reads in insertion order.
- Where one might expect more, the model does what the code does:
  - `cancelBulkScanSession` checks only existence and ownership. It cancels a completed session too.
  - `updateStock` checks neither the product, nor the location, nor the sign of the amount.
  - `transfer_out` writes no matching receipt at the destination.
