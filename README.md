# Warehouse scanner: stock rules, scan pipeline and sync, in Dafny

This project models the rules of a mobile warehouse-scanning app. A worker scans a barcode
or types a SKU. The app looks the code up in a fixed catalog. On a hit it records a snapshot
of the product in a history of at most fifty entries and stores that history on the device.
It posts the product to a spreadsheet webhook and opens the product's detail screen. There
the stock count can be nudged locally, and for low counts a prefilled WhatsApp alert to the
manager is offered.

Modules follow the source files:

- `Types` (types.ts): `Product`, `ScanRecord`, `AppSettings`, `AppView`, `StockStatus`.
- `Constants` (constants.ts): the six-product seed catalog and the two storage keys, with
  lemmas that every sku and barcode names one product only.
- `Utils` (utils.ts):
  - the three-tier stock classifier and its colour styles;
  - the alert text and its `https://wa.me/<digits>?text=<encoded>` deep link, with a parser
    that recovers the phone digits and the text from a link;
  - the flat sync payload, and the sync, whose result depends only on whether the transport
    threw.
- `Dashboard` (components/Dashboard.tsx): the Today, Low and Crit counters, and the filtered
  list of at most twenty records.
- `ProductDetail` (components/ProductDetail.tsx): a class holding the detail screen's own
  copy of the product. The stock adjustment is clamped at zero. The alert shows exactly for
  counts of 50 or less.
- `App` (App.tsx):
  - lookup by barcode or sku, where the first match wins;
  - the scan record, and the `[record, ...history].slice(0, 50)` update;
  - the `AppState` class, which holds the current view, history, settings, active product,
    `syncing` flag and an abstract key-value store. Its invariant says that the store always
    holds what memory holds.
- `Seqs` and `Strings` are helpers for what JavaScript provides:
  - `filter`, and keeping elements in order;
  - how `${n}` renders a whole number, and a reader that gets the number back;
  - `replace(/[^0-9]/g, '')`;
  - a first-occurrence search, which the model uses to read a deep link back;
  - lines joined by newlines.

The classifier follows the code: `stock > 50` is HEALTHY and `stock >= 20` is MONITOR, so a
count of exactly 50 is MONITOR; the model follows utils.ts:8-9.

The detail screen's warning text says the count "is at or below threshold". The condition
that shows the warning, however, is the global tier (count of 50 or less), not the product's
threshold. `ProductDetail.AlertShownIffAtMostFifty` states the condition as the code has it.

The clock, `crypto.randomUUID`, the "is today" test and `encodeURIComponent` are parameters.
The outcome of `fetch` is a boolean parameter, `transportThrew`.

## Model

| member | source | states |
|---|---|---|
| `Types.StatusName` | types.ts:28-32 | each tier is written as its enum string, which is never empty |
| `Types.StatusNameInjective` | types.ts:28-32 | distinct tiers are written differently, so the payload's status string determines the tier |
| `Constants.CatalogIds` | constants.ts:4-11 | the catalog has six products, with ids 1 to 6 in order (so pairwise distinct) |
| `Constants.CatalogSkusDistinct` | constants.ts:4-11 | no two catalog products share a sku |
| `Constants.CatalogBarcodesDistinct` | constants.ts:4-11 | no two catalog products share a barcode |
| `Constants.CatalogSkusAreNotBarcodes` | constants.ts:4-11 | no sku of any product equals the barcode of any product |
| `Constants.CatalogCodesUnique` | constants.ts:4-11 | the catalog satisfies `CodesUnique`: ids, skus and barcodes unique, skus and barcodes disjoint |
| `Constants.CatalogCountsNonNegative` | constants.ts:4-11 | every catalog stock and threshold is non-negative |
| `Constants.StorageKeysDistinct` | constants.ts:13-16 | the settings key and the history key differ |
| `Utils.GetStockStatus` | utils.ts:7-11 | total; HEALTHY iff stock > 50, MONITOR iff 20 <= stock <= 50, LOW iff stock < 20 |
| `Utils.StatusBoundaries` | utils.ts:8-10 | 19 is LOW, 20 and 50 are MONITOR, 51 is HEALTHY |
| `Utils.StatusMonotone` | utils.ts:7-11 | if a <= b the tier of b ranks at least as high as the tier of a |
| `Utils.GetStatusColor` | utils.ts:13-19 | every tier maps to a `text-` colour style |
| `Utils.GetStatusBg` | utils.ts:21-27 | every tier maps to a `bg-` background style |
| `Utils.StatusStylesDistinct` | utils.ts:13-27 | distinct tiers get distinct text colours and distinct backgrounds |
| `Utils.StatusStylesShareHue` | utils.ts:13-27 | a tier's text colour and background name the same hue |
| `Utils.OrElse` | utils.ts:44 | JavaScript `s \|\| fallback` on strings: `s` when non-empty, else the fallback; never empty when the fallback is not |
| `Utils.SeverityLabel` | utils.ts:30 | "CRITICAL" iff stock < threshold, otherwise "LOW STOCK" (so stock == threshold gives "LOW STOCK") |
| `Utils.AlertLines` | utils.ts:33-45 | the alert template has thirteen lines |
| `Utils.AlertMessage` | utils.ts:33-45 | the alert text opens with the "INVENTORY ALERT" title on a line of its own and ends with "Date: " and the date |
| `Utils.AlertStatesName` | utils.ts:35 | the alert text has the line "Product: " and the product name on its own |
| `Utils.AlertStatesSku` | utils.ts:36 | the alert text has the line "SKU: " and the sku on its own |
| `Utils.AlertStatesLocation` | utils.ts:39 | the alert text has the line "Location: " and the location on its own |
| `Utils.AlertStatesThreshold` | utils.ts:40 | the alert text has the reorder-threshold line on its own, and its numeral reads back as the threshold |
| `Utils.RecommendationIsTwiceThreshold` | utils.ts:42 | the alert text has, on its own line, "Order N units" where N reads back as exactly threshold * 2 |
| `Utils.ReporterFallsBack` | utils.ts:44 | the alert text's "Reported by" line names the worker, or "Staff Member" when the name is empty |
| `Utils.AlertStatesSeverity` | utils.ts:30-38 | the alert text's Status line says CRITICAL exactly when stock < threshold |
| `Utils.AlertStatesStock` | utils.ts:37 | the alert text's stock line carries a numeral that reads back as the stock count |
| `Utils.WhatsAppLink` | utils.ts:47 | the link starts with `https://wa.me/` |
| `Utils.LinkSplitsBack` | utils.ts:47 | a link built from a digit string and a text parses back into exactly that phone and that text |
| `Utils.WhatsAppLinkRoundTrip` | utils.ts:47 | the link dials exactly the digits of the manager phone, in order, and carries encode(alert text); both are recovered from the link |
| `Utils.BuildPayload` | utils.ts:58-69 | "Worker Name" is the worker or "Anonymous" when empty; item, sku, barcode, bin and stock are copied; "Stock Status" is LOW iff stock < 20, MONITOR iff 20 <= stock <= 50 and HEALTHY iff stock > 50, written as the enum's string; timestamp and action type as given |
| `Utils.SyncToGoogleSheet` | utils.ts:53-90 | the POST goes to the fixed webhook with the built payload, and the result is true iff the transport did not throw |
| `Utils.TestWebhookConnection` | utils.ts:95-107 | the connection test runs the ordinary sync for the placeholder product tagged CONNECTION_TEST; its payload's status is "HEALTHY" (stock 100) |
| `Strings.ParseShowInt` | utils.ts:37-42 | every whole number written into the alert text reads back as itself |
| `Strings.ShowIntInjective` | utils.ts:37-42 | distinct numbers are written differently |
| `Strings.DigitsOnly` | utils.ts:47 | the stripped phone number holds only '0'-'9' and is no longer than the input |
| `Strings.DigitsOnlyCharacterised` | utils.ts:47 | stripping leaves a string alone iff it is all digits, works piecewise over concatenation, and keeps the digits in their original order |
| `Strings.DigitsOnlyIdempotent` | utils.ts:47 | stripping twice equals stripping once |
| `Dashboard.TodayScans` | components/Dashboard.tsx:16-17 | the Today counter's records are taken from the history in order, each was scanned today, and every record scanned today is there as often as in the history |
| `Dashboard.LowStockScans` | components/Dashboard.tsx:18 | the Low counter's records are taken from the history in order, each classifies LOW, and every LOW record is there as often as in the history |
| `Dashboard.CriticalScans` | components/Dashboard.tsx:19 | the records counted as critical are exactly the records with stockAtScan below 10, each as often as in the history |
| `Dashboard.CriticalCount` | components/Dashboard.tsx:19 | the Crit count is the number of those records: at most the history length, and zero iff no record has stockAtScan below 10 |
| `Dashboard.FilteredHistory` | components/Dashboard.tsx:21-25 | the listed records never number more than 20 and form a subsequence of the history, in order |
| `Dashboard.LowFilterShowsOnlyLow` | components/Dashboard.tsx:18-25 | under the Low filter the list is the first min(20, \|low\|) of the Low counter's records, and every listed record has stockAtScan < 20 |
| `Dashboard.AllFilterShowsNewest` | components/Dashboard.tsx:21-25 | under the All filter the list is the first min(20, \|history\|) records |
| `Dashboard.TodayFilterShowsTodayScans` | components/Dashboard.tsx:17-25 | under the Today filter the list is the first min(20, \|todayScans\|) of the Today counter's records |
| `Dashboard.LowCountIsBelowTwenty` | components/Dashboard.tsx:18 | the Low counter's records are exactly the records with stockAtScan < 20 |
| `Dashboard.CriticalAtMostLow` | components/Dashboard.tsx:18-19 | the critical records (stockAtScan < 10) are a subsequence of the low ones, so the Crit count never exceeds the Low count |
| `ProductDetail.Adjusted` | components/ProductDetail.tsx:18-23 | new stock is max(0, old + amount), never negative; every other field is kept |
| `ProductDetail.IncreaseThenDecreaseRestores` | components/ProductDetail.tsx:18-23 | for stock >= 0, +1 then -1 gives the product back; -1 at 0 leaves it unchanged |
| `ProductDetail.AdjustmentsCompose` | components/ProductDetail.tsx:18-23 | adjustments that never reach the floor add up |
| `ProductDetail.AlertShownIffAtMostFifty` | components/ProductDetail.tsx:25-26 | the alert shows (status LOW or MONITOR) iff stock <= 50 |
| `ProductDetail.ProductDetailView.constructor` | components/ProductDetail.tsx:15-16 | the local copy starts equal to the product handed in |
| `ProductDetail.ProductDetailView.AdjustStock` | components/ProductDetail.tsx:18-23 | the local copy becomes `Adjusted(old copy, amount)`; its stock stays non-negative |
| `ProductDetail.ProductDetailView.Status` | components/ProductDetail.tsx:25 | the tier shown for the local count is HEALTHY iff it exceeds 50, MONITOR iff it is 20 to 50, LOW iff it is below 20 |
| `ProductDetail.ProductDetailView.ShowAlert` | components/ProductDetail.tsx:26 | the warning shows iff the local count is at most 50 |
| `ProductDetail.ProductDetailView.ReportLink` | components/ProductDetail.tsx:133-147 | the report link exists iff the count is at most 50, and it carries the phone digits and the alert for the adjusted local copy |
| `App.FindIndex` | App.tsx:37 | the position returned holds a product whose barcode or sku equals the code, and no earlier product matches; none is returned only when no product matches |
| `App.FindProduct` | App.tsx:37 | not-found iff no catalog product matches; a found product is the first catalog entry whose barcode or sku equals the code |
| `App.LookupUnambiguous` | App.tsx:37 | with unique codes, any product the code names is the one found |
| `App.CatalogLookups` | App.tsx:37 | "4902778918856" and "WM-185-BLK" both resolve to product id 1 |
| `App.CatalogLookupMiss` | App.tsx:37 | "NOPE" resolves to nothing |
| `App.NewScanRecord` | App.tsx:44-51 | the record copies product id, name, sku and stock into productId, productName, sku and stockAtScan |
| `App.PushHistory` | App.tsx:52 | the new record is first, the length is min(old + 1, 50), and entries 1.. are the old entries in order with only the oldest tail dropped |
| `App.ScanAllNewestFirst` | App.tsx:52 | after any sequence of scans the history is newest-first followed by the old history, cut to 50 |
| `App.LoadSettings` | App.tsx:15-27 | start-up settings are the stored settings when present, otherwise an empty phone and an empty worker name |
| `App.LoadHistory` | App.tsx:14-28 | the start-up history is the stored history when present, otherwise empty |
| `App.StorageRoundTrip` | App.tsx:24-34 | what is saved under a key is what the next start-up reads; saving one key leaves the other's value alone |
| `App.RenderView` | App.tsx:74-95 | PRODUCT_DETAIL shows the active product, and falls back to the dashboard without one; the other views show their own screen |
| `App.NavBarMatchesScreen` | App.tsx:113 | the navigation bar is shown exactly when the main area is not the scanner screen |
| `App.TargetView` | App.tsx:115-136 | no button navigates to PRODUCT_DETAIL |
| `App.AppState.constructor` | App.tsx:13-29 | start-up is the dashboard with no active product and not syncing, and settings and history are read back from storage |
| `App.AppState.SaveSettings` | App.tsx:31-34 | the state's settings become the new settings and the same value is stored under the settings key; nothing else changes |
| `App.AppState.Navigate` | App.tsx:115-136 | a button changes only the current view |
| `App.AppState.HandleScanSuccess` | App.tsx:36-72 | miss: "Product not found" and nothing changes; hit: the product becomes active, the record is pushed, the new history is stored under the history key, the sync is posted with the current settings, the view is PRODUCT_DETAIL whatever the sync result, and `syncing` is false right after a failed sync |
| `App.AppState.DetailNeverFallsBack` | App.tsx:82-91 | in any reachable state the detail view always has a product to show |
| `App.OpenDetailAndAdjust` | App.tsx:83-90 | opening the detail screen and adjusting its stock changes only the screen's own copy; the app's active product, history and storage are unchanged |

## Left out

- components/Scanner.tsx is not part of this model. It wraps the camera widget. It also trims
  manual input and ignores blank input. Every code reaching `HandleScanSuccess` is taken as
  given.
- components/Settings.tsx is not part of this model. It holds form state, timers and button
  states. Its test button calls `testWebhookConnection`, which is modelled.
- `fetch`, `no-cors` mode and `console.log`/`console.error`: network I/O and logging. Only
  the transport's threw / did-not-throw outcome is modelled.
- Clocks and locale formatting (`toLocaleString`, `toISOString`, `toDateString`,
  `toLocaleTimeString`) are opaque strings. The "is today" test is an opaque predicate on
  timestamps.
- `crypto.randomUUID` is an opaque id parameter. Uniqueness of record ids is not claimed.
- `localStorage` is a map from key to a typed value. `JSON.stringify`/`JSON.parse` are not
  modelled. A stored value of the wrong kind is ignored at start-up. Write failures (quota)
  are not modelled: every write succeeds.
- `encodeURIComponent` is an opaque function parameter. Its percent-encoding and UTF-8
  behaviour are not modelled.
- The `setTimeout` that clears `syncing` three seconds after a successful sync is left out.
  Right after a successful sync, `syncing` is true.
- The JSON key order of the payload is not modelled. Each field of `SyncPayload` is labelled
  with its key.
- Interleaving of events during the awaited sync is not modelled. A scan runs to completion
  before the next event.
- Numbers are whole numbers. JavaScript's floating-point numbers (fractions, NaN, exponent
  notation for very large values) are not modelled.
- JSX rendering, CSS class strings beyond the status colours, and icons are left out.
