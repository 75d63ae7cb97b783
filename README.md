# Orders and machine catalog: a Dafny model

This project models the order book of a small machine-selling business. An
Express back end keeps the orders in SQLite, and each order points at three
catalog tables: machines, machine types and machine subtypes. React pages list,
filter and edit the data. The model covers the following parts.

- **The legacy order router** (`sg-be/routes/orders.js`, the one the server
  mounts):
  - a listing whose WHERE clause is assembled from up to thirteen query
    parameters;
  - a lookup of one bare row;
  - create and full-replace update, both guarded by a required-field check with
    a `details` object;
  - a delete.
- **The newer order router** (`sg-be/src/routes/orders.js`):
  - a joined listing;
  - a create guarded by an ordered chain of checks, with destructuring
    defaults;
  - a partial update whose SET list is built from the fields the body provides;
  - a delete that answers success whether or not a row matched.
- **The newer machine router** (`sg-be/src/routes/machines.js`). Its delete
  refuses while orders reference the machine and lists those orders' `{ id,
  date }`.
- **The order model** (`sg-be/models/order.js`) and the **three catalog models**
  (`machineType.js`, `machineSubtype.js`, `machine.js`). The three catalog
  models are the same code over different tables, so they are one class,
  `CatalogModel.NameTable`.
- **The three catalog routers** (`sg-be/routes/machineTypes.js`,
  `machineSubtypes.js`, `machines.js`). They differ only in their model and
  their 404 message, so they are one module, `CatalogRoutes`, with a `Kind`
  parameter for the message.
- **The orders page** (`src/pages/Orders.jsx`). The model covers:
  - the filter-to-query-string builder of `fetchOrders`;
  - the filter merge and reset;
  - the date re-sort;
  - the column-visibility settings;
  - the table's sort state.
- **The two catalog pages** (`src/pages/Machines.jsx`,
  `src/pages/MachineSubtypes.jsx`): the search filter and the add/edit modal.
  They differ only in the endpoint, so they are one class,
  `CatalogPages.CatalogPage`, with a `Page` parameter.

The tables are in-memory maps from id to row, each with an AUTOINCREMENT
counter; they live in classes whose methods change them in place. One
`Storage.Database` holds the orders table and the three catalog tables. Three
kinds of value are modelled separately:

- JSON request values are `Values.Json` (`undefined`, `null`, integers,
  strings), with JavaScript truthiness, `|| null`, destructuring defaults and
  `Number()`.
- Table cells are `Values.Cell` (NULL, INTEGER, TEXT), with SQLite's comparison
  of mixed types, NULL in WHERE, `LIKE`, and the numeric affinity that turns
  a bound text such as `-5`, `+5` or ` 5 ` into an integer before it is compared
  with an id or money column.
- A LEFT JOIN gives the parent's name, or NULL when no parent row matches.

Code that builds something step by step is modelled as imperative Dafny: the
WHERE-clause builder (`sql +=` and `params.push`), the SET-list builder and the
`URLSearchParams` builder. Each of these methods is proved equal to a
declarative function, and the listed properties are proved about that
function.

Three status codes of the newer routers are worth noting:

- the machine delete answers 400 when orders reference the machine;
- the newer order delete answers 200 with a message;
- the newer machine create answers 200.

## Model

| member | source | states |
|---|---|---|
| Values.NumberOf | sg-be/src/routes/orders.js:83-93 | `Number(v)`: `undefined` and non-numeral strings are NaN (`None`), `null` is 0, a number is itself |
| Values.LikeContains | sg-be/routes/orders.js:85-88 | on a text without wildcards, `LIKE '%x%'` holds exactly when the column contains `x` |
| Values.SqlBetweenPoint | sg-be/routes/orders.js:91-98 | `a >= x AND a <= x` holds exactly when the cell is the integer `x`; NULL fails both |
| CatalogModel.NameTable.constructor | sg-be/models/machineType.js:4-8 | a new table is empty and its counter starts at 1 |
| CatalogModel.NameTable.GetAll | sg-be/models/machineType.js:11-18 | holds exactly the current rows, each once, by ascending id |
| CatalogModel.NameTable.GetById | sg-be/models/machineType.js:20-27 | the row with that id and its name, or `None` (`undefined`) exactly when no row has it |
| CatalogModel.NameTable.Create | sg-be/models/machineType.js:29-40 | a non-NULL name is stored under the counter's id, which no row had; a NULL name violates NOT NULL and nothing changes |
| CatalogModel.NameTable.Update | sg-be/models/machineType.js:42-53 | 1 and only that row renamed when the id exists; 0 and no change otherwise; a NULL name is a constraint error (`None`) |
| CatalogModel.NameTable.Delete | sg-be/models/machineType.js:55-62 | 1 and only that row removed when the id exists; 0 and no change otherwise |
| CatalogModel.CreateThenGet | sg-be/models/machineType.js:20-40 | `getById` after `create` finds the created name; an id never handed out is not found |
| CatalogModel.CreateDuplicateName | sg-be/models/machine.js:4-8 | two creates with one name both succeed, with distinct fresh ids (no UNIQUE) |
| Storage.OrderTable.constructor | sg-be/models/order.js:4-23 | a new orders table is empty and its counter starts at 1 |
| Storage.OrderTable.Insert | sg-be/models/order.js:89-119 | the row is stored under the fresh counter id, `lastID`; no other row changes |
| Storage.OrderTable.Update | sg-be/models/order.js:139-166 | `changes` is 1 and only that row is reassigned when it exists; 0 and no change otherwise |
| Storage.OrderTable.Delete | sg-be/models/order.js:179 | `changes` is 1 and only that row is removed when it exists; 0 and no change otherwise |
| Storage.Database.constructor | sg-be/models/order.js:4-23 | four distinct, empty tables |
| Storage.JoinedRows | sg-be/models/order.js:28-37 | every order appears, once, with `ViewOf` its row; ids ascend |
| Storage.LeftJoinKeepsOrphans | sg-be/models/order.js:35 | an order whose machine is missing is still listed, with a NULL machine name |
| Storage.DateDescTotalPreorder | sg-be/models/order.js:38 | the order `date DESC` is total and transitive, so a sort by it is well defined |
| Storage.OrderByDateDesc | sg-be/models/order.js:38 | the result is a permutation of the input, sorted by date, latest first |
| OrderModel.GetAllOrders | sg-be/models/order.js:26-47 | a permutation of all joined orders, sorted latest date first |
| OrderModel.GetOrderById | sg-be/models/order.js:50-71 | the joined row with that id and its three parent names, or `undefined` exactly when no order has it |
| OrderModel.ListingAgreesWithLookup | sg-be/models/order.js:26-71 | a view is in the listing exactly when the lookup by its id returns it |
| OrderModel.ListingKeepsOrphans | sg-be/models/order.js:35 | an order with a missing machine is listed with a NULL `machine_name` |
| OrderModel.CreateOrder | sg-be/models/order.js:74-121 | one new row holding the ten fields, under a fresh id; resolves with that id and the input |
| OrderModel.UpdateOrder | sg-be/models/order.js:124-174 | the ten fields and `updated_at` of that row overwritten, other rows untouched; resolves `{ id, ...order }` even when no row matched |
| OrderModel.DeleteOrder | sg-be/models/order.js:177-187 | the row removed if present; resolves `{ id }` regardless |
| OrderModel.CreateThenGetOrder | sg-be/models/order.js:50-121 | `getOrderById` on the id `createOrder` returned finds the stored fields |
| Values.SqlNumeralOfDigits | sg-be/routes/orders.js:67-118 | a bound run of decimal digits compares as the integer it spells |
| Values.SqlNumeralOfSigned | sg-be/routes/orders.js:67-118 | a `-` or `+` before the digits is read with them, so `-5` compares as -5 |
| Values.SqlNumeralIgnoresPadding | sg-be/routes/orders.js:67-118 | a space before or after the text changes nothing in the number read from it |
| Values.SqlNumeralNeedsDigit | sg-be/routes/orders.js:67-118 | a text read as a number holds a digit |
| Values.NonNumeralStaysText | sg-be/routes/orders.js:67-118 | a bound text with no digit is compared as text |
| LegacyOrderRoutes.WhereOverPresent | sg-be/routes/orders.js:53-124 | the built WHERE holds exactly when the clause of every present parameter holds with its own bound value |
| LegacyOrderRoutes.ClausesOfMatches | sg-be/routes/orders.js:57-124 | a row meeting the declared test of every present parameter meets every built clause |
| LegacyOrderRoutes.MatchesOfClauses | sg-be/routes/orders.js:57-124 | a row meeting every built clause meets the declared test of every present parameter |
| LegacyOrderRoutes.QueryMeansMatches | sg-be/routes/orders.js:41-124 | filters combine by AND: the SQL WHERE holds exactly when the row meets every present filter |
| LegacyOrderRoutes.PlaceholdersMatchParams | sg-be/routes/orders.js:53-127 | the statement has exactly one `?` per bound parameter |
| LegacyOrderRoutes.QueryTextIgnoresValues | sg-be/routes/orders.js:53-124 | the SQL text depends only on which parameters are present, never on their values |
| LegacyOrderRoutes.BuildListQuery | sg-be/routes/orders.js:41-127 | the `if`/`+=`/`push` chain yields the present clauses in the handler's order, one bound value for each, and the declared text |
| LegacyOrderRoutes.ListOrders | sg-be/routes/orders.js:6-152 | 200 with the joined orders that match every present filter, latest date first |
| LegacyOrderRoutes.NoFiltersListEverything | sg-be/routes/orders.js:41-127 | with no parameter, the listing is every joined order, latest date first |
| LegacyOrderRoutes.DateRange | sg-be/routes/orders.js:57-64 | both date bounds are inclusive and compare texts; a NULL date fails |
| LegacyOrderRoutes.MachineIdExact | sg-be/routes/orders.js:67-70 | a numeral `machineId`, signed or padded with spaces, keeps exactly the rows with the machine id it spells |
| LegacyOrderRoutes.PriceRange | sg-be/routes/orders.js:91-98 | numeral bounds, signed or padded, compare as the numbers they spell, and the range is inclusive at both ends |
| LegacyOrderRoutes.PricePoint | sg-be/routes/orders.js:91-98 | `priceMin = priceMax = x` keeps exactly the rows with the price `x` spells |
| LegacyOrderRoutes.CostOfGoodRange | sg-be/routes/orders.js:101-108 | numeral bounds compare as numbers; the cost-of-good range is inclusive at both ends |
| LegacyOrderRoutes.ShippingRange | sg-be/routes/orders.js:111-118 | a NULL shipping cost passes both bounds; any other value must lie within the numbers the bounds spell |
| LegacyOrderRoutes.SourceContains | sg-be/routes/orders.js:85-88 | the source filter is a substring test; a NULL source never matches |
| LegacyOrderRoutes.PurchaseLocationContains | sg-be/routes/orders.js:121-124 | the purchase-location filter is a substring test; a NULL location never matches |
| LegacyOrderRoutes.GetOrder | sg-be/routes/orders.js:155-168 | the bare stored row with 200, or 404 `Order not found` exactly when no row has the id |
| LegacyOrderRoutes.DetailsNameTheMissing | sg-be/routes/orders.js:186-198 | a write is refused exactly when some `details` entry is a message; each of the six entries is its field's own message exactly when that field is falsy, and `null` otherwise |
| LegacyOrderRoutes.ZeroShippingStoredAsNull | sg-be/routes/orders.js:283-294 | a shipping cost of 0 is stored as NULL; columns the statement does not name are kept |
| LegacyOrderRoutes.CreateOrder | sg-be/routes/orders.js:171-236 | 400 with `details` and no change when a required field is falsy; else one new row under a fresh id and 201 with that id |
| LegacyOrderRoutes.UpdateOrder | sg-be/routes/orders.js:239-305 | 400 as for create; 404 and no change for an unknown id; else all ten columns of that row replaced and 200 |
| LegacyOrderRoutes.DeleteOrder | sg-be/routes/orders.js:308-321 | the row removed; 404 when no row changed, 200 otherwise |
| OrderRoutes.ListOrders | sg-be/src/routes/orders.js:15-36 | 200 with a permutation of all joined orders, latest date first |
| OrderRoutes.CreateError | sg-be/src/routes/orders.js:58-93 | no message exactly when every check passes; a message is always one of the nine the checks send |
| OrderRoutes.PresenceBeforeFormat | sg-be/src/routes/orders.js:58-93 | the first missing field in the order date, machine, type, subtype, price, cost of good is the one reported; each number message is sent exactly when all six are present, the earlier numbers are valid and that number is not |
| OrderRoutes.ZeroPriceMessages | sg-be/src/routes/orders.js:74-85 | the number 0 is reported as missing, the string `"0"` and a negative number as not positive |
| OrderRoutes.ShippingCostOptional | sg-be/src/routes/orders.js:53-93 | an absent, `null` or empty shipping cost passes its check |
| OrderRoutes.AcceptedRowIsComplete | sg-be/src/routes/orders.js:47-109 | an accepted order fills every NOT NULL column, has a positive price and cost, and gets quantity 1 when none is given |
| OrderRoutes.CreateOrder | sg-be/src/routes/orders.js:39-147 | 400 with the first failed check and no change; else one new row with the defaults, under a fresh id, and 201 with its joined view |
| OrderRoutes.Set | sg-be/src/routes/orders.js:185-235 | `c = ?` replaces that one column and keeps every other |
| OrderRoutes.ProvidedColumns | sg-be/src/routes/orders.js:181-240 | the SET list names exactly the fields that are not `undefined`, each once, in the handler's order; it is empty exactly when none is given |
| OrderRoutes.ApplyIsPatch | sg-be/src/routes/orders.js:243-251 | executing the built SET list with its parameters is the declarative patch |
| OrderRoutes.BuildPatch | sg-be/src/routes/orders.js:181-235 | the chain of thirteen tests yields exactly the provided columns and their values |
| OrderRoutes.UpdateOrder | sg-be/src/routes/orders.js:150-282 | 404 and no change for an unknown id; 400 `No fields to update` and no change for an empty body; else only the provided fields replaced and 200 with the joined view |
| OrderRoutes.GetPatched | sg-be/src/routes/orders.js:181-235 | each column of the patched row is the old cell when the body leaves the field out, the bound value otherwise |
| OrderRoutes.PatchKeepsAbsentFields | sg-be/src/routes/orders.js:181-249 | for every one of the thirteen columns, an absent field keeps its cell and a provided one takes its bound value; `payment_type`, `created_at` and `updated_at` are untouched |
| OrderRoutes.PatchNothing | sg-be/src/routes/orders.js:181-235 | a patch that provides nothing leaves the row as it was |
| OrderRoutes.PatchIdempotent | sg-be/src/routes/orders.js:181-251 | patching twice with one body is patching once |
| OrderRoutes.DeleteOrder | sg-be/src/routes/orders.js:285-296 | the row removed if present; 200 `Order deleted successfully` either way |
| MachineRoutes.ListMachines | sg-be/src/routes/machines.js:13-21 | 200 with exactly the machine rows |
| MachineRoutes.CreateMachine | sg-be/src/routes/machines.js:24-41 | 400 and nothing inserted for a falsy name; else a new machine under a fresh id and 200 with `{ id, name }` |
| MachineRoutes.HitIds | sg-be/src/routes/machines.js:59 | the ids of exactly the orders whose `machine_id` is the machine's, ascending |
| MachineRoutes.ReferencingOrders | sg-be/src/routes/machines.js:59-71 | `{ id, date }` of each hit, in order |
| MachineRoutes.ReferencesAreExact | sg-be/src/routes/machines.js:59-71 | a reference is listed exactly when it is the id and date of an order naming the machine |
| MachineRoutes.ReferencesAscending | sg-be/src/routes/machines.js:59 | the references come in ascending order id, each once |
| MachineRoutes.DeleteMachine | sg-be/src/routes/machines.js:44-99 | 404 and no change for an unknown id; 400 with the referencing orders and no change when any exist; else only that machine removed and 200 with its id and name |
| MachineRoutes.NoOrderLosesItsMachine | sg-be/src/routes/machines.js:59-74 | a machine that some order names is never deleted, and that order is among those reported |
| CatalogRoutes.ListAll | sg-be/routes/machineTypes.js:6-13 | 200 with exactly the current rows, by ascending id |
| CatalogRoutes.GetOne | sg-be/routes/machineTypes.js:16-26 | 200 with the row exactly when it exists; else 404 with the router's message |
| CatalogRoutes.TruthyNameIsNotNull | sg-be/routes/machineTypes.js:32-35 | a name that passes `if (!name)` is never NULL, so the insert cannot fail on NOT NULL |
| CatalogRoutes.Create | sg-be/routes/machineTypes.js:29-40 | 400 and no change for a falsy name; else a new row under a fresh id and 201 with `{ id, name }` |
| CatalogRoutes.Update | sg-be/routes/machineTypes.js:43-57 | 400 for a falsy name before any update; 404 and no change when no row changed; else only that row renamed and 200 |
| CatalogRoutes.Delete | sg-be/routes/machineTypes.js:60-70 | only that row removed; 404 when no row changed, else 204 |
| CatalogRoutes.CreateThenGetOne | sg-be/routes/machines.js:16-40 | `GET /:id` on the id `POST /` returned answers the stored row |
| CatalogRoutes.DeleteThenGetOne | sg-be/routes/machineSubtypes.js:20-74 | after a delete, both `GET /:id` and a second delete answer 404 |
| OrdersPage.QueryParamsExact | src/pages/Orders.jsx:101-156 | a parameter is sent exactly when its test passes, with that value; keys come in the fixed order, each at most once |
| OrdersPage.DatesTogether | src/pages/Orders.jsx:104-107 | `dateFrom` and `dateTo` are sent together, exactly when both ends of the range are set |
| OrdersPage.TruthyFiltersSent | src/pages/Orders.jsx:110-156 | the three ids, `source` and `purchaseLocation` are sent exactly when truthy |
| OrdersPage.BoundsSentWhenDefined | src/pages/Orders.jsx:130-151 | each money bound is sent exactly when it is not `undefined` |
| OrdersPage.ZeroIdDroppedZeroPriceSent | src/pages/Orders.jsx:110-131 | a machine id of 0 is not sent, but a minimum price of 0 is |
| OrdersPage.InitialSendsNothing | src/pages/Orders.jsx:29-156 | the initial filters send no parameter |
| OrdersPage.ResetSendsToday | src/pages/Orders.jsx:625-645 | the filters a reset stores send only today's date, as both ends of the range |
| OrdersPage.ResetFetchIsStale | src/pages/Orders.jsx:625-649 | the reset's own fetch sends the previous filters; it agrees with the stored ones exactly when those already sent today's date alone, and on a fresh page it sends no date |
| OrdersPage.ResetIntendedSendsToday | src/pages/Orders.jsx:625-649 | a reset that fetches with the filters it stores sends exactly today's date, whatever the previous filters |
| OrdersPage.BuildOrderParams | src/pages/Orders.jsx:101-156 | the chain of `params.append` tests yields exactly `QueryParams` |
| OrdersPage.MergeNothingIdempotent | src/pages/Orders.jsx:617-619 | merging an empty change keeps the filters; merging one change twice is merging it once |
| OrdersPage.MergeKeepsUntouched | src/pages/Orders.jsx:617-619 | a key the change does not hold keeps what it sends; a key it holds sends what the change says, whatever the previous filters |
| OrdersPage.SortLoaded | src/pages/Orders.jsx:88-95 | the re-sort is a permutation of the loaded orders, latest date first |
| OrdersPage.SetColumnVisibility | src/pages/Orders.jsx:234-242 | the given column takes the new setting; every other setting is kept |
| OrdersPage.SetColumnVisibilityBack | src/pages/Orders.jsx:234-242 | setting a column back to its previous value restores the settings |
| OrdersPage.VisibleColumns | src/pages/Orders.jsx:507 | exactly the columns not hidden, in their original order |
| OrdersPage.DefaultShowsEveryColumn | src/pages/Orders.jsx:51-66 | with the default settings every one of the thirteen columns is shown, in the page's order |
| OrdersPage.VisibilityChangeShowsOnlyThat | src/pages/Orders.jsx:234-242 | changing one column's setting shows or hides only that column |
| OrdersPage.TableChange | src/pages/Orders.jsx:602-615 | a sorter naming a column is kept; otherwise the sort resets to date, descending |
| OrdersPage.TableChangeSettles | src/pages/Orders.jsx:602-615 | a cleared sorter always becomes date/descend, and reporting the result again changes nothing |
| CatalogPages.GetFilteredData | src/pages/Machines.jsx:53-59 | an empty search gives the list unchanged; otherwise exactly the items whose lower-cased name contains the lower-cased search; always a subsequence of the list |
| CatalogPages.NarrowingSearch | src/pages/MachineSubtypes.jsx:52-58 | a search that extends the previous one never shows more items |
| CatalogPages.CatalogPage.constructor | src/pages/Machines.jsx:28-34 | no items, an empty search, the modal closed, add mode, an empty name |
| CatalogPages.CatalogPage.Shown | src/pages/Machines.jsx:53-59 | the table shows a subsequence of the loaded items |
| CatalogPages.CatalogPage.Load | src/pages/Machines.jsx:37-50 | the items are the fetched rows and the search is cleared; the modal is untouched |
| CatalogPages.CatalogPage.HandleSearch | src/pages/Machines.jsx:61-63 | only the search text changes |
| CatalogPages.CatalogPage.HandleAdd | src/pages/Machines.jsx:65-69 | the modal opens in add mode with an empty name |
| CatalogPages.CatalogPage.HandleEdit | src/pages/Machines.jsx:71-75 | the modal opens in edit mode with the record's name |
| CatalogPages.CatalogPage.HandleNameChange | src/pages/Machines.jsx:211-215 | only the form's name changes |
| CatalogPages.CatalogPage.HandleCancel | src/pages/Machines.jsx:77-81 | the modal closes and the mode and name are reset |
| CatalogPages.CatalogPage.SubmitRequest | src/pages/Machines.jsx:83-93 | a POST to the page's endpoint with the form's name, whatever the mode |
| CatalogPages.CatalogPage.HandleSubmit | src/pages/MachineSubtypes.jsx:82-104 | sends that POST; on an ok reply the list is refetched and the modal cancelled, otherwise nothing changes |
| CatalogPages.CatalogPage.HandleDelete | src/pages/Machines.jsx:107-125 | nothing without confirmation; else a DELETE of that id and, on an ok reply, the refetched list |
| CatalogPages.EditSubmitCreates | src/pages/Machines.jsx:71-105 | editing a row and confirming adds a new row with the typed name; the edited row keeps its old name |
| CatalogPages.IntendedRequest | src/pages/Machines.jsx:204-208 | a PUT of the edited id in edit mode, a POST in add mode |
| CatalogPages.EditSubmitUpdates | src/pages/Machines.jsx:71-93 | with the intended request, the edited row takes the typed name and no row is added or removed |

## Left out

- HTTP plumbing is not modelled: routing, `res.status().json()`, CORS, the
  global error handler, and every 500 reply from a failed query or a rejected
  promise.
- Logging (`console.log`) is not modelled; it has no effect on the replies.
- The `auth` middleware that `sg-be/routes/machineSubtypes.js` applies to all of
  its routes is not modelled. Authentication is not part of this model.
- The database engine's own work is not modelled: foreign-key enforcement, the
  PRAGMA that turns it on, and the foreign-key fallback in the machine delete
  (`sg-be/src/routes/machines.js:79-85`). That fallback depends on the engine
  and is unreachable once the reference check has passed.
- The check-then-delete race in the machine delete is not modelled. The model is
  sequential.
- MachineRoutes.CreateMachine: the UNIQUE constraint on catalog names is not
  modelled.
  - The catalog tables follow the schemas of `sg-be/models/machine.js:4-8`,
    `sg-be/db.js` and `sg-be/scripts/createTables.js`, which have no UNIQUE on
    names.
  - The newer script `sg-be/src/scripts/createTables.js:13-28` declares
    `name TEXT NOT NULL UNIQUE` on all three catalog tables for the same
    database file.
  - Under that schema, a duplicate name fails the INSERT. In the model, the
    create instead answers 200 with a new row.
- Orders columns declared NOT NULL are not enforced on insert, and column
  affinity is not applied to stored values. Cells are stored as bound. The two
  back-end trees declare different order schemas, so one row type holds every
  column that either declares.
- The `created_at` column of the catalog tables is not modelled.
- Money and ids are whole numbers. REAL columns and JavaScript floating point
  are not modelled.
- Values.NumericAffinity: a decimal or exponent numeral such as `5.5` stays
  text, where SQLite reads it as a REAL; an integer outside 64 bits is not
  turned into a REAL either. Money is whole numbers in this model.
- Query parameters are single strings. A repeated key such as
  `?source=a&source=b`, which Express hands over as an array, is not modelled.
- `Values.NumberOf` reads only unsigned decimal numerals. Signs, decimals,
  exponents, hexadecimal and surrounding whitespace are read as NaN.
- `Values.LikeMatch` omits SQLite's ASCII case folding. The substring lemmas
  assume the user's text holds no `%` or `_`, because the source does not
  escape them.
- Route ids are taken as integers. The conversion of the path text `req.params.id`
  to a number by SQLite's affinity is not modelled.
- `CatalogPages.GetFilteredData`: `toLowerCase` is a parameter, not Unicode
  lower-casing.
- The page's clock and date formatting are given values:
  - `dayjs()`, `format('YYYY-MM-DD')` and `valueOf()` are given strings and
    integers;
  - the timestamps `CURRENT_TIMESTAMP` are a given cell `now`.
- `OrdersPage.QueryParams`: the `URLSearchParams` serialisation by `toString()`
  and its percent-encoding are omitted. The model yields the list of appended
  pairs.
- The SQL text of the listing is modelled with its whitespace collapsed. The
  placeholder count and the value-independence of the text do not depend on
  whitespace.
- `Storage.OrderByDateDesc` fixes one order for equal dates (stable, in rowid
  order). SQLite leaves ties unspecified, so that tie order is a modelling
  choice and no property depends on it.
- `OrdersPage.SortLoaded`: the effect runs only when the number of orders
  changes. That trigger is not modelled, only the sort it performs.
- The column settings' persistence in `localStorage`, the column-dropdown
  state, the `Intl.NumberFormat` currency formatting and the antd
  `InputNumber` formatters are not modelled.
- The orders page's edit/delete/save handlers (`handleEdit`, `handleDelete`,
  `handleModalOk`) and the fetches of the three catalog lists are not
  modelled. They only move form values to and from the back end, whose
  handlers are modelled.
- Fetch failures on the pages are modelled only as a reply that is not ok.
  Network errors caught by `try`/`catch` change no state, which is the
  not-ok case.

## Findings

| source | as written | input that shows it | evidently intended | confidence | as-written member | corrected member |
|---|---|---|---|---|---|---|
| src/pages/Machines.jsx:83-93 (and src/pages/MachineSubtypes.jsx:82-92) | `handleSubmit` always sends `POST /<endpoint>`, and `handleEdit` does not remember the edited row's id | click edit on row 3, change its name, press "Cập nhật" (the edit dialog's confirm button): a new row is created and row 3 keeps its old name | in edit mode, send `PUT /<endpoint>/3` with the new name, as the dialog's title "Sửa thông tin" and its confirm label promise | not executed | CatalogPages.EditSubmitCreates | CatalogPages.EditSubmitUpdates (with CatalogPages.IntendedRequest) |
| src/pages/Orders.jsx:625-649 | `handleResetFilters` calls `setFilters` with the reset filters and then `fetchOrders()`, which reads `filters` from the same render, so it builds its query from the previous filters | on the freshly loaded page, whose filters hold no date, press reset: the request carries no date, although the filters it stores send today's date as both ends | fetch with the reset filters, so the request carries `dateFrom` and `dateTo` of today and nothing else, as the handler's comment says | not executed | OrdersPage.ResetFetchIsStale (over OrdersPage.ResetAsWritten) | OrdersPage.ResetIntendedSendsToday (over OrdersPage.ResetIntended) |
