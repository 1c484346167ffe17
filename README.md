# Warehouse system record stores, in Dafny

This project models the in-memory record stores behind the REST routers of a
small warehouse-management service. Each router keeps module-level Python
lists of dicts and serves list, get, create, update and delete over them:

- `app/api/inboundorders.py` keeps inbound-order headers and their detail rows:
  two flat lists linked by `InboundID`.
- `app/api/requisitions.py` keeps requisition headers and their detail rows:
  two flat lists linked by `ReqID`.
- `app/api/warehouse.py`, `app/api/suppliers.py` and `app/api/products.py` each
  keep one list of records.

Module layout:

- `Common` holds the shared values (`Option`, `Result`, and the 404 `Error`). It
  also holds the Python built-ins the routers lean on: slicing `s[a:b]` with full
  negative-bound normalisation, the substring test `q in s`, `str.lower()`
  restricted to ASCII, `str(int)` and `max`.
- `Tables` holds the keyed-list operations shared by every router:
  - `Filter` (a list comprehension with a condition);
  - `IndexOfKey` (`next(...)`, the first match);
  - `NewKey` (`max(ids) + 1`, or a default when the list is empty);
  - lemmas on removal, overwrite and append;
  - the header/detail lemmas of the two aggregates.
- `InboundOrders`, `Requisitions`, `Warehouses`, `Suppliers` and `Products` each
  hold one class for one router file. The class fields are the router's
  module-level lists, as `seq` fields:
  - a handler that changes a list is a method with `modifies this`;
  - a handler that only reads is a function with `reads this`;
  - a read handler that loops in the source is a read-only method with a `while` loop.

The two aggregate stores keep the invariant `Valid()`: header ids are unique, and
every detail row names a stored header. Every mutating handler preserves it. The
single-table stores keep "ids are unique".

The service's REST interface is meant to behave as listed below. The in-memory
routers differ from it in every item but the first, which the code meets without
meaning to. The model follows the code:

- Intended: every text search ignores case. The inbound search never
  lower-cases `q`: it compares it as written with `str(InboundID)` and
  `str(SupplierID)`. Those hold only digits and `-`, so a query with any letter
  finds nothing whatever its case (`TextSearchIsNumeric`), and case never
  changes the result (`InboundOrders.SearchIgnoresCase`).
- Intended: the product list can be searched. The code has no text filter there.
- Intended: listings come sorted by id, descending. The code keeps stored order,
  which `FilterOrdersAppend` and the other `*Append` lemmas state.
- Intended: deleting a product, supplier or warehouse that other records still
  reference fails with 400. The in-memory routers have no such check.
- Intended: every delete of a missing id fails with 404. `delete_supplier` and
  `delete_product` always succeed.
- Intended: a zero or negative `limit` means "no limit". The code slices
  `results[skip : skip + limit]` with Python's rules instead:
  - `limit = 0` gives an empty page;
  - a negative `limit` with `skip + limit < 0` makes the stop bound count from
    the end of the list. When the list holds at least `-limit` entries, the
    page runs from `skip` to `n + skip + limit` (`NegativeLimitCountsFromEnd`).
    Otherwise the page is empty: `[1, 2, 3][0:-5] == []`
    (`NegativeLimitShortListEmptyPage`);
  - a negative `limit` with `0 <= skip + limit` puts the stop bound before the
    start, so the page is empty: `skip = 5, limit = -2` gives `s[5:3] == []`
    (`NegativeLimitEmptyPage`).

## Model

| member | source | states |
|---|---|---|
| Common.SliceBound | app/api/inboundorders.py:53 | a slice bound normalises to a position inside the list: negative bounds count from the end, then clamp to 0..n |
| Common.Slice | app/api/inboundorders.py:53 | `s[start:stop]` holds only entries of `s`; for `start >= 0` it is the run of `s` starting at `start` with `min(limit, max(0, n - start))` entries when `limit = stop - start >= 0` |
| Common.PagesTile | app/api/requisitions.py:49 | page `[skip, skip+a)` followed by page `[skip+a, skip+a+b)` is exactly page `[skip, skip+a+b)`: consecutive pages leave no gap and no overlap |
| Common.NegativeLimitCountsFromEnd | app/api/products.py:13-15 | with `skip + limit < 0` on a list of at least `-limit` entries, the page runs from `skip` to `n + skip + limit`, so `limit = -1` yields all but the last record despite the cap of 100 |
| Common.NegativeLimitShortListEmptyPage | app/api/products.py:13-15 | with `skip + limit < 0` on a list of fewer than `-limit` entries, the page is empty, e.g. `[1, 2, 3][0:-5] == []` |
| Common.NegativeLimitEmptyPage | app/api/requisitions.py:49 | with `limit < 0 <= skip + limit` the stop bound lies before the start, so the page is empty whatever the list, e.g. `s[5:3] == []` |
| Common.Contains | app/api/inboundorders.py:48 | definition of `q in s`: `q` occurs at some offset of `s`; see Common.ContainsCharsOf and Common.NoTextInNumeral |
| Common.ContainsCharsOf | app/api/inboundorders.py:48 | every character of a string found by `q in s` occurs in `s` |
| Common.Lower | app/api/requisitions.py:45-46 | lower-casing keeps the length, maps each ASCII upper-case letter to the letter 32 code points above it, keeps every other character, and so leaves no upper-case ASCII letter |
| Common.NatToStringDigits | app/api/inboundorders.py:48 | the decimal numeral of a natural number is non-empty and made of digits only |
| Common.IntToStringChars | app/api/inboundorders.py:48 | `str(n)` holds only digits and `-`, and starts with a digit exactly when `n >= 0` |
| Common.IntToString | app/api/inboundorders.py:48 | definition of `str(n)`: a `-` for negative `n`, then the decimal digits; see Common.IntToStringChars and Common.NoTextInNumeral |
| Common.NoTextInNumeral | app/api/inboundorders.py:48 | a query holding a character that is neither a digit nor `-` is never a substring of `str(n)` |
| Common.MaxOf | app/api/inboundorders.py:76 | `max(ids)` is an element of the list and no element exceeds it |
| Tables.Filter | app/api/inboundorders.py:46-48 | a list comprehension with a condition keeps only entries of the input that satisfy the condition, and is never longer |
| Tables.FilterMembership | app/api/inboundorders.py:46-48 | an entry is in the comprehension exactly when it is in the input and satisfies the condition |
| Tables.FilterConcat | app/api/inboundorders.py:46-48 | filtering a concatenation is concatenating the filtered parts, so stored order is kept |
| Tables.FilterAppendOne | app/api/inboundorders.py:46-48 | appending one record to the input appends it to the comprehension exactly when it satisfies the condition |
| Tables.FilterAll | app/api/suppliers.py:49 | a comprehension whose condition holds everywhere returns the list unchanged |
| Tables.FilterNone | app/api/warehouse.py:26-29 | a comprehension whose condition holds nowhere returns the empty list |
| Tables.FilterLength | app/api/warehouse.py:62-65 | the comprehension keeps the length exactly when every entry satisfies the condition |
| Tables.FilterIdempotent | app/api/suppliers.py:48-50 | filtering twice by one condition is filtering once, so deleting an id twice is deleting it once |
| Tables.FilterImplied | app/api/inboundorders.py:118 | when every entry kept by `q` satisfies `p`, filtering by `p` first keeps exactly what `q` keeps |
| Tables.FilterKeepsUniqueKeys | app/api/inboundorders.py:146 | any comprehension over a list with unique ids has unique ids |
| Tables.HasKey | app/api/inboundorders.py:65-66 | definition: some record has the id; see Tables.IndexOfKey, which is None exactly when it fails |
| Tables.Keys | app/api/inboundorders.py:76 | definition: the ids of the records, in stored order; see the `Seed*Keys` lemmas |
| Tables.IndexOfKey | app/api/inboundorders.py:104 | `next(i for ... if id matches)` is None exactly when no record has the id, and otherwise is the first position holding it |
| Tables.IndexOfUniqueKey | app/api/inboundorders.py:65 | with unique ids, the lookup of a record's id finds that record's position |
| Tables.NewKey | app/api/inboundorders.py:76 | `max(ids) + 1`, or the default for an empty list, exceeds every stored id; it is fresh, and it is one more than a stored id when the list is non-empty |
| Tables.AppendFresh | app/api/inboundorders.py:85 | appending a record with a fresh id keeps ids unique and keeps every stored id |
| Tables.OverwriteKeepsKeys | app/api/inboundorders.py:109-113 | an in-place update that keeps the id changes no id and keeps ids unique |
| Tables.OverwriteLookup | app/api/warehouse.py:55-56 | an in-place update that keeps the id moves no lookup: every id is found where it was found before |
| Tables.RemoveKey | app/api/inboundorders.py:146 | `[r for r in s if r.id != id]` leaves no record with the id, keeps every other id and keeps ids unique |
| Tables.RemoveAbsentKey | app/api/suppliers.py:49 | removing an id that no record has returns the list unchanged |
| Tables.RemoveShrinks | app/api/warehouse.py:62-65 | the list gets shorter under removal exactly when some record had the id |
| Tables.RowsOf | app/api/inboundorders.py:58 | definition of `[d for d in details if d[id] == id]`; see Tables.RowsOfTagged, Tables.CreateRows and Tables.ReplaceRows |
| Tables.RowsOfTagged | app/api/inboundorders.py:87-98 | rows all tagged with one id are that id's rows, and no other id's rows |
| Tables.NoRowsForAbsentHeader | app/api/inboundorders.py:141-143 | while no row is orphaned, an id with no header has no detail rows |
| Tables.CreateKeepsInvariant | app/api/inboundorders.py:76-96 | appending a header with a fresh id and rows tagged with it keeps ids unique and leaves no orphan row |
| Tables.CreateRows | app/api/inboundorders.py:87-98 | after create, the new id's rows are exactly the appended rows, and every other id's rows are unchanged |
| Tables.ReplaceRows | app/api/inboundorders.py:118-130 | removing an id's rows and appending new ones tagged with it makes its rows exactly the new ones, and leaves every other id's rows unchanged |
| Tables.UpdateAggregate | app/api/inboundorders.py:104-130 | overwriting a header in place while keeping its id, and replacing its rows, keeps ids unique and leaves no orphan row |
| Tables.DeleteAggregate | app/api/inboundorders.py:141-149 | cascade delete keeps the invariant, leaves neither a header nor a row with the id, and keeps every other id's header and rows |
| InboundOrders.SeedOrders | app/api/inboundorders.py:11-16 | definition: the four seeded headers, field by field; see InboundOrders.SeedKeys and InboundOrders.SeedNextId |
| InboundOrders.SeedDetails | app/api/inboundorders.py:19-32 | definition: the five seeded detail rows, field by field; see InboundOrders.SeedNoOrphans and InboundOrders.SeedFirstOrderDetails |
| InboundOrders.SeedKeys | app/api/inboundorders.py:11-16 | the seeded header ids are 2023120101, 2023120502, 2023121005 and 2023112803, in that order, and are unique |
| InboundOrders.SeedNoOrphans | app/api/inboundorders.py:11-32 | every seeded detail row names a seeded header |
| InboundOrders.SeedFirstOrderDetails | app/api/inboundorders.py:19-22 | order 2023120101 owns exactly the first two seeded rows |
| InboundOrders.SeedNextId | app/api/inboundorders.py:76 | the first order created on the seeded store gets id 2023121006, one past the largest seeded id and not the default 20230001 |
| InboundOrders.WithDetails | app/api/inboundorders.py:57-58 | definition: the header copied with its stored rows; see InboundOrders.InboundOrderStore.GetInboundOrder and InboundOrders.InboundOrderStore.AttachDetails |
| InboundOrders.Tag | app/api/inboundorders.py:88-96 | the rows built from the request lines all carry the order's id |
| InboundOrders.FilterOrders | app/api/inboundorders.py:45-48 | definition of the date and text filters; see InboundOrders.FilterOrdersSelects and InboundOrders.FilterOrdersAppend |
| InboundOrders.FilterOrdersSelects | app/api/inboundorders.py:45-48 | a header is listed exactly when it is stored, matches `io_date` when one is given, and, when `q` is non-empty, has `q` as a case-sensitive substring of `str(InboundID)` or `str(SupplierID)` |
| InboundOrders.FilterOrdersAppend | app/api/inboundorders.py:45-48 | the filters keep stored order: appending a header appends it to the results exactly when it is selected |
| InboundOrders.TextSearchIsNumeric | app/api/inboundorders.py:48 | a query holding a character other than a digit or `-` lists no order at all |
| InboundOrders.SearchIgnoresCase | app/api/inboundorders.py:47-48 | although `q` is never lower-cased, two queries with the same lower-case form list the same orders: a query with a capital finds nothing, and so does every query with its lower-case form |
| InboundOrders.CapitalFindsNothing | app/api/inboundorders.py:48 | a query with an ASCII capital, and any query with the same lower-case form, both list no order |
| InboundOrders.Page | app/api/inboundorders.py:53 | definition: the slice `[skip : skip + limit]` of the filtered headers; see InboundOrders.ListingFacts and InboundOrders.InboundOrderStore.GetInboundOrders |
| InboundOrders.ListingFacts | app/api/inboundorders.py:53-59 | an output made of the page with detail rows attached has `min(limit, max(0, n - skip))` entries for non-negative arguments, and each entry is a stored, selected header with exactly its stored rows |
| InboundOrders.InboundOrderStore.constructor | app/api/inboundorders.py:11-32 | the store starts as exactly the seeded headers and detail rows, in order, and satisfies the invariant |
| InboundOrders.InboundOrderStore.GetInboundOrders | app/api/inboundorders.py:36-61 | the output is the filtered page `[skip:skip+limit]` in order, with `min(limit, max(0, n - skip))` entries for non-negative arguments; each entry is a selected stored header with exactly its stored detail rows; the store is not touched |
| InboundOrders.InboundOrderStore.AttachDetails | app/api/inboundorders.py:51-59 | the loop returns one entry per page header, in order, each the header with exactly its stored detail rows |
| InboundOrders.InboundOrderStore.GetInboundOrder | app/api/inboundorders.py:63-71 | 404 "Order not found" exactly when no header has the id; otherwise the header with the id and exactly its stored detail rows, in stored order |
| InboundOrders.InboundOrderStore.CreateInboundOrder | app/api/inboundorders.py:73-99 | the new id is `max + 1`, or 20230001 when empty, and fresh; the header and one tagged row per line, in line order, are appended; a following get returns the created order; the invariant is kept |
| InboundOrders.InboundOrderStore.AppendDetails | app/api/inboundorders.py:87-96 | the loop appends exactly the tagged rows of the lines, in order, to the detail list and returns them |
| InboundOrders.InboundOrderStore.UpdateInboundOrder | app/api/inboundorders.py:101-134 | 404 and no change when absent; otherwise only the date, supplier and staff of the first matching header change, its id is kept, its rows are replaced by the new lines, every other order's rows are unchanged, and a following get returns the result |
| InboundOrders.InboundOrderStore.DeleteInboundOrder | app/api/inboundorders.py:136-151 | 404 and no change when absent; otherwise the header and all its rows go (cascade), a following get is 404, and every other order's header and rows remain |
| Requisitions.SeedRequisitions | app/api/requisitions.py:11-15 | definition: the three seeded headers, field by field; see Requisitions.SeedKeys and Requisitions.SeedNextId |
| Requisitions.SeedDetails | app/api/requisitions.py:18-28 | definition: the four seeded detail rows, field by field; see Requisitions.SeedNoOrphans and Requisitions.SeedFirstRequisitionDetails |
| Requisitions.SeedKeys | app/api/requisitions.py:11-15 | the seeded header ids are 2023120201, 2023120602 and 2023121103, in that order, and are unique |
| Requisitions.SeedNoOrphans | app/api/requisitions.py:11-28 | every seeded detail row names a seeded header |
| Requisitions.SeedFirstRequisitionDetails | app/api/requisitions.py:18-21 | requisition 2023120201 owns exactly the first two seeded rows |
| Requisitions.SeedNextId | app/api/requisitions.py:73 | the first requisition created on the seeded store gets id 2023121104 |
| Requisitions.WithDetails | app/api/requisitions.py:54-55 | definition: the header copied with its stored rows; see Requisitions.RequisitionStore.GetRequisition and Requisitions.RequisitionStore.AttachDetails |
| Requisitions.Tag | app/api/requisitions.py:84-92 | the rows built from the request lines all carry the requisition's id |
| Requisitions.FilterRequisitions | app/api/requisitions.py:42-46 | definition of the date and text filters; see Requisitions.FilterRequisitionsSelects and Requisitions.FilterRequisitionsAppend |
| Requisitions.FilterRequisitionsSelects | app/api/requisitions.py:42-46 | a header is listed exactly when it is stored, matches `re_date` when one is given, and, when `q` is non-empty, lower-case `q` is a substring of `str(ReqID)` or of lower-case `reReason` |
| Requisitions.FilterRequisitionsAppend | app/api/requisitions.py:42-46 | the filters keep stored order: appending a header appends it to the results exactly when it is selected |
| Requisitions.SearchIgnoresCase | app/api/requisitions.py:44-46 | two queries with the same lower-case form list the same requisitions |
| Requisitions.Page | app/api/requisitions.py:49 | definition: the slice `[skip : skip + limit]` of the filtered headers; see Requisitions.ListingFacts and Requisitions.RequisitionStore.GetRequisitions |
| Requisitions.ListingFacts | app/api/requisitions.py:49-56 | an output made of the page with detail rows attached has `min(limit, max(0, n - skip))` entries when `limit >= 0`, and each entry is a stored, selected header with exactly its stored rows |
| Requisitions.RequisitionStore.constructor | app/api/requisitions.py:11-28 | the store starts as exactly the seeded headers and detail rows, in order, and satisfies the invariant |
| Requisitions.RequisitionStore.GetRequisitions | app/api/requisitions.py:32-58 | under `skip >= 0, limit <= 100`, the output is the filtered page in order, of `min(limit, max(0, n - skip))` entries when `limit >= 0`; each entry is a selected stored header with exactly its stored rows |
| Requisitions.RequisitionStore.AttachDetails | app/api/requisitions.py:52-56 | the loop returns one entry per page header, in order, each the header with exactly its stored detail rows |
| Requisitions.RequisitionStore.GetRequisition | app/api/requisitions.py:60-68 | 404 "Requisition not found" exactly when absent; otherwise the header with the id and exactly its stored rows |
| Requisitions.RequisitionStore.CreateRequisition | app/api/requisitions.py:70-95 | the new id is `max + 1`, or 20230001 when empty, and fresh; the header and one tagged row per line are appended in order; a following get returns it; the invariant is kept |
| Requisitions.RequisitionStore.AppendDetails | app/api/requisitions.py:83-92 | the loop appends exactly the tagged rows of the lines, in order, and returns them |
| Requisitions.RequisitionStore.UpdateRequisition | app/api/requisitions.py:97-128 | 404 and no change when absent; otherwise only date, reason and staff change, the id is kept, the rows are fully replaced, and other requisitions' rows are unchanged |
| Requisitions.RequisitionStore.DeleteRequisition | app/api/requisitions.py:130-143 | 404 and no change when absent; otherwise the header and all its rows go, no row with the id remains, and everything else remains |
| Warehouses.SearchWarehouses | app/api/warehouse.py:24-29 | definition of the text search; see Warehouses.SearchWarehousesSelects and Warehouses.SearchWarehousesAppend |
| Warehouses.SearchWarehousesSelects | app/api/warehouse.py:24-29 | with a non-empty `q`, a warehouse is kept exactly when lower-case `q` is in its lower-case name or, when it has one, its lower-case location |
| Warehouses.SearchWarehousesAppend | app/api/warehouse.py:24-29 | the search keeps stored order: appending a warehouse appends it to the results exactly when it is selected |
| Warehouses.SearchIgnoresCase | app/api/warehouse.py:24-29 | two queries with the same lower-case form find the same warehouses |
| Warehouses.SeedWarehouses | app/api/warehouse.py:9-13 | definition: the three seeded warehouses, field by field; see Warehouses.SeedWarehousesKeys |
| Warehouses.SeedWarehousesKeys | app/api/warehouse.py:9-13 | the seeded ids are 101, 102 and 103, in that order, and are unique |
| Warehouses.SeedNextId | app/api/warehouse.py:44 | the first warehouse created on the seeded store gets id 104 |
| Warehouses.WarehouseStore.constructor | app/api/warehouse.py:9-13 | the store starts as exactly the seeded warehouses, in order, with unique ids |
| Warehouses.WarehouseStore.GetWarehouses | app/api/warehouse.py:15-32 | under `skip >= 0, limit <= 100`, the result is the window of the search results at `skip` of at most `limit` entries, all stored and matching |
| Warehouses.WarehouseStore.GetWarehouse | app/api/warehouse.py:34-39 | 404 "Warehouse not found" exactly when absent; otherwise a stored warehouse with that id |
| Warehouses.WarehouseStore.CreateWarehouse | app/api/warehouse.py:41-47 | the new id is `max + 1`, or 101 when empty, and fresh; the record is appended and a following get returns it |
| Warehouses.WarehouseStore.UpdateWarehouse | app/api/warehouse.py:49-57 | 404 and no change when absent; otherwise name and location are overwritten in place, the id stays the path id, and every other id's get is unchanged |
| Warehouses.WarehouseStore.DeleteWarehouse | app/api/warehouse.py:59-67 | the list becomes the removal comprehension; the result is 404 exactly when no record had the id, and then the list is unchanged; a following get is 404 |
| Suppliers.SearchSuppliers | app/api/suppliers.py:20-21 | definition of the name search; see Suppliers.SearchSuppliersSelects |
| Suppliers.SearchSuppliersSelects | app/api/suppliers.py:20-21 | with a non-empty `q`, a supplier is kept exactly when lower-case `q` is in its lower-case name |
| Suppliers.SearchIgnoresContactFields | app/api/suppliers.py:20-21 | phone and address play no part in the search: two stored suppliers with one name are kept or dropped together |
| Suppliers.SeedSuppliers | app/api/suppliers.py:8-11 | definition: the two seeded suppliers, field by field; see Suppliers.SeedSuppliersKeys |
| Suppliers.SeedSuppliersKeys | app/api/suppliers.py:8-11 | the seeded ids are 1 and 2, in that order, and are unique |
| Suppliers.SeedNextId | app/api/suppliers.py:33 | the first supplier created on the seeded store gets id 3 |
| Suppliers.SupplierStore.constructor | app/api/suppliers.py:8-11 | the store starts as exactly the seeded suppliers, in order, with unique ids |
| Suppliers.SupplierStore.GetSuppliers | app/api/suppliers.py:13-22 | under `skip >= 0, limit <= 100`, the result is the window of the name-search results at `skip` of at most `limit` entries |
| Suppliers.SupplierStore.GetSupplier | app/api/suppliers.py:24-29 | 404 "Supplier not found" exactly when absent; otherwise a stored supplier with that id |
| Suppliers.SupplierStore.CreateSupplier | app/api/suppliers.py:31-36 | the new id is `max + 1`, or 1 when empty, and fresh; the returned record is the appended one |
| Suppliers.SupplierStore.UpdateSupplier | app/api/suppliers.py:38-44 | 404 and no change when absent; otherwise only name, phone and address change, the id is kept, and every other id's get is unchanged |
| Suppliers.SupplierStore.DeleteSupplier | app/api/suppliers.py:46-50 | never fails; removes every record with the id, keeps all other ids, and changes nothing when the id is absent |
| Products.SeedProducts | app/api/products.py:8 | definition of the comprehension over `range(1, 21)`; see Products.SeedProductsAscending and Products.SeedNextId |
| Products.SeedProductsAscending | app/api/products.py:8 | the seed holds ids 1..20 in ascending order, each id `k` at position `k - 1`, and no other id |
| Products.SeedNextId | app/api/products.py:26 | the first product created on the seeded store gets id 21 |
| Products.ProductStore.constructor | app/api/products.py:8 | the store starts as the seed, with unique ids |
| Products.ProductStore.GetProducts | app/api/products.py:10-15 | under `skip >= 0, limit <= 100`, the result is the window of the store at `skip` of at most `limit` entries |
| Products.ProductStore.GetProduct | app/api/products.py:17-22 | 404 "Product not found" exactly when absent; otherwise a stored product with that id |
| Products.ProductStore.CreateProduct | app/api/products.py:24-29 | the new id is `max + 1`, or 1 when empty, and fresh; the record is appended without a price and a following get returns it |
| Products.ProductStore.UpdateProduct | app/api/products.py:31-37 | 404 and no change when absent; otherwise only name, spec and category change, the id and the seeded price are kept, and every other id's get is unchanged |
| Products.ProductStore.DeleteProduct | app/api/products.py:39-43 | never fails; removes every record with the id, keeps all other ids, and changes nothing when the id is absent |

## Left out

- HTTP is not modelled: routing, status codes other than the 404 error value,
  JSON, and `response_model` serialisation. The serialisation drops the seeded
  `prPrice` from product responses; the model returns the stored record.
- FastAPI query validation (`ge=0` on `skip`, `le=100` on `limit`) becomes the
  preconditions of the list handlers that declare it. The inbound list declares
  none, so its method has no precondition.
- Query defaults are not modelled. These are `skip = 0` and `limit = 10` on every
  list handler, and `None` for `q` and for the date filters. Every model
  handler takes all its arguments explicitly; a default call is the call with
  those values (`None` is `Option.None`).
- Handlers are `async` but never await inside. Each is modelled as one atomic
  step; there is no concurrency.
- `Common.Lower` restricts `str.lower()` to ASCII letters. Python's full
  Unicode case mapping is not modelled.
- Dates are a `(year, month, day)` triple that is only compared for equality.
  Date validation is not modelled.
- Create stores its result's `details` list inside the stored header dict as
  well. Every read builds a copy and overwrites that key, so the extra key is
  never observable. The stored header does not carry it.
- Python dict aliasing is not modelled: the returned records are values, not
  shared dicts.
- The ORM models, the database session code, the staff router, the seed
  script, router mounting and the Flask front end are not part of this model.
  The same holds for the foreign-key and referential-integrity checks that
  belong to the database layer.
