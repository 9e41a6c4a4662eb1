# Retail back office: billing, stock ledger, tenancy and HR

This project models the core of a multi-tenant retail back office. The
backend is a Django REST service in which every shop is a *tenant*. The
model covers these parts:

- **Billing (`create_bill`).** One atomic transaction writes a bill, its
  lines, the stock each line sells, one `SALE` ledger movement per line and
  the bill's totals. On a credit sale it also raises the customer's
  spending balance. Any error rolls all of it back.
- **Stock endpoints.** `add_stock` and `remove_stock` each save a new stock
  level and log an `IN` or `OUT` movement. `stock_history` lists a
  product's movements newest first.
- **CSV import.** A row-by-row upsert of products keyed by
  `(tenant, sku)`. The first matching category is reused, or a new one is
  created. The import counts successes and errors.
- **Customer payments.** A `CREDIT` payment lowers the customer's balance.
  The payment serializer checks the amount, the customer's tenant and the
  payment type.
- **Tenant scoping and permissions.** Covers `for_tenant` (fail-closed), the
  core view mixin (fail-open), the authentication view mixin with tenant
  stamping, and the `IsTenantUser` / `IsTenantMember` rules.
- **HR.** Staff defaults, the attendance "mark" endpoint (update the day's
  row or create it), attendance history, the Aadhaar file-name rule and
  the `joining_date` alias.

The parts Django executes step by step are written as methods over a
`Storage.Database` (and an `Hr.HrDatabase`). Each method is proved equal
to a specification function of the tables before the call. The
properties are lemmas about those functions.

The module layout follows the repository:

| module | models |
|---|---|
| `Base` | Python helpers: `str(int)`, `str.upper`, `str.strip`, `order_by('-…')` |
| `Tenancy` | `core/managers.py`, `core/mixins.py`, `authentication/mixins.py` |
| `Permissions` | `core/permissions.py`, `authentication/permissions.py` |
| `InventoryModels` | `inventory/models.py` |
| `SalesModels` | `sales/models.py` |
| `Storage` | the tables, as one snapshot datatype and a `Database` class |
| `Stock` | `inventory/views.py` (stock endpoints) |
| `CsvImport` | `inventory/views.py` (the `import_csv` row loop) |
| `Billing` | `sales/services.py` |
| `SalesApi` | `sales/serializers.py`, `sales/views.py` |
| `Hr` | `hr/models.py`, `hr/serializers.py`, `hr/views.py` |

Modelling conventions:

- Money is exact (`real`), as Django's `Decimal` is before rounding to two
  places. Quantities are `int`. Dates and times are integers.
- The request's tenant is an `Option`, because a request may carry none.
  Every tenant foreign key in the schema is non-null, so a lookup
  `tenant=None` matches no row, and an insert without a tenant fails.
- The clock is passed in as `now`. The random SKU draw is passed in as part
  of each CSV row.

Three behaviours of the code worth noting:

- A `DEBIT` payment leaves the customer's balance unchanged
  (sales/views.py:65-69). It does not raise it.
- The payment `type` goes through the model's choice field. Only the exact
  strings `CREDIT` and `DEBIT` reach `perform_create`, so the case-insensitive
  comparison matters only for rows saved some other way.
- In the CSV import, a category is created as soon as a row has a category
  name. It stays even when the same row then fails the name check or a
  numeric cell.

## Model

| member | source | states |
|---|---|---|
| Base.NatToString | sales/services.py:77 | `str(n)` of a natural is a non-empty run of decimal digits |
| Base.NatToStringInjective | sales/services.py:77 | two naturals print the same only when they are equal |
| Base.IntToStringSign | authentication/permissions.py:45 | `str(i)` starts with '-' exactly when i is negative |
| Base.IntToStringInjective | authentication/permissions.py:45 | two integers print the same only when they are equal |
| Base.IsCreditIgnoresCase | sales/views.py:65 | under ASCII upper-casing, `s.upper() == "CREDIT"` holds exactly for the six-letter spellings of "credit" in any mix of cases |
| Base.Strip | inventory/views.py:194 | `strip()` yields a slice of the input whose ends are not whitespace, and everything cut off around it is whitespace |
| Base.StripEmptyIffAllSpace | inventory/views.py:194-195 | a cell strips to "" exactly when it is all whitespace |
| Base.SortDesc | inventory/views.py:49 | `order_by('-key')` yields a permutation of the rows with keys non-increasing |
| Tenancy.FilterTenant | core/managers.py:8 | `filter(tenant=t)` keeps exactly the rows of tenant t, with their multiplicities, and no row when t is None |
| Tenancy.ForTenant | core/managers.py:5-8 | no tenant gives no rows; otherwise exactly the rows of that tenant; always a subset of the input |
| Tenancy.ManagerForTenant | core/managers.py:15-16 | the manager's `for_tenant` selects the same rows as the queryset's over the whole table |
| Tenancy.CoreScopedQuery | core/mixins.py:17-25 | with a tenant and a tenant field, exactly that tenant's rows; without a tenant or without the field, the base queryset unchanged; always a subset |
| Tenancy.AuthScopedQuery | authentication/mixins.py:34-42 | by `for_tenant` or by `filter`, exactly the rows of the request tenant; none when the request has no tenant |
| Tenancy.FailOpenVersusFailClosed | core/mixins.py:20-25 | without a tenant, the core mixin returns every row and the authentication mixin none |
| Tenancy.ScopesAgreeWithTenant | authentication/mixins.py:38-42 | with a tenant on the request, both mixins return the same rows |
| Tenancy.ScopedTable.PerformCreate | authentication/mixins.py:44-52 | the stored row carries the request tenant, whatever the payload's tenant; without a tenant nothing is stored |
| Tenancy.ScopedTable.PerformUpdate | authentication/mixins.py:54-62 | the updated row carries the request tenant, so an update cannot move it to another tenant |
| Permissions.Or | authentication/permissions.py:43 | `a or b` is a when a is truthy and b otherwise |
| Permissions.IntIdsCompareByValue | authentication/permissions.py:45 | string comparison of two integer ids is their equality |
| Permissions.CoreHasPermissionExactly | core/permissions.py:15-27 | allowed exactly for an authenticated user with a tenant on the request |
| Permissions.CoreObjectPermissionExactly | core/permissions.py:29-37 | an object with a tenant is allowed exactly when its tenant is the request's; an object without a tenant always is |
| Permissions.TenantUserChecksAgree | authentication/permissions.py:16-18 | allowed exactly when the user is authenticated and the tenant is present, as in the core class |
| Permissions.MemberPermissionCases | authentication/permissions.py:33-48 | no token is denied; a truthy URL id, else a truthy body id, must print as the token id; with neither, the token id must not be None |
| Permissions.MemberPermissionComparesIds | authentication/permissions.py:43-45 | with integer ids, a URL tenant id is accepted exactly when it equals the token's |
| Permissions.MemberPermissionAcceptsTextId | authentication/permissions.py:45 | a tenant id sent as text is accepted for the same integer claim |
| Permissions.ObjTenantId | authentication/permissions.py:57-61 | the object's `tenant_id` when it is not None, else `obj.tenant.tenant_id` when the object has a tenant, else None |
| Permissions.MemberObjectPermissionComparesIds | authentication/permissions.py:50-63 | with integer ids, object access is granted exactly when the object's tenant id equals the token's |
| Permissions.MissingClaimMatchesUntenantedObject | authentication/permissions.py:52-63 | `str(None) == str(None)` lets a token without a tenant claim reach an object without a tenant id; no token is denied |
| InventoryModels.NewProduct | inventory/models.py:69-86 | a new product starts with stock 0, alert 0, GST 0, unit "pcs" and status "active" |
| InventoryModels.NewCategory | inventory/models.py:17 | a new category's status defaults to "active" |
| InventoryModels.ParseMovementType | inventory/models.py:138-145 | a movement type is accepted exactly when it is one of IN, OUT, SALE, RETURN |
| InventoryModels.MovementCodeRoundTrip | inventory/models.py:138-145 | type codes and movement types convert back and forth without loss |
| InventoryModels.NetMovementAppend | inventory/models.py:138-147 | appending a movement changes a product's net ledger quantity by that movement's signed quantity |
| InventoryModels.MovementsOf | inventory/views.py:49 | `product.movements` has exactly that product's movements, with their multiplicities |
| InventoryModels.DefaultOrder | inventory/models.py:162 | the default ordering is a permutation of the movements, newest first |
| InventoryModels.StockUpdateKeepsSkusUnique | inventory/models.py:93 | changing a stock counter keeps `(tenant, sku)` unique |
| SalesModels.BillSkeleton | sales/models.py:48-51 | a new bill starts with its three totals at 0 and the given discount |
| SalesModels.ItemsOf | sales/models.py:63 | `bill.items.all()` has exactly the lines of that bill |
| SalesModels.ItemsOfAppend | sales/models.py:63 | the lines of a bill in two batches of rows are its lines in each batch, in order |
| SalesModels.ItemsOfAllOnBill | sales/models.py:63 | rows that all belong to the bill are all returned |
| SalesModels.ItemsOfNoneOnBill | sales/models.py:63 | rows of other bills contribute nothing |
| SalesModels.SubtotalSumAppend | sales/models.py:64 | the subtotal sum of two batches is the sum of their sums |
| SalesModels.LineGstOfSubtotal | sales/models.py:67-70 | for a line priced by the service, its tax is the product's rate over 100 times its subtotal |
| SalesModels.GstSumAppend | sales/models.py:67-70 | the GST sum of two batches is the sum of their sums |
| SalesModels.Recalculated | sales/models.py:62-72 | item total = sum of subtotals; GST total = sum of line taxes; grand = item + GST − discount; no other bill field changes |
| SalesModels.TotalsIgnoreStoredTotals | sales/models.py:62-72 | the totals depend on the lines and the discount only |
| SalesModels.RecalculateIdempotent | sales/models.py:62-72 | recalculating twice equals recalculating once |
| SalesModels.RecalculatedAppend | sales/models.py:64-70 | one more line raises the item total by its subtotal and the GST total by its tax |
| Storage.EmptyTablesWellFormed | inventory/models.py:26-93 | the empty database satisfies the integrity rules: unique keys, resolving references, lines and movements of at least one unit |
| Storage.Database.Restore | sales/services.py:28 | a rolled back transaction leaves every table exactly as it was when the transaction began |
| Stock.VisibleProductIsCoreScoped | inventory/views.py:31-33 | `get_object()` finds a product exactly when the fail-open core mixin keeps its row |
| Stock.AdjustAsWritten | inventory/views.py:54-117 | equals `AdjustSpec` with `atomic` false, the endpoint as written: 404, 400 for a quantity ≤ 0, 400 for too little stock, else the stock is saved, then the movement inserted; a failed insert keeps the save |
| Stock.Adjust | inventory/views.py:54-117 | equals `AdjustSpec` with `atomic` true, the same steps inside one atomic block: a failed movement insert undoes the stock save |
| Stock.AddStockAsWritten | inventory/views.py:54-81 | `add_stock` in the source's order, with no transaction |
| Stock.RemoveStockAsWritten | inventory/views.py:84-117 | `remove_stock` in the source's order, with no transaction |
| Stock.AddStock | inventory/views.py:54-81 | `add_stock` made atomic |
| Stock.RemoveStock | inventory/views.py:84-117 | `remove_stock` made atomic |
| Stock.AddStockOutcome | inventory/views.py:56-80 | success exactly for a visible product, a positive quantity and a tenant; then stock + q, one IN movement of q, `new_stock` = old + q; otherwise nothing changes and q ≤ 0 answers 400 |
| Stock.RemoveStockOutcome | inventory/views.py:86-116 | as for adding, and in addition refused when stock < q, so the stock it leaves is never negative; one OUT movement of q |
| Stock.AdjustTenantIsolation | inventory/views.py:55 | with a tenant on the request, another tenant's product is not found and nothing changes |
| Stock.AdjustKeepsLedger | inventory/views.py:64-76 | with the atomic endpoints, every product's stock stays equal to its opening stock plus its net ledger quantity |
| Stock.AddStockAsWrittenDrifts | inventory/views.py:64-76 | as written, an anonymous request adds 5 units, the movement insert fails, and the stock drifts from the ledger by 5 |
| Stock.AdjustWellFormed | inventory/views.py:64-112 | both versions keep the integrity rules |
| Stock.StockHistory | inventory/views.py:46-51 | for a visible product, exactly its movements (with multiplicity), newest first; 404 otherwise |
| Billing.LineItem | sales/services.py:53-64 | the line's price defaults to the selling price, its discount to 0 (a given price or discount is used as sent), and subtotal = (price − discount) × qty |
| Billing.SellLineStep | sales/services.py:43-78 | a sold line had a product of the tenant, qty > 0 and stock ≥ qty; it lowers that stock by qty and appends one line and one SALE movement |
| Billing.SellLinesProducts | sales/services.py:66-68 | after the loop, each product's stock is lower by the total units its lines sold, and nothing else in the products changes |
| Billing.SellLinesLinesValid | sales/services.py:44-48 | every sold line had a product of the tenant and a positive quantity |
| Billing.SellLinesItems | sales/services.py:57-64 | exactly one bill line per requested line, in order, priced from the product as it was before the call |
| Billing.SellLinesMovements | sales/services.py:71-78 | exactly one SALE movement per line with quantity qty and reference "Bill", in order |
| Billing.SellLinesSucceedsIff | sales/services.py:43-51 | the loop succeeds exactly when every line's product is the tenant's, its qty > 0, and the product's opening stock covers this line plus the earlier lines for it |
| Billing.SellLinesErrorSticks | sales/services.py:28-51 | once a line fails, later lines do not change the outcome |
| Billing.SellLinesFirstFailure | sales/services.py:44-51 | the error raised is the one of the first line that does not fit |
| Billing.SellLinesStockNonNegative | sales/services.py:50-51 | every product the loop touches ends with non-negative stock |
| Billing.SellLinesKeepsLedger | sales/services.py:66-78 | each stock decrement is paired with its SALE movement, so no product's drift from the ledger changes |
| Billing.CreditSale | sales/services.py:87-92 | only a given customer on a sale whose type upper-cases to CREDIT has its balance raised by the grand total; every other customer is unchanged |
| Billing.CreditSaleApplies | sales/services.py:90-92 | on a credit sale, the customer's balance rises by exactly the grand total |
| Billing.CommittedTables | sales/services.py:34-92 | a committed bill writes the products, lines, movements, the new bill, the customer's balance and the bill counter, and nothing else |
| Billing.SellItems | sales/services.py:43-78 | the line loop on the database equals the fold over the lines; on an error every table is back at the snapshot |
| Billing.CreateBill | sales/services.py:12-94 | the transaction on the database: success writes exactly `CreateBillSpec` (sales/services.py:25-94: empty items, then the customer, then the tenant, then the line loop, then the commit) and returns the new bill id; an error returns it and leaves every table unchanged |
| Billing.WriteBill | sales/services.py:34-92 | inside the atomic block: skeleton, lines, then totals and balance; any line error restores the snapshot |
| Billing.FinishBill | sales/services.py:82-92 | recalculating and saving the bill, then the credit-sale balance, lead to the committed tables |
| Billing.UpdateBalance | sales/services.py:87-92 | the customer balance update writes only `spending_balance` |
| Billing.RecalculateTotals | sales/services.py:82-84 | the bill is re-read and its totals recomputed from its lines; no other table changes |
| Billing.CreateBillCommitted | sales/services.py:24-31 | a committed call had items, a tenant, a customer of that tenant when one was given, and a loop that succeeded |
| Billing.CreateBillRejections | sales/services.py:24-31 | no items is refused before anything; a missing or other-tenant customer is refused; a request without tenant is refused |
| Billing.CreateBillSucceedsIff | sales/services.py:24-78 | success exactly when there are items, the customer (if given) is the tenant's, there is a tenant, and every line fits |
| Billing.CreateBillFirstFailingLine | sales/services.py:44-51 | the call fails with the error of the first line that does not fit: not found, qty ≤ 0, or `InsufficientStock` |
| Billing.CreateBillLines | sales/services.py:57-64 | one bill line per requested line, in order, appended after the existing lines |
| Billing.CreateBillStock | sales/services.py:66-68 | every product's stock drops by exactly the units its lines sold |
| Billing.CreateBillMovements | sales/services.py:71-78 | one SALE movement per line: tenant, product, qty, reference "Bill", reason "Sale - Bill n" |
| Billing.CreateBillTotals | sales/services.py:82-84 | the new bill's totals are computed from exactly its own lines: item total, GST total, and grand = item + GST − discount |
| Billing.NewBillLines | sales/models.py:63 | the new bill's `items.all()` are exactly the lines this call appended |
| Billing.CreateBillBalance | sales/services.py:87-92 | the customer's balance rises by the grand total exactly on a credit sale with a customer; otherwise no balance changes |
| Billing.CreateBillStockNonNegative | sales/services.py:50-51 | no product sold by the call ends below zero, because lines for the same product see the stock left by earlier lines |
| Billing.CreateBillKeepsLedger | sales/services.py:66-78 | a bill keeps every product's stock reconciled with the ledger |
| Billing.QtyForUnnamed | sales/services.py:43-44 | a product no line names sells no units |
| Billing.CreateBillTenantIsolation | sales/services.py:31-44 | products and customers of other tenants are untouched |
| Billing.CommittedRowsValid | sales/models.py:79 | every stored bill line and movement has quantity ≥ 1 and refers to an existing bill and product; the product ids and the `(tenant, sku)` key stay as they were |
| Billing.CommittedSkusUnique | inventory/models.py:93 | the sale keeps `(tenant, sku)` unique |
| Billing.CreateBillWellFormed | sales/services.py:28-94 | a committed bill keeps the integrity rules |
| Billing.TotalsExample | sales/models.py:62-72 | two lines (2 × 100 at 18 % GST; 1 × (50 − 5) at 0 %) with a discount of 10 give 245, 36 and 271 |
| Billing.SequentialSalesExample | sales/services.py:44-51 | stock 10 sells 4, then 4, then refuses 3 with `InsufficientStock` |
| CsvImport.OptionalText | inventory/views.py:222-224 | `cell.strip() or None` is None exactly when the stripped cell is empty |
| CsvImport.RowSku | inventory/views.py:207-211 | the stripped SKU, or the drawn 5-digit number when it is empty; never empty |
| CsvImport.FindCategory | inventory/views.py:200-204 | the category with key `(tenant, name)`, when there is one |
| CsvImport.FindProduct | inventory/views.py:213-216 | the product with key `(tenant, sku)`, when there is one |
| CsvImport.GetOrCreateCategory | inventory/views.py:200-204 | a category with that key exists afterwards; an existing one changes nothing; only categories change |
| CsvImport.UpsertProduct | inventory/views.py:241-249 | only products change, and none is removed |
| CsvImport.ImportedProduct | inventory/views.py:218-234 | the product row takes the tenant, the category, the SKU, the stripped name and the stock from the row |
| CsvImport.ImportRow | inventory/views.py:192-255 | one row changes only the catalog, removes no product, and any error names this row |
| CsvImport.FirstTen | inventory/views.py:261 | `errors[:10]` is a prefix of at most ten errors |
| CsvImport.GetOrCreateCategoryIn | inventory/views.py:200-204 | `get_or_create` on the database equals the specification |
| CsvImport.UpsertProductIn | inventory/views.py:241-249 | update-or-create on the database equals the specification |
| CsvImport.ImportOneRow | inventory/views.py:192-255 | one pass of the loop on the database equals `ImportRow` |
| CsvImport.GetOrCreateCategoryKeepsInv | inventory/models.py:26 | `get_or_create` keeps category names unique per tenant |
| CsvImport.UpsertProductKeepsInv | inventory/models.py:93 | the upsert keeps SKUs unique per tenant |
| CsvImport.ImportRowKeepsInv | inventory/views.py:192-255 | one row keeps both uniqueness keys and fresh ids |
| CsvImport.ImportRowsKeepsInv | inventory/views.py:191-255 | the whole loop keeps them |
| CsvImport.ImportRowsStep | inventory/views.py:191-255 | the state after row i+1 is the state after row i with one more success or one more error |
| CsvImport.ImportCsv | inventory/views.py:187-262 | the loop on the database reaches the tables of `ImportRows`, the fold of `ImportRow` over the rows (inventory/views.py:191-255), and reports the success count, the error count and the first ten errors |
| CsvImport.ImportCounts | inventory/views.py:187-255 | successes plus errors equals the number of rows |
| CsvImport.ImportErrorsInRowOrder | inventory/views.py:191 | errors name data rows 2 to n+1, in increasing order |
| CsvImport.AnonymousImportChangesNothing | inventory/views.py:200-204 | without a tenant no row imports, every row is an error, and nothing changes |
| CsvImport.ImportTouchesOnlyCatalog | inventory/views.py:200-249 | only categories and products change; the ledger, customers and sales tables do not |
| CsvImport.UpsertProductResult | inventory/views.py:241-249 | after the upsert exactly one product has the key, under the id found for it or else the next fresh id; it holds the new data; every other product is unchanged |
| CsvImport.ImportRowUpserts | inventory/views.py:194-251 | an accepted row leaves exactly one product under `(tenant, sku)`, at the id already holding that key or else the next fresh id, with the row's data in the row's category; no other product changes |
| CsvImport.ImportOverwritesStockOffLedger | inventory/views.py:229-245 | an existing SKU's stock is overwritten with no movement, so its drift from the ledger moves by new − old stock |
| CsvImport.ImportRowRejections | inventory/views.py:194-239 | an empty category changes nothing; an empty name or a bad number keeps the products but leaves the category created |
| CsvImport.ImportKeepsWellFormed | inventory/views.py:191-255 | the import keeps the integrity rules |
| CsvImport.ImportKeepsProducts | inventory/views.py:241-249 | no product disappears |
| SalesApi.MissingProducts | sales/serializers.py:35-37 | exactly the requested ids that are not products of the tenant; all of them when there is no tenant |
| SalesApi.ValidateBill | sales/serializers.py:30-40 | data unchanged exactly when every product is the tenant's; otherwise the non-empty set of missing ids |
| SalesApi.MissingProductsEmptyIff | sales/serializers.py:37-38 | nothing is missing exactly when every line's product is the tenant's |
| SalesApi.ValidateBillIgnoresQuantity | sales/serializers.py:19 | a line's quantity never affects validation |
| SalesApi.ValidateBillAdmitsZeroQuantity | sales/serializers.py:19 | a quantity-0 line passes validation and is refused only by the service |
| SalesApi.LineWithDefaults | sales/serializers.py:21 | an absent line discount becomes 0; nothing else changes |
| SalesApi.ItemsWithDefaults | sales/serializers.py:21 | the line default applied line by line |
| SalesApi.TrimmedPayload | sales/serializers.py:27 | the payment type loses its surrounding whitespace (the `CharField` trim); every other field is kept |
| SalesApi.PaddedCreditIsCreditSale | sales/serializers.py:27 | " CREDIT " is a credit sale after the trim, and would not be without it |
| SalesApi.WithDefaults | sales/serializers.py:26-27 | an absent bill discount becomes 0; the payment type is the trimmed one; the customer is kept |
| SalesApi.SellLineWithDefaults | sales/services.py:54 | a defaulted line sells as the raw one does |
| SalesApi.SellLinesWithDefaults | sales/services.py:43-78 | the defaulted lines run the loop as the raw ones do |
| SalesApi.CreateBillWithDefaults | sales/serializers.py:42-48 | the serializer's defaults do not change the transaction's outcome: it is that of the trimmed payload, and of the payload as sent when its payment type has no surrounding whitespace |
| SalesApi.ValidatedBillFindsProducts | sales/serializers.py:30-40 | a validated bill never fails the service with product-not-found |
| SalesApi.SubmitBill | sales/serializers.py:30-48 | invalid products are refused with the missing set and no change; otherwise the result and the tables are those of the transaction on the payload with its payment type trimmed |
| SalesApi.NewCustomer | sales/serializers.py:10-14 | a new customer gets the request tenant, balance 0, and type "Regular" unless given |
| SalesApi.CreateCustomer | sales/serializers.py:12-14 | the row is inserted under the next id with the request tenant; without a tenant nothing is stored |
| SalesApi.NewCustomerIgnoresBalance | sales/serializers.py:10 | a balance in the payload never reaches the stored row |
| SalesApi.CustomerCheck | sales/serializers.py:77-81 | passes exactly for an existing customer of the request tenant |
| SalesApi.ValidatePayment | sales/serializers.py:72-85 | valid exactly for a customer of the tenant, an amount > 0 and type CREDIT or DEBIT; then the row carries the request tenant; otherwise every failing field is reported |
| SalesApi.AfterPayment | sales/views.py:65-69 | a CREDIT payment lowers only its customer's balance, by its amount; other payments change nothing |
| SalesApi.RecordPayment | sales/views.py:61-69 | equals `RecordPaymentSpec` (sales/serializers.py:66-85, sales/views.py:61-69): validate, save the payment, then adjust the balance; a refusal changes nothing |
| SalesApi.RecordPaymentEffect | sales/views.py:61-69 | the payment is appended with the request tenant; CREDIT lowers the balance by exactly the amount; DEBIT leaves every balance; nothing else changes |
| SalesApi.RecordPaymentRejections | sales/serializers.py:72-81 | refused exactly for amount ≤ 0, a customer not of the tenant, or an unknown type |
| SalesApi.AfterPaymentIgnoresCase | sales/views.py:65 | "credit" and "CREDIT" act the same |
| SalesApi.RecordPaymentWellFormed | sales/views.py:61-69 | a recorded payment keeps the integrity rules |
| SalesApi.PaymentSequenceExample | sales/views.py:65-69 | 500, then CREDIT 200, gives 300; then DEBIT 50 still gives 300 |
| Hr.NewStaff | hr/models.py:13-20 | a new staff member gets the request tenant, position "Staff", salary 0 and active, unless given |
| Hr.CreateStaff | hr/views.py:37-39 | the row is inserted with the request tenant under the next id; without a tenant nothing is stored |
| Hr.CreateStaffKeepsWellFormed | hr/views.py:37-39 | adding a staff member keeps the HR integrity rules |
| Hr.ParseStatus | hr/models.py:37-41 | a status is accepted exactly when it is Present, Absent or Leave |
| Hr.StatusRoundTrip | hr/models.py:37-41 | status codes parse back to themselves |
| Hr.AtMostOneRowPerDay | hr/models.py:63 | under the integrity rules, two rows with the same staff and date are the same row |
| Hr.FindAttendance | hr/views.py:85-89 | the row for that staff, date and tenant, or proof that there is none |
| Hr.FieldErrors | hr/serializers.py:66-69 | no field errors exactly when a given staff id exists, a given status is a choice, and on create all three fields are present |
| Hr.MarkAttendance | hr/views.py:76-99 | the endpoint on the database equals `MarkAttendanceSpec`: the tenant's row for that staff member and day is looked up (hr/views.py:85-89), then validated as a partial update and saved (91-96), or else validated as a new row and inserted with the request tenant (98-99) |
| Hr.MarkExistingUpdates | hr/views.py:85-96 | with the tenant's row for that day present, no row is added: only that row's status changes (to the one sent, and not at all when no status is sent), and its id is returned |
| Hr.MarkNewCreates | hr/views.py:72-74 | without such a row, exactly one row is appended, stamped with the request tenant, or nothing changes |
| Hr.MarkExistingSucceedsIff | hr/views.py:91-96 | on the update path the row is updated exactly when the given fields are valid, no other row has that staff and day, and the staff member is the tenant's; refused exactly otherwise |
| Hr.MarkNewSucceedsIff | hr/views.py:98-99 | on the insert path a row is created exactly when all three fields are given and valid, the day is free for that staff member, and the staff member is the tenant's; refused exactly otherwise |
| Hr.MarkRejections | hr/serializers.py:84-93 | a refused call changes nothing; a staff member of another tenant is refused |
| Hr.MarkKeepsWellFormed | hr/views.py:76-99 | marking keeps one row per `(staff, date)` and every row in its staff member's tenant |
| Hr.AttendanceOf | hr/views.py:45 | `staff.attendance_records` has exactly that staff member's rows, with their multiplicities |
| Hr.AttendanceHistory | hr/views.py:41-47 | for a staff member of the request tenant, a permutation of their rows, newest date first; otherwise not found |
| Hr.HistoryDaysStrictlyDecrease | hr/models.py:63-64 | with one row per day, the history's dates strictly decrease |
| Hr.AfterLastSlash | hr/serializers.py:37 | `split('/')[-1]` has no '/', is a suffix of the name, and is preceded by '/' when shorter |
| Hr.AfterLastSlashOfPath | hr/serializers.py:37 | a file name stored under any folder comes back out |
| Hr.AadhaarFileName | hr/serializers.py:34-38 | None exactly when there is no file or the name is empty; otherwise the part after the last '/' |
| Hr.AadhaarFileNameExample | hr/serializers.py:34-38 | "staff/aadhaar/card.pdf" gives "card.pdf"; no file gives None |
| Hr.CopyJoiningDate | hr/serializers.py:52-61 | every sent key is kept; `joiningDate` is copied from `joining_date` only when it is absent; an existing `joiningDate` is kept |
| Hr.CopyJoiningDateIdempotent | hr/serializers.py:58-59 | copying twice is copying once; afterwards `joiningDate` is present exactly when either spelling was sent |

## Left out

- Row locks taken with `select_for_update` (sales/services.py:31, 44, 82)
  are not modelled. They only matter under concurrency. The model is
  sequential, the atomic block is all-or-nothing, and `F()` expressions
  are plain arithmetic.
- `Storage.Database.Restore` models the rollback. It also puts the id
  counters back, whereas a database sequence keeps the ids a rolled-back
  transaction used. Gaps in ids are not modelled.
- Money is stored as `DecimalField(decimal_places=2)` in the source. Its
  rounding and `max_digits` limits are not modelled; money is exact.
- The CSV import's `float(...)` and `int(...)` parsing of cells is left
  out. A row arrives with its numbers already parsed, or marked as not
  parsing.
- The random SKU is not drawn by the model; each row carries the number
  drawn for it.
- The CSV text decoding and header handling are left out. A row shorter
  than the header is not modelled: `csv.DictReader` gives its missing
  cells the value None, so a missing text cell makes `.strip()` raise
  (inventory/views.py:194-233), and the row becomes an error, after its
  category was created when the cell missing is not the category. The
  model's rows always carry every text cell.
- CSV export, product images and file uploads are I/O and are not
  modelled.
- `CsvImport.ImportRow`: the text of an exception message is not kept.
  Every exception of a row is the one error kind `Failed`.
- `Base.Upper` upper-cases ASCII letters only. Python's full Unicode
  case mapping is not modelled.
- `Base.IsCreditIgnoresCase` holds for ASCII upper-casing only. Python's
  `str.upper` also maps some non-ASCII letters onto ASCII ones (the dotless
  `ı` becomes `I`), so `"credıt"` is a credit sale in the source and not in
  the model.
- `Hr.NewStaff` follows a JSON request body. For form or multipart input
  DRF's `BooleanField` reads an omitted `is_active` as false, and the
  serializer does not take over the model's `default=True`, so such a
  staff member is stored inactive in the source and active in the model.
- Input that does not parse and makes the view raise (HTTP 500) is not
  modelled: `int(request.data.get("quantity", 0))` on text such as "abc"
  or "2.5" in `add_stock` and `remove_stock` (inventory/views.py:56, 86),
  and a non-integer `staffId` or a malformed `date` in the attendance
  lookup (hr/views.py:85-89), which raises before the serializer would
  answer 400. Nothing is written on these paths. `Stock.AdjustSpec` takes
  an already parsed integer quantity, and `Hr.AttendanceRequest` an
  already parsed staff id and date.
- `Stock.ManualMovement` stores an absent reason as "". A JSON body with
  `"reason": null` makes `request.data.get("reason", "")` return None
  (inventory/views.py:75, 111), so the source stores NULL; the model's
  reason has no null and stores "" for it too.
- The text fields of `SalesApi.CustomerRequest` and `Hr.StaffRequest`
  hold text as their `CharField`s hand it on, already trimmed of
  surrounding whitespace; the trim itself is modelled only for the bill's
  payment type, where it decides whether a sale is on credit.
- Payment and movement ids are not modelled; those rows are sequences in
  insertion order.
- Permission classes run before each endpoint and are modelled apart, in
  `Permissions`. For example, `Hr.MarkAttendance` also handles a request
  without a tenant, which `IsTenantUser` would refuse first.
- `StaffSerializer.validate` (hr/serializers.py:40-50) returns its input
  unchanged, so it is not modelled.
- How DRF maps the two joining-date fields onto the model field after
  `to_internal_value` runs is not modelled. Field-by-field serializer
  plumbing in general is left out.
- JWT issuance, the middleware that sets `request.tenant`, tenant
  provisioning and passwords are left out. They are thin wrappers over
  the framework.
- Admin configuration, URL routing and serializer field lists are UI and
  routing, and are not modelled.
- The management commands are seeding scripts built on `random` and are
  not modelled. Note that seed_fake_data writes SALE movements without
  lowering stock.

## Findings

| source | as written | input that shows it | evidently intended | confidence | as-written member | corrected member |
|---|---|---|---|---|---|---|
| inventory/views.py:64-76 and 100-112 | `add_stock` / `remove_stock` save the new stock level first and insert the movement second, with no transaction around the two. The view set allows any caller, and the core mixin does not filter when there is no tenant. | An anonymous POST to add-stock with quantity 5 on product 1 (stock 0). The save succeeds, the movement insert with a null tenant fails, and stock is 5 with no IN movement. | The stock change and its movement commit together or not at all, so stock always reconciles with the ledger. | not executed; medium (assumes request-wide atomic transactions are off in the project settings, which are not part of this model) | Stock.AddStockAsWritten, Stock.RemoveStockAsWritten, Stock.AddStockAsWrittenDrifts | Stock.AddStock, Stock.RemoveStock, Stock.AdjustKeepsLedger |
