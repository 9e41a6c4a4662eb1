/** Bulk product import from a CSV file (`ProductViewSet.import_csv`,
    inventory/views.py). Each data row is upserted by `(tenant, sku)`, with
    its category found or created by `(tenant, name)`. There is no
    transaction around the loop, so a row that fails part-way keeps what it
    wrote before failing, and `current_stock` is written without a ledger
    entry. Reading and decoding the file, and Python's `float`/`int`
    parsing, happen before the model starts: a row arrives with its cells
    as text and its numeric cells already parsed (or marked unparsable). */
module CsvImport {
  import opened Base
  import opened Tenancy
  import opened InventoryModels
  import opened Storage

  /** `random.randint(10000, 99999)`: the number drawn for a row without a SKU. */
  type SkuDraw = n: nat | 10000 <= n <= 99999 witness 10000

  /** The numeric cells of a row after `float(...)`/`int(...)`; an empty or
      absent cell is 0, and an empty or absent `mrp` is no MRP at all. */
  datatype ParsedNumbers = ParsedNumbers(
    purchasePrice: real,
    sellingPrice: real,
    mrp: Option<real>,
    currentStock: int,
    lowStockAlert: int,
    gstPercent: real)

  /** One `csv.DictReader` row. A text cell that is missing from the header
      reads as "", except `unit` and `status`, whose defaults "pcs" and
      "active" apply only when the column is absent (`None` here); a column
      that is present but empty gives "". `numbers` is `None` when one of
      the numeric cells does not parse. */
  datatype CsvRow = CsvRow(
    category: string,
    sku: string,
    name: string,
    brand: string,
    size: string,
    description: string,
    unit: Option<string>,
    hsnCode: string,
    status: Option<string>,
    numbers: Option<ParsedNumbers>,
    draw: SkuDraw)

  /** Why a row was not imported: the two checks of the loop, and any
      exception the row raised (the database refusing a row without a tenant,
      a cell that does not parse). */
  datatype RowProblem = CategoryRequired | NameRequired | Failed

  /** `"Row {row_num}: ..."`. */
  datatype RowError = RowError(row: nat, problem: RowProblem)

  /** The response body: the two counts and at most ten errors. */
  datatype ImportReport = ImportReport(successCount: nat, errorCount: nat, errors: seq<RowError>)

  /** What the loop has done so far: the tables, the count of imported rows
      and every error in row order. */
  datatype ImportState = ImportState(tables: Tables, success: nat, errors: seq<RowError>)

  /** `cell.strip() or None`. */
  function OptionalText(cell: string): (r: Option<string>)
    ensures r.None? <==> Strip(cell) == ""
    ensures r.Some? ==> r.value == Strip(cell)
  {
    var s := Strip(cell);
    if s == "" then None else Some(s)
  }

  function RowUnit(row: CsvRow): string {
    Strip(row.unit.GetOr("pcs"))
  }

  function RowStatus(row: CsvRow): string {
    Strip(row.status.GetOr("active"))
  }

  /** The row's SKU: its own after stripping, or the drawn number when that is empty. */
  function RowSku(row: CsvRow): (sku: string)
    ensures Strip(row.sku) != "" ==> sku == Strip(row.sku)
    ensures Strip(row.sku) == "" ==> sku == NatToString(row.draw)
    ensures sku != ""
  {
    var s := Strip(row.sku);
    if s == "" then NatToString(row.draw) else s
  }

  /** `Category.objects.filter(tenant=..., name=...)`: the category with that
      key, if one exists (the key is unique, so at most one does). */
  ghost function FindCategory(categories: map<CategoryId, Category>, tenant: TenantId, name: string): (r: Option<CategoryId>)
    ensures r.Some? ==> r.value in categories && categories[r.value].tenant == tenant && categories[r.value].name == name
    ensures r.None? ==> forall c :: c in categories ==> categories[c].tenant != tenant || categories[c].name != name
  {
    if exists c :: c in categories && categories[c].tenant == tenant && categories[c].name == name then
      var c :| c in categories && categories[c].tenant == tenant && categories[c].name == name;
      Some(c)
    else None
  }

  /** `Product.objects.filter(tenant=..., sku=...).first()`. */
  ghost function FindProduct(products: map<ProductId, Product>, tenant: TenantId, sku: string): (r: Option<ProductId>)
    ensures r.Some? ==> r.value in products && products[r.value].tenant == tenant && products[r.value].sku == sku
    ensures r.None? ==> forall p :: p in products ==> products[p].tenant != tenant || products[p].sku != sku
  {
    if exists p :: p in products && products[p].tenant == tenant && products[p].sku == sku then
      var p :| p in products && products[p].tenant == tenant && products[p].sku == sku;
      Some(p)
    else None
  }

  /** `get_or_create(tenant=..., name=..., defaults={'status': 'active'})`:
      the category with that key, created when there is none. */
  ghost function GetOrCreateCategory(t: Tables, tenant: TenantId, name: string): (r: (Tables, CategoryId))
    ensures r.0 == t.(categories := r.0.categories, nextCategoryId := r.0.nextCategoryId)
    ensures r.1 in r.0.categories && r.0.categories[r.1].tenant == tenant && r.0.categories[r.1].name == name
    ensures t.categories.Keys <= r.0.categories.Keys
    ensures FindCategory(t.categories, tenant, name).Some? ==> r.0 == t
  {
    match FindCategory(t.categories, tenant, name)
    case Some(c) => (t, c)
    case None =>
      (t.(categories := t.categories[t.nextCategoryId := NewCategory(tenant, name)],
          nextCategoryId := t.nextCategoryId + 1),
       t.nextCategoryId)
  }

  /** Update the product with the key `(tenant, sku)` to `p`, or insert `p`
      under a fresh id when there is none. */
  ghost function UpsertProduct(t: Tables, tenant: TenantId, sku: string, p: Product): (r: Tables)
    ensures r == t.(products := r.products, nextProductId := r.nextProductId)
    ensures t.products.Keys <= r.products.Keys
  {
    match FindProduct(t.products, tenant, sku)
    case Some(pid) => t.(products := t.products[pid := p])
    case None => t.(products := t.products[t.nextProductId := p], nextProductId := t.nextProductId + 1)
  }

  /** `product_data` (with the tenant a created product is given; an updated
      one already has the request's tenant, since it was found by it). */
  function ImportedProduct(tenant: TenantId, category: CategoryId, sku: string, row: CsvRow, n: ParsedNumbers): (p: Product)
    ensures p.tenant == tenant && p.category == category && p.sku == sku
    ensures p.name == Strip(row.name) && p.currentStock == n.currentStock
  {
    Product(tenant, category, Strip(row.name), sku, OptionalText(row.brand), OptionalText(row.size),
            OptionalText(row.description), RowUnit(row), n.purchasePrice, n.sellingPrice, n.mrp,
            n.currentStock, n.lowStockAlert, OptionalText(row.hsnCode), n.gstPercent, RowStatus(row))
  }

  /** The outcome of one row: the tables after it, and its error if any. */
  datatype RowResult = RowResult(tables: Tables, error: Option<RowError>)

  /** The body of the loop for one row. The checks come in the source's
      order; the category is created before the name is checked or the
      numbers are parsed, and stays. Only the catalog tables change, no
      product is removed, and an error names this row. */
  ghost function ImportRow(t: Tables, requestTenant: Option<TenantId>, row: CsvRow, rowNum: nat): (r: RowResult)
    ensures r.tables == t.(categories := r.tables.categories, products := r.tables.products,
                           nextCategoryId := r.tables.nextCategoryId, nextProductId := r.tables.nextProductId)
    ensures t.products.Keys <= r.tables.products.Keys
    ensures r.error.Some? ==> r.error.value.row == rowNum
  {
    var categoryName := Strip(row.category);
    if categoryName == "" then RowResult(t, Some(RowError(rowNum, CategoryRequired)))
    else if requestTenant.None? then RowResult(t, Some(RowError(rowNum, Failed)))
    else
      var tenant := requestTenant.value;
      var (t1, cid) := GetOrCreateCategory(t, tenant, categoryName);
      var sku := RowSku(row);
      if row.numbers.None? then RowResult(t1, Some(RowError(rowNum, Failed)))
      else if Strip(row.name) == "" then RowResult(t1, Some(RowError(rowNum, NameRequired)))
      else RowResult(UpsertProduct(t1, tenant, sku, ImportedProduct(tenant, cid, sku, row, row.numbers.value)), None)
  }

  /** The whole loop over the data rows, which are numbered from 2 (the
      header is row 1). */
  ghost function ImportRows(t: Tables, requestTenant: Option<TenantId>, rows: seq<CsvRow>): ImportState
  {
    if rows == [] then ImportState(t, 0, [])
    else
      var s := ImportRows(t, requestTenant, rows[..|rows| - 1]);
      var r := ImportRow(s.tables, requestTenant, rows[|rows| - 1], |rows| + 1);
      ImportState(r.tables, s.success + (if r.error.None? then 1 else 0),
                  s.errors + (if r.error.Some? then [r.error.value] else []))
  }

  /** `errors[:10]`. */
  function FirstTen(errors: seq<RowError>): (r: seq<RowError>)
    ensures |r| <= 10 && r <= errors
    ensures |errors| <= 10 ==> r == errors
  {
    if |errors| <= 10 then errors else errors[..10]
  }

  // ---------------------------------------------------------------------
  // The import loop.

  /** The invariant the loop keeps: fresh ids for the two tables it inserts
      into, and the two lookup keys unique. */
  ghost predicate ImportInv(t: Tables) {
    && (forall c :: c in t.categories ==> c < t.nextCategoryId)
    && (forall p :: p in t.products ==> p < t.nextProductId)
    && SkusUnique(t.products)
    && CategoryNamesUnique(t.categories)
  }

  /** `get_or_create` on the database. */
  method GetOrCreateCategoryIn(db: Database, tenant: TenantId, name: string) returns (cid: CategoryId)
    requires CategoryNamesUnique(db.categories)
    modifies db
    ensures (db.State(), cid) == GetOrCreateCategory(old(db.State()), tenant, name)
  {
    if exists c :: c in db.categories && db.categories[c].tenant == tenant && db.categories[c].name == name {
      cid :| cid in db.categories && db.categories[cid].tenant == tenant && db.categories[cid].name == name;
      assert FindCategory(db.categories, tenant, name) == Some(cid);
    } else {
      cid := db.nextCategoryId;
      db.categories := db.categories[cid := NewCategory(tenant, name)];
      db.nextCategoryId := db.nextCategoryId + 1;
    }
  }

  /** The update-or-create of a product on the database. */
  method UpsertProductIn(db: Database, tenant: TenantId, sku: string, p: Product)
    requires SkusUnique(db.products)
    modifies db
    ensures db.State() == UpsertProduct(old(db.State()), tenant, sku, p)
  {
    if exists q :: q in db.products && db.products[q].tenant == tenant && db.products[q].sku == sku {
      var pid :| pid in db.products && db.products[pid].tenant == tenant && db.products[pid].sku == sku;
      assert FindProduct(db.products, tenant, sku) == Some(pid);
      db.products := db.products[pid := p];
    } else {
      db.products := db.products[db.nextProductId := p];
      db.nextProductId := db.nextProductId + 1;
    }
  }

  /** The body of the loop on the database. */
  method ImportOneRow(db: Database, requestTenant: Option<TenantId>, row: CsvRow, rowNum: nat)
      returns (e: Option<RowError>)
    requires ImportInv(db.State())
    modifies db
    ensures RowResult(db.State(), e) == ImportRow(old(db.State()), requestTenant, row, rowNum)
  {
    var categoryName := Strip(row.category);
    if categoryName == "" {
      return Some(RowError(rowNum, CategoryRequired));
    }
    if requestTenant.None? {
      return Some(RowError(rowNum, Failed));
    }
    var tenant := requestTenant.value;
    var cid := GetOrCreateCategoryIn(db, tenant, categoryName);
    var sku := RowSku(row);
    if row.numbers.None? {
      return Some(RowError(rowNum, Failed));
    }
    if Strip(row.name) == "" {
      return Some(RowError(rowNum, NameRequired));
    }
    UpsertProductIn(db, tenant, sku, ImportedProduct(tenant, cid, sku, row, row.numbers.value));
    e := None;
  }

  lemma GetOrCreateCategoryKeepsInv(t: Tables, tenant: TenantId, name: string)
    requires ImportInv(t)
    ensures ImportInv(GetOrCreateCategory(t, tenant, name).0)
  {
    if FindCategory(t.categories, tenant, name).None? {
      var c := NewCategory(tenant, name);
      assert forall a :: a in t.categories ==> t.categories[a].tenant != tenant || t.categories[a].name != name;
      assert CategoryNamesUnique(t.categories[t.nextCategoryId := c]);
    }
  }

  lemma UpsertProductKeepsInv(t: Tables, tenant: TenantId, sku: string, p: Product)
    requires ImportInv(t) && p.tenant == tenant && p.sku == sku
    ensures ImportInv(UpsertProduct(t, tenant, sku, p))
  {
    match FindProduct(t.products, tenant, sku)
    case Some(pid) =>
      assert SkusUnique(t.products[pid := p]);
    case None =>
      assert SkusUnique(t.products[t.nextProductId := p]);
  }

  /** One row keeps the loop invariant. */
  lemma ImportRowKeepsInv(t: Tables, requestTenant: Option<TenantId>, row: CsvRow, rowNum: nat)
    requires ImportInv(t)
    ensures ImportInv(ImportRow(t, requestTenant, row, rowNum).tables)
  {
    var name := Strip(row.category);
    if name != "" && requestTenant.Some? {
      var tenant := requestTenant.value;
      GetOrCreateCategoryKeepsInv(t, tenant, name);
      var (t1, cid) := GetOrCreateCategory(t, tenant, name);
      if row.numbers.Some? && Strip(row.name) != "" {
        var sku := RowSku(row);
        UpsertProductKeepsInv(t1, tenant, sku, ImportedProduct(tenant, cid, sku, row, row.numbers.value));
      }
    }
  }

  /** The whole loop keeps it too. */
  lemma {:induction false} ImportRowsKeepsInv(t: Tables, requestTenant: Option<TenantId>, rows: seq<CsvRow>)
    requires ImportInv(t)
    ensures ImportInv(ImportRows(t, requestTenant, rows).tables)
  {
    if rows != [] {
      ImportRowsKeepsInv(t, requestTenant, rows[..|rows| - 1]);
      var s := ImportRows(t, requestTenant, rows[..|rows| - 1]);
      ImportRowKeepsInv(s.tables, requestTenant, rows[|rows| - 1], |rows| + 1);
    }
  }

  /** One more row of the loop: the fold over the first `i + 1` rows is the
      state after row `i`. */
  lemma ImportRowsStep(t: Tables, requestTenant: Option<TenantId>, rows: seq<CsvRow>, i: nat,
                       s: ImportState, after: Tables, e: Option<RowError>)
    requires i < |rows| && ImportRows(t, requestTenant, rows[..i]) == s
    requires RowResult(after, e) == ImportRow(s.tables, requestTenant, rows[i], i + 2)
    ensures ImportRows(t, requestTenant, rows[..i + 1])
      == ImportState(after, s.success + (if e.None? then 1 else 0), s.errors + (if e.Some? then [e.value] else []))
  {
    var prefix := rows[..i + 1];
    assert prefix[..|prefix| - 1] == rows[..i] && prefix[|prefix| - 1] == rows[i] && |prefix| + 1 == i + 2;
  }

  /** The import as the view runs it: every row in turn, counting successes
      and errors, and a report of the counts and the first ten errors. */
  method ImportCsv(db: Database, requestTenant: Option<TenantId>, rows: seq<CsvRow>) returns (report: ImportReport)
    requires ImportInv(db.State())
    modifies db
    ensures db.State() == ImportRows(old(db.State()), requestTenant, rows).tables
    ensures ImportInv(db.State())
    ensures report.successCount == ImportRows(old(db.State()), requestTenant, rows).success
    ensures report.errorCount == |ImportRows(old(db.State()), requestTenant, rows).errors|
    ensures report.errors == FirstTen(ImportRows(old(db.State()), requestTenant, rows).errors)
  {
    var successCount, errorCount, errors := ImportLoop(db, requestTenant, rows);
    report := ImportReport(successCount, errorCount, FirstTen(errors));
  }

  /** The loop over the rows, with its two counters and the error list. */
  method ImportLoop(db: Database, requestTenant: Option<TenantId>, rows: seq<CsvRow>)
    returns (successCount: nat, errorCount: nat, errors: seq<RowError>)
    requires ImportInv(db.State())
    modifies db
    ensures ImportRows(old(db.State()), requestTenant, rows) == ImportState(db.State(), successCount, errors)
    ensures errorCount == |errors| && ImportInv(db.State())
  {
    ghost var t0 := db.State();
    successCount, errorCount, errors := 0, 0, [];
    var i := 0;
    while i < |rows|
      invariant 0 <= i <= |rows|
      invariant ImportRows(t0, requestTenant, rows[..i]) == ImportState(db.State(), successCount, errors)
      invariant errorCount == |errors|
    {
      successCount, errorCount, errors := ImportStep(db, t0, requestTenant, rows, i, successCount, errorCount, errors);
      i := i + 1;
    }
    assert rows[..i] == rows;
    ImportRowsKeepsInv(t0, requestTenant, rows);
  }

  /** The body of the loop: row `i` (row `i + 2` of the file) is imported
      and the fold moves on by one row. */
  method ImportStep(db: Database, ghost t0: Tables, requestTenant: Option<TenantId>, rows: seq<CsvRow>, i: nat,
                    successCount: nat, errorCount: nat, errors: seq<RowError>)
    returns (successCount': nat, errorCount': nat, errors': seq<RowError>)
    requires i < |rows| && errorCount == |errors|
    requires ImportRows(t0, requestTenant, rows[..i]) == ImportState(db.State(), successCount, errors)
    requires ImportInv(t0)
    modifies db
    ensures ImportRows(t0, requestTenant, rows[..i + 1]) == ImportState(db.State(), successCount', errors')
    ensures errorCount' == |errors'|
  {
    ghost var s := ImportState(db.State(), successCount, errors);
    ImportRowsKeepsInv(t0, requestTenant, rows[..i]);
    var e := ImportOneRow(db, requestTenant, rows[i], i + 2);
    ImportRowsStep(t0, requestTenant, rows, i, s, db.State(), e);
    if e.Some? {
      successCount', errorCount', errors' := successCount, errorCount + 1, errors + [e.value];
    } else {
      successCount', errorCount', errors' := successCount + 1, errorCount, errors;
    }
  }

  // ---------------------------------------------------------------------
  // Properties of the import.

  /** Every row is counted exactly once: as imported or as an error. */
  lemma {:induction false} ImportCounts(t: Tables, requestTenant: Option<TenantId>, rows: seq<CsvRow>)
    ensures ImportRows(t, requestTenant, rows).success + |ImportRows(t, requestTenant, rows).errors| == |rows|
  {
    if rows != [] {
      ImportCounts(t, requestTenant, rows[..|rows| - 1]);
    }
  }

  /** The rows named in `es` are data rows of a file of `n` rows, in increasing order. */
  predicate ErrorRowsOrdered(es: seq<RowError>, n: nat) {
    && (forall k :: 0 <= k < |es| ==> 2 <= es[k].row <= n + 1)
    && (forall j, k :: 0 <= j < k < |es| ==> es[j].row < es[k].row)
  }

  /** The errors come in row order and each names a data row (2 to |rows|+1). */
  lemma {:induction false} ImportErrorsInRowOrder(t: Tables, requestTenant: Option<TenantId>, rows: seq<CsvRow>)
    ensures ErrorRowsOrdered(ImportRows(t, requestTenant, rows).errors, |rows|)
  {
    if rows != [] {
      var prefix := rows[..|rows| - 1];
      ImportErrorsInRowOrder(t, requestTenant, prefix);
      var s := ImportRows(t, requestTenant, prefix);
      var r := ImportRow(s.tables, requestTenant, rows[|rows| - 1], |rows| + 1);
      assert r.error.Some? ==> r.error.value.row == |rows| + 1;
    }
  }

  /** An anonymous request imports nothing: every row with a category is
      refused by the database, every row without one by the check, and no
      table changes. */
  lemma {:induction false} AnonymousImportChangesNothing(t: Tables, rows: seq<CsvRow>)
    ensures ImportRows(t, None, rows).tables == t
    ensures ImportRows(t, None, rows).success == 0
    ensures |ImportRows(t, None, rows).errors| == |rows|
  {
    if rows != [] {
      AnonymousImportChangesNothing(t, rows[..|rows| - 1]);
    }
  }

  /** Only categories, products and their counters change: the ledger,
      customers and sales tables are untouched. */
  lemma {:induction false} ImportTouchesOnlyCatalog(t: Tables, requestTenant: Option<TenantId>, rows: seq<CsvRow>)
    ensures var r := ImportRows(t, requestTenant, rows).tables;
      r == t.(categories := r.categories, products := r.products,
              nextCategoryId := r.nextCategoryId, nextProductId := r.nextProductId)
  {
    if rows != [] {
      ImportTouchesOnlyCatalog(t, requestTenant, rows[..|rows| - 1]);
    }
  }

  /** The id the upsert writes: the product found under the key, else the
      next fresh id. */
  ghost function UpsertTarget(t: Tables, tenant: TenantId, sku: string): ProductId {
    match FindProduct(t.products, tenant, sku)
    case Some(pid) => pid
    case None => t.nextProductId
  }

  /** After an upsert the key `(tenant, sku)` names exactly one product,
      `p`, and every other product is as it was. */
  lemma UpsertProductResult(t: Tables, tenant: TenantId, sku: string, p: Product)
    requires (forall q :: q in t.products ==> q < t.nextProductId) && SkusUnique(t.products)
    requires p.tenant == tenant && p.sku == sku
    ensures var r := UpsertProduct(t, tenant, sku, p);
      var pid := UpsertTarget(t, tenant, sku);
      && pid in r.products && r.products[pid] == p
      && (forall q :: q in r.products && r.products[q].tenant == tenant && r.products[q].sku == sku ==> q == pid)
      && (forall q :: q in t.products && q != pid ==> r.products[q] == t.products[q])
  {
    var r := UpsertProduct(t, tenant, sku, p);
    match FindProduct(t.products, tenant, sku)
    case Some(pid) =>
      assert r.products == t.products[pid := p];
    case None =>
      assert r.products == t.products[t.nextProductId := p];
  }

  /** A row that is imported leaves exactly one product under the request's
      tenant and the row's SKU, holding the row's data and filed under the
      row's category; every other product is as it was. */
  lemma ImportRowUpserts(t: Tables, tenant: TenantId, row: CsvRow, rowNum: nat)
    requires (forall q :: q in t.products ==> q < t.nextProductId) && SkusUnique(t.products)
    requires Strip(row.category) != "" && row.numbers.Some? && Strip(row.name) != ""
    ensures var r := ImportRow(t, Some(tenant), row, rowNum);
      var sku := RowSku(row);
      var (t1, cid) := GetOrCreateCategory(t, tenant, Strip(row.category));
      && r.error.None?
      && r.tables.categories == t1.categories
      && cid in t1.categories && t1.categories[cid].tenant == tenant && t1.categories[cid].name == Strip(row.category)
      && var pid := UpsertTarget(t, tenant, sku);
      && pid in r.tables.products
      && r.tables.products[pid] == ImportedProduct(tenant, cid, sku, row, row.numbers.value)
      && (forall q :: q in r.tables.products && r.tables.products[q].tenant == tenant && r.tables.products[q].sku == sku ==> q == pid)
      && (forall q :: q in t.products && q != pid ==> r.tables.products[q] == t.products[q])
  {
    var sku := RowSku(row);
    var (t1, cid) := GetOrCreateCategory(t, tenant, Strip(row.category));
    var p := ImportedProduct(tenant, cid, sku, row, row.numbers.value);
    ImportRowIsUpsert(t, tenant, row, rowNum);
    assert t1.nextProductId == t.nextProductId;
    assert UpsertTarget(t1, tenant, sku) == UpsertTarget(t, tenant, sku);
    UpsertProductResult(t1, tenant, sku, p);
  }

  /** An accepted row is the category lookup followed by the upsert. */
  lemma ImportRowIsUpsert(t: Tables, tenant: TenantId, row: CsvRow, rowNum: nat)
    requires Strip(row.category) != "" && row.numbers.Some? && Strip(row.name) != ""
    ensures var (t1, cid) := GetOrCreateCategory(t, tenant, Strip(row.category));
      && t1.products == t.products
      && ImportRow(t, Some(tenant), row, rowNum)
         == RowResult(UpsertProduct(t1, tenant, RowSku(row), ImportedProduct(tenant, cid, RowSku(row), row, row.numbers.value)), None)
  {
  }

  /** A row naming an existing SKU overwrites that product's stock without a
      ledger entry, so the stock the ledger does not account for moves by the
      difference between the new and the old level. */
  lemma ImportOverwritesStockOffLedger(t: Tables, tenant: TenantId, row: CsvRow, rowNum: nat, pid: ProductId)
    requires ImportInv(t)
    requires Strip(row.category) != "" && row.numbers.Some? && Strip(row.name) != ""
    requires pid in t.products && t.products[pid].tenant == tenant && t.products[pid].sku == RowSku(row)
    ensures var t2 := ImportRow(t, Some(tenant), row, rowNum).tables;
      && pid in t2.products
      && t2.products[pid].currentStock == row.numbers.value.currentStock
      && t2.movements == t.movements
      && Drift(t2.products, t2.movements, pid)
         == Drift(t.products, t.movements, pid) + row.numbers.value.currentStock - t.products[pid].currentStock
  {
    var (t1, cid) := GetOrCreateCategory(t, tenant, Strip(row.category));
    assert t1.products == t.products;
    assert FindProduct(t1.products, tenant, RowSku(row)) == Some(pid);
  }

  /** A row without a category changes nothing; a row with a category but no
      name, or with a cell that does not parse, still leaves its category
      behind and changes no product. */
  lemma ImportRowRejections(t: Tables, tenant: TenantId, row: CsvRow, rowNum: nat)
    ensures Strip(row.category) == "" ==>
      ImportRow(t, Some(tenant), row, rowNum) == RowResult(t, Some(RowError(rowNum, CategoryRequired)))
    ensures Strip(row.category) != "" && row.numbers.Some? && Strip(row.name) == "" ==>
      var r := ImportRow(t, Some(tenant), row, rowNum);
      && r.error == Some(RowError(rowNum, NameRequired))
      && r.tables.products == t.products
      && FindCategory(r.tables.categories, tenant, Strip(row.category)).Some?
    ensures Strip(row.category) != "" && row.numbers.None? ==>
      var r := ImportRow(t, Some(tenant), row, rowNum);
      && r.error == Some(RowError(rowNum, Failed))
      && r.tables.products == t.products
      && FindCategory(r.tables.categories, tenant, Strip(row.category)).Some?
  {
  }

  /** Importing keeps the schema's integrity. */
  lemma ImportKeepsWellFormed(t: Tables, requestTenant: Option<TenantId>, rows: seq<CsvRow>)
    requires WellFormed(t)
    ensures WellFormed(ImportRows(t, requestTenant, rows).tables)
  {
    ImportRowsKeepsInv(t, requestTenant, rows);
    ImportTouchesOnlyCatalog(t, requestTenant, rows);
    ImportKeepsProducts(t, requestTenant, rows);
  }

  /** No product disappears: an import only inserts and overwrites. */
  lemma {:induction false} ImportKeepsProducts(t: Tables, requestTenant: Option<TenantId>, rows: seq<CsvRow>)
    ensures t.products.Keys <= ImportRows(t, requestTenant, rows).tables.products.Keys
  {
    if rows != [] {
      ImportKeepsProducts(t, requestTenant, rows[..|rows| - 1]);
    }
  }
}
