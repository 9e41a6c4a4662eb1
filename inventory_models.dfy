/** Categories, products and the stock-movement ledger (inventory/models.py). */
module InventoryModels {
  import opened Base
  import opened Tenancy

  type ProductId = nat
  type CategoryId = nat

  datatype Category = Category(
    tenant: TenantId,
    name: string,
    description: Option<string>,
    status: string)

  datatype Product = Product(
    tenant: TenantId,
    category: CategoryId,
    name: string,
    sku: string,
    brand: Option<string>,
    size: Option<string>,
    description: Option<string>,
    unit: string,
    purchasePrice: real,
    sellingPrice: real,
    mrp: Option<real>,
    currentStock: int,
    lowStockAlert: int,
    hsnCode: Option<string>,
    gstPercent: real,
    status: string)

  /** A product created with only its required fields: stock, alert level
      and GST start at 0, the unit is "pcs" and the status "active". */
  function NewProduct(tenant: TenantId, category: CategoryId, name: string, sku: string,
                      purchasePrice: real, sellingPrice: real): (p: Product)
    ensures p.currentStock == 0 && p.gstPercent == 0.0 && p.lowStockAlert == 0
    ensures p.unit == "pcs" && p.status == "active"
    ensures p.tenant == tenant && p.sku == sku && p.sellingPrice == sellingPrice
  {
    Product(tenant, category, name, sku, None, None, None, "pcs", purchasePrice, sellingPrice,
            None, 0, 0, None, 0.0, "active")
  }

  /** A new category's status defaults to "active". */
  function NewCategory(tenant: TenantId, name: string): (c: Category)
    ensures c.status == "active" && c.tenant == tenant && c.name == name
  {
    Category(tenant, name, None, "active")
  }

  // ---------------------------------------------------------------------
  // The movement ledger.

  /** `StockMovement.MOVEMENT_TYPES`: the type of a movement is one of four. */
  datatype MovementType = In | Out | Sale | Return

  function MovementCode(t: MovementType): string {
    match t
    case In => "IN"
    case Out => "OUT"
    case Sale => "SALE"
    case Return => "RETURN"
  }

  /** The choice field's check on a stored type code. */
  function ParseMovementType(code: string): (r: Option<MovementType>)
    ensures r.Some? <==> code in {"IN", "OUT", "SALE", "RETURN"}
  {
    if code == "IN" then Some(In)
    else if code == "OUT" then Some(Out)
    else if code == "SALE" then Some(Sale)
    else if code == "RETURN" then Some(Return)
    else None
  }

  lemma MovementCodeRoundTrip(t: MovementType, code: string)
    ensures ParseMovementType(MovementCode(t)) == Some(t)
    ensures ParseMovementType(code).Some? ==> MovementCode(ParseMovementType(code).value) == code
  {
  }

  datatype StockMovement = StockMovement(
    tenant: TenantId,
    product: ProductId,
    kind: MovementType,
    quantity: int,
    referenceType: Option<string>,
    reason: Option<string>,
    date: int)

  /** A movement's effect on stock: IN and RETURN add, OUT and SALE remove. */
  function Signed(m: StockMovement): int {
    if m.kind == In || m.kind == Return then m.quantity else -m.quantity
  }

  /** The net quantity the ledger records for product `p`. */
  function NetMovement(ms: seq<StockMovement>, p: ProductId): int {
    if ms == [] then 0
    else NetMovement(ms[..|ms| - 1], p) + (if ms[|ms| - 1].product == p then Signed(ms[|ms| - 1]) else 0)
  }

  lemma NetMovementAppend(ms: seq<StockMovement>, m: StockMovement, p: ProductId)
    ensures NetMovement(ms + [m], p) == NetMovement(ms, p) + (if m.product == p then Signed(m) else 0)
  {
    assert (ms + [m])[..|ms|] == ms;
  }

  /** Stock the ledger does not account for: equal to the stock a product
      started with as long as every stock change is paired with a movement. */
  function Drift(products: map<ProductId, Product>, ms: seq<StockMovement>, p: ProductId): int
    requires p in products
  {
    products[p].currentStock - NetMovement(ms, p)
  }

  /** A stock change recorded together with its movement leaves every
      product's drift as it was. */
  lemma PairedChangeKeepsDrift(products: map<ProductId, Product>, ms: seq<StockMovement>,
                               pid: ProductId, updated: Product, m: StockMovement)
    requires pid in products && m.product == pid
    requires updated.currentStock == products[pid].currentStock + Signed(m)
    ensures forall p :: p in products ==>
      Drift(products[pid := updated], ms + [m], p) == Drift(products, ms, p)
  {
    forall p | p in products
      ensures Drift(products[pid := updated], ms + [m], p) == Drift(products, ms, p)
    {
      NetMovementAppend(ms, m, p);
    }
  }

  /** `product.movements`: this product's movements in ledger order. */
  function MovementsOf(ms: seq<StockMovement>, p: ProductId): (r: seq<StockMovement>)
    ensures forall m :: m in r <==> m in ms && m.product == p
    ensures forall m :: multiset(r)[m] == if m.product == p then multiset(ms)[m] else 0
  {
    if ms == [] then []
    else
      var rest := MovementsOf(ms[1..], p);
      assert ms == [ms[0]] + ms[1..];
      if ms[0].product == p then [ms[0]] + rest else rest
  }

  function MovementDate(m: StockMovement): int { m.date }

  /** `Meta.ordering = ['-date']`: the default listing, newest first. */
  function DefaultOrder(ms: seq<StockMovement>): (r: seq<StockMovement>)
    ensures multiset(r) == multiset(ms)
    ensures forall i, j :: 0 <= i < j < |r| ==> r[i].date >= r[j].date
  {
    var r := SortDesc(ms, MovementDate);
    assert forall i, j :: 0 <= i < j < |r| ==> MovementDate(r[i]) >= MovementDate(r[j]);
    r
  }

  // ---------------------------------------------------------------------
  // Uniqueness keys.

  /** `unique_together = ('tenant', 'sku')`. */
  ghost predicate SkusUnique(products: map<ProductId, Product>) {
    forall a, b :: a in products && b in products && a != b ==>
      products[a].tenant != products[b].tenant || products[a].sku != products[b].sku
  }

  /** `unique_together = ('tenant', 'name')`. */
  ghost predicate CategoryNamesUnique(categories: map<CategoryId, Category>) {
    forall a, b :: a in categories && b in categories && a != b ==>
      categories[a].tenant != categories[b].tenant || categories[a].name != categories[b].name
  }

  /** Changing only stock counters keeps the SKU key. */
  lemma StockUpdateKeepsSkusUnique(products: map<ProductId, Product>, p: ProductId, stock: int)
    requires SkusUnique(products) && p in products
    ensures SkusUnique(products[p := products[p].(currentStock := stock)])
  {
  }
}
