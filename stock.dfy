/** The manual stock endpoints of the product view set
    (inventory/views.py): `add_stock`, `remove_stock` and `stock_history`.

    The view set takes its queryset from the fail-open core mixin and
    allows any caller, so `get_object()` finds a product of any tenant when
    the request carries no tenant. The two writing endpoints save the
    product first and insert the movement second, with no transaction
    around them; `AddStockAsWritten` and `RemoveStockAsWritten` model that
    order, `AddStock` and `RemoveStock` the same steps inside an atomic
    block. */
module Stock {
  import opened Base
  import opened Tenancy
  import opened InventoryModels
  import opened Storage

  /** The response of a stock endpoint. */
  datatype StockOutcome =
    | Adjusted(newStock: int)   // 200 with `new_stock`
    | ProductNotVisible         // 404 from `get_object()`
    | BadQuantity               // 400, quantity <= 0
    | NotEnoughStock            // 400, "Insufficient stock."
    | MovementRejected          // the movement insert fails: a request without tenant

  datatype Direction = Add | Remove

  /** `get_object()` on the core mixin's queryset: with a tenant on the
      request only that tenant's products, without one every product. */
  predicate VisibleProduct(products: map<ProductId, Product>, requestTenant: Option<TenantId>, pid: int) {
    pid >= 0 && pid in products && (requestTenant.None? || products[pid].tenant == requestTenant.value)
  }

  /** The lookup above is the core mixin's scoping applied to the product
      rows: a product is found exactly when its row survives
      `CoreScopedQuery`. */
  lemma VisibleProductIsCoreScoped(products: map<ProductId, Product>, rows: seq<Row<ProductId>>,
                                   requestTenant: Option<TenantId>, pid: ProductId)
    requires forall x :: x in rows <==> x.value in products && x.tenant == products[x.value].tenant
    ensures VisibleProduct(products, requestTenant, pid) <==>
      pid in products && Row(products[pid].tenant, pid) in CoreScopedQuery(rows, true, requestTenant)
  {
  }

  /** The movement an endpoint writes: IN "Manual Stock Add" or OUT
      "Manual Stock Deduction", the reason defaulting to "". */
  function ManualMovement(tenant: TenantId, pid: ProductId, quantity: int, dir: Direction,
                          reason: Option<string>, now: int): StockMovement
  {
    StockMovement(tenant, pid, if dir == Add then In else Out, quantity,
                  Some(if dir == Add then "Manual Stock Add" else "Manual Stock Deduction"),
                  Some(reason.GetOr("")), now)
  }

  /** What `add_stock` (dir Add) or `remove_stock` (dir Remove) leaves
      behind and answers. With `atomic` false the product save stays when
      the movement insert fails afterwards, as the code is written; with
      `atomic` true it is undone with it. */
  function AdjustSpec(t: Tables, requestTenant: Option<TenantId>, pid: int, quantity: int, dir: Direction,
                      reason: Option<string>, now: int, atomic: bool): (Tables, StockOutcome)
  {
    if !VisibleProduct(t.products, requestTenant, pid) then (t, ProductNotVisible)
    else if quantity <= 0 then (t, BadQuantity)
    else
      var p := t.products[pid];
      if dir == Remove && p.currentStock < quantity then (t, NotEnoughStock)
      else
        var newStock := if dir == Add then p.currentStock + quantity else p.currentStock - quantity;
        var saved := t.(products := t.products[pid as nat := p.(currentStock := newStock)]);
        if requestTenant.None? then (if atomic then t else saved, MovementRejected)
        else
          (saved.(movements := t.movements + [ManualMovement(requestTenant.value, pid as nat, quantity, dir, reason, now)]),
           Adjusted(newStock))
  }

  /** `add_stock` or `remove_stock` as the code is written: the product is
      saved, then the movement is inserted. */
  method AdjustAsWritten(db: Database, requestTenant: Option<TenantId>, pid: int, quantity: int, dir: Direction,
                         reason: Option<string>, now: int)
    returns (r: StockOutcome)
    modifies db
    ensures (db.State(), r) == AdjustSpec(old(db.State()), requestTenant, pid, quantity, dir, reason, now, false)
  {
    if !(pid >= 0 && pid in db.products && (requestTenant.None? || db.products[pid].tenant == requestTenant.value)) {
      return ProductNotVisible;
    }
    var product := db.products[pid];
    if quantity <= 0 {
      return BadQuantity;
    }
    if dir == Remove && product.currentStock < quantity {
      return NotEnoughStock;
    }
    var newStock := if dir == Add then product.currentStock + quantity else product.currentStock - quantity;
    db.products := db.products[pid as nat := product.(currentStock := newStock)];
    if requestTenant.None? {
      return MovementRejected;
    }
    db.movements := db.movements + [ManualMovement(requestTenant.value, pid as nat, quantity, dir, reason, now)];
    return Adjusted(newStock);
  }

  /** The same steps inside `transaction.atomic()`: a failed movement
      insert takes the product save back with it. */
  method Adjust(db: Database, requestTenant: Option<TenantId>, pid: int, quantity: int, dir: Direction,
                reason: Option<string>, now: int)
    returns (r: StockOutcome)
    modifies db
    ensures (db.State(), r) == AdjustSpec(old(db.State()), requestTenant, pid, quantity, dir, reason, now, true)
  {
    var snapshot := db.State();
    r := AdjustAsWritten(db, requestTenant, pid, quantity, dir, reason, now);
    if r == MovementRejected {
      db.Restore(snapshot);
    }
  }

  method AddStockAsWritten(db: Database, requestTenant: Option<TenantId>, pid: int, quantity: int,
                           reason: Option<string>, now: int)
    returns (r: StockOutcome)
    modifies db
    ensures (db.State(), r) == AdjustSpec(old(db.State()), requestTenant, pid, quantity, Add, reason, now, false)
  {
    r := AdjustAsWritten(db, requestTenant, pid, quantity, Add, reason, now);
  }

  method RemoveStockAsWritten(db: Database, requestTenant: Option<TenantId>, pid: int, quantity: int,
                              reason: Option<string>, now: int)
    returns (r: StockOutcome)
    modifies db
    ensures (db.State(), r) == AdjustSpec(old(db.State()), requestTenant, pid, quantity, Remove, reason, now, false)
  {
    r := AdjustAsWritten(db, requestTenant, pid, quantity, Remove, reason, now);
  }

  method AddStock(db: Database, requestTenant: Option<TenantId>, pid: int, quantity: int,
                  reason: Option<string>, now: int)
    returns (r: StockOutcome)
    modifies db
    ensures (db.State(), r) == AdjustSpec(old(db.State()), requestTenant, pid, quantity, Add, reason, now, true)
  {
    r := Adjust(db, requestTenant, pid, quantity, Add, reason, now);
  }

  method RemoveStock(db: Database, requestTenant: Option<TenantId>, pid: int, quantity: int,
                     reason: Option<string>, now: int)
    returns (r: StockOutcome)
    modifies db
    ensures (db.State(), r) == AdjustSpec(old(db.State()), requestTenant, pid, quantity, Remove, reason, now, true)
  {
    r := Adjust(db, requestTenant, pid, quantity, Remove, reason, now);
  }

  // ---------------------------------------------------------------------
  // What the endpoints promise.

  /** `add_stock` answers `new_stock` exactly when the product is found,
      the quantity is positive and the request has a tenant; the stock then
      rises by the quantity and one IN movement of that quantity is
      appended. Otherwise nothing changes (in the atomic version). */
  lemma AddStockOutcome(t: Tables, rt: Option<TenantId>, pid: int, q: int, reason: Option<string>, now: int)
    ensures var (t2, r) := AdjustSpec(t, rt, pid, q, Add, reason, now, true);
      && (r.Adjusted? <==> VisibleProduct(t.products, rt, pid) && q > 0 && rt.Some?)
      && (r.Adjusted? ==>
            && r.newStock == t.products[pid].currentStock + q
            && t2.products == t.products[pid := t.products[pid].(currentStock := r.newStock)]
            && t2.movements == t.movements + [StockMovement(rt.value, pid, In, q, Some("Manual Stock Add"), Some(reason.GetOr("")), now)]
            && t2 == t.(products := t2.products, movements := t2.movements))
      && (!r.Adjusted? ==> t2 == t)
      && (VisibleProduct(t.products, rt, pid) && q <= 0 ==> r == BadQuantity)
  {
  }

  /** `remove_stock` additionally refuses when the stock is below the
      quantity, so the stock it leaves is never negative. */
  lemma RemoveStockOutcome(t: Tables, rt: Option<TenantId>, pid: int, q: int, reason: Option<string>, now: int)
    ensures var (t2, r) := AdjustSpec(t, rt, pid, q, Remove, reason, now, true);
      && (r.Adjusted? <==> VisibleProduct(t.products, rt, pid) && q > 0 && t.products[pid].currentStock >= q && rt.Some?)
      && (r.Adjusted? ==>
            && r.newStock == t.products[pid].currentStock - q
            && r.newStock >= 0
            && t2.products == t.products[pid := t.products[pid].(currentStock := r.newStock)]
            && t2.movements == t.movements + [StockMovement(rt.value, pid, Out, q, Some("Manual Stock Deduction"), Some(reason.GetOr("")), now)]
            && t2 == t.(products := t2.products, movements := t2.movements))
      && (!r.Adjusted? ==> t2 == t)
      && (VisibleProduct(t.products, rt, pid) && q > 0 && t.products[pid].currentStock < q ==> r == NotEnoughStock)
  {
  }

  /** With a tenant on the request, another tenant's product is never
      found and never changed. */
  lemma AdjustTenantIsolation(t: Tables, tenant: TenantId, pid: int, q: int, dir: Direction,
                              reason: Option<string>, now: int, atomic: bool)
    requires pid >= 0 && pid in t.products && t.products[pid].tenant != tenant
    ensures AdjustSpec(t, Some(tenant), pid, q, dir, reason, now, atomic) == (t, ProductNotVisible)
  {
  }

  /** In the atomic version every outcome keeps every product's drift:
      stock changes only together with its movement. */
  lemma AdjustKeepsLedger(t: Tables, rt: Option<TenantId>, pid: int, q: int, dir: Direction,
                          reason: Option<string>, now: int)
    ensures var t2 := AdjustSpec(t, rt, pid, q, dir, reason, now, true).0;
      t2.products.Keys == t.products.Keys &&
      forall p :: p in t.products ==> Drift(t2.products, t2.movements, p) == Drift(t.products, t.movements, p)
  {
    var t2 := AdjustSpec(t, rt, pid, q, dir, reason, now, true).0;
    AdjustAtomicShape(t, rt, pid, q, dir, reason, now);
    if t2 != t {
      var m := ManualMovement(rt.value, pid as nat, q, dir, reason, now);
      var updated := t.products[pid].(currentStock := t.products[pid].currentStock + Signed(m));
      PairedChangeKeepsDrift(t.products, t.movements, pid as nat, updated, m);
    }
  }

  /** The atomic endpoints either change nothing or change one product's
      stock by the signed quantity of the one movement they append. */
  lemma AdjustAtomicShape(t: Tables, rt: Option<TenantId>, pid: int, q: int, dir: Direction,
                          reason: Option<string>, now: int)
    ensures var t2 := AdjustSpec(t, rt, pid, q, dir, reason, now, true).0;
      t2 == t || (
        && rt.Some? && pid >= 0 && pid in t.products
        && var m := ManualMovement(rt.value, pid as nat, q, dir, reason, now);
           t2 == t.(products := t.products[pid as nat := t.products[pid].(currentStock := t.products[pid].currentStock + Signed(m))],
                    movements := t.movements + [m]))
  {
  }

  /** As the code is written, a request without a tenant changes stock
      with no movement: product 1 of tenant 7, stock 0, receives 5 units,
      the movement insert fails, and the product's drift grows by 5. */
  lemma AddStockAsWrittenDrifts()
    ensures var t := EmptyTables().(products := map[1 := NewProduct(7, 1, "Soap", "S-1", 10.0, 20.0)],
                                    nextProductId := 2);
            var (t2, r) := AdjustSpec(t, None, 1, 5, Add, None, 0, false);
            r == MovementRejected && t2.products[1].currentStock == 5 && t2.movements == [] &&
            Drift(t2.products, t2.movements, 1) == Drift(t.products, t.movements, 1) + 5
  {
  }

  /** Both versions keep the integrity of the tables. */
  lemma AdjustWellFormed(t: Tables, rt: Option<TenantId>, pid: int, q: int, dir: Direction,
                         reason: Option<string>, now: int, atomic: bool)
    requires WellFormed(t)
    ensures WellFormed(AdjustSpec(t, rt, pid, q, dir, reason, now, atomic).0)
  {
    var t2 := AdjustSpec(t, rt, pid, q, dir, reason, now, atomic).0;
    if t2 != t {
      StockUpdateKeepsSkusUnique(t.products, pid as nat, t2.products[pid as nat].currentStock);
    }
  }

  // ---------------------------------------------------------------------
  // stock_history

  /** `stock_history`: the product's movements, newest first; 404 when the
      product is not found. */
  function StockHistory(t: Tables, requestTenant: Option<TenantId>, pid: int): (r: Option<seq<StockMovement>>)
    ensures r.Some? <==> VisibleProduct(t.products, requestTenant, pid)
    ensures r.Some? ==> forall m :: multiset(r.value)[m] == if m.product == pid then multiset(t.movements)[m] else 0
    ensures r.Some? ==> forall i, j :: 0 <= i < j < |r.value| ==> r.value[i].date >= r.value[j].date
  {
    if VisibleProduct(t.products, requestTenant, pid) then Some(DefaultOrder(MovementsOf(t.movements, pid as nat)))
    else None
  }
}
