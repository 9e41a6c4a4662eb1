/** The billing transaction `create_bill` (sales/services.py): one bill,
    its lines, the stock they sell, one SALE movement per line, the bill's
    totals and, on a credit sale, the customer's balance, all inside one
    atomic block.

    The transaction is specified by `CreateBillSpec`, a function from the
    tables before the call to the tables after it (or to the error that
    aborted it). The per-line work is the fold `SellLines`, written on the
    prefix of the lines so that the loop of `CreateBill` can keep
    "the first i lines have been sold" as its invariant. */
module Billing {
  import opened Base
  import opened Tenancy
  import opened InventoryModels
  import opened SalesModels
  import opened Storage

  /** One entry of `payload["items"]`; absent `price` and `discount` are None. */
  datatype LineRequest = LineRequest(productId: int, quantity: int, price: Option<real>, discount: Option<real>)

  /** The payload: `customer_id`, `bill_discount` and `payment_type` may be absent. */
  datatype BillRequest = BillRequest(
    customerId: Option<int>,
    billDiscount: Option<real>,
    paymentType: Option<string>,
    items: seq<LineRequest>)

  /** Why a call is aborted: the ValueError for an empty bill, the lookups
      that find no row, the failed insert of a bill without tenant, the
      ValueError for a non-positive quantity and `InsufficientStock`. */
  datatype BillError =
    | EmptyItems
    | CustomerNotFound(customerId: int)
    | TenantRequired
    | ProductNotFound(productId: int)
    | NonPositiveQuantity(productId: int)
    | InsufficientStock(productId: int)

  /** `Product.objects.get(pk=pid, tenant=tenant)` finds a row. */
  predicate ProductInTenant(products: map<ProductId, Product>, pid: int, tenant: TenantId) {
    pid >= 0 && pid in products && products[pid].tenant == tenant
  }

  /** `Customer.objects.get(pk=cid, tenant=tenant)` finds a row; with no
      tenant the lookup is `tenant IS NULL` and finds none. */
  predicate CustomerInTenant(customers: map<CustomerId, Customer>, cid: int, tenant: Option<TenantId>) {
    cid >= 0 && cid in customers && Some(customers[cid].tenant) == tenant
  }

  /** `if payload.get("customer_id")`: a customer id is given and is not 0. */
  predicate CustomerGiven(req: BillRequest) {
    req.customerId.Some? && req.customerId.value != 0
  }

  /** `payment_type and payment_type.upper() == "CREDIT"`. */
  predicate IsCreditSale(paymentType: Option<string>) {
    paymentType.Some? && paymentType.value != "" && IsCredit(paymentType.value)
  }

  /** The bill line written for `line`: the price defaults to the product's
      selling price, the discount to 0, and the subtotal is
      `(price - discount) * qty`. */
  function LineItem(line: LineRequest, p: Product, billId: BillId): (it: BillItem)
    requires line.productId >= 0
    ensures it.bill == billId && it.product == line.productId && it.quantity == line.quantity
    ensures line.price.None? ==> it.price == p.sellingPrice
    ensures line.price.Some? ==> it.price == line.price.value
    ensures line.discount.None? ==> it.discount == 0.0
    ensures line.discount.Some? ==> it.discount == line.discount.value
    ensures it.subtotal == (it.price - it.discount) * line.quantity as real
  {
    var price := line.price.GetOr(p.sellingPrice);
    var discount := line.discount.GetOr(0.0);
    BillItem(billId, line.productId as nat, line.quantity, price, discount, (price - discount) * line.quantity as real)
  }

  function SaleReason(billId: BillId): string {
    "Sale - Bill " + NatToString(billId)
  }

  /** The ledger entry written for one sold line. */
  function SaleMovement(tenant: TenantId, pid: ProductId, quantity: int, billId: BillId, now: int): StockMovement {
    StockMovement(tenant, pid, Sale, quantity, Some("Bill"), Some(SaleReason(billId)), now)
  }

  /** The three tables the line loop writes. */
  datatype Progress = Progress(products: map<ProductId, Product>, items: seq<BillItem>, movements: seq<StockMovement>)

  /** One pass of the line loop: look the product up in the tenant, check
      the quantity and the stock, write the line, lower the stock and
      append the SALE movement. */
  function SellLine(pr: Progress, tenant: TenantId, billId: BillId, now: int, line: LineRequest): Result<Progress, BillError> {
    if !ProductInTenant(pr.products, line.productId, tenant) then Err(ProductNotFound(line.productId))
    else
      var pid := line.productId as nat;
      var p := pr.products[pid];
      if line.quantity <= 0 then Err(NonPositiveQuantity(line.productId))
      else if p.currentStock < line.quantity then Err(InsufficientStock(line.productId))
      else
        Ok(Progress(pr.products[pid := p.(currentStock := p.currentStock - line.quantity)],
                    pr.items + [LineItem(line, p, billId)],
                    pr.movements + [SaleMovement(tenant, pid, line.quantity, billId, now)]))
  }

  /** The line loop over `lines`, stopping at the first error. */
  function SellLines(pr: Progress, tenant: TenantId, billId: BillId, now: int, lines: seq<LineRequest>)
    : Result<Progress, BillError>
    decreases |lines|
  {
    if lines == [] then Ok(pr)
    else
      match SellLines(pr, tenant, billId, now, lines[..|lines| - 1])
      case Err(e) => Err(e)
      case Ok(q) => SellLine(q, tenant, billId, now, lines[|lines| - 1])
  }

  /** The units of product `p` the lines ask for. */
  function QtyFor(lines: seq<LineRequest>, p: int): int {
    if lines == [] then 0
    else
      var last := lines[|lines| - 1];
      QtyFor(lines[..|lines| - 1], p) + (if last.productId == p then last.quantity else 0)
  }

  /** Line `i` can be sold: its product is in the tenant, its quantity is
      positive, and the stock the product started with covers this line
      together with every earlier line for the same product. */
  predicate LineFits(products: map<ProductId, Product>, tenant: TenantId, lines: seq<LineRequest>, i: int)
    requires 0 <= i < |lines|
  {
    && ProductInTenant(products, lines[i].productId, tenant)
    && lines[i].quantity > 0
    && QtyFor(lines[..i + 1], lines[i].productId) <= products[lines[i].productId].currentStock
  }

  /** The error raised by line `i` when it is the first that does not fit. */
  function LineError(products: map<ProductId, Product>, tenant: TenantId, lines: seq<LineRequest>, i: int): BillError
    requires 0 <= i < |lines|
  {
    if !ProductInTenant(products, lines[i].productId, tenant) then ProductNotFound(lines[i].productId)
    else if lines[i].quantity <= 0 then NonPositiveQuantity(lines[i].productId)
    else InsufficientStock(lines[i].productId)
  }

  // ---------------------------------------------------------------------
  // What the line loop does.

  /** What one successful pass does, as a statement about its result. */
  lemma SellLineStep(q: Progress, tenant: TenantId, billId: BillId, now: int, line: LineRequest, pr: Progress)
    requires SellLine(q, tenant, billId, now, line) == Ok(pr)
    ensures ProductInTenant(q.products, line.productId, tenant) && line.quantity > 0
    ensures q.products[line.productId].currentStock >= line.quantity
    ensures pr.products == q.products[line.productId := q.products[line.productId].(currentStock :=
      q.products[line.productId].currentStock - line.quantity)]
    ensures pr.items == q.items + [LineItem(line, q.products[line.productId], billId)]
    ensures pr.movements == q.movements + [SaleMovement(tenant, line.productId, line.quantity, billId, now)]
  {
  }

  /** A successful loop changes only stock, and each product's stock by
      exactly the units its lines sold. */
  lemma {:induction false} SellLinesProducts(pr0: Progress, tenant: TenantId, billId: BillId, now: int,
                                             lines: seq<LineRequest>, pr: Progress)
    requires SellLines(pr0, tenant, billId, now, lines) == Ok(pr)
    ensures pr.products.Keys == pr0.products.Keys
    ensures forall p :: p in pr0.products ==>
      pr.products[p] == pr0.products[p].(currentStock := pr0.products[p].currentStock - QtyFor(lines, p))
    decreases |lines|
  {
    if lines != [] {
      var n := |lines| - 1;
      var init := lines[..n];
      var q := SellLines(pr0, tenant, billId, now, init).value;
      SellLinesProducts(pr0, tenant, billId, now, init, q);
      SellLineStep(q, tenant, billId, now, lines[n], pr);
    }
  }

  /** A successful loop keeps the product ids. */
  lemma SellLinesKeys(pr0: Progress, tenant: TenantId, billId: BillId, now: int, lines: seq<LineRequest>, pr: Progress)
    requires SellLines(pr0, tenant, billId, now, lines) == Ok(pr)
    ensures pr.products.Keys == pr0.products.Keys
  {
    SellLinesProducts(pr0, tenant, billId, now, lines, pr);
  }

  /** Every line of a successful loop names a product of the tenant and a
      positive quantity. */
  lemma {:induction false} SellLinesLinesValid(pr0: Progress, tenant: TenantId, billId: BillId, now: int,
                                               lines: seq<LineRequest>, pr: Progress)
    requires SellLines(pr0, tenant, billId, now, lines) == Ok(pr)
    ensures forall i :: 0 <= i < |lines| ==>
      ProductInTenant(pr0.products, lines[i].productId, tenant) && lines[i].quantity > 0
    decreases |lines|
  {
    if lines != [] {
      var n := |lines| - 1;
      var init := lines[..n];
      var q := SellLines(pr0, tenant, billId, now, init).value;
      SellLinesLinesValid(pr0, tenant, billId, now, init, q);
      SellLinesProducts(pr0, tenant, billId, now, init, q);
      SellLineStep(q, tenant, billId, now, lines[n], pr);
      assert forall i :: 0 <= i < n ==> lines[i] == init[i];
    }
  }

  /** The bill line depends on the product only through its price. */
  lemma LineItemIgnoresStock(line: LineRequest, p: Product, p2: Product, billId: BillId)
    requires line.productId >= 0 && p.sellingPrice == p2.sellingPrice
    ensures LineItem(line, p, billId) == LineItem(line, p2, billId)
  {
  }

  /** A successful loop appends one bill line per request line, in order,
      priced from the product as it was before the call. */
  lemma {:induction false} SellLinesItems(pr0: Progress, tenant: TenantId, billId: BillId, now: int,
                                          lines: seq<LineRequest>, pr: Progress)
    requires SellLines(pr0, tenant, billId, now, lines) == Ok(pr)
    ensures |pr.items| == |pr0.items| + |lines| && pr.items[..|pr0.items|] == pr0.items
    ensures forall i :: 0 <= i < |lines| ==>
      lines[i].productId >= 0 && lines[i].productId in pr0.products &&
      pr.items[|pr0.items| + i] == LineItem(lines[i], pr0.products[lines[i].productId], billId)
    decreases |lines|
  {
    if lines != [] {
      var n := |lines| - 1;
      var init := lines[..n];
      var q := SellLines(pr0, tenant, billId, now, init).value;
      SellLinesItems(pr0, tenant, billId, now, init, q);
      SellLinesProducts(pr0, tenant, billId, now, init, q);
      SellLineStep(q, tenant, billId, now, lines[n], pr);
      var pid := lines[n].productId;
      LineItemIgnoresStock(lines[n], q.products[pid], pr0.products[pid], billId);
      assert pr.items[..|pr0.items|] == q.items[..|pr0.items|];
      forall i | 0 <= i < |lines|
        ensures lines[i].productId >= 0 && lines[i].productId in pr0.products &&
          pr.items[|pr0.items| + i] == LineItem(lines[i], pr0.products[lines[i].productId], billId)
      {
        if i < n {
          assert lines[i] == init[i] && pr.items[|pr0.items| + i] == q.items[|pr0.items| + i];
        }
      }
    }
  }

  /** A successful loop appends one SALE movement per request line, in
      order, carrying the line's product and quantity. */
  lemma {:induction false} SellLinesMovements(pr0: Progress, tenant: TenantId, billId: BillId, now: int,
                                              lines: seq<LineRequest>, pr: Progress)
    requires SellLines(pr0, tenant, billId, now, lines) == Ok(pr)
    ensures |pr.movements| == |pr0.movements| + |lines| && pr.movements[..|pr0.movements|] == pr0.movements
    ensures forall i :: 0 <= i < |lines| ==>
      lines[i].productId >= 0
      && pr.movements[|pr0.movements| + i] == SaleMovement(tenant, lines[i].productId, lines[i].quantity, billId, now)
    decreases |lines|
  {
    if lines != [] {
      var n := |lines| - 1;
      var init := lines[..n];
      var q := SellLines(pr0, tenant, billId, now, init).value;
      SellLinesMovements(pr0, tenant, billId, now, init, q);
      SellLineStep(q, tenant, billId, now, lines[n], pr);
      assert forall i :: 0 <= i < n ==> lines[i] == init[i] && pr.movements[|pr0.movements| + i] == q.movements[|pr0.movements| + i];
      assert pr.movements[..|pr0.movements|] == q.movements[..|pr0.movements|];
    }
  }

  /** The loop succeeds exactly when every line fits: products of the
      tenant, positive quantities, and for every product repeated across
      lines enough stock for all of them together. */
  lemma {:induction false} SellLinesSucceedsIff(pr0: Progress, tenant: TenantId, billId: BillId, now: int,
                                                lines: seq<LineRequest>)
    ensures SellLines(pr0, tenant, billId, now, lines).Ok?
      <==> forall i :: 0 <= i < |lines| ==> LineFits(pr0.products, tenant, lines, i)
    decreases |lines|
  {
    if lines != [] {
      var n := |lines| - 1;
      var init := lines[..n];
      SellLinesSucceedsIff(pr0, tenant, billId, now, init);
      LineFitsInPrefix(pr0.products, tenant, lines);
      match SellLines(pr0, tenant, billId, now, init)
      case Err(_) =>
        var i :| 0 <= i < n && !LineFits(pr0.products, tenant, init, i);
        assert !LineFits(pr0.products, tenant, lines, i);
      case Ok(q) =>
        LastLineFits(pr0, tenant, billId, now, lines, q);
    }
  }

  /** Whether an earlier line fits does not depend on the lines after it. */
  lemma LineFitsInPrefix(products: map<ProductId, Product>, tenant: TenantId, lines: seq<LineRequest>)
    requires lines != []
    ensures forall i :: 0 <= i < |lines| - 1 ==>
      (LineFits(products, tenant, lines, i) <==> LineFits(products, tenant, lines[..|lines| - 1], i))
  {
    var init := lines[..|lines| - 1];
    forall i | 0 <= i < |lines| - 1
      ensures LineFits(products, tenant, lines, i) <==> LineFits(products, tenant, init, i)
    {
      assert lines[..i + 1] == init[..i + 1] && lines[i] == init[i];
    }
  }

  /** After the earlier lines went through, the last one goes through
      exactly when it fits. */
  lemma LastLineFits(pr0: Progress, tenant: TenantId, billId: BillId, now: int, lines: seq<LineRequest>, q: Progress)
    requires lines != [] && SellLines(pr0, tenant, billId, now, lines[..|lines| - 1]) == Ok(q)
    ensures SellLines(pr0, tenant, billId, now, lines) == SellLine(q, tenant, billId, now, lines[|lines| - 1])
    ensures LineFits(pr0.products, tenant, lines, |lines| - 1) <==> SellLine(q, tenant, billId, now, lines[|lines| - 1]).Ok?
  {
    var n := |lines| - 1;
    var init := lines[..n];
    var last := lines[n];
    SellLinesProducts(pr0, tenant, billId, now, init, q);
    assert lines[..n + 1] == lines;
    if ProductInTenant(pr0.products, last.productId, tenant) {
      var pid := last.productId as nat;
      assert QtyFor(lines, pid) == QtyFor(init, pid) + last.quantity;
      assert q.products[pid].currentStock == pr0.products[pid].currentStock - QtyFor(init, pid);
    } else {
      assert !ProductInTenant(q.products, last.productId, tenant);
    }
  }

  /** An error raised by line `i` ends the loop with that error. */
  lemma {:induction false} SellLinesErrorSticks(pr0: Progress, tenant: TenantId, billId: BillId, now: int,
                                                lines: seq<LineRequest>, i: nat)
    requires i < |lines|
    requires SellLines(pr0, tenant, billId, now, lines[..i + 1]).Err?
    ensures SellLines(pr0, tenant, billId, now, lines) == SellLines(pr0, tenant, billId, now, lines[..i + 1])
    decreases |lines|
  {
    if |lines| == i + 1 {
      assert lines[..i + 1] == lines;
    } else {
      var init := lines[..|lines| - 1];
      assert init[..i + 1] == lines[..i + 1];
      SellLinesErrorSticks(pr0, tenant, billId, now, init, i);
    }
  }

  /** The error reported is the one of the first line that does not fit. */
  lemma SellLinesFirstFailure(pr0: Progress, tenant: TenantId, billId: BillId, now: int,
                              lines: seq<LineRequest>, k: nat)
    requires k < |lines|
    requires forall i :: 0 <= i < k ==> LineFits(pr0.products, tenant, lines, i)
    requires !LineFits(pr0.products, tenant, lines, k)
    ensures SellLines(pr0, tenant, billId, now, lines) == Err(LineError(pr0.products, tenant, lines, k))
  {
    var pre := lines[..k];
    forall i | 0 <= i < k
      ensures LineFits(pr0.products, tenant, pre, i)
    {
      assert LineFits(pr0.products, tenant, lines, i);
      assert lines[..i + 1] == pre[..i + 1] && lines[i] == pre[i];
    }
    SellLinesSucceedsIff(pr0, tenant, billId, now, pre);
    var q := SellLines(pr0, tenant, billId, now, pre).value;
    SellLinesProducts(pr0, tenant, billId, now, pre, q);
    assert lines[..k + 1][..k] == pre;
    var line := lines[k];
    if line.productId >= 0 && line.productId in pr0.products {
      var pid := line.productId as nat;
      assert QtyFor(lines[..k + 1], pid) == QtyFor(pre, pid) + line.quantity;
    }
    assert SellLines(pr0, tenant, billId, now, lines[..k + 1]) == SellLine(q, tenant, billId, now, line);
    SellLinesErrorSticks(pr0, tenant, billId, now, lines, k);
  }

  /** Selling never drives a stock negative: every product either keeps
      its row or ends with non-negative stock. */
  lemma {:induction false} SellLinesStockNonNegative(pr0: Progress, tenant: TenantId, billId: BillId, now: int,
                                                     lines: seq<LineRequest>, pr: Progress)
    requires SellLines(pr0, tenant, billId, now, lines) == Ok(pr)
    ensures forall p :: p in pr0.products ==> p in pr.products
    ensures forall p :: p in pr0.products ==> pr.products[p] == pr0.products[p] || pr.products[p].currentStock >= 0
    decreases |lines|
  {
    if lines != [] {
      var init := lines[..|lines| - 1];
      var q := SellLines(pr0, tenant, billId, now, init).value;
      SellLinesStockNonNegative(pr0, tenant, billId, now, init, q);
    }
  }

  /** Every stock change the loop makes is recorded in the ledger: the
      drift of every product is what it was. */
  lemma {:induction false} SellLinesKeepsLedger(pr0: Progress, tenant: TenantId, billId: BillId, now: int,
                                                lines: seq<LineRequest>, pr: Progress)
    requires SellLines(pr0, tenant, billId, now, lines) == Ok(pr)
    ensures pr0.products.Keys <= pr.products.Keys
    ensures forall p :: p in pr0.products ==> Drift(pr.products, pr.movements, p) == Drift(pr0.products, pr0.movements, p)
    decreases |lines|
  {
    if lines != [] {
      var init := lines[..|lines| - 1];
      var last := lines[|lines| - 1];
      var q := SellLines(pr0, tenant, billId, now, init).value;
      SellLinesKeepsLedger(pr0, tenant, billId, now, init, q);
      var pid := last.productId as nat;
      forall p | p in pr0.products
        ensures Drift(pr.products, pr.movements, p) == Drift(pr0.products, pr0.movements, p)
      {
        NetMovementAppend(q.movements, SaleMovement(tenant, pid, last.quantity, billId, now), p);
      }
    }
  }

  // ---------------------------------------------------------------------
  // The transaction.

  /** The balance after the sale: raised by the grand total for a credit
      sale to a given customer, else unchanged. */
  function CreditSale(customers: map<CustomerId, Customer>, customer: Option<CustomerId>,
                      paymentType: Option<string>, grandTotal: real): (r: map<CustomerId, Customer>)
    ensures r.Keys == customers.Keys
    ensures forall c :: c in customers && (customer != Some(c) || !IsCreditSale(paymentType)) ==> r[c] == customers[c]
    ensures customer.Some? && customer.value in customers && IsCreditSale(paymentType) ==>
      r[customer.value] == customers[customer.value].(spendingBalance := customers[customer.value].spendingBalance + grandTotal)
  {
    if customer.Some? && customer.value in customers && IsCreditSale(paymentType) then
      var c := customers[customer.value];
      customers[customer.value := c.(spendingBalance := c.spendingBalance + grandTotal)]
    else customers
  }

  lemma CreditSaleApplies(customers: map<CustomerId, Customer>, c: CustomerId, paymentType: Option<string>, grandTotal: real)
    requires c in customers && IsCreditSale(paymentType)
    ensures CreditSale(customers, Some(c), paymentType, grandTotal)
      == customers[c := customers[c].(spendingBalance := customers[c].spendingBalance + grandTotal)]
  {
  }

  /** The customer written on the bill. */
  function BillCustomer(req: BillRequest): Option<CustomerId> {
    if CustomerGiven(req) && req.customerId.value >= 0 then Some(req.customerId.value as nat) else None
  }

  /** `create_bill(tenant, staff, payload)` at time `now`: the tables
      after the committed transaction, or the error that rolled it back. */
  function CreateBillSpec(t: Tables, tenant: Option<TenantId>, staff: Option<StaffId>, req: BillRequest, now: int)
    : Result<Tables, BillError>
  {
    if req.items == [] then Err(EmptyItems)
    else if CustomerGiven(req) && !CustomerInTenant(t.customers, req.customerId.value, tenant) then
      Err(CustomerNotFound(req.customerId.value))
    else if tenant.None? then Err(TenantRequired)
    else
      match SellLines(Start(t), tenant.value, t.nextBillId, now, req.items)
      case Err(e) => Err(e)
      case Ok(pr) => Ok(Committed(t, tenant.value, BillCustomer(req), staff, req, now, pr))
  }

  /** The bill of a committed call: the skeleton with its totals
      recalculated from the lines written for it. */
  function NewBill(t: Tables, tenant: TenantId, customer: Option<CustomerId>, staff: Option<StaffId>,
                   req: BillRequest, now: int, pr: Progress): Bill
  {
    var skeleton := BillSkeleton(tenant, customer, staff, now, req.billDiscount.GetOr(0.0), req.paymentType);
    Recalculated(skeleton, ItemsOf(pr.items, t.nextBillId), pr.products)
  }

  /** The tables after a committed call whose line loop ended in `pr`. */
  function Committed(t: Tables, tenant: TenantId, customer: Option<CustomerId>, staff: Option<StaffId>,
                     req: BillRequest, now: int, pr: Progress): Tables
  {
    var bill := NewBill(t, tenant, customer, staff, req, now, pr);
    t.(products := pr.products, movements := pr.movements, billItems := pr.items,
       bills := t.bills[t.nextBillId := bill], nextBillId := t.nextBillId + 1,
       customers := CreditSale(t.customers, customer, req.paymentType, bill.grandTotal))
  }

  lemma CommittedTables(t: Tables, tenant: TenantId, customer: Option<CustomerId>, staff: Option<StaffId>,
                        req: BillRequest, now: int, pr: Progress)
    ensures Committed(t, tenant, customer, staff, req, now, pr)
      == Tables(t.categories, pr.products, pr.movements,
                CreditSale(t.customers, customer, req.paymentType, NewBill(t, tenant, customer, staff, req, now, pr).grandTotal),
                t.bills[t.nextBillId := NewBill(t, tenant, customer, staff, req, now, pr)], pr.items, t.payments,
                t.nextCategoryId, t.nextProductId, t.nextCustomerId, t.nextBillId + 1)
  {
  }

  /** The progress the loop starts from. */
  function Start(t: Tables): Progress {
    Progress(t.products, t.billItems, t.movements)
  }

  /** The line loop of `create_bill` over the tables of `db`, where
      `snapshot` is the state the atomic block began in and the loop
      started from the same products, lines and movements. On an error
      every table is put back to `snapshot`. */
  method SellItems(db: Database, snapshot: Tables, t: TenantId, billId: BillId, now: int, items: seq<LineRequest>)
    returns (err: Option<BillError>)
    requires db.products == snapshot.products && db.billItems == snapshot.billItems
    requires db.movements == snapshot.movements
    modifies db
    ensures err.None? ==>
      && SellLines(Start(snapshot), t, billId, now, items) == Ok(Progress(db.products, db.billItems, db.movements))
      && db.State() == old(db.State()).(products := db.products, billItems := db.billItems, movements := db.movements)
    ensures err.Some? ==>
      SellLines(Start(snapshot), t, billId, now, items) == Err(err.value) && db.State() == snapshot
  {
    var i := 0;
    while i < |items|
      invariant 0 <= i <= |items|
      invariant SellLines(Start(snapshot), t, billId, now, items[..i]) == Ok(Progress(db.products, db.billItems, db.movements))
      invariant db.State() == old(db.State()).(products := db.products, billItems := db.billItems, movements := db.movements)
    {
      var line := items[i];
      ghost var cur := Progress(db.products, db.billItems, db.movements);
      SellLinesNext(Start(snapshot), t, billId, now, items, i, cur);
      var pid := line.productId;
      if !(pid >= 0 && pid in db.products && db.products[pid].tenant == t) {
        SellLinesErrorSticks(Start(snapshot), t, billId, now, items, i);
        db.Restore(snapshot);
        return Some(ProductNotFound(pid));
      }
      var product := db.products[pid];
      if line.quantity <= 0 {
        SellLinesErrorSticks(Start(snapshot), t, billId, now, items, i);
        db.Restore(snapshot);
        return Some(NonPositiveQuantity(pid));
      }
      if product.currentStock < line.quantity {
        SellLinesErrorSticks(Start(snapshot), t, billId, now, items, i);
        db.Restore(snapshot);
        return Some(InsufficientStock(pid));
      }
      WriteLine(db, t, billId, now, line, product);
      i := i + 1;
    }
    assert items[..i] == items;
    return None;
  }

  /** The next line of the loop continues the fold from where it stands. */
  lemma SellLinesNext(pr0: Progress, tenant: TenantId, billId: BillId, now: int, lines: seq<LineRequest>, i: nat,
                      cur: Progress)
    requires i < |lines| && SellLines(pr0, tenant, billId, now, lines[..i]) == Ok(cur)
    ensures SellLines(pr0, tenant, billId, now, lines[..i + 1]) == SellLine(cur, tenant, billId, now, lines[i])
  {
    assert lines[..i + 1][..i] == lines[..i];
  }

  /** The writes for one line that passed its checks: the bill line, the
      lowered stock and the SALE movement. */
  method WriteLine(db: Database, t: TenantId, billId: BillId, now: int, line: LineRequest, product: Product)
    requires line.productId >= 0 && line.productId in db.products && db.products[line.productId] == product
    modifies db
    ensures db.State() == old(db.State()).(
      billItems := old(db.billItems) + [LineItem(line, product, billId)],
      products := old(db.products)[line.productId := product.(currentStock := product.currentStock - line.quantity)],
      movements := old(db.movements) + [SaleMovement(t, line.productId, line.quantity, billId, now)])
  {
    var pid := line.productId as nat;
    var qty := line.quantity;
    var price := if line.price.Some? then line.price.value else product.sellingPrice;
    var discount := if line.discount.Some? then line.discount.value else 0.0;
    db.billItems := db.billItems + [BillItem(billId, pid, qty, price, discount, (price - discount) * qty as real)];
    db.products := db.products[pid := product.(currentStock := product.currentStock - qty)];
    db.movements := db.movements + [StockMovement(t, pid, Sale, qty, Some("Bill"), Some(SaleReason(billId)), now)];
    assert LineItem(line, product, billId) == BillItem(billId, pid, qty, price, discount, (price - discount) * qty as real);
  }

  /** `create_bill`. The bill skeleton, the lines, the stock and the
      movements are written as the loop goes; an error raised anywhere in
      the atomic block puts every table back as it was. */
  method CreateBill(db: Database, tenant: Option<TenantId>, staff: Option<StaffId>, req: BillRequest, now: int)
    returns (r: Result<BillId, BillError>)
    modifies db
    ensures CreateBillSpec(old(db.State()), tenant, staff, req, now).Ok? ==>
      r == Ok(old(db.nextBillId)) && db.State() == CreateBillSpec(old(db.State()), tenant, staff, req, now).value
    ensures CreateBillSpec(old(db.State()), tenant, staff, req, now).Err? ==>
      r == Err(CreateBillSpec(old(db.State()), tenant, staff, req, now).error) && db.State() == old(db.State())
  {
    if req.items == [] {
      return Err(EmptyItems);
    }
    var snapshot := db.State();
    ghost var spec := CreateBillSpec(snapshot, tenant, staff, req, now);
    var customer: Option<CustomerId> := None;
    if CustomerGiven(req) {
      var cid := req.customerId.value;
      if !(cid >= 0 && cid in db.customers && Some(db.customers[cid].tenant) == tenant) {
        assert spec == Err(CustomerNotFound(cid));
        return Err(CustomerNotFound(cid));
      }
      customer := Some(cid as nat);
    }
    assert customer == BillCustomer(req);
    if tenant.None? {
      assert spec == Err(TenantRequired);
      return Err(TenantRequired);
    }
    var billId := db.nextBillId;
    var err := WriteBill(db, snapshot, tenant.value, customer, staff, req, now);
    if err.Some? {
      return Err(err.value);
    }
    return Ok(billId);
  }

  /** The writes of the atomic block once the customer is resolved and
      the tenant is known: the bill skeleton, the line loop, the totals and
      the balance. On an error of the line loop every table is back at
      `snapshot`. */
  method WriteBill(db: Database, snapshot: Tables, tenant: TenantId, customer: Option<CustomerId>,
                   staff: Option<StaffId>, req: BillRequest, now: int)
    returns (err: Option<BillError>)
    requires db.State() == snapshot
    requires customer.Some? ==> customer.value in db.customers
    modifies db
    ensures SellLines(Start(snapshot), tenant, snapshot.nextBillId, now, req.items).Err? ==>
      err == Some(SellLines(Start(snapshot), tenant, snapshot.nextBillId, now, req.items).error) && db.State() == snapshot
    ensures SellLines(Start(snapshot), tenant, snapshot.nextBillId, now, req.items).Ok? ==>
      err.None? && db.State() == Committed(snapshot, tenant, customer, staff, req, now,
                                           SellLines(Start(snapshot), tenant, snapshot.nextBillId, now, req.items).value)
  {
    var billId := db.nextBillId;
    var skeleton := BillSkeleton(tenant, customer, staff, now, req.billDiscount.GetOr(0.0), req.paymentType);
    db.bills := db.bills[billId := skeleton];
    db.nextBillId := billId + 1;
    err := SellItems(db, snapshot, tenant, billId, now, req.items);
    if err.Some? {
      return;
    }
    FinishBill(db, snapshot, tenant, customer, staff, req, now, Progress(db.products, db.billItems, db.movements));
  }

  /** The end of the atomic block: the totals of the new bill are
      recalculated and the credit sale is charged to the customer. */
  method FinishBill(db: Database, snapshot: Tables, tenant: TenantId, customer: Option<CustomerId>,
                    staff: Option<StaffId>, req: BillRequest, now: int, ghost pr: Progress)
    requires customer.Some? ==> customer.value in snapshot.customers
    requires db.State() == snapshot.(products := pr.products, billItems := pr.items, movements := pr.movements,
      bills := snapshot.bills[snapshot.nextBillId :=
        BillSkeleton(tenant, customer, staff, now, req.billDiscount.GetOr(0.0), req.paymentType)],
      nextBillId := snapshot.nextBillId + 1)
    modifies db
    ensures db.State() == Committed(snapshot, tenant, customer, staff, req, now, pr)
  {
    var billId := snapshot.nextBillId;
    ghost var s0 := db.State();
    RecalculateTotals(db, billId);
    ghost var s1 := db.State();
    UpdateBalance(db, customer, req.paymentType, db.bills[billId].grandTotal);
    FinishBillSteps(snapshot, tenant, customer, staff, req, now, pr, s0, s1, db.State());
  }

  /** The two writes of `FinishBill`, followed on the table values. */
  lemma FinishBillSteps(snapshot: Tables, tenant: TenantId, customer: Option<CustomerId>, staff: Option<StaffId>,
                        req: BillRequest, now: int, pr: Progress, s0: Tables, s1: Tables, s2: Tables)
    requires s0 == snapshot.(products := pr.products, billItems := pr.items, movements := pr.movements,
      bills := snapshot.bills[snapshot.nextBillId :=
        BillSkeleton(tenant, customer, staff, now, req.billDiscount.GetOr(0.0), req.paymentType)],
      nextBillId := snapshot.nextBillId + 1)
    requires s1 == s0.(bills := s0.bills[snapshot.nextBillId :=
      Recalculated(s0.bills[snapshot.nextBillId], ItemsOf(s0.billItems, snapshot.nextBillId), s0.products)])
    requires s2 == s1.(customers := CreditSale(s1.customers, customer, req.paymentType,
      s1.bills[snapshot.nextBillId].grandTotal))
    ensures s2 == Committed(snapshot, tenant, customer, staff, req, now, pr)
  {
    var bill := NewBill(snapshot, tenant, customer, staff, req, now, pr);
    assert s1.bills == snapshot.bills[snapshot.nextBillId := bill];
    CommittedTables(snapshot, tenant, customer, staff, req, now, pr);
  }

  /** The credit-sale step of `create_bill`: when a customer is given and
      the payment type is credit, that customer's `spending_balance` rises
      by `grandTotal`; no other row or field is written. */
  method UpdateBalance(db: Database, customer: Option<CustomerId>, paymentType: Option<string>, grandTotal: real)
    requires customer.Some? ==> customer.value in db.customers
    modifies db
    ensures db.State() == old(db.State()).(customers := CreditSale(old(db.customers), customer, paymentType, grandTotal))
  {
    if customer.Some? && IsCreditSale(paymentType) {
      var c := db.customers[customer.value];
      db.customers := db.customers[customer.value := c.(spendingBalance := c.spendingBalance + grandTotal)];
    }
  }

  /** `bill.recalculate_totals(); bill.save()`: only the three totals of
      bill `b` are rewritten, from the lines stored for it. */
  method RecalculateTotals(db: Database, b: BillId)
    requires b in db.bills
    modifies db
    ensures db.State() == old(db.State()).(bills := old(db.bills)[b := Recalculated(old(db.bills)[b], ItemsOf(old(db.billItems), b), old(db.products))])
  {
    var bill := db.bills[b];
    var items := ItemsOf(db.billItems, b);
    db.bills := db.bills[b := Recalculated(bill, items, db.products)];
  }

  // ---------------------------------------------------------------------
  // What a call promises.

  /** Unpacking a committed call. */
  lemma CreateBillCommitted(t: Tables, tenant: Option<TenantId>, staff: Option<StaffId>, req: BillRequest, now: int,
                            t2: Tables)
    requires CreateBillSpec(t, tenant, staff, req, now) == Ok(t2)
    ensures req.items != [] && tenant.Some?
    ensures CustomerGiven(req) ==> CustomerInTenant(t.customers, req.customerId.value, tenant)
    ensures SellLines(Start(t), tenant.value, t.nextBillId, now, req.items).Ok?
    ensures t2 == Committed(t, tenant.value, BillCustomer(req), staff, req, now,
                            SellLines(Start(t), tenant.value, t.nextBillId, now, req.items).value)
  {
  }

  /** A call is rejected, in this order, for an empty bill, a customer id
      that names no customer of the tenant, and a missing tenant; only then
      are the lines looked at. */
  lemma CreateBillRejections(t: Tables, tenant: Option<TenantId>, staff: Option<StaffId>, req: BillRequest, now: int)
    ensures req.items == [] ==> CreateBillSpec(t, tenant, staff, req, now) == Err(EmptyItems)
    ensures req.items != [] && CustomerGiven(req) && !CustomerInTenant(t.customers, req.customerId.value, tenant) ==>
      CreateBillSpec(t, tenant, staff, req, now) == Err(CustomerNotFound(req.customerId.value))
    ensures req.items != [] && !CustomerGiven(req) && tenant.None? ==>
      CreateBillSpec(t, tenant, staff, req, now) == Err(TenantRequired)
    ensures tenant.None? && CustomerGiven(req) ==> CreateBillSpec(t, tenant, staff, req, now).Err?
  {
  }

  /** A call commits exactly when the bill has lines, the customer (if
      any) belongs to the tenant, there is a tenant, and every line fits:
      its product is the tenant's, its quantity is positive and the stock
      covers it together with the earlier lines for the same product. */
  lemma CreateBillSucceedsIff(t: Tables, tenant: Option<TenantId>, staff: Option<StaffId>, req: BillRequest, now: int)
    ensures CreateBillSpec(t, tenant, staff, req, now).Ok? <==>
      && req.items != []
      && (CustomerGiven(req) ==> CustomerInTenant(t.customers, req.customerId.value, tenant))
      && tenant.Some?
      && forall i :: 0 <= i < |req.items| ==> LineFits(t.products, tenant.value, req.items, i)
  {
    if tenant.Some? {
      SellLinesSucceedsIff(Start(t), tenant.value, t.nextBillId, now, req.items);
    }
  }

  /** When the checks before the loop pass, the error is that of the
      first line that does not fit. */
  lemma CreateBillFirstFailingLine(t: Tables, tenant: TenantId, staff: Option<StaffId>, req: BillRequest, now: int,
                                   k: nat)
    requires CustomerGiven(req) ==> CustomerInTenant(t.customers, req.customerId.value, Some(tenant))
    requires k < |req.items|
    requires forall i :: 0 <= i < k ==> LineFits(t.products, tenant, req.items, i)
    requires !LineFits(t.products, tenant, req.items, k)
    ensures CreateBillSpec(t, Some(tenant), staff, req, now) == Err(LineError(t.products, tenant, req.items, k))
  {
    SellLinesFirstFailure(Start(t), tenant, t.nextBillId, now, req.items, k);
  }

  /** On commit, one bill line per request line is appended, in order,
      priced from the product row as it was before the call. */
  lemma CreateBillLines(t: Tables, tenant: Option<TenantId>, staff: Option<StaffId>, req: BillRequest, now: int,
                        t2: Tables)
    requires CreateBillSpec(t, tenant, staff, req, now) == Ok(t2)
    ensures |t2.billItems| == |t.billItems| + |req.items| && t2.billItems[..|t.billItems|] == t.billItems
    ensures forall i :: 0 <= i < |req.items| ==>
      req.items[i].productId >= 0 && req.items[i].productId in t.products &&
      t2.billItems[|t.billItems| + i] == LineItem(req.items[i], t.products[req.items[i].productId], t.nextBillId)
  {
    CreateBillCommitted(t, tenant, staff, req, now, t2);
    var pr := SellLines(Start(t), tenant.value, t.nextBillId, now, req.items).value;
    SellLinesItems(Start(t), tenant.value, t.nextBillId, now, req.items, pr);
  }

  /** On commit, each product's stock falls by exactly the units sold of
      it and nothing else of any product changes. */
  lemma CreateBillStock(t: Tables, tenant: Option<TenantId>, staff: Option<StaffId>, req: BillRequest, now: int,
                        t2: Tables)
    requires CreateBillSpec(t, tenant, staff, req, now) == Ok(t2)
    ensures t2.products.Keys == t.products.Keys
    ensures forall p :: p in t.products ==>
      t2.products[p] == t.products[p].(currentStock := t.products[p].currentStock - QtyFor(req.items, p))
  {
    CreateBillCommitted(t, tenant, staff, req, now, t2);
    var pr := SellLines(Start(t), tenant.value, t.nextBillId, now, req.items).value;
    SellLinesProducts(Start(t), tenant.value, t.nextBillId, now, req.items, pr);
  }

  /** On commit, one SALE movement per line is appended, in order, with
      the line's product and quantity, reference "Bill" and the reason
      naming the new bill. */
  lemma CreateBillMovements(t: Tables, tenant: Option<TenantId>, staff: Option<StaffId>, req: BillRequest, now: int,
                            t2: Tables)
    requires CreateBillSpec(t, tenant, staff, req, now) == Ok(t2)
    ensures |t2.movements| == |t.movements| + |req.items| && t2.movements[..|t.movements|] == t.movements
    ensures forall i :: 0 <= i < |req.items| ==>
      req.items[i].productId >= 0
      && t2.movements[|t.movements| + i]
         == StockMovement(tenant.value, req.items[i].productId, Sale, req.items[i].quantity,
                          Some("Bill"), Some("Sale - Bill " + NatToString(t.nextBillId)), now)
  {
    CreateBillCommitted(t, tenant, staff, req, now, t2);
    var pr := SellLines(Start(t), tenant.value, t.nextBillId, now, req.items).value;
    SellLinesMovements(Start(t), tenant.value, t.nextBillId, now, req.items, pr);
  }

  /** On commit, the new bill takes the next id, belongs to the tenant,
      and its totals are those of the lines appended for it: the item
      total is their subtotal sum, the GST total their tax sum and the
      grand total the two less the bill discount (0 when absent). */
  lemma CreateBillTotals(t: Tables, tenant: Option<TenantId>, staff: Option<StaffId>, req: BillRequest, now: int,
                         t2: Tables)
    requires WellFormed(t)
    requires CreateBillSpec(t, tenant, staff, req, now) == Ok(t2)
    ensures t.nextBillId !in t.bills && t2.bills == t.bills[t.nextBillId := t2.bills[t.nextBillId]]
    ensures t2.nextBillId == t.nextBillId + 1
    ensures |t.billItems| <= |t2.billItems|
    ensures ItemsOf(t2.billItems, t.nextBillId) == t2.billItems[|t.billItems|..]
    ensures t2.bills[t.nextBillId].tenant == tenant.value && t2.bills[t.nextBillId].customer == BillCustomer(req)
    ensures t2.bills[t.nextBillId].itemTotal == SubtotalSum(t2.billItems[|t.billItems|..])
    ensures t2.bills[t.nextBillId].gstTotal == GstSum(t2.billItems[|t.billItems|..], t2.products)
    ensures t2.bills[t.nextBillId].grandTotal
      == t2.bills[t.nextBillId].itemTotal + t2.bills[t.nextBillId].gstTotal - req.billDiscount.GetOr(0.0)
  {
    CreateBillCommitted(t, tenant, staff, req, now, t2);
    var pr := SellLines(Start(t), tenant.value, t.nextBillId, now, req.items).value;
    CommittedTables(t, tenant.value, BillCustomer(req), staff, req, now, pr);
    NewBillLines(t, tenant.value, now, req.items, pr);
  }

  /** The lines of the new bill are exactly those the call appended: no
      earlier line can be on a bill that did not exist yet. */
  lemma NewBillLines(t: Tables, tenant: TenantId, now: int, lines: seq<LineRequest>, pr: Progress)
    requires WellFormed(t)
    requires SellLines(Start(t), tenant, t.nextBillId, now, lines) == Ok(pr)
    ensures |t.billItems| <= |pr.items|
    ensures ItemsOf(pr.items, t.nextBillId) == pr.items[|t.billItems|..]
  {
    var billId := t.nextBillId;
    NoLineOnNextBill(t);
    AddedLinesOnBill(Start(t), tenant, billId, now, lines, pr);
    ItemsOfSplit(t.billItems, pr.items[|t.billItems|..], billId);
  }

  /** No stored line is on the bill about to be created. */
  lemma NoLineOnNextBill(t: Tables)
    requires WellFormed(t)
    ensures forall i :: 0 <= i < |t.billItems| ==> t.billItems[i].bill != t.nextBillId
  {
    forall i | 0 <= i < |t.billItems| ensures t.billItems[i].bill != t.nextBillId {
      assert t.billItems[i].bill in t.bills;
    }
  }

  /** The lines a successful loop appends are all on its bill. */
  lemma AddedLinesOnBill(pr0: Progress, tenant: TenantId, billId: BillId, now: int, lines: seq<LineRequest>,
                         pr: Progress)
    requires SellLines(pr0, tenant, billId, now, lines) == Ok(pr)
    ensures |pr0.items| <= |pr.items| && pr.items == pr0.items + pr.items[|pr0.items|..]
    ensures forall i :: 0 <= i < |pr.items| - |pr0.items| ==> pr.items[|pr0.items|..][i].bill == billId
  {
    SellLinesItems(pr0, tenant, billId, now, lines, pr);
    var added := pr.items[|pr0.items|..];
    assert pr.items == pr.items[..|pr0.items|] + added;
    forall i | 0 <= i < |added| ensures added[i].bill == billId {
      assert added[i] == pr.items[|pr0.items| + i];
      assert pr.items[|pr0.items| + i] == LineItem(lines[i], pr0.products[lines[i].productId], billId);
    }
  }

  /** On commit, only the bill's customer's balance can change: it rises
      by the grand total on a credit sale and is otherwise unchanged. */
  lemma CreateBillBalance(t: Tables, tenant: Option<TenantId>, staff: Option<StaffId>, req: BillRequest, now: int,
                          t2: Tables)
    requires CreateBillSpec(t, tenant, staff, req, now) == Ok(t2)
    ensures t2.customers.Keys == t.customers.Keys
    ensures forall c :: c in t.customers ==>
      t2.customers[c] == if BillCustomer(req) == Some(c) && IsCreditSale(req.paymentType) then
        t.customers[c].(spendingBalance := t.customers[c].spendingBalance + t2.bills[t.nextBillId].grandTotal)
      else t.customers[c]
  {
    CreateBillCommitted(t, tenant, staff, req, now, t2);
  }

  /** On commit every product either keeps its row or ends with
      non-negative stock, whatever stock it started with. */
  lemma CreateBillStockNonNegative(t: Tables, tenant: Option<TenantId>, staff: Option<StaffId>, req: BillRequest,
                                   now: int, t2: Tables)
    requires CreateBillSpec(t, tenant, staff, req, now) == Ok(t2)
    ensures forall p :: p in t.products ==> p in t2.products && (t2.products[p] == t.products[p] || t2.products[p].currentStock >= 0)
  {
    CreateBillCommitted(t, tenant, staff, req, now, t2);
    var pr := SellLines(Start(t), tenant.value, t.nextBillId, now, req.items).value;
    SellLinesStockNonNegative(Start(t), tenant.value, t.nextBillId, now, req.items, pr);
  }

  /** Every stock change of a committed call is recorded in the ledger. */
  lemma CreateBillKeepsLedger(t: Tables, tenant: Option<TenantId>, staff: Option<StaffId>, req: BillRequest, now: int,
                              t2: Tables)
    requires CreateBillSpec(t, tenant, staff, req, now) == Ok(t2)
    ensures forall p :: p in t.products ==>
      p in t2.products && Drift(t2.products, t2.movements, p) == Drift(t.products, t.movements, p)
  {
    CreateBillCommitted(t, tenant, staff, req, now, t2);
    var pr := SellLines(Start(t), tenant.value, t.nextBillId, now, req.items).value;
    SellLinesKeepsLedger(Start(t), tenant.value, t.nextBillId, now, req.items, pr);
  }

  lemma {:induction false} QtyForUnnamed(lines: seq<LineRequest>, p: int)
    requires forall i :: 0 <= i < |lines| ==> lines[i].productId != p
    ensures QtyFor(lines, p) == 0
    decreases |lines|
  {
    if lines != [] {
      QtyForUnnamed(lines[..|lines| - 1], p);
    }
  }

  /** A committed call touches no product and no customer of another
      tenant. */
  lemma CreateBillTenantIsolation(t: Tables, tenant: Option<TenantId>, staff: Option<StaffId>, req: BillRequest,
                                  now: int, t2: Tables)
    requires CreateBillSpec(t, tenant, staff, req, now) == Ok(t2)
    ensures forall p :: p in t.products && Some(t.products[p].tenant) != tenant ==> p in t2.products && t2.products[p] == t.products[p]
    ensures forall c :: c in t.customers && Some(t.customers[c].tenant) != tenant ==> c in t2.customers && t2.customers[c] == t.customers[c]
  {
    CreateBillCommitted(t, tenant, staff, req, now, t2);
    var pr := SellLines(Start(t), tenant.value, t.nextBillId, now, req.items).value;
    SellLinesLinesValid(Start(t), tenant.value, t.nextBillId, now, req.items, pr);
    CreateBillStock(t, tenant, staff, req, now, t2);
    forall p | p in t.products && Some(t.products[p].tenant) != tenant
      ensures t2.products[p] == t.products[p]
    {
      QtyForUnnamed(req.items, p);
    }
    CreateBillBalance(t, tenant, staff, req, now, t2);
  }

  /** The lines and movements of a committed call are well formed. */
  lemma CommittedRowsValid(t: Tables, tenant: TenantId, customer: Option<CustomerId>, staff: Option<StaffId>,
                           req: BillRequest, now: int, pr: Progress)
    requires WellFormed(t)
    requires SellLines(Start(t), tenant, t.nextBillId, now, req.items) == Ok(pr)
    ensures forall i :: 0 <= i < |pr.items| ==>
      pr.items[i].quantity >= 1 && (pr.items[i].bill in t.bills || pr.items[i].bill == t.nextBillId)
      && pr.items[i].product in pr.products
    ensures forall i :: 0 <= i < |pr.movements| ==> pr.movements[i].quantity >= 1 && pr.movements[i].product in pr.products
    ensures pr.products.Keys == t.products.Keys && SkusUnique(pr.products)
  {
    CommittedItemsValid(t, tenant, req, now, pr);
    CommittedMovementsValid(t, tenant, req, now, pr);
    SellLinesProducts(Start(t), tenant, t.nextBillId, now, req.items, pr);
    CommittedSkusUnique(t, tenant, t.nextBillId, now, req.items, pr);
  }

  lemma CommittedItemsValid(t: Tables, tenant: TenantId, req: BillRequest, now: int, pr: Progress)
    requires forall i :: 0 <= i < |t.billItems| ==>
      t.billItems[i].quantity >= 1 && t.billItems[i].bill in t.bills && t.billItems[i].product in t.products
    requires SellLines(Start(t), tenant, t.nextBillId, now, req.items) == Ok(pr)
    ensures forall i :: 0 <= i < |pr.items| ==>
      pr.items[i].quantity >= 1 && (pr.items[i].bill in t.bills || pr.items[i].bill == t.nextBillId)
      && pr.items[i].product in pr.products
  {
    var billId := t.nextBillId;
    SellLinesKeys(Start(t), tenant, billId, now, req.items, pr);
    SellLinesLinesValid(Start(t), tenant, billId, now, req.items, pr);
    SellLinesItems(Start(t), tenant, billId, now, req.items, pr);
    assert Start(t).items == t.billItems && Start(t).products == t.products;
    forall i | 0 <= i < |pr.items|
      ensures pr.items[i].quantity >= 1 && (pr.items[i].bill in t.bills || pr.items[i].bill == billId)
              && pr.items[i].product in pr.products
    {
      if i < |t.billItems| {
        assert pr.items[i] == t.billItems[i];
      } else {
        var j := i - |t.billItems|;
        assert pr.items[|Start(t).items| + j] == LineItem(req.items[j], t.products[req.items[j].productId], billId);
      }
    }
  }

  lemma CommittedMovementsValid(t: Tables, tenant: TenantId, req: BillRequest, now: int, pr: Progress)
    requires forall i :: 0 <= i < |t.movements| ==> t.movements[i].quantity >= 1 && t.movements[i].product in t.products
    requires SellLines(Start(t), tenant, t.nextBillId, now, req.items) == Ok(pr)
    ensures forall i :: 0 <= i < |pr.movements| ==> pr.movements[i].quantity >= 1 && pr.movements[i].product in pr.products
  {
    var billId := t.nextBillId;
    SellLinesKeys(Start(t), tenant, billId, now, req.items, pr);
    SellLinesLinesValid(Start(t), tenant, billId, now, req.items, pr);
    SellLinesMovements(Start(t), tenant, billId, now, req.items, pr);
    assert Start(t).movements == t.movements && Start(t).products == t.products;
    forall i | 0 <= i < |pr.movements|
      ensures pr.movements[i].quantity >= 1 && pr.movements[i].product in pr.products
    {
      if i < |t.movements| {
        assert pr.movements[i] == t.movements[i];
      } else {
        var j := i - |t.movements|;
        assert pr.movements[|Start(t).movements| + j]
          == SaleMovement(tenant, req.items[j].productId, req.items[j].quantity, billId, now);
      }
    }
  }

  /** Selling keeps the SKU key, since only stock changes. */
  lemma CommittedSkusUnique(t: Tables, tenant: TenantId, billId: BillId, now: int, lines: seq<LineRequest>, pr: Progress)
    requires SkusUnique(t.products)
    requires SellLines(Start(t), tenant, billId, now, lines) == Ok(pr)
    ensures SkusUnique(pr.products)
  {
    SellLinesProducts(Start(t), tenant, billId, now, lines, pr);
    forall a, b | a in pr.products && b in pr.products && a != b
      ensures pr.products[a].tenant != pr.products[b].tenant || pr.products[a].sku != pr.products[b].sku
    {
      assert pr.products[a].tenant == t.products[a].tenant && pr.products[a].sku == t.products[a].sku;
      assert pr.products[b].tenant == t.products[b].tenant && pr.products[b].sku == t.products[b].sku;
    }
  }

  /** A committed call keeps the integrity of the tables. */
  lemma CreateBillWellFormed(t: Tables, tenant: Option<TenantId>, staff: Option<StaffId>, req: BillRequest, now: int,
                             t2: Tables)
    requires WellFormed(t)
    requires CreateBillSpec(t, tenant, staff, req, now) == Ok(t2)
    ensures WellFormed(t2)
  {
    CreateBillCommitted(t, tenant, staff, req, now, t2);
    var pr := SellLines(Start(t), tenant.value, t.nextBillId, now, req.items).value;
    CommittedWellFormed(t, tenant.value, BillCustomer(req), staff, req, now, pr);
  }

  lemma CommittedWellFormed(t: Tables, tenant: TenantId, customer: Option<CustomerId>, staff: Option<StaffId>,
                            req: BillRequest, now: int, pr: Progress)
    requires WellFormed(t)
    requires SellLines(Start(t), tenant, t.nextBillId, now, req.items) == Ok(pr)
    ensures WellFormed(Committed(t, tenant, customer, staff, req, now, pr))
  {
    var billId := t.nextBillId;
    var bill := NewBill(t, tenant, customer, staff, req, now, pr);
    var customers := CreditSale(t.customers, customer, req.paymentType, bill.grandTotal);
    CommittedRowsValid(t, tenant, customer, staff, req, now, pr);
    WrittenTablesWellFormed(t, pr, t.bills[billId := bill], customers, Committed(t, tenant, customer, staff, req, now, pr));
  }

  /** The integrity of the tables after the writes of a committed call,
      whatever the bill and the balances written. */
  lemma WrittenTablesWellFormed(t: Tables, pr: Progress, bills: map<BillId, Bill>, customers: map<CustomerId, Customer>,
                                t2: Tables)
    requires t2 == t.(products := pr.products, movements := pr.movements, billItems := pr.items,
                      bills := bills, nextBillId := t.nextBillId + 1, customers := customers)
    requires WellFormed(t)
    requires bills.Keys == t.bills.Keys + {t.nextBillId} && customers.Keys == t.customers.Keys
    requires pr.products.Keys == t.products.Keys && SkusUnique(pr.products)
    requires forall i :: 0 <= i < |pr.items| ==>
      pr.items[i].quantity >= 1 && (pr.items[i].bill in t.bills || pr.items[i].bill == t.nextBillId)
      && pr.items[i].product in pr.products
    requires forall i :: 0 <= i < |pr.movements| ==> pr.movements[i].quantity >= 1 && pr.movements[i].product in pr.products
    ensures WellFormed(t2)
  {
  }

  // ---------------------------------------------------------------------
  // Worked examples.

  /** Two lines, 2 x 100 at 18% GST and 1 x 50 less 5 at 0%, and a bill
      discount of 10: item total 245, GST 36, grand total 271. */
  lemma TotalsExample()
    ensures var products := map[1 := NewProduct(1, 1, "A", "A-1", 80.0, 100.0).(gstPercent := 18.0),
                                2 := NewProduct(1, 1, "B", "B-1", 40.0, 50.0)];
            var items := [BillItem(9, 1, 2, 100.0, 0.0, 200.0), BillItem(9, 2, 1, 50.0, 5.0, 45.0)];
            var b := Recalculated(BillSkeleton(1, None, None, 0, 10.0, None), items, products);
            b.itemTotal == 245.0 && b.gstTotal == 36.0 && b.grandTotal == 271.0
  {
    var products := map[1 := NewProduct(1, 1, "A", "A-1", 80.0, 100.0).(gstPercent := 18.0),
                        2 := NewProduct(1, 1, "B", "B-1", 40.0, 50.0)];
    var items := [BillItem(9, 1, 2, 100.0, 0.0, 200.0), BillItem(9, 2, 1, 50.0, 5.0, 45.0)];
    assert items[..1] == [items[0]] && [items[0]][..0] == [];
    assert GstRate(products, 1) == 18.0 && GstRate(products, 2) == 0.0;
    assert LineGst(items[0], 18.0) == 36.0 && LineGst(items[1], 0.0) == 0.0;
    assert GstSum([items[0]], products) == 36.0;
    assert GstSum(items, products) == 36.0;
    assert SubtotalSum(items) == 245.0;
  }

  /** Stock 10: the line loops of two one-line sales of 4 succeed and
      leave 2; the loop of a third sale of 3 stops at insufficient stock. */
  lemma SequentialSalesExample()
    ensures var soap := NewProduct(7, 1, "Soap", "S-1", 10.0, 20.0).(currentStock := 10);
            var r1 := SellLines(Progress(map[1 := soap], [], []), 7, 1, 0, [LineRequest(1, 4, None, None)]);
            r1.Ok? && r1.value.products[1].currentStock == 6 &&
            var r2 := SellLines(r1.value, 7, 2, 1, [LineRequest(1, 4, None, None)]);
            r2.Ok? && r2.value.products[1].currentStock == 2 &&
            SellLines(r2.value, 7, 3, 2, [LineRequest(1, 3, None, None)]) == Err(InsufficientStock(1))
  {
    var four := [LineRequest(1, 4, None, None)];
    var three := [LineRequest(1, 3, None, None)];
    assert four[..0] == [] && three[..0] == [];
  }
}
