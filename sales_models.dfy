/** Customers, bills, bill lines and payments, and the bill's derived
    totals (sales/models.py). Money is exact: Django's Decimal arithmetic on
    these fields is modelled by `real`. */
module SalesModels {
  import opened Base
  import opened Tenancy
  import opened InventoryModels

  type CustomerId = nat
  type BillId = nat
  type StaffId = nat

  datatype Customer = Customer(
    tenant: TenantId,
    name: string,
    phone: Option<string>,
    email: Option<string>,
    gstNumber: Option<string>,
    kind: string,
    spendingBalance: real)

  datatype Bill = Bill(
    tenant: TenantId,
    customer: Option<CustomerId>,
    createdBy: Option<StaffId>,
    date: int,
    itemTotal: real,
    billDiscount: real,
    gstTotal: real,
    grandTotal: real,
    paymentType: Option<string>)

  /** One bill line; `discount` is per unit. */
  datatype BillItem = BillItem(
    bill: BillId,
    product: ProductId,
    quantity: int,
    price: real,
    discount: real,
    subtotal: real)

  datatype CustomerPayment = CustomerPayment(
    tenant: TenantId,
    customer: CustomerId,
    amount: real,
    kind: string,
    date: int)

  /** The `type` choices of a payment. */
  predicate IsPaymentType(kind: string) {
    kind == "CREDIT" || kind == "DEBIT"
  }

  /** A bill as first inserted: its three totals are at their default 0. */
  function BillSkeleton(tenant: TenantId, customer: Option<CustomerId>, createdBy: Option<StaffId>,
                        date: int, billDiscount: real, paymentType: Option<string>): (b: Bill)
    ensures b.itemTotal == 0.0 && b.gstTotal == 0.0 && b.grandTotal == 0.0
    ensures b.tenant == tenant && b.customer == customer && b.billDiscount == billDiscount
  {
    Bill(tenant, customer, createdBy, date, 0.0, billDiscount, 0.0, 0.0, paymentType)
  }

  // ---------------------------------------------------------------------
  // Bill totals.

  /** `bill.items.all()`. */
  function ItemsOf(items: seq<BillItem>, b: BillId): (r: seq<BillItem>)
    ensures forall it :: it in r <==> it in items && it.bill == b
  {
    if items == [] then []
    else ItemsOf(items[..|items| - 1], b) + (if items[|items| - 1].bill == b then [items[|items| - 1]] else [])
  }

  lemma ItemsOfAppend(items: seq<BillItem>, more: seq<BillItem>, b: BillId)
    ensures ItemsOf(items + more, b) == ItemsOf(items, b) + ItemsOf(more, b)
    decreases |more|
  {
    if more == [] {
      assert items + more == items;
    } else {
      var last := more[|more| - 1];
      assert (items + more)[..|items + more| - 1] == items + more[..|more| - 1];
      ItemsOfAppend(items, more[..|more| - 1], b);
    }
  }

  /** When every line of `items` is on bill `b`, the query returns them all. */
  lemma ItemsOfAllOnBill(items: seq<BillItem>, b: BillId)
    requires forall i :: 0 <= i < |items| ==> items[i].bill == b
    ensures ItemsOf(items, b) == items
  {
    if items != [] {
      ItemsOfAllOnBill(items[..|items| - 1], b);
      assert items == items[..|items| - 1] + [items[|items| - 1]];
    }
  }

  /** When no line of `items` is on bill `b`, the query returns nothing. */
  lemma ItemsOfNoneOnBill(items: seq<BillItem>, b: BillId)
    requires forall i :: 0 <= i < |items| ==> items[i].bill != b
    ensures ItemsOf(items, b) == []
  {
    if items != [] {
      ItemsOfNoneOnBill(items[..|items| - 1], b);
    }
  }

  /** Lines appended on bill `b` after lines on other bills: the query
      returns the appended ones. */
  lemma ItemsOfSplit(before: seq<BillItem>, added: seq<BillItem>, b: BillId)
    requires forall i :: 0 <= i < |before| ==> before[i].bill != b
    requires forall i :: 0 <= i < |added| ==> added[i].bill == b
    ensures ItemsOf(before + added, b) == added
  {
    ItemsOfNoneOnBill(before, b);
    ItemsOfAllOnBill(added, b);
    ItemsOfAppend(before, added, b);
  }

  /** `sum(it.subtotal for it in items)`. */
  function SubtotalSum(items: seq<BillItem>): real {
    if items == [] then 0.0 else SubtotalSum(items[..|items| - 1]) + items[|items| - 1].subtotal
  }

  lemma {:induction false} SubtotalSumAppend(a: seq<BillItem>, b: seq<BillItem>)
    ensures SubtotalSum(a + b) == SubtotalSum(a) + SubtotalSum(b)
    decreases |b|
  {
    if b == [] {
      assert a + b == a;
    } else {
      assert (a + b)[..|a + b| - 1] == a + b[..|b| - 1];
      SubtotalSumAppend(a, b[..|b| - 1]);
    }
  }

  /** `getattr(it.product, 'gst_percent', 0)`: the rate of the line's
      product, and the default 0 for a product row that is not there (which
      the protected foreign key rules out). */
  function GstRate(products: map<ProductId, Product>, p: ProductId): real {
    if p in products then products[p].gstPercent else 0.0
  }

  /** One line's tax: `gst_percent / 100 * (price*qty - discount*qty)`. */
  function LineGst(it: BillItem, gstPercent: real): real {
    gstPercent / 100.0 * (it.price * it.quantity as real - it.discount * it.quantity as real)
  }

  /** For a line priced as `create_bill` prices it, the tax is the product's
      rate applied to the line's subtotal. */
  lemma LineGstOfSubtotal(it: BillItem, gstPercent: real)
    requires it.subtotal == (it.price - it.discount) * it.quantity as real
    ensures LineGst(it, gstPercent) == gstPercent / 100.0 * it.subtotal
  {
  }

  /** `sum(gst_percent / 100 * (...) for it in items)`, each line at its
      product's current rate. */
  function GstSum(items: seq<BillItem>, products: map<ProductId, Product>): real {
    if items == [] then 0.0
    else
      var last := items[|items| - 1];
      GstSum(items[..|items| - 1], products) + LineGst(last, GstRate(products, last.product))
  }

  lemma {:induction false} GstSumAppend(a: seq<BillItem>, b: seq<BillItem>, products: map<ProductId, Product>)
    ensures GstSum(a + b, products) == GstSum(a, products) + GstSum(b, products)
    decreases |b|
  {
    if b == [] {
      assert a + b == a;
    } else {
      assert (a + b)[..|a + b| - 1] == a + b[..|b| - 1];
      GstSumAppend(a, b[..|b| - 1], products);
    }
  }

  /** `Bill.recalculate_totals`: the three totals are recomputed from the
      bill's lines and nothing else of the bill changes. `bill_discount or 0`
      is the discount itself, since a zero discount is the only falsy one. */
  function Recalculated(b: Bill, items: seq<BillItem>, products: map<ProductId, Product>): (r: Bill)
    ensures r.itemTotal == SubtotalSum(items)
    ensures r.gstTotal == GstSum(items, products)
    ensures r.grandTotal == r.itemTotal + r.gstTotal - b.billDiscount
    ensures r.(itemTotal := b.itemTotal, gstTotal := b.gstTotal, grandTotal := b.grandTotal) == b
  {
    var itemTotal := SubtotalSum(items);
    var gstTotal := GstSum(items, products);
    b.(itemTotal := itemTotal, gstTotal := gstTotal, grandTotal := itemTotal + gstTotal - b.billDiscount)
  }

  /** The totals depend only on the lines and the discount, not on the
      totals already stored... */
  lemma TotalsIgnoreStoredTotals(b1: Bill, b2: Bill, items: seq<BillItem>, products: map<ProductId, Product>)
    requires b1.billDiscount == b2.billDiscount
    ensures Recalculated(b1, items, products).itemTotal == Recalculated(b2, items, products).itemTotal
    ensures Recalculated(b1, items, products).gstTotal == Recalculated(b2, items, products).gstTotal
    ensures Recalculated(b1, items, products).grandTotal == Recalculated(b2, items, products).grandTotal
  {
  }

  /** ...so recalculating twice is recalculating once. */
  lemma RecalculateIdempotent(b: Bill, items: seq<BillItem>, products: map<ProductId, Product>)
    ensures Recalculated(Recalculated(b, items, products), items, products) == Recalculated(b, items, products)
  {
  }

  /** Adding a line raises the item total by its subtotal and the GST total
      by its tax. */
  lemma RecalculatedAppend(b: Bill, items: seq<BillItem>, it: BillItem, products: map<ProductId, Product>)
    ensures Recalculated(b, items + [it], products).itemTotal == Recalculated(b, items, products).itemTotal + it.subtotal
    ensures Recalculated(b, items + [it], products).gstTotal
      == Recalculated(b, items, products).gstTotal + LineGst(it, GstRate(products, it.product))
  {
    assert (items + [it])[..|items|] == items;
  }
}
