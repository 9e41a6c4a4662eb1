/** The relational store the inventory and sales code reads and writes:
    one field per table. Primary keys are handed out from per-table
    counters, as `BigAutoField` does. */
module Storage {
  import opened Base
  import opened Tenancy
  import opened InventoryModels
  import opened SalesModels

  /** A snapshot of every table, used to state what an operation does. */
  datatype Tables = Tables(
    categories: map<CategoryId, Category>,
    products: map<ProductId, Product>,
    movements: seq<StockMovement>,
    customers: map<CustomerId, Customer>,
    bills: map<BillId, Bill>,
    billItems: seq<BillItem>,
    payments: seq<CustomerPayment>,
    nextCategoryId: nat,
    nextProductId: nat,
    nextCustomerId: nat,
    nextBillId: nat)

  function EmptyTables(): Tables {
    Tables(map[], map[], [], map[], map[], [], [], 1, 1, 1, 1)
  }

  /** The integrity the schema and the write paths keep: keys below their
      counters, the two uniqueness keys, references that resolve,
      bill lines of at least one unit, ledger entries of at least one unit
      and payments of a positive amount. */
  ghost predicate WellFormed(t: Tables) {
    && (forall c :: c in t.categories ==> c < t.nextCategoryId)
    && (forall p :: p in t.products ==> p < t.nextProductId)
    && (forall c :: c in t.customers ==> c < t.nextCustomerId)
    && (forall b :: b in t.bills ==> b < t.nextBillId)
    && SkusUnique(t.products)
    && CategoryNamesUnique(t.categories)
    && (forall i :: 0 <= i < |t.billItems| ==>
          t.billItems[i].quantity >= 1 && t.billItems[i].bill in t.bills && t.billItems[i].product in t.products)
    && (forall i :: 0 <= i < |t.movements| ==>
          t.movements[i].quantity >= 1 && t.movements[i].product in t.products)
    && (forall i :: 0 <= i < |t.payments| ==>
          t.payments[i].amount > 0.0 && t.payments[i].customer in t.customers)
  }

  lemma EmptyTablesWellFormed()
    ensures WellFormed(EmptyTables())
  {
  }

  class Database {
    var categories: map<CategoryId, Category>
    var products: map<ProductId, Product>
    var movements: seq<StockMovement>
    var customers: map<CustomerId, Customer>
    var bills: map<BillId, Bill>
    var billItems: seq<BillItem>
    var payments: seq<CustomerPayment>
    var nextCategoryId: nat
    var nextProductId: nat
    var nextCustomerId: nat
    var nextBillId: nat

    function State(): Tables
      reads this
    {
      Tables(categories, products, movements, customers, bills, billItems, payments,
             nextCategoryId, nextProductId, nextCustomerId, nextBillId)
    }

    constructor ()
      ensures State() == EmptyTables()
    {
      categories, products, movements := map[], map[], [];
      customers, bills, billItems, payments := map[], map[], [], [];
      nextCategoryId, nextProductId, nextCustomerId, nextBillId := 1, 1, 1, 1;
    }

    /** Undoing a transaction: every table returns to the snapshot taken
        when the transaction began. */
    method Restore(s: Tables)
      modifies this
      ensures State() == s
    {
      categories, products, movements := s.categories, s.products, s.movements;
      customers, bills, billItems, payments := s.customers, s.bills, s.billItems, s.payments;
      nextCategoryId, nextProductId := s.nextCategoryId, s.nextProductId;
      nextCustomerId, nextBillId := s.nextCustomerId, s.nextBillId;
    }
  }
}
