/** The sales endpoints around the billing transaction (sales/serializers.py
    and sales/views.py): the bill payload's validation and defaults, the
    customer and payment serializers, and the payment view that lowers a
    customer's balance when a CREDIT payment is recorded. */
module SalesApi {
  import opened Base
  import opened Tenancy
  import opened InventoryModels
  import opened SalesModels
  import opened Storage
  import opened Billing

  // ---------------------------------------------------------------------
  // Bill payload.

  /** The product ids of the lines `Product.objects.filter(pk__in=..., tenant=tenant)`
      does not find: every requested id when there is no tenant, since no
      product row has a null tenant. */
  function MissingProducts(products: map<ProductId, Product>, tenant: Option<TenantId>, items: seq<LineRequest>)
    : (missing: set<int>)
    ensures forall pid :: pid in missing <==>
      (exists i :: 0 <= i < |items| && items[i].productId == pid)
      && !(tenant.Some? && ProductInTenant(products, pid, tenant.value))
    ensures forall i :: 0 <= i < |items| ==>
      (items[i].productId in missing <==> !(tenant.Some? && ProductInTenant(products, items[i].productId, tenant.value)))
  {
    set i | 0 <= i < |items| && !(tenant.Some? && ProductInTenant(products, items[i].productId, tenant.value))
      :: items[i].productId
  }

  /** Every line's product is a product of the tenant. */
  predicate AllInTenant(products: map<ProductId, Product>, tenant: Option<TenantId>, items: seq<LineRequest>) {
    forall i :: 0 <= i < |items| ==> tenant.Some? && ProductInTenant(products, items[i].productId, tenant.value)
  }

  /** `BillCreateSerializer.validate`: the data unchanged when every line's
      product belongs to the tenant, else the set of ids that do not. */
  function ValidateBill(products: map<ProductId, Product>, tenant: Option<TenantId>, req: BillRequest)
    : (r: Result<BillRequest, set<int>>)
    ensures r.Ok? <==> AllInTenant(products, tenant, req.items)
    ensures r.Ok? ==> r.value == req
    ensures r.Err? ==> r.error == MissingProducts(products, tenant, req.items) && r.error != {}
  {
    MissingProductsEmptyIff(products, tenant, req.items);
    if AllInTenant(products, tenant, req.items) then Ok(req)
    else Err(MissingProducts(products, tenant, req.items))
  }

  lemma MissingProductsEmptyIff(products: map<ProductId, Product>, tenant: Option<TenantId>, items: seq<LineRequest>)
    ensures MissingProducts(products, tenant, items) == {} <==> AllInTenant(products, tenant, items)
  {
    var missing := MissingProducts(products, tenant, items);
    if missing != {} {
      var pid :| pid in missing;
      var i :| 0 <= i < |items| && items[i].productId == pid;
      assert !(tenant.Some? && ProductInTenant(products, items[i].productId, tenant.value));
      assert !AllInTenant(products, tenant, items);
    } else if items != [] {
      assert items[0].productId !in missing;
      assert tenant.Some?;
      forall i | 0 <= i < |items| ensures ProductInTenant(products, items[i].productId, tenant.value) {
        assert items[i].productId !in missing;
      }
    }
  }

  /** Validation looks only at product ids: the quantity of a line, even
      zero or negative, cannot make it fail or pass. */
  lemma ValidateBillIgnoresQuantity(products: map<ProductId, Product>, tenant: Option<TenantId>, req: BillRequest,
                                    i: nat, quantity: int)
    requires i < |req.items|
    ensures var req2 := req.(items := req.items[i := req.items[i].(quantity := quantity)]);
      ValidateBill(products, tenant, req2).Ok? <==> ValidateBill(products, tenant, req).Ok?
  {
    var req2 := req.(items := req.items[i := req.items[i].(quantity := quantity)]);
    assert forall j :: 0 <= j < |req.items| ==> req2.items[j].productId == req.items[j].productId;
  }

  /** A bill of the tenant's products, even one with a line of quantity 0,
      passes validation: the positivity check is left to the service. */
  lemma ValidateBillAdmitsZeroQuantity()
    ensures var products := map[1 := NewProduct(7, 1, "Soap", "S1", 10.0, 12.0)];
      var req := BillRequest(None, None, None, [LineRequest(1, 0, None, None)]);
      && ValidateBill(products, Some(7), req) == Ok(req)
      && CreateBillSpec(Tables(map[], products, [], map[], map[], [], [], 1, 2, 1, 1), Some(7), None, req, 0)
         == Err(NonPositiveQuantity(1))
  {
    var products := map[1 := NewProduct(7, 1, "Soap", "S1", 10.0, 12.0)];
    var req := BillRequest(None, None, None, [LineRequest(1, 0, None, None)]);
    assert MissingProducts(products, Some(7), req.items) == {};
  }

  /** `payment_type` as its `CharField` hands it on: `trim_whitespace` is on
      by default, so surrounding whitespace is stripped (and blank text
      becomes ""); every other field is left alone. */
  function TrimmedPayload(req: BillRequest): (r: BillRequest)
    ensures r.(paymentType := req.paymentType) == req
    ensures r.paymentType.Some? <==> req.paymentType.Some?
    ensures req.paymentType.Some? ==> r.paymentType.value == Strip(req.paymentType.value)
  {
    req.(paymentType := if req.paymentType.Some? then Some(Strip(req.paymentType.value)) else None)
  }

  /** A payment type sent with spaces around it is a credit sale once
      trimmed, and would not be without the trim. */
  lemma PaddedCreditIsCreditSale(req: BillRequest)
    requires req.paymentType == Some(" CREDIT ")
    ensures IsCreditSale(TrimmedPayload(req).paymentType)
    ensures !IsCreditSale(req.paymentType)
  {
    var v := " CREDIT ";
    assert SkipSpaceFrom(v, 1) == 1;
    assert SkipSpaceFrom(v, 0) == 1;
    assert SkipSpaceBack(v, 1, 7) == 7;
    assert SkipSpaceBack(v, 1, |v|) == 7;
    assert Strip(v) == "CREDIT";
    IsCreditIgnoresCase("CREDIT");
    IsCreditIgnoresCase(v);
  }

  /** The defaults the input serializers fill in: a line's `discount` and
      the bill's `bill_discount` become 0 when absent, after the payment
      type is trimmed; `price`, `customer_id` and `payment_type` stay
      absent. */
  function LineWithDefaults(line: LineRequest): (r: LineRequest)
    ensures r.discount.Some? && (line.discount.None? ==> r.discount.value == 0.0)
    ensures r.(discount := line.discount) == line
  {
    line.(discount := Some(line.discount.GetOr(0.0)))
  }

  function ItemsWithDefaults(items: seq<LineRequest>): (r: seq<LineRequest>)
    ensures |r| == |items| && forall i :: 0 <= i < |items| ==> r[i] == LineWithDefaults(items[i])
  {
    if items == [] then [] else ItemsWithDefaults(items[..|items| - 1]) + [LineWithDefaults(items[|items| - 1])]
  }

  function WithDefaults(req: BillRequest): (r: BillRequest)
    ensures r.billDiscount.Some? && (req.billDiscount.None? ==> r.billDiscount.value == 0.0)
    ensures r.customerId == req.customerId && r.paymentType == TrimmedPayload(req).paymentType
    ensures r.items == ItemsWithDefaults(req.items)
  {
    TrimmedPayload(req).(billDiscount := Some(req.billDiscount.GetOr(0.0)), items := ItemsWithDefaults(req.items))
  }

  lemma SellLineWithDefaults(q: Progress, tenant: TenantId, billId: BillId, now: int, line: LineRequest)
    ensures SellLine(q, tenant, billId, now, LineWithDefaults(line)) == SellLine(q, tenant, billId, now, line)
  {
    if ProductInTenant(q.products, line.productId, tenant) {
      var p := q.products[line.productId];
      assert LineItem(LineWithDefaults(line), p, billId) == LineItem(line, p, billId);
    }
  }

  lemma {:induction false} SellLinesWithDefaults(pr: Progress, tenant: TenantId, billId: BillId, now: int,
                                                 lines: seq<LineRequest>)
    ensures SellLines(pr, tenant, billId, now, ItemsWithDefaults(lines)) == SellLines(pr, tenant, billId, now, lines)
    decreases |lines|
  {
    if lines != [] {
      var d := ItemsWithDefaults(lines);
      var n := |lines| - 1;
      assert d[..n] == ItemsWithDefaults(lines[..n]);
      SellLinesWithDefaults(pr, tenant, billId, now, lines[..n]);
      match SellLines(pr, tenant, billId, now, lines[..n])
      case Err(_) =>
      case Ok(q) =>
        SellLineWithDefaults(q, tenant, billId, now, lines[n]);
    }
  }

  /** Filling in the defaults does not change what the transaction does
      (the service reads an absent discount as 0 itself); only the trim of
      the payment type can, and a payment type without surrounding
      whitespace is not changed by it. */
  lemma CreateBillWithDefaults(t: Tables, tenant: Option<TenantId>, staff: Option<StaffId>, req: BillRequest, now: int)
    ensures CreateBillSpec(t, tenant, staff, WithDefaults(req), now) == CreateBillSpec(t, tenant, staff, TrimmedPayload(req), now)
    ensures (req.paymentType.Some? ==> Strip(req.paymentType.value) == req.paymentType.value) ==>
      CreateBillSpec(t, tenant, staff, WithDefaults(req), now) == CreateBillSpec(t, tenant, staff, req, now)
  {
    var d := WithDefaults(req);
    var tr := TrimmedPayload(req);
    if req.paymentType.Some? ==> Strip(req.paymentType.value) == req.paymentType.value {
      assert tr == req;
    }
    assert tr.customerId == req.customerId && tr.items == req.items && BillCustomer(tr) == BillCustomer(req);
    assert d.customerId == req.customerId && CustomerGiven(d) == CustomerGiven(req) && BillCustomer(d) == BillCustomer(req);
    assert (d.items == []) == (req.items == []);
    if req.items != [] && !(CustomerGiven(req) && !CustomerInTenant(t.customers, req.customerId.value, tenant))
       && tenant.Some? {
      var sl := SellLines(Start(t), tenant.value, t.nextBillId, now, req.items);
      SellLinesWithDefaults(Start(t), tenant.value, t.nextBillId, now, req.items);
      assert SellLines(Start(t), tenant.value, t.nextBillId, now, d.items) == sl;
      if sl.Ok? {
        CommittedWithDefaults(t, tenant.value, BillCustomer(req), staff, req, now, sl.value);
      }
    }
  }

  lemma CommittedWithDefaults(t: Tables, tenant: TenantId, customer: Option<CustomerId>, staff: Option<StaffId>,
                              req: BillRequest, now: int, pr: Progress)
    ensures Committed(t, tenant, customer, staff, WithDefaults(req), now, pr)
         == Committed(t, tenant, customer, staff, TrimmedPayload(req), now, pr)
  {
    var d := WithDefaults(req);
    var tr := TrimmedPayload(req);
    assert d.billDiscount.GetOr(0.0) == tr.billDiscount.GetOr(0.0) && d.paymentType == tr.paymentType;
    assert NewBill(t, tenant, customer, staff, d, now, pr) == NewBill(t, tenant, customer, staff, tr, now, pr);
  }

  /** A bill that passed validation does not fail for a missing product:
      the products it names are the tenant's, and the lines only change
      their stock. */
  lemma ValidatedBillFindsProducts(t: Tables, tenant: Option<TenantId>, staff: Option<StaffId>, req: BillRequest, now: int)
    requires ValidateBill(t.products, tenant, req).Ok?
    ensures CreateBillSpec(t, tenant, staff, req, now).Err? ==> !CreateBillSpec(t, tenant, staff, req, now).error.ProductNotFound?
  {
    var r := CreateBillSpec(t, tenant, staff, req, now);
    if r.Err? && req.items != [] && tenant.Some? && (CustomerGiven(req) ==> CustomerInTenant(t.customers, req.customerId.value, tenant)) {
      CreateBillSucceedsIff(t, tenant, staff, req, now);
      var k := 0;
      while k < |req.items| && LineFits(t.products, tenant.value, req.items, k)
        invariant 0 <= k <= |req.items|
        invariant forall i :: 0 <= i < k ==> LineFits(t.products, tenant.value, req.items, i)
      {
        k := k + 1;
      }
      CreateBillFirstFailingLine(t, tenant.value, staff, req, now, k);
    }
  }

  /** The outcome of `POST /bills/`: the payload's validation error, the
      error that rolled the transaction back, or the new bill's id. */
  datatype SubmitError = InvalidProducts(missing: set<int>) | Rejected(reason: BillError)

  /** `BillViewSet.create`: validate the payload, trim its payment type,
      fill in its defaults and run the transaction for the request's
      tenant and staff profile. */
  method SubmitBill(db: Database, tenant: Option<TenantId>, staff: Option<StaffId>, req: BillRequest, now: int)
      returns (r: Result<BillId, SubmitError>)
    modifies db
    ensures ValidateBill(old(db.products), tenant, req).Err? ==>
      r == Err(InvalidProducts(ValidateBill(old(db.products), tenant, req).error)) && db.State() == old(db.State())
    ensures ValidateBill(old(db.products), tenant, req).Ok? ==>
      match CreateBillSpec(old(db.State()), tenant, staff, TrimmedPayload(req), now)
      case Ok(t2) => r == Ok(old(db.nextBillId)) && db.State() == t2
      case Err(e) => r == Err(Rejected(e)) && db.State() == old(db.State())
  {
    match ValidateBill(db.products, tenant, req)
    case Err(missing) =>
      return Err(InvalidProducts(missing));
    case Ok(data) =>
      CreateBillWithDefaults(db.State(), tenant, staff, data, now);
      var created := CreateBill(db, tenant, staff, WithDefaults(data), now);
      match created
      case Ok(id) => r := Ok(id);
      case Err(e) => r := Err(Rejected(e));
  }

  // ---------------------------------------------------------------------
  // Customers.

  /** The writable fields of `CustomerSerializer`; a `spending_balance` in
      the payload is read-only and never reaches `create`. The text fields
      hold what their `CharField`s hand on, already trimmed. */
  datatype CustomerRequest = CustomerRequest(
    name: string,
    phone: Option<string>,
    email: Option<string>,
    gstNumber: Option<string>,
    kind: Option<string>,
    spendingBalance: Option<real>)

  /** The row `CustomerSerializer.create` inserts: the request's tenant, a
      `type` of "Regular" unless given, and a balance of 0 whatever the
      payload says. */
  function NewCustomer(tenant: TenantId, req: CustomerRequest): (c: Customer)
    ensures c.tenant == tenant && c.spendingBalance == 0.0
    ensures c.kind == (if req.kind.Some? then req.kind.value else "Regular")
    ensures c.name == req.name && c.phone == req.phone && c.email == req.email && c.gstNumber == req.gstNumber
  {
    Customer(tenant, req.name, req.phone, req.email, req.gstNumber, req.kind.GetOr("Regular"), 0.0)
  }

  /** `CustomerSerializer.create` with the request's tenant; without one the
      insert fails on the non-null tenant column. */
  method CreateCustomer(db: Database, tenant: Option<TenantId>, req: CustomerRequest) returns (r: Option<CustomerId>)
    modifies db
    ensures tenant.None? ==> r.None? && db.State() == old(db.State())
    ensures tenant.Some? ==>
      && r == Some(old(db.nextCustomerId))
      && db.State() == old(db.State()).(customers := old(db.customers)[old(db.nextCustomerId) := NewCustomer(tenant.value, req)],
                                        nextCustomerId := old(db.nextCustomerId) + 1)
  {
    if tenant.None? {
      return None;
    }
    var id := db.nextCustomerId;
    db.customers := db.customers[id := NewCustomer(tenant.value, req)];
    db.nextCustomerId := id + 1;
    r := Some(id);
  }

  /** The balance a payload claims is never the balance stored. */
  lemma NewCustomerIgnoresBalance(tenant: TenantId, req: CustomerRequest, claimed: real)
    ensures NewCustomer(tenant, req.(spendingBalance := Some(claimed))) == NewCustomer(tenant, req)
  {
  }

  // ---------------------------------------------------------------------
  // Payments.

  /** The writable fields of `CustomerPaymentSerializer`. */
  datatype PaymentRequest = PaymentRequest(customer: int, amount: real, kind: string)

  datatype CustomerProblem = NoSuchCustomer | OtherTenant

  /** The field errors DRF collects, all fields being checked: the
      customer (the primary key resolves against every customer, then
      `validate_customer` compares tenants), `validate_amount`, and the
      `type` choices. */
  datatype PaymentErrors = PaymentErrors(customer: Option<CustomerProblem>, amountNotPositive: bool, unknownType: bool)

  function CustomerCheck(customers: map<CustomerId, Customer>, tenant: Option<TenantId>, cid: int): (r: Option<CustomerProblem>)
    ensures r.None? <==> CustomerInTenant(customers, cid, tenant)
  {
    if cid < 0 || cid !in customers then Some(NoSuchCustomer)
    else if Some(customers[cid].tenant) != tenant then Some(OtherTenant)
    else None
  }

  /** The serializer's validation: the payment row it would save, or every
      field error. */
  function ValidatePayment(customers: map<CustomerId, Customer>, tenant: Option<TenantId>, req: PaymentRequest, now: int)
    : (r: Result<CustomerPayment, PaymentErrors>)
    ensures r.Ok? <==> CustomerInTenant(customers, req.customer, tenant) && req.amount > 0.0 && IsPaymentType(req.kind)
    ensures r.Err? ==> r.error.amountNotPositive == (req.amount <= 0.0) && r.error.unknownType == !IsPaymentType(req.kind)
                       && (r.error.customer.None? <==> CustomerInTenant(customers, req.customer, tenant))
    ensures r.Ok? ==> r.value == CustomerPayment(tenant.value, req.customer as nat, req.amount, req.kind, now)
  {
    var customerError := CustomerCheck(customers, tenant, req.customer);
    if customerError.None? && req.amount > 0.0 && IsPaymentType(req.kind) then
      Ok(CustomerPayment(tenant.value, req.customer as nat, req.amount, req.kind, now))
    else Err(PaymentErrors(customerError, req.amount <= 0.0, !IsPaymentType(req.kind)))
  }

  /** `payment.type and payment.type.upper() == "CREDIT"`. */
  predicate LowersBalance(kind: string) {
    kind != "" && IsCredit(kind)
  }

  /** What `perform_create` does to the customers once the payment row is
      saved: `spending_balance - amount` for a CREDIT payment, written to
      that customer's balance only. */
  function AfterPayment(customers: map<CustomerId, Customer>, p: CustomerPayment): (r: map<CustomerId, Customer>)
    ensures r.Keys == customers.Keys
    ensures forall c :: c in customers && (c != p.customer || !LowersBalance(p.kind)) ==> r[c] == customers[c]
    ensures p.customer in customers && LowersBalance(p.kind) ==>
      r[p.customer] == customers[p.customer].(spendingBalance := customers[p.customer].spendingBalance - p.amount)
  {
    if p.customer in customers && LowersBalance(p.kind) then
      var c := customers[p.customer];
      customers[p.customer := c.(spendingBalance := c.spendingBalance - p.amount)]
    else customers
  }

  /** Recording a payment: validate, save the row, then adjust the
      balance. */
  function RecordPaymentSpec(t: Tables, tenant: Option<TenantId>, req: PaymentRequest, now: int)
    : Result<Tables, PaymentErrors>
  {
    match ValidatePayment(t.customers, tenant, req, now)
    case Err(e) => Err(e)
    case Ok(p) => Ok(t.(payments := t.payments + [p], customers := AfterPayment(t.customers, p)))
  }

  /** `CustomerPaymentViewSet.create` with its `perform_create`: the row is
      saved first, and only then is the balance of a CREDIT payment's
      customer lowered. */
  method RecordPayment(db: Database, tenant: Option<TenantId>, req: PaymentRequest, now: int)
      returns (r: Result<CustomerPayment, PaymentErrors>)
    modifies db
    ensures r == ValidatePayment(old(db.customers), tenant, req, now)
    ensures RecordPaymentSpec(old(db.State()), tenant, req, now).Err? ==> db.State() == old(db.State())
    ensures RecordPaymentSpec(old(db.State()), tenant, req, now).Ok? ==>
      db.State() == RecordPaymentSpec(old(db.State()), tenant, req, now).value
  {
    r := ValidatePayment(db.customers, tenant, req, now);
    if r.Err? {
      return;
    }
    var payment := r.value;
    db.payments := db.payments + [payment];
    if payment.kind != "" && Upper(payment.kind) == "CREDIT" {
      var c := db.customers[payment.customer];
      db.customers := db.customers[payment.customer := c.(spendingBalance := c.spendingBalance - payment.amount)];
    }
  }

  /** A recorded payment: appended last, with the request's tenant and
      the validated fields; a CREDIT payment lowers its customer's balance
      by exactly its amount and a DEBIT payment leaves every balance as it
      was; no other customer, field or table changes. */
  lemma RecordPaymentEffect(t: Tables, tenant: Option<TenantId>, req: PaymentRequest, now: int, t2: Tables)
    requires RecordPaymentSpec(t, tenant, req, now) == Ok(t2)
    ensures tenant.Some? && req.customer >= 0 && req.customer in t.customers
    ensures t2.payments == t.payments + [CustomerPayment(tenant.value, req.customer as nat, req.amount, req.kind, now)]
    ensures t2 == t.(payments := t2.payments, customers := t2.customers)
    ensures t2.customers.Keys == t.customers.Keys
    ensures forall c :: c in t.customers && c != req.customer ==> t2.customers[c] == t.customers[c]
    ensures req.kind == "CREDIT" ==>
      t2.customers[req.customer] == t.customers[req.customer].(spendingBalance := t.customers[req.customer].spendingBalance - req.amount)
    ensures req.kind == "DEBIT" ==> t2.customers == t.customers
  {
    assert IsCredit("CREDIT") by { assert Upper("CREDIT") == "CREDIT"; }
    assert !IsCredit("DEBIT") by { assert Upper("DEBIT") == "DEBIT"; }
  }

  /** A payment is refused, with the tables unchanged, exactly when its
      amount is not positive, its customer is not the tenant's, or its type
      is neither CREDIT nor DEBIT. */
  lemma RecordPaymentRejections(t: Tables, tenant: Option<TenantId>, req: PaymentRequest, now: int)
    ensures RecordPaymentSpec(t, tenant, req, now).Err? <==>
      req.amount <= 0.0 || !CustomerInTenant(t.customers, req.customer, tenant) || !IsPaymentType(req.kind)
    ensures req.amount <= 0.0 ==> RecordPaymentSpec(t, tenant, req, now).Err?
  {
  }

  /** The balance rule ignores case: a saved payment of type "credit" acts
      like one of type "CREDIT". Through the serializer only the exact
      choices arrive, so this matters only for rows saved another way. */
  lemma AfterPaymentIgnoresCase(customers: map<CustomerId, Customer>, p: CustomerPayment, kind: string)
    requires Upper(kind) == Upper(p.kind)
    ensures AfterPayment(customers, p.(kind := kind)) == AfterPayment(customers, p)
  {
    assert (kind == "") == (p.kind == "") by {
      assert |Upper(kind)| == |kind| && |Upper(p.kind)| == |p.kind|;
    }
  }

  /** Recording a payment keeps the schema's integrity. */
  lemma RecordPaymentWellFormed(t: Tables, tenant: Option<TenantId>, req: PaymentRequest, now: int, t2: Tables)
    requires WellFormed(t) && RecordPaymentSpec(t, tenant, req, now) == Ok(t2)
    ensures WellFormed(t2)
  {
    var p := ValidatePayment(t.customers, tenant, req, now).value;
    assert t2.payments == t.payments + [p];
    assert forall i :: 0 <= i < |t2.payments| ==> t2.payments[i].amount > 0.0 && t2.payments[i].customer in t2.customers by {
      forall i | 0 <= i < |t2.payments|
        ensures t2.payments[i].amount > 0.0 && t2.payments[i].customer in t2.customers
      {
        if i < |t.payments| {
          assert t2.payments[i] == t.payments[i];
        }
      }
    }
  }

  /** A balance of 500 is 300 after a CREDIT payment of 200 and still 300
      after a DEBIT payment of 50. */
  lemma PaymentSequenceExample()
    ensures var c := Customer(7, "Asha", None, None, None, "Regular", 500.0);
      var t0 := EmptyTables().(customers := map[1 := c], nextCustomerId := 2);
      var r1 := RecordPaymentSpec(t0, Some(7), PaymentRequest(1, 200.0, "CREDIT"), 10);
      && r1.Ok? && r1.value.customers[1].spendingBalance == 300.0
      && var r2 := RecordPaymentSpec(r1.value, Some(7), PaymentRequest(1, 50.0, "DEBIT"), 11);
         r2.Ok? && r2.value.customers[1].spendingBalance == 300.0 && |r2.value.payments| == 2
  {
    var c := Customer(7, "Asha", None, None, None, "Regular", 500.0);
    var t0 := EmptyTables().(customers := map[1 := c], nextCustomerId := 2);
    var r1 := RecordPaymentSpec(t0, Some(7), PaymentRequest(1, 200.0, "CREDIT"), 10);
    RecordPaymentEffect(t0, Some(7), PaymentRequest(1, 200.0, "CREDIT"), 10, r1.value);
    var r2 := RecordPaymentSpec(r1.value, Some(7), PaymentRequest(1, 50.0, "DEBIT"), 11);
    RecordPaymentEffect(r1.value, Some(7), PaymentRequest(1, 50.0, "DEBIT"), 11, r2.value);
  }
}
