/** The ledger as the screens drive it: each form submission composed with the
    page handler it calls, and the running per-customer aggregates those
    submissions build up. */
module Ledger {
  import opened Collections
  import opened Customers
  import opened Products
  import opened Payments
  import opened Sales
  import opened IndexPage
  import SequenceIds

  /** The sales screen keeps its own invoice list and its form; the customers
      live in the page's store. */
  datatype SalesState = SalesState(sales: seq<Sale>, draft: SaleDraft, store: Store)

  /** `after` is `before` with every customer carrying `id` replaced by the
      first such customer charged with `total` and `outstanding`; the other
      customers, the length and the order are kept. */
  ghost predicate ChargedFirstMatch(before: seq<Customer>, after: seq<Customer>, id: string, total: real, outstanding: real)
  {
    && |after| == |before|
    && (forall i :: 0 <= i < |before| && before[i].id != id ==> after[i] == before[i])
    && exists k :: 0 <= k < |before| && before[k].id == id && (forall j :: 0 <= j < k ==> before[j].id != id)
                   && forall i :: 0 <= i < |before| && before[i].id == id ==> after[i] == Charge(before[k], total, outstanding)
  }

  /** The invoice takes the form's customer id, transport charge, amount paid
      and rows (in order, each with its amount), and today's date. */
  ghost predicate SaleCopiesForm(s: Sale, draft: SaleDraft, today: string)
  {
    && s.customerId == draft.customerId
    && s.date == today
    && s.transport == draft.transport
    && s.paidAmount == draft.paidAmount
    && |s.items| == |draft.lines|
    && forall i :: 0 <= i < |draft.lines| ==> s.items[i] == StoredItem(draft.lines[i])
  }

  /** Submitting the sale form: `createSale`, then `onUpdateCustomer` with the
      charged customer. With an unknown customer id nothing changes at all.
      Otherwise the new invoice goes in front of the screen's list, every
      customer carrying the form's id is replaced by the first such customer
      charged with the sale's total and outstanding amount, everyone else is
      kept, and the form is cleared. */
  function SubmitSale(st: SalesState, today: string): (r: SalesState)
    ensures (forall i :: 0 <= i < |st.store.customers| ==> st.store.customers[i].id != st.draft.customerId)
            ==> r == st
    ensures (exists i :: 0 <= i < |st.store.customers| && st.store.customers[i].id == st.draft.customerId) ==>
              && |r.sales| == |st.sales| + 1
              && r.sales[1..] == st.sales
              && WellFormedSale(r.sales[0])
              && r.sales[0].id == SequenceIds.SequenceId("INV", |st.sales|)
              && r.sales[0].total == SumOf(st.draft.lines, LineItems.LineAmount) + st.draft.transport
              && SaleCopiesForm(r.sales[0], st.draft, today)
              && r.sales[0] == NewSale(st.sales, st.store.customers, st.draft, today).value.sale
              && r.draft == EmptySaleDraft
              && r.store.(customers := st.store.customers) == st.store
              && ChargedFirstMatch(st.store.customers, r.store.customers, st.draft.customerId,
                                   r.sales[0].total, r.sales[0].outstandingAmount)
  {
    var created := NewSale(st.sales, st.store.customers, st.draft, today);
    if created.None? then st
    else
      RecordedSaleFacts(st, today);
      RecordedCustomerFacts(st, today);
      RecordSale(st, created.value)
  }

  /** What the recorded invoice, the form and the untouched parts of the
      store look like after a sale is created. */
  lemma RecordedSaleFacts(st: SalesState, today: string)
    requires exists i :: 0 <= i < |st.store.customers| && st.store.customers[i].id == st.draft.customerId
    ensures var r := RecordSale(st, NewSale(st.sales, st.store.customers, st.draft, today).value);
            && |r.sales| == |st.sales| + 1
            && r.sales[1..] == st.sales
            && WellFormedSale(r.sales[0])
            && r.sales[0].id == SequenceIds.SequenceId("INV", |st.sales|)
            && r.sales[0].total == SumOf(st.draft.lines, LineItems.LineAmount) + st.draft.transport
            && SaleCopiesForm(r.sales[0], st.draft, today)
            && r.sales[0] == NewSale(st.sales, st.store.customers, st.draft, today).value.sale
            && r.draft == EmptySaleDraft
            && r.store.(customers := st.store.customers) == st.store
  {
  }

  /** How the customer list changes after a sale is created: the customers
      with the form's id become the first of them, charged. */
  lemma RecordedCustomerFacts(st: SalesState, today: string)
    requires exists i :: 0 <= i < |st.store.customers| && st.store.customers[i].id == st.draft.customerId
    ensures var r := RecordSale(st, NewSale(st.sales, st.store.customers, st.draft, today).value);
            ChargedFirstMatch(st.store.customers, r.store.customers, st.draft.customerId,
                              r.sales[0].total, r.sales[0].outstandingAmount)
  {
    var created := NewSale(st.sales, st.store.customers, st.draft, today).value;
    var k := ChargedIndex(st.sales, st.store.customers, st.draft, today);
    RecordingChargesFirstMatch(st, created, k);
  }

  /** Recording a sale whose customer is the charged `k`-th customer, the
      first with the form's id, replaces the customers with that id by it. */
  lemma RecordingChargesFirstMatch(st: SalesState, created: SaleCreated, k: nat)
    requires k < |st.store.customers| && st.store.customers[k].id == st.draft.customerId
    requires forall j :: 0 <= j < k ==> st.store.customers[j].id != st.draft.customerId
    requires created.customer == Charge(st.store.customers[k], created.sale.total, created.sale.outstandingAmount)
    ensures var r := RecordSale(st, created);
            ChargedFirstMatch(st.store.customers, r.store.customers, st.draft.customerId,
                              r.sales[0].total, r.sales[0].outstandingAmount)
  {
    var r := RecordSale(st, created);
    var cs := st.store.customers;
    assert created.customer.id == st.draft.customerId;
    assert forall i :: 0 <= i < |cs| && cs[i].id == st.draft.customerId ==>
             r.store.customers[i] == Charge(cs[k], r.sales[0].total, r.sales[0].outstandingAmount);
  }

  /** The state after a created sale is recorded: the invoice in front, every
      customer with the charged customer's id replaced by it, the form
      cleared. */
  function RecordSale(st: SalesState, created: SaleCreated): (r: SalesState)
    ensures |r.sales| == |st.sales| + 1 && r.sales[0] == created.sale && r.sales[1..] == st.sales
    ensures r.draft == EmptySaleDraft
    ensures r.store.(customers := st.store.customers) == st.store
    ensures |r.store.customers| == |st.store.customers|
    ensures forall i :: 0 <= i < |st.store.customers| ==>
              r.store.customers[i] == if st.store.customers[i].id == created.customer.id
                                      then created.customer else st.store.customers[i]
  {
    var r := SalesState([created.sale] + st.sales, EmptySaleDraft, UpdateCustomer(st.store, created.customer));
    assert r.sales[1..] == st.sales;
    r
  }

  /** The position of the customer a created sale charges: the first one
      with the form's customer id. */
  lemma ChargedIndex(sales: seq<Sale>, customers: seq<Customer>, draft: SaleDraft, today: string) returns (k: nat)
    requires exists i :: 0 <= i < |customers| && customers[i].id == draft.customerId
    ensures k < |customers| && customers[k].id == draft.customerId
    ensures forall j :: 0 <= j < k ==> customers[j].id != draft.customerId
    ensures var created := NewSale(sales, customers, draft, today).value;
            created.customer == Charge(customers[k], created.sale.total, created.sale.outstandingAmount)
  {
    var created := NewSale(sales, customers, draft, today).value;
    k :| 0 <= k < |customers| && customers[k].id == draft.customerId
         && (forall j :: 0 <= j < k ==> customers[j].id != draft.customerId)
         && created.sale.customerName == customers[k].name
         && created.sale.customerEmail == customers[k].email
         && created.customer == Charge(customers[k], created.sale.total, created.sale.outstandingAmount);
  }

  /** The payment screen's form over the page's store. */
  datatype PaymentState = PaymentState(draft: PaymentDraft, store: Store)

  /** Submitting the payment form: `createPayment`, then `handleAddPayment`.
      With an unknown customer id nothing changes and the form keeps its
      contents. Otherwise the payment goes first, every customer with the id
      is settled by the entered amount, everything else is kept, and the form
      is reset. */
  function SubmitPayment(st: PaymentState, today: string): (r: PaymentState)
    ensures (forall i :: 0 <= i < |st.store.customers| ==> st.store.customers[i].id != st.draft.customerId)
            ==> r == st
    ensures (exists i :: 0 <= i < |st.store.customers| && st.store.customers[i].id == st.draft.customerId) ==>
              && |r.store.payments| == |st.store.payments| + 1
              && r.store.payments[1..] == st.store.payments
              && r.store.payments[0].id == SequenceIds.SequenceId("PAY", |st.store.payments|)
              && r.store.payments[0].amount == st.draft.amount
              && r.store.payments[0].customerId == st.draft.customerId
              && r.store.payments[0].invoiceId == st.draft.invoiceId
              && r.store.payments[0].paymentMethod == st.draft.paymentMethod
              && r.store.payments[0].notes == st.draft.notes
              && r.store.payments[0].date == today
              && r.store.payments[0] == NewPayment(st.store.payments, st.store.customers, st.draft, today).value
              && r.draft == EmptyPaymentDraft
              && r.store.products == st.store.products && r.store.sales == st.store.sales
              && |r.store.customers| == |st.store.customers|
              && (forall i :: 0 <= i < |st.store.customers| ==>
                    r.store.customers[i] == if st.store.customers[i].id == st.draft.customerId
                                            then Settle(st.store.customers[i], st.draft.amount)
                                            else st.store.customers[i])
  {
    match NewPayment(st.store.payments, st.store.customers, st.draft, today)
    case None => st
    case Some(p) =>
      var r := PaymentState(EmptyPaymentDraft, AddPayment(st.store, p));
      assert r.store.payments[1..] == st.store.payments;
      r
  }

  /** The customer screen's form over the page's store. */
  datatype CustomerState = CustomerState(draft: CustomerDraft, store: Store)

  /** Submitting the customer form: `createCustomer`, then `handleAddCustomer`.
      The new customer, numbered one past the list and owing nothing, goes
      first; the form is emptied. */
  function SubmitCustomer(st: CustomerState, today: string): (r: CustomerState)
    ensures |r.store.customers| == |st.store.customers| + 1
    ensures r.store.customers[1..] == st.store.customers
    ensures r.store.customers[0].id == SequenceIds.SequenceId("CUST", |st.store.customers|)
    ensures r.store.customers[0].name == st.draft.name && r.store.customers[0].email == st.draft.email
    ensures r.store.customers[0].phone == st.draft.phone && r.store.customers[0].address == st.draft.address
    ensures r.store.customers[0].totalPurchases == 0.0 && r.store.customers[0].outstandingBalance == 0.0
    ensures r.store.customers[0].createdAt == today
    ensures r.store.customers[0] == NewCustomer(st.store.customers, st.draft, today)
    ensures r.store.(customers := st.store.customers) == st.store
    ensures r.draft == EmptyCustomerDraft
  {
    var r := CustomerState(EmptyCustomerDraft, AddCustomer(st.store, NewCustomer(st.store.customers, st.draft, today)));
    assert r.store.customers[1..] == st.store.customers;
    r
  }

  /** The product screen: the "add" form, the record being edited (if any),
      and the page's store. */
  datatype ProductState = ProductState(draft: ProductDraft, editing: Option<Product>, store: Store)

  /** Submitting the "add product" form: `addProduct`, then `handleAddProduct`. */
  function SubmitProduct(st: ProductState): (r: ProductState)
    ensures |r.store.products| == |st.store.products| + 1
    ensures r.store.products[1..] == st.store.products
    ensures r.store.products[0].id == SequenceIds.SequenceId("PROD", |st.store.products|)
    ensures r.store.products[0].name == st.draft.name && r.store.products[0].size == st.draft.size
            && r.store.products[0].rate == st.draft.rate
    ensures r.store.(products := st.store.products) == st.store
    ensures r.draft == EmptyProductDraft && r.editing == st.editing
  {
    var r := ProductState(EmptyProductDraft, st.editing, AddProduct(st.store, NewProduct(st.store.products, st.draft)));
    assert r.store.products[1..] == st.store.products;
    r
  }

  /** Saving the edit dialog: `updateProduct`. With no record being edited it
      does nothing; otherwise the record replaces every product with its id
      and the editing slot is cleared. */
  function SubmitProductEdit(st: ProductState): (r: ProductState)
    ensures st.editing.None? ==> r == st
    ensures st.editing.Some? ==>
              && r.editing.None? && r.draft == st.draft
              && r.store.(products := st.store.products) == st.store
              && |r.store.products| == |st.store.products|
              && forall i :: 0 <= i < |st.store.products| ==>
                   r.store.products[i] == if st.store.products[i].id == st.editing.value.id
                                          then st.editing.value else st.store.products[i]
  {
    match st.editing
    case None => st
    case Some(p) => st.(editing := None, store := UpdateProduct(st.store, p))
  }

  /** Deleting the first-added of two products and adding a third gives the
      new product the id of the one still listed: ids come from the list
      length, not from a counter. */
  lemma ProductIdRepeatsAfterDelete(st: ProductState, d1: ProductDraft, d2: ProductDraft, d3: ProductDraft)
    requires st.store.products == []
    ensures var s1 := SubmitProduct(st.(draft := d1));
            var s2 := SubmitProduct(s1.(draft := d2));
            var s3 := s2.(store := DeleteProduct(s2.store, s1.store.products[0].id));
            var s4 := SubmitProduct(s3.(draft := d3));
            |s4.store.products| == 2 && s4.store.products[0].id == s4.store.products[1].id
  {
    var s1 := SubmitProduct(st.(draft := d1));
    var s2 := SubmitProduct(s1.(draft := d2));
    var id1 := SequenceIds.SequenceId("PROD", 0);
    var id2 := SequenceIds.SequenceId("PROD", 1);
    SequenceIds.SequenceIdInjective("PROD", 0, 1);
    assert id1 != id2;
    assert s2.store.products == [s2.store.products[0], s1.store.products[0]];
    assert s2.store.products[0].id == id2 && s1.store.products[0].id == id1;
    var s3 := s2.(store := DeleteProduct(s2.store, id1));
    assert s3.store.products == RemoveWhere([s2.store.products[0]] + [s1.store.products[0]], ProductKey, id1);
    RemoveWhereConcat([s2.store.products[0]], [s1.store.products[0]], ProductKey, id1);
    assert s3.store.products == [s2.store.products[0]];
  }

  /** One event on a customer's account: a sale charged to it, or a payment
      received from it. */
  datatype Entry = SaleEntry(total: real, outstanding: real) | PaymentEntry(amount: real)

  /** The customer record after one event, as the sales and payment flows
      apply it. */
  function Post(c: Customer, e: Entry): Customer
  {
    match e
    case SaleEntry(t, o) => Charge(c, t, o)
    case PaymentEntry(a) => Settle(c, a)
  }

  /** The customer record after a sequence of events, oldest first. */
  function PostAll(c: Customer, es: seq<Entry>): Customer
    decreases |es|
  {
    if |es| == 0 then c else PostAll(Post(c, es[0]), es[1..])
  }

  function Charged(e: Entry): real
  {
    if e.SaleEntry? then e.total else 0.0
  }

  function Owed(e: Entry): real
  {
    if e.SaleEntry? then e.outstanding else 0.0
  }

  function Paid(e: Entry): real
  {
    if e.PaymentEntry? then e.amount else 0.0
  }

  /** The first customer with the charged id is the one charged. */
  lemma FirstMatchIsCharged(before: seq<Customer>, after: seq<Customer>, id: string, total: real,
                            outstanding: real, i: nat)
    requires ChargedFirstMatch(before, after, id, total, outstanding)
    requires i < |before| && before[i].id == id
    requires forall j :: 0 <= j < i ==> before[j].id != id
    ensures after[i] == Charge(before[i], total, outstanding)
  {
    var k :| 0 <= k < |before| && before[k].id == id && (forall j :: 0 <= j < k ==> before[j].id != id)
             && forall m :: 0 <= m < |before| && before[m].id == id ==> after[m] == Charge(before[k], total, outstanding);
    assert !(k < i) && !(i < k);
  }

  /** A sale submitted for a customer posts a sale entry with the invoice's
      total and outstanding amount to the first record carrying that id. */
  lemma SubmitSalePostsEntry(st: SalesState, today: string, i: nat)
    requires i < |st.store.customers| && st.store.customers[i].id == st.draft.customerId
    requires forall j :: 0 <= j < i ==> st.store.customers[j].id != st.draft.customerId
    ensures var r := SubmitSale(st, today);
            r.store.customers[i] == Post(st.store.customers[i], SaleEntry(r.sales[0].total, r.sales[0].outstandingAmount))
  {
    var r := SubmitSale(st, today);
    FirstMatchIsCharged(st.store.customers, r.store.customers, st.draft.customerId,
                        r.sales[0].total, r.sales[0].outstandingAmount, i);
  }

  /** A payment submitted for a customer posts a payment entry with the
      entered amount to every record carrying that id. */
  lemma SubmitPaymentPostsEntry(st: PaymentState, today: string, i: nat)
    requires i < |st.store.customers| && st.store.customers[i].id == st.draft.customerId
    ensures SubmitPayment(st, today).store.customers[i] == Post(st.store.customers[i], PaymentEntry(st.draft.amount))
  {
  }

  /** Total purchases only ever add up the sales' totals: payments never
      lower them. */
  lemma {:induction false} TotalPurchasesAccumulate(c: Customer, es: seq<Entry>)
    ensures PostAll(c, es).totalPurchases == c.totalPurchases + SumOf(es, Charged)
    ensures PostAll(c, es).(totalPurchases := c.totalPurchases, outstandingBalance := c.outstandingBalance) == c
    decreases |es|
  {
    if |es| > 0 {
      TotalPurchasesAccumulate(Post(c, es[0]), es[1..]);
    }
  }

  /** No payment is larger than the balance it is applied to, so the clamp
      at zero never bites. */
  ghost predicate NeverOverpaid(c: Customer, es: seq<Entry>)
    decreases |es|
  {
    |es| == 0
    || ((es[0].PaymentEntry? ==> es[0].amount <= c.outstandingBalance)
        && NeverOverpaid(Post(c, es[0]), es[1..]))
  }

  /** Without overpayments the balance is the opening balance plus what the
      sales left outstanding minus what was paid. */
  lemma {:induction false} BalanceIsChargesMinusPayments(c: Customer, es: seq<Entry>)
    requires NeverOverpaid(c, es)
    ensures PostAll(c, es).outstandingBalance == c.outstandingBalance + SumOf(es, Owed) - SumOf(es, Paid)
    decreases |es|
  {
    if |es| > 0 {
      BalanceIsChargesMinusPayments(Post(c, es[0]), es[1..]);
    }
  }

  /** The clamp only ever raises the balance: it is never below the opening
      balance plus outstanding amounts minus payments. */
  lemma {:induction false} BalanceAtLeastNet(c: Customer, es: seq<Entry>)
    ensures PostAll(c, es).outstandingBalance >= c.outstandingBalance + SumOf(es, Owed) - SumOf(es, Paid)
    decreases |es|
  {
    if |es| > 0 {
      BalanceAtLeastNet(Post(c, es[0]), es[1..]);
    }
  }

  /** From a non-negative balance, and with no sale stored with a negative
      outstanding amount (nobody paid more than the invoice), the balance
      stays non-negative whatever is paid. */
  lemma {:induction false} BalanceStaysNonNegative(c: Customer, es: seq<Entry>)
    requires c.outstandingBalance >= 0.0
    requires forall i :: 0 <= i < |es| && es[i].SaleEntry? ==> es[i].outstanding >= 0.0
    ensures PostAll(c, es).outstandingBalance >= 0.0
    decreases |es|
  {
    if |es| > 0 {
      assert forall i :: 0 <= i < |es[1..]| && es[1..][i].SaleEntry? ==> es[1..][i].outstanding >= 0.0 by {
        forall i | 0 <= i < |es[1..]| && es[1..][i].SaleEntry?
          ensures es[1..][i].outstanding >= 0.0
        {
          assert es[1..][i] == es[i + 1];
        }
      }
      BalanceStaysNonNegative(Post(c, es[0]), es[1..]);
    }
  }

  /** A customer who owes 30000 and pays 50000 ends at 0, and a later sale
      leaving 10000 outstanding puts them at 10000, not at the -10000 the
      sum of the events gives: the overpayment is not kept as credit. */
  lemma OverpaymentIsForgotten(c: Customer)
    requires c.outstandingBalance == 30000.0
    ensures PostAll(c, [PaymentEntry(50000.0)]).outstandingBalance == 0.0
    ensures PostAll(c, [PaymentEntry(50000.0), SaleEntry(10000.0, 10000.0)]).outstandingBalance == 10000.0
    ensures c.outstandingBalance + SumOf([PaymentEntry(50000.0), SaleEntry(10000.0, 10000.0)], Owed)
            - SumOf([PaymentEntry(50000.0), SaleEntry(10000.0, 10000.0)], Paid) == -10000.0
  {
    var es := [PaymentEntry(50000.0), SaleEntry(10000.0, 10000.0)];
    assert es[1..] == [SaleEntry(10000.0, 10000.0)];
    assert es[1..][1..] == [];
  }

  /** A sale of 50000 plus 500 transport with 20000 paid leaves 30500 on a
      fresh customer; a payment of 40000 then clears it to 0, and deleting
      that payment leaves the balance at 0. */
  lemma SaleThenPaymentThenDelete(st: Store, c: Customer, p: Payment)
    requires st.customers == [c] && c.outstandingBalance == 0.0 && c.totalPurchases == 0.0
    requires st.payments == [] && p.customerId == c.id && p.amount == 40000.0
    ensures var charged := Charge(c, 50500.0, 30500.0);
            var s1 := UpdateCustomer(st, charged);
            var s2 := AddPayment(s1, p);
            var s3 := DeletePayment(s2, p.id);
            && s1.customers[0].outstandingBalance == 30500.0
            && s1.customers[0].totalPurchases == 50500.0
            && s2.customers[0].outstandingBalance == 0.0
            && s3.payments == []
            && s3.customers[0].outstandingBalance == 0.0
  {
    var s1 := UpdateCustomer(st, Charge(c, 50500.0, 30500.0));
    var s2 := AddPayment(s1, p);
    DeleteAfterAddPaymentKeepsBalances(s1, p);
  }
}
