/** Sales (invoices) and what the sales screen does when a sale is created. */
module Sales {
  import opened Collections
  import opened Search
  import opened Customers
  import opened LineItems
  import SequenceIds

  /** A stored invoice row; `amount` is `quantity * rate` at creation. */
  datatype SaleItem = SaleItem(name: string, size: string, quantity: int, rate: real, amount: real)

  /** The status a sale record may carry. */
  datatype SaleStatus = Paid | Partial | Unpaid

  /** An invoice. `customerName` and `customerEmail` are snapshots taken when
      the sale is created. */
  datatype Sale = Sale(
    id: string,
    date: string,
    customerId: string,
    customerName: string,
    customerEmail: string,
    items: seq<SaleItem>,
    subtotal: real,
    transport: real,
    total: real,
    paidAmount: real,
    outstandingAmount: real,
    status: SaleStatus)

  /** The fields of the "new sale" form. */
  datatype SaleDraft = SaleDraft(customerId: string, lines: seq<DraftLine>, transport: real, paidAmount: real)

  /** The form after a sale has been created: no customer, one blank row,
      no transport, nothing paid. */
  const EmptySaleDraft := SaleDraft("", [BlankLine], 0.0, 0.0)

  function ItemAmount(it: SaleItem): real
  {
    it.amount
  }

  /** What the invoice records about itself: every row's amount is its
      quantity times its rate, the subtotal adds the rows, the total adds the
      transport charge, the outstanding amount is what was not paid, and the
      status is "partial" exactly when something is outstanding. */
  ghost predicate WellFormedSale(s: Sale)
  {
    && (forall i :: 0 <= i < |s.items| ==> s.items[i].amount == (s.items[i].quantity as real) * s.items[i].rate)
    && s.subtotal == SumOf(s.items, ItemAmount)
    && s.total == s.subtotal + s.transport
    && s.outstandingAmount == s.total - s.paidAmount
    && (s.status == Partial <==> s.outstandingAmount > 0.0)
    && s.status != Unpaid
  }

  datatype SaleTotals = SaleTotals(subtotal: real, total: real)

  /** `calculateTotal`: the rows' amounts added up, plus transport. */
  function CalculateTotal(draft: SaleDraft): (t: SaleTotals)
    ensures t.subtotal == SumOf(draft.lines, LineAmount)
    ensures t.total - t.subtotal == draft.transport
  {
    var subtotal := SumOf(draft.lines, LineAmount);
    SaleTotals(subtotal, subtotal + draft.transport)
  }

  /** The status stored on a new sale: "partial" while anything is
      outstanding, otherwise "paid". "unpaid" is never produced, even when
      nothing was paid. */
  function StatusFor(outstanding: real): (s: SaleStatus)
    ensures s != Unpaid
    ensures s == Partial <==> outstanding > 0.0
  {
    if outstanding > 0.0 then Partial else Paid
  }

  /** The "Outstanding" figure the form shows before submission: never
      negative, unlike the amount that is stored. */
  function PreviewOutstanding(draft: SaleDraft): (r: real)
    ensures r >= 0.0
    ensures draft.paidAmount <= CalculateTotal(draft).total ==> r == CalculateTotal(draft).total - draft.paidAmount
    ensures draft.paidAmount >= CalculateTotal(draft).total ==> r == 0.0
  {
    var owed := CalculateTotal(draft).total - draft.paidAmount;
    if 0.0 > owed then 0.0 else owed
  }

  /** The stored form of a form row. */
  function StoredItem(l: DraftLine): (it: SaleItem)
    ensures it.name == l.name && it.size == l.size && it.quantity == l.quantity && it.rate == l.price
    ensures it.amount == LineAmount(l)
    ensures it.amount == (it.quantity as real) * it.rate
  {
    SaleItem(l.name, l.size, l.quantity, l.price, LineAmount(l))
  }

  /** The rows stored on the invoice: the form's rows in order, each with
      its amount, adding up to the form's subtotal. */
  function StoredItems(lines: seq<DraftLine>): (items: seq<SaleItem>)
    ensures |items| == |lines|
    ensures forall i :: 0 <= i < |lines| ==> items[i] == StoredItem(lines[i])
    ensures SumOf(items, ItemAmount) == SumOf(lines, LineAmount)
  {
    var items := seq(|lines|, i requires 0 <= i < |lines| => StoredItem(lines[i]));
    SumOfPointwise(items, ItemAmount, lines, LineAmount);
    items
  }

  /** The invoice built from the form for a known customer. */
  function BuildSale(id: string, customer: Customer, draft: SaleDraft, today: string): (s: Sale)
    ensures WellFormedSale(s)
    ensures s.id == id
    ensures s.customerId == draft.customerId && s.date == today
    ensures s.customerName == customer.name && s.customerEmail == customer.email
    ensures s.transport == draft.transport && s.paidAmount == draft.paidAmount
    ensures s.total == SumOf(draft.lines, LineAmount) + draft.transport
    ensures |s.items| == |draft.lines|
    ensures forall i :: 0 <= i < |draft.lines| ==> s.items[i] == StoredItem(draft.lines[i])
  {
    var totals := CalculateTotal(draft);
    var outstanding := totals.total - draft.paidAmount;
    var items := StoredItems(draft.lines);
    Sale(id, today, draft.customerId, customer.name,
         customer.email, items, totals.subtotal, draft.transport, totals.total,
         draft.paidAmount, outstanding, StatusFor(outstanding))
  }

  /** A new sale and the customer record it updates. */
  datatype SaleCreated = SaleCreated(sale: Sale, customer: Customer)

  /** `createSale`: nothing when the form's customer id names no customer;
      otherwise a well-formed invoice numbered one past the screen's list,
      whose rows copy the form's rows in order, and the first matching
      customer charged with its total and its outstanding amount. */
  function NewSale(sales: seq<Sale>, customers: seq<Customer>, draft: SaleDraft, today: string)
    : (r: Option<SaleCreated>)
    ensures r.None? <==> forall i :: 0 <= i < |customers| ==> customers[i].id != draft.customerId
    ensures r.Some? ==> WellFormedSale(r.value.sale)
    ensures r.Some? ==> r.value.customer.id == draft.customerId
    ensures r.Some? ==> r.value.sale.id == SequenceIds.SequenceId("INV", |sales|)
    ensures r.Some? ==> r.value.sale.customerId == draft.customerId && r.value.sale.date == today
                        && r.value.sale.transport == draft.transport && r.value.sale.paidAmount == draft.paidAmount
    ensures r.Some? ==> r.value.sale.total == SumOf(draft.lines, LineAmount) + draft.transport
    ensures r.Some? ==> |r.value.sale.items| == |draft.lines|
                        && forall i :: 0 <= i < |draft.lines| ==>
                             r.value.sale.items[i].name == draft.lines[i].name
                             && r.value.sale.items[i].size == draft.lines[i].size
                             && r.value.sale.items[i].quantity == draft.lines[i].quantity
                             && r.value.sale.items[i].rate == draft.lines[i].price
    ensures r.Some? ==> exists i :: 0 <= i < |customers| && customers[i].id == draft.customerId
                          && (forall j :: 0 <= j < i ==> customers[j].id != draft.customerId)
                          && r.value.sale.customerName == customers[i].name
                          && r.value.sale.customerEmail == customers[i].email
                          && r.value.customer == Charge(customers[i], r.value.sale.total, r.value.sale.outstandingAmount)
  {
    match FindFirst(customers, (c: Customer) => c.id == draft.customerId)
    case None => None
    case Some(customer) =>
      var sale := BuildSale(SequenceIds.SequenceId("INV", |sales|), customer, draft, today);
      Some(SaleCreated(sale, Charge(customer, sale.total, sale.outstandingAmount)))
  }

  /** Paying more than the total stores a negative outstanding amount and the
      status "paid", while the form showed an outstanding amount of 0. When
      the payment does not exceed the total, the stored amount is the one the
      form showed. */
  lemma StoredOutstandingVersusPreview(sales: seq<Sale>, customers: seq<Customer>, draft: SaleDraft, today: string)
    requires exists i :: 0 <= i < |customers| && customers[i].id == draft.customerId
    ensures var s := NewSale(sales, customers, draft, today).value.sale;
            (draft.paidAmount <= s.total ==> s.outstandingAmount == PreviewOutstanding(draft))
            && (draft.paidAmount > s.total ==>
                  s.outstandingAmount < 0.0 && PreviewOutstanding(draft) == 0.0 && s.status == Paid)
  {
  }

  /** A sale with nothing paid and a positive total is stored as "partial",
      not "unpaid". */
  lemma UnpaidSaleIsStoredPartial(sales: seq<Sale>, customers: seq<Customer>, draft: SaleDraft, today: string)
    requires exists i :: 0 <= i < |customers| && customers[i].id == draft.customerId
    requires draft.paidAmount == 0.0 && CalculateTotal(draft).total > 0.0
    ensures NewSale(sales, customers, draft, today).value.sale.status == Partial
  {
  }

  predicate SaleMatches(s: Sale, term: string)
  {
    Matches(s.customerName, term) || Matches(s.id, term)
  }

  /** The sales whose customer name or invoice id contains the search term,
      ignoring case, in list order. */
  function FilteredSales(sales: seq<Sale>, term: string): (r: seq<Sale>)
    ensures forall i :: 0 <= i < |r| ==> r[i] in sales && SaleMatches(r[i], term)
    ensures forall i :: 0 <= i < |sales| && SaleMatches(sales[i], term) ==> sales[i] in r
  {
    Filter(sales, s => SaleMatches(s, term))
  }

  /** The search keeps the sales it shows in list order: searching a list
      split in two is searching each part. */
  lemma FilteredSalesKeepOrder(a: seq<Sale>, b: seq<Sale>, term: string)
    ensures FilteredSales(a + b, term) == FilteredSales(a, term) + FilteredSales(b, term)
  {
    FilterConcat(a, b, s => SaleMatches(s, term));
  }
}
