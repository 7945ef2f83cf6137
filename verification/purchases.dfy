/** Purchases from suppliers, kept by the purchase screen in its own list. */
module Purchases {
  import opened Collections
  import opened Search
  import opened LineItems
  import opened Tax
  import SequenceIds

  /** A stored purchase row; `amount` is `quantity * unitPrice` at creation. */
  datatype PurchaseItem = PurchaseItem(name: string, size: string, quantity: int, unitPrice: real, amount: real)

  datatype PurchaseStatus = Received | Pending

  datatype Purchase = Purchase(
    id: string,
    date: string,
    supplier: string,
    supplierEmail: string,
    invoiceNumber: string,
    items: seq<PurchaseItem>,
    subtotal: real,
    tax: real,
    total: real,
    status: PurchaseStatus)

  /** The fields of the "new purchase" form. */
  datatype PurchaseDraft = PurchaseDraft(supplier: string, supplierEmail: string, invoiceNumber: string,
                                         lines: seq<DraftLine>)

  /** The form after a purchase has been created. */
  const EmptyPurchaseDraft := PurchaseDraft("", "", "", [BlankLine])

  function PurchaseItemAmount(it: PurchaseItem): real
  {
    it.amount
  }

  /** What a purchase records about itself: each row's amount is quantity
      times unit price, the subtotal adds the rows, the tax is a tenth of the
      subtotal and the total is subtotal plus tax. */
  ghost predicate WellFormedPurchase(p: Purchase)
  {
    && (forall i :: 0 <= i < |p.items| ==> p.items[i].amount == (p.items[i].quantity as real) * p.items[i].unitPrice)
    && p.subtotal == SumOf(p.items, PurchaseItemAmount)
    && 10.0 * p.tax == p.subtotal
    && p.total == p.subtotal + p.tax
  }

  /** `calculateTotal` of the purchase form: the rows' amounts added up, then
      10% tax on top. */
  function PurchaseTotals(draft: PurchaseDraft): (t: TaxedTotals)
    ensures t.subtotal == SumOf(draft.lines, LineAmount)
    ensures 10.0 * t.tax == t.subtotal
    ensures 10.0 * t.total == 11.0 * t.subtotal
  {
    WithTax(SumOf(draft.lines, LineAmount))
  }

  function StoredPurchaseItem(l: DraftLine): (it: PurchaseItem)
    ensures it.name == l.name && it.size == l.size && it.quantity == l.quantity && it.unitPrice == l.price
    ensures it.amount == (it.quantity as real) * it.unitPrice
  {
    PurchaseItem(l.name, l.size, l.quantity, l.price, LineAmount(l))
  }

  /** The rows stored on the purchase: the form's rows in order, adding up to
      the form's subtotal. */
  function StoredPurchaseItems(lines: seq<DraftLine>): (items: seq<PurchaseItem>)
    ensures |items| == |lines|
    ensures forall i :: 0 <= i < |lines| ==> items[i] == StoredPurchaseItem(lines[i])
    ensures SumOf(items, PurchaseItemAmount) == SumOf(lines, LineAmount)
  {
    var items := seq(|lines|, i requires 0 <= i < |lines| => StoredPurchaseItem(lines[i]));
    SumOfPointwise(items, PurchaseItemAmount, lines, LineAmount);
    items
  }

  function BuildPurchase(id: string, draft: PurchaseDraft, today: string): (p: Purchase)
    ensures WellFormedPurchase(p)
    ensures p.id == id && p.date == today && p.status == Pending
    ensures p.supplier == draft.supplier && p.supplierEmail == draft.supplierEmail
    ensures p.invoiceNumber == draft.invoiceNumber
    ensures |p.items| == |draft.lines|
    ensures forall i :: 0 <= i < |draft.lines| ==> p.items[i] == StoredPurchaseItem(draft.lines[i])
  {
    var t := PurchaseTotals(draft);
    Purchase(id, today, draft.supplier, draft.supplierEmail, draft.invoiceNumber,
             StoredPurchaseItems(draft.lines), t.subtotal, t.tax, t.total, Pending)
  }

  /** The purchase screen's own state. */
  datatype PurchaseScreen = PurchaseScreen(purchases: seq<Purchase>, draft: PurchaseDraft)

  /** `createPurchase`: a pending, well-formed purchase numbered one past the
      list is put in front of the existing purchases, whose order is kept, and
      the form is cleared. */
  function CreatePurchase(screen: PurchaseScreen, today: string): (r: PurchaseScreen)
    ensures |r.purchases| == |screen.purchases| + 1
    ensures r.purchases[1..] == screen.purchases
    ensures WellFormedPurchase(r.purchases[0])
    ensures r.purchases[0].id == SequenceIds.SequenceId("PUR", |screen.purchases|)
    ensures r.purchases[0].status == Pending
    ensures 10.0 * r.purchases[0].total == 11.0 * SumOf(screen.draft.lines, LineAmount)
    ensures |r.purchases[0].items| == |screen.draft.lines|
    ensures forall i :: 0 <= i < |screen.draft.lines| ==>
              r.purchases[0].items[i].quantity == screen.draft.lines[i].quantity
              && r.purchases[0].items[i].unitPrice == screen.draft.lines[i].price
    ensures forall i :: 0 <= i < |screen.draft.lines| ==>
              r.purchases[0].items[i] == StoredPurchaseItem(screen.draft.lines[i])
    ensures r.purchases[0].supplier == screen.draft.supplier
            && r.purchases[0].supplierEmail == screen.draft.supplierEmail
            && r.purchases[0].invoiceNumber == screen.draft.invoiceNumber
            && r.purchases[0].date == today
    ensures r.purchases[0] == BuildPurchase(SequenceIds.SequenceId("PUR", |screen.purchases|), screen.draft, today)
    ensures r.draft == EmptyPurchaseDraft
  {
    var p := BuildPurchase(SequenceIds.SequenceId("PUR", |screen.purchases|), screen.draft, today);
    PurchaseScreen([p] + screen.purchases, EmptyPurchaseDraft)
  }

  predicate PurchaseMatches(p: Purchase, term: string)
  {
    Matches(p.supplier, term) || Matches(p.id, term) || Matches(p.invoiceNumber, term)
  }

  /** The purchases whose supplier, id or supplier invoice number contains the
      search term, ignoring case, in list order. */
  function FilteredPurchases(purchases: seq<Purchase>, term: string): (r: seq<Purchase>)
    ensures forall i :: 0 <= i < |r| ==> r[i] in purchases && PurchaseMatches(r[i], term)
    ensures forall i :: 0 <= i < |purchases| && PurchaseMatches(purchases[i], term) ==> purchases[i] in r
  {
    Filter(purchases, p => PurchaseMatches(p, term))
  }

  /** The search keeps the purchases it shows in list order: searching a list
      split in two is searching each part. */
  lemma FilteredPurchasesKeepOrder(a: seq<Purchase>, b: seq<Purchase>, term: string)
    ensures FilteredPurchases(a + b, term) == FilteredPurchases(a, term) + FilteredPurchases(b, term)
  {
    FilterConcat(a, b, p => PurchaseMatches(p, term));
  }
}
