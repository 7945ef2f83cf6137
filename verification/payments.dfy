/** Payment records and what the payment screen does with them. */
module Payments {
  import opened Collections
  import opened Search
  import opened Customers
  import SequenceIds

  /** A payment received from a customer. `customerName` is a snapshot taken
      when the payment is recorded; `invoiceId` is free text, not checked
      against any sale; `paymentMethod` is the text of the chosen option. */
  datatype Payment = Payment(
    id: string,
    customerId: string,
    customerName: string,
    invoiceId: string,
    amount: real,
    paymentMethod: string,
    date: string,
    notes: string)

  /** The fields of the "record payment" form. */
  datatype PaymentDraft = PaymentDraft(
    customerId: string,
    invoiceId: string,
    amount: real,
    paymentMethod: string,
    notes: string)

  /** The form after a payment has been recorded: empty fields, amount 0,
      method "cash". */
  const EmptyPaymentDraft := PaymentDraft("", "", 0.0, "cash", "")

  /** The payment built from the form, or nothing when the form's customer id
      names no customer. The amount is taken as entered: it is neither checked
      for sign nor against the customer's balance. */
  function NewPayment(payments: seq<Payment>, customers: seq<Customer>, draft: PaymentDraft, today: string)
    : (r: Option<Payment>)
    ensures r.None? <==> forall i :: 0 <= i < |customers| ==> customers[i].id != draft.customerId
    ensures r.Some? ==> r.value.id == SequenceIds.SequenceId("PAY", |payments|)
    ensures r.Some? ==> exists i :: 0 <= i < |customers| && customers[i].id == draft.customerId
                          && r.value.customerName == customers[i].name
                          && forall j :: 0 <= j < i ==> customers[j].id != draft.customerId
    ensures r.Some? ==> r.value.customerId == draft.customerId && r.value.invoiceId == draft.invoiceId
                        && r.value.amount == draft.amount && r.value.paymentMethod == draft.paymentMethod
                        && r.value.notes == draft.notes && r.value.date == today
  {
    match FindFirst(customers, (c: Customer) => c.id == draft.customerId)
    case None => None
    case Some(customer) =>
      Some(Payment(SequenceIds.SequenceId("PAY", |payments|), draft.customerId, customer.name,
                   draft.invoiceId, draft.amount, draft.paymentMethod, today, draft.notes))
  }

  predicate PaymentMatches(p: Payment, term: string)
  {
    Matches(p.customerName, term) || Matches(p.invoiceId, term)
  }

  /** The payments whose customer name or invoice reference contains the
      search term, ignoring case, in list order. */
  function FilteredPayments(payments: seq<Payment>, term: string): (r: seq<Payment>)
    ensures forall i :: 0 <= i < |r| ==> r[i] in payments && PaymentMatches(r[i], term)
    ensures forall i :: 0 <= i < |payments| && PaymentMatches(payments[i], term) ==> payments[i] in r
  {
    Filter(payments, p => PaymentMatches(p, term))
  }

  /** The search keeps the payments it shows in list order: searching a list
      split in two is searching each part. */
  lemma FilteredPaymentsKeepOrder(a: seq<Payment>, b: seq<Payment>, term: string)
    ensures FilteredPayments(a + b, term) == FilteredPayments(a, term) + FilteredPayments(b, term)
  {
    FilterConcat(a, b, p => PaymentMatches(p, term));
  }
}
