/** The customer records and what the customer screen does with them. */
module Customers {
  import opened Collections
  import opened Search
  import SequenceIds

  /** A customer with the two running aggregates the ledger keeps. */
  datatype Customer = Customer(
    id: string,
    name: string,
    email: string,
    phone: string,
    address: string,
    totalPurchases: real,
    outstandingBalance: real,
    createdAt: string)

  /** The fields of the "new customer" form. */
  datatype CustomerDraft = CustomerDraft(name: string, email: string, phone: string, address: string)

  /** The form after a customer has been created. */
  const EmptyCustomerDraft := CustomerDraft("", "", "", "")

  /** The record built from the form: a `CUST-` id numbered one past the
      current list, the form's contact fields, and nothing bought or owed.
      `today` stands for the current date the screen stamps. */
  function NewCustomer(customers: seq<Customer>, draft: CustomerDraft, today: string): (c: Customer)
    ensures c.id == SequenceIds.SequenceId("CUST", |customers|)
    ensures SequenceIds.DecimalValue(c.id[5..]) == |customers| + 1
    ensures c.name == draft.name && c.email == draft.email
    ensures c.phone == draft.phone && c.address == draft.address
    ensures c.totalPurchases == 0.0 && c.outstandingBalance == 0.0
    ensures c.createdAt == today
  {
    Customer(SequenceIds.SequenceId("CUST", |customers|), draft.name, draft.email,
             draft.phone, draft.address, 0.0, 0.0, today)
  }

  /** A sale of `total` of which `outstanding` is unpaid is charged to the
      customer: both aggregates grow by those amounts, unclamped, and nothing
      else about the customer changes. */
  function Charge(c: Customer, total: real, outstanding: real): (r: Customer)
    ensures r.totalPurchases - c.totalPurchases == total
    ensures r.outstandingBalance - c.outstandingBalance == outstanding
    ensures r.(totalPurchases := c.totalPurchases, outstandingBalance := c.outstandingBalance) == c
  {
    c.(totalPurchases := c.totalPurchases + total,
       outstandingBalance := c.outstandingBalance + outstanding)
  }

  /** A payment of `amount` lowers the balance, never below zero; total
      purchases and every other field are kept. */
  function Settle(c: Customer, amount: real): (r: Customer)
    ensures r.outstandingBalance >= 0.0
    ensures amount <= c.outstandingBalance ==> r.outstandingBalance == c.outstandingBalance - amount
    ensures amount >= c.outstandingBalance ==> r.outstandingBalance == 0.0
    ensures r.(outstandingBalance := c.outstandingBalance) == c
  {
    var lowered := c.outstandingBalance - amount;
    c.(outstandingBalance := if 0.0 > lowered then 0.0 else lowered)
  }

  predicate CustomerMatches(c: Customer, term: string)
  {
    Matches(c.name, term) || Matches(c.id, term)
  }

  /** The customers whose name or id contains the search term, ignoring case,
      in list order. */
  function FilteredCustomers(customers: seq<Customer>, term: string): (r: seq<Customer>)
    ensures forall i :: 0 <= i < |r| ==> r[i] in customers && CustomerMatches(r[i], term)
    ensures forall i :: 0 <= i < |customers| && CustomerMatches(customers[i], term) ==> customers[i] in r
  {
    Filter(customers, c => CustomerMatches(c, term))
  }

  /** The search keeps the customers it shows in list order: searching a list
      split in two is searching each part. */
  lemma FilteredCustomersKeepOrder(a: seq<Customer>, b: seq<Customer>, term: string)
    ensures FilteredCustomers(a + b, term) == FilteredCustomers(a, term) + FilteredCustomers(b, term)
  {
    FilterConcat(a, b, c => CustomerMatches(c, term));
  }

  /** An empty search keeps every customer, in order. */
  lemma EmptySearchKeepsAllCustomers(customers: seq<Customer>)
    ensures FilteredCustomers(customers, "") == customers
  {
    forall i | 0 <= i < |customers|
      ensures CustomerMatches(customers[i], "")
    {
      EmptyTermMatches(customers[i].name);
    }
    FilterKeepsAll(customers, c => CustomerMatches(c, ""));
  }
}
