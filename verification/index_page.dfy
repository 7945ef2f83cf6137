/** The application's top-level state and the handlers the page passes down
    to the screens. Adding puts the new record first, updating replaces by
    id, deleting filters by id. Customer balances change only through adding
    a payment, which settles them, and updating a customer, which replaces
    whole records (this is how a sale's charge reaches the store); editing
    or deleting a sale or a payment leaves them alone. */
module IndexPage {
  import opened Collections
  import opened Customers
  import opened Payments
  import opened Products
  import opened Sales

  datatype Store = Store(customers: seq<Customer>, payments: seq<Payment>, products: seq<Product>, sales: seq<Sale>)

  function CustomerKey(c: Customer): string { c.id }
  function PaymentKey(p: Payment): string { p.id }
  function ProductKey(p: Product): string { p.id }
  function SaleKey(s: Sale): string { s.id }

  /** `handleAddCustomer`: the new customer goes first; nothing else changes. */
  function AddCustomer(st: Store, c: Customer): (r: Store)
    ensures r.customers == [c] + st.customers
    ensures r.(customers := st.customers) == st
  {
    st.(customers := [c] + st.customers)
  }

  /** `handleUpdateCustomer`: every customer with the record's id is replaced
      by it; length, order and all other customers are kept. */
  function UpdateCustomer(st: Store, u: Customer): (r: Store)
    ensures |r.customers| == |st.customers|
    ensures forall i :: 0 <= i < |st.customers| ==>
              r.customers[i] == if st.customers[i].id == u.id then u else st.customers[i]
    ensures r.(customers := st.customers) == st
  {
    st.(customers := ReplaceWhere(st.customers, CustomerKey, u))
  }

  /** The customer list after a payment: each customer with the payment's
      customer id has the amount taken off the balance, clamped at zero. */
  function SettleMatching(customers: seq<Customer>, p: Payment): (r: seq<Customer>)
    ensures |r| == |customers|
    ensures forall i :: 0 <= i < |customers| && customers[i].id == p.customerId ==>
              r[i] == Settle(customers[i], p.amount)
    ensures forall i :: 0 <= i < |customers| && customers[i].id != p.customerId ==> r[i] == customers[i]
  {
    seq(|customers|, i requires 0 <= i < |customers| =>
      if customers[i].id == p.customerId then Settle(customers[i], p.amount) else customers[i])
  }

  /** `handleAddPayment`: the payment goes first in the payment list; every
      customer with its customer id ends with balance `max(0, old - amount)`,
      which is never negative; total purchases and every other customer are
      kept. */
  function AddPayment(st: Store, p: Payment): (r: Store)
    ensures r.payments == [p] + st.payments
    ensures |r.customers| == |st.customers|
    ensures forall i :: 0 <= i < |st.customers| && st.customers[i].id == p.customerId ==>
              r.customers[i].outstandingBalance >= 0.0
              && r.customers[i].outstandingBalance >= st.customers[i].outstandingBalance - p.amount
              && (p.amount <= st.customers[i].outstandingBalance ==>
                    r.customers[i].outstandingBalance == st.customers[i].outstandingBalance - p.amount)
              && (p.amount >= st.customers[i].outstandingBalance ==> r.customers[i].outstandingBalance == 0.0)
    ensures forall i :: 0 <= i < |st.customers| ==>
              r.customers[i].(outstandingBalance := st.customers[i].outstandingBalance) == st.customers[i]
    ensures forall i :: 0 <= i < |st.customers| && st.customers[i].id != p.customerId ==>
              r.customers[i] == st.customers[i]
    ensures r.products == st.products && r.sales == st.sales
  {
    st.(payments := [p] + st.payments, customers := SettleMatching(st.customers, p))
  }

  /** `handleUpdatePayment`: replaces the payments with that id; balances are
      not adjusted. */
  function UpdatePayment(st: Store, u: Payment): (r: Store)
    ensures |r.payments| == |st.payments|
    ensures forall i :: 0 <= i < |st.payments| ==>
              r.payments[i] == if st.payments[i].id == u.id then u else st.payments[i]
    ensures r.(payments := st.payments) == st
  {
    st.(payments := ReplaceWhere(st.payments, PaymentKey, u))
  }

  /** `handleDeletePayment`: keeps exactly the payments with another id, each
      as many times as before; the amount is not given back to the
      customer's balance. */
  function DeletePayment(st: Store, id: string): (r: Store)
    ensures forall i :: 0 <= i < |r.payments| ==> r.payments[i] in st.payments && r.payments[i].id != id
    ensures forall i :: 0 <= i < |st.payments| && st.payments[i].id != id ==> st.payments[i] in r.payments
    ensures |r.payments| <= |st.payments|
    ensures forall i :: 0 <= i < |st.payments| ==>
              multiset(r.payments)[st.payments[i]] == if st.payments[i].id != id then multiset(st.payments)[st.payments[i]] else 0
    ensures r.(payments := st.payments) == st
  {
    RemoveWhereCounts(st.payments, PaymentKey, id);
    st.(payments := RemoveWhere(st.payments, PaymentKey, id))
  }

  /** `handleAddProduct`. */
  function AddProduct(st: Store, p: Product): (r: Store)
    ensures r.products == [p] + st.products
    ensures r.(products := st.products) == st
  {
    st.(products := [p] + st.products)
  }

  /** `handleUpdateProduct`. */
  function UpdateProduct(st: Store, u: Product): (r: Store)
    ensures |r.products| == |st.products|
    ensures forall i :: 0 <= i < |st.products| ==>
              r.products[i] == if st.products[i].id == u.id then u else st.products[i]
    ensures r.(products := st.products) == st
  {
    st.(products := ReplaceWhere(st.products, ProductKey, u))
  }

  /** `handleDeleteProduct`: keeps exactly the products with another id, each
      as many times as before. */
  function DeleteProduct(st: Store, id: string): (r: Store)
    ensures forall i :: 0 <= i < |r.products| ==> r.products[i] in st.products && r.products[i].id != id
    ensures forall i :: 0 <= i < |st.products| && st.products[i].id != id ==> st.products[i] in r.products
    ensures |r.products| <= |st.products|
    ensures forall i :: 0 <= i < |st.products| ==>
              multiset(r.products)[st.products[i]] == if st.products[i].id != id then multiset(st.products)[st.products[i]] else 0
    ensures r.(products := st.products) == st
  {
    RemoveWhereCounts(st.products, ProductKey, id);
    st.(products := RemoveWhere(st.products, ProductKey, id))
  }

  /** `handleAddSale`: the sale goes first; customer aggregates are not
      touched here. */
  function AddSale(st: Store, s: Sale): (r: Store)
    ensures r.sales == [s] + st.sales
    ensures r.(sales := st.sales) == st
  {
    st.(sales := [s] + st.sales)
  }

  /** `handleUpdateSale`: replaces the sales with that id; neither the old nor
      the new customer's aggregates are adjusted. */
  function UpdateSale(st: Store, u: Sale): (r: Store)
    ensures |r.sales| == |st.sales|
    ensures forall i :: 0 <= i < |st.sales| ==>
              r.sales[i] == if st.sales[i].id == u.id then u else st.sales[i]
    ensures r.(sales := st.sales) == st
  {
    st.(sales := ReplaceWhere(st.sales, SaleKey, u))
  }

  /** `handleDeleteSale`: keeps exactly the sales with another id, each as
      many times as before; the sale's total and outstanding amount stay on
      the customer. */
  function DeleteSale(st: Store, id: string): (r: Store)
    ensures forall i :: 0 <= i < |r.sales| ==> r.sales[i] in st.sales && r.sales[i].id != id
    ensures forall i :: 0 <= i < |st.sales| && st.sales[i].id != id ==> st.sales[i] in r.sales
    ensures |r.sales| <= |st.sales|
    ensures forall i :: 0 <= i < |st.sales| ==>
              multiset(r.sales)[st.sales[i]] == if st.sales[i].id != id then multiset(st.sales)[st.sales[i]] else 0
    ensures r.(sales := st.sales) == st
  {
    RemoveWhereCounts(st.sales, SaleKey, id);
    st.(sales := RemoveWhere(st.sales, SaleKey, id))
  }

  /** Deleting a sale, product or payment keeps the others in their order:
      deletion distributes over any split of the list. */
  lemma DeletionsKeepOrder(st: Store, id: string, i: nat, j: nat, k: nat)
    requires i <= |st.sales| && j <= |st.products| && k <= |st.payments|
    ensures DeleteSale(st, id).sales
            == DeleteSale(st.(sales := st.sales[..i]), id).sales + DeleteSale(st.(sales := st.sales[i..]), id).sales
    ensures DeleteProduct(st, id).products
            == DeleteProduct(st.(products := st.products[..j]), id).products
               + DeleteProduct(st.(products := st.products[j..]), id).products
    ensures DeletePayment(st, id).payments
            == DeletePayment(st.(payments := st.payments[..k]), id).payments
               + DeletePayment(st.(payments := st.payments[k..]), id).payments
  {
    RemoveWhereSplit(st.sales, SaleKey, id, i);
    RemoveWhereSplit(st.products, ProductKey, id, j);
    RemoveWhereSplit(st.payments, PaymentKey, id, k);
  }

  /** Deleting a sale that was just added under a fresh id gives back the
      store as it was: adding and deleting a sale never involve customers. */
  lemma DeleteUndoesAddSale(st: Store, s: Sale)
    requires forall i :: 0 <= i < |st.sales| ==> st.sales[i].id != s.id
    ensures DeleteSale(AddSale(st, s), s.id) == st
  {
    PrependThenRemove(st.sales, SaleKey, s);
  }

  /** Deleting a payment that was just added under a fresh id restores the
      payment list but not the balances the payment lowered. */
  lemma DeleteAfterAddPaymentKeepsBalances(st: Store, p: Payment)
    requires forall i :: 0 <= i < |st.payments| ==> st.payments[i].id != p.id
    ensures DeletePayment(AddPayment(st, p), p.id).payments == st.payments
    ensures DeletePayment(AddPayment(st, p), p.id).customers == SettleMatching(st.customers, p)
  {
    PrependThenRemove(st.payments, PaymentKey, p);
  }

  /** Updating a sale twice with the same record is updating it once, and
      afterwards the first sale with that id is the new record. */
  lemma UpdateSaleSettles(st: Store, u: Sale)
    requires exists i :: 0 <= i < |st.sales| && st.sales[i].id == u.id
    ensures UpdateSale(UpdateSale(st, u), u) == UpdateSale(st, u)
    ensures FindFirst(UpdateSale(st, u).sales, (s: Sale) => SaleKey(s) == SaleKey(u)) == Some(u)
  {
    ReplaceWhereIdempotent(st.sales, SaleKey, u);
    ReplaceWhereThenFind(st.sales, SaleKey, u);
  }
}
