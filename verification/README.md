# Sales manager ledger, in Dafny

This project models the ledger and arithmetic layer of a small sales-manager
web application. The layer sits inside its React screens. It covers:

- customers with two running aggregates, total purchases and outstanding
  balance;
- sales (invoices) that charge a customer;
- payments that lower a customer's balance, clamped at zero;
- the product catalogue;
- purchases from suppliers, with 10% tax;
- a stand-alone bill generator whose row amounts stay equal to quantity
  times rate;
- an inventory screen that classifies stock levels and adds up values.

The state lives in the page component (`Index`) and in the screens' local
state. Here it is lifted out as immutable datatypes and pure functions:

- The page's handlers add by putting the new record first, update by
  replacing every record with the same id, and delete by filtering the id out.
- The customer, product and payment screens build a record from their
  form and pass it to one of those handlers. The sales and purchase screens
  keep their own lists: the sales screen prepends its invoice to its own list
  and passes only the charged customer to the page, and the purchase screen
  calls no page handler at all.
- Ids are `PREFIX-` followed by the list length plus one, padded on the left
  with `0` to at least three digits.
- Every list search is a case-insensitive substring test on two fields,
  or three for purchases (supplier, id and invoice number). The inventory
  search also has a category filter.

Modules, one per component plus shared helpers:

- `Collections`: the list operations the components use: `find`, `filter`,
  the id-keyed `map` replacement and deletion, `reduce` as a sum, and
  `new Set` as `Distinct`.
- `Search`: `toLowerCase` and `includes`.
- `SequenceIds`: the id format.
- `Tax`: the 10% tax.
- `Customers`, `Products`, `Payments`: one module per screen.
- `LineItems`: the editable rows shared by the sale and purchase forms.
- `Sales`, `Purchases`, `Bills`, `Inventory`: one module per screen.
- `IndexPage`: the page's store and handlers.
- `Ledger`: each form submission composed with the handler it calls, and a
  per-customer replay of sales and payments used to state what the
  aggregates add up to.

Money is exact (`real`); quantities and stock levels are `int`. The current
date is a parameter (`today`).

The model follows the code, which does not reconcile the ledger:

- A new sale's status is "partial" whenever anything is outstanding,
  otherwise "paid". "Unpaid" is never produced, not even when nothing was
  paid (`Sales.UnpaidSaleIsStoredPartial`).
- The stored outstanding amount is `total - paidAmount` without a clamp, so
  it is negative after an overpayment. Only the form's preview clamps it
  (`Sales.StoredOutstandingVersusPreview`).
- The page's handlers for editing or deleting a sale or a payment only
  replace or filter the list. No customer's balance or total purchases is
  reversed or adjusted (`IndexPage.DeleteAfterAddPaymentKeepsBalances`,
  `Ledger.SaleThenPaymentThenDelete`). No screen currently calls these
  handlers: the payment screen takes only the add handler, and the sales
  screen keeps its own list. The lemmas state what the handlers would do
  if a screen called them.
- The clamp at zero loses overpayments: the balance is not the sum of
  charges minus payments once a payment exceeds it
  (`Ledger.OverpaymentIsForgotten`). It is that sum when no payment
  exceeds the balance (`Ledger.BalanceIsChargesMinusPayments`), and never
  below it (`Ledger.BalanceAtLeastNet`).
- Ids depend only on the list length, so after a deletion a new record can
  get the id of one still listed (`Ledger.ProductIdRepeatsAfterDelete`).

## Model

| member | source | states |
|---|---|---|
| Collections.FindFirst | src/components/SalesManager.tsx:106 | `find` gives nothing exactly when no element matches, and otherwise the first matching element |
| Collections.Filter | src/components/InventoryManager.tsx:75 | `filter` keeps exactly the elements satisfying the predicate, and no more elements than the input |
| Collections.FilterConcat | src/pages/Index.tsx:232-234 | filtering distributes over concatenation, so the survivors keep their relative order |
| Collections.FilterKeepsAll | src/components/CustomerManager.tsx:53-56 | a filter whose predicate holds everywhere returns the list unchanged |
| Collections.ReplaceWhere | src/pages/Index.tsx:177-181 | the id-keyed `map` keeps length and order, replaces exactly the elements whose key matches, and leaves the rest unchanged |
| Collections.ReplaceWhereIdempotent | src/pages/Index.tsx:226-230 | replacing twice with the same record is replacing once |
| Collections.ReplaceWhereThenFind | src/pages/Index.tsx:226-230 | after a replacement, looking up the key finds the new record |
| Collections.RemoveWhere | src/pages/Index.tsx:204-206 | deleting by id keeps exactly the elements with another id and never lengthens the list |
| Collections.RemoveWhereCounts | src/pages/Index.tsx:204-206 | deleting by id keeps each element with another id exactly as often as it occurred, and no element with that id |
| Collections.PrependThenRemove | src/pages/Index.tsx:222-224 | deleting a just-prepended record whose id was not in use gives back the old list |
| Collections.SumOfConcat | src/components/SalesManager.tsx:99 | the `reduce` sum of a concatenation is the sum of the parts |
| Collections.SumOfPointwise | src/components/SalesManager.tsx:117-123 | two lists whose elements contribute equal amounts position by position have equal sums |
| Collections.SumOfPartition | src/components/InventoryManager.tsx:75-76 | the sum over a list is the sum over the elements satisfying a predicate plus the sum over the rest |
| Collections.Distinct | src/components/InventoryManager.tsx:66 | `new Set` keeps every element, adds none, and repeats none |
| Collections.DistinctFirstOccurrenceOrder | src/components/InventoryManager.tsx:66 | the set's elements come in order of first occurrence |
| Search.Lower | src/components/SalesManager.tsx:161-164 | lower-casing keeps the length, turns each capital into its own lower-case letter (32 code points on), leaves no capital, and keeps every other character |
| Search.LowerIdempotent | src/components/SalesManager.tsx:161-164 | lower-casing twice is lower-casing once |
| Search.Includes | src/components/SalesManager.tsx:161-164 | `includes` holds exactly when the needle occurs at some position of the haystack |
| Search.EmptyTermMatches | src/components/CustomerManager.tsx:53-56 | the empty search term matches every field |
| Search.MatchesIgnoresCase | src/components/PaymentManager.tsx:65-68 | the search ignores the case of both the field and the term, and every field matches itself |
| SequenceIds.DecimalDigits | src/components/SalesManager.tsx:112 | `String(n)` is a non-empty string of digits without a leading zero for positive n |
| SequenceIds.DecimalRoundTrip | src/components/SalesManager.tsx:112 | reading back the decimal digits gives the number |
| SequenceIds.LeadingZerosIgnored | src/components/SalesManager.tsx:112 | zeros added by `padStart` do not change the number the digits denote |
| SequenceIds.DigitCount | src/components/SalesManager.tsx:112 | a number has at most three digits exactly when it is below 1000 |
| SequenceIds.PadStart | src/components/SalesManager.tsx:112 | the fill goes in front until the string is the width; a string already that long is kept whole, so the original is always the suffix |
| SequenceIds.PaddedNumberFacts | src/components/SalesManager.tsx:112 | the padded number is all digits, exactly 3 long below 1000, the whole decimal form (never truncated) from 1000 on, and denotes the number |
| SequenceIds.SequenceId | src/components/PaymentManager.tsx:45 | an id is the prefix, a dash and digits that denote the list length plus one |
| SequenceIds.SequenceIdInjective | src/components/CustomerManager.tsx:39 | two list lengths give the same id exactly when they are equal |
| SequenceIds.SequenceIdExamples | src/components/ProductManager.tsx:37 | the ids for lengths 0, 41 and 999 are `INV-001`, `PAY-042` and `CUST-1000` |
| Tax.WithTax | src/components/PurchaseManager.tsx:91-92 | the tax is a tenth of the subtotal and the total eleven tenths of it |
| Customers.NewCustomer | src/components/CustomerManager.tsx:37-48 | a new customer has the `CUST-` id for the list length, the form's contact fields, and zero total purchases and balance |
| Customers.Charge | src/components/SalesManager.tsx:134-139 | a sale adds its total to total purchases and its outstanding amount to the balance, and changes nothing else |
| Customers.Settle | src/pages/Index.tsx:187-192 | a payment lowers the balance to `max(0, balance - amount)`, so never below zero, and changes nothing else |
| Customers.FilteredCustomers | src/components/CustomerManager.tsx:53-56 | the customer search keeps exactly the customers whose name or id contains the term, ignoring case |
| Customers.FilteredCustomersKeepOrder | src/components/CustomerManager.tsx:53-56 | the search keeps the customers it shows in list order: searching two lists joined is searching each and joining the results |
| Customers.EmptySearchKeepsAllCustomers | src/components/CustomerManager.tsx:53-56 | an empty search keeps every customer, in order |
| Products.NewProduct | src/components/ProductManager.tsx:35-41 | a new product has the `PROD-` id for the list length and the form's name, size and rate |
| Products.FilteredProducts | src/components/ProductManager.tsx:56-59 | the product search keeps exactly the products whose name or size contains the term |
| Products.FilteredProductsKeepOrder | src/components/ProductManager.tsx:56-59 | the search keeps the products it shows in list order: searching two lists joined is searching each and joining the results |
| Payments.NewPayment | src/components/PaymentManager.tsx:40-54 | no payment for an unknown customer; otherwise the `PAY-` id, the first matching customer's name, and the form's fields copied unchanged |
| Payments.FilteredPayments | src/components/PaymentManager.tsx:65-68 | the payment search keeps exactly the payments whose customer name or invoice reference contains the term |
| Payments.FilteredPaymentsKeepOrder | src/components/PaymentManager.tsx:65-68 | the search keeps the payments it shows in list order: searching two lists joined is searching each and joining the results |
| LineItems.AddLine | src/components/SalesManager.tsx:69-74 | adding a row appends a blank row and keeps the others |
| LineItems.UpdateLine | src/components/PurchaseManager.tsx:66-87 | only the edited row changes; a known product fills in name, size and price from the first product with that id; an unknown product only records the id; other edits set just their field |
| Sales.CalculateTotal | src/components/SalesManager.tsx:98-102 | the subtotal is the sum of quantity times rate over the rows, and the total adds the transport |
| Sales.StatusFor | src/components/SalesManager.tsx:129 | the status is "partial" exactly when something is outstanding, else "paid", and never "unpaid" |
| Sales.PreviewOutstanding | src/components/SalesManager.tsx:314 | the form shows `max(0, total - paid)` |
| Sales.StoredItems | src/components/SalesManager.tsx:117-123 | the stored rows copy the form's rows in order, each with amount quantity times rate, and add up to the form's subtotal |
| Sales.BuildSale | src/components/SalesManager.tsx:111-130 | the invoice is well formed: the amounts, subtotal, total, unclamped outstanding amount and status agree; it also snapshots the customer's name and email |
| Sales.NewSale | src/components/SalesManager.tsx:104-139 | no sale for an unknown customer; otherwise a well-formed `INV-` invoice whose rows copy the form, and the first matching customer charged with its total and outstanding amount |
| Sales.StoredOutstandingVersusPreview | src/components/SalesManager.tsx:109 | the stored outstanding amount is the previewed one unless more than the total was paid; then it is negative, the status is "paid" and the preview shows 0 |
| Sales.UnpaidSaleIsStoredPartial | src/components/SalesManager.tsx:129 | a sale with nothing paid and a positive total is stored as "partial" |
| Sales.FilteredSales | src/components/SalesManager.tsx:161-164 | the sales search keeps exactly the sales whose customer name or id contains the term |
| Sales.FilteredSalesKeepOrder | src/components/SalesManager.tsx:161-164 | the search keeps the sales it shows in list order: searching two lists joined is searching each and joining the results |
| Purchases.PurchaseTotals | src/components/PurchaseManager.tsx:89-93 | the subtotal is the sum of quantity times unit price, and the total is eleven tenths of it |
| Purchases.StoredPurchaseItems | src/components/PurchaseManager.tsx:103-109 | the stored rows copy the form's rows in order and add up to the form's subtotal |
| Purchases.CreatePurchase | src/components/PurchaseManager.tsx:95-123 | a well-formed, pending `PUR-` purchase dated today, with the form's supplier, supplier email, invoice number and rows, goes in front of the unchanged list, and the form is cleared |
| Purchases.FilteredPurchases | src/components/PurchaseManager.tsx:125-129 | the purchase search keeps exactly the purchases whose supplier, id or invoice number contains the term |
| Purchases.FilteredPurchasesKeepOrder | src/components/PurchaseManager.tsx:125-129 | the search keeps the purchases it shows in list order: searching two lists joined is searching each and joining the results |
| Bills.AddItem | src/components/BillGenerator.tsx:33-38 | adding appends a blank row, keeps the others, and keeps amounts consistent |
| Bills.UpdateItem | src/components/BillGenerator.tsx:40-52 | only the edited row changes; quantity and rate edits recompute its amount; a description edit leaves the amount; consistent amounts stay consistent |
| Bills.DropAt | src/components/BillGenerator.tsx:56 | filtering out index i leaves the rows before and after it, in order |
| Bills.RemoveItem | src/components/BillGenerator.tsx:54-59 | with more than one row exactly row i goes; the last row is never removed; consistent amounts stay consistent |
| Bills.BillTotals | src/components/BillGenerator.tsx:61-66 | the subtotal adds the stored amounts, the tax is a tenth of it, and the total adds the tax |
| Bills.SubtotalIsSumOfProducts | src/components/BillGenerator.tsx:44-46 | while amounts are consistent, the subtotal is the sum of quantity times rate |
| Bills.ReachableBillsWellFormed | src/components/BillGenerator.tsx:24-59 | any sequence of add, update and remove from a consistent, non-empty bill keeps it consistent and non-empty |
| Bills.InitialBillWellFormed | src/components/BillGenerator.tsx:23-25 | the fresh bill has one row and consistent amounts |
| Inventory.GetStockStatus | src/components/InventoryManager.tsx:78-86 | "low" exactly at or below the minimum, "medium" exactly up to one and a half times it, "good" exactly above that |
| Inventory.LowStockItems | src/components/InventoryManager.tsx:75 | the low-stock list is exactly the items whose status is "low" |
| Inventory.TotalInventoryValue | src/components/InventoryManager.tsx:76 | the total value of an empty inventory is 0, it adds over any split of the list, and it is not negative when no item's value is |
| Inventory.TotalValueSplitsByStock | src/components/InventoryManager.tsx:75-76 | the total value is the low-stock value plus the rest, and is not negative when no item's value is |
| Inventory.Categories | src/components/InventoryManager.tsx:66 | the category list is "all" followed by every item category exactly once |
| Inventory.CategoriesInFirstAppearanceOrder | src/components/InventoryManager.tsx:66 | the categories after "all" come in order of first appearance |
| Inventory.FilteredInventory | src/components/InventoryManager.tsx:68-73 | an item is shown exactly when its name or id contains the term and the category is "all" or its own |
| Inventory.UnfilteredInventoryShowsAll | src/components/InventoryManager.tsx:68-73 | with an empty search and category "all" every item is shown |
| IndexPage.AddCustomer | src/pages/Index.tsx:173-175 | the new customer goes first; nothing else changes |
| IndexPage.UpdateCustomer | src/pages/Index.tsx:177-181 | exactly the customers with the record's id are replaced; length, order and the rest are kept |
| IndexPage.AddPayment | src/pages/Index.tsx:183-196 | the payment goes first; matching customers' balances become `max(0, balance - amount)`; total purchases and other customers are kept |
| IndexPage.UpdatePayment | src/pages/Index.tsx:198-202 | an id-keyed replacement that leaves customers untouched |
| IndexPage.DeletePayment | src/pages/Index.tsx:204-206 | keeps exactly the payments with another id, each as many times as before, and never lengthens the list; customers untouched |
| IndexPage.AddProduct | src/pages/Index.tsx:208-210 | the new product goes first; nothing else changes |
| IndexPage.UpdateProduct | src/pages/Index.tsx:212-216 | an id-keyed replacement of products; nothing else changes |
| IndexPage.DeleteProduct | src/pages/Index.tsx:218-220 | keeps exactly the products with another id, each as many times as before, and never lengthens the list; nothing else changes |
| IndexPage.AddSale | src/pages/Index.tsx:222-224 | the new sale goes first; customers untouched |
| IndexPage.UpdateSale | src/pages/Index.tsx:226-230 | an id-keyed replacement of sales; customers untouched |
| IndexPage.DeleteSale | src/pages/Index.tsx:232-234 | keeps exactly the sales with another id, each as many times as before, and never lengthens the list; customers untouched |
| IndexPage.DeletionsKeepOrder | src/pages/Index.tsx:204-234 | deleting distributes over any split of the list, so the other records keep their order |
| IndexPage.DeleteUndoesAddSale | src/pages/Index.tsx:222-234 | deleting a just-added sale with a fresh id restores the store |
| IndexPage.DeleteAfterAddPaymentKeepsBalances | src/pages/Index.tsx:183-206 | deleting a just-added payment restores the payment list but not the balances it lowered |
| IndexPage.UpdateSaleSettles | src/pages/Index.tsx:226-230 | updating a sale twice with the same record is updating once, and the new record is then found by its id |
| Ledger.SubmitSale | src/components/SalesManager.tsx:104-148 | an unknown customer changes nothing; otherwise the invoice created from the form (its customer id, date, transport, amount paid and rows, with the first match's name and email) is prepended to the screen's list, the customers with that id get the charged first match, the rest are kept, and the form is reset |
| Ledger.SubmitPayment | src/components/PaymentManager.tsx:40-63 | an unknown customer changes nothing, including the form; otherwise the payment created from the form (its customer id, invoice id, amount, method, notes and today's date, with the first match's name) is prepended, matching customers are settled by its amount, and the form is reset |
| Ledger.SubmitCustomer | src/components/CustomerManager.tsx:37-51 | the new customer with the `CUST-` id, the form's name, email, phone and address, zero aggregates and today's date goes first, and the form is emptied |
| Ledger.SubmitProduct | src/components/ProductManager.tsx:35-46 | the new product with the `PROD-` id goes first, and the form is reset |
| Ledger.SubmitProductEdit | src/components/ProductManager.tsx:48-54 | does nothing when no product is being edited; otherwise replaces by id and clears the editing slot |
| Ledger.ProductIdRepeatsAfterDelete | src/components/ProductManager.tsx:37 | add, add, delete the first, add: the list holds two products with the same id |
| Ledger.SubmitSalePostsEntry | src/components/SalesManager.tsx:134-139 | submitting a sale posts a sale entry with its total and outstanding amount to the first customer record with the form's id |
| Ledger.SubmitPaymentPostsEntry | src/pages/Index.tsx:187-192 | submitting a payment posts a payment entry with its amount to the customer's record |
| Ledger.TotalPurchasesAccumulate | src/components/SalesManager.tsx:136 | total purchases are the opening value plus the totals of the sales posted, and no other field changes |
| Ledger.BalanceIsChargesMinusPayments | src/pages/Index.tsx:187-192 | when no payment exceeds the balance, the balance is opening plus outstanding amounts minus payments |
| Ledger.BalanceAtLeastNet | src/pages/Index.tsx:191 | the clamp only raises: the balance is never below opening plus outstanding amounts minus payments |
| Ledger.BalanceStaysNonNegative | src/pages/Index.tsx:191 | from a non-negative balance, with no sale stored with a negative outstanding amount, the balance stays non-negative |
| Ledger.OverpaymentIsForgotten | src/pages/Index.tsx:191 | paying 50000 on 30000 then owing 10000 leaves 10000, not the -10000 the events add up to |
| Ledger.SaleThenPaymentThenDelete | src/pages/Index.tsx:183-206 | a sale leaving 30500 owed, a payment of 40000, then deleting that payment: the balance goes 30500, 0, and stays 0 |

## Left out

- Rendering is not modelled: JSX, dialogs, badges, selects, the tab layout,
  the dashboard and reports screens (mock data and charts only), login and
  logout.
- The current date is a parameter `today`; the code's
  `new Date().toISOString()` call is not modelled.
- Display formatting (`toLocaleString`) and the invoice download and print
  stubs are left out; they produce no data.
- Form input parsing (`parseInt`/`parseFloat` with the `|| 0` fallback) is
  left out; inputs are numbers that have already been converted.
- Floating point is left out: money is exact, so rounding in the 10% tax
  (`subtotal * 0.1` in the code, a tenth here) and in sums is not modelled.
  The code's left-to-right `reduce` equals the model's sum over exact
  numbers.
- Search.Lower: lower-cases ASCII `A`-`Z` only, because JavaScript's full
  Unicode case mapping is not modelled.
- The dynamic `[field]: value` row updates are a typed edit for each field
  a screen's inputs can send. Field names outside those, and values of the
  wrong type, are not modelled.
- Bills.UpdateItem: an edit of the `amount` field is not modelled. The code
  would store such a value without recomputing it and so break
  `amount == quantity * rate`, but the bill's Amount input is disabled and
  nothing sends that edit. `Bills.ReachableBillsWellFormed` depends on
  this.
- The sales and purchase screens' initial sample lists are not modelled;
  the screens' lists are parameters.
- The props that the page passes to the sales screen but that the screen
  does not declare are not modelled. The screen keeps its own sales list
  and never calls the page's sale handlers, which are modelled on their own.
- The same goes for the payment screen: it declares only the add handler,
  so the page's payment edit and delete handlers are reachable from no
  screen. They are modelled on their own (`IndexPage.UpdatePayment`,
  `IndexPage.DeletePayment`).
