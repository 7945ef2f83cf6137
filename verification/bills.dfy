/** The stand-alone bill generator: an editable list of rows whose amounts are
    kept equal to quantity times rate, with 10% tax on the sum. */
module Bills {
  import opened Collections
  import opened Tax

  datatype BillItem = BillItem(description: string, quantity: int, rate: real, amount: real)

  /** The row the form starts with and `addItem` appends. */
  const BlankBillItem := BillItem("", 1, 0.0, 0.0)

  /** The rows of a fresh bill: one blank row. */
  const InitialItems := [BlankBillItem]

  /** One `updateItem(index, field, value)` call, by field. */
  datatype BillEdit = SetDescription(description: string) | SetQuantity(quantity: int) | SetRate(rate: real)

  /** `quantity * rate` of one row. */
  function ItemProduct(it: BillItem): real
  {
    (it.quantity as real) * it.rate
  }

  /** Every row's amount is its quantity times its rate. */
  ghost predicate AmountsConsistent(items: seq<BillItem>)
  {
    forall i :: 0 <= i < |items| ==> items[i].amount == ItemProduct(items[i])
  }

  /** `addItem`: a blank row is appended and the existing rows are kept. */
  function AddItem(items: seq<BillItem>): (r: seq<BillItem>)
    ensures |r| == |items| + 1
    ensures r[..|items|] == items && r[|items|] == BlankBillItem
    ensures AmountsConsistent(items) ==> AmountsConsistent(r)
  {
    items + [BlankBillItem]
  }

  /** The edited row: the field is set, and the amount is recomputed only when
      the quantity or the rate was edited. */
  function EditItem(item: BillItem, edit: BillEdit): BillItem
  {
    match edit
    case SetDescription(d) => item.(description := d)
    case SetQuantity(q) => item.(quantity := q, amount := (q as real) * item.rate)
    case SetRate(v) => item.(rate := v, amount := (item.quantity as real) * v)
  }

  /** `updateItem`: only row `index` changes (none when out of range). Editing
      the quantity or rate makes that row's amount their product; editing the
      description leaves the amount alone. Consistent amounts stay consistent. */
  function UpdateItem(items: seq<BillItem>, index: int, edit: BillEdit): (r: seq<BillItem>)
    ensures |r| == |items|
    ensures forall j :: 0 <= j < |items| && j != index ==> r[j] == items[j]
    ensures 0 <= index < |items| && !edit.SetDescription? ==>
              r[index].amount == ItemProduct(r[index])
    ensures 0 <= index < |items| && edit.SetDescription? ==>
              r[index] == items[index].(description := edit.description)
    ensures 0 <= index < |items| && edit.SetQuantity? ==>
              r[index].quantity == edit.quantity && r[index].rate == items[index].rate
              && r[index].description == items[index].description
    ensures 0 <= index < |items| && edit.SetRate? ==>
              r[index].rate == edit.rate && r[index].quantity == items[index].quantity
              && r[index].description == items[index].description
    ensures AmountsConsistent(items) ==> AmountsConsistent(r)
  {
    seq(|items|, i requires 0 <= i < |items| => if i == index then EditItem(items[i], edit) else items[i])
  }

  /** `items.filter((_, i) => i !== index)`. */
  function DropAt(items: seq<BillItem>, index: int): (r: seq<BillItem>)
    ensures 0 <= index < |items| ==> r == items[..index] + items[index + 1..]
    ensures !(0 <= index < |items|) ==> r == items
    decreases |items|
  {
    if |items| == 0 then []
    else
      var rest := DropAt(items[1..], index - 1);
      if index == 0 then
        rest
      else
        assert 0 < index < |items| ==> [items[0]] + rest == items[..index] + items[index + 1..] by {
          if 0 < index < |items| {
            assert items[..index] == [items[0]] + items[1..][..index - 1];
            assert items[index + 1..] == items[1..][index..];
          }
        }
        assert !(0 <= index < |items|) ==> [items[0]] + rest == items;
        [items[0]] + rest
  }

  /** `removeItem`: with more than one row, exactly row `index` goes and the
      rest keep their order; the last remaining row is never removed. */
  function RemoveItem(items: seq<BillItem>, index: int): (r: seq<BillItem>)
    ensures |items| <= 1 ==> r == items
    ensures |items| > 1 && 0 <= index < |items| ==> |r| == |items| - 1
    ensures |items| > 1 && 0 <= index < |items| ==>
              (forall j :: 0 <= j < index ==> r[j] == items[j])
              && (forall j :: index <= j < |r| ==> r[j] == items[j + 1])
    ensures !(0 <= index < |items|) ==> r == items
    ensures |items| >= 1 ==> |r| >= 1
    ensures AmountsConsistent(items) ==> AmountsConsistent(r)
  {
    if |items| > 1 && 0 <= index < |items| then
      DropAtKeepsOthers(items, index);
      DropAt(items, index)
    else if |items| > 1 then
      DropAt(items, index)
    else
      items
  }

  /** Position by position, dropping row `index` shifts the later rows down
      by one, and keeps consistent amounts consistent. */
  lemma DropAtKeepsOthers(items: seq<BillItem>, index: int)
    requires 0 <= index < |items|
    ensures |DropAt(items, index)| == |items| - 1
    ensures forall j :: 0 <= j < index ==> DropAt(items, index)[j] == items[j]
    ensures forall j :: index <= j < |items| - 1 ==> DropAt(items, index)[j] == items[j + 1]
    ensures AmountsConsistent(items) ==> AmountsConsistent(DropAt(items, index))
  {
    var r := DropAt(items, index);
    assert r == items[..index] + items[index + 1..];
    forall j | 0 <= j < |r|
      ensures r[j] == if j < index then items[j] else items[j + 1]
    {
      if j < index {
        assert r[j] == items[..index][j];
      } else {
        assert r[j] == items[index + 1..][j - index];
      }
    }
  }

  function ItemAmount(it: BillItem): real
  {
    it.amount
  }

  /** `calculateTotals`: the stored amounts added up, then 10% tax. */
  function BillTotals(items: seq<BillItem>): (t: TaxedTotals)
    ensures t.subtotal == SumOf(items, ItemAmount)
    ensures 10.0 * t.tax == t.subtotal
    ensures t.total == t.subtotal + t.tax
  {
    WithTax(SumOf(items, ItemAmount))
  }

  /** While the amounts are consistent, the bill's subtotal is the sum of
      quantity times rate over its rows. */
  lemma SubtotalIsSumOfProducts(items: seq<BillItem>)
    requires AmountsConsistent(items)
    ensures BillTotals(items).subtotal == SumOf(items, ItemProduct)
  {
    SumOfPointwise(items, ItemAmount, items, ItemProduct);
  }

  /** The user actions on the bill's rows. */
  datatype BillAction = Add | Update(index: int, edit: BillEdit) | Remove(index: int)

  function Apply(items: seq<BillItem>, a: BillAction): seq<BillItem>
  {
    match a
    case Add => AddItem(items)
    case Update(i, e) => UpdateItem(items, i, e)
    case Remove(i) => RemoveItem(items, i)
  }

  function ApplyAll(items: seq<BillItem>, actions: seq<BillAction>): seq<BillItem>
    decreases |actions|
  {
    if |actions| == 0 then items else ApplyAll(Apply(items, actions[0]), actions[1..])
  }

  /** Every bill reachable from a fresh one by any sequence of actions has at
      least one row, and every row's amount is its quantity times its rate. */
  lemma {:induction false} ReachableBillsWellFormed(items: seq<BillItem>, actions: seq<BillAction>)
    requires |items| >= 1 && AmountsConsistent(items)
    ensures |ApplyAll(items, actions)| >= 1
    ensures AmountsConsistent(ApplyAll(items, actions))
    decreases |actions|
  {
    if |actions| > 0 {
      ReachableBillsWellFormed(Apply(items, actions[0]), actions[1..]);
    }
  }

  /** The fresh bill satisfies the invariant. */
  lemma InitialBillWellFormed()
    ensures |InitialItems| == 1 && AmountsConsistent(InitialItems)
  {
  }
}
