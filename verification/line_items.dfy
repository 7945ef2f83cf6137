/** The editable line rows of the sale and purchase forms. Both screens use
    the same row shape and the same `addItem`/`updateItem` code; the price
    column is called `rate` on the sale form and `unitPrice` on the purchase
    form and is `price` here. */
module LineItems {
  import opened Collections
  import opened Products

  datatype DraftLine = DraftLine(productId: string, name: string, size: string, quantity: int, price: real)

  /** The row `addItem` appends: no product, quantity 1, price 0. */
  const BlankLine := DraftLine("", "", "", 1, 0.0)

  /** One `updateItem(index, field, value)` call, by field. */
  datatype LineEdit =
    | SetProduct(productId: string)
    | SetName(name: string)
    | SetSize(size: string)
    | SetQuantity(quantity: int)
    | SetPrice(price: real)

  /** `quantity * price` of one row. */
  function LineAmount(l: DraftLine): real
  {
    (l.quantity as real) * l.price
  }

  /** `addItem`: a blank row is appended and the existing rows are kept. */
  function AddLine(lines: seq<DraftLine>): (r: seq<DraftLine>)
    ensures |r| == |lines| + 1
    ensures r[..|lines|] == lines
    ensures r[|lines|] == BlankLine
  {
    lines + [BlankLine]
  }

  /** The new value of the edited row. Choosing a product that is in the
      catalogue copies its name, size and rate into the row; choosing an
      unknown product id only records the id. */
  function EditLine(line: DraftLine, products: seq<Product>, edit: LineEdit): DraftLine
  {
    match edit
    case SetProduct(pid) =>
      (match FindFirst(products, (p: Product) => p.id == pid)
       case Some(p) => line.(productId := pid, name := p.name, size := p.size, price := p.rate)
       case None => line.(productId := pid))
    case SetName(n) => line.(name := n)
    case SetSize(s) => line.(size := s)
    case SetQuantity(q) => line.(quantity := q)
    case SetPrice(v) => line.(price := v)
  }

  /** `updateItem(index, field, value)`: only row `index` changes (none when
      the index is out of range). A known product fills in name, size and
      price from the first catalogue entry with that id; every other edit sets
      just its own field. */
  function UpdateLine(lines: seq<DraftLine>, products: seq<Product>, index: int, edit: LineEdit)
    : (r: seq<DraftLine>)
    ensures |r| == |lines|
    ensures forall j :: 0 <= j < |lines| && j != index ==> r[j] == lines[j]
    ensures 0 <= index < |lines| && edit.SetProduct? ==>
              (forall k :: 0 <= k < |products| ==> products[k].id != edit.productId) ==>
                r[index] == lines[index].(productId := edit.productId)
    ensures 0 <= index < |lines| && edit.SetProduct? ==>
              forall k :: 0 <= k < |products| && products[k].id == edit.productId
                          && (forall j :: 0 <= j < k ==> products[j].id != edit.productId) ==>
                r[index] == lines[index].(productId := edit.productId, name := products[k].name,
                                          size := products[k].size, price := products[k].rate)
    ensures 0 <= index < |lines| && edit.SetName? ==> r[index] == lines[index].(name := edit.name)
    ensures 0 <= index < |lines| && edit.SetSize? ==> r[index] == lines[index].(size := edit.size)
    ensures 0 <= index < |lines| && edit.SetQuantity? ==> r[index] == lines[index].(quantity := edit.quantity)
    ensures 0 <= index < |lines| && edit.SetPrice? ==> r[index] == lines[index].(price := edit.price)
  {
    seq(|lines|, i requires 0 <= i < |lines| => if i == index then EditLine(lines[i], products, edit) else lines[i])
  }
}
