/** The inventory screen: stock levels classified against their minimum,
    the low-stock list, the total stock value, and category/search filters. */
module Inventory {
  import opened Collections
  import opened Search

  datatype InventoryItem = InventoryItem(
    id: string,
    name: string,
    category: string,
    currentStock: int,
    minStock: int,
    unitPrice: real,
    totalValue: real,
    lastUpdated: string)

  datatype StockStatus = Low | Medium | Good

  /** `getStockStatus`: "low" at or below the minimum, "medium" up to one and
      a half times the minimum, "good" above that. In whole numbers the
      medium band is `2 * current <= 3 * min`. */
  function GetStockStatus(currentStock: int, minStock: int): (s: StockStatus)
    ensures s == Low <==> currentStock <= minStock
    ensures s == Medium <==> minStock < currentStock && 2 * currentStock <= 3 * minStock
    ensures s == Good <==> minStock < currentStock && 2 * currentStock > 3 * minStock
  {
    if currentStock <= minStock then Low
    else if currentStock as real <= (minStock as real) * 1.5 then Medium
    else Good
  }

  predicate IsLowStock(item: InventoryItem)
  {
    item.currentStock <= item.minStock
  }

  predicate IsStocked(item: InventoryItem)
  {
    item.currentStock > item.minStock
  }

  /** `lowStockItems`: exactly the items whose status is "low", in order. */
  function LowStockItems(inventory: seq<InventoryItem>): (r: seq<InventoryItem>)
    ensures forall i :: 0 <= i < |r| ==> r[i] in inventory && GetStockStatus(r[i].currentStock, r[i].minStock) == Low
    ensures forall i :: 0 <= i < |inventory| && GetStockStatus(inventory[i].currentStock, inventory[i].minStock) == Low
                        ==> inventory[i] in r
  {
    Filter(inventory, IsLowStock)
  }

  function ItemValue(item: InventoryItem): real
  {
    item.totalValue
  }

  /** `totalInventoryValue`: the stored values of all items added up. An
      empty inventory is worth nothing, the value adds over any split of the
      list, and it is not negative when no item's value is. */
  function TotalInventoryValue(inventory: seq<InventoryItem>): (v: real)
    ensures |inventory| == 0 ==> v == 0.0
    ensures forall k :: 0 <= k <= |inventory| ==>
              v == SumOf(inventory[..k], ItemValue) + SumOf(inventory[k..], ItemValue)
    ensures (forall i :: 0 <= i < |inventory| ==> inventory[i].totalValue >= 0.0) ==> v >= 0.0
  {
    SumOfSplitAnywhere(inventory, ItemValue);
    if forall i :: 0 <= i < |inventory| ==> inventory[i].totalValue >= 0.0 then
      SumOfNonNegative(inventory, ItemValue);
      SumOf(inventory, ItemValue)
    else
      SumOf(inventory, ItemValue)
  }

  /** The total value is the value of the low-stock items plus the value of
      the others, and it is not negative when no item's value is. */
  lemma TotalValueSplitsByStock(inventory: seq<InventoryItem>)
    ensures TotalInventoryValue(LowStockItems(inventory))
            + TotalInventoryValue(Filter(inventory, IsStocked))
            == TotalInventoryValue(inventory)
    ensures (forall i :: 0 <= i < |inventory| ==> inventory[i].totalValue >= 0.0) ==>
              TotalInventoryValue(inventory) >= 0.0
  {
    SumOfPartition(inventory, IsLowStock, IsStocked, ItemValue);
    if forall i :: 0 <= i < |inventory| ==> inventory[i].totalValue >= 0.0 {
      SumOfNonNegative(inventory, ItemValue);
    }
  }

  /** `inventory.map(item => item.category)`. */
  function CategoryList(inventory: seq<InventoryItem>): (cats: seq<string>)
    ensures |cats| == |inventory|
    ensures forall k :: 0 <= k < |inventory| ==> cats[k] == inventory[k].category
  {
    seq(|inventory|, k requires 0 <= k < |inventory| => inventory[k].category)
  }

  /** `["all", ...new Set(inventory.map(item => item.category))]`: "all",
      then every category once, in order of first appearance. */
  function Categories(inventory: seq<InventoryItem>): (r: seq<string>)
    ensures |r| >= 1 && r[0] == "all"
    ensures forall i :: 0 <= i < |inventory| ==> inventory[i].category in r[1..]
    ensures forall i :: 1 <= i < |r| ==> exists k :: 0 <= k < |inventory| && inventory[k].category == r[i]
    ensures forall i, j :: 1 <= i < j < |r| ==> r[i] != r[j]
  {
    var cats := CategoryList(inventory);
    var distinct := Distinct(cats);
    assert forall i :: 0 <= i < |distinct| ==> exists k :: 0 <= k < |inventory| && inventory[k].category == distinct[i] by {
      forall i | 0 <= i < |distinct|
        ensures exists k :: 0 <= k < |inventory| && inventory[k].category == distinct[i]
      {
        var k := IndexOf(cats, distinct[i]);
        assert inventory[k].category == distinct[i];
      }
    }
    assert forall i :: 0 <= i < |inventory| ==> inventory[i].category in distinct by {
      forall i | 0 <= i < |inventory|
        ensures inventory[i].category in distinct
      {
        assert cats[i] == inventory[i].category;
      }
    }
    ["all"] + distinct
  }

  /** The categories after "all" are listed in the order in which they first
      appear among the items. */
  lemma CategoriesInFirstAppearanceOrder(inventory: seq<InventoryItem>)
    ensures var cats := CategoryList(inventory);
            var r := Categories(inventory);
            forall i, j :: 1 <= i < j < |r| ==> r[i] in cats && r[j] in cats && IndexOf(cats, r[i]) < IndexOf(cats, r[j])
  {
    var cats := CategoryList(inventory);
    DistinctFirstOccurrenceOrder(cats);
    var r := Categories(inventory);
    assert r[1..] == Distinct(cats);
    forall i, j | 1 <= i < j < |r|
      ensures r[i] in cats && r[j] in cats && IndexOf(cats, r[i]) < IndexOf(cats, r[j])
    {
      assert r[i] == Distinct(cats)[i - 1] && r[j] == Distinct(cats)[j - 1];
    }
  }

  /** The search matches the name or the id, and the category filter is
      either "all" or an exact category. */
  predicate InventoryMatches(item: InventoryItem, term: string, category: string)
  {
    (Matches(item.name, term) || Matches(item.id, term))
    && (category == "all" || item.category == category)
  }

  /** `filteredInventory`: the items matching both the search and the
      category filter, in order. */
  function FilteredInventory(inventory: seq<InventoryItem>, term: string, category: string)
    : (r: seq<InventoryItem>)
    ensures forall i :: 0 <= i < |r| ==> r[i] in inventory && InventoryMatches(r[i], term, category)
    ensures forall i :: 0 <= i < |inventory| && InventoryMatches(inventory[i], term, category) ==> inventory[i] in r
  {
    Filter(inventory, x => InventoryMatches(x, term, category))
  }

  /** With an empty search and the category "all", every item is shown. */
  lemma UnfilteredInventoryShowsAll(inventory: seq<InventoryItem>)
    ensures FilteredInventory(inventory, "", "all") == inventory
  {
    forall i | 0 <= i < |inventory|
      ensures InventoryMatches(inventory[i], "", "all")
    {
      EmptyTermMatches(inventory[i].name);
    }
    FilterKeepsAll(inventory, x => InventoryMatches(x, "", "all"));
  }
}
