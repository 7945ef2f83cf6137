/** The product catalogue and what the product screen does with it. */
module Products {
  import opened Collections
  import opened Search
  import SequenceIds

  datatype Product = Product(id: string, name: string, size: string, rate: real)

  /** The fields of the "new product" form. */
  datatype ProductDraft = ProductDraft(name: string, size: string, rate: real)

  /** The form after a product has been added. */
  const EmptyProductDraft := ProductDraft("", "", 0.0)

  /** The product built from the form, with a `PROD-` id numbered one past the
      current list length. */
  function NewProduct(products: seq<Product>, draft: ProductDraft): (p: Product)
    ensures p.id == SequenceIds.SequenceId("PROD", |products|)
    ensures SequenceIds.DecimalValue(p.id[5..]) == |products| + 1
    ensures p.name == draft.name && p.size == draft.size && p.rate == draft.rate
  {
    Product(SequenceIds.SequenceId("PROD", |products|), draft.name, draft.size, draft.rate)
  }

  predicate ProductMatches(p: Product, term: string)
  {
    Matches(p.name, term) || Matches(p.size, term)
  }

  /** The products whose name or size contains the search term, ignoring
      case, in list order. */
  function FilteredProducts(products: seq<Product>, term: string): (r: seq<Product>)
    ensures forall i :: 0 <= i < |r| ==> r[i] in products && ProductMatches(r[i], term)
    ensures forall i :: 0 <= i < |products| && ProductMatches(products[i], term) ==> products[i] in r
  {
    Filter(products, p => ProductMatches(p, term))
  }

  /** The search keeps the products it shows in list order: searching a list
      split in two is searching each part. */
  lemma FilteredProductsKeepOrder(a: seq<Product>, b: seq<Product>, term: string)
    ensures FilteredProducts(a + b, term) == FilteredProducts(a, term) + FilteredProducts(b, term)
  {
    FilterConcat(a, b, p => ProductMatches(p, term));
  }
}
