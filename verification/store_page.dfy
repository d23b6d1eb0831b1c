/** The Store page's grid: the products of the selected category (or all
    of them) whose name contains the search term, letter case ignored; the
    counts shown above it; and the empty state. */
module StorePage {
  import opened Text
  import opened Listing

  /** The product fields the page reads. */
  datatype Product = Product(name: string, category: string, status: string)

  const AllCategories := "all"

  predicate Shown(product: Product, selectedCategory: string, searchTerm: string) {
    (selectedCategory == AllCategories || product.category == selectedCategory)
    && Matches(product.name, searchTerm)
  }

  /** `filteredProducts`. */
  function FilteredProducts(products: seq<Product>, selectedCategory: string, searchTerm: string): seq<Product> {
    Filter(products, p => Shown(p, selectedCategory, searchTerm))
  }

  predicate IsActive(product: Product) {
    product.status == "active"
  }

  predicate IsOutOfStock(product: Product) {
    product.status == "out_of_stock"
  }

  /** The three counts above the grid. */
  datatype Counts = Counts(shown: nat, active: nat, outOfStock: nat)

  /** The grid's length, then the active and out-of-stock products of the
      whole catalogue. */
  function StoreCounts(products: seq<Product>, selectedCategory: string, searchTerm: string): (c: Counts)
    ensures c.shown <= |products|
    ensures c.active + c.outOfStock <= |products|
  {
    DisjointFilters(products, IsActive, IsOutOfStock);
    Counts(|FilteredProducts(products, selectedCategory, searchTerm)|,
           |Filter(products, IsActive)|,
           |Filter(products, IsOutOfStock)|)
  }

  predicate EmptyState(products: seq<Product>, selectedCategory: string, searchTerm: string) {
    |FilteredProducts(products, selectedCategory, searchTerm)| == 0
  }

  /** The grid keeps the catalogue's order; every product in it is of the
      selected category (unless "all" is selected) and has a name
      containing the term, letter case ignored — the description plays no
      part; and every product meeting both conditions is in it. */
  lemma FilteredProductsExact(products: seq<Product>, selectedCategory: string, searchTerm: string)
    ensures var r := FilteredProducts(products, selectedCategory, searchTerm);
      && SubsequenceOf(r, products)
      && (forall i :: 0 <= i < |r| ==>
            (selectedCategory == "all" || r[i].category == selectedCategory)
            && Includes(Lower(r[i].name), Lower(searchTerm)))
      && (forall p :: multiset(r)[p] == if Shown(p, selectedCategory, searchTerm) then multiset(products)[p] else 0)
  {
  }

  /** "all" with an empty search shows the whole catalogue. */
  lemma AllAndEmptySearchShowsEverything(products: seq<Product>)
    ensures FilteredProducts(products, "all", "") == products
  {
    forall i | 0 <= i < |products|
      ensures Shown(products[i], "all", "")
    {
      EmptyTermMatches(products[i].name);
    }
    FilterKeepsAll(products, p => Shown(p, "all", ""));
  }

  /** The active and out-of-stock counts describe the catalogue, whatever
      the selection; the first count is the grid's length. */
  lemma CountsIgnoreSelection(products: seq<Product>, c1: string, t1: string, c2: string, t2: string)
    ensures StoreCounts(products, c1, t1).active == StoreCounts(products, c2, t2).active
    ensures StoreCounts(products, c1, t1).outOfStock == StoreCounts(products, c2, t2).outOfStock
    ensures StoreCounts(products, c1, t1).shown == |FilteredProducts(products, c1, t1)|
  {
  }

  /** The empty state shows exactly when no product meets both conditions. */
  lemma EmptyStateIff(products: seq<Product>, selectedCategory: string, searchTerm: string)
    ensures EmptyState(products, selectedCategory, searchTerm)
      <==> forall i :: 0 <= i < |products| ==> !Shown(products[i], selectedCategory, searchTerm)
  {
    FilterEmptyIff(products, p => Shown(p, selectedCategory, searchTerm));
  }
}
