/** The admin products table: the search over name, farmer and category, the
    stock colour bands and the paged view. */
module ProductsTable {
  import opened Models
  import Text
  import Seqs
  import Pagination

  /** The search: product name, farmer name or category. */
  predicate MatchesQuery(p: Product, query: string)
  {
    Text.IncludesIgnoreCase(p.name, query)
    || Text.IncludesIgnoreCase(p.farmer.name, query)
    || Text.IncludesIgnoreCase(CategoryName(p.category), query)
  }

  /** `filteredProducts`: kept iff the query matches, in order; an empty query
      keeps every product. */
  function FilteredProducts(products: seq<Product>, query: string): (r: seq<Product>)
    ensures forall p :: p in r <==> p in products && MatchesQuery(p, query)
    ensures Seqs.IsSubsequence(r, products)
    ensures query == "" ==> r == products
  {
    Text.EmptyNeedleMatches();
    Seqs.FilterIsSubsequence(products, (p: Product) => MatchesQuery(p, query));
    Seqs.Filter(products, (p: Product) => MatchesQuery(p, query))
  }

  datatype StockColour = GreenStock | YellowStock | RedStock

  /** The quantity chip: more than 20 green, 6 to 20 yellow, 5 or fewer red. */
  function StockColourOf(quantity: int): (c: StockColour)
    ensures c == GreenStock <==> quantity > 20
    ensures c == YellowStock <==> 5 < quantity <= 20
    ensures c == RedStock <==> quantity <= 5
  {
    if quantity > 20 then GreenStock else if quantity > 5 then YellowStock else RedStock
  }

  /** The colour never improves as stock falls. */
  lemma StockColourMonotone(a: int, b: int)
    requires a <= b
    ensures StockColourOf(a) == GreenStock ==> StockColourOf(b) == GreenStock
    ensures StockColourOf(b) == RedStock ==> StockColourOf(a) == RedStock
  {
  }

  /** The card for a query and a page, with the page pulled back into range
      (see `Pagination.StalePageHidesMatches` for the code as written). */
  function View(products: seq<Product>, query: string, page: int): (v: Pagination.PageView<Product>)
    ensures v == Pagination.NoMatches <==> FilteredProducts(products, query) == []
  {
    var filtered := FilteredProducts(products, query);
    Pagination.ClampedRenderShowsMatches(filtered, page);
    Pagination.Render(filtered, Pagination.ClampedPage(page, Pagination.TotalPages(|filtered|)))
  }
}
