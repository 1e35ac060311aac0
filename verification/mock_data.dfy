/** The catalogue service: product search by category and text, lookup by
    id, the featured list, reviews of a product and the cart total. The
    module-level mock arrays are passed in as parameters. */
module MockData {
  import opened Wrappers
  import opened Models
  import Text
  import Seqs

  /** `category && category !== 'all'`: a category filter is in force. */
  predicate CategoryActive(category: Option<string>)
  {
    category.Some? && category.value != "" && category.value != "all"
  }

  /** `if (search)`: a text search is in force. */
  predicate SearchActive(search: Option<string>)
  {
    search.Some? && search.value != ""
  }

  /** The text search of `getProducts`: name, description or farmer name. */
  predicate MatchesSearch(p: Product, term: string)
  {
    Text.IncludesIgnoreCase(p.name, term)
    || Text.IncludesIgnoreCase(p.description, term)
    || Text.IncludesIgnoreCase(p.farmer.name, term)
  }

  /** A product passes both filters of `getProducts`. */
  predicate Selected(p: Product, category: Option<string>, search: Option<string>)
  {
    && (CategoryActive(category) ==> CategoryName(p.category) == category.value)
    && (SearchActive(search) ==> MatchesSearch(p, search.value))
  }

  /** `getProducts(category?, search?)`: the category filter, then the text
      filter, each applied only when its argument is set. */
  function GetProducts(products: seq<Product>, category: Option<string>, search: Option<string>): (r: seq<Product>)
    ensures forall p :: p in r <==> p in products && Selected(p, category, search)
    ensures !CategoryActive(category) && !SearchActive(search) ==> r == products
  {
    var byCategory :=
      if CategoryActive(category) then Seqs.Filter(products, (p: Product) => CategoryName(p.category) == category.value)
      else products;
    if SearchActive(search) then Seqs.Filter(byCategory, (p: Product) => MatchesSearch(p, search.value))
    else byCategory
  }

  /** The result keeps the catalogue order: it is a subsequence of it. */
  lemma GetProductsIsSubsequence(products: seq<Product>, category: Option<string>, search: Option<string>)
    ensures Seqs.IsSubsequence(GetProducts(products, category, search), products)
  {
    var byCategory :=
      if CategoryActive(category) then Seqs.Filter(products, (p: Product) => CategoryName(p.category) == category.value)
      else products;
    if CategoryActive(category) {
      Seqs.FilterIsSubsequence(products, (p: Product) => CategoryName(p.category) == category.value);
    } else {
      Seqs.FilterIsSubsequence(products, (p: Product) => true);
    }
    if SearchActive(search) {
      Seqs.FilterIsSubsequence(byCategory, (p: Product) => MatchesSearch(p, search.value));
      Seqs.SubsequenceTrans(GetProducts(products, category, search), byCategory, products);
    }
  }

  /** Adding a search term never adds products: the result is a subsequence of
      the category-only result. */
  lemma SearchNarrows(products: seq<Product>, category: Option<string>, search: string)
    ensures Seqs.IsSubsequence(GetProducts(products, category, Some(search)), GetProducts(products, category, None))
  {
    var byCategory := GetProducts(products, category, None);
    if search != "" {
      Seqs.FilterIsSubsequence(byCategory, (p: Product) => MatchesSearch(p, search));
    } else {
      Seqs.FilterIsSubsequence(byCategory, (p: Product) => true);
    }
  }

  /** `mockProducts.find(product => product.id === id)`. */
  function GetProductById(products: seq<Product>, id: string): (r: Option<Product>)
    ensures r.None? <==> forall i :: 0 <= i < |products| ==> products[i].id != id
    ensures r.Some? ==> exists i :: 0 <= i < |products| && products[i] == r.value && r.value.id == id
                                    && forall j :: 0 <= j < i ==> products[j].id != id
  {
    if products == [] then None
    else if products[0].id == id then Some(products[0])
    else
      var r := GetProductById(products[1..], id);
      assert forall i :: 1 <= i < |products| ==> products[i] == products[1..][i - 1];
      r
  }

  /** `mockProducts.filter(product => product.isFeatured)`. */
  function GetFeaturedProducts(products: seq<Product>): (r: seq<Product>)
    ensures forall p :: p in r <==> p in products && p.isFeatured
    ensures Seqs.IsSubsequence(r, products)
  {
    Seqs.FilterIsSubsequence(products, (p: Product) => p.isFeatured);
    Seqs.Filter(products, (p: Product) => p.isFeatured)
  }

  /** `mockReviews.filter(review => review.product.id === productId)`. */
  function GetProductReviews(reviews: seq<Review>, productId: string): (r: seq<Review>)
    ensures forall v :: v in r <==> v in reviews && v.productId == productId
    ensures Seqs.IsSubsequence(r, reviews)
  {
    Seqs.FilterIsSubsequence(reviews, (v: Review) => v.productId == productId);
    Seqs.Filter(reviews, (v: Review) => v.productId == productId)
  }

  /** `getCartTotal`: the sum of price times quantity over the cart. It is zero
      for an empty cart, non-negative for non-negative lines, and the sum of
      the totals of any split of the cart. */
  function GetCartTotal(items: seq<CartItem>): (r: real)
    ensures items == [] ==> r == 0.0
    ensures (forall i :: 0 <= i < |items| ==> items[i].product.price >= 0.0 && items[i].quantity >= 0) ==> r >= 0.0
    ensures forall k :: 0 <= k <= |items| ==> r == SumLineTotals(items[..k]) + SumLineTotals(items[k..])
  {
    SumLineTotalsNonNegative(items);
    SumLineTotalsSplit(items);
    SumLineTotals(items)
  }
}
