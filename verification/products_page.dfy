/** The catalogue page: the URL search parameters that choose the category
    and the text search, and the handlers that rewrite them. The parameters
    are a string map; setting a key replaces its value and deleting it
    removes it. */
module ProductsPage {
  import opened Wrappers
  import Models
  import MockData
  import FilterSidebar

  type Params = map<string, string>

  /** `searchParams.get(key) || fallback`: a missing or empty value reads as the fallback. */
  function Read(params: Params, key: string, fallback: string): (v: string)
    ensures key in params && params[key] != "" ==> v == params[key]
    ensures key !in params || params[key] == "" ==> v == fallback
  {
    if key in params && params[key] != "" then params[key] else fallback
  }

  /** The category parameter, `'all'` when absent. */
  function CategoryParam(params: Params): string
  {
    Read(params, "category", "all")
  }

  /** The search parameter, `''` when absent. */
  function SearchParam(params: Params): string
  {
    Read(params, "search", "")
  }

  /** The category handed to `getProducts`: none for `'all'`. */
  function CategoryArgument(category: string): (arg: Option<string>)
    ensures category == "all" <==> arg.None?
    ensures arg.Some? ==> arg.value == category
  {
    if category != "all" then Some(category) else None
  }

  /** The products the page lists for these parameters. */
  function Listed(products: seq<Models.Product>, params: Params): seq<Models.Product>
  {
    MockData.GetProducts(products, CategoryArgument(CategoryParam(params)), Some(SearchParam(params)))
  }

  /** With no category and no search parameter the whole catalogue is listed, in order. */
  lemma NoParamsListsAll(products: seq<Models.Product>, params: Params)
    requires "category" !in params && "search" !in params
    ensures Listed(products, params) == products
  {
  }

  /** An explicit `category=all` lists the same products as no category at all. */
  lemma AllMeansNoCategory(products: seq<Models.Product>, params: Params)
    ensures Listed(products, params["category" := "all"]) == Listed(products, params - {"category"})
  {
    assert SearchParam(params["category" := "all"]) == SearchParam(params - {"category"});
  }

  /** The page state: the URL parameters and the search box. */
  class Catalogue {
    var searchParams: Params
    var searchQuery: string

    /** On load the search box takes the search parameter. */
    constructor (params: Params)
      ensures searchParams == params && searchQuery == SearchParam(params)
    {
      searchParams := params;
      searchQuery := SearchParam(params);
    }

    /** `handleFilterChange`: only the first selected category is used; price
        and organic are ignored, and an empty selection changes nothing. */
    method HandleFilterChange(filters: FilterSidebar.Filters)
      modifies this
      ensures filters.categories != [] ==> searchParams == old(searchParams)["category" := filters.categories[0]]
      ensures filters.categories == [] ==> searchParams == old(searchParams)
      ensures searchQuery == old(searchQuery)
    {
      if |filters.categories| > 0 {
        searchParams := searchParams["category" := filters.categories[0]];
      }
    }

    /** `handleFilterReset`: the category parameter goes; the search stays. */
    method HandleFilterReset()
      modifies this
      ensures searchParams == old(searchParams) - {"category"}
      ensures searchQuery == old(searchQuery)
    {
      searchParams := searchParams - {"category"};
    }

    /** `handleSearch`: a non-empty query is stored, an empty one deletes the
        parameter. */
    method HandleSearch()
      modifies this
      ensures searchQuery != "" ==> searchParams == old(searchParams)["search" := searchQuery]
      ensures searchQuery == "" ==> searchParams == old(searchParams) - {"search"}
      ensures searchQuery == old(searchQuery)
    {
      if searchQuery != "" {
        searchParams := searchParams["search" := searchQuery];
      } else {
        searchParams := searchParams - {"search"};
      }
    }

    method SetSearchQuery(text: string)
      modifies this
      ensures searchQuery == text && searchParams == old(searchParams)
    {
      searchQuery := text;
    }
  }

  /** After a search submit the search parameter reads back as the query, and
      the category is untouched. */
  lemma SearchRoundTrip(params: Params, query: string)
    ensures var after := if query != "" then params["search" := query] else params - {"search"};
            SearchParam(after) == query && CategoryParam(after) == CategoryParam(params)
  {
  }

  /** After a filter change the category reads back as the first selected one
      (an empty one reads as `'all'`), and the search is untouched. */
  lemma FilterChangeRoundTrip(params: Params, filters: FilterSidebar.Filters)
    requires filters.categories != []
    ensures var after := params["category" := filters.categories[0]];
            CategoryParam(after) == (if filters.categories[0] == "" then "all" else filters.categories[0])
            && SearchParam(after) == SearchParam(params)
  {
  }

  /** After a reset the category reads as `'all'` and the search is untouched. */
  lemma ResetRoundTrip(params: Params)
    ensures CategoryParam(params - {"category"}) == "all"
    ensures SearchParam(params - {"category"}) == SearchParam(params)
  {
  }
}
