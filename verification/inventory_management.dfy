/** The farmer's inventory page: the text search, the low-stock and
    out-of-stock cards, the stock badge of each row, the update dialog with
    its numeric input, and the bulk restock button. */
module InventoryManagement {
  import opened Wrappers
  import opened Models
  import Text
  import Seqs

  // ---------------------------------------------------------------------
  // `parseInt(e.target.value) || 0`, the quantity field of the update dialog
  // ---------------------------------------------------------------------

  /** The whitespace `parseInt` skips before the number. */
  function TrimStart(s: string): (r: string)
    ensures |r| <= |s| && r == s[|s| - |r|..]
    ensures forall i :: 0 <= i < |s| - |r| ==> Text.IsWhitespace(s[i])
    ensures r == [] || !Text.IsWhitespace(r[0])
  {
    if s != [] && Text.IsWhitespace(s[0]) then TrimStart(s[1..]) else s
  }

  /** The longest prefix of digits: where `parseInt` stops reading. */
  function LeadingDigits(s: string): (ds: string)
    ensures |ds| <= |s| && ds == s[..|ds|]
    ensures Text.AllDigits(ds)
    ensures |ds| < |s| ==> !Text.IsDigit(s[|ds|])
  {
    if s != [] && Text.IsDigit(s[0]) then [s[0]] + LeadingDigits(s[1..]) else []
  }

  /** `parseInt(s)` in base 10: skip leading whitespace, read an optional sign and
      the longest run of digits after it; `None` stands for `NaN`. */
  function ParseInt(s: string): Option<int>
  {
    var t := TrimStart(s);
    var negative := t != [] && t[0] == '-';
    var body := if t != [] && (t[0] == '-' || t[0] == '+') then t[1..] else t;
    var ds := LeadingDigits(body);
    var magnitude: int := Text.DigitsValue(ds);
    if ds == [] then None
    else if negative then Some(-magnitude)
    else Some(magnitude)
  }

  /** `parseInt(s) || 0`: `NaN` (and zero) become 0; nothing else is checked,
      so a negative entry is kept. */
  function ParseIntOrZero(s: string): int
  {
    match ParseInt(s)
    case None => 0
    case Some(v) => v
  }

  /** The string a number input holds for the integer `n`. */
  function IntToString(n: int): string
  {
    if n < 0 then "-" + Text.Decimal(-n) else Text.Decimal(n)
  }

  /** A run of digits is read in full. */
  lemma {:induction false} LeadingDigitsOfDigits(ds: string)
    requires Text.AllDigits(ds)
    ensures LeadingDigits(ds) == ds
  {
    if ds != [] {
      LeadingDigitsOfDigits(ds[1..]);
    }
  }

  /** Typing the decimal form of any integer, negative ones included, stores
      exactly that integer. */
  lemma ParseIntRoundTrip(n: int)
    ensures ParseIntOrZero(IntToString(n)) == n
  {
    var m: nat := if n < 0 then -n else n;
    var ds := Text.Decimal(m);
    Text.DecimalValue(m);
    LeadingDigitsOfDigits(ds);
    if n < 0 {
      ParseSigned(ds);
    } else {
      ParseUnsigned(ds);
    }
  }

  lemma ParseUnsigned(ds: string)
    requires ds != [] && Text.AllDigits(ds)
    requires LeadingDigits(ds) == ds
    ensures ParseIntOrZero(ds) == Text.DigitsValue(ds)
  {
    assert !Text.IsWhitespace(ds[0]);
    assert TrimStart(ds) == ds;
  }

  lemma ParseSigned(ds: string)
    requires ds != [] && Text.AllDigits(ds)
    requires LeadingDigits(ds) == ds
    ensures ParseIntOrZero("-" + ds) + Text.DigitsValue(ds) == 0
  {
    var s := "-" + ds;
    assert TrimStart(s) == s;
    assert s[1..] == ds;
  }

  /** Input with no digit at all, the empty field included, stores 0. */
  lemma NonNumericIsZero(s: string)
    requires forall i :: 0 <= i < |s| ==> !Text.IsDigit(s[i])
    ensures ParseIntOrZero(s) == 0
  {
    var t := TrimStart(s);
    var body := if t != [] && (t[0] == '-' || t[0] == '+') then t[1..] else t;
    if body != [] {
      assert body[0] in s;
    }
  }

  // ---------------------------------------------------------------------
  // Derived views
  // ---------------------------------------------------------------------

  /** The search: product name or category name. */
  predicate MatchesSearch(p: Product, term: string)
  {
    Text.IncludesIgnoreCase(p.name, term) || Text.IncludesIgnoreCase(CategoryName(p.category), term)
  }

  /** `filteredProducts`: kept iff the search matches; an empty term keeps all. */
  function FilteredProducts(products: seq<Product>, term: string): (r: seq<Product>)
    ensures forall p :: p in r <==> p in products && MatchesSearch(p, term)
    ensures Seqs.IsSubsequence(r, products)
    ensures term == "" ==> r == products
  {
    Text.EmptyNeedleMatches();
    Seqs.FilterIsSubsequence(products, (p: Product) => MatchesSearch(p, term));
    Seqs.Filter(products, (p: Product) => MatchesSearch(p, term))
  }

  /** The predicate of `lowStockProducts`. */
  predicate IsLowStock(p: Product)
  {
    0 < p.quantity <= 5
  }

  /** The predicate of `outOfStockProducts`. */
  predicate IsOutOfStock(p: Product)
  {
    p.quantity == 0
  }

  /** `lowStockProducts`: exactly the products with 1 to 5 units. */
  function LowStockProducts(products: seq<Product>): (r: seq<Product>)
    ensures forall p :: p in r <==> p in products && 1 <= p.quantity <= 5
    ensures Seqs.IsSubsequence(r, products)
    ensures |r| == Seqs.Count(products, IsLowStock)
  {
    Seqs.FilterIsSubsequence(products, IsLowStock);
    Seqs.Filter(products, IsLowStock)
  }

  /** `outOfStockProducts`: exactly the products with no units. */
  function OutOfStockProducts(products: seq<Product>): (r: seq<Product>)
    ensures forall p :: p in r <==> p in products && p.quantity == 0
    ensures Seqs.IsSubsequence(r, products)
    ensures |r| == Seqs.Count(products, IsOutOfStock)
  {
    Seqs.FilterIsSubsequence(products, IsOutOfStock);
    Seqs.Filter(products, IsOutOfStock)
  }

  /** No product is in both cards. */
  lemma StockCardsDisjoint(products: seq<Product>)
    ensures forall p :: !(p in LowStockProducts(products) && p in OutOfStockProducts(products))
  {
  }

  /** The badge of a row (and the colour of its quantity). */
  datatype StockBadge = OutOfStockBadge | LowStockBadge | InStockBadge

  function BadgeOf(quantity: int): StockBadge
  {
    if quantity == 0 then OutOfStockBadge
    else if quantity <= 5 then LowStockBadge
    else InStockBadge
  }

  /** For a non-negative quantity the badge agrees with the cards: "Out of Stock"
      iff the product is in the out-of-stock card, "Low Stock" iff it is in the
      low-stock card, "In Stock" iff it has more than 5 units. */
  lemma BadgeMatchesCards(p: Product)
    requires p.quantity >= 0
    ensures BadgeOf(p.quantity) == OutOfStockBadge <==> IsOutOfStock(p)
    ensures BadgeOf(p.quantity) == LowStockBadge <==> IsLowStock(p)
    ensures BadgeOf(p.quantity) == InStockBadge <==> p.quantity > 5
  {
  }

  /** A negative quantity, which the input accepts, is badged "Low Stock" but
      counted in neither card. */
  lemma NegativeQuantityInNoCard(p: Product)
    requires p.quantity < 0
    ensures BadgeOf(p.quantity) == LowStockBadge
    ensures !IsLowStock(p) && !IsOutOfStock(p)
  {
  }

  // ---------------------------------------------------------------------
  // The two handlers that rewrite `products`
  // ---------------------------------------------------------------------

  /** The `map` of `handleUpdateInventory`: the matching products take the new
      quantity, price and timestamp as given; every other product, the length
      and the order are kept. */
  function WithInventory(products: seq<Product>, id: string, quantity: int, price: real, now: int): (r: seq<Product>)
    ensures |r| == |products|
    ensures forall i :: 0 <= i < |products| && products[i].id == id ==>
              r[i] == products[i].(quantity := quantity, price := price, updatedAt := now)
    ensures forall i :: 0 <= i < |products| && products[i].id != id ==> r[i] == products[i]
  {
    Seqs.UpdateWhere(products, (p: Product) => p.id == id,
                     (p: Product) => p.(quantity := quantity, price := price, updatedAt := now))
  }

  /** The `map` of `handleBulkRestock`: every product under 10 units gains
      exactly 50 and a new timestamp; the others are untouched. */
  function Restocked(products: seq<Product>, now: int): (r: seq<Product>)
    ensures |r| == |products|
    ensures forall i :: 0 <= i < |products| && products[i].quantity < 10 ==>
              r[i] == products[i].(quantity := products[i].quantity + 50, updatedAt := now)
    ensures forall i :: 0 <= i < |products| && products[i].quantity >= 10 ==> r[i] == products[i]
  {
    Seqs.UpdateWhere(products, (p: Product) => p.quantity < 10,
                     (p: Product) => p.(quantity := p.quantity + 50, updatedAt := now))
  }

  /** From non-negative quantities a restock leaves every product with at least
      10 units, so both cards are empty afterwards. */
  lemma RestockEmptiesCards(products: seq<Product>, now: int)
    requires forall i :: 0 <= i < |products| ==> products[i].quantity >= 0
    ensures forall i :: 0 <= i < |products| ==> Restocked(products, now)[i].quantity >= 10
    ensures LowStockProducts(Restocked(products, now)) == []
    ensures OutOfStockProducts(Restocked(products, now)) == []
  {
  }

  /** From non-negative quantities a second restock changes nothing, not even a
      timestamp. */
  lemma RestockTwiceIsOnce(products: seq<Product>, t1: int, t2: int)
    requires forall i :: 0 <= i < |products| ==> products[i].quantity >= 0
    ensures Restocked(Restocked(products, t1), t2) == Restocked(products, t1)
  {
    var once := Restocked(products, t1);
    Seqs.UpdateWhereNoMatch(once, (p: Product) => p.quantity < 10,
                            (p: Product) => p.(quantity := p.quantity + 50, updatedAt := t2));
  }

  /** The page state: the product list and the search box. */
  class InventoryPanel {
    var products: seq<Product>
    var searchTerm: string

    constructor (initial: seq<Product>)
      ensures products == initial && searchTerm == ""
    {
      products := initial;
      searchTerm := "";
    }

    /** The rows of the table. */
    function Visible(): seq<Product>
      reads this
    {
      FilteredProducts(products, searchTerm)
    }

    /** `handleUpdateInventory(id, quantity, price)`. */
    method HandleUpdateInventory(id: string, quantity: int, price: real, now: int)
      modifies this
      ensures products == WithInventory(old(products), id, quantity, price, now)
      ensures searchTerm == old(searchTerm)
    {
      products := WithInventory(products, id, quantity, price, now);
    }

    /** `handleBulkRestock()`. */
    method HandleBulkRestock(now: int)
      modifies this
      ensures products == Restocked(old(products), now)
      ensures searchTerm == old(searchTerm)
    {
      products := Restocked(products, now);
    }

    method SetSearchTerm(term: string)
      modifies this
      ensures searchTerm == term && products == old(products)
    {
      searchTerm := term;
    }
  }

  /** The update dialog of one row: its two inputs start at the product's
      values; "Update" hands them to the panel. */
  class InventoryDialog {
    const productId: string
    var quantity: int
    var price: real

    constructor (p: Product)
      ensures productId == p.id && quantity == p.quantity && price == p.price
    {
      productId := p.id;
      quantity := p.quantity;
      price := p.price;
    }

    /** The quantity input's `onChange`. */
    method OnQuantityInput(text: string)
      modifies this
      ensures quantity == ParseIntOrZero(text) && price == old(price)
    {
      quantity := ParseIntOrZero(text);
    }

    /** The price input's `onChange`, with the value `parseFloat(...) || 0` gives. */
    method OnPriceInput(value: real)
      modifies this
      ensures price == value && quantity == old(quantity)
    {
      price := value;
    }

    /** `handleSubmit`: `onUpdate(product.id, quantity, price)`. */
    method Submit(panel: InventoryPanel, now: int)
      modifies panel
      ensures panel.products == WithInventory(old(panel.products), productId, quantity, price, now)
      ensures panel.searchTerm == old(panel.searchTerm)
    {
      panel.HandleUpdateInventory(productId, quantity, price, now);
    }
  }
}
