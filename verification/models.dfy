/** The shared records of the storefront: products, cart items, orders,
    users and reviews. Prices are exact decimals (`real`), timestamps are
    milliseconds since the epoch. */
module Models {

  datatype OrderStatus = Pending | Processing | Shipped | Delivered | Cancelled

  datatype ProductCategory = Vegetables | Fruits | Dairy | Meat | Grains | Herbs | Other

  /** The category as the string the source stores and compares. */
  function CategoryName(c: ProductCategory): string
  {
    match c
    case Vegetables => "vegetables"
    case Fruits => "fruits"
    case Dairy => "dairy"
    case Meat => "meat"
    case Grains => "grains"
    case Herbs => "herbs"
    case Other => "other"
  }

  datatype FarmerRef = FarmerRef(id: string, name: string, location: string, rating: real)

  datatype Product = Product(
    id: string,
    name: string,
    description: string,
    price: real,
    quantity: int,
    unit: string,
    category: ProductCategory,
    images: seq<string>,
    isOrganic: bool,
    isFeatured: bool,
    farmer: FarmerRef,
    createdAt: int,
    updatedAt: int)

  datatype CartItem = CartItem(id: string, product: Product, quantity: int)

  datatype BuyerRef = BuyerRef(id: string, name: string, email: string)

  datatype PaymentStatus = PaymentPending | PaymentCompleted | PaymentFailed

  datatype Order = Order(
    id: string,
    user: BuyerRef,
    items: seq<CartItem>,
    total: real,
    status: OrderStatus,
    shippingAddress: string,
    paymentMethod: string,
    paymentStatus: PaymentStatus,
    createdAt: int,
    updatedAt: int)

  datatype UserRole = BuyerRole | FarmerRole | LogisticsRole | AdminRole

  function RoleName(r: UserRole): string
  {
    match r
    case BuyerRole => "buyer"
    case FarmerRole => "farmer"
    case LogisticsRole => "logistics"
    case AdminRole => "admin"
  }

  datatype User = User(id: string, name: string, email: string, role: UserRole, isVerified: bool, createdAt: int)

  datatype Review = Review(
    id: string,
    userId: string,
    userName: string,
    productId: string,
    productName: string,
    rating: int,
    comment: string,
    createdAt: int)

  /** `item.product.price * item.quantity`: the line total shown in the cart
      and summed by the cart summary. */
  function LineTotal(item: CartItem): real
  {
    item.product.price * item.quantity as real
  }

  /** `items.reduce((total, item) => total + price * quantity, 0)`. */
  function SumLineTotals(items: seq<CartItem>): real
  {
    if items == [] then 0.0 else SumLineTotals(items[..|items| - 1]) + LineTotal(items[|items| - 1])
  }

  /** The reduction is additive over concatenation, so a cart's subtotal is the
      sum of the subtotals of any split of it. */
  lemma {:induction false} SumLineTotalsAppend(a: seq<CartItem>, b: seq<CartItem>)
    ensures SumLineTotals(a + b) == SumLineTotals(a) + SumLineTotals(b)
    decreases |b|
  {
    if b != [] {
      assert (a + b)[..|a + b| - 1] == a + b[..|b| - 1];
      assert (a + b)[|a + b| - 1] == b[|b| - 1];
      SumLineTotalsAppend(a, b[..|b| - 1]);
    } else {
      assert a + b == a;
    }
  }

  /** With non-negative prices and quantities the subtotal is non-negative. */
  lemma {:induction false} SumLineTotalsNonNegative(items: seq<CartItem>)
    ensures (forall i :: 0 <= i < |items| ==> items[i].product.price >= 0.0 && items[i].quantity >= 0)
            ==> SumLineTotals(items) >= 0.0
  {
    if items != [] && forall i :: 0 <= i < |items| ==> items[i].product.price >= 0.0 && items[i].quantity >= 0 {
      SumLineTotalsNonNegative(items[..|items| - 1]);
      var last := items[|items| - 1];
      assert last.product.price * last.quantity as real >= 0.0;
    }
  }

  /** Every split point of the cart splits its subtotal. */
  lemma SumLineTotalsSplit(items: seq<CartItem>)
    ensures forall k :: 0 <= k <= |items| ==> SumLineTotals(items) == SumLineTotals(items[..k]) + SumLineTotals(items[k..])
  {
    forall k | 0 <= k <= |items|
      ensures SumLineTotals(items) == SumLineTotals(items[..k]) + SumLineTotals(items[k..])
    {
      assert items == items[..k] + items[k..];
      SumLineTotalsAppend(items[..k], items[k..]);
    }
  }
}
