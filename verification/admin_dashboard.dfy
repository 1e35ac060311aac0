/** The figures on the admin dashboard's summary cards and the two short
    lists of its overview tab. */
module AdminDashboard {
  import opened Models
  import Seqs
  import OrdersManagement

  /** `orders.reduce((sum, order) => sum + order.total, 0)`. */
  function TotalRevenue(orders: seq<Order>): real
  {
    if orders == [] then 0.0 else TotalRevenue(orders[..|orders| - 1]) + orders[|orders| - 1].total
  }

  /** Revenue is additive over any split of the order list. */
  lemma {:induction false} TotalRevenueAppend(a: seq<Order>, b: seq<Order>)
    ensures TotalRevenue(a + b) == TotalRevenue(a) + TotalRevenue(b)
    decreases |b|
  {
    if b == [] {
      assert a + b == a;
    } else {
      assert (a + b)[..|a + b| - 1] == a + b[..|b| - 1];
      TotalRevenueAppend(a, b[..|b| - 1]);
    }
  }

  /** With no negative order total the revenue is non-negative and at least
      every single order's total. */
  lemma {:induction false} TotalRevenueBounds(orders: seq<Order>, k: nat)
    requires forall i :: 0 <= i < |orders| ==> orders[i].total >= 0.0
    requires k < |orders|
    ensures TotalRevenue(orders) >= orders[k].total >= 0.0
  {
    NonNegativeRevenue(orders[..k]);
    NonNegativeRevenue(orders[k + 1..]);
    assert orders == orders[..k] + [orders[k]] + orders[k + 1..];
    TotalRevenueAppend(orders[..k] + [orders[k]], orders[k + 1..]);
    TotalRevenueAppend(orders[..k], [orders[k]]);
    assert TotalRevenue([orders[k]]) == orders[k].total by {
      assert [orders[k]][..0] == [];
    }
  }

  lemma {:induction false} NonNegativeRevenue(orders: seq<Order>)
    requires forall i :: 0 <= i < |orders| ==> orders[i].total >= 0.0
    ensures TotalRevenue(orders) >= 0.0
  {
    if orders != [] {
      NonNegativeRevenue(orders[..|orders| - 1]);
    }
  }

  /** Non-negative order totals give a non-negative revenue, stated as an
      implication so that it holds for every order list. */
  lemma RevenueSign(orders: seq<Order>)
    ensures (forall i :: 0 <= i < |orders| ==> orders[i].total >= 0.0) ==> TotalRevenue(orders) >= 0.0
  {
    if forall i :: 0 <= i < |orders| ==> orders[i].total >= 0.0 {
      NonNegativeRevenue(orders);
    }
  }

  /** The figures of the four summary cards. */
  datatype Summary = Summary(
    totalRevenue: real,
    totalOrders: nat,
    pendingOrders: nat,
    processingOrders: nat,
    totalUsers: nat,
    totalProducts: nat,
    organicProducts: nat)

  /** The summary cards: list lengths, the revenue sum, the pending and
      processing counts and the organic count. The two order counts together
      never exceed the number of orders, nor the organic count the number of
      products. */
  function Summarise(products: seq<Product>, users: seq<User>, orders: seq<Order>): (s: Summary)
    ensures s.totalProducts == |products| && s.totalUsers == |users| && s.totalOrders == |orders|
    ensures s.pendingOrders == |Seqs.Filter(orders, (o: Order) => o.status == Pending)|
    ensures s.processingOrders == |Seqs.Filter(orders, (o: Order) => o.status == Processing)|
    ensures s.pendingOrders + s.processingOrders <= s.totalOrders
    ensures s.organicProducts <= s.totalProducts
    ensures s.organicProducts == |Seqs.Filter(products, (p: Product) => p.isOrganic)|
    ensures s.totalRevenue == TotalRevenue(orders)
    ensures (forall i :: 0 <= i < |orders| ==> orders[i].total >= 0.0) ==> s.totalRevenue >= 0.0
  {
    OrdersManagement.StatusCountsSum(orders);
    RevenueSign(orders);
    Summary(TotalRevenue(orders), |orders|,
            OrdersManagement.StatusCount(orders, Pending),
            OrdersManagement.StatusCount(orders, Processing),
            |users|, |products|,
            Seqs.Count(products, (p: Product) => p.isOrganic))
  }

  /** `recentOrders` and `topProducts`: `slice(0, 5)` of the mock orders and
      products, the first min(5, n) entries. */
  function FirstFive<T>(s: seq<T>): (r: seq<T>)
    ensures |r| == if |s| < 5 then |s| else 5
    ensures r == s[..|r|]
  {
    Seqs.Take(s, 5)
  }
}
