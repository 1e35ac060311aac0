/** The farmer's orders table: free-text and status-tab filtering, the five
    status counters, and the status update handler. There is no transition
    rule: any status may replace any other. */
module OrdersManagement {
  import opened Models
  import Text
  import Seqs

  /** The `statusFilter` state: `'all'` or one status. */
  datatype StatusFilter = AllStatuses | OnlyStatus(status: OrderStatus)

  /** The five tab triggers of the table; no tab selects `'cancelled'`. */
  datatype OrderTab = AllOrdersTab | PendingTab | ProcessingTab | ShippedTab | DeliveredTab

  /** The filter each tab's `onClick` sets. */
  function TabFilter(t: OrderTab): StatusFilter
  {
    match t
    case AllOrdersTab => AllStatuses
    case PendingTab => OnlyStatus(Pending)
    case ProcessingTab => OnlyStatus(Processing)
    case ShippedTab => OnlyStatus(Shipped)
    case DeliveredTab => OnlyStatus(Delivered)
  }

  /** The search test: order id, buyer name or buyer email. */
  predicate MatchesSearch(o: Order, term: string)
  {
    Text.IncludesIgnoreCase(o.id, term)
    || Text.IncludesIgnoreCase(o.user.name, term)
    || Text.IncludesIgnoreCase(o.user.email, term)
  }

  predicate MatchesStatus(o: Order, filter: StatusFilter)
  {
    filter.AllStatuses? || o.status == filter.status
  }

  /** `filteredOrders`: kept iff the search matches and the status filter admits it;
      with an empty search and `'all'` every order is listed, in order. */
  function FilteredOrders(orders: seq<Order>, term: string, filter: StatusFilter): (r: seq<Order>)
    ensures forall o :: o in r <==> o in orders && MatchesSearch(o, term) && MatchesStatus(o, filter)
    ensures term == "" && filter == AllStatuses ==> r == orders
  {
    Text.EmptyNeedleMatches();
    Seqs.Filter(orders, (o: Order) => MatchesSearch(o, term) && MatchesStatus(o, filter))
  }

  /** The filtered list keeps the relative order of the orders. */
  lemma FilteredOrdersIsSubsequence(orders: seq<Order>, term: string, filter: StatusFilter)
    ensures Seqs.IsSubsequence(FilteredOrders(orders, term, filter), orders)
  {
    Seqs.FilterIsSubsequence(orders, (o: Order) => MatchesSearch(o, term) && MatchesStatus(o, filter));
  }

  /** A cancelled order is listed only under the "All Orders" tab. */
  lemma CancelledOnlyUnderAll(orders: seq<Order>, term: string, t: OrderTab, o: Order)
    requires o.status == Cancelled
    requires o in FilteredOrders(orders, term, TabFilter(t))
    ensures t == AllOrdersTab
  {
  }

  /** `orders.filter(order => order.status === s).length`. */
  function StatusCount(orders: seq<Order>, s: OrderStatus): (n: nat)
    ensures n <= |orders|
    ensures n == |Seqs.Filter(orders, (o: Order) => o.status == s)|
  {
    Seqs.Count(orders, (o: Order) => o.status == s)
  }

  /** The five counters partition the orders: they sum to the number of orders. */
  lemma {:induction false} StatusCountsSum(orders: seq<Order>)
    ensures StatusCount(orders, Pending) + StatusCount(orders, Processing) + StatusCount(orders, Shipped)
            + StatusCount(orders, Delivered) + StatusCount(orders, Cancelled) == |orders|
  {
    if orders != [] {
      StatusCountsSum(orders[1..]);
    }
  }

  /** The `map` inside `handleUpdateStatus`: orders with id `id` get the new status
      and timestamp; every other order, the length and the order are kept. */
  function WithStatus(orders: seq<Order>, id: string, s: OrderStatus, now: int): (r: seq<Order>)
    ensures |r| == |orders|
    ensures forall i :: 0 <= i < |orders| && orders[i].id == id ==>
              r[i] == orders[i].(status := s, updatedAt := now)
    ensures forall i :: 0 <= i < |orders| && orders[i].id != id ==> r[i] == orders[i]
  {
    Seqs.UpdateWhere(orders, (o: Order) => o.id == id, (o: Order) => o.(status := s, updatedAt := now))
  }

  /** Updating an id that no order has leaves the list unchanged. */
  lemma UnknownIdUnchanged(orders: seq<Order>, id: string, s: OrderStatus, now: int)
    requires forall i :: 0 <= i < |orders| ==> orders[i].id != id
    ensures WithStatus(orders, id, s, now) == orders
  {
  }

  /** Repeating an update is idempotent up to the timestamp: the second call only
      refreshes `updatedAt`. */
  lemma UpdateIdempotent(orders: seq<Order>, id: string, s: OrderStatus, t1: int, t2: int)
    ensures WithStatus(WithStatus(orders, id, s, t1), id, s, t2) == WithStatus(orders, id, s, t2)
  {
  }

  /** No status-transition rule: from any current status, any chosen status is
      stored on the matching order. */
  lemma AnyStatusReachable(orders: seq<Order>, i: nat, s: OrderStatus, now: int)
    requires i < |orders|
    ensures WithStatus(orders, orders[i].id, s, now)[i].status == s
  {
  }

  /** The dialog's "Update Status" button: disabled while the chosen status is
      the order's current one. The dialog opens with the current status chosen. */
  predicate UpdateEnabled(current: OrderStatus, chosen: OrderStatus)
  {
    chosen != current
  }

  /** A dialog that has just opened cannot submit; a submission that the button
      lets through always changes the stored status of that order. */
  lemma EnabledUpdateChangesStatus(orders: seq<Order>, i: nat, chosen: OrderStatus, now: int)
    requires i < |orders|
    ensures !UpdateEnabled(orders[i].status, orders[i].status)
    ensures UpdateEnabled(orders[i].status, chosen) ==>
              WithStatus(orders, orders[i].id, chosen, now)[i].status != orders[i].status
  {
  }

  /** The component state of the orders page. */
  class OrdersPanel {
    var orders: seq<Order>
    var searchTerm: string
    var statusFilter: StatusFilter

    constructor (initial: seq<Order>)
      ensures orders == initial && searchTerm == "" && statusFilter == AllStatuses
    {
      orders := initial;
      searchTerm := "";
      statusFilter := AllStatuses;
    }

    /** The rows shown under the current search and tab. */
    function Visible(): seq<Order>
      reads this
    {
      FilteredOrders(orders, searchTerm, statusFilter)
    }

    /** `handleUpdateStatus(id, newStatus)`. */
    method HandleUpdateStatus(id: string, newStatus: OrderStatus, now: int)
      modifies this
      ensures orders == WithStatus(old(orders), id, newStatus, now)
      ensures searchTerm == old(searchTerm) && statusFilter == old(statusFilter)
    {
      orders := WithStatus(orders, id, newStatus, now);
    }

    /** A tab trigger's `onClick`. */
    method SelectTab(t: OrderTab)
      modifies this
      ensures statusFilter == TabFilter(t)
      ensures orders == old(orders) && searchTerm == old(searchTerm)
    {
      statusFilter := TabFilter(t);
    }

    /** The search box's `onChange`. */
    method SetSearchTerm(term: string)
      modifies this
      ensures searchTerm == term
      ensures orders == old(orders) && statusFilter == old(statusFilter)
    {
      searchTerm := term;
    }
  }
}
