/**
  The records the API layer exchanges (lib/api/orders.ts, notifications.ts and
  dashboard.ts), and the counting of unread notifications that both the
  notifications slice and the mock backend rely on. JavaScript numbers are
  modelled as `real`; timestamps (`new Date().toISOString()`) are opaque strings.
*/
module ApiTypes {
  import opened Common

  datatype OrderStatus = Pending | Completed | Cancelled

  datatype Order = Order(
    id: string,
    customer: string,
    location: string,
    member: string,
    status: OrderStatus,
    date: string,
    amount: real)

  function OrderId(o: Order): string { o.id }

  datatype OrdersResponse = OrdersResponse(
    orders: seq<Order>, totalCount: int, currentPage: int, totalPages: int)

  datatype CreateOrderRequest = CreateOrderRequest(
    customer: string, location: string, member: string, amount: real)

  /** Every field optional, as in `UpdateOrderRequest`: `None` is an absent key. */
  datatype UpdateOrderRequest = UpdateOrderRequest(
    customer: Option<string>,
    location: Option<string>,
    member: Option<string>,
    status: Option<OrderStatus>,
    amount: Option<real>)

  datatype OrderStats = OrderStats(
    totalOrders: int,
    pendingOrders: int,
    completedOrders: int,
    cancelledOrders: int,
    totalRevenue: real)

  /** The `type` of a notification (a reserved word here, hence `kind`). */
  datatype NotificationKind = Bug | User | Subscription | Data | Page

  datatype Notification = Notification(
    id: string,
    kind: NotificationKind,
    message: string,
    time: string,
    isRead: bool,
    createdAt: string,
    updatedAt: string)

  function NotificationId(n: Notification): string { n.id }

  datatype NotificationsResponse = NotificationsResponse(
    notifications: seq<Notification>, unreadCount: int, totalCount: int)

  datatype Metrics = Metrics(customers: real, orders: real, revenue: real, growth: real)

  datatype ChartPoint = ChartPoint(month: string, projected: real, actual: real)

  /** `price` is declared as a number, but the dashboard's seed products carry
      none; `None` is that absent value. */
  datatype ProductSales = ProductSales(
    id: string, name: string, quantity: real, revenue: real, price: Option<real>)

  datatype LocationRevenue = LocationRevenue(location: string, percentage: real)

  datatype DashboardData = DashboardData(
    metrics: Metrics,
    chartData: seq<ChartPoint>,
    topProducts: seq<ProductSales>,
    revenueByLocation: seq<LocationRevenue>)

  // ---------------------------------------------------------------------------
  // Unread notifications
  // ---------------------------------------------------------------------------

  /** The number of entries whose `isRead` is false. */
  function UnreadIn(ns: seq<Notification>): (c: nat)
    ensures c <= |ns|
    ensures c == 0 <==> forall i :: 0 <= i < |ns| ==> ns[i].isRead
  {
    if ns == [] then 0 else (if ns[0].isRead then 0 else 1) + UnreadIn(ns[1..])
  }

  lemma {:induction false} UnreadInConcat(a: seq<Notification>, b: seq<Notification>)
    ensures UnreadIn(a + b) == UnreadIn(a) + UnreadIn(b)
  {
    if a == [] {
      assert a + b == b;
    } else {
      assert (a + b)[1..] == a[1..] + b;
      UnreadInConcat(a[1..], b);
    }
  }

  /** The count splits around any one entry. */
  lemma UnreadInSplit(pre: seq<Notification>, n: Notification, post: seq<Notification>)
    ensures UnreadIn(pre + [n] + post) == UnreadIn(pre) + (if n.isRead then 0 else 1) + UnreadIn(post)
  {
    assert pre + [n] + post == pre + ([n] + post);
    UnreadInConcat(pre, [n] + post);
    assert ([n] + post)[1..] == post;
  }

  /** Overwriting one entry changes the count by that entry's contribution only. */
  lemma UnreadInUpdate(ns: seq<Notification>, i: nat, n: Notification)
    requires i < |ns|
    ensures UnreadIn(ns[i := n])
         == UnreadIn(ns) - (if ns[i].isRead then 0 else 1) + (if n.isRead then 0 else 1)
  {
    SplitAt(ns, i);
    assert ns[i := n] == ns[..i] + [n] + ns[i + 1..];
    UnreadInSplit(ns[..i], ns[i], ns[i + 1..]);
    UnreadInSplit(ns[..i], n, ns[i + 1..]);
  }

  /** Dropping one entry lowers the count by that entry's contribution. */
  lemma UnreadInRemove(ns: seq<Notification>, i: nat)
    requires i < |ns|
    ensures UnreadIn(ns[..i] + ns[i + 1..]) == UnreadIn(ns) - (if ns[i].isRead then 0 else 1)
  {
    SplitAt(ns, i);
    UnreadInSplit(ns[..i], ns[i], ns[i + 1..]);
    UnreadInConcat(ns[..i], ns[i + 1..]);
  }

  /** One entry marked read: `isRead` set and, when a stamp is given,
      `updatedAt` set to it; nothing else changes. */
  function MarkRead(n: Notification, stamp: Option<string>): (r: Notification)
    ensures r.isRead
    ensures r.(isRead := n.isRead, updatedAt := n.updatedAt) == n
    ensures stamp.Some? ==> r.updatedAt == stamp.value
    ensures stamp.None? ==> r.updatedAt == n.updatedAt
  {
    n.(isRead := true, updatedAt := if stamp.Some? then stamp.value else n.updatedAt)
  }

  /** Every entry marked read, in place and in order (the `forEach` over the list). */
  function AllMarkedRead(ns: seq<Notification>, stamp: Option<string>): (r: seq<Notification>)
    ensures |r| == |ns|
    ensures forall i :: 0 <= i < |ns| ==> r[i] == MarkRead(ns[i], stamp)
    ensures UnreadIn(r) == 0
  {
    if ns == [] then [] else [MarkRead(ns[0], stamp)] + AllMarkedRead(ns[1..], stamp)
  }

  /** Marking everything read twice is marking it once. */
  lemma AllMarkedReadIdempotent(ns: seq<Notification>, stamp: Option<string>)
    ensures AllMarkedRead(AllMarkedRead(ns, stamp), stamp) == AllMarkedRead(ns, stamp)
  {
  }
}
