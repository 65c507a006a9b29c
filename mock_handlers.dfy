/**
  The in-memory mock backend (lib/api/mock-handlers.ts). Two module-level
  tables, `ordersData` and `notificationsData`, start as copies of the seed
  lists and are changed by the dynamic handlers; the page, statistics and
  read-all handlers read or sweep them. URL matching is left out: each
  handler takes its already-parsed path parameters and body, and a handler
  that falls through to `return null` answers `None`. The clock is the
  parameter `now`.
*/
module MockHandlers {
  import opened Common
  import opened ApiTypes

  // ---------------------------------------------------------------------------
  // Page slicing: Array.prototype.slice and Math.ceil
  // ---------------------------------------------------------------------------

  /** How `slice` reads one of its arguments: a negative index counts back
      from the end, and the result is clamped to `0..len`. */
  function SliceIndex(rel: int, len: nat): (r: nat)
    ensures r <= len
    ensures 0 <= rel <= len ==> r == rel
    ensures rel > len ==> r == len
    ensures rel < 0 ==> r == Max(len + rel, 0)
  {
    if rel < 0 then (if len + rel < 0 then 0 else len + rel) else if rel < len then rel else len
  }

  /** `s.slice(start, end)`: the elements from `start` up to, not including,
      `end`, both clamped to the sequence; a negative index counts back from
      the end; an empty window when `end` does not come after `start`. */
  function JsSlice<T>(s: seq<T>, start: int, end: int): (r: seq<T>)
    ensures |r| <= |s|
    ensures 0 <= start <= end ==> r == s[Min(start, |s|)..Min(end, |s|)]
    ensures 0 <= end <= start ==> r == []
    ensures -|s| <= start < 0 && 0 <= end ==>
      r == if |s| + start < end then s[|s| + start..Min(end, |s|)] else []
    ensures 0 <= start && -|s| <= end < 0 ==>
      r == if start < |s| + end then s[start..|s| + end] else []
  {
    var from, to := SliceIndex(start, |s|), SliceIndex(end, |s|);
    if from < to then s[from..to] else []
  }

  /** `Math.ceil(n / d)` for a positive divisor: the fewest pages of `d` that
      hold `n` items. */
  function CeilDiv(n: nat, d: int): (r: nat)
    requires d >= 1
    ensures r * d >= n
    ensures r == 0 || (r - 1) * d < n
  {
    (n + d - 1) / d
  }

  /** The paginated `GET /api/orders?page=..&limit=..` answer. */
  function Paginate(os: seq<Order>, page: int, limit: int): OrdersResponse
    requires limit >= 1
  {
    var start := (page - 1) * limit;
    OrdersResponse(JsSlice(os, start, start + limit), |os|, page, CeilDiv(|os|, limit))
  }

  lemma {:induction false} MulMonotone(a: int, b: int, c: nat)
    requires a <= b
    ensures a * c <= b * c
    decreases b - a
  {
    if a < b {
      MulMonotone(a, b - 1, c);
      assert (b - 1) * c + c == b * c;
    }
  }

  /** The window `slice(start, start + limit)` of a sequence: at most `limit`
      long, the plain subrange for a non-negative start, non-empty when the
      start lies inside and empty when it lies past the end. */
  lemma SliceWindow<T>(s: seq<T>, start: int, limit: int)
    requires limit >= 1
    ensures var w := JsSlice(s, start, start + limit);
      && |w| <= limit
      && (start >= 0 ==> w == s[Min(start, |s|)..Min(start + limit, |s|)])
      && (0 <= start < |s| ==> |w| > 0)
      && (start >= |s| ==> w == [])
  {
  }

  /** A page holds at most `limit` orders, reports the table's length, the
      requested page and the page count, and for a page from 1 on is exactly
      the window `(page-1)*limit ..` of the table. */
  lemma PaginateBounds(os: seq<Order>, page: int, limit: int)
    requires limit >= 1
    ensures var r := Paginate(os, page, limit);
      && |r.orders| <= limit
      && r.totalCount == |os| && r.currentPage == page
      && r.totalPages == CeilDiv(|os|, limit)
      && (page >= 1 ==>
            var start := (page - 1) * limit;
            r.orders == os[Min(start, |os|)..Min(start + limit, |os|)])
  {
    PageStart(page, limit, |os|);
    SliceWindow(os, (page - 1) * limit, limit);
  }

  /** Every page from 1 to `totalPages` holds orders; every page after it is
      empty. */
  lemma PaginateEdges(os: seq<Order>, page: int, limit: int)
    requires limit >= 1
    ensures var r := Paginate(os, page, limit);
      && (1 <= page <= r.totalPages ==> |r.orders| > 0)
      && (page > r.totalPages ==> r.orders == [])
  {
    PageStart(page, limit, |os|);
    SliceWindow(os, (page - 1) * limit, limit);
  }

  /** Where page `page` starts, against the table's length `n`. */
  lemma PageStart(page: int, limit: int, n: nat)
    requires limit >= 1
    ensures page >= 1 ==> (page - 1) * limit >= 0
    ensures 1 <= page <= CeilDiv(n, limit) ==> (page - 1) * limit < n
    ensures page > CeilDiv(n, limit) ==> (page - 1) * limit >= n
  {
    var total := CeilDiv(n, limit);
    if page >= 1 {
      MulMonotone(0, page - 1, limit);
    }
    if 1 <= page <= total {
      MulMonotone(page - 1, total - 1, limit);
    }
    if page > total {
      MulMonotone(total, page - 1, limit);
    }
  }

  /** Pages 1 to `k`, one after the other. */
  function PagesUpTo(os: seq<Order>, limit: int, k: nat): seq<Order>
    requires limit >= 1
  {
    if k == 0 then [] else PagesUpTo(os, limit, k - 1) + Paginate(os, k, limit).orders
  }

  lemma {:induction false} PagesUpToPrefix(os: seq<Order>, limit: int, k: nat)
    requires limit >= 1
    ensures PagesUpTo(os, limit, k) == os[..Min(k * limit, |os|)]
  {
    if k > 0 {
      PagesUpToPrefix(os, limit, k - 1);
      PaginateBounds(os, k, limit);
      var start := (k - 1) * limit;
      assert start + limit == k * limit;
      MulMonotone(0, k - 1, limit);
      PrefixThenWindow(os, start, start + limit);
    }
  }

  lemma PrefixThenWindow<T>(s: seq<T>, a: int, b: int)
    requires 0 <= a <= b
    ensures s[..Min(a, |s|)] + s[Min(a, |s|)..Min(b, |s|)] == s[..Min(b, |s|)]
  {
    var i, j := Min(a, |s|), Min(b, |s|);
    assert s[..j] == s[..i] + s[i..j];
  }

  /** Reading every page in turn gives back the whole table, in order. */
  lemma AllPagesAreTheTable(os: seq<Order>, limit: int)
    requires limit >= 1
    ensures PagesUpTo(os, limit, CeilDiv(|os|, limit)) == os
  {
    PagesUpToPrefix(os, limit, CeilDiv(|os|, limit));
  }

  // ---------------------------------------------------------------------------
  // GET /api/orders/stats
  // ---------------------------------------------------------------------------

  /** `ordersData.filter((o) => o.status === st)`. */
  function WithStatus(os: seq<Order>, st: OrderStatus): seq<Order> {
    Filter(os, (o: Order) => o.status == st)
  }

  /** `ordersData.reduce((sum, order) => sum + order.amount, 0)`, on reals. */
  function TotalAmount(os: seq<Order>): real {
    if os == [] then 0.0 else os[0].amount + TotalAmount(os[1..])
  }

  function Stats(os: seq<Order>): OrderStats {
    OrderStats(|os|, |WithStatus(os, Pending)|, |WithStatus(os, Completed)|,
      |WithStatus(os, Cancelled)|, TotalAmount(os))
  }

  /** Every order has one of the three statuses, so the three counts add up to
      the total, which is the table's length. */
  lemma {:induction false} StatsAddUp(os: seq<Order>)
    ensures var s := Stats(os);
      && s.totalOrders == |os|
      && s.pendingOrders + s.completedOrders + s.cancelledOrders == s.totalOrders
  {
    if os != [] {
      StatsAddUp(os[1..]);
    }
  }

  // ---------------------------------------------------------------------------
  // New order ids: `ORD${String(n).padStart(3, "0")}`
  // ---------------------------------------------------------------------------

  function DigitChar(d: nat): char
    requires d < 10
  {
    ('0' as int + d) as char
  }

  /** `String(n)` for a natural number: its decimal digits, no leading zero. */
  function Decimal(n: nat): (s: string)
    ensures |s| >= 1
    ensures forall i :: 0 <= i < |s| ==> '0' <= s[i] <= '9'
    ensures n >= 1 ==> s[0] != '0'
  {
    if n < 10 then [DigitChar(n)] else Decimal(n / 10) + [DigitChar(n % 10)]
  }

  /** The number a string of decimal digits denotes. */
  function DecimalValue(s: string): nat
    requires forall i :: 0 <= i < |s| ==> '0' <= s[i] <= '9'
  {
    if s == [] then 0
    else DecimalValue(s[..|s| - 1]) * 10 + (s[|s| - 1] as int - '0' as int)
  }

  /** Reading the digits back gives the number. */
  lemma {:induction false} DecimalRoundTrip(n: nat)
    ensures DecimalValue(Decimal(n)) == n
  {
    if n >= 10 {
      DecimalRoundTrip(n / 10);
      var s := Decimal(n);
      assert s[..|s| - 1] == Decimal(n / 10);
    }
  }

  /** Leading zeros do not change the value. */
  lemma {:induction false} DecimalValueLeadingZeros(z: nat, s: string)
    requires forall i :: 0 <= i < |s| ==> '0' <= s[i] <= '9'
    ensures var t := seq(z, _ => '0') + s;
      (forall i :: 0 <= i < |t| ==> '0' <= t[i] <= '9') && DecimalValue(t) == DecimalValue(s)
    decreases |s|, z
  {
    var t := seq(z, _ => '0') + s;
    if s != [] {
      DecimalValueLeadingZeros(z, s[..|s| - 1]);
      assert t[..|t| - 1] == seq(z, _ => '0') + s[..|s| - 1];
    } else if z > 0 {
      DecimalValueLeadingZeros(z - 1, s);
      assert t[..|t| - 1] == seq(z - 1, _ => '0') + s;
    }
  }

  /** `s.padStart(width, "0")`. */
  function PadStart(s: string, width: nat): (r: string)
    ensures |r| == if |s| >= width then |s| else width
    ensures r == seq(|r| - |s|, _ => '0') + s
  {
    if |s| >= width then s else seq(width - |s|, _ => '0') + s
  }

  /** The id the create handler gives a new order when the table holds `len`. */
  function NewOrderId(len: nat): string {
    "ORD" + PadStart(Decimal(len + 1), 3)
  }

  /** The number inside an id is the table length plus one, so different
      lengths give different ids. */
  lemma NewOrderIdValue(len: nat)
    ensures var id := NewOrderId(len);
      && |id| >= 6 && id[..3] == "ORD"
      && (forall i :: 3 <= i < |id| ==> '0' <= id[i] <= '9')
      && DecimalValue(id[3..]) == len + 1
  {
    var d := Decimal(len + 1);
    var p := PadStart(d, 3);
    DecimalValueLeadingZeros(|p| - |d|, d);
    DecimalRoundTrip(len + 1);
    assert NewOrderId(len)[3..] == p;
  }

  lemma NewOrderIdInjective(a: nat, b: nat)
    requires NewOrderId(a) == NewOrderId(b)
    ensures a == b
  {
    NewOrderIdValue(a);
    NewOrderIdValue(b);
  }

  // ---------------------------------------------------------------------------
  // Seed tables
  // ---------------------------------------------------------------------------

  function MockOrders(): seq<Order> {
    [ Order("ORD001", "David Craig", "Landing Page", "Machine Line Oakland", Completed, "Just now", 1250.0),
      Order("ORD002", "Andi Morrisom", "CRM Admin pages", "Larry San Francisco", Pending, "4 minutes ago", 890.5),
      Order("ORD003", "Dave Gavin", "Client Project", "Boggart Avenue Grads", Completed, "1 hour ago", 2100.75),
      Order("ORD004", "Georgina Night", "Admin Dashboard", "Restaurant Baton Rouge", Pending, "Yesterday", 675.25),
      Order("ORD005", "Andi Lane", "App Landing Page", "Next Lane Growths", Completed, "Feb 2, 2023", 1450.0),
      Order("ORD006", "Sarah Johnson", "E-commerce Store", "Tech Solutions Inc", Completed, "2 hours ago", 3200.50),
      Order("ORD007", "Michael Chen", "Mobile App", "Digital Innovations", Pending, "3 hours ago", 1850.75),
      Order("ORD008", "Emily Rodriguez", "Web Portal", "Cloud Systems", Completed, "5 hours ago", 2750.25),
      Order("ORD009", "James Wilson", "API Integration", "Data Flow Corp", Cancelled, "Yesterday", 1200.00),
      Order("ORD010", "Lisa Thompson", "Dashboard", "Analytics Pro", Completed, "Yesterday", 2100.00),
      Order("ORD011", "Robert Brown", "Payment Gateway", "FinTech Solutions", Pending, "2 days ago", 4500.00),
      Order("ORD012", "Maria Garcia", "User Management", "Security First", Completed, "2 days ago", 1650.50),
      Order("ORD013", "John Smith", "Inventory System", "Retail Tech", Pending, "3 days ago", 3200.75),
      Order("ORD014", "Anna Davis", "Reporting Module", "Business Intelligence", Completed, "3 days ago", 2800.25),
      Order("ORD015", "Chris Lee", "Notification Center", "Communication Hub", Completed, "4 days ago", 1950.00),
      Order("ORD016", "Jennifer White", "Search Engine", "Search Solutions", Pending, "4 days ago", 2400.50),
      Order("ORD017", "David Miller", "Content Management", "Content Pro", Completed, "5 days ago", 3100.75),
      Order("ORD018", "Rachel Green", "Analytics Dashboard", "Data Insights", Completed, "5 days ago", 2750.00),
      Order("ORD019", "Mark Taylor", "Authentication System", "Secure Access", Cancelled, "6 days ago", 1800.25),
      Order("ORD020", "Susan Anderson", "File Storage", "Cloud Storage Co", Completed, "6 days ago", 2200.50),
      Order("ORD021", "Kevin Martinez", "Email Service", "Communication Pro", Pending, "1 week ago", 1650.75),
      Order("ORD022", "Amanda Clark", "Database Management", "Data Systems", Completed, "1 week ago", 4200.00),
      Order("ORD023", "Brian Hall", "API Gateway", "Integration Solutions", Completed, "1 week ago", 3500.25),
      Order("ORD024", "Nicole Young", "Testing Framework", "Quality Assurance", Pending, "1 week ago", 2100.50),
      Order("ORD025", "Daniel King", "Monitoring System", "Performance Monitor", Completed, "2 weeks ago", 2800.75) ]
  }

  /** The five seed notifications, the first three unread. */
  function MockNotifications(now: string): seq<Notification> {
    [ Notification("1", Bug, "You have a bug that needs attention", "9:00 AM", false, now, now),
      Notification("2", User, "New user registered", "8:45 AM", false, now, now),
      Notification("3", Bug, "You have a bug that needs fixing", "8:30 AM", false, now, now),
      Notification("4", Subscription, "Andi Lane subscribed to you", "8:15 AM", true, now, now),
      Notification("5", Data, "Released a new version", "8:00 AM", true, now, now) ]
  }

  /** The seed notifications: five, three of them unread, no id twice. */
  lemma SeedNotificationCounts(now: string)
    ensures var r := MockNotifications(now);
      |r| == 5 && UnreadIn(r) == 3 && UniqueKeys(r, NotificationId)
  {
    var r := MockNotifications(now);
    assert UnreadIn(r[3..]) == 0;
    assert r[2..][1..] == r[3..];
    assert r[1..][1..] == r[2..];
    assert UnreadIn(r[2..]) == 1;
    assert UnreadIn(r[1..]) == 2;
  }

  /** The seed holds 25 orders and its last one already carries the id the
      create handler gives a new order once the table is down to 24. */
  lemma SeedLastId()
    ensures |MockOrders()| == 25
    ensures MockOrders()[24].id == NewOrderId(24)
  {
    var seed := MockOrders();
    assert seed[24].id == "ORD025";
    assert Decimal(25) == "25";
    assert NewOrderId(24) == "ORD" + "025";
  }

  /** Ids repeat once a delete has shortened the table: when the order at `j`
      carries the id a create would give at the current length minus one,
      deleting any other order whose id occurs once leaves a table whose next
      create id is already taken. The seed meets this with `j` = 24. */
  lemma CreateAfterDeleteRepeatsId(os: seq<Order>, i: nat, j: nat)
    requires i < |os| && j < |os| && i != j
    requires forall m :: 0 <= m < |os| && m != i ==> os[m].id != os[i].id
    requires os[j].id == NewOrderId(|os| - 1)
    ensures var rest := Without(os, OrderId, os[i].id);
      && |rest| == |os| - 1
      && 0 <= FirstIndex(rest, OrderId, NewOrderId(|rest|))
  {
    WithoutOnce(os, OrderId, i);
    FoundAfterWithout(os, OrderId, os[i].id, j);
  }

  /** `{ ...order, ...body }` for the keys an update body may hold; the id and
      the date are never among them. */
  function Patched(o: Order, body: UpdateOrderRequest): (r: Order)
    ensures r.id == o.id && r.date == o.date
    ensures body.customer.Some? ==> r.customer == body.customer.value
    ensures body.customer.None? ==> r.customer == o.customer
    ensures body.location.Some? ==> r.location == body.location.value
    ensures body.location.None? ==> r.location == o.location
    ensures body.member.Some? ==> r.member == body.member.value
    ensures body.member.None? ==> r.member == o.member
    ensures body.status.Some? ==> r.status == body.status.value
    ensures body.status.None? ==> r.status == o.status
    ensures body.amount.Some? ==> r.amount == body.amount.value
    ensures body.amount.None? ==> r.amount == o.amount
    ensures body == UpdateOrderRequest(None, None, None, None, None) ==> r == o
  {
    Order(o.id,
      if body.customer.Some? then body.customer.value else o.customer,
      if body.location.Some? then body.location.value else o.location,
      if body.member.Some? then body.member.value else o.member,
      if body.status.Some? then body.status.value else o.status,
      o.date,
      if body.amount.Some? then body.amount.value else o.amount)
  }

  /** Applying the same body twice is applying it once. */
  lemma PatchedIdempotent(o: Order, body: UpdateOrderRequest)
    ensures Patched(Patched(o, body), body) == Patched(o, body)
  {
  }

  // ---------------------------------------------------------------------------
  // The stateful handlers
  // ---------------------------------------------------------------------------

  class Backend {
    var ordersData: seq<Order>
    var notificationsData: seq<Notification>

    constructor(now: string)
      ensures ordersData == MockOrders()
      ensures notificationsData == MockNotifications(now)
    {
      ordersData := MockOrders();
      notificationsData := MockNotifications(now);
    }

    /** `GET /api/orders?page=..&limit=..`, the paginated branch of the
        dynamic handler (it shadows the static `/api/orders` entry). */
    method GetOrders(page: int, limit: int) returns (r: OrdersResponse)
      requires limit >= 1
      ensures r == Paginate(ordersData, page, limit)
    {
      var startIndex := (page - 1) * limit;
      var endIndex := startIndex + limit;
      var paginatedOrders := JsSlice(ordersData, startIndex, endIndex);
      r := OrdersResponse(paginatedOrders, |ordersData|, page, CeilDiv(|ordersData|, limit));
    }

    /** `GET /api/orders/stats`: the counts by status add up to the total,
        which is the table's length. */
    method GetStats() returns (s: OrderStats)
      ensures s == Stats(ordersData)
      ensures s.totalOrders == |ordersData|
      ensures s.pendingOrders + s.completedOrders + s.cancelledOrders == s.totalOrders
    {
      s := OrderStats(|ordersData|, |WithStatus(ordersData, Pending)|,
        |WithStatus(ordersData, Completed)|, |WithStatus(ordersData, Cancelled)|,
        TotalAmount(ordersData));
      StatsAddUp(ordersData);
    }

    /** `GET /api/notifications`: the whole list with its unread and total counts. */
    method GetNotifications() returns (r: NotificationsResponse)
      ensures r.notifications == notificationsData
      ensures r.unreadCount == UnreadIn(notificationsData) && r.totalCount == |notificationsData|
    {
      var unread := CountUnread(notificationsData);
      r := NotificationsResponse(notificationsData, unread, |notificationsData|);
    }

    /** `GET /api/notifications/unread-count`. */
    method GetUnreadCount() returns (count: nat)
      ensures count == UnreadIn(notificationsData)
    {
      count := CountUnread(notificationsData);
    }

    /** `GET /api/orders/:id`: the first order with the id, or `None`. */
    method GetOrder(id: string) returns (r: Option<Order>)
      ensures r.Some? <==> 0 <= FirstIndex(ordersData, OrderId, id)
      ensures r.Some? ==> r.value == ordersData[FirstIndex(ordersData, OrderId, id)] && r.value.id == id
    {
      var i := FindIndex(ordersData, OrderId, id);
      if i == -1 {
        return None;
      }
      return Some(ordersData[i]);
    }

    /** `PUT /api/orders/:id/status`: only when the id is found and the body
        has a status does that order's status (and nothing else) change;
        otherwise the table is untouched and the handler falls through. */
    method UpdateOrderStatus(id: string, status: Option<OrderStatus>) returns (r: Option<Order>)
      modifies this`ordersData
      ensures var i := FirstIndex(old(ordersData), OrderId, id);
        if 0 <= i && status.Some? then
          && ordersData == old(ordersData)[i := old(ordersData)[i].(status := status.value)]
          && r == Some(ordersData[i])
        else ordersData == old(ordersData) && r == None
    {
      var i := FindIndex(ordersData, OrderId, id);
      if i != -1 && status.Some? {
        ordersData := ordersData[i := ordersData[i].(status := status.value)];
        return Some(ordersData[i]);
      }
      return None;
    }

    /** `POST /api/orders`: a pending order dated "Just now", numbered from the
        table's length, goes first. */
    method CreateOrder(body: CreateOrderRequest) returns (r: Order)
      modifies this`ordersData
      ensures r == Order(NewOrderId(|old(ordersData)|), body.customer, body.location, body.member,
                         Pending, "Just now", body.amount)
      ensures ordersData == [r] + old(ordersData)
    {
      r := Order(NewOrderId(|ordersData|), body.customer, body.location, body.member,
                 Pending, "Just now", body.amount);
      ordersData := [r] + ordersData;
    }

    /** `PUT /api/orders/:id`: the body's keys overwrite the first order with
        the id; with no such order the handler falls through. */
    method UpdateOrder(id: string, body: UpdateOrderRequest) returns (r: Option<Order>)
      modifies this`ordersData
      ensures var i := FirstIndex(old(ordersData), OrderId, id);
        if 0 <= i then
          && ordersData == old(ordersData)[i := Patched(old(ordersData)[i], body)]
          && r == Some(ordersData[i])
        else ordersData == old(ordersData) && r == None
    {
      var i := FindIndex(ordersData, OrderId, id);
      if i != -1 {
        ordersData := ordersData[i := Patched(ordersData[i], body)];
        return Some(ordersData[i]);
      }
      return None;
    }

    /** `DELETE /api/orders/:id`: every order with the id goes; the answer is
        success whether or not one existed. */
    method DeleteOrder(id: string) returns (success: bool)
      modifies this`ordersData
      ensures success
      ensures ordersData == Without(old(ordersData), OrderId, id)
    {
      ordersData := Without(ordersData, OrderId, id);
      success := true;
    }

    /** `PUT /api/notifications/:id/read`: the first entry with the id is
        marked read and stamped, read or not; with no such entry the handler
        falls through. */
    method MarkNotificationRead(id: string, now: string) returns (r: Option<Notification>)
      modifies this`notificationsData
      ensures var i := FirstIndex(old(notificationsData), NotificationId, id);
        if 0 <= i then
          && notificationsData == old(notificationsData)[i := MarkRead(old(notificationsData)[i], Some(now))]
          && r == Some(notificationsData[i])
        else notificationsData == old(notificationsData) && r == None
    {
      var i := FindIndex(notificationsData, NotificationId, id);
      if i != -1 {
        notificationsData := notificationsData[i := MarkRead(notificationsData[i], Some(now))];
        return Some(notificationsData[i]);
      }
      return None;
    }

    /** `DELETE /api/notifications/:id`: every entry with the id goes. */
    method DeleteNotification(id: string) returns (success: bool)
      modifies this`notificationsData
      ensures success
      ensures notificationsData == Without(old(notificationsData), NotificationId, id)
    {
      notificationsData := Without(notificationsData, NotificationId, id);
      success := true;
    }

    /** `PUT /api/notifications/read-all`: counts the unread entries, then marks
        every entry read and stamped; the answer is that count. */
    method ReadAll(now: string) returns (updatedCount: nat)
      modifies this`notificationsData
      ensures updatedCount == UnreadIn(old(notificationsData))
      ensures notificationsData == AllMarkedRead(old(notificationsData), Some(now))
      ensures UnreadIn(notificationsData) == 0
    {
      updatedCount := CountUnread(notificationsData);
      var i := 0;
      while i < |notificationsData|
        invariant |notificationsData| == |old(notificationsData)|
        invariant 0 <= i <= |notificationsData|
        invariant forall j :: 0 <= j < i ==> notificationsData[j] == MarkRead(old(notificationsData)[j], Some(now))
        invariant forall j :: i <= j < |notificationsData| ==> notificationsData[j] == old(notificationsData)[j]
      {
        notificationsData := notificationsData[i := MarkRead(notificationsData[i], Some(now))];
        i := i + 1;
      }
    }
  }

  /** `ns.filter((n) => !n.isRead).length`, counted from the back. */
  method CountUnread(ns: seq<Notification>) returns (count: nat)
    ensures count == UnreadIn(ns)
  {
    count := 0;
    var i := |ns|;
    while i > 0
      invariant 0 <= i <= |ns|
      invariant count == UnreadIn(ns[i..])
    {
      i := i - 1;
      assert ns[i..][1..] == ns[i + 1..];
      if !ns[i].isRead {
        count := count + 1;
      }
    }
    assert ns[0..] == ns;
  }
}
