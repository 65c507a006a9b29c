/**
  The order table's derived view and pagination bounds
  (components/organisms/order-table.tsx): the effective search term, the
  filter over the current page of orders, the in-place sort of the filtered
  copy, the previous/next targets, the page buttons and the "Showing" line.

  `new Date(date).getTime()` is not modelled: the date column is compared
  through `dateKey`, an abstract numeric key supplied by the caller.
*/
module OrderTable {
  import opened Common
  import opened ApiTypes
  import opened Sorting
  import MockHandlers

  datatype OrderField = Id | Customer | Location | Member | Status | Date | Amount

  /** The status as the API spells it. */
  function StatusText(st: OrderStatus): string {
    match st
    case Pending => "pending"
    case Completed => "completed"
    case Cancelled => "cancelled"
  }

  /** `globalSearchTerm || localSearchTerm`: the global term wins unless it is empty. */
  function EffectiveTerm(global: string, local: string): string {
    if global != [] then global else local
  }

  /** A non-empty global term decides the view whatever the local box holds;
      with an empty one the local term acts exactly as a global term would. */
  lemma GlobalTermWins(os: seq<Order>, global: string, local1: string, local2: string,
                       field: Option<OrderField>, dir: Option<Direction>,
                       dateKey: string -> real)
    ensures global != [] ==>
      OrderView(os, global, local1, field, dir, dateKey) == OrderView(os, global, local2, field, dir, dateKey)
    ensures global == [] ==>
      OrderView(os, global, local1, field, dir, dateKey) == OrderView(os, local1, [], field, dir, dateKey)
  {
    if global != [] {
      assert EffectiveTerm(global, local1) == EffectiveTerm(global, local2);
    } else {
      assert EffectiveTerm(global, local1) == EffectiveTerm(local1, []);
    }
  }

  /** The filter's test: an empty term keeps everything; otherwise the
      lower-cased term must occur in the lower-cased customer, id, location
      or member. */
  predicate Matches(o: Order, term: string) {
    var t := ToLower(term);
    term == []
      || Includes(ToLower(o.customer), t) || Includes(ToLower(o.id), t)
      || Includes(ToLower(o.location), t) || Includes(ToLower(o.member), t)
  }

  function FilterOrders(os: seq<Order>, term: string): seq<Order> {
    Filter(os, o => Matches(o, term))
  }

  /** The filtered list is an ordered subsequence of the orders holding
      exactly those that match; an empty term keeps every order in place. */
  lemma FilterOrdersSpec(os: seq<Order>, term: string)
    ensures IsSubsequence(FilterOrders(os, term), os)
    ensures forall o :: o in FilterOrders(os, term) <==> o in os && Matches(o, term)
    ensures term == [] ==> FilterOrders(os, term) == os
    ensures forall o :: multiset(FilterOrders(os, term))[o] == if Matches(o, term) then multiset(os)[o] else 0
  {
    var r := FilterOrders(os, term);
    forall o | o in os && Matches(o, term) ensures o in r {
      var i :| 0 <= i < |os| && os[i] == o;
    }
    if term == [] {
      FilterAll(os, o => Matches(o, term));
    }
  }

  /** The comparator's key for one column: `amount` as a number, `date`
      through `dateKey`, every other column as its lower-cased string. */
  function OrderKey(o: Order, f: OrderField, dateKey: string -> real): SortKey {
    match f
    case Id => Text(ToLower(o.id))
    case Customer => Text(ToLower(o.customer))
    case Location => Text(ToLower(o.location))
    case Member => Text(ToLower(o.member))
    case Status => Text(ToLower(StatusText(o.status)))
    case Date => Num(dateKey(o.date))
    case Amount => Num(o.amount)
  }

  /** The key function the comparator reads for column `f`. */
  function ColumnKey(f: OrderField, dateKey: string -> real): Order -> SortKey {
    o => OrderKey(o, f, dateKey)
  }

  /** `sortedAndFilteredOrders`: filter by the effective term, then, when both
      a field and a direction are set, sort stably by that column. */
  function OrderView(os: seq<Order>, global: string, local: string,
                     field: Option<OrderField>, dir: Option<Direction>,
                     dateKey: string -> real): seq<Order>
  {
    var filtered := FilterOrders(os, EffectiveTerm(global, local));
    if field.Some? && dir.Some? then
      StableSort(filtered, ColumnKey(field.value, dateKey), dir.value)
    else filtered
  }

  /** Without an active sort the view is the filtered list. With one it is a
      permutation of the filtered list, ordered by the column in the chosen
      direction, and keeping orders with equal keys in their filtered order
      (by `StableSortIsTheSort`, no other ordering has these properties). */
  lemma OrderViewSpec(os: seq<Order>, global: string, local: string,
                      field: Option<OrderField>, dir: Option<Direction>,
                      dateKey: string -> real)
    ensures var filtered := FilterOrders(os, EffectiveTerm(global, local));
      var view := OrderView(os, global, local, field, dir, dateKey);
      && (!(field.Some? && dir.Some?) ==> view == filtered)
      && (field.Some? && dir.Some? ==>
            var key := ColumnKey(field.value, dateKey);
            && multiset(view) == multiset(filtered)
            && SortedBy(view, key, dir.value)
            && (forall k :: WithKey(view, key, k) == WithKey(filtered, key, k)))
  {
    var filtered := FilterOrders(os, EffectiveTerm(global, local));
    if field.Some? && dir.Some? {
      var key := ColumnKey(field.value, dateKey);
      StableSortSorted(filtered, key, dir.value);
      forall k ensures WithKey(StableSort(filtered, key, dir.value), key, k) == WithKey(filtered, key, k) {
        StableSortStable(filtered, key, dir.value, k);
      }
    }
  }

  /** The view's computation as the component performs it: `filter` builds a
      fresh array and `sort` reorders that array in place, so the orders it
      was computed from are left alone. */
  method SortedAndFilteredOrders(os: seq<Order>, global: string, local: string,
                                 field: Option<OrderField>, dir: Option<Direction>,
                                 dateKey: string -> real)
    returns (r: seq<Order>)
    ensures r == OrderView(os, global, local, field, dir, dateKey)
  {
    var filtered := FilterOrders(os, EffectiveTerm(global, local));
    var a := new Order[|filtered|](i requires 0 <= i < |filtered| => filtered[i]);
    assert a[..] == filtered;
    if field.Some? && dir.Some? {
      SortInPlace(a, ColumnKey(field.value, dateKey), dir.value);
    }
    r := a[..];
  }

  // ---------------------------------------------------------------------------
  // Pagination controls
  // ---------------------------------------------------------------------------

  /** The page the "<" button asks for. */
  function PrevTarget(current: int): int {
    Max(1, current - 1)
  }

  /** The page the ">" button asks for. */
  function NextTarget(current: int, totalPages: int): int {
    Min(totalPages, current + 1)
  }

  /** From a page within `1..totalPages` both buttons stay within that range
      and move by at most one page; each moves exactly when its button is
      enabled (not on the first, respectively the last, page). */
  lemma TargetsInRange(current: int, totalPages: int)
    requires 1 <= current <= totalPages
    ensures 1 <= PrevTarget(current) <= current
    ensures current <= NextTarget(current, totalPages) <= totalPages
    ensures PrevTarget(current) == current - 1 || PrevTarget(current) == current
    ensures NextTarget(current, totalPages) == current + 1 || NextTarget(current, totalPages) == current
    ensures PrevTarget(current) < current <==> current != 1
    ensures NextTarget(current, totalPages) > current <==> current != totalPages
  {
  }

  /** At most five numbered buttons are shown. */
  const MaxVisiblePages := 5

  /** The numbered buttons: `for (let i = 1; i <= Math.min(totalPages, 5); i++)`. */
  method PageButtons(totalPages: int) returns (pages: seq<int>)
    ensures |pages| == Max(0, Min(totalPages, MaxVisiblePages))
    ensures forall i :: 0 <= i < |pages| ==> pages[i] == i + 1
  {
    pages := [];
    var i := 1;
    while i <= Min(totalPages, MaxVisiblePages)
      invariant 1 <= i <= Max(1, Min(totalPages, MaxVisiblePages) + 1)
      invariant |pages| == i - 1
      invariant forall j :: 0 <= j < |pages| ==> pages[j] == j + 1
    {
      pages := pages + [i];
      i := i + 1;
    }
  }

  /** The page size the table asks the backend for. */
  const PageSize := 10

  /** The first row number of the "Showing" line. */
  function ShowingFrom(currentPage: int): int {
    (currentPage - 1) * PageSize + 1
  }

  /** The last row number of the "Showing" line. */
  function ShowingTo(currentPage: int, totalCount: int): int {
    Min(currentPage * PageSize, totalCount)
  }

  /** For a page the backend has, the "Showing" line names exactly the rows
      of the page it returns: they start at row `ShowingFrom` of the table
      and there are `ShowingTo - ShowingFrom + 1` of them. */
  lemma ShowingMatchesPage(os: seq<Order>, page: int)
    requires 1 <= page <= MockHandlers.Paginate(os, page, PageSize).totalPages
    ensures var r := MockHandlers.Paginate(os, page, PageSize);
      && 1 <= ShowingFrom(page) <= ShowingTo(page, r.totalCount)
      && |r.orders| == ShowingTo(page, r.totalCount) - ShowingFrom(page) + 1
      && r.orders == os[ShowingFrom(page) - 1..ShowingTo(page, r.totalCount)]
  {
    MockHandlers.PaginateBounds(os, page, PageSize);
    MockHandlers.PageStart(page, PageSize, |os|);
    assert page * PageSize == (page - 1) * PageSize + PageSize;
  }
}
