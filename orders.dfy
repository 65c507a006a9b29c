/**
  The orders slice (lib/features/orders/ordersSlice.ts): the current page of
  orders, the pagination counters, the selected order and the statistics.
  Each reducer and each phase of each asynchronous operation is a method that
  takes its payload; its `modifies` clause names exactly the fields it assigns.
*/
module OrdersSlice {
  import opened Common
  import opened ApiTypes

  /** `findIndex` by the payload's id, then overwrite that one entry. */
  function Replaced(os: seq<Order>, o: Order): seq<Order> {
    var i := FirstIndex(os, OrderId, o.id);
    if 0 <= i then os[i := o] else os
  }

  /** The first order with the payload's id, and only that one, becomes the
      payload; with no such order the list is unchanged. */
  lemma ReplacedEffect(os: seq<Order>, o: Order)
    ensures var r := Replaced(os, o);
      && |r| == |os|
      && (forall j :: 0 <= j < |os| ==> r[j].id == os[j].id)
      && (FirstIndex(os, OrderId, o.id) < 0 ==> r == os)
      && (0 <= FirstIndex(os, OrderId, o.id) ==>
            var i := FirstIndex(os, OrderId, o.id);
            && r[i] == o
            && (forall j :: 0 <= j < |os| && j != i ==> r[j] == os[j]))
  {
  }

  /** Replacing with the same payload twice is replacing once. */
  lemma ReplacedIdempotent(os: seq<Order>, o: Order)
    ensures Replaced(Replaced(os, o), o) == Replaced(os, o)
  {
    var i := FirstIndex(os, OrderId, o.id);
    if 0 <= i {
      FirstIndexAfterUpdate(os, OrderId, i, o, o.id);
    }
  }

  /** `selectedOrder?.id === id`: a selection exists and has that id. */
  predicate SelectedIs(sel: Option<Order>, id: string) {
    sel.Some? && sel.value.id == id
  }

  /** The selection after an update: the payload when the selection had its
      id, untouched otherwise; an update never selects nor clears anything. */
  function SelectedAfterUpdate(sel: Option<Order>, o: Order): (r: Option<Order>)
    ensures r.Some? <==> sel.Some?
    ensures SelectedIs(r, o.id) <==> SelectedIs(sel, o.id)
    ensures SelectedIs(r, o.id) ==> r == Some(o)
    ensures !SelectedIs(sel, o.id) ==> r == sel
  {
    if SelectedIs(sel, o.id) then Some(o) else sel
  }

  /** The selection after a delete: cleared when it had the deleted id. */
  function SelectedAfterDelete(sel: Option<Order>, id: string): (r: Option<Order>)
    ensures SelectedIs(sel, id) ==> r == None
    ensures !SelectedIs(sel, id) ==> r == sel
    ensures !SelectedIs(r, id)
  {
    if SelectedIs(sel, id) then None else sel
  }

  /** The five orders the store starts with, no id twice. */
  function InitialOrders(): (r: seq<Order>)
    ensures |r| == 5 && UniqueKeys(r, OrderId)
  {
    [ Order("ORD001", "David Craig", "Landing Page", "Machine Line Oakland", Completed, "Just now", 1250.0),
      Order("ORD002", "Andi Morrisom", "CRM Admin pages", "Larry San Francisco", Pending, "4 minutes ago", 890.5),
      Order("ORD003", "Dave Gavin", "Client Project", "Boggart Avenue Grads", Completed, "1 hour ago", 2100.75),
      Order("ORD004", "Georgina Night", "Admin Dashboard", "Restaurant Baton Rouge", Pending, "Yesterday", 675.25),
      Order("ORD005", "Andi Lane", "App Landing Page", "Next Lane Growths", Completed, "Feb 2, 2023", 1450.0) ]
  }

  class State {
    var orders: seq<Order>
    var currentPage: int
    var totalPages: int
    var totalCount: int
    var isLoading: bool
    var error: Option<string>
    var selectedOrder: Option<Order>
    var stats: Option<OrderStats>

    /** The initial state: five seed orders on page 1 of 5, a total count of
        zero, nothing loading, selected or fetched. */
    constructor()
      ensures orders == InitialOrders()
      ensures currentPage == 1 && totalPages == 5 && totalCount == 0
      ensures !isLoading && error == None && selectedOrder == None && stats == None
    {
      orders := InitialOrders();
      currentPage := 1;
      totalPages := 5;
      totalCount := 0;
      isLoading := false;
      error := None;
      selectedOrder := None;
      stats := None;
    }

    // -------------------------------------------------------------------------
    // Reducers: each assigns one field
    // -------------------------------------------------------------------------

    method SetLoading(loading: bool)
      modifies this`isLoading
      ensures isLoading == loading
    {
      isLoading := loading;
    }

    method SetCurrentPage(page: int)
      modifies this`currentPage
      ensures currentPage == page
    {
      currentPage := page;
    }

    method ClearError()
      modifies this`error
      ensures error == None
    {
      error := None;
    }

    method SetSelectedOrder(sel: Option<Order>)
      modifies this`selectedOrder
      ensures selectedOrder == sel
    {
      selectedOrder := sel;
    }

    // -------------------------------------------------------------------------
    // The pending and rejected phases shared by fetchOrders, createOrder,
    // updateOrder and deleteOrder
    // -------------------------------------------------------------------------

    /** `fetchOrders`, `createOrder`, `updateOrder` and `deleteOrder` pending. */
    method Pending()
      modifies this`isLoading, this`error
      ensures isLoading && error == None
    {
      isLoading := true;
      error := None;
    }

    /** `fetchOrders`, `createOrder`, `updateOrder` and `deleteOrder` rejected:
        loading stops and the error is recorded; the orders, counters and
        selection are not touched. */
    method Rejected(message: string)
      modifies this`isLoading, this`error
      ensures !isLoading && error == Some(message)
    {
      isLoading := false;
      error := Some(message);
    }

    /** `fetchOrder`, `updateOrderStatus` and `fetchOrderStats` rejected: the
        error is recorded and `isLoading` is left as it was. */
    method RejectedQuietly(message: string)
      modifies this`error
      ensures error == Some(message)
    {
      error := Some(message);
    }

    // -------------------------------------------------------------------------
    // Fulfilled phases
    // -------------------------------------------------------------------------

    /** `fetchOrders` fulfilled: the page and its counters replace the old ones
        wholesale. */
    method FetchOrdersFulfilled(payload: OrdersResponse)
      modifies this`isLoading, this`orders, this`currentPage, this`totalPages, this`totalCount
      ensures !isLoading
      ensures orders == payload.orders
      ensures currentPage == payload.currentPage
      ensures totalPages == payload.totalPages
      ensures totalCount == payload.totalCount
    {
      isLoading := false;
      orders := payload.orders;
      currentPage := payload.currentPage;
      totalPages := payload.totalPages;
      totalCount := payload.totalCount;
    }

    /** `fetchOrder` fulfilled: only the selection changes. */
    method FetchOrderFulfilled(o: Order)
      modifies this`selectedOrder
      ensures selectedOrder == Some(o)
    {
      selectedOrder := Some(o);
    }

    /** `createOrder` fulfilled: the new order goes first, ahead of the old
        ones in their order, and the total grows by exactly one. */
    method CreateFulfilled(o: Order)
      modifies this`isLoading, this`orders, this`totalCount
      ensures !isLoading
      ensures orders == [o] + old(orders)
      ensures totalCount == old(totalCount) + 1
    {
      isLoading := false;
      orders := [o] + orders;
      totalCount := totalCount + 1;
    }

    /** The body shared by `updateOrder` and `updateOrderStatus` fulfilled. */
    method ApplyUpdate(o: Order)
      modifies this`orders, this`selectedOrder
      ensures orders == Replaced(old(orders), o)
      ensures selectedOrder == SelectedAfterUpdate(old(selectedOrder), o)
    {
      var index := FindIndex(orders, OrderId, o.id);
      if index != -1 {
        orders := orders[index := o];
      }
      if SelectedIs(selectedOrder, o.id) {
        selectedOrder := Some(o);
      }
    }

    /** `updateOrder` fulfilled: loading stops, then the first order with the
        payload's id and a selection with that id become the payload. */
    method UpdateFulfilled(o: Order)
      modifies this`isLoading, this`orders, this`selectedOrder
      ensures !isLoading
      ensures orders == Replaced(old(orders), o)
      ensures selectedOrder == SelectedAfterUpdate(old(selectedOrder), o)
    {
      isLoading := false;
      ApplyUpdate(o);
    }

    /** `updateOrderStatus` fulfilled: as `updateOrder`, but `isLoading` is
        left as it was. */
    method UpdateStatusFulfilled(o: Order)
      modifies this`orders, this`selectedOrder
      ensures orders == Replaced(old(orders), o)
      ensures selectedOrder == SelectedAfterUpdate(old(selectedOrder), o)
    {
      ApplyUpdate(o);
    }

    /** `deleteOrder` fulfilled: every order with the id goes; the total drops
        by one, floored at zero, whether or not an order had the id; a
        selection with the id is cleared. */
    method DeleteFulfilled(id: string)
      modifies this`isLoading, this`orders, this`totalCount, this`selectedOrder
      ensures !isLoading
      ensures orders == Without(old(orders), OrderId, id)
      ensures totalCount == Max(0, old(totalCount) - 1)
      ensures selectedOrder == SelectedAfterDelete(old(selectedOrder), id)
    {
      isLoading := false;
      orders := Without(orders, OrderId, id);
      totalCount := Max(0, totalCount - 1);
      if SelectedIs(selectedOrder, id) {
        selectedOrder := None;
      }
    }

    /** `fetchOrderStats` fulfilled: only the statistics change. */
    method StatsFulfilled(s: OrderStats)
      modifies this`stats
      ensures stats == Some(s)
    {
      stats := Some(s);
    }
  }

  /** A delete of an id no order has leaves the orders as they were, yet still
      lowers a positive total: the counter is decremented unconditionally and
      so falls out of step with a list it matched. */
  lemma {:induction false} DeleteOfAbsentId(os: seq<Order>, total: int, id: string)
    requires FirstIndex(os, OrderId, id) < 0
    ensures Without(os, OrderId, id) == os
    ensures total == |os| > 0 ==> Max(0, total - 1) == |Without(os, OrderId, id)| - 1
  {
    WithoutAbsent(os, OrderId, id);
  }
}
