/**
 * The server-backed orders page of the admin area: a status filter and a
 * search box over the loaded orders, an order details dialog with line
 * totals, and two dialogs that change an order's status or payment status.
 */
module OrdersAdmin {
  import opened Optional
  import opened Api
  import opened Text
  import opened Seqs
  import opened UseApi
  import opened OrderLabels
  import BookingForm

  /** The search box matches the customer's name or email, or the order id, ignoring case. */
  predicate SearchMatches(o: Order, search: string) {
    Matches(o.customer.name, search) || Matches(o.customer.email, search) || Matches(o.id, search)
  }

  /** The `filteredOrders` predicate: "" switches the status filter or the search off. */
  predicate KeepOrder(o: Order, statusFilter: string, search: string) {
    (statusFilter == "" || OrderStatusName(o.status) == statusFilter)
    && (search == "" || SearchMatches(o, search))
  }

  /** `filteredOrders`. */
  function FilteredOrders(orders: seq<Order>, statusFilter: string, search: string): seq<Order> {
    Filter(orders, o => KeepOrder(o, statusFilter, search))
  }

  /** An order is listed exactly when it is loaded and passes both conditions. */
  lemma FilteredOrdersMembers(orders: seq<Order>, statusFilter: string, search: string, o: Order)
    ensures o in FilteredOrders(orders, statusFilter, search) <==>
      o in orders
      && (statusFilter == "" || OrderStatusName(o.status) == statusFilter)
      && (search == "" || Matches(o.customer.name, search) || Matches(o.customer.email, search)
          || Matches(o.id, search))
  {
    FilterMembership(orders, o => KeepOrder(o, statusFilter, search), o);
  }

  /** The listed orders keep the order in which they were loaded. */
  lemma FilteredOrdersIsSubseq(orders: seq<Order>, statusFilter: string, search: string)
    ensures IsSubseq(FilteredOrders(orders, statusFilter, search), orders)
  {
    FilterIsSubseq(orders, o => KeepOrder(o, statusFilter, search));
  }

  /** With no status filter and no search every loaded order is listed, in order. */
  lemma NoFilterListsAll(orders: seq<Order>)
    ensures FilteredOrders(orders, "", "") == orders
  {
    FilterKeepsAll(orders, o => KeepOrder(o, "", ""));
  }

  /** A status filter that names no status lists nothing. */
  lemma UnknownStatusListsNothing(orders: seq<Order>, statusFilter: string, search: string)
    requires statusFilter != ""
    requires forall s :: OrderStatusName(s) != statusFilter
    ensures FilteredOrders(orders, statusFilter, search) == []
  {
    FilterKeepsNone(orders, o => KeepOrder(o, statusFilter, search));
  }

  /** Filtering by a status's server name lists exactly the matching orders of that status. */
  lemma StatusFilterSelectsStatus(orders: seq<Order>, s: OrderStatus, search: string, o: Order)
    ensures o in FilteredOrders(orders, OrderStatusName(s), search) <==>
              o in orders && o.status == s && (search == "" || SearchMatches(o, search))
  {
    FilteredOrdersMembers(orders, OrderStatusName(s), search, o);
    StatusNamesDistinct(o.status, s, Paid, Paid);
  }

  /** The amount shown for one line of the details dialog. */
  function LineTotal(item: OrderItem, totalDays: int): int {
    item.pricePerDay * totalDays * item.quantity
  }

  /**
   * One unit of a tool rented over a range costs what the booking form
   * quotes for that range.
   */
  lemma SingleUnitLineIsQuote(item: OrderItem, tool: Tool, s: int, e: int, previousPrice: int)
    requires item.quantity == 1 && item.pricePerDay == tool.pricePerDay
    ensures LineTotal(item, BookingForm.DaysDifference(s, e))
            == BookingForm.Recalculate(Some(s), Some(e), Some(tool), previousPrice).price
  {
  }

  /** The component's state. */
  class OrdersPage {
    var search: string
    var statusFilter: string
    var orderDetailsOpen: bool
    var selectedOrder: Option<Order>
    var changeStatusDialogOpen: bool
    var changePaymentStatusDialogOpen: bool
    var newStatus: OrderStatus
    var newPaymentStatus: PaymentStatus
    const orders: ApiList<Order>
    const statusUpdate: ApiHook<Order>
    const paymentUpdate: ApiHook<Order>

    ghost predicate Valid()
      reads this, orders, orders.api, statusUpdate, paymentUpdate
    {
      orders.Valid() && statusUpdate.Valid() && paymentUpdate.Valid() && statusUpdate != paymentUpdate
    }

    constructor ()
      ensures Valid() && fresh(orders) && fresh(orders.api) && fresh(statusUpdate) && fresh(paymentUpdate)
      ensures search == "" && statusFilter == "" && !orderDetailsOpen && selectedOrder == None
      ensures !changeStatusDialogOpen && !changePaymentStatusDialogOpen
      ensures newStatus == Pending && newPaymentStatus == Unpaid
      ensures orders.items == [] && orders.params == map[]
    {
      search, statusFilter, orderDetailsOpen, selectedOrder := "", "", false, None;
      changeStatusDialogOpen, changePaymentStatusDialogOpen := false, false;
      newStatus, newPaymentStatus := Pending, Unpaid;
      orders := new ApiList(map[]);
      statusUpdate := new ApiHook();
      paymentUpdate := new ApiHook();
    }

    /** The orders the table shows. */
    function Listed(): seq<Order>
      reads this, orders
    {
      FilteredOrders(orders.items, statusFilter, search)
    }

    /** `handleSearch`: reload page 1 of size 10 with the typed search. */
    method HandleSearch(outcome: Completion<Response<Order>>)
      requires Valid()
      modifies orders, orders.api
      ensures Valid()
      ensures orders.params == CallParams(old(orders.params), ReloadCall("search", search))
      ensures outcome.Return? ==> (orders.items, orders.totalItems)
                                  == ApplyResponse(old(orders.items), old(orders.totalItems), outcome.value)
      ensures outcome.Throw? ==> orders.items == old(orders.items)
    {
      var call := ReloadCall("search", search);
      var _ := orders.LoadItems(Some(call.page), Some(call.size), call.additional, outcome);
    }

    /** `handleFilterChange`: store the status filter, then reload page 1 of size 10 with it. */
    method HandleFilterChange(status: string, outcome: Completion<Response<Order>>)
      requires Valid()
      modifies this`statusFilter, orders, orders.api
      ensures Valid() && statusFilter == status
      ensures orders.params == CallParams(old(orders.params), ReloadCall("status", status))
      ensures outcome.Return? ==> (orders.items, orders.totalItems)
                                  == ApplyResponse(old(orders.items), old(orders.totalItems), outcome.value)
      ensures outcome.Throw? ==> orders.items == old(orders.items)
    {
      statusFilter := status;
      var call := ReloadCall("status", status);
      var _ := orders.LoadItems(Some(call.page), Some(call.size), call.additional, outcome);
    }

    /** `handleViewDetails`. */
    method HandleViewDetails(o: Order)
      modifies this`selectedOrder, this`orderDetailsOpen
      ensures selectedOrder == Some(o) && orderDetailsOpen
    {
      selectedOrder, orderDetailsOpen := Some(o), true;
    }

    /** `handleOpenStatusChange`: the dialog opens on the order's current status. */
    method HandleOpenStatusChange(o: Order)
      modifies this`selectedOrder, this`newStatus, this`changeStatusDialogOpen
      ensures selectedOrder == Some(o) && newStatus == o.status && changeStatusDialogOpen
    {
      selectedOrder, newStatus, changeStatusDialogOpen := Some(o), o.status, true;
    }

    /** `handleOpenPaymentStatusChange`: the dialog opens on the order's current payment status. */
    method HandleOpenPaymentStatusChange(o: Order)
      modifies this`selectedOrder, this`newPaymentStatus, this`changePaymentStatusDialogOpen
      ensures selectedOrder == Some(o) && newPaymentStatus == o.paymentStatus && changePaymentStatusDialogOpen
    {
      selectedOrder, newPaymentStatus, changePaymentStatusDialogOpen := Some(o), o.paymentStatus, true;
    }

    /**
     * `confirmStatusChange`: returns the (id, status) pair sent to the
     * server, None when no order is selected, in which case nothing changes.
     * Only a successful update closes the dialog and reloads the list.
     */
    method ConfirmStatusChange(update: Completion<Order>, reload: Completion<Response<Order>>)
      returns (sent: Option<(string, OrderStatus)>)
      requires Valid()
      modifies this`changeStatusDialogOpen, statusUpdate, orders, orders.api
      ensures Valid()
      ensures sent.None? <==> old(selectedOrder).None?
      ensures sent.Some? ==> sent.value == (selectedOrder.value.id, newStatus)
      ensures sent.None? ==> changeStatusDialogOpen == old(changeStatusDialogOpen)
      ensures sent.None? ==> statusUpdate.state == old(statusUpdate.state) && orders.params == old(orders.params)
      ensures sent.Some? ==> statusUpdate.state == Settled(update)
      ensures sent.Some? && update.Return? ==> !changeStatusDialogOpen
      ensures sent.Some? && update.Return? ==>
                orders.params == LoadParams(old(orders.params), map[], old(orders.currentPage), old(orders.pageSize))
      ensures update.Throw? ==> changeStatusDialogOpen == old(changeStatusDialogOpen)
      ensures update.Throw? ==> orders.params == old(orders.params) && orders.items == old(orders.items)
      ensures sent.None? ==> orders.items == old(orders.items) && orders.totalItems == old(orders.totalItems)
      ensures sent.None? || update.Throw? ==> orders.api.state == old(orders.api.state)
      ensures sent.Some? && update.Return? ==> orders.api.state == Settled(reload)
      ensures sent.Some? && update.Return? && reload.Return? ==>
                (orders.items, orders.totalItems)
                == ApplyResponse(old(orders.items), old(orders.totalItems), reload.value)
      ensures sent.Some? && update.Return? && reload.Throw? ==> orders.items == old(orders.items)
      ensures orders.currentPage == old(orders.currentPage) && orders.pageSize == old(orders.pageSize)
    {
      if selectedOrder.None? {
        return None;
      }
      sent := Some((selectedOrder.value.id, newStatus));
      var r := statusUpdate.Execute(update);
      if r.Return? {
        changeStatusDialogOpen := false;
        var _ := orders.Refresh(reload);
      }
    }

    /** `confirmPaymentStatusChange`, the same steps for the payment status. */
    method ConfirmPaymentStatusChange(update: Completion<Order>, reload: Completion<Response<Order>>)
      returns (sent: Option<(string, PaymentStatus)>)
      requires Valid()
      modifies this`changePaymentStatusDialogOpen, paymentUpdate, orders, orders.api
      ensures Valid()
      ensures sent.None? <==> old(selectedOrder).None?
      ensures sent.Some? ==> sent.value == (selectedOrder.value.id, newPaymentStatus)
      ensures sent.None? ==> changePaymentStatusDialogOpen == old(changePaymentStatusDialogOpen)
      ensures sent.None? ==> paymentUpdate.state == old(paymentUpdate.state) && orders.params == old(orders.params)
      ensures sent.Some? ==> paymentUpdate.state == Settled(update)
      ensures sent.Some? && update.Return? ==> !changePaymentStatusDialogOpen
      ensures sent.Some? && update.Return? ==>
                orders.params == LoadParams(old(orders.params), map[], old(orders.currentPage), old(orders.pageSize))
      ensures update.Throw? ==> changePaymentStatusDialogOpen == old(changePaymentStatusDialogOpen)
      ensures update.Throw? ==> orders.params == old(orders.params) && orders.items == old(orders.items)
      ensures sent.None? ==> orders.items == old(orders.items) && orders.totalItems == old(orders.totalItems)
      ensures sent.None? || update.Throw? ==> orders.api.state == old(orders.api.state)
      ensures sent.Some? && update.Return? ==> orders.api.state == Settled(reload)
      ensures sent.Some? && update.Return? && reload.Return? ==>
                (orders.items, orders.totalItems)
                == ApplyResponse(old(orders.items), old(orders.totalItems), reload.value)
      ensures sent.Some? && update.Return? && reload.Throw? ==> orders.items == old(orders.items)
      ensures orders.currentPage == old(orders.currentPage) && orders.pageSize == old(orders.pageSize)
    {
      if selectedOrder.None? {
        return None;
      }
      sent := Some((selectedOrder.value.id, newPaymentStatus));
      var r := paymentUpdate.Execute(update);
      if r.Return? {
        changePaymentStatusDialogOpen := false;
        var _ := orders.Refresh(reload);
      }
    }
  }
}
