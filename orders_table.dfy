/**
 * The orders table of the admin area that works on its own mock list: a
 * search box, a status filter and a payment filter, and a per-row menu whose
 * "complete" and "cancel" entries depend on the order's status.
 */
module OrdersTable {
  import opened Api
  import opened Text
  import opened Seqs

  /** The table's own order record: customer and email are plain strings, items are tool names. */
  datatype MockOrder = MockOrder(
    id: string,
    customer: string,
    email: string,
    phone: string,
    date: string,
    startDate: string,
    endDate: string,
    totalDays: int,
    items: seq<string>,
    amount: string,
    status: OrderStatus,
    paymentStatus: PaymentStatus)

  /** The value of a filter that switches it off. */
  const All := "all"

  /** `order.items.some(...)`: some item name contains the search, ignoring case. */
  predicate AnyItemMatches(items: seq<string>, search: string) {
    if items == [] then false
    else Matches(items[0], search) || AnyItemMatches(items[1..], search)
  }

  lemma {:induction false} AnyItemMatchesIff(items: seq<string>, search: string)
    ensures AnyItemMatches(items, search) <==> exists i :: 0 <= i < |items| && Matches(items[i], search)
  {
    if items != [] {
      AnyItemMatchesIff(items[1..], search);
      if !Matches(items[0], search) && AnyItemMatches(items, search) {
        var i :| 0 <= i < |items[1..]| && Matches(items[1..][i], search);
        assert items[i + 1] == items[1..][i];
      }
      if exists i :: 0 <= i < |items| && Matches(items[i], search) {
        var i :| 0 <= i < |items| && Matches(items[i], search);
        if i > 0 {
          assert items[1..][i - 1] == items[i];
        }
      }
    }
  }

  /** `matchesSearch`. */
  predicate MatchesSearch(o: MockOrder, search: string) {
    search == "" || Matches(o.id, search) || Matches(o.customer, search) || Matches(o.email, search)
    || AnyItemMatches(o.items, search)
  }

  /** `matchesStatus`. */
  predicate MatchesStatus(o: MockOrder, statusFilter: string) {
    statusFilter == All || OrderStatusName(o.status) == statusFilter
  }

  /** `matchesPayment`. */
  predicate MatchesPayment(o: MockOrder, paymentFilter: string) {
    paymentFilter == All || PaymentStatusName(o.paymentStatus) == paymentFilter
  }

  predicate KeepOrder(o: MockOrder, search: string, statusFilter: string, paymentFilter: string) {
    MatchesSearch(o, search) && MatchesStatus(o, statusFilter) && MatchesPayment(o, paymentFilter)
  }

  /** `filteredOrders`. */
  function FilteredOrders(orders: seq<MockOrder>, search: string, statusFilter: string,
                          paymentFilter: string): seq<MockOrder> {
    Filter(orders, o => KeepOrder(o, search, statusFilter, paymentFilter))
  }

  /** An order is listed exactly when it passes the search and both filters. */
  lemma FilteredOrdersMembers(orders: seq<MockOrder>, search: string, statusFilter: string,
                              paymentFilter: string, o: MockOrder)
    ensures o in FilteredOrders(orders, search, statusFilter, paymentFilter) <==>
      o in orders
      && (search == "" || Matches(o.id, search) || Matches(o.customer, search) || Matches(o.email, search)
          || exists i :: 0 <= i < |o.items| && Matches(o.items[i], search))
      && (statusFilter == All || OrderStatusName(o.status) == statusFilter)
      && (paymentFilter == All || PaymentStatusName(o.paymentStatus) == paymentFilter)
  {
    FilterMembership(orders, o => KeepOrder(o, search, statusFilter, paymentFilter), o);
    AnyItemMatchesIff(o.items, search);
  }

  /** The listed orders keep their order. */
  lemma FilteredOrdersIsSubseq(orders: seq<MockOrder>, search: string, statusFilter: string,
                               paymentFilter: string)
    ensures IsSubseq(FilteredOrders(orders, search, statusFilter, paymentFilter), orders)
  {
    FilterIsSubseq(orders, o => KeepOrder(o, search, statusFilter, paymentFilter));
  }

  /** The initial search and filters list every order, in order. */
  lemma InitialStateListsAll(orders: seq<MockOrder>)
    ensures FilteredOrders(orders, "", All, All) == orders
  {
    FilterKeepsAll(orders, o => KeepOrder(o, "", All, All));
  }

  /** Narrowing a filter from "all" to one status can only drop orders. */
  lemma StatusFilterNarrows(orders: seq<MockOrder>, search: string, status: OrderStatus, paymentFilter: string)
    ensures IsSubseq(FilteredOrders(orders, search, OrderStatusName(status), paymentFilter),
                     FilteredOrders(orders, search, All, paymentFilter))
  {
    FilterStronger(orders, o => KeepOrder(o, search, OrderStatusName(status), paymentFilter),
                   o => KeepOrder(o, search, All, paymentFilter));
  }

  /** The "Завершить" entry is offered for an order that is not completed. */
  predicate CanComplete(o: MockOrder) {
    o.status != Completed
  }

  /** The "Отменить" entry is offered for an order that is not cancelled. */
  predicate CanCancel(o: MockOrder) {
    o.status != Cancelled
  }

  /**
   * Every order offers at least one of the two actions; an order offers both
   * exactly while it is pending or processing.
   */
  lemma ActionsOffered(o: MockOrder)
    ensures CanComplete(o) || CanCancel(o)
    ensures CanComplete(o) && CanCancel(o) <==> o.status == Pending || o.status == Processing
    ensures !CanComplete(o) <==> o.status == Completed
    ensures !CanCancel(o) <==> o.status == Cancelled
  {
  }
}
