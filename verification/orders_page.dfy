/** The Orders page's list: the orders with the selected status (or all of
    them) whose id, customer name or email contains the search term, letter
    case ignored; and the empty state shown when none remain. */
module OrdersPage {
  import opened Text
  import opened Listing

  /** The order fields the filter reads. */
  datatype Order = Order(id: string, customer: string, email: string, status: string)

  const AllStatuses := "all"

  predicate MatchesStatus(order: Order, selectedStatus: string) {
    selectedStatus == AllStatuses || order.status == selectedStatus
  }

  predicate MatchesSearch(order: Order, searchTerm: string) {
    Matches(order.id, searchTerm) || Matches(order.customer, searchTerm) || Matches(order.email, searchTerm)
  }

  predicate Shown(order: Order, selectedStatus: string, searchTerm: string) {
    MatchesStatus(order, selectedStatus) && MatchesSearch(order, searchTerm)
  }

  /** `filteredOrders`. */
  function FilteredOrders(orders: seq<Order>, selectedStatus: string, searchTerm: string): seq<Order> {
    Filter(orders, o => Shown(o, selectedStatus, searchTerm))
  }

  /** "No orders found" is displayed when the filtered list is empty. */
  predicate EmptyState(orders: seq<Order>, selectedStatus: string, searchTerm: string) {
    |FilteredOrders(orders, selectedStatus, searchTerm)| == 0
  }

  /** The filtered list keeps the page's order; every order in it has the
      selected status (unless "all" is selected) and an id, customer or
      email containing the term, letter case ignored; and every order
      meeting both conditions is in it, as often as in the full list. */
  lemma FilteredOrdersExact(orders: seq<Order>, selectedStatus: string, searchTerm: string)
    ensures var r := FilteredOrders(orders, selectedStatus, searchTerm);
      && SubsequenceOf(r, orders)
      && (forall i :: 0 <= i < |r| ==>
            && (selectedStatus == "all" || r[i].status == selectedStatus)
            && (Includes(Lower(r[i].id), Lower(searchTerm)) || Includes(Lower(r[i].customer), Lower(searchTerm))
                || Includes(Lower(r[i].email), Lower(searchTerm))))
      && (forall o :: multiset(r)[o] == if Shown(o, selectedStatus, searchTerm) then multiset(orders)[o] else 0)
  {
  }

  /** "all" with an empty search shows every order. */
  lemma AllAndEmptySearchShowsEverything(orders: seq<Order>)
    ensures FilteredOrders(orders, "all", "") == orders
  {
    forall i | 0 <= i < |orders|
      ensures Shown(orders[i], "all", "")
    {
      EmptyTermMatches(orders[i].id);
    }
    FilterKeepsAll(orders, o => Shown(o, "all", ""));
  }

  /** Search terms that differ only in letter case give the same list. */
  lemma SearchIgnoresCase(orders: seq<Order>, selectedStatus: string, t1: string, t2: string)
    requires Lower(t1) == Lower(t2)
    ensures FilteredOrders(orders, selectedStatus, t1) == FilteredOrders(orders, selectedStatus, t2)
  {
    FilterCongruent(orders, o => Shown(o, selectedStatus, t1), o => Shown(o, selectedStatus, t2));
  }

  /** The empty state shows exactly when no order meets both conditions. */
  lemma EmptyStateIff(orders: seq<Order>, selectedStatus: string, searchTerm: string)
    ensures EmptyState(orders, selectedStatus, searchTerm)
      <==> forall i :: 0 <= i < |orders| ==> !Shown(orders[i], selectedStatus, searchTerm)
  {
    FilterEmptyIff(orders, o => Shown(o, selectedStatus, searchTerm));
  }
}
