/** The order-history page: the search box and status select that narrow
    the order list, the status tabs with their counts, and the status badge
    colours. */
module Orders {
  import opened Common

  datatype Status = Pending | Processing | Shipped | Delivered | Cancelled

  /** The status as the page spells it (the select's and the tabs' values). */
  function StatusName(s: Status): string {
    match s
    case Pending => "pending"
    case Processing => "processing"
    case Shipped => "shipped"
    case Delivered => "delivered"
    case Cancelled => "cancelled"
  }

  const AllStatuses: string := "all"

  datatype OrderItem = OrderItem(
    id: int,
    productId: int,
    name: string,
    image: string,
    price: nat,
    quantity: nat,
    size: Option<string>,
    color: Option<string>)

  datatype ShippingAddress = ShippingAddress(name: string, street: string, city: string, state: string, zipCode: string)

  /** One order; `total` and item prices are integer cents. */
  datatype Order = Order(
    id: string,
    orderNumber: string,
    date: string,
    status: Status,
    total: nat,
    items: seq<OrderItem>,
    shippingAddress: ShippingAddress,
    trackingNumber: Option<string>,
    estimatedDelivery: Option<string>)

  /** The lower-cased query occurs in the lower-cased order number or in the
      lower-cased name of some item. */
  predicate MatchesQuery(o: Order, query: string) {
    || Contains(Lower(o.orderNumber), Lower(query))
    || exists i :: 0 <= i < |o.items| && Contains(Lower(o.items[i].name), Lower(query))
  }

  /** The status select: "all", or the order's status spelled the same way. */
  predicate MatchesStatus(o: Order, statusFilter: string) {
    StatusName(o.status) == statusFilter
  }

  /** An order survives both steps of `filterOrders`. An empty query skips
      the search step; "all" skips the status step. */
  predicate Kept(o: Order, query: string, statusFilter: string) {
    (query == "" || MatchesQuery(o, query)) && (statusFilter == AllStatuses || MatchesStatus(o, statusFilter))
  }

  /** What `filterOrders` leaves in `filteredOrders`. */
  function FilteredOrders(orders: seq<Order>, query: string, statusFilter: string): (r: seq<Order>)
    ensures IsSubsequence(r, orders)
    ensures forall o :: o in r <==> o in orders && Kept(o, query, statusFilter)
  {
    Filter(orders, o => Kept(o, query, statusFilter))
  }

  /** The result is the orders, in order, that meet both tests: sound and
      complete, with each kept order as often as in `orders`. */
  lemma FilteredOrdersMeaning(orders: seq<Order>, query: string, statusFilter: string)
    ensures IsSubsequence(FilteredOrders(orders, query, statusFilter), orders)
    ensures forall o :: o in FilteredOrders(orders, query, statusFilter) <==>
                        o in orders && Kept(o, query, statusFilter)
    ensures forall o :: Kept(o, query, statusFilter) ==>
                        multiset(FilteredOrders(orders, query, statusFilter))[o] == multiset(orders)[o]
  {
  }

  /** The search step of `filterOrders`. */
  function SearchStep(orders: seq<Order>, query: string): seq<Order> {
    Filter(orders, o => MatchesQuery(o, query))
  }

  /** The status step of `filterOrders`. */
  function StatusStep(orders: seq<Order>, statusFilter: string): seq<Order> {
    Filter(orders, o => MatchesStatus(o, statusFilter))
  }

  /** Both steps taken: a search step then a status step keep what `Kept` keeps. */
  lemma BothSteps(orders: seq<Order>, q: string, f: string)
    requires q != "" && f != AllStatuses
    ensures StatusStep(SearchStep(orders, q), f) == FilteredOrders(orders, q, f)
  {
    FilterTwice(orders, o => MatchesQuery(o, q), o => MatchesStatus(o, f), o => Kept(o, q, f));
  }

  lemma SearchStepOnly(orders: seq<Order>, q: string, f: string)
    requires q != "" && f == AllStatuses
    ensures SearchStep(orders, q) == FilteredOrders(orders, q, f)
  {
    FilterCongruent(orders, o => MatchesQuery(o, q), o => Kept(o, q, f));
  }

  lemma StatusStepOnly(orders: seq<Order>, q: string, f: string)
    requires q == "" && f != AllStatuses
    ensures StatusStep(orders, f) == FilteredOrders(orders, q, f)
  {
    FilterCongruent(orders, o => MatchesStatus(o, f), o => Kept(o, q, f));
  }

  /** An empty query with status "all" keeps every order. */
  lemma NoFilterKeepsAll(orders: seq<Order>)
    ensures FilteredOrders(orders, "", AllStatuses) == orders
  {
    FilterKeepsAll(orders, o => Kept(o, "", AllStatuses));
  }

  /** The search is blind to case, in the query as in the text. */
  lemma QueryIgnoresCase(o: Order, query: string)
    ensures MatchesQuery(o, query) == MatchesQuery(o, Lower(query))
  {
    LowerIdempotent(query);
  }

  /** An empty query would match anyway: skipping the search step for it
      changes nothing. */
  lemma EmptyQueryMatches(o: Order)
    ensures MatchesQuery(o, "")
  {
    assert Lower("") == "";
    EmptyIsContained(Lower(o.orderNumber));
  }

  // ---------------------------------------------------------------------------
  // tabs
  // ---------------------------------------------------------------------------

  /** The orders a status tab lists: taken from all orders. */
  function TabOrders(orders: seq<Order>, s: Status): (r: seq<Order>)
    ensures IsSubsequence(r, orders)
    ensures forall o :: o in r <==> o in orders && o.status == s
  {
    Filter(orders, (o: Order) => o.status == s)
  }

  /** The number in a status tab's label. */
  function TabCount(orders: seq<Order>, s: Status): (n: nat)
    ensures n == 0 <==> forall i :: 0 <= i < |orders| ==> orders[i].status != s
  {
    |TabOrders(orders, s)|
  }

  /** The orders with status `s`, counted one by one. */
  function CountStatus(orders: seq<Order>, s: Status): nat {
    if orders == [] then 0
    else CountStatus(orders[..|orders| - 1], s) + (if orders[|orders| - 1].status == s then 1 else 0)
  }

  /** A tab's count is the number of orders with that status. */
  lemma {:induction false} TabCountIsCount(orders: seq<Order>, s: Status)
    ensures TabCount(orders, s) == CountStatus(orders, s)
  {
    if orders != [] {
      var init, last := orders[..|orders| - 1], orders[|orders| - 1];
      assert orders == init + [last];
      TabCountIsCount(init, s);
      FilterAppend(init, [last], (o: Order) => o.status == s);
      if last.status == s {
        FilterKeepsAll([last], (o: Order) => o.status == s);
      } else {
        assert Filter([last], (o: Order) => o.status == s) == [];
      }
    }
  }

  /** Every order has exactly one of the five statuses. */
  lemma {:induction false} StatusCountsPartition(orders: seq<Order>)
    ensures CountStatus(orders, Pending) + CountStatus(orders, Processing) + CountStatus(orders, Shipped)
            + CountStatus(orders, Delivered) + CountStatus(orders, Cancelled) == |orders|
  {
    if orders != [] {
      StatusCountsPartition(orders[..|orders| - 1]);
    }
  }

  /** The "All" tab shows every order's count; the four status tabs (there is
      none for cancelled) add up to all orders but the cancelled ones. */
  lemma TabCountsAddUp(orders: seq<Order>)
    ensures TabCount(orders, Pending) + TabCount(orders, Processing) + TabCount(orders, Shipped)
            + TabCount(orders, Delivered) == |orders| - CountStatus(orders, Cancelled)
  {
    TabCountIsCount(orders, Pending);
    TabCountIsCount(orders, Processing);
    TabCountIsCount(orders, Shipped);
    TabCountIsCount(orders, Delivered);
    StatusCountsPartition(orders);
  }

  /** A status tab ignores the search box and the status select: an order
      the search hides is still listed under its status. */
  lemma TabIgnoresFilters(orders: seq<Order>, o: Order, query: string, statusFilter: string)
    requires o in orders && query != "" && !MatchesQuery(o, query)
    ensures o !in FilteredOrders(orders, query, statusFilter)
    ensures o in TabOrders(orders, o.status)
  {
  }

  /** `getStatusColor`: the badge classes of each status. */
  function StatusColor(s: Status): string {
    match s
    case Pending => "bg-yellow-100 text-yellow-800"
    case Processing => "bg-blue-100 text-blue-800"
    case Shipped => "bg-purple-100 text-purple-800"
    case Delivered => "bg-green-100 text-green-800"
    case Cancelled => "bg-red-100 text-red-800"
  }

  /** Different statuses get different badge classes. */
  lemma StatusColorsDistinct(s: Status, t: Status)
    ensures StatusColor(s) == StatusColor(t) <==> s == t
  {
  }

  // ---------------------------------------------------------------------------
  // page state
  // ---------------------------------------------------------------------------

  /** The outcome of loading the orders: the list, or a thrown error. */
  datatype FetchOutcome = Loaded(orders: seq<Order>) | Failed

  class OrdersPage {
    var orders: seq<Order>
    var filteredOrders: seq<Order>
    var searchQuery: string
    var statusFilter: string
    var isLoading: bool

    /** After every effect has run, the shown list is the filter of the
        current orders, query and status. */
    predicate Synced()
      reads this
    {
      filteredOrders == FilteredOrders(orders, searchQuery, statusFilter)
    }

    constructor()
      ensures orders == [] && filteredOrders == [] && searchQuery == "" && statusFilter == AllStatuses
      ensures isLoading
      ensures Synced()
    {
      orders := [];
      filteredOrders := [];
      searchQuery := "";
      statusFilter := AllStatuses;
      isLoading := true;
    }

    /** `filterOrders`: the search step when the query is non-empty, then
        the status step unless it is "all". */
    method FilterOrders()
      modifies this`filteredOrders
      ensures Synced()
    {
      var filtered := orders;
      if searchQuery != "" {
        filtered := SearchStep(filtered, searchQuery);
      }
      if statusFilter != AllStatuses {
        filtered := StatusStep(filtered, statusFilter);
      }
      if searchQuery != "" && statusFilter != AllStatuses {
        BothSteps(orders, searchQuery, statusFilter);
      } else if searchQuery != "" {
        SearchStepOnly(orders, searchQuery, statusFilter);
      } else if statusFilter != AllStatuses {
        StatusStepOnly(orders, searchQuery, statusFilter);
      } else {
        NoFilterKeepsAll(orders);
      }
      filteredOrders := filtered;
    }

  /** `fetchOrders` with the filter effect that follows it: on success the
        orders are replaced, on failure they stay; loading ends either way. */
    method FetchOrders(outcome: FetchOutcome)
      modifies this`orders, this`filteredOrders, this`isLoading
      ensures outcome.Loaded? ==> orders == outcome.orders
      ensures outcome.Failed? ==> orders == old(orders)
      ensures !isLoading
      ensures Synced()
    {
      if outcome.Loaded? {
        orders := outcome.orders;
      }
      isLoading := false;
      FilterOrders();
    }

    /** Typing in the search box, then the filter effect. */
    method SetSearchQuery(query: string)
      modifies this`searchQuery, this`filteredOrders
      ensures searchQuery == query
      ensures Synced()
    {
      searchQuery := query;
      FilterOrders();
    }

    /** Choosing in the status select, then the filter effect. */
    method SetStatusFilter(status: string)
      modifies this`statusFilter, this`filteredOrders
      ensures statusFilter == status
      ensures Synced()
    {
      statusFilter := status;
      FilterOrders();
    }
  }
}
