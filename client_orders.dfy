/** The orders page of client/src/components/orders.js: the search over the
    fetched orders, the page of rows shown, the pagination handlers and the
    colour of the status chip. */
module ClientOrders {
  import opened Domain
  import opened Seqs
  import opened Text
  import opened OrderModel

  /** An order as the page receives it, with its user populated; a missing
      or empty text field is `None` or `""` alike. */
  datatype ShownOrder = ShownOrder(
    id: Id,
    username: Option<string>,
    customerName: Option<string>,
    customerPhone: Option<string>,
    total: int,
    status: string)

  /** `x ? String(x).toLowerCase() : ""`. */
  function LowerOrEmpty(x: Option<string>): (r: string)
    ensures x.None? ==> r == []
    ensures x.Some? ==> r == Lower(x.value)
  {
    if x.Some? && x.value != [] then Lower(x.value) else []
  }

  /** The test `filteredOrders` applies to one order. */
  predicate Matches(o: ShownOrder, search: string)
  {
    var q := Lower(search);
    Contains(LowerOrEmpty(o.username), q)
    || Contains(LowerOrEmpty(o.customerName), q)
    || Contains(LowerOrEmpty(o.customerPhone), q)
  }

  /** `filteredOrders`. */
  function FilteredOrders(orders: seq<ShownOrder>, search: string): seq<ShownOrder>
  {
    Filter(orders, (o: ShownOrder) => Matches(o, search))
  }

  /** An order is listed exactly when the lower-cased search text occurs in
      its lower-cased username, customer name or customer phone; the list
      keeps the fetched order. */
  lemma FilteredOrdersSpec(orders: seq<ShownOrder>, search: string, o: ShownOrder)
    ensures o in FilteredOrders(orders, search) <==>
      o in orders &&
      ((exists i :: OccursAt(LowerOrEmpty(o.username), Lower(search), i))
       || (exists i :: OccursAt(LowerOrEmpty(o.customerName), Lower(search), i))
       || (exists i :: OccursAt(LowerOrEmpty(o.customerPhone), Lower(search), i)))
    ensures Subsequence(FilteredOrders(orders, search), orders)
  {
    FilterMembership(orders, (o: ShownOrder) => Matches(o, search), o);
    FilterSubsequence(orders, (o: ShownOrder) => Matches(o, search));
    ContainsIffOccurs(LowerOrEmpty(o.username), Lower(search));
    ContainsIffOccurs(LowerOrEmpty(o.customerName), Lower(search));
    ContainsIffOccurs(LowerOrEmpty(o.customerPhone), Lower(search));
  }

  /** An empty search keeps every order. */
  lemma EmptySearchKeepsAll(orders: seq<ShownOrder>)
    ensures FilteredOrders(orders, "") == orders
  {
    forall i | 0 <= i < |orders| ensures Matches(orders[i], "") {
      ContainsEmpty(LowerOrEmpty(orders[i].username));
    }
    FilterAllKept(orders, (o: ShownOrder) => Matches(o, ""));
  }

  /** The search ignores the case of what is typed. */
  lemma SearchIgnoresCase(orders: seq<ShownOrder>, search: string)
    ensures FilteredOrders(orders, Lower(search)) == FilteredOrders(orders, search)
  {
    LowerIdempotent(search);
    FilterCongruent(orders, (o: ShownOrder) => Matches(o, Lower(search)), (o: ShownOrder) => Matches(o, search));
  }

  /** `Array.prototype.slice(start, end)` for `0 <= start`: both ends are
      clamped to the length. */
  function Slice<T>(s: seq<T>, start: nat, end: nat): (r: seq<T>)
    ensures |r| == if start < end && start < |s| then (if end < |s| then end else |s|) - start else 0
    ensures forall i :: 0 <= i < |r| ==> r[i] == s[start + i]
  {
    var b := if start < |s| then start else |s|;
    var e := if end < |s| then end else |s|;
    if b < e then s[b..e] else []
  }

  /** The rows of page `page`. */
  function PageRows<T>(s: seq<T>, page: nat, rowsPerPage: nat): (r: seq<T>)
    ensures |r| <= rowsPerPage
    ensures forall i :: 0 <= i < |r| ==> page * rowsPerPage + i < |s| && r[i] == s[page * rowsPerPage + i]
  {
    Slice(s, page * rowsPerPage, page * rowsPerPage + rowsPerPage)
  }

  /** With a positive page size, row `i` of the list is row `i % k` of page
      `i / k`. */
  lemma PagesCover<T>(s: seq<T>, k: nat, i: nat)
    requires k > 0 && i < |s|
    ensures i % k < |PageRows(s, i / k, k)| && PageRows(s, i / k, k)[i % k] == s[i]
  {
    var p := i / k;
    assert p * k + i % k == i;
    assert p * k <= i < p * k + k;
  }

  /** Pages tile the list in order: the rows before page `p` followed by the
      rows of page `p` are the rows before page `p + 1`, so consecutive pages
      neither overlap nor skip a row. */
  lemma PagesTile<T>(s: seq<T>, k: nat, p: nat)
    ensures var start := if p * k < |s| then p * k else |s|;
      var end := if p * k + k < |s| then p * k + k else |s|;
      s[..start] + PageRows(s, p, k) == s[..end]
  {
  }

  /** The colour of the status chip. */
  function ChipColour(status: string): string
  {
    if status == "Delivered" then "success"
    else if status == "Pending" then "warning"
    else "error"
  }

  /** The chip compares against capitalised names the order schema never
      stores, so every stored status is shown in the error colour. */
  lemma StoredStatusesShowError(st: OrderStatus)
    ensures ChipColour(StatusName(st)) == "error"
  {
    assert StatusName(st)[0] != 'D' && StatusName(st)[0] != 'P';
  }

  /** The state of the orders page. */
  class OrdersPage {
    var orders: seq<ShownOrder>
    var search: string
    var page: nat
    var rowsPerPage: nat

    /** The initial state: first page, five rows per page. */
    constructor (orders: seq<ShownOrder>)
      ensures this.orders == orders && search == "" && page == 0 && rowsPerPage == 5
    {
      this.orders := orders;
      search := "";
      page := 0;
      rowsPerPage := 5;
    }

    /** The rows on screen. */
    function Rows(): (r: seq<ShownOrder>)
      reads this
      ensures |r| <= rowsPerPage
      ensures forall i :: 0 <= i < |r| ==>
        page * rowsPerPage + i < |FilteredOrders(orders, search)|
        && r[i] == FilteredOrders(orders, search)[page * rowsPerPage + i]
    {
      PageRows(FilteredOrders(orders, search), page, rowsPerPage)
    }

    /** `handleChangePage`. */
    method HandleChangePage(newPage: nat)
      modifies this`page
      ensures page == newPage
    {
      page := newPage;
    }

    /** `handleChangeRowsPerPage`: a new page size goes back to the first
        page, which then shows the first rows of the list. */
    method HandleChangeRowsPerPage(value: nat)
      modifies this`page, this`rowsPerPage
      ensures rowsPerPage == value && page == 0
      ensures Rows() == FilteredOrders(orders, search)[..if value < |FilteredOrders(orders, search)| then value else |FilteredOrders(orders, search)|]
    {
      rowsPerPage := value;
      page := 0;
    }
  }
}
