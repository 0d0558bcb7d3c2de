/**
 * The seller dashboard (src/pages/Dashboard.tsx): sales aggregates over the
 * orders, the sorted copy of the orders, its pagination five to a page, the
 * page buttons and the add-product form.
 */
module Dashboard {
  import opened SeqUtil
  import opened AppContext

  const ItemsPerPage: int := 5

  // ---------------------------------------------------------------------------
  // Aggregates
  // ---------------------------------------------------------------------------

  /** `orders.reduce((sum, order) => sum + order.total, 0)`, folded from the left. */
  function TotalSales(orders: seq<Order>): (sales: int)
    ensures (forall i :: 0 <= i < |orders| ==> orders[i].total >= 0) ==> sales >= 0
    decreases |orders|
  {
    if |orders| == 0 then 0 else TotalSales(orders[..|orders| - 1]) + orders[|orders| - 1].total
  }

  /** The sales total of a concatenation is the sum of the two totals. */
  lemma {:induction false} TotalSalesAppend(a: seq<Order>, b: seq<Order>)
    ensures TotalSales(a + b) == TotalSales(a) + TotalSales(b)
    decreases |b|
  {
    if |b| == 0 {
      assert a + b == a;
    } else {
      assert (a + b)[..|a + b| - 1] == a + b[..|b| - 1];
      TotalSalesAppend(a, b[..|b| - 1]);
    }
  }

  /** A single order contributes its own total. */
  lemma TotalSalesSingle(o: Order)
    ensures TotalSales([o]) == o.total
  {
    assert [o][..0] == [];
  }

  function StatusOf(o: Order): OrderStatus { o.status }

  predicate IsPending(o: Order) { o.status == Pending }

  /** `orders.filter(order => order.status === 'pending').length`: how often Pending occurs among the statuses. */
  function PendingOrders(orders: seq<Order>): (n: nat)
    ensures n <= |orders|
    ensures n == multiset(Map(orders, StatusOf))[Pending]
  {
    PendingCount(orders);
    |Filter(orders, IsPending)|
  }

  lemma {:induction false} PendingCount(orders: seq<Order>)
    ensures |Filter(orders, IsPending)| == multiset(Map(orders, StatusOf))[Pending]
  {
    if |orders| > 0 {
      PendingCount(orders[1..]);
      assert Map(orders, StatusOf) == [orders[0].status] + Map(orders[1..], StatusOf);
    }
  }

  // ---------------------------------------------------------------------------
  // Sorting a copy
  // ---------------------------------------------------------------------------

  datatype SortBy = ByDate | ByName | ByStatus

  function StatusText(s: OrderStatus): string {
    match s
    case Pending => "pending"
    case Confirmed => "confirmed"
    case Shipped => "shipped"
    case Delivered => "delivered"
  }

  /**
   * The comparator: newest date first, or the customer names or the status
   * texts in `collate` order. `collate` stands for `localeCompare`, which the
   * model does not interpret.
   */
  function CompareOrders(sortBy: SortBy, collate: (string, string) -> int, a: Order, b: Order): (c: int)
    ensures sortBy == ByDate ==> (c < 0 <==> a.date > b.date) && (c == 0 <==> a.date == b.date)
  {
    match sortBy
    case ByDate => b.date - a.date
    case ByName => collate(a.customerName, b.customerName)
    case ByStatus => collate(StatusText(a.status), StatusText(b.status))
  }

  /** Insert `x` in front of the first element it does not compare after. */
  function Insert(x: Order, s: seq<Order>, cmp: (Order, Order) -> int): (r: seq<Order>)
    ensures multiset(r) == multiset(s) + multiset{x}
    ensures |r| == |s| + 1
  {
    if |s| == 0 then [x]
    else if cmp(x, s[0]) <= 0 then [x] + s
    else
      assert s == [s[0]] + s[1..];
      [s[0]] + Insert(x, s[1..], cmp)
  }

  /** `[...orders].sort(cmp)`: a sorted copy; here an insertion sort. */
  function Sort(orders: seq<Order>, cmp: (Order, Order) -> int): (r: seq<Order>)
    ensures multiset(r) == multiset(orders)
    ensures |r| == |orders|
  {
    if |orders| == 0 then []
    else
      assert orders == [orders[0]] + orders[1..];
      Insert(orders[0], Sort(orders[1..], cmp), cmp)
  }

  /** `sortedOrders`: a permutation of the orders; the orders themselves are a value and stay as they were. */
  function SortedOrders(orders: seq<Order>, sortBy: SortBy, collate: (string, string) -> int): (sorted: seq<Order>)
    ensures multiset(sorted) == multiset(orders)
  {
    Sort(orders, (a: Order, b: Order) => CompareOrders(sortBy, collate, a, b))
  }

  /** Each element compares before or equal to the next. */
  ghost predicate SortedBy(s: seq<Order>, cmp: (Order, Order) -> int) {
    forall i :: 0 <= i < |s| - 1 ==> cmp(s[i], s[i + 1]) <= 0
  }

  /** A comparator that orders every pair one way or the other. */
  ghost predicate Connex(cmp: (Order, Order) -> int) {
    forall a, b :: cmp(a, b) <= 0 || cmp(b, a) <= 0
  }

  lemma {:induction false} InsertSorted(x: Order, s: seq<Order>, cmp: (Order, Order) -> int)
    requires Connex(cmp) && SortedBy(s, cmp)
    ensures SortedBy(Insert(x, s, cmp), cmp)
    ensures |s| > 0 ==> Insert(x, s, cmp)[0] == x || Insert(x, s, cmp)[0] == s[0]
  {
    if |s| > 0 && cmp(x, s[0]) > 0 {
      assert SortedBy(s[1..], cmp) by {
        forall i | 0 <= i < |s[1..]| - 1 ensures cmp(s[1..][i], s[1..][i + 1]) <= 0 {
          assert s[1..][i] == s[i + 1] && s[1..][i + 1] == s[i + 2];
        }
      }
      InsertSorted(x, s[1..], cmp);
      assert cmp(s[0], x) <= 0;
    }
  }

  /** With a comparator that relates every pair, the sort's output is sorted by it. */
  lemma {:induction false} SortSorted(orders: seq<Order>, cmp: (Order, Order) -> int)
    requires Connex(cmp)
    ensures SortedBy(Sort(orders, cmp), cmp)
  {
    if |orders| > 0 {
      SortSorted(orders[1..], cmp);
      InsertSorted(orders[0], Sort(orders[1..], cmp), cmp);
    }
  }

  /** Sorting by date lists the orders newest first. */
  lemma SortedByDateNewestFirst(orders: seq<Order>, collate: (string, string) -> int)
    ensures var sorted := SortedOrders(orders, ByDate, collate);
            forall i :: 0 <= i < |sorted| - 1 ==> sorted[i].date >= sorted[i + 1].date
  {
    var cmp := (a: Order, b: Order) => CompareOrders(ByDate, collate, a, b);
    assert Connex(cmp) by {
      forall a, b ensures cmp(a, b) <= 0 || cmp(b, a) <= 0 {
      }
    }
    SortSorted(orders, cmp);
  }

  // ---------------------------------------------------------------------------
  // Pagination
  // ---------------------------------------------------------------------------

  /** `Array.prototype.slice(start, end)`: negative bounds count from the end, bounds are clamped. */
  function Slice<T>(s: seq<T>, start: int, end: int): (r: seq<T>)
    ensures |r| <= |s|
    ensures 0 <= start <= end ==> r == s[Min(start, |s|)..Min(end, |s|)]
    ensures 0 <= end <= start ==> r == []
  {
    var from := if start < 0 then (if |s| + start < 0 then 0 else |s| + start)
                else (if start > |s| then |s| else start);
    var to := if end < 0 then (if |s| + end < 0 then 0 else |s| + end)
              else (if end > |s| then |s| else end);
    if from < to then s[from..to] else []
  }

  function Min(a: int, b: int): int { if a < b then a else b }

  /** `paginatedOrders`: the page-th run of five orders, fewer on the last page, none past it. */
  function PaginatedOrders(sorted: seq<Order>, page: int): (shown: seq<Order>)
    requires page >= 1
    ensures |shown| <= ItemsPerPage
    ensures |shown| == if (page - 1) * ItemsPerPage < |sorted|
                       then Min(page * ItemsPerPage, |sorted|) - (page - 1) * ItemsPerPage else 0
    ensures forall k :: 0 <= k < |shown| ==> shown[k] == sorted[(page - 1) * ItemsPerPage + k]
  {
    Slice(sorted, (page - 1) * ItemsPerPage, page * ItemsPerPage)
  }

  /** `Math.ceil(n / itemsPerPage)`: the fewest pages of five that hold `n` orders. */
  function TotalPages(n: nat): (pages: nat)
    ensures pages * ItemsPerPage >= n
    ensures pages > 0 ==> (pages - 1) * ItemsPerPage < n
  {
    (n + ItemsPerPage - 1) / ItemsPerPage
  }

  /** The page controls are shown only when the orders do not fit on one page. */
  function ShowPagination(n: nat): (shown: bool)
    ensures shown <==> n > ItemsPerPage
  {
    TotalPages(n) > 1
  }

  /** Every order is on exactly the page its position puts it on, and that page exists. */
  lemma OrderOnItsPage(sorted: seq<Order>, i: nat)
    requires i < |sorted|
    ensures 1 <= i / ItemsPerPage + 1 <= TotalPages(|sorted|)
    ensures |PaginatedOrders(sorted, i / ItemsPerPage + 1)| > i % ItemsPerPage
    ensures PaginatedOrders(sorted, i / ItemsPerPage + 1)[i % ItemsPerPage] == sorted[i]
  {
  }

  /** The "Showing lo to hi of n" label: the first and last position shown, counted from one. */
  function ShowingRange(page: int, n: nat): (range: (int, int))
    ensures range.1 <= n
  {
    ((page - 1) * ItemsPerPage + 1, Min(page * ItemsPerPage, n))
  }

  /** On an existing page the label counts exactly the orders shown. */
  lemma ShowingRangeCountsShown(sorted: seq<Order>, page: int)
    requires 1 <= page <= TotalPages(|sorted|)
    ensures var range := ShowingRange(page, |sorted|);
            range.1 - range.0 + 1 == |PaginatedOrders(sorted, page)| > 0
  {
  }

  /** "Previous": one page back, never below the first. */
  function PreviousPage(page: int): (p: int)
    ensures p >= 1
    ensures page > 1 ==> p == page - 1
    ensures page <= 1 ==> p == 1
  {
    if 1 > page - 1 then 1 else page - 1
  }

  /** "Next": one page on, never past the last. */
  function NextPage(page: int, totalPages: int): (p: int)
    ensures p <= totalPages
    ensures page < totalPages ==> p == page + 1
    ensures page >= totalPages ==> p == totalPages
  {
    Min(totalPages, page + 1)
  }

  // ---------------------------------------------------------------------------
  // Page state and the add-product form
  // ---------------------------------------------------------------------------

  /** The add-product form; the price is the text typed in, the images are the chosen file names. */
  datatype ProductForm = ProductForm(
    name: string,
    price: string,
    description: string,
    category: string,
    tags: seq<string>,
    images: seq<string>)

  const EmptyForm := ProductForm("", "", "", "", [], [])

  class DashboardState {
    var currentPage: int
    var isAddProductOpen: bool
    var productForm: ProductForm

    constructor ()
      ensures currentPage == 1 && !isAddProductOpen && productForm == EmptyForm
    {
      currentPage := 1;
      isAddProductOpen := false;
      productForm := EmptyForm;
    }

    method Previous()
      modifies this
      ensures currentPage == PreviousPage(old(currentPage)) && currentPage >= 1
      ensures isAddProductOpen == old(isAddProductOpen) && productForm == old(productForm)
    {
      currentPage := PreviousPage(currentPage);
    }

    method Next(totalPages: int)
      modifies this
      ensures currentPage == NextPage(old(currentPage), totalPages) && currentPage <= totalPages
      ensures old(currentPage) >= 1 && totalPages >= 1 ==> currentPage >= 1
      ensures isAddProductOpen == old(isAddProductOpen) && productForm == old(productForm)
    {
      currentPage := NextPage(currentPage, totalPages);
    }

    /**
     * `handleSaveProduct`: with the name, price or description empty nothing
     * changes; otherwise the modal closes and the form is cleared. No product
     * is stored either way.
     */
    method SaveProduct()
      modifies this
      ensures old(productForm.name == "" || productForm.price == "" || productForm.description == "") ==>
                unchanged(this)
      ensures old(productForm.name != "" && productForm.price != "" && productForm.description != "") ==>
                !isAddProductOpen && productForm == EmptyForm && currentPage == old(currentPage)
    {
      if productForm.name == "" || productForm.price == "" || productForm.description == "" {
        return;
      }
      isAddProductOpen := false;
      productForm := EmptyForm;
    }
  }
}
