/**
 * The client-side table engine shared by every list page: the search filter, the page
 * count, the current-page state and its effects, the slice of rows shown, the
 * "Showing a-b of n" range, the Prev/Next targets and the window of page buttons.
 */
module DataTable {
  import opened Wrappers
  import opened Lists
  import opened Text

  /** A positive number of rows per page (every caller passes 10, the default). */
  type PageSize = n: int | n >= 1 witness 10

  /**
   * A row as the search sees it: the value of each column in column order, already
   * turned into text by `String(value)`, or `None` for `null`/`undefined`.
   */
  type Row = seq<Option<string>>

  /** The props that decide the table's behaviour; callbacks are reduced to whether they were passed. */
  datatype Props = Props(
    data: seq<Row>,
    pageSize: PageSize,
    currentPage: Option<int>,
    totalPages: Option<int>,
    totalRecords: Option<int>,
    hasOnPageChange: bool,
    hasOnSearch: bool)

  /** The parent pages the data itself: `currentPage`, `totalPages` and `onPageChange` are all given. */
  predicate ServerPagination(p: Props) {
    p.currentPage.Some? && p.totalPages.Some? && p.hasOnPageChange
  }

  /** The parent searches the data itself: `onSearch` is given. */
  predicate ServerSearch(p: Props) {
    p.hasOnSearch
  }

  /** One column value matches when it is present and its lower-cased text contains the needle. */
  predicate CellMatches(cell: Option<string>, needle: string) {
    cell.Some? && Contains(Lower(cell.value), needle)
  }

  /** `columns.some(...)`: some column value of the row matches. */
  predicate RowMatches(row: Row, needle: string) {
    exists k :: 0 <= k < |row| && CellMatches(row[k], needle)
  }

  /** `filteredData`: the rows the table pages through. */
  function FilteredData(p: Props, query: string): (r: seq<Row>)
    ensures ServerPagination(p) || ServerSearch(p) || AllSpace(query) ==> r == p.data
    ensures !ServerPagination(p) && !ServerSearch(p) && !AllSpace(query) ==>
      forall row :: row in r <==> row in p.data && RowMatches(row, Lower(query))
    ensures IsSubseq(r, p.data)
  {
    SubseqRefl(p.data);
    if ServerPagination(p) || ServerSearch(p) then p.data
    else if Trim(query) == [] then p.data
    else
      var needle := Lower(query);
      Filter(p.data, row => RowMatches(row, needle))
  }

  /** Every sequence is a subsequence of itself. */
  lemma {:induction false} SubseqRefl<T(!new)>(s: seq<T>)
    ensures IsSubseq(s, s)
  {
    if s != [] {
      SubseqRefl(s[1..]);
    }
  }

  /** `Math.max(1, Math.ceil(n / size))`: the least page count of at least 1 whose pages hold `n` rows. */
  function PageCount(n: nat, size: PageSize): (r: nat)
    ensures r >= 1
    ensures n <= r * size
    ensures r == 1 || (r - 1) * size < n
  {
    if n == 0 then 1 else (n - 1) / size + 1
  }

  /** `totalPagesCalc`. */
  function TotalPagesCalc(p: Props, query: string): (r: int)
    ensures ServerPagination(p) ==> r == p.totalPages.value
    ensures !ServerPagination(p) ==> r >= 1 && r == PageCount(|FilteredData(p, query)|, p.pageSize)
  {
    if ServerPagination(p) then p.totalPages.value
    else PageCount(|FilteredData(p, query)|, p.pageSize)
  }

  /** `currentPageCalc`: the parent's page under server pagination, the table's own otherwise. */
  function CurrentPageCalc(p: Props, page: int): int {
    if ServerPagination(p) then p.currentPage.value else page
  }

  /** `startIndex`: the index of the first row of page `cur`. */
  function StartIndex(cur: int, size: PageSize): (r: int)
    ensures cur >= 1 ==> r >= 0
  {
    StartIndexNonNegative(cur, size);
    (cur - 1) * size
  }

  lemma StartIndexNonNegative(cur: int, size: PageSize)
    ensures cur >= 1 ==> (cur - 1) * size >= 0
  {
  }

  /** `paginatedData`: the rows rendered for page `cur`. */
  function PaginatedData(p: Props, query: string, cur: int): (r: seq<Row>)
    ensures ServerPagination(p) ==> r == p.data
    ensures !ServerPagination(p) && cur >= 1 ==> |r| <= p.pageSize
    ensures !ServerPagination(p) && cur >= 1 && StartIndex(cur, p.pageSize) <= |FilteredData(p, query)| ==>
      var f := FilteredData(p, query);
      var s := StartIndex(cur, p.pageSize);
      r == f[s..if s + p.pageSize <= |f| then s + p.pageSize else |f|]
  {
    if ServerPagination(p) then p.data
    else
      var s := StartIndex(cur, p.pageSize);
      JsSlice(FilteredData(p, query), s, s + p.pageSize)
  }

  /** `totalRecords`: the parent's count when server-paginated and non-zero, otherwise the filtered count. */
  function TotalRecords(p: Props, query: string): (r: int)
    ensures !ServerPagination(p) ==> r == |FilteredData(p, query)|
    ensures ServerPagination(p) && p.totalRecords.Some? && p.totalRecords.value != 0 ==> r == p.totalRecords.value
    ensures ServerPagination(p) && (p.totalRecords.None? || p.totalRecords.value == 0) ==> r == |p.data|
  {
    if ServerPagination(p) && p.totalRecords.Some? && p.totalRecords.value != 0 then p.totalRecords.value
    else |FilteredData(p, query)|
  }

  /** `rangeStart` as written: 0 only when the unfiltered data is empty. */
  function RangeStart(p: Props, cur: int): int {
    if |p.data| == 0 then 0 else StartIndex(cur, p.pageSize) + 1
  }

  /** `rangeEnd`. */
  function RangeEnd(p: Props, query: string, cur: int): (r: int)
    ensures ServerPagination(p) ==> r == StartIndex(cur, p.pageSize) + |p.data|
    ensures !ServerPagination(p) ==> r <= |FilteredData(p, query)| && r <= StartIndex(cur, p.pageSize) + p.pageSize
  {
    var s := StartIndex(cur, p.pageSize);
    if ServerPagination(p) then s + |p.data|
    else
      var n := |FilteredData(p, query)|;
      if s + p.pageSize <= n then s + p.pageSize else n
  }

  /** On a page between 1 and the page count of `n > 0` rows, the first row index is below `n`. */
  lemma StartWithinRows(cur: int, n: nat, size: PageSize)
    requires n > 0 && 1 <= cur <= PageCount(n, size)
    ensures 0 <= StartIndex(cur, size) < n
  {
    var t := PageCount(n, size);
    if cur < t {
      MulMonotone(cur - 1, t - 1, size);
    }
  }

  /**
   * On any page with rows, the client-side range is exactly the rows shown:
   * it starts at the first row of the page and covers as many rows as are rendered.
   */
  lemma ClientRangeMatchesRows(p: Props, query: string, cur: int)
    requires !ServerPagination(p) && 1 <= cur <= TotalPagesCalc(p, query)
    requires |FilteredData(p, query)| > 0
    ensures RangeStart(p, cur) == StartIndex(cur, p.pageSize) + 1
    ensures RangeEnd(p, query, cur) - RangeStart(p, cur) + 1 == |PaginatedData(p, query, cur)| >= 1
  {
    var f := FilteredData(p, query);
    StartWithinRows(cur, |f|, p.pageSize);
    assert |p.data| >= |f|;
  }

  /** `a <= b` multiplies through by a positive factor. */
  lemma MulMonotone(a: int, b: int, c: PageSize)
    requires a <= b
    ensures a * c <= b * c
  {
    assert b * c - a * c == (b - a) * c;
  }

  /**
   * The as-written range label is wrong when the search leaves no rows of non-empty data:
   * the table shows "Showing 1-0 of 0".
   */
  lemma RangeStartPastRangeEnd()
    ensures var p := Props([[Some("Alice")]], 10, None, None, None, false, false);
      RangeStart(p, 1) == 1 && RangeEnd(p, "zzz", 1) == 0 && TotalRecords(p, "zzz") == 0
  {
    var p := Props([[Some("Alice")]], 10, None, None, None, false, false);
    var needle := Lower("zzz");
    assert !AllSpace("zzz") by {
      assert !IsJsSpace("zzz"[0]);
    }
    assert !RowMatches([Some("Alice")], needle) by {
      var low := Lower("Alice");
      assert low == "alice";
      assert forall j :: 0 <= j < |low| ==> low[j] != 'z';
      forall i | 0 <= i <= |low|
        ensures !OccursAt(low, needle, i)
      {
        if i + |needle| <= |low| {
          assert low[i..i + |needle|][0] == low[i] != needle[0];
        }
      }
    }
    assert FilteredData(p, "zzz") == [];
  }

  /** `rangeStart` as evidently intended: 0 exactly when no row is shown. */
  function RangeStartCorrected(p: Props, query: string, cur: int): int {
    if |PaginatedData(p, query, cur)| == 0 then 0 else StartIndex(cur, p.pageSize) + 1
  }

  /** With the corrected start, the client-side label never shows a start past its end. */
  lemma RangeCorrectedConsistent(p: Props, query: string, cur: int)
    requires !ServerPagination(p) && 1 <= cur <= TotalPagesCalc(p, query)
    ensures RangeStartCorrected(p, query, cur) == 0 <==> |FilteredData(p, query)| == 0
    ensures RangeStartCorrected(p, query, cur) <= RangeEnd(p, query, cur)
    ensures RangeStartCorrected(p, query, cur) > 0 ==>
      RangeEnd(p, query, cur) - RangeStartCorrected(p, query, cur) + 1 == |PaginatedData(p, query, cur)|
  {
    var f := FilteredData(p, query);
    if |f| == 0 {
      assert TotalPagesCalc(p, query) == 1;
      assert PaginatedData(p, query, cur) == [];
    } else {
      ClientRangeMatchesRows(p, query, cur);
    }
  }

  /** Row index `k < n` lies on page `k / size + 1`, at offset `k % size` from that page's start. */
  lemma PageOfRow(k: nat, n: nat, size: PageSize)
    requires k < n
    ensures 1 <= k / size + 1 <= PageCount(n, size)
    ensures StartIndex(k / size + 1, size) + k % size == k
    ensures 0 <= k % size < size
  {
    var t := PageCount(n, size);
    assert StartIndex(k / size + 1, size) == (k / size) * size;
    if k / size + 1 > t {
      MulMonotone(t, k / size, size);
    }
  }

  /** Row `k` of the filtered data is shown on page `k / size + 1`, at position `k % size`. */
  lemma RowOnItsPage(p: Props, query: string, k: nat)
    requires !ServerPagination(p) && k < |FilteredData(p, query)|
    ensures var cur := k / p.pageSize + 1;
      && 1 <= cur <= TotalPagesCalc(p, query)
      && |PaginatedData(p, query, cur)| > k % p.pageSize
      && PaginatedData(p, query, cur)[k % p.pageSize] == FilteredData(p, query)[k]
  {
    PageOfRow(k, |FilteredData(p, query)|, p.pageSize);
  }

  /** Prev's target `Math.max(1, cur - 1)`. */
  function PrevTarget(cur: int): int {
    if cur - 1 >= 1 then cur - 1 else 1
  }

  /** Next's target `Math.min(total, cur + 1)`. */
  function NextTarget(cur: int, total: int): int {
    if cur + 1 <= total then cur + 1 else total
  }

  /**
   * Prev and Next never leave `[1, total]`, and each is disabled exactly when its
   * target is the current page.
   */
  lemma NavigationStaysInRange(cur: int, total: int)
    requires 1 <= cur <= total
    ensures 1 <= PrevTarget(cur) <= total && 1 <= NextTarget(cur, total) <= total
    ensures PrevTarget(cur) == cur <==> cur == 1
    ensures NextTarget(cur, total) == cur <==> cur == total
    ensures cur > 1 ==> PrevTarget(cur) == cur - 1
    ensures cur < total ==> NextTarget(cur, total) == cur + 1
  {
  }

  /** An entry of the page-button window. */
  datatype PageItem =
    | PageButton(n: int, current: bool)  // `current` is the highlighted button without a click handler
    | LeftDots
    | RightDots

  /** The page numbers of the window, in order. */
  function Numbers(items: seq<PageItem>): (ns: seq<int>)
    ensures |ns| <= |items|
  {
    if items == [] then []
    else if items[0].PageButton? then [items[0].n] + Numbers(items[1..])
    else Numbers(items[1..])
  }

  lemma {:induction false} NumbersAppend(a: seq<PageItem>, b: seq<PageItem>)
    ensures Numbers(a + b) == Numbers(a) + Numbers(b)
  {
    if a == [] {
      assert a + b == b;
    } else {
      assert (a + b)[1..] == a[1..] + b;
      NumbersAppend(a[1..], b);
    }
  }

  predicate StrictlyIncreasing(ns: seq<int>) {
    forall i, j :: 0 <= i < j < |ns| ==> ns[i] < ns[j]
  }

  /** The numbers shown for page `cur` of `total`: the first, the last, and the neighbours of `cur`. */
  ghost predicate ShownNumbers(ns: seq<int>, cur: int, total: int) {
    forall n :: n in ns <==> 1 <= n <= total && (n == 1 || n == total || cur - 1 <= n <= cur + 1)
  }

  /** Two buttons side by side carry consecutive numbers. */
  ghost predicate NoSilentGap(items: seq<PageItem>) {
    forall i, j :: 0 <= i < j < |items| && j == i + 1 && items[i].PageButton? && items[j].PageButton? ==>
      items[j].n == items[i].n + 1
  }

  /** Every ellipsis between two entries stands between two buttons whose numbers are not consecutive. */
  ghost predicate DotsMarkGaps(items: seq<PageItem>) {
    forall h, i, j :: 0 <= h < i < j < |items| && i == h + 1 && j == i + 1 && !items[i].PageButton? ==>
      items[h].PageButton? && items[j].PageButton? && items[j].n > items[h].n + 1
  }

  /** What the pushes before the current button leave in `pages`, for `cur >= 1`. */
  ghost function LeftShape(cur: int): seq<PageItem> {
    if cur <= 1 then []
    else if cur == 2 then [PageButton(1, false)]
    else if cur == 3 then [PageButton(1, false), PageButton(2, false)]
    else [PageButton(1, false), LeftDots, PageButton(cur - 1, false)]
  }

  /** What the pushes after the current button add, for `cur <= total`. */
  ghost function RightShape(cur: int, total: int): seq<PageItem> {
    if cur >= total then []
    else if cur == total - 1 then [PageButton(total, false)]
    else if cur == total - 2 then [PageButton(total - 1, false), PageButton(total, false)]
    else [PageButton(cur + 1, false), RightDots, PageButton(total, false)]
  }

  /** The page numbers of a single entry. */
  lemma NumbersOfOne(x: PageItem)
    ensures Numbers([x]) == if x.PageButton? then [x.n] else []
  {
    assert [x][1..] == [];
  }

  /** The window for page `cur` of `total`, case by case: what precedes the current button and what follows it. */
  ghost function Window(cur: int, total: int): seq<PageItem> {
    LeftShape(cur) + [PageButton(cur, true)] + RightShape(cur, total)
  }

  /** The numbers among the entries before the current button. */
  lemma LeftNumbers(cur: int)
    requires cur >= 1
    ensures Numbers(LeftShape(cur)) == if cur == 1 then [] else if cur == 2 then [1] else [1, cur - 1]
  {
    var l := LeftShape(cur);
    if cur == 2 {
      NumbersOfOne(PageButton(1, false));
    } else if cur == 3 {
      assert l[1..] == [PageButton(2, false)];
      NumbersOfOne(PageButton(2, false));
    } else if cur > 3 {
      assert l[1..] == [LeftDots, PageButton(cur - 1, false)];
      assert l[1..][1..] == [PageButton(cur - 1, false)];
      NumbersOfOne(PageButton(cur - 1, false));
    }
  }

  /** The numbers among the entries after the current button. */
  lemma RightNumbers(cur: int, total: int)
    requires cur <= total
    ensures Numbers(RightShape(cur, total)) == if cur == total then [] else if cur == total - 1 then [total] else [cur + 1, total]
  {
    var r := RightShape(cur, total);
    if cur == total - 1 {
      NumbersOfOne(PageButton(total, false));
    } else if cur == total - 2 {
      assert r[1..] == [PageButton(total, false)];
      NumbersOfOne(PageButton(total, false));
    } else if cur < total - 2 {
      assert r[1..] == [RightDots, PageButton(total, false)];
      assert r[1..][1..] == [PageButton(total, false)];
      NumbersOfOne(PageButton(total, false));
    }
  }

  /** Numbers ascending across the three parts of the window. */
  lemma IncreasingParts(ln: seq<int>, c: int, rn: seq<int>)
    requires StrictlyIncreasing(ln) && StrictlyIncreasing(rn)
    requires forall i :: 0 <= i < |ln| ==> ln[i] < c
    requires forall i :: 0 <= i < |rn| ==> c < rn[i]
    ensures StrictlyIncreasing(ln + [c] + rn)
  {
    var ns := ln + [c] + rn;
    forall i, j | 0 <= i < j < |ns|
      ensures ns[i] < ns[j]
    {
      if j < |ln| {
        assert ns[i] == ln[i] && ns[j] == ln[j];
      } else if i > |ln| {
        assert ns[i] == rn[i - |ln| - 1] && ns[j] == rn[j - |ln| - 1];
      } else if i == |ln| {
        assert ns[j] == rn[j - |ln| - 1];
      } else if j == |ln| {
        assert ns[i] == ln[i];
      } else {
        assert ns[i] == ln[i] && ns[j] == rn[j - |ln| - 1];
      }
    }
  }

  /** The window's page numbers: those before the current page, the current page, those after it. */
  lemma WindowNumberList(cur: int, total: int)
    requires 1 <= cur <= total
    ensures Numbers(Window(cur, total)) == Numbers(LeftShape(cur)) + [cur] + Numbers(RightShape(cur, total))
  {
    var l, r := LeftShape(cur), RightShape(cur, total);
    var c := PageButton(cur, true);
    NumbersAppend(l + [c], r);
    NumbersAppend(l, [c]);
    NumbersOfOne(c);
  }

  /** The window's page numbers ascend. */
  lemma WindowIncreasing(cur: int, total: int)
    requires 1 <= cur <= total
    ensures StrictlyIncreasing(Numbers(Window(cur, total)))
  {
    WindowNumberList(cur, total);
    LeftNumbers(cur);
    RightNumbers(cur, total);
    IncreasingParts(Numbers(LeftShape(cur)), cur, Numbers(RightShape(cur, total)));
  }

  /** The window shows exactly the first page, the last page and the neighbours of the current one. */
  lemma WindowShown(cur: int, total: int)
    requires 1 <= cur <= total
    ensures ShownNumbers(Numbers(Window(cur, total)), cur, total)
  {
    WindowNumberList(cur, total);
    LeftNumbers(cur);
    RightNumbers(cur, total);
    var ln, rn := Numbers(LeftShape(cur)), Numbers(RightShape(cur, total));
    var ns := ln + [cur] + rn;
    forall n
      ensures n in ns <==> 1 <= n <= total && (n == 1 || n == total || cur - 1 <= n <= cur + 1)
    {
      assert n in ns <==> n in ln || n == cur || n in rn;
    }
  }

  /** The window starts at page 1 and ends at the last page. */
  lemma WindowEnds(cur: int, total: int)
    requires 1 <= cur <= total
    ensures var items := Window(cur, total);
      items[0] == PageButton(1, cur == 1) && items[|items| - 1] == PageButton(total, cur == total)
  {
  }

  /** Exactly the button of the current page is highlighted. */
  lemma WindowCurrent(cur: int, total: int)
    requires 1 <= cur <= total
    ensures var items := Window(cur, total);
      forall i :: 0 <= i < |items| && items[i].PageButton? ==> (items[i].current <==> items[i].n == cur)
  {
  }

  /** Buttons side by side are consecutive pages, and each ellipsis hides at least one page. */
  lemma WindowGaps(cur: int, total: int)
    requires 1 <= cur <= total
    ensures NoSilentGap(Window(cur, total)) && DotsMarkGaps(Window(cur, total))
  {
  }

  /** The ellipses appear exactly on the source's conditions, and the current page is always shown. */
  lemma WindowMarks(cur: int, total: int)
    ensures PageButton(cur, true) in Window(cur, total)
    ensures LeftDots in Window(cur, total) <==> cur > 3
    ensures RightDots in Window(cur, total) <==> cur < total - 2
  {
  }

  /** The pushes before the current button: first page, left dots, previous page. */
  method PushLeft(cur: int) returns (pages: seq<PageItem>)
    ensures pages == LeftShape(cur)
  {
    pages := [];
    if cur > 2 {
      pages := pages + [PageButton(1, false)];
    }
    if cur > 3 {
      pages := pages + [LeftDots];
    }
    if cur > 1 {
      pages := pages + [PageButton(cur - 1, false)];
    }
  }

  /** The pushes after the current button: next page, right dots, last page. */
  method PushRight(pages0: seq<PageItem>, cur: int, total: int) returns (pages: seq<PageItem>)
    ensures pages == pages0 + RightShape(cur, total)
  {
    pages := pages0;
    if cur < total {
      pages := pages + [PageButton(cur + 1, false)];
    }
    if cur < total - 2 {
      pages := pages + [RightDots];
    }
    if cur < total - 1 {
      pages := pages + [PageButton(total, false)];
    }
  }

  /**
   * The window of page buttons, pushed in the source's order: first page, left dots,
   * the previous page, the current page, the next page, right dots, last page.
   */
  method PageButtons(cur: int, total: int) returns (items: seq<PageItem>)
    ensures items == Window(cur, total)
  {
    var pages := PushLeft(cur);
    pages := pages + [PageButton(cur, true)];
    items := PushRight(pages, cur, total);
  }

  /** The table's own state: the search box text and the client-side page. */
  class TableState {
    var query: string
    var page: int

    constructor ()
      ensures query == "" && page == 1
    {
      query := "";
      page := 1;
    }

    /** The clamp effect: under client pagination a page past the last is lowered to the last. */
    method ClampPage(p: Props)
      modifies this`page
      ensures page == if !ServerPagination(p) && old(page) > TotalPagesCalc(p, query) then TotalPagesCalc(p, query) else old(page)
      ensures !ServerPagination(p) && old(page) >= 1 ==> 1 <= page <= TotalPagesCalc(p, query)
    {
      if !ServerPagination(p) && page > TotalPagesCalc(p, query) {
        page := TotalPagesCalc(p, query);
      }
    }

    /**
     * Typing in the search box: the query changes, then the clamp effect and the reset
     * effect run in order; without server search the page goes back to 1.
     */
    method ChangeQuery(q: string, p: Props)
      modifies this
      ensures query == q
      ensures !ServerSearch(p) ==> page == 1
      ensures ServerSearch(p) ==> page == if !ServerPagination(p) && old(page) > TotalPagesCalc(p, q) then TotalPagesCalc(p, q) else old(page)
      ensures !ServerPagination(p) && old(page) >= 1 ==> 1 <= page <= TotalPagesCalc(p, q)
    {
      query := q;
      ClampPage(p);
      if !ServerSearch(p) {
        page := 1;
      }
    }

    /**
     * `handlePageChange`: under server pagination the page goes to the parent's
     * `onPageChange` (returned here) and the table's state is untouched; otherwise it
     * becomes the table's page.
     */
    method HandlePageChange(newPage: int, p: Props) returns (onPageChange: Option<int>)
      modifies this`page
      ensures ServerPagination(p) ==> onPageChange == Some(newPage) && page == old(page)
      ensures !ServerPagination(p) ==> onPageChange == None && page == newPage
    {
      if ServerPagination(p) {
        onPageChange := Some(newPage);
      } else {
        page := newPage;
        onPageChange := None;
      }
    }
  }
}
