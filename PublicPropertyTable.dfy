/**
  The public listing table: which slice of the property list a page shows,
  how the area column reads in square metres or in pyeong, how each row
  renders, and the three pieces of state the table keeps (page, rows per page
  and the unit switch).
*/
module PropertyTable {
  import opened Wrappers

  /** One listed property, with the fields the table reads. */
  datatype PublicPropertyItem = PublicPropertyItem(
    id: int,
    category: string,
    buildingName: Option<string>,
    description: Option<string>,
    price: Option<int>,
    deposit: Option<int>,
    monthlyRent: Option<int>,
    supplyArea: real,
    exclusiveArea: real,
    platform: string,
    createdAt: string,
    updatedAt: string)

  function Min(a: int, b: int): int { if a <= b then a else b }

  function Max(a: int, b: int): int { if a <= b then b else a }

  // ---------------------------------------------------------------------------
  // Pagination
  // ---------------------------------------------------------------------------

  /** `Array.prototype.slice` for non-negative bounds: out-of-range bounds are clamped. */
  function Slice<T>(s: seq<T>, start: nat, end: nat): (r: seq<T>)
    ensures |r| == Max(0, Min(end, |s|) - start)
    ensures forall i :: 0 <= i < |r| ==> r[i] == s[start + i]
  {
    if start < end && start < |s| then s[start..Min(end, |s|)] else []
  }

  /** The rows on page `page` (zero-based) when a page holds `rowsPerPage` rows. */
  function Displayed(list: seq<PublicPropertyItem>, page: nat, rowsPerPage: nat): (r: seq<PublicPropertyItem>)
    ensures |r| == Min(rowsPerPage, Max(0, |list| - page * rowsPerPage))
    ensures forall i :: 0 <= i < |r| ==> r[i] == list[page * rowsPerPage + i]
  {
    Slice(list, page * rowsPerPage, page * rowsPerPage + rowsPerPage)
  }

  /** The number of non-empty pages, `ceil(n / rowsPerPage)`. */
  function PageCount(n: nat, rowsPerPage: nat): nat
    requires rowsPerPage > 0
  {
    (n + rowsPerPage - 1) / rowsPerPage
  }

  lemma MulMonotone(a: nat, b: nat, c: nat)
    requires a <= b
    ensures a * c <= b * c
  {
  }

  /** A page is empty exactly when it lies at or beyond `PageCount`. */
  lemma EmptyPageIff(list: seq<PublicPropertyItem>, page: nat, rowsPerPage: nat)
    requires rowsPerPage > 0
    ensures Displayed(list, page, rowsPerPage) == [] <==> page >= PageCount(|list|, rowsPerPage)
  {
    var n, r := |list|, rowsPerPage;
    var c := PageCount(n, r);
    assert c * r <= n + r - 1 < c * r + r;
    if page >= c {
      MulMonotone(c, page, r);
    } else {
      MulMonotone(page + 1, c, r);
    }
  }

  /** The pages before page `k`, concatenated in order. */
  function PagesThrough(list: seq<PublicPropertyItem>, rowsPerPage: nat, k: nat): seq<PublicPropertyItem> {
    if k == 0 then [] else PagesThrough(list, rowsPerPage, k - 1) + Displayed(list, k - 1, rowsPerPage)
  }

  /**
    Consecutive pages follow one another without gap or overlap: the first `k`
    pages together are exactly the first `k * rowsPerPage` rows of the list.
  */
  lemma {:induction false} PagesThroughIsPrefix(list: seq<PublicPropertyItem>, rowsPerPage: nat, k: nat)
    ensures PagesThrough(list, rowsPerPage, k) == list[..Min(|list|, k * rowsPerPage)]
  {
    if k > 0 {
      var r := rowsPerPage;
      var a, b := LastPageOfPrefix(list, r, k);
      PagesThroughIsPrefix(list, r, k - 1);
      PrefixSplit(list, a, b);
    }
  }

  lemma PrefixSplit<T>(s: seq<T>, a: nat, b: nat)
    requires a <= b <= |s|
    ensures s[..a] + s[a..b] == s[..b]
  {
  }

  /** Page `k - 1` runs from the clamped `(k - 1) * rowsPerPage` to the clamped `k * rowsPerPage`. */
  lemma LastPageOfPrefix(list: seq<PublicPropertyItem>, rowsPerPage: nat, k: nat) returns (a: nat, b: nat)
    requires k > 0
    ensures a == Min(|list|, (k - 1) * rowsPerPage) && b == Min(|list|, k * rowsPerPage)
    ensures a <= b <= |list|
    ensures PagesThrough(list, rowsPerPage, k) == PagesThrough(list, rowsPerPage, k - 1) + list[a..b]
  {
    assert (k - 1) * rowsPerPage + rowsPerPage == k * rowsPerPage;
    a, b := Min(|list|, (k - 1) * rowsPerPage), Min(|list|, k * rowsPerPage);
  }

  /** All non-empty pages together are the whole list, in order. */
  lemma PagesCoverList(list: seq<PublicPropertyItem>, rowsPerPage: nat)
    requires rowsPerPage > 0
    ensures PagesThrough(list, rowsPerPage, PageCount(|list|, rowsPerPage)) == list
  {
    var c := PageCount(|list|, rowsPerPage);
    assert c * rowsPerPage >= |list|;
    PagesThroughIsPrefix(list, rowsPerPage, c);
  }

  /** Row `x` of the list is row `x % rowsPerPage` of page `x / rowsPerPage`. */
  lemma RowShownOnItsPage(list: seq<PublicPropertyItem>, rowsPerPage: nat, x: nat)
    requires rowsPerPage > 0 && x < |list|
    ensures x % rowsPerPage < |Displayed(list, x / rowsPerPage, rowsPerPage)|
    ensures Displayed(list, x / rowsPerPage, rowsPerPage)[x % rowsPerPage] == list[x]
  {
    var r := rowsPerPage;
    assert (x / r) * r + x % r == x;
  }

  /**
    Pages do not overlap: the row shown at offset `i` of page `p` is list row
    `p * rowsPerPage + i`, and that position determines `p` and `i`.
  */
  lemma ShownRowOnNoOtherPage(list: seq<PublicPropertyItem>, rowsPerPage: nat, p: nat, i: nat)
    requires i < |Displayed(list, p, rowsPerPage)|
    ensures Displayed(list, p, rowsPerPage)[i] == list[p * rowsPerPage + i]
    ensures p == (p * rowsPerPage + i) / rowsPerPage && i == (p * rowsPerPage + i) % rowsPerPage
  {
    DivisionUnique(p * rowsPerPage + i, rowsPerPage, p, i);
  }

  /** Quotient and remainder are the only such pair. */
  lemma DivisionUnique(x: nat, r: nat, p: nat, i: nat)
    requires 0 <= i < r && p * r + i == x
    ensures p == x / r && i == x % r
  {
    var q := x / r;
    assert q * r + x % r == x;
    if p < q {
      MulMonotone(p + 1, q, r);
      assert false;
    } else if q < p {
      MulMonotone(q + 1, p, r);
      assert false;
    }
  }

  // ---------------------------------------------------------------------------
  // The area column
  // ---------------------------------------------------------------------------

  /** The square metres in one pyeong, as the table approximates it. */
  const SquareMetresPerPyeong: real := 3.3

  /**
    `x.toFixed(1)` as a whole number of tenths: the nearest tenth, a tie going
    away from zero.
  */
  function ToFixedTenths(x: real): (n: int)
    ensures 0.0 <= x ==> 10.0 * x - 0.5 < n as real <= 10.0 * x + 0.5
    ensures x < 0.0 ==> 10.0 * x - 0.5 <= n as real < 10.0 * x + 0.5
  {
    if x < 0.0 then -((0.5 - 10.0 * x).Floor) else (10.0 * x + 0.5).Floor
  }

  /** The area cell shows one of two measures. */
  datatype Measure = SquareMetres(value: real) | Pyeong(tenths: int)

  /** The area cell: exclusive area first, supply area second. */
  datatype AreaCell = AreaCell(exclusive: Measure, supply: Measure)

  /** `tenths` tenths of a pyeong is `squareMetres` converted, to within half a tenth. */
  predicate Approximates(tenths: int, squareMetres: real) {
    -0.5 <= tenths as real - 10.0 * (squareMetres / SquareMetresPerPyeong) <= 0.5
  }

  /**
    `formatArea`: in metric mode the stored values unconverted, otherwise each
    divided by 3.3 and rounded to one decimal.
  */
  function FormatArea(supplyArea: real, exclusiveArea: real, useMetric: bool): (c: AreaCell)
    ensures useMetric ==> c == AreaCell(SquareMetres(exclusiveArea), SquareMetres(supplyArea))
    ensures !useMetric ==>
      c.exclusive.Pyeong? && Approximates(c.exclusive.tenths, exclusiveArea) &&
      c.supply.Pyeong? && Approximates(c.supply.tenths, supplyArea)
  {
    if useMetric then
      AreaCell(SquareMetres(exclusiveArea), SquareMetres(supplyArea))
    else
      AreaCell(
        Pyeong(ToFixedTenths(exclusiveArea / SquareMetresPerPyeong)),
        Pyeong(ToFixedTenths(supplyArea / SquareMetresPerPyeong)))
  }

  /** 99 square metres reads as 30.0 pyeong. */
  lemma NinetyNineSquareMetresIsThirtyPyeong()
    ensures FormatArea(99.0, 99.0, false) == AreaCell(Pyeong(300), Pyeong(300))
  {
    assert 99.0 / SquareMetresPerPyeong == 30.0;
    assert (10.0 * 30.0 + 0.5).Floor == 300;
  }

  // ---------------------------------------------------------------------------
  // Rows and the table body
  // ---------------------------------------------------------------------------

  /** One rendered row; amounts and timestamps are shown unformatted. */
  datatype TableRow = TableRow(
    id: int,
    category: string,
    buildingName: string,
    description: string,
    price: int,
    deposit: int,
    monthlyRent: int,
    area: AreaCell,
    platform: string,
    createdAt: string,
    updatedAt: string)

  /** `value ?? "-"`: a missing text shows as a dash; a present one, even empty, as itself. */
  function Placeholder(o: Option<string>): (s: string)
    ensures o.None? ==> s == "-"
    ensures o.Some? ==> s == o.value
  {
    o.GetOr("-")
  }

  /**
    One row. Building name and description fall back to a dash; price, deposit
    and monthly rent have no fallback, so a missing one makes rendering fail.
  */
  function RenderRow(item: PublicPropertyItem, useMetric: bool): (r: Option<TableRow>)
    ensures r.Some? <==> item.price.Some? && item.deposit.Some? && item.monthlyRent.Some?
    ensures r.Some? ==>
      r.value.id == item.id && r.value.category == item.category &&
      r.value.buildingName == Placeholder(item.buildingName) &&
      r.value.description == Placeholder(item.description) &&
      r.value.price == item.price.value && r.value.deposit == item.deposit.value &&
      r.value.monthlyRent == item.monthlyRent.value &&
      r.value.area == FormatArea(item.supplyArea, item.exclusiveArea, useMetric) &&
      r.value.platform == item.platform &&
      r.value.createdAt == item.createdAt && r.value.updatedAt == item.updatedAt
  {
    if item.price.Some? && item.deposit.Some? && item.monthlyRent.Some? then
      Some(TableRow(
        item.id,
        item.category,
        Placeholder(item.buildingName),
        Placeholder(item.description),
        item.price.value,
        item.deposit.value,
        item.monthlyRent.value,
        FormatArea(item.supplyArea, item.exclusiveArea, useMetric),
        item.platform,
        item.createdAt,
        item.updatedAt))
    else
      None
  }

  /** Rendering a sequence of items: it succeeds when every row does, keeping the order. */
  function RenderRows(items: seq<PublicPropertyItem>, useMetric: bool): (r: Option<seq<TableRow>>)
    ensures r.Some? <==> forall i :: 0 <= i < |items| ==> RenderRow(items[i], useMetric).Some?
    ensures r.Some? ==>
      |r.value| == |items| &&
      forall i :: 0 <= i < |items| ==> RenderRow(items[i], useMetric) == Some(r.value[i])
  {
    if items == [] then Some([])
    else
      var head := RenderRow(items[0], useMetric);
      var tail := RenderRows(items[1..], useMetric);
      if head.Some? && tail.Some? then Some([head.value] + tail.value)
      else if head.None? then None
      else
        assert exists i :: 0 <= i < |items| && RenderRow(items[i], useMetric).None? by {
          var i :| 0 <= i < |items[1..]| && RenderRow(items[1..][i], useMetric).None?;
          assert RenderRow(items[i + 1], useMetric).None?;
        }
        None
  }

  /** The table body: the page's rows, or the single "no data" row. */
  datatype TableBody = Rows(rows: seq<TableRow>) | NoDataRow

  /**
    Everything the component shows for a given state, or `Crashed` when its
    render throws: then neither the table nor the pagination bar appears.
  */
  datatype TableView = TableView(body: TableBody, count: nat, page: nat, rowsPerPage: nat) | Crashed

  /**
    The rendered component. It crashes exactly when a shown item lacks an
    amount; otherwise the pagination count is always the full list length and
    the body is the "no data" row exactly when the page is empty.
  */
  function Render(list: seq<PublicPropertyItem>, page: nat, rowsPerPage: nat, useMetric: bool): (v: TableView)
    ensures v.Crashed? <==>
      exists i :: 0 <= i < |Displayed(list, page, rowsPerPage)| &&
        RenderRow(Displayed(list, page, rowsPerPage)[i], useMetric).None?
    ensures v.TableView? ==> v.count == |list| && v.page == page && v.rowsPerPage == rowsPerPage
    ensures v.TableView? ==> (v.body.NoDataRow? <==> rowsPerPage == 0 || page * rowsPerPage >= |list|)
    ensures v.TableView? && v.body.Rows? ==>
      |v.body.rows| == |Displayed(list, page, rowsPerPage)| > 0 &&
      forall i :: 0 <= i < |v.body.rows| ==>
        Some(v.body.rows[i]) == RenderRow(list[page * rowsPerPage + i], useMetric)
  {
    var shown := Displayed(list, page, rowsPerPage);
    if |shown| == 0 then TableView(NoDataRow, |list|, page, rowsPerPage)
    else
      match RenderRows(shown, useMetric)
      case Some(rows) => TableView(Rows(rows), |list|, page, rowsPerPage)
      case None => Crashed
  }

  /**
    The unit switch changes only the area column: the component crashes under
    one unit exactly when it does under the other, and otherwise shows the same
    count, the same kind of body and the same rows.
  */
  lemma UnitSwitchKeepsRows(list: seq<PublicPropertyItem>, page: nat, rowsPerPage: nat)
    ensures Render(list, page, rowsPerPage, true).Crashed? == Render(list, page, rowsPerPage, false).Crashed?
    ensures Render(list, page, rowsPerPage, true).TableView? ==>
      Render(list, page, rowsPerPage, true).count == Render(list, page, rowsPerPage, false).count &&
      Render(list, page, rowsPerPage, true).body.Rows? == Render(list, page, rowsPerPage, false).body.Rows?
    ensures Render(list, page, rowsPerPage, true).TableView? && Render(list, page, rowsPerPage, true).body.Rows? ==>
      forall i :: 0 <= i < |Render(list, page, rowsPerPage, true).body.rows| ==>
        Render(list, page, rowsPerPage, true).body.rows[i].id == Render(list, page, rowsPerPage, false).body.rows[i].id
  {
    var shown := Displayed(list, page, rowsPerPage);
    forall i | 0 <= i < |shown|
      ensures RenderRow(shown[i], true).Some? == RenderRow(shown[i], false).Some?
    {
    }
  }

  // ---------------------------------------------------------------------------
  // The component state
  // ---------------------------------------------------------------------------

  /** The table component: its list prop and its three pieces of state. */
  class PublicPropertyTable {
    const propertyList: seq<PublicPropertyItem>
    var useMetric: bool
    var page: nat
    var rowsPerPage: nat

    /** Initial state: square metres, first page, ten rows per page. */
    constructor (propertyList: seq<PublicPropertyItem>)
      ensures this.propertyList == propertyList
      ensures useMetric && page == 0 && rowsPerPage == 10
    {
      this.propertyList := propertyList;
      useMetric := true;
      page := 0;
      rowsPerPage := 10;
    }

    /** What the component renders now. */
    function View(): TableView
      reads this
    {
      Render(propertyList, page, rowsPerPage, useMetric)
    }

    /** `handleToggleUnitChange`: flips the unit; page and page size stay. */
    method ToggleUnit()
      modifies this
      ensures useMetric == !old(useMetric)
      ensures page == old(page) && rowsPerPage == old(rowsPerPage)
    {
      useMetric := !useMetric;
    }

    /** `handleChangePage`: only the page changes. */
    method ChangePage(newPage: nat)
      modifies this
      ensures page == newPage
      ensures rowsPerPage == old(rowsPerPage) && useMetric == old(useMetric)
    {
      page := newPage;
    }

    /**
      `handleChangeRowsPerPage`: sets the page size and goes back to the first
      page, which is empty only when the list is (or the size is zero).
    */
    method ChangeRowsPerPage(value: nat)
      modifies this
      ensures rowsPerPage == value && page == 0
      ensures useMetric == old(useMetric)
      ensures value == 0 || |propertyList| == 0 ==> View() == TableView(NoDataRow, |propertyList|, 0, value)
      ensures View().TableView? && View().body.NoDataRow? ==> value == 0 || |propertyList| == 0
    {
      rowsPerPage := value;
      page := 0;
    }
  }

  /** Toggling the unit twice gives back the same table. */
  method ToggleUnitTwice(t: PublicPropertyTable)
    modifies t
    ensures t.useMetric == old(t.useMetric)
    ensures t.View() == old(t.View())
  {
    t.ToggleUnit();
    t.ToggleUnit();
  }
}
