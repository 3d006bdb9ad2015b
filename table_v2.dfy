/** The hooks table: the module-level variables it keeps between renders,
    its hook state, and the handlers that move them or send intents to the
    host through `updateScroll`. */
module TableV2 {
  import opened Js
  import opened Seqs
  import opened TableCore
  import opened TableColumns
  import TableOrder

  /** The page size the module starts with. */
  const DEFAULT_PAGE_SIZE := 500

  /** The props of one render. `size` is `None` when missing. */
  datatype TableProps = TableProps(
    data: seq<Row>, scroll: bool, scrollData: ScrollData, size: Option<int>,
    requestId: string, hasUpdateScroll: bool, hasOnMarkClick: bool)

  /** The `properties` of one render. A `limit` of 0 stands for a missing one
      (both are falsy). */
  datatype TableConfig = TableConfig(
    columns: seq<Column>, limit: int, multiSelectable: bool, matchingRowColumn: string,
    menu: Value, multiMenu: Value, hasOnSelect: bool)

  /** `getGraphProperties`: every figure comes from `scrollData` when it has
      the key, else from its default; the size comes from the `size` prop when
      it is truthy, else it is the number of rows. */
  function GetGraphProperties(props: TableProps, pageSize: int): (g: GraphProperties)
    ensures props.scrollData.pageSize.None? ==> g.pageSize == pageSize
    ensures props.scrollData.currentPage.None? ==> g.currentPage == 1
    ensures props.scrollData.pageSize.Some? ==> g.pageSize == props.scrollData.pageSize.value
    ensures props.scrollData.currentPage.Some? ==> g.currentPage == props.scrollData.currentPage.value
    ensures g.searchString == props.scrollData.searchText && g.sort == props.scrollData.sort
    ensures g.expiration == props.scrollData.expiration
    ensures g.size == |props.data| <==> props.size.None? || props.size.value in {0, |props.data|}
    ensures props.size.Some? && props.size.value != 0 ==> g.size == props.size.value
  {
    GraphProperties(
      props.scrollData.searchText, props.scrollData.sort,
      if props.size.Some? && props.size.value != 0 then props.size.value else |props.data|,
      OrElse(props.scrollData.pageSize, pageSize), OrElse(props.scrollData.currentPage, 1),
      props.scrollData.expiration)
  }

  /** The removed-column list of `getGraphProperties`: the host's stored list,
      else `uniq` of the (empty) module list. */
  function RemovedColumnsProp(props: TableProps): seq<nat> {
    OrElse(props.scrollData.removedColumns, [])
  }

  /** `getInitialSort`: the host's sort when it names a column and an order. */
  function InitialSort(sort: Option<SortSpec>): (r: Option<SortSpec>)
    ensures r.Some? <==> sort.Some? && sort.value.column != "" && sort.value.order != ""
    ensures r.Some? ==> r == sort
  {
    if sort.Some? && sort.value.column != "" && sort.value.order != "" then sort else None
  }

  /** `splice(indexOf(x), 1)` when `x` occurs: the first `x` taken out. */
  function RemoveFirst<T(==)>(s: seq<T>, x: T): seq<T> {
    var i := IndexOf(s, x);
    if i == -1 then s else s[..i] + s[i + 1..]
  }

  /** Taking the first `x` out removes one occurrence of it and nothing else. */
  lemma {:induction false} RemoveFirstRemovesOne<T>(s: seq<T>, x: T)
    ensures multiset(RemoveFirst(s, x)) == multiset(s) - multiset{x}
  {
    var i := IndexOf(s, x);
    if i == -1 {
      assert multiset(s)[x] == 0;
    } else {
      var a, b := s[..i], s[i + 1..];
      assert s == a + [x] + b;
      assert multiset(s) == multiset(a) + multiset{x} + multiset(b);
      assert multiset(RemoveFirst(s, x)) == multiset(a) + multiset(b);
    }
  }

  /** From a list without repeats it takes `x` out altogether, and leaves no
      repeats. */
  lemma {:induction false} RemoveFirstDistinct<T>(s: seq<T>, x: T)
    requires NoDup(s)
    ensures x !in RemoveFirst(s, x) && NoDup(RemoveFirst(s, x))
  {
    var i := IndexOf(s, x);
    if i != -1 {
      var r := RemoveFirst(s, x);
      assert r == s[..i] + s[i + 1..];
      forall j | 0 <= j < |r|
        ensures r[j] != x
      {
        RemovedAt(s, i, j);
      }
      forall j1, j2 | 0 <= j1 < j2 < |r|
        ensures r[j1] != r[j2]
      {
        RemovedAt(s, i, j1);
        RemovedAt(s, i, j2);
      }
    }
  }

  /** Position `j` of `s` with position `i` taken out. */
  lemma {:induction false} RemovedAt<T>(s: seq<T>, i: int, j: int)
    requires 0 <= i < |s| && 0 <= j < |s| - 1
    ensures (s[..i] + s[i + 1..])[j] == s[if j < i then j else j + 1]
  {
    if j < i {
      assert (s[..i] + s[i + 1..])[j] == s[..i][j];
    } else {
      assert (s[..i] + s[i + 1..])[j] == s[i + 1..][j - i];
    }
  }

  /** The props with the host's removed-column list replaced. */
  function WithRemovedColumns(props: TableProps, removed: seq<nat>): TableProps {
    props.(scrollData := props.scrollData.(removedColumns := Some(removed)))
  }

  /** The columns of one header row, as `getHeaderData` builds them. */
  datatype Header = Header(
    name: nat, caption: string, columnField: string, columnText: string,
    filter: bool, selection: bool, display: bool, sortDirection: Option<string>)

  /** The direction a sorted header shows: the host's when it has a sort,
      else the table's own. */
  function SortDirection(initialSort: Option<SortSpec>, sortOrder: Option<SortSpec>): Option<string> {
    if initialSort.Some? then Some(initialSort.value.order)
    else if sortOrder.Some? then Some(sortOrder.value.order)
    else None
  }

  predicate SortedColumn(c: Column, initialSort: Option<SortSpec>, sortOrder: Option<SortSpec>) {
    (initialSort.Some? && initialSort.value.column == c.column) ||
    (sortOrder.Some? && sortOrder.value.column == c.column)
  }

  /** In scroll mode the rows shown are the first `pageSize * currentPage`
      resident ones, so every resident row of the current page is among them. */
  lemma {:induction false} ScrollPrefixHoldsPage(filterData: seq<Row>, pageSize: int, currentPage: int, i: int)
    requires pageSize >= 1 && currentPage >= 1
    requires PageStart(currentPage, pageSize) <= i <= PageEnd(currentPage, pageSize) && i < |filterData|
    ensures 0 <= i < |SliceTo(filterData, pageSize * (currentPage - 1) + pageSize)|
  {
    assert pageSize * (currentPage - 1) + pageSize == PageEnd(currentPage, pageSize) + 1;
    MulAtLeast(currentPage, pageSize);
  }

  class Table {
    // The module-level variables.
    var displayColumns: seq<nat>
    var originalData: seq<Row>
    var filterData: seq<Row>
    var sortOrder: Option<SortSpec>
    var currentPage: int
    var unformattedData: map<int, Row>
    var selectedRows: Selection
    var pageSize: int
    /** The id supply that stands in for the random `row_id`s. */
    var nextRowId: int
    // The hook state: the rows shown, their selection, the confirmation flag.
    var data: seq<Row>
    var selected: seq<int>
    var showConfirmationPopup: bool
    // The props and properties of the current render.
    var props: TableProps
    var config: TableConfig
    /** Every merge patch sent through `updateScroll`, oldest first. */
    var intents: seq<Intent>

    /** The module as loaded, rendered once with `props` and `config`. */
    constructor(props: TableProps, config: TableConfig)
      ensures displayColumns == [] && originalData == [] && filterData == [] && sortOrder.None?
      ensures currentPage == 1 && unformattedData == map[] && selectedRows == NoSelection
      ensures pageSize == if config.limit != 0 then config.limit else DEFAULT_PAGE_SIZE
      ensures data == [] && selected == [] && !showConfirmationPopup && intents == []
      ensures this.props == props && this.config == config
    {
      displayColumns, originalData, filterData, sortOrder := [], [], [], None;
      currentPage, unformattedData, selectedRows := 1, map[], NoSelection;
      pageSize := if config.limit != 0 then config.limit else DEFAULT_PAGE_SIZE;
      nextRowId := 0;
      data, selected, showConfirmationPopup := [], [], false;
      this.props, this.config := props, config;
      intents := [];
    }

    /** A later render: new props, and `pageSize = limit || pageSize`. */
    method Render(props: TableProps, config: TableConfig)
      modifies this`props, this`config, this`pageSize
      ensures this.props == props && this.config == config
      ensures pageSize == if config.limit != 0 then config.limit else old(pageSize)
    {
      this.props, this.config := props, config;
      if config.limit != 0 {
        pageSize := config.limit;
      }
    }

    function Graph(): GraphProperties
      reads this`props, this`pageSize
    {
      GetGraphProperties(props, pageSize)
    }

    /** The rows `updateData` shows for `rows` on `page`: in scroll mode the
        resident ones up to the end of that page, else all of them. */
    function ShownRows(rows: seq<Row>, page: int): seq<Row>
      reads this`props, this`pageSize
    {
      if props.scroll then SliceTo(rows, Graph().pageSize * (page - 1) + Graph().pageSize) else rows
    }

    /** The hook state shows the selection stored for the current page. */
    predicate ShownConsistent()
      reads this`selected, this`selectedRows, this`currentPage
    {
      selected == Shown(selectedRows, currentPage)
    }

    /** `updateTableStatus`: the patch reaches the host only when it passed
        `updateScroll`. */
    method UpdateTableStatus(patch: Intent)
      modifies this`intents
      ensures intents == old(intents) + (if props.hasUpdateScroll then [patch] else [])
    {
      if props.hasUpdateScroll {
        intents := intents + [patch];
      }
    }

    /** `resetFilters(page, selectedRow)` */
    method ResetFilters(page: int, sel: Selection)
      modifies this`currentPage, this`selectedRows
      ensures currentPage == page && selectedRows == sel
    {
      currentPage, selectedRows := page, sel;
    }

    /** `updateData`: in scroll mode the resident rows up to the end of the
        current page, else all filtered rows; and the current page's
        selection. */
    method UpdateData()
      modifies this`data, this`selected
      ensures data == ShownRows(filterData, currentPage)
      ensures ShownConsistent()
    {
      var ps := Graph().pageSize;
      var offset := ps * (currentPage - 1);
      data := if props.scroll then SliceTo(filterData, offset + ps) else filterData;
      selected := Shown(selectedRows, currentPage);
    }

    /** The projection of `initiate`: every row under a fresh id, the side
        table from id back to raw row, and the projected rows kept as the
        original data. */
    method LoadRows()
      modifies this`filterData, this`unformattedData, this`nextRowId, this`originalData
      ensures nextRowId == old(nextRowId) + |props.data|
      ensures Loaded(old(nextRowId))
    {
      var rows, side := ProjectRows(props.data, config.columns, config.matchingRowColumn,
                                    0, |props.data| - 1, nextRowId);
      filterData, unformattedData := rows, side;
      nextRowId := nextRowId + |props.data|;
      originalData := filterData;
    }

    /** The rows of `props.data` are loaded under the ids from `firstId` on:
        one projected row each, kept as the original data too, and the side
        table leads every id back to its raw row and has no other ids. */
    ghost predicate Loaded(firstId: int)
      reads this`filterData, this`unformattedData, this`originalData, this`props, this`config
    {
      |filterData| == |props.data| && originalData == filterData &&
      (forall i :: 0 <= i < |props.data| ==>
         filterData[i] == Projected(props.data[i], config.columns, config.matchingRowColumn, firstId + i, true)) &&
      (forall id :: id in unformattedData <==> firstId <= id < firstId + |props.data|) &&
      (forall i :: 0 <= i < |props.data| ==> unformattedData[firstId + i] == props.data[i])
    }

    /** The stored selection of this request, from the host's `selectedRow`
        (none when the request has no entry). */
    function StoredSelection(): Selection
      reads this`props
    {
      var stored := OrElse(props.scrollData.selectedRow, map[]);
      if props.requestId in stored then stored[props.requestId] else NoSelection
    }

    /** The scroll-mode start of `initiate`: take the stored selection of this
        request, and ask for the page size when the host lacks it. */
    method TakeScrollState()
      modifies this`selectedRows, this`intents
      ensures intents == old(intents) +
                (if props.scroll && props.scrollData.pageSize.None? && props.hasUpdateScroll
                 then [EmptyIntent.(pageSize := Some(pageSize))] else [])
      ensures selectedRows == if props.scroll then StoredSelection() else old(selectedRows)
    {
      if props.scroll {
        selectedRows := StoredSelection();
        if props.scrollData.pageSize.None? {
          UpdateTableStatus(EmptyIntent.(pageSize := Some(pageSize)));
        }
      }
    }

    /** `initiate`: take the stored selection of this request (scroll mode)
        and ask for the page size when the host lacks it; with columns, load
        the rows, reset to the host's page with that selection and refresh the
        shown rows. */
    method Initiate()
      modifies this`selectedRows, this`intents, this`filterData, this`unformattedData, this`nextRowId,
               this`originalData, this`currentPage, this`data, this`selected
      ensures intents == old(intents) +
                (if props.scroll && props.scrollData.pageSize.None? && props.hasUpdateScroll
                 then [EmptyIntent.(pageSize := Some(pageSize))] else [])
      ensures selectedRows == if props.scroll then StoredSelection() else old(selectedRows)
      ensures |config.columns| == 0 ==>
                filterData == old(filterData) && data == old(data) && currentPage == old(currentPage) &&
                selected == old(selected) && originalData == old(originalData) &&
                unformattedData == old(unformattedData) && nextRowId == old(nextRowId)
      ensures |config.columns| > 0 ==> Loaded(old(nextRowId))
      ensures |config.columns| > 0 ==>
                currentPage == (if Graph().currentPage != 0 then Graph().currentPage else 1) && ShownConsistent() &&
                data == ShownRows(filterData, currentPage)
    {
      var g := Graph();
      TakeScrollState();
      if |config.columns| == 0 {
        return;
      }
      LoadAndShow(if g.currentPage != 0 then g.currentPage else 1);
    }

    /** The second half of `initiate`: load the rows, then show them from
        the given page. */
    method LoadAndShow(page: int)
      modifies this`filterData, this`unformattedData, this`nextRowId, this`originalData,
               this`currentPage, this`selectedRows, this`data, this`selected
      ensures Loaded(old(nextRowId))
      ensures selectedRows == old(selectedRows)
      ensures currentPage == page && ShownConsistent() && data == ShownRows(filterData, currentPage)
    {
      LoadRows();
      ResetFilters(page, selectedRows);
      UpdateData();
    }

    /** `isScrollExpired`, with `Date.now()` passed in. */
    function IsScrollExpired(now: int): bool
      reads this`props, this`pageSize
    {
      Expired(props.scroll, Graph().expiration, now)
    }

    /** `isScrollDataExists` */
    function IsScrollDataExists(page: int): bool
      reads this`props, this`pageSize
    {
      DataExists(page, Graph().pageSize, |props.data|)
    }

    /** `handleSearch` as written. An expression search takes the rows and
        sends a SEARCH patch on page one with no selection, unless the text is
        the one the host already has. A plain search takes the rows and shows
        them, and only then resets page and selection: the shown selection is
        the one of the page left behind. */
    method HandleSearchAsWritten(rows: seq<Row>, isSuccess: bool, expression: Value, search: Value,
                                 searchText: Option<string>)
      modifies this`filterData, this`data, this`selected, this`currentPage, this`selectedRows, this`intents
      ensures !isSuccess ==> filterData == old(filterData) && intents == old(intents) &&
                             currentPage == old(currentPage) && selectedRows == old(selectedRows) &&
                             data == old(data) && selected == old(selected)
      ensures isSuccess ==> filterData == rows
      ensures isSuccess && Truthy(expression) ==>
                currentPage == old(currentPage) && selectedRows == old(selectedRows) &&
                data == old(data) && selected == old(selected) &&
                intents == old(intents) +
                  (if props.hasUpdateScroll &&
                      (searchText.None? || searchText.value == "" || Graph().searchString != searchText)
                   then [EmptyIntent.(event := Some(Search), search := Some(search), searchText := Some(searchText),
                                      currentPage := Some(1), selectedRow := Some(NoSelection))]
                   else [])
      ensures isSuccess && !Truthy(expression) ==>
                currentPage == 1 && selectedRows == NoSelection && intents == old(intents) &&
                data == ShownRows(rows, old(currentPage)) && selected == Shown(old(selectedRows), old(currentPage))
    {
      if isSuccess {
        if Truthy(expression) {
          var searchString := Graph().searchString;
          filterData := rows;
          if searchText.None? || searchText.value == "" || searchString != searchText {
            UpdateTableStatus(EmptyIntent.(event := Some(Search), search := Some(search), searchText := Some(searchText),
                                           currentPage := Some(1), selectedRow := Some(NoSelection)));
          }
        } else {
          filterData := rows;
          UpdateData();
          ResetFilters(1, NoSelection);
        }
      }
    }

    /** `handleSearch` with the plain search resetting page and selection
        before it shows the rows, so the shown selection is the stored one. */
    method HandleSearch(rows: seq<Row>, isSuccess: bool, expression: Value, search: Value,
                        searchText: Option<string>)
      modifies this`filterData, this`data, this`selected, this`currentPage, this`selectedRows, this`intents
      ensures !isSuccess ==> filterData == old(filterData) && intents == old(intents) &&
                             currentPage == old(currentPage) && selectedRows == old(selectedRows) &&
                             data == old(data) && selected == old(selected)
      ensures isSuccess ==> filterData == rows
      ensures isSuccess && Truthy(expression) ==>
                currentPage == old(currentPage) && selectedRows == old(selectedRows) &&
                data == old(data) && selected == old(selected) &&
                intents == old(intents) +
                  (if props.hasUpdateScroll &&
                      (searchText.None? || searchText.value == "" || Graph().searchString != searchText)
                   then [EmptyIntent.(event := Some(Search), search := Some(search), searchText := Some(searchText),
                                      currentPage := Some(1), selectedRow := Some(NoSelection))]
                   else [])
      ensures isSuccess && !Truthy(expression) ==>
                currentPage == 1 && selectedRows == NoSelection && intents == old(intents) &&
                data == ShownRows(rows, 1) && ShownConsistent() && selected == []
    {
      if isSuccess {
        if Truthy(expression) {
          var searchString := Graph().searchString;
          filterData := rows;
          if searchText.None? || searchText.value == "" || searchString != searchText {
            UpdateTableStatus(EmptyIntent.(event := Some(Search), search := Some(search), searchText := Some(searchText),
                                           currentPage := Some(1), selectedRow := Some(NoSelection)));
          }
        } else {
          filterData := rows;
          ResetFilters(1, NoSelection);
          UpdateData();
        }
      }
    }

    /** `getHeaderData`: one header per configured column, hidden when its
        index is in the host's removed list; the columns of the host's sort or
        the table's own carry the sort direction, the host's when it has one. */
    method GetHeaderData(initialSort: Option<SortSpec>) returns (headers: seq<Header>)
      ensures |headers| == |config.columns|
      ensures forall i :: 0 <= i < |headers| ==>
                var c := config.columns[i];
                headers[i].name == i && headers[i].caption == Caption(c) && headers[i].columnField == c.column &&
                headers[i].columnText == (if c.selection then "" else Caption(c)) &&
                headers[i].filter == (c.filter != Bool(false)) && headers[i].selection == c.selection &&
                (headers[i].display <==> i !in RemovedColumnsProp(props))
      ensures forall i :: 0 <= i < |headers| ==>
                (headers[i].sortDirection.Some? <==> SortedColumn(config.columns[i], initialSort, sortOrder))
      ensures forall i :: 0 <= i < |headers| && headers[i].sortDirection.Some? ==>
                headers[i].sortDirection == SortDirection(initialSort, sortOrder)
    {
      var removed := RemovedColumnsProp(props);
      var columns := config.columns;
      headers := [];
      var index := 0;
      while index < |columns|
        invariant 0 <= index <= |columns| && |headers| == index
        invariant forall i :: 0 <= i < index ==>
                    var c := columns[i];
                    headers[i].name == i && headers[i].caption == Caption(c) && headers[i].columnField == c.column &&
                    headers[i].columnText == (if c.selection then "" else Caption(c)) &&
                    headers[i].filter == (c.filter != Bool(false)) && headers[i].selection == c.selection &&
                    (headers[i].display <==> i !in removed)
        invariant forall i :: 0 <= i < index ==>
                    (headers[i].sortDirection.Some? <==> SortedColumn(columns[i], initialSort, sortOrder))
        invariant forall i :: 0 <= i < index && headers[i].sortDirection.Some? ==>
                    headers[i].sortDirection == SortDirection(initialSort, sortOrder)
      {
        var c := columns[index];
        var direction: Option<string> := None;
        if SortedColumn(c, initialSort, sortOrder) {
          direction := SortDirection(initialSort, sortOrder);
        }
        headers := headers + [Header(index, Caption(c), c.column, if c.selection then "" else Caption(c),
                                     c.filter != Bool(false), c.selection, index !in removed, direction)];
        index := index + 1;
      }
    }

    /** `handleColumnViewChange`: hiding adds the column to the shown list and
        the host's list without repeats; showing takes its first occurrence out
        of the host's list (in the host's array itself when it has one) and
        makes that the list. */
    method HandleColumnViewChange(changedColumn: nat, remove: bool)
      modifies this`displayColumns, this`props
      ensures remove ==> props == old(props)
      ensures remove ==> displayColumns == Uniq(old(displayColumns) + RemovedColumnsProp(old(props)) + [changedColumn])
      ensures remove ==> NoDup(displayColumns)
      ensures remove ==> forall k :: k in displayColumns <==>
                k in old(displayColumns) || k in RemovedColumnsProp(old(props)) || k == changedColumn
      ensures !remove ==> displayColumns == RemoveFirst(RemovedColumnsProp(old(props)), changedColumn)
      ensures !remove ==>
                multiset(displayColumns) == multiset(RemovedColumnsProp(old(props))) - multiset{changedColumn}
      ensures !remove && NoDup(RemovedColumnsProp(old(props))) ==> changedColumn !in displayColumns
      ensures !remove ==>
                props == if old(props).scrollData.removedColumns.Some? then WithRemovedColumns(old(props), displayColumns)
                         else old(props)
    {
      if remove {
        HideColumn(changedColumn);
      } else {
        ShowColumn(changedColumn);
      }
    }

    /** The hiding half of `handleColumnViewChange`. */
    method HideColumn(changedColumn: nat)
      modifies this`displayColumns
      ensures displayColumns == Uniq(old(displayColumns) + RemovedColumnsProp(props) + [changedColumn])
      ensures NoDup(displayColumns)
      ensures forall k :: k in displayColumns <==>
                k in old(displayColumns) || k in RemovedColumnsProp(props) || k == changedColumn
    {
      displayColumns := Uniq(displayColumns + RemovedColumnsProp(props) + [changedColumn]);
    }

    /** The showing half of `handleColumnViewChange`. */
    method ShowColumn(changedColumn: nat)
      modifies this`displayColumns, this`props
      ensures displayColumns == RemoveFirst(RemovedColumnsProp(old(props)), changedColumn)
      ensures multiset(displayColumns) == multiset(RemovedColumnsProp(old(props))) - multiset{changedColumn}
      ensures NoDup(RemovedColumnsProp(old(props))) ==> changedColumn !in displayColumns
      ensures props == if old(props).scrollData.removedColumns.Some? then WithRemovedColumns(old(props), displayColumns)
                       else old(props)
    {
      var removedProps := RemovedColumnsProp(props);
      RemoveFirstRemovesOne(removedProps, changedColumn);
      if NoDup(removedProps) {
        RemoveFirstDistinct(removedProps, changedColumn);
      }
      var removedIndex := IndexOf(removedProps, changedColumn);
      if removedIndex > -1 && |removedProps| > 0 {
        removedProps := removedProps[..removedIndex] + removedProps[removedIndex + 1..];
        if props.scrollData.removedColumns.Some? {
          props := WithRemovedColumns(props, removedProps);
        }
      }
      displayColumns := removedProps;
    }

    /** `handleRowsPerPageChange`: in scroll mode the host is asked for the
        new page size; the module keeps it either way. */
    method HandleRowsPerPageChange(numberOfRows: int)
      modifies this`intents, this`pageSize
      ensures pageSize == numberOfRows
      ensures intents == old(intents) +
                (if props.scroll && props.hasUpdateScroll
                 then [EmptyIntent.(pageSize := Some(numberOfRows), event := Some(Paging))] else [])
    {
      if props.scroll {
        UpdateTableStatus(EmptyIntent.(pageSize := Some(numberOfRows), event := Some(Paging)));
      }
      pageSize := numberOfRows;
    }

    /** `handleScrollSorting`: one SORTING patch with the toggled order of the
        host's sort, page one and no selection; nothing local changes. */
    method HandleScrollSorting(column: string)
      modifies this`intents
      ensures intents == old(intents) +
                (if props.hasUpdateScroll
                 then [EmptyIntent.(sort := Some(SortSpec(column, NextOrder(Graph().sort, column))),
                                    currentPage := Some(1), selectedRow := Some(NoSelection), event := Some(Sorting))]
                 else [])
    {
      var sort := Graph().sort;
      var colOrder := ASC;
      if sort.Some? && sort.value.column == column {
        colOrder := if sort.value.order == DESC then ASC else DESC;
      }
      UpdateTableStatus(EmptyIntent.(sort := Some(SortSpec(column, colOrder)),
                                     currentPage := Some(1), selectedRow := Some(NoSelection), event := Some(Sorting)));
    }

    /** `handleStaticSorting`: the table's own sort moves to `column` with the
        toggled order, the filtered rows are stably sorted by it (the same rows,
        now in order), and page and selection are reset before showing them. */
    method HandleStaticSorting(column: string)
      modifies this`sortOrder, this`filterData, this`currentPage, this`selectedRows, this`data, this`selected
      ensures sortOrder == Some(SortSpec(column, NextOrder(old(sortOrder), column)))
      ensures filterData == TableOrder.OrderBy(old(filterData), column, sortOrder.value.order)
      ensures multiset(filterData) == multiset(old(filterData))
      ensures TableOrder.Sorted(filterData, column, sortOrder.value.order)
      ensures currentPage == 1 && selectedRows == NoSelection && ShownConsistent()
      ensures data == ShownRows(filterData, 1)
    {
      var colOrder := ASC;
      if sortOrder.Some? && sortOrder.value.column == column {
        colOrder := if sortOrder.value.order == DESC then ASC else DESC;
      }
      sortOrder := Some(SortSpec(column, colOrder));
      TableOrder.OrderBySortedPermutation(filterData, column, colOrder);
      filterData := TableOrder.OrderBy(filterData, column, colOrder);
      ResetFilters(1, NoSelection);
      UpdateData();
    }

    /** `handleSortOrderChange`: sort by the column at `column`, through the
        host in scroll mode, locally otherwise. */
    method HandleSortOrderChange(column: int)
      requires 0 <= column < |config.columns|
      modifies this`intents, this`sortOrder, this`filterData, this`currentPage, this`selectedRows, this`data, this`selected
      ensures props.scroll ==>
                intents == old(intents) +
                  (if props.hasUpdateScroll
                   then [EmptyIntent.(sort := Some(SortSpec(config.columns[column].column,
                                                             NextOrder(Graph().sort, config.columns[column].column))),
                                      currentPage := Some(1), selectedRow := Some(NoSelection), event := Some(Sorting))]
                   else [])
      ensures props.scroll ==>
                filterData == old(filterData) && sortOrder == old(sortOrder) && currentPage == old(currentPage) &&
                selectedRows == old(selectedRows) && data == old(data) && selected == old(selected)
      ensures !props.scroll ==> intents == old(intents)
      ensures !props.scroll ==>
                sortOrder == Some(SortSpec(config.columns[column].column,
                                           NextOrder(old(sortOrder), config.columns[column].column)))
      ensures !props.scroll ==>
                filterData == TableOrder.OrderBy(old(filterData), config.columns[column].column, sortOrder.value.order)
      ensures !props.scroll ==> multiset(filterData) == multiset(old(filterData))
      ensures !props.scroll ==> TableOrder.Sorted(filterData, config.columns[column].column, sortOrder.value.order)
      ensures !props.scroll ==> currentPage == 1 && selectedRows == NoSelection && ShownConsistent()
      ensures !props.scroll ==> data == filterData
    {
      var name := config.columns[column].column;
      if props.scroll {
        HandleScrollSorting(name);
      } else {
        HandleStaticSorting(name);
      }
    }

    /** A forward click that the expired scroll cannot serve from the
        resident rows. */
    predicate Refused(page: int, now: int)
      reads this`props, this`pageSize, this`currentPage
    {
      page > currentPage - 1 && IsScrollExpired(now) && currentPage * Graph().pageSize >= |props.data|
    }

    /** `handlePageClick`: a forward click moves one page on unless the scroll
        has expired and the next page is not resident, in which case only the
        confirmation opens; a backward click moves one page back. A move is
        sent to the host in scroll mode and shown otherwise. */
    method HandlePageClick(page: int, now: int)
      modifies this`currentPage, this`showConfirmationPopup, this`intents, this`data, this`selected
      ensures old(Refused(page, now)) ==>
                currentPage == old(currentPage) && showConfirmationPopup && intents == old(intents) &&
                data == old(data) && selected == old(selected)
      ensures !old(Refused(page, now)) ==>
                showConfirmationPopup == old(showConfirmationPopup) &&
                currentPage == old(currentPage) + (if page > old(currentPage) - 1 then 1 else -1)
      ensures !old(Refused(page, now)) ==>
                intents == old(intents) +
                  (if props.scroll && props.hasUpdateScroll
                   then [EmptyIntent.(currentPage := Some(currentPage), event := Some(Paging))] else [])
      ensures !old(Refused(page, now)) && props.scroll ==> data == old(data) && selected == old(selected)
      ensures !old(Refused(page, now)) && !props.scroll ==> ShownConsistent() && data == filterData
    {
      NextPageExists(currentPage, Graph().pageSize, |props.data|);
      if page > currentPage - 1 {
        if IsScrollExpired(now) && !IsScrollDataExists(currentPage + 1) {
          showConfirmationPopup := true;
          return;
        }
        currentPage := currentPage + 1;
      } else {
        currentPage := currentPage - 1;
      }
      if props.scroll {
        UpdateTableStatus(EmptyIntent.(currentPage := Some(currentPage), event := Some(Paging)));
      } else {
        UpdateData();
      }
    }

    /** `handleClick`: with an `onMarkClick` callback and a shown row at
        `key`, the callback receives that row's raw record (`Some(None)` for
        `undefined`); `None` when it is not called. */
    function HandleClick(key: int): (call: Option<Option<Row>>)
      reads this`props, this`data, this`unformattedData
      ensures call.Some? <==> props.hasOnMarkClick && 0 <= key < |data|
      ensures call.Some? ==> call.value == RawRecord(data, unformattedData, key)
    {
      if props.hasOnMarkClick && 0 <= key < |data| then Some(RawRecord(data, unformattedData, key)) else None
    }

    /** `getSelectedRows` */
    method GetSelectedRows() returns (rows: seq<Option<Row>>)
      ensures rows == SelectedRows(props.data, Graph().pageSize, selectedRows)
      ensures |rows| == Count(selectedRows)
    {
      rows := CollectSelectedRows(props.data, Graph().pageSize, selectedRows);
      SelectedRowsCount(props.data, Graph().pageSize, selectedRows);
    }

    /** `handleRowSelection`: the current page's selection becomes the data
        indices of `allRows` without repeats. In single-select mode the first
        one is clicked and every other page's selection is dropped; otherwise
        the other pages keep theirs. With `onSelect`, the selected records are
        reported. */
    method HandleRowSelection(allRows: seq<int>) returns (click: Option<Option<Row>>, report: Option<SelectReport>)
      modifies this`selectedRows
      ensures Lookup(selectedRows, currentPage) == Some(Uniq(allRows))
      ensures NoDup(Lookup(selectedRows, currentPage).value)
      ensures forall q :: q != currentPage ==>
                Lookup(selectedRows, q) == if config.multiSelectable then Lookup(old(selectedRows), q) else None
      ensures click.Some? ==> !config.multiSelectable && |allRows| > 0 && click == HandleClick(allRows[0])
      ensures !config.multiSelectable && |allRows| > 0 ==> click == HandleClick(allRows[0])
      ensures report.Some? <==> config.hasOnSelect
      ensures report.Some? ==>
                report.value == Report(props.data, SelectedRows(props.data, Graph().pageSize, selectedRows),
                                       config.matchingRowColumn)
    {
      var list := DistinctIds(allRows);
      click := None;
      if !config.multiSelectable {
        if |list| > 0 {
          assert list[0] == allRows[0] by {
            assert allRows[0] in allRows[..1];
            UniqHead(allRows);
          }
          click := HandleClick(list[0]);
        }
        selectedRows := NoSelection;
      }
      ghost var before := selectedRows;
      selectedRows := Store(selectedRows, currentPage, list);
      forall q | q != currentPage
        ensures Lookup(selectedRows, q) == Lookup(before, q)
      {
        StoreLookup(before, currentPage, list, q);
      }
      StoreLookup(before, currentPage, list, currentPage);
      report := None;
      if config.hasOnSelect {
        var selectedData := GetSelectedRows();
        report := Some(Report(props.data, selectedData, config.matchingRowColumn));
      }
    }

    /** The de-duplicating loop of `handleRowSelection`: each id once, in
        order of first appearance. */
    method DistinctIds(allRows: seq<int>) returns (list: seq<int>)
      ensures list == Uniq(allRows)
    {
      list := [];
      var i := 0;
      while i < |allRows|
        invariant 0 <= i <= |allRows|
        invariant list == Uniq(allRows[..i])
      {
        assert allRows[..i + 1][..i] == allRows[..i];
        if allRows[i] !in list {
          list := list + [allRows[i]];
        }
        i := i + 1;
      }
      assert allRows[..|allRows|] == allRows;
    }

    /** `getMenu` */
    method GetMenu() returns (menu: Value)
      ensures menu == ChooseMenu(config.menu, config.multiMenu, Count(selectedRows))
    {
      var rows := GetSelectedRows();
      menu := ChooseMenu(config.menu, config.multiMenu, |rows|);
    }

    /** The refresh button and the confirmation's "Continue": reload from the
        first page with no selection. */
    method HandleRefresh()
      modifies this`intents
      ensures intents == old(intents) +
                (if props.hasUpdateScroll
                 then [EmptyIntent.(currentPage := Some(1), selectedRow := Some(NoSelection), event := Some(Refresh))]
                 else [])
    {
      UpdateTableStatus(EmptyIntent.(currentPage := Some(1), selectedRow := Some(NoSelection), event := Some(Refresh)));
    }

    /** The confirmation's "Stay on Current Page". */
    method StayOnPage()
      modifies this`showConfirmationPopup
      ensures !showConfirmationPopup
    {
      showConfirmationPopup := false;
    }
  }
}
