/** The class table: its instance fields, its React state, and the handlers
    that move them or send intents to the host through `updateScroll`. */
module TableLegacy {
  import opened Js
  import opened Seqs
  import opened TableCore
  import TableOrder

  /** The page size when the configuration sets no `limit`. */
  const DEFAULT_PAGE_SIZE := 500

  const NO_DATA := "No data to visualize"

  /** A list of column labels from `selectedColumns` or the context: an array,
      or (as a context value may be) a JSON string, which `indexOf` searches
      as text. */
  datatype ContextList = Labels(labels: seq<string>) | Json(text: string)

  /** `p` occurs in `t` at some position. */
  predicate IsSubstring(p: string, t: string) {
    exists i :: 0 <= i <= |t| - |p| && OccursAt(p, t, i)
  }

  predicate OccursAt(p: string, t: string, i: int) {
    0 <= i <= |t| - |p| && t[i..i + |p|] == p
  }

  /** `columnsContext.indexOf(d.label) > -1`. A missing label (`caption == ""`)
      is `undefined`: never in an array of strings, and the text `undefined`
      in a string. */
  predicate Listed(ctx: ContextList, c: Column) {
    match ctx
    case Labels(labels) => c.caption != "" && c.caption in labels
    case Json(text) => IsSubstring(if c.caption == "" then "undefined" else c.caption, text)
  }

  /** `columnsContext`: `selectedColumns` when given, else the context entry
      for the table's key when it is truthy, else `false` (`None`). */
  function ColumnsContext(selectedColumns: Option<seq<string>>, context: map<string, ContextList>,
                          key: string): (r: Option<ContextList>)
    ensures selectedColumns.Some? ==> r == Some(Labels(selectedColumns.value))
    ensures selectedColumns.None? && r.Some? ==> key in context && r.value == context[key]
    ensures selectedColumns.None? && key in context && context[key] != Json("") ==> r == Some(context[key])
    ensures r.Some? ==> r.value != Json("")
  {
    if selectedColumns.Some? then Some(Labels(selectedColumns.value))
    else if key in context && context[key] != Json("") then Some(context[key])
    else None
  }

  /** The filter of `updateColumn`. */
  function ContextVisible(ctx: Option<ContextList>): Column -> bool {
    c => if ctx.Some? then Listed(ctx.value, c) else c.display != Bool(false)
  }

  /** `Table.updateColumn`: with a column list, the configured columns whose
      label is in it; without one, those not configured `display: false`; in
      configured order. */
  function UpdateColumn(columns: seq<Column>, ctx: Option<ContextList>): (r: seq<Column>)
    ensures ctx.Some? ==> forall c :: c in r <==> c in columns && Listed(ctx.value, c)
    ensures ctx.None? ==> forall c :: c in r <==> c in columns && c.display != Bool(false)
    ensures |r| <= |columns|
  {
    Filter(columns, ContextVisible(ctx))
  }

  /** The filter of `initiate`: every column when the column selector is off,
      else the listed ones and those not configured `display: false`. */
  function InitiateVisible(ctx: Option<ContextList>, selectColumnOption: bool): Column -> bool {
    c => !selectColumnOption || (ctx.Some? && Listed(ctx.value, c)) || c.display != Bool(false)
  }

  function InitiateColumns(columns: seq<Column>, ctx: Option<ContextList>, selectColumnOption: bool): (r: seq<Column>)
    ensures !selectColumnOption ==> r == columns
    ensures forall c :: c in r <==>
              c in columns && (!selectColumnOption || (ctx.Some? && Listed(ctx.value, c)) || c.display != Bool(false))
  {
    var r := Filter(columns, InitiateVisible(ctx, selectColumnOption));
    if !selectColumnOption then
      FilterAll(columns, InitiateVisible(ctx, selectColumnOption));
      r
    else r
  }

  /** Every column `updateColumn` shows before the first data, `initiate`
      shows as well. */
  lemma {:induction false} InitiateKeepsUpdated(columns: seq<Column>, ctx: Option<ContextList>, selectColumnOption: bool, c: Column)
    requires c in UpdateColumn(columns, ctx)
    ensures c in InitiateColumns(columns, ctx, selectColumnOption)
  {
  }

  /** The filter keeps everything when every element passes. */
  lemma {:induction false} FilterAll<T(!new)>(s: seq<T>, p: T -> bool)
    requires forall x :: x in s ==> p(x)
    ensures Filter(s, p) == s
  {
    if |s| > 0 {
      assert s[0] in s;
      assert forall x :: x in s[1..] ==> x in s;
      FilterAll(s[1..], p);
    }
  }

  /** The props of the class table. `size` lives in `scrollData` here. */
  datatype TableProps = TableProps(
    data: seq<Row>, scroll: bool, scrollData: ScrollData, context: map<string, ContextList>,
    selectedColumns: Option<seq<string>>, configurationId: string,
    hasUpdateScroll: bool, hasOnMarkClick: bool, hasOnSelect: bool)

  /** The configured properties. A `limit` of 0 stands for a missing one. */
  datatype TableConfig = TableConfig(
    columns: seq<Column>, limit: int, selectColumnOption: bool, multiSelectable: bool,
    matchingRowColumn: string, menu: Value, multiMenu: Value)

  /** `getGraphProperties`: every figure comes from `scrollData` when it has
      the key, else from its default (the row count, the table's page size,
      page one). */
  function GetGraphProperties(props: TableProps, pageSize: int): (g: GraphProperties)
    ensures g.size == OrElse(props.scrollData.size, |props.data|)
    ensures g.pageSize == OrElse(props.scrollData.pageSize, pageSize)
    ensures g.currentPage == OrElse(props.scrollData.currentPage, 1)
    ensures g.searchString == props.scrollData.searchText && g.sort == props.scrollData.sort
    ensures g.expiration == props.scrollData.expiration
  {
    GraphProperties(
      props.scrollData.searchText, props.scrollData.sort, OrElse(props.scrollData.size, |props.data|),
      OrElse(props.scrollData.pageSize, pageSize), OrElse(props.scrollData.currentPage, 1),
      props.scrollData.expiration)
  }

  /** The projection window of `initiate`: all `size` rows, or in scroll mode
      the rows of the current page. */
  function Window(scroll: bool, g: GraphProperties): (w: (int, int))
    ensures !scroll ==> w == (0, g.size - 1)
    ensures scroll ==> w == (PageStart(g.currentPage, g.pageSize), PageEnd(g.currentPage, g.pageSize))
  {
    if scroll then
      var start := (g.currentPage - 1) * g.pageSize;
      (start, start + g.pageSize - 1)
    else (0, g.size - 1)
  }

  /** `renderNoData` */
  function NoDataMessage(data: seq<Row>): (m: Option<string>)
    ensures m.Some? <==> |data| == 0
    ensures m.Some? ==> m.value == NO_DATA
  {
    if |data| == 0 then Some(NO_DATA) else None
  }

  /** The header of one shown column. `columnField` is the column's index. */
  datatype Header = Header(
    name: nat, caption: string, columnField: nat, columnText: string,
    filter: bool, selection: bool, sortDirection: Option<string>)

  /** Some state column carries this column's label (`value === label`). */
  predicate InState(stateColumns: seq<Column>, c: Column) {
    exists s :: s in stateColumns && s.caption == c.caption
  }

  /** The indices of the configured columns that get a header. */
  function HeaderIndices(columns: seq<Column>, stateColumns: seq<Column>): (r: seq<nat>)
    ensures forall i, j :: 0 <= i < j < |r| ==> r[i] < r[j]
    ensures forall k :: k in r <==> 0 <= k < |columns| && InState(stateColumns, columns[k])
  {
    if |columns| == 0 then []
    else
      var init := columns[..|columns| - 1];
      var prev := HeaderIndices(init, stateColumns);
      assert forall k :: 0 <= k < |init| ==> init[k] == columns[k];
      assert forall i :: 0 <= i < |prev| ==> prev[i] < |init| by {
        forall i | 0 <= i < |prev|
          ensures prev[i] < |init|
        {
          assert prev[i] in prev;
        }
      }
      if InState(stateColumns, columns[|columns| - 1]) then prev + [|columns| - 1] else prev
  }

  /** The header of column `i`; the sort direction only on the table's own
      sorted column. */
  function HeaderOf(columns: seq<Column>, i: nat, sortOrder: Option<SortSpec>): Header
    requires i < |columns|
  {
    var c := columns[i];
    Header(i, Caption(c), i, if c.selection then "" else Caption(c), c.filter != Bool(false), c.selection,
           if sortOrder.Some? && sortOrder.value.column == c.column then Some(sortOrder.value.order) else None)
  }

  /** The loop of `getHeaderData`: the header of every configured column a
      state column carries, in configured order. */
  method CollectHeaders(all: seq<Column>, stateColumns: seq<Column>, sortOrder: Option<SortSpec>)
    returns (headers: seq<Header>)
    ensures |headers| == |HeaderIndices(all, stateColumns)|
    ensures forall k :: 0 <= k < |headers| ==>
              HeaderIndices(all, stateColumns)[k] < |all| &&
              headers[k] == HeaderOf(all, HeaderIndices(all, stateColumns)[k], sortOrder)
  {
    headers := [];
    var index := 0;
    while index < |all|
      invariant 0 <= index <= |all|
      invariant |headers| == |HeaderIndices(all[..index], stateColumns)|
      invariant forall k :: 0 <= k < |headers| ==>
                  HeaderIndices(all[..index], stateColumns)[k] < index &&
                  headers[k] == HeaderOf(all, HeaderIndices(all[..index], stateColumns)[k], sortOrder)
    {
      assert all[..index + 1][..index] == all[..index];
      ghost var prev := HeaderIndices(all[..index], stateColumns);
      assert HeaderIndices(all[..index + 1], stateColumns) ==
               if InState(stateColumns, all[index]) then prev + [index] else prev;
      if InState(stateColumns, all[index]) {
        headers := headers + [HeaderOf(all, index, sortOrder)];
      }
      index := index + 1;
    }
    assert all[..|all|] == all;
  }

  class Table {
    // Instance fields.
    const pageSize: int
    const scroll: bool
    var originalData: seq<Row>
    var filterData: seq<Row>
    var selectedRows: Selection
    var sortOrder: Option<SortSpec>
    var currentPage: int
    var unformattedData: map<int, Row>
    /** The id supply that stands in for `generateRandom`. */
    var nextRowId: int
    // React state.
    var selected: seq<int>
    var data: seq<Row>
    var columns: seq<Column>
    var showConfirmationPopup: bool
    // The current props and configured properties.
    var props: TableProps
    var config: TableConfig
    /** Every merge patch sent through `updateScroll`, oldest first. */
    var intents: seq<Intent>

    /** The constructor's fields and initial state. */
    constructor(props: TableProps, config: TableConfig)
      ensures pageSize == if config.limit != 0 then config.limit else DEFAULT_PAGE_SIZE
      ensures scroll == props.scroll
      ensures originalData == [] && filterData == [] && selectedRows == NoSelection && sortOrder.None?
      ensures selected == [] && data == [] && columns == [] && !showConfirmationPopup
      ensures this.props == props && this.config == config && intents == []
    {
      pageSize := if config.limit != 0 then config.limit else DEFAULT_PAGE_SIZE;
      scroll := props.scroll;
      originalData, filterData, selectedRows, sortOrder := [], [], NoSelection, None;
      currentPage, unformattedData, nextRowId := 1, map[], 0;
      selected, data, columns, showConfirmationPopup := [], [], [], false;
      this.props, this.config, intents := props, config, [];
    }

    /** New props from the host. */
    method ReceiveProps(props: TableProps)
      modifies this`props
      ensures this.props == props
    {
      this.props := props;
    }

    /** `getDerivedStateFromProps`: until the state has columns, they follow
        `updateColumn`. */
    method DeriveState()
      modifies this`columns
      ensures old(columns) == [] ==> columns == UpdateColumn(config.columns, Context())
      ensures old(columns) != [] ==> columns == old(columns)
    {
      if |columns| == 0 {
        columns := UpdateColumn(config.columns, Context());
      }
    }

    function Context(): Option<ContextList>
      reads this`props
    {
      ColumnsContext(props.selectedColumns, props.context, props.configurationId + "-columns")
    }

    function Graph(): GraphProperties
      reads this`props
    {
      GetGraphProperties(props, pageSize)
    }

    /** The state shows the selection stored for the current page. */
    predicate ShownConsistent()
      reads this`selected, this`selectedRows, this`currentPage
    {
      selected == Shown(selectedRows, currentPage)
    }

    /** `updateTableStatus` */
    method UpdateTableStatus(patch: Intent)
      modifies this`intents
      ensures intents == old(intents) + (if props.hasUpdateScroll then [patch] else [])
    {
      if props.hasUpdateScroll {
        intents := intents + [patch];
      }
    }

    /** `resetFilters(page, selectedRows)` */
    method ResetFilters(page: int, sel: Selection)
      modifies this`currentPage, this`selectedRows
      ensures currentPage == page && selectedRows == sel
    {
      currentPage, selectedRows := page, sel;
    }

    /** `updateData(columns)`: show the filtered rows, the current page's
        selection and the given columns. */
    method UpdateData(shownColumns: seq<Column>)
      modifies this`data, this`selected, this`columns
      ensures data == filterData && columns == shownColumns && ShownConsistent()
    {
      data, selected, columns := filterData, Shown(selectedRows, currentPage), shownColumns;
    }

    /** The rows of `props.data` are loaded under the ids from `firstId` on:
        one projected row each (with fields only inside `[start, end]`), kept
        as the original data too; the side table leads every id back to its
        raw row and has no other ids. */
    ghost predicate Loaded(firstId: int, start: int, end: int)
      reads this`filterData, this`unformattedData, this`originalData, this`props, this`config
    {
      |filterData| == |props.data| && originalData == filterData &&
      (forall i :: 0 <= i < |props.data| ==>
         filterData[i] == Projected(props.data[i], config.columns, config.matchingRowColumn, firstId + i,
                                    start <= i <= end)) &&
      (forall id :: id in unformattedData <==> firstId <= id < firstId + |props.data|) &&
      (forall i :: 0 <= i < |props.data| ==> unformattedData[firstId + i] == props.data[i])
    }

    /** The projection loop of `initiate`. */
    method LoadRows(start: int, end: int)
      modifies this`filterData, this`unformattedData, this`nextRowId, this`originalData
      ensures nextRowId == old(nextRowId) + |props.data|
      ensures Loaded(old(nextRowId), start, end)
    {
      var rows, side := ProjectRows(props.data, config.columns, config.matchingRowColumn, start, end, nextRowId);
      filterData, unformattedData := rows, side;
      nextRowId := nextRowId + |props.data|;
      originalData := filterData;
    }

    /** The scroll-mode start of `initiate`: the host's stored selection, and
        a request for the page size when the host lacks it. */
    method TakeScrollState()
      modifies this`selectedRows, this`intents
      ensures intents == old(intents) +
                (if props.scroll && props.scrollData.pageSize.None? && props.hasUpdateScroll
                 then [EmptyIntent.(pageSize := Some(pageSize))] else [])
      ensures selectedRows == if props.scroll then OrElse(props.scrollData.selectedRows, NoSelection)
                              else old(selectedRows)
    {
      if props.scroll {
        selectedRows := OrElse(props.scrollData.selectedRows, NoSelection);
        if props.scrollData.pageSize.None? {
          UpdateTableStatus(EmptyIntent.(pageSize := Some(pageSize)));
        }
      }
    }

    /** `initiate`: with columns configured, load the rows with fields inside
        the window, reset to the host's page, and show the rows with the
        columns the selector and the context let through. */
    method Initiate()
      modifies this`selectedRows, this`intents, this`filterData, this`unformattedData, this`nextRowId,
               this`originalData, this`currentPage, this`data, this`selected, this`columns
      ensures intents == old(intents) +
                (if props.scroll && props.scrollData.pageSize.None? && props.hasUpdateScroll
                 then [EmptyIntent.(pageSize := Some(pageSize))] else [])
      ensures selectedRows == if props.scroll then OrElse(props.scrollData.selectedRows, NoSelection)
                              else old(selectedRows)
      ensures |config.columns| == 0 ==>
                filterData == old(filterData) && data == old(data) && columns == old(columns) &&
                currentPage == old(currentPage) && selected == old(selected) &&
                originalData == old(originalData) && unformattedData == old(unformattedData) &&
                nextRowId == old(nextRowId)
      ensures |config.columns| > 0 ==>
                Loaded(old(nextRowId), Window(props.scroll, Graph()).0, Window(props.scroll, Graph()).1)
      ensures |config.columns| > 0 ==>
                currentPage == (if Graph().currentPage != 0 then Graph().currentPage else 1) &&
                ShownConsistent() && data == filterData &&
                columns == ShownColumns()
    {
      var g := Graph();
      var w := Window(props.scroll, g);
      TakeScrollState();
      if |config.columns| == 0 {
        return;
      }
      LoadAndShow(w.0, w.1, if g.currentPage != 0 then g.currentPage else 1, ShownColumns());
    }

    /** The second half of `initiate`: load the rows, then show them from
        the given page with the given columns. */
    method LoadAndShow(start: int, end: int, page: int, shown: seq<Column>)
      modifies this`filterData, this`unformattedData, this`nextRowId, this`originalData,
               this`currentPage, this`selectedRows, this`data, this`selected, this`columns
      ensures Loaded(old(nextRowId), start, end)
      ensures selectedRows == old(selectedRows)
      ensures currentPage == page && ShownConsistent() && data == filterData && columns == shown
    {
      LoadRows(start, end);
      ResetFilters(page, selectedRows);
      UpdateData(shown);
    }

    /** The columns `initiate` shows. */
    function ShownColumns(): seq<Column>
      reads this`props, this`config
    {
      InitiateColumns(config.columns, Context(), config.selectColumnOption)
    }

    /** `isScrollExpired`, with `Date.now()` passed in; it reads the scroll
        flag the constructor kept. */
    function IsScrollExpired(now: int): bool
      reads this`props
    {
      Expired(scroll, Graph().expiration, now)
    }

    /** `isScrollDataExists` */
    function IsScrollDataExists(page: int): bool
      reads this`props
    {
      DataExists(page, Graph().pageSize, |props.data|)
    }

    /** `handleSearch` as written: the plain search shows the rows before it
        resets page and selection, so the shown selection is the one of the
        page left behind. */
    method HandleSearchAsWritten(rows: seq<Row>, isSuccess: bool, expression: Value, search: Value,
                                 searchText: Option<string>)
      modifies this`filterData, this`data, this`selected, this`columns, this`currentPage, this`selectedRows,
               this`intents
      ensures !isSuccess ==> filterData == old(filterData) && intents == old(intents) &&
                             currentPage == old(currentPage) && selectedRows == old(selectedRows) &&
                             data == old(data) && selected == old(selected) && columns == old(columns)
      ensures isSuccess ==> filterData == rows
      ensures isSuccess && Truthy(expression) ==>
                currentPage == old(currentPage) && selectedRows == old(selectedRows) &&
                data == old(data) && selected == old(selected) && columns == old(columns) &&
                intents == old(intents) +
                  (if props.hasUpdateScroll &&
                      (searchText.None? || searchText.value == "" || Graph().searchString != searchText)
                   then [EmptyIntent.(search := Some(search), searchText := Some(searchText),
                                      selectedRows := Some(NoSelection), currentPage := Some(1), event := Some(Search))]
                   else [])
      ensures isSuccess && !Truthy(expression) ==>
                currentPage == 1 && selectedRows == NoSelection && intents == old(intents) &&
                data == rows && columns == old(columns) && selected == Shown(old(selectedRows), old(currentPage))
    {
      if isSuccess {
        if Truthy(expression) {
          var searchString := Graph().searchString;
          filterData := rows;
          if searchText.None? || searchText.value == "" || searchString != searchText {
            UpdateTableStatus(EmptyIntent.(search := Some(search), searchText := Some(searchText),
                                           selectedRows := Some(NoSelection), currentPage := Some(1), event := Some(Search)));
          }
        } else {
          filterData := rows;
          UpdateData(columns);
          ResetFilters(1, NoSelection);
        }
      }
    }

    /** `handleSearch` with the plain search resetting page and selection
        before it shows the rows. */
    method HandleSearch(rows: seq<Row>, isSuccess: bool, expression: Value, search: Value,
                        searchText: Option<string>)
      modifies this`filterData, this`data, this`selected, this`columns, this`currentPage, this`selectedRows,
               this`intents
      ensures !isSuccess ==> filterData == old(filterData) && intents == old(intents) &&
                             currentPage == old(currentPage) && selectedRows == old(selectedRows) &&
                             data == old(data) && selected == old(selected) && columns == old(columns)
      ensures isSuccess ==> filterData == rows
      ensures isSuccess && Truthy(expression) ==>
                currentPage == old(currentPage) && selectedRows == old(selectedRows) &&
                data == old(data) && selected == old(selected) && columns == old(columns) &&
                intents == old(intents) +
                  (if props.hasUpdateScroll &&
                      (searchText.None? || searchText.value == "" || Graph().searchString != searchText)
                   then [EmptyIntent.(search := Some(search), searchText := Some(searchText),
                                      selectedRows := Some(NoSelection), currentPage := Some(1), event := Some(Search))]
                   else [])
      ensures isSuccess && !Truthy(expression) ==>
                currentPage == 1 && selectedRows == NoSelection && intents == old(intents) &&
                data == rows && columns == old(columns) && ShownConsistent() && selected == []
    {
      if isSuccess {
        if Truthy(expression) {
          var searchString := Graph().searchString;
          filterData := rows;
          if searchText.None? || searchText.value == "" || searchString != searchText {
            UpdateTableStatus(EmptyIntent.(search := Some(search), searchText := Some(searchText),
                                           selectedRows := Some(NoSelection), currentPage := Some(1), event := Some(Search)));
          }
        } else {
          filterData := rows;
          ResetFilters(1, NoSelection);
          UpdateData(columns);
        }
      }
    }

    /** `getHeaderData`: one header per configured column whose label a state
        column carries, in configured order. */
    method GetHeaderData() returns (headers: seq<Header>)
      ensures |headers| == |HeaderIndices(config.columns, columns)|
      ensures forall k :: 0 <= k < |headers| ==>
                HeaderIndices(config.columns, columns)[k] < |config.columns| &&
                headers[k] == HeaderOf(config.columns, HeaderIndices(config.columns, columns)[k], sortOrder)
      ensures forall k :: 0 <= k < |headers| ==>
                headers[k].name < |config.columns| &&
                (headers[k].sortDirection.Some? <==>
                   sortOrder.Some? && sortOrder.value.column == config.columns[headers[k].name].column)
    {
      headers := CollectHeaders(config.columns, columns, sortOrder);
      forall k | 0 <= k < |headers|
        ensures headers[k].name < |config.columns|
        ensures headers[k].sortDirection.Some? <==>
                  sortOrder.Some? && sortOrder.value.column == config.columns[headers[k].name].column
      {
        assert headers[k].name == HeaderIndices(config.columns, columns)[k];
      }
    }

    /** `handleScrollSorting`: one SORTING patch with the toggled order of the
        host's sort, page one and no selection; nothing local changes. */
    method HandleScrollSorting(column: string)
      modifies this`intents
      ensures intents == old(intents) +
                (if props.hasUpdateScroll
                 then [EmptyIntent.(sort := Some(SortSpec(column, NextOrder(Graph().sort, column))),
                                    currentPage := Some(1), selectedRows := Some(NoSelection), event := Some(Sorting))]
                 else [])
    {
      var sort := Graph().sort;
      var colOrder := ASC;
      if sort.Some? && sort.value.column == column {
        colOrder := if sort.value.order == DESC then ASC else DESC;
      }
      UpdateTableStatus(EmptyIntent.(sort := Some(SortSpec(column, colOrder)),
                                     currentPage := Some(1), selectedRows := Some(NoSelection), event := Some(Sorting)));
    }

    /** `handleStaticSorting`: the table's own sort moves to `column` with the
        toggled order, the filtered rows are stably sorted by it, and page and
        selection are reset before showing them. */
    method HandleStaticSorting(column: string)
      modifies this`sortOrder, this`filterData, this`currentPage, this`selectedRows, this`data, this`selected,
               this`columns
      ensures sortOrder == Some(SortSpec(column, NextOrder(old(sortOrder), column)))
      ensures filterData == TableOrder.OrderBy(old(filterData), column, sortOrder.value.order)
      ensures multiset(filterData) == multiset(old(filterData))
      ensures TableOrder.Sorted(filterData, column, sortOrder.value.order)
      ensures currentPage == 1 && selectedRows == NoSelection && ShownConsistent()
      ensures data == filterData && columns == old(columns)
    {
      var colOrder := ASC;
      if sortOrder.Some? && sortOrder.value.column == column {
        colOrder := if sortOrder.value.order == DESC then ASC else DESC;
      }
      sortOrder := Some(SortSpec(column, colOrder));
      TableOrder.OrderBySortedPermutation(filterData, column, colOrder);
      filterData := TableOrder.OrderBy(filterData, column, colOrder);
      ResetFilters(1, NoSelection);
      UpdateData(columns);
    }

    /** `handleSortOrderChange(data, column, order)`: the column index is
        `column` when an order is given, else `data`; sorted through the host
        in scroll mode, locally otherwise. */
    method HandleSortOrderChange(dataIndex: int, column: int, order: Value)
      requires var index := if Truthy(order) then column else dataIndex; 0 <= index < |config.columns|
      modifies this`intents, this`sortOrder, this`filterData, this`currentPage, this`selectedRows, this`data,
               this`selected, this`columns
      ensures var name := config.columns[if Truthy(order) then column else dataIndex].column;
              scroll ==>
                intents == old(intents) +
                  (if props.hasUpdateScroll
                   then [EmptyIntent.(sort := Some(SortSpec(name, NextOrder(Graph().sort, name))),
                                      currentPage := Some(1), selectedRows := Some(NoSelection), event := Some(Sorting))]
                   else []) &&
                filterData == old(filterData) && sortOrder == old(sortOrder) && currentPage == old(currentPage) &&
                selectedRows == old(selectedRows) && data == old(data) && selected == old(selected) &&
                columns == old(columns)
      ensures var name := config.columns[if Truthy(order) then column else dataIndex].column;
              !scroll ==>
                intents == old(intents) && sortOrder == Some(SortSpec(name, NextOrder(old(sortOrder), name))) &&
                filterData == TableOrder.OrderBy(old(filterData), name, sortOrder.value.order) &&
                multiset(filterData) == multiset(old(filterData)) &&
                TableOrder.Sorted(filterData, name, sortOrder.value.order) &&
                currentPage == 1 && selectedRows == NoSelection && ShownConsistent() &&
                data == filterData && columns == old(columns)
    {
      var name := config.columns[if Truthy(order) then column else dataIndex].column;
      if scroll {
        HandleScrollSorting(name);
      } else {
        HandleStaticSorting(name);
      }
    }

    /** A forward click that the expired scroll cannot serve from the
        resident rows. */
    predicate Refused(page: int, now: int)
      reads this`props, this`currentPage
    {
      page > currentPage - 1 && IsScrollExpired(now) && currentPage * Graph().pageSize >= |props.data|
    }

    /** `handlePageClick`: one page on or back, unless a forward click is
        refused, which only opens the confirmation. A move is sent to the host
        in scroll mode and shown otherwise. */
    method HandlePageClick(page: int, now: int)
      modifies this`currentPage, this`showConfirmationPopup, this`intents, this`data, this`selected, this`columns
      ensures old(Refused(page, now)) ==>
                currentPage == old(currentPage) && showConfirmationPopup && intents == old(intents) &&
                data == old(data) && selected == old(selected) && columns == old(columns)
      ensures !old(Refused(page, now)) ==>
                showConfirmationPopup == old(showConfirmationPopup) &&
                currentPage == old(currentPage) + (if page > old(currentPage) - 1 then 1 else -1)
      ensures !old(Refused(page, now)) ==>
                intents == old(intents) +
                  (if scroll && props.hasUpdateScroll
                   then [EmptyIntent.(currentPage := Some(currentPage), event := Some(Paging))] else [])
      ensures !old(Refused(page, now)) && scroll ==>
                data == old(data) && selected == old(selected) && columns == old(columns)
      ensures !old(Refused(page, now)) && !scroll ==> ShownConsistent() && data == filterData &&
                                                      columns == old(columns)
    {
      NextPageExists(currentPage, Graph().pageSize, |props.data|);
      if page > currentPage - 1 {
        if IsScrollExpired(now) && !IsScrollDataExists(currentPage + 1) {
          showConfirmationPopup := true;
          return;
        }
        currentPage := currentPage + 1;
      } else {
        currentPage := currentPage - 1;
      }
      if scroll {
        UpdateTableStatus(EmptyIntent.(currentPage := Some(currentPage), event := Some(Paging)));
      } else {
        UpdateData(columns);
      }
    }

    /** `handleClick`: with `onMarkClick` and a shown row at `key`, the
        callback receives that row's raw record; `None` when it is not called. */
    function HandleClick(key: int): (call: Option<Option<Row>>)
      reads this`props, this`data, this`unformattedData
      ensures call.Some? <==> props.hasOnMarkClick && 0 <= key < |data|
      ensures call.Some? ==> call.value == RawRecord(data, unformattedData, key)
    {
      if props.hasOnMarkClick && 0 <= key < |data| then Some(RawRecord(data, unformattedData, key)) else None
    }

    /** `getSelectedRows` */
    method GetSelectedRows() returns (rows: seq<Option<Row>>)
      ensures rows == SelectedRows(props.data, Graph().pageSize, selectedRows)
      ensures |rows| == Count(selectedRows)
    {
      rows := CollectSelectedRows(props.data, Graph().pageSize, selectedRows);
      SelectedRowsCount(props.data, Graph().pageSize, selectedRows);
    }

    /** The selection step of `handleRowSelection`: single-select mode first
        drops every page's selection, then `list` becomes the current page's. */
    method SelectOnPage(list: seq<int>)
      modifies this`selectedRows
      ensures Lookup(selectedRows, currentPage) == Some(list)
      ensures forall q :: q != currentPage ==>
                Lookup(selectedRows, q) == if config.multiSelectable then Lookup(old(selectedRows), q) else None
    {
      if !config.multiSelectable {
        selectedRows := NoSelection;
      }
      ghost var before := selectedRows;
      selectedRows := Store(selectedRows, currentPage, list);
      forall q | q != currentPage
        ensures Lookup(selectedRows, q) == Lookup(before, q)
      {
        StoreLookup(before, currentPage, list, q);
      }
      StoreLookup(before, currentPage, list, currentPage);
    }

    /** `handleRowSelection`: only the first reported row is kept, as the
        current page's selection, and shown. In single-select mode it is
        clicked and every other page's selection is dropped. With `onSelect`
        the selected records are reported; in scroll mode the selection is
        sent to the host. */
    method HandleRowSelection(currentSelectedRow: seq<int>) returns (click: Option<Option<Row>>, report: Option<SelectReport>)
      requires |currentSelectedRow| > 0
      modifies this`selectedRows, this`selected, this`intents
      ensures Lookup(selectedRows, currentPage) == Some([currentSelectedRow[0]])
      ensures forall q :: q != currentPage ==>
                Lookup(selectedRows, q) == if config.multiSelectable then Lookup(old(selectedRows), q) else None
      ensures selected == [currentSelectedRow[0]] && ShownConsistent()
      ensures click == if config.multiSelectable then None else HandleClick(currentSelectedRow[0])
      ensures report.Some? <==> props.hasOnSelect
      ensures report.Some? ==>
                report.value == Report(props.data, SelectedRows(props.data, Graph().pageSize, selectedRows),
                                       config.matchingRowColumn)
      ensures intents == old(intents) +
                (if scroll && props.hasUpdateScroll then [EmptyIntent.(selectedRows := Some(selectedRows))] else [])
    {
      var list := [currentSelectedRow[0]];
      click := None;
      if !config.multiSelectable {
        click := HandleClick(list[0]);
      }
      SelectOnPage(list);
      selected := Shown(selectedRows, currentPage);
      report := ReportSelection();
    }

    /** The tail of `handleRowSelection`: report the selected records to
        `onSelect`, and in scroll mode send the selection to the host. */
    method ReportSelection() returns (report: Option<SelectReport>)
      modifies this`intents
      ensures report.Some? <==> props.hasOnSelect
      ensures report.Some? ==>
                report.value == Report(props.data, SelectedRows(props.data, Graph().pageSize, selectedRows),
                                       config.matchingRowColumn)
      ensures intents == old(intents) +
                (if scroll && props.hasUpdateScroll then [EmptyIntent.(selectedRows := Some(selectedRows))] else [])
    {
      report := None;
      if props.hasOnSelect {
        var selectedData := GetSelectedRows();
        report := Some(Report(props.data, selectedData, config.matchingRowColumn));
      }
      if scroll {
        UpdateTableStatus(EmptyIntent.(selectedRows := Some(selectedRows)));
      }
    }

    /** `getMenu` */
    method GetMenu() returns (menu: Value)
      ensures menu == ChooseMenu(config.menu, config.multiMenu, Count(selectedRows))
    {
      var rows := GetSelectedRows();
      menu := ChooseMenu(config.menu, config.multiMenu, |rows|);
    }

    /** The refresh button and the confirmation's "Continue". */
    method HandleRefresh()
      modifies this`intents
      ensures intents == old(intents) +
                (if props.hasUpdateScroll
                 then [EmptyIntent.(currentPage := Some(1), selectedRows := Some(NoSelection), event := Some(Refresh))]
                 else [])
    {
      UpdateTableStatus(EmptyIntent.(currentPage := Some(1), selectedRows := Some(NoSelection), event := Some(Refresh)));
    }

    /** The confirmation's "Stay on Current Page". */
    method StayOnPage()
      modifies this`showConfirmationPopup
      ensures !showConfirmationPopup
    {
      showConfirmationPopup := false;
    }
  }
}
