/** What the two tables share: the column configuration, the per-page
    selection store, the scroll data handed down by the host and the intents
    sent back to it, the paging window, row projection, selected and matching
    rows, and the sort toggle. */
module TableCore {
  import opened Js
  import opened Seqs

  /** The value of a `displayOption` entry: a string, an array, or anything
      else (which never matches). */
  datatype RuleValue = Text(s: string) | Values(vs: seq<Value>) | OtherRule

  /** One `key: value` entry of a column's `displayOption`, in key order. */
  datatype DisplayRule = DisplayRule(key: string, value: RuleValue)

  /** A configured column. An empty `caption` (the `label` key) stands for a missing one; a
      `displayOption` object, even an empty one, is `Some`. */
  datatype Column = Column(
    column: string, caption: string, display: Value,
    displayOption: Option<seq<DisplayRule>>, tooltip: Option<string>,
    selection: bool, filter: Value)

  /** `column.label || column.column` */
  function Caption(c: Column): string {
    if c.caption != "" then c.caption else c.column
  }

  /** The sort order the host reports, or the table keeps. */
  datatype SortSpec = SortSpec(column: string, order: string)

  const ASC := "asc"
  const DESC := "desc"

  /** The shared toggle rule of both sort paths: a different column starts
      ascending; the same column flips `desc` to `asc` and anything else to
      `desc`. */
  function NextOrder(current: Option<SortSpec>, column: string): (order: string)
    ensures order == ASC || order == DESC
    ensures (current.None? || current.value.column != column) ==> order == ASC
    ensures current.Some? && current.value.column == column ==> (order == ASC <==> current.value.order == DESC)
  {
    if current.Some? && current.value.column == column then
      (if current.value.order == DESC then ASC else DESC)
    else ASC
  }

  /** Clicking the same column twice returns to the order it had. */
  lemma {:induction false} NextOrderTwice(column: string, order: string)
    requires order == ASC || order == DESC
    ensures NextOrder(Some(SortSpec(column, NextOrder(Some(SortSpec(column, order)), column))), column) == order
  {
  }

  /** The intent kinds of `events`. */
  datatype Event = Search | Sorting | Paging | Refresh

  /** The row indices selected on one page. */
  datatype PageSelection = PageSelection(page: int, indices: seq<int>)

  predicate PagesAscending(s: seq<PageSelection>) {
    forall i, j :: 0 <= i < j < |s| ==> s[i].page < s[j].page
  }

  /** The `selectedRows` object: page number to selected indices. A JavaScript
      object enumerates integer keys in ascending order, so the store is a
      list ascending by page. */
  type Selection = s: seq<PageSelection> | PagesAscending(s) witness []

  const NoSelection: Selection := []

  /** `selectedRows[page]` */
  function Lookup(sel: Selection, page: int): (r: Option<seq<int>>)
    ensures r.Some? <==> exists k :: 0 <= k < |sel| && sel[k].page == page
    ensures forall k :: 0 <= k < |sel| && sel[k].page == page ==> r == Some(sel[k].indices)
  {
    if |sel| == 0 then None
    else if sel[0].page == page then Some(sel[0].indices)
    else
      var rest: Selection := sel[1..];
      var r := Lookup(rest, page);
      assert forall k :: 1 <= k < |sel| ==> sel[k] == rest[k - 1];
      r
  }

  /** `selectedRows[page] = indices` */
  function Store(sel: Selection, page: int, indices: seq<int>): (r: Selection)
    ensures forall k :: 0 <= k < |r| ==> r[k].page == page || r[k] in sel
    ensures |r| == |sel| || |r| == |sel| + 1
  {
    if |sel| == 0 then [PageSelection(page, indices)]
    else if page < sel[0].page then [PageSelection(page, indices)] + sel
    else if page == sel[0].page then [PageSelection(page, indices)] + sel[1..]
    else
      var rest := Store(sel[1..], page, indices);
      assert forall k :: 0 <= k < |rest| ==> sel[0].page < rest[k].page by {
        forall k | 0 <= k < |rest| ensures sel[0].page < rest[k].page {
          if rest[k].page != page {
            var m :| 0 <= m < |sel[1..]| && sel[1..][m] == rest[k];
            assert sel[m + 1] == rest[k];
          }
        }
      }
      [sel[0]] + rest
  }

  /** Storing a page's selection replaces that page and leaves every other
      page as it was. */
  lemma {:induction false} StoreLookup(sel: Selection, page: int, indices: seq<int>, q: int)
    ensures Lookup(Store(sel, page, indices), q) == if q == page then Some(indices) else Lookup(sel, q)
  {
    if |sel| > 0 && page > sel[0].page {
      var rest: Selection := sel[1..];
      StoreLookup(rest, page, indices, q);
      var r := Store(sel, page, indices);
      assert r == [sel[0]] + Store(rest, page, indices);
      if q != sel[0].page {
        assert Lookup(r, q) == Lookup(Store(rest, page, indices), q);
        assert Lookup(sel, q) == Lookup(rest, q);
      }
    } else if |sel| > 0 && page == sel[0].page && q != page {
      var rest: Selection := sel[1..];
      var r := Store(sel, page, indices);
      assert r[1..] == rest;
      assert Lookup(r, q) == Lookup(rest, q);
    } else if |sel| > 0 && page < sel[0].page && q != page {
      var r := Store(sel, page, indices);
      assert r[1..] == sel;
    }
  }

  /** The selection a page shows: `selectedRows[page] || []` (an array, even an
      empty one, is truthy). */
  function Shown(sel: Selection, page: int): (r: seq<int>)
    ensures Lookup(sel, page).Some? ==> r == Lookup(sel, page).value
    ensures Lookup(sel, page).None? ==> r == []
  {
    match Lookup(sel, page)
    case Some(indices) => indices
    case None => []
  }

  /** The `scrollData` the host passes down; `None` is a missing key. The
      hooks table keeps the selection per request id under `selectedRow`, the
      class table under `selectedRows`. */
  datatype ScrollData = ScrollData(
    searchText: Option<string>, sort: Option<SortSpec>, size: Option<int>,
    pageSize: Option<int>, currentPage: Option<int>, expiration: Option<int>,
    selectedRows: Option<Selection>, selectedRow: Option<map<string, Selection>>,
    removedColumns: Option<seq<nat>>)

  /** The figures `getGraphProperties` reads from `scrollData`, with their
      defaults. */
  datatype GraphProperties = GraphProperties(
    searchString: Option<string>, sort: Option<SortSpec>, size: int,
    pageSize: int, currentPage: int, expiration: Option<int>)

  /** `objectPath.has(o, key) ? objectPath.get(o, key) : fallback` */
  function OrElse<T>(o: Option<T>, fallback: T): (r: T)
    ensures o.Some? ==> r == o.value
    ensures o.None? ==> r == fallback
  {
    if o.Some? then o.value else fallback
  }

  /** A merge patch sent to the host through `updateScroll`; `None` fields are
      absent. `searchText` may be sent as `null` (`Some(None)`). */
  datatype Intent = Intent(
    event: Option<Event>, search: Option<Value>, searchText: Option<Option<string>>,
    sort: Option<SortSpec>, currentPage: Option<int>, pageSize: Option<int>,
    selectedRows: Option<Selection>, selectedRow: Option<Selection>)

  const EmptyIntent := Intent(None, None, None, None, None, None, None, None)

  /** `scroll && expiration && expiration <= Date.now()`, with the clock passed in. */
  function Expired(scroll: bool, expiration: Option<int>, now: int): (r: bool)
    ensures r <==> scroll && expiration.Some? && expiration.value != 0 && expiration.value <= now
  {
    scroll && expiration.Some? && expiration.value != 0 && expiration.value <= now
  }

  /** `(page - 1) * pageSize < data.length`: the page starts inside the
      resident data. */
  function DataExists(page: int, pageSize: int, count: nat): bool {
    (page - 1) * pageSize < count
  }

  /** The next page starts inside the resident data exactly when the rows
      read so far do not exhaust it. */
  lemma {:induction false} NextPageExists(currentPage: int, pageSize: int, count: nat)
    ensures DataExists(currentPage + 1, pageSize, count) <==> currentPage * pageSize < count
  {
    assert (currentPage + 1 - 1) * pageSize == currentPage * pageSize;
  }

  /** The first and last row index of a page: `(page - 1) * pageSize` and
      `start + pageSize - 1`. */
  function PageStart(page: int, pageSize: int): int {
    (page - 1) * pageSize
  }

  function PageEnd(page: int, pageSize: int): int {
    PageStart(page, pageSize) + pageSize - 1
  }

  /** The windows of the pages tile the rows: row `i` lies in the window of
      page `i / pageSize + 1` and of no other page. */
  lemma {:induction false} PageWindows(i: nat, pageSize: int, page: int)
    requires pageSize >= 1
    ensures PageStart(i / pageSize + 1, pageSize) <= i <= PageEnd(i / pageSize + 1, pageSize)
    ensures PageStart(page, pageSize) <= i <= PageEnd(page, pageSize) ==> page == i / pageSize + 1
  {
    var q, r := i / pageSize, i % pageSize;
    assert i == q * pageSize + r && 0 <= r < pageSize;
    assert PageStart(q + 1, pageSize) == q * pageSize;
    if PageStart(page, pageSize) <= i <= PageEnd(page, pageSize) {
      var d := page - 1 - q;
      assert PageStart(page, pageSize) == q * pageSize + d * pageSize;
      MulBelow(d, pageSize);
      assert (-d) * pageSize == -(d * pageSize);
      MulBelow(-d, pageSize);
    }
  }

  lemma {:induction false} MulBelow(d: int, n: int)
    requires n >= 1 && d * n < n
    ensures d < 1
  {
    if d >= 1 {
      MulAtLeast(d, n);
    }
  }

  lemma {:induction false} MulAtLeast(d: int, n: int)
    requires d >= 1 && n >= 1
    ensures d * n >= n
  {
  }

  /** The keys one column adds: itself, its tooltip column when that is not
      among the columns, and the matching-row column when it is configured and
      not among the columns. */
  function AddedKeys(c: Column, names: seq<string>, matchingRowColumn: string): set<string> {
    {c.column} +
    (if c.tooltip.Some? && c.tooltip.value !in names then {c.tooltip.value} else {}) +
    (if matchingRowColumn != "" && matchingRowColumn !in names then {matchingRowColumn} else {})
  }

  /** The keys `initiate` fills for every projected row. */
  function FieldKeys(columns: seq<Column>, names: seq<string>, matchingRowColumn: string): set<string> {
    if |columns| == 0 then {}
    else FieldKeys(columns[..|columns| - 1], names, matchingRowColumn) +
         AddedKeys(columns[|columns| - 1], names, matchingRowColumn)
  }

  /** `columns.map(d => d.column)` */
  function ColumnNames(columns: seq<Column>): (r: seq<string>)
    ensures |r| == |columns| && forall i :: 0 <= i < |r| ==> r[i] == columns[i].column
  {
    seq(|columns|, i requires 0 <= i < |columns| => columns[i].column)
  }

  const ROW_ID := "row_id"

  /** `row` with the raw row's values written under `keys`. */
  function WithFields(row: Row, d: Row, keys: set<string>): Row {
    row + map k | k in keys :: Get(d, k)
  }

  /** A projected row: `row_id`, overwritten by a column of that name, and
      the values of the field keys when the row lies in the window. */
  function Projected(d: Row, columns: seq<Column>, matchingRowColumn: string, id: int, inWindow: bool): Row {
    WithFields(map[ROW_ID := Num(id)], d,
               if inWindow then FieldKeys(columns, ColumnNames(columns), matchingRowColumn) else {})
  }

  /** Writing one more field is the same as projecting one more key. */
  lemma {:induction false} WithFieldsPut(row: Row, d: Row, keys: set<string>, k: string)
    ensures WithFields(row, d, keys)[k := Get(d, k)] == WithFields(row, d, keys + {k})
  {
  }

  /** The `for (let key in columns)` loop of `initiate` for one raw row. */
  method ProjectFields(d: Row, columns: seq<Column>, names: seq<string>, matchingRowColumn: string,
                       row: Row) returns (r: Row)
    ensures r == WithFields(row, d, FieldKeys(columns, names, matchingRowColumn))
  {
    r := row;
    var i := 0;
    while i < |columns|
      invariant 0 <= i <= |columns|
      invariant r == WithFields(row, d, FieldKeys(columns[..i], names, matchingRowColumn))
    {
      assert FieldKeys(columns[..i + 1], names, matchingRowColumn) ==
             FieldKeys(columns[..i], names, matchingRowColumn) + AddedKeys(columns[i], names, matchingRowColumn) by {
        assert columns[..i + 1][..i] == columns[..i];
      }
      r := ProjectColumn(d, columns[i], names, matchingRowColumn, row, FieldKeys(columns[..i], names, matchingRowColumn), r);
      i := i + 1;
    }
    assert columns[..|columns|] == columns;
  }

  /** One pass of that loop: the column's field, its tooltip field and the
      matching-row field, each copied from the raw row. */
  method ProjectColumn(d: Row, c: Column, names: seq<string>, matchingRowColumn: string,
                       ghost row: Row, ghost keys: set<string>, r0: Row) returns (r: Row)
    requires r0 == WithFields(row, d, keys)
    ensures r == WithFields(row, d, keys + AddedKeys(c, names, matchingRowColumn))
  {
    ghost var ks := keys;
    r := r0[c.column := Get(d, c.column)];
    WithFieldsPut(row, d, ks, c.column);
    ks := ks + {c.column};
    if c.tooltip.Some? && c.tooltip.value !in names {
      r := r[c.tooltip.value := Get(d, c.tooltip.value)];
      WithFieldsPut(row, d, ks, c.tooltip.value);
      ks := ks + {c.tooltip.value};
    }
    if matchingRowColumn != "" && matchingRowColumn !in names {
      r := r[matchingRowColumn := Get(d, matchingRowColumn)];
      WithFieldsPut(row, d, ks, matchingRowColumn);
      ks := ks + {matchingRowColumn};
    }
    assert ks == keys + AddedKeys(c, names, matchingRowColumn);
  }

  /** The `props.data.forEach` loop of `initiate`: one projected row per raw
      row, with fresh ids from `firstId` on, and the side table from id back to
      raw row. Rows outside `[start, end]` keep only their id. */
  method ProjectRows(data: seq<Row>, columns: seq<Column>, matchingRowColumn: string,
                     start: int, end: int, firstId: int)
    returns (rows: seq<Row>, unformatted: map<int, Row>)
    ensures |rows| == |data|
    ensures forall i :: 0 <= i < |data| ==>
              rows[i] == Projected(data[i], columns, matchingRowColumn, firstId + i, start <= i <= end)
    ensures forall id :: id in unformatted <==> firstId <= id < firstId + |data|
    ensures forall i :: 0 <= i < |data| ==> unformatted[firstId + i] == data[i]
  {
    var names := ColumnNames(columns);
    rows, unformatted := [], map[];
    var i := 0;
    while i < |data|
      invariant 0 <= i <= |data|
      invariant |rows| == i
      invariant forall j :: 0 <= j < i ==>
                  rows[j] == Projected(data[j], columns, matchingRowColumn, firstId + j, start <= j <= end)
      invariant forall id :: id in unformatted <==> firstId <= id < firstId + i
      invariant forall j :: 0 <= j < i ==> unformatted[firstId + j] == data[j]
    {
      var id := firstId + i;
      var row: Row := map[ROW_ID := Num(id)];
      if i >= start && i <= end {
        row := ProjectFields(data[i], columns, names, matchingRowColumn, row);
      } else {
        assert row == WithFields(row, data[i], {});
      }
      rows := rows + [row];
      unformatted := unformatted[id := data[i]];
      i := i + 1;
    }
  }

  /** Every projected row's `row_id` leads back through the side table to
      its raw row, provided no field key is itself `row_id`; in the window
      every column holds the raw row's value, outside it the row holds only
      its id. */
  lemma {:induction false} ProjectionMapsBack(data: seq<Row>, columns: seq<Column>, matchingRowColumn: string,
                           start: int, end: int, firstId: int, i: int)
    requires 0 <= i < |data|
    requires ROW_ID !in FieldKeys(columns, ColumnNames(columns), matchingRowColumn)
    ensures var row := Projected(data[i], columns, matchingRowColumn, firstId + i, start <= i <= end);
            Get(row, ROW_ID) == Num(firstId + i) &&
            (start <= i <= end ==> forall c :: c in columns ==> c.column in row && row[c.column] == Get(data[i], c.column)) &&
            (!(start <= i <= end) ==> row.Keys == {ROW_ID})
  {
    forall c | c in columns
      ensures c.column in FieldKeys(columns, ColumnNames(columns), matchingRowColumn)
    {
      ColumnKeyed(columns, ColumnNames(columns), matchingRowColumn, c);
    }
  }

  lemma {:induction false} ColumnKeyed(columns: seq<Column>, names: seq<string>, matchingRowColumn: string, c: Column)
    requires c in columns
    ensures c.column in FieldKeys(columns, names, matchingRowColumn)
  {
    var init := columns[..|columns| - 1];
    if c != columns[|columns| - 1] {
      assert columns == init + [columns[|columns| - 1]];
      ColumnKeyed(init, names, matchingRowColumn, c);
    }
  }

  /** The filter of `matchingRows`: a record other than `row` with the same
      match-column value, when that value is truthy or `0`. */
  function MatchesRow(row: Row, matchingRowColumn: string): Row -> bool {
    var value := Get(row, matchingRowColumn);
    d => (Truthy(value) || value == Num(0)) && d != row && value == Get(d, matchingRowColumn)
  }

  /** The rows that `matchingRows` reports for a selected row: every other
      record whose match-column value equals the selected one, when that value
      is truthy or `0`. */
  function MatchingRows(data: seq<Row>, row: Row, matchingRowColumn: string): (r: seq<Row>)
    ensures |r| <= |data|
    ensures forall d :: d in r <==>
              d in data && d != row && Get(d, matchingRowColumn) == Get(row, matchingRowColumn) &&
              (Truthy(Get(row, matchingRowColumn)) || Get(row, matchingRowColumn) == Num(0))
  {
    Filter(data, MatchesRow(row, matchingRowColumn))
  }

  /** A falsy match value other than `0` matches nothing. */
  lemma {:induction false} MatchingRowsFalsy(data: seq<Row>, row: Row, matchingRowColumn: string)
    requires !Truthy(Get(row, matchingRowColumn)) && Get(row, matchingRowColumn) != Num(0)
    ensures MatchingRows(data, row, matchingRowColumn) == []
  {
    FilterNone(data, MatchesRow(row, matchingRowColumn));
  }

  /** The raw records the stored indices of one page point at:
      `data[(page - 1) * pageSize + index]`, `undefined` past the end. */
  function PageRows(data: seq<Row>, pageSize: int, e: PageSelection): (r: seq<Option<Row>>)
    ensures |r| == |e.indices|
    ensures forall i :: 0 <= i < |r| ==> r[i] == At(data, (e.page - 1) * pageSize + e.indices[i])
  {
    seq(|e.indices|, i requires 0 <= i < |e.indices| => At(data, (e.page - 1) * pageSize + e.indices[i]))
  }

  /** What `getSelectedRows` collects: page by page in ascending order, the
      records of the stored indices. */
  function SelectedRows(data: seq<Row>, pageSize: int, sel: seq<PageSelection>): seq<Option<Row>> {
    if |sel| == 0 then []
    else SelectedRows(data, pageSize, sel[..|sel| - 1]) + PageRows(data, pageSize, sel[|sel| - 1])
  }

  /** The number of stored indices over all pages. */
  function Count(sel: seq<PageSelection>): nat {
    if |sel| == 0 then 0 else Count(sel[..|sel| - 1]) + |sel[|sel| - 1].indices|
  }

  /** One record per stored index. */
  lemma {:induction false} SelectedRowsCount(data: seq<Row>, pageSize: int, sel: seq<PageSelection>)
    ensures |SelectedRows(data, pageSize, sel)| == Count(sel)
  {
    if |sel| > 0 {
      SelectedRowsCount(data, pageSize, sel[..|sel| - 1]);
    }
  }

  /** The record index `i` of stored page `k` points at. */
  function Pointed(data: seq<Row>, pageSize: int, e: PageSelection, i: int): Option<Row>
    requires 0 <= i < |e.indices|
  {
    At(data, (e.page - 1) * pageSize + e.indices[i])
  }

  /** Every stored index contributes the record it points at on its page. */
  lemma {:induction false} SelectedRowsComplete(data: seq<Row>, pageSize: int, sel: seq<PageSelection>, k: int, i: int)
    requires 0 <= k < |sel| && 0 <= i < |sel[k].indices|
    ensures Pointed(data, pageSize, sel[k], i) in SelectedRows(data, pageSize, sel)
  {
    var init := sel[..|sel| - 1];
    if k < |sel| - 1 {
      assert init[k] == sel[k];
      SelectedRowsComplete(data, pageSize, init, k, i);
    } else {
      assert PageRows(data, pageSize, sel[k])[i] == Pointed(data, pageSize, sel[k], i);
    }
  }

  /** Nothing else is collected: each record comes from some stored index. */
  lemma {:induction false} SelectedRowsSound(data: seq<Row>, pageSize: int, sel: seq<PageSelection>, x: Option<Row>)
    requires x in SelectedRows(data, pageSize, sel)
    ensures exists k, i :: 0 <= k < |sel| && 0 <= i < |sel[k].indices| && x == Pointed(data, pageSize, sel[k], i)
  {
    var init, e := sel[..|sel| - 1], sel[|sel| - 1];
    if x in SelectedRows(data, pageSize, init) {
      SelectedRowsSound(data, pageSize, init, x);
      var k, i :| 0 <= k < |init| && 0 <= i < |init[k].indices| && x == Pointed(data, pageSize, init[k], i);
      assert init[k] == sel[k];
    } else {
      var rows := PageRows(data, pageSize, e);
      assert x in rows;
      var i :| 0 <= i < |rows| && rows[i] == x;
      assert x == Pointed(data, pageSize, sel[|sel| - 1], i);
    }
  }

  /** The nested loops of `getSelectedRows`. */
  method CollectSelectedRows(data: seq<Row>, pageSize: int, sel: Selection) returns (selected: seq<Option<Row>>)
    ensures selected == SelectedRows(data, pageSize, sel)
  {
    selected := [];
    var k := 0;
    while k < |sel|
      invariant 0 <= k <= |sel|
      invariant selected == SelectedRows(data, pageSize, sel[..k])
    {
      var e := sel[k];
      ghost var rows := PageRows(data, pageSize, e);
      ghost var before := selected;
      var i := 0;
      while i < |e.indices|
        invariant 0 <= i <= |e.indices|
        invariant selected == before + rows[..i]
      {
        selected := selected + [At(data, (e.page - 1) * pageSize + e.indices[i])];
        assert rows[..i + 1] == rows[..i] + [rows[i]];
        i := i + 1;
      }
      assert rows[..i] == rows;
      assert sel[..k + 1][..k] == sel[..k];
      k := k + 1;
    }
    assert sel[..|sel|] == sel;
  }

  /** `getMenu`: the multi-row menu when one is configured and more than one
      row is selected, else the menu, else `false`. */
  function ChooseMenu(menu: Value, multiMenu: Value, selectedCount: nat): (r: Value)
    ensures Truthy(multiMenu) && selectedCount > 1 ==> r == multiMenu
    ensures !(Truthy(multiMenu) && selectedCount > 1) ==> (r == menu || r == Bool(false))
    ensures !(Truthy(multiMenu) && selectedCount > 1) ==> (Truthy(r) <==> Truthy(menu))
  {
    if Truthy(multiMenu) && selectedCount > 1 then multiMenu else Or(menu, Bool(false))
  }

  /** What `onSelect` receives as `rows`: all selected records when there are
      several, else the single record (or `{}` with none, `undefined` for an
      index past the end). */
  datatype Picked = Several(records: seq<Option<Row>>) | Single(record: Option<Row>)

  /** The `{ rows, matchingRows }` argument of `onSelect`. */
  datatype SelectReport = SelectReport(rows: Picked, matchingRows: seq<Row>)

  /** The `onSelect` branch of `handleRowSelection`, given the selected records. */
  function Report(data: seq<Row>, selectedData: seq<Option<Row>>, matchingRowColumn: string): (r: SelectReport)
    ensures |selectedData| > 1 ==> r == SelectReport(Several(selectedData), [])
    ensures |selectedData| == 1 ==> r.rows == Single(selectedData[0])
    ensures |selectedData| == 0 ==> r.rows == Single(Some(map[]))
    ensures forall d :: d in r.matchingRows ==>
              d in data && r.rows.Single? && r.rows.record.Some? && d != r.rows.record.value &&
              Get(d, matchingRowColumn) == Get(r.rows.record.value, matchingRowColumn)
    ensures |selectedData| <= 1 && matchingRowColumn != "" && r.rows.record.Some? ==>
              r.matchingRows == MatchingRows(data, r.rows.record.value, matchingRowColumn)
    ensures |selectedData| <= 1 && (matchingRowColumn == "" || r.rows.record.None?) ==> r.matchingRows == []
    ensures |selectedData| <= 1 ==>
              forall d :: d in r.matchingRows <==>
                matchingRowColumn != "" && r.rows.record.Some? && d in data && d != r.rows.record.value &&
                Get(d, matchingRowColumn) == Get(r.rows.record.value, matchingRowColumn) &&
                (Truthy(Get(r.rows.record.value, matchingRowColumn)) ||
                 Get(r.rows.record.value, matchingRowColumn) == Num(0))
  {
    if |selectedData| > 1 then SelectReport(Several(selectedData), [])
    else
      var row := if |selectedData| == 1 then selectedData[0] else Some(map[]);
      if matchingRowColumn != "" && row.Some? then
        SelectReport(Single(row), MatchingRows(data, row.value, matchingRowColumn))
      else SelectReport(Single(row), [])
  }

  /** The raw record behind shown row `key`: its `row_id` looked up in the
      side table (`None` for `undefined`). */
  function RawRecord(shown: seq<Row>, unformatted: map<int, Row>, key: int): Option<Row>
    requires 0 <= key < |shown|
  {
    var id := Get(shown[key], ROW_ID);
    if id.Num? && id.n in unformatted then Some(unformatted[id.n]) else None
  }

  /** After the projection of `initiate`, clicking shown row `i` reports the
      raw record it came from, in the window or out of it, provided no field key is `row_id`. */
  lemma {:induction false} ClickReportsRawRecord(data: seq<Row>, columns: seq<Column>, matchingRowColumn: string,
                              rows: seq<Row>, unformatted: map<int, Row>, firstId: int, i: int, inWindow: bool)
    requires |rows| == |data| && 0 <= i < |data|
    requires rows[i] == Projected(data[i], columns, matchingRowColumn, firstId + i, inWindow)
    requires firstId + i in unformatted && unformatted[firstId + i] == data[i]
    requires ROW_ID !in FieldKeys(columns, ColumnNames(columns), matchingRowColumn)
    ensures RawRecord(rows, unformatted, i) == Some(data[i])
  {
    ProjectionMapsBack(data, columns, matchingRowColumn, if inWindow then i else i + 1, i, firstId, i);
  }

  /** The selection `updateData` shows is that of the current page. When the
      current page had indices selected, showing them after the reset to page
      one with no selection shows a selection that is not stored. */
  lemma {:induction false} StaleSelectionDiffers(sel: Selection, page: int)
    requires Lookup(sel, page).Some? && |Lookup(sel, page).value| > 0
    ensures Shown(sel, page) != Shown(NoSelection, 1)
  {
    assert Lookup(NoSelection, 1).None?;
  }

  /** One such state: index 0 selected on page 2. */
  lemma {:induction false} StaleSelectionExample()
    ensures var sel := Store(NoSelection, 2, [0]);
            Shown(sel, 2) == [0] && Shown(NoSelection, 1) == []
  {
    StoreLookup(NoSelection, 2, [0], 2);
  }
}
