# vis-graphs tables, port graphs and the configuration wrapper in Dafny

This project models the data logic behind these parts of the vis-graphs React library:

- the two table graphs: the hook-based `GraphsV2/Table` and the class-based `Graphs/Table`;
- the two port graphs: `GraphsV2/PortGraph` and `Graphs/PortGraph`;
- the `WithConfigHOC` wrapper, which merges a graph's configuration into its `properties`.

Rendering is left out. What remains is the state behind the rendering:

- which columns are shown and which were removed;
- how the rows are projected into table rows;
- paging, searching and sorting;
- the per-page selection and what the selection callbacks receive;
- the scroll intents sent to the host;
- the port layout: how many ports go in a row, port width and font size, border, colour and label of each port.

Modules:

- `Js` (js.dfy): JavaScript values, truthiness, `||` and reading a row's field.
- `Seqs` (seqs.dfy): the lodash helpers the graphs use. These are `filter`, `uniq`, `chunk` and `slice(0, n)`.
- `WithConfig` (with_config.dfy): the HOC's property merge.
- `PortLayout` (port_layout.dfy): the port graphs' layout arithmetic. JavaScript's division by zero is modelled (`Infinity`, `NaN`).
- `PortGraph` (port_graph.dfy): the class-based port graph, as a class with the component's instance fields.
- `PortGraphV2` (port_graph_v2.dfy): the hook-based port graph. Its three state variables are a class; its rendering helpers are functions.
- `TableCore` (table_core.dfy): what both tables share:
  - columns and scroll data;
  - the selection, which maps page numbers to row indices;
  - page windows and the row projection;
  - the sort toggle;
  - matching rows, the selected rows and the menu choice.
- `TableOrder` (table_order.dfy): lodash `orderBy` on one column, a stable sort.
- `TableColumns` (table_columns.dfy): the hook-based table's module-level column helpers, `getRemovedColumns` and `getColumnByContext`.
- `TableV2` (table_v2.dfy): the hook-based table. Its module-level `let` variables and its `useState` state are fields of class `Table`, and its handlers are methods.
- `TableLegacy` (table.dfy): the class-based table, as class `Table`.

Callbacks to the host are recorded instead of called:

- `updateScroll` patches are appended to the `intents` field.
- `onMarkClick` and `onSelect` are returned as the argument they would receive.

## Model

| member | source | states |
|---|---|---|
| WithConfig.MergeProperties | HOC/WithConfigHOC.js:11-16 | `isCustomColor` is true exactly when the configuration data has `colors`. Every other key comes from the configuration data if it has the key, else from the graph's defaults, else from the common defaults. No other keys are present. |
| WithConfig.Wrap | HOC/WithConfigHOC.js:6-19 | The wrapped graph's props drop `configuration`, keep every other prop unchanged and add `properties`, which is the merge. |
| PortLayout.Divide | Graphs/PortGraph/index.js:52-58 | Division as JavaScript does it: finite exactly when the divisor is non-zero, and then it multiplies back to the width. It is `NaN` exactly for 0/0. |
| PortLayout.RowCount | GraphsV2/PortGraph/index.js:178-180 | Ports per row: the port count capped at `rowLimit`. |
| PortLayout.AtLeast | Graphs/PortGraph/index.js:55-57 | The width is raised to the minimum: the result is never below the minimum and is either the width or the minimum. |
| PortLayout.PortAreaWidth | GraphsV2/PortGraph/index.js:171-175 | The port width is never below `minPortWidth`. It is `NaN` only when there are no ports and no width. For a non-negative width it is the minimum or an exact share of the width among the ports of one row. |
| PortLayout.PortFontSize | GraphsV2/PortGraph/index.js:286-290 | The font size lies between the minimum and the maximum font size. It is exactly 40 % of the port width when that is in range. It is `NaN` when the width is. |
| PortLayout.LastMatchIsLast | GraphsV2/PortGraph/index.js:33-41 | The icon colour is the colour of the last criterion whose value equals the port's field value, or the fallback when none does. |
| PortLayout.MatchCriteria | Graphs/PortGraph/index.js:76-83 | The `forEach` over the criteria returns the last-match colour. |
| PortLayout.PortAttribute | GraphsV2/PortGraph/index.js:67-69 | A port label is the row's field when that is truthy, and `""` otherwise. |
| PortLayout.BorderSeparatesPorts | GraphsV2/PortGraph/index.js:369 | A port has a right border exactly when it is not the last port of a full row. |
| PortLayout.PortGrid | Graphs/PortGraph/index.js:146-170 | The grid has one row of cells per chunk of ports and one cell per port. |
| PortLayout.GridShowsPorts | Graphs/PortGraph/index.js:143-170 | Cell `i` of grid row `k` shows port `k * rowLimit + i`: its two labels, its colour and its border. |
| PortGraph.RenderColumns | Graphs/PortGraph/index.js:179-205 | The label grid is empty exactly when there are no label columns or no label data. Otherwise it has one list per label column, holding each data row's value for that column. |
| PortGraph.PortGraph.constructor | Graphs/PortGraph/index.js:14-22 | Initial state: one row, port width 100, row count 0. |
| PortGraph.PortGraph.CheckMultipleRows | Graphs/PortGraph/index.js:40-45 | Ports wrap exactly when there are more than `rowLimit` of them. |
| PortGraph.PortGraph.SetPortAreaWidth | Graphs/PortGraph/index.js:52-58 | The width is shared among `rowLimit` ports when wrapping, or among all ports otherwise, and raised to the minimum. |
| PortGraph.PortGraph.SetRowCount | Graphs/PortGraph/index.js:61-66 | Ports per row: `rowLimit` when wrapping, the port count otherwise. |
| PortGraph.PortGraph.Initiate | Graphs/PortGraph/index.js:32-36 | After the three setters: the wrap flag, the clamped port width and the capped row count. |
| PortGraph.PortGraph.GetIconColor | Graphs/PortGraph/index.js:69-87 | The icon colour follows the last matching criterion. It falls back to the port colour's default, then to `defaultIconColor`. It is the default icon colour when no port colour field is configured. |
| PortGraph.PortGraph.CalculatePortFontSize | Graphs/PortGraph/index.js:90-95 | Unless the width is `NaN`, the font size stays within the configured bounds. |
| PortGraph.PortGraph.GetPortAttribute | Graphs/PortGraph/index.js:98-104 | A port's top or bottom label: the configured column's value when truthy, else `""`. |
| PortGraph.PortGraph.ProcessPortRowset | Graphs/PortGraph/index.js:127-132 | The ports split into rows of at most `rowLimit`, which concatenate back to the ports. |
| PortGraph.PortGraph.Render | Graphs/PortGraph/index.js:207-227 | The no-data message exactly when there is no data. Otherwise the labels, the font size and one grid row per port row. Rows start at the left exactly when ports wrap. |
| PortGraph.RenderAfterInitiate | Graphs/PortGraph/index.js:134-176 | After `initiate`, the rendered grid shows each port in its place with its labels, colour and border. Ports start at the left exactly when there are more than `rowLimit`. |
| PortGraphV2.GetIconColor | GraphsV2/PortGraph/index.js:19-46 | A scripted colour wins. Otherwise the last matching criterion, then the port colour's default, then the default icon colour. |
| PortGraphV2.TruthyValues | GraphsV2/PortGraph/index.js:48-64 | A label column lists only truthy values, and every truthy value of that column in the data. |
| PortGraphV2.TruthyValuesInOrder | GraphsV2/PortGraph/index.js:48-64 | The label values are exactly the column read from every row (`ColumnOf`), in row order, with the falsy ones filtered out. |
| PortGraphV2.ColumnValues | GraphsV2/PortGraph/index.js:49-63 | The loop collecting a column's truthy values computes that list. |
| PortGraphV2.LabelGroups | GraphsV2/PortGraph/index.js:292-301 | `rows` (label groups) takes precedence over `columns`. There are no labels without label data. |
| PortGraphV2.RenderColumns | GraphsV2/PortGraph/index.js:292-312 | One label list per configured label column, in each group, holding that column's truthy values. |
| PortGraphV2.PortGraphState.constructor | GraphsV2/PortGraph/index.js:126-130 | Initial state: one row, port width 100, row count 0. |
| PortGraphV2.PortGraphState.CheckMultipleRows | GraphsV2/PortGraph/index.js:167-169 | Ports wrap exactly when there are more than `rowLimit` of them. |
| PortGraphV2.PortGraphState.SetPortAreaWidth | GraphsV2/PortGraph/index.js:171-175 | The width is shared among the ports of one row and raised to the minimum. |
| PortGraphV2.PortGraphState.SetRowCount | GraphsV2/PortGraph/index.js:178-180 | Ports per row: `rowLimit` when wrapping, the port count otherwise. |
| PortGraphV2.PortGraphState.Initiate | GraphsV2/PortGraph/index.js:233-253 | After the setters: the wrap flag, the clamped port width and the capped row count. |
| PortGraphV2.PortGraphState.CalculatePortFontSize | GraphsV2/PortGraph/index.js:286-290 | Unless the width is `NaN`, the font size stays within the bounds. |
| PortGraphV2.JustifyFor | Graphs/PortGraph/index.js:143 | Ports start at the left exactly when they wrap, and are spread otherwise. |
| PortGraphV2.RenderPortAsWritten | GraphsV2/PortGraph/index.js:343-391 | The icon container's `justifyContent` prop is always `space-between`, whether or not the ports wrap. The container is `display: contents`, so the value changes nothing on screen. The font size and grid are as computed. |
| PortGraphV2.RenderPort | GraphsV2/PortGraph/index.js:343-391 | Corrected: ports start at the left exactly when they wrap. |
| PortGraphV2.JustifyAsWrittenIgnoresOverflow | GraphsV2/PortGraph/index.js:443 | Two ports with `rowLimit` 1 wrap into two rows, yet are still spread. The corrected render starts them at the left. |
| Seqs.Filter | Graphs/Table/index.js:138-148 | `filter` keeps exactly the elements satisfying the predicate and is never longer. |
| Seqs.Uniq | GraphsV2/Table/index.js:509-514 | The de-duplication loop yields the same members without duplicates. |
| Seqs.UniqOfDistinct | GraphsV2/Table/index.js:509-514 | De-duplicating a duplicate-free list changes nothing. |
| Seqs.UniqHead | GraphsV2/Table/index.js:522 | The first element survives de-duplication in first place, so single selection clicks the first row. |
| Seqs.IndexOf | GraphsV2/Table/index.js:432 | `indexOf` is the first position of the element, or -1 exactly when it is absent. |
| Seqs.IndexOfAppend | GraphsV2/Table/index.js:509-514 | Adding elements at the back does not move the first position of an element already present. |
| Seqs.UniqOrder | GraphsV2/Table/index.js:509-514 | De-duplication lists the elements in the order of their first appearance. |
| Seqs.Chunk | Graphs/PortGraph/index.js:127-132 | `chunk` gives non-empty pieces of at most the size, all full but the last, which concatenate back to the input. |
| Seqs.ChunkCount | Graphs/PortGraph/index.js:127-132 | The number of chunks is the ceiling of length over size. |
| Seqs.ChunkAt | Graphs/PortGraph/index.js:127-132 | Chunk `k` is the slice from `k * size` to `(k + 1) * size`, cut at the end. |
| Seqs.ChunkElement | Graphs/PortGraph/index.js:153 | Element `i` of chunk `k` is element `k * size + i` of the input. |
| Seqs.SliceTo | GraphsV2/Table/index.js:263 | `slice(0, n)` is the prefix of length `n`, cut at the end of the list. |
| TableCore.NextOrder | GraphsV2/Table/index.js:450-464 | A different column sorts ascending. The same column flips `desc` to `asc` and anything else to `desc`. |
| TableCore.NextOrderTwice | Graphs/Table/index.js:548-565 | Clicking a column twice restores its order. |
| TableCore.Lookup | GraphsV2/Table/index.js:515-527 | A page's selection is found exactly when that page has an entry, and it is that entry's indices. |
| TableCore.Store | GraphsV2/Table/index.js:527 | Writing a page's selection only adds or replaces that page's entry. |
| TableCore.StoreLookup | Graphs/Table/index.js:612 | After writing, that page reads back the written indices and every other page is unchanged. |
| TableCore.Shown | GraphsV2/Table/index.js:264 | The shown selection is the current page's entry, or none. |
| TableCore.Expired | GraphsV2/Table/index.js:210-216 | Scroll data has expired exactly when scrolling, an expiration is set and it is not after now. |
| TableCore.NextPageExists | GraphsV2/Table/index.js:218-229 | The next page has fetched rows exactly when the rows reach past the current page. |
| TableCore.PageWindows | Graphs/Table/index.js:179-190 | Every row index lies in exactly one page window, the one of page `i / pageSize + 1`. |
| TableCore.ProjectFields | GraphsV2/Table/index.js:176-199 | The column loop copies exactly the column fields plus tooltip and matching columns into the table row. |
| TableCore.ProjectColumn | GraphsV2/Table/index.js:180-192 | One pass of that loop adds exactly the column's field keys, each with the raw row's value. |
| TableCore.ProjectRows | Graphs/Table/index.js:202-241 | One table row per data row, carrying its new `row_id` and, inside the window, its column fields. `unformattedData` maps exactly the new ids to the raw rows. |
| TableCore.ProjectionMapsBack | GraphsV2/Table/index.js:165-200 | A projected row carries its id, and inside the window it carries every configured column's value from its raw row. Outside the window it carries only the id. |
| TableCore.MatchingRows | GraphsV2/Table/index.js:537-543 | Matching rows are exactly the other rows with the same non-empty (or zero) matching-column value. |
| TableCore.MatchingRowsFalsy | Graphs/Table/index.js:630-637 | An empty matching value other than zero matches nothing. |
| TableCore.PageRows | GraphsV2/Table/index.js:625-639 | A page's selected index `i` names the row at `(page - 1) * pageSize + i`. |
| TableCore.SelectedRowsCount | Graphs/Table/index.js:723-737 | One selected row per stored index. |
| TableCore.SelectedRowsComplete | Graphs/Table/index.js:723-737 | Every stored index's row is among the selected rows. |
| TableCore.SelectedRowsSound | Graphs/Table/index.js:723-737 | Every selected row is the row of some stored index. |
| TableCore.CollectSelectedRows | GraphsV2/Table/index.js:625-639 | The nested loop over pages and indices yields the selected rows in page order. |
| TableCore.ChooseMenu | GraphsV2/Table/index.js:557-568 | The multi-row menu is used exactly when one is set and more than one row is selected. Otherwise the plain menu is used, or none. |
| TableCore.Report | GraphsV2/Table/index.js:529-546 | `onSelect` gets all rows and no matches when more than one is selected. Otherwise it gets the single row (or `{}`) and, when `matchingRowColumn` is set and the row exists, exactly `MatchingRows` for it, in data order; else no matches. |
| TableCore.ClickReportsRawRecord | GraphsV2/Table/index.js:503-506 | Clicking a shown row hands `onMarkClick` the original, unprojected record of that row. |
| TableCore.StaleSelectionDiffers | GraphsV2/Table/index.js:249-252 | A non-empty selection stored for the current page is not what page 1 with no selection shows. |
| TableCore.StaleSelectionExample | Graphs/Table/index.js:343-347 | Index 0 selected on page 2 is shown, while the reset state shows nothing. |
| TableOrder.OrderBy | GraphsV2/Table/index.js:466-480 | The sort keeps the number of rows. |
| TableOrder.OrderBySortedPermutation | GraphsV2/Table/index.js:476 | `orderBy` returns the same rows, ordered by the column in the chosen direction. |
| TableOrder.OrderByStable | Graphs/Table/index.js:559 | Rows with equal sort keys keep their relative order. |
| TableOrder.ObjectKeysKeepOrder | Graphs/Table/index.js:559 | Two rows whose sort keys are both objects stay in their order, ascending or descending. |
| TableOrder.InsertSorted | Graphs/Table/index.js:559 | Inserting into a sorted list keeps it sorted. |
| TableOrder.InsertStable | Graphs/Table/index.js:559 | Inserting into a sorted list leaves every class of equal keys as if the row had been appended: the new row lands after its equals, which keep their order. |
| TableOrder.BeforeTotal | GraphsV2/Table/index.js:476 | Any two rows compare one way or the other. |
| TableOrder.BeforeTrans | GraphsV2/Table/index.js:476 | The row order is transitive. |
| TableColumns.RemovedIndices | GraphsV2/Table/index.js:39-55 | The removed column indices, in increasing order, are exactly the columns hidden by their display option, the selected columns or `display: false`. |
| TableColumns.GetRemovedColumns | GraphsV2/Table/index.js:39-55 | The loop computes exactly those indices. |
| TableColumns.RuleHitsMembership | GraphsV2/Table/index.js:62-71 | A column is listed for its rules exactly when one of its display rules matches the context. |
| TableColumns.ContextFilterMembership | GraphsV2/Table/index.js:57-76 | A column name is in the context filter exactly when some column of that name has a display rule matching the context. |
| TableColumns.LastKeyIsLastPresent | GraphsV2/Table/index.js:62-66 | The key recorded for a column's rules is the last of their context values that is present. |
| TableColumns.ContextKeyIsLastPresent | GraphsV2/Table/index.js:57-76 | The removed-columns key is the last context value present among all display rules, or `""`. |
| TableColumns.GetColumnByContext | GraphsV2/Table/index.js:57-76 | The nested loop computes the context filter and that key. |
| TableColumns.ApplyRules | GraphsV2/Table/index.js:62-72 | The rule loop of one column appends the column once per matching rule and leaves the last context value seen as the key. |
| TableV2.GetGraphProperties | GraphsV2/Table/index.js:87-103 | Scroll data overrides page size, page, search, sort and expiration. A non-zero `size` is the size. The size is the data length exactly when `size` is absent, zero or equal to it. |
| TableV2.InitialSort | GraphsV2/Table/index.js:801-812 | An initial sort exists exactly when the host sort has a column and an order, and then it is that sort. |
| TableV2.RemoveFirstRemovesOne | GraphsV2/Table/index.js:432-436 | `splice(indexOf(x), 1)` removes one occurrence of `x`, or nothing. |
| TableV2.RemoveFirstDistinct | GraphsV2/Table/index.js:432-436 | From a duplicate-free list it removes `x` altogether. |
| TableV2.ScrollPrefixHoldsPage | GraphsV2/Table/index.js:256-265 | The prefix shown in scroll mode contains every row of the current page. |
| TableV2.Table.constructor | GraphsV2/Table/index.js:28-38 | Initial module and hook state, with the page size from `limit` or 500. |
| TableV2.Table.Render | GraphsV2/Table/index.js:105-122 | Each render takes the new props and lets a non-zero `limit` replace the page size. |
| TableV2.Table.UpdateTableStatus | GraphsV2/Table/index.js:78 | A patch reaches the host only when `updateScroll` is given. |
| TableV2.Table.ResetFilters | GraphsV2/Table/index.js:82-85 | Sets the page and the selection. |
| TableV2.Table.UpdateData | GraphsV2/Table/index.js:256-265 | In scroll mode the table shows the rows up to the end of the current page, otherwise all filtered rows. The shown selection is the current page's. |
| TableV2.Table.LoadRows | GraphsV2/Table/index.js:165-200 | Every data row gets a fresh id, its raw record is kept under that id and the projected rows become the filtered data. |
| TableV2.Table.TakeScrollState | GraphsV2/Table/index.js:147-153 | In scroll mode the stored selection is taken up, and a missing page size is reported to the host. |
| TableV2.Table.Initiate | GraphsV2/Table/index.js:137-204 | Without columns only the scroll state is taken: rows, page, shown data and selection, side table and id counter stay. Otherwise the rows are projected, the page is the host's (or 1), and the table shows `ShownRows` of the rows with that page's selection. |
| TableV2.Table.HandleSearchAsWritten | GraphsV2/Table/index.js:235-254 | As written: an expression search keeps page, selection and shown rows and reports to the host unless the text is unchanged. A plain search shows the new rows for the old page and the old page's selection after resetting them. A failed search changes nothing. |
| TableV2.Table.HandleSearch | GraphsV2/Table/index.js:235-254 | Corrected: a plain search resets page and selection before showing the new rows for page 1, so nothing is shown selected. |
| TableV2.Table.GetHeaderData | GraphsV2/Table/index.js:269-309 | One header per column: caption, field, filter, selection, display (not removed) and the sort arrow on the sorted column. |
| TableV2.Table.HandleColumnViewChange | GraphsV2/Table/index.js:424-438 | Hiding makes the list `uniq` of the shown, the host's and the changed columns, in order of first appearance. Showing removes one occurrence and writes back to the scroll data only when it had removed columns. |
| TableV2.Table.HideColumn | GraphsV2/Table/index.js:429-430 | Hiding makes the list `uniq` of the shown, the host's and the changed columns: exactly those, without duplicates, in order of first appearance (`UniqOrder`). |
| TableV2.Table.ShowColumn | GraphsV2/Table/index.js:431-437 | Showing makes the list the host's list minus one occurrence of the column (none left when it had no repeats) and writes it back only where the host has a list. |
| TableV2.Table.HandleRowsPerPageChange | GraphsV2/Table/index.js:440-448 | The new page size is kept and, in scroll mode, reported as a PAGING intent. |
| TableV2.Table.HandleScrollSorting | GraphsV2/Table/index.js:450-464 | One SORTING intent with the toggled order, page 1 and no selection. |
| TableV2.Table.HandleStaticSorting | GraphsV2/Table/index.js:466-480 | The filtered rows become their stable sort (`OrderBy`) in the toggled order, a sorted permutation. Page and selection reset, and the first page is shown. |
| TableV2.Table.HandleSortOrderChange | GraphsV2/Table/index.js:482-487 | Scroll tables ask the host to sort and keep rows, order, page and selection. Others sort locally: the rows become their `OrderBy` in the toggled order and are shown from page 1. |
| TableV2.Table.HandlePageClick | GraphsV2/Table/index.js:489-501 | Moving forward past expired scroll data opens the confirmation instead and changes nothing shown. Otherwise the page moves by one; scroll mode reports it and keeps the shown rows, otherwise all filtered rows are shown with the new page's selection. |
| TableV2.Table.HandleClick | GraphsV2/Table/index.js:503-506 | With `onMarkClick`, a shown row's raw record is handed over. |
| TableV2.Table.GetSelectedRows | GraphsV2/Table/index.js:625-639 | The selected rows, one per stored index. |
| TableV2.Table.DistinctIds | GraphsV2/Table/index.js:509-514 | The loop computes `Uniq` of the clicked ids: each id once, in order of first appearance (`UniqOrder`). |
| TableV2.Table.HandleRowSelection | GraphsV2/Table/index.js:508-547 | The current page's selection becomes the de-duplicated clicked rows. Single selection drops other pages and clicks the first row. `onSelect` gets the report. |
| TableV2.Table.GetMenu | GraphsV2/Table/index.js:557-568 | The menu follows the selection count. |
| TableV2.Table.HandleRefresh | GraphsV2/Table/index.js:710 | The refresh button, like Continue after expiry (line 766), asks the host for page 1 with no selection. |
| TableV2.Table.StayOnPage | GraphsV2/Table/index.js:760 | Stay closes the confirmation. |
| TableLegacy.ColumnsContext | Graphs/Table/index.js:130-137 | `selectedColumns` wins. Otherwise the context entry under the configuration's key is used unless it is empty JSON text; an empty label array is truthy, so it is used and lists no column. |
| TableLegacy.UpdateColumn | Graphs/Table/index.js:122-151 | With a column context, exactly the columns it lists. Otherwise exactly those not set to `display: false`. |
| TableLegacy.InitiateColumns | Graphs/Table/index.js:258-284 | Without `selectColumnOption` all columns. Otherwise those listed by the context or not set to `display: false`. |
| TableLegacy.InitiateKeepsUpdated | Graphs/Table/index.js:258-284 | Every column shown before `initiate` is still shown after it. |
| TableLegacy.GetGraphProperties | Graphs/Table/index.js:105-120 | Scroll data overrides size, page size, page, search, sort and expiration. |
| TableLegacy.Window | Graphs/Table/index.js:179-190 | In scroll mode the projection window is the current page's rows. Otherwise it is rows 0 to `size - 1`, where `size` is `scrollData.size` when set, else the data length. |
| TableLegacy.NoDataMessage | Graphs/Table/index.js:882-890 | The no-data message exactly when there is no data. |
| TableLegacy.HeaderIndices | Graphs/Table/index.js:368-393 | Headers are exactly the configured columns shown in the state, in order. |
| TableLegacy.Table.constructor | Graphs/Table/index.js:33-68 | Initial state, with the page size from `limit` or 500 and the scroll flag fixed at construction. |
| TableLegacy.Table.ReceiveProps | Graphs/Table/index.js:88-95 | New props are taken. |
| TableLegacy.Table.DeriveState | Graphs/Table/index.js:70-75 | The state's columns are set from the context only while empty. |
| TableLegacy.Table.UpdateTableStatus | Graphs/Table/index.js:154-159 | A patch reaches the host only when `updateScroll` is given. |
| TableLegacy.Table.ResetFilters | Graphs/Table/index.js:325-328 | Sets the page and the selection. |
| TableLegacy.Table.UpdateData | Graphs/Table/index.js:351-357 | The table shows all filtered rows with the given columns and the current page's selection. |
| TableLegacy.Table.LoadRows | Graphs/Table/index.js:201-241 | Every data row gets a fresh id and its raw record is kept. Rows inside the window are projected. |
| TableLegacy.Table.TakeScrollState | Graphs/Table/index.js:182-190 | In scroll mode the stored selection is taken up, and a missing page size is reported. |
| TableLegacy.Table.Initiate | Graphs/Table/index.js:165-287 | Without columns only the scroll state is taken: rows, columns, page, shown data and selection, side table and id counter stay. Otherwise the rows are projected for the window, the page is set and the filtered columns are shown. |
| TableLegacy.Table.HandleSearchAsWritten | Graphs/Table/index.js:330-349 | As written: a plain search shows the new rows and the old page's selection after resetting it. Expression and failed searches keep shown rows, selection and columns. |
| TableLegacy.Table.HandleSearch | Graphs/Table/index.js:330-349 | Corrected: a plain search shows the new rows with nothing selected. Expression and failed searches keep shown rows, selection and columns. |
| TableLegacy.Table.GetHeaderData | Graphs/Table/index.js:368-393 | Headers for the shown columns only, in order, with the sort arrow on the sorted column. |
| TableLegacy.Table.HandleScrollSorting | Graphs/Table/index.js:533-546 | One SORTING intent with the toggled order, page 1 and no selection. |
| TableLegacy.Table.HandleStaticSorting | Graphs/Table/index.js:548-565 | The filtered rows become a sorted permutation in the toggled order, and page and selection reset. |
| TableLegacy.Table.HandleSortOrderChange | Graphs/Table/index.js:567-572 | The sorted column is `column` when an order is given, `dataIndex` otherwise. Scroll tables ask the host and keep rows, page, selection and columns. Others sort locally: the rows become their `OrderBy` and are all shown. |
| TableLegacy.Table.HandlePageClick | Graphs/Table/index.js:574-590 | Moving forward past expired scroll data opens the confirmation and changes nothing shown. Otherwise the page moves by one; scroll mode reports it and keeps what is shown, otherwise the filtered rows are shown with the new page's selection. |
| TableLegacy.Table.HandleClick | Graphs/Table/index.js:592-596 | With `onMarkClick`, a shown row's raw record is handed over. |
| TableLegacy.Table.GetSelectedRows | Graphs/Table/index.js:723-737 | The selected rows, one per stored index. |
| TableLegacy.Table.HandleRowSelection | Graphs/Table/index.js:598-646 | Only the first clicked row is kept for the page. Single selection drops other pages and clicks it, `onSelect` gets the report and scroll tables store the selection. |
| TableLegacy.Table.ReportSelection | Graphs/Table/index.js:617-645 | `onSelect` gets the report of the selected records exactly when it is set, and scroll tables send the selection to the host. |
| TableLegacy.Table.GetMenu | Graphs/Table/index.js:656-667 | The menu follows the selection count. |
| TableLegacy.Table.HandleRefresh | Graphs/Table/index.js:902 | The refresh button, like Continue after expiry (line 967), asks the host for page 1 with no selection. |
| TableLegacy.Table.StayOnPage | Graphs/Table/index.js:961 | Stay closes the confirmation. |

## Left out

- Rendering and the DOM: the JSX, Material UI tables, tooltips, info boxes, the context-menu DOM handling, the column-picker dialog and the confirmation dialog's markup. Only the state the modelled handlers read or write is modelled.
- `checkFontsize` and `decrementFontSize` read DOM widths, so they are not modelled. The same goes for `getHeightMargin`, `tableWidth`, and the footer and `rowsPerPage` options.
- `getTableData`: cell formatting, highlighting, colours and info boxes. The rows it shows are the ones `UpdateData` selects.
- Random row ids are replaced by a counter (`nextRowId`). The hook-based table draws them as `Math.floor(new Date().valueOf() * Math.random())` (GraphsV2/Table/index.js:174) and the class-based one from `this.generateRandom()` (Graphs/Table/index.js:211); both can repeat an id, which would make two rows share a raw record in the side table. The model assumes fresh ids and does not capture such a collision.
- `columnAccessor` and `labelToField` formatting is treated as a plain field lookup. The search expression's evaluation (`expandExpression`) happens outside the model, and its result arrives as the `search` parameter.
- The hook-based table's `useEffect` cleanup is not modelled. It writes a shadowed `let` before its declaration and throws, so it never stores removed columns. `removedColumnsKey` therefore keeps its initial value.
- React lifecycle: `shouldComponentUpdate`, the `componentDidUpdate` comparisons and effect dependency lists are not modelled. The legacy constructor's own `initiate` runs before mount, where `setState` does nothing, and `componentDidMount` repeats it; the model runs it once.
- Callbacks (`updateScroll`, `onMarkClick`, `onSelect`) are recorded, not called.
- `goTo` navigation is not modelled: the context-menu items call `goTo(pathname, queryParams)` with the context merged with the item's params (Graphs/Table/index.js:704-716, GraphsV2/Table/index.js:607-618). Only the menu choice (`ChooseMenu`) is modelled.
- The class-based table's `handleColumnSelection` (Graphs/Table/index.js:791-810) is not modelled. It sets `state.columns` to the picked columns, deletes `context.query`, and passes the picked labels to `onColumnSelection`, or else as JSON text to `goTo`.
- `evalExpression` scripts for port colours and legends are not evaluated. A scripted colour is a parameter of `PortGraphV2.GetIconColor`.
- Numbers: row values are integers, and widths and font sizes are reals. Floating-point rounding is not modelled.
- TableOrder.ValueLe: mixed-type comparisons in lodash `orderBy` are abstracted by a fixed rank of value kinds. Objects and arrays are one kind of value (`Obj`) whose contents the model does not hold, so all of them tie. That is right for plain objects, which compare as the same text `[object Object]`. Arrays compare by their joined text in lodash, and that order is not modelled.
- A column without a label is listed as the text `undefined`, which a JSON string context may contain. In a label array it is never listed.
- TableV2.Table.HandleRowSelection: with single selection and an empty click list, the source calls `handleClick()` with no key. `data[undefined]` is undefined, so no callback is made; the model likewise reports no click.
- Column indices in the removed-column lists are strings in the source (`${index}` and `for ... in` keys). The model uses numbers; both sides of every comparison use the same kind, so this changes nothing.
- WithConfig.Wrap: a missing `configuration` prop makes `configuration.data` throw (HOC/WithConfigHOC.js:14). The model takes the configuration's data as a parameter, so that failure is not modelled.
- TableLegacy.Table.HandleRowSelection: requires a non-empty click list. The source reads `currentSelectedRow[0].index` (Graphs/Table/index.js:600), which throws on an empty list; that failure is not modelled.
- TableCore.MatchingRows, PortLayout.PortAttribute, PortLayout.MatchCriteria: every `objectPath.get` of the source follows a dotted path into nested records. That covers the matching column (Graphs/Table/index.js:632, GraphsV2/Table/index.js:537), the port label columns (Graphs/PortGraph/index.js:103, GraphsV2/PortGraph/index.js:68) and the port colour field (Graphs/PortGraph/index.js:78, GraphsV2/PortGraph/index.js:37). The model's `Js.Get` looks the whole key up in the top-level row, so a dotted path in any of them is not modelled.
- TableLegacy.Table.TakeScrollState, TableLegacy.Table.HandleRowSelection, TableV2.Table.TakeScrollState, TableV2.Table.HandleRowSelection: the source takes the host's selection object itself out of `scrollData` (Graphs/Table/index.js:185, GraphsV2/Table/index.js:148-149). A multi-select then writes the page's entry into that shared object (Graphs/Table/index.js:611, GraphsV2/Table/index.js:527), so the host's `scrollData` changes in place even without `updateScroll`, and the legacy intent (Graphs/Table/index.js:644) hands over that same object. The model copies the selection into the table, so this sharing is not captured and every recorded intent is a snapshot.
- TableV2.Table: the hook-based table keeps its state in module-level variables (GraphsV2/Table/index.js:28-38: `displayColumns`, `originalData`, `filterData`, `sortOrder`, `currentPage`, `unformattedData`, `selectedRows`, `removedColumns`, `removedColumnsKey`, `pageSize`). Every mounted table of that kind shares them, so one table's `initiate`, search, sort or paging overwrites the rows, page and selection of the others. The model covers one mounted table whose state is its own fields, so that interference is not captured.
- PortLayout.PortAttribute, PortGraph.PortGraph.GetPortAttribute: with an unset or empty label path, `objectPath.get(row, attribute)` returns the whole row (GraphsV2/PortGraph/index.js:67-69, Graphs/PortGraph/index.js:97-103), which React cannot render as a label. The model's lookup gives `undefined` there, so the label is `''`; that failure is not modelled.
- PortLayout.MatchCriteria: a port colour with a `field` but no `criteria` makes `portColor.criteria.forEach` throw (GraphsV2/PortGraph/index.js:36, Graphs/PortGraph/index.js:77). The model's criteria are always a list, so a missing one acts as an empty one and gives the default colour; that failure is not modelled.
- When neither the request entry nor any column exists, an undefined `selectedRows` is modelled as the empty selection.

## Findings

| source | as written | input that shows it | evidently intended | confidence | as-written member | corrected member |
|---|---|---|---|---|---|---|
| GraphsV2/PortGraph/index.js:443 | the icon container is always given `justifyContent: 'space-between'`: the `isMultipleRows` read at line 443 is a `let` reset to `false` on every render (line 126), and only the effect sets it (line 168), after the render. The container is `display: contents` (lines 87-90), so the wrong value has no visible effect | two ports with `rowLimit` 1: they wrap into two rows, yet the prop is `space-between` | as in the class-based graph (Graphs/PortGraph/index.js:143), `flex-start` when the ports wrap | not executed | PortGraphV2.RenderPortAsWritten, PortGraphV2.JustifyAsWrittenIgnoresOverflow | PortGraphV2.RenderPort |
| GraphsV2/Table/index.js:249-252 | a plain search calls `updateData` before `resetFilters`, so the shown selection is the old page's | page 2 with row 0 selected, then a plain search: the table is on page 1 with no selection but still shows row 0 selected | reset page and selection first, then show: nothing selected | not executed | TableV2.Table.HandleSearchAsWritten, TableCore.StaleSelectionDiffers | TableV2.Table.HandleSearch |
| Graphs/Table/index.js:343-347 | the same order of calls in the class-based table's plain search | page 2 with row 0 selected, then a plain search: the table shows row 0 selected on a reset page 1 | reset first, then show: nothing selected | not executed | TableLegacy.Table.HandleSearchAsWritten, TableCore.StaleSelectionExample | TableLegacy.Table.HandleSearch |
