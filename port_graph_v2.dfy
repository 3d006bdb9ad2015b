/** The hooks port graph (GraphsV2/PortGraph): a grid of port icons, with
    label rows above it. Its layout effect writes three pieces of state; the
    rest is computed from props while rendering. */
module PortGraphV2 {
  import opened Js
  import opened Seqs
  import opened PortLayout

  /** `getIconColor`: a configured `getColor` script decides first. Evaluating
      that script is foreign code, so `scripted` is its outcome on this row:
      `None` when there is no script, it does not evaluate to a function, or
      it throws. Otherwise the criteria path decides. */
  method GetIconColor(row: Row, portColor: Option<PortColor>, defaultIconColor: Value,
                      scripted: Option<Value>) returns (color: Value)
    ensures scripted.Some? ==> color == scripted.value
    ensures scripted.None? ==> color == IconColor(row, portColor, defaultIconColor)
  {
    if scripted.Some? {
      return scripted.value;
    }
    if portColor.Some? && portColor.value.field != "" {
      var pc := portColor.value;
      color := MatchCriteria(pc.criteria, Get(row, pc.field), Or(pc.defaultColor, defaultIconColor));
      return;
    }
    color := defaultIconColor;
  }

  /** The truthy values of one label column over `data2`, in order. */
  function TruthyValues(column: string, data2: seq<Row>): (r: seq<Value>)
    ensures |r| <= |data2|
    ensures forall v :: v in r ==> Truthy(v)
    ensures forall d :: d in data2 && Truthy(Get(d, column)) ==> Get(d, column) in r
  {
    if |data2| == 0 then []
    else
      var init := TruthyValues(column, data2[..|data2| - 1]);
      var v := Get(data2[|data2| - 1], column);
      assert forall d :: d in data2 ==> d in data2[..|data2| - 1] || d == data2[|data2| - 1] by {
        assert data2 == data2[..|data2| - 1] + [data2[|data2| - 1]];
      }
      if Truthy(v) then init + [v] else init
  }

  /** The value of `column` in every row of `data2`, in row order. */
  function ColumnOf(column: string, data2: seq<Row>): (r: seq<Value>)
    ensures |r| == |data2|
    ensures forall i :: 0 <= i < |data2| ==> r[i] == Get(data2[i], column)
  {
    if |data2| == 0 then [] else ColumnOf(column, data2[..|data2| - 1]) + [Get(data2[|data2| - 1], column)]
  }

  /** The label values are the column's values in row order with the falsy
      ones filtered out. */
  lemma {:induction false} TruthyValuesInOrder(column: string, data2: seq<Row>)
    ensures TruthyValues(column, data2) == Filter(ColumnOf(column, data2), Truthy)
  {
    if |data2| > 0 {
      var init := data2[..|data2| - 1];
      var v := Get(data2[|data2| - 1], column);
      TruthyValuesInOrder(column, init);
      FilterAppend(ColumnOf(column, init), [v], Truthy);
      FilterOne(v, Truthy);
    }
  }

  /** The loop of `getColumns` for one column: falsy values are skipped. */
  method ColumnValues(column: LabelColumn, data2: seq<Row>) returns (values: seq<Value>)
    ensures values == TruthyValues(column.column, data2)
  {
    values := [];
    var i := 0;
    while i < |data2|
      invariant 0 <= i <= |data2|
      invariant values == TruthyValues(column.column, data2[..i])
    {
      assert data2[..i + 1][..i] == data2[..i];
      var v := Get(data2[i], column.column);
      if Truthy(v) {
        values := values + [v];
      }
      i := i + 1;
    }
    assert data2[..|data2|] == data2;
  }

  /** Which label groups `renderColumns` draws: one per entry of a non-empty
      `rows` array, else the `columns` array as a single group, and none at
      all without `data2`. */
  function LabelGroups(rows: Option<seq<seq<LabelColumn>>>, columns: Option<seq<LabelColumn>>,
                       data2: seq<Row>): (r: seq<seq<LabelColumn>>)
    ensures |data2| == 0 ==> r == []
    ensures rows.Some? && |rows.value| > 0 && |data2| > 0 ==> r == rows.value
    ensures (rows.None? || |rows.value| == 0) && |data2| > 0 ==>
              r == (if columns.Some? && |columns.value| > 0 then [columns.value] else [])
  {
    if rows.Some? && |rows.value| > 0 && |data2| > 0 then rows.value
    else if columns.Some? && |columns.value| > 0 && |data2| > 0 then [columns.value]
    else []
  }

  /** `renderColumns`: for every label group and every column in it, the
      values shown next to the label. */
  method RenderColumns(rows: Option<seq<seq<LabelColumn>>>, columns: Option<seq<LabelColumn>>,
                       data2: seq<Row>) returns (labels: seq<seq<seq<Value>>>)
    ensures |labels| == |LabelGroups(rows, columns, data2)|
    ensures forall g :: 0 <= g < |labels| ==> |labels[g]| == |LabelGroups(rows, columns, data2)[g]|
    ensures forall g, c :: 0 <= g < |labels| && 0 <= c < |labels[g]| ==>
              labels[g][c] == TruthyValues(LabelGroups(rows, columns, data2)[g][c].column, data2)
  {
    var groups: seq<seq<LabelColumn>> := LabelGroups(rows, columns, data2);
    labels := [];
    var g := 0;
    while g < |groups|
      invariant 0 <= g <= |groups|
      invariant |labels| == g
      invariant forall h :: 0 <= h < g ==> |labels[h]| == |groups[h]|
      invariant forall h, c :: 0 <= h < g && 0 <= c < |labels[h]| ==>
                  labels[h][c] == TruthyValues(groups[h][c].column, data2)
    {
      var group: seq<seq<Value>> := [];
      var c := 0;
      while c < |groups[g]|
        invariant 0 <= c <= |groups[g]|
        invariant |group| == c
        invariant forall e :: 0 <= e < c ==> group[e] == TruthyValues(groups[g][e].column, data2)
      {
        var values := ColumnValues(groups[g][c], data2);
        group := group + [values];
        c := c + 1;
      }
      labels := labels + [group];
      g := g + 1;
    }
  }

  /** The state the layout effect writes: the render-scoped `isMultipleRows`
      variable and the `portAreaWidth` and `rowCount` hooks. */
  class PortGraphState {
    var isMultipleRows: bool
    var portAreaWidth: JsNumber
    var rowCount: int

    /** `useState(100)`, `useState(0)` and `let isMultipleRows = false`. */
    constructor ()
      ensures !isMultipleRows && portAreaWidth == Finite(100.0) && rowCount == 0
    {
      isMultipleRows, portAreaWidth, rowCount := false, Finite(100.0), 0;
    }

    /** `checkMultipleRows` */
    method CheckMultipleRows(data: seq<Row>, rowLimit: int)
      modifies this`isMultipleRows
      ensures isMultipleRows == IsMultipleRows(|data|, rowLimit)
    {
      isMultipleRows := |data| > rowLimit;
    }

    /** `setPortAreaWidth`: divides by `rowLimit` or by the number of ports,
      according to the flag as it currently stands. */
    method SetPortAreaWidth(data: seq<Row>, width: real, rowLimit: int, minPortWidth: real)
      modifies this`portAreaWidth
      ensures portAreaWidth == AtLeast(Divide(width, if isMultipleRows then rowLimit else |data|), minPortWidth)
      ensures !LessThan(portAreaWidth, minPortWidth)
    {
      var portWidth := Divide(width, if isMultipleRows then rowLimit else |data|);
      portAreaWidth := if LessThan(portWidth, minPortWidth) then Finite(minPortWidth) else portWidth;
    }

    /** `setRowCount` */
    method SetRowCount(data: seq<Row>, rowLimit: int)
      modifies this`rowCount
      ensures rowCount == if isMultipleRows then rowLimit else |data|
    {
      rowCount := if isMultipleRows then rowLimit else |data|;
    }

    /** The layout part of `initiate`: the three steps in order leave the
      state consistent with the data. */
    method Initiate(data: seq<Row>, width: real, rowLimit: int, minPortWidth: real)
      modifies this
      ensures isMultipleRows == IsMultipleRows(|data|, rowLimit)
      ensures portAreaWidth == PortAreaWidth(width, |data|, rowLimit, minPortWidth)
      ensures rowCount == RowCount(|data|, rowLimit)
    {
      CheckMultipleRows(data, rowLimit);
      SetPortAreaWidth(data, width, rowLimit, minPortWidth);
      SetRowCount(data, rowLimit);
    }

    /** `calculatePortFontSize` */
    function CalculatePortFontSize(minPortFontSize: real, maxPortFontSize: real): (r: JsNumber)
      reads this
      ensures !portAreaWidth.NaN? && minPortFontSize <= maxPortFontSize ==>
                r.Finite? && minPortFontSize <= r.v <= maxPortFontSize
    {
      PortFontSize(portAreaWidth, minPortFontSize, maxPortFontSize)
    }
  }

  /** The configured properties the port rendering reads. */
  datatype PortProps = PortProps(topColumn: string, bottomColumn: string, rowLimit: int,
                                 minPortFontSize: real, maxPortFontSize: real)

  /** The icon container: the `justifyContent` value it is given, the icon
      size and the cells. The container is styled `display: contents`, so
      that value has no layout effect of its own. */
  datatype PortsView = PortsView(justify: Justify, fontSize: JsNumber, grid: seq<seq<PortCell>>)

  /** `isMultipleRows ? 'flex-start' : 'space-between'` */
  function JustifyFor(isMultipleRows: bool): (j: Justify)
    ensures j == FlexStart <==> isMultipleRows
  {
    if isMultipleRows then FlexStart else SpaceBetween
  }

  /** The icon container as the component renders it. The `isMultipleRows` it
      reads is the one the render itself declares (`let isMultipleRows = false`);
      only the effect's closure ever sets it, after the render, so the
      container is always given `space-between`. `colorOf` is `getIconColor`
      per datum. */
  function RenderPortAsWritten(data: seq<Row>, props: PortProps, portAreaWidth: JsNumber, rowCount: int,
                               colorOf: Row -> Value): (r: PortsView)
    ensures r.justify == SpaceBetween
    ensures r.fontSize == PortFontSize(portAreaWidth, props.minPortFontSize, props.maxPortFontSize)
    ensures |r.grid| == |Chunk(data, props.rowLimit)|
  {
    var isMultipleRows := false;
    PortsView(JustifyFor(isMultipleRows),
              PortFontSize(portAreaWidth, props.minPortFontSize, props.maxPortFontSize),
              PortGrid(Chunk(data, props.rowLimit), rowCount, props.topColumn, props.bottomColumn, colorOf))
  }

  /** The icon container with `isMultipleRows` computed from the data, as the
      class-based graph does: overflowing ports are given `flex-start`. */
  function RenderPort(data: seq<Row>, props: PortProps, portAreaWidth: JsNumber, rowCount: int,
                      colorOf: Row -> Value): (r: PortsView)
    ensures r.justify == FlexStart <==> IsMultipleRows(|data|, props.rowLimit)
    ensures r.fontSize == PortFontSize(portAreaWidth, props.minPortFontSize, props.maxPortFontSize)
    ensures |r.grid| == |Chunk(data, props.rowLimit)|
  {
    PortsView(JustifyFor(IsMultipleRows(|data|, props.rowLimit)),
              PortFontSize(portAreaWidth, props.minPortFontSize, props.maxPortFontSize),
              PortGrid(Chunk(data, props.rowLimit), rowCount, props.topColumn, props.bottomColumn, colorOf))
  }

  /** Two ports with a row limit of one: they are drawn in two rows, yet the
      rendered container is given `space-between` as if they shared one. */
  lemma {:induction false} JustifyAsWrittenIgnoresOverflow(colorOf: Row -> Value)
    ensures var data: seq<Row> := [map[], map[]];
            var props := PortProps("", "", 1, 0.0, 0.0);
            |Chunk(data, 1)| == 2 &&
            RenderPortAsWritten(data, props, Finite(100.0), 1, colorOf).justify == SpaceBetween &&
            RenderPort(data, props, Finite(100.0), 1, colorOf).justify == FlexStart
  {
    var data: seq<Row> := [map[], map[]];
    ChunkCount(data, 1);
  }
}
