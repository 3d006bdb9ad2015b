/** The class-based port graph (Graphs/PortGraph): the same grid of port
    icons, its layout kept on the component instance. */
module PortGraph {
  import opened Js
  import opened Seqs
  import opened PortLayout

  /** The properties the graph is configured with. */
  datatype PortConfig = PortConfig(
    rowLimit: int, minPortWidth: real, minPortFontSize: real, maxPortFontSize: real,
    defaultIconColor: Value, portColor: Option<PortColor>,
    topColumn: string, bottomColumn: string, columns: Option<seq<LabelColumn>>)

  /** Which configured attribute `getPortAttribute` reads. */
  datatype AttributeType = TopColumn | BottomColumn

  /** What `render` draws: a message, or the label columns above the grid. */
  datatype PortView =
    | Message(text: string)
    | Graph(labels: seq<seq<Value>>, justify: Justify, fontSize: JsNumber, grid: seq<seq<PortCell>>)

  const NO_DATA := "No data to visualize"

  /** `renderColumns`: one entry per data2 record for every configured column,
      falsy values included; nothing without columns or without data2. */
  function RenderColumns(columns: Option<seq<LabelColumn>>, data2: seq<Row>): (r: seq<seq<Value>>)
    ensures (columns.None? || |columns.value| == 0 || |data2| == 0) <==> r == []
    ensures r != [] ==> columns.Some? && |r| == |columns.value|
    ensures forall c :: 0 <= c < |r| ==> |r[c]| == |data2|
    ensures forall c, d :: 0 <= c < |r| && 0 <= d < |r[c]| ==> r[c][d] == Get(data2[d], columns.value[c].column)
  {
    if columns.Some? && |columns.value| > 0 && |data2| > 0 then
      seq(|columns.value|, c requires 0 <= c < |columns.value| =>
        seq(|data2|, d requires 0 <= d < |data2| => Get(data2[d], columns.value[c].column)))
    else []
  }

  class PortGraph {
    const config: PortConfig
    var isMultipleRows: bool
    var portAreaWidth: JsNumber
    var rowCount: int

    constructor (config: PortConfig)
      ensures this.config == config
      ensures !isMultipleRows && portAreaWidth == Finite(100.0) && rowCount == 0
    {
      this.config := config;
      isMultipleRows, portAreaWidth, rowCount := false, Finite(100.0), 0;
    }

    /** `checkMultipleRows` */
    method CheckMultipleRows(data: seq<Row>)
      modifies this`isMultipleRows
      ensures isMultipleRows == IsMultipleRows(|data|, config.rowLimit)
    {
      isMultipleRows := |data| > config.rowLimit;
    }

    /** `setPortAreaWidth`: the division uses the flag as it currently stands. */
    method SetPortAreaWidth(data: seq<Row>, width: real)
      modifies this`portAreaWidth
      ensures portAreaWidth ==
                AtLeast(Divide(width, if isMultipleRows then config.rowLimit else |data|), config.minPortWidth)
      ensures !LessThan(portAreaWidth, config.minPortWidth)
    {
      var portWidth := Divide(width, if isMultipleRows then config.rowLimit else |data|);
      portAreaWidth := if LessThan(portWidth, config.minPortWidth) then Finite(config.minPortWidth) else portWidth;
    }

    /** `setRowCount` */
    method SetRowCount(data: seq<Row>)
      modifies this`rowCount
      ensures rowCount == if isMultipleRows then config.rowLimit else |data|
    {
      rowCount := if isMultipleRows then config.rowLimit else |data|;
    }

    /** `initiate`, run before the first render and on every new props. */
    method Initiate(data: seq<Row>, width: real)
      modifies this
      ensures isMultipleRows == IsMultipleRows(|data|, config.rowLimit)
      ensures portAreaWidth == PortAreaWidth(width, |data|, config.rowLimit, config.minPortWidth)
      ensures rowCount == RowCount(|data|, config.rowLimit)
    {
      CheckMultipleRows(data);
      SetPortAreaWidth(data, width);
      SetRowCount(data);
    }

    /** `getIconColor` */
    method GetIconColor(row: Row) returns (color: Value)
      ensures color == IconColor(row, config.portColor, config.defaultIconColor)
    {
      if config.portColor.Some? && config.portColor.value.field != "" {
        var pc := config.portColor.value;
        color := MatchCriteria(pc.criteria, Get(row, pc.field), Or(pc.defaultColor, config.defaultIconColor));
        return;
      }
      color := config.defaultIconColor;
    }

    /** `calculatePortFontSize` */
    function CalculatePortFontSize(): (r: JsNumber)
      reads this
      ensures !portAreaWidth.NaN? && config.minPortFontSize <= config.maxPortFontSize ==>
                r.Finite? && config.minPortFontSize <= r.v <= config.maxPortFontSize
    {
      PortFontSize(portAreaWidth, config.minPortFontSize, config.maxPortFontSize)
    }

    /** `getPortAttribute` */
    function GetPortAttribute(row: Row, attributeType: AttributeType): (r: Value)
      ensures var path := if attributeType == TopColumn then config.topColumn else config.bottomColumn;
              r == (if Truthy(Get(row, path)) then Get(row, path) else Str(""))
    {
      PortAttribute(row, if attributeType == TopColumn then config.topColumn else config.bottomColumn)
    }

    /** `processPortRowset` */
    function ProcessPortRowset(data: seq<Row>): (r: seq<seq<Row>>)
      ensures config.rowLimit >= 1 ==> Flatten(r) == data
      ensures forall k :: 0 <= k < |r| ==> 0 < |r[k]| <= config.rowLimit
    {
      Chunk(data, config.rowLimit)
    }

    /** `render` with `renderColumns` and `renderGraph`. */
    function Render(data: seq<Row>, data2: seq<Row>): (r: PortView)
      reads this
      ensures r.Message? <==> |data| == 0
      ensures r.Message? ==> r.text == NO_DATA
      ensures r.Graph? ==>
                r.labels == RenderColumns(config.columns, data2) &&
                (r.justify == FlexStart <==> isMultipleRows) &&
                r.fontSize == CalculatePortFontSize() &&
                |r.grid| == |ProcessPortRowset(data)|
    {
      if |data| == 0 then Message(NO_DATA)
      else
        Graph(RenderColumns(config.columns, data2),
              if isMultipleRows then FlexStart else SpaceBetween,
              CalculatePortFontSize(),
              PortGrid(ProcessPortRowset(data), rowCount, config.topColumn, config.bottomColumn,
                       d => IconColor(d, config.portColor, config.defaultIconColor)))
    }
  }

  /** After `initiate` on the same data, the rendered grid shows every port in
      chunk order with its configured attributes and colour, a right border on
      all but the last port of a full row, and the ports start at the left
      exactly when they overflow one row. */
  lemma {:induction false} RenderAfterInitiate(g: PortGraph, data: seq<Row>, data2: seq<Row>, k: nat, i: nat)
    requires g.config.rowLimit >= 1
    requires g.isMultipleRows == IsMultipleRows(|data|, g.config.rowLimit)
    requires g.rowCount == RowCount(|data|, g.config.rowLimit)
    requires k < |Chunk(data, g.config.rowLimit)| && i < |Chunk(data, g.config.rowLimit)[k]|
    ensures g.Render(data, data2).Graph?
    ensures g.Render(data, data2).justify == FlexStart <==> |data| > g.config.rowLimit
    ensures k * g.config.rowLimit + i < |data|
    ensures var cell := g.Render(data, data2).grid[k][i];
            var port := data[k * g.config.rowLimit + i];
            cell.top == g.GetPortAttribute(port, TopColumn) &&
            cell.bottom == g.GetPortAttribute(port, BottomColumn) &&
            cell.color == IconColor(port, g.config.portColor, g.config.defaultIconColor) &&
            (cell.rightBorder <==> i < RowCount(|data|, g.config.rowLimit) - 1)
  {
    var c := g.config;
    ChunkCount(data, c.rowLimit);
    GridShowsPorts(data, c.rowLimit, c.topColumn, c.bottomColumn,
                   d => IconColor(d, c.portColor, c.defaultIconColor), k, i);
  }
}
