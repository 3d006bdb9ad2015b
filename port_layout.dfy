/** Layout and colour rules shared by both port graphs: how many ports go in a
    row, how wide a port box is, how large its icon is, which colour it gets
    and which ports carry a right border. */
module PortLayout {
  import opened Js
  import opened Seqs

  /** A JavaScript number as the layout code produces it: a width divided by
      zero ports is infinite, or not a number when the width is zero too. */
  datatype JsNumber = Finite(v: real) | PosInfinity | NegInfinity | NaN

  /** `x < y` for a finite `y`. */
  predicate LessThan(x: JsNumber, y: real) {
    match x
    case Finite(v) => v < y
    case NegInfinity => true
    case _ => false
  }

  /** `x > y` for a finite `y`. */
  predicate GreaterThan(x: JsNumber, y: real) {
    match x
    case Finite(v) => v > y
    case PosInfinity => true
    case _ => false
  }

  /** `width / divisor` in floating point. */
  function Divide(width: real, divisor: int): (r: JsNumber)
    ensures r.Finite? <==> divisor != 0
    ensures r.Finite? ==> r.v * (divisor as real) == width
    ensures r.NaN? <==> divisor == 0 && width == 0.0
  {
    if divisor != 0 then Finite(width / divisor as real)
    else if width > 0.0 then PosInfinity
    else if width < 0.0 then NegInfinity
    else NaN
  }

  /** `data.length > rowLimit`: the ports do not fit in one row. */
  function IsMultipleRows(count: nat, rowLimit: int): bool {
    count > rowLimit
  }

  /** Ports per row: `rowLimit` when they spill over, else all of them. */
  function RowCount(count: nat, rowLimit: int): (r: int)
    ensures r == Min(count, rowLimit)
    ensures r <= count && r <= rowLimit
  {
    if IsMultipleRows(count, rowLimit) then rowLimit else count
  }

  /** `w < min ? min : w` */
  function AtLeast(w: JsNumber, min: real): (r: JsNumber)
    ensures !LessThan(r, min)
    ensures r == w || r == Finite(min)
  {
    if LessThan(w, min) then Finite(min) else w
  }

  /** The width of one port box: the graph width shared among the ports of a
      row, but never less than `minPortWidth`. */
  function PortAreaWidth(width: real, count: nat, rowLimit: int, minPortWidth: real): (r: JsNumber)
    ensures !LessThan(r, minPortWidth)
    ensures r.NaN? <==> RowCount(count, rowLimit) == 0 && width == 0.0
    ensures RowCount(count, rowLimit) > 0 && width >= 0.0 ==>
              r.Finite? && r.v >= minPortWidth &&
              (r.v == minPortWidth || r.v * (RowCount(count, rowLimit) as real) == width)
  {
    AtLeast(Divide(width, RowCount(count, rowLimit)), minPortWidth)
  }

  /** The icon size: 40% of the port box width, clamped to
      `[minPortFontSize, maxPortFontSize]`. */
  function PortFontSize(portAreaWidth: JsNumber, minPortFontSize: real, maxPortFontSize: real): (r: JsNumber)
    ensures !portAreaWidth.NaN? && minPortFontSize <= maxPortFontSize ==>
              r.Finite? && minPortFontSize <= r.v <= maxPortFontSize
    ensures portAreaWidth.NaN? <==> r.NaN?
    ensures portAreaWidth.Finite? && minPortFontSize <= portAreaWidth.v * 0.4 <= maxPortFontSize ==>
              r == Finite(portAreaWidth.v * 0.4)
  {
    var font := match portAreaWidth
      case Finite(v) => Finite(v * 0.4)
      case other => other;
    if GreaterThan(font, maxPortFontSize) then Finite(maxPortFontSize)
    else if LessThan(font, minPortFontSize) then Finite(minPortFontSize)
    else font
  }

  /** One colour rule: ports whose field equals `value` are drawn in `color`. */
  datatype Criterion = Criterion(value: Value, color: Value)

  /** The `portColor` configuration object. */
  datatype PortColor = PortColor(field: string, defaultColor: Value, criteria: seq<Criterion>)

  /** The colour of the last criterion whose value is `fieldValue`, else `fallback`. */
  function LastMatch(criteria: seq<Criterion>, fieldValue: Value, fallback: Value): Value {
    if |criteria| == 0 then fallback
    else if criteria[|criteria| - 1].value == fieldValue then criteria[|criteria| - 1].color
    else LastMatch(criteria[..|criteria| - 1], fieldValue, fallback)
  }

  /** `LastMatch` picks the colour of the matching criterion that no later
      criterion overrides, and the fallback when none matches. */
  lemma {:induction false} LastMatchIsLast(criteria: seq<Criterion>, fieldValue: Value, fallback: Value)
    ensures (forall i :: 0 <= i < |criteria| ==> criteria[i].value != fieldValue) ==>
              LastMatch(criteria, fieldValue, fallback) == fallback
    ensures forall i :: 0 <= i < |criteria| && criteria[i].value == fieldValue &&
                        (forall j :: i < j < |criteria| ==> criteria[j].value != fieldValue) ==>
              LastMatch(criteria, fieldValue, fallback) == criteria[i].color
  {
    if |criteria| > 0 {
      var init := criteria[..|criteria| - 1];
      LastMatchIsLast(init, fieldValue, fallback);
      assert forall i :: 0 <= i < |init| ==> init[i] == criteria[i];
    }
  }

  /** The colour an icon gets from the criteria path of `getIconColor`: with a
      `portColor` object naming a field, the last matching criterion, else the
      configured `defaultColor`, else `defaultIconColor`; without one,
      `defaultIconColor`. */
  function IconColor(row: Row, portColor: Option<PortColor>, defaultIconColor: Value): Value {
    if portColor.Some? && portColor.value.field != "" then
      LastMatch(portColor.value.criteria, Get(row, portColor.value.field),
                Or(portColor.value.defaultColor, defaultIconColor))
    else defaultIconColor
  }

  /** The `criteria.forEach` loop: every matching criterion overwrites `color`. */
  method MatchCriteria(criteria: seq<Criterion>, fieldValue: Value, initial: Value) returns (color: Value)
    ensures color == LastMatch(criteria, fieldValue, initial)
  {
    color := initial;
    var i := 0;
    while i < |criteria|
      invariant 0 <= i <= |criteria|
      invariant color == LastMatch(criteria[..i], fieldValue, initial)
    {
      assert criteria[..i + 1][..i] == criteria[..i];
      if criteria[i].value == fieldValue {
        color := criteria[i].color;
      }
      i := i + 1;
    }
    assert criteria[..|criteria|] == criteria;
  }

  /** `getPortAttribute`: the field at the configured path, or `''` when it is
      missing or falsy. */
  function PortAttribute(row: Row, attribute: string): (r: Value)
    ensures Truthy(Get(row, attribute)) ==> r == Get(row, attribute)
    ensures !Truthy(Get(row, attribute)) ==> r == Str("")
  {
    Or(Get(row, attribute), Str(""))
  }

  /** `(i % rowCount) < (rowCount - 1)`: the port at position `i` of its row has
      a right border. A zero `rowCount` makes the remainder NaN, so no border. */
  function HasRightBorder(i: nat, rowCount: int): bool {
    rowCount != 0 && i % rowCount < rowCount - 1
  }

  /** In the grid that `chunk(data, rowLimit)` lays out, with the row count the
      graph computes, every port has a right border except one in the last slot
      of a row: the borders separate neighbouring ports. */
  lemma {:induction false} BorderSeparatesPorts(data: seq<Row>, rowLimit: int, k: nat, i: nat)
    requires rowLimit >= 1
    requires k < |Chunk(data, rowLimit)| && i < |Chunk(data, rowLimit)[k]|
    ensures HasRightBorder(i, RowCount(|data|, rowLimit)) <==> i < RowCount(|data|, rowLimit) - 1
  {
    var rc := RowCount(|data|, rowLimit);
    if IsMultipleRows(|data|, rowLimit) {
      assert i < rowLimit == rc;
    } else {
      assert Chunk(data, rowLimit) == [data];
      assert i < |data| == rc;
    }
    SmallRemainder(i, rc);
  }

  lemma {:induction false} SmallRemainder(i: nat, n: int)
    requires i < n
    ensures i % n == i
  {
  }

  /** A label column of the `columns`/`rows` configuration. */
  datatype LabelColumn = LabelColumn(column: string, caption: string)

  /** One drawn port: the top attribute, whether the icon has a right border,
      the icon colour and the bottom attribute. */
  datatype PortCell = PortCell(top: Value, rightBorder: bool, color: Value, bottom: Value)

  /** How the icon container spreads the ports of a row. */
  datatype Justify = FlexStart | SpaceBetween

  /** The `portRowset.map(portRow => portRow.map(...))` rendering: one cell per
      port, row by row. `colorOf` is the icon-colour rule of the graph. */
  function PortGrid(rowset: seq<seq<Row>>, rowCount: int, topColumn: string, bottomColumn: string,
                    colorOf: Row -> Value): (r: seq<seq<PortCell>>)
    ensures |r| == |rowset|
    ensures forall k :: 0 <= k < |r| ==> |r[k]| == |rowset[k]|
  {
    seq(|rowset|, k requires 0 <= k < |rowset| =>
      seq(|rowset[k]|, i requires 0 <= i < |rowset[k]| =>
        PortCell(PortAttribute(rowset[k][i], topColumn), HasRightBorder(i, rowCount),
                 colorOf(rowset[k][i]), PortAttribute(rowset[k][i], bottomColumn))))
  }

  /** Laid out from `chunk(data, rowLimit)` with the computed row count, the
      cell in row `k` at position `i` shows port `k * rowLimit + i` of the data,
      and only the last cell of a full row goes without a right border. */
  lemma {:induction false} GridShowsPorts(data: seq<Row>, rowLimit: int, topColumn: string, bottomColumn: string,
                       colorOf: Row -> Value, k: nat, i: nat)
    requires rowLimit >= 1
    requires k < |Chunk(data, rowLimit)| && i < |Chunk(data, rowLimit)[k]|
    ensures k * rowLimit + i < |data|
    ensures var cell := PortGrid(Chunk(data, rowLimit), RowCount(|data|, rowLimit), topColumn, bottomColumn, colorOf)[k][i];
            var port := data[k * rowLimit + i];
            cell.top == PortAttribute(port, topColumn) && cell.bottom == PortAttribute(port, bottomColumn) &&
            cell.color == colorOf(port) &&
            (cell.rightBorder <==> i < RowCount(|data|, rowLimit) - 1)
  {
    var rowset := Chunk(data, rowLimit);
    ChunkElement(data, rowLimit, k, i);
    BorderSeparatesPorts(data, rowLimit, k, i);
    var cell := PortGrid(rowset, RowCount(|data|, rowLimit), topColumn, bottomColumn, colorOf)[k][i];
    assert cell.color == colorOf(rowset[k][i]);
  }
}
