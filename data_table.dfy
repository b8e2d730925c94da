/**
  * The generic table every service page renders: a header row and one body row per
  * data record, where cell j of a row shows the row's j-th property or "-".
  */
module DataTable {
  import opened Wrappers
  import opened Dicts
  import opened DemoData

  /** A table row: an object whose values are strings, keys in insertion order. */
  type Row = Dict<string>

  /** A metric value: a count, or a name. */
  datatype MetricValue = Num(n: int) | Text(s: string)

  /** A labelled metric `{ label, value }`, as the pages show it above their table. */
  datatype Metric = Metric(caption: string, value: MetricValue)

  datatype TableProps = TableProps(
    title: string,
    headers: seq<string>,
    data: seq<Row>,
    metrics: seq<Metric>,
    service: Service)

  /** What a service page shows: a placeholder when the service is absent, otherwise a table. */
  datatype PageView = Placeholder(message: string) | Table(props: TableProps)

  /**
    * `row[Object.keys(row)[cellIndex]] || "-"`. Past the last key, `Object.keys(row)[j]` is
    * `undefined`, which as a property name is the string "undefined".
    */
  function CellText(row: Row, cellIndex: nat): string
  {
    var key := if cellIndex < |row| then row[cellIndex].0 else "undefined";
    var value := Get(row, key);
    if value.Some? && value.value != "" then value.value else "-"
  }

  /** How a string value shows in a cell: itself, or "-" when it is empty (falsy). */
  function Shown(s: string): string
  {
    if s != "" then s else "-"
  }

  /** The body: for each data row, one cell per header. */
  function RenderBody(headers: seq<string>, data: seq<Row>): seq<seq<string>>
  {
    seq(|data|, i requires 0 <= i < |data| =>
      seq(|headers|, j requires 0 <= j < |headers| => CellText(data[i], j)))
  }

  /**
    * One body row per data row, in order; every body row has exactly one cell per header,
    * whatever the number of keys of its data row.
    */
  lemma {:induction false} RenderBodyShape(headers: seq<string>, data: seq<Row>)
    ensures |RenderBody(headers, data)| == |data|
    ensures forall i :: 0 <= i < |data| ==> |RenderBody(headers, data)[i]| == |headers|
  {
  }

  /**
    * In a row with distinct keys, cell j shows the value of the j-th key, or "-" when that
    * value is empty; past the last key it shows "-" unless the row has a key named "undefined".
    */
  lemma {:induction false} CellPositional(row: Row, j: nat)
    requires DistinctKeys(row)
    ensures j < |row| ==> CellText(row, j) == Shown(row[j].1)
    ensures j >= |row| && "undefined" !in Keys(row) ==> CellText(row, j) == "-"
  {
    if j < |row| {
      GetAt(row, j);
    }
  }

  /**
    * What a page's table shows: for a row whose keys are distinct and as many as the
    * headers, cell (i, j) is the j-th value of row i or "-" when it is empty.
    */
  lemma {:induction false} RenderedCells(headers: seq<string>, data: seq<Row>, i: nat, j: nat)
    requires i < |data| && j < |headers|
    requires DistinctKeys(data[i]) && |data[i]| == |headers|
    ensures RenderBody(headers, data)[i][j] == Shown(data[i][j].1)
  {
    CellPositional(data[i], j);
  }

  /** The three-column case of `RenderedCells`, for a whole body row. */
  lemma {:induction false} RenderedRowOfThree(headers: seq<string>, data: seq<Row>, i: nat)
    requires |headers| == 3 && i < |data|
    requires DistinctKeys(data[i]) && |data[i]| == 3
    ensures var shown := RenderBody(headers, data)[i];
      && |shown| == 3
      && shown[0] == Shown(data[i][0].1)
      && shown[1] == Shown(data[i][1].1)
      && shown[2] == Shown(data[i][2].1)
  {
    RenderedCells(headers, data, i, 0);
    RenderedCells(headers, data, i, 1);
    RenderedCells(headers, data, i, 2);
  }
}
