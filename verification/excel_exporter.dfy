/** The column-width rule of `create_excel_file` (excel_exporter.py, lines 27-45): each
    column of the sheet is made as wide as its longest cell text plus two, capped at 50. */
module ExcelExporter {
  import opened Json
  import DataProcessor

  /** A worksheet cell: empty (`None`) or holding a value whose `str()` is `text`. */
  datatype Cell = Blank | Text(text: string)

  /** `len(str(cell.value))`: an empty cell measures as the four letters of "None". */
  function Measure(c: Cell): nat {
    match c
    case Blank => |"None"|
    case Text(s) => |s|
  }

  const Padding: nat := 2
  const MaxWidth: nat := 50

  function Max(a: nat, b: nat): nat {
    if a < b then b else a
  }

  /** The longest cell text of a column, 0 for a column without cells. */
  function Longest(cells: seq<Cell>): (n: nat)
    ensures forall i :: 0 <= i < |cells| ==> Measure(cells[i]) <= n
    ensures cells == [] ==> n == 0
    ensures cells != [] ==> exists i :: 0 <= i < |cells| && Measure(cells[i]) == n
    decreases |cells|
  {
    if cells == [] then 0
    else
      var init := cells[..|cells| - 1];
      assert forall i :: 0 <= i < |init| ==> init[i] == cells[i];
      Max(Longest(init), Measure(cells[|cells| - 1]))
  }

  /** The padded width, limited to `MaxWidth`. */
  function Clamp(longest: nat): (width: nat)
    ensures Padding <= width <= MaxWidth
  {
    if longest + Padding > MaxWidth then MaxWidth else longest + Padding
  }

  /** The width the loop at lines 27-45 gives one column. */
  method ColumnWidth(cells: seq<Cell>) returns (width: nat)
    ensures width == Clamp(Longest(cells))
    ensures Padding <= width <= MaxWidth
    // every cell fits with its padding, unless the cap was reached
    ensures forall i :: 0 <= i < |cells| ==> Measure(cells[i]) + Padding <= width || width == MaxWidth
    // below the cap the width is as narrow as that allows: it is the padding alone or
    // the padded length of some cell
    ensures width < MaxWidth ==>
              width == Padding || exists i :: 0 <= i < |cells| && width == Measure(cells[i]) + Padding
    ensures width == Longest(cells) + Padding <==> Longest(cells) + Padding <= MaxWidth
  {
    var longest := 0;
    var i := 0;
    while i < |cells|
      invariant 0 <= i <= |cells|
      invariant longest == Longest(cells[..i])
    {
      assert cells[..i + 1][..i] == cells[..i];
      if Measure(cells[i]) > longest {
        longest := Measure(cells[i]);
      }
      i := i + 1;
    }
    assert cells[..i] == cells;
    width := longest + Padding;
    if width > MaxWidth {
      width := MaxWidth;
    }
  }

  /** Rows of equal width, one cell per column. */
  predicate Rectangular(t: DataProcessor.Table) {
    forall i :: 0 <= i < |t.rows| ==> |t.rows[i]| == |t.columns|
  }

  /** Column `k` of the sheet `to_excel` writes: the header, then the rendered values.
      `render` stands for the conversion of a value into a cell. */
  function SheetColumn(t: DataProcessor.Table, render: Json -> Cell, k: nat): (column: seq<Cell>)
    requires Rectangular(t) && k < |t.columns|
    ensures |column| == |t.rows| + 1
    ensures column[0] == Text(t.columns[k])
  {
    [Text(t.columns[k])] + seq(|t.rows|, i requires 0 <= i < |t.rows| => render(t.rows[i][k]))
  }

  /** The width the rule gives column `k`. */
  function SheetWidth(t: DataProcessor.Table, render: Json -> Cell, k: nat): nat
    requires Rectangular(t) && k < |t.columns|
  {
    Clamp(Longest(SheetColumn(t, render, k)))
  }

  /** A column is wide enough for its header, unless the cap was reached. */
  lemma HeaderFits(t: DataProcessor.Table, render: Json -> Cell, k: nat)
    requires Rectangular(t) && k < |t.columns|
    ensures SheetWidth(t, render, k) == MaxWidth || |t.columns[k]| + Padding <= SheetWidth(t, render, k)
  {
  }

  /** The widths of all columns, left to right. */
  method ColumnWidths(t: DataProcessor.Table, render: Json -> Cell) returns (widths: seq<nat>)
    requires Rectangular(t)
    ensures |widths| == |t.columns|
    ensures forall k :: 0 <= k < |widths| ==> widths[k] == SheetWidth(t, render, k)
    ensures forall k :: 0 <= k < |widths| ==> Padding <= widths[k] <= MaxWidth
    // no column is narrower than its header needs, up to the cap
    ensures forall k :: 0 <= k < |widths| ==>
              widths[k] == MaxWidth || |t.columns[k]| + Padding <= widths[k]
  {
    widths := [];
    var k := 0;
    while k < |t.columns|
      invariant 0 <= k <= |t.columns| && |widths| == k
      invariant forall j :: 0 <= j < k ==> widths[j] == SheetWidth(t, render, j)
    {
      var width := ColumnWidth(SheetColumn(t, render, k));
      assert width == SheetWidth(t, render, k);
      widths := widths + [width];
      k := k + 1;
    }
    forall k | 0 <= k < |widths|
      ensures widths[k] == MaxWidth || |t.columns[k]| + Padding <= widths[k]
    {
      HeaderFits(t, render, k);
    }
  }
}
