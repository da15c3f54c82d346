/** The part of a pandas DataFrame that the three stages rely on: a table is
    built from named columns or from records, columns are selected by name (a
    name that is not a column raises KeyError, modelled as `None`), and a whole
    column is assigned with `df[name] = values`. */
module Frames {
  import opened Results

  /** One cell of a table read from CSV: an integer, a boolean, text, or a
      missing value (NaN). */
  datatype Cell = Int(n: int) | Bool(b: bool) | Text(s: string) | Missing

  /** A table: its column names in order, and one record per row that maps
      every column name to that row's cell. */
  datatype Frame = Frame(columns: seq<string>, rows: seq<map<string, Cell>>)

  predicate Distinct(names: seq<string>) {
    forall i, j :: 0 <= i < j < |names| ==> names[i] != names[j]
  }

  /** No column name is repeated and every record has exactly the table's columns. */
  predicate Valid(f: Frame) {
    && Distinct(f.columns)
    && forall i :: 0 <= i < |f.rows| ==> f.rows[i].Keys == set c | c in f.columns
  }

  predicate HasColumns(f: Frame, names: seq<string>) {
    forall j :: 0 <= j < |names| ==> names[j] in f.columns
  }

  function Ints(xs: seq<int>): (cells: seq<Cell>)
    ensures |cells| == |xs|
    ensures forall i :: 0 <= i < |xs| ==> cells[i] == Int(xs[i])
  {
    seq(|xs|, i requires 0 <= i < |xs| => Int(xs[i]))
  }

  function Texts(xs: seq<string>): (cells: seq<Cell>)
    ensures |cells| == |xs|
    ensures forall i :: 0 <= i < |xs| ==> cells[i] == Text(xs[i])
  {
    seq(|xs|, i requires 0 <= i < |xs| => Text(xs[i]))
  }

  /** The record of row `i` of a table given column by column. */
  function RecordAt(names: seq<string>, cols: seq<seq<Cell>>, i: nat): (m: map<string, Cell>)
    requires |names| == |cols| && Distinct(names)
    requires forall j :: 0 <= j < |cols| ==> i < |cols[j]|
    ensures m.Keys == set c | c in names
    ensures forall j :: 0 <= j < |names| ==> m[names[j]] == cols[j][i]
  {
    map j | 0 <= j < |names| :: names[j] := cols[j][i]
  }

  /** `pd.DataFrame({names[0]: cols[0], ...})`: every column has `height` cells. */
  function FromColumns(names: seq<string>, cols: seq<seq<Cell>>, height: nat): (f: Frame)
    requires |names| == |cols| && Distinct(names)
    requires forall j :: 0 <= j < |cols| ==> |cols[j]| == height
    ensures Valid(f) && f.columns == names && |f.rows| == height
    ensures forall i, j :: 0 <= i < height && 0 <= j < |names| ==> f.rows[i][names[j]] == cols[j][i]
  {
    Frame(names, seq(height, i requires 0 <= i < height => RecordAt(names, cols, i)))
  }

  /** `df[names]`: the cells of the named columns, row by row and in the order
      of `names`; `None` (KeyError) as soon as one name is not a column. */
  function Select(f: Frame, names: seq<string>): (r: Option<seq<seq<Cell>>>)
    requires Valid(f)
    ensures r.Some? <==> HasColumns(f, names)
    ensures r.Some? ==> |r.value| == |f.rows|
    ensures r.Some? ==> forall i :: 0 <= i < |f.rows| ==>
              |r.value[i]| == |names| &&
              forall j :: 0 <= j < |names| ==> r.value[i][j] == f.rows[i][names[j]]
  {
    if HasColumns(f, names) then
      Some(seq(|f.rows|, i requires 0 <= i < |f.rows| =>
             seq(|names|, j requires 0 <= j < |names| => f.rows[i][names[j]])))
    else
      None
  }

  /** `df[name]`: the cells of one column; `None` (KeyError) when it is not a column. */
  function Column(f: Frame, name: string): (r: Option<seq<Cell>>)
    requires Valid(f)
    ensures r.Some? <==> name in f.columns
    ensures r.Some? ==> |r.value| == |f.rows|
    ensures r.Some? ==> forall i :: 0 <= i < |f.rows| ==> r.value[i] == f.rows[i][name]
  {
    if name in f.columns then Some(seq(|f.rows|, i requires 0 <= i < |f.rows| => f.rows[i][name]))
    else None
  }

  /** `df[name] = values`: row `i` gets `values[i]` in column `name`; a new
      column goes last, an existing one keeps its place, and every other cell
      is unchanged. pandas raises on a length mismatch, which callers check. */
  function WithColumn(f: Frame, name: string, values: seq<Cell>): (g: Frame)
    requires Valid(f) && |values| == |f.rows|
    ensures Valid(g)
    ensures g.columns == if name in f.columns then f.columns else f.columns + [name]
    ensures |g.rows| == |f.rows|
    ensures forall i :: 0 <= i < |f.rows| ==> g.rows[i][name] == values[i]
    ensures forall i, c :: 0 <= i < |f.rows| && c in f.columns && c != name ==>
              c in g.rows[i] && g.rows[i][c] == f.rows[i][c]
  {
    var columns := if name in f.columns then f.columns else f.columns + [name];
    assert (set c | c in columns) == (set c | c in f.columns) + {name};
    Frame(columns, seq(|f.rows|, i requires 0 <= i < |f.rows| => f.rows[i][name := values[i]]))
  }
}
