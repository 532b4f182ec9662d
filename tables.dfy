/**
 * The dataframe the accessor is attached to: named columns of possibly
 * missing cells, the records (one map per row) that `to_dict('records')`
 * yields, and the in-place replacement of missing numeric cells by 0.
 */
module Tables {
  import opened Wrappers

  /** Integer runtime types: numpy's fixed widths and Python's own int. */
  datatype IntKind = Int8 | Int16 | Int32 | Int64 | PyInt

  /** Floating-point runtime types: numpy's two widths and Python's float. */
  datatype FloatKind = Float32 | Float64 | PyFloat

  /**
   * The runtime value of a non-missing cell.  Instants and numbers carry
   * opaque payloads: nothing in the accessor computes with them.
   */
  datatype Value =
    | Text(s: string)                       // str
    | Moment(stamp: int)                    // datetime, pd.Timestamp, np.datetime64
    | Integer(ik: IntKind, n: int)
    | Floating(fk: FloatKind, x: real)
    | Complex(re: real, im: real)
    | Nested(entries: map<string, Option<Value>>)   // a dict held in a cell; its entries may be missing too
    | OtherValue(typeName: string)          // any other Python object

  /** A cell: None is a missing value (None / NaN / NaT). */
  type Cell = Option<Value>

  /**
   * A column's dtype.  An integer or float column has a numpy width:
   * IntDType(PyInt) and FloatDType(PyFloat) name no dtype a dataframe has
   * (they are only runtime types of values) and occur in no table built here.
   */
  datatype DType =
    | IntDType(ik: IntKind)
    | FloatDType(fk: FloatKind)
    | ComplexDType
    | TextDType                 // str / object (Koalas StringType)
    | BinaryDType               // Koalas BinaryType
    | ArrayDType                // Koalas ArrayType
    | OtherDType(name: string)  // datetime64, bool, ...

  /** The dtypes whose columns the .str accessor accepts (Koalas' StringMethods). */
  predicate StrAccepts(d: DType) {
    d == TextDType || d == BinaryDType || d == ArrayDType
  }

  /**
   * The dtypes select_dtypes(include=[float, int, complex]) picks: the builtin
   * types stand for int64, float64 and complex128, and the narrower widths
   * (int8/16/32, float32) are not picked.
   */
  predicate IsNumeric(d: DType) {
    d == IntDType(Int64) || d == FloatDType(Float64) || d == ComplexDType
  }

  /** The constant 0 of fillna(0), once stored in a column of dtype `d`. */
  function ZeroOf(d: DType): (v: Value)
    requires IsNumeric(d)
    ensures d.IntDType? ==> v.Integer? && v.ik == d.ik && v.n == 0
    ensures d.FloatDType? ==> v.Floating? && v.fk == d.fk && v.x == 0.0
    ensures d.ComplexDType? ==> v == Complex(0.0, 0.0)
  {
    match d
    case IntDType(k) => Integer(k, 0)
    case FloatDType(k) => Floating(k, 0.0)
    case ComplexDType => Complex(0.0, 0.0)
  }

  datatype Column = Column(name: string, dtype: DType, cells: seq<Cell>)

  /** A dataframe: its columns in order, and the length of its index. */
  datatype Table = Table(columns: seq<Column>, rowCount: nat) {
    /** Every column has one cell per row, and no two columns share a name. */
    predicate WellFormed() {
      && (forall j :: 0 <= j < |columns| ==> |columns[j].cells| == rowCount)
      && (forall j, k :: 0 <= j < k < |columns| ==> columns[j].name != columns[k].name)
    }
  }

  function NameSet(t: Table): set<string> {
    set j | 0 <= j < |t.columns| :: t.columns[j].name
  }

  /** One row of the table as a dict from column name to cell. */
  type Record = map<string, Cell>

  function Row(t: Table, i: nat): (r: Record)
    requires t.WellFormed() && i < t.rowCount
    ensures r.Keys == NameSet(t)
    ensures forall j :: 0 <= j < |t.columns| ==>
              t.columns[j].name in r && r[t.columns[j].name] == t.columns[j].cells[i]
  {
    map j | 0 <= j < |t.columns| :: t.columns[j].name := t.columns[j].cells[i]
  }

  /** The table's rows in index order, as to_dict('records') lists them. */
  function Records(t: Table): (rs: seq<Record>)
    requires t.WellFormed()
    ensures |rs| == t.rowCount
    ensures forall i :: 0 <= i < |rs| ==> rs[i].Keys == NameSet(t)
    ensures forall i, j :: 0 <= i < |rs| && 0 <= j < |t.columns| ==>
              t.columns[j].name in rs[i] && rs[i][t.columns[j].name] == t.columns[j].cells[i]
  {
    seq(t.rowCount, i requires 0 <= i < t.rowCount => Row(t, i))
  }

  /** fillna(0) applied to one column when its dtype is numeric. */
  function FillColumn(c: Column): (r: Column)
    ensures r.name == c.name && r.dtype == c.dtype && |r.cells| == |c.cells|
    ensures !IsNumeric(c.dtype) ==> r == c
    ensures IsNumeric(c.dtype) ==> forall i :: 0 <= i < |r.cells| ==> r.cells[i].Some?
    ensures forall i :: 0 <= i < |c.cells| && c.cells[i].Some? ==> r.cells[i] == c.cells[i]
    ensures IsNumeric(c.dtype) ==>
              forall i :: 0 <= i < |c.cells| && c.cells[i].None? ==> r.cells[i] == Some(ZeroOf(c.dtype))
  {
    if IsNumeric(c.dtype) then
      c.(cells := seq(|c.cells|, i requires 0 <= i < |c.cells| =>
                         if c.cells[i].None? then Some(ZeroOf(c.dtype)) else c.cells[i]))
    else
      c
  }

  /**
   * The numeric columns of the table with their missing cells replaced by 0;
   * every other column, and the order of columns and rows, unchanged.
   */
  function FillNumericNulls(t: Table): (r: Table)
    ensures r.rowCount == t.rowCount && |r.columns| == |t.columns|
    ensures forall j :: 0 <= j < |t.columns| ==> r.columns[j] == FillColumn(t.columns[j])
    ensures t.WellFormed() ==> r.WellFormed()
    ensures NameSet(r) == NameSet(t)
    ensures forall j, i :: 0 <= j < |r.columns| && IsNumeric(r.columns[j].dtype) && 0 <= i < |r.columns[j].cells| ==>
              r.columns[j].cells[i].Some?
  {
    var cols := seq(|t.columns|, j requires 0 <= j < |t.columns| => FillColumn(t.columns[j]));
    var r := Table(cols, t.rowCount);
    assert forall j :: 0 <= j < |t.columns| ==> r.columns[j].name == t.columns[j].name;
    r
  }

  /** Filling twice is the same as filling once, so a second build sees the same table. */
  lemma FillNumericNullsIdempotent(t: Table)
    ensures FillNumericNulls(FillNumericNulls(t)) == FillNumericNulls(t)
  {
    var once := FillNumericNulls(t);
    var twice := FillNumericNulls(once);
    forall j | 0 <= j < |t.columns|
      ensures twice.columns[j] == once.columns[j]
    {
      var c := once.columns[j];
      assert FillColumn(c).cells == c.cells;
    }
    assert twice.columns == once.columns;
  }
}
