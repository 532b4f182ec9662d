/**
 * _create_field: the Esri field schema entry for one column, inferred from
 * the column's first non-missing value, and for text columns the longest
 * string in the column.
 */
module Fields {
  import opened Wrappers
  import opened Errors
  import opened Tables

  datatype FieldType = StringField | DateField | SmallIntegerField | BigIntegerField | DoubleField | SingleField

  /** The field type strings a feature service accepts. */
  const EsriFieldTypes: seq<string> := [
    "esriFieldTypeString", "esriFieldTypeDate", "esriFieldTypeSmallInteger",
    "esriFieldTypeBigInteger", "esriFieldTypeDouble", "esriFieldTypeSingle"
  ]

  /** The "type" entry written for each field type (lines 205-226). */
  function EsriName(t: FieldType): (r: string)
    ensures r in EsriFieldTypes
    ensures t == StringField ==> r == "esriFieldTypeString"
    ensures t == DateField ==> r == "esriFieldTypeDate"
    ensures t == SmallIntegerField ==> r == "esriFieldTypeSmallInteger"
    ensures t == BigIntegerField ==> r == "esriFieldTypeBigInteger"
    ensures t == DoubleField ==> r == "esriFieldTypeDouble"
    ensures t == SingleField ==> r == "esriFieldTypeSingle"
  {
    match t
    case StringField => "esriFieldTypeString"
    case DateField => "esriFieldTypeDate"
    case SmallIntegerField => "esriFieldTypeSmallInteger"
    case BigIntegerField => "esriFieldTypeBigInteger"
    case DoubleField => "esriFieldTypeDouble"
    case SingleField => "esriFieldTypeSingle"
  }

  /** Different field types are written as different strings, so the "type" entry determines the type. */
  lemma EsriNameInjective(t: FieldType, u: FieldType)
    requires EsriName(t) == EsriName(u)
    ensures t == u
  {
  }

  /** {"name": ..., "alias": ..., "type": ..., "length": ...}; length is None when the key is absent. */
  datatype Field = Field(name: string, alias: string, fieldType: FieldType, length: Option<int>)

  /** The length used when a text column holds no string to measure. */
  const DefaultStringLength: int := 255

  /** first_valid_index() among positions k.. of the column. */
  function FirstValidFrom(cells: seq<Cell>, k: nat): (r: Option<nat>)
    requires k <= |cells|
    ensures r.Some? ==> k <= r.value < |cells| && cells[r.value].Some?
                        && forall j :: k <= j < r.value ==> cells[j].None?
    ensures r.None? ==> forall j :: k <= j < |cells| ==> cells[j].None?
    decreases |cells| - k
  {
    if k == |cells| then None
    else if cells[k].Some? then Some(k)
    else FirstValidFrom(cells, k + 1)
  }

  /** The value _create_field inspects: the first non-missing cell, or "" when there is none. */
  function Sample(cells: seq<Cell>): (v: Value)
    ensures (forall i :: 0 <= i < |cells| ==> cells[i].None?) ==> v == Text("")
    ensures (exists i :: 0 <= i < |cells| && cells[i].Some?) ==>
              exists i :: 0 <= i < |cells| && cells[i] == Some(v) && forall j :: 0 <= j < i ==> cells[j].None?
  {
    match FirstValidFrom(cells, 0)
    case Some(i) => cells[i].value
    case None => Text("")
  }

  /** The longest string among the first n cells (pandas' str.len().max()); None when there is none. */
  function MaxTextLengthUpTo(cells: seq<Cell>, n: nat): (r: Option<nat>)
    requires n <= |cells|
    ensures r.None? <==> forall i :: 0 <= i < n ==> !(cells[i].Some? && cells[i].value.Text?)
    ensures r.Some? ==> exists i :: 0 <= i < n && cells[i].Some? && cells[i].value.Text?
                                      && |cells[i].value.s| == r.value
    ensures r.Some? ==> forall i :: 0 <= i < n && cells[i].Some? && cells[i].value.Text? ==>
                                      |cells[i].value.s| <= r.value
  {
    if n == 0 then None
    else
      var rest := MaxTextLengthUpTo(cells, n - 1);
      var c := cells[n - 1];
      if c.Some? && c.value.Text? then
        if rest.Some? && rest.value >= |c.value.s| then rest else Some(|c.value.s|)
      else
        rest
  }

  /** The "length" of a text field: the longest string in the column, or 255 ("nan" max). */
  function StringLength(cells: seq<Cell>): (l: int)
    ensures (forall i :: 0 <= i < |cells| ==> !(cells[i].Some? && cells[i].value.Text?)) ==>
              l == DefaultStringLength
    ensures (exists i :: 0 <= i < |cells| && cells[i].Some? && cells[i].value.Text?) ==>
              (exists i :: 0 <= i < |cells| && cells[i].Some? && cells[i].value.Text? && |cells[i].value.s| == l)
              && (forall i :: 0 <= i < |cells| && cells[i].Some? && cells[i].value.Text? ==> |cells[i].value.s| <= l)
  {
    match MaxTextLengthUpTo(cells, |cells|)
    case Some(m) => m
    case None => DefaultStringLength
  }

  /**
   * The isinstance chain, in the source's order: str, then the date types,
   * then int8/16/32, then int/int64, then float/float64, then float32.
   * None where the chain reaches its final TypeError.
   */
  function Classify(v: Value): (r: Option<FieldType>)
    ensures r.None? <==> v.Complex? || v.Nested? || v.OtherValue?
    ensures r == Some(StringField) <==> v.Text?
    ensures r == Some(DateField) <==> v.Moment?
    ensures r == Some(SmallIntegerField) <==> v.Integer? && v.ik in {Int8, Int16, Int32}
    ensures r == Some(BigIntegerField) <==> v.Integer? && v.ik in {Int64, PyInt}
    ensures r == Some(DoubleField) <==> v.Floating? && v.fk in {Float64, PyFloat}
    ensures r == Some(SingleField) <==> v.Floating? && v.fk == Float32
  {
    match v
    case Text(_) => Some(StringField)
    case Moment(_) => Some(DateField)
    case Integer(k, _) =>
      (match k
       case Int8 | Int16 | Int32 => Some(SmallIntegerField)
       case Int64 | PyInt => Some(BigIntegerField))
    case Floating(k, _) =>
      (match k
       case Float64 | PyFloat => Some(DoubleField)
       case Float32 => Some(SingleField))
    case _ => None
  }

  /**
   * type(val) as the TypeError message names it; only the kinds Classify
   * rejects (complex, dict, other objects) reach that message.
   */
  function TypeName(v: Value): string {
    match v
    case Text(_) => "str"
    case Moment(_) => "datetime"
    case Integer(k, _) =>
      (match k
       case Int8 => "numpy.int8"
       case Int16 => "numpy.int16"
       case Int32 => "numpy.int32"
       case Int64 => "numpy.int64"
       case PyInt => "int")
    case Floating(k, _) =>
      (match k
       case Float32 => "numpy.float32"
       case Float64 => "numpy.float64"
       case PyFloat => "float")
    case Complex(_, _) => "complex"
    case Nested(_) => "dict"
    case OtherValue(n) => n
  }

  /**
   * _create_field(df, col) for the column c.  A text sample leads to
   * df[col].str, which raises unless the column's dtype is text, binary or an
   * array: a column of another dtype with no value at all samples "" and fails
   * there.
   */
  function CreateField(c: Column): (r: Result<Field, Error>)
    ensures r.Success? <==> Classify(Sample(c.cells)).Some? && (Sample(c.cells).Text? ==> StrAccepts(c.dtype))
    ensures Classify(Sample(c.cells)).None? ==> r == Failure(UnsupportedColumnType(TypeName(Sample(c.cells))))
    ensures Sample(c.cells).Text? && !StrAccepts(c.dtype) ==> r == Failure(StrAccessorUnavailable)
    ensures r.Success? ==> r.value.name == c.name && r.value.alias == c.name
    ensures r.Success? ==> Classify(Sample(c.cells)) == Some(r.value.fieldType)
    ensures r.Success? ==> (r.value.length.Some? <==> r.value.fieldType == StringField)
    ensures r.Success? && r.value.fieldType == StringField ==> r.value.length == Some(StringLength(c.cells))
  {
    var v := Sample(c.cells);
    match Classify(v)
    case Some(StringField) =>
      if StrAccepts(c.dtype) then Success(Field(c.name, c.name, StringField, Some(StringLength(c.cells))))
      else Failure(StrAccessorUnavailable)
    case Some(t) => Success(Field(c.name, c.name, t, None))
    case None => Failure(UnsupportedColumnType(TypeName(v)))
  }

  /**
   * A column that .str accepts and that has no value at all (every cell
   * missing, or no rows) is a String field of length 255.
   */
  lemma AllMissingColumnIsText(c: Column)
    requires StrAccepts(c.dtype)
    requires forall i :: 0 <= i < |c.cells| ==> c.cells[i].None?
    ensures CreateField(c) == Success(Field(c.name, c.name, StringField, Some(DefaultStringLength)))
  {
  }

  /** A column of any other dtype with no value at all raises at df[col].str. */
  lemma AllMissingOtherColumnFails(c: Column)
    requires !StrAccepts(c.dtype)
    requires forall i :: 0 <= i < |c.cells| ==> c.cells[i].None?
    ensures CreateField(c) == Failure(StrAccessorUnavailable)
  {
  }

  /** A text sample in a column that .str accepts gets the longest string's length, never the default. */
  lemma TextColumnLength(c: Column, i: nat)
    requires StrAccepts(c.dtype)
    requires i < |c.cells| && c.cells[i].Some? && c.cells[i].value.Text?
    requires forall j :: 0 <= j < i ==> c.cells[j].None?
    ensures CreateField(c).Success? && CreateField(c).value.fieldType == StringField
    ensures CreateField(c).value.length.value >= |c.cells[i].value.s|
  {
    assert FirstValidFrom(c.cells, 0) == Some(i);
  }

  /**
   * [_create_field(df, col) for col in columns]: the fields in column order,
   * or the error of the first column whose field fails (an unsupported sample, or .str refused).
   */
  function FieldsOf(cols: seq<Column>): (r: Result<seq<Field>, Error>)
    ensures r.Success? <==> forall j :: 0 <= j < |cols| ==> CreateField(cols[j]).Success?
    ensures r.Success? ==> |r.value| == |cols|
    ensures r.Success? ==> forall j :: 0 <= j < |cols| ==> r.value[j] == CreateField(cols[j]).value
    ensures r.Failure? ==> exists j :: 0 <= j < |cols| && CreateField(cols[j]) == Failure(r.error)
                                     && forall k :: 0 <= k < j ==> CreateField(cols[k]).Success?
  {
    MapAll(CreateField, cols)
  }
}
