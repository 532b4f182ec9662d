/**
 * The feature-set dict __feature_set__ assembles once the geometry type and
 * spatial reference are settled and the numeric nulls are filled: stated as a
 * function of those three, with the shape of its result proved.
 */
module FeatureSets {
  import opened Wrappers
  import opened Errors
  import opened Tables
  import opened SpatialReferences
  import opened Geometries
  import opened Fields
  import opened Features

  /** The returned dict.  It has no "spatialReference" key. */
  datatype FeatureSet = FeatureSet(
    objectIdFieldName: string,
    globalIdFieldName: string,
    displayFieldName: string,
    geometryType: string,
    fields: seq<Field>,
    features: seq<Feature>)

  /**
   * Lines 75-98 on an already filled table: the fields are built first, so a
   * column type error wins over an encoding error.
   */
  function FeatureSetOf(geomType: string, sr: SpatialRef, t: Table): (r: Result<FeatureSet, Error>)
    requires t.WellFormed()
    ensures r.Success? <==> FieldsOf(t.columns).Success? && EncodeAll(geomType, Records(t), sr).Success?
    ensures FieldsOf(t.columns).Failure? ==> r == Failure(FieldsOf(t.columns).error)
    ensures FieldsOf(t.columns).Success? && EncodeAll(geomType, Records(t), sr).Failure? ==>
              r == Failure(EncodeAll(geomType, Records(t), sr).error)
    ensures r.Success? ==>
              && r.value.objectIdFieldName == "" && r.value.globalIdFieldName == ""
              && r.value.displayFieldName == ""
              && r.value.geometryType == geomType
              && |r.value.fields| == |t.columns|
              && (forall j :: 0 <= j < |t.columns| ==>
                    r.value.fields[j].name == t.columns[j].name && r.value.fields[j] == CreateField(t.columns[j]).value)
              && |r.value.features| == t.rowCount
              && (forall i :: 0 <= i < t.rowCount ==>
                    r.value.features[i] == EncodeRecord(geomType, Records(t)[i], sr).value)
  {
    match FieldsOf(t.columns)
    case Failure(e) => Failure(e)
    case Success(fields) =>
      match EncodeAll(geomType, Records(t), sr)
      case Failure(e) => Failure(e)
      case Success(features) => Success(FeatureSet("", "", "", geomType, fields, features))
  }

  /**
   * A table without rows builds exactly when .str accepts every column,
   * whatever geometry name is stored (the typemap is only consulted per
   * record): then there are no features and every column is a String field of
   * length 255.  Any other column samples "" and raises at df[col].str.
   */
  lemma ZeroRowBuild(geomType: string, sr: SpatialRef, t: Table)
    requires t.WellFormed() && t.rowCount == 0
    ensures FeatureSetOf(geomType, sr, t).Success? <==>
              forall j :: 0 <= j < |t.columns| ==> StrAccepts(t.columns[j].dtype)
    ensures FeatureSetOf(geomType, sr, t).Failure? ==> FeatureSetOf(geomType, sr, t) == Failure(StrAccessorUnavailable)
    ensures FeatureSetOf(geomType, sr, t).Success? ==>
              && FeatureSetOf(geomType, sr, t).value.features == []
              && forall j :: 0 <= j < |t.columns| ==>
                   FeatureSetOf(geomType, sr, t).value.fields[j] ==
                     Field(t.columns[j].name, t.columns[j].name, StringField, Some(DefaultStringLength))
  {
    forall j | 0 <= j < |t.columns|
      ensures CreateField(t.columns[j]) ==
                if StrAccepts(t.columns[j].dtype)
                then Success(Field(t.columns[j].name, t.columns[j].name, StringField, Some(DefaultStringLength)))
                else Failure(StrAccessorUnavailable)
    {
      if StrAccepts(t.columns[j].dtype) {
        AllMissingColumnIsText(t.columns[j]);
      } else {
        AllMissingOtherColumnFails(t.columns[j]);
      }
    }
  }

  /**
   * With a non-point geometry type and at least one row, the build fails with
   * the TypeError of the stub's missing sr parameter once the fields are built.
   */
  lemma StubEncodersFailOnRows(geomType: string, sr: SpatialRef, t: Table)
    requires t.WellFormed() && t.rowCount > 0
    requires EncoderFor(geomType).Some? && EncoderFor(geomType) != Some(PointEncoder)
    requires FieldsOf(t.columns).Success?
    ensures FeatureSetOf(geomType, sr, t) == Failure(UnexpectedKeyword("sr"))
  {
    var rs := Records(t);
    assert EncodeRecord(geomType, rs[0], sr) == Failure(UnexpectedKeyword("sr"));
  }

  /**
   * A point build consumes the columns 'x' and 'y' of every row into SHAPE and
   * copies every other column, except 'SHAPE' and 'spatialReference', into the
   * attributes.
   */
  lemma PointBuildPartition(sr: SpatialRef, t: Table, i: nat)
    requires t.WellFormed() && i < t.rowCount
    requires FeatureSetOf(PointType, sr, t).Success?
    ensures var f := FeatureSetOf(PointType, sr, t).value.features[i];
            && "x" in NameSet(t) && "y" in NameSet(t)
            && f.shape == PointShape(Records(t)[i]["x"], Records(t)[i]["y"], sr)
            && f.attributes.Keys == NameSet(t) - ReservedKeys
            && forall k :: k in f.attributes ==> f.attributes[k] == Records(t)[i][k]
  {
    var rs := Records(t);
    var rec := rs[i];
    assert rec.Keys == NameSet(t);
    assert EncodeRecord(PointType, rec, sr).Success?;
    assert FeatureSetOf(PointType, sr, t).value.features[i] == EncodeRecord(PointType, rec, sr).value;
    PointRecordFeature(rec, sr);
  }

  /** The dataframe of the accessor's tests: two float columns with a trailing null, and names. */
  function SampleTable(): Table {
    Table([
      Column("x", FloatDType(Float64), [Some(Floating(Float64, 36.12)), Some(Floating(Float64, 47.32)),
                                         Some(Floating(Float64, 56.78)), None]),
      Column("y", FloatDType(Float64), [Some(Floating(Float64, 28.21)), Some(Floating(Float64, 87.12)),
                                         Some(Floating(Float64, 90.01)), None]),
      Column("names", TextDType, [Some(Text("geography")), Some(Text("place")),
                                                  Some(Text("location")), Some(Text("geospatial"))])
    ], 4)
  }

  /** The same dataframe after fillna(0) on its numeric columns. */
  function FilledSampleTable(): Table {
    Table([
      Column("x", FloatDType(Float64), [Some(Floating(Float64, 36.12)), Some(Floating(Float64, 47.32)),
                                         Some(Floating(Float64, 56.78)), Some(Floating(Float64, 0.0))]),
      Column("y", FloatDType(Float64), [Some(Floating(Float64, 28.21)), Some(Floating(Float64, 87.12)),
                                         Some(Floating(Float64, 90.01)), Some(Floating(Float64, 0.0))]),
      SampleTable().columns[2]
    ], 4)
  }

  lemma SampleTableFilled()
    ensures FillNumericNulls(SampleTable()) == FilledSampleTable()
  {
    var t := FillNumericNulls(SampleTable());
    assert t.columns[0].cells == FilledSampleTable().columns[0].cells;
    assert t.columns[1].cells == FilledSampleTable().columns[1].cells;
  }

  /** The field schema expected for the test dataframe. */
  function SampleFields(): seq<Field> {
    [Field("x", "x", DoubleField, None), Field("y", "y", DoubleField, None),
     Field("names", "names", StringField, Some(10))]
  }

  lemma SampleNamesLength()
    ensures StringLength(FilledSampleTable().columns[2].cells) == 10
  {
    var names := FilledSampleTable().columns[2].cells;
    assert MaxTextLengthUpTo(names, 1) == Some(9);
    assert MaxTextLengthUpTo(names, 2) == Some(9);
    assert MaxTextLengthUpTo(names, 3) == Some(9);
    assert MaxTextLengthUpTo(names, 4) == Some(10);
  }

  lemma SampleColumnField(j: nat)
    requires j < 3
    ensures CreateField(FilledSampleTable().columns[j]) == Success(SampleFields()[j])
  {
    var c := FilledSampleTable().columns[j];
    assert FirstValidFrom(c.cells, 0) == Some(0);
    if j == 2 {
      SampleNamesLength();
    }
  }

  lemma SampleTableFields()
    ensures FieldsOf(FilledSampleTable().columns) == Success(SampleFields())
  {
    var cols := FilledSampleTable().columns;
    SampleColumnField(0);
    SampleColumnField(1);
    SampleColumnField(2);
    var fs := FieldsOf(cols);
    assert fs.Success?;
    assert fs.value == SampleFields();
  }

  lemma SampleTableFeatures(i: nat)
    requires i < 4
    ensures var t := FilledSampleTable();
            var e := EncodeRecord(PointType, Records(t)[i], WkidRef(DefaultWkid));
            && e.Success?
            && e.value.shape == PointShape(t.columns[0].cells[i], t.columns[1].cells[i], WkidRef(DefaultWkid))
            && e.value.attributes.Keys == {"names"}
  {
    var t := FilledSampleTable();
    assert t.WellFormed();
    assert NameSet(t) == {"x", "y", "names"} by {
      assert t.columns[0].name == "x" && t.columns[1].name == "y" && t.columns[2].name == "names";
    }
    var rec := Records(t)[i];
    assert "x" in rec && "y" in rec;
    var a := Attributes(rec, None, {});
    assert a.Keys == {"names"} by {
      forall k
        ensures k in a <==> k == "names"
      {
      }
    }
  }

  /**
   * geometry(Point).to_dict() on that dataframe: x and y are Double fields,
   * names a String field of length 10, four features, the last one at (0, 0)
   * in wkid 4326, and every feature's attributes hold only names.
   */
  lemma SampleTableBuild()
    ensures var t := FillNumericNulls(SampleTable());
            var r := FeatureSetOf(PointType, WkidRef(DefaultWkid), t);
            && r.Success?
            && r.value.fields == SampleFields()
            && |r.value.features| == 4
            && r.value.features[3].shape ==
                 PointShape(Some(Floating(Float64, 0.0)), Some(Floating(Float64, 0.0)), WkidRef(4326))
            && forall i :: 0 <= i < 4 ==> r.value.features[i].attributes.Keys == {"names"}
  {
    SampleTableFilled();
    var t := FilledSampleTable();
    assert t.WellFormed();
    var sr := WkidRef(DefaultWkid);
    SampleTableFields();
    var rs := Records(t);
    forall i | 0 <= i < 4
      ensures EncodeRecord(PointType, rs[i], sr).Success?
      ensures EncodeRecord(PointType, rs[i], sr).value.attributes.Keys == {"names"}
    {
      SampleTableFeatures(i);
    }
    SampleTableFeatures(3);
    var feats := EncodeAll(PointType, rs, sr);
    assert feats.Success?;
    var r := FeatureSetOf(PointType, sr, t);
    assert r == Success(FeatureSet("", "", "", PointType, SampleFields(), feats.value));
  }
}
