/**
 * The feature encoders: _create_point_feature, which splits a record into a
 * SHAPE part and an attributes part, the three stub encoders, and the call
 * typemap[geom_type](r, sr=...) that __feature_set__ makes for every record.
 */
module Features {
  import opened Wrappers
  import opened Errors
  import opened Tables
  import opened SpatialReferences
  import opened Geometries

  /** feature['SHAPE'] of a point: {'x': ..., 'y': ..., 'spatialReference': sr}. */
  datatype Shape = PointShape(x: Cell, y: Cell, spatialReference: SpatialRef)

  /** {'SHAPE': shape, 'attributes': attributes} */
  datatype Feature = Feature(shape: Shape, attributes: Record)

  /** The keys of a point's SHAPE dict, which attributes leave out whatever the coordinate columns are. */
  const ShapeKeys: set<string> := {"x", "y", "spatialReference"}

  /** Keys never copied to attributes: 'SHAPE' and the SHAPE dict's own keys. */
  const ReservedKeys: set<string> := {"SHAPE"} + ShapeKeys

  /** The attributes comprehension: every entry of the record except the reserved, excluded and geometry keys. */
  function Attributes(record: Record, geomKey: Option<string>, exclude: set<string>): (a: Record)
    ensures forall k :: k in a <==> k in record && k !in ReservedKeys && k !in exclude && geomKey != Some(k)
    ensures forall k :: k in a ==> a[k] == record[k]
  {
    map k | k in record && k != "SHAPE" && k !in ShapeKeys && k !in exclude && geomKey != Some(k) :: record[k]
  }

  /**
   * _create_point_feature(record, sr, x_col, y_col, geom_key, exclude).
   * KeyError when a coordinate (or the geometry key) is absent; TypeError when
   * record[geom_key] is not a dict.
   */
  function PointFeature(record: Record, sr: SpatialRef, xCol: string, yCol: string,
                        geomKey: Option<string>, exclude: set<string>): (r: Result<Feature, Error>)
    ensures geomKey.None? ==>
              (r.Success? <==> xCol in record && yCol in record)
              && (r.Failure? ==> r.error == KeyMissing(if xCol !in record then xCol else yCol))
              && (r.Success? ==> r.value.shape == PointShape(record[xCol], record[yCol], sr))
    ensures geomKey.Some? ==>
              var g := geomKey.value;
              (r.Success? <==> g in record && record[g].Some? && record[g].value.Nested?
                               && xCol in record[g].value.entries && yCol in record[g].value.entries)
              && (r.Success? ==> var m := record[g].value.entries;
                                 r.value.shape == PointShape(m[xCol], m[yCol], sr))
              && (g !in record ==> r == Failure(KeyMissing(g)))
              && (g in record && !(record[g].Some? && record[g].value.Nested?) ==> r == Failure(NotSubscriptable))
              && (g in record && record[g].Some? && record[g].value.Nested? ==>
                    var m := record[g].value.entries;
                    && (xCol !in m ==> r == Failure(KeyMissing(xCol)))
                    && (xCol in m && yCol !in m ==> r == Failure(KeyMissing(yCol))))
    ensures r.Success? ==> r.value.attributes == Attributes(record, geomKey, exclude)
  {
    match geomKey
    case Some(g) =>
      if g !in record then Failure(KeyMissing(g))
      else
        (match record[g]
         case Some(Nested(m)) =>
           if xCol !in m then Failure(KeyMissing(xCol))
           else if yCol !in m then Failure(KeyMissing(yCol))
           else Success(Feature(PointShape(m[xCol], m[yCol], sr), Attributes(record, geomKey, exclude)))
         case _ => Failure(NotSubscriptable))
    case None =>
      if xCol !in record then Failure(KeyMissing(xCol))
      else if yCol !in record then Failure(KeyMissing(yCol))
      else Success(Feature(PointShape(record[xCol], record[yCol], sr), Attributes(record, None, exclude)))
  }

  /**
   * With the default coordinate columns every key of the record lands in exactly
   * one place: consumed by SHAPE ('x', 'y'), copied to attributes, or dropped
   * because it is 'SHAPE', 'spatialReference' or excluded.
   */
  lemma PointPartition(record: Record, sr: SpatialRef, exclude: set<string>)
    requires PointFeature(record, sr, "x", "y", None, exclude).Success?
    ensures var f := PointFeature(record, sr, "x", "y", None, exclude).value;
            && f.shape.x == record["x"] && f.shape.y == record["y"]
            && f.attributes.Keys <= record.Keys
            && (forall k :: k in record && k !in exclude && k != "SHAPE" && k != "spatialReference" ==>
                  (k in f.attributes <==> k != "x" && k != "y"))
            && forall k :: k in f.attributes ==> f.attributes[k] == record[k]
  {
    var f := PointFeature(record, sr, "x", "y", None, exclude).value;
    assert f.attributes == Attributes(record, None, exclude);
  }

  /**
   * A coordinate column named other than 'x' or 'y' is read into SHAPE and is
   * still copied to attributes, while a column literally named 'x' is dropped
   * from attributes though SHAPE never read it.
   */
  lemma CustomCoordinateColumnsStayInAttributes(record: Record, sr: SpatialRef, xCol: string, yCol: string)
    requires xCol in record && yCol in record && "x" in record
    requires xCol !in ReservedKeys
    ensures var r := PointFeature(record, sr, xCol, yCol, None, {});
            && r.Success? && r.value.shape.x == record[xCol]
            && xCol in r.value.attributes
            && "x" !in r.value.attributes
  {
  }

  /** _create_multipoint_feature, _create_polyline_feature, _create_polygon_feature: not implemented. */
  function MultipointFeature(record: Record): (r: Result<Feature, Error>)
    ensures r == Failure(NotImplemented)
  {
    Failure(NotImplemented)
  }

  function PolylineFeature(record: Record): (r: Result<Feature, Error>)
    ensures r == Failure(NotImplemented)
  {
    Failure(NotImplemented)
  }

  function PolygonFeature(record: Record): (r: Result<Feature, Error>)
    ensures r == Failure(NotImplemented)
  {
    Failure(NotImplemented)
  }

  /**
   * typemap[geomType](record, sr=sr): KeyError for a name outside the typemap;
   * the stubs take no keyword sr, so calling them raises TypeError before their
   * body runs; the point encoder runs with its default arguments.
   */
  function EncodeRecord(geomType: string, record: Record, sr: SpatialRef): (r: Result<Feature, Error>)
    ensures EncoderFor(geomType).None? ==> r == Failure(KeyMissing(geomType))
    ensures EncoderFor(geomType) == Some(PointEncoder) ==> r == PointFeature(record, sr, "x", "y", None, {})
    ensures EncoderFor(geomType).Some? && EncoderFor(geomType) != Some(PointEncoder) ==>
              r == Failure(UnexpectedKeyword("sr"))
  {
    match EncoderFor(geomType)
    case None => Failure(KeyMissing(geomType))
    case Some(PointEncoder) => PointFeature(record, sr, "x", "y", None, {})
    case Some(_) => Failure(UnexpectedKeyword("sr"))
  }

  /**
   * typemap["esriGeometryPoint"](r, sr=sr) on one record: it succeeds exactly
   * when the record has the columns 'x' and 'y'; SHAPE holds them and the
   * attributes are every other key except 'SHAPE' and 'spatialReference'.
   */
  lemma PointRecordFeature(record: Record, sr: SpatialRef)
    ensures EncodeRecord(PointType, record, sr).Success? <==> "x" in record && "y" in record
    ensures EncodeRecord(PointType, record, sr).Success? ==>
              var f := EncodeRecord(PointType, record, sr).value;
              && f.shape == PointShape(record["x"], record["y"], sr)
              && f.attributes.Keys == record.Keys - ReservedKeys
              && forall k :: k in f.attributes ==> f.attributes[k] == record[k]
  {
    if "x" in record && "y" in record {
      var a := Attributes(record, None, {});
      assert a.Keys == record.Keys - ReservedKeys by {
        forall k
          ensures k in a.Keys <==> k in record.Keys - ReservedKeys
        {
        }
      }
    }
  }

  /**
   * The features comprehension: one feature per record in record order, or
   * the error of the first record whose encoding fails.
   */
  function EncodeAll(geomType: string, records: seq<Record>, sr: SpatialRef): (r: Result<seq<Feature>, Error>)
    ensures r.Success? <==> forall i :: 0 <= i < |records| ==> EncodeRecord(geomType, records[i], sr).Success?
    ensures r.Success? ==> |r.value| == |records|
    ensures r.Success? ==> forall i :: 0 <= i < |records| ==> r.value[i] == EncodeRecord(geomType, records[i], sr).value
    ensures r.Failure? ==> exists i :: 0 <= i < |records| && EncodeRecord(geomType, records[i], sr) == Failure(r.error)
                                     && forall k :: 0 <= k < i ==> EncodeRecord(geomType, records[k], sr).Success?
  {
    MapAll((rec: Record) => EncodeRecord(geomType, rec, sr), records)
  }
}
