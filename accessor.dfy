/**
 * KoalasGeoAccessor: the object registered as `df.spatial`.  It holds the
 * dataframe, the chosen geometry type and the spatial reference; sr() and
 * geometry() set the last two and return the accessor for chaining, and
 * to_dict() builds the feature set, filling the numeric nulls of the
 * dataframe in place on the way.
 */
module Accessor {
  import opened Wrappers
  import opened Errors
  import opened Tables
  import opened SpatialReferences
  import opened Geometries
  import opened FeatureSets

  class GeoAccessor {
    /** self.obj: the dataframe, updated in place by a build. */
    var obj: Table
    /** self.geom_type: an "esriGeometry*" name once geometry() has succeeded. */
    var geomType: Option<string>
    /** self.spatial_reference */
    var spatialReference: Option<SpatialRef>

    constructor (df: Table)
      ensures obj == df && geomType == None && spatialReference == None
    {
      obj := df;
      geomType := None;
      spatialReference := None;
    }

    /**
     * sr(input): stores the normalised reference, keeps the old one for a dict
     * without a 'spatialReference' key, and on an error raises it with the old
     * reference kept.  Returns the accessor itself on success.
     */
    method Sr(input: SrInput) returns (r: Result<GeoAccessor, Error>)
      modifies this`spatialReference
      ensures ResolveSr(input).Success? ==> r == Success(this)
      ensures ResolveSr(input).Failure? ==> r == Failure(ResolveSr(input).error)
      ensures spatialReference ==
                if ResolveSr(input).Success? && ResolveSr(input).value.Some?
                then ResolveSr(input).value else old(spatialReference)
    {
      match ResolveSr(input)
      case Failure(e) =>
        r := Failure(e);
      case Success(resolved) =>
        if resolved.Some? {
          spatialReference := resolved;
        }
        r := Success(this);
    }

    /** geometry(t): stores the name of a supported class; otherwise raises TypeError and stores nothing. */
    method Geometry(t: GeometryClass) returns (r: Result<GeoAccessor, Error>)
      modifies this`geomType
      ensures GeometryType(t).Success? ==> r == Success(this) && geomType == Some(GeometryType(t).value)
      ensures GeometryType(t).Failure? ==> r == Failure(UnsupportedGeometryType) && geomType == old(geomType)
    {
      match GeometryType(t)
      case Failure(e) =>
        r := Failure(e);
      case Success(name) =>
        geomType := Some(name);
        r := Success(this);
    }

    /**
     * __feature_set__: raises when no geometry type is set, with nothing changed;
     * otherwise defaults the spatial reference, fills the numeric nulls of the
     * dataframe in place (kept even when a later step raises) and builds the
     * feature set from the filled dataframe.
     */
    method BuildFeatureSet() returns (r: Result<FeatureSet, Error>)
      requires obj.WellFormed()
      modifies this`obj, this`spatialReference
      ensures geomType.None? ==>
                r == Failure(GeometryTypeRequired)
                && obj == old(obj) && spatialReference == old(spatialReference)
      ensures geomType.Some? ==>
                && spatialReference == Some(if old(spatialReference).Some? then old(spatialReference).value
                                            else WkidRef(DefaultWkid))
                && obj == FillNumericNulls(old(obj))
                && r == FeatureSetOf(geomType.value, spatialReference.value, obj)
      ensures obj.WellFormed()
    {
      if geomType.None? {
        r := Failure(GeometryTypeRequired);
        return;
      }
      if spatialReference.None? {
        var _ := Sr(Unset);
      }
      obj := FillNumericNulls(obj);
      r := FeatureSetOf(geomType.value, spatialReference.value, obj);
    }

    /** to_dict() */
    method ToDict() returns (r: Result<FeatureSet, Error>)
      requires obj.WellFormed()
      modifies this`obj, this`spatialReference
      ensures geomType.None? ==>
                r == Failure(GeometryTypeRequired)
                && obj == old(obj) && spatialReference == old(spatialReference)
      ensures geomType.Some? ==>
                && spatialReference == Some(if old(spatialReference).Some? then old(spatialReference).value
                                            else WkidRef(DefaultWkid))
                && obj == FillNumericNulls(old(obj))
                && r == FeatureSetOf(geomType.value, spatialReference.value, obj)
      ensures obj.WellFormed()
    {
      r := BuildFeatureSet();
    }
  }

  /**
   * Building twice in a row gives the same dict and leaves the same state:
   * the second build re-derives everything from the already filled dataframe.
   */
  method RebuildIsStable(a: GeoAccessor) returns (first: Result<FeatureSet, Error>, second: Result<FeatureSet, Error>)
    requires a.obj.WellFormed()
    modifies a
    ensures first == second
  {
    first := a.ToDict();
    ghost var filled := a.obj;
    second := a.ToDict();
    FillNumericNullsIdempotent(old(a.obj));
    assert a.obj == filled;
  }
}
