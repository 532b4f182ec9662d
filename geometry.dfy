/**
 * _get_geometry_type and the typemap of __feature_set__: the four arcgis
 * geometry classes, the "esriGeometry*" names they map to, and the encoder
 * each name selects.
 */
module Geometries {
  import opened Wrappers
  import opened Errors

  /** The argument of geometry(): one of the four arcgis classes, or anything else. */
  datatype GeometryClass = Point | Polyline | MultiPoint | Polygon | OtherClass(name: string)

  const PointType: string := "esriGeometryPoint"
  const PolylineType: string := "esriGeometryPolyline"
  const MultipointType: string := "esriGeometryMultipoint"
  const PolygonType: string := "esriGeometryPolygon"

  /** The valid_types lookup; a class outside it raises TypeError. */
  function GeometryType(t: GeometryClass): (r: Result<string, Error>)
    ensures t == Point ==> r == Success(PointType)
    ensures t == Polyline ==> r == Success(PolylineType)
    ensures t == MultiPoint ==> r == Success(MultipointType)
    ensures t == Polygon ==> r == Success(PolygonType)
    ensures t.OtherClass? ==> r == Failure(UnsupportedGeometryType)
    ensures r.Success? ==> EncoderFor(r.value).Some?
    ensures r.Success? ==> (EncoderFor(r.value) == Some(PointEncoder) <==> t == Point)
  {
    match t
    case Point => Success(PointType)
    case Polyline => Success(PolylineType)
    case MultiPoint => Success(MultipointType)
    case Polygon => Success(PolygonType)
    case OtherClass(_) => Failure(UnsupportedGeometryType)
  }

  /** The encoders the typemap can name. */
  datatype Encoder = PointEncoder | PolylineEncoder | PolygonEncoder | MultipointEncoder

  /** typemap[name]: None where Python raises KeyError. */
  function EncoderFor(name: string): (r: Option<Encoder>)
    ensures r.Some? <==> name in {PointType, PolylineType, MultipointType, PolygonType}
    ensures name == PointType ==> r == Some(PointEncoder)
    ensures name == PolylineType ==> r == Some(PolylineEncoder)
    ensures name == PolygonType ==> r == Some(PolygonEncoder)
    ensures name == MultipointType ==> r == Some(MultipointEncoder)
  {
    if name == PointType then Some(PointEncoder)
    else if name == PolylineType then Some(PolylineEncoder)
    else if name == PolygonType then Some(PolygonEncoder)
    else if name == MultipointType then Some(MultipointEncoder)
    else None
  }
}
