/**
 * The exceptions the accessor raises, one constructor per kind of failure
 * (the Python exception class is named in each comment).
 */
module Errors {

  datatype Error =
    // ValueError from sr(): a string that is not an integer, or an input of another type
    | InvalidSpatialReference
    // ValueError from sr(): the wrapped dict names neither 'wkid' nor 'latestWkid'
    | MissingWkid
    // AttributeError from sr(): the 'spatialReference' entry has no keys() (it is not a dict)
    | EntryNotADict
    // TypeError from _get_geometry_type: not one of Point, Polyline, MultiPoint, Polygon
    | UnsupportedGeometryType
    // TypeError from _create_field, naming the sampled value's runtime type
    | UnsupportedColumnType(typeName: string)
    // AttributeError (pandas) or ValueError (Koalas) from _create_field: .str on a column whose dtype is not text
    | StrAccessorUnavailable
    // ValueError from __feature_set__: geometry() was never called
    | GeometryTypeRequired
    // KeyError: a record or a nested record lacks the named key
    | KeyMissing(key: string)
    // TypeError: record[geom_key] is not a dict, so it cannot be indexed by a column name
    | NotSubscriptable
    // TypeError: a stub encoder was called with a keyword argument it does not declare
    | UnexpectedKeyword(name: string)
    // NotImplementedError from the stub encoders
    | NotImplemented
}
