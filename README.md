# sparcgis: the Koalas spatial accessor, modelled in Dafny

sparcgis attaches an accessor, `df.spatial`, to a Koalas dataframe. The accessor turns the dataframe into an Esri feature-set dictionary that a GIS web service can consume. The caller first picks a spatial reference with `sr()` and a geometry type with `geometry()`. Both return the accessor, so calls can be chained. `to_dict()` then builds the feature set:

- it fails if no geometry type was chosen;
- it defaults the spatial reference to wkid 4326;
- it fills the missing cells of the numeric columns with 0, in the dataframe itself;
- it derives one Esri field per column from that column's first non-missing value;
- it encodes every row as a feature with a `SHAPE` part and an `attributes` part.

The project models `sparcgis/koalas.py`:

| module | file | models |
|---|---|---|
| `Wrappers` | wrappers.dfy | `Option`, `Result`, and `MapAll`, a list comprehension whose calls may raise |
| `Errors` | errors.dfy | one error per kind of failure, each with its Python exception class: ValueError, TypeError, KeyError, AttributeError, NotImplementedError |
| `Tables` | tables.dfy | cell values, columns, dtypes, the records of `to_dict('records')`, and `fillna(0)` on numeric columns |
| `SpatialReferences` | spatial_reference.dfy | `sr()`'s normaliser and `int()` on strings |
| `Geometries` | geometry.dfy | `_get_geometry_type` and the encoder typemap |
| `Fields` | fields.dfy | `_create_field` |
| `Features` | features.dfy | `_create_point_feature`, the three stub encoders, and the per-record typemap call |
| `FeatureSets` | feature_set.dfy | the dict that `__feature_set__` assembles, as a pure function, with lemmas about its shape |
| `Accessor` | accessor.dfy | `KoalasGeoAccessor` as a class with mutable `obj`, `geomType` and `spatialReference` |

The pure parts of the source (the geometry lookup, the `isinstance` chain, the dict comprehensions) are functions. The accessor's methods assign its fields. Their `ensures` tie the new state to those functions.

Where the code and its tests disagree, or the code does something a reader may not expect, the model follows the code:

- The returned dict has no `spatialReference` key (koalas.py lines 75-82). The test at tests/test_koalas.py:178 expects one.
- `attributes` drops the literal keys `'x'`, `'y'` and `'spatialReference'`, which are the keys of the SHAPE dict, and not the `x_col`/`y_col` arguments (lines 242-247). With other coordinate columns, those columns end up in both parts (`Features.CustomCoordinateColumnsStayInAttributes`). The build always uses the defaults `'x'` and `'y'`, so each column lands in SHAPE or in attributes, except a column named `SHAPE` or `spatialReference`, which lands in neither (`FeatureSets.PointBuildPartition`).
- The stub encoders are called as `f(r, sr=...)`, but they declare only `record`. So once every field has built, a non-point build raises TypeError (unexpected keyword `sr`) at its first row, not NotImplementedError. A table with no rows never calls them; it fails only if a field fails (below).
- For a dict argument, `sr()` stores the whole wrapper dict `{"spatialReference": {...}}` (line 120). A dict without a `"spatialReference"` key is ignored without an error. A bare `{"wkid": n}` is such a dict.
- A column whose dtype is not string, binary or array and that holds no value at all (every cell missing, or no rows) samples `""` and so reaches `df[col].str` (line 195), outside the `try` of lines 188-192. That accessor only accepts string, binary and array columns, so the build raises. After the fill this happens only for a table without rows or for a column that is not picked by `select_dtypes`, such as an all-NaT datetime column (`FeatureSets.ZeroRowBuild`).
- `select_dtypes(include=[float, int, complex])` picks only int64, float64 and complex columns. An int8/16/32 or float32 column keeps its missing cells.
- The errors are the Python exceptions of the code. The missing geometry type is a ValueError and an unknown geometry class is a TypeError (lines 62-66, 175-177).

## Model

| member | source | states |
|---|---|---|
| `Wrappers.MapAll` | sparcgis/koalas.py:88 | a comprehension over fallible calls succeeds iff every call does; then it gives one result per element, in order; otherwise it gives the error of the first failing element |
| `Tables.ZeroOf` | sparcgis/koalas.py:85 | the filled 0 keeps the column's numeric kind and width: an integer 0, a float 0.0 or a complex 0 |
| `Tables.FillColumn` | sparcgis/koalas.py:84-85 | a column that `select_dtypes` picks (int64, float64, complex) has no missing cell afterwards; each former null becomes the dtype's 0; non-null cells are kept; any other column is unchanged; the name, dtype and length are kept |
| `Tables.FillNumericNulls` | sparcgis/koalas.py:84-85 | every column is filled as above, in column order; the row count and the names are kept; a well-formed table stays well-formed; no picked column has a missing cell |
| `Tables.FillNumericNullsIdempotent` | sparcgis/koalas.py:84-85 | filling twice is filling once, so a second build sees the same table |
| `Tables.Row` | sparcgis/koalas.py:98 | a record has exactly the column names as keys, and maps each name to that column's cell in the row |
| `Tables.Records` | sparcgis/koalas.py:98 | one record per row, in row order, each with every column's cell in that row |
| `SpatialReferences.ParseInt` | sparcgis/koalas.py:127 | a string parses exactly when it is one or more digits, or a sign followed by one or more digits |
| `SpatialReferences.NatDigits` | sparcgis/koalas.py:127 | the decimal form of a natural number is a non-empty digit string without a leading zero |
| `SpatialReferences.ParseIntRoundTrip` | sparcgis/koalas.py:125-129 | `int(str(n)) == n` for every integer n |
| `SpatialReferences.ResolveSr` | sparcgis/koalas.py:101-139 | `sr()` stores `{wkid: 4326}`; a SpatialReference is stored as it is; `sr(n)` stores `{wkid: n}`; an integer string stores `{wkid: int(s)}`; a dict with a `spatialReference` entry naming `wkid`/`latestWkid` is stored whole; a dict without that key changes nothing; an entry that is not a dict raises AttributeError and one naming no wkid raises ValueError; any other string or type raises ValueError |
| `SpatialReferences.ParseIntLeadingZeroAndPlus` | sparcgis/koalas.py:127 | a leading `0` or `+` before a digit string, or a `0` after a `-`, does not change what `int()` reads |
| `SpatialReferences.NumericStringSr` | sparcgis/koalas.py:125-129 | `sr(str(n))` stores `{wkid: n}` for every integer n |
| `SpatialReferences.SrExamples` | sparcgis/koalas.py:106-134 | `sr()`, `sr("4326")`, `sr("+4326")` and `sr("04326")` store wkid 4326; `sr(3857)` stores wkid 3857; `sr("abc")` and `sr("-")` raise ValueError |
| `Geometries.GeometryType` | sparcgis/koalas.py:164-177 | Point, Polyline, MultiPoint and Polygon map to `esriGeometryPoint`, `esriGeometryPolyline`, `esriGeometryMultipoint` and `esriGeometryPolygon`; each name selects an encoder, the point encoder exactly for Point; any other class raises TypeError |
| `Geometries.EncoderFor` | sparcgis/koalas.py:90-95 | the typemap is defined exactly on the four `esriGeometry*` names, and maps each to its own encoder: point, polyline, polygon, multipoint |
| `Fields.EsriName` | sparcgis/koalas.py:205-226 | String, Date, SmallInteger, BigInteger, Double and Single are written as `esriFieldTypeString`, `esriFieldTypeDate`, `esriFieldTypeSmallInteger`, `esriFieldTypeBigInteger`, `esriFieldTypeDouble` and `esriFieldTypeSingle` |
| `Fields.EsriNameInjective` | sparcgis/koalas.py:205-226 | different field types are written as different strings |
| `Fields.FirstValidFrom` | sparcgis/koalas.py:189 | `first_valid_index`: the least position holding a value, or none when every cell is missing |
| `Fields.Sample` | sparcgis/koalas.py:188-192 | the inspected value is the first non-missing cell, or `""` when the column has none |
| `Fields.MaxTextLengthUpTo` | sparcgis/koalas.py:195 | the maximum string length among the cells that hold text: attained by one of them, bounding all of them, and absent exactly when none holds text |
| `Fields.StringLength` | sparcgis/koalas.py:195-203 | the length of the longest string in the column, or 255 when the column holds no string |
| `Fields.Classify` | sparcgis/koalas.py:194-230 | str gives String, the date types give Date, int8/16/32 give SmallInteger, int/int64 give BigInteger, float/float64 give Double, float32 gives Single, and every other kind is unsupported |
| `Fields.CreateField` | sparcgis/koalas.py:180-230 | name and alias are the column name; the type is the sample's class; `length` is present exactly for String and is then `StringLength`; a text sample in a column that `.str` does not accept (not string, binary or array) raises there; an unsupported sample raises TypeError naming its type |
| `Fields.AllMissingColumnIsText` | sparcgis/koalas.py:188-198 | a string, binary or array column with no value, or with no rows, is a String field of length 255 |
| `Fields.AllMissingOtherColumnFails` | sparcgis/koalas.py:188-195 | a column of any other dtype with no value, or with no rows, raises at `df[col].str` |
| `Fields.TextColumnLength` | sparcgis/koalas.py:194-207 | when the sample of a column that `.str` accepts is a string, the field is String and its length is at least that string's length |
| `Fields.FieldsOf` | sparcgis/koalas.py:88 | one field per column, in column order, each that column's field; otherwise the error of the first failing column |
| `Features.Attributes` | sparcgis/koalas.py:242-247 | exactly the record's keys outside `SHAPE`, `x`, `y`, `spatialReference`, `exclude` and the geometry key, with their values copied unchanged |
| `Features.PointFeature` | sparcgis/koalas.py:233-248 | SHAPE is `{x: r[x_col], y: r[y_col], spatialReference: sr}`, read from `r[geom_key]` when that key is given; KeyError for a missing coordinate, a missing geometry key, or a coordinate missing from `r[geom_key]`; TypeError when `r[geom_key]` is not a dict; attributes as above |
| `Features.PointPartition` | sparcgis/koalas.py:244-247 | with the default columns, every key that is not excluded and not `SHAPE`/`spatialReference` is consumed by SHAPE (`x`, `y`) or copied to attributes, never both |
| `Features.CustomCoordinateColumnsStayInAttributes` | sparcgis/koalas.py:245-247 | a coordinate column not named `x`/`y` appears both in SHAPE and in attributes, and a column named `x` is dropped even though SHAPE did not read it |
| `Features.MultipointFeature` | sparcgis/koalas.py:250-254 | raises NotImplementedError for every record |
| `Features.PolylineFeature` | sparcgis/koalas.py:256-257 | raises NotImplementedError for every record |
| `Features.PolygonFeature` | sparcgis/koalas.py:259-260 | raises NotImplementedError for every record |
| `Features.EncodeRecord` | sparcgis/koalas.py:90-97 | KeyError for a name outside the typemap; the point encoder with its defaults for Point; TypeError for the keyword `sr` for the three stubs |
| `Features.PointRecordFeature` | sparcgis/koalas.py:233-247 | the point encoder succeeds on a record exactly when it has `x` and `y`; SHAPE holds them, and the attributes are every other key except `SHAPE` and `spatialReference`, copied |
| `Features.EncodeAll` | sparcgis/koalas.py:97-98 | one feature per record, in record order; otherwise the error of the first failing record |
| `FeatureSets.FeatureSetOf` | sparcgis/koalas.py:75-98 | the three id/display names are empty; `geometryType` is the stored name; one field per column in column order; one feature per row in row order; a field error is raised before any encoding error, and otherwise the error of the first record whose encoding fails is raised |
| `FeatureSets.ZeroRowBuild` | sparcgis/koalas.py:88-98 | a table without rows builds exactly when `.str` accepts every column (string, binary or array dtype), with no features and every field String of length 255; otherwise it raises at `.str` |
| `FeatureSets.StubEncodersFailOnRows` | sparcgis/koalas.py:92-97 | a non-point build with at least one row and whose fields all build fails with the TypeError for `sr` |
| `FeatureSets.PointBuildPartition` | sparcgis/koalas.py:97-98 | a point build needs columns `x` and `y`; each feature's SHAPE holds that row's `x` and `y`, and its attributes are all other columns except `SHAPE`/`spatialReference`, copied from the row |
| `FeatureSets.SampleTableBuild` | tests/test_koalas.py:45-55 | on the tests' dataframe: fields x and y are Double, names is String of length 10; there are four features; the last is at (0, 0) in wkid 4326; every feature's attributes hold only `names` |
| `Accessor.GeoAccessor.constructor` | sparcgis/koalas.py:51-56 | holds the dataframe, with no geometry type and no spatial reference |
| `Accessor.GeoAccessor.Sr` | sparcgis/koalas.py:101-140 | stores the normalised reference and returns the accessor; a dict without `spatialReference` changes nothing; errors leave the old reference |
| `Accessor.GeoAccessor.Geometry` | sparcgis/koalas.py:142-149 | stores the geometry name and returns the accessor; an unsupported class raises TypeError and leaves the stored type |
| `Accessor.GeoAccessor.BuildFeatureSet` | sparcgis/koalas.py:58-99 | without a geometry type it raises and changes nothing; otherwise it defaults the reference to wkid 4326, replaces the dataframe by its filled version (even if the build then raises), and returns `FeatureSetOf` on the filled dataframe |
| `Accessor.GeoAccessor.ToDict` | sparcgis/koalas.py:157-158 | the same as `BuildFeatureSet` |
| `Accessor.RebuildIsStable` | sparcgis/koalas.py:58-99 | calling `to_dict()` twice returns the same result both times |

## Left out

- The Koalas/Spark plumbing is not modelled: the accessor registration decorator (line 30), `select_dtypes`, `to_dict('records')`, `first_valid_index` and distributed execution. The table is plain sequences, and a column's dtype decides whether `select_dtypes(include=[float, int, complex])` picks it (int64, float64 and complex only) and whether `.str` accepts it (string, binary and array columns). Spark's nullable narrow integer types are modelled as their numpy widths.
- `to_featureset` (lines 160-161) is left out because it is a call into arcgis `FeatureSet.from_dict`. `from_layer` (lines 151-155) is left out because it only raises NotImplementedError.
- The internals of arcgis `SpatialReference` are left out: a spatial reference is the dict it is built from.
- The unused fields `index` and `_name`, the unused locals `cols_lower` and `date_fields`, and the commented-out `_alt_create_field`/`_get_esri_type` are left out because they do not affect any result.
- Aliasing is not modelled. The accessor's `obj` is the caller's dataframe, so the in-place fill is visible to the caller. Here `obj` is a value field that the build reassigns.
- Dict key order is not modelled: records, attributes and spatial references are maps.
- Column names are assumed distinct (`Table.WellFormed`), so each record has one entry per column.
- These Python runtime-type details are left out: `bool` counting as `int`, `np.float64` counting as `float`, and `pd.Timestamp` counting as `datetime`. Each cell has one abstract value kind, so the order of the `isinstance` chain cannot change a result.
- `SpatialReferences.ParseInt`: accepts only an optional sign followed by ASCII digits. It does not cover `int()`'s surrounding whitespace, digit-group underscores or non-ASCII digits.
- `Fields.StringLength`: only the cells that hold text are measured. A Koalas string column holds only strings, and the model follows Koalas. pandas would also measure a dict, list or tuple in an object column, and the model does not. The lengths of binary and array cells are not modelled either, because such a column reaches the length only when it holds no value. The `int(l)` fallback on lines 199-203 has no other case to cover.
- The bare `except:` on lines 191-192 is modelled only for a column without a valid index (no rows, or every cell missing): that is the only failure `first_valid_index`/`loc` has on a table of plain sequences.
- Floating-point payloads are opaque `real`s. Nothing in the accessor computes with them.
- `Accessor.GeoAccessor.Sr` and `Geometry` return `Result`s. The object is shared by reference, so chaining works as in Python, but Dafny cannot chain method calls inside one expression.
- The test harness is out of scope: random data, the version check and the empty tests.
