/**
 * The rows of a GeoDataFrame as the map generator sees them: each feature
 * has an OpenStreetMap identity and a geometry whose type name GeoPandas
 * reports through `geometry.type`. Coordinates are not modelled; spatial
 * relations between features and regions enter the model as parameters.
 */
module Features {
  /** The geometry type names shapely reports. */
  datatype GeometryType =
    | Point
    | MultiPoint
    | LineString
    | LinearRing
    | MultiLineString
    | Polygon
    | MultiPolygon
    | GeometryCollection

  datatype Feature = Feature(osmId: int, kind: GeometryType)

  /** The OSM tag filter of a features query: `{'building': True}` or `{'waterway': True}`. */
  datatype Tag = Building | Waterway
}
