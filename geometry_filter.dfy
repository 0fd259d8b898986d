/**
 * The geometry-type filters applied right after download: the buildings
 * query keeps only rows whose geometry type is exactly `Polygon`, the
 * waterways query only rows of type `LineString`.
 */
module GeometryFilter {
  import opened Features
  import opened Sequences

  predicate IsPolygon(f: Feature)
  {
    f.kind == Polygon
  }

  predicate IsLineString(f: Feature)
  {
    f.kind == LineString
  }

  /** `buildings[buildings.geometry.type == 'Polygon']` */
  function FilterBuildings(buildings: seq<Feature>): (kept: seq<Feature>)
    ensures forall i :: 0 <= i < |kept| ==> kept[i].kind == Polygon
  {
    Filter(buildings, IsPolygon)
  }

  /** `waterways[waterways.geometry.type == 'LineString']` */
  function FilterWaterways(waterways: seq<Feature>): (kept: seq<Feature>)
    ensures forall i :: 0 <= i < |kept| ==> kept[i].kind == LineString
  {
    Filter(waterways, IsLineString)
  }

  /**
   * The building filter keeps exactly the polygons (so multipolygons,
   * points and lines are dropped), each as often as it occurs, in the
   * input's order, and turns an empty table into an empty one.
   */
  lemma FilterBuildingsExact(buildings: seq<Feature>, f: Feature)
    ensures f in FilterBuildings(buildings) <==> f in buildings && f.kind == Polygon
    ensures f.kind == MultiPolygon ==> f !in FilterBuildings(buildings)
    ensures multiset(FilterBuildings(buildings))[f] == if f.kind == Polygon then multiset(buildings)[f] else 0
    ensures IsSubsequence(FilterBuildings(buildings), buildings)
    ensures buildings == [] ==> FilterBuildings(buildings) == []
  {
    FilterMembership(buildings, IsPolygon, f);
    FilterMultiplicity(buildings, IsPolygon, f);
    FilterIsSubsequence(buildings, IsPolygon);
  }

  /**
   * The waterway filter keeps exactly the line strings (so multi-line
   * strings and polygonal water bodies are dropped), each as often as it
   * occurs, in the input's order, and turns an empty table into an empty one.
   */
  lemma FilterWaterwaysExact(waterways: seq<Feature>, f: Feature)
    ensures f in FilterWaterways(waterways) <==> f in waterways && f.kind == LineString
    ensures f.kind == MultiLineString ==> f !in FilterWaterways(waterways)
    ensures multiset(FilterWaterways(waterways))[f] == if f.kind == LineString then multiset(waterways)[f] else 0
    ensures IsSubsequence(FilterWaterways(waterways), waterways)
    ensures waterways == [] ==> FilterWaterways(waterways) == []
  {
    FilterMembership(waterways, IsLineString, f);
    FilterMultiplicity(waterways, IsLineString, f);
    FilterIsSubsequence(waterways, IsLineString);
  }
}
