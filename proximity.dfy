/**
 * Selection of the buildings near a buffer region:
 * `buildings[buildings.intersects(region)]`. The region (a buffered and
 * unioned geometry) and the intersection test are left abstract: the
 * region is a value of a type parameter and `intersects` is the predicate
 * that decides, for one building and one region, whether they meet.
 */
module Proximity {
  import opened Features
  import opened Sequences

  /** The row mask `buildings.intersects(region)`, one building at a time. */
  function Intersecting<Region>(region: Region, intersects: (Feature, Region) -> bool): Feature -> bool
  {
    b => intersects(b, region)
  }

  /** The buildings that intersect the region, in the order of the building table. */
  function NearbyBuildings<Region>(buildings: seq<Feature>, region: Region, intersects: (Feature, Region) -> bool)
    : (nearby: seq<Feature>)
    ensures forall i :: 0 <= i < |nearby| ==> intersects(nearby[i], region)
  {
    Filter(buildings, Intersecting(region, intersects))
  }

  /**
   * The selection holds exactly the buildings that intersect the region,
   * each as often as in the building table, in the table's order; it is
   * thus a sub-collection of the buildings.
   */
  lemma NearbyBuildingsExact<Region>(buildings: seq<Feature>, region: Region,
                                     intersects: (Feature, Region) -> bool, b: Feature)
    ensures b in NearbyBuildings(buildings, region, intersects) <==> b in buildings && intersects(b, region)
    ensures multiset(NearbyBuildings(buildings, region, intersects))[b]
         == if intersects(b, region) then multiset(buildings)[b] else 0
    ensures IsSubsequence(NearbyBuildings(buildings, region, intersects), buildings)
  {
    FilterMembership(buildings, Intersecting(region, intersects), b);
    FilterMultiplicity(buildings, Intersecting(region, intersects), b);
    FilterIsSubsequence(buildings, Intersecting(region, intersects));
  }

  /**
   * A larger region (one that every building meeting the smaller region
   * also meets) can only add buildings to the selection, never remove
   * any, and the smaller selection sits inside the larger one in order.
   */
  lemma NearbyBuildingsMonotone<Region>(buildings: seq<Feature>, small: Region, large: Region,
                                        intersects: (Feature, Region) -> bool)
    requires forall b :: b in buildings && intersects(b, small) ==> intersects(b, large)
    ensures IsSubsequence(NearbyBuildings(buildings, small, intersects), NearbyBuildings(buildings, large, intersects))
    ensures forall b :: b in NearbyBuildings(buildings, small, intersects) ==> b in NearbyBuildings(buildings, large, intersects)
  {
    FilterMonotone(buildings, Intersecting(small, intersects), Intersecting(large, intersects));
    forall b | b in NearbyBuildings(buildings, small, intersects)
      ensures b in NearbyBuildings(buildings, large, intersects)
    {
      NearbyBuildingsExact(buildings, small, intersects, b);
      NearbyBuildingsExact(buildings, large, intersects, b);
    }
  }

  /** A region that no building meets (an empty buffer, say) selects nothing. */
  lemma NearbyBuildingsOfEmptyRegion<Region>(buildings: seq<Feature>, region: Region,
                                             intersects: (Feature, Region) -> bool)
    requires forall b :: b in buildings ==> !intersects(b, region)
    ensures NearbyBuildings(buildings, region, intersects) == []
  {
    FilterNone(buildings, Intersecting(region, intersects));
  }
}
