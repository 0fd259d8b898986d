/**
 * Choice of the projected coordinate system for a location: the UTM zone
 * derived from the longitude, the hemisphere from the sign of the
 * latitude, and the EPSG code of "WGS 84 / UTM zone <n><N|S>" that names
 * the pair (codes 326nn for the northern, 327nn for the southern
 * hemisphere). Coordinates are decimal degrees, modelled as exact reals.
 */
module Utm {
  import opened Wrappers

  /** Longitude of the western edge of the six-degree band of a zone number. */
  function WestEdge(zone: int): real
  {
    -180.0 + 6.0 * (zone - 1) as real
  }

  /**
   * The zone number `int((longitude + 180) // 6) + 1`: the one band whose
   * half-open interval [WestEdge, WestEdge + 6) contains the longitude.
   */
  function Zone(longitude: real): (zone: int)
    ensures WestEdge(zone) <= longitude < WestEdge(zone) + 6.0
  {
    ((longitude + 180.0) / 6.0).Floor + 1
  }

  /** A (zone, hemisphere) pair of the Universal Transverse Mercator system. */
  datatype UtmCrs = UtmCrs(zone: int, northern: bool)

  /**
   * The hemisphere of a latitude: north of the equator is northern, south
   * of it southern, and latitude exactly zero counts as northern.
   */
  predicate IsNorthern(latitude: real): (north: bool)
    ensures latitude > 0.0 ==> north
    ensures latitude == 0.0 ==> north
    ensures latitude < 0.0 ==> !north
  {
    latitude >= 0.0
  }

  /** The EPSG code computed for a location: 32600 + zone in the north, 32700 + zone in the south. */
  function EpsgCode(latitude: real, longitude: real): (code: int)
    ensures IsNorthern(latitude) ==> code - 32600 == Zone(longitude)
    ensures !IsNorthern(latitude) ==> code - 32700 == Zone(longitude)
    ensures -180.0 <= longitude < 180.0 ==> 32601 <= code <= 32660 || 32701 <= code <= 32760
  {
    var zone := Zone(longitude);
    if IsNorthern(latitude) then 32600 + zone else 32700 + zone
  }

  /**
   * The EPSG registry's reading of a code as a UTM coordinate system on
   * WGS 84: 32601..32660 are the northern zones 1..60, 32701..32760 the
   * southern ones; every other code names something else.
   */
  function DecodeEpsg(code: int): (crs: Option<UtmCrs>)
    ensures crs.Some? ==> 1 <= crs.value.zone <= 60
  {
    if 32601 <= code <= 32660 then Some(UtmCrs(code - 32600, true))
    else if 32701 <= code <= 32760 then Some(UtmCrs(code - 32700, false))
    else None
  }

  /** A longitude lies in exactly one band: the zone is the only number whose band contains it. */
  lemma ZoneUnique(longitude: real, zone: int)
    requires WestEdge(zone) <= longitude < WestEdge(zone) + 6.0
    ensures Zone(longitude) == zone
  {
  }

  /** Every longitude in [-180, 180) falls in one of the sixty zones. */
  lemma ZoneInRange(longitude: real)
    requires -180.0 <= longitude < 180.0
    ensures 1 <= Zone(longitude) <= 60
  {
  }

  /** The antimeridian itself, longitude 180, is put in zone 61, outside the UTM range. */
  lemma ZoneAtAntimeridian()
    ensures Zone(180.0) == 61
    ensures EpsgCode(0.0, 180.0) == 32661 && EpsgCode(-1.0, 180.0) == 32761
    ensures DecodeEpsg(EpsgCode(0.0, 180.0)) == None && DecodeEpsg(EpsgCode(-1.0, 180.0)) == None
  {
  }

  /**
   * For a longitude in [-180, 180) the code names the UTM coordinate
   * system of the location's zone and hemisphere, so the registry reads
   * back exactly the zone and hemisphere that were computed.
   */
  lemma EpsgRoundTrip(latitude: real, longitude: real)
    requires -180.0 <= longitude < 180.0
    ensures DecodeEpsg(EpsgCode(latitude, longitude)) == Some(UtmCrs(Zone(longitude), IsNorthern(latitude)))
  {
    ZoneInRange(longitude);
  }

  /** Locations in the same band and hemisphere share one coordinate system, whatever else differs. */
  lemma EpsgDependsOnZoneAndHemisphere(lat1: real, lon1: real, lat2: real, lon2: real)
    requires Zone(lon1) == Zone(lon2) && IsNorthern(lat1) == IsNorthern(lat2)
    ensures EpsgCode(lat1, lon1) == EpsgCode(lat2, lon2)
  {
  }

  /** A location on the equator gets the northern code. */
  lemma EquatorIsNorthern(longitude: real)
    ensures EpsgCode(0.0, longitude) == 32600 + Zone(longitude)
  {
  }
}
