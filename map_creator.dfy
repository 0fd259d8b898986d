/**
 * `MapCreator`: the pipeline run for one location. It downloads the
 * buildings, the road network and the waterways, keeps the buildings that
 * are polygons and the waterways that are line strings, picks the UTM
 * coordinate system of the location, buffers waterways and roads in it
 * and selects the buildings that meet each buffer. Every step assigns
 * fields of the object, as the source does: the road edges first go to
 * `gdfRoads`, and `roads` is only assigned when the tables are read back
 * after all three downloads.
 *
 * Reprojection, buffering and union are one abstract `BufferUnion`
 * function; the intersection test is an abstract predicate. Writing each
 * table to a shapefile and reading it back is taken to be lossless.
 */
module MapCreation {
  import opened Wrappers
  import opened Features
  import opened Download
  import Utm
  import GeometryFilter
  import Proximity

  /**
   * Project the line features to the given EPSG code, buffer each by the
   * given number of meters, project back and union the buffers.
   */
  type BufferUnion<Region> = (seq<Feature>, int, int) -> Region

  /** The result of `create_detailed_map`: the saved map's path, or a propagated download exception. */
  datatype MapOutcome = MapSaved(path: string) | Failed

  /**
   * Every building that ends up in a selection was downloaded, is a
   * polygon and meets the selecting region.
   */
  lemma SelectedBuildingsArePolygons<Region>(downloaded: seq<Feature>, region: Region,
                                             intersects: (Feature, Region) -> bool, b: Feature)
    requires b in Proximity.NearbyBuildings(GeometryFilter.FilterBuildings(downloaded), region, intersects)
    ensures b in downloaded && b.kind == Polygon && intersects(b, region)
  {
    Proximity.NearbyBuildingsExact(GeometryFilter.FilterBuildings(downloaded), region, intersects, b);
    GeometryFilter.FilterBuildingsExact(downloaded, b);
  }

  class MapCreator<Region> {
    const latitude: real
    const longitude: real
    const name: string
    const loadDist: int
    const waterBufferSize: int
    const roadBufferSize: int
    const dataDownloader: DataDownloader

    var buildings: seq<Feature>
    var gdfRoads: seq<Feature>
    var roads: seq<Feature>
    var waterways: seq<Feature>
    var utmZone: int
    var isNorthernHemisphere: bool
    var epsgCode: int
    var waterBufferUnion: Option<Region>
    var roadBufferUnion: Option<Region>
    var nearbyBuildingsWater: seq<Feature>
    var nearbyBuildingsRoad: seq<Feature>
    var mapName: string

    /** The downloader shares the location and uses the load distance; retries and sleep keep their defaults. */
    constructor (latitude: real, longitude: real, name: string,
                 loadDist: int := 2000, waterBufferSize: int := 150, roadBufferSize: int := 20)
      ensures this.latitude == latitude && this.longitude == longitude && this.name == name
      ensures this.loadDist == loadDist
      ensures this.waterBufferSize == waterBufferSize && this.roadBufferSize == roadBufferSize
      ensures dataDownloader.latitude == latitude && dataDownloader.longitude == longitude
      ensures dataDownloader.dist == loadDist
      ensures dataDownloader.maxRetries == 5 && dataDownloader.sleepTime == 5.0
      ensures buildings == [] && gdfRoads == [] && roads == [] && waterways == []
      ensures waterBufferUnion == None && roadBufferUnion == None
      ensures nearbyBuildingsWater == [] && nearbyBuildingsRoad == []
    {
      this.latitude := latitude;
      this.longitude := longitude;
      this.name := name;
      this.loadDist := loadDist;
      this.waterBufferSize := waterBufferSize;
      this.roadBufferSize := roadBufferSize;
      dataDownloader := new DataDownloader(latitude, longitude, dist := loadDist);
      buildings, gdfRoads, roads, waterways := [], [], [], [];
      utmZone, isNorthernHemisphere, epsgCode := 0, false, 0;
      waterBufferUnion, roadBufferUnion := None, None;
      nearbyBuildingsWater, nearbyBuildingsRoad := [], [];
      mapName := "";
    }

    /** The outcome of the retrying download of one tag filter. */
    function DownloadOf(tag: Tag, provider: Provider): DownloadResult
    {
      dataDownloader.Retrieve(tag, provider).result
    }

    /** `download_building_data`: download with retry, then keep the polygons. */
    method DownloadBuildingData(provider: Provider) returns (ok: bool)
      modifies this`buildings
      ensures ok == DownloadOf(Building, provider).Downloaded?
      ensures ok ==> buildings == GeometryFilter.FilterBuildings(DownloadOf(Building, provider).features)
      ensures !ok ==> buildings == old(buildings)
    {
      var r: DownloadResult;
      ghost var calls, sleeps, waited;
      r, calls, sleeps, waited := dataDownloader.DownloadWithRetry(Building, provider);
      if !r.Downloaded? {
        return false;
      }
      buildings := r.features;
      buildings := GeometryFilter.FilterBuildings(buildings);
      ok := true;
    }

    /**
     * `download_road_network_data`: the road graph is fetched once, without
     * retry, and its edges become `gdfRoads`; `network` is the outcome
     * of that one fetch and conversion.
     */
    method DownloadRoadNetworkData(network: Attempt<seq<Feature>>) returns (ok: bool)
      modifies this`gdfRoads
      ensures ok == network.Ok?
      ensures ok ==> gdfRoads == network.value
      ensures !ok ==> gdfRoads == old(gdfRoads)
    {
      if network.Fail? {
        return false;
      }
      gdfRoads := network.value;
      ok := true;
    }

    /** `download_waterway_data`: download with retry, then keep the line strings. */
    method DownloadWaterwayData(provider: Provider) returns (ok: bool)
      modifies this`waterways
      ensures ok == DownloadOf(Waterway, provider).Downloaded?
      ensures ok ==> waterways == GeometryFilter.FilterWaterways(DownloadOf(Waterway, provider).features)
      ensures !ok ==> waterways == old(waterways)
    {
      var r: DownloadResult;
      ghost var calls, sleeps, waited;
      r, calls, sleeps, waited := dataDownloader.DownloadWithRetry(Waterway, provider);
      if !r.Downloaded? {
        return false;
      }
      waterways := r.features;
      waterways := GeometryFilter.FilterWaterways(waterways);
      ok := true;
    }

    /**
     * Read the three tables back from their shapefiles: the road table is
     * the saved road edges, and the buildings and waterways come back as
     * they were saved.
     */
    method ReloadTables()
      modifies this`roads
      ensures roads == gdfRoads
    {
      roads := gdfRoads;
    }

    /** The zone, the hemisphere and the EPSG code of the location. */
    method ComputeProjection()
      modifies this`utmZone, this`isNorthernHemisphere, this`epsgCode
      ensures utmZone == Utm.Zone(longitude) && isNorthernHemisphere == Utm.IsNorthern(latitude)
      ensures epsgCode == Utm.EpsgCode(latitude, longitude)
    {
      utmZone := Utm.Zone(longitude);
      isNorthernHemisphere := latitude >= 0.0;
      epsgCode := if isNorthernHemisphere then 32600 + utmZone else 32700 + utmZone;
    }

    /** Buffer the waterways in the location's coordinate system and select the buildings that meet the buffer. */
    method SelectBuildingsNearWater(buffer: BufferUnion<Region>, intersects: (Feature, Region) -> bool)
      modifies this`waterBufferUnion, this`nearbyBuildingsWater
      ensures waterBufferUnion == Some(buffer(waterways, epsgCode, waterBufferSize))
      ensures nearbyBuildingsWater == Proximity.NearbyBuildings(buildings, waterBufferUnion.value, intersects)
    {
      var region := buffer(waterways, epsgCode, waterBufferSize);
      waterBufferUnion := Some(region);
      nearbyBuildingsWater := Proximity.NearbyBuildings(buildings, region, intersects);
    }

    /** Buffer the roads in the location's coordinate system and select the buildings that meet the buffer. */
    method SelectBuildingsNearRoads(buffer: BufferUnion<Region>, intersects: (Feature, Region) -> bool)
      modifies this`roadBufferUnion, this`nearbyBuildingsRoad
      ensures roadBufferUnion == Some(buffer(roads, epsgCode, roadBufferSize))
      ensures nearbyBuildingsRoad == Proximity.NearbyBuildings(buildings, roadBufferUnion.value, intersects)
    {
      var region := buffer(roads, epsgCode, roadBufferSize);
      roadBufferUnion := Some(region);
      nearbyBuildingsRoad := Proximity.NearbyBuildings(buildings, region, intersects);
    }

    /** `save_map`: records the file the map is written to. */
    method SaveMap() returns (path: string)
      modifies this`mapName
      ensures mapName == "static/maps/map_" + name + ".html" && path == mapName
    {
      mapName := "static/maps/map_" + name + ".html";
      path := mapName;
    }

    /**
     * The part of `create_detailed_map` after the downloads: choose the
     * location's coordinate system, buffer waterways and roads in it,
     * select the buildings meeting each buffer and save the map, returning
     * the path relative to the static folder.
     */
    method AddAreaCoverages(buffer: BufferUnion<Region>, intersects: (Feature, Region) -> bool)
      returns (path: string)
      modifies this`utmZone, this`isNorthernHemisphere, this`epsgCode
      modifies this`waterBufferUnion, this`nearbyBuildingsWater
      modifies this`roadBufferUnion, this`nearbyBuildingsRoad, this`mapName
      ensures path == "maps/map_" + name + ".html"
      ensures mapName == "static/maps/map_" + name + ".html"
      ensures utmZone == Utm.Zone(longitude) && isNorthernHemisphere == Utm.IsNorthern(latitude)
      ensures epsgCode == Utm.EpsgCode(latitude, longitude)
      ensures waterBufferUnion == Some(buffer(waterways, epsgCode, waterBufferSize))
      ensures roadBufferUnion == Some(buffer(roads, epsgCode, roadBufferSize))
      ensures nearbyBuildingsWater == Proximity.NearbyBuildings(buildings, waterBufferUnion.value, intersects)
      ensures nearbyBuildingsRoad == Proximity.NearbyBuildings(buildings, roadBufferUnion.value, intersects)
    {
      ComputeProjection();
      SelectBuildingsNearWater(buffer, intersects);
      SelectBuildingsNearRoads(buffer, intersects);
      var _ := SaveMap();
      path := "maps/map_" + name + ".html";
    }

    /**
     * `create_detailed_map`: the whole run. It produces a map exactly when
     * the buildings, the road network and the waterways all download; the
     * first failure ends the run. On success the fields hold the filtered
     * tables, the location's coordinate system and the two selections.
     */
    method CreateDetailedMap(provider: Provider, network: Attempt<seq<Feature>>,
                             buffer: BufferUnion<Region>, intersects: (Feature, Region) -> bool)
      returns (outcome: MapOutcome)
      modifies this
      ensures outcome.MapSaved?
          <==> DownloadOf(Building, provider).Downloaded? && network.Ok? && DownloadOf(Waterway, provider).Downloaded?
      // The buildings are stored as soon as their download succeeds.
      ensures DownloadOf(Building, provider).Downloaded?
          ==> buildings == GeometryFilter.FilterBuildings(DownloadOf(Building, provider).features)
      ensures !DownloadOf(Building, provider).Downloaded? ==> buildings == old(buildings)
      // The road edges are fetched only after the buildings arrived.
      ensures DownloadOf(Building, provider).Downloaded? && network.Ok? ==> gdfRoads == network.value
      ensures !(DownloadOf(Building, provider).Downloaded? && network.Ok?) ==> gdfRoads == old(gdfRoads)
      // The waterways are downloaded only after the road edges arrived.
      ensures outcome.MapSaved?
          ==> waterways == GeometryFilter.FilterWaterways(DownloadOf(Waterway, provider).features)
      ensures !outcome.MapSaved? ==> waterways == old(waterways)
      // The road table is read back only once all three downloads succeeded.
      ensures outcome.MapSaved? ==> roads == network.value
      ensures !outcome.MapSaved? ==> roads == old(roads)
      ensures outcome.MapSaved? ==>
        && outcome.path == "maps/map_" + name + ".html"
        && mapName == "static/maps/map_" + name + ".html"
        && utmZone == Utm.Zone(longitude)
        && isNorthernHemisphere == Utm.IsNorthern(latitude)
        && epsgCode == Utm.EpsgCode(latitude, longitude)
        && waterBufferUnion == Some(buffer(waterways, epsgCode, waterBufferSize))
        && roadBufferUnion == Some(buffer(roads, epsgCode, roadBufferSize))
        && nearbyBuildingsWater == Proximity.NearbyBuildings(buildings, waterBufferUnion.value, intersects)
        && nearbyBuildingsRoad == Proximity.NearbyBuildings(buildings, roadBufferUnion.value, intersects)
      // A failed run never reaches the projection, the buffers, the selections or the save.
      ensures outcome.Failed? ==>
        && utmZone == old(utmZone) && isNorthernHemisphere == old(isNorthernHemisphere)
        && epsgCode == old(epsgCode)
        && waterBufferUnion == old(waterBufferUnion) && roadBufferUnion == old(roadBufferUnion)
        && nearbyBuildingsWater == old(nearbyBuildingsWater) && nearbyBuildingsRoad == old(nearbyBuildingsRoad)
        && mapName == old(mapName)
    {
      outcome := Failed;
      var ok := DownloadBuildingData(provider);
      if ok {
        ok := DownloadRoadNetworkData(network);
        if ok {
          ok := DownloadWaterwayData(provider);
          if ok {
            ReloadTables();
            var path := AddAreaCoverages(buffer, intersects);
            outcome := MapSaved(path);
          }
        }
      }
    }
  }
}
