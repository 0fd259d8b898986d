# Map generator core, modelled in Dafny

The map generator builds one interactive map per location. It downloads the
OpenStreetMap buildings, road network and waterways around a point. It keeps
the buildings that are polygons and the waterways that are line strings. It
picks the UTM coordinate system of the location and buffers the waterways and
the roads by a fixed number of meters in that system. Finally it selects the
buildings that intersect each buffer. Everything geometric is done by
geospatial libraries. What this project models is the logic around those
calls:

- `Utm` (utm.dfy): the UTM zone `floor((lon + 180) / 6) + 1` and the EPSG code
  (`32600 + zone` when `lat >= 0`, else `32700 + zone`). `DecodeEpsg` is a
  reference reading of EPSG codes as UTM systems (326nn north, 327nn south,
  zones 1..60). It is used to state that the computed code names the
  location's own zone and hemisphere.
- `Download` (download.dfy): `DataDownloader` and its bounded retry loop. The
  features service is an oracle. For a query and an attempt number it either
  returns a table or raises. Sleeps are ghost counters. The loop is proved
  equal to the recursive specification `Run`. The lemmas beside `Run` state
  what the loop promises: the first success is returned, at most
  `max_retries` calls are made, and sleeps equal failed attempts, less one when the sleep time is
  refused. Sleep times
  are reals. `time.sleep` refuses a negative sleep time and one above
  2^63 - 1 nanoseconds (`Download.SleepRefused`). A refused sleep time ends
  the download at the first failed attempt.
- `Sequences` (sequences.dfy): indexing a table with a boolean mask, as an
  order-preserving `Filter`, with `IsSubsequence` as the order relation.
- `GeometryFilter` (geometry_filter.dfy): the `'Polygon'` filter for
  buildings and the `'LineString'` filter for waterways.
- `Proximity` (proximity.dfy): `buildings[buildings.intersects(region)]`. The
  region and the intersection predicate are abstract.
- `MapStyler` (map_styler.dfy): the constant style table of the map layers.
- `MapCreation` (map_creator.dfy): the `MapCreator` class. Its methods assign
  its fields step by step, as the source does. The road edges are stored in
  `gdfRoads` when they are fetched. `roads` is assigned only when the tables
  are read back from their shapefiles, after all three downloads.
  `CreateDetailedMap` runs the whole pipeline and states the final state.

Longitude and latitude are exact reals. `.Floor` is Python's `//` on floats
followed by `int()`. The library work is passed in as parameters:
reprojecting, buffering and unioning is one function, and `intersects` is a
predicate. The services are passed in too: the features service, and the
outcome of the single road-network fetch.

Four behaviours of the code are worth stating plainly:

- Longitude 180 gets zone 61, so the code is 32661 or 32761. In the EPSG
  registry those two codes are the UPS polar systems, not UTM zones
  (`Utm.ZoneAtAntimeridian`).
- The code never checks the location, so no member requires a valid one.
- Only the features queries are retried. The road graph is fetched once
  (mapGenerator.py:83), and a failure there ends the run.
- A `sleep_time` that `time.sleep` refuses makes it raise inside the
  `except` block: a negative one (ValueError) or one of about 9.2e9 seconds
  or more (OverflowError). The first failed attempt then ends the download
  with that exception and no retry (`Download.RunFromSleepRejected`).

## Model

| member | source | states |
|---|---|---|
| `Utm.Zone` | mapGenerator.py:157 | the zone is the one number whose six-degree band [WestEdge, WestEdge + 6) contains the longitude |
| `Utm.ZoneUnique` | mapGenerator.py:157 | any zone whose band contains the longitude is the computed zone, so bands do not overlap |
| `Utm.ZoneInRange` | mapGenerator.py:157 | every longitude in [-180, 180) gets a zone in 1..60 |
| `Utm.ZoneAtAntimeridian` | mapGenerator.py:157-159 | longitude 180 gets zone 61 and code 32661 (north) or 32761 (south), which are not UTM codes |
| `Utm.IsNorthern` | mapGenerator.py:158 | a positive latitude is northern, a negative one southern, and latitude exactly 0 is northern |
| `Utm.EpsgCode` | mapGenerator.py:157-159 | the code is 32600 + zone when latitude >= 0, else 32700 + zone; for longitude in [-180, 180) it lies in 32601..32660 or 32701..32760 |
| `Utm.DecodeEpsg` | mapGenerator.py:159 | a code it accepts names a zone in 1..60 |
| `Utm.EpsgRoundTrip` | mapGenerator.py:157-159 | for longitude in [-180, 180), reading the code back gives exactly the computed zone and hemisphere |
| `Utm.EpsgDependsOnZoneAndHemisphere` | mapGenerator.py:157-159 | the code depends only on the zone and the hemisphere, so it is a deterministic function of the location |
| `Utm.EquatorIsNorthern` | mapGenerator.py:158-159 | latitude exactly 0 counts as northern |
| `Download.RunFrom` | mapGenerator.py:59-65 | the loop continued from attempt `attempt` makes at least `attempt` sleeps, no more sleeps than calls, and no more calls than `max_retries` (or `attempt`, if that is already past the budget) |
| `Download.Run` | mapGenerator.py:59-65 | the whole loop makes no more sleeps than calls and at most `max_retries` calls; with `max_retries <= 0` it makes none and fails |
| `Download.RunFromSuccess` | mapGenerator.py:59-64 | a successful download returns the table of the first call that did not raise, within `max_retries` calls; every earlier call raised; sleeps are one fewer than calls |
| `Download.RunFromFailure` | mapGenerator.py:59-65 | a "Failed to download" exception comes after exactly `max_retries` calls (none when `max_retries <= 0`), all of which raised, each followed by a sleep, the last included; it needs a sleep time `time.sleep` accepts |
| `Download.RunFromSleepRejected` | mapGenerator.py:62-64 | the sleep exception means `time.sleep` refused the sleep time (negative, or above 2^63 - 1 nanoseconds) and the first attempt raised: one call, no sleep (in general, attempt + 1 calls and attempt sleeps) |
| `Download.RunFromNoRejection` | mapGenerator.py:64 | a sleep time `time.sleep` accepts never ends the download with the sleep exception |
| `Download.RunFromFirstOk` | mapGenerator.py:59-61 | conversely, if attempt k is the first that does not raise and k < `max_retries` (and k is the first attempt or `time.sleep` accepts the sleep time), the download returns its table after k + 1 calls and k sleeps |
| `Download.RunFromAllFail` | mapGenerator.py:59-65 | conversely, if every attempt within the budget raises, the download fails after using the whole budget, or after the first call with the sleep exception when `time.sleep` refuses the sleep time |
| `Download.RunSucceedsIff` | mapGenerator.py:59-65 | with a sleep time `time.sleep` accepts, the download succeeds if and only if some attempt below `max_retries` does not raise; with a refused one, if and only if the first attempt does not raise |
| `Download.RunSleepsCountFailures` | mapGenerator.py:62-64 | the number of sleeps is the number of calls, less the successful call or the call whose sleep was rejected |
| `Download.RecoversAfterTwoFailures` | mapGenerator.py:57-65 | a service that raises twice and then answers, with 5 attempts allowed, is answered on call 3 after 2 sleeps when `time.sleep` accepts the sleep time, and otherwise ends with the sleep exception after 1 call and no sleep |
| `Download.FailsAfterThreeFailures` | mapGenerator.py:57-65 | a service that always raises, with 3 attempts allowed, fails after exactly 3 calls and 3 sleeps when `time.sleep` accepts the sleep time, and otherwise ends with the sleep exception after 1 call and no sleep |
| `Download.DataDownloader.constructor` | mapGenerator.py:50-55 | stores the point, the distance (default 1000), `max_retries` (default 5) and `sleep_time` (default 5) |
| `Download.DataDownloader.DownloadWithRetry` | mapGenerator.py:57-65 | the loop returns what `Run` specifies, including the sleep exception for a refused sleep time, with the call and sleep counts `Run` gives, and waits `sleeps * sleep_time` seconds in all |
| `Sequences.Filter` | mapGenerator.py:94 | mask indexing never grows the table, and every kept row satisfies the mask |
| `Sequences.FilterMembership` | mapGenerator.py:94 | a row is kept if and only if it is in the table and satisfies the mask |
| `Sequences.FilterMultiplicity` | mapGenerator.py:94 | each satisfying row is kept as often as it occurs; every other row is dropped |
| `Sequences.FilterIsSubsequence` | mapGenerator.py:94 | mask indexing keeps the rows in their original order |
| `Sequences.FilterMonotone` | mapGenerator.py:178 | a mask that implies another selects a subsequence of what the other selects |
| `Sequences.FilterNone` | mapGenerator.py:178 | a mask no row satisfies selects nothing |
| `GeometryFilter.FilterBuildings` | mapGenerator.py:94 | every kept building has geometry type Polygon |
| `GeometryFilter.FilterWaterways` | mapGenerator.py:101 | every kept waterway has geometry type LineString |
| `GeometryFilter.FilterBuildingsExact` | mapGenerator.py:94 | exactly the polygons are kept, each as often as it occurs and in order; MultiPolygon rows are dropped; an empty table gives an empty table |
| `GeometryFilter.FilterWaterwaysExact` | mapGenerator.py:101 | exactly the line strings are kept, each as often as it occurs and in order; MultiLineString rows are dropped; an empty table gives an empty table |
| `Proximity.NearbyBuildings` | mapGenerator.py:178 | every selected building intersects the region |
| `Proximity.NearbyBuildingsExact` | mapGenerator.py:178 | a building is selected if and only if it is in the table and intersects the region; multiplicities and order are kept, so the selection is a sub-collection of the buildings |
| `Proximity.NearbyBuildingsMonotone` | mapGenerator.py:166-178 | a larger region can only add buildings to the selection, never remove any, and the smaller selection is an ordered subsequence of the larger |
| `Proximity.NearbyBuildingsOfEmptyRegion` | mapGenerator.py:178 | a region that no building meets selects nothing |
| `MapStyler.StyleOf` | mapGenerator.py:20-47 | every layer is outlined with a positive weight; only the two buffer areas have a fill opacity, and it lies strictly between 0 and 1 |
| `MapStyler.SelectionsStandOut` | mapGenerator.py:30-39 | the two nearby-building layers are outlined in colors different from all buildings and from each other |
| `MapCreation.SelectedBuildingsArePolygons` | mapGenerator.py:178 | every building in a selection was downloaded, is a polygon and meets the region |
| `MapCreation.MapCreator.constructor` | mapGenerator.py:68-76 | stores the location, the name, the load distance (default 2000) and the buffer sizes (defaults 150 and 20); the downloader gets the location and load distance, with 5 retries and a 5 second sleep |
| `MapCreation.MapCreator.DownloadBuildingData` | mapGenerator.py:91-94 | on success the buildings are the Polygon rows of the first table the service returned; on failure the field is unchanged |
| `MapCreation.MapCreator.DownloadRoadNetworkData` | mapGenerator.py:80-86 | the road graph is fetched once, with no retry; on success its edges are stored in `gdfRoads` and `roads` is not touched |
| `MapCreation.MapCreator.ReloadTables` | mapGenerator.py:118-122 | after reading the shapefiles back, the road table is the saved road edges; buildings and waterways are read back as saved |
| `MapCreation.MapCreator.DownloadWaterwayData` | mapGenerator.py:98-101 | on success the waterways are the LineString rows of the first table the service returned; on failure the field is unchanged |
| `MapCreation.MapCreator.ComputeProjection` | mapGenerator.py:157-159 | the zone, the hemisphere and the EPSG code are those `Utm` defines for the location |
| `MapCreation.MapCreator.SelectBuildingsNearWater` | mapGenerator.py:164-178 | the water buffer is the buffer union of the waterways in the location's code; the selection is the buildings meeting it |
| `MapCreation.MapCreator.SelectBuildingsNearRoads` | mapGenerator.py:187-201 | the road buffer is the buffer union of the roads in the location's code; the selection is the buildings meeting it |
| `MapCreation.MapCreator.SaveMap` | mapGenerator.py:105-110 | the map is recorded under `static/maps/map_<name>.html` and that path is returned |
| `MapCreation.MapCreator.AddAreaCoverages` | mapGenerator.py:155-219 | after the downloads: the zone, hemisphere and EPSG code are the location's, each buffer union is that of its features in that code, each selection is the buildings meeting its buffer, and the map is saved under `static/maps/map_<name>.html` and reported as `maps/map_<name>.html` |
| `MapCreation.MapCreator.CreateDetailedMap` | mapGenerator.py:112-219 | a map is produced if and only if buildings, road network and waterways all download; each downloaded table is stored once its download succeeds and is unchanged otherwise; `roads` becomes the road edges only on success and is unchanged on failure; on success the path is `maps/map_<name>.html` and the zone, hemisphere, EPSG code, both buffer unions and both selections are those of the location; on failure none of those nor the map name changes |

## Left out

- OSM downloads (`features_from_point`, `graph_from_point`, `graph_to_gdfs`): network calls. They are an oracle and a parameter.
- Reprojection, `.buffer`, `.unary_union` and the real `intersects`: floating-point computational geometry in libraries. They are one abstract function and one abstract predicate. Buffer area, round-trip accuracy and buffer geometry are therefore not modelled.
- Shapefile and GeoJSON writes and reads, and the directories created at import time: file I/O. Re-reading each table from its shapefile is treated as returning the table as it was saved: `ReloadTables` copies the road edges into `roads` and leaves buildings and waterways as they are.
- Attributes the source has not yet assigned (the tables, the buffer unions, the selections) do not exist until assigned, so reading one after a failed run raises AttributeError; the model starts them empty or `None`.
- The folium map, its feature groups, layer control and HTML output: rendering. Only the style table and the saved map's path are modelled.
- `time.sleep` and `print`: only the number of sleeps and the total seconds slept are kept, as ghost counters.
- Floating-point rounding, NaN and negative zero in the zone formula: coordinates are exact reals.
- SleepRefused: the refusal bound is exact real arithmetic on (2^63 - 1) / 10^9 seconds. The rounding of the float-to-nanoseconds conversion near that bound, platforms whose clock type is not 64 bits wide, and NaN or infinite sleep times are not modelled.
- The module-level run for one fixed location at the end of mapGenerator.py: script execution.
- app.py: a Flask wrapper. It passes keyword arguments that `MapCreator` does not accept.
- SystemTests.py: an end-to-end network run checked by eye.
