/**
 * `MapStyler`: the fixed style of every layer of the rendered map. Each
 * style function of the source ignores the feature it is given, so a
 * style is a function of the layer alone.
 */
module MapStyler {
  import opened Wrappers

  datatype Layer =
    | Roads
    | Waterways
    | Buildings
    | NearbyBuildingsWater
    | NearbyBuildingsRoad
    | BufferAreaWater
    | BufferAreaRoad

  /** A Leaflet path style; the optional entries are absent from the source's dictionary when `None`. */
  datatype Style = Style(color: string, weight: int, fillColor: Option<string>, fillOpacity: Option<real>)

  predicate IsBufferArea(layer: Layer)
  {
    layer == BufferAreaWater || layer == BufferAreaRoad
  }

  /**
   * The style table. Every outline is drawn with a positive weight, and
   * only the two buffer-area entries give a fill opacity, which lies
   * strictly between 0 and 1.
   */
  function StyleOf(layer: Layer): (s: Style)
    ensures s.weight >= 1
    ensures s.fillOpacity.Some? <==> IsBufferArea(layer)
    ensures s.fillOpacity.Some? ==> 0.0 < s.fillOpacity.value < 1.0
  {
    match layer
    case Roads => Style("blue", 2, None, None)
    case Waterways => Style("purple", 3, Some("purple"), None)
    case Buildings => Style("orange", 2, None, None)
    case NearbyBuildingsWater => Style("purple", 2, None, None)
    case NearbyBuildingsRoad => Style("red", 2, None, None)
    case BufferAreaWater => Style("maroon", 1, Some("magenta"), Some(0.2))
    case BufferAreaRoad => Style("purple", 1, Some("red"), Some(0.2))
  }

  /** The two selections of nearby buildings are outlined differently from all buildings and from each other. */
  lemma SelectionsStandOut()
    ensures StyleOf(NearbyBuildingsWater).color != StyleOf(Buildings).color
    ensures StyleOf(NearbyBuildingsRoad).color != StyleOf(Buildings).color
    ensures StyleOf(NearbyBuildingsWater).color != StyleOf(NearbyBuildingsRoad).color
  {
  }
}
