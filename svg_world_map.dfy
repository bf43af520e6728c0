/**
 * SvgWorldMap (src/components/SvgWorldMap.tsx): the step function turning a Leaflet-style zoom
 * into the SVG map's zoom, the merge of place and IP markers, and the centre's coordinate swap.
 */
module SvgWorldMap {
  import opened Wrappers

  /** A place marker as received: name and coordinates. */
  datatype CityPoint = CityPoint(name: string, lat: real, lon: real)

  /** An IP marker as received; `labelText` is the optional `label`. */
  datatype IpPoint = IpPoint(ip: string, labelText: Option<string>, lat: real, lon: real)

  datatype MarkerKind = CityMarker | IpMarker

  /** One drawn marker. */
  datatype Marker = Marker(lat: real, lon: real, name: string, kind: MarkerKind)

  /** `mapZoomLevel`: at most 2 gives 1, at most 5 gives 3, at most 8 gives 8, else 15. */
  function MapZoomLevel(zoom: real): (level: int)
    ensures level == 1 || level == 3 || level == 8 || level == 15
    ensures level == 1 <==> zoom <= 2.0
    ensures level == 3 <==> 2.0 < zoom <= 5.0
    ensures level == 8 <==> 5.0 < zoom <= 8.0
    ensures level == 15 <==> zoom > 8.0
  {
    if zoom <= 2.0 then 1
    else if zoom <= 5.0 then 3
    else if zoom <= 8.0 then 8
    else 15
  }

  /** A larger Leaflet zoom never gives a smaller map zoom. */
  lemma MapZoomMonotone(a: real, b: real)
    requires a <= b
    ensures MapZoomLevel(a) <= MapZoomLevel(b)
  {
  }

  /** The zooms the map panel uses: 2 gives 1, 5 gives 3, 8 gives 8 and 10 gives 15. */
  lemma PanelZoomLevels()
    ensures MapZoomLevel(2.0) == 1 && MapZoomLevel(5.0) == 3
    ensures MapZoomLevel(8.0) == 8 && MapZoomLevel(10.0) == 15
  {
  }

  /** An IP marker's name: its label when non-empty, else its address. */
  function IpName(p: IpPoint): (name: string)
    ensures TruthyStr(p.labelText) ==> name == p.labelText.value
    ensures !TruthyStr(p.labelText) ==> name == p.ip
  {
    OrText(p.labelText, p.ip)
  }

  /** The `markers` memo: every city tagged as a city, then every IP location tagged as an IP. */
  method Markers(cities: seq<CityPoint>, ipLocations: seq<IpPoint>) returns (list: seq<Marker>)
    ensures |list| == |cities| + |ipLocations|
    ensures forall i :: 0 <= i < |cities| ==>
      list[i] == Marker(cities[i].lat, cities[i].lon, cities[i].name, CityMarker)
    ensures forall j :: 0 <= j < |ipLocations| ==>
      list[|cities| + j] == Marker(ipLocations[j].lat, ipLocations[j].lon, IpName(ipLocations[j]), IpMarker)
  {
    list := [];
    var i := 0;
    while i < |cities|
      invariant 0 <= i <= |cities|
      invariant |list| == i
      invariant forall k :: 0 <= k < i ==> list[k] == Marker(cities[k].lat, cities[k].lon, cities[k].name, CityMarker)
    {
      var c := cities[i];
      list := list + [Marker(c.lat, c.lon, c.name, CityMarker)];
      i := i + 1;
    }
    var j := 0;
    while j < |ipLocations|
      invariant 0 <= j <= |ipLocations|
      invariant |list| == |cities| + j
      invariant forall k :: 0 <= k < |cities| ==> list[k] == Marker(cities[k].lat, cities[k].lon, cities[k].name, CityMarker)
      invariant forall k :: 0 <= k < j ==>
        list[|cities| + k] == Marker(ipLocations[k].lat, ipLocations[k].lon, IpName(ipLocations[k]), IpMarker)
    {
      var p := ipLocations[j];
      list := list + [Marker(p.lat, p.lon, IpName(p), IpMarker)];
      j := j + 1;
    }
  }

  /** The SVG map's viewpoint: centre as [lon, lat] and its zoom. */
  datatype Viewpoint = Viewpoint(lon: real, lat: real, zoom: int)

  /**
   * The props' `center` ([lat, lon], default [20, 0]) swapped to [lon, lat], and the zoom
   * (default 2) stepped by `MapZoomLevel`.
   */
  function ViewpointOf(center: Option<(real, real)>, zoom: Option<real>): (v: Viewpoint)
    ensures center.Some? ==> v.lat == center.value.0 && v.lon == center.value.1
    ensures center.None? ==> v.lat == 20.0 && v.lon == 0.0
    ensures v.zoom == MapZoomLevel(zoom.GetOr(2.0))
  {
    var c := center.GetOr((20.0, 0.0));
    Viewpoint(c.1, c.0, MapZoomLevel(zoom.GetOr(2.0)))
  }

  /** Without props the map looks at latitude 20, longitude 0, at map zoom 1. */
  lemma DefaultViewpoint()
    ensures ViewpointOf(None, None) == Viewpoint(0.0, 20.0, 1)
  {
  }
}
