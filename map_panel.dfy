/**
 * MapPanel's selection chain (src/components/MapPanel.tsx): from the lookup state and the
 * country/province/city selection it decides the map mode, the centre, the zoom, the place
 * markers and the IP markers handed to the world map.
 */
module MapPanel {
  import opened Wrappers
  import opened Catalog

  const China := "CN"

  datatype LookupType = EmptyInput | Ipv4 | Ipv6 | HostnameInput | InvalidInput

  datatype MapMode = DefaultMode | CountryMode | ProvinceMode | CityMode | LookupMode

  /** `IpInfoResult` (src/types.ts): the part of a lookup result the map reads. */
  datatype IpInfoResult = IpInfoResult(ok: bool, ip: string, provider: string, latitude: Option<real>, longitude: Option<real>)

  /** A place marker: display name, catalog code and coordinates. */
  datatype Point = Point(name: string, code: string, lat: real, lon: real)

  /** An IP marker: the address, its label and coordinates. */
  datatype IpLocation = IpLocation(ip: string, labelText: string, lat: real, lon: real)

  /** What the panel hands to the world map. */
  datatype MapView = MapView(mode: MapMode, markers: seq<Point>, ipLocations: seq<IpLocation>, center: Option<Loc>, zoom: Option<int>)

  /** The chain either throws (reading a location that is not there) or selects a view. */
  datatype Selection = Crashed | Selected(view: MapView)

  /** The locals' initial values: no centre, no zoom, no markers. */
  const DefaultView := MapView(DefaultMode, [], [], None, None)

  /** The zoom each mode is shown at. */
  function ZoomOf(mode: MapMode): Option<int>
  {
    match mode
    case DefaultMode => None
    case CountryMode => Some(5)
    case ProvinceMode => Some(8)
    case CityMode => Some(10)
    case LookupMode => Some(8)
  }

  /** JavaScript truthiness of an optional coordinate (NaN is not modelled). */
  predicate TruthyNumber(x: Option<real>)
  {
    x.Some? && x.value != 0.0
  }

  /** `r.ok && r.latitude && r.longitude` */
  predicate Located(r: IpInfoResult)
  {
    r.ok && TruthyNumber(r.latitude) && TruthyNumber(r.longitude)
  }

  /** The IP marker built from a located result; its label is "<provider>: <ip>". */
  function ToLocation(r: IpInfoResult): IpLocation
    requires Located(r)
  {
    IpLocation(r.ip, r.provider + ": " + r.ip, r.latitude.value, r.longitude.value)
  }

  /** The `flatMap` keeping located results, in order. */
  function Locations(rs: seq<IpInfoResult>): (locs: seq<IpLocation>)
    ensures |locs| <= |rs|
    ensures locs == [] <==> forall i :: 0 <= i < |rs| ==> !Located(rs[i])
    ensures forall i :: 0 <= i < |rs| && Located(rs[i]) ==> ToLocation(rs[i]) in locs
    ensures forall l :: l in locs ==> exists i :: 0 <= i < |rs| && Located(rs[i]) && l == ToLocation(rs[i])
  {
    if rs == [] then []
    else
      var rest := Locations(rs[1..]);
      assert forall i :: 1 <= i < |rs| ==> rs[i] == rs[1..][i - 1];
      if Located(rs[0]) then [ToLocation(rs[0])] + rest else rest
  }

  /** The `flatMap` keeps the results' order: the locations of a concatenation are concatenated. */
  lemma {:induction false} LocationsAppend(a: seq<IpInfoResult>, b: seq<IpInfoResult>)
    ensures Locations(a + b) == Locations(a) + Locations(b)
    decreases |a|
  {
    if a == [] {
      assert a + b == b;
    } else {
      assert (a + b)[0] == a[0];
      assert (a + b)[1..] == a[1..] + b;
      LocationsAppend(a[1..], b);
    }
  }

  /** Markers for a record of cities, in insertion order, each coded by its key. */
  function CityMarkers(cities: Record<CityInfo>): (ps: seq<Point>)
    ensures |ps| == |cities|
    ensures forall i :: 0 <= i < |cities| ==>
      ps[i] == Point(cities[i].value.name, cities[i].key, cities[i].value.loc.lat, cities[i].value.loc.lon)
  {
    seq(|cities|, i requires 0 <= i < |cities| =>
      Point(cities[i].value.name, cities[i].key, cities[i].value.loc.lat, cities[i].value.loc.lon))
  }

  /** Markers for a record of provinces, in insertion order, each coded by its key. */
  function ProvinceMarkers(provinces: Record<ProvinceInfo>): (ps: seq<Point>)
    ensures |ps| == |provinces|
    ensures forall i :: 0 <= i < |provinces| ==>
      ps[i] == Point(provinces[i].value.name, provinces[i].key, provinces[i].value.loc.lat, provinces[i].value.loc.lon)
  {
    seq(|provinces|, i requires 0 <= i < |provinces| =>
      Point(provinces[i].value.name, provinces[i].key, provinces[i].value.loc.lat, provinces[i].value.loc.lon))
  }

  /** `dictionary?.[country]` */
  function CountryIn(d: Option<Dictionary>, country: string): Option<CountryInfo>
  {
    if d.None? then None else Lookup(d.value, country)
  }

  /** `dictionary?.CN?.provinces?.[province]` */
  function ChinaProvince(d: Option<Dictionary>, province: string): Option<ProvinceInfo>
  {
    if d.None? then None else ProvinceAt(d.value, China, province)
  }

  /** `dictionary?.CN?.provinces?.[province]?.cities?.[city]` */
  function ChinaCity(d: Option<Dictionary>, province: string, city: string): Option<CityInfo>
  {
    if d.None? then None else ProvinceCityAt(d.value, China, province, city)
  }

  /** `dictionary?.[country]?.cities?.[city]` */
  function CountryCity(d: Option<Dictionary>, country: string, city: string): Option<CityInfo>
  {
    if d.None? then None else CountryCityAt(d.value, country, city)
  }

  /** The guard of the city branch. */
  predicate CityBranch(d: Option<Dictionary>, country: string, province: string, city: string)
  {
    && country != "" && city != ""
    && ((country == China && province != "" && ChinaCity(d, province, city).Some?)
        || (country != China && CountryCity(d, country, city).Some?))
  }

  /** The view of one place: centred on it, at its mode's zoom. */
  function FocusView(mode: MapMode, loc: Loc, markers: seq<Point>): MapView
  {
    MapView(mode, markers, [], Some(loc), ZoomOf(mode))
  }

  /**
   * The chain as written (MapPanel.tsx:37-150): IP lookup, then a Chinese province, then a
   * city, then China's provinces, then another country's cities. Only the first branch can
   * leave the view without a centre while its mode is not the default, and it never does:
   * with results but no placeable one it throws.
   */
  function Select(d: Option<Dictionary>, lookup: LookupType, results: Option<seq<IpInfoResult>>,
                  country: string, province: string, city: string): (s: Selection)
    ensures s.Crashed? <==>
      (lookup == Ipv4 || lookup == Ipv6) && results.Some? && |results.value| > 0 && Locations(results.value) == []
    ensures s.Selected? ==> s.view.zoom == ZoomOf(s.view.mode)
    ensures s.Selected? ==> (s.view.center.None? <==> s.view.mode == DefaultMode)
    ensures s.Selected? && s.view.mode == DefaultMode ==> s.view == DefaultView
    ensures s.Selected? ==> (s.view.ipLocations != [] <==> s.view.mode == LookupMode)
  {
    Chain(d, lookup, results, country, province, city, Crashed)
  }

  /**
   * The chain, parameterised by what happens when a lookup has results but none can be placed.
   */
  function Chain(d: Option<Dictionary>, lookup: LookupType, results: Option<seq<IpInfoResult>>,
                 country: string, province: string, city: string, unplaced: Selection): Selection
  {
    if lookup == Ipv4 || lookup == Ipv6 then
      if results.Some? && |results.value| > 0 then
        var locs := Locations(results.value);
        if locs == [] then unplaced
        else Selected(MapView(LookupMode, [], locs, Some(Loc(locs[0].lat, locs[0].lon)), ZoomOf(LookupMode)))
      else Selected(DefaultView)
    else if country == China && province != "" && ChinaProvince(d, province).Some? then
      var p := ChinaProvince(d, province).value;
      Selected(FocusView(ProvinceMode, p.loc, if p.cities.None? then [] else CityMarkers(p.cities.value)))
    else if CityBranch(d, country, province, city) then
      var c := if country == China && province != "" && ChinaCity(d, province, city).Some?
               then ChinaCity(d, province, city).value
               else CountryCity(d, country, city).value;
      Selected(FocusView(CityMode, c.loc, [Point(c.name, city, c.loc.lat, c.loc.lon)]))
    else if country == China && CountryIn(d, China).Some? && CountryIn(d, China).value.provinces.Some? then
      var c := CountryIn(d, China).value;
      Selected(FocusView(CountryMode, c.loc, ProvinceMarkers(c.provinces.value)))
    else if country != "" && country != China && CountryIn(d, country).Some? && CountryIn(d, country).value.cities.Some? then
      var c := CountryIn(d, country).value;
      Selected(FocusView(CountryMode, c.loc, CityMarkers(c.cities.value)))
    else Selected(DefaultView)
  }

  /**
   * The chain with the evident intent restored: a lookup whose results cannot be placed shows
   * the default world view, as a lookup with no results does.
   */
  function SelectGuarded(d: Option<Dictionary>, lookup: LookupType, results: Option<seq<IpInfoResult>>,
                         country: string, province: string, city: string): (s: Selection)
    ensures s.Selected?
    ensures s.view.zoom == ZoomOf(s.view.mode)
    ensures s.view.center.None? <==> s.view.mode == DefaultMode
    ensures s.view.mode == DefaultMode ==> s.view == DefaultView
    ensures Select(d, lookup, results, country, province, city).Selected? ==>
      s == Select(d, lookup, results, country, province, city)
  {
    Chain(d, lookup, results, country, province, city, Selected(DefaultView))
  }

  /** The rendered panel: nothing on mobile, otherwise the map; the chain runs first either way. */
  datatype Panel = PanelCrashed | PanelHidden | PanelShown(view: MapView)

  function Render(s: Selection, isMobile: bool): (p: Panel)
    ensures s.Crashed? <==> p.PanelCrashed?
    ensures p.PanelShown? <==> s.Selected? && !isMobile
    ensures p.PanelShown? ==> p.view == s.view
  {
    match s
    case Crashed => PanelCrashed
    case Selected(v) => if isMobile then PanelHidden else PanelShown(v)
  }

  /** A single successful result located at latitude 0 is dropped, and the panel throws. */
  lemma ZeroLatitudeCrashes(d: Option<Dictionary>, country: string, province: string, city: string)
    ensures Select(d, Ipv4, Some([IpInfoResult(true, "1.2.3.4", "ip-api.com", Some(0.0), Some(10.0))]),
                   country, province, city) == Crashed
  {
    var rs := [IpInfoResult(true, "1.2.3.4", "ip-api.com", Some(0.0), Some(10.0))];
    assert !Located(rs[0]);
  }

  /** The first located result gives the centre, at zoom 8; nothing else is marked. */
  lemma {:induction false} LookupCentre(d: Option<Dictionary>, lookup: LookupType, rs: seq<IpInfoResult>,
                                        country: string, province: string, city: string, k: nat)
    requires lookup == Ipv4 || lookup == Ipv6
    requires k < |rs| && Located(rs[k]) && forall j :: 0 <= j < k ==> !Located(rs[j])
    ensures Select(d, lookup, Some(rs), country, province, city) ==
      Selected(MapView(LookupMode, [], Locations(rs), Some(Loc(rs[k].latitude.value, rs[k].longitude.value)), Some(8)))
  {
    FirstLocation(rs, k);
  }

  lemma {:induction false} FirstLocation(rs: seq<IpInfoResult>, k: nat)
    requires k < |rs| && Located(rs[k]) && forall j :: 0 <= j < k ==> !Located(rs[j])
    ensures Locations(rs) != [] && Locations(rs)[0] == ToLocation(rs[k])
  {
    if k > 0 {
      FirstLocation(rs[1..], k - 1);
    }
  }

  /** An IP lookup without results shows the default view, whatever place is selected. */
  lemma LookupWithoutResults(d: Option<Dictionary>, lookup: LookupType, results: Option<seq<IpInfoResult>>,
                             country: string, province: string, city: string)
    requires lookup == Ipv4 || lookup == Ipv6
    requires results.None? || results.value == []
    ensures Select(d, lookup, results, country, province, city) == Selected(DefaultView)
  {
  }

  /** For China the city branch never fires: a known city implies a known province. */
  lemma ChinaCityModeUnreachable(d: Option<Dictionary>, lookup: LookupType, results: Option<seq<IpInfoResult>>,
                                 province: string, city: string)
    ensures var s := Select(d, lookup, results, China, province, city);
      s.Selected? ==> s.view.mode != CityMode
  {
    if ChinaCity(d, province, city).Some? {
      assert ChinaProvince(d, province).Some?;
    }
  }

  /** A known Chinese province is shown with its cities as markers, at zoom 8. */
  lemma ProvinceView(d: Option<Dictionary>, lookup: LookupType, results: Option<seq<IpInfoResult>>,
                     province: string, city: string)
    requires lookup != Ipv4 && lookup != Ipv6
    requires province != "" && ChinaProvince(d, province).Some?
    ensures var p := ChinaProvince(d, province).value;
      Select(d, lookup, results, China, province, city) ==
      Selected(MapView(ProvinceMode, if p.cities.None? then [] else CityMarkers(p.cities.value), [], Some(p.loc), Some(8)))
  {
  }

  /** Outside China a known city is shown alone, at zoom 10. */
  lemma CityView(d: Option<Dictionary>, lookup: LookupType, results: Option<seq<IpInfoResult>>,
                 country: string, province: string, city: string)
    requires lookup != Ipv4 && lookup != Ipv6
    requires country != "" && country != China && city != "" && CountryCity(d, country, city).Some?
    ensures var c := CountryCity(d, country, city).value;
      Select(d, lookup, results, country, province, city) ==
      Selected(MapView(CityMode, [Point(c.name, city, c.loc.lat, c.loc.lon)], [], Some(c.loc), Some(10)))
  {
  }

  /** China without a known province or city shows every province, at zoom 5. */
  lemma ChinaCountryView(d: Option<Dictionary>, lookup: LookupType, results: Option<seq<IpInfoResult>>,
                         province: string, city: string)
    requires lookup != Ipv4 && lookup != Ipv6
    requires province == "" || ChinaProvince(d, province).None?
    requires CountryIn(d, China).Some? && CountryIn(d, China).value.provinces.Some?
    ensures var c := CountryIn(d, China).value;
      Select(d, lookup, results, China, province, city) ==
      Selected(MapView(CountryMode, ProvinceMarkers(c.provinces.value), [], Some(c.loc), Some(5)))
  {
    if ChinaCity(d, province, city).Some? {
      assert ChinaProvince(d, province).Some?;
    }
  }

  /** Another country without a known city shows all its cities, at zoom 5. */
  lemma OtherCountryView(d: Option<Dictionary>, lookup: LookupType, results: Option<seq<IpInfoResult>>,
                         country: string, province: string, city: string)
    requires lookup != Ipv4 && lookup != Ipv6
    requires country != "" && country != China
    requires city == "" || CountryCity(d, country, city).None?
    requires CountryIn(d, country).Some? && CountryIn(d, country).value.cities.Some?
    ensures var c := CountryIn(d, country).value;
      Select(d, lookup, results, country, province, city) ==
      Selected(MapView(CountryMode, CityMarkers(c.cities.value), [], Some(c.loc), Some(5)))
  {
  }

  /**
   * When the default world view is shown: an IP lookup without results, or a place selection
   * with no country, or whose country the catalog gives nothing to show for (no provinces for
   * China, no cities elsewhere).
   */
  lemma DefaultViewWhen(d: Option<Dictionary>, lookup: LookupType, results: Option<seq<IpInfoResult>>,
                        country: string, province: string, city: string)
    ensures Select(d, lookup, results, country, province, city) == Selected(DefaultView) <==>
      if lookup == Ipv4 || lookup == Ipv6 then results.None? || results.value == []
      else country == "" || CountryIn(d, country).None?
           || (country == China && CountryIn(d, country).value.provinces.None?)
           || (country != China && CountryIn(d, country).value.cities.None?)
  {
    if lookup != Ipv4 && lookup != Ipv6 && country == China {
      if ChinaCity(d, province, city).Some? {
        assert ChinaProvince(d, province).Some?;
      }
    }
  }
}
