/**
 * The location/provider catalog (the shape declared in src/types.ts): countries, optional
 * provinces, optional cities, each level optionally owning providers with their IPv4/IPv6 flags.
 *
 * A JavaScript object used as a dictionary is modelled as the sequence of its entries in
 * insertion order, so that `Object.entries` and `Object.values` keep their order.
 */
module Catalog {
  import opened Wrappers

  datatype Entry<T> = Entry(key: string, value: T)

  /** A JavaScript `Record<string, T>`: its entries in insertion order. */
  type Record<T> = seq<Entry<T>>

  /** `record[key]`: the value of the first entry with that key, or `undefined`. */
  function Lookup<T>(r: Record<T>, key: string): (o: Option<T>)
    ensures o.None? <==> forall i :: 0 <= i < |r| ==> r[i].key != key
    ensures o.Some? ==> exists i :: 0 <= i < |r| && r[i] == Entry(key, o.value)
  {
    if |r| == 0 then None
    else if r[0].key == key then Some(r[0].value)
    else Lookup(r[1..], key)
  }

  /** `Object.values(record)`, in insertion order. */
  function Values<T>(r: Record<T>): (vs: seq<T>)
    ensures |vs| == |r|
    ensures forall i :: 0 <= i < |r| ==> vs[i] == r[i].value
  {
    seq(|r|, i requires 0 <= i < |r| => r[i].value)
  }

  /** Coordinates are carried as opaque numbers; no arithmetic is done on them. */
  datatype Loc = Loc(lat: real, lon: real)

  datatype ProviderInfo = ProviderInfo(v4: bool, v6: bool)

  datatype CityInfo = CityInfo(name: string, loc: Loc, providers: Option<Record<ProviderInfo>>)

  datatype ProvinceInfo = ProvinceInfo(
    name: string,
    loc: Loc,
    providers: Option<Record<ProviderInfo>>,
    cities: Option<Record<CityInfo>>)

  datatype CountryInfo = CountryInfo(
    name: string,
    loc: Loc,
    providers: Option<Record<ProviderInfo>>,
    provinces: Option<Record<ProvinceInfo>>,
    cities: Option<Record<CityInfo>>)

  /** The whole catalog, keyed by country code. */
  type Dictionary = Record<CountryInfo>

  /** `d?.[country]?.provinces?.[province]` */
  function ProvinceAt(d: Dictionary, country: string, province: string): Option<ProvinceInfo>
  {
    match Lookup(d, country)
    case None => None
    case Some(c) => if c.provinces.None? then None else Lookup(c.provinces.value, province)
  }

  /** `d?.[country]?.provinces?.[province]?.cities?.[city]` */
  function ProvinceCityAt(d: Dictionary, country: string, province: string, city: string): Option<CityInfo>
  {
    match ProvinceAt(d, country, province)
    case None => None
    case Some(p) => if p.cities.None? then None else Lookup(p.cities.value, city)
  }

  /** `d?.[country]?.cities?.[city]` */
  function CountryCityAt(d: Dictionary, country: string, city: string): Option<CityInfo>
  {
    match Lookup(d, country)
    case None => None
    case Some(c) => if c.cities.None? then None else Lookup(c.cities.value, city)
  }

  /** `providers?.[code]` on an optional provider record. */
  function ProviderIn(providers: Option<Record<ProviderInfo>>, code: string): Option<ProviderInfo>
  {
    if providers.None? then None else Lookup(providers.value, code)
  }
}
