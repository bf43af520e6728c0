/**
 * The common lookup result every geolocation adapter produces (`IPCardResult` in
 * src/components/IPInfo.tsx, plus the `raw` body that some failures carry) and the shape of an
 * upstream call's outcome.
 */
module Geo {
  import opened Wrappers

  datatype GeoResult = GeoResult(
    provider: string,
    ok: bool,
    ip: Option<string>,
    city: Option<string>,
    region: Option<string>,
    country: Option<string>,
    countryCode: Option<string>,
    continent: Option<string>,
    continentCode: Option<string>,
    latitude: Option<real>,
    longitude: Option<real>,
    asn: Option<string>,
    asName: Option<string>,
    asDomain: Option<string>,
    isp: Option<string>,
    organization: Option<string>,
    timezone: Option<string>,
    localTime: Option<string>,
    flag: Option<string>,
    error: Option<string>,
    raw: Option<string>)

  /**
   * What one upstream call produced: the request threw (with the error's `message`, if any),
   * the body was not JSON, or the body parsed to an object of the provider's own shape `T`.
   */
  datatype Outcome<T> = Thrown(message: Option<string>) | NonJson(raw: string) | Parsed(raw: string, data: T)

  const NetworkError := "Network or fetch error"

  /** A failure record: only provider, `ok: false`, the input ip, the error text and maybe the raw body. */
  function Failure(provider: string, ip: string, error: string, raw: Option<string>): (r: GeoResult)
    ensures !r.ok && r.provider == provider && r.ip == Some(ip) && r.error == Some(error) && r.raw == raw
    ensures NoData(r)
  {
    GeoResult(provider, false, Some(ip), None, None, None, None, None, None, None, None,
              None, None, None, None, None, None, None, None, Some(error), raw)
  }

  /** The outer `catch`: the exception's message, or a fixed text when it has none. */
  function ThrownResult(provider: string, ip: string, message: Option<string>): (r: GeoResult)
    ensures r == Failure(provider, ip, OrText(message, NetworkError), None)
  {
    Failure(provider, ip, OrText(message, NetworkError), None)
  }

  /** The inner `catch` around `JSON.parse`: a fixed text naming the provider, and the raw body. */
  function NonJsonResult(provider: string, ip: string, raw: string): (r: GeoResult)
    ensures r == Failure(provider, ip, "Non-JSON response from " + provider, Some(raw))
  {
    Failure(provider, ip, "Non-JSON response from " + provider, Some(raw))
  }

  /** No location, network or time field is set. */
  predicate NoData(r: GeoResult)
  {
    && r.city.None? && r.region.None? && r.country.None? && r.countryCode.None?
    && r.continent.None? && r.continentCode.None? && r.latitude.None? && r.longitude.None?
    && r.asn.None? && r.asName.None? && r.asDomain.None? && r.isp.None? && r.organization.None?
    && r.timezone.None? && r.localTime.None? && r.flag.None?
  }

  /**
   * The contract every adapter keeps: a success carries no error and no raw body; a failure
   * reports the input ip, a non-empty error text and no data.
   */
  predicate Normalised(r: GeoResult, provider: string, ip: string)
  {
    && r.provider == provider
    && (r.ok ==> r.error.None? && r.raw.None?)
    && (!r.ok ==> r.ip == Some(ip) && r.error.Some? && r.error.value != "" && NoData(r))
  }
}
