/** The ipapi.co adapter (src/components/ipinfo/ipapi_co.ts). */
module IpApiCo {
  import opened Wrappers
  import opened Geo

  const Provider := "ipapi.co"

  /** The fields of an ipapi.co reply that the adapter reads. */
  datatype IpApiCoBody = IpApiCoBody(
    error: Option<bool>,
    reason: Option<string>,
    message: Option<string>,
    ip: Option<string>,
    city: Option<string>,
    region: Option<string>,
    countryName: Option<string>,
    countryCode: Option<string>,
    latitude: Option<real>,
    longitude: Option<real>,
    timezone: Option<string>)

  /** `reason || message || "Unknown ipapi.co error"`. */
  function ErrorText(d: IpApiCoBody): (r: string)
    ensures r != ""
    ensures TruthyStr(d.reason) ==> r == d.reason.value
    ensures !TruthyStr(d.reason) && TruthyStr(d.message) ==> r == d.message.value
    ensures !TruthyStr(d.reason) && !TruthyStr(d.message) ==> r == "Unknown ipapi.co error"
  {
    OrText(OrStr(d.reason, d.message), "Unknown ipapi.co error")
  }

  /** `fetchIPApiCo`: a truthy `error` is the failure; a success leaves the network fields unset. */
  function FetchIPApiCo(ip: string, outcome: Outcome<IpApiCoBody>): (r: GeoResult)
    ensures Normalised(r, Provider, ip)
    ensures r.ok <==> outcome.Parsed? && outcome.data.error != Some(true)
    ensures outcome.Thrown? ==> r == ThrownResult(Provider, ip, outcome.message)
    ensures outcome.NonJson? ==> r == NonJsonResult(Provider, ip, outcome.raw)
    ensures outcome.Parsed? && !r.ok ==> r == Failure(Provider, ip, ErrorText(outcome.data), Some(outcome.raw))
    ensures r.ok ==>
      var d := outcome.data;
      && r.ip == d.ip && r.city == d.city && r.region == d.region && r.country == d.countryName
      && r.countryCode == d.countryCode && r.latitude == d.latitude && r.longitude == d.longitude
      && r.timezone == d.timezone
      && r.continent.None? && r.continentCode.None? && r.asn.None? && r.asName.None? && r.asDomain.None?
      && r.isp.None? && r.organization.None? && r.localTime.None? && r.flag.None?
  {
    match outcome
    case Thrown(message) => ThrownResult(Provider, ip, message)
    case NonJson(raw) => NonJsonResult(Provider, ip, raw)
    case Parsed(raw, d) =>
      if d.error == Some(true) then
        Failure(Provider, ip, ErrorText(d), Some(raw))
      else
        GeoResult(Provider, true, d.ip, d.city, d.region, d.countryName, d.countryCode, None, None,
                  d.latitude, d.longitude, None, None, None, None, None, d.timezone, None, None, None, None)
  }
}
