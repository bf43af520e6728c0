/** The ipinfo.io adapter (src/components/ipinfo/ipinfoio.ts). */
module IpInfoIo {
  import opened Wrappers
  import opened Geo

  const Provider := "ipinfo.io"

  /** The fields of an ipinfo.io "lite" reply that the adapter reads. */
  datatype IpInfoIoBody = IpInfoIoBody(
    error: Option<string>,
    ip: Option<string>,
    country: Option<string>,
    countryCode: Option<string>,
    continent: Option<string>,
    continentCode: Option<string>,
    asn: Option<string>,
    asName: Option<string>,
    asDomain: Option<string>)

  /** `fetchIPInfoIO`: a truthy `error` is reported verbatim; a success carries no location or time. */
  function FetchIPInfoIO(ip: string, outcome: Outcome<IpInfoIoBody>): (r: GeoResult)
    ensures Normalised(r, Provider, ip)
    ensures r.ok <==> outcome.Parsed? && !TruthyStr(outcome.data.error)
    ensures outcome.Thrown? ==> r == ThrownResult(Provider, ip, outcome.message)
    ensures outcome.NonJson? ==> r == NonJsonResult(Provider, ip, outcome.raw)
    ensures outcome.Parsed? && !r.ok ==> r == Failure(Provider, ip, outcome.data.error.value, Some(outcome.raw))
    ensures r.ok ==>
      var d := outcome.data;
      && r.ip == d.ip && r.country == d.country && r.countryCode == d.countryCode
      && r.continent == d.continent && r.continentCode == d.continentCode
      && r.asn == d.asn && r.asName == d.asName && r.asDomain == d.asDomain
      && r.city.None? && r.region.None? && r.latitude.None? && r.longitude.None? && r.isp.None?
      && r.organization.None? && r.timezone.None? && r.localTime.None? && r.flag.None?
  {
    match outcome
    case Thrown(message) => ThrownResult(Provider, ip, message)
    case NonJson(raw) => NonJsonResult(Provider, ip, raw)
    case Parsed(raw, d) =>
      if TruthyStr(d.error) then
        Failure(Provider, ip, d.error.value, Some(raw))
      else
        GeoResult(Provider, true, d.ip, None, None, d.country, d.countryCode, d.continent, d.continentCode,
                  None, None, d.asn, d.asName, d.asDomain, None, None, None, None, None, None, None)
  }
}
