/** The ipgeolocation.io adapter (src/components/ipinfo/ipgeolocation.ts). */
module IpGeolocation {
  import opened Wrappers
  import opened Geo

  const Provider := "ipgeolocation.io"

  datatype TimeZone = TimeZone(name: Option<string>, currentTime: Option<string>)

  /**
   * The fields of an ipgeolocation.io reply that the adapter reads. `latitude` and `longitude`
   * stand for the values after `parseFloat`.
   */
  datatype IpGeolocationBody = IpGeolocationBody(
    message: Option<string>,
    ip: Option<string>,
    city: Option<string>,
    stateProv: Option<string>,
    countryName: Option<string>,
    countryCode2: Option<string>,
    continentName: Option<string>,
    continentCode: Option<string>,
    latitude: Option<real>,
    longitude: Option<real>,
    isp: Option<string>,
    organization: Option<string>,
    timeZone: Option<TimeZone>,
    countryFlag: Option<string>)

  /** `fetchIPGeolocation`: a non-empty `message` is the failure; any body without one succeeds. */
  function FetchIPGeolocation(ip: string, outcome: Outcome<IpGeolocationBody>): (r: GeoResult)
    ensures Normalised(r, Provider, ip)
    ensures r.ok <==> outcome.Parsed? && !TruthyStr(outcome.data.message)
    ensures outcome.Thrown? ==> r == ThrownResult(Provider, ip, outcome.message)
    ensures outcome.NonJson? ==> r == NonJsonResult(Provider, ip, outcome.raw)
    ensures outcome.Parsed? && !r.ok ==> r == Failure(Provider, ip, outcome.data.message.value, Some(outcome.raw))
    ensures r.ok ==>
      var d := outcome.data;
      && r.ip == d.ip && r.city == d.city && r.region == d.stateProv && r.country == d.countryName
      && r.countryCode == d.countryCode2 && r.continent == d.continentName && r.continentCode == d.continentCode
      && r.latitude == d.latitude && r.longitude == d.longitude
      && r.asn.None? && r.asName.None? && r.asDomain.None?
      && r.isp == d.isp && r.organization == d.organization
      && r.timezone == (if d.timeZone.None? then None else d.timeZone.value.name)
      && r.localTime == (if d.timeZone.None? then None else d.timeZone.value.currentTime)
      && r.flag == d.countryFlag
  {
    match outcome
    case Thrown(message) => ThrownResult(Provider, ip, message)
    case NonJson(raw) => NonJsonResult(Provider, ip, raw)
    case Parsed(raw, d) =>
      if TruthyStr(d.message) then
        Failure(Provider, ip, d.message.value, Some(raw))
      else
        GeoResult(Provider, true, d.ip, d.city, d.stateProv, d.countryName, d.countryCode2, d.continentName,
                  d.continentCode, d.latitude, d.longitude, None, None, None, d.isp, d.organization,
                  if d.timeZone.None? then None else d.timeZone.value.name,
                  if d.timeZone.None? then None else d.timeZone.value.currentTime,
                  d.countryFlag, None, None)
  }
}
