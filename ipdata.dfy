/** The ipdata.co adapter (src/components/ipinfo/ipdata.ts). */
module IpData {
  import opened Wrappers
  import opened Geo

  const Provider := "ipdata.co"

  datatype AsnInfo = AsnInfo(asn: Option<string>, name: Option<string>, domain: Option<string>)
  datatype Carrier = Carrier(name: Option<string>)
  datatype TimeZone = TimeZone(name: Option<string>, currentTime: Option<string>)

  /** The fields of an ipdata.co reply that the adapter reads. */
  datatype IpDataBody = IpDataBody(
    error: Option<bool>,
    message: Option<string>,
    reason: Option<string>,
    ip: Option<string>,
    city: Option<string>,
    region: Option<string>,
    countryName: Option<string>,
    countryCode: Option<string>,
    continentName: Option<string>,
    continentCode: Option<string>,
    latitude: Option<real>,
    longitude: Option<real>,
    asn: Option<AsnInfo>,
    carrier: Option<Carrier>,
    timeZone: Option<TimeZone>,
    flag: Option<string>)

  /** A truthy `error` or a non-empty `message` marks the reply as an error. */
  predicate IsError(d: IpDataBody)
  {
    d.error == Some(true) || TruthyStr(d.message)
  }

  /** `reason || message || "Unknown ipdata.co error"`. */
  function ErrorText(d: IpDataBody): (r: string)
    ensures r != ""
    ensures TruthyStr(d.reason) ==> r == d.reason.value
    ensures !TruthyStr(d.reason) && TruthyStr(d.message) ==> r == d.message.value
    ensures !TruthyStr(d.reason) && !TruthyStr(d.message) ==> r == "Unknown ipdata.co error"
  {
    OrText(OrStr(d.reason, d.message), "Unknown ipdata.co error")
  }

  /** `fetchIPData`: an error reply reports `reason`, else `message`, else a fixed text. */
  function FetchIPData(ip: string, outcome: Outcome<IpDataBody>): (r: GeoResult)
    ensures Normalised(r, Provider, ip)
    ensures r.ok <==> outcome.Parsed? && !IsError(outcome.data)
    ensures outcome.Thrown? ==> r == ThrownResult(Provider, ip, outcome.message)
    ensures outcome.NonJson? ==> r == NonJsonResult(Provider, ip, outcome.raw)
    ensures outcome.Parsed? && !r.ok ==> r == Failure(Provider, ip, ErrorText(outcome.data), Some(outcome.raw))
    ensures r.ok ==>
      var d := outcome.data;
      && r.ip == d.ip && r.city == d.city && r.region == d.region && r.country == d.countryName
      && r.countryCode == d.countryCode && r.continent == d.continentName && r.continentCode == d.continentCode
      && r.latitude == d.latitude && r.longitude == d.longitude
      && r.asn == (if d.asn.None? then None else d.asn.value.asn)
      && r.asName == r.organization == (if d.asn.None? then None else d.asn.value.name)
      && r.asDomain == (if d.asn.None? then None else d.asn.value.domain)
      && r.isp == (if d.carrier.None? then None else d.carrier.value.name)
      && r.timezone == (if d.timeZone.None? then None else d.timeZone.value.name)
      && r.localTime == (if d.timeZone.None? then None else d.timeZone.value.currentTime)
      && r.flag == d.flag
  {
    match outcome
    case Thrown(message) => ThrownResult(Provider, ip, message)
    case NonJson(raw) => NonJsonResult(Provider, ip, raw)
    case Parsed(raw, d) =>
      if IsError(d) then
        Failure(Provider, ip, ErrorText(d), Some(raw))
      else
        var asName := if d.asn.None? then None else d.asn.value.name;
        GeoResult(Provider, true, d.ip, d.city, d.region, d.countryName, d.countryCode, d.continentName,
                  d.continentCode, d.latitude, d.longitude,
                  if d.asn.None? then None else d.asn.value.asn, asName,
                  if d.asn.None? then None else d.asn.value.domain,
                  if d.carrier.None? then None else d.carrier.value.name, asName,
                  if d.timeZone.None? then None else d.timeZone.value.name,
                  if d.timeZone.None? then None else d.timeZone.value.currentTime,
                  d.flag, None, None)
  }
}
