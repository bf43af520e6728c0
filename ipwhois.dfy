/** The ipwho.is adapter (src/components/ipinfo/ipwhois.ts). */
module IpWhois {
  import opened Wrappers
  import opened Text
  import opened Geo

  const Provider := "ipwho.is"

  datatype Connection = Connection(asn: Option<int>, org: Option<string>, domain: Option<string>, isp: Option<string>)
  datatype TimeZone = TimeZone(id: Option<string>, currentTime: Option<string>)
  datatype Flag = Flag(img: Option<string>)

  /** The fields of an ipwho.is reply that the adapter reads. */
  datatype IpWhoisBody = IpWhoisBody(
    success: Option<bool>,
    message: Option<string>,
    ip: Option<string>,
    city: Option<string>,
    region: Option<string>,
    country: Option<string>,
    countryCode: Option<string>,
    continent: Option<string>,
    continentCode: Option<string>,
    latitude: Option<real>,
    longitude: Option<real>,
    connection: Option<Connection>,
    timezone: Option<TimeZone>,
    flag: Option<Flag>)

  /** `connection?.asn ? "AS" + asn : ""`: a present, non-zero AS number prefixed with "AS". */
  function AsLabel(c: Option<Connection>): (r: string)
    ensures (c.Some? && c.value.asn.Some? && c.value.asn.value != 0) ==>
      r == "AS" + IntToString(c.value.asn.value) && |r| > 2
    ensures !(c.Some? && c.value.asn.Some? && c.value.asn.value != 0) ==> r == ""
  {
    if c.Some? && c.value.asn.Some? && c.value.asn.value != 0 then "AS" + IntToString(c.value.asn.value) else ""
  }

  /** `connection?.org || ""` */
  function OrgText(c: Option<Connection>): string
  {
    if c.None? then "" else OrText(c.value.org, "")
  }

  /** `connection?.domain || ""` */
  function DomainText(c: Option<Connection>): string
  {
    if c.None? then "" else OrText(c.value.domain, "")
  }

  /** `connection?.isp || ""` */
  function IspText(c: Option<Connection>): string
  {
    if c.None? then "" else OrText(c.value.isp, "")
  }

  /** `fetchIPWhois`: failure unless `success` is true; text fields default to "" rather than unset. */
  function FetchIPWhois(ip: string, outcome: Outcome<IpWhoisBody>): (r: GeoResult)
    ensures Normalised(r, Provider, ip)
    ensures r.ok <==> outcome.Parsed? && outcome.data.success == Some(true)
    ensures outcome.Thrown? ==> r == ThrownResult(Provider, ip, outcome.message)
    ensures outcome.NonJson? ==> r == NonJsonResult(Provider, ip, outcome.raw)
    ensures outcome.Parsed? && !r.ok ==>
      r == Failure(Provider, ip, OrText(outcome.data.message, "Lookup failed"), Some(outcome.raw))
    ensures r.ok ==>
      var d := outcome.data;
      && r.ip == d.ip && r.city == d.city && r.region == d.region && r.country == d.country
      && r.countryCode == d.countryCode && r.continent == d.continent && r.continentCode == d.continentCode
      && r.latitude == d.latitude && r.longitude == d.longitude
      && r.asn == Some(AsLabel(d.connection))
      && r.asName == r.organization == Some(OrgText(d.connection))
      && r.asDomain == Some(DomainText(d.connection))
      && r.isp == Some(IspText(d.connection))
      && r.timezone == Some(if d.timezone.None? then "" else OrText(d.timezone.value.id, ""))
      && r.localTime == Some(if d.timezone.None? then "" else OrText(d.timezone.value.currentTime, ""))
      && r.flag == (if d.flag.None? then None else d.flag.value.img)
  {
    match outcome
    case Thrown(message) => ThrownResult(Provider, ip, message)
    case NonJson(raw) => NonJsonResult(Provider, ip, raw)
    case Parsed(raw, d) =>
      if d.success != Some(true) then
        Failure(Provider, ip, OrText(d.message, "Lookup failed"), Some(raw))
      else
        var org := OrgText(d.connection);
        GeoResult(Provider, true, d.ip, d.city, d.region, d.country, d.countryCode, d.continent, d.continentCode,
                  d.latitude, d.longitude, Some(AsLabel(d.connection)), Some(org),
                  Some(DomainText(d.connection)), Some(IspText(d.connection)),
                  Some(org),
                  Some(if d.timezone.None? then "" else OrText(d.timezone.value.id, "")),
                  Some(if d.timezone.None? then "" else OrText(d.timezone.value.currentTime, "")),
                  if d.flag.None? then None else d.flag.value.img,
                  None, None)
  }
}
