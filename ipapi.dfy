/** The ip-api.com adapter (src/components/ipinfo/ipapi.ts). */
module IpApi {
  import opened Wrappers
  import opened Text
  import opened Geo

  const Provider := "ip-api.com"

  /** The fields of an ip-api.com reply that the adapter reads; `as` is spelled `asField`. */
  datatype IpApiBody = IpApiBody(
    status: Option<string>,
    message: Option<string>,
    query: Option<string>,
    city: Option<string>,
    regionName: Option<string>,
    country: Option<string>,
    countryCode: Option<string>,
    lat: Option<real>,
    lon: Option<real>,
    asField: Option<string>,
    isp: Option<string>,
    org: Option<string>,
    timezone: Option<string>)

  /** `as?.split(" ")[0] || ""`: the AS number, the text before the first space. */
  function AsNumber(asField: Option<string>): (r: string)
    ensures asField.None? ==> r == ""
    ensures asField.Some? ==> ' ' !in r && r <= asField.value
  {
    if asField.None? then "" else Split(asField.value, ' ')[0]
  }

  /** `as?.split(" ").slice(1).join(" ") || ""`: the AS name, everything after the first space. */
  function AsName(asField: Option<string>): (r: string)
    ensures asField.None? ==> r == ""
  {
    if asField.None? then "" else Join(Split(asField.value, ' ')[1..], ' ')
  }

  /** The AS number and name put back together give the upstream `as` text. */
  lemma AsFieldSplit(asField: string)
    requires ' ' in asField
    ensures AsNumber(Some(asField)) + " " + AsName(Some(asField)) == asField
  {
    var parts := Split(asField, ' ');
    SplitAtSeparator(asField, ' ');
    JoinSplit(asField, ' ');
    assert Join(parts, ' ') == parts[0] + [' '] + Join(parts[1..], ' ');
  }

  /** Without a space the whole `as` text is the AS number and the name is empty. */
  lemma AsFieldWithoutSpace(asField: string)
    requires ' ' !in asField
    ensures AsNumber(Some(asField)) == asField && AsName(Some(asField)) == ""
  {
    SplitWithoutSeparator(asField, ' ');
  }

  /** `fetchIPApi`: failure unless `status` is "success"; on success the ip is the upstream `query`. */
  function FetchIPApi(ip: string, outcome: Outcome<IpApiBody>): (r: GeoResult)
    ensures Normalised(r, Provider, ip)
    ensures r.ok <==> outcome.Parsed? && outcome.data.status == Some("success")
    ensures outcome.Thrown? ==> r == ThrownResult(Provider, ip, outcome.message)
    ensures outcome.NonJson? ==> r == NonJsonResult(Provider, ip, outcome.raw)
    ensures outcome.Parsed? && !r.ok ==>
      r == Failure(Provider, ip, OrText(outcome.data.message, "Lookup failed"), Some(outcome.raw))
    ensures r.ok ==>
      var d := outcome.data;
      && r.ip == d.query && r.city == d.city && r.region == d.regionName && r.country == d.country
      && r.countryCode == d.countryCode && r.latitude == d.lat && r.longitude == d.lon
      && r.asn == Some(AsNumber(d.asField)) && r.asName == Some(AsName(d.asField))
      && r.isp == d.isp && r.organization == OrStr(d.org, d.isp) && r.timezone == d.timezone
      && r.continent.None? && r.continentCode.None? && r.asDomain.None? && r.localTime.None? && r.flag.None?
  {
    match outcome
    case Thrown(message) => ThrownResult(Provider, ip, message)
    case NonJson(raw) => NonJsonResult(Provider, ip, raw)
    case Parsed(raw, d) =>
      if d.status != Some("success") then
        Failure(Provider, ip, OrText(d.message, "Lookup failed"), Some(raw))
      else
        GeoResult(Provider, true, d.query, d.city, d.regionName, d.country, d.countryCode, None, None,
                  d.lat, d.lon, Some(AsNumber(d.asField)), Some(AsName(d.asField)), None,
                  d.isp, OrStr(d.org, d.isp), d.timezone, None, None, None, None)
  }
}
