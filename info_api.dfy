/**
 * The `/api/info` handler (src/pages/api/info.ts): checks the `ip` query parameter and joins the
 * six geolocation adapters, in a fixed order, into one reply.
 */
module InfoApi {
  import opened Wrappers
  import opened Geo
  import IpApi
  import IpWhois
  import IpGeolocation
  import IpData
  import IpApiCo
  import IpInfoIo

  /** What each of the six upstream calls produced for the requested ip. */
  datatype Outcomes = Outcomes(
    ipApi: Outcome<IpApi.IpApiBody>,
    ipWhois: Outcome<IpWhois.IpWhoisBody>,
    ipGeolocation: Outcome<IpGeolocation.IpGeolocationBody>,
    ipData: Outcome<IpData.IpDataBody>,
    ipApiCo: Outcome<IpApiCo.IpApiCoBody>,
    ipInfoIo: Outcome<IpInfoIo.IpInfoIoBody>)

  /** The reply: 400 with an error, 200 `{ok: true, ip, results}`, or 500 `{ok: false, error}`. */
  datatype InfoReply =
    | BadRequest(error: string)
    | Lookup(ip: string, results: seq<GeoResult>)
    | ServerError(error: string)

  /** The provider names in the order the handler lists its adapters. */
  const Providers: seq<string> :=
    [IpApi.Provider, IpWhois.Provider, IpGeolocation.Provider, IpData.Provider, IpApiCo.Provider, IpInfoIo.Provider]

  /** The six adapter results for `ip`, in the handler's order (`Promise.all` keeps order). */
  function Results(ip: string, o: Outcomes): (rs: seq<GeoResult>)
    ensures |rs| == |Providers| == 6
    ensures forall i :: 0 <= i < 6 ==> Normalised(rs[i], Providers[i], ip)
  {
    var r0 := IpApi.FetchIPApi(ip, o.ipApi);
    var r1 := IpWhois.FetchIPWhois(ip, o.ipWhois);
    var r2 := IpGeolocation.FetchIPGeolocation(ip, o.ipGeolocation);
    var r3 := IpData.FetchIPData(ip, o.ipData);
    var r4 := IpApiCo.FetchIPApiCo(ip, o.ipApiCo);
    var r5 := IpInfoIo.FetchIPInfoIO(ip, o.ipInfoIo);
    [r0, r1, r2, r3, r4, r5]
  }

  /**
   * `handler`: a missing or empty `ip` is refused before any adapter is consulted; otherwise the
   * reply echoes the input ip with the six results. Every adapter turns its own failures into a
   * result, so the 500 branch is never taken.
   */
  function Handle(ip: Option<string>, o: Outcomes): (reply: InfoReply)
    ensures reply.BadRequest? <==> ip.None? || ip.value == ""
    ensures reply.BadRequest? ==> reply.error == "IP required"
    ensures !reply.ServerError?
    ensures reply.Lookup? ==> reply.ip == ip.value && reply.results == Results(ip.value, o)
  {
    var q := OrText(ip, "");
    if q == "" then BadRequest("IP required") else Lookup(q, Results(q, o))
  }

  /** A refused request does not depend on what the upstream calls would have produced. */
  lemma RefusalIgnoresUpstream(ip: Option<string>, o1: Outcomes, o2: Outcomes)
    requires ip.None? || ip.value == ""
    ensures Handle(ip, o1) == Handle(ip, o2) == BadRequest("IP required")
  {
  }

  /** The six results name six different providers. */
  lemma ResultProviders(ip: string, o: Outcomes)
    ensures forall i, j :: 0 <= i < j < 6 ==> Results(ip, o)[i].provider != Results(ip, o)[j].provider
  {
  }
}
