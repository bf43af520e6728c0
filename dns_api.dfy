/**
 * The `/api/dns` handler (src/pages/api/dns.ts): checks the `host` query parameter, then fills a
 * dictionary with one entry per record type from DNS-over-HTTPS answers.
 */
module DnsApi {
  import opened Wrappers
  import opened Doh

  /** The `host` query parameter: absent, given once, or repeated (an array). */
  datatype QueryParam = Missing | Single(value: string) | Repeated(values: seq<string>)

  /** The reply: 400 `{error: "Hostname required"}` or 200 with the filled dictionary. */
  datatype DnsReply = HostRequired | Records(all: map<string, seq<DnsRecord>>)

  /** `!host || typeof host !== "string"`: the parameter is unusable. */
  predicate Refused(host: QueryParam)
  {
    !(host.Single? && host.value != "")
  }

  /** `data.Answer || []`, with a query that throws also giving `[]`. */
  function AnswerOrEmpty(o: DohOutcome): (records: seq<DnsRecord>)
    ensures records != [] ==> o.Answered? && o.answer == Some(records)
    ensures o.Answered? && o.answer.Some? ==> records == o.answer.value
  {
    match o
    case QueryFailed => []
    case Answered(answer) => answer.GetOr([])
  }

  /**
   * `handler`. `lookup(host, type)` stands for the outcome of the query for that host and type;
   * `queried` lists the types queried, in order. A refused parameter issues no query; otherwise
   * every record type is queried once and its entry is its answer, or `[]`.
   */
  method Handle(host: QueryParam, lookup: (string, string) -> DohOutcome) returns (reply: DnsReply, queried: seq<string>)
    ensures reply.HostRequired? <==> Refused(host)
    ensures reply.HostRequired? ==> queried == []
    ensures reply.Records? ==>
      && queried == RecordTypes
      && (forall t :: t in reply.all <==> t in RecordTypes)
      && (forall t :: t in reply.all ==> reply.all[t] == AnswerOrEmpty(lookup(host.value, t)))
  {
    if Refused(host) {
      return HostRequired, [];
    }
    var all: map<string, seq<DnsRecord>> := map[];
    queried := [];
    var i := 0;
    while i < |RecordTypes|
      invariant 0 <= i <= |RecordTypes|
      invariant queried == RecordTypes[..i]
      invariant forall t :: t in all <==> t in RecordTypes[..i]
      invariant forall t :: t in all ==> all[t] == AnswerOrEmpty(lookup(host.value, t))
    {
      var rtype := RecordTypes[i];
      var outcome := lookup(host.value, rtype);
      match outcome {
        case QueryFailed =>
          all := all[rtype := []];
        case Answered(answer) =>
          all := all[rtype := answer.GetOr([])];
      }
      queried := queried + [rtype];
      i := i + 1;
    }
    assert RecordTypes[..i] == RecordTypes;
    reply := Records(all);
  }

  /** The record types are distinct, so each entry is written exactly once. */
  lemma RecordTypesDistinct()
    ensures forall i, j :: 0 <= i < j < |RecordTypes| ==> RecordTypes[i] != RecordTypes[j]
  {
  }
}
