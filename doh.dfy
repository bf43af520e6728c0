/**
 * DNS-over-HTTPS answers as the rest of the model sees them. The network request and the JSON
 * parsing are outside the model: a query is described by its outcome.
 */
module Doh {
  import opened Wrappers

  /** The record types queried, in this order. */
  const RecordTypes: seq<string> := ["A", "AAAA", "MX", "NS", "TXT", "CNAME", "SOA"]

  /**
   * One upstream answer object. Only the fields that are read are modelled; `text` stands for
   * the object's JSON serialisation.
   */
  datatype DnsRecord = DnsRecord(
    data: Option<string>,
    exchange: Option<string>,
    priority: Option<int>,
    nameserver: Option<string>,
    txt: Option<string>,
    hostmaster: Option<string>,
    text: string)

  /**
   * The outcome of one query: the request or the JSON parsing threw, or the parsed body, whose
   * `Answer` array may be absent.
   */
  datatype DohOutcome = QueryFailed | Answered(answer: Option<seq<DnsRecord>>)

  /** `Array.isArray(data.Answer) && data.Answer.length > 0` for a query that did not throw. */
  predicate HasRecords(answer: Option<seq<DnsRecord>>)
  {
    answer.Some? && |answer.value| > 0
  }
}
