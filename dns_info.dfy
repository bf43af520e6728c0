/**
 * DNSInfo (src/components/DNSInfo.tsx): how DNS answers are shown. Pure decisions (which values
 * count as IP addresses, truncation of long values, which record field is shown, the summary
 * table) and the component's state (loading flag, error, answers, detail modal) updated by its
 * effect and handlers.
 */
module DnsInfo {
  import opened Wrappers
  import opened Text
  import opened Doh

  // ----- value classification -----

  /** `\d{1,3}`: one to three ASCII digits. */
  predicate DigitGroup(p: string)
  {
    1 <= |p| <= 3 && forall i :: 0 <= i < |p| ==> IsDigit(p[i])
  }

  /** `^\d{1,3}(\.\d{1,3}){3}$`: four digit groups separated by dots, with no range check. */
  predicate IsDottedQuad(s: string)
  {
    var parts := Split(s, '.');
    |parts| == 4 && forall i :: 0 <= i < 4 ==> DigitGroup(parts[i])
  }

  /** `[a-fA-F0-9:]` */
  predicate IsHexOrColon(c: char)
  {
    IsDigit(c) || 'a' <= c <= 'f' || 'A' <= c <= 'F' || c == ':'
  }

  /** `^[a-fA-F0-9:]+$` */
  predicate IsHexColonText(s: string)
  {
    |s| > 0 && forall i :: 0 <= i < |s| ==> IsHexOrColon(s[i])
  }

  /**
   * The test `RenderRecordValue` uses to decide that a value is an IP address. A value that
   * passes is non-empty and made only of hexadecimal digits, colons and dots.
   */
  predicate IsIpLike(s: string): (ipLike: bool)
    ensures ipLike ==> |s| > 0 && forall k :: 0 <= k < |s| ==> IsHexOrColon(s[k]) || s[k] == '.'
  {
    if IsDottedQuad(s) then
      DottedQuadGroups(s);
      JoinDigits(Split(s, '.'));
      true
    else IsHexColonText(s)
  }

  /** Four digit groups joined by dots always match the IPv4 pattern. */
  lemma DottedQuadOfGroups(parts: seq<string>)
    requires |parts| == 4 && forall i :: 0 <= i < 4 ==> DigitGroup(parts[i])
    ensures IsDottedQuad(Join(parts, '.'))
  {
    assert forall i, k :: 0 <= i < 4 && 0 <= k < |parts[i]| ==> parts[i][k] != '.';
    SplitJoin(parts, '.');
  }

  /** Conversely, a value matching the IPv4 pattern is exactly its four groups joined by dots. */
  lemma DottedQuadGroups(s: string)
    requires IsDottedQuad(s)
    ensures var parts := Split(s, '.');
      |parts| == 4 && (forall i :: 0 <= i < 4 ==> DigitGroup(parts[i])) && Join(parts, '.') == s
  {
    JoinSplit(s, '.');
  }

  /** Out-of-range octets pass: "999.999.999.999" is treated as an address. */
  lemma OutOfRangeQuad()
    ensures IsIpLike("999.999.999.999")
  {
    var g := "999";
    assert DigitGroup(g);
    var parts := [g, g, g, g];
    DottedQuadOfGroups(parts);
    assert parts[1..] == [g, g, g] && parts[1..][1..] == [g, g] && parts[1..][1..][1..] == [g];
    var two := g + ['.'] + g;
    var three := g + ['.'] + two;
    assert Join(parts[1..][1..], '.') == two;
    assert Join(parts[1..], '.') == three;
    assert Join(parts, '.') == g + ['.'] + three;
    assert g + ['.'] + three == "999.999.999.999";
  }

  /** Any non-empty run of digits is treated as an address. */
  lemma DigitsAreIpLike(s: string)
    requires |s| > 0 && forall i :: 0 <= i < |s| ==> IsDigit(s[i])
    ensures IsIpLike(s)
  {
    assert IsHexColonText(s);
  }

  /** Hex-only words such as "cafe", and numbers such as "1234", are treated as addresses. */
  lemma HexWordsAreIpLike()
    ensures IsIpLike("cafe") && IsIpLike("1234")
  {
    assert IsHexColonText("cafe");
    DigitsAreIpLike("1234");
  }

  /** A value holding a character outside the hexadecimal, colon and dot classes is never an address. */
  lemma OtherCharacterNotIpLike(s: string, k: nat)
    requires k < |s| && !IsHexOrColon(s[k]) && s[k] != '.'
    ensures !IsIpLike(s)
  {
    if IsDottedQuad(s) {
      DottedQuadGroups(s);
      var parts := Split(s, '.');
      JoinDigits(parts);
    }
  }

  /** Every character of groups of digits joined by dots is a digit or a dot. */
  lemma {:induction false} JoinDigits(parts: seq<string>)
    requires forall i :: 0 <= i < |parts| ==> forall j :: 0 <= j < |parts[i]| ==> IsDigit(parts[i][j])
    ensures forall k :: 0 <= k < |Join(parts, '.')| ==> IsDigit(Join(parts, '.')[k]) || Join(parts, '.')[k] == '.'
  {
    if |parts| > 1 {
      JoinDigits(parts[1..]);
      var rest := Join(parts[1..], '.');
      assert Join(parts, '.') == parts[0] + ['.'] + rest;
      var s := Join(parts, '.');
      forall k | 0 <= k < |s| ensures IsDigit(s[k]) || s[k] == '.' {
        if k < |parts[0]| {
          assert s[k] == parts[0][k];
        } else if k > |parts[0]| {
          var m := k - |parts[0]| - 1;
          assert s[k] == rest[m];
          assert IsDigit(rest[m]) || rest[m] == '.';
        } else {
          assert s[k] == '.';
        }
      }
    }
  }

  // ----- truncation and value rendering -----

  const MaxShown := 60
  const KeptPrefix := 57

  /** Values longer than 60 characters are cut to their first 57 and "...". */
  function Truncate(s: string): (r: string)
    ensures |r| <= MaxShown
    ensures |s| <= MaxShown ==> r == s
    ensures |s| > MaxShown ==> |r| == MaxShown && r[..KeptPrefix] == s[..KeptPrefix] && r[KeptPrefix..] == "..."
  {
    if |s| > MaxShown then s[..KeptPrefix] + "..." else s
  }

  /** Truncating a shown value again changes nothing. */
  lemma TruncateIdempotent(s: string)
    ensures Truncate(Truncate(s)) == Truncate(s)
  {
  }

  /** How one value is drawn: an IP link, a shortened button opening the full value, or plain text. */
  datatype ValueView =
    | IpLink(href: string, title: string, text: string)
    | Expandable(short: string, full: string)
    | Plain(text: string)

  /** `RenderIPLink`: the link targets the value's geolocation anchor and keeps the full value as its title. */
  function IpLinkOf(v: string): (view: ValueView)
    ensures view.IpLink? && view.href == "#" + AnchorOf(v) && view.title == v && view.text == Truncate(v)
  {
    IpLink("#" + AnchorOf(v), v, Truncate(v))
  }

  /** The element id of a value's geolocation section. */
  function AnchorOf(v: string): string
  {
    "ipinfo-" + v
  }

  /** `RenderRecordValue`: addresses become links, long values buttons, the rest plain text. */
  function RenderValue(v: string): (view: ValueView)
    ensures view.IpLink? <==> IsIpLike(v)
    ensures view.Expandable? <==> !IsIpLike(v) && |v| > MaxShown
    ensures view.IpLink? ==> view == IpLinkOf(v)
    ensures view.Expandable? ==> view.full == v && view.short == Truncate(v) && |view.short| == MaxShown
    ensures view.Plain? ==> view.text == v && |v| <= MaxShown
  {
    if IsIpLike(v) then IpLinkOf(v)
    else if |v| > MaxShown then Expandable(Truncate(v), v)
    else Plain(v)
  }

  /** The full value a view stands for. */
  function FullValue(view: ValueView): string
  {
    match view
    case IpLink(_, title, _) => title
    case Expandable(_, full) => full
    case Plain(text) => text
  }

  /** No value is lost: every view keeps the full value, and a short value is shown whole. */
  lemma RenderKeepsValue(v: string)
    ensures FullValue(RenderValue(v)) == v
    ensures |v| <= MaxShown ==> (RenderValue(v).IpLink? ==> RenderValue(v).text == v)
  {
  }

  // ----- record display -----

  /** How one DNS record is drawn. */
  datatype RecordView =
    | ValueShown(view: ValueView)
    | ExchangeShown(exchange: string, priority: Option<int>)
    | NameserverShown(nameserver: string)
    | HostmasterShown(hostmaster: string)
    | JsonShown(text: string)

  /** The field precedence: `data`, `exchange`, `nameserver`, `txt`, `hostmaster`, else the JSON text. */
  function DisplayRecord(r: DnsRecord): (view: RecordView)
    ensures view.JsonShown? <==> forall i :: 0 <= i < |ShownFields(r)| ==> !TruthyStr(ShownFields(r)[i])
    ensures view.JsonShown? ==> view.text == r.text
    ensures TruthyStr(r.data) ==> ShownText(view) == r.data.value
  {
    assert ShownFields(r)[0] == r.data && ShownFields(r)[1] == r.exchange && ShownFields(r)[2] == r.nameserver;
    assert ShownFields(r)[3] == r.txt && ShownFields(r)[4] == r.hostmaster;
    if TruthyStr(r.data) then ValueShown(RenderValue(r.data.value))
    else if TruthyStr(r.exchange) then ExchangeShown(r.exchange.value, r.priority)
    else if TruthyStr(r.nameserver) then NameserverShown(r.nameserver.value)
    else if TruthyStr(r.txt) then ValueShown(RenderValue(r.txt.value))
    else if TruthyStr(r.hostmaster) then HostmasterShown(r.hostmaster.value)
    else JsonShown(r.text)
  }

  /** The text a record view stands for. */
  function ShownText(view: RecordView): string
  {
    match view
    case ValueShown(v) => FullValue(v)
    case ExchangeShown(e, _) => e
    case NameserverShown(n) => n
    case HostmasterShown(h) => h
    case JsonShown(t) => t
  }

  /** The first present, non-empty value of a list of optional texts. */
  function FirstTruthy(fields: seq<Option<string>>): (r: Option<string>)
    ensures r.Some? ==> r.value != "" && r in fields
    ensures r.None? <==> forall i :: 0 <= i < |fields| ==> !TruthyStr(fields[i])
    ensures r.Some? ==> exists k :: 0 <= k < |fields| && fields[k] == r && forall j :: 0 <= j < k ==> !TruthyStr(fields[j])
  {
    if fields == [] then None
    else if TruthyStr(fields[0]) then fields[0]
    else
      var rest := FirstTruthy(fields[1..]);
      assert forall j :: 1 <= j < |fields| ==> fields[j] == fields[1..][j - 1];
      rest
  }

  /** The record fields in the order they are consulted. */
  function ShownFields(r: DnsRecord): seq<Option<string>>
  {
    [r.data, r.exchange, r.nameserver, r.txt, r.hostmaster]
  }

  /** A record shows its first non-empty field in precedence order, or its JSON text when it has none. */
  lemma {:induction false} DisplayFollowsPrecedence(r: DnsRecord)
    ensures ShownText(DisplayRecord(r)) == FirstTruthy(ShownFields(r)).GetOr(r.text)
  {
    var fs := ShownFields(r);
    var f1, f2, f3, f4 := fs[1..], fs[1..][1..], fs[1..][1..][1..], fs[1..][1..][1..][1..];
    assert f1 == [r.exchange, r.nameserver, r.txt, r.hostmaster];
    assert f2 == [r.nameserver, r.txt, r.hostmaster];
    assert f3 == [r.txt, r.hostmaster];
    assert f4 == [r.hostmaster];
    if TruthyStr(r.data) {
      RenderKeepsValue(r.data.value);
    } else {
      assert FirstTruthy(fs) == FirstTruthy(f1);
      if !TruthyStr(r.exchange) {
        assert FirstTruthy(f1) == FirstTruthy(f2);
        if !TruthyStr(r.nameserver) {
          assert FirstTruthy(f2) == FirstTruthy(f3);
          if TruthyStr(r.txt) {
            RenderKeepsValue(r.txt.value);
          } else {
            assert FirstTruthy(f3) == FirstTruthy(f4);
          }
        }
      }
    }
  }

  /** In the per-type sections, A and AAAA records with `data` get a link and a geolocation section. */
  predicate HasGeoSection(rtype: string, r: DnsRecord)
  {
    (rtype == "A" || rtype == "AAAA") && TruthyStr(r.data)
  }

  /** One entry of a per-type section. */
  datatype SectionItem =
    | GeoItem(link: ValueView, anchor: string, ip: string)
    | RecordItem(view: RecordView)

  function SectionItemOf(rtype: string, r: DnsRecord): (item: SectionItem)
    ensures item.GeoItem? <==> HasGeoSection(rtype, r)
    ensures item.GeoItem? ==> item.ip == r.data.value && item.link.IpLink? && item.link.href == "#" + item.anchor
    ensures item.RecordItem? ==> item.view == DisplayRecord(r)
  {
    if HasGeoSection(rtype, r) then GeoItem(IpLinkOf(r.data.value), AnchorOf(r.data.value), r.data.value)
    else RecordItem(DisplayRecord(r))
  }

  // ----- summary table -----

  datatype SummaryRow = SummaryRow(rtype: string, count: nat)

  /** `dnsData[type]?.length || 0` */
  function CountOf(data: map<string, seq<DnsRecord>>, rtype: string): nat
  {
    if rtype in data then |data[rtype]| else 0
  }

  /** One row per record type, in the fixed order, with its number of answers. */
  function SummaryRows(data: map<string, seq<DnsRecord>>): (rows: seq<SummaryRow>)
    ensures |rows| == |RecordTypes|
    ensures forall i :: 0 <= i < |rows| ==> rows[i] == SummaryRow(RecordTypes[i], CountOf(data, RecordTypes[i]))
  {
    seq(|RecordTypes|, i requires 0 <= i < |RecordTypes| => SummaryRow(RecordTypes[i], CountOf(data, RecordTypes[i])))
  }

  /** The rows actually drawn: those with a non-zero count, in order. */
  function VisibleRows(rows: seq<SummaryRow>): (vs: seq<SummaryRow>)
    ensures |vs| <= |rows|
    ensures forall r :: r in vs <==> r in rows && r.count != 0
    ensures vs == [] <==> forall r :: r in rows ==> r.count == 0
  {
    if rows == [] then []
    else if rows[0].count != 0 then [rows[0]] + VisibleRows(rows[1..])
    else VisibleRows(rows[1..])
  }

  /** The filter keeps the rows' order: the rows drawn for a concatenation are concatenated. */
  lemma {:induction false} VisibleRowsAppend(a: seq<SummaryRow>, b: seq<SummaryRow>)
    ensures VisibleRows(a + b) == VisibleRows(a) + VisibleRows(b)
    decreases |a|
  {
    if a == [] {
      assert a + b == b;
    } else {
      assert (a + b)[0] == a[0];
      assert (a + b)[1..] == a[1..] + b;
      VisibleRowsAppend(a[1..], b);
    }
  }

  /** A type has a visible summary row exactly when its answer list is non-empty. */
  lemma VisibleRowFor(data: map<string, seq<DnsRecord>>, rtype: string)
    requires rtype in RecordTypes
    ensures (exists n :: SummaryRow(rtype, n) in VisibleRows(SummaryRows(data)))
        <==> rtype in data && |data[rtype]| > 0
  {
    var rows := SummaryRows(data);
    var i :| 0 <= i < |RecordTypes| && RecordTypes[i] == rtype;
    if rtype in data && |data[rtype]| > 0 {
      assert rows[i] in rows;
      assert SummaryRow(rtype, |data[rtype]|) in VisibleRows(rows);
    }
  }

  /** The summary table is drawn when the answer object has at least one key. */
  predicate SummaryShown(data: map<string, seq<DnsRecord>>)
  {
    |data| > 0
  }

  /**
   * Every reply of the `/api/dns` handler carries a key for each record type, so the summary
   * table is drawn after every successful fetch, even when every answer list is empty and no row
   * is visible.
   */
  lemma SummaryShownForEveryReply(all: map<string, seq<DnsRecord>>)
    requires forall t :: t in all <==> t in RecordTypes
    ensures SummaryShown(all)
    ensures (forall t :: t in all ==> all[t] == []) ==> VisibleRows(SummaryRows(all)) == []
  {
    assert RecordTypes[0] in all;
    assert |all.Keys| > 0;
    if forall t :: t in all ==> all[t] == [] {
      var rows := SummaryRows(all);
      assert forall r :: r in rows ==> r.count == 0;
    }
  }

  // ----- component state -----

  datatype Modal = Modal(content: string, open: bool)

  const LoadError := "Failed to load DNS records"

  /**
   * The component's state. `requested` is the host of the last request issued; a request is
   * settled by `FetchSucceeded` or `FetchFailed`.
   */
  class DnsInfoPanel {
    var input: string
    var dnsData: map<string, seq<DnsRecord>>
    var loading: bool
    var err: Option<string>
    var modal: Modal
    var requested: Option<string>

    /** Loading means answers and error were cleared; an error means there are no answers; an open modal has content. */
    ghost predicate Valid()
      reads this
    {
      && (loading ==> dnsData == map[] && err.None?)
      && (err.Some? ==> !loading && dnsData == map[])
      && (modal.open <==> modal.content != "")
    }

    /** The first render, followed by the effect for the initial input. */
    constructor(input: string)
      ensures Valid()
      ensures this.input == input && dnsData == map[] && err.None? && modal == Modal("", false)
      ensures loading <==> input != ""
      ensures requested == (if input == "" then None else Some(input))
    {
      this.input := input;
      dnsData := map[];
      err := None;
      modal := Modal("", false);
      if input == "" {
        loading := false;
        requested := None;
      } else {
        loading := true;
        requested := Some(input);
      }
    }

    /**
     * A render with `newInput`. The effect is keyed on `input`, so it runs only when the value
     * differs from the previous one; then a non-empty input starts loading and clears error and
     * answers, and an empty one changes nothing.
     */
    method OnInputChange(newInput: string)
      requires Valid()
      modifies this
      ensures Valid()
      ensures input == newInput && modal == old(modal)
      ensures newInput == "" || newInput == old(input) ==>
        dnsData == old(dnsData) && loading == old(loading) && err == old(err) && requested == old(requested)
      ensures newInput != "" && newInput != old(input) ==>
        loading && err.None? && dnsData == map[] && requested == Some(newInput)
    {
      var changed := newInput != input;
      input := newInput;
      if changed && newInput != "" {
        loading := true;
        err := None;
        dnsData := map[];
        requested := Some(newInput);
      }
    }

    /** The request answered with a JSON object: it becomes the answers, and loading ends. */
    method FetchSucceeded(data: map<string, seq<DnsRecord>>)
      requires Valid() && loading
      modifies this
      ensures Valid()
      ensures dnsData == data && !loading
      ensures err == old(err) && modal == old(modal) && input == old(input) && requested == old(requested)
    {
      dnsData := data;
      loading := false;
    }

    /** The request failed: a fixed error text, and loading ends. */
    method FetchFailed()
      requires Valid() && loading
      modifies this
      ensures Valid()
      ensures err == Some(LoadError) && !loading
      ensures dnsData == old(dnsData) == map[] && modal == old(modal) && input == old(input) && requested == old(requested)
    {
      err := Some(LoadError);
      loading := false;
    }

    /** Clicking a shortened value (a long value that is not an address) opens the modal with the full value. */
    method OpenModal(value: string)
      requires Valid() && RenderValue(value).Expandable?
      modifies this
      ensures Valid()
      ensures modal == Modal(value, true)
      ensures dnsData == old(dnsData) && loading == old(loading) && err == old(err)
      ensures input == old(input) && requested == old(requested)
    {
      modal := Modal(value, true);
    }

    /** The backdrop or the close button empties and closes the modal. */
    method CloseModal()
      requires Valid()
      modifies this
      ensures Valid()
      ensures modal == Modal("", false)
      ensures dnsData == old(dnsData) && loading == old(loading) && err == old(err)
      ensures input == old(input) && requested == old(requested)
    {
      modal := Modal("", false);
    }
  }
}
