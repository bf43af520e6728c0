# tcpping: a verified model of the hostname generator and lookup pipeline

tcpping is a small Next.js site for network diagnostics. A user picks a country, a
province, a city, a provider and a protocol (`dual`, `v4`, `v6`). The site builds a
diagnostic hostname under `tcpping.top` and checks that it resolves. It shows the DNS
records of a hostname and the geolocation of every address it finds. The geolocation
comes from six public IP-information providers, each normalised to one result shape.

This project models the core of that site in Dafny and proves properties of the model:

- `Wrappers`, `Text`, `Catalog`: JavaScript `a || b` truthiness, `split`/`join`,
  `toLowerCase`, number-to-text, and the catalog of countries, provinces, cities and
  providers (`src/types.ts`) as ordered key/value records.
- `Hostnames`: the grammar of a generated hostname, `[<protocol>.]<t1>-…-<tn>.<country>.tcpping.top`,
  with a parser. It is proved to recover every well-formed hostname.
- `Generator`: the generator panel (`src/components/GeneratorPanel.tsx`) as a class whose
  methods are the panel's handlers, each together with the effects it triggers. That
  covers the provider lookup, protocol derivation, the URL builder, the resolvability
  check and the cities reported to the map.
- `Home`: the older generator page (`src/pages/index.tsx`) as a second class, with its
  own hostname grammar. A lemma proves the two builders disagree on `dual`.
- `Geo` and the six adapters `IpApi`, `IpWhois`, `IpGeolocation`, `IpData`, `IpApiCo`,
  `IpInfoIo`: each adapter is a pure function from the outcome of its HTTP call to the
  normalised result.
- `InfoApi`, `DnsApi`, `ChinaMap`: the three API routes `/api/info`, `/api/dns` and
  `/api/china-map`. `/api/dns` keeps its loop over the seven record types.
- `MapPanel` and `SvgWorldMap`: the selection chain that picks the map view, and the
  map's zoom conversion, marker list and centre swap.
- `DnsInfo`: the DNS view. It covers the IP-like classifier, truncation, the field
  precedence of a record, the summary table, and the component's state as a class.

Network calls, timers and the clipboard are not executed by the model. Each call becomes a
parameter carrying its outcome: `Outcome<T>` for an adapter, `DohOutcome` for a DNS-over-HTTPS
query, `GeoJson` for the bundled map file.

Behaviour of the code worth noting, which the model follows as written:

- For a dual-stack provider the panel offers `dual`, `v4` and `v6`
  (GeneratorPanel.tsx:113-115). It keeps the current protocol if the provider offers it, and
  otherwise clears it (`Generator.DeriveProtocol`).
- Country-level provider lists exist in the catalog but the lookup never reads them
  (`Generator.CountryProvidersIgnored`).
- For China without a province the panel still builds `<provider>.cn.tcpping.top`.
- The older page writes `dual.` like any other protocol and never uses the province.
  Its protocol handler writes any value it is given, and so does the panel's.
- `MapPanel.tsx` renders `WorldMap.tsx`, not `SvgWorldMap.tsx`. `SvgWorldMap` is
  therefore modelled on its own.
- The comments above `mapZoomLevel` (SvgWorldMap.tsx:21-25) name the levels 1, 4, 10 and
  20. The code returns 1, 3, 8 and 15; this is the one place where the source's own
  documentation and its code disagree.

## Model

| member | source | states |
|---|---|---|
| Wrappers.OrStr | src/components/ipinfo/ipapi.ts:48 | `a \|\| b`: the first operand when it is a non-empty string, else the second |
| Wrappers.OrText | src/components/ipinfo/ipapi.ts:27 | `a \|\| "fallback"`: the text of a non-empty operand, else the fallback |
| Text.Split | src/components/ipinfo/ipapi.ts:44 | `split`: at least one part, no part contains the separator, the first part is a prefix of the input |
| Text.JoinSplit | src/components/ipinfo/ipapi.ts:44-45 | joining the parts of a split with the same separator gives back the input |
| Text.SplitJoin | src/components/GeneratorPanel.tsx:199-209 | splitting a join of separator-free parts gives back the parts |
| Text.Lower | src/components/GeneratorPanel.tsx:207-209 | `toLowerCase`: same length, every character lowered one by one |
| Text.LowerKeepsOutDot | src/components/GeneratorPanel.tsx:207 | lowering a label adds no dot to it |
| Text.IntToString | src/components/ipinfo/ipwhois.ts:44 | a number's decimal text: non-empty, all digits, with a leading `-` exactly for negatives |
| Catalog.Lookup | src/types.ts:33 | record indexing: absent exactly when no entry has the key, else the value of an entry with that key |
| Catalog.Values | src/components/GeneratorPanel.tsx:128 | `Object.values`: the values in entry order |
| Hostnames.ParseRender | src/components/GeneratorPanel.tsx:195-211 | every well-formed hostname is recovered by parsing its text |
| Generator.FindProvider | src/components/GeneratorPanel.tsx:64-104 | no entry without provider or country, or for China without a province; an entry found has the selected country and code and is the one stored at its path |
| Generator.ChinaProviderPrecedence | src/components/GeneratorPanel.tsx:77-91 | for China a city-level entry wins; otherwise the province-level entry is used |
| Generator.OtherCountryProvider | src/components/GeneratorPanel.tsx:92-99 | elsewhere an entry is found exactly when the country lists cities and the city has the provider |
| Generator.CountryProvidersIgnored | src/components/GeneratorPanel.tsx:76-99 | removing every country-level provider list changes no lookup |
| Generator.Available | src/components/GeneratorPanel.tsx:112-115 | `dual` offered exactly for dual-stack, `v4` exactly with IPv4, `v6` exactly with IPv6; one or three options |
| Generator.DeriveProtocol | src/components/GeneratorPanel.tsx:107-119 | no entry clears the protocol; an offered protocol is kept; otherwise the single option or "" |
| Generator.DeriveProtocolChoices | src/components/GeneratorPanel.tsx:112-117 | a single-stack provider always gets its protocol; a dual-stack one keeps the current choice or gets "" |
| Generator.DeriveProtocolIdempotent | src/components/GeneratorPanel.tsx:116-117 | re-running the protocol effect changes nothing |
| Generator.GeneratorUrl | src/components/GeneratorPanel.tsx:193-211 | the URL is empty exactly when provider or country is unset |
| Generator.ChinaUrlRenders | src/components/GeneratorPanel.tsx:197-204 | each Chinese branch is the hostname grammar with its tokens and country `cn` |
| Generator.OtherUrlRenders | src/components/GeneratorPanel.tsx:205-211 | both branches for other countries are the grammar with the lower-case country |
| Generator.TokensWellFormed | src/components/GeneratorPanel.tsx:195-211 | selections without `.` and `-` give well-formed tokens and protocol label |
| Generator.GeneratorUrlParses | src/components/GeneratorPanel.tsx:193-211 | a generated URL parses back to the protocol label (none for `dual`), the grammar's tokens and the lower-case country |
| Generator.CheckDomainValid | src/components/GeneratorPanel.tsx:8-24 | valid exactly when neither query threw and the A or AAAA answer is a non-empty array; a failing AAAA query makes it invalid |
| Generator.CityPoints | src/components/GeneratorPanel.tsx:126-131 | one city marker per catalog city, in order, with its name and location |
| Generator.CitiesForCountry | src/components/GeneratorPanel.tsx:122-143 | nothing for an absent catalog or country; a country's own cities when it lists any; otherwise the cities of its provinces in order; nothing when it lists neither |
| Generator.ProvinceCityPointsMembers | src/components/GeneratorPanel.tsx:132-140 | a province-derived marker is exactly a city listed under some province |
| Generator.GeneratorPanel.constructor | src/components/GeneratorPanel.tsx:56-61 | every selection empty, no entry; the parent's lookup fields are kept |
| Generator.GeneratorPanel.SyncProvider | src/components/GeneratorPanel.tsx:64-119 | the stored entry is re-looked-up; the protocol is re-derived exactly when the entry changed |
| Generator.GeneratorPanel.SetCountry | src/components/GeneratorPanel.tsx:159-173 | country written; province, city, provider, protocol cleared; no entry; the map gets the country and its cities |
| Generator.GeneratorPanel.SetProvince | src/components/GeneratorPanel.tsx:174-179 | province written; city, provider and protocol cleared; other fields unchanged |
| Generator.GeneratorPanel.SetCity | src/components/GeneratorPanel.tsx:180-184 | city written; provider and protocol cleared; other fields unchanged |
| Generator.GeneratorPanel.SetProvider | src/components/GeneratorPanel.tsx:185-187 | provider written; the protocol is re-derived exactly when the found entry changes |
| Generator.GeneratorPanel.SetProtocol | src/components/GeneratorPanel.tsx:188-190 | protocol written, nothing else changes |
| Generator.GeneratorPanel.Generate | src/components/GeneratorPanel.tsx:193-220 | publishes the URL; an empty URL leaves the status unknown; otherwise the status is the resolvability verdict and checking ends |
| Generator.GeneratorPanel.Reset | src/components/GeneratorPanel.tsx:222-233 | every selection and the parent's lookup state back to empty |
| Home.HomeUrl | src/pages/index.tsx:69-83 | the URL is empty exactly when provider or country is unset |
| Home.HomeUrlRenders | src/pages/index.tsx:70-82 | all four branches are one grammar: protocol label if set, provider, city if set, lower-case country |
| Home.HomeUrlParses | src/pages/index.tsx:69-83 | a generated URL parses back to its protocol, tokens and country; the province never appears |
| Home.DualLabelDiffers | src/pages/index.tsx:71 | the older page writes `dual` as a label, the panel writes no label for it |
| Home.HomePage.constructor | src/pages/index.tsx:14-28 | China selected, every other field empty, not copied |
| Home.HomePage.SetCountry | src/pages/index.tsx:41-47 | country written; province, city, provider cleared; protocol kept; copied cleared |
| Home.HomePage.SetProvince | src/pages/index.tsx:48-53 | province written; city and provider cleared; copied cleared |
| Home.HomePage.SetCity | src/pages/index.tsx:54-58 | city written; provider cleared; copied cleared |
| Home.HomePage.SetProvider | src/pages/index.tsx:59-62 | provider written, other selections kept, copied cleared |
| Home.HomePage.SetProtocol | src/pages/index.tsx:63-66 | protocol written, other selections kept, copied cleared |
| Home.HomePage.Reset | src/pages/index.tsx:31-38 | back to the initial state |
| Home.HomePage.CopyToClipboard | src/pages/index.tsx:87-93 | sets the copied flag when there is a URL, and otherwise leaves it as it was |
| Home.HomePage.CopiedTimerFires | src/pages/index.tsx:91 | the timer clears the copied flag |
| Geo.Failure | src/components/IPInfo.tsx:12-33 | a failure result: not ok, the input ip, the error text, the raw body if any, and no data fields |
| IpApi.AsNumber | src/components/ipinfo/ipapi.ts:44 | the AS number is a space-free prefix of the `as` text, or "" without one |
| IpApi.AsFieldSplit | src/components/ipinfo/ipapi.ts:44-45 | AS number, a space and AS name give back the `as` text |
| IpApi.AsFieldWithoutSpace | src/components/ipinfo/ipapi.ts:44-45 | without a space the whole text is the number and the name is empty |
| IpApi.FetchIPApi | src/components/ipinfo/ipapi.ts:3-62 | normalised; ok exactly when `status` is "success"; each failure path's error text; each success field's source |
| IpWhois.AsLabel | src/components/ipinfo/ipwhois.ts:44 | `AS<number>` for a present non-zero ASN, else "" |
| IpWhois.FetchIPWhois | src/components/ipinfo/ipwhois.ts:3-62 | normalised; ok exactly when `success` is true; each failure path's error text; each success field's source |
| IpGeolocation.FetchIPGeolocation | src/components/ipinfo/ipgeolocation.ts:5-64 | normalised; ok exactly when there is no `message`, which is otherwise the error; each success field's source |
| IpData.ErrorText | src/components/ipinfo/ipdata.ts:29 | `reason`, else `message`, else the fixed text; never empty |
| IpData.FetchIPData | src/components/ipinfo/ipdata.ts:5-64 | normalised; ok exactly when neither `error` nor `message` is set; each success field's source |
| IpApiCo.ErrorText | src/components/ipinfo/ipapi_co.ts:27 | `reason`, else `message`, else the fixed text; never empty |
| IpApiCo.FetchIPApiCo | src/components/ipinfo/ipapi_co.ts:3-62 | normalised; ok exactly when `error` is not set; the fields ipapi.co does not fill stay unset |
| IpInfoIo.FetchIPInfoIO | src/components/ipinfo/ipinfoio.ts:5-64 | normalised; ok exactly when there is no `error`, which is otherwise copied verbatim; each success field's source |
| InfoApi.Results | src/pages/api/info.ts:15-22 | six results, the i-th normalised for the i-th provider |
| InfoApi.Handle | src/pages/api/info.ts:9-28 | 400 "IP required" exactly when the ip is missing or empty; never 500; otherwise the ip and the six results |
| InfoApi.RefusalIgnoresUpstream | src/pages/api/info.ts:10-11 | a refused request does not depend on any upstream outcome |
| InfoApi.ResultProviders | src/pages/api/info.ts:15-22 | the six results name six different providers |
| DnsApi.AnswerOrEmpty | src/pages/api/dns.ts:18-21 | `Answer \|\| []`: the answer when present, and nothing else when a query fails |
| DnsApi.Handle | src/pages/api/dns.ts:5-26 | refused exactly for a missing, empty or repeated host, with no query; otherwise one query per record type and the reply's keys are exactly the seven types |
| DnsApi.RecordTypesDistinct | src/pages/api/dns.ts:3 | the seven record types are distinct |
| ChinaMap.Filter | src/pages/api/china-map.ts:6-8 | keeps exactly the features with a non-empty name and a geometry, in order |
| ChinaMap.FilterAppend | src/pages/api/china-map.ts:6-8 | filtering distributes over concatenation |
| ChinaMap.FilterIdempotent | src/pages/api/china-map.ts:6-8 | filtering twice is filtering once |
| ChinaMap.FilterKeepsAll | src/pages/api/china-map.ts:6-8 | the filter changes nothing exactly when every feature is kept |
| ChinaMap.Handle | src/pages/api/china-map.ts:4-15 | status 200, `no-store`, a FeatureCollection; a missing feature list stays missing |
| MapPanel.Locations | src/components/MapPanel.tsx:41-47 | the located results in order: exactly the ok results with truthy latitude and longitude |
| MapPanel.LocationsAppend | src/components/MapPanel.tsx:41-47 | the filter keeps order: the locations of a concatenation are the concatenated locations |
| MapPanel.CityMarkers | src/components/MapPanel.tsx:69-74 | one marker per city entry with its name, code and location |
| MapPanel.ProvinceMarkers | src/components/MapPanel.tsx:121-126 | one marker per province entry with its name, code and location |
| MapPanel.Select | src/components/MapPanel.tsx:37-150 | crashes exactly on an IP lookup whose results place nothing; zoom follows the mode; centre only outside default mode; IP markers only in lookup mode |
| MapPanel.OtherCountryView | src/components/MapPanel.tsx:129-150 | a listed country other than China with cities and no matching city: country mode, its city markers, centred on it, zoom 5 |
| MapPanel.DefaultViewWhen | src/components/MapPanel.tsx:37-150 | the default view is shown exactly when an IP lookup has no results, or a catalog lookup names no listed country, or the country lacks the province or city list its branch needs |
| MapPanel.SelectGuarded | src/components/MapPanel.tsx:37-150 | never crashes and agrees with the source wherever the source does not crash |
| MapPanel.Render | src/components/MapPanel.tsx:152-170 | nothing on mobile; otherwise the selected view |
| MapPanel.ZeroLatitudeCrashes | src/components/MapPanel.tsx:42-48 | a single result on the equator crashes the panel |
| MapPanel.FirstLocation | src/components/MapPanel.tsx:41-48 | the first location comes from the first located result |
| MapPanel.LookupCentre | src/components/MapPanel.tsx:38-50 | a lookup is centred on the first located result at zoom 8 |
| MapPanel.LookupWithoutResults | src/components/MapPanel.tsx:38-39 | a lookup without results shows the default view |
| MapPanel.ChinaCityModeUnreachable | src/components/MapPanel.tsx:53-105 | China never reaches city mode: the province branch always comes first |
| MapPanel.ProvinceView | src/components/MapPanel.tsx:53-76 | a known Chinese province: its cities at zoom 8 |
| MapPanel.CityView | src/components/MapPanel.tsx:78-105 | a known city of another country: that city alone at zoom 10 |
| MapPanel.ChinaCountryView | src/components/MapPanel.tsx:107-127 | China without a known province: its provinces at zoom 5 |
| SvgWorldMap.MapZoomLevel | src/components/SvgWorldMap.tsx:26-31 | one of 1, 3, 8, 15; 1 exactly up to 2, 3 exactly in (2, 5], 8 exactly in (5, 8], 15 exactly above 8 |
| SvgWorldMap.MapZoomMonotone | src/components/SvgWorldMap.tsx:26-31 | a larger zoom never gives a smaller level |
| SvgWorldMap.PanelZoomLevels | src/components/SvgWorldMap.tsx:21-31 | the panel's zooms 2, 5, 8, 10 become 1, 3, 8, 15 |
| SvgWorldMap.IpName | src/components/SvgWorldMap.tsx:48 | the label when non-empty, else the ip |
| SvgWorldMap.Markers | src/components/SvgWorldMap.tsx:44-51 | the city markers in order, then one IP marker per location in order |
| SvgWorldMap.ViewpointOf | src/components/SvgWorldMap.tsx:33-55 | the centre swapped to (lon, lat), default (20, 0); the zoom converted, default 2 |
| SvgWorldMap.DefaultViewpoint | src/components/SvgWorldMap.tsx:37-38 | without props the map shows longitude 0, latitude 20 at level 1 |
| DnsInfo.IsIpLike | src/components/DNSInfo.tsx:46-49 | a value taken for an address is non-empty and made only of hexadecimal digits, colons and dots |
| DnsInfo.DottedQuadOfGroups | src/components/DNSInfo.tsx:47 | four groups of one to three digits joined by dots match the IPv4 pattern |
| DnsInfo.DottedQuadGroups | src/components/DNSInfo.tsx:47 | a text matching the IPv4 pattern is four such groups joined by dots |
| DnsInfo.OutOfRangeQuad | src/components/DNSInfo.tsx:47 | the pattern accepts `999.999.999.999` |
| DnsInfo.DigitsAreIpLike | src/components/DNSInfo.tsx:48 | any non-empty run of digits counts as an address |
| DnsInfo.HexWordsAreIpLike | src/components/DNSInfo.tsx:48 | hex words such as `cafe` count as an address |
| DnsInfo.OtherCharacterNotIpLike | src/components/DNSInfo.tsx:46-49 | a character that is neither hex, colon nor dot rules a text out |
| DnsInfo.JoinDigits | src/components/DNSInfo.tsx:47 | digit groups joined by dots hold only digits and dots |
| DnsInfo.Truncate | src/components/DNSInfo.tsx:30-31 | at most 60 characters; unchanged up to 60; otherwise the first 57 and `...` |
| DnsInfo.TruncateIdempotent | src/components/DNSInfo.tsx:30-31 | truncating twice is truncating once |
| DnsInfo.IpLinkOf | src/components/DNSInfo.tsx:29-42 | links to `#ipinfo-<value>`, titled with the value, showing it truncated |
| DnsInfo.RenderValue | src/components/DNSInfo.tsx:44-70 | a link exactly for IP-like text; a modal button exactly for other text over 60; else plain |
| DnsInfo.RenderKeepsValue | src/components/DNSInfo.tsx:44-70 | every rendering keeps the full value reachable |
| DnsInfo.DisplayRecord | src/components/DNSInfo.tsx:117-149 | the JSON text is shown exactly when none of `data`, `exchange`, `nameserver`, `txt`, `hostmaster` is non-empty; a non-empty `data` is shown whatever the other fields hold |
| DnsInfo.FirstTruthy | src/components/DNSInfo.tsx:115-149 | the first non-empty field: a field of the list with every earlier field empty; absent exactly when none is non-empty |
| DnsInfo.DisplayFollowsPrecedence | src/components/DNSInfo.tsx:115-149 | a record shows data, exchange, nameserver, txt, hostmaster in that precedence, else its JSON text |
| DnsInfo.SectionItemOf | src/components/DNSInfo.tsx:174-224 | an A or AAAA record with data gets a link and a geolocation anchor; others are displayed by precedence |
| DnsInfo.SummaryRows | src/components/DNSInfo.tsx:77-80 | one row per record type, in order, with its record count |
| DnsInfo.VisibleRows | src/components/DNSInfo.tsx:97-98 | exactly the rows with a non-zero count; none at all exactly when every count is zero |
| DnsInfo.VisibleRowsAppend | src/components/DNSInfo.tsx:97-98 | the filter keeps the rows' order: the rows of a concatenation are the concatenated rows |
| DnsInfo.VisibleRowFor | src/components/DNSInfo.tsx:76-98 | a type has a visible summary row exactly when the reply has records of that type |
| DnsInfo.SummaryShownForEveryReply | src/components/DNSInfo.tsx:76 | a dictionary holding a key for each of the seven record types, as every `/api/dns` reply does, draws the summary table; when every answer list is empty the table has no visible row |
| DnsInfo.DnsInfoPanel.constructor | src/components/DNSInfo.tsx:10-26 | no data, no error, modal closed; loading and a request exactly for a non-empty input |
| DnsInfo.DnsInfoPanel.OnInputChange | src/components/DNSInfo.tsx:16-21 | an empty or unchanged input changes nothing but the input; a new non-empty one starts loading, clears error and data, one request |
| DnsInfo.DnsInfoPanel.FetchSucceeded | src/components/DNSInfo.tsx:22-25 | the reply becomes the data and loading ends |
| DnsInfo.DnsInfoPanel.FetchFailed | src/components/DNSInfo.tsx:24-25 | the fixed error text, loading ends, the data stays empty |
| DnsInfo.DnsInfoPanel.OpenModal | src/components/DNSInfo.tsx:52-58 | a long non-IP value opens the modal with its full text |
| DnsInfo.DnsInfoPanel.CloseModal | src/components/DNSInfo.tsx:231-247 | the modal closes and is emptied |

## Left out

- DnsInfo.Truncate: lengths and prefixes count Unicode scalar values, while JavaScript's `length` and `slice` count UTF-16 code units, so text outside the Basic Multilingual Plane is cut at a different place and `slice` may split a surrogate pair there.
- DnsInfo.RenderValue: the 60-character threshold is counted in Unicode scalar values, not in UTF-16 code units as JavaScript does.
- Network I/O is not modelled. Each upstream call becomes an outcome parameter: thrown, non-JSON, or a parsed body.
- Concurrency is not modelled. `Promise.all` fan-outs run in a fixed order, and a response that arrives after the input changed is not modelled.
- JSON values of types other than the modelled ones are not modelled. That covers a numeric `as` in ip-api.com, an object-valued `error` in ipinfo.io, a body of `null`, and a non-string `data` in a DNS record.
- Coordinates are `Option<real>`. `parseFloat`, `NaN` and infinities are not modelled.
- Records are ordered key/value lists. JavaScript prototype keys such as `constructor` are not modelled.
- JSX markup, CSS, the tooltip and mouse state of the map, and the select components are not modelled.
- API keys read from the environment are not modelled.
- `JSON.stringify` of a record is not modelled. A record carries its fallback text as a field.
- The bundled GeoJSON and the catalog data are parameters; their contents are not modelled.
- Text.Lower: lowers ASCII letters only, not the full Unicode case mapping of `toLowerCase`.
- Generator.GeneratorPanel.constructor: the catalog is always present. The fallback fetch of `/api/dictionary` when the parent passes none is not modelled.
- Generator.GeneratorPanel.Generate: takes both DNS outcomes up front, so the intermediate render while checking is not modelled.
- Generator.CitiesForCountry: every city has a location, as `src/types.ts` requires, so the `filter(Boolean)` over missing locations never drops one.
- Home.HomePage.CopyToClipboard: the clipboard write is not modelled, nor a rejected write that would leave the flag unset.
- Home.HomePage.CopiedTimerFires: the 1200 ms delay is not modelled; the timer is a separate step.
- InfoApi.Handle: a repeated `ip` query parameter (an array) is not modelled; the parameter is absent or one string.
- DnsApi.Handle: queries run one after another, and the key order of the JSON reply is not modelled (the reply is a map).
- DnsInfo.DnsInfoPanel.FetchSucceeded: requires a request in flight; overlapping requests are not modelled.
- DnsInfo.DnsInfoPanel.FetchFailed: requires a request in flight; overlapping requests are not modelled.
- MapPanel.Select: a coordinate is falsy only when absent or exactly zero; `NaN` is not modelled.
- SvgWorldMap.Markers: markers carry name, coordinates and kind; fields spread from the city object beyond those are not modelled.

## Findings

| source | as written | input that shows it | evidently intended | confidence | as-written member | corrected member |
|---|---|---|---|---|---|---|
| src/components/MapPanel.tsx:48 | `ipLocations[0]` is read even when no result was placed, because a zero coordinate is falsy at line 42 | an IPv4 lookup whose single ok result has latitude 0 and longitude 10 | fall back to the default view when no result can be placed | not executed | MapPanel.ZeroLatitudeCrashes | MapPanel.SelectGuarded |
