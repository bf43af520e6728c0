/**
 * The hostname generator panel (src/components/GeneratorPanel.tsx): five selection fields, the
 * provider entry looked up from the catalog, protocol auto-derivation, the hostname builder and
 * the A/AAAA resolvability check.
 *
 * Each handler together with the effects it triggers is one atomic step of the class below.
 */
module Generator {
  import opened Wrappers
  import opened Text
  import opened Catalog
  import opened Doh
  import opened Hostnames

  const China := "CN"

  /**
   * A provider entry found in the catalog together with the path it was found at. Two lookups
   * yield the same JavaScript object exactly when they reach the same path, so comparing entries
   * compares object identity, which decides whether the protocol effect re-runs.
   */
  datatype ProviderEntry = ProviderEntry(
    country: string, province: string, city: string, code: string, info: ProviderInfo)

  function InfoOf(e: Option<ProviderEntry>): Option<ProviderInfo>
  {
    if e.None? then None else Some(e.value.info)
  }

  function CityProviders(c: Option<CityInfo>): Option<Record<ProviderInfo>>
  {
    if c.None? then None else c.value.providers
  }

  function ProvinceProviders(p: Option<ProvinceInfo>): Option<Record<ProviderInfo>>
  {
    if p.None? then None else p.value.providers
  }

  /** A Chinese city-level provider: `CN.provinces[province].cities[city].providers[code]`. */
  function ChinaCityProvider(d: Dictionary, province: string, city: string, code: string): Option<ProviderInfo>
  {
    ProviderIn(CityProviders(ProvinceCityAt(d, China, province, city)), code)
  }

  /** A Chinese province-level provider: `CN.provinces[province].providers[code]`. */
  function ChinaProvinceProvider(d: Dictionary, province: string, code: string): Option<ProviderInfo>
  {
    ProviderIn(ProvinceProviders(ProvinceAt(d, China, province)), code)
  }

  /** A city-level provider of a country without provinces: `d[country].cities[city].providers[code]`. */
  function CountryCityProvider(d: Dictionary, country: string, city: string, code: string): Option<ProviderInfo>
  {
    ProviderIn(CityProviders(CountryCityAt(d, country, city)), code)
  }

  /** The provider stored in the catalog at the path an entry records. */
  function ProviderAtPath(d: Dictionary, e: ProviderEntry): Option<ProviderInfo>
  {
    if e.country == China && e.city != "" then ChinaCityProvider(d, e.province, e.city, e.code)
    else if e.country == China then ChinaProvinceProvider(d, e.province, e.code)
    else CountryCityProvider(d, e.country, e.city, e.code)
  }

  /** `d?.[country]?.cities` is present. */
  predicate HasCities(d: Dictionary, country: string)
  {
    Lookup(d, country).Some? && Lookup(d, country).value.cities.Some?
  }

  /**
   * The provider-lookup effect: for China the city-level entry, else the province-level one;
   * for any other country only a city-level entry, and only when the country lists cities.
   */
  function FindProvider(d: Dictionary, country: string, province: string, city: string, provider: string)
    : (found: Option<ProviderEntry>)
    ensures provider == "" || country == "" ==> found.None?
    ensures country == China && province == "" ==> found.None?
    ensures found.Some? ==> found.value.country == country && found.value.code == provider
    ensures found.Some? ==> ProviderAtPath(d, found.value) == Some(found.value.info)
  {
    if country == China then
      if province != "" && city != "" && provider != "" && ChinaCityProvider(d, province, city, provider).Some? then
        Some(ProviderEntry(China, province, city, provider, ChinaCityProvider(d, province, city, provider).value))
      else if province != "" && provider != "" && ChinaProvinceProvider(d, province, provider).Some? then
        Some(ProviderEntry(China, province, "", provider, ChinaProvinceProvider(d, province, provider).value))
      else None
    else if country != "" && provider != "" && HasCities(d, country) then
      if city != "" && CountryCityProvider(d, country, city, provider).Some? then
        Some(ProviderEntry(country, "", city, provider, CountryCityProvider(d, country, city, provider).value))
      else None
    else None
  }

  /** For China a city-level entry wins over a province-level one, which is used otherwise. */
  lemma ChinaProviderPrecedence(d: Dictionary, province: string, city: string, provider: string)
    requires province != "" && provider != ""
    ensures var found := FindProvider(d, China, province, city, provider);
      if city != "" && ChinaCityProvider(d, province, city, provider).Some? then
        found.Some? && found.value.city == city && found.value.info == ChinaCityProvider(d, province, city, provider).value
      else
        InfoOf(found) == ChinaProvinceProvider(d, province, provider) && (found.Some? ==> found.value.city == "")
  {
  }

  /** Elsewhere an entry is found only at city level, and exactly when the catalog has one there. */
  lemma OtherCountryProvider(d: Dictionary, country: string, province: string, city: string, provider: string)
    requires country != China
    ensures var found := FindProvider(d, country, province, city, provider);
      && (found.Some? <==> country != "" && city != "" && provider != "" && HasCities(d, country)
                           && CountryCityProvider(d, country, city, provider).Some?)
      && (found.Some? ==> found.value.city == city && found.value.province == ""
                          && found.value.info == CountryCityProvider(d, country, city, provider).value)
  {
  }

  /** The catalog with every country-level provider list removed. */
  function DropCountryProviders(d: Dictionary): Dictionary
  {
    if |d| == 0 then [] else [Entry(d[0].key, d[0].value.(providers := None))] + DropCountryProviders(d[1..])
  }

  lemma {:induction false} LookupDropped(d: Dictionary, k: string)
    ensures Lookup(DropCountryProviders(d), k) ==
      (if Lookup(d, k).None? then None else Some(Lookup(d, k).value.(providers := None)))
    decreases |d|
  {
    if |d| > 0 {
      assert DropCountryProviders(d)[1..] == DropCountryProviders(d[1..]);
      LookupDropped(d[1..], k);
    }
  }

  lemma DroppedChinaPaths(d: Dictionary, province: string, city: string, provider: string)
    ensures ChinaCityProvider(DropCountryProviders(d), province, city, provider) == ChinaCityProvider(d, province, city, provider)
    ensures ChinaProvinceProvider(DropCountryProviders(d), province, provider) == ChinaProvinceProvider(d, province, provider)
  {
    LookupDropped(d, China);
    assert ProvinceAt(DropCountryProviders(d), China, province) == ProvinceAt(d, China, province);
    assert ProvinceCityAt(DropCountryProviders(d), China, province, city) == ProvinceCityAt(d, China, province, city);
  }

  lemma DroppedCityPaths(d: Dictionary, country: string, city: string, provider: string)
    ensures HasCities(DropCountryProviders(d), country) == HasCities(d, country)
    ensures CountryCityProvider(DropCountryProviders(d), country, city, provider) == CountryCityProvider(d, country, city, provider)
  {
    LookupDropped(d, country);
    assert CountryCityAt(DropCountryProviders(d), country, city) == CountryCityAt(d, country, city);
  }

  /** Country-level providers are never consulted: removing them changes no lookup. */
  lemma CountryProvidersIgnored(d: Dictionary, country: string, province: string, city: string, provider: string)
    ensures FindProvider(DropCountryProviders(d), country, province, city, provider)
         == FindProvider(d, country, province, city, provider)
  {
    if country == China {
      DroppedChinaPaths(d, province, city, provider);
    } else {
      DroppedCityPaths(d, country, city, provider);
    }
  }

  /** The protocols a provider offers, in the order the panel lists them. */
  function Available(p: ProviderInfo): (r: seq<string>)
    ensures ("dual" in r) <==> p.v4 && p.v6
    ensures ("v4" in r) <==> p.v4
    ensures ("v6" in r) <==> p.v6
    ensures "" !in r
    ensures |r| == (if p.v4 && p.v6 then 3 else if p.v4 || p.v6 then 1 else 0)
  {
    (if p.v4 && p.v6 then ["dual"] else []) + (if p.v4 then ["v4"] else []) + (if p.v6 then ["v6"] else [])
  }

  /**
   * The protocol effect: no entry clears the protocol; a protocol the entry offers is kept;
   * otherwise the only offered protocol is chosen, or the protocol is cleared.
   */
  function DeriveProtocol(entry: Option<ProviderInfo>, current: string): (r: string)
    ensures entry.None? ==> r == ""
    ensures entry.Some? ==> r == "" || r in Available(entry.value)
    ensures entry.Some? && current in Available(entry.value) ==> r == current
    ensures entry.Some? && current !in Available(entry.value) ==>
      r == (if |Available(entry.value)| == 1 then Available(entry.value)[0] else "")
  {
    if entry.None? then ""
    else
      var available := Available(entry.value);
      if current in available then current
      else if |available| == 1 then available[0]
      else ""
  }

  /** A single-stack provider always gets its one protocol; a dual-stack one never has one chosen for it. */
  lemma DeriveProtocolChoices(p: ProviderInfo, current: string)
    ensures p.v4 && !p.v6 ==> DeriveProtocol(Some(p), current) == "v4"
    ensures p.v6 && !p.v4 ==> DeriveProtocol(Some(p), current) == "v6"
    ensures !p.v4 && !p.v6 ==> DeriveProtocol(Some(p), current) == ""
    ensures p.v4 && p.v6 ==> DeriveProtocol(Some(p), current) in {current, ""}
  {
  }

  /** Deriving again changes nothing. */
  lemma DeriveProtocolIdempotent(entry: Option<ProviderInfo>, current: string)
    ensures DeriveProtocol(entry, DeriveProtocol(entry, current)) == DeriveProtocol(entry, current)
  {
  }

  /** The protocol label of a generated hostname: none for "" and "dual". */
  function ProtocolLabel(protocol: string): Option<string>
  {
    if protocol == "" || protocol == "dual" then None else Some(protocol)
  }

  /** `handleGenerate`'s URL builder: the Chinese grammar and the grammar of every other country. */
  function GeneratorUrl(country: string, province: string, city: string, provider: string, protocol: string)
    : (url: string)
    ensures url == "" <==> provider == "" || country == ""
  {
    var prefix := if protocol != "" && protocol != "dual" then protocol + "." else "";
    if country == China then
      if province != "" && city != "" && provider != "" then prefix + province + "-" + city + "-" + provider + ".cn" + Suffix
      else if province != "" && provider != "" then prefix + province + "-" + provider + ".cn" + Suffix
      else if provider != "" then prefix + provider + ".cn" + Suffix
      else ""
    else if provider != "" && country != "" then
      if city != "" then prefix + provider + "-" + city + "." + Lower(country) + Suffix
      else prefix + provider + "." + Lower(country) + Suffix
    else ""
  }

  /** The core tokens each grammar puts in front of the country label. */
  function GeneratorTokens(country: string, province: string, city: string, provider: string): seq<string>
  {
    if country == China then
      if province != "" && city != "" then [province, city, provider]
      else if province != "" then [province, provider]
      else [provider]
    else if city != "" then [provider, city]
    else [provider]
  }

  predicate Token(s: string)
  {
    '.' !in s && '-' !in s
  }


  lemma LowerChina()
    ensures Lower(China) == "cn"
  {
    assert Lower(China) == [LowerChar('C')] + Lower("N");
  }

  /** The Chinese suffix is the country label "cn" followed by the fixed domain. */
  lemma ChinaTail()
    ensures ".cn" + Suffix == "." + "cn" + Suffix
  {
  }

  /** Each branch of the Chinese grammar writes out its tokens, joined by '-'. */
  lemma ChinaUrlRenders(province: string, city: string, provider: string, protocol: string)
    requires provider != ""
    ensures GeneratorUrl(China, province, city, provider, protocol)
         == Render(Hostname(ProtocolLabel(protocol), GeneratorTokens(China, province, city, provider), "cn"))
  {
    var prefix := ProtocolText(ProtocolLabel(protocol));
    ChinaTail();
    var tail := ".cn" + Suffix;
    var tokens := GeneratorTokens(China, province, city, provider);
    var url := GeneratorUrl(China, province, city, provider, protocol);
    if province != "" && city != "" {
      assert url == prefix + province + "-" + city + "-" + provider + tail;
      ThreeTokens(province, city, provider);
      Reassociate3(prefix, province, city, provider, tail);
    } else if province != "" {
      assert url == prefix + province + "-" + provider + tail;
      TwoTokens(province, provider);
      Reassociate2(prefix, province, provider, tail);
    } else {
      assert url == prefix + provider + tail;
      assert Join(tokens, '-') == provider;
    }
    assert Render(Hostname(ProtocolLabel(protocol), tokens, "cn")) == prefix + Join(tokens, '-') + tail;
  }

  /** Both branches of the grammar of other countries write out their tokens, joined by '-'. */
  lemma OtherUrlRenders(country: string, province: string, city: string, provider: string, protocol: string)
    requires provider != "" && country != "" && country != China
    ensures GeneratorUrl(country, province, city, provider, protocol)
         == Render(Hostname(ProtocolLabel(protocol), GeneratorTokens(country, province, city, provider), Lower(country)))
  {
    var prefix := ProtocolText(ProtocolLabel(protocol));
    var tail := "." + Lower(country) + Suffix;
    if city != "" {
      TwoTokens(provider, city);
      Reassociate2(prefix, provider, city, tail);
    } else {
      assert Join([provider], '-') == provider;
    }
  }

  lemma Reassociate2(prefix: string, a: string, b: string, tail: string)
    ensures prefix + a + "-" + b + tail == prefix + (a + "-" + b) + tail
  {
  }

  lemma Reassociate3(prefix: string, a: string, b: string, c: string, tail: string)
    ensures prefix + a + "-" + b + "-" + c + tail == prefix + (a + "-" + b + "-" + c) + tail
  {
  }

  /** The tokens of either grammar are well formed when every selection is a token. */
  lemma TokensWellFormed(country: string, province: string, city: string, provider: string, protocol: string)
    requires Token(province) && Token(city) && Token(provider) && '.' !in protocol
    ensures var ts := GeneratorTokens(country, province, city, provider);
      |ts| >= 1 && forall i :: 0 <= i < |ts| ==> Token(ts[i])
    ensures var p := ProtocolLabel(protocol); p.Some? ==> '.' !in p.value
  {
  }

  /**
   * A generated hostname has the structure the grammar describes and can be taken apart again:
   * protocol label (none for "" and "dual"), the grammar's tokens, the lower-case country.
   */
  lemma GeneratorUrlParses(country: string, province: string, city: string, provider: string, protocol: string)
    requires provider != "" && country != ""
    requires Token(country) && Token(province) && Token(city) && Token(provider) && '.' !in protocol
    ensures Parse(GeneratorUrl(country, province, city, provider, protocol))
         == Some(Hostname(ProtocolLabel(protocol), GeneratorTokens(country, province, city, provider), Lower(country)))
  {
    var h := Hostname(ProtocolLabel(protocol), GeneratorTokens(country, province, city, provider), Lower(country));
    LowerKeepsOutDot(country);
    TokensWellFormed(country, province, city, provider, protocol);
    assert WellFormed(h);
    if country == China {
      LowerChina();
      ChinaUrlRenders(province, city, provider, protocol);
    } else {
      OtherUrlRenders(country, province, city, provider, protocol);
    }
    ParseRender(h);
  }

  /**
   * `checkDomainValid`: both lookups share one `try`, so the answer is true exactly when neither
   * query threw and the A or the AAAA answer is a non-empty array; a failing AAAA query loses an
   * A answer already found.
   */
  function CheckDomainValid(a: DohOutcome, aaaa: DohOutcome): (valid: bool)
    ensures valid <==> a.Answered? && aaaa.Answered? && (HasRecords(a.answer) || HasRecords(aaaa.answer))
    ensures aaaa.QueryFailed? ==> !valid
  {
    match a
    case QueryFailed => false
    case Answered(answerA) =>
      var hasA := HasRecords(answerA);
      match aaaa
      case QueryFailed => false
      case Answered(answerAAAA) => hasA || HasRecords(answerAAAA)
  }

  /** A city marker handed to the map: name and coordinates. */
  datatype City = City(name: string, lat: real, lon: real)

  function CityPoint(c: CityInfo): City
  {
    City(c.name, c.loc.lat, c.loc.lon)
  }

  /** `Object.values(cities).map(c => c.loc ? {...} : null).filter(Boolean)`; `loc` is always present. */
  function CityPoints(cities: Record<CityInfo>): (r: seq<City>)
    ensures |r| == |cities|
    ensures forall i :: 0 <= i < |cities| ==> r[i] == CityPoint(cities[i].value)
  {
    seq(|cities|, i requires 0 <= i < |cities| => CityPoint(cities[i].value))
  }

  /** The cities of every province, province by province (`flatMap`). */
  function ProvinceCityPoints(provinces: seq<ProvinceInfo>): seq<City>
  {
    if |provinces| == 0 then []
    else
      (if provinces[0].cities.Some? then CityPoints(provinces[0].cities.value) else [])
      + ProvinceCityPoints(provinces[1..])
  }

  /** `getCitiesForCountry`: a country's own cities if it lists any, else the cities of its provinces. */
  function CitiesForCountry(d: Option<Dictionary>, code: string): (r: seq<City>)
    ensures d.None? || Lookup(d.value, code).None? ==> r == []
    ensures d.Some? && Lookup(d.value, code).Some? && Lookup(d.value, code).value.cities.Some? ==>
      r == CityPoints(Lookup(d.value, code).value.cities.value)
    ensures (d.Some? && Lookup(d.value, code).Some? && Lookup(d.value, code).value.cities.None?
             && Lookup(d.value, code).value.provinces.Some?) ==>
      r == ProvinceCityPoints(Values(Lookup(d.value, code).value.provinces.value))
    ensures (d.Some? && Lookup(d.value, code).Some? && Lookup(d.value, code).value.cities.None?
             && Lookup(d.value, code).value.provinces.None?) ==>
      r == []
  {
    if d.None? then []
    else match Lookup(d.value, code)
      case None => []
      case Some(c) =>
        if c.cities.Some? then CityPoints(c.cities.value)
        else if c.provinces.Some? then ProvinceCityPoints(Values(c.provinces.value))
        else []
  }

  /** A province-derived marker list holds exactly the cities listed under some province. */
  lemma {:induction false} ProvinceCityPointsMembers(provinces: seq<ProvinceInfo>, c: City)
    ensures c in ProvinceCityPoints(provinces) <==>
      exists i, j :: 0 <= i < |provinces| && provinces[i].cities.Some? && 0 <= j < |provinces[i].cities.value|
                     && c == CityPoint(provinces[i].cities.value[j].value)
    decreases |provinces|
  {
    if |provinces| > 0 {
      ProvinceCityPointsMembers(provinces[1..], c);
      var head := if provinces[0].cities.Some? then CityPoints(provinces[0].cities.value) else [];
      assert ProvinceCityPoints(provinces) == head + ProvinceCityPoints(provinces[1..]);
      if c in ProvinceCityPoints(provinces[1..]) {
        var i, j :| 0 <= i < |provinces[1..]| && provinces[1..][i].cities.Some?
                    && 0 <= j < |provinces[1..][i].cities.value| && c == CityPoint(provinces[1..][i].cities.value[j].value);
        assert provinces[i + 1] == provinces[1..][i];
      }
      if exists i, j :: 0 <= i < |provinces| && provinces[i].cities.Some? && 0 <= j < |provinces[i].cities.value|
                        && c == CityPoint(provinces[i].cities.value[j].value) {
        var i, j :| 0 <= i < |provinces| && provinces[i].cities.Some? && 0 <= j < |provinces[i].cities.value|
                    && c == CityPoint(provinces[i].cities.value[j].value);
        if i == 0 {
          assert head[j] == c;
        } else {
          assert provinces[1..][i - 1] == provinces[i];
        }
      }
    }
  }

  /** The cities the panel reports to the map for a country selection (`val && dictionary`). */
  function SelectedCities(d: Dictionary, country: string): seq<City>
  {
    if country == "" then [] else CitiesForCountry(Some(d), country)
  }

  datatype DomainStatus = DomainUnknown | DomainValid | DomainInvalid

  /**
   * The panel's state. The last five fields belong to the parent component and are written
   * through the callback props.
   */
  class GeneratorPanel {
    const dictionary: Dictionary
    var protocol: string
    var country: string
    var province: string
    var city: string
    var provider: string
    var providerObj: Option<ProviderEntry>

    var inputValue: string
    var domainStatus: DomainStatus
    var domainChecking: bool
    var selectedCountry: string
    var selectedCities: seq<City>

    /** The stored provider entry is always the one the current selection finds. */
    ghost predicate Valid()
      reads this
    {
      providerObj == FindProvider(dictionary, country, province, city, provider)
    }

    /** Mounting: every selection field empty; the parent's lookup fields keep their values. */
    constructor (dictionary: Dictionary, inputValue: string, domainStatus: DomainStatus, domainChecking: bool)
      ensures Valid()
      ensures this.dictionary == dictionary
      ensures protocol == "" && country == "" && province == "" && city == "" && provider == ""
      ensures providerObj.None? && selectedCountry == "" && selectedCities == []
      ensures this.inputValue == inputValue && this.domainStatus == domainStatus
      ensures this.domainChecking == domainChecking
    {
      this.dictionary := dictionary;
      protocol, country, province, city, provider := "", "", "", "", "";
      providerObj := None;
      this.inputValue, this.domainStatus, this.domainChecking := inputValue, domainStatus, domainChecking;
      selectedCountry, selectedCities := "", [];
    }

    /** The two effects: look the provider up again, and re-derive the protocol if the entry changed. */
    method SyncProvider()
      modifies this`providerObj, this`protocol
      ensures Valid()
      ensures protocol == if providerObj == old(providerObj) then old(protocol)
                          else DeriveProtocol(InfoOf(providerObj), old(protocol))
    {
      var found := FindProvider(dictionary, country, province, city, provider);
      if found != providerObj {
        providerObj := found;
        protocol := DeriveProtocol(InfoOf(found), protocol);
      }
    }

    /** `handleCountryChange`: clears every dependent field and reports the country's cities. */
    method SetCountry(val: string)
      modifies this
      ensures Valid()
      ensures country == val && province == "" && city == "" && provider == "" && protocol == ""
      ensures providerObj.None?
      ensures selectedCountry == val && selectedCities == SelectedCities(dictionary, val)
      ensures inputValue == old(inputValue) && domainStatus == old(domainStatus)
      ensures domainChecking == old(domainChecking)
    {
      country, province, city, provider, protocol := val, "", "", "", "";
      selectedCountry := val;
      selectedCities := SelectedCities(dictionary, val);
      // With no provider selected the lookup effect finds nothing and the protocol stays cleared.
      providerObj := None;
    }

    /** `handleProvinceChange`: clears city, provider and protocol. */
    method SetProvince(val: string)
      requires Valid()
      modifies this
      ensures Valid()
      ensures province == val && city == "" && provider == "" && protocol == "" && providerObj.None?
      ensures country == old(country) && selectedCountry == old(selectedCountry)
      ensures selectedCities == old(selectedCities) && inputValue == old(inputValue)
      ensures domainStatus == old(domainStatus) && domainChecking == old(domainChecking)
    {
      province, city, provider, protocol := val, "", "", "";
      SyncProvider();
    }

    /** `handleCityChange`: clears provider and protocol. */
    method SetCity(val: string)
      requires Valid()
      modifies this
      ensures Valid()
      ensures city == val && provider == "" && protocol == "" && providerObj.None?
      ensures country == old(country) && province == old(province) && selectedCountry == old(selectedCountry)
      ensures selectedCities == old(selectedCities) && inputValue == old(inputValue)
      ensures domainStatus == old(domainStatus) && domainChecking == old(domainChecking)
    {
      city, provider, protocol := val, "", "";
      SyncProvider();
    }

    /**
     * `handleProviderChange`: writes the provider; the entry is looked up again and, when it is a
     * different entry, the protocol is re-derived from it.
     */
    method SetProvider(val: string)
      requires Valid()
      modifies this
      ensures Valid()
      ensures provider == val && country == old(country) && province == old(province) && city == old(city)
      ensures protocol == if providerObj == old(providerObj) then old(protocol)
                          else DeriveProtocol(InfoOf(providerObj), old(protocol))
      ensures selectedCountry == old(selectedCountry) && selectedCities == old(selectedCities)
      ensures inputValue == old(inputValue) && domainStatus == old(domainStatus)
      ensures domainChecking == old(domainChecking)
    {
      provider := val;
      SyncProvider();
    }

    /** `handleProtocolChange`: writes the protocol and nothing else. */
    method SetProtocol(val: string)
      requires Valid()
      modifies this`protocol
      ensures Valid()
      ensures protocol == val
    {
      protocol := val;
    }

    /**
     * `handleGenerate`: publishes the URL; when it is non-empty, checks that it resolves, given
     * the outcomes of the A and AAAA queries.
     */
    method Generate(a: DohOutcome, aaaa: DohOutcome)
      requires Valid()
      modifies this`inputValue, this`domainStatus, this`domainChecking
      ensures Valid()
      ensures inputValue == GeneratorUrl(country, province, city, provider, protocol)
      ensures inputValue == "" ==> domainStatus == DomainUnknown && domainChecking == old(domainChecking)
      ensures inputValue != "" ==>
        (!domainChecking && domainStatus == (if CheckDomainValid(a, aaaa) then DomainValid else DomainInvalid))
    {
      var url := GeneratorUrl(country, province, city, provider, protocol);
      inputValue := url;
      domainStatus := DomainUnknown;
      if url != "" {
        domainChecking := true;
        var valid := CheckDomainValid(a, aaaa);
        domainStatus := if valid then DomainValid else DomainInvalid;
        domainChecking := false;
      }
    }

    /** `handleReset`: every selection field and the parent's lookup state back to empty. */
    method Reset()
      modifies this
      ensures Valid()
      ensures protocol == "" && country == "" && province == "" && city == "" && provider == ""
      ensures providerObj.None? && domainStatus == DomainUnknown && !domainChecking && inputValue == ""
      ensures selectedCountry == "" && selectedCities == []
    {
      protocol, country, province, city, provider := "", "", "", "", "";
      domainStatus, domainChecking, inputValue := DomainUnknown, false, "";
      selectedCountry, selectedCities := "", [];
      providerObj := None;
    }
  }
}
