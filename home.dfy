/**
 * The older generator page (src/pages/index.tsx): its own selection state, its own cascading
 * resets, a `copied` flag, and one hostname grammar shared by every country.
 */
module Home {
  import opened Wrappers
  import opened Text
  import opened Hostnames
  import Generator

  const DefaultCountry := "CN"

  /**
   * `generatedUrl`: empty unless provider and country are both set; the protocol, when set, is
   * written as a label of its own ("dual" included); the province never appears.
   */
  function HomeUrl(protocol: string, country: string, city: string, provider: string): (url: string)
    ensures url == "" <==> provider == "" || country == ""
  {
    if provider != "" && country != "" then
      var prefix := if protocol != "" then protocol + "." else "";
      if country == "CN" then
        if city != "" then prefix + provider + "-" + city + "." + Lower(country) + Suffix
        else prefix + provider + "." + Lower(country) + Suffix
      else if city != "" then prefix + provider + "-" + city + "." + Lower(country) + Suffix
      else prefix + provider + "." + Lower(country) + Suffix
    else ""
  }

  function HomeProtocolLabel(protocol: string): Option<string>
  {
    if protocol == "" then None else Some(protocol)
  }

  function HomeTokens(city: string, provider: string): seq<string>
  {
    if city != "" then [provider, city] else [provider]
  }

  /** Every branch writes out the same tokens, joined by '-'. */
  lemma HomeUrlRenders(protocol: string, country: string, city: string, provider: string)
    requires provider != "" && country != ""
    ensures HomeUrl(protocol, country, city, provider)
         == Render(Hostname(HomeProtocolLabel(protocol), HomeTokens(city, provider), Lower(country)))
  {
    var prefix := ProtocolText(HomeProtocolLabel(protocol));
    var tail := "." + Lower(country) + Suffix;
    if city != "" {
      TwoTokens(provider, city);
      HomeCityUrl(prefix, provider, city, tail);
    } else {
      assert Join([provider], '-') == provider;
    }
  }

  /** Re-association of the city branch's concatenation. */
  lemma HomeCityUrl(prefix: string, provider: string, city: string, tail: string)
    ensures prefix + provider + "-" + city + tail == prefix + (provider + "-" + city) + tail
  {
  }

  /**
   * One grammar for every country, China included: protocol label if set, provider, city if set,
   * lower-case country; the text can be taken apart again.
   */
  lemma HomeUrlParses(protocol: string, country: string, city: string, provider: string)
    requires provider != "" && country != ""
    requires '.' !in protocol && '.' !in country
    requires '.' !in city && '-' !in city && '.' !in provider && '-' !in provider
    ensures Parse(HomeUrl(protocol, country, city, provider))
         == Some(Hostname(HomeProtocolLabel(protocol), HomeTokens(city, provider), Lower(country)))
  {
    LowerKeepsOutDot(country);
    HomeUrlRenders(protocol, country, city, provider);
    ParseRender(Hostname(HomeProtocolLabel(protocol), HomeTokens(city, provider), Lower(country)));
  }

  /**
   * The two pages disagree on "dual": the older page writes it as a protocol label, the panel
   * writes no label for it.
   */
  lemma DualLabelDiffers(country: string, city: string, provider: string)
    requires provider != "" && country != "" && country != "CN"
    requires '.' !in country && '-' !in country && '.' !in city && '-' !in city && '.' !in provider && '-' !in provider
    ensures var h := Parse(HomeUrl("dual", country, city, provider)); h.Some? && h.value.protocol == Some("dual")
    ensures var g := Parse(Generator.GeneratorUrl(country, "", city, provider, "dual")); g.Some? && g.value.protocol == None
  {
    HomeUrlParses("dual", country, city, provider);
    Generator.GeneratorUrlParses(country, "", city, provider, "dual");
  }

  class HomePage {
    var protocol: string
    var country: string
    var province: string
    var city: string
    var provider: string
    var copied: bool

    /** The initial state: China selected, everything else empty. */
    constructor ()
      ensures protocol == "" && country == DefaultCountry && province == "" && city == "" && provider == ""
      ensures !copied
    {
      protocol, country, province, city, provider := "", DefaultCountry, "", "", "";
      copied := false;
    }

    function GeneratedUrl(): string
      reads this
    {
      HomeUrl(protocol, country, city, provider)
    }

    /** `handleCountryChange`: clears province, city and provider, but not the protocol. */
    method SetCountry(val: string)
      modifies this
      ensures country == val && province == "" && city == "" && provider == ""
      ensures protocol == old(protocol) && !copied
    {
      country, province, city, provider := val, "", "", "";
      copied := false;
    }

    /** `handleProvinceChange`: clears city and provider. */
    method SetProvince(val: string)
      modifies this
      ensures province == val && city == "" && provider == ""
      ensures country == old(country) && protocol == old(protocol) && !copied
    {
      province, city, provider := val, "", "";
      copied := false;
    }

    /** `handleCityChange`: clears only the provider. */
    method SetCity(val: string)
      modifies this
      ensures city == val && provider == ""
      ensures country == old(country) && province == old(province) && protocol == old(protocol) && !copied
    {
      city, provider := val, "";
      copied := false;
    }

    /** `handleProviderChange`: writes only the provider. */
    method SetProvider(val: string)
      modifies this
      ensures provider == val && !copied
      ensures country == old(country) && province == old(province) && city == old(city)
      ensures protocol == old(protocol)
    {
      provider := val;
      copied := false;
    }

    /** `handleProtocolChange`: writes only the protocol. */
    method SetProtocol(val: string)
      modifies this
      ensures protocol == val && !copied
      ensures country == old(country) && province == old(province) && city == old(city)
      ensures provider == old(provider)
    {
      protocol := val;
      copied := false;
    }

    /** `handleReset`: back to the initial state. */
    method Reset()
      modifies this
      ensures protocol == "" && country == DefaultCountry && province == "" && city == "" && provider == ""
      ensures !copied
    {
      protocol, country, province, city, provider := "", DefaultCountry, "", "", "";
      copied := false;
    }

    /** `copyToClipboard`: marks the URL copied when there is one (the clipboard write is not modelled). */
    method CopyToClipboard()
      modifies this`copied
      ensures copied == (old(copied) || GeneratedUrl() != "")
    {
      if GeneratedUrl() != "" {
        copied := true;
      }
    }

    /** The timer armed by `copyToClipboard` clears the flag when it fires. */
    method CopiedTimerFires()
      modifies this`copied
      ensures !copied
    {
      copied := false;
    }
  }
}
