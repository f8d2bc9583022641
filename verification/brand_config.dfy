/**
 * Multi-brand configuration: the static brand registry keyed by host,
 * lookup of a brand by host (with and without port), the request-level
 * fallback to the default brand, the theme's CSS variables and the mapping
 * of a database brand row onto a full configuration.
 */
module BrandConfig {
  import opened Common

  datatype BrandTheme = BrandTheme(primaryColor: string, secondaryColor: string, fontFamily: string)

  datatype BrandContact = BrandContact(phone: Option<string>, email: Option<string>, address: Option<string>)

  datatype BrandLegal = BrandLegal(
    tcpaConsentText: string,
    privacyPolicyUrl: string,
    termsOfServiceUrl: string,
    disclaimerText: string)

  datatype Logo = Logo(url: string, alt: string, width: Option<int>, height: Option<int>)

  datatype SocialMedia = SocialMedia(facebook: Option<string>, twitter: Option<string>, linkedin: Option<string>)

  datatype Analytics = Analytics(ga4MeasurementId: Option<string>, gtmContainerId: Option<string>)

  datatype Config = Config(
    id: int,
    slug: string,
    name: string,
    domain: string,
    logo: Logo,
    theme: BrandTheme,
    contact: BrandContact,
    legal: BrandLegal,
    socialMedia: Option<SocialMedia>,
    analytics: Option<Analytics>,
    active: bool)

  /** People's Justice, the brand every registry entry points at. */
  const DefaultBrand: Config := Config(
    1,
    "peoples-justice",
    "People's Justice",
    "peoplesjustice.com",
    Logo("/logo.png", "People's Justice Logo", Some(200), Some(50)),
    BrandTheme(
      "#2563eb",
      "#4f46e5",
      "-apple-system, BlinkMacSystemFont, \"Segoe UI\", Roboto, Arial, sans-serif"),
    BrandContact(Some("1-800-555-0100"), Some("info@peoplesjustice.com"), None),
    BrandLegal(
      "By clicking Submit, you agree to be contacted by one or more attorneys or their agents at the phone number "
      + "and/or email provided, including through automated calls, texts, and prerecorded messages. Consent is not "
      + "required as a condition of service. Message and data rates may apply. You also agree to our Privacy Policy "
      + "and Terms of Service.",
      "/privacy-policy",
      "/terms-of-service",
      "This is an advertising and referral service. Not a law firm."),
    Some(SocialMedia(
      Some("https://facebook.com/peoplesjustice"),
      Some("https://twitter.com/peoplesjustice"),
      Some("https://linkedin.com/company/peoplesjustice"))),
    Some(Analytics(None, None)),
    true)

  /** The static registry, keyed by host. */
  const Registry: map<string, Config> := map[
    "peoplesjustice.com" := DefaultBrand,
    "localhost:3000" := DefaultBrand,
    "localhost" := DefaultBrand
  ]

  /**
   * `getBrandByDomain`: the registry entry for the host without its port,
   * else the entry for the whole argument, else nothing.
   */
  function GetBrandByDomain(domain: string): (r: Option<Config>)
    ensures r.None? <==> BeforeFirst(domain, ':') !in Registry && domain !in Registry
    ensures BeforeFirst(domain, ':') in Registry ==> r == Some(Registry[BeforeFirst(domain, ':')])
    ensures BeforeFirst(domain, ':') !in Registry && domain in Registry ==> r == Some(Registry[domain])
  {
    var clean := BeforeFirst(domain, ':');
    if clean in Registry then Some(Registry[clean])
    else if domain in Registry then Some(Registry[domain])
    else None
  }

  /** Every host the registry resolves resolves to the default brand. */
  lemma ResolvesOnlyToDefault(domain: string)
    ensures GetBrandByDomain(domain).Some? ==> GetBrandByDomain(domain).value == DefaultBrand
  {
  }

  /**
   * The 'localhost:3000' entry is shadowed: a host of the form 'localhost:<port>'
   * is already found under 'localhost', so the second lookup is never reached.
   */
  lemma LocalhostPortShadowed(port: string)
    ensures BeforeFirst("localhost:" + port, ':') == "localhost"
    ensures GetBrandByDomain("localhost:" + port) == Some(Registry["localhost"])
  {
    assert "localhost:" + port == "localhost" + [':'] + port;
    BeforeFirstOfSplit("localhost", ':', port);
  }

  /** For the registry key 'localhost:3000' itself the portless lookup already succeeds, so that entry is never consulted. */
  lemma LocalhostPortEntryUnreachable()
    ensures BeforeFirst("localhost:3000", ':') in Registry
  {
    LocalhostPortShadowed("3000");
    assert "localhost:" + "3000" == "localhost:3000";
  }

  /**
   * `getBrandFromRequest`: a missing or empty host header means 'peoplesjustice.com'
   * and an unknown host falls back to the default brand, so the result is never absent;
   * with this registry it is always the default brand.
   */
  function GetBrandFromRequest(host: Option<string>): (r: Config)
    ensures r == DefaultBrand
  {
    var domain := OrElse(host, "peoplesjustice.com");
    var brand := GetBrandByDomain(domain);
    ResolvesOnlyToDefault(domain);
    if brand.Some? then brand.value else DefaultBrand
  }

  /** `generateThemeCSSVariables`: exactly three custom properties, one per theme field. */
  function GenerateThemeCssVariables(theme: BrandTheme): (r: map<string, string>)
    ensures r.Keys == {"--brand-primary", "--brand-secondary", "--brand-font-family"}
    ensures r["--brand-primary"] == theme.primaryColor
    ensures r["--brand-secondary"] == theme.secondaryColor
    ensures r["--brand-font-family"] == theme.fontFamily
  {
    map[
      "--brand-primary" := theme.primaryColor,
      "--brand-secondary" := theme.secondaryColor,
      "--brand-font-family" := theme.fontFamily
    ]
  }

  /** A brand row as read from the database: the nested objects may be missing (null). */
  datatype DbBrand = DbBrand(
    id: int,
    slug: string,
    name: string,
    domain: string,
    logo: Option<Logo>,
    theme: Option<BrandTheme>,
    contact: Option<BrandContact>,
    legal: Option<BrandLegal>,
    socialMedia: Option<SocialMedia>,
    analytics: Option<Analytics>,
    active: bool)

  /**
   * `mapDbBrandToBrandConfig`: scalar fields and the optional groups are copied,
   * a missing logo, theme, contact or legal block is taken from the default brand.
   */
  function MapDbBrandToConfig(db: DbBrand): (r: Config)
    ensures r.id == db.id && r.slug == db.slug && r.name == db.name && r.domain == db.domain
    ensures r.active == db.active
    ensures r.socialMedia == db.socialMedia && r.analytics == db.analytics
    ensures db.logo.Some? ==> r.logo == db.logo.value
    ensures db.logo.None? ==> r.logo == DefaultBrand.logo
    ensures db.theme.Some? ==> r.theme == db.theme.value
    ensures db.theme.None? ==> r.theme == DefaultBrand.theme
    ensures db.contact.Some? ==> r.contact == db.contact.value
    ensures db.contact.None? ==> r.contact == DefaultBrand.contact
    ensures db.legal.Some? ==> r.legal == db.legal.value
    ensures db.legal.None? ==> r.legal == DefaultBrand.legal
  {
    Config(
      db.id, db.slug, db.name, db.domain,
      if db.logo.Some? then db.logo.value else DefaultBrand.logo,
      if db.theme.Some? then db.theme.value else DefaultBrand.theme,
      if db.contact.Some? then db.contact.value else DefaultBrand.contact,
      if db.legal.Some? then db.legal.value else DefaultBrand.legal,
      db.socialMedia, db.analytics, db.active)
  }

  /** The row a configuration would be stored as, with every nested block present. */
  function ToDbBrand(c: Config): DbBrand {
    DbBrand(c.id, c.slug, c.name, c.domain, Some(c.logo), Some(c.theme), Some(c.contact), Some(c.legal),
            c.socialMedia, c.analytics, c.active)
  }

  /** Storing a configuration and mapping it back loses nothing. */
  lemma MapDbBrandRoundTrip(c: Config)
    ensures MapDbBrandToConfig(ToDbBrand(c)) == c
  {
  }

  /** A row whose nested blocks are all missing takes its whole presentation from the default brand. */
  lemma MapBareRowUsesDefaults(db: DbBrand)
    requires db.logo.None? && db.theme.None? && db.contact.None? && db.legal.None?
    ensures var r := MapDbBrandToConfig(db);
      r.logo == DefaultBrand.logo && r.theme == DefaultBrand.theme
      && r.contact == DefaultBrand.contact && r.legal == DefaultBrand.legal
  {
  }
}
