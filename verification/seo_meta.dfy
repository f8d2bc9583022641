/**
 * Page metadata: title and description truncation, the robots directive
 * list, the assembled metadata record (canonical, alternates, Open Graph,
 * Twitter), the FAQ page schema, the title and description templates per
 * page type, and the eleven-check SEO compliance score.
 */
module SeoMeta {
  import opened Common

  /** `s` when it fits in `limit` characters, else its first `limit - 3` characters and '...'. */
  function Truncate(s: string, limit: nat): (r: string)
    requires limit >= 3
    ensures |r| <= limit
    ensures |s| <= limit ==> r == s
    ensures |s| > limit ==> |r| == limit && StartsWith(s, r[..limit - 3]) && r[limit - 3..] == "..."
  {
    if |s| <= limit then s else s[..limit - 3] + "..."
  }

  /** Truncating an already truncated text changes nothing. */
  lemma TruncateIdempotent(s: string, limit: nat)
    requires limit >= 3
    ensures Truncate(Truncate(s, limit), limit) == Truncate(s, limit)
  {
  }

  // ---------------------------------------------------------------------
  // Robots directives
  // ---------------------------------------------------------------------

  datatype RobotsInput = RobotsInput(
    index: Option<bool>,
    follow: Option<bool>,
    maxSnippet: Option<int>,
    maxImagePreview: Option<string>,
    maxVideoPreview: Option<int>)

  /** The configuration used when none is given: index and follow. */
  const DefaultRobots := RobotsInput(Some(true), Some(true), None, None, None)

  datatype Directive =
    | NoIndex
    | NoFollow
    | MaxSnippet(n: int)
    | MaxImagePreview(size: string)
    | MaxVideoPreview(seconds: int)

  /** The fixed position of each kind of directive. */
  function Rank(d: Directive): nat {
    match d
    case NoIndex => 0
    case NoFollow => 1
    case MaxSnippet(_) => 2
    case MaxImagePreview(_) => 3
    case MaxVideoPreview(_) => 4
  }

  function RenderDirective(d: Directive): string {
    match d
    case NoIndex => "noindex"
    case NoFollow => "nofollow"
    case MaxSnippet(n) => "max-snippet:" + IntToString(n)
    case MaxImagePreview(s) => "max-image-preview:" + s
    case MaxVideoPreview(n) => "max-video-preview:" + IntToString(n)
  }

  predicate IntTruthy(n: Option<int>) {
    n.Some? && n.value != 0
  }

  /**
   * The directives in their fixed order: 'noindex' and 'nofollow' only for an
   * explicit `false`, each of the three limits only when it is truthy.
   */
  function RobotsDirectives(robots: RobotsInput): (r: seq<Directive>)
    ensures forall i, j :: 0 <= i < j < |r| ==> Rank(r[i]) < Rank(r[j])
  {
    (if robots.index == Some(false) then [NoIndex] else [])
    + (if robots.follow == Some(false) then [NoFollow] else [])
    + (if IntTruthy(robots.maxSnippet) then [MaxSnippet(robots.maxSnippet.value)] else [])
    + (if OptTruthy(robots.maxImagePreview) then [MaxImagePreview(robots.maxImagePreview.value)] else [])
    + (if IntTruthy(robots.maxVideoPreview) then [MaxVideoPreview(robots.maxVideoPreview.value)] else [])
  }

  /** Whether the configuration asks for directive `d`. */
  predicate Requested(robots: RobotsInput, d: Directive) {
    match d
    case NoIndex => robots.index == Some(false)
    case NoFollow => robots.follow == Some(false)
    case MaxSnippet(n) => IntTruthy(robots.maxSnippet) && n == robots.maxSnippet.value
    case MaxImagePreview(s) => OptTruthy(robots.maxImagePreview) && s == robots.maxImagePreview.value
    case MaxVideoPreview(n) => IntTruthy(robots.maxVideoPreview) && n == robots.maxVideoPreview.value
  }

  /** A directive is emitted exactly when the configuration asks for it. */
  lemma RobotsDirectivesExactly(robots: RobotsInput)
    ensures forall d :: d in RobotsDirectives(robots) <==> Requested(robots, d)
  {
    var a := if robots.index == Some(false) then [NoIndex] else [];
    var b := if robots.follow == Some(false) then [NoFollow] else [];
    var c := if IntTruthy(robots.maxSnippet) then [MaxSnippet(robots.maxSnippet.value)] else [];
    var d := if OptTruthy(robots.maxImagePreview) then [MaxImagePreview(robots.maxImagePreview.value)] else [];
    var e := if IntTruthy(robots.maxVideoPreview) then [MaxVideoPreview(robots.maxVideoPreview.value)] else [];
    assert RobotsDirectives(robots) == a + b + c + d + e;
    forall x
      ensures x in RobotsDirectives(robots) <==> Requested(robots, x)
    {
      assert x in RobotsDirectives(robots) <==> x in a || x in b || x in c || x in d || x in e;
    }
  }

  /** The robots meta value: the directives joined by ', ', absent when there are none. */
  function RobotsValue(robots: RobotsInput): Option<string> {
    var ds := RobotsDirectives(robots);
    if |ds| > 0 then Some(Join(seq(|ds|, i requires 0 <= i < |ds| => RenderDirective(ds[i])), ", ")) else None
  }

  /** The default configuration produces no robots meta at all. */
  lemma DefaultRobotsAbsent()
    ensures RobotsValue(DefaultRobots).None?
  {
  }

  // ---------------------------------------------------------------------
  // Metadata
  // ---------------------------------------------------------------------

  datatype AlternateUrl = AlternateUrl(locale: string, url: string)

  /** `alternateUrls.reduce(…)`: a map from locale to URL, later entries overwriting earlier ones. */
  function Languages(alts: seq<AlternateUrl>): (m: map<string, string>)
    ensures m.Keys == set a | a in alts :: a.locale
  {
    if |alts| == 0 then map[]
    else
      var last := alts[|alts| - 1];
      var prev := alts[..|alts| - 1];
      assert forall a :: a in alts <==> a in prev || a == last;
      Languages(prev)[last.locale := last.url]
  }

  /** The URL recorded for a locale is that of the last entry with that locale. */
  lemma {:induction false} LanguagesLastWins(alts: seq<AlternateUrl>, i: nat)
    requires i < |alts|
    requires forall j :: i < j < |alts| ==> alts[j].locale != alts[i].locale
    ensures alts[i].locale in Languages(alts) && Languages(alts)[alts[i].locale] == alts[i].url
  {
    if i < |alts| - 1 {
      var prev := alts[..|alts| - 1];
      LanguagesLastWins(prev, i);
    }
  }

  datatype OgImageInput = OgImageInput(url: string, width: Option<int>, height: Option<int>, alt: Option<string>)

  datatype ArticleInput = ArticleInput(
    publishedTime: Option<string>,
    modifiedTime: Option<string>,
    author: Option<seq<string>>,
    section: Option<string>,
    tags: Option<seq<string>>)

  /** The page's SEO configuration; `None` is a field left undefined, which takes its default. */
  datatype MetaConfig = MetaConfig(
    title: string,
    description: string,
    keywords: Option<seq<string>>,
    url: string,
    canonicalUrl: Option<string>,
    alternateUrls: Option<seq<AlternateUrl>>,
    ogType: Option<string>,
    ogImage: Option<OgImageInput>,
    ogLocale: Option<string>,
    twitterCard: Option<string>,
    twitterSite: Option<string>,
    twitterCreator: Option<string>,
    article: Option<ArticleInput>,
    robots: Option<RobotsInput>,
    siteName: Option<string>,
    brandName: Option<string>)

  datatype OgImage = OgImage(url: string, width: int, height: int, alt: string)

  datatype OpenGraph = OpenGraph(
    title: string,
    description: string,
    url: string,
    siteName: string,
    locale: string,
    ogType: string,
    images: Option<seq<OgImage>>,
    article: Option<ArticleInput>)

  datatype Twitter = Twitter(
    card: string,
    site: string,
    creator: Option<string>,
    title: string,
    description: string,
    images: Option<seq<string>>)

  datatype Metadata = Metadata(
    title: string,
    description: string,
    keywords: Option<string>,
    canonical: string,
    languages: map<string, string>,
    openGraph: OpenGraph,
    twitter: Twitter,
    robots: Option<string>,
    other: map<string, string>)

  function Default<T>(o: Option<T>, d: T): T {
    if o.Some? then o.value else d
  }

  /**
   * `generateMetaTags`: the brand suffix goes on the top-level title only;
   * Open Graph and Twitter share the truncated title and description; the
   * canonical URL and the Open Graph URL are the same.
   */
  function GenerateMetaTags(config: MetaConfig): (r: Metadata)
    ensures |r.openGraph.title| <= 60 && |r.description| <= 160
    ensures r.twitter.title == r.openGraph.title
    ensures r.openGraph.title == Truncate(config.title, 60)
    ensures OptTruthy(config.brandName) ==> r.title == r.openGraph.title + " | " + config.brandName.value
    ensures !OptTruthy(config.brandName) ==> r.title == r.openGraph.title
    ensures r.openGraph.description == r.description && r.twitter.description == r.description
    ensures r.description == Truncate(config.description, 160)
    ensures r.openGraph.url == r.canonical
    ensures r.canonical == OrElse(config.canonicalUrl, config.url)
    ensures r.robots == RobotsValue(Default(config.robots, DefaultRobots))
    ensures config.robots.None? ==> r.robots.None?
    ensures r.openGraph.images.Some? <==> config.ogImage.Some?
    ensures r.twitter.images.Some? <==> config.ogImage.Some?
    ensures r.languages == Languages(Default(config.alternateUrls, []))
    ensures r.openGraph.ogType == Default(config.ogType, "website")
    ensures r.openGraph.article.Some? <==> config.article.Some? && r.openGraph.ogType == "article"
    ensures r.openGraph.article.Some? ==> r.openGraph.article == config.article
  {
    var keywords := Default(config.keywords, []);
    var alternates := Default(config.alternateUrls, []);
    var ogType := Default(config.ogType, "website");
    var robots := Default(config.robots, DefaultRobots);
    var title := Truncate(config.title, 60);
    var fullTitle := if OptTruthy(config.brandName) then title + " | " + config.brandName.value else title;
    var description := Truncate(config.description, 160);
    var canonical := OrElse(config.canonicalUrl, config.url);
    var images :=
      if config.ogImage.Some? then
        var img := config.ogImage.value;
        Some([OgImage(img.url, OrElseInt(img.width, 1200), OrElseInt(img.height, 630), OrElse(img.alt, title))])
      else None;
    Metadata(
      fullTitle,
      description,
      if |keywords| > 0 then Some(Join(keywords, ", ")) else None,
      canonical,
      Languages(alternates),
      OpenGraph(title, description, canonical, Default(config.siteName, "People's Justice"),
                Default(config.ogLocale, "en_US"), ogType, images,
                if config.article.Some? && ogType == "article" then config.article else None),
      Twitter(Default(config.twitterCard, "summary_large_image"), Default(config.twitterSite, "@PeoplesJustice"),
              config.twitterCreator, title, description,
              if config.ogImage.Some? then Some([config.ogImage.value.url]) else None),
      RobotsValue(robots),
      map[
        "apple-mobile-web-app-capable" := "yes",
        "apple-mobile-web-app-status-bar-style" := "default",
        "format-detection" := "telephone=no"
      ])
  }

  /**
   * The page's alternate-language map lists every alternate's locale, and
   * when a locale appears more than once the last URL given for it wins.
   */
  lemma MetaTagsLanguagesLastWins(config: MetaConfig, i: nat)
    requires config.alternateUrls.Some? && i < |config.alternateUrls.value|
    requires forall j :: i < j < |config.alternateUrls.value| ==>
               config.alternateUrls.value[j].locale != config.alternateUrls.value[i].locale
    ensures GenerateMetaTags(config).languages.Keys == set a | a in config.alternateUrls.value :: a.locale
    ensures var a := config.alternateUrls.value[i];
            a.locale in GenerateMetaTags(config).languages && GenerateMetaTags(config).languages[a.locale] == a.url
  {
    LanguagesLastWins(config.alternateUrls.value, i);
  }

  // ---------------------------------------------------------------------
  // FAQ schema
  // ---------------------------------------------------------------------

  datatype Faq = Faq(question: string, answer: string)

  datatype Question = Question(name: string, acceptedAnswer: string)

  datatype FaqPage = FaqPage(context: string, schemaType: string, mainEntity: seq<Question>)

  /** `generateFAQForAI`: the first ten FAQs (or all, when fewer), in order, as questions. */
  function GenerateFaqForAi(faqs: seq<Faq>): (r: FaqPage)
    ensures r.context == "https://schema.org" && r.schemaType == "FAQPage"
    ensures |r.mainEntity| == if |faqs| < 10 then |faqs| else 10
    ensures forall i :: 0 <= i < |r.mainEntity| ==>
              r.mainEntity[i].name == faqs[i].question && r.mainEntity[i].acceptedAnswer == faqs[i].answer
  {
    var kept := if |faqs| < 10 then faqs else faqs[..10];
    FaqPage("https://schema.org", "FAQPage",
            seq(|kept|, i requires 0 <= i < |kept| => Question(kept[i].question, kept[i].answer)))
  }

  // ---------------------------------------------------------------------
  // Title and description templates
  // ---------------------------------------------------------------------

  /** The eight page types with the values their templates interpolate. */
  datatype TitleArgs =
    | CasePillarTitle(caseType: string, updatedMonth: string)
    | InjuryInCaseTitle(injury: string, caseType: string, updatedMonth: string)
    | StateHubTitle(caseType: string, state: string, updatedMonth: string)
    | CityPITitle(practiceArea: string, city: string, state: string)
    | EventHubTitle(event: string, state: string, updatedMonth: string)
    | DirectoryListTitle(caseType: string, location: string)
    | FirmProfileTitle(firmName: string, location: string, practiceArea: string)
    | ResourceTitle(resourceType: string, updatedMonth: string)

  /** The keyword each title template puts first. */
  function TitleLead(t: TitleArgs): string {
    match t
    case CasePillarTitle(c, _) => c + " Lawsuit"
    case InjuryInCaseTitle(i, _, _) => i + " from "
    case StateHubTitle(c, _, _) => c + " Lawsuit in "
    case CityPITitle(p, _, _) => p + " Lawyer "
    case EventHubTitle(e, _, _) => e + " "
    case DirectoryListTitle(c, _) => "Find " + c + " Lawyers in "
    case FirmProfileTitle(f, _, _) => f + " — "
    case ResourceTitle(r, _) => r + " Database ("
  }

  lemma StartsWithConcat(a: string, b: string)
    ensures StartsWith(a + b, a)
  {
    assert (a + b)[..|a|] == a;
  }

  /** `titleTemplates`: every title starts with the page's keyword ("keywords front-loaded"). */
  function TitleFor(t: TitleArgs): (r: string)
    ensures StartsWith(r, TitleLead(t))
  {
    var lead := TitleLead(t);
    var rest := match t
      case CasePillarTitle(_, m) => " (Updated " + m + ") — Who Qualifies & Typical Payouts"
      case InjuryInCaseTitle(_, c, m) => c + " — Symptoms, Proof & Compensation (" + m + ")"
      case StateHubTitle(_, s, m) => s + " — Statute of Limitations & Filing Deadline (" + m + ")"
      case CityPITitle(_, c, s) => c + ", " + s + " — Free Consultation, No Upfront Fees"
      case EventHubTitle(_, s, m) => s + " Claims — Deadlines, FEMA Help & How to File (" + m + ")"
      case DirectoryListTitle(_, l) => l + " — Top-Rated Attorneys, Free Case Review"
      case FirmProfileTitle(_, l, p) => p + " Lawyer in " + l + " | Client Reviews & Results"
      case ResourceTitle(_, m) => m + ") — Searchable, Exportable Data";
    StartsWithConcat(lead, rest);
    lead + rest
  }

  datatype DescriptionArgs =
    | CasePillarDescription(caseType: string, qualifyBullets: seq<string>, deadline: string, payoutRange: string)
    | InjuryInCaseDescription(injury: string, caseType: string, symptoms: string)
    | StateHubDescription(caseType: string, state: string, solYears: string, filingDeadline: string)
    | CityPIDescription(practiceArea: string, city: string, languages: string)
    | EventHubDescription(event: string, state: string, affectedCounties: string)
    | DirectoryListDescription(caseType: string, location: string, firmCount: int)
    | FirmProfileDescription(firmName: string, yearsExp: int, casesWon: int, acceptanceRate: int)
    | ResourceDescription(resourceType: string, recordCount: int, lastUpdated: string)

  /** What each description template opens with. */
  function DescriptionLead(d: DescriptionArgs): string {
    match d
    case CasePillarDescription(c, _, _, _) => "Who qualifies for " + c + " lawsuit? "
    case InjuryInCaseDescription(i, c, _) => i + " linked to " + c + ". "
    case StateHubDescription(c, s, _, _) => s + " " + c + " statute of limitations: "
    case CityPIDescription(p, c, _) => c + " " + p + " lawyer. "
    case EventHubDescription(e, s, _) => s + " " + e + " victims: "
    case DirectoryListDescription(c, l, n) => IntToString(n) + "+ " + c + " attorneys in " + l + ". "
    case FirmProfileDescription(f, y, _, _) => f + ": " + IntToString(y) + "+ years, "
    case ResourceDescription(r, n, _) => r + ": " + IntToString(n) + "+ records. "
  }

  /** `descriptionTemplates`: every description opens with the question or fact it answers. */
  function DescriptionFor(d: DescriptionArgs): (r: string)
    ensures StartsWith(r, DescriptionLead(d))
  {
    var lead := DescriptionLead(d);
    var rest := match d
      case CasePillarDescription(_, bullets, deadline, payout) =>
        Join(bullets, ", ") + ". File by " + deadline + ". Settlements: " + payout
        + ". Free case review, no upfront cost."
      case InjuryInCaseDescription(_, _, symptoms) =>
        "Symptoms: " + symptoms + ". Get medical records help, file your claim. Free legal review, no fees unless you win."
      case StateHubDescription(_, _, years, deadline) =>
        years + ". Filing deadline: " + deadline + ". Local attorneys, free consultation. Evidence checklist & claim help."
      case CityPIDescription(_, _, languages) =>
        "24/7 availability, " + languages
        + " spoken. Free crash report help, hospital lien negotiation. No fee unless you win."
      case EventHubDescription(_, _, counties) =>
        "File claims for property damage, lost wages. Counties: " + counties
        + ". FEMA deadlines, insurance help, free legal review."
      case DirectoryListDescription(_, _, _) =>
        "Compare experience, reviews, success rates. Free case evaluation, contingency fees. Find your lawyer today."
      case FirmProfileDescription(_, _, won, rate) =>
        IntToString(won) + "+ cases won, " + IntToString(rate)
        + "% acceptance rate. Free consultation, no upfront fees. Bilingual staff, 24/7 intake."
      case ResourceDescription(_, _, updated) =>
        "Searchable by defendant, court, amount, date. Updated " + updated
        + ". Export data, cite in claims. Free access.";
    StartsWithConcat(lead, rest);
    lead + rest
  }

  // ---------------------------------------------------------------------
  // SEO compliance
  // ---------------------------------------------------------------------

  /**
   * The page facts the score is computed from. The readability analysis is
   * taken as given: whether it is compliant and the '<target> (Grade <n>)'
   * note it produces.
   */
  datatype SeoParams = SeoParams(
    title: string,
    description: string,
    h1: string,
    readable: bool,
    readabilityNote: string,
    hasCanonical: bool,
    hasOgTags: bool,
    hasTwitterTags: bool,
    hasSchemaMarkup: bool,
    hasAltTextOnImages: bool,
    internalLinksCount: int,
    externalLinksCount: int)

  datatype Severity = Issue | Warning | Pass

  /** One check's verdict: where its message goes and how many points it costs. */
  datatype Check = Check(severity: Severity, message: string, deduction: nat)

  /** A check costs nothing exactly when it passes; an issue costs 10 to 15 points, a warning 3 to 5. */
  predicate Priced(c: Check) {
    (c.severity == Pass <==> c.deduction == 0)
    && (c.severity == Issue ==> 10 <= c.deduction <= 15)
    && (c.severity == Warning ==> 3 <= c.deduction <= 5)
  }

  /** Title length: missing is an issue, over 60 or under 30 characters a warning. */
  function TitleCheck(p: SeoParams): (r: Check)
    ensures Priced(r) && r.deduction <= 15
    ensures r.severity == Issue <==> |p.title| == 0
    ensures r.severity == Pass <==> 30 <= |p.title| <= 60
  {
    if |p.title| == 0 then Check(Issue, "Missing title tag", 15)
    else if |p.title| > 60 then Check(Warning, "Title too long (" + NatToString(|p.title|) + " chars, recommend ≤60)", 5)
    else if |p.title| < 30 then Check(Warning, "Title too short (" + NatToString(|p.title|) + " chars, recommend 30-60)", 3)
    else Check(Pass, "Title length optimal (30-60 chars)", 0)
  }

  /** Description length: missing is an issue, over 160 or under 120 characters a warning. */
  function DescriptionCheck(p: SeoParams): (r: Check)
    ensures Priced(r) && r.deduction <= 15
    ensures r.severity == Issue <==> |p.description| == 0
    ensures r.severity == Pass <==> 120 <= |p.description| <= 160
  {
    if |p.description| == 0 then Check(Issue, "Missing meta description", 15)
    else if |p.description| > 160 then
      Check(Warning, "Description too long (" + NatToString(|p.description|) + " chars, recommend ≤160)", 5)
    else if |p.description| < 120 then
      Check(Warning, "Description too short (" + NatToString(|p.description|) + " chars, recommend 120-160)", 3)
    else Check(Pass, "Description length optimal (120-160 chars)", 0)
  }

  /** The H1 must be present, and equal to the title or contained in it. */
  function H1Check(p: SeoParams): (r: Check)
    ensures Priced(r) && r.deduction <= 10
    ensures r.severity == Issue <==> p.h1 == ""
    ensures r.severity == Pass <==> p.h1 != "" && Contains(p.title, p.h1)
  {
    if p.h1 == "" then Check(Issue, "Missing H1 tag", 10)
    else if p.h1 != p.title && !Contains(p.title, p.h1) then
      Check(Warning, "H1 and title tag should align for keyword consistency", 3)
    else
      assert p.h1 == p.title ==> OccursAt(p.title, p.h1, 0);
      Check(Pass, "H1 tag present and aligned with title", 0)
  }

  /** A yes/no check: passes when `ok`, otherwise costs `cost` at the given severity. */
  function FlagCheck(ok: bool, failSeverity: Severity, failMessage: string, cost: nat, passMessage: string): (r: Check)
    ensures r.severity == Pass <==> ok || failSeverity == Pass
    ensures r.deduction == if ok then 0 else cost
  {
    if !ok then Check(failSeverity, failMessage, cost) else Check(Pass, passMessage, 0)
  }

  function CanonicalCheck(p: SeoParams): (r: Check)
    ensures Priced(r) && r.deduction <= 10
  {
    FlagCheck(p.hasCanonical, Issue, "Missing canonical URL", 10, "Canonical URL set")
  }

  function OpenGraphCheck(p: SeoParams): (r: Check)
    ensures Priced(r) && r.deduction <= 5
  {
    FlagCheck(p.hasOgTags, Warning, "Missing Open Graph tags (impacts social sharing)", 5, "Open Graph tags present")
  }

  function TwitterCheck(p: SeoParams): (r: Check)
    ensures Priced(r) && r.deduction <= 3
  {
    FlagCheck(p.hasTwitterTags, Warning, "Missing Twitter Card tags (impacts social sharing)", 3, "Twitter Card tags present")
  }

  function SchemaCheck(p: SeoParams): (r: Check)
    ensures Priced(r) && r.deduction <= 10
  {
    FlagCheck(p.hasSchemaMarkup, Issue, "Missing schema.org structured data", 10, "Schema.org markup present")
  }

  function AltTextCheck(p: SeoParams): (r: Check)
    ensures Priced(r) && r.deduction <= 5
  {
    FlagCheck(p.hasAltTextOnImages, Warning, "Some images missing alt text (accessibility & SEO issue)", 5,
              "All images have alt text")
  }

  /** Internal links: fewer than 3 or more than 20 is a warning. */
  function InternalLinksCheck(p: SeoParams): (r: Check)
    ensures Priced(r) && r.deduction <= 5
    ensures r.severity == Pass <==> 3 <= p.internalLinksCount <= 20
  {
    var n := p.internalLinksCount;
    if n < 3 then Check(Warning, "Low internal links (" + IntToString(n) + ", recommend 3-10)", 5)
    else if n > 20 then Check(Warning, "Too many internal links (" + IntToString(n) + ", recommend 3-10)", 3)
    else Check(Pass, "Good internal linking (" + IntToString(n) + " links)", 0)
  }

  /** External citations: fewer than 2 is a warning. */
  function ExternalLinksCheck(p: SeoParams): (r: Check)
    ensures Priced(r) && r.deduction <= 3
    ensures r.severity == Pass <==> p.externalLinksCount >= 2
  {
    var n := p.externalLinksCount;
    if n < 2 then Check(Warning, "Low external citations (" + IntToString(n) + ", recommend 2-5 authoritative sources)", 3)
    else Check(Pass, "Good external citations (" + IntToString(n) + " sources)", 0)
  }

  function ReadabilityCheck(p: SeoParams): (r: Check)
    ensures Priced(r) && r.deduction <= 5
    ensures r.severity == Pass <==> p.readable
  {
    if !p.readable then Check(Warning, "Readability: " + p.readabilityNote, 5)
    else Check(Pass, "Readability compliant: " + p.readabilityNote, 0)
  }

  /** The eleven checks, in the order they are run. */
  function Checks(p: SeoParams): (r: seq<Check>)
    ensures |r| == 11
  {
    TextChecks(p) + TagChecks(p) + ContentChecks(p)
  }

  /** Each of the eleven checks deducts 0 exactly when it passes, 10 to 15 for an issue, 3 to 5 for a warning. */
  lemma ChecksPriced(p: SeoParams)
    ensures forall i :: 0 <= i < |Checks(p)| ==> Priced(Checks(p)[i])
  {
    PricedAppend(TextChecks(p), TagChecks(p));
    PricedAppend(TextChecks(p) + TagChecks(p), ContentChecks(p));
  }

  lemma PricedAppend(a: seq<Check>, b: seq<Check>)
    requires forall i :: 0 <= i < |a| ==> Priced(a[i])
    requires forall i :: 0 <= i < |b| ==> Priced(b[i])
    ensures forall i :: 0 <= i < |a + b| ==> Priced((a + b)[i])
  {
    forall i | 0 <= i < |a + b| ensures Priced((a + b)[i]) {
      if i >= |a| {
        assert (a + b)[i] == b[i - |a|];
      }
    }
  }

  /** The messages of the checks with the given severity, in check order. */
  function MessagesOf(cs: seq<Check>, s: Severity): (r: seq<string>)
    ensures |r| <= |cs|
  {
    if |cs| == 0 then []
    else MessagesOf(cs[..|cs| - 1], s) + (if cs[|cs| - 1].severity == s then [cs[|cs| - 1].message] else [])
  }

  function TotalDeduction(cs: seq<Check>): nat {
    if |cs| == 0 then 0 else TotalDeduction(cs[..|cs| - 1]) + cs[|cs| - 1].deduction
  }

  /** Running one more check extends each message list and the total as that check says. */
  ghost function Record(done: seq<Check>, c: Check): (r: seq<Check>)
    ensures r == done + [c]
    ensures MessagesOf(r, Issue) == MessagesOf(done, Issue) + (if c.severity == Issue then [c.message] else [])
    ensures MessagesOf(r, Warning) == MessagesOf(done, Warning) + (if c.severity == Warning then [c.message] else [])
    ensures MessagesOf(r, Pass) == MessagesOf(done, Pass) + (if c.severity == Pass then [c.message] else [])
    ensures TotalDeduction(r) == TotalDeduction(done) + c.deduction
  {
    var r := done + [c];
    assert r[..|r| - 1] == done;
    r
  }

  /** Every check's message lands in exactly one of the three lists. */
  lemma {:induction false} MessagesPartition(cs: seq<Check>)
    ensures |MessagesOf(cs, Issue)| + |MessagesOf(cs, Warning)| + |MessagesOf(cs, Pass)| == |cs|
  {
    if |cs| > 0 {
      MessagesPartition(cs[..|cs| - 1]);
    }
  }

  /** Nothing is deducted exactly when every check passes; each issue costs 10 or more, each warning 3 or more. */
  lemma {:induction false} DeductionBounds(cs: seq<Check>)
    requires forall i :: 0 <= i < |cs| ==> Priced(cs[i])
    ensures TotalDeduction(cs) == 0 <==> |MessagesOf(cs, Pass)| == |cs|
    ensures TotalDeduction(cs) >= 10 * |MessagesOf(cs, Issue)| + 3 * |MessagesOf(cs, Warning)|
  {
    if |cs| > 0 {
      var prev := cs[..|cs| - 1];
      assert forall i :: 0 <= i < |prev| ==> prev[i] == cs[i];
      DeductionBounds(prev);
    }
  }

  /** The total of two runs of checks is the sum of their totals. */
  lemma {:induction false} TotalDeductionAppend(a: seq<Check>, b: seq<Check>)
    ensures TotalDeduction(a + b) == TotalDeduction(a) + TotalDeduction(b)
  {
    if |b| == 0 {
      assert a + b == a;
    } else {
      TotalDeductionAppend(a, b[..|b| - 1]);
      assert (a + b)[..|a + b| - 1] == a + b[..|b| - 1];
      assert (a + b)[|a + b| - 1] == b[|b| - 1];
    }
  }

  lemma TextDeduction(p: SeoParams)
    ensures TotalDeduction(TextChecks(p)) <= 40
  {
    var t0 := Record([], TitleCheck(p));
    var t1 := Record(t0, DescriptionCheck(p));
    var t2 := Record(t1, H1Check(p));
    assert t2 == TextChecks(p);
  }

  lemma TagDeduction(p: SeoParams)
    ensures TotalDeduction(TagChecks(p)) <= 28
  {
    var g0 := Record([], CanonicalCheck(p));
    var g1 := Record(g0, OpenGraphCheck(p));
    var g2 := Record(g1, TwitterCheck(p));
    var g3 := Record(g2, SchemaCheck(p));
    assert g3 == TagChecks(p);
  }

  lemma ContentDeduction(p: SeoParams)
    ensures TotalDeduction(ContentChecks(p)) <= 18
  {
    var c0 := Record([], AltTextCheck(p));
    var c1 := Record(c0, InternalLinksCheck(p));
    var c2 := Record(c1, ExternalLinksCheck(p));
    var c3 := Record(c2, ReadabilityCheck(p));
    assert c3 == ContentChecks(p);
  }

  /** The largest possible total is 86 points (40 + 28 + 18), every check failing at its worst. */
  lemma MaxDeduction(p: SeoParams)
    ensures TotalDeduction(Checks(p)) <= 86
  {
    TextDeduction(p);
    TagDeduction(p);
    ContentDeduction(p);
    TotalDeductionAppend(TextChecks(p), TagChecks(p));
    TotalDeductionAppend(TextChecks(p) + TagChecks(p), ContentChecks(p));
  }



  /**
   * Files one check's message under its severity and deducts its cost from
   * the score: when the lists and score tally the checks `done` so far, they
   * afterwards tally `done` followed by `c`.
   */
  method Push(c: Check, ghost done: seq<Check>, score: int, issues: seq<string>, warnings: seq<string>, passes: seq<string>)
    returns (score': int, issues': seq<string>, warnings': seq<string>, passes': seq<string>)
    requires Tally(done, score, issues, warnings, passes)
    ensures Tally(done + [c], score', issues', warnings', passes')
  {
    score', issues', warnings', passes' := score - c.deduction, issues, warnings, passes;
    match c.severity
    case Issue => issues' := issues + [c.message];
    case Warning => warnings' := warnings + [c.message];
    case Pass => passes' := passes + [c.message];
    var r := Record(done, c);
  }

  /** The title, description and H1 checks. */
  function TextChecks(p: SeoParams): (r: seq<Check>)
    ensures |r| == 3
    ensures forall i :: 0 <= i < |r| ==> Priced(r[i])
  {
    [TitleCheck(p), DescriptionCheck(p), H1Check(p)]
  }

  /** Runs the title, description and H1 checks in order. */
  method PushTextChecks(p: SeoParams, ghost done: seq<Check>, score: int, issues: seq<string>, warnings: seq<string>, passes: seq<string>)
    returns (score': int, issues': seq<string>, warnings': seq<string>, passes': seq<string>)
    requires Tally(done, score, issues, warnings, passes)
    ensures Tally(done + TextChecks(p), score', issues', warnings', passes')
  {
    ghost var done' := done;
    score', issues', warnings', passes' := score, issues, warnings, passes;
    score', issues', warnings', passes' := Push(TitleCheck(p), done', score', issues', warnings', passes');
    done' := done' + [TitleCheck(p)];
    score', issues', warnings', passes' := Push(DescriptionCheck(p), done', score', issues', warnings', passes');
    done' := done' + [DescriptionCheck(p)];
    score', issues', warnings', passes' := Push(H1Check(p), done', score', issues', warnings', passes');
    done' := done' + [H1Check(p)];
    assert done' == done + TextChecks(p);
  }

  /** The canonical, Open Graph, Twitter and schema checks. */
  function TagChecks(p: SeoParams): (r: seq<Check>)
    ensures |r| == 4
    ensures forall i :: 0 <= i < |r| ==> Priced(r[i])
  {
    [CanonicalCheck(p), OpenGraphCheck(p), TwitterCheck(p), SchemaCheck(p)]
  }

  /** Runs the canonical, Open Graph, Twitter and schema checks in order. */
  method PushTagChecks(p: SeoParams, ghost done: seq<Check>, score: int, issues: seq<string>, warnings: seq<string>, passes: seq<string>)
    returns (score': int, issues': seq<string>, warnings': seq<string>, passes': seq<string>)
    requires Tally(done, score, issues, warnings, passes)
    ensures Tally(done + TagChecks(p), score', issues', warnings', passes')
  {
    ghost var done' := done;
    score', issues', warnings', passes' := score, issues, warnings, passes;
    score', issues', warnings', passes' := Push(CanonicalCheck(p), done', score', issues', warnings', passes');
    done' := done' + [CanonicalCheck(p)];
    score', issues', warnings', passes' := Push(OpenGraphCheck(p), done', score', issues', warnings', passes');
    done' := done' + [OpenGraphCheck(p)];
    score', issues', warnings', passes' := Push(TwitterCheck(p), done', score', issues', warnings', passes');
    done' := done' + [TwitterCheck(p)];
    score', issues', warnings', passes' := Push(SchemaCheck(p), done', score', issues', warnings', passes');
    done' := done' + [SchemaCheck(p)];
    assert done' == done + TagChecks(p);
  }

  /** The image, link and readability checks. */
  function ContentChecks(p: SeoParams): (r: seq<Check>)
    ensures |r| == 4
    ensures forall i :: 0 <= i < |r| ==> Priced(r[i])
  {
    [AltTextCheck(p), InternalLinksCheck(p), ExternalLinksCheck(p), ReadabilityCheck(p)]
  }

  /** Runs the image, link and readability checks in order. */
  method PushContentChecks(p: SeoParams, ghost done: seq<Check>, score: int, issues: seq<string>, warnings: seq<string>, passes: seq<string>)
    returns (score': int, issues': seq<string>, warnings': seq<string>, passes': seq<string>)
    requires Tally(done, score, issues, warnings, passes)
    ensures Tally(done + ContentChecks(p), score', issues', warnings', passes')
  {
    ghost var done' := done;
    score', issues', warnings', passes' := score, issues, warnings, passes;
    score', issues', warnings', passes' := Push(AltTextCheck(p), done', score', issues', warnings', passes');
    done' := done' + [AltTextCheck(p)];
    score', issues', warnings', passes' := Push(InternalLinksCheck(p), done', score', issues', warnings', passes');
    done' := done' + [InternalLinksCheck(p)];
    score', issues', warnings', passes' := Push(ExternalLinksCheck(p), done', score', issues', warnings', passes');
    done' := done' + [ExternalLinksCheck(p)];
    score', issues', warnings', passes' := Push(ReadabilityCheck(p), done', score', issues', warnings', passes');
    done' := done' + [ReadabilityCheck(p)];
    assert done' == done + ContentChecks(p);
  }

  /**
   * `validateSEOCompliance`: the eleven checks run in turn, each pushing one
   * message and subtracting its cost from 100; the result is clamped at 0.
   */
  method ValidateSeoCompliance(p: SeoParams) returns (score: int, issues: seq<string>, warnings: seq<string>, passes: seq<string>)
    ensures issues == MessagesOf(Checks(p), Issue)
    ensures warnings == MessagesOf(Checks(p), Warning)
    ensures passes == MessagesOf(Checks(p), Pass)
    ensures score == if 100 - TotalDeduction(Checks(p)) < 0 then 0 else 100 - TotalDeduction(Checks(p))
  {
    issues, warnings, passes := [], [], [];
    score := 100;
    score, issues, warnings, passes := PushTextChecks(p, [], score, issues, warnings, passes);
    assert [] + TextChecks(p) == TextChecks(p);
    score, issues, warnings, passes := PushTagChecks(p, TextChecks(p), score, issues, warnings, passes);
    score, issues, warnings, passes := PushContentChecks(p, TextChecks(p) + TagChecks(p), score, issues, warnings, passes);
    if score < 0 {
      score := 0;
    }
  }

  /** The lists and score after running the checks in `done`. */
  ghost predicate Tally(done: seq<Check>, score: int, issues: seq<string>, warnings: seq<string>, passes: seq<string>) {
    issues == MessagesOf(done, Issue) && warnings == MessagesOf(done, Warning) && passes == MessagesOf(done, Pass)
    && score == 100 - TotalDeduction(done)
  }

  /**
   * The score always lies in [14, 100], so the clamp at 0 never applies; it
   * is 100 exactly when all eleven checks pass; each issue costs at least 10
   * points and each warning at least 3; every check lands in one list.
   */
  lemma ScoreBounds(p: SeoParams)
    ensures 14 <= 100 - TotalDeduction(Checks(p)) <= 100
    ensures TotalDeduction(Checks(p)) == 0 <==> |MessagesOf(Checks(p), Pass)| == 11
    ensures TotalDeduction(Checks(p)) >= 10 * |MessagesOf(Checks(p), Issue)| + 3 * |MessagesOf(Checks(p), Warning)|
    ensures |MessagesOf(Checks(p), Issue)| + |MessagesOf(Checks(p), Warning)| + |MessagesOf(Checks(p), Pass)| == 11
  {
    MaxDeduction(p);
    ChecksPriced(p);
    DeductionBounds(Checks(p));
    MessagesPartition(Checks(p));
  }
}
