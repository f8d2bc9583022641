/**
 * The internal-linking helpers: the directory link for a case and place,
 * the fixed resource links, the nearby-clinics link, the breadcrumb trail
 * per page type, anchor-text variations and the link-count check.
 */
module InternalLinking {
  import opened Common
  import SeoMeta

  datatype LinkType = Pillar | Injury | State | City | Directory | Firm | Resource

  datatype InternalLink = InternalLink(url: string, title: string, description: Option<string>, linkType: LinkType)

  /** A template literal's rendering of an optional string: the value, or 'undefined'. */
  function Text(o: Option<string>): string {
    if o.Some? then o.value else "undefined"
  }

  /**
   * `getDirectoryLink`: city and state give the city listing, a state alone
   * the state listing, anything else the national listing.
   */
  function GetDirectoryLink(caseSlug: string, caseName: string, state: Option<string>, city: Option<string>): (r: InternalLink)
    ensures r.linkType == Directory
    ensures OptTruthy(city) && OptTruthy(state) ==> r.url == "/find/" + caseSlug + "/" + state.value + "/" + city.value + "/"
    ensures !OptTruthy(city) && OptTruthy(state) ==> r.url == "/find/" + caseSlug + "/" + state.value + "/"
    ensures !OptTruthy(state) ==> r.url == "/find/" + caseSlug + "/"
    ensures StartsWith(r.url, "/find/" + caseSlug + "/")
  {
    var base := "/find/" + caseSlug + "/";
    assert StartsWith(base + "x", base) by { assert (base + "x")[..|base|] == base; }
    if OptTruthy(city) && OptTruthy(state) then
      var url := base + state.value + "/" + city.value + "/";
      assert url == base + (state.value + "/" + city.value + "/") && url[..|base|] == base;
      InternalLink(url, "Find " + caseName + " Lawyers in " + city.value,
                   Some("Compare top-rated " + caseName + " attorneys in " + city.value + ". Free case review."),
                   Directory)
    else if OptTruthy(state) then
      var url := base + state.value + "/";
      assert url[..|base|] == base;
      InternalLink(url, "Find " + caseName + " Lawyers in " + state.value,
                   Some("Compare " + caseName + " attorneys across " + state.value + ". Free consultation."),
                   Directory)
    else
      assert base[..|base|] == base;
      InternalLink(base, "Find " + caseName + " Lawyers",
                   Some("Connect with experienced " + caseName + " attorneys nationwide."), Directory)
  }

  /** A city given without a state is ignored: the link is the national one. */
  lemma CityWithoutStateIgnored(caseSlug: string, caseName: string, state: Option<string>, city: Option<string>)
    requires !OptTruthy(state)
    ensures GetDirectoryLink(caseSlug, caseName, state, city) == GetDirectoryLink(caseSlug, caseName, None, None)
  {
  }

  /** `getLatestUpdates`: the case's verdict database and the statute table, both resources. */
  function GetLatestUpdates(caseSlug: string, caseName: string): (r: seq<InternalLink>)
    ensures |r| == 2
    ensures forall i :: 0 <= i < |r| ==> r[i].linkType == Resource
    ensures r[0].url == "/resources/" + caseSlug + "-verdicts/"
    ensures r[1].url == "/resources/statute-of-limitations/"
  {
    [ InternalLink("/resources/" + caseSlug + "-verdicts/", caseName + " Verdicts & Settlements",
                   Some("Searchable database of " + caseName + " jury awards and settlement amounts."), Resource),
      InternalLink("/resources/statute-of-limitations/", "Statute of Limitations by State",
                   Some("Filing deadlines for personal injury claims in all 50 states."), Resource) ]
  }

  /**
   * `getNearbyClinics`: nothing without a state, otherwise the one
   * diagnostic-centre listing for that state. The city and the limit are not
   * used.
   */
  function GetNearbyClinics(state: Option<string>, city: Option<string>, injuryType: Option<string>, limit: Option<int>)
    : (r: seq<InternalLink>)
    ensures r == [] <==> !OptTruthy(state)
    ensures r != [] ==> |r| == 1 && r[0].linkType == Resource
                        && r[0].url == "/resources/diagnostic-centers/" + state.value + "/"
                        && r[0].title == OrElse(injuryType, "Diagnostic") + " Centers in " + state.value
  {
    if !OptTruthy(state) then []
    else
      [ InternalLink("/resources/diagnostic-centers/" + state.value + "/",
                     OrElse(injuryType, "Diagnostic") + " Centers in " + state.value,
                     Some("Find testing facilities for " + OrElse(injuryType, "diagnosis") + " near you."),
                     Resource) ]
  }

  // ---------------------------------------------------------------------
  // Breadcrumbs
  // ---------------------------------------------------------------------

  datatype Crumb = Crumb(name: string, url: string)

  datatype CrumbParams = CrumbParams(
    pageType: LinkType,
    caseSlug: Option<string>,
    caseName: Option<string>,
    injurySlug: Option<string>,
    injuryName: Option<string>,
    state: Option<string>,
    stateName: Option<string>,
    city: Option<string>,
    cityName: Option<string>,
    firmSlug: Option<string>,
    firmName: Option<string>,
    resourceSlug: Option<string>,
    resourceName: Option<string>)

  const Home := Crumb("Home", "/")

  /** The section crumb that follows Home for each page type. */
  function Section(t: LinkType): Crumb {
    match t
    case Directory | Firm => Crumb("Find Lawyers", "/find/")
    case Resource => Crumb("Resources", "/resources/")
    case _ => Crumb("Cases", "/cases/")
  }

  /** A crumb that may be shown: its optional display name and its URL. */
  datatype Candidate = Candidate(name: Option<string>, url: string)

  /** The optional crumbs of each page type, in trail order. */
  function Candidates(p: CrumbParams): (r: seq<Candidate>)
    ensures 1 <= |r| <= 3
  {
    var caseCrumb := Candidate(p.caseName, "/cases/" + Text(p.caseSlug) + "/");
    match p.pageType
    case Pillar => [caseCrumb]
    case Injury => [caseCrumb, Candidate(p.injuryName, "/cases/" + Text(p.caseSlug) + "/" + Text(p.injurySlug) + "/")]
    case State => [caseCrumb, Candidate(p.stateName, "/state/" + Text(p.state) + "/" + Text(p.caseSlug) + "-lawsuit/")]
    case City =>
      [ Candidate(p.stateName, "/state/" + Text(p.state) + "/"),
        Candidate(p.cityName, "/state/" + Text(p.state) + "/" + Text(p.city) + "/") ]
    case Directory =>
      [ Candidate(p.caseName, "/find/" + Text(p.caseSlug) + "/"),
        Candidate(p.stateName, "/find/" + Text(p.caseSlug) + "/" + Text(p.state) + "/"),
        Candidate(p.cityName, "/find/" + Text(p.caseSlug) + "/" + Text(p.state) + "/" + Text(p.city) + "/") ]
    case Firm => [Candidate(p.firmName, "/firm/" + Text(p.firmSlug) + "/")]
    case Resource => [Candidate(p.resourceName, "/resources/" + Text(p.resourceSlug) + "/")]
  }

  /** The candidates whose display name is truthy, as crumbs, in order. */
  function Shown(cs: seq<Candidate>): (r: seq<Crumb>)
    ensures |r| <= |cs|
    ensures forall i :: 0 <= i < |r| ==> r[i].name != ""
  {
    if |cs| == 0 then []
    else if OptTruthy(cs[0].name) then [Crumb(cs[0].name.value, cs[0].url)] + Shown(cs[1..])
    else Shown(cs[1..])
  }

  /** The crumb one candidate contributes: none when its name is falsy. */
  function ShownOne(c: Candidate): seq<Crumb> {
    if OptTruthy(c.name) then [Crumb(c.name.value, c.url)] else []
  }

  /** `Shown` on the short candidate lists of the page types, written out. */
  lemma ShownUpToThree(cs: seq<Candidate>)
    requires 1 <= |cs| <= 3
    ensures |cs| == 1 ==> Shown(cs) == ShownOne(cs[0])
    ensures |cs| == 2 ==> Shown(cs) == ShownOne(cs[0]) + ShownOne(cs[1])
    ensures |cs| == 3 ==> Shown(cs) == ShownOne(cs[0]) + ShownOne(cs[1]) + ShownOne(cs[2])
  {
    ShownStep(cs);
    if |cs| == 1 {
      assert Shown(cs[1..]) == [];
      assert ShownOne(cs[0]) + [] == ShownOne(cs[0]);
    } else {
      ShownStep(cs[1..]);
      assert cs[1..][0] == cs[1] && cs[1..][1..] == cs[2..];
      if |cs| == 2 {
        assert Shown(cs[2..]) == [];
        assert ShownOne(cs[1]) + [] == ShownOne(cs[1]);
      } else {
        ShownStep(cs[2..]);
        assert cs[2..][0] == cs[2] && cs[2..][1..] == cs[3..];
        assert Shown(cs[3..]) == [];
        assert ShownOne(cs[2]) + [] == ShownOne(cs[2]);
      }
    }
  }

  lemma ShownStep(cs: seq<Candidate>)
    requires |cs| > 0
    ensures Shown(cs) == ShownOne(cs[0]) + Shown(cs[1..])
  {
  }

  /** With no display name given, the trail is Home and the section crumb only. */
  lemma {:induction false} NoNamesNoCrumbs(cs: seq<Candidate>)
    requires forall i :: 0 <= i < |cs| ==> !OptTruthy(cs[i].name)
    ensures Shown(cs) == []
  {
    if |cs| > 0 {
      NoNamesNoCrumbs(cs[1..]);
    }
  }

  /**
   * `buildBreadcrumbs`: Home, the section crumb of the page type, then each
   * optional crumb of that page type whose display name is truthy.
   */
  method BuildBreadcrumbs(p: CrumbParams) returns (crumbs: seq<Crumb>)
    ensures crumbs == [Home, Section(p.pageType)] + Shown(Candidates(p))
  {
    ShownUpToThree(Candidates(p));
    crumbs := [Crumb("Home", "/")];
    match p.pageType {
      case Pillar =>
        crumbs := crumbs + [Crumb("Cases", "/cases/")];
        if OptTruthy(p.caseName) { crumbs := crumbs + [Crumb(p.caseName.value, "/cases/" + Text(p.caseSlug) + "/")]; }
      case Injury =>
        crumbs := crumbs + [Crumb("Cases", "/cases/")];
        if OptTruthy(p.caseName) { crumbs := crumbs + [Crumb(p.caseName.value, "/cases/" + Text(p.caseSlug) + "/")]; }
        if OptTruthy(p.injuryName) {
          crumbs := crumbs + [Crumb(p.injuryName.value, "/cases/" + Text(p.caseSlug) + "/" + Text(p.injurySlug) + "/")];
        }
      case State =>
        crumbs := crumbs + [Crumb("Cases", "/cases/")];
        if OptTruthy(p.caseName) { crumbs := crumbs + [Crumb(p.caseName.value, "/cases/" + Text(p.caseSlug) + "/")]; }
        if OptTruthy(p.stateName) {
          crumbs := crumbs + [Crumb(p.stateName.value, "/state/" + Text(p.state) + "/" + Text(p.caseSlug) + "-lawsuit/")];
        }
      case City =>
        crumbs := crumbs + [Crumb("Cases", "/cases/")];
        if OptTruthy(p.stateName) { crumbs := crumbs + [Crumb(p.stateName.value, "/state/" + Text(p.state) + "/")]; }
        if OptTruthy(p.cityName) {
          crumbs := crumbs + [Crumb(p.cityName.value, "/state/" + Text(p.state) + "/" + Text(p.city) + "/")];
        }
      case Directory =>
        crumbs := crumbs + [Crumb("Find Lawyers", "/find/")];
        if OptTruthy(p.caseName) { crumbs := crumbs + [Crumb(p.caseName.value, "/find/" + Text(p.caseSlug) + "/")]; }
        if OptTruthy(p.stateName) {
          crumbs := crumbs + [Crumb(p.stateName.value, "/find/" + Text(p.caseSlug) + "/" + Text(p.state) + "/")];
        }
        if OptTruthy(p.cityName) {
          crumbs := crumbs + [Crumb(p.cityName.value,
                                    "/find/" + Text(p.caseSlug) + "/" + Text(p.state) + "/" + Text(p.city) + "/")];
        }
      case Firm =>
        crumbs := crumbs + [Crumb("Find Lawyers", "/find/")];
        if OptTruthy(p.firmName) { crumbs := crumbs + [Crumb(p.firmName.value, "/firm/" + Text(p.firmSlug) + "/")]; }
      case Resource =>
        crumbs := crumbs + [Crumb("Resources", "/resources/")];
        if OptTruthy(p.resourceName) {
          crumbs := crumbs + [Crumb(p.resourceName.value, "/resources/" + Text(p.resourceSlug) + "/")];
        }
    }
  }

  /**
   * Every trail starts at Home, has between two and five crumbs, and every
   * crumb has a non-empty name.
   */
  lemma BreadcrumbShape(p: CrumbParams)
    ensures var t := [Home, Section(p.pageType)] + Shown(Candidates(p));
      && 2 <= |t| <= 5 && t[0] == Crumb("Home", "/")
      && forall i :: 0 <= i < |t| ==> t[i].name != ""
  {
  }

  /** A directory trail for a case, state and city that are all named has five crumbs, ending at the city listing. */
  lemma FullDirectoryTrail(p: CrumbParams)
    requires p.pageType == Directory
    requires OptTruthy(p.caseName) && OptTruthy(p.stateName) && OptTruthy(p.cityName)
    ensures var t := [Home, Section(p.pageType)] + Shown(Candidates(p));
      |t| == 5 && t[4].url == "/find/" + Text(p.caseSlug) + "/" + Text(p.state) + "/" + Text(p.city) + "/"
  {
    var cs := Candidates(p);
    assert Shown(cs[2..]) == [Crumb(p.cityName.value, cs[2].url)];
    assert Shown(cs[1..]) == [Crumb(p.stateName.value, cs[1].url)] + Shown(cs[2..]);
  }

  // ---------------------------------------------------------------------
  // Anchor text and link counts
  // ---------------------------------------------------------------------

  datatype Variation = Exact | Partial | Branded | Generic

  function VariationText(v: Variation, keyword: string): string {
    match v
    case Exact => keyword
    case Partial => "Learn about " + keyword
    case Branded => keyword + " at People's Justice"
    case Generic => "Click here for more information"
  }

  /**
   * `optimizeAnchorText`: pillar and injury links use the keyword itself or
   * 'Learn about …'; directory links 'Find … Lawyers' or 'Compare …
   * Attorneys'; any other link the chosen variation. The variation defaults
   * to exact.
   */
  function OptimizeAnchorText(linkType: LinkType, keyword: string, variation: Option<Variation>): (r: string)
    ensures var v := if variation.Some? then variation.value else Exact;
      && ((linkType == Pillar || linkType == Injury) ==>
            r == (if v == Exact then keyword else "Learn about " + keyword))
      && (linkType == Directory ==>
            r == (if v == Exact then "Find " + keyword + " Lawyers" else "Compare " + keyword + " Attorneys"))
      && (linkType !in {Pillar, Injury, Directory} ==> r == VariationText(v, keyword))
  {
    var v := if variation.Some? then variation.value else Exact;
    if linkType == Pillar || linkType == Injury then
      if v == Exact then VariationText(Exact, keyword) else VariationText(Partial, keyword)
    else if linkType == Directory then
      if v == Exact then "Find " + keyword + " Lawyers" else "Compare " + keyword + " Attorneys"
    else
      var chosen := VariationText(v, keyword);
      if chosen != "" then chosen else VariationText(Exact, keyword)
  }

  /** Only an exact anchor can be empty, and only when the keyword is. */
  lemma AnchorEmptyOnlyForEmptyKeyword(linkType: LinkType, keyword: string, variation: Option<Variation>)
    ensures OptimizeAnchorText(linkType, keyword, variation) == "" ==> keyword == ""
  {
  }

  datatype LinkReport = LinkReport(count: nat, isCompliant: bool, recommendation: string)

  /** `validateInternalLinks`: compliant between 3 and 20 links; 'optimal' from 3 to 10. */
  function ValidateInternalLinks(links: seq<InternalLink>): (r: LinkReport)
    ensures r.count == |links|
    ensures r.isCompliant <==> 3 <= |links| <= 20
    ensures |links| < 3 ==> r.recommendation == "Add " + NatToString(3 - |links|) + " more internal links (recommend 3-10 per page)"
    ensures |links| > 20 ==> r.recommendation == "Remove " + NatToString(|links| - 10)
                                                 + " internal links (recommend 3-10 per page, max 20)"
    ensures 10 < |links| <= 20 ==> r.recommendation == "Link count acceptable but on high side (recommend 3-10)"
    ensures 3 <= |links| <= 10 ==> r.recommendation == "Internal linking optimal (3-10 links)"
  {
    var count := |links|;
    if count < 3 then
      LinkReport(count, false, "Add " + NatToString(3 - count) + " more internal links (recommend 3-10 per page)")
    else if count > 20 then
      LinkReport(count, false, "Remove " + NatToString(count - 10) + " internal links (recommend 3-10 per page, max 20)")
    else if count > 10 then
      LinkReport(count, true, "Link count acceptable but on high side (recommend 3-10)")
    else
      LinkReport(count, true, "Internal linking optimal (3-10 links)")
  }

  /** The link-count check and the compliance score's internal-link check accept the same counts. */
  lemma LinkCountAgreesWithScore(links: seq<InternalLink>, p: SeoMeta.SeoParams)
    requires p.internalLinksCount == |links|
    ensures ValidateInternalLinks(links).isCompliant <==> SeoMeta.InternalLinksCheck(p).severity == SeoMeta.Pass
  {
  }
}
