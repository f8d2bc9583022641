/**
 * `POST /api/intake/lead`: validate the submitted form, capture the client
 * IP from the proxy headers, resolve the brand by host and the case type
 * within that brand, short-circuit a repeat submission inside 24 hours with
 * an audit-only write, otherwise store one lead with its TCPA consent
 * snapshot and one "created" audit row. Any thrown error becomes a single
 * generic 500. `GET` is a health report.
 *
 * The clock is the integer `now` of the request (milliseconds), `new URL(…)`
 * is the oracle `parseUrl` (None when the URL is malformed), and the failure
 * of each database insert is an input flag.
 */
module LeadIntake {
  import opened Common
  import opened LeadTables
  import opened LeadStore

  /** Request headers, keyed by lower-case name. */
  type Headers = map<string, string>

  function Header(h: Headers, name: string): (r: Option<string>)
    ensures r.Some? <==> name in h
    ensures r.Some? ==> r.value == h[name]
  {
    if name in h then Some(h[name]) else None
  }

  datatype Consent = Consent(
    checked: bool,
    text: Option<string>,
    consentMethod: Option<string>,
    privacyPolicyUrl: Option<string>,
    termsOfServiceUrl: Option<string>,
    checkboxPosition: Option<string>)

  datatype PageContextInput = PageContextInput(
    pillarSlug: Option<string>,
    injurySlug: Option<string>,
    stateSlug: Option<string>,
    citySlug: Option<string>,
    pageType: Option<string>,
    pageTitle: Option<string>,
    scrollDepth: Option<int>,
    timeOnPage: Option<int>,
    clicksBeforeSubmit: Option<int>)

  /** The JSON body of the form submission; every field may be missing. */
  datatype Body = Body(
    contact: Option<Contact>,
    consent: Option<Consent>,
    caseSlug: Option<string>,
    locale: Option<string>,
    formVersion: Option<string>,
    formProvider: Option<string>,
    source: Option<string>,
    pageUrl: Option<string>,
    pagePath: Option<string>,
    landingPage: Option<string>,
    sessionId: Option<string>,
    qualifiers: Option<Json>,
    utm: Option<Json>,
    fingerprint: Option<Json>,
    pageContext: Option<PageContextInput>)

  /** `request.json()` either fails, yields `null` (whose property access throws) or yields a body. */
  datatype BodyParse = Malformed | NullBody | Parsed(body: Body)

  datatype Request = Request(body: BodyParse, headers: Headers, now: int)

  /** Which database inserts fail on this request. */
  datatype Faults = Faults(leadInsertFails: bool, auditInsertFails: bool)

  datatype ResponseBody = Received(leadId: nat, message: string) | Failure(error: string)

  datatype Response = Response(status: int, body: ResponseBody)

  const MsgMissingContact := "Phone and email are required"
  const MsgNoConsent := "TCPA consent is required"
  const MsgInvalidDomain := "Invalid domain"
  const MsgServerError := "An error occurred while processing your request. Please try again."
  const MsgDuplicate := "Your information has been received."
  const MsgCreated := "Thank you! An attorney will contact you within 24 hours."

  const ServerError := Response(500, Failure(MsgServerError))

  function BadRequest(msg: string): Response {
    Response(400, Failure(msg))
  }

  /** Phone and email are both present and non-empty. */
  predicate HasContact(b: Body) {
    b.contact.Some? && OptTruthy(b.contact.value.phone) && OptTruthy(b.contact.value.email)
  }

  predicate HasConsent(b: Body) {
    b.consent.Some? && b.consent.value.checked
  }

  /** The trimmed first comma-separated entry of `x-forwarded-for`, when that header is present. */
  function ForwardedFor(h: Headers): Option<string> {
    if "x-forwarded-for" in h then Some(Trim(BeforeFirst(h["x-forwarded-for"], ','))) else None
  }

  /**
   * The client IP, from the headers alone: the first `x-forwarded-for` entry,
   * else `x-real-ip`, else `cf-connecting-ip`, each skipped when empty; else null.
   */
  function ClientIp(h: Headers): (r: Option<string>)
    ensures r.Some? ==> r.value != ""
    ensures OptTruthy(ForwardedFor(h)) ==> r == ForwardedFor(h)
    ensures !OptTruthy(ForwardedFor(h)) && OptTruthy(Header(h, "x-real-ip")) ==> r == Header(h, "x-real-ip")
    ensures (!OptTruthy(ForwardedFor(h)) && !OptTruthy(Header(h, "x-real-ip"))
             && OptTruthy(Header(h, "cf-connecting-ip"))) ==> r == Header(h, "cf-connecting-ip")
    ensures r.None? <==> !OptTruthy(ForwardedFor(h)) && !OptTruthy(Header(h, "x-real-ip"))
                         && !OptTruthy(Header(h, "cf-connecting-ip"))
  {
    var ip := OrElseOpt(ForwardedFor(h), OrElseOpt(Header(h, "x-real-ip"), Header(h, "cf-connecting-ip")));
    if OptTruthy(ip) then ip else None
  }

  /** With a proxy chain `first, rest`, the client IP is the trimmed first hop. */
  lemma ForwardedForFirstHop(h: Headers, first: string, rest: string)
    requires "x-forwarded-for" in h && h["x-forwarded-for"] == first + "," + rest
    requires ',' !in first && Trim(first) != ""
    ensures ClientIp(h) == Some(Trim(first))
  {
    assert first + "," + rest == first + [','] + rest;
    BeforeFirstOfSplit(first, ',', rest);
  }

  /** The host header as sent (port kept), or 'peoplesjustice.com' when missing or empty. */
  function RequestHost(h: Headers): (r: string)
    ensures OptTruthy(Header(h, "host")) ==> r == h["host"]
    ensures !OptTruthy(Header(h, "host")) ==> r == "peoplesjustice.com"
  {
    OrElse(Header(h, "host"), "peoplesjustice.com")
  }

  /** `.eq('domain', host).eq('active', true).single()` on brands. */
  function ResolveBrand(brands: seq<Brand>, host: string): (r: Lookup<Brand>)
    ensures r.One? ==> r.row in brands && r.row.domain == host && r.row.active == Some(true)
    ensures r.One? <==> |Filter(brands, b => IsActiveBrandFor(b, host))| == 1
  {
    Single(Filter(brands, b => IsActiveBrandFor(b, host)))
  }

  /**
   * The case type id the route works with: looked up only when `caseSlug` is
   * given, kept only when exactly one active case type of the brand has that
   * slug, and dropped (`|| null`) when that id is 0. The filter is on
   * `status = 'active'`; see `ResolveCaseTypeIdAsWritten` for the column the
   * route actually names.
   */
  function ResolveCaseTypeId(caseTypes: seq<CaseType>, brandId: nat, caseSlug: Option<string>): (r: Option<nat>)
    ensures r.Some? ==> OptTruthy(caseSlug) && r.value > 0
    ensures r.Some? ==> exists c :: c in caseTypes && c.id == r.value && IsActiveCaseTypeOf(c, brandId, caseSlug.value)
    ensures !OptTruthy(caseSlug) ==> r.None?
  {
    if !OptTruthy(caseSlug) then None
    else
      match Single(Filter(caseTypes, c => IsActiveCaseTypeOf(c, brandId, caseSlug.value)))
      case One(c) => if c.id != 0 then Some(c.id) else None
      case _ => None
  }

  /**
   * When exactly one active case type matches, the route's lookup and the
   * database helper `getCaseTypeBySlug` agree on it.
   */
  lemma ResolveCaseTypeAgreesWithHelper(caseTypes: seq<CaseType>, brandId: nat, slug: string)
    requires slug != ""
    requires |Filter(caseTypes, c => IsActiveCaseTypeOf(c, brandId, slug))| == 1
    ensures GetCaseTypeBySlug(caseTypes, brandId, slug).Some?
    ensures var c := GetCaseTypeBySlug(caseTypes, brandId, slug).value;
      ResolveCaseTypeId(caseTypes, brandId, Some(slug)) == if c.id == 0 then None else Some(c.id)
  {
  }

  /**
   * The duplicate check: only with a case type, and only when exactly one
   * lead with the same phone and case type was created at or after
   * `now - 24h` (`.gte(…).single()`); the result is that lead's id.
   */
  function FindDuplicate(leads: seq<Lead>, phone: string, caseTypeId: Option<nat>, now: int): (r: Option<nat>)
    ensures r.Some? ==> caseTypeId.Some?
    ensures r.Some? ==> exists l :: l in leads && l.id == r.value && MatchesSince(l, phone, caseTypeId.value, now - 24 * HourMs)
    ensures caseTypeId.Some? ==>
      (r.Some? <==> |Filter(leads, l => MatchesSince(l, phone, caseTypeId.value, now - 24 * HourMs))| == 1)
  {
    if caseTypeId.None? then None
    else
      var matches := Filter(leads, l => MatchesSince(l, phone, caseTypeId.value, now - 24 * HourMs));
      match Single(matches)
      case One(l) => assert matches[0] in matches; Some(l.id)
      case _ => None
  }

  /**
   * `.single()` fails when two or more earlier leads match, so such a
   * submission is not treated as a duplicate and a new lead is stored.
   */
  lemma SeveralEarlierMatchesAreNoDuplicate(leads: seq<Lead>, phone: string, caseTypeId: nat, now: int, i: nat, j: nat)
    requires i < j < |leads|
    requires MatchesSince(leads[i], phone, caseTypeId, now - 24 * HourMs)
    requires MatchesSince(leads[j], phone, caseTypeId, now - 24 * HourMs)
    requires leads[i] != leads[j]
    ensures FindDuplicate(leads, phone, Some(caseTypeId), now).None?
  {
    var m := Filter(leads, l => MatchesSince(l, phone, caseTypeId, now - 24 * HourMs));
    assert leads[i] in m && leads[j] in m;
  }

  /** A lead added after leads of which none matches is found, when it matches. */
  lemma OnlyMatchIsDuplicate(leads: seq<Lead>, n: Lead, phone: string, caseTypeId: nat, now: int)
    requires forall l :: l in leads ==> !MatchesSince(l, phone, caseTypeId, now - 24 * HourMs)
    requires MatchesSince(n, phone, caseTypeId, now - 24 * HourMs)
    ensures FindDuplicate(leads + [n], phone, Some(caseTypeId), now) == Some(n.id)
  {
    FilterOnlyLast(leads, n, l => MatchesSince(l, phone, caseTypeId, now - 24 * HourMs));
  }

  /** The origin header as a template literal prints it: the text 'null' when missing. */
  function OriginText(h: Headers): string {
    if "origin" in h then h["origin"] else "null"
  }

  /** The TCPA consent snapshot, with every default of the route. */
  function BuildConsentSnapshot(b: Body, c: Consent, h: Headers, ip: Option<string>, now: int): (r: ConsentSnapshot)
    ensures r.timestamp == now && r.ipAddress == ip && r.userAgent == Header(h, "user-agent")
    ensures r.checkboxChecked == c.checked
    ensures OptTruthy(c.text) ==> r.text == c.text.value
    ensures !OptTruthy(c.text) ==> r.text == "Consent text not provided"
    ensures !OptTruthy(b.locale) ==> r.locale == "en" && r.consentLanguage == "en"
    ensures OptTruthy(b.locale) ==> r.locale == b.locale.value && r.consentLanguage == b.locale.value
    ensures OptTruthy(b.formVersion) ==> r.formVersion == b.formVersion.value
    ensures !OptTruthy(b.formVersion) ==> r.formVersion == "1.0.0"
    ensures OptTruthy(b.formProvider) ==> r.provider == b.formProvider.value
    ensures !OptTruthy(b.formProvider) ==> r.provider == "native"
    ensures OptTruthy(c.consentMethod) ==> r.consentMethod == c.consentMethod.value
    ensures !OptTruthy(c.consentMethod) ==> r.consentMethod == "checkbox"
    ensures OptTruthy(c.checkboxPosition) ==> r.checkboxPosition == c.checkboxPosition.value
    ensures !OptTruthy(c.checkboxPosition) ==> r.checkboxPosition == "above_submit"
    ensures OptTruthy(b.pageUrl) ==> r.url == b.pageUrl.value
    ensures !OptTruthy(b.pageUrl) && OptTruthy(Header(h, "referer")) ==> r.url == h["referer"]
    ensures !OptTruthy(b.pageUrl) && !OptTruthy(Header(h, "referer")) ==> r.url == ""
    ensures OptTruthy(c.privacyPolicyUrl) ==> r.privacyPolicyUrl == c.privacyPolicyUrl.value
    ensures !OptTruthy(c.privacyPolicyUrl) ==> r.privacyPolicyUrl == OriginText(h) + "/privacy"
    ensures OptTruthy(c.termsOfServiceUrl) ==> r.termsOfServiceUrl == c.termsOfServiceUrl.value
    ensures !OptTruthy(c.termsOfServiceUrl) ==> r.termsOfServiceUrl == OriginText(h) + "/terms"
  {
    ConsentSnapshot(
      OrElse(c.text, "Consent text not provided"),
      now,
      ip,
      Header(h, "user-agent"),
      OrElse(b.locale, "en"),
      OrElse(b.formVersion, "1.0.0"),
      OrElse(b.formProvider, "native"),
      c.checked,
      OrElse(OrElseOpt(b.pageUrl, Header(h, "referer")), ""),
      OrElse(c.consentMethod, "checkbox"),
      OrElse(c.privacyPolicyUrl, OriginText(h) + "/privacy"),
      OrElse(c.termsOfServiceUrl, OriginText(h) + "/terms"),
      OrElse(c.checkboxPosition, "above_submit"),
      OrElse(b.locale, "en"))
  }

  /** The page-context fields of the body, all missing when `pageContext` is absent. */
  function PageInput(b: Body): PageContextInput {
    if b.pageContext.Some? then b.pageContext.value
    else PageContextInput(None, None, None, None, None, None, None, None, None)
  }

  /**
   * The page path: `pagePath` when given, else the path of the page URL, the
   * referer or 'https://example.com', whichever is first non-empty; None when
   * that URL does not parse (the route then throws).
   */
  function PagePath(b: Body, h: Headers, parseUrl: string -> Option<string>): (r: Option<string>)
    ensures OptTruthy(b.pagePath) ==> r == b.pagePath
    ensures !OptTruthy(b.pagePath) ==> r == parseUrl(OrElse(OrElseOpt(b.pageUrl, Header(h, "referer")), "https://example.com"))
  {
    if OptTruthy(b.pagePath) then b.pagePath
    else parseUrl(OrElse(OrElseOpt(b.pageUrl, Header(h, "referer")), "https://example.com"))
  }

  /** The page context the route stores; `path` is the one `PagePath` gave. */
  function BuildPageContext(b: Body, h: Headers, path: string): (r: PageContext)
    ensures OptTruthy(b.pageUrl) ==> r.url == b.pageUrl.value
    ensures !OptTruthy(b.pageUrl) && OptTruthy(Header(h, "referer")) ==> r.url == h["referer"]
    ensures !OptTruthy(b.pageUrl) && !OptTruthy(Header(h, "referer")) ==> r.url == ""
    ensures r.path == path
    ensures OptTruthy(PageInput(b).pillarSlug) ==> r.pillarSlug == PageInput(b).pillarSlug
    ensures !OptTruthy(PageInput(b).pillarSlug) && OptTruthy(b.caseSlug) ==> r.pillarSlug == b.caseSlug
    ensures !OptTruthy(PageInput(b).pillarSlug) && !OptTruthy(b.caseSlug) ==> r.pillarSlug.None?
    ensures OptTruthy(PageInput(b).injurySlug) ==> r.injurySlug == PageInput(b).injurySlug
    ensures !OptTruthy(PageInput(b).injurySlug) ==> r.injurySlug.None?
    ensures OptTruthy(PageInput(b).stateSlug) ==> r.stateSlug == PageInput(b).stateSlug
    ensures !OptTruthy(PageInput(b).stateSlug) ==> r.stateSlug.None?
    ensures OptTruthy(PageInput(b).citySlug) ==> r.citySlug == PageInput(b).citySlug
    ensures !OptTruthy(PageInput(b).citySlug) ==> r.citySlug.None?
    ensures OptTruthy(PageInput(b).pageType) ==> r.pageType == PageInput(b).pageType.value
    ensures !OptTruthy(PageInput(b).pageType) ==> r.pageType == "T1"
    ensures OptTruthy(PageInput(b).pageTitle) ==> r.pageTitle == PageInput(b).pageTitle.value
    ensures !OptTruthy(PageInput(b).pageTitle) ==> r.pageTitle == ""
    ensures NumTruthy(PageInput(b).scrollDepth) ==> r.scrollDepth == PageInput(b).scrollDepth.value
    ensures !NumTruthy(PageInput(b).scrollDepth) ==> r.scrollDepth == 0
    ensures NumTruthy(PageInput(b).timeOnPage) ==> r.timeOnPage == PageInput(b).timeOnPage.value
    ensures !NumTruthy(PageInput(b).timeOnPage) ==> r.timeOnPage == 0
    ensures NumTruthy(PageInput(b).clicksBeforeSubmit) ==> r.clicksBeforeSubmit == PageInput(b).clicksBeforeSubmit.value
    ensures !NumTruthy(PageInput(b).clicksBeforeSubmit) ==> r.clicksBeforeSubmit == 0
    ensures OptTruthy(b.formProvider) ==> r.formProvider == b.formProvider.value
    ensures !OptTruthy(b.formProvider) ==> r.formProvider == "native"
    ensures OptTruthy(b.formVersion) ==> r.formVersion == b.formVersion.value
    ensures !OptTruthy(b.formVersion) ==> r.formVersion == "1.0.0"
  {
    var p := PageInput(b);
    PageContext(
      OrElse(OrElseOpt(b.pageUrl, Header(h, "referer")), ""),
      path,
      OrElseOpt(p.pillarSlug, OrElseOpt(b.caseSlug, None)),
      OrElseOpt(p.injurySlug, None),
      OrElseOpt(p.stateSlug, None),
      OrElseOpt(p.citySlug, None),
      OrElse(p.pageType, "T1"),
      OrElse(p.pageTitle, ""),
      OrElseInt(p.scrollDepth, 0),
      OrElseInt(p.timeOnPage, 0),
      OrElseInt(p.clicksBeforeSubmit, 0),
      OrElse(b.formProvider, "native"),
      OrElse(b.formVersion, "1.0.0"))
  }

  /** The lead row the route inserts. */
  function BuildLeadDraft(b: Body, contact: Contact, h: Headers, brandId: nat, caseTypeId: Option<nat>,
                          snapshot: ConsentSnapshot, page: PageContext): (r: LeadDraft)
    ensures r.brandId == brandId && r.caseTypeId == caseTypeId
    ensures r.phone == contact.phone && r.email == contact.email
    ensures r.status == Some("new")
    ensures r.consentSnapshot == snapshot && r.pageContext == Some(page)
    ensures r.injuryId.None? && r.geoId.None?
    ensures r.userAgent == Header(h, "user-agent")
    ensures r.source == Some(OrElse(b.source, "web_form"))
    ensures r.payload.Some? && r.payload.value.contact == contact
  {
    LeadDraft(
      brandId,
      Some(OrElse(b.source, "web_form")),
      caseTypeId,
      None,
      None,
      Some(OrEmptyObject(b.qualifiers)),
      Some(Payload(contact, OrEmptyObject(b.utm), Header(h, "referer"),
                   OrElseOpt(b.landingPage, b.pageUrl), OrElseOpt(b.sessionId, None))),
      contact.phone,
      contact.email,
      OrElseOpt(contact.firstName, None),
      OrElseOpt(contact.lastName, None),
      OrElseOpt(contact.zipCode, None),
      snapshot,
      Header(h, "user-agent"),
      Some(OrEmptyObject(b.fingerprint)),
      Some(page),
      OrElseOpt(b.sessionId, None),
      Some("new"),
      Some(OrElse(b.formProvider, "native")),
      Some(OrElse(b.formVersion, "1.0.0")))
  }

  /** The audit row for a repeat submission, referring to the earlier lead. */
  function DuplicateAudit(leadId: nat, now: int): (r: AuditDraft)
    ensures r.leadId == leadId && r.eventType == "duplicate_submission" && r.actor == Some("system")
    ensures r.metadata.Some? && r.metadata.value.JObj? && r.metadata.value.fields.Keys == {"original_lead_id", "duplicate_attempt_at"}
    ensures r.metadata.value.fields["original_lead_id"] == JNum(leadId)
  {
    AuditDraft(leadId, "duplicate_submission", Some("system"),
               Some(JObj(map["original_lead_id" := JNum(leadId), "duplicate_attempt_at" := JNum(now)])), None)
  }

  /** The audit row for a newly stored lead. */
  function CreatedAudit(leadId: nat, brandId: nat, caseTypeId: Option<nat>): (r: AuditDraft)
    ensures r.leadId == leadId && r.eventType == "created" && r.actor == Some("system")
    ensures r.metadata.Some? && r.metadata.value.JObj? && r.metadata.value.fields.Keys == {"source", "brand_id", "case_type_id"}
    ensures r.metadata.value.fields["brand_id"] == JNum(brandId)
    ensures r.metadata.value.fields["case_type_id"] == if caseTypeId.Some? then JNum(caseTypeId.value) else JNull
  {
    AuditDraft(leadId, "created", Some("system"),
               Some(JObj(map[
                 "source" := JStr("web_form"),
                 "brand_id" := JNum(brandId),
                 "case_type_id" := if caseTypeId.Some? then JNum(caseTypeId.value) else JNull])),
               None)
  }

  /** The body parsed, carries phone, email and consent, and the host names exactly one active brand. */
  predicate Admitted(brands: seq<Brand>, req: Request) {
    req.body.Parsed? && HasContact(req.body.body) && HasConsent(req.body.body)
    && ResolveBrand(brands, RequestHost(req.headers)).One?
  }

  /** The lead that an admitted request repeats, if any, under the corrected case-type lookup. */
  function Recent(brands: seq<Brand>, caseTypes: seq<CaseType>, leads: seq<Lead>, req: Request): Option<nat>
    requires Admitted(brands, req)
  {
    var b := req.body.body;
    var brand := ResolveBrand(brands, RequestHost(req.headers)).row;
    FindDuplicate(leads, b.contact.value.phone.value, ResolveCaseTypeId(caseTypes, brand.id, b.caseSlug), req.now)
  }

  /** The lead row built for an admitted request whose page path is `path`. */
  function NewLead(brands: seq<Brand>, caseTypes: seq<CaseType>, req: Request, path: string): LeadDraft
    requires Admitted(brands, req)
  {
    var b := req.body.body;
    var brand := ResolveBrand(brands, RequestHost(req.headers)).row;
    var snapshot := BuildConsentSnapshot(b, b.consent.value, req.headers, ClientIp(req.headers), req.now);
    BuildLeadDraft(b, b.contact.value, req.headers, brand.id, ResolveCaseTypeId(caseTypes, brand.id, b.caseSlug),
                   snapshot, BuildPageContext(b, req.headers, path))
  }

  /** What a submission leads to, before any insert is attempted. */
  datatype Decision = Reject(response: Response) | Duplicate(leadId: nat) | Create(draft: LeadDraft)

  /**
   * The route's decision on a request against the current tables, in the
   * order the route checks: parse, contact, consent, brand, duplicate, URL.
   */
  function Decide(brands: seq<Brand>, caseTypes: seq<CaseType>, leads: seq<Lead>, req: Request,
                  parseUrl: string -> Option<string>): (r: Decision)
    ensures !req.body.Parsed? ==> r == Reject(ServerError)
    ensures req.body.Parsed? && !HasContact(req.body.body) ==> r == Reject(BadRequest(MsgMissingContact))
    ensures req.body.Parsed? && HasContact(req.body.body) && !HasConsent(req.body.body)
            ==> r == Reject(BadRequest(MsgNoConsent))
    ensures req.body.Parsed? && HasContact(req.body.body) && HasConsent(req.body.body)
            && !ResolveBrand(brands, RequestHost(req.headers)).One?
            ==> r == Reject(BadRequest(MsgInvalidDomain))
    ensures Admitted(brands, req) && Recent(brands, caseTypes, leads, req).Some?
            ==> r == Duplicate(Recent(brands, caseTypes, leads, req).value)
    ensures Admitted(brands, req) && Recent(brands, caseTypes, leads, req).None?
            && PagePath(req.body.body, req.headers, parseUrl).None?
            ==> r == Reject(ServerError)
    ensures Admitted(brands, req) && Recent(brands, caseTypes, leads, req).None?
            && PagePath(req.body.body, req.headers, parseUrl).Some?
            ==> r == Create(NewLead(brands, caseTypes, req, PagePath(req.body.body, req.headers, parseUrl).value))
    ensures r.Reject? ==> r.response.status in {400, 500}
    ensures !r.Reject? ==> Admitted(brands, req)
  {
    match req.body
    case Malformed => Reject(ServerError)
    case NullBody => Reject(ServerError)
    case Parsed(b) =>
      if !HasContact(b) then Reject(BadRequest(MsgMissingContact))
      else if !HasConsent(b) then Reject(BadRequest(MsgNoConsent))
      else
        var ip := ClientIp(req.headers);
        match ResolveBrand(brands, RequestHost(req.headers))
        case One(brand) =>
          var caseTypeId := ResolveCaseTypeId(caseTypes, brand.id, b.caseSlug);
          var duplicate := FindDuplicate(leads, b.contact.value.phone.value, caseTypeId, req.now);
          if duplicate.Some? then Duplicate(duplicate.value)
          else
            var path := PagePath(b, req.headers, parseUrl);
            if path.None? then Reject(ServerError)
            else
              var snapshot := BuildConsentSnapshot(b, b.consent.value, req.headers, ip, req.now);
              Create(BuildLeadDraft(b, b.contact.value, req.headers, brand.id, caseTypeId, snapshot,
                                    BuildPageContext(b, req.headers, path.value)))
        case _ => Reject(BadRequest(MsgInvalidDomain))
  }

  /**
   * A lead the route stores carries consent, the body's phone and email, the
   * resolved brand and case type, status 'new', and an IP taken from the
   * headers only.
   */
  lemma CreatedLeadFields(brands: seq<Brand>, caseTypes: seq<CaseType>, leads: seq<Lead>, req: Request,
                          parseUrl: string -> Option<string>)
    requires Decide(brands, caseTypes, leads, req, parseUrl).Create?
    ensures var d := Decide(brands, caseTypes, leads, req, parseUrl).draft;
      var b := req.body.body;
      var brand := ResolveBrand(brands, RequestHost(req.headers)).row;
      && HasConsent(b) && d.consentSnapshot.checkboxChecked
      && d.phone == b.contact.value.phone && d.email == b.contact.value.email
      && OptTruthy(d.phone) && OptTruthy(d.email)
      && d.status == Some("new")
      && d.brandId == brand.id
      && d.caseTypeId == ResolveCaseTypeId(caseTypes, brand.id, b.caseSlug)
      && d.consentSnapshot.ipAddress == ClientIp(req.headers)
      && d.consentSnapshot.timestamp == req.now
      && FindDuplicate(leads, b.contact.value.phone.value, d.caseTypeId, req.now).None?
  {
  }

  /**
   * A repeat submission names an earlier lead of the same phone and case
   * type from the last 24 hours; it requires a case slug that resolved.
   */
  lemma DuplicateNamesRecentLead(brands: seq<Brand>, caseTypes: seq<CaseType>, leads: seq<Lead>, req: Request,
                                 parseUrl: string -> Option<string>)
    requires Decide(brands, caseTypes, leads, req, parseUrl).Duplicate?
    ensures var id := Decide(brands, caseTypes, leads, req, parseUrl).leadId;
      var b := req.body.body;
      var brand := ResolveBrand(brands, RequestHost(req.headers)).row;
      var ct := ResolveCaseTypeId(caseTypes, brand.id, b.caseSlug);
      && OptTruthy(b.caseSlug) && ct.Some?
      && exists l :: l in leads && l.id == id && MatchesSince(l, b.contact.value.phone.value, ct.value, req.now - 24 * HourMs)
  {
  }

  /**
   * Two submissions of the same form: the second, made within 24 hours of
   * the first, finds the lead the first one stored (when no earlier lead
   * matched) and is answered as a repeat of it.
   */
  lemma RepeatWithinDayIsDuplicate(brands: seq<Brand>, caseTypes: seq<CaseType>, leads: seq<Lead>, req: Request,
                                   req2: Request, parseUrl: string -> Option<string>, id: nat, d: LeadDraft)
    requires Decide(brands, caseTypes, leads, req, parseUrl) == Create(d)
    requires d.caseTypeId.Some?
    requires forall l :: l in leads ==> !MatchesSince(l, d.phone.value, d.caseTypeId.value, req.now - 24 * HourMs)
    requires req2.body == req.body && req2.headers == req.headers
    requires req.now <= req2.now <= req.now + 24 * HourMs
    ensures Decide(brands, caseTypes, leads + [Lead(id, req.now, d)], req2, parseUrl) == Duplicate(id)
  {
    CreatedLeadFields(brands, caseTypes, leads, req, parseUrl);
    assert Admitted(brands, req2);
    var n := Lead(id, req.now, d);
    assert forall l :: l in leads ==> !MatchesSince(l, d.phone.value, d.caseTypeId.value, req2.now - 24 * HourMs);
    OnlyMatchIsDuplicate(leads, n, d.phone.value, d.caseTypeId.value, req2.now);
    assert Recent(brands, caseTypes, leads + [n], req2) == Some(id);
  }

  /**
   * Two submissions of the same form more than 24 hours apart: the lead the
   * first one stored is outside the window, and the second is stored as a
   * new lead (when no earlier lead matched).
   */
  lemma RepeatAfterDayIsNewLead(brands: seq<Brand>, caseTypes: seq<CaseType>, leads: seq<Lead>, req: Request,
                                req2: Request, parseUrl: string -> Option<string>, id: nat, d: LeadDraft)
    requires Decide(brands, caseTypes, leads, req, parseUrl) == Create(d)
    requires d.caseTypeId.Some? ==>
               forall l :: l in leads ==> !MatchesSince(l, d.phone.value, d.caseTypeId.value, req.now - 24 * HourMs)
    requires req2.body == req.body && req2.headers == req.headers
    requires req2.now > req.now + 24 * HourMs
    ensures d.caseTypeId.Some? ==> !MatchesSince(Lead(id, req.now, d), d.phone.value, d.caseTypeId.value, req2.now - 24 * HourMs)
    ensures Decide(brands, caseTypes, leads + [Lead(id, req.now, d)], req2, parseUrl).Create?
  {
    CreatedLeadFields(brands, caseTypes, leads, req, parseUrl);
    assert Admitted(brands, req2);
    var n := Lead(id, req.now, d);
    if d.caseTypeId.Some? {
      var p := l => MatchesSince(l, d.phone.value, d.caseTypeId.value, req2.now - 24 * HourMs);
      var m := Filter(leads + [n], p);
      assert forall l :: l in leads + [n] ==> !p(l);
    }
    assert Recent(brands, caseTypes, leads + [n], req2).None?;
  }

  /**
   * `POST`. Rejections leave the store unchanged; a repeat submission adds at
   * most one audit row and no lead; a new submission adds exactly one lead
   * and at most one audit row referring to it. A failed audit insert never
   * changes the response; a failed lead insert is the generic 500.
   */
  method Post(store: Store, req: Request, parseUrl: string -> Option<string>, faults: Faults) returns (resp: Response)
    requires store.Valid()
    modifies store
    ensures store.Valid()
    ensures store.brands == old(store.brands) && store.caseTypes == old(store.caseTypes)
    ensures old(store.leads) <= store.leads && old(store.auditLog) <= store.auditLog
    ensures resp.status in {200, 400, 500}
    ensures resp.status == 500 ==> resp == ServerError
    ensures var d := Decide(old(store.brands), old(store.caseTypes), old(store.leads), req, parseUrl);
      d.Reject? ==> resp == d.response && store.leads == old(store.leads) && store.auditLog == old(store.auditLog)
    ensures var d := Decide(old(store.brands), old(store.caseTypes), old(store.leads), req, parseUrl);
      d.Duplicate? ==>
        && resp == Response(200, Received(d.leadId, MsgDuplicate))
        && store.leads == old(store.leads)
        && (faults.auditInsertFails ==> store.auditLog == old(store.auditLog))
        && (!faults.auditInsertFails ==>
              |store.auditLog| == |old(store.auditLog)| + 1
              && store.auditLog[|old(store.auditLog)|].fields == DuplicateAudit(d.leadId, req.now))
    ensures var d := Decide(old(store.brands), old(store.caseTypes), old(store.leads), req, parseUrl);
      d.Create? && faults.leadInsertFails ==>
        resp == ServerError && store.leads == old(store.leads) && store.auditLog == old(store.auditLog)
    ensures var d := Decide(old(store.brands), old(store.caseTypes), old(store.leads), req, parseUrl);
      d.Create? && !faults.leadInsertFails ==>
        && |store.leads| == |old(store.leads)| + 1
        && var lead := store.leads[|old(store.leads)|];
        && lead.fields == d.draft && lead.createdAt == req.now
        && (forall l :: l in old(store.leads) ==> l.id != lead.id)
        && resp == Response(200, Received(lead.id, MsgCreated))
        && (faults.auditInsertFails ==> store.auditLog == old(store.auditLog))
        && (!faults.auditInsertFails ==>
              |store.auditLog| == |old(store.auditLog)| + 1
              && store.auditLog[|old(store.auditLog)|].fields
                 == CreatedAudit(lead.id, d.draft.brandId, d.draft.caseTypeId))
  {
    ghost var d := Decide(store.brands, store.caseTypes, store.leads, req, parseUrl);
    if !req.body.Parsed? {
      resp := ServerError;
      return;
    }
    var body := req.body.body;
    if !HasContact(body) {
      resp := BadRequest(MsgMissingContact);
      return;
    }
    if !HasConsent(body) {
      resp := BadRequest(MsgNoConsent);
      return;
    }
    var ip := ClientIp(req.headers);
    var host := RequestHost(req.headers);
    var brandLookup := ResolveBrand(store.brands, host);
    if !brandLookup.One? {
      resp := BadRequest(MsgInvalidDomain);
      return;
    }
    var brand := brandLookup.row;
    var caseTypeId := ResolveCaseTypeId(store.caseTypes, brand.id, body.caseSlug);
    var duplicate := FindDuplicate(store.leads, body.contact.value.phone.value, caseTypeId, req.now);
    if duplicate.Some? {
      assert d == Duplicate(duplicate.value);
      if !faults.auditInsertFails {
        var _ := store.AppendAudit(DuplicateAudit(duplicate.value, req.now), req.now);
      }
      resp := Response(200, Received(duplicate.value, MsgDuplicate));
      return;
    }
    var snapshot := BuildConsentSnapshot(body, body.consent.value, req.headers, ip, req.now);
    var path := PagePath(body, req.headers, parseUrl);
    if path.None? {
      assert d == Reject(ServerError);
      resp := ServerError;
      return;
    }
    var page := BuildPageContext(body, req.headers, path.value);
    var draft := BuildLeadDraft(body, body.contact.value, req.headers, brand.id, caseTypeId, snapshot, page);
    assert d == Create(draft);
    resp := InsertLeadAndAudit(store, draft, req.now, faults);
  }

  /**
   * The tail of `POST` for a new submission: the lead insert (whose failure is
   * the generic 500), then the 'created' audit insert, whose failure is ignored.
   */
  method InsertLeadAndAudit(store: Store, draft: LeadDraft, now: int, faults: Faults) returns (resp: Response)
    requires store.Valid()
    modifies store
    ensures store.Valid()
    ensures store.brands == old(store.brands) && store.caseTypes == old(store.caseTypes)
    ensures faults.leadInsertFails ==>
      resp == ServerError && store.leads == old(store.leads) && store.auditLog == old(store.auditLog)
    ensures !faults.leadInsertFails ==>
      && |store.leads| == |old(store.leads)| + 1
      && old(store.leads) <= store.leads
      && var lead := store.leads[|old(store.leads)|];
      && lead.fields == draft && lead.createdAt == now
      && (forall l :: l in old(store.leads) ==> l.id != lead.id)
      && resp == Response(200, Received(lead.id, MsgCreated))
      && (faults.auditInsertFails ==> store.auditLog == old(store.auditLog))
      && (!faults.auditInsertFails ==>
            |store.auditLog| == |old(store.auditLog)| + 1
            && old(store.auditLog) <= store.auditLog
            && store.auditLog[|old(store.auditLog)|].fields == CreatedAudit(lead.id, draft.brandId, draft.caseTypeId))
  {
    if faults.leadInsertFails {
      resp := ServerError;
      return;
    }
    var lead := store.AppendLead(draft, now);
    if !faults.auditInsertFails {
      var _ := store.AppendAudit(CreatedAudit(lead.id, draft.brandId, draft.caseTypeId), now);
    }
    resp := Response(200, Received(lead.id, MsgCreated));
  }

  datatype Health = Health(service: string, status: string, timestamp: int)

  /** `GET`: a fixed service name and status with the current time. */
  function GetHealth(now: int): (r: Health)
    ensures r.service == "lead-intake" && r.status == "ok" && r.timestamp == now
  {
    Health("lead-intake", "ok", now)
  }

  // ---------------------------------------------------------------------
  // The route as written, against the declared table shapes.
  // ---------------------------------------------------------------------

  /** The columns of `case_types`; there is no `active` column. */
  const CaseTypeColumns: set<string> :=
    {"brand_id", "category", "city_slug", "created_at", "id", "name", "pillar_slug", "slug",
     "state_slug", "status", "updated_at"}

  /** The columns of `lead_audit_log`, and those an insert must supply. */
  const AuditColumns: set<string> := {"actor", "created_at", "event_type", "id", "ip_address", "lead_id", "metadata"}
  const AuditRequired: set<string> := {"event_type", "lead_id"}

  /** The keys of the route's audit inserts as written. */
  const AuditKeysAsWritten: set<string> := {"brand_id", "lead_id", "action", "actor", "metadata"}

  /** The keys of the audit insert modelled by `DuplicateAudit` and `CreatedAudit`. */
  const AuditKeysCorrected: set<string> := {"lead_id", "event_type", "actor", "metadata"}

  /** An insert is accepted when every key is a column and every required column is given. */
  predicate InsertAccepted(columns: set<string>, required: set<string>, keys: set<string>) {
    keys <= columns && required <= keys
  }

  /** A filter on an equality column that the table lacks is a query error. */
  function SelectWithFilters<T>(columns: set<string>, filterColumns: set<string>, matches: seq<T>): (r: Lookup<T>)
    ensures !(filterColumns <= columns) ==> r == QueryError
    ensures filterColumns <= columns ==> r == Single(matches)
  {
    if filterColumns <= columns then Single(matches) else QueryError
  }

  /**
   * The case-type lookup as the route writes it, filtering on `brand_id`,
   * `slug` and `active`.
   */
  function ResolveCaseTypeIdAsWritten(caseTypes: seq<CaseType>, brandId: nat, caseSlug: Option<string>): (r: Option<nat>)
    ensures r.None?
  {
    assert "active" !in CaseTypeColumns;
    if !OptTruthy(caseSlug) then None
    else
      match SelectWithFilters(CaseTypeColumns, {"brand_id", "slug", "active"},
                              Filter(caseTypes, (c: CaseType) => c.brandId == brandId && c.slug == caseSlug.value))
      case One(c) => if c.id != 0 then Some(c.id) else None
      case _ => None
  }

  /** As written, the case-type lookup never yields an id, so the duplicate check never runs. */
  lemma CaseTypeLookupAsWrittenNeverResolves(caseTypes: seq<CaseType>, brandId: nat, caseSlug: Option<string>,
                                             leads: seq<Lead>, phone: string, now: int)
    ensures ResolveCaseTypeIdAsWritten(caseTypes, brandId, caseSlug).None?
    ensures FindDuplicate(leads, phone, ResolveCaseTypeIdAsWritten(caseTypes, brandId, caseSlug), now).None?
  {
    assert "active" !in CaseTypeColumns;
  }

  /** An active case type of brand 1 for the concrete repeat submission below. */
  const ExampleCaseType := CaseType(7, 1, "roundup", "Roundup", "massAction", None, None, None, Some("active"))

  /** A lead stored at time 0 for case type 7 with phone 5551234567. */
  const ExampleLead :=
    Lead(3, 0, LeadDraft(1, None, Some(7), None, None, None, None, Some("5551234567"), Some("a@b.c"),
                         None, None, None,
                         ConsentSnapshot("", 0, None, None, "en", "1.0.0", "native", true, "", "checkbox", "", "", "", "en"),
                         None, None, None, None, Some("new"), None, None))

  lemma ExampleCaseTypeResolves()
    ensures ResolveCaseTypeId([ExampleCaseType], 1, Some("roundup")) == Some(7)
  {
    assert Filter([ExampleCaseType], c => IsActiveCaseTypeOf(c, 1, "roundup")) == [ExampleCaseType];
  }

  lemma ExampleLeadIsDuplicate()
    ensures FindDuplicate([ExampleLead], "5551234567", Some(7), HourMs) == Some(3)
  {
    assert Filter([ExampleLead], l => MatchesSince(l, "5551234567", 7, HourMs - 24 * HourMs)) == [ExampleLead];
  }

  /**
   * A concrete repeat submission: one active case type and one lead from an
   * hour ago with the same phone. With the `status` filter the repeat is
   * found; as written it is not, and a second lead would be stored.
   */
  lemma RepeatSubmissionMissedAsWritten()
    ensures ResolveCaseTypeId([ExampleCaseType], 1, Some("roundup")) == Some(7)
    ensures FindDuplicate([ExampleLead], "5551234567", Some(7), HourMs) == Some(3)
    ensures ResolveCaseTypeIdAsWritten([ExampleCaseType], 1, Some("roundup")).None?
  {
    ExampleCaseTypeResolves();
    ExampleLeadIsDuplicate();
    CaseTypeLookupAsWrittenNeverResolves([ExampleCaseType], 1, Some("roundup"), [], "", 0);
  }

  /** As written, every audit insert of the route names columns the table lacks and omits `event_type`. */
  lemma AuditInsertAsWrittenRejected()
    ensures !InsertAccepted(AuditColumns, AuditRequired, AuditKeysAsWritten)
    ensures "event_type" !in AuditKeysAsWritten && "brand_id" !in AuditColumns && "action" !in AuditColumns
  {
    assert "brand_id" in AuditKeysAsWritten;
  }

  /** The corrected audit rows are accepted and carry the event name as `event_type`. */
  lemma CorrectedAuditInsertAccepted(leadId: nat, brandId: nat, caseTypeId: Option<nat>, now: int)
    ensures InsertAccepted(AuditColumns, AuditRequired, AuditKeysCorrected)
    ensures DuplicateAudit(leadId, now).eventType == "duplicate_submission"
    ensures CreatedAudit(leadId, brandId, caseTypeId).eventType == "created"
    ensures DuplicateAudit(leadId, now).leadId == leadId && CreatedAudit(leadId, brandId, caseTypeId).leadId == leadId
  {
  }
}
