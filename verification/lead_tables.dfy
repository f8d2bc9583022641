/**
 * The four tables the lead-intake pipeline touches (brands, case_types,
 * leads, lead_audit_log) as row datatypes, and the queries run against
 * them, in both dialects the repository uses: the plain SQL helpers
 * (`rows[0] || null`, `ORDER BY created_at DESC LIMIT 1`) and the query
 * builder's `.single()`, which yields a row only when exactly one matches.
 */
module LeadTables {
  import opened Common

  /** `x || {}` for an optional JSON value. */
  function OrEmptyObject(o: Option<Json>): (r: Json)
    ensures o.Some? && JsonTruthy(o.value) ==> r == o.value
    ensures !(o.Some? && JsonTruthy(o.value)) ==> r == JObj(map[])
  {
    if o.Some? && JsonTruthy(o.value) then o.value else JObj(map[])
  }

  const HourMs: int := 3600000

  datatype Brand = Brand(id: nat, slug: string, name: string, domain: string, active: Option<bool>)

  datatype CaseType = CaseType(
    id: nat,
    brandId: nat,
    slug: string,
    name: string,
    category: string,
    pillarSlug: Option<string>,
    stateSlug: Option<string>,
    citySlug: Option<string>,
    status: Option<string>)

  datatype Contact = Contact(
    phone: Option<string>,
    email: Option<string>,
    firstName: Option<string>,
    lastName: Option<string>,
    zipCode: Option<string>)

  /** The TCPA consent record stored with every lead; `timestamp` is the server clock. */
  datatype ConsentSnapshot = ConsentSnapshot(
    text: string,
    timestamp: int,
    ipAddress: Option<string>,
    userAgent: Option<string>,
    locale: string,
    formVersion: string,
    provider: string,
    checkboxChecked: bool,
    url: string,
    consentMethod: string,
    privacyPolicyUrl: string,
    termsOfServiceUrl: string,
    checkboxPosition: string,
    consentLanguage: string)

  datatype Payload = Payload(
    contact: Contact,
    utm: Json,
    referrer: Option<string>,
    landingPage: Option<string>,
    sessionId: Option<string>)

  datatype PageContext = PageContext(
    url: string,
    path: string,
    pillarSlug: Option<string>,
    injurySlug: Option<string>,
    stateSlug: Option<string>,
    citySlug: Option<string>,
    pageType: string,
    pageTitle: string,
    scrollDepth: int,
    timeOnPage: int,
    clicksBeforeSubmit: int,
    formProvider: string,
    formVersion: string)

  /** Every column of a lead the caller supplies; `id` and `created_at` are filled in by the table. */
  datatype LeadDraft = LeadDraft(
    brandId: nat,
    source: Option<string>,
    caseTypeId: Option<nat>,
    injuryId: Option<nat>,
    geoId: Option<nat>,
    qualifiers: Option<Json>,
    payload: Option<Payload>,
    phone: Option<string>,
    email: Option<string>,
    firstName: Option<string>,
    lastName: Option<string>,
    zipCode: Option<string>,
    consentSnapshot: ConsentSnapshot,
    userAgent: Option<string>,
    fingerprintData: Option<Json>,
    pageContext: Option<PageContext>,
    sessionId: Option<string>,
    status: Option<string>,
    formProvider: Option<string>,
    formVersion: Option<string>)

  datatype Lead = Lead(id: nat, createdAt: int, fields: LeadDraft)

  datatype AuditDraft = AuditDraft(
    leadId: nat,
    eventType: string,
    actor: Option<string>,
    metadata: Option<Json>,
    ipAddress: Option<string>)

  datatype AuditEntry = AuditEntry(id: nat, createdAt: int, fields: AuditDraft)

  /** The rows of `s` that satisfy `p`, in table order. */
  function Filter<T(!new)>(s: seq<T>, p: T -> bool): (r: seq<T>)
    ensures |r| <= |s|
    ensures forall x :: x in r <==> x in s && p(x)
    ensures forall x :: multiset(r)[x] == if p(x) then multiset(s)[x] else 0
  {
    if |s| == 0 then []
    else
      assert s == [s[0]] + s[1..];
      if p(s[0]) then [s[0]] + Filter(s[1..], p)
      else Filter(s[1..], p)
  }

  /** A row appended after rows of which none satisfies `p` is the only row kept, when it satisfies `p`. */
  lemma {:induction false} FilterOnlyLast<T(!new)>(s: seq<T>, x: T, p: T -> bool)
    requires forall y :: y in s ==> !p(y)
    requires p(x)
    ensures Filter(s + [x], p) == [x]
  {
    if |s| > 0 {
      assert (s + [x])[0] == s[0] && (s + [x])[1..] == s[1..] + [x];
      FilterOnlyLast(s[1..], x, p);
    }
  }

  /** What the query builder's `.single()` sees. */
  datatype Lookup<T> = NoRows | One(row: T) | Many | QueryError

  /** `.single()`: a row only when exactly one row matched. */
  function Single<T>(rows: seq<T>): (r: Lookup<T>)
    ensures r.One? <==> |rows| == 1
    ensures r.One? ==> r.row == rows[0]
    ensures r.NoRows? <==> |rows| == 0
    ensures r.Many? <==> |rows| > 1
  {
    if |rows| == 0 then NoRows else if |rows| == 1 then One(rows[0]) else Many
  }

  /** `result.rows[0] || null`: the first matching row in table order. */
  function First<T>(rows: seq<T>): (r: Option<T>)
    ensures r.None? <==> |rows| == 0
    ensures r.Some? ==> r.value == rows[0]
  {
    if |rows| == 0 then None else Some(rows[0])
  }

  predicate IsActiveBrandFor(b: Brand, domain: string) {
    b.domain == domain && b.active == Some(true)
  }

  predicate IsActiveCaseTypeOf(c: CaseType, brandId: nat, slug: string) {
    c.brandId == brandId && c.slug == slug && c.status == Some("active")
  }

  /** Same phone and case type, created at or after `since` (the builder's `gte`). */
  predicate MatchesSince(l: Lead, phone: string, caseTypeId: nat, since: int) {
    l.fields.phone == Some(phone) && l.fields.caseTypeId == Some(caseTypeId) && l.createdAt >= since
  }

  /** Same phone and case type, created strictly after `now - hours` (the SQL helper's `>`). */
  predicate MatchesWithin(l: Lead, phone: string, caseTypeId: nat, now: int, hours: int) {
    l.fields.phone == Some(phone) && l.fields.caseTypeId == Some(caseTypeId) && l.createdAt > now - hours * HourMs
  }

  /**
   * The two duplicate windows of the repository disagree exactly on a lead
   * created at the boundary instant `now - 24h`: the query builder counts it,
   * the SQL helper does not.
   */
  lemma WindowsDifferOnlyAtBoundary(l: Lead, phone: string, caseTypeId: nat, now: int)
    ensures MatchesWithin(l, phone, caseTypeId, now, 24) ==> MatchesSince(l, phone, caseTypeId, now - 24 * HourMs)
    ensures (MatchesSince(l, phone, caseTypeId, now - 24 * HourMs) && !MatchesWithin(l, phone, caseTypeId, now, 24))
            <==> (l.fields.phone == Some(phone) && l.fields.caseTypeId == Some(caseTypeId)
                  && l.createdAt == now - 24 * HourMs)
  {
  }

  /** The row with the greatest `created_at`; among equal timestamps the earliest in table order. */
  function Latest(rows: seq<Lead>): (r: Option<Lead>)
    ensures r.None? <==> |rows| == 0
    ensures r.Some? ==> r.value in rows
    ensures r.Some? ==> forall l :: l in rows ==> l.createdAt <= r.value.createdAt
  {
    if |rows| == 0 then None
    else
      var rest := Latest(rows[1..]);
      assert forall l :: l in rows ==> l == rows[0] || l in rows[1..];
      if rest.None? || rows[0].createdAt >= rest.value.createdAt then Some(rows[0]) else rest
  }
}
