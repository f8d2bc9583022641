# People's Justice web: a Dafny model of the lead intake, canonical routing and SEO builders

This project models the logic of the People's Justice marketing site (a Next.js
application that collects personal-injury leads for several law-firm brands) and proves
properties of it in Dafny 4.11.

- **Lead intake.** `POST /api/intake/lead` validates the form body. It picks the client
  IP from the proxy headers and resolves the brand by host and the case type by slug. A
  24-hour duplicate check can short-circuit the request with an audit-only append. It
  then builds the TCPA consent snapshot, appends one lead and one audit row, and
  collapses every thrown error into one generic 500. The four tables (`brands`,
  `case_types`, `leads`, `lead_audit_log`) are sequences inside the `LeadStore.Store`
  class. Its methods only append.
- **Database helpers.** `lib/db/client.ts`: brand lookup by domain, case-type lookup by
  slug within a brand, lead and audit-row creation, and the recent-duplicate query.
- **Brand registry.** `lib/brand/config.ts`: the domain lookup with its port-stripping
  fallback, the request-level default, the database-row mapping and the theme CSS
  variables.
- **Middleware.** `middleware.ts` returns one of three outcomes:
  - pass-through for static paths;
  - a 301 redirect, either expanding a two-letter state code or stripping a trailing
    slash (permanent redirect, section 15.4.2 of RFC 9110);
  - the security headers, with HSTS in production.
- **SEO builders.**
  - Meta tags: title and description truncation, the ordered robots directives,
    canonical URL and language alternates.
  - The FAQ schema and the title and description templates.
  - The eleven-check compliance score.
  - Directory links, breadcrumbs, anchor text and link-count validation.
  - Image and page-weight budgets, the performance report and its grade, preload and
    prefetch hints, script tags and `srcset`.
  - The AI-crawler robots.txt generator. Its groups follow section 2.2 of RFC 9309;
    `Crawl-delay` is a non-standard extension.
  - The `X-Robots-Tag` header, video clips, the image object and the organisation
    `sameAs` list.
- **Sitemaps.** The sitemaps.org 0.9 serialiser, with a reader that proves the
  serialiser round-trips. The URL lists of `/sitemap-find.xml` and
  `/sitemap-content.xml`, with the database results passed in as parameters.
- **Client components.** The case timeline's grouping of events by year, its
  expanded-year toggle and initial set. The statute table's search, its stable sort by
  state or deadline, and the header click that toggles the sort.

Form of the model:
- Pure code (string and list builders, lookups, decisions) becomes functions with
  contracts and lemmas.
- Code that works by pushing onto arrays in loops becomes methods with loops and
  invariants, proved against a specification function. This covers the robots.txt
  rules, the sitemap URL lists, breadcrumbs, the timeline's year map, the
  compliance/page-weight tallies and the `sameAs` list.
- The store whose rows the route appends becomes a class.

Parameters stand in for what the code reads from the outside world:
- the clock (an integer in milliseconds, or one ISO string for a sitemap's "now");
- the `host`/`referer`/forwarding headers (a map);
- `NODE_ENV` and `NEXT_PUBLIC_SITE_URL` (the two analytics variables are not read; see Left out);
- `new URL(...)` (a parse function that may fail);
- the database query results (`Fetch.Rows(data)` or `Fetch.Thrown`);
- failure flags for the two inserts.

## Model

| member | source | states |
|---|---|---|
| LeadStore.Store.constructor | lib/db/client.ts:120-121 | The store starts with the given brands and case types and with empty leads and audit log |
| LeadStore.Store.AppendLead | lib/db/client.ts:140-165 | Appends exactly one lead carrying the draft and the clock, with an id no earlier lead has; the other tables are unchanged |
| LeadStore.Store.AppendAudit | lib/db/client.ts:168-182 | Appends exactly one audit row carrying the draft and the clock, with a fresh id; the other tables are unchanged |
| LeadStore.Store.CreateLead | lib/db/client.ts:140-165 | `createLead` appends one row built from the 13 listed columns and returns it with a fresh id; existing rows and other tables are unchanged |
| LeadStore.Store.CreateAuditLog | lib/db/client.ts:168-182 | `createAuditLog` appends one row carrying the given lead id, event type, actor, metadata and IP address; other tables are unchanged |
| LeadStore.CreateLeadColumns | lib/db/client.ts:142-162 | The inserted row keeps exactly the 13 listed columns of the argument and leaves the unlisted ones (names, zip, user agent, fingerprint, page context, session) null |
| LeadStore.GetBrandByDomain | lib/db/client.ts:122-128 | Returns a brand of the table whose domain equals the argument and which is active, and null exactly when no such brand exists |
| LeadStore.GetCaseTypeBySlug | lib/db/client.ts:131-137 | Returns only a row with the given brand id, slug and status 'active' (never another brand's), and null exactly when none exists |
| LeadStore.FindRecentDuplicate | lib/db/client.ts:185-200 | Returns the latest lead with equal phone and case type created strictly inside the window (24 hours by default), and null exactly when there is none |
| LeadTables.OrEmptyObject | app/api/intake/lead/route.ts:171-185 | `x \|\| {}`: a truthy JSON value is kept, anything else becomes the empty object |
| LeadTables.Filter | lib/db/client.ts:123-126 | A `WHERE` clause: keeps exactly the rows satisfying the predicate, each with the multiplicity it has in the table, never more rows than the table |
| LeadTables.FilterOnlyLast | lib/db/client.ts:123-126 | When no earlier row satisfies the clause and an appended row does, the query returns exactly that row |
| LeadTables.Single | app/api/intake/lead/route.ts:75 | `.single()` (also at lines 96, 112 and 205): a row exactly when one row matches, an error for none and for several |
| LeadTables.First | lib/db/client.ts:127 | `rows[0] \|\| null` (also at lines 136 and 199): the first row, null exactly for no rows |
| LeadTables.Latest | lib/db/client.ts:195-196 | `ORDER BY created_at DESC LIMIT 1`: a row of the input with no later row, null exactly for no rows |
| LeadTables.WindowsDifferOnlyAtBoundary | app/api/intake/lead/route.ts:111 | The route's inclusive `gte` window contains the client's strict `>` window and differs from it exactly for a lead created at now − 24 h (lib/db/client.ts:194) |
| LeadIntake.Header | app/api/intake/lead/route.ts:56-58 | `headers.get(name)` is present exactly when the header is, with its value |
| LeadIntake.ClientIp | app/api/intake/lead/route.ts:55-59 | The IP is the trimmed first `x-forwarded-for` entry, else `x-real-ip`, else `cf-connecting-ip`, else null; never empty, never from the body |
| LeadIntake.ForwardedForFirstHop | app/api/intake/lead/route.ts:56 | With `x-forwarded-for: a,b` the IP is the trimmed `a` |
| LeadIntake.RequestHost | app/api/intake/lead/route.ts:65-66 | The host header (port kept) when truthy, else 'peoplesjustice.com' |
| LeadIntake.ResolveBrand | app/api/intake/lead/route.ts:70-83 | A brand resolves exactly when one active brand has that domain, and it is that brand |
| LeadIntake.ResolveCaseTypeId | app/api/intake/lead/route.ts:88-99 | Corrected lookup: an id only for a truthy slug, naming an active case type of that brand with that slug; a zero id counts as none |
| LeadIntake.ResolveCaseTypeIdAsWritten | app/api/intake/lead/route.ts:88-99 | As written (filtering on the missing `active` column), the lookup never yields an id |
| LeadIntake.ResolveCaseTypeAgreesWithHelper | lib/db/client.ts:131-137 | With exactly one matching active case type, the corrected route lookup and `getCaseTypeBySlug` name the same row |
| LeadIntake.FindDuplicate | app/api/intake/lead/route.ts:101-113 | Runs only when a case type resolved; names a lead with equal phone and case type created at or after now − 24 h, exactly when one such lead exists |
| LeadIntake.OnlyMatchIsDuplicate | app/api/intake/lead/route.ts:101-113 | A matching lead added after leads of which none matches is the one the duplicate check names |
| LeadIntake.SeveralEarlierMatchesAreNoDuplicate | app/api/intake/lead/route.ts:112 | Two matching earlier leads make `.single()` fail, so the request is treated as new |
| LeadIntake.BuildConsentSnapshot | app/api/intake/lead/route.ts:136-151 | Clock, IP, user agent and `checkboxChecked` are copied; text, locale (also the consent language), form version, provider, method, checkbox position and the privacy and terms URLs are kept when truthy and otherwise take their defaults ('Consent text not provided', 'en', '1.0.0', 'native', 'checkbox', 'above_submit', origin + '/privacy', origin + '/terms'); url is pageUrl, else referer, else '' |
| LeadIntake.PagePath | app/api/intake/lead/route.ts:156 | `pagePath` when truthy, else the path the URL parser gives for pageUrl, else referer, else the example URL (failure leads to the 500 path) |
| LeadIntake.BuildPageContext | app/api/intake/lead/route.ts:154-168 | Every field, both ways: url is pageUrl, else referer, else ''; path is the one given; pillar slug falls back to `caseSlug` then null; injury, state and city slugs are kept when truthy, else null; page type is kept when truthy, else 'T1'; page title is kept, else ''; scroll depth, time on page and clicks are kept when non-zero, else 0; form provider and version are kept, else 'native' and '1.0.0' |
| LeadIntake.BuildLeadDraft | app/api/intake/lead/route.ts:174-203 | The lead carries brand id, resolved case type, body phone and email, status 'new', the snapshot and page context, null injury and geo, the user agent and source defaulting to 'web_form' |
| LeadIntake.Decide | app/api/intake/lead/route.ts:35-171 | Every branch in the route's order: unparsable or null body 500; missing phone or email 400; falsy consent 400; no single active brand for the host 400 'Invalid domain'; then, with the corrected case-type lookup, a recent lead of the same phone and case type gives `Duplicate` of that lead; otherwise a page URL that fails to parse is the 500 of lines 156 and 233-243; otherwise `Create` of the lead row built from the body, headers, brand, case type and path |
| LeadIntake.CreatedLeadFields | app/api/intake/lead/route.ts:174-203 | A created lead always has consent checked, truthy phone and email from the body, status 'new', the resolved brand and case type, the header IP and the request clock, and no duplicate existed |
| LeadIntake.DuplicateNamesRecentLead | app/api/intake/lead/route.ts:102-131 | A duplicate response needs a truthy slug and a resolved case type, and names an existing lead with that phone and case type inside the window |
| LeadIntake.RepeatWithinDayIsDuplicate | app/api/intake/lead/route.ts:101-132 | For every pair of submissions with the same body and headers: when the first stored lead `d` with a case type and no earlier lead matched, the second, made 0 to 24 hours later against the table with that lead appended, is answered as a repeat of that lead's id |
| LeadIntake.RepeatAfterDayIsNewLead | app/api/intake/lead/route.ts:101-132 | For the same pair more than 24 hours apart: the first lead is outside the window and the second submission is stored as a new lead |
| LeadIntake.Post | app/api/intake/lead/route.ts:35-244 | Rejections leave the store unchanged; a duplicate appends only its audit row; a new lead appends exactly one lead then one 'created' audit row naming it; a failed lead insert is 500 with nothing appended; audit-insert failures never change the response; brands and case types never change. The decision uses the corrected case-type lookup and the audit rows use the corrected keys (see Findings) |
| LeadIntake.InsertLeadAndAudit | app/api/intake/lead/route.ts:173-231 | A failed lead insert is the 500 with nothing appended; otherwise exactly one lead with the draft and the clock, a fresh id, the 200 response naming it, and one 'created' audit row unless the audit insert fails |
| LeadIntake.DuplicateAudit | app/api/intake/lead/route.ts:116-125 | The repeat's audit row names the earlier lead, event 'duplicate_submission', actor 'system', metadata exactly `original_lead_id` (that lead) and `duplicate_attempt_at` |
| LeadIntake.CreatedAudit | app/api/intake/lead/route.ts:213-222 | The new lead's audit row names it, event 'created', actor 'system', metadata exactly `source`, `brand_id` (the brand) and `case_type_id` (the id or null) |
| LeadIntake.GetHealth | app/api/intake/lead/route.ts:247-253 | The health check reports service 'lead-intake', status 'ok' and the clock |
| LeadIntake.SelectWithFilters | app/api/intake/lead/route.ts:90-96 | A query filtering on a column the table does not have returns an error; otherwise it behaves as `.single()` on the matching rows |
| LeadIntake.CaseTypeLookupAsWrittenNeverResolves | app/api/intake/lead/route.ts:90-99 | As written, the case-type lookup never resolves, so the duplicate check never runs |
| LeadIntake.RepeatSubmissionMissedAsWritten | app/api/intake/lead/route.ts:95 | A concrete table where the corrected lookup finds a duplicate within the window that the code as written misses |
| LeadIntake.AuditInsertAsWrittenRejected | app/api/intake/lead/route.ts:116-125 | The audit insert as written lacks the required `event_type` and names columns the table lacks, so it is rejected |
| LeadIntake.CorrectedAuditInsertAccepted | app/api/intake/lead/route.ts:213-222 | The corrected audit rows are accepted and carry 'duplicate_submission' or 'created' as `event_type` with the lead id |
| BrandConfig.GetBrandByDomain | lib/brand/config.ts:110-126 | Looks up the part before the first ':' first, then the full domain; null exactly when neither is a registry key |
| BrandConfig.ResolvesOnlyToDefault | lib/brand/config.ts:100-104 | Every registry hit is `DEFAULT_BRAND` |
| BrandConfig.LocalhostPortShadowed | lib/brand/config.ts:102-115 | Any 'localhost:port' resolves through the 'localhost' key |
| BrandConfig.LocalhostPortEntryUnreachable | lib/brand/config.ts:102-115 | The 'localhost:3000' entry is never reached, because its port-stripped form is already a key |
| BrandConfig.GetBrandFromRequest | lib/brand/config.ts:131-135 | Never null: a missing host or an unknown domain gives `DEFAULT_BRAND` |
| BrandConfig.GenerateThemeCssVariables | lib/brand/config.ts:140-146 | Exactly three keys, mapped to primary colour, secondary colour and font family |
| BrandConfig.MapDbBrandToConfig | lib/brand/config.ts:152-166 | id, slug, name, domain, active, social media and analytics are copied; logo, theme, contact and legal fall back to the default brand's when absent |
| BrandConfig.MapDbBrandRoundTrip | lib/brand/config.ts:152-166 | Mapping the row form of a configuration gives the configuration back |
| BrandConfig.MapBareRowUsesDefaults | lib/brand/config.ts:158-161 | A row without logo, theme, contact and legal gets all four defaults |
| Middleware.StateCode | middleware.ts:48 | `^/state/([a-z]{2})(/\|$)` matches exactly a path of the form /state/xx or /state/xx/..., capturing xx |
| Middleware.IsSkipped | middleware.ts:18-25 | Every skipped path is at least three characters long, so '/' always reaches the rules |
| Middleware.StateRedirect | middleware.ts:48-69 | The state rule fires exactly when the path matches the pattern and the upper-cased code is one of the ten mapped states |
| Middleware.PageHeaders | middleware.ts:30-45 | The page response (lines 79-82) carries the four security headers with their fixed values, HSTS exactly in production and the brand header (the request host) exactly in development, and no other header |
| Middleware.Decide | middleware.ts:13-85 | Static paths pass through untouched; a mapped state code is redirected 301 first, then a trailing slash; only the non-redirect response carries the security headers, HSTS only in production and the brand header only in development |
| Middleware.LowerUpperCode | middleware.ts:50-67 | Lowercasing the uppercased code gives the matched code back, so the replaced text is the matched one |
| Middleware.StateRedirectTarget | middleware.ts:64-68 | /state/xx + rest goes to /state/{full name} + rest for the 10 mapped codes |
| Middleware.FullNamesAreLong | middleware.ts:51-62 | Every full state name is longer than two characters |
| Middleware.StateTargetIsStable | middleware.ts:48-62 | A redirect target never matches the state-code pattern again |
| Middleware.StateRuleBeforeTrailingSlash | middleware.ts:48-77 | For every mapped code, /state/xx/ goes to /state/{full name}/ (e.g. /state/ca/ to /state/california/), never to /state/xx: the state rule wins over the trailing-slash rule |
| Middleware.UnknownCodeFallsThrough | middleware.ts:64-77 | For any two-character code outside the table (e.g. zz), /state/xx/ falls through to the trailing-slash rule and goes to /state/xx |
| Middleware.RootIsNeverRedirected | middleware.ts:73 | '/' itself is never redirected |
| Middleware.TrailingSlashRemovesOne | middleware.ts:73-77 | The trailing-slash redirect removes exactly one final '/' |
| SeoMeta.Truncate | lib/seo/meta.ts:89-95 | The result is at most the limit; unchanged when it fits, else the first limit − 3 characters followed by '...' |
| SeoMeta.TruncateIdempotent | lib/seo/meta.ts:89-95 | Truncating twice equals truncating once |
| SeoMeta.RobotsDirectives | lib/seo/meta.ts:98-103 | Directives come out in the fixed order noindex, nofollow, max-snippet, max-image-preview, max-video-preview |
| SeoMeta.RobotsDirectivesExactly | lib/seo/meta.ts:99-103 | A directive is listed exactly when requested: noindex/nofollow only for an explicit false, the max-* ones only when truthy |
| SeoMeta.DefaultRobotsAbsent | lib/seo/meta.ts:83 | The default robots setting yields no robots value (line 156 omits it) |
| SeoMeta.Languages | lib/seo/meta.ts:114-117 | The language map has exactly the locales of the alternates as keys |
| SeoMeta.LanguagesLastWins | lib/seo/meta.ts:114-117 | A locale maps to the URL of its last alternate |
| SeoMeta.GenerateMetaTags | lib/seo/meta.ts:68-167 | Titles at most 60 and descriptions at most 160 characters; ' \| brand' only on the top-level title and only for a truthy brand; canonical and OG url are `canonicalUrl` or `url`; robots absent by default; images only with an OG image; the languages map is built from the alternates (default none); OG type defaults to 'website'; the article fields are present exactly when an article is given and the type is 'article', and are then the given article |
| SeoMeta.MetaTagsLanguagesLastWins | lib/seo/meta.ts:113-117 | The page's languages map has one key per alternate locale, and a locale's URL is that of its last alternate |
| SeoMeta.GenerateFaqForAi | lib/seo/meta.ts:246-259 | The first min(10, n) FAQs, in input order, each question and answer kept |
| SeoMeta.TitleFor | lib/seo/meta.ts:172-204 | Each of the eight title templates starts with its leading argument (case type, injury, practice area, event, 'Find …', firm or resource) |
| SeoMeta.DescriptionFor | lib/seo/meta.ts:209-241 | Each of the eight description templates starts with its leading text |
| SeoMeta.TitleCheck | lib/seo/meta.ts:380-391 | Issue exactly for an empty title, pass exactly for 30 to 60 characters; deduction at most 15 |
| SeoMeta.DescriptionCheck | lib/seo/meta.ts:394-405 | Issue exactly for an empty description, pass exactly for 120 to 160; deduction at most 15 |
| SeoMeta.H1Check | lib/seo/meta.ts:408-416 | Issue exactly for an empty H1, pass exactly when the title contains it; deduction at most 10 |
| SeoMeta.FlagCheck | lib/seo/meta.ts:419-456 | A boolean check passes exactly when its flag holds and costs its deduction otherwise |
| SeoMeta.CanonicalCheck | lib/seo/meta.ts:419-424 | The canonical check costs at most 10 |
| SeoMeta.OpenGraphCheck | lib/seo/meta.ts:427-432 | The Open Graph check costs at most 5 |
| SeoMeta.TwitterCheck | lib/seo/meta.ts:435-440 | The Twitter check costs at most 3 |
| SeoMeta.SchemaCheck | lib/seo/meta.ts:443-448 | The schema check costs at most 10 |
| SeoMeta.AltTextCheck | lib/seo/meta.ts:451-456 | The alt-text check costs at most 5 |
| SeoMeta.InternalLinksCheck | lib/seo/meta.ts:459-467 | Passes exactly for 3 to 20 links; deduction at most 5 |
| SeoMeta.ExternalLinksCheck | lib/seo/meta.ts:470-475 | Passes exactly for at least 2 citations; deduction at most 3 |
| SeoMeta.ReadabilityCheck | lib/seo/meta.ts:478-484 | Passes exactly when the readability verdict is compliant; deduction at most 5 |
| SeoMeta.Checks | lib/seo/meta.ts:379-484 | There are exactly eleven checks, run in the fixed order title, description, H1, canonical, Open Graph, Twitter, schema, alt text, internal links, external links, readability |
| SeoMeta.ChecksPriced | lib/seo/meta.ts:379-484 | Every one of the eleven checks deducts nothing exactly when it passes, 10 to 15 points for an issue and 3 to 5 for a warning |
| SeoMeta.MessagesPartition | lib/seo/meta.ts:380-484 | Every check adds exactly one message to exactly one of issues, warnings or passes |
| SeoMeta.DeductionBounds | lib/seo/meta.ts:377-484 | No deduction exactly when every check passes; each issue costs at least 10 and each warning at least 3 |
| SeoMeta.MaxDeduction | lib/seo/meta.ts:380-484 | The deductions add up to at most 86 |
| SeoMeta.ValidateSeoCompliance | lib/seo/meta.ts:356-492 | The three lists are the messages of the eleven checks by severity, in check order, and the score is 100 minus the deductions, clamped at 0 |
| SeoMeta.ScoreBounds | lib/seo/meta.ts:377-491 | The score before clamping lies in [14, 100], is 100 exactly when all eleven checks pass, and the three lists have eleven messages in total |
| InternalLinking.GetDirectoryLink | lib/seo/internal-linking.ts:93-125 | /find/{case}/{state}/{city}/ with city and state, /find/{case}/{state}/ with state only, else /find/{case}/; type always 'directory' |
| InternalLinking.CityWithoutStateIgnored | lib/seo/internal-linking.ts:101-124 | A city without a state is ignored |
| InternalLinking.GetLatestUpdates | lib/seo/internal-linking.ts:158-173 | Always exactly two resource links: the case's verdicts page, then the statute-of-limitations page |
| InternalLinking.GetNearbyClinics | lib/seo/internal-linking.ts:178-198 | Empty exactly when the state is falsy, otherwise one resource link to that state's diagnostic centres |
| InternalLinking.Candidates | lib/seo/internal-linking.ts:224-264 | Each page type offers one to three optional crumbs, in its fixed order |
| InternalLinking.Shown | lib/seo/internal-linking.ts:224-264 | Only candidates with a truthy display name become crumbs, and no crumb has an empty name |
| InternalLinking.ShownUpToThree | lib/seo/internal-linking.ts:224-264 | The shown crumbs are the shown candidates, one by one, in order |
| InternalLinking.NoNamesNoCrumbs | lib/seo/internal-linking.ts:224-264 | Without display names no optional crumb is added |
| InternalLinking.BuildBreadcrumbs | lib/seo/internal-linking.ts:203-267 | The trail is Home, the section crumb, then the shown optional crumbs |
| InternalLinking.BreadcrumbShape | lib/seo/internal-linking.ts:218-266 | The trail starts with {Home, '/'}, has 2 to 5 crumbs, and no crumb name is empty |
| InternalLinking.FullDirectoryTrail | lib/seo/internal-linking.ts:247-256 | A directory page with case, state and city names has five crumbs ending at /find/{case}/{state}/{city}/ |
| InternalLinking.OptimizeAnchorText | lib/seo/internal-linking.ts:273-299 | Pillar and injury give the keyword or 'Learn about …'; directory gives 'Find … Lawyers' or 'Compare … Attorneys'; other types give the chosen variation |
| InternalLinking.AnchorEmptyOnlyForEmptyKeyword | lib/seo/internal-linking.ts:290-298 | Anchor text is empty only for an empty keyword |
| InternalLinking.ValidateInternalLinks | lib/seo/internal-linking.ts:305-341 | Count is the number of links; compliant exactly for 3 to 20; the recommendation for too few, too many, the high side (11 to 20) and optimal (3 to 10) |
| InternalLinking.LinkCountAgreesWithScore | lib/seo/internal-linking.ts:305-341 | Link validation and the compliance score's internal-link check agree on what passes (lib/seo/meta.ts:459-467) |
| Performance.RoundDiv | lib/seo/performance.ts:80 | `Math.round(n / d)` is the integer nearest to n / d |
| Performance.ValidateImageSize | lib/seo/performance.ts:70-93 | Valid exactly when the bytes are at most 200·1024 (hero) or 100·1024 (general), with the rounded-KB message of each case |
| Performance.ImageLimitsInKb | lib/seo/performance.ts:74-77 | The limits print as 200 and 100 KB, and the hero limit is twice the general one |
| Performance.GeneralValidIsHeroValid | lib/seo/performance.ts:74-82 | An image valid in general context is valid as a hero |
| Performance.GetOptimizedUrl | lib/seo/performance.ts:25-40 | The optimised URL is the source unchanged |
| Performance.SrcSetEntries | lib/seo/performance.ts:49-50 | One "src Nw" entry per width, in order |
| Performance.GenerateSrcSet | lib/seo/performance.ts:45-52 | The entries joined by ', ', with the default widths 640 to 1536 |
| Performance.SrcSetSnoc | lib/seo/performance.ts:45-52 | One more width adds exactly one more entry at the end |
| Performance.GetPreloadLinks | lib/seo/performance.ts:115-145 | The font link is first; 'pillar' adds exactly the hero image; other pages return only the font |
| Performance.GetPrefetchLinks | lib/seo/performance.ts:150-170 | A pillar with a case slug gives its injury link; injury or state pages with case slug and state give one /find/ link; otherwise none |
| Performance.HtmlBudget | lib/seo/performance.ts:251-256 | Over exactly above 120 KB, costing 15 |
| Performance.ScriptBudget | lib/seo/performance.ts:259-264 | Over exactly above 150 KB, costing 20 |
| Performance.StyleBudget | lib/seo/performance.ts:267-272 | Over exactly above 100 KB, costing 15 |
| Performance.ImageBudget | lib/seo/performance.ts:275-280 | Over exactly above 400 KB, costing 10 |
| Performance.Budgets | lib/seo/performance.ts:250-280 | Exactly four budgets |
| Performance.ValidatePageWeight | lib/seo/performance.ts:235-287 | Issues and passes are the budget messages by verdict, in order, and the score is 100 minus the costs |
| Performance.VerdictPartition | lib/seo/performance.ts:250-280 | Each budget adds exactly one message to exactly one of issues or passes |
| Performance.PenaltyZero | lib/seo/performance.ts:250-280 | No penalty exactly when no budget is over |
| Performance.WeightBounds | lib/seo/performance.ts:248-284 | The page-weight score lies in [40, 100], is 100 exactly without issues, and there are four messages |
| Performance.GradeOf | lib/seo/performance.ts:430 | A for at least 90, B for 80 to 89, C for 70 to 79, D for 60 to 69, else F |
| Performance.GradeMonotone | lib/seo/performance.ts:430 | A higher score never gets a worse grade |
| Performance.CoreWebVitals | lib/seo/performance.ts:413-419 | Vitals exist exactly when LCP, CLS and INP are all truthy, each passing at its target (2500 ms, 0.1, 200 ms) |
| Performance.VitalsPenalty | lib/seo/performance.ts:424-428 | The vitals cost at most 25, and nothing without vitals |
| Performance.GeneratePerformanceReport | lib/seo/performance.ts:390-443 | Score is the page-weight score minus the vitals penalty, within [15, 100]; grade, summary text and issues follow from it |
| Performance.WithinBudgetsWithoutVitalsIsA | lib/seo/performance.ts:411-430 | A page within every budget and without vitals gets an A |
| Performance.NonEmpty | lib/seo/performance.ts:359 | `filter(Boolean)` keeps exactly the non-empty attributes |
| Performance.AttributesInOrder | lib/seo/performance.ts:353-359 | The attributes are src, id, nonce, then defer or async, with the empty ones dropped |
| Performance.GenerateScriptTag | lib/seo/performance.ts:345-384 | Lazy-on-load gives the idle loader; otherwise a script tag with the attributes joined by spaces |
| AiOptimization.GenerateRobotsTxt | lib/seo/ai-optimization.ts:209-268 | The text is the rules joined by '\n': the search group, then the training bots' groups, then the block list's disallow groups |
| AiOptimization.RobotsRules | lib/seo/ai-optimization.ts:209-268 | The rules are empty or end with the blank line that closes a group |
| AiOptimization.AppendAllowGroups | lib/seo/ai-optimization.ts:240-250 | Pushes the allow groups of the bots not in the block list, in list order |
| AiOptimization.AppendDisallowGroups | lib/seo/ai-optimization.ts:251-265 | Pushes one three-line disallow group per bot, in order |
| AiOptimization.SearchGroupFirst | lib/seo/ai-optimization.ts:220-224 | With search allowed, the rules begin 'User-agent: Googlebot', 'Allow: /', '' |
| AiOptimization.DisallowGroupsLength | lib/seo/ai-optimization.ts:253-257 | Disallow groups take three lines per bot |
| AiOptimization.TrainingDisallowedLength | lib/seo/ai-optimization.ts:251-265 | Without AI training the rules are the search group's 3 lines (when allowed), 30 lines for the ten training bots regardless of the block list, and 3 more lines per blocked bot |
| AiOptimization.UserAgentInjective | lib/seo/ai-optimization.ts:243 | Distinct bots give distinct User-agent lines |
| AiOptimization.BlockedNeverAllowed | lib/seo/ai-optimization.ts:242 | A bot in the block list never gets an Allow group |
| AiOptimization.NoDelayLineForZero | lib/seo/ai-optimization.ts:245-247 | A crawl delay of 0 emits no Crawl-delay line |
| AiOptimization.BlockGroupsLast | lib/seo/ai-optimization.ts:261-265 | The block list's disallow groups are the last lines, in block-list order |
| AiOptimization.GenerateHttpHeader | lib/seo/ai-optimization.ts:274-278 | Only `X-Robots-Tag`: 'all' when allowed, else 'noai, noimageai' |
| AiOptimization.GenerateVideoClips | lib/seo/ai-optimization.ts:40-54 | Order and fields are kept and positions are 1..n |
| AiOptimization.IfTruthy | lib/seo/ai-optimization.ts:77-86 | `...(x && { x })`: the field is present exactly when truthy, with its value |
| AiOptimization.GenerateImageObject | lib/seo/ai-optimization.ts:60-88 | url, width and height are kept; each optional field is present exactly when truthy; the creator becomes a Person with that name |
| AiOptimization.PresentUrls | lib/seo/ai-optimization.ts:374-381 | No more URLs than profiles and none empty |
| AiOptimization.EnhanceOrganizationSchema | lib/seo/ai-optimization.ts:366-387 | `sameAs` is replaced by the present profile URLs and every other key of the base schema is kept |
| AiOptimization.PresentUrlsOfProfiles | lib/seo/ai-optimization.ts:376-381 | The URLs come in the fixed order wikidata, crunchbase, linkedin, twitter, youtube, facebook, each only when truthy |
| AiOptimization.PresentUrlsExactly | lib/seo/ai-optimization.ts:376-381 | A URL is listed exactly when some truthy profile has it |
| AiOptimization.NoProfilesEmptySameAs | lib/seo/ai-optimization.ts:374-385 | Without truthy profiles `sameAs` is empty |
| Sitemap.PriorityField | app/sitemap-find.xml/route.ts:26 | The priority element is emitted exactly for a non-zero priority |
| Sitemap.PriorityText | app/sitemap-find.xml/route.ts:26 | The printed priority is non-empty and has no '<' |
| Sitemap.Entry | app/sitemap-find.xml/route.ts:21-27 | An entry opens with `<url>` and the loc verbatim inside `<loc>`, and closes with `</url>` |
| Sitemap.GenerateSitemapXml | app/sitemap-find.xml/route.ts:20-33 | The document starts with the XML declaration and the sitemaps.org 0.9 `<urlset>`, and ends by closing it |
| Sitemap.Written | app/sitemap-find.xml/route.ts:21-27 | The loc is written verbatim and lastmod, changefreq and priority appear exactly when truthy |
| Sitemap.AllWritten | app/sitemap-find.xml/route.ts:21-27 | One written entry per URL, in order |
| Sitemap.EntryRoundTrip | app/sitemap-find.xml/route.ts:21-27 | Reading back one `<url>` entry gives its written fields |
| Sitemap.EntriesRoundTrip | app/sitemap-find.xml/route.ts:21-27 | Reading back the entries gives one entry per URL, in order |
| Sitemap.SitemapRoundTrip | app/sitemap-find.xml/route.ts:20-33 | Reading back the document gives exactly the written entries of the URLs, in input order |
| Sitemap.PriorityTexts | app/sitemap-content.xml/route.ts:57 | Priorities (set at lines 57, 79, 96 and 116) 1.0, 0.8, 0.7 and 0.6 print as '1', '0.8', '0.7' and '0.6' |
| Sitemap.Product | app/sitemap-find.xml/route.ts:77-96 | The nested `forEach` yields one URL per pair |
| Sitemap.ProductAt | app/sitemap-find.xml/route.ts:77-96 | The URL at outer index i and inner index j is at position i·n + j |
| Sitemap.AppendProduct | app/sitemap-find.xml/route.ts:77-96 | The nested loops push exactly the product, outer-major |
| Sitemap.GenerateFindSitemap | app/sitemap-find.xml/route.ts:35-111 | A thrown query gives 500 'Error generating directory sitemap'; otherwise 200 XML of the find URLs with the XML headers |
| Sitemap.FindUrlsLayout | app/sitemap-find.xml/route.ts:75-97 | For p pillars, 10·p state URLs (daily, 0.8) then 10·p city URLs (weekly, 0.7), pillar-major in each block |
| Sitemap.FindUrls | app/sitemap-find.xml/route.ts:75-97 | No URLs for a null pillar result; 20 URLs per pillar otherwise |
| Sitemap.FindWithoutPillarsIsEmpty | app/sitemap-find.xml/route.ts:75 | A null pillar result gives an empty urlset |
| Sitemap.PillarUrls | app/sitemap-content.xml/route.ts:51-60 | One pillar URL per case-type row, daily, priority 1.0, lastmod `updated_at` or now |
| Sitemap.CityUrls | app/sitemap-content.xml/route.ts:103-118 | Always exactly six city URLs, monthly, 0.6 |
| Sitemap.AppendPillarUrls | app/sitemap-content.xml/route.ts:51-60 | Pushes exactly the pillar URLs |
| Sitemap.AppendInjuryUrls | app/sitemap-content.xml/route.ts:71-83 | Pushes exactly the injury URLs |
| Sitemap.AppendCityUrls | app/sitemap-content.xml/route.ts:112-118 | Pushes exactly the six city URLs |
| Sitemap.GenerateContentSitemap | app/sitemap-content.xml/route.ts:39-147 | A thrown query gives 500 'Error generating sitemap'; otherwise 200 XML of pillars, injuries, state hubs, cities and resources |
| Sitemap.InjuryListedExactly | app/sitemap-content.xml/route.ts:71-83 | An injury URL is listed exactly for an injury whose joined pillar slug is truthy |
| Sitemap.InjuryUrls | app/sitemap-content.xml/route.ts:71-83 | At most one URL per injury |
| Sitemap.ContentLayout | app/sitemap-content.xml/route.ts:46-132 | Pillars come first; just before the last eight URLs sit the 5 × pillars state hubs (state-major, by Sitemap.ProductAt); the last eight are the six cities then the two resources |
| Sitemap.ContentUrls | app/sitemap-content.xml/route.ts:46-132 | Whatever the queries return, the last eight URLs are the six city pages then the two resource pages |
| Sitemap.HubUrls | app/sitemap-content.xml/route.ts:88-100 | Five state hubs per pillar |
| Sitemap.ContentWithoutPillars | app/sitemap-content.xml/route.ts:51-90 | Without pillars, the list is injuries, cities and resources |
| Sitemap.SelectInjuries | app/sitemap-content.xml/route.ts:63-69 | The injury query returns rows exactly when every selected column exists |
| Sitemap.InjuryQueryAsWritten | app/sitemap-content.xml/route.ts:63-69 | As written (selecting the missing `updated_at`), the query's data is always null |
| Sitemap.InjuryQueryCorrected | app/sitemap-content.xml/route.ts:63-69 | Selecting `created_at` instead, the query returns the table's rows |
| Sitemap.InjuriesNeverListedAsWritten | app/sitemap-content.xml/route.ts:63-69 | As written, the injury query returns null, so the content sitemap is the same as with no injuries |
| Sitemap.InjuriesListedWhenCorrected | app/sitemap-content.xml/route.ts:71-83 | With the corrected query, every injury with a truthy pillar slug is listed |
| CaseTimeline.LastTokenIsSuffix | components/CaseTimeline.tsx:115 | The year is the last space-separated token of the date: a suffix without spaces, preceded by a space unless it is the whole date |
| CaseTimeline.LastToken | components/CaseTimeline.tsx:115 | The token is no longer than the date, and empty exactly when the date is empty or ends in a space |
| CaseTimeline.Tagged | components/CaseTimeline.tsx:114-115 | One (year, event) pair per event, in input order |
| CaseTimeline.YearGroups | components/CaseTimeline.tsx:122-125 | One group per distinct year, in first-occurrence order, holding that year's events |
| CaseTimeline.FillYearMap | components/CaseTimeline.tsx:112-120 | The map's keys are the years in first-occurrence order and each value lists that year's events in input order |
| CaseTimeline.GroupEventsByYear | components/CaseTimeline.tsx:111-128 | The groups are the year groups of the events |
| CaseTimeline.YearsDistinct | components/CaseTimeline.tsx:116-118 | Group keys are distinct |
| CaseTimeline.YearsExactly | components/CaseTimeline.tsx:116-118 | A year has a group exactly when some event has that year |
| CaseTimeline.EventsInExactly | components/CaseTimeline.tsx:119 | A group holds exactly the events of its year |
| CaseTimeline.EventInItsGroup | components/CaseTimeline.tsx:114-120 | An event is in the group of year y exactly when it is an input event whose year is y |
| CaseTimeline.YearsOfPrefix | components/CaseTimeline.tsx:116-118 | The years of a prefix of the events are a prefix of all the years: groups keep first-occurrence order and are never re-sorted |
| CaseTimeline.FirstGroupIsFirstYear | components/CaseTimeline.tsx:116-125 | The first group is the first event's year |
| CaseTimeline.GroupsPartition | components/CaseTimeline.tsx:114-125 | Group sizes sum to the number of events |
| CaseTimeline.ToggleYear | components/CaseTimeline.tsx:136-146 | Only the toggled year changes membership |
| CaseTimeline.ToggleTwice | components/CaseTimeline.tsx:136-146 | Toggling the same year twice restores the set |
| CaseTimeline.ToggleCommutes | components/CaseTimeline.tsx:136-146 | Toggling two years gives the same set in either order |
| CaseTimeline.InitialExpanded | components/CaseTimeline.tsx:132-134 | The initial set is exactly the first group's year |
| CaseTimeline.InitialIsFirstEventYear | components/CaseTimeline.tsx:131-134 | The initially expanded year is the first event's year |
| StatuteTable.Filtered | components/StatuteTable.tsx:20-23 | The kept entries are the matching entries of the table, each with its multiplicity in the table, and no more |
| StatuteTable.Matches | components/StatuteTable.tsx:20-23 | An empty search term matches every entry (`includes('')` holds) |
| StatuteTable.FilteredExactly | components/StatuteTable.tsx:20-23 | An entry is kept exactly when its lowercased state or code contains the lowercased term |
| StatuteTable.EmptyTermKeepsAll | components/StatuteTable.tsx:15-23 | The empty search term keeps every entry, in order |
| StatuteTable.LexCompare | components/StatuteTable.tsx:28-29 | String comparison is zero exactly for equal strings |
| StatuteTable.LexCompareAntisymmetric | components/StatuteTable.tsx:28-29 | Swapping the arguments negates the comparison |
| StatuteTable.LexCompareTransitive | components/StatuteTable.tsx:28-29 | The comparison is transitive |
| StatuteTable.ParseInt | components/StatuteTable.tsx:32-33 | `parseInt` gives a number only when digits follow the leading white space and sign |
| StatuteTable.ParseIntLeadingNumber | components/StatuteTable.tsx:32-33 | "2 years" reads as 2 |
| StatuteTable.ParseIntNoNumber | components/StatuteTable.tsx:32-33 | "Varies" has no number |
| StatuteTable.ComparatorIsPreorder | components/StatuteTable.tsx:25-36 | The comparator is antisymmetric and transitive by state, and by deadline when every deadline has a number |
| StatuteTable.Compare | components/StatuteTable.tsx:25-36 | By state: -1, 0 or 1, zero exactly for equal names, descending is ascending negated; by deadline: a NaN on either side gives 0, otherwise the difference of the leading numbers, negated for descending |
| StatuteTable.Comparator | components/StatuteTable.tsx:25-36 | Swapping the two entries negates the comparator, for both columns and both orders |
| StatuteTable.Insert | components/StatuteTable.tsx:25 | Inserting adds exactly that entry |
| StatuteTable.SortWith | components/StatuteTable.tsx:25 | Sorting is a permutation of its input |
| StatuteTable.SortSorted | components/StatuteTable.tsx:25 | Under a consistent comparator the sorted list is in order |
| StatuteTable.DisplayedIsSortedSelection | components/StatuteTable.tsx:19-39 | The displayed rows are the matching entries, each as often as in the table, in comparator order, and their count, shown at line 171, is at most the total |
| StatuteTable.Displayed | components/StatuteTable.tsx:19-39 | The rows shown are the matching entries with their multiplicities, never more than the table |
| StatuteTable.StateOrder | components/StatuteTable.tsx:26-30 | Sorted by state: ascending by name, or reversed for 'desc' |
| StatuteTable.DeadlineOrder | components/StatuteTable.tsx:31-35 | Sorted by deadline: non-decreasing leading integers ascending, non-increasing descending |
| StatuteTable.ToggleSort | components/StatuteTable.tsx:41-48 | The current column flips the order; another column is set with 'asc'; the search term is kept |
| StatuteTable.ToggleSortTwice | components/StatuteTable.tsx:42-43 | Two clicks on the sorted column restore the view |

## Left out

- I/O is not modelled: the Supabase client and query builder, the pg pool, `query` and `transaction` (lib/db/client.ts:11-51), and `console` logging. Query results enter as parameters or as the store's sequences.
- The check-then-act race between the duplicate query and the insert is not modelled; requests are sequential.
- `Date`, `toISOString` and `setHours` are an integer clock in milliseconds; a sitemap's `new Date().toISOString()` is one `now` string for the whole response.
- `new URL(...)` is a parse function passed in that may fail; its failure leads to the 500 path.
- A database error on the lead insert and on the audit inserts is a fault flag of `Post`; the other queries' errors become null data, as the Supabase client reports them.
- `consent.checked` is a boolean. Body fields of other JSON types, such as a number where a string is expected, are not modelled.
- String lengths count characters rather than UTF-16 code units.
- Readability (`calculateReadability`, lib/seo/meta.ts:291-351) uses floating-point Flesch formulas, so it is a boolean input of the compliance check.
- CLS is an integer in thousandths. The KB figures in messages are integers.
- Sitemap.PriorityText: sitemap priorities are integer tenths (10 is 1.0, 8 is 0.8) rather than JavaScript numbers; other fractions are not modelled.
- `generateAIOverviewIntro` (lib/seo/meta.ts:265-286) is a text template outside the modelled builders.
- Not modelled because they are static lists or rendering: `generateSpeculationRules`, the lazy script's JavaScript text (kept as the opaque `IdleLoader` outcome), `getResponsiveSizes`, `getPreconnectLinks`, `validateLCP`, `preventCLS`, `optimizeINP`, `getOptimizationTips`, `getLoadingStrategy`, `generateVideoSeekToAction`, `SourceBox`, `NoSnippet`, `generateProfilePageSchema` and `RelMeLinks`.
- The async link helpers `getStateLinksForCase`, `getRelatedInjuries` and `getRelatedCases` are database wrappers and are not modelled.
- BrandConfig.GetBrandByDomain: JavaScript prototype keys (`BRAND_REGISTRY['constructor']` and the like) are not modelled; the registry is a plain map.
- StatuteTable.LexCompare: `localeCompare` is approximated by code-unit lexicographic order.
- StatuteTable.ParseInt: the `0x` hexadecimal prefix that `parseInt` also accepts is not modelled.
- StatuteTable.SortWith: `Array.prototype.sort` is modelled as a stable insertion sort (the engine's sort is stable). Order is proved only when the comparator is consistent: always by state, and by deadline when every filtered deadline starts with a number. With NaN deadlines the comparator returns 0 inconsistently and the engine's order is unspecified.
- StatuteTable.Displayed: the result is a new sequence, so `statuteData` is never reordered by construction; the in-place `sort` on `filter`'s fresh array is not modelled separately.
- CaseTimeline.InitialExpanded: for an empty timeline the source's set holds `undefined`; the model gives the empty set. The timeline's fixed event list and the rendering are not modelled.
- Sitemap.GenerateSitemapXml: locations are written without XML escaping, as in the source. The round trip is proved for values without '<'.
- String trimming: only the ASCII white space (space, tab, line feed, carriage return, vertical tab, form feed) is stripped; JavaScript's `trim()` also strips U+00A0, U+FEFF, U+2028, U+2029 and the other Unicode space separators. `LeadIntake.ClientIp` uses it.
- Case mapping: `toLowerCase` and `toUpperCase` are modelled on ASCII letters only; other letters are kept as they are. `StatuteTable.Matches` and the middleware's state codes use them.
- Analytics ids: the default brand's `analytics` is fixed to two missing ids; the source reads them from `NEXT_PUBLIC_GA4_MEASUREMENT_ID` and `NEXT_PUBLIC_GTM_CONTAINER_ID` (lib/brand/config.ts:92-94), and no modelled operation reads them.
- AiOptimization.RobotsRules: `crawlDelay` is an integer number of seconds; a fractional delay such as 2.5, which the source prints as 'Crawl-delay: 2.5', is not modelled.
- Performance.GenerateSrcSet: the `srcset` widths are integers; fractional widths are not modelled.
- `/sitemap-firms.xml`, `/robots.ts` and the events sitemap are not part of this model.
- React components, the Sanity schemas, the brand provider and `MiniQualifierForm` are presentation and are not modelled.

## Findings

| source | as written | input that shows it | evidently intended | confidence | as-written member | corrected member |
|---|---|---|---|---|---|---|
| app/api/intake/lead/route.ts:95 | The case-type lookup filters on an `active` column that `case_types` does not have (types/database.types.ts:80-93 declare `status`), so the query errors and `caseTypeId` stays null | A second submission with the same phone and an active case slug within 24 hours: the duplicate check never runs and a second lead is stored | Filter on `status = 'active'`, as lib/db/client.ts:133 does | high; not executed | LeadIntake.RepeatSubmissionMissedAsWritten | LeadIntake.ResolveCaseTypeId |
| app/api/intake/lead/route.ts:116-125,213-222 | The audit inserts use keys `action` and `brand_id`; `lead_audit_log` requires `event_type` and has no `brand_id` (types/database.types.ts:366-384), and the insert's error is never read | Any created or duplicate submission: the insert is rejected and no audit row is written | Write the event name as `event_type` and drop `brand_id` | high; not executed | LeadIntake.AuditInsertAsWrittenRejected | LeadIntake.CorrectedAuditInsertAccepted |
| app/sitemap-content.xml/route.ts:63-69 | The injury query selects `updated_at`, which `injuries` does not have (types/database.types.ts:325-335), so `data` is null | Any injuries table: no injury URL ever appears in /sitemap-content.xml | Select `created_at` (or another existing column) for lastmod | high; not executed | Sitemap.InjuriesNeverListedAsWritten | Sitemap.InjuriesListedWhenCorrected |
