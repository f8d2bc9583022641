/**
 * The database helper object of the intake pipeline: the four tables held
 * in a store whose only writes are appends, and the helpers' read queries
 * (`getBrandByDomain`, `getCaseTypeBySlug`, `findRecentDuplicate`) over the
 * table contents.
 */
module LeadStore {
  import opened Common
  import opened LeadTables

  /** Ids are positive, strictly increasing in table order and below the next id to hand out. */
  ghost predicate LeadIdsOrdered(leads: seq<Lead>, next: nat) {
    (forall i :: 0 <= i < |leads| ==> 0 < leads[i].id < next)
    && (forall i, j :: 0 <= i < j < |leads| ==> leads[i].id < leads[j].id)
  }

  ghost predicate AuditIdsOrdered(log: seq<AuditEntry>, next: nat) {
    (forall i :: 0 <= i < |log| ==> 0 < log[i].id < next)
    && (forall i, j :: 0 <= i < j < |log| ==> log[i].id < log[j].id)
  }

  class Store {
    var brands: seq<Brand>
    var caseTypes: seq<CaseType>
    var leads: seq<Lead>
    var auditLog: seq<AuditEntry>
    var nextLeadId: nat
    var nextAuditId: nat

    ghost predicate Valid()
      reads this
    {
      0 < nextLeadId && 0 < nextAuditId
      && LeadIdsOrdered(leads, nextLeadId)
      && AuditIdsOrdered(auditLog, nextAuditId)
    }

    /** A store over fixed brand and case-type tables, with no leads and no audit rows yet. */
    constructor (brandRows: seq<Brand>, caseTypeRows: seq<CaseType>)
      ensures Valid()
      ensures brands == brandRows && caseTypes == caseTypeRows
      ensures leads == [] && auditLog == []
    {
      brands := brandRows;
      caseTypes := caseTypeRows;
      leads := [];
      auditLog := [];
      nextLeadId := 1;
      nextAuditId := 1;
    }

    /** `INSERT INTO leads … RETURNING *`: one new row at the end, with a fresh id and the current time. */
    method AppendLead(draft: LeadDraft, now: int) returns (row: Lead)
      requires Valid()
      modifies this
      ensures Valid()
      ensures leads == old(leads) + [row]
      ensures row.fields == draft && row.createdAt == now
      ensures forall l :: l in old(leads) ==> l.id != row.id
      ensures brands == old(brands) && caseTypes == old(caseTypes) && auditLog == old(auditLog)
    {
      row := Lead(nextLeadId, now, draft);
      leads := leads + [row];
      nextLeadId := nextLeadId + 1;
    }

    /** `INSERT INTO lead_audit_log … RETURNING *`: one new row at the end, with a fresh id. */
    method AppendAudit(draft: AuditDraft, now: int) returns (row: AuditEntry)
      requires Valid()
      modifies this
      ensures Valid()
      ensures auditLog == old(auditLog) + [row]
      ensures row.fields == draft && row.createdAt == now
      ensures forall e :: e in old(auditLog) ==> e.id != row.id
      ensures brands == old(brands) && caseTypes == old(caseTypes) && leads == old(leads)
    {
      row := AuditEntry(nextAuditId, now, draft);
      auditLog := auditLog + [row];
      nextAuditId := nextAuditId + 1;
    }

    /**
     * `db.createLead`: the thirteen listed columns come from the argument,
     * every other column is null; existing rows are untouched.
     */
    method CreateLead(lead: NewLead, now: int) returns (row: Lead)
      requires Valid()
      modifies this
      ensures Valid()
      ensures leads == old(leads) + [row]
      ensures row.fields == DraftOfNewLead(lead) && row.createdAt == now
      ensures forall l :: l in old(leads) ==> l.id != row.id
      ensures brands == old(brands) && caseTypes == old(caseTypes) && auditLog == old(auditLog)
    {
      row := AppendLead(DraftOfNewLead(lead), now);
    }

    /** `db.createAuditLog`: one row carrying exactly the given fields. */
    method CreateAuditLog(log: AuditDraft, now: int) returns (row: AuditEntry)
      requires Valid()
      modifies this
      ensures Valid()
      ensures auditLog == old(auditLog) + [row]
      ensures row.fields.leadId == log.leadId && row.fields.eventType == log.eventType
      ensures row.fields.actor == log.actor && row.fields.metadata == log.metadata
      ensures row.fields.ipAddress == log.ipAddress
      ensures brands == old(brands) && caseTypes == old(caseTypes) && leads == old(leads)
    {
      row := AppendAudit(log, now);
    }
  }

  /** The thirteen columns `db.createLead` inserts. */
  datatype NewLead = NewLead(
    brandId: nat,
    source: Option<string>,
    caseTypeId: Option<nat>,
    injuryId: Option<nat>,
    geoId: Option<nat>,
    qualifiers: Option<Json>,
    payload: Option<Payload>,
    phone: Option<string>,
    email: Option<string>,
    consentSnapshot: ConsentSnapshot,
    status: Option<string>,
    formProvider: Option<string>,
    formVersion: Option<string>)

  function DraftOfNewLead(n: NewLead): LeadDraft {
    LeadDraft(n.brandId, n.source, n.caseTypeId, n.injuryId, n.geoId, n.qualifiers, n.payload,
              n.phone, n.email, None, None, None, n.consentSnapshot, None, None, None, None,
              n.status, n.formProvider, n.formVersion)
  }

  /** The thirteen inserted columns read back from a row. */
  function ListedColumns(d: LeadDraft): NewLead {
    NewLead(d.brandId, d.source, d.caseTypeId, d.injuryId, d.geoId, d.qualifiers, d.payload,
            d.phone, d.email, d.consentSnapshot, d.status, d.formProvider, d.formVersion)
  }

  /** A row written by `db.createLead` gives back the thirteen columns it was given and nulls elsewhere. */
  lemma CreateLeadColumns(n: NewLead)
    ensures ListedColumns(DraftOfNewLead(n)) == n
    ensures var d := DraftOfNewLead(n);
      d.firstName.None? && d.lastName.None? && d.zipCode.None? && d.userAgent.None?
      && d.fingerprintData.None? && d.pageContext.None? && d.sessionId.None?
  {
  }

  /** `db.getBrandByDomain`: the first active brand whose domain is exactly the argument, or null. */
  function GetBrandByDomain(brands: seq<Brand>, domain: string): (r: Option<Brand>)
    ensures r.Some? ==> r.value in brands && r.value.domain == domain && r.value.active == Some(true)
    ensures r.None? <==> forall b :: b in brands ==> !IsActiveBrandFor(b, domain)
  {
    First(Filter(brands, b => IsActiveBrandFor(b, domain)))
  }

  /** `db.getCaseTypeBySlug`: an active case type of that brand with that slug, never another brand's. */
  function GetCaseTypeBySlug(caseTypes: seq<CaseType>, brandId: nat, slug: string): (r: Option<CaseType>)
    ensures r.Some? ==> r.value in caseTypes && r.value.brandId == brandId && r.value.slug == slug
                        && r.value.status == Some("active")
    ensures r.None? <==> forall c :: c in caseTypes ==> !IsActiveCaseTypeOf(c, brandId, slug)
  {
    First(Filter(caseTypes, c => IsActiveCaseTypeOf(c, brandId, slug)))
  }

  /**
   * `db.findRecentDuplicate`: among leads with the same phone and case type
   * created strictly within the last `hoursWindow` hours (24 unless given),
   * the most recent one, or null.
   */
  function FindRecentDuplicate(leads: seq<Lead>, phone: string, caseTypeId: nat, now: int,
                               hoursWindow: int := 24): (r: Option<Lead>)
    ensures r.Some? ==> r.value in leads && MatchesWithin(r.value, phone, caseTypeId, now, hoursWindow)
    ensures r.Some? ==> forall l :: l in leads && MatchesWithin(l, phone, caseTypeId, now, hoursWindow)
                                    ==> l.createdAt <= r.value.createdAt
    ensures r.None? <==> forall l :: l in leads ==> !MatchesWithin(l, phone, caseTypeId, now, hoursWindow)
  {
    Latest(Filter(leads, l => MatchesWithin(l, phone, caseTypeId, now, hoursWindow)))
  }
}
