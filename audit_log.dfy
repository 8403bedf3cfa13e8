/**
 * The activity log. Reading it needs an organization in the session and
 * never fails; writing to it is best effort: a missing caller or a refused
 * insert leaves the log as it was and never reaches the action that asked.
 */
module AuditLogs {
  import opened Common
  import opened Seqs
  import opened Store

  /** The `limit` of `getAuditLogs()` when none is given. */
  const DefaultLimit: nat := 50

  function LogOfOrg(org: string): AuditLog -> bool {
    (a: AuditLog) => a.organizationId == org
  }

  function LogCreatedAt(a: AuditLog): int { a.createdAt }

  /** `getAuditLogs(limit)`: the organization's newest `limit` entries, newest first; none without an organization. */
  function GetAuditLogs(t: Tables, session: Option<Session>, limit: nat): (r: seq<AuditLog>)
    ensures OrgOf(session).None? ==> r == []
    ensures OrgOf(session).Some? ==> |r| == Min(limit, CountWhere(t.auditLogs, LogOfOrg(OrgOf(session).value)))
    ensures OrgOf(session).Some? ==> multiset(r) <= multiset(Filter(t.auditLogs, LogOfOrg(OrgOf(session).value)))
    ensures forall i :: 0 <= i < |r| ==> r[i] in t.auditLogs && Some(r[i].organizationId) == OrgOf(session)
    ensures forall i, j :: 0 <= i < j < |r| ==> r[i].createdAt >= r[j].createdAt
  {
    match OrgOf(session)
    case None => []
    case Some(org) => Latest(t.auditLogs, LogOfOrg(org), LogCreatedAt, limit)
  }

  /** `getAuditLogs()` called with no argument: at most fifty entries, all the organization's when it has no more. */
  function GetAuditLogsDefault(t: Tables, session: Option<Session>): (r: seq<AuditLog>)
    ensures |r| <= DefaultLimit
    ensures OrgOf(session).Some? && CountWhere(t.auditLogs, LogOfOrg(OrgOf(session).value)) <= DefaultLimit ==>
      |r| == CountWhere(t.auditLogs, LogOfOrg(OrgOf(session).value))
  {
    GetAuditLogs(t, session, DefaultLimit)
  }

  /** An entry of the organization left out is no newer than any shown, and `limit` entries are shown. */
  lemma GetAuditLogsNewest(t: Tables, session: Option<Session>, limit: nat, j: nat)
    requires OrgOf(session).Some? && j < |t.auditLogs| && Some(t.auditLogs[j].organizationId) == OrgOf(session)
    requires t.auditLogs[j] !in GetAuditLogs(t, session, limit)
    ensures |GetAuditLogs(t, session, limit)| == limit
    ensures forall i :: 0 <= i < limit ==> GetAuditLogs(t, session, limit)[i].createdAt >= t.auditLogs[j].createdAt
  {
    LatestNewest(t.auditLogs, LogOfOrg(OrgOf(session).value), LogCreatedAt, limit, t.auditLogs[j]);
  }

  /** When the organization has no more entries than the limit, all of them are shown. */
  lemma GetAuditLogsComplete(t: Tables, session: Option<Session>, limit: nat, j: nat)
    requires OrgOf(session).Some? && j < |t.auditLogs| && Some(t.auditLogs[j].organizationId) == OrgOf(session)
    requires CountWhere(t.auditLogs, LogOfOrg(OrgOf(session).value)) <= limit
    ensures t.auditLogs[j] in GetAuditLogs(t, session, limit)
  {
    var all := SortedFilter(t.auditLogs, LogOfOrg(OrgOf(session).value), LogCreatedAt);
    SameMultisetSameLength(all, Filter(t.auditLogs, LogOfOrg(OrgOf(session).value)));
    assert GetAuditLogs(t, session, limit) == all;
  }

  // ---------------------------------------------------------------------------
  // logActivity
  // ---------------------------------------------------------------------------

  datatype Activity = Activity(action: string, entity: string, entityId: string, details: Option<string>)

  function NewEntry(id: string, e: Activity, user: string, org: string, now: int): (a: AuditLog)
    ensures a.userId == user && a.organizationId == org
    ensures a.action == e.action && a.entity == e.entity && a.entityId == e.entityId && a.details == e.details
  {
    AuditLog(id, e.action, e.entity, e.entityId, e.details, user, org, now)
  }

  /** The database accepts the entry: fresh id, and the user and organization exist. */
  predicate CanInsertEntry(t: Tables, a: AuditLog) {
    KeyFree(t.auditLogs, AuditLogId, a.id) && FindUser(t, a.userId).Some? && FindOrganization(t, a.organizationId).Some?
  }

  /** The log after `logActivity`: one more entry, stamped with the caller, or no change at all. */
  function AfterLog(t: Tables, session: Option<Session>, e: Activity, newId: string, now: int): (t': Tables)
    ensures t' != t <==>
      (UserOf(session).Some? && OrgOf(session).Some? &&
       CanInsertEntry(t, NewEntry(newId, e, UserOf(session).value, OrgOf(session).value, now)))
    ensures t' != t ==>
      t' == t.(auditLogs := t.auditLogs + [NewEntry(newId, e, UserOf(session).value, OrgOf(session).value, now)])
  {
    if UserOf(session).None? || OrgOf(session).None? then t
    else
      var a := NewEntry(newId, e, UserOf(session).value, OrgOf(session).value, now);
      if CanInsertEntry(t, a) then
        assert |t.auditLogs + [a]| != |t.auditLogs|;
        t.(auditLogs := t.auditLogs + [a])
      else t
  }

  /** `logActivity`: has no result and never throws; the store ends in `AfterLog`. */
  method LogActivity(db: Db, session: Option<Session>, e: Activity, newId: string, now: int)
    requires db.Valid()
    modifies db
    ensures db.Valid()
    ensures db.t == AfterLog(old(db.t), session, e, newId, now)
  {
    if UserOf(session).None? || OrgOf(session).None? {
      return;
    }
    var a := NewEntry(newId, e, UserOf(session).value, OrgOf(session).value, now);
    if !CanInsertEntry(db.t, a) {
      return;
    }
    AppendUnique(db.t.auditLogs, AuditLogId, a);
    db.t := db.t.(auditLogs := db.t.auditLogs + [a]);
  }

  /** In a newest-first list, an element strictly newer than all the others comes first. */
  lemma NewestFirst(r: seq<AuditLog>, a: AuditLog)
    requires SortedBy(r, LogCreatedAt) && a in r
    requires forall i :: 0 <= i < |r| && r[i] != a ==> r[i].createdAt < a.createdAt
    ensures |r| > 0 && r[0] == a
  {
    var k :| 0 <= k < |r| && r[k] == a;
    assert LogCreatedAt(r[0]) >= LogCreatedAt(r[k]);
  }

  /** An entry logged later than every other entry of its organization heads that organization's log. */
  lemma LoggedEntryShownFirst(t: Tables, session: Option<Session>, e: Activity, newId: string, now: int, limit: nat)
    requires UserOf(session).Some? && OrgOf(session).Some? && limit >= 1
    requires forall j :: 0 <= j < |t.auditLogs| && Some(t.auditLogs[j].organizationId) == OrgOf(session) ==>
      t.auditLogs[j].createdAt < now
    ensures var a := NewEntry(newId, e, UserOf(session).value, OrgOf(session).value, now);
      var r := GetAuditLogs(t.(auditLogs := t.auditLogs + [a]), session, limit);
      |r| > 0 && r[0] == a
  {
    var org := OrgOf(session).value;
    var a := NewEntry(newId, e, UserOf(session).value, org, now);
    var logs := t.auditLogs + [a];
    var all := SortedFilter(logs, LogOfOrg(org), LogCreatedAt);
    assert logs[|t.auditLogs|] == a;
    forall i | 0 <= i < |all| && all[i] != a
      ensures all[i].createdAt < now
    {
      var j :| 0 <= j < |logs| && logs[j] == all[i];
      assert t.auditLogs[j] == all[i];
    }
    NewestFirst(all, a);
    assert GetAuditLogs(t.(auditLogs := logs), session, limit) == Take(all, limit);
  }
}
