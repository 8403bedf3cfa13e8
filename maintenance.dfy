/**
 * Maintenance requests: submission by tenants or staff, the scoped list, and
 * status changes by staff with a notification to the tenant's account.
 */
module Maintenance {
  import opened Common
  import opened Seqs
  import opened Store
  import opened Notifications

  // ---------------------------------------------------------------------------
  // createMaintenanceRequest
  // ---------------------------------------------------------------------------

  /** The form data; the declared schema (title >= 5, description >= 10) is never applied by the action. */
  datatype RequestInput = RequestInput(title: string, description: string, priority: Priority, unitId: string)

  /** The tenant record whose email is the session's email. */
  function SessionTenant(t: Tables, session: Option<Session>): (r: Option<Tenant>)
    ensures r.Some? ==> session.Some? && r.value in t.tenants && r.value.email == session.value.email
  {
    if session.None? then None else FindTenantByEmail(t, session.value.email)
  }

  /** A new request is SUBMITTED, on its unit's property, linked to the submitter's tenant record if there is one. */
  function NewRequest(id: string, d: RequestInput, propertyId: string, tenantId: Option<string>, now: int): (q: Request)
    ensures q.status == Submitted && q.unitId == d.unitId && q.propertyId == propertyId && q.tenantId == tenantId
  {
    Request(id, d.title, d.description, d.priority, Submitted, d.unitId, propertyId, tenantId, now)
  }

  /** The database accepts the request: fresh id, and the unit, the property and the tenant it names exist. */
  predicate CanInsertRequest(t: Tables, q: Request) {
    KeyFree(t.requests, RequestId, q.id) && FindUnit(t, q.unitId).Some? && FindProperty(t, q.propertyId).Some? &&
    (q.tenantId.Some? ==> FindTenant(t, q.tenantId.value).Some?)
  }

  function TenantIdOf(x: Option<Tenant>): (r: Option<string>)
    ensures r.Some? <==> x.Some?
    ensures x.Some? ==> r.value == x.value.id
  {
    match x
    case None => None
    case Some(tenant) => Some(tenant.id)
  }

  /** The request `createMaintenanceRequest` inserts, once the unit is found. */
  function SubmittedRequest(t: Tables, session: Option<Session>, d: RequestInput, newId: string, now: int): Request
    requires FindUnit(t, d.unitId).Some?
  {
    NewRequest(newId, d, FindUnit(t, d.unitId).value.propertyId, TenantIdOf(SessionTenant(t, session)), now)
  }

  function CreateRequestReply(t: Tables, session: Option<Session>, d: RequestInput, newId: string, now: int): (r: Reply<()>)
    ensures r == Thrown("Unauthorized") <==> UserOf(session).None?
    ensures r == Err("Tenant profile not found.") <==>
      (UserOf(session).Some? && SessionTenant(t, session).None? && RoleOf(session) == Some(TenantRole))
    ensures r == Err("Unit not found") <==>
      (UserOf(session).Some? && (SessionTenant(t, session).Some? || RoleOf(session) != Some(TenantRole)) &&
       FindUnit(t, d.unitId).None?)
    ensures r == Ok(()) <==>
      (UserOf(session).Some? && (SessionTenant(t, session).Some? || RoleOf(session) != Some(TenantRole)) &&
       FindUnit(t, d.unitId).Some? && CanInsertRequest(t, SubmittedRequest(t, session, d, newId, now)))
    ensures r.Err? ==> r.error in {"Tenant profile not found.", "Unit not found", "Failed to submit request"}
  {
    if UserOf(session).None? then Thrown("Unauthorized")
    else if SessionTenant(t, session).None? && RoleOf(session) == Some(TenantRole) then Err("Tenant profile not found.")
    else if FindUnit(t, d.unitId).None? then Err("Unit not found")
    else if !CanInsertRequest(t, SubmittedRequest(t, session, d, newId, now)) then Err("Failed to submit request")
    else Ok(())
  }

  /** `createMaintenanceRequest`; `newId` and `now` are the generated id and the clock. */
  method CreateMaintenanceRequest(db: Db, session: Option<Session>, d: RequestInput, newId: string, now: int)
    returns (r: Reply<()>)
    requires db.Valid()
    modifies db
    ensures db.Valid()
    ensures r == CreateRequestReply(old(db.t), session, d, newId, now)
    ensures r.Ok? ==> db.t == old(db.t).(requests := old(db.t).requests + [SubmittedRequest(old(db.t), session, d, newId, now)])
    ensures !r.Ok? ==> db.t == old(db.t)
  {
    if UserOf(session).None? {
      return Thrown("Unauthorized");
    }
    var tenantRecord := SessionTenant(db.t, session);
    if tenantRecord.None? && RoleOf(session) == Some(TenantRole) {
      return Err("Tenant profile not found.");
    }
    var unit := FindUnit(db.t, d.unitId);
    if unit.None? {
      return Err("Unit not found");
    }
    var q := NewRequest(newId, d, unit.value.propertyId, TenantIdOf(tenantRecord), now);
    if !CanInsertRequest(db.t, q) {
      return Err("Failed to submit request");
    }
    AppendUnique(db.t.requests, RequestId, q);
    db.t := db.t.(requests := db.t.requests + [q]);
    return Ok(());
  }

  /** Neither the title nor the description is checked: a one-letter title is submitted like any other. */
  lemma ShortTitleAccepted(t: Tables, session: Option<Session>, d: RequestInput, newId: string, now: int)
    requires UserOf(session).Some? && RoleOf(session) != Some(TenantRole)
    requires FindUnit(t, d.unitId).Some? && CanInsertRequest(t, SubmittedRequest(t, session, d, newId, now))
    requires |d.title| < 5 && |d.description| < 10
    ensures CreateRequestReply(t, session, d, newId, now) == Ok(())
  {
  }

  // ---------------------------------------------------------------------------
  // getMaintenanceRequests
  // ---------------------------------------------------------------------------

  /** The tables that decide which requests a caller sees: everything but the requests. */
  function Context(t: Tables): Tables {
    t.(requests := [])
  }

  /** The tenant id the list is narrowed to: only for a TENANT caller with a tenant record. */
  function Narrowing(t: Tables, session: Option<Session>): (r: Option<string>)
    ensures r.Some? <==> RoleOf(session) == Some(TenantRole) && SessionTenant(t, session).Some?
    ensures r.Some? ==> r.value == SessionTenant(t, session).value.id
  {
    if RoleOf(session) == Some(TenantRole) then TenantIdOf(SessionTenant(t, session)) else None
  }

  /** The `where` object: the request's property is the organization's, and, when narrowed, the tenant matches. */
  function Visible(c: Tables, org: string, tenantId: Option<string>): Request -> bool {
    (q: Request) => OwnedProperty(c, org, q.propertyId) && (tenantId.None? || q.tenantId == tenantId)
  }

  function RequestCreatedAt(q: Request): int { q.createdAt }

  /** `getMaintenanceRequests`: [] without an organization, else the visible requests, newest first. */
  function GetMaintenanceRequests(t: Tables, session: Option<Session>): (r: seq<Request>)
    ensures OrgOf(session).None? ==> r == []
    ensures |r| <= |t.requests|
  {
    match OrgOf(session)
    case None => []
    case Some(org) =>
      SortedFilter(t.requests, Visible(Context(t), org, Narrowing(Context(t), session)), RequestCreatedAt)
  }

  /** Only the organization's requests are listed, and a narrowed caller sees only their own. */
  lemma GetMaintenanceRequestsScoped(t: Tables, session: Option<Session>)
    requires OrgOf(session).Some?
    ensures var r := GetMaintenanceRequests(t, session);
      forall i :: 0 <= i < |r| ==>
        r[i] in t.requests && OwnedProperty(t, OrgOf(session).value, r[i].propertyId) &&
        (Narrowing(t, session).Some? ==> r[i].tenantId == Narrowing(t, session))
  {
    assert Narrowing(Context(t), session) == Narrowing(t, session);
  }

  /** Every visible request is listed. */
  lemma GetMaintenanceRequestsComplete(t: Tables, session: Option<Session>, j: nat)
    requires OrgOf(session).Some? && j < |t.requests| && OwnedProperty(t, OrgOf(session).value, t.requests[j].propertyId)
    requires Narrowing(t, session).None? || t.requests[j].tenantId == Narrowing(t, session)
    ensures t.requests[j] in GetMaintenanceRequests(t, session)
  {
    assert Narrowing(Context(t), session) == Narrowing(t, session);
    assert Visible(Context(t), OrgOf(session).value, Narrowing(t, session))(t.requests[j]);
  }

  lemma GetMaintenanceRequestsSorted(t: Tables, session: Option<Session>)
    ensures var r := GetMaintenanceRequests(t, session);
      forall i, j :: 0 <= i < j < |r| ==> r[i].createdAt >= r[j].createdAt
  {
  }

  /** A TENANT caller without a tenant record sees exactly what a property manager of the organization sees. */
  lemma UnmatchedTenantNotNarrowed(t: Tables, session: Option<Session>)
    requires RoleOf(session) == Some(TenantRole) && SessionTenant(t, session).None?
    ensures GetMaintenanceRequests(t, session) ==
      GetMaintenanceRequests(t, Some(session.value.(role := Some(PropertyManager))))
  {
    var manager := Some(session.value.(role := Some(PropertyManager)));
    assert OrgOf(manager) == OrgOf(session);
    assert Narrowing(Context(t), session).None?;
    assert Narrowing(Context(t), manager).None?;
  }

  /** A request just submitted on one of the organization's units is listed for the organization's staff. */
  lemma SubmittedRequestListed(t: Tables, session: Option<Session>, d: RequestInput, newId: string, now: int,
                               viewer: Option<Session>)
    requires CreateRequestReply(t, session, d, newId, now) == Ok(())
    requires OrgOf(viewer).Some? && RoleOf(viewer) != Some(TenantRole)
    requires OwnedProperty(t, OrgOf(viewer).value, FindUnit(t, d.unitId).value.propertyId)
    ensures SubmittedRequest(t, session, d, newId, now) in
      GetMaintenanceRequests(t.(requests := t.requests + [SubmittedRequest(t, session, d, newId, now)]), viewer)
  {
    var q := SubmittedRequest(t, session, d, newId, now);
    var t' := t.(requests := t.requests + [q]);
    assert t'.requests[|t.requests|] == q;
    assert OwnedProperty(t', OrgOf(viewer).value, q.propertyId) by {
      assert Context(t') == Context(t);
    }
    GetMaintenanceRequestsComplete(t', viewer, |t.requests|);
  }

  // ---------------------------------------------------------------------------
  // updateMaintenanceStatus
  // ---------------------------------------------------------------------------

  /** The roles allowed to change a request's status. */
  predicate MayUpdateStatus(role: Option<Role>) {
    role == Some(SuperAdmin) || role == Some(PropertyManager) || role == Some(MaintenanceStaff)
  }

  function RequestIndex(t: Tables, id: string): (r: Option<nat>)
    ensures r.Some? ==> r.value < |t.requests| && t.requests[r.value].id == id
    ensures r.None? <==> KeyFree(t.requests, RequestId, id)
  {
    IndexWhere(t.requests, (q: Request) => q.id == id)
  }

  function UpdateStatusReply(t: Tables, session: Option<Session>, id: string): (r: Reply<()>)
    ensures r == Err("Unauthorized") <==> !MayUpdateStatus(RoleOf(session))
    ensures r == Ok(()) <==> MayUpdateStatus(RoleOf(session)) && RequestIndex(t, id).Some?
    ensures r.Err? && MayUpdateStatus(RoleOf(session)) ==> r.error == "Failed to update status"
    ensures !r.Thrown?
  {
    if !MayUpdateStatus(RoleOf(session)) then Err("Unauthorized")
    // the update of a missing row throws and the action's catch returns the error
    else if RequestIndex(t, id).None? then Err("Failed to update status")
    else Ok(())
  }

  /** The account of the request's tenant: the tenant has a non-empty email and some user has it. */
  function StatusRecipient(t: Tables, q: Request): (r: Option<User>)
    ensures r.Some? ==> r.value in t.users
    ensures r.Some? <==> (q.tenantId.Some? && FindTenant(t, q.tenantId.value).Some? &&
      FindTenant(t, q.tenantId.value).value.email != "" &&
      !KeyFree(t.users, UserEmail, FindTenant(t, q.tenantId.value).value.email))
  {
    match q.tenantId
    case None => None
    case Some(tid) =>
      match FindTenant(t, tid)
      case None => None
      case Some(x) => if x.email == "" then None else FindUserByEmail(t, x.email)
  }

  function StatusMessage(title: string, status: RequestStatus): string {
    "Your maintenance request \"" + title + "\" is now " + RequestStatusName(status) + "."
  }

  /** The store after a successful `updateMaintenanceStatus`: the new status, then the tenant's notification. */
  function AfterStatusUpdate(t: Tables, id: string, status: RequestStatus, notificationId: string, now: int): Tables
    requires RequestIndex(t, id).Some?
  {
    var k := RequestIndex(t, id).value;
    var q := t.requests[k].(status := status);
    var t1 := t.(requests := t.requests[k := q]);
    match StatusRecipient(t1, q)
    case None => t1
    case Some(u) =>
      Notify(t1, NewNotification(notificationId, u.id, "Maintenance Update", StatusMessage(q.title, status), Info, now))
  }

  /**
   * `updateMaintenanceStatus`. `notificationId` and `now` belong to the
   * tenant's notification; the update email has no effect on the store or the
   * reply.
   */
  method UpdateMaintenanceStatus(db: Db, session: Option<Session>, id: string, status: RequestStatus,
                                 notificationId: string, now: int)
    returns (r: Reply<()>)
    requires db.Valid()
    modifies db
    ensures db.Valid()
    ensures r == UpdateStatusReply(old(db.t), session, id)
    ensures r.Ok? ==> db.t == AfterStatusUpdate(old(db.t), id, status, notificationId, now)
    ensures !r.Ok? ==> db.t == old(db.t)
  {
    if !MayUpdateStatus(RoleOf(session)) {
      return Err("Unauthorized");
    }
    var k := RequestIndex(db.t, id);
    if k.None? {
      return Err("Failed to update status");
    }
    var q := db.t.requests[k.value].(status := status);
    ReplaceUnique(db.t.requests, RequestId, k.value, q);
    db.t := db.t.(requests := db.t.requests[k.value := q]);
    var recipient := StatusRecipient(db.t, q);
    if recipient.Some? {
      CreateNotification(db, recipient.value.id, "Maintenance Update", StatusMessage(q.title, status), Some(Info),
                         notificationId, now);
    }
    return Ok(());
  }

  /**
   * A permitted update sets exactly the given status on the request with that
   * id, leaves every other request and every other table but the
   * notifications as they were, and adds at most the tenant's notification.
   */
  lemma StatusUpdateChangesOnlyStatus(t: Tables, id: string, status: RequestStatus, notificationId: string, now: int)
    requires RequestIndex(t, id).Some?
    ensures var t' := AfterStatusUpdate(t, id, status, notificationId, now);
      var k := RequestIndex(t, id).value;
      |t'.requests| == |t.requests| &&
      t'.requests[k] == t.requests[k].(status := status) &&
      (forall i :: 0 <= i < |t.requests| && i != k ==> t'.requests[i] == t.requests[i]) &&
      t'.(notifications := t.notifications, requests := t.requests) == t &&
      |t.notifications| <= |t'.notifications| <= |t.notifications| + 1 &&
      t'.notifications[..|t.notifications|] == t.notifications
  {
  }

  /** The status gate looks only at the role: staff of any organization may update any organization's request. */
  lemma UpdateIgnoresOrganization(t: Tables, session: Option<Session>, id: string)
    requires MayUpdateStatus(RoleOf(session)) && RequestIndex(t, id).Some?
    requires OrgOf(session) != PropertyOrg(t, t.requests[RequestIndex(t, id).value].propertyId)
    ensures UpdateStatusReply(t, session, id) == Ok(())
  {
  }
}
