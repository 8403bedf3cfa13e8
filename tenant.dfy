/**
 * Tenant actions. Tenants carry no organization of their own: `getTenants`
 * reaches the organization through lease, unit and property. The tenant
 * dashboard figures are computed for the tenant whose email is the session's.
 */
module Tenants {
  import opened Common
  import opened Seqs
  import opened Store

  datatype TenantInput = TenantInput(
    firstName: string, lastName: string, email: string, phone: string, emergencyContact: Option<string>)

  /** The tenant schema. */
  predicate TenantInputValid(d: TenantInput) {
    |d.firstName| >= 2 && |d.lastName| >= 2 && IsEmail(d.email) && |d.phone| >= 10
  }

  /** The inserted row: the validated fields and nothing else (the row type has no organization column). */
  function NewTenant(id: string, d: TenantInput, now: int): Tenant {
    Tenant(id, d.firstName, d.lastName, d.email, d.phone, d.emergencyContact, now)
  }

  /** The database accepts the tenant: fresh id and an email no tenant has. */
  predicate CanInsertTenant(t: Tables, x: Tenant) {
    KeyFree(t.tenants, TenantId, x.id) && KeyFree(t.tenants, TenantEmail, x.email)
  }

  function CreateTenantReply(t: Tables, session: Option<Session>, data: TenantInput, newId: string, now: int)
    : (r: Reply<string>)
    ensures r == Thrown("Unauthorized") <==> OrgOf(session).None?
    ensures r == Err("Invalid fields") <==> OrgOf(session).Some? && !TenantInputValid(data)
    ensures r == Ok(newId) <==> OrgOf(session).Some? && TenantInputValid(data) && CanInsertTenant(t, NewTenant(newId, data, now))
    ensures r.Ok? ==> r.value == newId
  {
    if OrgOf(session).None? then Thrown("Unauthorized")
    else if !TenantInputValid(data) then Err("Invalid fields")
    else if !CanInsertTenant(t, NewTenant(newId, data, now)) then Err("Failed to create tenant")
    else Ok(newId)
  }

  method CreateTenant(db: Db, session: Option<Session>, data: TenantInput, newId: string, now: int)
    returns (r: Reply<string>)
    requires db.Valid()
    modifies db
    ensures db.Valid()
    ensures r == CreateTenantReply(old(db.t), session, data, newId, now)
    ensures r.Ok? ==> db.t == old(db.t).(tenants := old(db.t).tenants + [NewTenant(newId, data, now)])
    ensures !r.Ok? ==> db.t == old(db.t)
  {
    if OrgOf(session).None? {
      return Thrown("Unauthorized");
    }
    if !TenantInputValid(data) {
      return Err("Invalid fields");
    }
    var x := NewTenant(newId, data, now);
    if !CanInsertTenant(db.t, x) {
      return Err("Failed to create tenant");
    }
    AppendUnique(db.t.tenants, TenantId, x);
    AppendUnique(db.t.tenants, TenantEmail, x);
    db.t := db.t.(tenants := db.t.tenants + [x]);
    return Ok(newId);
  }

  // ---------------------------------------------------------------------------
  // getTenants
  // ---------------------------------------------------------------------------

  /** The organization owning the property a unit stands on. */
  function UnitOrg(t: Tables, unitId: string): Option<string> {
    match FindUnit(t, unitId)
    case None => None
    case Some(u) => PropertyOrg(t, u.propertyId)
  }

  /** The tenant has some lease, active or not, on a property of `org`. */
  predicate LeasedInOrg(t: Tables, org: string, tenantId: string) {
    exists i :: 0 <= i < |t.leases| && t.leases[i].tenantId == tenantId && UnitOrg(t, t.leases[i].unitId) == Some(org)
  }

  /** Some user has this email (`hasAccount`). */
  predicate HasAccount(t: Tables, email: string) {
    exists i :: 0 <= i < |t.users| && t.users[i].email == email
  }

  function TenantInOrg(t: Tables, org: string): Tenant -> bool {
    (x: Tenant) => LeasedInOrg(t, org, x.id)
  }

  function ActiveLeaseOf(tenantId: string): Lease -> bool {
    (l: Lease) => l.isActive && l.tenantId == tenantId
  }

  function TenantCreatedAt(x: Tenant): int { x.createdAt }

  datatype TenantView = TenantView(tenant: Tenant, activeLeases: seq<Lease>, hasAccount: bool)

  /** A tenant with its active leases and whether a user account has its email. */
  function ViewOf(t: Tables, x: Tenant): TenantView {
    TenantView(x, Filter(t.leases, ActiveLeaseOf(x.id)), HasAccount(t, x.email))
  }

  function TenantViews(t: Tables, xs: seq<Tenant>): (r: seq<TenantView>)
    ensures |r| == |xs| && forall i :: 0 <= i < |xs| ==> r[i] == ViewOf(t, xs[i])
  {
    MapSeq(xs, (x: Tenant) => ViewOf(t, x))
  }

  /** The organization's tenants, newest first. */
  function ScopedTenants(t: Tables, org: string): (r: seq<Tenant>)
    ensures forall i :: 0 <= i < |r| ==> r[i] in t.tenants && LeasedInOrg(t, org, r[i].id)
    ensures forall j :: 0 <= j < |t.tenants| && LeasedInOrg(t, org, t.tenants[j].id) ==> t.tenants[j] in r
    ensures forall i, j :: 0 <= i < j < |r| ==> r[i].createdAt >= r[j].createdAt
  {
    SortedFilter(t.tenants, TenantInOrg(t, org), TenantCreatedAt)
  }

  /**
   * `getTenants`: the tenants with some lease in the organization, newest
   * first, each with only its active leases and whether a user account has its email.
   */
  function GetTenants(t: Tables, session: Option<Session>): (r: seq<TenantView>)
    ensures OrgOf(session).None? ==> r == []
    ensures OrgOf(session).Some? ==> |r| == |ScopedTenants(t, OrgOf(session).value)|
  {
    match OrgOf(session)
    case None => []
    case Some(org) => TenantViews(t, ScopedTenants(t, org))
  }

  /** Every listed tenant has a lease in the organization and is shown with its active leases and account flag. */
  lemma GetTenantsScoped(t: Tables, session: Option<Session>)
    requires OrgOf(session).Some?
    ensures var r := GetTenants(t, session);
      forall i :: 0 <= i < |r| ==>
        r[i].tenant in t.tenants && LeasedInOrg(t, OrgOf(session).value, r[i].tenant.id) && r[i] == ViewOf(t, r[i].tenant)
  {
    var org := OrgOf(session).value;
    var xs := ScopedTenants(t, org);
    var r := TenantViews(t, xs);
    assert GetTenants(t, session) == r;
    forall i | 0 <= i < |r|
      ensures r[i].tenant in t.tenants && LeasedInOrg(t, org, r[i].tenant.id) && r[i] == ViewOf(t, r[i].tenant)
    {
      assert r[i] == ViewOf(t, xs[i]);
    }
  }

  /** Every tenant with a lease in the organization is listed. */
  lemma GetTenantsComplete(t: Tables, session: Option<Session>, j: nat)
    requires OrgOf(session).Some? && j < |t.tenants| && LeasedInOrg(t, OrgOf(session).value, t.tenants[j].id)
    ensures exists i :: 0 <= i < |GetTenants(t, session)| && GetTenants(t, session)[i].tenant == t.tenants[j]
  {
    var r := GetTenants(t, session);
    var xs := ScopedTenants(t, OrgOf(session).value);
    var i :| 0 <= i < |xs| && xs[i] == t.tenants[j];
    assert r[i].tenant == t.tenants[j];
  }

  /** The list is ordered newest first. */
  lemma GetTenantsSorted(t: Tables, session: Option<Session>)
    ensures var r := GetTenants(t, session);
      forall i, j :: 0 <= i < j < |r| ==> r[i].tenant.createdAt >= r[j].tenant.createdAt
  {
    if OrgOf(session).Some? {
      var r := GetTenants(t, session);
      var xs := ScopedTenants(t, OrgOf(session).value);
      assert forall i :: 0 <= i < |r| ==> r[i].tenant == xs[i];
    }
  }

  // ---------------------------------------------------------------------------
  // getTenantById
  // ---------------------------------------------------------------------------

  datatype TenantDetail = TenantDetail(tenant: Tenant, leases: seq<Lease>)

  function LeaseOf(tenantId: string): Lease -> bool {
    (l: Lease) => l.tenantId == tenantId
  }

  function LeaseStart(l: Lease): int { DateKey(l.startDate) }

  /** `getTenantById`: needs an organization in the session, but does not check the tenant belongs to it. */
  function GetTenantById(t: Tables, session: Option<Session>, id: string): (r: Option<TenantDetail>)
    ensures r.Some? <==> OrgOf(session).Some? && FindTenant(t, id).Some?
    ensures r.Some? ==> r.value.tenant == FindTenant(t, id).value
    ensures r.Some? ==> multiset(r.value.leases) == multiset(Filter(t.leases, LeaseOf(id)))
    ensures r.Some? ==> forall i, j :: 0 <= i < j < |r.value.leases| ==>
      DateKey(r.value.leases[i].startDate) >= DateKey(r.value.leases[j].startDate)
  {
    if OrgOf(session).None? then None
    else match FindTenant(t, id)
      case None => None
      case Some(x) => Some(TenantDetail(x, SortBy(Filter(t.leases, LeaseOf(id)), LeaseStart)))
  }

  // ---------------------------------------------------------------------------
  // getTenantDashboardStats
  // ---------------------------------------------------------------------------

  datatype DashboardStats = DashboardStats(
    tenantName: Option<string>, nextRentDate: Option<Date>, nextRentAmount: int,
    balance: int, openRequests: nat, recentActivity: seq<Payment>)

  /** The first day of the month after `today`. */
  function FirstOfNextMonth(today: Date): (r: Date)
    ensures r.day == 1 && ValidDate(r) && MonthIndex(r) == MonthIndex(today) + 1
  {
    var m := MonthOfIndex(MonthIndex(today) + 1);
    Date(m.0, m.1, 1)
  }

  /** December rolls into January of the next year; any other month moves to the next month of the same year. */
  lemma NextMonthRollsOver(today: Date)
    requires ValidDate(today)
    ensures today.month == 11 ==> FirstOfNextMonth(today) == Date(today.year + 1, 0, 1)
    ensures today.month < 11 ==> FirstOfNextMonth(today) == Date(today.year, today.month + 1, 1)
  {
    var r := FirstOfNextMonth(today);
    MonthIndexInjective(r, if today.month == 11 then Date(today.year + 1, 0, 1) else Date(today.year, today.month + 1, 1));
  }

  function PendingFor(leaseId: string): Invoice -> bool {
    (i: Invoice) => i.leaseId == leaseId && i.status == "PENDING"
  }

  function InvoiceAmount(i: Invoice): int { i.amount }

  /** Sum of the lease's PENDING invoices (`reduce` from 0). */
  function Balance(t: Tables, leaseId: string): int {
    SumWhere(t.invoices, PendingFor(leaseId), InvoiceAmount)
  }

  /** A new PENDING invoice on the lease raises the balance by its amount; any other invoice leaves it. */
  lemma BalanceAfterInvoice(t: Tables, leaseId: string, inv: Invoice)
    ensures Balance(t.(invoices := t.invoices + [inv]), leaseId) ==
      Balance(t, leaseId) + (if inv.leaseId == leaseId && inv.status == "PENDING" then inv.amount else 0)
  {
    SumWhereAppend(t.invoices, inv, PendingFor(leaseId), InvoiceAmount);
  }

  predicate IsOpen(s: RequestStatus) {
    s != Completed && s != Closed
  }

  function OpenRequestOf(tenantId: string): Request -> bool {
    (q: Request) => q.tenantId == Some(tenantId) && IsOpen(q.status)
  }

  function PaymentOn(leaseId: string): Payment -> bool {
    (p: Payment) => p.leaseId == leaseId
  }

  function PaymentDate(p: Payment): int { DateKey(p.date) }

  /** The lease's five most recent payments, newest first. */
  function RecentPayments(t: Tables, leaseId: string): (r: seq<Payment>)
    ensures |r| == Min(5, CountWhere(t.payments, PaymentOn(leaseId)))
    ensures multiset(r) <= multiset(Filter(t.payments, PaymentOn(leaseId)))
    ensures forall i :: 0 <= i < |r| ==> r[i] in t.payments && r[i].leaseId == leaseId
    ensures forall i, j :: 0 <= i < j < |r| ==> DateKey(r[i].date) >= DateKey(r[j].date)
  {
    Latest(t.payments, PaymentOn(leaseId), PaymentDate, 5)
  }

  /** A payment on the lease left out of the five is no more recent than any of them. */
  lemma RecentPaymentsNewest(t: Tables, leaseId: string, k: nat)
    requires k < |t.payments| && t.payments[k].leaseId == leaseId
    requires t.payments[k] !in RecentPayments(t, leaseId)
    ensures |RecentPayments(t, leaseId)| == 5
    ensures forall i :: 0 <= i < 5 ==> DateKey(RecentPayments(t, leaseId)[i].date) >= DateKey(t.payments[k].date)
  {
    LatestNewest(t.payments, PaymentOn(leaseId), PaymentDate, 5, t.payments[k]);
  }

  /** `getTenantDashboardStats` for the tenant whose email is the session's; `today` is the clock. */
  function TenantDashboardStats(t: Tables, session: Option<Session>, today: Date): (r: Option<DashboardStats>)
    ensures r.None? <==> EmailOf(session).None?
    ensures r.Some? && FindTenantByEmail(t, EmailOf(session).value).None? ==>
      r.value == DashboardStats(session.value.name, None, 0, 0, 0, [])
    ensures r.Some? && FindTenantByEmail(t, EmailOf(session).value).Some? ==>
      var x := FindTenantByEmail(t, EmailOf(session).value).value;
      var active := Filter(t.leases, ActiveLeaseOf(x.id));
      r.value.tenantName == Some(x.firstName + " " + x.lastName) &&
      r.value.openRequests == |Filter(t.requests, OpenRequestOf(x.id))| &&
      (|active| == 0 ==> r.value.nextRentDate.None? && r.value.nextRentAmount == 0 && r.value.balance == 0 &&
                         r.value.recentActivity == []) &&
      (|active| > 0 ==> r.value.nextRentDate == Some(FirstOfNextMonth(today)) &&
                        r.value.nextRentAmount == active[0].rentAmount &&
                        r.value.balance == Balance(t, active[0].id) &&
                        r.value.recentActivity == RecentPayments(t, active[0].id))
  {
    match EmailOf(session)
    case None => None
    case Some(email) =>
      match FindTenantByEmail(t, email)
      case None => Some(DashboardStats(session.value.name, None, 0, 0, 0, []))
      case Some(x) =>
        var active := Filter(t.leases, ActiveLeaseOf(x.id));
        var open := |Filter(t.requests, OpenRequestOf(x.id))|;
        var name := Some(x.firstName + " " + x.lastName);
        if |active| == 0 then Some(DashboardStats(name, None, 0, 0, open, []))
        else
          var lease := active[0];
          Some(DashboardStats(name, Some(FirstOfNextMonth(today)), lease.rentAmount,
                              Balance(t, lease.id), open, RecentPayments(t, lease.id)))
  }

  // ---------------------------------------------------------------------------
  // createTenantAccount
  // ---------------------------------------------------------------------------

  /** The fixed temporary password every tenant account starts with. */
  const TempPassword := "TenantPassword123!"

  /** The database accepts the user: fresh id and email, and an existing organization. */
  predicate CanInsertUser(t: Tables, u: User) {
    KeyFree(t.users, UserId, u.id) && KeyFree(t.users, UserEmail, u.email) && FindOrganization(t, u.organizationId).Some?
  }

  function TenantUser(id: string, email: string, x: Tenant, org: string, passwordHash: string): User {
    User(id, email, passwordHash, x.firstName, x.lastName, TenantRole, org)
  }

  /**
   * `createTenantAccount`. `hash` stands for the password hasher. The welcome
   * email is sent after the insert and its failure is swallowed, so it has no
   * bearing on the reply.
   */
  function CreateTenantAccountReply(t: Tables, session: Option<Session>, tenantId: string, email: string,
                                    newId: string, hash: string -> string): (r: Reply<string>)
    ensures r == Err("Unauthorized") <==> OrgOf(session).None?
    ensures r == Err("User with this email already exists") <==>
      OrgOf(session).Some? && FindUserByEmail(t, email).Some?
    ensures r == Err("Tenant not found") <==>
      OrgOf(session).Some? && FindUserByEmail(t, email).None? && FindTenant(t, tenantId).None?
    ensures r.Ok? <==> (OrgOf(session).Some? && FindUserByEmail(t, email).None? && FindTenant(t, tenantId).Some? &&
      CanInsertUser(t, TenantUser(newId, email, FindTenant(t, tenantId).value, OrgOf(session).value, hash(TempPassword))))
    ensures r.Ok? ==> r.value == TempPassword
    ensures !r.Thrown?
  {
    var org := OrgOf(session);
    if org.None? then Err("Unauthorized")
    else if FindUserByEmail(t, email).Some? then Err("User with this email already exists")
    else match FindTenant(t, tenantId)
      case None => Err("Tenant not found")
      case Some(x) =>
        if !CanInsertUser(t, TenantUser(newId, email, x, org.value, hash(TempPassword))) then Err("Failed to create account")
        else Ok(TempPassword)
  }

  method CreateTenantAccount(db: Db, session: Option<Session>, tenantId: string, email: string,
                             newId: string, hash: string -> string) returns (r: Reply<string>)
    requires db.Valid()
    modifies db
    ensures db.Valid()
    ensures r == CreateTenantAccountReply(old(db.t), session, tenantId, email, newId, hash)
    ensures r.Ok? ==> db.t == old(db.t).(users := old(db.t).users +
      [TenantUser(newId, email, FindTenant(old(db.t), tenantId).value, OrgOf(session).value, hash(TempPassword))])
    ensures !r.Ok? ==> db.t == old(db.t)
  {
    var org := OrgOf(session);
    if org.None? {
      return Err("Unauthorized");
    }
    if FindUserByEmail(db.t, email).Some? {
      return Err("User with this email already exists");
    }
    var tenant := FindTenant(db.t, tenantId);
    if tenant.None? {
      return Err("Tenant not found");
    }
    var user := TenantUser(newId, email, tenant.value, org.value, hash(TempPassword));
    if !CanInsertUser(db.t, user) {
      return Err("Failed to create account");
    }
    AppendUnique(db.t.users, UserId, user);
    AppendUnique(db.t.users, UserEmail, user);
    db.t := db.t.(users := db.t.users + [user]);
    return Ok(TempPassword);
  }
}
