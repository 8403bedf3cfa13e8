/**
 * The relational store behind the server actions. Every table is a sequence
 * of rows in insertion order; the ORM's generated ids and the clock that
 * stamps `createdAt` are supplied by the caller of each write. An insert that
 * reuses an id, breaks a unique key or names a missing parent row is refused,
 * as the database refuses it; the actions turn that refusal into their catch
 * path.
 */
module Store {
  import opened Common
  import opened Seqs

  // ---------------------------------------------------------------------------
  // Enumerations
  // ---------------------------------------------------------------------------

  datatype UnitStatus = Vacant | Occupied | Maintenance | Reserved
  datatype PropertyType = Residential | Commercial | Mixed
  datatype Priority = Low | Medium | High | Urgent
  /** `WorkOrderStatus` of a maintenance request. */
  datatype RequestStatus = Submitted | Assigned | InProgress | Completed | Closed
  datatype TaskStatus = Todo | Doing | Done
  datatype NotificationType = Info | Success | Warning | Error

  /** The enum value as the ORM spells it (interpolated into notification texts). */
  function RequestStatusName(s: RequestStatus): string {
    match s
    case Submitted => "SUBMITTED"
    case Assigned => "ASSIGNED"
    case InProgress => "IN_PROGRESS"
    case Completed => "COMPLETED"
    case Closed => "CLOSED"
  }

  // ---------------------------------------------------------------------------
  // Rows (only the columns some action reads or writes)
  // ---------------------------------------------------------------------------

  datatype Organization = Organization(id: string, name: string, slug: string)

  datatype User = User(
    id: string, email: string, passwordHash: string,
    firstName: string, lastName: string, role: Role, organizationId: string)

  datatype Property = Property(
    id: string, organizationId: string, name: string, address: string, city: string,
    state: Option<string>, country: string, zipCode: Option<string>,
    kind: PropertyType, description: Option<string>, createdAt: int)

  datatype Unit = Unit(
    id: string, propertyId: string, unitNumber: string, bedrooms: int, bathrooms: int,
    sqFt: Option<int>, marketRent: int, status: UnitStatus)

  datatype Tenant = Tenant(
    id: string, firstName: string, lastName: string, email: string, phone: string,
    emergencyContact: Option<string>, createdAt: int)

  datatype Lease = Lease(
    id: string, tenantId: string, unitId: string, startDate: Date, endDate: Date,
    rentAmount: int, depositAmount: int, isActive: bool)

  datatype Payment = Payment(id: string, leaseId: string, amount: int, payMethod: string, status: string, date: Date)

  datatype Expense = Expense(
    id: string, propertyId: string, amount: int, category: string,
    description: Option<string>, date: Date)

  datatype Invoice = Invoice(id: string, leaseId: string, amount: int, status: string)

  datatype Request = Request(
    id: string, title: string, description: string, priority: Priority, status: RequestStatus,
    unitId: string, propertyId: string, tenantId: Option<string>, createdAt: int)

  datatype Conversation = Conversation(id: string, organizationId: string, participants: seq<string>, updatedAt: int)

  datatype Message = Message(id: string, conversationId: string, senderId: string, content: string, createdAt: int)

  datatype Notification = Notification(
    id: string, userId: string, title: string, message: string,
    kind: NotificationType, read: bool, createdAt: int)

  datatype Document = Document(
    id: string, name: string, url: string, mimeType: string, size: int,
    propertyId: Option<string>, tenantId: Option<string>, createdAt: int)

  datatype Vendor = Vendor(
    id: string, organizationId: string, name: string, serviceType: string,
    email: Option<string>, phone: Option<string>, createdAt: int)

  datatype Task = Task(
    id: string, title: string, description: Option<string>, priority: Priority, status: TaskStatus,
    dueDate: Option<Date>, organizationId: string, creatorId: string, assigneeId: string, createdAt: int)

  datatype AuditLog = AuditLog(
    id: string, action: string, entity: string, entityId: string, details: Option<string>,
    userId: string, organizationId: string, createdAt: int)

  /** The whole database: one sequence of rows per table. */
  datatype Tables = Tables(
    organizations: seq<Organization>,
    users: seq<User>,
    properties: seq<Property>,
    units: seq<Unit>,
    tenants: seq<Tenant>,
    leases: seq<Lease>,
    payments: seq<Payment>,
    expenses: seq<Expense>,
    invoices: seq<Invoice>,
    requests: seq<Request>,
    conversations: seq<Conversation>,
    messages: seq<Message>,
    notifications: seq<Notification>,
    documents: seq<Document>,
    vendors: seq<Vendor>,
    tasks: seq<Task>,
    auditLogs: seq<AuditLog>)

  // ---------------------------------------------------------------------------
  // Keys and uniqueness
  // ---------------------------------------------------------------------------

  function OrganizationId(o: Organization): string { o.id }
  function OrganizationSlug(o: Organization): string { o.slug }
  function UserId(u: User): string { u.id }
  function UserEmail(u: User): string { u.email }
  function PropertyId(p: Property): string { p.id }
  function UnitId(u: Unit): string { u.id }
  /** The compound key (propertyId, unitNumber), flattened so that distinct pairs stay distinct. */
  function UnitNumberKey(u: Unit): string { NatToString(|u.propertyId|) + ":" + u.propertyId + u.unitNumber }
  function TenantId(t: Tenant): string { t.id }
  function TenantEmail(t: Tenant): string { t.email }
  function LeaseId(l: Lease): string { l.id }
  function PaymentId(p: Payment): string { p.id }
  function ExpenseId(e: Expense): string { e.id }
  function InvoiceId(i: Invoice): string { i.id }
  function RequestId(r: Request): string { r.id }
  function ConversationId(c: Conversation): string { c.id }
  function MessageId(m: Message): string { m.id }
  function NotificationId(n: Notification): string { n.id }
  function DocumentId(d: Document): string { d.id }
  function VendorId(v: Vendor): string { v.id }
  function TaskId(t: Task): string { t.id }
  function AuditLogId(a: AuditLog): string { a.id }

  /** No two rows share a key. */
  predicate UniqueKeys<T>(s: seq<T>, key: T -> string) {
    forall i, j :: 0 <= i < j < |s| ==> key(s[i]) != key(s[j])
  }

  /** No row has key `k`. */
  predicate KeyFree<T>(s: seq<T>, key: T -> string, k: string) {
    forall i :: 0 <= i < |s| ==> key(s[i]) != k
  }

  lemma AppendUnique<T>(s: seq<T>, key: T -> string, x: T)
    requires UniqueKeys(s, key) && KeyFree(s, key, key(x))
    ensures UniqueKeys(s + [x], key)
  {
  }

  /** Replacing a row by one with the same key keeps keys unique. */
  lemma ReplaceUnique<T>(s: seq<T>, key: T -> string, i: nat, x: T)
    requires UniqueKeys(s, key) && i < |s| && key(x) == key(s[i])
    ensures UniqueKeys(s[i := x], key)
  {
  }

  /** Removing rows keeps keys unique. */
  lemma {:induction false} FilterUnique<T>(s: seq<T>, key: T -> string, p: T -> bool)
    requires UniqueKeys(s, key)
    ensures UniqueKeys(Filter(s, p), key)
  {
    if |s| > 0 {
      FilterUnique(s[1..], key, p);
      var rest := Filter(s[1..], p);
      if p(s[0]) {
        assert Filter(s, p) == [s[0]] + rest;
        forall j | 0 <= j < |rest| ensures key(rest[j]) != key(s[0]) {
          var k :| 0 <= k < |s[1..]| && s[1..][k] == rest[j];
          assert s[k + 1] == rest[j];
        }
      }
    }
  }

  /** The unique keys the database enforces. */
  predicate Consistent(t: Tables) {
    UniqueKeys(t.organizations, OrganizationId) && UniqueKeys(t.organizations, OrganizationSlug) &&
    UniqueKeys(t.users, UserId) && UniqueKeys(t.users, UserEmail) &&
    UniqueKeys(t.properties, PropertyId) &&
    UniqueKeys(t.units, UnitId) && UniqueKeys(t.units, UnitNumberKey) &&
    UniqueKeys(t.tenants, TenantId) && UniqueKeys(t.tenants, TenantEmail) &&
    UniqueKeys(t.leases, LeaseId) &&
    UniqueKeys(t.payments, PaymentId) &&
    UniqueKeys(t.expenses, ExpenseId) &&
    UniqueKeys(t.invoices, InvoiceId) &&
    UniqueKeys(t.requests, RequestId) &&
    UniqueKeys(t.conversations, ConversationId) &&
    UniqueKeys(t.messages, MessageId) &&
    UniqueKeys(t.notifications, NotificationId) &&
    UniqueKeys(t.documents, DocumentId) &&
    UniqueKeys(t.vendors, VendorId) &&
    UniqueKeys(t.tasks, TaskId) &&
    UniqueKeys(t.auditLogs, AuditLogId)
  }

  // ---------------------------------------------------------------------------
  // Lookups by primary or unique key (`findUnique`)
  // ---------------------------------------------------------------------------

  function FindOrganization(t: Tables, id: string): (r: Option<Organization>)
    ensures r.Some? ==> r.value in t.organizations && r.value.id == id
    ensures r.None? <==> KeyFree(t.organizations, OrganizationId, id)
  {
    FirstWhere(t.organizations, (o: Organization) => o.id == id)
  }

  function FindUser(t: Tables, id: string): (r: Option<User>)
    ensures r.Some? ==> r.value in t.users && r.value.id == id
    ensures r.None? <==> KeyFree(t.users, UserId, id)
  {
    FirstWhere(t.users, (u: User) => u.id == id)
  }

  function FindUserByEmail(t: Tables, email: string): (r: Option<User>)
    ensures r.Some? ==> r.value in t.users && r.value.email == email
    ensures r.None? <==> KeyFree(t.users, UserEmail, email)
  {
    FirstWhere(t.users, (u: User) => u.email == email)
  }

  function FindProperty(t: Tables, id: string): (r: Option<Property>)
    ensures r.Some? ==> r.value in t.properties && r.value.id == id
    ensures r.None? <==> KeyFree(t.properties, PropertyId, id)
  {
    FirstWhere(t.properties, (p: Property) => p.id == id)
  }

  /** Position of the unit with this id. */
  function UnitIndex(t: Tables, id: string): (r: Option<nat>)
    ensures r.Some? ==> r.value < |t.units| && t.units[r.value].id == id
    ensures r.None? <==> KeyFree(t.units, UnitId, id)
  {
    IndexWhere(t.units, (u: Unit) => u.id == id)
  }

  function FindUnit(t: Tables, id: string): (r: Option<Unit>)
    ensures r.Some? ==> r.value in t.units && r.value.id == id
    ensures r.None? <==> KeyFree(t.units, UnitId, id)
  {
    match UnitIndex(t, id)
    case None => None
    case Some(i) => Some(t.units[i])
  }

  function FindTenant(t: Tables, id: string): (r: Option<Tenant>)
    ensures r.Some? ==> r.value in t.tenants && r.value.id == id
    ensures r.None? <==> KeyFree(t.tenants, TenantId, id)
  {
    FirstWhere(t.tenants, (x: Tenant) => x.id == id)
  }

  function FindTenantByEmail(t: Tables, email: string): (r: Option<Tenant>)
    ensures r.Some? ==> r.value in t.tenants && r.value.email == email
    ensures r.None? <==> KeyFree(t.tenants, TenantEmail, email)
  {
    FirstWhere(t.tenants, (x: Tenant) => x.email == email)
  }

  function FindLease(t: Tables, id: string): (r: Option<Lease>)
    ensures r.Some? ==> r.value in t.leases && r.value.id == id
    ensures r.None? <==> KeyFree(t.leases, LeaseId, id)
  {
    FirstWhere(t.leases, (l: Lease) => l.id == id)
  }

  function FindConversation(t: Tables, id: string): (r: Option<Conversation>)
    ensures r.Some? ==> r.value in t.conversations && r.value.id == id
    ensures r.None? <==> KeyFree(t.conversations, ConversationId, id)
  {
    FirstWhere(t.conversations, (c: Conversation) => c.id == id)
  }

  /** The organization owning a property, when the property exists. */
  function PropertyOrg(t: Tables, propertyId: string): Option<string> {
    match FindProperty(t, propertyId)
    case None => None
    case Some(p) => Some(p.organizationId)
  }

  /** Ids of an organization's properties (the `propertyIds` list the finance actions build). */
  predicate OwnedProperty(t: Tables, org: string, propertyId: string) {
    PropertyOrg(t, propertyId) == Some(org)
  }

  /** The property a lease's unit stands on (`lease.unit.propertyId`). */
  function LeaseProperty(t: Tables, leaseId: string): Option<string> {
    match FindLease(t, leaseId)
    case None => None
    case Some(l) =>
      match FindUnit(t, l.unitId)
      case None => None
      case Some(u) => Some(u.propertyId)
  }

  /** Unique-key lookups are exact: under `Consistent`, the row found is the one with that key. */
  lemma {:induction false} FindUnitExact(t: Tables, u: Unit)
    requires Consistent(t) && u in t.units
    ensures FindUnit(t, u.id) == Some(u)
  {
    var k :| 0 <= k < |t.units| && t.units[k] == u;
    var i := UnitIndex(t, u.id).value;
    assert UnitId(t.units[i]) == UnitId(t.units[k]);
  }

  // ---------------------------------------------------------------------------
  // The store object
  // ---------------------------------------------------------------------------

  /** The database connection the actions share; `t` is its current contents. */
  class Db {
    var t: Tables

    predicate Valid()
      reads this
    {
      Consistent(t)
    }

    constructor (initial: Tables)
      requires Consistent(initial)
      ensures Valid() && t == initial
    {
      t := initial;
    }
  }
}
