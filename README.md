# Estate: a verified model of the property-management core

Estate is a multi-tenant property-management web application. An
*organization* (a landlord or management company) signs up, then keeps its
properties and their units, tenants and their leases, payments, expenses,
maintenance requests, messages, documents, vendors, tasks and an audit log.
The server actions read a session (the signed-in user's id, email, name,
role and organization) and work on a relational store.

This project models that core in Dafny:

- **Store.** The store is one class, `Store.Db`. It holds a table per entity
  (`Tables`: one sequence of rows per table). Its invariant `Valid()` is the
  set of unique keys the database enforces: ids, a user's email, a tenant's
  email, an organization's slug, and the unit number within a property.
- **Server actions.** Each action is a pure *reply* function (`CreateLeaseReply`
  and the like) plus a method.
  - The reply function states every error the action returns or throws, and
    when each one happens, as if-and-only-if clauses.
  - The method changes `db` and promises three things: its reply is that
    function's value; on success the new store is the old one with exactly
    the stated rows added, changed or removed; and on any other outcome the
    store is unchanged.
  - Replies are `Ok`, `Err` (a returned `{ error }` object) or `Thrown` (an
    exception that leaves the action).
  - An insert the database would refuse is modelled as a predicate named
    `CanInsert…` (for example a taken unique key or a missing referenced
    row). When it fails, the action's `catch` answer is returned, or the
    exception propagates where the action has no `catch`.
- **Reads.** Read actions are functions. Their lemmas prove that a read
  returns only rows of the caller's organization (*scoped*), that it returns
  every such row (*complete*), and that rows come in the stated order
  (*sorted*).
- **Client components.** The stateful components are classes whose methods
  update their fields step by step: the tenant form, the notification bell,
  the vendor list and the sign-up form.
- **Pure helpers.** The rest are functions with lemmas: the slug, the route
  guard, the cron gate, occupancy figures, header initials, the menus and
  email-provider selection.

Dates are `Date(year, month, day)` with months counted from 0, as JavaScript
counts them. A date is compared through an integer key. Money is an integer.
The password hash, the storage service, clocks and generated ids are
parameters of the operations that use them. zod's email check is replaced
by a concrete, looser predicate, `Common.IsEmail` (see "Left out").

## Model

| member | source | states |
|---|---|---|
| Leases.EndBeforeStartAccepted | lib/actions/lease.ts:9-15 | a lease ending before it starts passes the schema |
| Leases.WithUnitStatus | lib/actions/lease.ts:62-65 | the unit update changes only the status of the rows with that id and keeps every id and property link |
| Leases.VacantHasNoActiveLease | lib/actions/lease.ts:45-47 | under the occupancy invariant a VACANT unit carries no active lease |
| Leases.CreateLeaseReply | lib/actions/lease.ts:19-77 | throws Unauthorized iff no organization; "Invalid fields" iff the schema fails; "Unit not found or access denied" iff the unit is missing or foreign, whatever its status; "Unit is not vacant" iff owned and not VACANT; success iff all checks pass and the insert is accepted |
| Leases.CreateLease | lib/actions/lease.ts:19-77 | the reply above; on success exactly one active lease is added and that unit becomes OCCUPIED, both or neither; every other row is unchanged; the occupancy invariant is preserved, and the new lease is the unit's only active one |
| Leases.CreateLeaseWrites | lib/actions/lease.ts:50-66 | the two writes keep the store's unique keys and the occupancy invariant, and leave the unit OCCUPIED |
| Leases.CreateLeaseKeepsOccupancy | lib/actions/lease.ts:45-66 | leasing a VACANT unit keeps every lease on an existing unit, no active lease on a VACANT unit, and one active lease per unit |
| Units.StatusOrDefault | lib/actions/unit.ts:15 | an omitted status becomes VACANT |
| Units.NewUnit | lib/actions/unit.ts:43-50 | the new row carries the given property id and the validated fields |
| Units.CreateUnitReply | lib/actions/unit.ts:20-56 | throws Unauthorized iff no organization; "Invalid fields" iff the schema fails; "Property not found" iff the property is not the caller's; success iff the insert is accepted |
| Units.CreateUnit | lib/actions/unit.ts:20-56 | on success exactly one unit is added, otherwise nothing changes; the occupancy invariant is preserved |
| Units.NewUnitKeepsOccupancy | lib/actions/unit.ts:43-50 | adding a unit with a fresh id keeps the occupancy invariant |
| Properties.CreatePropertyReply | lib/actions/property.ts:24-51 | throws iff no organization; "Invalid fields" iff name < 2, address < 5, city < 2 or country < 2; success returns the new id |
| Properties.CreateProperty | lib/actions/property.ts:24-51 | on success one property stamped with the caller's organization is added and can be found by its id; otherwise nothing changes |
| Properties.GetProperties | lib/actions/property.ts:53-78 | [] without an organization; otherwise one entry per property of the organization |
| Properties.GetPropertiesScoped | lib/actions/property.ts:61-71 | every listed property belongs to the caller's organization and carries exactly its own units |
| Properties.GetPropertiesComplete | lib/actions/property.ts:61-71 | every property of the organization is listed |
| Properties.GetPropertiesSorted | lib/actions/property.ts:61-71 | newest first |
| Properties.PropertiesDisjoint | lib/actions/property.ts:61-71 | two different organizations never see the same property |
| Properties.GetPropertyById | lib/actions/property.ts:80-109 | a result iff the property exists and belongs to the caller's organization; its units in table order, each with exactly its active leases |
| Properties.GetPropertyByIdComplete | lib/actions/property.ts:88-101 | every unit of the property is listed, with every active lease on it |
| Properties.DetachDocuments | lib/actions/property.ts:128-130 | deleting a property clears the optional property link of its documents and changes nothing else |
| Properties.DeletePropertyReply | lib/actions/property.ts:111-138 | throws iff no organization; success iff the property is the caller's and no required row refers to it; every other case is "Failed to delete property" |
| Properties.DeleteProperty | lib/actions/property.ts:111-138 | on success the property is gone and its documents are detached; otherwise nothing changes |
| Tenants.CreateTenantReply | lib/actions/tenant.ts:18-44 | throws iff no organization; "Invalid fields" iff a name < 2, a bad email or a phone < 10; success returns the new id |
| Tenants.CreateTenant | lib/actions/tenant.ts:18-44 | on success one tenant row is added, with no organization column; otherwise nothing changes |
| Tenants.ScopedTenants | lib/actions/tenant.ts:66-93 | exactly the tenants with some lease on a property of the organization, newest first |
| Tenants.TenantViews | lib/actions/tenant.ts:95-108 | each tenant is paired with its active leases and with `hasAccount` |
| Tenants.GetTenants | lib/actions/tenant.ts:46-113 | [] without an organization; otherwise one view per scoped tenant |
| Tenants.GetTenantsScoped | lib/actions/tenant.ts:66-108 | every listed tenant leases in the organization, and its view is its own |
| Tenants.GetTenantsComplete | lib/actions/tenant.ts:66-93 | every tenant with a lease in the organization is listed |
| Tenants.GetTenantsSorted | lib/actions/tenant.ts:66-93 | newest first |
| Tenants.GetTenantById | lib/actions/tenant.ts:115-151 | a result iff an organization is in the session and the tenant exists, with no further ownership check; all its leases, newest start first |
| Tenants.FirstOfNextMonth | lib/actions/tenant.ts:209-213 | the first day of the month after today, as a valid date |
| Tenants.NextMonthRollsOver | lib/actions/tenant.ts:209-213 | December rolls into January of the next year, and any other month moves up by one |
| Tenants.BalanceAfterInvoice | lib/actions/tenant.ts:178-180 | a new PENDING invoice on the lease adds its amount to the balance, and any other invoice adds nothing |
| Tenants.RecentPayments | lib/actions/tenant.ts:172-175 | min(5, count) of the lease's payments, newest first, a sub-multiset of them |
| Tenants.RecentPaymentsNewest | lib/actions/tenant.ts:172-175 | a payment on the lease left out is no newer than any of the five shown |
| Tenants.TenantDashboardStats | lib/actions/tenant.ts:153-232 | null iff no email in the session; zeros and a null date when no tenant has that email; otherwise the name, the open-request count, and then either zeros (no active lease) or next month's first day, the first active lease's rent and its pending balance |
| Tenants.CreateTenantAccountReply | lib/actions/tenant.ts:234-296 | "Unauthorized" iff no organization; a taken email is refused before the tenant lookup; "Tenant not found"; success returns the fixed temporary password whatever the email does; never throws |
| Tenants.CreateTenantAccount | lib/actions/tenant.ts:234-296 | on success one TENANT user in the caller's organization is added; otherwise nothing changes |
| TenantFormUi.FormPassesActionSchemas | components/tenants/tenant-form.tsx:33-46 | a form the schema accepts passes both the tenant schema and the lease schema |
| TenantFormUi.AvailableUnits | components/tenants/tenant-form.tsx:75-77 | none when no loaded property has the selected id; otherwise exactly the VACANT units of the first property with that id |
| TenantFormUi.FirstWhereIsFirst | components/tenants/tenant-form.tsx:75 | `find` returns the earliest match |
| TenantFormUi.OfferedUnitsAreVacantOnProperty | components/tenants/tenant-form.tsx:75-77 | with the list loaded from the store, each offered unit is a stored VACANT unit of the selected property |
| TenantFormUi.TenantForm.constructor | components/tenants/tenant-form.tsx:52-54 | not loading, no properties, nothing selected, no navigation |
| TenantFormUi.TenantForm.LoadProperties | components/tenants/tenant-form.tsx:56-63 | the property list becomes the store's list; nothing else changes |
| TenantFormUi.TenantForm.SelectProperty | components/tenants/tenant-form.tsx:54 | only the selection changes |
| TenantFormUi.SubmitSpec | components/tenants/tenant-form.tsx:79-116 | nothing is sent iff the form is invalid; a throwing tenant action leaves the store as it was; no lease is attempted unless the tenant was created with an id; a refused lease keeps the created tenant (no rollback); the outcome is "both created" iff both actions succeed, and then the lease is added and the unit is OCCUPIED |
| TenantFormUi.CreateTenantThenLease | components/tenants/tenant-form.tsx:82-111 | awaiting the tenant action and then the lease action leaves the store and the outcome that `SubmitSpec` describes, and the store keeps its unique keys |
| TenantFormUi.TenantForm.Submit | components/tenants/tenant-form.tsx:79-116 | the store ends as `SubmitSpec` says; an invalid form changes nothing; the loading flag stays set after an exception and is cleared otherwise; the page moves to the tenant list iff both actions succeeded |
| TenantFormUi.LeaseFailureKeepsTenant | components/tenants/tenant-form.tsx:82-111 | once the tenant action succeeds, the submit's store holds exactly one more tenant row, findable by its id, whatever the lease action does |
| Finance.NewPayment | lib/actions/finance.ts:21-28 | a recorded payment is PAID, for the given lease and amount |
| Finance.PaymentRecipient | lib/actions/finance.ts:39-44 | a recipient iff the lease's tenant has a user account with that email |
| Finance.RecordPaymentReply | lib/actions/finance.ts:11-73 | "Unauthorized" iff no session; success iff the insert is accepted; otherwise "Failed to record payment"; never throws |
| Finance.RecordPayment | lib/actions/finance.ts:11-73 | on success the store is the payment plus at most one notification; otherwise nothing changes |
| Finance.PaymentNotifiesOnlyTenant | lib/actions/finance.ts:39-68 | at most one notification is appended, only for the tenant's user, and none without one |
| Finance.CreateExpenseReply | lib/actions/finance.ts:77-103 | "Unauthorized" iff no session; success iff the insert is accepted; never throws |
| Finance.CreateExpense | lib/actions/finance.ts:77-103 | on success exactly one expense is added; otherwise nothing changes |
| Finance.ExpenseIgnoresOwnership | lib/actions/finance.ts:84-98 | an expense on another organization's property is accepted |
| Finance.RevenueAppend | lib/actions/finance.ts:126-135 | one more payment adds its amount exactly when it counts |
| Finance.RevenueAfterPayment | lib/actions/finance.ts:126-135 | a PAID payment on an owned property raises its month's revenue by its amount |
| Finance.UnpaidNotRevenue | lib/actions/finance.ts:126-135 | a payment that is not PAID leaves revenue unchanged |
| Finance.GetFinancialStats | lib/actions/finance.ts:107-157 | null iff no organization; revenue and expenses are the month's sums over the organization's properties, and net income is their difference |
| Finance.ShortMonthLabels | lib/actions/finance.ts:176 | month 0 is labelled "Jan", month 1 "Feb", and so on to "Dec" for month 11 |
| Finance.GetMonthlyChartData | lib/actions/finance.ts:159-202 | [] without an organization; otherwise exactly six points, oldest month first, each with the same per-month rule |
| Finance.ChartEndsWithCurrentMonth | lib/actions/finance.ts:172-201 | the last point agrees with the current-month statistics |
| Finance.LatestPayments | lib/actions/finance.ts:216-223 | min(5, count) of the organization's payments, any status, newest first, a sub-multiset of them |
| Finance.LatestPaymentsNewest | lib/actions/finance.ts:216-223 | a payment of the organization left out is no newer than any of the five shown |
| Finance.LatestExpenses | lib/actions/finance.ts:224-230 | min(5, count) of the organization's expenses, newest first, a sub-multiset of them |
| Finance.LatestExpensesNewest | lib/actions/finance.ts:224-230 | an expense of the organization left out is no newer than any of the five shown |
| Finance.PaymentTransaction | lib/actions/finance.ts:232-239 | a payment becomes an INCOME item with its id, amount and date |
| Finance.ExpenseDescription | lib/actions/finance.ts:240-248 | the category, followed by " - " and the description iff one is present |
| Finance.ExpenseTransaction | lib/actions/finance.ts:240-248 | an expense becomes an EXPENSE item with its id, amount, date and description |
| Finance.PaymentTransactions | lib/actions/finance.ts:232-239 | every payment is mapped, in order |
| Finance.ExpenseTransactions | lib/actions/finance.ts:240-248 | every expense is mapped, in order |
| Finance.GetRecentTransactions | lib/actions/finance.ts:204-252 | [] without an organization; otherwise min(10, candidates) items, newest first, a sub-multiset of the 5 + 5 candidates |
| Finance.CandidatesOpenWithPayments | lib/actions/finance.ts:231-239 | the merged list opens with the payments, as INCOME |
| Finance.CandidatesCloseWithExpenses | lib/actions/finance.ts:231-248 | the expenses follow the payments, and the merge has at most 10 items |
| Finance.RecentTransactionsAll | lib/actions/finance.ts:215-249 | with at most 5 + 5 candidates the slice to 10 never cuts: the result is a reordering of all the candidates |
| Maintenance.SessionTenant | lib/actions/maintenance.ts:26-28 | the caller's tenant record is a stored tenant with the session's email |
| Maintenance.NewRequest | lib/actions/maintenance.ts:65-75 | a new request is SUBMITTED, on its unit's property, for the given tenant |
| Maintenance.TenantIdOf | lib/actions/maintenance.ts:72 | the tenant id iff there is a tenant record |
| Maintenance.CreateRequestReply | lib/actions/maintenance.ts:18-83 | throws iff no user id; "Tenant profile not found." iff a TENANT has no record; "Unit not found" iff the unit is missing; success iff the insert is accepted |
| Maintenance.CreateMaintenanceRequest | lib/actions/maintenance.ts:18-83 | on success exactly one request is added; otherwise nothing changes |
| Maintenance.ShortTitleAccepted | lib/actions/maintenance.ts:9-14 | the declared schema is never applied: a short title and description are accepted |
| Maintenance.Narrowing | lib/actions/maintenance.ts:98-105 | narrowed to a tenant iff the caller is a TENANT with a tenant record |
| Maintenance.GetMaintenanceRequests | lib/actions/maintenance.ts:85-126 | [] without an organization |
| Maintenance.GetMaintenanceRequestsScoped | lib/actions/maintenance.ts:91-119 | only requests on the organization's properties, and only the tenant's own when narrowed |
| Maintenance.GetMaintenanceRequestsComplete | lib/actions/maintenance.ts:91-119 | every visible request is listed |
| Maintenance.GetMaintenanceRequestsSorted | lib/actions/maintenance.ts:118 | newest first |
| Maintenance.UnmatchedTenantNotNarrowed | lib/actions/maintenance.ts:98-105 | a TENANT with no record sees what a manager sees |
| Maintenance.SubmittedRequestListed | lib/actions/maintenance.ts:65-119 | a submitted request appears in a manager's list of its organization |
| Maintenance.RequestIndex | lib/actions/maintenance.ts:138-141 | the position of the row with that id, or none iff no row has it |
| Maintenance.UpdateStatusReply | lib/actions/maintenance.ts:128-178 | "Unauthorized" iff the role is not SUPER_ADMIN, PROPERTY_MANAGER or MAINTENANCE_STAFF; success iff the request exists |
| Maintenance.StatusRecipient | lib/actions/maintenance.ts:145-149 | a recipient iff the request's tenant has a user account |
| Maintenance.UpdateMaintenanceStatus | lib/actions/maintenance.ts:128-178 | on success the store is the status change plus at most one notification; otherwise nothing changes |
| Maintenance.StatusUpdateChangesOnlyStatus | lib/actions/maintenance.ts:138-174 | only that request's status changes, and at most one notification is appended |
| Maintenance.UpdateIgnoresOrganization | lib/actions/maintenance.ts:138-141 | a permitted caller may update another organization's request |
| Messages.Between | lib/actions/message.ts:24-32 | a stored conversation containing both users, or none iff no conversation has both |
| Messages.BetweenSymmetric | lib/actions/message.ts:24-32 | the lookup does not depend on the order of the two users |
| Messages.BetweenAfterCreate | lib/actions/message.ts:38-51 | after creation the lookup finds the new conversation |
| Messages.NewConversation | lib/actions/message.ts:38-48 | in the caller's organization, with both participants |
| Messages.StartReply | lib/actions/message.ts:16-57 | "Unauthorized" iff no user or organization; an existing conversation's id; otherwise a new id iff the insert is accepted; never throws |
| Messages.StartConversation | lib/actions/message.ts:16-57 | the reply above; at most one conversation is added |
| Messages.StartAgainSameConversation | lib/actions/message.ts:24-35 | starting again, by either participant, returns the same id and changes nothing |
| Messages.LatestMessage | lib/actions/message.ts:86-91 | at most one message, from that conversation |
| Messages.LatestIsNewest | lib/actions/message.ts:86-91 | that message is the newest of its conversation |
| Messages.ConversationViews | lib/actions/message.ts:67-95 | each conversation is paired with its latest message |
| Messages.GetConversations | lib/actions/message.ts:59-103 | [] without a user |
| Messages.GetConversationsScoped | lib/actions/message.ts:67-95 | only conversations the caller takes part in |
| Messages.GetConversationsComplete | lib/actions/message.ts:67-95 | every such conversation is listed |
| Messages.GetConversationsSorted | lib/actions/message.ts:67-95 | most recently updated first |
| Messages.GetMessages | lib/actions/message.ts:105-148 | [] for a non-participant or an unknown conversation; otherwise exactly its messages, oldest first |
| Messages.TargetOf | lib/actions/message.ts:162-197 | a supplied conversation id is used as given |
| Messages.Touch | lib/actions/message.ts:208-211 | only that conversation's updatedAt changes |
| Messages.TouchConsistent | lib/actions/message.ts:208-211 | the bump keeps the unique keys |
| Messages.SendMessageReply | lib/actions/message.ts:150-221 | "Unauthorized" iff no user or organization; "Invalid data" iff the schema fails; "Recipient required for new conversation" iff neither id is given; "Failed to send message" iff the conversation insert or the message insert is refused; "Failed to determine conversation" iff the target id is empty; otherwise success with the target conversation's id |
| Messages.SendMessage | lib/actions/message.ts:150-221 | the store becomes the stated successor; a conversation created before a refused message stays |
| Messages.SendAppendsOneMessage | lib/actions/message.ts:201-215 | a successful send appends exactly one message from the caller and bumps that conversation's updatedAt; nothing else changes |
| Messages.SuppliedConversationUnchecked | lib/actions/message.ts:162-207 | a non-participant may post into a supplied conversation it cannot read |
| Messages.SendReusesConversation | lib/actions/message.ts:166-187 | without a conversation id, an existing conversation between the two users is reused and none is added |
| Messages.CreatedConversationOutlivesFailedSend | lib/actions/message.ts:185-206 | when the message insert is refused, the new conversation remains |
| Notifications.KindOrDefault | lib/actions/notification.ts:7 | an omitted type is INFO |
| Notifications.NotifyConsistent | lib/actions/notification.ts:8-20 | the best-effort insert keeps the unique keys |
| Notifications.CreateNotification | lib/actions/notification.ts:7-21 | the store gains the notification when the insert is accepted, and nothing otherwise; it never fails |
| Notifications.NotifyAddsUnread | lib/actions/notification.ts:8-20 | a new notification raises the user's unread count by one when it is accepted |
| Notifications.ReadWhere | lib/actions/notification.ts:43-61 | only the read flag changes, and only where the filter matches |
| Notifications.UnreadAfterMarking | lib/actions/notification.ts:43-61 | marking lowers the unread count by exactly the number of matching unread notifications |
| Notifications.MarkOneRead | lib/actions/notification.ts:43-46 | only the notification with that id and that owner becomes read |
| Notifications.MarkAllRead | lib/actions/notification.ts:58-61 | all of the user's notifications become read, and no other user's change |
| Notifications.MarkAllLeavesNoneUnread | lib/actions/notification.ts:58-61 | no unread notification of the user remains |
| Notifications.MarkAllIdempotent | lib/actions/notification.ts:58-61 | marking all twice is marking once |
| Notifications.MarkNotificationAsRead | lib/actions/notification.ts:38-51 | no-op without a session; otherwise the store becomes `MarkOneRead` |
| Notifications.MarkAllNotificationsAsRead | lib/actions/notification.ts:53-66 | no-op without a session; otherwise the store becomes `MarkAllRead` |
| Notifications.GetUserNotifications | lib/actions/notification.ts:23-36 | [] without a session; otherwise min(20, count) of the caller's notifications, newest first, a sub-multiset of them |
| Notifications.GetUserNotificationsNewest | lib/actions/notification.ts:28-32 | when an older notification is left out, 20 newer ones are shown |
| NotificationCenterUi.DecrementClamped | components/notifications/notification-center.tsx:52 | one less, never below 0 |
| NotificationCenterUi.MarkAsReadMiscounts | components/notifications/notification-center.tsx:46-53 | clicking an already-read notification lowers the counter below the real unread count |
| NotificationCenterUi.NotificationCenter.constructor | components/notifications/notification-center.tsx:29-30 | empty list, counter 0, no unread dot |
| NotificationCenterUi.NotificationCenter.FetchNotifications | components/notifications/notification-center.tsx:33-37 | the list is the server's list and the counter is its unread count |
| NotificationCenterUi.NotificationCenter.HandleMarkAsRead | components/notifications/notification-center.tsx:46-53 | as written: the one id becomes read and the counter is decremented, never below 0 |
| NotificationCenterUi.NotificationCenter.HandleMarkAsReadCorrected | components/notifications/notification-center.tsx:46-53 | the counter stays equal to the list's unread count |
| NotificationCenterUi.NotificationCenter.HandleMarkAllRead | components/notifications/notification-center.tsx:55-59 | everything is read, the counter is 0, and the dot and the button are hidden |
| NotificationCenterUi.MarkingReadOneKeepsCount | components/notifications/notification-center.tsx:46-53 | with no unread notification of that id, marking it leaves the real unread count unchanged |
| Documents.UploadError | lib/actions/document.ts:38-41 | the thrown message, or the default when it is empty |
| Documents.NewDocument | lib/actions/document.ts:23-35 | an empty property or tenant id is stored as null |
| Documents.UploadReply | lib/actions/document.ts:8-42 | "Unauthorized" without a session; "No file provided"; a storage failure's message; success iff stored and the insert is accepted; never throws |
| Documents.UploadDocument | lib/actions/document.ts:8-42 | on success exactly one document is added; otherwise nothing changes |
| Documents.GetDocuments | lib/actions/document.ts:44-64 | [] without a session; otherwise exactly the documents matching the given filters |
| Documents.GetDocumentsUnscoped | lib/actions/document.ts:49-57 | with no property id, no organization filter applies: every document is listed |
| Documents.GetDocumentsScopedByProperty | lib/actions/document.ts:49-57 | with a property id, only that property's documents in the caller's organization |
| Documents.GetAllDocuments | lib/actions/document.ts:66-87 | [] without an organization; otherwise only documents on the organization's properties |
| Documents.UploadedDocumentListed | lib/actions/document.ts:23-35 | an uploaded document on an owned property is listed for that organization |
| Documents.FirstActiveProperty | lib/actions/document.ts:94-105 | the property of the unit of the tenant's first active lease in table order; none iff there is no active lease or its unit is missing |
| Documents.GetTenantDocuments | lib/actions/document.ts:89-126 | [] without a matching tenant; otherwise exactly the tenant's documents and those of the first active lease's property, newest first |
| Documents.FindDocument | lib/actions/document.ts:134-139 | the document with that id, or none iff no document has it |
| Documents.DeleteDocumentReply | lib/actions/document.ts:128-153 | "Unauthorized"; "Document not found" iff no document has the id; otherwise success |
| Documents.DeleteDocument | lib/actions/document.ts:128-153 | on success exactly that document is removed; otherwise nothing changes |
| Documents.DeleteRemovesOnlyThat | lib/actions/document.ts:144 | every other document stays |
| Documents.DeleteIgnoresOrganization | lib/actions/document.ts:139-144 | another organization's document is deleted |
| Vendors.NewVendor | lib/actions/vendor.ts:60-70 | stamped with the organization; an empty email or phone becomes null |
| Vendors.Edited | lib/actions/vendor.ts:96-107 | the same normalisation; id, organization and creation time are kept |
| Vendors.GetVendors | lib/actions/vendor.ts:17-44 | [] without an organization; otherwise exactly that organization's vendors |
| Vendors.CreateVendorReply | lib/actions/vendor.ts:46-78 | "Unauthorized"; "Invalid fields" iff the schema fails; success iff the insert is accepted |
| Vendors.CreateVendor | lib/actions/vendor.ts:46-78 | on success exactly one vendor is added; otherwise nothing changes |
| Vendors.CreatedVendorListed | lib/actions/vendor.ts:60-73 | a created vendor is listed for its organization |
| Vendors.OwnedVendorIndex | lib/actions/vendor.ts:96-100 | the row matching both the id and the organization, or none iff no row matches both |
| Vendors.UpdateVendorReply | lib/actions/vendor.ts:80-115 | "Unauthorized"; "Invalid fields"; success iff a row matches both id and organization; otherwise "Failed to update vendor" |
| Vendors.UpdateVendor | lib/actions/vendor.ts:80-115 | on success only that row is edited; otherwise nothing changes |
| Vendors.UpdateStaysInOrg | lib/actions/vendor.ts:96-107 | no other organization's vendor changes |
| Vendors.DeleteVendorReply | lib/actions/vendor.ts:117-138 | "Unauthorized"; success iff a row matches both id and organization |
| Vendors.DeleteVendor | lib/actions/vendor.ts:117-138 | on success that vendor is removed; otherwise nothing changes |
| Vendors.DeleteStaysInOrg | lib/actions/vendor.ts:125-131 | every vendor with another id stays |
| VendorListUi.FilteredVendors | components/vendors/vendor-list.tsx:61-64 | exactly the vendors whose name or service type contains the term, ignoring case |
| Seqs.FilterKeepsOrder | components/vendors/vendor-list.tsx:61-64 | filtering keeps the input order |
| Seqs.Latest | lib/actions/finance.ts:216-221 | `where`, `orderBy: desc`, `take: n`: min(n, count) of the matching rows, newest first, a sub-multiset of the matches |
| Seqs.LatestNewest | lib/actions/finance.ts:216-221 | a matching row left out has a key no greater than any of the n shown |
| Seqs.TopBy | lib/actions/finance.ts:249 | sorting descending and keeping the first n: min(n, length) elements, greatest key first, a sub-multiset of the input |
| Seqs.TopByNewest | lib/actions/finance.ts:249 | an element left out has a key no greater than any of the n kept |
| VendorListUi.EmptySearchKeepsAll | components/vendors/vendor-list.tsx:61-64 | an empty term keeps every vendor |
| VendorListUi.LowerUpperChar | components/vendors/vendor-list.tsx:62-63 | lower-casing an upper-cased character is lower-casing it |
| VendorListUi.SearchIgnoresCase | components/vendors/vendor-list.tsx:61-64 | an upper-cased term finds the same vendors |
| VendorListUi.DeleteToast | components/vendors/vendor-list.tsx:70-80 | a destructive toast iff the delete failed, showing its error |
| VendorListUi.VendorList.constructor | components/vendors/vendor-list.tsx:56-57 | empty search, nothing selected |
| VendorListUi.VendorList.SelectForDelete | components/vendors/vendor-list.tsx:165 | only the selection changes |
| VendorListUi.VendorList.HandleDelete | components/vendors/vendor-list.tsx:66-83 | nothing happens without a selection; otherwise the delete runs, its toast is shown and the selection is cleared either way |
| Tasks.Assignee | lib/actions/task.ts:68-70 | the given assignee, or the caller when none is given |
| Tasks.NewTask | lib/actions/task.ts:62-71 | created by the caller, in the caller's organization |
| Tasks.GetTasks | lib/actions/task.ts:17-51 | throws Unauthorized iff no session |
| Tasks.GetTasksScoped | lib/actions/task.ts:23-47 | only the caller's organization's tasks, and all of them |
| Tasks.GetTasksSorted | lib/actions/task.ts:46 | newest first |
| Tasks.CreateTaskReply | lib/actions/task.ts:53-75 | throws Unauthorized; throws on invalid input, since the action uses `parse`; throws a store error for a refused insert; otherwise success |
| Tasks.CreateTask | lib/actions/task.ts:53-75 | on success exactly one task is added; otherwise nothing changes |
| Tasks.CreatedTaskDefaultsToCaller | lib/actions/task.ts:68-70 | without an assignee, the created task is assigned to its creator |
| Tasks.TaskIndex | lib/actions/task.ts:83-86 | the task matching both id and organization, or none iff no task matches both |
| Tasks.OwnedTaskReply | lib/actions/task.ts:77-110 | for both the status update and the delete: throws Unauthorized iff no session; success iff a task of the organization has the id; otherwise throws a store error; never a plain error |
| Tasks.UpdateTaskStatus | lib/actions/task.ts:77-94 | on success only that task's status changes |
| Tasks.StatusUpdateChangesOnlyStatus | lib/actions/task.ts:83-91 | only the status of the matched task changes |
| Tasks.DeleteTask | lib/actions/task.ts:96-110 | on success that task is removed; otherwise nothing changes |
| Tasks.DeleteRemovesOnlyThat | lib/actions/task.ts:102-107 | every other task stays |
| AuditLogs.GetAuditLogsDefault | lib/actions/audit-log.ts:7 | with no limit given, at most fifty entries, and all of the organization's when it has fifty or fewer |
| AuditLogs.GetAuditLogs | lib/actions/audit-log.ts:7-45 | [] without an organization; otherwise min(limit, the organization's count) of its entries, newest first, a sub-multiset of them |
| AuditLogs.GetAuditLogsNewest | lib/actions/audit-log.ts:20-38 | an entry of the organization left out is no newer than any of the `limit` shown |
| AuditLogs.GetAuditLogsComplete | lib/actions/audit-log.ts:20-38 | with no more entries than the limit, every entry is shown |
| AuditLogs.NewEntry | lib/actions/audit-log.ts:61-70 | stamped with the caller's user and organization |
| AuditLogs.AfterLog | lib/actions/audit-log.ts:47-75 | the store changes iff there is a user, an organization and an accepted insert, and then by exactly one entry |
| AuditLogs.LogActivity | lib/actions/audit-log.ts:47-75 | the store becomes `AfterLog`; it never fails |
| AuditLogs.NewestFirst | lib/actions/audit-log.ts:37 | in a newest-first list, a strictly newest entry comes first |
| AuditLogs.LoggedEntryShownFirst | lib/actions/audit-log.ts:20-70 | an entry logged after all others of its organization heads its log |
| Settings.UserIndex | lib/actions/user.ts:28-35 | the position of the user with that id, or none iff there is none |
| Settings.UpdateProfileReply | lib/actions/user.ts:17-43 | "Unauthorized" without a session; "Invalid fields" iff a name < 2 or a bad email; success iff the user exists; otherwise "Failed to update profile" |
| Settings.UpdateProfile | lib/actions/user.ts:17-43 | on success only the caller's first and last name change |
| Settings.ProfileChangesOnlyNames | lib/actions/user.ts:28-35 | every other field and every other user stay |
| Settings.ProfileIgnoresContact | lib/actions/user.ts:28-35 | the supplied email and phone make no difference |
| Settings.OrganizationIndex | lib/actions/organization.ts:26-32 | the position of the organization with that id |
| Settings.UpdateOrganizationReply | lib/actions/organization.ts:15-39 | "Unauthorized" without an organization; "Insufficient permissions" iff not SUPER_ADMIN or PROPERTY_MANAGER; success iff the organization exists |
| Settings.UpdateOrganization | lib/actions/organization.ts:15-39 | on success only the organization's name changes; its slug stays |
| Settings.AnyNameAccepted | lib/actions/organization.ts:8-11 | the schema is never applied: a one-letter or empty name is accepted |
| Registration.Hyphenate | app/api/auth/register/route.ts:44-46 | the result holds only `[a-z0-9-]` and never two dashes in a row |
| Registration.HyphenateKeepsOrder | app/api/auth/register/route.ts:46 | every `[a-z0-9]` character is kept, in order, and no other is added |
| Registration.HyphenateDashes | app/api/auth/register/route.ts:46 | the number of dashes is the number of maximal runs of other characters |
| Registration.TrimDashes | app/api/auth/register/route.ts:46 | no dash at either end, and still no double dash |
| Registration.Slug | app/api/auth/register/route.ts:44-47 | a well-formed slug: `[a-z0-9-]`, no "--", no dash at either end |
| Registration.LowerKeepsSlug | app/api/auth/register/route.ts:45 | lower-casing leaves slug characters alone |
| Registration.HyphenateKeeps | app/api/auth/register/route.ts:46 | a run-free slug string passes the replacement unchanged |
| Registration.SlugOfSlug | app/api/auth/register/route.ts:44-47 | a well-formed slug is its own slug |
| Registration.SlugIdempotent | app/api/auth/register/route.ts:44-47 | deriving the slug twice gives the slug |
| Registration.Status | app/api/auth/register/route.ts:72-85 | a 2xx status iff the account was created |
| Registration.NewOrganization | app/api/auth/register/route.ts:51-56 | named after the organization name, with its slug |
| Registration.NewAdmin | app/api/auth/register/route.ts:57-67 | a SUPER_ADMIN of the new organization whose stored password is the hash |
| Registration.RegisterReply | app/api/auth/register/route.ts:14-86 | 400 "Invalid input" iff the body fails the schema; 400 for a taken email; 201 with the user id iff the inserts are accepted; 500 otherwise |
| Registration.Register | app/api/auth/register/route.ts:14-86 | on 201 exactly one organization and one user are added, together; otherwise nothing changes |
| Registration.RegisteredAdminFound | app/api/auth/register/route.ts:50-78 | after sign-up the email finds the new SUPER_ADMIN, whose organization carries its slug |
| Registration.RegisterTwiceRefused | app/api/auth/register/route.ts:29-38 | signing up again with the same email is refused with 400 |
| RegisterFormUi.FormIssues | components/forms/register-form.tsx:12-22 | the password mismatch is reported on confirmPassword iff the passwords differ; password iff shorter than 8; email iff not an address; firstName, lastName and organizationName each iff shorter than 2; no other field |
| RegisterFormUi.RequestBody | components/forms/register-form.tsx:47-53 | the five fields are posted; confirmPassword is not |
| RegisterFormUi.AcceptedFormPassesRoute | components/forms/register-form.tsx:12-53 | a form without issues posts a body the route's schema accepts |
| RegisterFormUi.PostedFormNeverInvalid | components/forms/register-form.tsx:39-62 | the route never answers "Invalid input" to a posted form |
| RegisterFormUi.RegisterForm.constructor | components/forms/register-form.tsx:28-29 | no error, not loading |
| RegisterFormUi.RegisterForm.Submit | components/forms/register-form.tsx:39-69 | nothing is posted when the form has issues; a failed request shows the generic message; a refusal shows the server's error and clears loading; success goes to the login page |
| Middleware.Guard | middleware.ts:3-23 | to /dashboard iff logged in on an auth route; to /login iff logged out on a protected route; otherwise pass through |
| Middleware.Route | middleware.ts:3-27 | paths outside the matcher pass through |
| Middleware.RedirectSettles | middleware.ts:13-20 | a redirect's target is never redirected again for the same login state |
| Middleware.PublicNeverRedirected | middleware.ts:7-22 | the landing page "/" and paths under "/api" pass through, logged in or not |
| Cron.Status | app/api/cron/generate-invoices/route.ts:13-23 | 200 iff success, 401 iff the gate refused, 500 iff the job threw |
| Cron.CronRoute | app/api/cron/send-reminders/route.ts:8-19 | 401 and no run iff the gate refuses; otherwise the job runs, with 500 on an exception and the result on success |
| Cron.NoSecretOpen | app/api/cron/generate-invoices/route.ts:13 | without a secret every request runs the job |
| Cron.OnlyExactBearer | app/api/cron/generate-invoices/route.ts:13-15 | with a secret the job runs iff the header is exactly "Bearer " followed by the secret |
| EmailConfig.ProviderType | lib/email/index.ts:7 | "console" when the setting is unset |
| EmailConfig.SelectProvider | lib/email/index.ts:6-30 | Resend iff "resend" with a key; SMTP iff "smtp" with host, user and password; console otherwise |
| EmailConfig.UnsetMeansConsole | lib/email/index.ts:26-28 | an unset provider selects the console |
| OccupancyUi.RatePercent | components/reports/occupancy-report-table.tsx:29 | 0 with no units; otherwise the nearest whole percentage, a half rounding up |
| OccupancyUi.RateInRange | components/reports/occupancy-report-table.tsx:29 | within 0..100 |
| OccupancyUi.RateAtLeast | components/reports/occupancy-report-table.tsx:29 | the rate reaches k iff 200·occupied >= (2k - 1)·total |
| OccupancyUi.OccupiedPlusVacant | components/reports/occupancy-report-table.tsx:27-28 | occupied + vacant <= total |
| OccupancyUi.ReportRow | components/reports/occupancy-report-table.tsx:26-29 | the counts by status, and the rate is the rounded percentage of occupied units, in 0..100 |
| OccupancyUi.FullRateIff | components/reports/occupancy-report-table.tsx:29 | 100% iff at least 199 units in 200 are occupied; a fully let property shows 100% |
| OccupancyUi.NearlyFullShowsHundred | components/reports/occupancy-report-table.tsx:29 | 199 of 200 already shows 100% |
| OccupancyUi.Card | components/properties/property-card.tsx:18-21 | zeros for an absent list; the unit count; the rate is the rounded percentage of occupied units, in 0..100; highlighted iff the rate is >= 90 |
| OccupancyUi.CardAgreesWithReport | components/properties/property-card.tsx:18-21 | the card and the report agree |
| OccupancyUi.HighlightIff | components/properties/property-card.tsx:48 | highlighted iff at least 179 units in 200 are occupied |
| HeaderUi.Split | components/layout/header.tsx:24 | the pieces between spaces, none containing a space |
| HeaderUi.Join | components/layout/header.tsx:24 | the inverse of the split: the pieces with a single space between each two |
| HeaderUi.JoinSplit | components/layout/header.tsx:24-26 | splitting and joining again gives back the name |
| HeaderUi.WordStarts | components/layout/header.tsx:24-25 | the characters that follow a space or start the name |
| HeaderUi.HeadsAreWordStarts | components/layout/header.tsx:24-26 | the first characters of the pieces are exactly the word starts, and empty pieces contribute nothing |
| HeaderUi.Initials | components/layout/header.tsx:22-29 | "U" for an absent or empty name; otherwise the upper-cased word starts, at most 2 |
| HeaderUi.NoStartsInBlanks | components/layout/header.tsx:24-26 | a name of spaces has no word starts |
| HeaderUi.BlankNameNoInitials | components/layout/header.tsx:22-29 | a name of spaces only gives "", not "U" |
| HeaderUi.DoubledSpaceAddsNothing | components/layout/header.tsx:24-26 | "a  b" gives "AB" |
| Navigation.GetNavItems | config/nav.ts:84-89 | TENANT gets the 5-entry menu, any other role or none the 8-entry one; both start with Dashboard and end with Settings; only the tenant menu has Payments |
| Navigation.TenantMenuLacksManagement | config/nav.ts:56-82 | no Properties, Tenants, Finance or Reports in the tenant menu |
| Navigation.TenantEntriesShared | config/nav.ts:13-82 | every tenant entry but Payments is also an admin entry |

## Left out

- **Side effects outside the store.** Not modelled: `revalidatePath`, console logging, email sending (only whether a notification is attempted), the storage upload (its outcome is a parameter), and rendering, dialogs and toasts beyond their text.
- **Clock and ids.** The current time, today's date and generated ids are parameters.
- **Joins and counts.** `include` joins are modelled only where a result depends on them. Vendor work-order counts are not modelled.
- **Tie order.** Results are sorted by the key the query orders by. The order of rows with equal keys is not stated. `findFirst`/`find` is taken in table order.
- **Hashing.** The bcrypt hash is a function parameter.
- **Email check.** zod's `.email()` pattern is not modelled.
  - Common.IsEmail: stands in for it, and is looser. It asks for exactly one '@', text on both sides of it and no spaces. So it accepts "a@b" and "a!b@c", which zod rejects.
  - The schema checks that use it (in Tenants, TenantFormUi, Settings, Registration, RegisterFormUi and Vendors) therefore accept those addresses too.
- **Exception messages.**
  - Tasks.CreateTaskReply: a schema failure throws "Invalid input"; zod's own message and issue list are not modelled.
  - An uncaught database error in `lib/actions/task.ts` throws the fixed message `StoreError`.
- **Input types.** Task due dates arrive as strings; the model takes an already parsed optional date. The route's JSON body is modelled field by field: a field that is not a string counts as missing.
- **Case mapping.**
  - Registration.Slug, HeaderUi.Initials and VendorListUi.FilteredVendors map case for ASCII letters only.
  - JavaScript's full Unicode case mapping (for example 'ß' or the Kelvin sign) is not modelled, and neither are UTF-16 code units.
- **Rounding.** OccupancyUi.RatePercent is exact half-up rounding of the rational 100·occupied/total. Floating-point `Math.round` near a half is not modelled.
- **Cron jobs.** `generateMonthlyInvoices` and `sendRentReminders` are called by the cron routes, but their bodies are not part of this model. A job's outcome is a parameter.
- **Maintenance schedules.** `createSchedule`, `getSchedules` and `deleteSchedule` are not part of this model.
- **Concurrency.** The model is sequential. Transaction isolation and races between a lookup and the insert that follows it are not modelled, nor is the 30-second polling of the notification bell.
- **Register form.** The "Registration failed" fallback of RegisterFormUi.RegisterForm.Submit is not modelled separately: the route always sends an error text with a non-2xx answer, so the fallback cannot show.
- **Tenant documents.** In Documents.GetTenantDocuments, a tenant without an active lease gets only the documents with its own tenant id. The query's `OR` arm with an undefined property id is modelled as matching nothing.
- **Recent transactions.** In Finance.GetRecentTransactions, a payment whose lease, unit or tenant row is missing gets "" for the text that row would supply.
- **Finance.CandidatesCloseWithExpenses** states where the expenses sit in the merged list, not their kind again; Finance.ExpenseTransaction states the kind.
- **Messages.NewConversation** states that both users take part, not that the participant list has no duplicates: a conversation with oneself lists the caller twice.
- **Client forms.** The forms that only repeat a server schema are not modelled: property, unit, request, expense, schedule, profile and organization.
- **Occupancy at 100%.** The report shows 100% exactly when 200·occupied >= 199·total (`OccupancyUi.FullRateIff`). A property with 199 of 200 units let already shows 100%, so 100% does not mean that every unit is occupied.
- **Blank names.** A name made only of spaces is truthy, so the header shows no initials rather than "U" (`HeaderUi.BlankNameNoInitials`).

## Findings

| source | as written | input that shows it | evidently intended | confidence | as-written member | corrected member |
|---|---|---|---|---|---|---|
| components/notifications/notification-center.tsx:46-53 | the unread counter is decremented on every click, even when the clicked notification was already read | one unread and one read notification; click the read one: the counter drops to 0 while one notification is still unread | the counter keeps equal to the number of unread notifications in the list | not executed | NotificationCenterUi.NotificationCenter.HandleMarkAsRead, NotificationCenterUi.MarkAsReadMiscounts | NotificationCenterUi.NotificationCenter.HandleMarkAsReadCorrected, Notifications.UnreadAfterMarking |
