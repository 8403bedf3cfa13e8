/**
 * Finance actions: recording payments and expenses, and the organization's
 * monthly figures. A payment or expense belongs to an organization through its
 * lease's unit's property or its own property.
 */
module Finance {
  import opened Common
  import opened Seqs
  import opened Store
  import opened Notifications

  // ---------------------------------------------------------------------------
  // recordPayment
  // ---------------------------------------------------------------------------

  datatype PaymentInput = PaymentInput(leaseId: string, amount: int, payMethod: string, date: Date)

  /** Every recorded payment is PAID. */
  function NewPayment(id: string, d: PaymentInput): (p: Payment)
    ensures p.status == "PAID" && p.leaseId == d.leaseId && p.amount == d.amount
  {
    Payment(id, d.leaseId, d.amount, d.payMethod, "PAID", d.date)
  }

  /** The database accepts the payment: fresh id and an existing lease. */
  predicate CanInsertPayment(t: Tables, p: Payment) {
    KeyFree(t.payments, PaymentId, p.id) && FindLease(t, p.leaseId).Some?
  }

  /** The user account of the lease's tenant: the tenant has a non-empty email and some user has it. */
  function PaymentRecipient(t: Tables, leaseId: string): (r: Option<User>)
    ensures r.Some? ==> r.value in t.users
    ensures r.Some? <==> (FindLease(t, leaseId).Some? && FindTenant(t, FindLease(t, leaseId).value.tenantId).Some? &&
      FindTenant(t, FindLease(t, leaseId).value.tenantId).value.email != "" &&
      !KeyFree(t.users, UserEmail, FindTenant(t, FindLease(t, leaseId).value.tenantId).value.email))
  {
    match FindLease(t, leaseId)
    case None => None
    case Some(l) =>
      match FindTenant(t, l.tenantId)
      case None => None
      case Some(x) => if x.email == "" then None else FindUserByEmail(t, x.email)
  }

  /** The receipt notification's text. */
  function PaymentMessage(d: PaymentInput): string {
    "We received your payment of $" + IntToString(d.amount) + " via " + d.payMethod + "."
  }

  function PaymentNotification(id: string, userId: string, d: PaymentInput, now: int): Notification {
    NewNotification(id, userId, "Payment Received", PaymentMessage(d), Success, now)
  }

  function RecordPaymentReply(t: Tables, session: Option<Session>, d: PaymentInput, newId: string): (r: Reply<()>)
    ensures r == Err("Unauthorized") <==> session.None?
    ensures r == Ok(()) <==> session.Some? && CanInsertPayment(t, NewPayment(newId, d))
    ensures r.Err? && session.Some? ==> r.error == "Failed to record payment"
    ensures !r.Thrown?
  {
    if session.None? then Err("Unauthorized")
    else if !CanInsertPayment(t, NewPayment(newId, d)) then Err("Failed to record payment")
    else Ok(())
  }

  /** The store after a successful `recordPayment`: the payment, then the receipt notification if the tenant has an account. */
  function AfterPayment(t: Tables, d: PaymentInput, newId: string, notificationId: string, now: int): Tables {
    var t1 := t.(payments := t.payments + [NewPayment(newId, d)]);
    match PaymentRecipient(t, d.leaseId)
    case None => t1
    case Some(u) => Notify(t1, PaymentNotification(notificationId, u.id, d, now))
  }

  /**
   * `recordPayment`. `notificationId` and `now` are the generated id and the
   * clock of the receipt notification; the receipt email has no effect on the
   * store or the reply.
   */
  method RecordPayment(db: Db, session: Option<Session>, d: PaymentInput, newId: string, notificationId: string, now: int)
    returns (r: Reply<()>)
    requires db.Valid()
    modifies db
    ensures db.Valid()
    ensures r == RecordPaymentReply(old(db.t), session, d, newId)
    ensures r.Ok? ==> db.t == AfterPayment(old(db.t), d, newId, notificationId, now)
    ensures !r.Ok? ==> db.t == old(db.t)
  {
    if session.None? {
      return Err("Unauthorized");
    }
    var p := NewPayment(newId, d);
    if !CanInsertPayment(db.t, p) {
      return Err("Failed to record payment");
    }
    var recipient := PaymentRecipient(db.t, d.leaseId);
    AppendUnique(db.t.payments, PaymentId, p);
    db.t := db.t.(payments := db.t.payments + [p]);
    if recipient.Some? {
      CreateNotification(db, recipient.value.id, "Payment Received", PaymentMessage(d), Some(Success), notificationId, now);
    }
    return Ok(());
  }

  /** A recorded payment notifies nobody unless the lease's tenant has an account, and then only that account. */
  lemma PaymentNotifiesOnlyTenant(t: Tables, d: PaymentInput, newId: string, notificationId: string, now: int)
    ensures var t' := AfterPayment(t, d, newId, notificationId, now);
      |t'.notifications| <= |t.notifications| + 1 &&
      t'.notifications[..|t.notifications|] == t.notifications &&
      (PaymentRecipient(t, d.leaseId).None? ==> t'.notifications == t.notifications) &&
      (|t'.notifications| > |t.notifications| ==>
        PaymentRecipient(t, d.leaseId).Some? &&
        t'.notifications[|t.notifications|] == PaymentNotification(notificationId, PaymentRecipient(t, d.leaseId).value.id, d, now))
  {
  }

  // ---------------------------------------------------------------------------
  // createExpense
  // ---------------------------------------------------------------------------

  datatype ExpenseInput = ExpenseInput(propertyId: string, amount: int, category: string, description: Option<string>, date: Date)

  function NewExpense(id: string, d: ExpenseInput): Expense {
    Expense(id, d.propertyId, d.amount, d.category, d.description, d.date)
  }

  /** The database accepts the expense: fresh id and an existing property, whichever organization owns it. */
  predicate CanInsertExpense(t: Tables, e: Expense) {
    KeyFree(t.expenses, ExpenseId, e.id) && FindProperty(t, e.propertyId).Some?
  }

  function CreateExpenseReply(t: Tables, session: Option<Session>, d: ExpenseInput, newId: string): (r: Reply<()>)
    ensures r == Err("Unauthorized") <==> session.None?
    ensures r == Ok(()) <==> session.Some? && CanInsertExpense(t, NewExpense(newId, d))
    ensures r.Err? && session.Some? ==> r.error == "Failed to record expense"
    ensures !r.Thrown?
  {
    if session.None? then Err("Unauthorized")
    else if !CanInsertExpense(t, NewExpense(newId, d)) then Err("Failed to record expense")
    else Ok(())
  }

  method CreateExpense(db: Db, session: Option<Session>, d: ExpenseInput, newId: string) returns (r: Reply<()>)
    requires db.Valid()
    modifies db
    ensures db.Valid()
    ensures r == CreateExpenseReply(old(db.t), session, d, newId)
    ensures r.Ok? ==> db.t == old(db.t).(expenses := old(db.t).expenses + [NewExpense(newId, d)])
    ensures !r.Ok? ==> db.t == old(db.t)
  {
    if session.None? {
      return Err("Unauthorized");
    }
    var e := NewExpense(newId, d);
    if !CanInsertExpense(db.t, e) {
      return Err("Failed to record expense");
    }
    AppendUnique(db.t.expenses, ExpenseId, e);
    db.t := db.t.(expenses := db.t.expenses + [e]);
    return Ok(());
  }

  /** An expense is recorded against another organization's property as readily as against one's own. */
  lemma ExpenseIgnoresOwnership(t: Tables, session: Option<Session>, d: ExpenseInput, newId: string)
    requires session.Some? && CanInsertExpense(t, NewExpense(newId, d))
    requires OrgOf(session).Some? && !OwnedProperty(t, OrgOf(session).value, d.propertyId)
    ensures CreateExpenseReply(t, session, d, newId) == Ok(())
  {
  }

  // ---------------------------------------------------------------------------
  // Monthly figures
  // ---------------------------------------------------------------------------

  /**
   * The tables that decide which organization a payment or an expense belongs
   * to: everything but the payments and the expenses themselves.
   */
  function Layout(t: Tables): Tables {
    t.(payments := [], expenses := [])
  }

  /** The payment's lease's unit stands on one of the organization's properties. */
  predicate PaymentInOrg(t: Tables, org: string, p: Payment) {
    LeaseProperty(t, p.leaseId).Some? && OwnedProperty(t, org, LeaseProperty(t, p.leaseId).value)
  }

  /** The payment counts toward the organization's revenue for the month: PAID, dated in it, on one of its leases. */
  predicate IsRevenue(t: Tables, org: string, year: int, month: int, p: Payment) {
    p.status == "PAID" && InMonth(p.date, year, month) && PaymentInOrg(t, org, p)
  }

  /** The expense counts toward the organization's expenses for the month: dated in it, on one of its properties. */
  predicate IsMonthExpense(t: Tables, org: string, year: int, month: int, e: Expense) {
    InMonth(e.date, year, month) && OwnedProperty(t, org, e.propertyId)
  }

  /** Sum of the payments among `ps` that count as revenue for the month, as `layout` places them; 0 when there are none. */
  function Revenue(ps: seq<Payment>, layout: Tables, org: string, year: int, month: int): int {
    if |ps| == 0 then 0
    else
      var p := ps[|ps| - 1];
      Revenue(ps[..|ps| - 1], layout, org, year, month) + (if IsRevenue(layout, org, year, month, p) then p.amount else 0)
  }

  /** Sum of the expenses among `es` that count for the month, as `layout` places them; 0 when there are none. */
  function Expenses(es: seq<Expense>, layout: Tables, org: string, year: int, month: int): int {
    if |es| == 0 then 0
    else
      var e := es[|es| - 1];
      Expenses(es[..|es| - 1], layout, org, year, month) + (if IsMonthExpense(layout, org, year, month, e) then e.amount else 0)
  }

  /** Sum of the organization's PAID payments dated in the month; 0 when there are none. */
  function MonthRevenue(t: Tables, org: string, year: int, month: int): int {
    Revenue(t.payments, Layout(t), org, year, month)
  }

  /** Sum of the organization's expenses dated in the month; 0 when there are none. */
  function MonthExpenses(t: Tables, org: string, year: int, month: int): int {
    Expenses(t.expenses, Layout(t), org, year, month)
  }

  /** One more payment adds its amount when it counts as revenue and nothing otherwise. */
  lemma RevenueAppend(ps: seq<Payment>, layout: Tables, org: string, year: int, month: int, p: Payment)
    ensures Revenue(ps + [p], layout, org, year, month) ==
      Revenue(ps, layout, org, year, month) + (if IsRevenue(layout, org, year, month, p) then p.amount else 0)
  {
    assert (ps + [p])[..|ps|] == ps;
  }

  /** A payment recorded on an organization's lease, PAID and dated in the month, raises that month's revenue by its amount. */
  lemma RevenueAfterPayment(t: Tables, org: string, p: Payment)
    requires p.status == "PAID" && PaymentInOrg(Layout(t), org, p)
    ensures MonthRevenue(t.(payments := t.payments + [p]), org, p.date.year, p.date.month) ==
      MonthRevenue(t, org, p.date.year, p.date.month) + p.amount
  {
    var t' := t.(payments := t.payments + [p]);
    assert Layout(t') == Layout(t);
    RevenueAppend(t.payments, Layout(t), org, p.date.year, p.date.month, p);
  }

  /** A payment that is not PAID never counts as revenue. */
  lemma UnpaidNotRevenue(t: Tables, org: string, p: Payment)
    requires p.status != "PAID"
    ensures MonthRevenue(t.(payments := t.payments + [p]), org, p.date.year, p.date.month) ==
      MonthRevenue(t, org, p.date.year, p.date.month)
  {
    var t' := t.(payments := t.payments + [p]);
    assert Layout(t') == Layout(t);
    RevenueAppend(t.payments, Layout(t), org, p.date.year, p.date.month, p);
  }

  const MonthNames: seq<string> := ["January", "February", "March", "April", "May", "June", "July",
                                    "August", "September", "October", "November", "December"]

  datatype FinancialStats = FinancialStats(revenue: int, expenses: int, netIncome: int, month: string)

  /** `format(now, "MMMM yyyy")`. */
  function MonthLabel(year: int, month: int): string
    requires 0 <= month < 12
  {
    MonthNames[month] + " " + IntToString(year)
  }

  /** `getFinancialStats` for the month containing `today`. */
  function GetFinancialStats(t: Tables, session: Option<Session>, today: Date): (r: Option<FinancialStats>)
    requires ValidDate(today)
    ensures r.None? <==> OrgOf(session).None?
    ensures r.Some? ==> r.value.revenue == MonthRevenue(t, OrgOf(session).value, today.year, today.month)
    ensures r.Some? ==> r.value.expenses == MonthExpenses(t, OrgOf(session).value, today.year, today.month)
    ensures r.Some? ==> r.value.netIncome == r.value.revenue - r.value.expenses
  {
    match OrgOf(session)
    case None => None
    case Some(org) =>
      var revenue := MonthRevenue(t, org, today.year, today.month);
      var expenses := MonthExpenses(t, org, today.year, today.month);
      Some(FinancialStats(revenue, expenses, revenue - expenses, MonthLabel(today.year, today.month)))
  }

  // ---------------------------------------------------------------------------
  // getMonthlychartData
  // ---------------------------------------------------------------------------

  datatype ChartPoint = ChartPoint(name: string, revenue: int, expenses: int)

  /** `format(date, "MMM")`: the first three letters of the month's name. */
  function ShortMonthName(month: int): (r: string)
    requires 0 <= month < 12
    ensures |r| == 3 && r == MonthNames[month][..3]
  {
    MonthNames[month][..3]
  }

  /** The labels on the chart's axis, January first. */
  lemma ShortMonthLabels(month: int)
    requires 0 <= month < 12
    ensures ShortMonthName(month) ==
      ["Jan", "Feb", "Mar", "Apr", "May", "Jun", "Jul", "Aug", "Sep", "Oct", "Nov", "Dec"][month]
  {
  }

  /** The figures of the month with index `idx` (see `MonthIndex`). */
  function PointFor(t: Tables, org: string, idx: int): ChartPoint {
    var (year, month) := MonthOfIndex(idx);
    ChartPoint(ShortMonthName(month), MonthRevenue(t, org, year, month), MonthExpenses(t, org, year, month))
  }

  /** `getMonthlychartData`: the six months ending with the current one, oldest first. */
  method GetMonthlyChartData(t: Tables, session: Option<Session>, today: Date) returns (data: seq<ChartPoint>)
    requires ValidDate(today)
    ensures OrgOf(session).None? ==> data == []
    ensures OrgOf(session).Some? ==> |data| == 6 && forall k :: 0 <= k < 6 ==>
      data[k] == PointFor(t, OrgOf(session).value, MonthIndex(today) - 5 + k)
  {
    var org := OrgOf(session);
    if org.None? {
      return [];
    }
    var current := MonthIndex(today);
    data := [];
    var i := 5;
    while i >= 0
      invariant -1 <= i <= 5 && |data| == 5 - i
      invariant forall k :: 0 <= k < |data| ==> data[k] == PointFor(t, org.value, current - 5 + k)
    {
      data := data + [PointFor(t, org.value, current - i)];
      i := i - 1;
    }
  }

  /** The chart's last point carries the same figures as the current month's statistics. */
  lemma ChartEndsWithCurrentMonth(t: Tables, session: Option<Session>, today: Date)
    requires ValidDate(today) && OrgOf(session).Some?
    ensures PointFor(t, OrgOf(session).value, MonthIndex(today)).revenue == GetFinancialStats(t, session, today).value.revenue
    ensures PointFor(t, OrgOf(session).value, MonthIndex(today)).expenses == GetFinancialStats(t, session, today).value.expenses
  {
    var m := MonthOfIndex(MonthIndex(today));
    MonthIndexInjective(Date(m.0, m.1, 1), today);
    assert m == (today.year, today.month);
  }

  // ---------------------------------------------------------------------------
  // getRecentTransactions
  // ---------------------------------------------------------------------------

  datatype TransactionKind = Income | ExpenseKind

  datatype Transaction = Transaction(
    id: string, kind: TransactionKind, amount: int, date: Date, description: string, entity: string)

  function PaymentDate(p: Payment): int { DateKey(p.date) }

  function ExpenseDate(e: Expense): int { DateKey(e.date) }

  function TransactionDate(x: Transaction): int { DateKey(x.date) }

  function PaymentOfOrg(t: Tables, org: string): Payment -> bool {
    (p: Payment) => PaymentInOrg(t, org, p)
  }

  function ExpenseOfOrg(t: Tables, org: string): Expense -> bool {
    (e: Expense) => OwnedProperty(t, org, e.propertyId)
  }

  /** The organization's five most recent payments, whatever their status, newest first. */
  function LatestPayments(t: Tables, org: string): (r: seq<Payment>)
    ensures |r| == Min(5, CountWhere(t.payments, PaymentOfOrg(t, org)))
    ensures SortedBy(r, PaymentDate)
    ensures multiset(r) <= multiset(Filter(t.payments, PaymentOfOrg(t, org)))
    ensures forall i :: 0 <= i < |r| ==> r[i] in t.payments && PaymentInOrg(t, org, r[i])
  {
    Latest(t.payments, PaymentOfOrg(t, org), PaymentDate, 5)
  }

  /** A payment of the organization left out of the five is no more recent than any of them. */
  lemma LatestPaymentsNewest(t: Tables, org: string, k: nat)
    requires k < |t.payments| && PaymentInOrg(t, org, t.payments[k])
    requires t.payments[k] !in LatestPayments(t, org)
    ensures |LatestPayments(t, org)| == 5
    ensures forall i :: 0 <= i < 5 ==> DateKey(LatestPayments(t, org)[i].date) >= DateKey(t.payments[k].date)
  {
    LatestNewest(t.payments, PaymentOfOrg(t, org), PaymentDate, 5, t.payments[k]);
  }

  /** The organization's five most recent expenses, newest first. */
  function LatestExpenses(t: Tables, org: string): (r: seq<Expense>)
    ensures |r| == Min(5, CountWhere(t.expenses, ExpenseOfOrg(t, org)))
    ensures SortedBy(r, ExpenseDate)
    ensures multiset(r) <= multiset(Filter(t.expenses, ExpenseOfOrg(t, org)))
    ensures forall i :: 0 <= i < |r| ==> r[i] in t.expenses && OwnedProperty(t, org, r[i].propertyId)
  {
    Latest(t.expenses, ExpenseOfOrg(t, org), ExpenseDate, 5)
  }

  /** An expense of the organization left out of the five is no more recent than any of them. */
  lemma LatestExpensesNewest(t: Tables, org: string, k: nat)
    requires k < |t.expenses| && OwnedProperty(t, org, t.expenses[k].propertyId)
    requires t.expenses[k] !in LatestExpenses(t, org)
    ensures |LatestExpenses(t, org)| == 5
    ensures forall i :: 0 <= i < 5 ==> DateKey(LatestExpenses(t, org)[i].date) >= DateKey(t.expenses[k].date)
  {
    LatestNewest(t.expenses, ExpenseOfOrg(t, org), ExpenseDate, 5, t.expenses[k]);
  }

  /** "Rent - Unit <number> (<tenant's last name>)", the entity being the unit number. */
  function PaymentTransaction(t: Tables, p: Payment): (x: Transaction)
    ensures x.kind == Income && x.id == p.id && x.amount == p.amount && x.date == p.date
  {
    var unitNumber := match FindLease(t, p.leaseId)
      case None => ""
      case Some(l) => (match FindUnit(t, l.unitId) case None => "" case Some(u) => u.unitNumber);
    var lastName := match FindLease(t, p.leaseId)
      case None => ""
      case Some(l) => (match FindTenant(t, l.tenantId) case None => "" case Some(x) => x.lastName);
    Transaction(p.id, Income, p.amount, p.date, "Rent - Unit " + unitNumber + " (" + lastName + ")", unitNumber)
  }

  /** The category, followed by " - " and the description only when there is a non-empty description. */
  function ExpenseDescription(e: Expense): (r: string)
    ensures StartsWith(r, e.category)
    ensures r == e.category <==> !Truthy(e.description)
    ensures Truthy(e.description) ==> r[|e.category|..] == " - " + e.description.value
  {
    e.category + (if Truthy(e.description) then " - " + e.description.value else "")
  }

  function ExpenseTransaction(t: Tables, e: Expense): (x: Transaction)
    ensures x.kind == ExpenseKind && x.id == e.id && x.amount == e.amount && x.date == e.date
    ensures x.description == ExpenseDescription(e)
  {
    var name := match FindProperty(t, e.propertyId) case None => "" case Some(p) => p.name;
    Transaction(e.id, ExpenseKind, e.amount, e.date, ExpenseDescription(e), name)
  }

  /**
   * `getRecentTransactions`: both lists mapped, merged, ordered by date
   * descending, first ten: the ten most recent candidates, or all of them
   * when there are no more than ten.
   */
  function GetRecentTransactions(t: Tables, session: Option<Session>): (r: seq<Transaction>)
    ensures OrgOf(session).None? ==> r == []
    ensures OrgOf(session).Some? ==> var c := RecentCandidates(t, OrgOf(session).value);
      |r| == Min(10, |c|) && multiset(r) <= multiset(c) && forall i :: 0 <= i < |r| ==> r[i] in c
    ensures forall i, j :: 0 <= i < j < |r| ==> DateKey(r[i].date) >= DateKey(r[j].date)
  {
    match OrgOf(session)
    case None => []
    case Some(org) => TopBy(RecentCandidates(t, org), TransactionDate, 10)
  }

  function PaymentTransactions(t: Tables, ps: seq<Payment>): (r: seq<Transaction>)
    ensures |r| == |ps| && forall i :: 0 <= i < |ps| ==> r[i] == PaymentTransaction(t, ps[i])
  {
    MapSeq(ps, (p: Payment) => PaymentTransaction(t, p))
  }

  function ExpenseTransactions(t: Tables, es: seq<Expense>): (r: seq<Transaction>)
    ensures |r| == |es| && forall i :: 0 <= i < |es| ==> r[i] == ExpenseTransaction(t, es[i])
  {
    MapSeq(es, (e: Expense) => ExpenseTransaction(t, e))
  }

  /** The candidates merged: the latest payments as income, then the latest expenses. */
  function RecentCandidates(t: Tables, org: string): seq<Transaction> {
    PaymentTransactions(t, LatestPayments(t, org)) + ExpenseTransactions(t, LatestExpenses(t, org))
  }

  /** The candidates open with the organization's latest payments, each listed as income. */
  lemma CandidatesOpenWithPayments(t: Tables, org: string, m: nat)
    requires m < |LatestPayments(t, org)|
    ensures RecentCandidates(t, org)[m] == PaymentTransaction(t, LatestPayments(t, org)[m])
    ensures RecentCandidates(t, org)[m].kind == Income
  {
    var a := PaymentTransactions(t, LatestPayments(t, org));
    var b := ExpenseTransactions(t, LatestExpenses(t, org));
    assert (a + b)[m] == a[m];
  }

  /** After the payments come the organization's latest expenses (each an `ExpenseKind` entry); nothing else. */
  lemma CandidatesCloseWithExpenses(t: Tables, org: string, m: nat)
    requires m < |LatestExpenses(t, org)|
    ensures |RecentCandidates(t, org)| == |LatestPayments(t, org)| + |LatestExpenses(t, org)| <= 10
    ensures RecentCandidates(t, org)[|LatestPayments(t, org)| + m] == ExpenseTransaction(t, LatestExpenses(t, org)[m])
  {
    MergedTail(t, LatestPayments(t, org), LatestExpenses(t, org), m);
  }

  /** In payments-then-expenses order, the expense `m` sits right after all the payments. */
  lemma MergedTail(t: Tables, ps: seq<Payment>, es: seq<Expense>, m: nat)
    requires m < |es|
    ensures |PaymentTransactions(t, ps) + ExpenseTransactions(t, es)| == |ps| + |es|
    ensures (PaymentTransactions(t, ps) + ExpenseTransactions(t, es))[|ps| + m] == ExpenseTransaction(t, es[m])
  {
    var a := PaymentTransactions(t, ps);
    var b := ExpenseTransactions(t, es);
    assert (a + b)[|a| + m] == b[m];
  }

  /** At most five plus five candidates reach `.slice(0, 10)`, so it never cuts: every candidate is listed. */
  lemma RecentTransactionsAll(t: Tables, session: Option<Session>)
    requires OrgOf(session).Some?
    ensures multiset(GetRecentTransactions(t, session)) == multiset(RecentCandidates(t, OrgOf(session).value))
  {
    var c := RecentCandidates(t, OrgOf(session).value);
    assert |c| <= 10;
    SubMultisetSameLength(GetRecentTransactions(t, session), c);
  }
}
