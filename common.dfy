/**
 * Shared vocabulary of the estate-management server actions: optional values,
 * the three ways an action can end, the session every action reads, calendar
 * dates, and the small string predicates the validation schemas use.
 */
module Common {

  datatype Option<T> = None | Some(value: T)

  /** How a server action ends: a value, an `{ error }` object it returns, or an exception it throws. */
  datatype Reply<T> = Ok(value: T) | Err(error: string) | Thrown(error: string)

  /** Message of an exception raised by the ORM itself and left uncaught by the action. */
  const StoreError := "store error"

  datatype Role = SuperAdmin | PropertyManager | MaintenanceStaff | FinanceManager | TenantRole

  /**
   * The session's `user` object. `userId`, `role` and `organizationId` may be undefined;
   * a missing email or name is the empty string / None.
   */
  datatype Session = Session(
    userId: Option<string>,
    email: string,
    name: Option<string>,
    role: Option<Role>,
    organizationId: Option<string>)

  /** A JavaScript truthiness test on an optional string: undefined and "" are both falsy. */
  predicate Truthy(o: Option<string>) {
    o.Some? && o.value != ""
  }

  /** `x || null`: an absent or empty string is stored as null. */
  function NullIfEmpty(x: Option<string>): (r: Option<string>)
    ensures r.Some? <==> Truthy(x)
    ensures r.Some? ==> r == x
  {
    if Truthy(x) then x else None
  }

  /** `session?.user?.organizationId`, when truthy. */
  function OrgOf(s: Option<Session>): (r: Option<string>)
    ensures r.Some? <==> s.Some? && Truthy(s.value.organizationId)
    ensures r.Some? ==> r == s.value.organizationId && r.value != ""
  {
    if s.Some? && Truthy(s.value.organizationId) then s.value.organizationId else None
  }

  /** `session?.user?.id`, when truthy. */
  function UserOf(s: Option<Session>): (r: Option<string>)
    ensures r.Some? <==> s.Some? && Truthy(s.value.userId)
    ensures r.Some? ==> r == s.value.userId && r.value != ""
  {
    if s.Some? && Truthy(s.value.userId) then s.value.userId else None
  }

  /** `session?.user?.email`, when truthy. */
  function EmailOf(s: Option<Session>): (r: Option<string>)
    ensures r.Some? <==> s.Some? && s.value.email != ""
    ensures r.Some? ==> r.value == s.value.email
  {
    if s.Some? && s.value.email != "" then Some(s.value.email) else None
  }

  /** `session?.user?.role`. */
  function RoleOf(s: Option<Session>): Option<Role> {
    if s.Some? then s.value.role else None
  }

  // ---------------------------------------------------------------------------
  // Calendar dates (JavaScript month numbering: 0 = January ... 11 = December)
  // ---------------------------------------------------------------------------

  datatype Date = Date(year: int, month: int, day: int)

  predicate ValidDate(d: Date) {
    0 <= d.month < 12 && 1 <= d.day <= 31
  }

  /** Months since year 0; consecutive months have consecutive indices. */
  function MonthIndex(d: Date): int {
    d.year * 12 + d.month
  }

  /** The calendar month with the given index. */
  function MonthOfIndex(idx: int): (r: (int, int))
    ensures 0 <= r.1 < 12 && r.0 * 12 + r.1 == idx
  {
    (idx / 12, idx % 12)
  }

  /** Two dates in valid months with the same month index are in the same month of the same year. */
  lemma MonthIndexInjective(a: Date, b: Date)
    requires 0 <= a.month < 12 && 0 <= b.month < 12 && MonthIndex(a) == MonthIndex(b)
    ensures a.year == b.year && a.month == b.month
  {
    assert (a.year - b.year) * 12 == b.month - a.month;
  }

  /** A number that orders valid dates chronologically (days within a month never reach 32). */
  function DateKey(d: Date): int {
    MonthIndex(d) * 32 + d.day
  }

  /** Whether `d` lies between the start and the end of the calendar month (year, month). */
  predicate InMonth(d: Date, year: int, month: int) {
    d.year == year && d.month == month
  }

  // ---------------------------------------------------------------------------
  // Strings
  // ---------------------------------------------------------------------------

  predicate StartsWith(s: string, prefix: string) {
    |prefix| <= |s| && s[..|prefix|] == prefix
  }

  /** `sub` occurs in `s` starting at position `i`. */
  predicate OccursAt(s: string, sub: string, i: int) {
    0 <= i <= |s| - |sub| && s[i..i + |sub|] == sub
  }

  /** `s.includes(sub)`. */
  predicate Contains(s: string, sub: string) {
    exists i :: 0 <= i <= |s| - |sub| && OccursAt(s, sub, i)
  }

  function LowerChar(c: char): char {
    if 'A' <= c <= 'Z' then (c as int + 32) as char else c
  }

  function UpperChar(c: char): char {
    if 'a' <= c <= 'z' then (c as int - 32) as char else c
  }

  /** `toLowerCase`, on the ASCII letters. */
  function Lower(s: string): (r: string)
    ensures |r| == |s| && forall i :: 0 <= i < |s| ==> r[i] == LowerChar(s[i])
  {
    seq(|s|, i requires 0 <= i < |s| => LowerChar(s[i]))
  }

  /** `toUpperCase`, on the ASCII letters. */
  function Upper(s: string): (r: string)
    ensures |r| == |s| && forall i :: 0 <= i < |s| ==> r[i] == UpperChar(s[i])
  {
    seq(|s|, i requires 0 <= i < |s| => UpperChar(s[i]))
  }

  predicate IsHexDigit(c: char) {
    '0' <= c <= '9' || 'a' <= c <= 'f' || 'A' <= c <= 'F'
  }

  /** The 8-4-4-4-12 hexadecimal shape that the schema's `.uuid()` accepts. */
  predicate IsUuid(s: string) {
    |s| == 36 &&
    forall i :: 0 <= i < 36 ==>
      if i == 8 || i == 13 || i == 18 || i == 23 then s[i] == '-' else IsHexDigit(s[i])
  }

  /**
   * Stand-in for the schema's `.email()` check: one '@' with a non-empty part on
   * each side and no spaces.
   */
  predicate IsEmail(s: string) {
    ' ' !in s &&
    exists i :: 0 < i < |s| - 1 && s[i] == '@' && '@' !in s[..i] && '@' !in s[i + 1..]
  }

  function DigitChar(d: nat): char
    requires d < 10
  {
    "0123456789"[d]
  }

  /** Decimal rendering of a whole number, as a template literal prints it. */
  function NatToString(n: nat): (r: string)
    ensures |r| >= 1
    decreases n
  {
    if n < 10 then [DigitChar(n)] else NatToString(n / 10) + [DigitChar(n % 10)]
  }

  function IntToString(n: int): string {
    if n < 0 then "-" + NatToString(-n) else NatToString(n)
  }
}
