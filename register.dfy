/**
 * Sign-up: `POST /api/auth/register` validates the body, refuses an email
 * already in use, derives the organization's slug from its name, and creates
 * the organization and its first user, a super admin, in one transaction.
 */
module Registration {
  import opened Common
  import opened Seqs
  import opened Store

  // ---------------------------------------------------------------------------
  // The slug: lower-case, each run of other characters one '-', no edge '-'
  // ---------------------------------------------------------------------------

  /** A character `[a-z0-9]` keeps. */
  predicate IsSlugChar(c: char) {
    'a' <= c <= 'z' || '0' <= c <= '9'
  }

  /** No two neighbouring dashes. */
  predicate NoDoubleDash(s: string) {
    forall i :: 0 <= i < |s| - 1 ==> !(s[i] == '-' && s[i + 1] == '-')
  }

  /** What a slug looks like: `[a-z0-9]` and single dashes, never at either end. */
  predicate WellFormedSlug(s: string) {
    (forall i :: 0 <= i < |s| ==> IsSlugChar(s[i]) || s[i] == '-') &&
    NoDoubleDash(s) &&
    (|s| > 0 ==> s[0] != '-' && s[|s| - 1] != '-')
  }

  /**
   * `.replace(/[^a-z0-9]+/g, "-")`: each maximal run of other characters
   * becomes one dash; `inRun` says the previous character already began one.
   */
  function Hyphenate(s: string, inRun: bool): (r: string)
    ensures forall i :: 0 <= i < |r| ==> IsSlugChar(r[i]) || r[i] == '-'
    ensures NoDoubleDash(r)
    ensures inRun && |r| > 0 ==> r[0] != '-'
  {
    if |s| == 0 then ""
    else if IsSlugChar(s[0]) then [s[0]] + Hyphenate(s[1..], false)
    else if inRun then Hyphenate(s[1..], true)
    else "-" + Hyphenate(s[1..], true)
  }

  /** `Hyphenate` keeps every `[a-z0-9]` character, in order, and adds no other. */
  lemma {:induction false} HyphenateKeepsOrder(s: string, inRun: bool)
    ensures Filter(Hyphenate(s, inRun), IsSlugChar) == Filter(s, IsSlugChar)
  {
    if |s| > 0 {
      var rest := Hyphenate(s[1..], !IsSlugChar(s[0]));
      HyphenateKeepsOrder(s[1..], !IsSlugChar(s[0]));
      if IsSlugChar(s[0]) {
        assert ([s[0]] + rest)[1..] == rest;
      } else if !inRun {
        assert ("-" + rest)[1..] == rest;
      }
    }
  }

  predicate IsDash(c: char) {
    c == '-'
  }

  /** Position `i` of `s` begins a maximal run of characters `[a-z0-9]` does not keep. */
  predicate RunStart(s: string, inRun: bool, i: int)
    requires 0 <= i < |s|
  {
    !IsSlugChar(s[i]) && (if i == 0 then !inRun else IsSlugChar(s[i - 1]))
  }

  /** The number of runs of other characters in `s`, counted from its end; one already begun (`inRun`) is not counted. */
  function RunCount(s: string, inRun: bool): nat {
    if |s| == 0 then 0
    else RunCount(s[..|s| - 1], inRun) + (if RunStart(s, inRun, |s| - 1) then 1 else 0)
  }

  /** Counting runs from the front instead: the first character, then the rest. */
  lemma {:induction false} RunCountFront(s: string, inRun: bool)
    requires |s| > 0
    ensures RunCount(s, inRun) == (if RunStart(s, inRun, 0) then 1 else 0) + RunCount(s[1..], !IsSlugChar(s[0]))
  {
    if |s| > 1 {
      var init := s[..|s| - 1];
      RunCountFront(init, inRun);
      assert init[1..] == s[1..][..|s[1..]| - 1];
      assert RunStart(s, inRun, |s| - 1) == RunStart(s[1..], !IsSlugChar(s[0]), |s| - 2);
    } else {
      assert s[..0] == [];
      assert s[1..] == [];
    }
  }

  /** `Hyphenate` writes exactly one dash per maximal run of other characters. */
  lemma {:induction false} HyphenateDashes(s: string, inRun: bool)
    ensures CountWhere(Hyphenate(s, inRun), IsDash) == RunCount(s, inRun)
  {
    if |s| > 0 {
      var rest := Hyphenate(s[1..], !IsSlugChar(s[0]));
      HyphenateDashes(s[1..], !IsSlugChar(s[0]));
      RunCountFront(s, inRun);
      if IsSlugChar(s[0]) {
        assert ([s[0]] + rest)[1..] == rest;
      } else if !inRun {
        assert ("-" + rest)[1..] == rest;
      }
    }
  }

  /** `.replace(/(^-|-$)/g, "")`: one leading and one trailing dash go. */
  function TrimDashes(b: string): (r: string)
    requires NoDoubleDash(b)
    ensures |r| > 0 ==> r[0] != '-' && r[|r| - 1] != '-'
    ensures NoDoubleDash(r)
    ensures forall i :: 0 <= i < |r| ==> r[i] in b
  {
    var a := if |b| > 0 && b[0] == '-' then b[1..] else b;
    assert forall i :: 0 <= i < |a| - 1 ==> !(a[i] == '-' && a[i + 1] == '-');
    if |a| > 0 && a[|a| - 1] == '-' then a[..|a| - 1] else a
  }

  /** The organization slug derived from its name. */
  function Slug(name: string): (r: string)
    ensures WellFormedSlug(r)
  {
    var b := Hyphenate(Lower(name), false);
    TrimDashes(b)
  }

  /** Lower-casing leaves slug characters and dashes alone. */
  lemma LowerKeepsSlug(s: string)
    requires forall i :: 0 <= i < |s| ==> IsSlugChar(s[i]) || s[i] == '-'
    ensures Lower(s) == s
  {
  }

  /** A run-free string of slug characters and dashes passes through `Hyphenate` unchanged. */
  lemma {:induction false} HyphenateKeeps(s: string)
    requires forall i :: 0 <= i < |s| ==> IsSlugChar(s[i]) || s[i] == '-'
    requires NoDoubleDash(s)
    ensures Hyphenate(s, false) == s
  {
    if |s| > 0 {
      HyphenateKeeps(s[1..]);
      if !IsSlugChar(s[0]) && |s| > 1 {
        assert IsSlugChar(s[1..][0]);
        assert Hyphenate(s[1..], true) == Hyphenate(s[1..], false);
      }
      assert s == [s[0]] + s[1..];
    }
  }

  /** A well-formed slug is its own slug. */
  lemma SlugOfSlug(s: string)
    requires WellFormedSlug(s)
    ensures Slug(s) == s
  {
    LowerKeepsSlug(s);
    HyphenateKeeps(s);
    assert Hyphenate(Lower(s), false) == s;
    assert TrimDashes(s) == s;
  }

  /** Deriving the slug twice gives the slug. */
  lemma SlugIdempotent(name: string)
    ensures Slug(Slug(name)) == Slug(name)
  {
    SlugOfSlug(Slug(name));
  }

  // ---------------------------------------------------------------------------
  // POST /api/auth/register
  // ---------------------------------------------------------------------------

  /** The JSON body's fields; a field that is missing or not a string is None. */
  datatype RegisterBody = RegisterBody(
    email: Option<string>, password: Option<string>,
    firstName: Option<string>, lastName: Option<string>, organizationName: Option<string>)

  /** `registerSchema`: a valid email, a password of eight or more, names of two or more. */
  predicate BodyValid(b: RegisterBody) {
    b.email.Some? && IsEmail(b.email.value) &&
    b.password.Some? && |b.password.value| >= 8 &&
    b.firstName.Some? && |b.firstName.value| >= 2 &&
    b.lastName.Some? && |b.lastName.value| >= 2 &&
    b.organizationName.Some? && |b.organizationName.value| >= 2
  }

  /** The response: 201 with the new user's id, 400 or 500 with an error. */
  datatype Response = Created(userId: string) | BadRequest(error: string) | ServerError(error: string)

  function Status(r: Response): (code: int)
    ensures 200 <= code < 300 <==> r.Created?
  {
    match r
    case Created(_) => 201
    case BadRequest(_) => 400
    case ServerError(_) => 500
  }

  function NewOrganization(orgId: string, b: RegisterBody): (o: Organization)
    requires BodyValid(b)
    ensures o.id == orgId && o.name == b.organizationName.value && o.slug == Slug(b.organizationName.value)
  {
    Organization(orgId, b.organizationName.value, Slug(b.organizationName.value))
  }

  /** The first user: a super admin of the new organization whose stored password is the hash. */
  function NewAdmin(userId: string, orgId: string, b: RegisterBody, hasher: string -> string): (u: User)
    requires BodyValid(b)
    ensures u.id == userId && u.email == b.email.value && u.role == SuperAdmin && u.organizationId == orgId
    ensures u.passwordHash == hasher(b.password.value)
  {
    User(userId, b.email.value, hasher(b.password.value), b.firstName.value, b.lastName.value, SuperAdmin, orgId)
  }

  /** Both inserts of the transaction are accepted: fresh ids, a free slug and a free email. */
  predicate CanCreateAccount(t: Tables, o: Organization, u: User) {
    KeyFree(t.organizations, OrganizationId, o.id) && KeyFree(t.organizations, OrganizationSlug, o.slug) &&
    KeyFree(t.users, UserId, u.id) && KeyFree(t.users, UserEmail, u.email)
  }

  /**
   * The route's response. `body` is None when the request is not JSON at all
   * (reading it throws); `hasher` is the password hash.
   */
  function RegisterReply(t: Tables, body: Option<RegisterBody>, hasher: string -> string, orgId: string, userId: string)
    : (r: Response)
    ensures r == BadRequest("Invalid input") <==> body.Some? && !BodyValid(body.value)
    ensures r == BadRequest("User with this email already exists") <==>
      body.Some? && BodyValid(body.value) && FindUserByEmail(t, body.value.email.value).Some?
    ensures r.Created? <==>
      (body.Some? && BodyValid(body.value) && FindUserByEmail(t, body.value.email.value).None? &&
       CanCreateAccount(t, NewOrganization(orgId, body.value), NewAdmin(userId, orgId, body.value, hasher)))
    ensures r.Created? ==> r.userId == userId
    ensures r.ServerError? ==> r.error == "An error occurred during registration"
  {
    if body.None? then ServerError("An error occurred during registration")
    else if !BodyValid(body.value) then BadRequest("Invalid input")
    else if FindUserByEmail(t, body.value.email.value).Some? then BadRequest("User with this email already exists")
    // a refused insert aborts the transaction, and the route's catch answers 500
    else if !CanCreateAccount(t, NewOrganization(orgId, body.value), NewAdmin(userId, orgId, body.value, hasher))
    then ServerError("An error occurred during registration")
    else Created(userId)
  }

  method Register(db: Db, body: Option<RegisterBody>, hasher: string -> string, orgId: string, userId: string)
    returns (r: Response)
    requires db.Valid()
    modifies db
    ensures db.Valid()
    ensures r == RegisterReply(old(db.t), body, hasher, orgId, userId)
    ensures r.Created? ==> db.t == old(db.t).(
      organizations := old(db.t).organizations + [NewOrganization(orgId, body.value)],
      users := old(db.t).users + [NewAdmin(userId, orgId, body.value, hasher)])
    ensures !r.Created? ==> db.t == old(db.t)
  {
    if body.None? {
      return ServerError("An error occurred during registration");
    }
    var b := body.value;
    if !BodyValid(b) {
      return BadRequest("Invalid input");
    }
    if FindUserByEmail(db.t, b.email.value).Some? {
      return BadRequest("User with this email already exists");
    }
    var o := NewOrganization(orgId, b);
    var u := NewAdmin(userId, orgId, b, hasher);
    if !CanCreateAccount(db.t, o, u) {
      return ServerError("An error occurred during registration");
    }
    AppendUnique(db.t.organizations, OrganizationId, o);
    AppendUnique(db.t.organizations, OrganizationSlug, o);
    AppendUnique(db.t.users, UserId, u);
    AppendUnique(db.t.users, UserEmail, u);
    db.t := db.t.(organizations := db.t.organizations + [o], users := db.t.users + [u]);
    return Created(userId);
  }

  /**
   * After a successful sign-up the email finds the new super admin, who
   * belongs to the new organization, and that organization carries the slug
   * of its name.
   */
  lemma RegisteredAdminFound(t: Tables, b: RegisterBody, hasher: string -> string, orgId: string, userId: string)
    requires RegisterReply(t, Some(b), hasher, orgId, userId).Created?
    ensures var t' := t.(organizations := t.organizations + [NewOrganization(orgId, b)],
                         users := t.users + [NewAdmin(userId, orgId, b, hasher)]);
      var u := FindUserByEmail(t', b.email.value);
      u.Some? && u.value.id == userId && u.value.role == SuperAdmin &&
      u.value.passwordHash == hasher(b.password.value) &&
      FindOrganization(t', u.value.organizationId) == Some(Organization(orgId, b.organizationName.value, Slug(b.organizationName.value)))
  {
    var o := NewOrganization(orgId, b);
    var a := NewAdmin(userId, orgId, b, hasher);
    var t' := t.(organizations := t.organizations + [o], users := t.users + [a]);
    assert t'.users[|t.users|] == a;
    assert t'.organizations[|t.organizations|] == o;
    var u := FindUserByEmail(t', b.email.value);
    var k :| 0 <= k < |t'.users| && t'.users[k] == u.value;
    assert k == |t.users|;
    var f := FindOrganization(t', orgId);
    var m :| 0 <= m < |t'.organizations| && t'.organizations[m] == f.value;
    assert m == |t.organizations|;
  }

  /** Registering the same email a second time is refused with 400 and creates nothing. */
  lemma RegisterTwiceRefused(t: Tables, b: RegisterBody, hasher: string -> string, orgId: string, userId: string,
                             orgId2: string, userId2: string)
    requires RegisterReply(t, Some(b), hasher, orgId, userId).Created?
    ensures var t' := t.(organizations := t.organizations + [NewOrganization(orgId, b)],
                         users := t.users + [NewAdmin(userId, orgId, b, hasher)]);
      RegisterReply(t', Some(b), hasher, orgId2, userId2) == BadRequest("User with this email already exists")
  {
    var a := NewAdmin(userId, orgId, b, hasher);
    var t' := t.(organizations := t.organizations + [NewOrganization(orgId, b)], users := t.users + [a]);
    assert t'.users[|t.users|] == a;
  }
}
