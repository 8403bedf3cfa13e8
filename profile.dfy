/**
 * The settings page's two writes: the caller's own name, and the name of the
 * caller's organization. Both return `{ error }` objects rather than throw.
 */
module Settings {
  import opened Common
  import opened Seqs
  import opened Store

  // ---------------------------------------------------------------------------
  // updateProfile
  // ---------------------------------------------------------------------------

  /** The profile form; `email` and `phone` are accepted by the schema but never written. */
  datatype ProfileInput = ProfileInput(firstName: string, lastName: string, email: Option<string>, phone: Option<string>)

  /** `profileSchema`: both names at least two characters, and a supplied email well formed. */
  predicate ProfileInputValid(d: ProfileInput) {
    |d.firstName| >= 2 && |d.lastName| >= 2 && (d.email.Some? ==> IsEmail(d.email.value))
  }

  /** Position of the user row with this id. */
  function UserIndex(t: Tables, id: string): (r: Option<nat>)
    ensures r.Some? ==> r.value < |t.users| && t.users[r.value].id == id
    ensures r.None? <==> KeyFree(t.users, UserId, id)
  {
    IndexWhere(t.users, (u: User) => u.id == id)
  }

  /** The user row the update targets: `where: { id: session.user.id }`. */
  function ProfileIndex(t: Tables, session: Option<Session>): Option<nat> {
    if session.Some? && session.value.userId.Some? then UserIndex(t, session.value.userId.value) else None
  }

  function UpdateProfileReply(t: Tables, session: Option<Session>, d: ProfileInput): (r: Reply<()>)
    ensures r == Err("Unauthorized") <==> session.None?
    ensures r == Err("Invalid fields") <==> session.Some? && !ProfileInputValid(d)
    ensures r.Ok? <==> session.Some? && ProfileInputValid(d) && ProfileIndex(t, session).Some?
    ensures r.Err? ==> r.error in {"Unauthorized", "Invalid fields", "Failed to update profile"}
    ensures !r.Thrown?
  {
    if session.None? then Err("Unauthorized")
    else if !ProfileInputValid(d) then Err("Invalid fields")
    // an undefined id or a missing row makes the update throw, and the action catches it
    else if ProfileIndex(t, session).None? then Err("Failed to update profile")
    else Ok(())
  }

  method UpdateProfile(db: Db, session: Option<Session>, d: ProfileInput) returns (r: Reply<()>)
    requires db.Valid()
    modifies db
    ensures db.Valid()
    ensures r == UpdateProfileReply(old(db.t), session, d)
    ensures r.Ok? ==>
      var k := ProfileIndex(old(db.t), session).value;
      db.t == old(db.t).(users := old(db.t).users[k := old(db.t).users[k].(firstName := d.firstName, lastName := d.lastName)])
    ensures !r.Ok? ==> db.t == old(db.t)
  {
    if session.None? {
      return Err("Unauthorized");
    }
    if !ProfileInputValid(d) {
      return Err("Invalid fields");
    }
    var k := ProfileIndex(db.t, session);
    if k.None? {
      return Err("Failed to update profile");
    }
    var u := db.t.users[k.value].(firstName := d.firstName, lastName := d.lastName);
    ReplaceUnique(db.t.users, UserId, k.value, u);
    assert UserEmail(u) == UserEmail(db.t.users[k.value]);
    ReplaceUnique(db.t.users, UserEmail, k.value, u);
    db.t := db.t.(users := db.t.users[k.value := u]);
    return Ok(());
  }

  /**
   * A profile update renames the caller's own row and nothing else: its email,
   * role and organization stay, whatever email or phone the form carried, and
   * every other user is untouched.
   */
  lemma ProfileChangesOnlyNames(t: Tables, s: Session, d: ProfileInput)
    requires UpdateProfileReply(t, Some(s), d).Ok?
    ensures var k := ProfileIndex(t, Some(s)).value;
      var us := t.users[k := t.users[k].(firstName := d.firstName, lastName := d.lastName)];
      Some(us[k].id) == s.userId && us[k].firstName == d.firstName && us[k].lastName == d.lastName &&
      us[k].email == t.users[k].email && us[k].role == t.users[k].role &&
      us[k].organizationId == t.users[k].organizationId && us[k].passwordHash == t.users[k].passwordHash &&
      (forall j :: 0 <= j < |us| && j != k ==> us[j] == t.users[j])
  {
  }

  /** The form's email and phone play no part: two forms with the same names have the same effect. */
  lemma ProfileIgnoresContact(t: Tables, s: Session, d: ProfileInput, email: Option<string>, phone: Option<string>)
    requires email.None? || IsEmail(email.value)
    requires d.email.None? || IsEmail(d.email.value)
    ensures UpdateProfileReply(t, Some(s), d) == UpdateProfileReply(t, Some(s), d.(email := email, phone := phone))
  {
  }

  // ---------------------------------------------------------------------------
  // updateOrganization
  // ---------------------------------------------------------------------------

  /** The organization form; the declared schema is never applied, and `slug` is never written. */
  datatype OrgInput = OrgInput(name: string, slug: Option<string>)

  /** Only a super admin or a property manager may rename the organization. */
  predicate MayEditOrganization(role: Option<Role>) {
    role == Some(SuperAdmin) || role == Some(PropertyManager)
  }

  /** Position of the organization row with this id. */
  function OrganizationIndex(t: Tables, id: string): (r: Option<nat>)
    ensures r.Some? ==> r.value < |t.organizations| && t.organizations[r.value].id == id
    ensures r.None? <==> KeyFree(t.organizations, OrganizationId, id)
  {
    IndexWhere(t.organizations, (o: Organization) => o.id == id)
  }

  function UpdateOrganizationReply(t: Tables, session: Option<Session>): (r: Reply<()>)
    ensures r == Err("Unauthorized") <==> OrgOf(session).None?
    ensures r == Err("Insufficient permissions") <==> OrgOf(session).Some? && !MayEditOrganization(RoleOf(session))
    ensures r.Ok? <==>
      OrgOf(session).Some? && MayEditOrganization(RoleOf(session)) &&
      OrganizationIndex(t, OrgOf(session).value).Some?
    ensures r.Err? ==> r.error in {"Unauthorized", "Insufficient permissions", "Failed to update organization"}
    ensures !r.Thrown?
  {
    if OrgOf(session).None? then Err("Unauthorized")
    else if !MayEditOrganization(RoleOf(session)) then Err("Insufficient permissions")
    else if OrganizationIndex(t, OrgOf(session).value).None? then Err("Failed to update organization")
    else Ok(())
  }

  method UpdateOrganization(db: Db, session: Option<Session>, d: OrgInput) returns (r: Reply<()>)
    requires db.Valid()
    modifies db
    ensures db.Valid()
    ensures r == UpdateOrganizationReply(old(db.t), session)
    ensures r.Ok? ==>
      var k := OrganizationIndex(old(db.t), OrgOf(session).value).value;
      db.t == old(db.t).(organizations := old(db.t).organizations[k := old(db.t).organizations[k].(name := d.name)])
    ensures !r.Ok? ==> db.t == old(db.t)
  {
    var org := OrgOf(session);
    if org.None? {
      return Err("Unauthorized");
    }
    if !MayEditOrganization(RoleOf(session)) {
      return Err("Insufficient permissions");
    }
    var k := OrganizationIndex(db.t, org.value);
    if k.None? {
      return Err("Failed to update organization");
    }
    var o := db.t.organizations[k.value].(name := d.name);
    ReplaceUnique(db.t.organizations, OrganizationId, k.value, o);
    assert OrganizationSlug(o) == OrganizationSlug(db.t.organizations[k.value]);
    ReplaceUnique(db.t.organizations, OrganizationSlug, k.value, o);
    db.t := db.t.(organizations := db.t.organizations[k.value := o]);
    return Ok(());
  }

  /**
   * A permitted caller renames their own organization to any name at all, one
   * character or none included, and its slug stays whatever slug the form sent.
   */
  lemma AnyNameAccepted(t: Tables, s: Session, d: OrgInput)
    requires Truthy(s.organizationId) && MayEditOrganization(s.role)
    requires FindOrganization(t, s.organizationId.value).Some?
    ensures UpdateOrganizationReply(t, Some(s)).Ok?
    ensures var k := OrganizationIndex(t, s.organizationId.value).value;
      var o := t.organizations[k].(name := d.name);
      o.id == s.organizationId.value && o.name == d.name && o.slug == t.organizations[k].slug
  {
  }
}
