/**
 * The sign-up form: its own schema, which adds a repeated password, and the
 * submit handler that posts to the registration route and reports its answer.
 */
module RegisterFormUi {
  import opened Common
  import opened Store
  import opened Registration

  datatype RegisterFormData = RegisterFormData(
    email: string, password: string, confirmPassword: string,
    firstName: string, lastName: string, organizationName: string)

  /**
   * The fields the form's schema flags. The password check is a refinement
   * of the whole object, reported on `confirmPassword`.
   */
  function FormIssues(d: RegisterFormData): (r: set<string>)
    ensures "confirmPassword" in r <==> d.password != d.confirmPassword
    ensures "password" in r <==> |d.password| < 8
    ensures "email" in r <==> !IsEmail(d.email)
    ensures "firstName" in r <==> |d.firstName| < 2
    ensures "lastName" in r <==> |d.lastName| < 2
    ensures "organizationName" in r <==> |d.organizationName| < 2
    ensures r <= {"email", "password", "confirmPassword", "firstName", "lastName", "organizationName"}
  {
    (if IsEmail(d.email) then {} else {"email"}) +
    (if |d.password| >= 8 then {} else {"password"}) +
    (if d.password == d.confirmPassword then {} else {"confirmPassword"}) +
    (if |d.firstName| >= 2 then {} else {"firstName"}) +
    (if |d.lastName| >= 2 then {} else {"lastName"}) +
    (if |d.organizationName| >= 2 then {} else {"organizationName"})
  }

  /** The body posted: every field but `confirmPassword`. */
  function RequestBody(d: RegisterFormData): (b: RegisterBody)
    ensures b.email == Some(d.email) && b.password == Some(d.password)
    ensures b.firstName == Some(d.firstName) && b.lastName == Some(d.lastName)
    ensures b.organizationName == Some(d.organizationName)
  {
    RegisterBody(Some(d.email), Some(d.password), Some(d.firstName), Some(d.lastName), Some(d.organizationName))
  }

  /** A form with no issues posts a body the route's schema accepts. */
  lemma AcceptedFormPassesRoute(d: RegisterFormData)
    requires FormIssues(d) == {}
    ensures BodyValid(RequestBody(d))
    ensures d.password == d.confirmPassword
  {
    assert "firstName" !in FormIssues(d);
    assert "lastName" !in FormIssues(d);
    assert "organizationName" !in FormIssues(d);
  }

  /** Where the form sends the browser after a successful sign-up. */
  const LoginAfterRegister := "/login?registered=true"

  class RegisterForm {
    var error: Option<string>
    var isLoading: bool
    /** The page the router was sent to, once it was. */
    var navigatedTo: Option<string>

    constructor ()
      ensures error.None? && !isLoading && navigatedTo.None?
    {
      error := None;
      isLoading := false;
      navigatedTo := None;
    }

    /**
     * `handleSubmit(onSubmit)`: with issues nothing is posted; otherwise the
     * route runs (unless the request never reaches it, `delivered` false),
     * and its answer decides the message, the loading flag and navigation.
     * On success the loading flag is left set, since the page is leaving.
     */
    method Submit(db: Db, d: RegisterFormData, delivered: bool,
                  hasher: string -> string, orgId: string, userId: string)
      requires db.Valid()
      modifies this, db
      ensures db.Valid()
      ensures FormIssues(d) != {} || !delivered ==> db.t == old(db.t)
      ensures FormIssues(d) != {} ==>
        error == old(error) && isLoading == old(isLoading) && navigatedTo == old(navigatedTo)
      ensures FormIssues(d) == {} && !delivered ==>
        error == Some("An error occurred. Please try again.") && !isLoading && navigatedTo == old(navigatedTo)
      ensures FormIssues(d) == {} && delivered ==>
        var r := RegisterReply(old(db.t), Some(RequestBody(d)), hasher, orgId, userId);
        (r.Created? ==> error.None? && isLoading && navigatedTo == Some(LoginAfterRegister)) &&
        (!r.Created? ==> error == Some(r.error) && !isLoading && navigatedTo == old(navigatedTo)) &&
        (r.Created? ==> db.t == old(db.t).(
           organizations := old(db.t).organizations + [NewOrganization(orgId, RequestBody(d))],
           users := old(db.t).users + [NewAdmin(userId, orgId, RequestBody(d), hasher)])) &&
        (!r.Created? ==> db.t == old(db.t))
    {
      if FormIssues(d) != {} {
        return;
      }
      isLoading := true;
      error := None;
      if !delivered {
        error := Some("An error occurred. Please try again.");
        isLoading := false;
        return;
      }
      AcceptedFormPassesRoute(d);
      var r := Register(db, Some(RequestBody(d)), hasher, orgId, userId);
      if !r.Created? {
        // `result.error || "Registration failed"`: the route always names an error
        error := Some(r.error);
        isLoading := false;
        return;
      }
      navigatedTo := Some(LoginAfterRegister);
    }
  }

  /** A posted form is never refused for its shape: the route answers 201, or 400 for a taken email, or 500. */
  lemma PostedFormNeverInvalid(t: Tables, d: RegisterFormData, hasher: string -> string, orgId: string, userId: string)
    requires FormIssues(d) == {}
    ensures RegisterReply(t, Some(RequestBody(d)), hasher, orgId, userId) != BadRequest("Invalid input")
  {
    AcceptedFormPassesRoute(d);
  }
}
