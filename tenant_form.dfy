/**
 * The new-tenant form: it offers the vacant units of the chosen property,
 * and on submit creates the tenant and then the lease, in two separate
 * actions with nothing undone when the second fails.
 */
module TenantFormUi {
  import opened Common
  import opened Seqs
  import opened Store
  import Tenants
  import Leases
  import Properties

  datatype TenantFormData = TenantFormData(
    firstName: string, lastName: string, email: string, phone: string, emergencyContact: Option<string>,
    unitId: string, startDate: Date, endDate: Date, rentAmount: int, depositAmount: int)

  /** `tenantFormSchema`. */
  predicate FormValid(d: TenantFormData) {
    |d.firstName| >= 2 && |d.lastName| >= 2 && IsEmail(d.email) && |d.phone| >= 10 &&
    |d.unitId| >= 1 && d.rentAmount >= 0 && d.depositAmount >= 0
  }

  function TenantPart(d: TenantFormData): Tenants.TenantInput {
    Tenants.TenantInput(d.firstName, d.lastName, d.email, d.phone, d.emergencyContact)
  }

  function LeasePart(d: TenantFormData): Leases.LeaseInput {
    Leases.LeaseInput(d.unitId, d.startDate, d.endDate, d.rentAmount, d.depositAmount)
  }

  /** The form's schema is at least as strict as both actions' schemas. */
  lemma FormPassesActionSchemas(d: TenantFormData)
    requires FormValid(d)
    ensures Tenants.TenantInputValid(TenantPart(d)) && Leases.LeaseInputValid(LeasePart(d))
  {
  }

  function IsVacant(u: Unit): bool { u.status == Vacant }

  /** `availableUnits`: the vacant units of the first loaded property with the selected id, else none. */
  function AvailableUnits(ps: seq<Properties.PropertyView>, selected: string): (r: seq<Unit>)
    ensures (forall i :: 0 <= i < |ps| ==> ps[i].property.id != selected) ==> r == []
    ensures forall k :: 0 <= k < |r| ==> r[k].status == Vacant
    ensures forall i :: (0 <= i < |ps| && ps[i].property.id == selected &&
                         (forall h :: 0 <= h < i ==> ps[h].property.id != selected)) ==>
      (forall k :: 0 <= k < |r| ==> r[k] in ps[i].units) &&
      (forall k :: 0 <= k < |ps[i].units| && ps[i].units[k].status == Vacant ==> ps[i].units[k] in r)
  {
    match FirstWhere(ps, (p: Properties.PropertyView) => p.property.id == selected)
    case None => []
    case Some(p) =>
      FirstWhereIsFirst(ps, selected);
      Filter(p.units, IsVacant)
  }

  /** `find` returns the earliest match. */
  lemma {:induction false} FirstWhereIsFirst(ps: seq<Properties.PropertyView>, selected: string)
    ensures var f := FirstWhere(ps, (p: Properties.PropertyView) => p.property.id == selected);
      forall i :: (0 <= i < |ps| && ps[i].property.id == selected &&
                   (forall h :: 0 <= h < i ==> ps[h].property.id != selected)) ==> f == Some(ps[i])
  {
    if |ps| > 0 {
      FirstWhereIsFirst(ps[1..], selected);
      forall i | 0 <= i < |ps| && ps[i].property.id == selected &&
        (forall h :: 0 <= h < i ==> ps[h].property.id != selected)
        ensures FirstWhere(ps, (p: Properties.PropertyView) => p.property.id == selected) == Some(ps[i])
      {
        if i > 0 {
          assert ps[0].property.id != selected;
          assert ps[1..][i - 1] == ps[i];
          assert forall h :: 0 <= h < i - 1 ==> ps[1..][h] == ps[h + 1];
        }
      }
    }
  }

  /** With the list loaded from the store, only vacant units of the selected property are offered. */
  lemma OfferedUnitsAreVacantOnProperty(t: Tables, session: Option<Session>, selected: string)
    ensures var r := AvailableUnits(Properties.GetProperties(t, session), selected);
      forall k :: 0 <= k < |r| ==> r[k] in t.units && r[k].propertyId == selected && r[k].status == Vacant
  {
    var ps := Properties.GetProperties(t, session);
    Properties.GetPropertiesScoped(t, session);
    var r := AvailableUnits(ps, selected);
    var f := FirstWhere(ps, (p: Properties.PropertyView) => p.property.id == selected);
    if f.Some? {
      var i :| 0 <= i < |ps| && ps[i] == f.value;
      assert r == Filter(ps[i].units, IsVacant);
      assert ps[i].units == Properties.UnitsOf(t, ps[i].property.id);
      forall k | 0 <= k < |r|
        ensures r[k] in t.units && r[k].propertyId == selected
      {
        assert r[k] in ps[i].units;
        assert Properties.OnProperty(ps[i].property.id)(r[k]);
      }
    }
  }

  /** How the submit handler ended. */
  datatype SubmitOutcome =
    | NotSubmitted          // the schema flagged the form; nothing was sent
    | TenantFailed          // `createTenant` answered without success; no lease was attempted
    | LeaseFailed           // the tenant exists but `createLease` answered without success
    | BothCreated           // both succeeded and the page moved to the tenant list
    | Rejected(error: string) // an action threw; the handler ends with that exception

  const TenantsPage := "/dashboard/tenants"

  /** How the submit handler ended, and the store it left behind. */
  datatype SubmitEffect = SubmitEffect(outcome: SubmitOutcome, tables: Tables)

  /** The store after a created tenant. */
  function WithTenant(t: Tables, d: TenantFormData, tenantId: string, now: int): Tables {
    t.(tenants := t.tenants + [Tenants.NewTenant(tenantId, TenantPart(d), now)])
  }

  /**
   * What submitting does to the store: the tenant first, the lease only for a
   * tenant that was created and whose id came back, and nothing undone when
   * the lease is refused.
   */
  function SubmitSpec(t: Tables, session: Option<Session>, d: TenantFormData, tenantId: string, leaseId: string,
                      now: int): (e: SubmitEffect)
    ensures e.outcome == NotSubmitted <==> !FormValid(d)
    ensures e.outcome == NotSubmitted ==> e.tables == t
    ensures FormValid(d) ==>
      var tr := Tenants.CreateTenantReply(t, session, TenantPart(d), tenantId, now);
      var t1 := WithTenant(t, d, tenantId, now);
      var lr := Leases.CreateLeaseReply(t1, session, tenantId, LeasePart(d), leaseId);
      (tr.Thrown? ==> e == SubmitEffect(Rejected(tr.error), t)) &&
      (!tr.Thrown? && !(tr.Ok? && tenantId != "") ==> e.outcome == TenantFailed) &&
      (!tr.Ok? ==> e.tables == t) &&
      (tr.Ok? ==> e.tables.tenants == t1.tenants) &&
      (tr.Ok? && tenantId != "" && lr.Thrown? ==> e == SubmitEffect(Rejected(lr.error), t1)) &&
      (tr.Ok? && tenantId != "" && lr.Err? ==> e == SubmitEffect(LeaseFailed, t1)) &&
      (e.outcome == BothCreated <==> tr.Ok? && tenantId != "" && lr.Ok?) &&
      (e.outcome == BothCreated ==>
         e.tables == t1.(leases := t1.leases + [Leases.NewLease(leaseId, tenantId, LeasePart(d))],
                         units := Leases.WithUnitStatus(t1.units, d.unitId, Occupied)))
  {
    if !FormValid(d) then SubmitEffect(NotSubmitted, t)
    else
      var tr := Tenants.CreateTenantReply(t, session, TenantPart(d), tenantId, now);
      var t1 := WithTenant(t, d, tenantId, now);
      if tr.Thrown? then SubmitEffect(Rejected(tr.error), t)
      else if !tr.Ok? then SubmitEffect(TenantFailed, t)
      else if tenantId == "" then SubmitEffect(TenantFailed, t1)
      else
        var lr := Leases.CreateLeaseReply(t1, session, tenantId, LeasePart(d), leaseId);
        if lr.Thrown? then SubmitEffect(Rejected(lr.error), t1)
        else if lr.Err? then SubmitEffect(LeaseFailed, t1)
        else SubmitEffect(BothCreated, t1.(leases := t1.leases + [Leases.NewLease(leaseId, tenantId, LeasePart(d))],
                                           units := Leases.WithUnitStatus(t1.units, d.unitId, Occupied)))
  }

  class TenantForm {
    var isLoading: bool
    var properties: seq<Properties.PropertyView>
    var selectedPropertyId: string
    var navigatedTo: Option<string>

    constructor ()
      ensures !isLoading && properties == [] && selectedPropertyId == "" && navigatedTo.None?
    {
      isLoading := false;
      properties := [];
      selectedPropertyId := "";
      navigatedTo := None;
    }

    /** The mount effect: the property list is loaded once. */
    method LoadProperties(t: Tables, session: Option<Session>)
      modifies this
      ensures properties == Properties.GetProperties(t, session)
      ensures isLoading == old(isLoading) && selectedPropertyId == old(selectedPropertyId) && navigatedTo == old(navigatedTo)
    {
      properties := Properties.GetProperties(t, session);
    }

    method SelectProperty(id: string)
      modifies this
      ensures selectedPropertyId == id
      ensures isLoading == old(isLoading) && properties == old(properties) && navigatedTo == old(navigatedTo)
    {
      selectedPropertyId := id;
    }

    /**
     * `handleSubmit(onSubmit)`: the store ends as `SubmitSpec` says; the
     * loading flag stays set when an action throws, and the page moves to the
     * tenant list only after both actions succeeded.
     */
    method Submit(db: Db, session: Option<Session>, d: TenantFormData, tenantId: string, leaseId: string, now: int)
      returns (outcome: SubmitOutcome)
      requires db.Valid()
      modifies this, db
      ensures db.Valid()
      ensures SubmitEffect(outcome, db.t) == SubmitSpec(old(db.t), session, d, tenantId, leaseId, now)
      ensures properties == old(properties) && selectedPropertyId == old(selectedPropertyId)
      ensures outcome == NotSubmitted ==> isLoading == old(isLoading)
      ensures outcome.Rejected? ==> isLoading
      ensures outcome in {TenantFailed, LeaseFailed, BothCreated} ==> !isLoading
      ensures navigatedTo == if outcome == BothCreated then Some(TenantsPage) else old(navigatedTo)
    {
      if !FormValid(d) {
        return NotSubmitted;
      }
      isLoading := true;
      outcome := CreateTenantThenLease(db, session, d, tenantId, leaseId, now);
      if outcome.Rejected? {
        // the exception leaves the handler before the flag is cleared
        return;
      }
      isLoading := false;
      if outcome == BothCreated {
        navigatedTo := Some(TenantsPage);
      }
    }
  }

  /**
   * The two actions `onSubmit` awaits in turn: the tenant, then, for a
   * tenant that was created with an id, its lease.
   */
  method CreateTenantThenLease(db: Db, session: Option<Session>, d: TenantFormData, tenantId: string,
                               leaseId: string, now: int)
    returns (outcome: SubmitOutcome)
    requires db.Valid() && FormValid(d)
    modifies db
    ensures db.Valid()
    ensures SubmitEffect(outcome, db.t) == SubmitSpec(old(db.t), session, d, tenantId, leaseId, now)
  {
    var tr := Tenants.CreateTenant(db, session, TenantPart(d), tenantId, now);
    if tr.Thrown? {
      return Rejected(tr.error);
    }
    if !(tr.Ok? && tr.value != "") {
      return TenantFailed;
    }
    var lr := Leases.CreateLease(db, session, tr.value, LeasePart(d), leaseId);
    if lr.Thrown? {
      return Rejected(lr.error);
    }
    if !lr.Ok? {
      // no rollback: the tenant created above stays
      return LeaseFailed;
    }
    return BothCreated;
  }

  /**
   * Once the tenant is created, the submit leaves it in the store whatever the
   * lease action then does, refuse or throw: the two writes are not one
   * transaction.
   */
  lemma LeaseFailureKeepsTenant(t: Tables, session: Option<Session>, d: TenantFormData, tenantId: string,
                                leaseId: string, now: int)
    requires FormValid(d)
    requires Tenants.CreateTenantReply(t, session, TenantPart(d), tenantId, now).Ok?
    ensures var e := SubmitSpec(t, session, d, tenantId, leaseId, now);
      e.tables.tenants == t.tenants + [Tenants.NewTenant(tenantId, TenantPart(d), now)] &&
      FindTenant(e.tables, tenantId).Some? && |e.tables.tenants| == |t.tenants| + 1
  {
    var e := SubmitSpec(t, session, d, tenantId, leaseId, now);
    var x := Tenants.NewTenant(tenantId, TenantPart(d), now);
    assert e.tables.tenants == WithTenant(t, d, tenantId, now).tenants;
    assert e.tables.tenants[|t.tenants|] == x;
  }
}
