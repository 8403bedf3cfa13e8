/**
 * Lease creation (`createLease`): the session must carry an organization, the
 * input must pass the lease schema, the unit must exist on a property of that
 * organization, and it must be vacant; then one transaction inserts an active
 * lease and marks the unit occupied.
 */
module Leases {
  import opened Common
  import opened Seqs
  import opened Store

  datatype LeaseInput = LeaseInput(unitId: string, startDate: Date, endDate: Date, rentAmount: int, depositAmount: int)

  /** The lease schema: a unit id, and rent and deposit of at least 0. The two dates are not compared. */
  predicate LeaseInputValid(d: LeaseInput) {
    |d.unitId| >= 1 && d.rentAmount >= 0 && d.depositAmount >= 0
  }

  /** An end date before the start date passes the schema. */
  lemma EndBeforeStartAccepted()
    ensures LeaseInputValid(LeaseInput("u1", Date(2025, 5, 1), Date(2024, 5, 1), 1000, 1000))
  {
  }

  /** The row the transaction inserts. */
  function NewLease(id: string, tenantId: string, d: LeaseInput): Lease {
    Lease(id, tenantId, d.unitId, d.startDate, d.endDate, d.rentAmount, d.depositAmount, true)
  }

  /** The database accepts the lease row: fresh id, and the tenant and unit it names exist. */
  predicate CanInsertLease(t: Tables, l: Lease) {
    KeyFree(t.leases, LeaseId, l.id) && FindTenant(t, l.tenantId).Some? && FindUnit(t, l.unitId).Some?
  }

  /** `unit.update({ where: { id }, data: { status } })` on the unit table. */
  function WithUnitStatus(units: seq<Unit>, id: string, status: UnitStatus): (r: seq<Unit>)
    ensures |r| == |units|
    ensures forall i :: 0 <= i < |units| ==>
      r[i].id == units[i].id && r[i].propertyId == units[i].propertyId && r[i].unitNumber == units[i].unitNumber
    ensures forall i :: 0 <= i < |units| ==> r[i] == if units[i].id == id then units[i].(status := status) else units[i]
  {
    seq(|units|, i requires 0 <= i < |units| => if units[i].id == id then units[i].(status := status) else units[i])
  }

  lemma WithUnitStatusConsistent(t: Tables, id: string, status: UnitStatus)
    requires Consistent(t)
    ensures Consistent(t.(units := WithUnitStatus(t.units, id, status)))
  {
    var u := WithUnitStatus(t.units, id, status);
    assert forall i :: 0 <= i < |u| ==> UnitId(u[i]) == UnitId(t.units[i]) && UnitNumberKey(u[i]) == UnitNumberKey(t.units[i]);
  }

  // ---------------------------------------------------------------------------
  // Occupancy
  // ---------------------------------------------------------------------------

  function ActiveOn(unitId: string): Lease -> bool {
    (l: Lease) => l.isActive && l.unitId == unitId
  }

  /** The active leases on a unit. */
  function ActiveLeases(t: Tables, unitId: string): seq<Lease> {
    Filter(t.leases, ActiveOn(unitId))
  }

  predicate HasUnit(t: Tables, id: string) {
    exists k :: 0 <= k < |t.units| && t.units[k].id == id
  }

  /**
   * What lease creation keeps true of the store: every lease names an existing
   * unit, a unit with an active lease is not VACANT, and no unit has two active
   * leases. No other action changes a lease or a unit's status.
   */
  predicate Occupancy(t: Tables) {
    (forall i :: 0 <= i < |t.leases| ==> HasUnit(t, t.leases[i].unitId)) &&
    (forall i, k :: 0 <= i < |t.leases| && 0 <= k < |t.units| && t.leases[i].isActive && t.units[k].id == t.leases[i].unitId ==>
      t.units[k].status != Vacant) &&
    (forall i, j :: 0 <= i < j < |t.leases| && t.leases[i].isActive && t.leases[j].isActive ==>
      t.leases[i].unitId != t.leases[j].unitId)
  }

  /** A vacant unit has no active lease. */
  lemma VacantHasNoActiveLease(t: Tables, k: nat)
    requires Occupancy(t) && k < |t.units| && t.units[k].status == Vacant
    ensures ActiveLeases(t, t.units[k].id) == []
  {
    FilterNone(t.leases, ActiveOn(t.units[k].id));
  }

  // ---------------------------------------------------------------------------
  // createLease
  // ---------------------------------------------------------------------------

  /** The unit exists and its property belongs to `org`. */
  predicate UnitInOrg(t: Tables, unitId: string, org: string) {
    FindUnit(t, unitId).Some? && PropertyOrg(t, FindUnit(t, unitId).value.propertyId) == Some(org)
  }

  /** The unit is missing, or its property belongs to another organization. */
  predicate UnitDenied(t: Tables, unitId: string, org: string) {
    FindUnit(t, unitId).None? ||
    (PropertyOrg(t, FindUnit(t, unitId).value.propertyId).Some? &&
     PropertyOrg(t, FindUnit(t, unitId).value.propertyId) != Some(org))
  }

  /**
   * The reply of `createLease`: the session check throws, every other check
   * returns an error object, in the order session, schema, ownership, vacancy,
   * insert.
   */
  function CreateLeaseReply(t: Tables, session: Option<Session>, tenantId: string, data: LeaseInput, newId: string)
    : (r: Reply<()>)
    ensures r == Thrown("Unauthorized") <==> OrgOf(session).None?
    ensures r == Err("Invalid fields") <==> OrgOf(session).Some? && !LeaseInputValid(data)
    ensures r == Err("Unit not found or access denied") <==>
      OrgOf(session).Some? && LeaseInputValid(data) && UnitDenied(t, data.unitId, OrgOf(session).value)
    ensures r == Err("Unit is not vacant") <==>
      OrgOf(session).Some? && LeaseInputValid(data) && UnitInOrg(t, data.unitId, OrgOf(session).value) &&
      FindUnit(t, data.unitId).value.status != Vacant
    ensures r == Ok(()) <==>
      OrgOf(session).Some? && LeaseInputValid(data) && UnitInOrg(t, data.unitId, OrgOf(session).value) &&
      FindUnit(t, data.unitId).value.status == Vacant && CanInsertLease(t, NewLease(newId, tenantId, data))
  {
    var org := OrgOf(session);
    if org.None? then Thrown("Unauthorized")
    else if !LeaseInputValid(data) then Err("Invalid fields")
    else if FindUnit(t, data.unitId).None? then Err("Unit not found or access denied")
    // `unit.property.organizationId` on a unit without its property throws inside the try
    else if PropertyOrg(t, FindUnit(t, data.unitId).value.propertyId).None? then Err("Failed to create lease")
    else if PropertyOrg(t, FindUnit(t, data.unitId).value.propertyId) != org then Err("Unit not found or access denied")
    else if FindUnit(t, data.unitId).value.status != Vacant then Err("Unit is not vacant")
    else if !CanInsertLease(t, NewLease(newId, tenantId, data)) then Err("Failed to create lease")
    else Ok(())
  }

  method CreateLease(db: Db, session: Option<Session>, tenantId: string, data: LeaseInput, newId: string)
    returns (r: Reply<()>)
    requires db.Valid()
    modifies db
    ensures db.Valid()
    ensures r == CreateLeaseReply(old(db.t), session, tenantId, data, newId)
    // both writes or neither
    ensures r.Ok? ==> db.t == old(db.t).(
      leases := old(db.t).leases + [NewLease(newId, tenantId, data)],
      units := WithUnitStatus(old(db.t).units, data.unitId, Occupied))
    ensures !r.Ok? ==> db.t == old(db.t)
    ensures r.Ok? ==> FindUnit(db.t, data.unitId).Some? && FindUnit(db.t, data.unitId).value.status == Occupied
    // occupancy
    ensures Occupancy(old(db.t)) ==> Occupancy(db.t)
    ensures r.Ok? && Occupancy(old(db.t)) ==> ActiveLeases(db.t, data.unitId) == [NewLease(newId, tenantId, data)]
  {
    var org := OrgOf(session);
    if org.None? {
      return Thrown("Unauthorized");
    }
    if !LeaseInputValid(data) {
      return Err("Invalid fields");
    }
    var unit := FindUnit(db.t, data.unitId);
    if unit.None? {
      return Err("Unit not found or access denied");
    }
    var propertyOrg := PropertyOrg(db.t, unit.value.propertyId);
    if propertyOrg.None? {
      return Err("Failed to create lease");
    }
    if propertyOrg != org {
      return Err("Unit not found or access denied");
    }
    if unit.value.status != Vacant {
      return Err("Unit is not vacant");
    }
    var lease := NewLease(newId, tenantId, data);
    if !CanInsertLease(db.t, lease) {
      return Err("Failed to create lease");
    }
    CreateLeaseWrites(db.t, lease);
    db.t := db.t.(leases := db.t.leases + [lease], units := WithUnitStatus(db.t.units, data.unitId, Occupied));
    return Ok(());
  }

  /** What the transaction of a successful `createLease` leaves true. */
  lemma CreateLeaseWrites(t: Tables, lease: Lease)
    requires Consistent(t) && lease.isActive && CanInsertLease(t, lease)
    requires FindUnit(t, lease.unitId).value.status == Vacant
    ensures var t' := t.(leases := t.leases + [lease], units := WithUnitStatus(t.units, lease.unitId, Occupied));
      Consistent(t') &&
      FindUnit(t', lease.unitId).Some? && FindUnit(t', lease.unitId).value.status == Occupied &&
      (Occupancy(t) ==> Occupancy(t') && ActiveLeases(t', lease.unitId) == [lease])
  {
    var k := UnitIndex(t, lease.unitId).value;
    WithUnitStatusConsistent(t, lease.unitId, Occupied);
    AppendUnique(t.leases, LeaseId, lease);
    var t' := t.(leases := t.leases + [lease], units := WithUnitStatus(t.units, lease.unitId, Occupied));
    assert t'.units[k].id == lease.unitId && t'.units[k].status == Occupied;
    if Occupancy(t) {
      CreateLeaseKeepsOccupancy(t, k, lease);
    }
  }

  lemma CreateLeaseKeepsOccupancy(t: Tables, k: nat, lease: Lease)
    requires Occupancy(t) && k < |t.units| && t.units[k].status == Vacant
    requires lease.isActive && lease.unitId == t.units[k].id
    ensures Occupancy(t.(leases := t.leases + [lease], units := WithUnitStatus(t.units, lease.unitId, Occupied)))
    ensures Filter(t.leases + [lease], ActiveOn(lease.unitId)) == [lease]
  {
    var u := lease.unitId;
    var t' := t.(leases := t.leases + [lease], units := WithUnitStatus(t.units, u, Occupied));
    forall i | 0 <= i < |t.leases| && t.leases[i].isActive
      ensures t.leases[i].unitId != u
    {
    }
    forall i | 0 <= i < |t'.leases|
      ensures HasUnit(t', t'.leases[i].unitId)
    {
      if i == |t.leases| {
        assert t'.units[k].id == u;
      } else {
        assert HasUnit(t, t.leases[i].unitId);
        var k' :| 0 <= k' < |t.units| && t.units[k'].id == t.leases[i].unitId;
        assert t'.units[k'].id == t'.leases[i].unitId;
      }
    }
    FilterAppend(t.leases, lease, ActiveOn(u));
    VacantHasNoActiveLease(t, k);
  }
}
