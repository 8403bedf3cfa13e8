/**
 * Unit creation (`createUnit`): the unit schema (status defaults to VACANT),
 * a property owned by the caller's organization, then one insert.
 */
module Units {
  import opened Common
  import opened Seqs
  import opened Store
  import Leases

  /** The form data; an omitted status is `None`. */
  datatype UnitInput = UnitInput(
    unitNumber: string, bedrooms: int, bathrooms: int, sqFt: Option<int>, marketRent: int,
    status: Option<UnitStatus>)

  /** The unit schema: a unit number, and non-negative bedrooms, bathrooms and market rent. */
  predicate UnitInputValid(d: UnitInput) {
    |d.unitNumber| >= 1 && d.bedrooms >= 0 && d.bathrooms >= 0 && d.marketRent >= 0
  }

  /** The status the schema's default gives. */
  function StatusOrDefault(s: Option<UnitStatus>): (r: UnitStatus)
    ensures s.None? ==> r == Vacant
    ensures s.Some? ==> r == s.value
  {
    if s.Some? then s.value else Vacant
  }

  /** The row inserted: the validated fields with the status default, under `propertyId`. */
  function NewUnit(id: string, propertyId: string, d: UnitInput): (u: Unit)
    ensures u.propertyId == propertyId && u.unitNumber == d.unitNumber && u.marketRent == d.marketRent
    ensures d.status.None? ==> u.status == Vacant
  {
    Unit(id, propertyId, d.unitNumber, d.bedrooms, d.bathrooms, d.sqFt, d.marketRent, StatusOrDefault(d.status))
  }

  /** The database accepts the unit: fresh id, unit number unused in the property, property exists. */
  predicate CanInsertUnit(t: Tables, u: Unit) {
    KeyFree(t.units, UnitId, u.id) && KeyFree(t.units, UnitNumberKey, UnitNumberKey(u)) &&
    FindProperty(t, u.propertyId).Some?
  }

  function CreateUnitReply(t: Tables, session: Option<Session>, propertyId: string, data: UnitInput, newId: string)
    : (r: Reply<()>)
    ensures r == Thrown("Unauthorized") <==> OrgOf(session).None?
    ensures r == Err("Invalid fields") <==> OrgOf(session).Some? && !UnitInputValid(data)
    ensures r == Err("Property not found") <==>
      OrgOf(session).Some? && UnitInputValid(data) && !OwnedProperty(t, OrgOf(session).value, propertyId)
    ensures r == Ok(()) <==>
      OrgOf(session).Some? && UnitInputValid(data) && OwnedProperty(t, OrgOf(session).value, propertyId) &&
      CanInsertUnit(t, NewUnit(newId, propertyId, data))
  {
    var org := OrgOf(session);
    if org.None? then Thrown("Unauthorized")
    else if !UnitInputValid(data) then Err("Invalid fields")
    else if !OwnedProperty(t, org.value, propertyId) then Err("Property not found")
    else if !CanInsertUnit(t, NewUnit(newId, propertyId, data)) then Err("Failed to create unit")
    else Ok(())
  }

  method CreateUnit(db: Db, session: Option<Session>, propertyId: string, data: UnitInput, newId: string)
    returns (r: Reply<()>)
    requires db.Valid()
    modifies db
    ensures db.Valid()
    ensures r == CreateUnitReply(old(db.t), session, propertyId, data, newId)
    ensures r.Ok? ==> db.t == old(db.t).(units := old(db.t).units + [NewUnit(newId, propertyId, data)])
    ensures !r.Ok? ==> db.t == old(db.t)
    ensures Leases.Occupancy(old(db.t)) ==> Leases.Occupancy(db.t)
  {
    var org := OrgOf(session);
    if org.None? {
      return Thrown("Unauthorized");
    }
    if !UnitInputValid(data) {
      return Err("Invalid fields");
    }
    if !OwnedProperty(db.t, org.value, propertyId) {
      return Err("Property not found");
    }
    var unit := NewUnit(newId, propertyId, data);
    if !CanInsertUnit(db.t, unit) {
      return Err("Failed to create unit");
    }
    AppendUnique(db.t.units, UnitId, unit);
    AppendUnique(db.t.units, UnitNumberKey, unit);
    NewUnitKeepsOccupancy(db.t, unit);
    db.t := db.t.(units := db.t.units + [unit]);
    return Ok(());
  }

  /** No lease names a unit id that is not in the table, so a unit with a fresh id carries no lease. */
  lemma NewUnitKeepsOccupancy(t: Tables, u: Unit)
    requires KeyFree(t.units, UnitId, u.id)
    ensures Leases.Occupancy(t) ==> Leases.Occupancy(t.(units := t.units + [u]))
  {
    var t' := t.(units := t.units + [u]);
    if Leases.Occupancy(t) {
      forall i | 0 <= i < |t'.leases|
        ensures Leases.HasUnit(t', t'.leases[i].unitId)
      {
        assert Leases.HasUnit(t, t.leases[i].unitId);
        var k :| 0 <= k < |t.units| && t.units[k].id == t.leases[i].unitId;
        assert t'.units[k].id == t'.leases[i].unitId;
      }
      forall i, k | 0 <= i < |t'.leases| && 0 <= k < |t'.units| && t'.leases[i].isActive && t'.units[k].id == t'.leases[i].unitId
        ensures t'.units[k].status != Vacant
      {
        assert Leases.HasUnit(t, t.leases[i].unitId);
      }
    }
  }
}
