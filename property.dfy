/**
 * Property actions: `createProperty` stamps the caller's organization,
 * `getProperties` and `getPropertyById` read only that organization's rows,
 * and `deleteProperty` deletes only a property the organization owns.
 */
module Properties {
  import opened Common
  import opened Seqs
  import opened Store
  import Leases

  datatype PropertyInput = PropertyInput(
    name: string, address: string, city: string, state: Option<string>, country: string,
    zipCode: Option<string>, kind: PropertyType, description: Option<string>)

  /** The property schema's length rules. */
  predicate PropertyInputValid(d: PropertyInput) {
    |d.name| >= 2 && |d.address| >= 5 && |d.city| >= 2 && |d.country| >= 2
  }

  function NewProperty(id: string, org: string, d: PropertyInput, now: int): Property {
    Property(id, org, d.name, d.address, d.city, d.state, d.country, d.zipCode, d.kind, d.description, now)
  }

  /** The database accepts the property: fresh id and an existing organization. */
  predicate CanInsertProperty(t: Tables, p: Property) {
    KeyFree(t.properties, PropertyId, p.id) && FindOrganization(t, p.organizationId).Some?
  }

  function CreatePropertyReply(t: Tables, session: Option<Session>, data: PropertyInput, newId: string, now: int)
    : (r: Reply<string>)
    ensures r == Thrown("Unauthorized") <==> OrgOf(session).None?
    ensures r == Err("Invalid fields") <==> OrgOf(session).Some? && !PropertyInputValid(data)
    ensures r.Ok? <==> (OrgOf(session).Some? && PropertyInputValid(data) &&
                        CanInsertProperty(t, NewProperty(newId, OrgOf(session).value, data, now)))
    ensures r.Ok? ==> r.value == newId
  {
    var org := OrgOf(session);
    if org.None? then Thrown("Unauthorized")
    else if !PropertyInputValid(data) then Err("Invalid fields")
    else if !CanInsertProperty(t, NewProperty(newId, org.value, data, now)) then Err("Failed to create property")
    else Ok(newId)
  }

  /** `createProperty`; the created row always carries the session's organization. */
  method CreateProperty(db: Db, session: Option<Session>, data: PropertyInput, newId: string, now: int)
    returns (r: Reply<string>)
    requires db.Valid()
    modifies db
    ensures db.Valid()
    ensures r == CreatePropertyReply(old(db.t), session, data, newId, now)
    ensures r.Ok? ==> db.t == old(db.t).(properties := old(db.t).properties + [NewProperty(newId, OrgOf(session).value, data, now)])
    ensures r.Ok? ==> FindProperty(db.t, newId) == Some(NewProperty(newId, OrgOf(session).value, data, now))
    ensures !r.Ok? ==> db.t == old(db.t)
  {
    var org := OrgOf(session);
    if org.None? {
      return Thrown("Unauthorized");
    }
    if !PropertyInputValid(data) {
      return Err("Invalid fields");
    }
    var p := NewProperty(newId, org.value, data, now);
    if !CanInsertProperty(db.t, p) {
      return Err("Failed to create property");
    }
    AppendUnique(db.t.properties, PropertyId, p);
    db.t := db.t.(properties := db.t.properties + [p]);
    assert db.t.properties[|db.t.properties| - 1] == p;
    return Ok(newId);
  }

  // ---------------------------------------------------------------------------
  // Reads
  // ---------------------------------------------------------------------------

  function OnProperty(propertyId: string): Unit -> bool {
    (u: Unit) => u.propertyId == propertyId
  }

  function InOrg(org: string): Property -> bool {
    (p: Property) => p.organizationId == org
  }

  function PropertyCreatedAt(p: Property): int { p.createdAt }

  /** The units of a property (`include: { units: true }`). */
  function UnitsOf(t: Tables, propertyId: string): seq<Unit> {
    Filter(t.units, OnProperty(propertyId))
  }

  datatype PropertyView = PropertyView(property: Property, units: seq<Unit>)

  function WithUnits(t: Tables, ps: seq<Property>): (r: seq<PropertyView>)
    ensures |r| == |ps| && forall i :: 0 <= i < |ps| ==> r[i] == PropertyView(ps[i], UnitsOf(t, ps[i].id))
  {
    MapSeq(ps, (p: Property) => PropertyView(p, UnitsOf(t, p.id)))
  }

  /** The organization's properties, newest first. */
  function OwnedProperties(t: Tables, org: string): (r: seq<Property>)
    ensures forall i :: 0 <= i < |r| ==> r[i] in t.properties && r[i].organizationId == org
    ensures forall j :: 0 <= j < |t.properties| && t.properties[j].organizationId == org ==> t.properties[j] in r
    ensures forall i, j :: 0 <= i < j < |r| ==> r[i].createdAt >= r[j].createdAt
  {
    SortedFilter(t.properties, InOrg(org), PropertyCreatedAt)
  }

  /** `getProperties`: the organization's properties, newest first, each with its units. */
  function GetProperties(t: Tables, session: Option<Session>): (r: seq<PropertyView>)
    ensures OrgOf(session).None? ==> r == []
    ensures OrgOf(session).Some? ==> |r| == |OwnedProperties(t, OrgOf(session).value)|
  {
    match OrgOf(session)
    case None => []
    case Some(org) => WithUnits(t, OwnedProperties(t, org))
  }

  /** Every listed property belongs to the session's organization and is shown with its units. */
  lemma GetPropertiesScoped(t: Tables, session: Option<Session>)
    ensures var r := GetProperties(t, session);
      forall i :: 0 <= i < |r| ==>
        r[i].property in t.properties && Some(r[i].property.organizationId) == OrgOf(session) &&
        r[i].units == UnitsOf(t, r[i].property.id)
  {
    if OrgOf(session).Some? {
      var org := OrgOf(session).value;
      var ps := OwnedProperties(t, org);
      var r := WithUnits(t, ps);
      assert GetProperties(t, session) == r;
      forall i | 0 <= i < |r|
        ensures r[i].property in t.properties && r[i].property.organizationId == org &&
                r[i].units == UnitsOf(t, r[i].property.id)
      {
        assert r[i] == PropertyView(ps[i], UnitsOf(t, ps[i].id));
      }
    }
  }

  /** Every property of the organization is listed. */
  lemma GetPropertiesComplete(t: Tables, session: Option<Session>, j: nat)
    requires OrgOf(session).Some? && j < |t.properties| && t.properties[j].organizationId == OrgOf(session).value
    ensures exists i :: 0 <= i < |GetProperties(t, session)| && GetProperties(t, session)[i].property == t.properties[j]
  {
    var r := GetProperties(t, session);
    var ps := OwnedProperties(t, OrgOf(session).value);
    var i :| 0 <= i < |ps| && ps[i] == t.properties[j];
    assert r[i].property == t.properties[j];
  }

  /** The list is ordered newest first. */
  lemma GetPropertiesSorted(t: Tables, session: Option<Session>)
    ensures var r := GetProperties(t, session);
      forall i, j :: 0 <= i < j < |r| ==> r[i].property.createdAt >= r[j].property.createdAt
  {
    if OrgOf(session).Some? {
      var r := GetProperties(t, session);
      var ps := OwnedProperties(t, OrgOf(session).value);
      assert forall i :: 0 <= i < |r| ==> r[i].property == ps[i];
    }
  }

  datatype UnitDetail = UnitDetail(unit: Unit, activeLeases: seq<Lease>)
  datatype PropertyDetail = PropertyDetail(property: Property, units: seq<UnitDetail>)

  function UnitDetails(t: Tables, us: seq<Unit>): (r: seq<UnitDetail>)
    ensures |r| == |us| && forall i :: 0 <= i < |us| ==>
      r[i].unit == us[i] && r[i].activeLeases == Filter(t.leases, Leases.ActiveOn(us[i].id))
  {
    MapSeq(us, (u: Unit) => UnitDetail(u, Filter(t.leases, Leases.ActiveOn(u.id))))
  }

  /** `getPropertyById`: found only when the property belongs to the session's organization. */
  function GetPropertyById(t: Tables, session: Option<Session>, id: string): (r: Option<PropertyDetail>)
    ensures r.Some? <==> OrgOf(session).Some? && OwnedProperty(t, OrgOf(session).value, id)
    ensures r.Some? ==> (r.value.property.id == id && r.value.property in t.properties &&
                         Some(r.value.property.organizationId) == OrgOf(session))
    ensures r.Some? ==> |r.value.units| == |UnitsOf(t, id)| && forall i :: 0 <= i < |r.value.units| ==>
      r.value.units[i].unit == UnitsOf(t, id)[i] && r.value.units[i].unit.propertyId == id &&
      r.value.units[i].activeLeases == Filter(t.leases, Leases.ActiveOn(r.value.units[i].unit.id)) &&
      forall k :: 0 <= k < |r.value.units[i].activeLeases| ==>
        r.value.units[i].activeLeases[k].isActive && r.value.units[i].activeLeases[k].unitId == r.value.units[i].unit.id
  {
    match OrgOf(session)
    case None => None
    case Some(org) =>
      match FindProperty(t, id)
      case None => None
      case Some(p) =>
        if p.organizationId != org then None
        else Some(PropertyDetail(p, UnitDetails(t, UnitsOf(t, id))))
  }

  /** Every unit of the property is listed, each with every one of its active leases. */
  lemma GetPropertyByIdComplete(t: Tables, session: Option<Session>, id: string, j: nat)
    requires GetPropertyById(t, session, id).Some? && j < |t.units| && t.units[j].propertyId == id
    ensures var units := GetPropertyById(t, session, id).value.units;
      exists i :: 0 <= i < |units| && units[i].unit == t.units[j] &&
        forall k :: 0 <= k < |t.leases| && t.leases[k].isActive && t.leases[k].unitId == t.units[j].id ==>
          t.leases[k] in units[i].activeLeases
  {
    var units := GetPropertyById(t, session, id).value.units;
    var us := UnitsOf(t, id);
    assert OnProperty(id)(t.units[j]);
    var i :| 0 <= i < |us| && us[i] == t.units[j];
    assert units[i].unit == t.units[j];
    forall k | 0 <= k < |t.leases| && t.leases[k].isActive && t.leases[k].unitId == t.units[j].id
      ensures t.leases[k] in units[i].activeLeases
    {
      assert Leases.ActiveOn(t.units[j].id)(t.leases[k]);
    }
  }

  // ---------------------------------------------------------------------------
  // deleteProperty
  // ---------------------------------------------------------------------------

  /**
   * Rows whose required relation to the property forbids deleting it (the
   * referential action assumed is the ORM's default for a required relation).
   */
  predicate PropertyReferenced(t: Tables, id: string) {
    (exists i :: 0 <= i < |t.units| && t.units[i].propertyId == id) ||
    (exists i :: 0 <= i < |t.expenses| && t.expenses[i].propertyId == id) ||
    (exists i :: 0 <= i < |t.requests| && t.requests[i].propertyId == id)
  }

  function NotProperty(id: string): Property -> bool {
    (p: Property) => p.id != id
  }

  /** Documents lose their optional link to a deleted property. */
  function DetachDocuments(docs: seq<Document>, propertyId: string): (r: seq<Document>)
    ensures |r| == |docs|
    ensures forall i :: 0 <= i < |docs| ==> r[i].id == docs[i].id
    ensures forall i :: 0 <= i < |docs| ==>
      r[i] == if docs[i].propertyId == Some(propertyId) then docs[i].(propertyId := None) else docs[i]
  {
    seq(|docs|, i requires 0 <= i < |docs| =>
      if docs[i].propertyId == Some(propertyId) then docs[i].(propertyId := None) else docs[i])
  }

  function DeletePropertyReply(t: Tables, session: Option<Session>, id: string): (r: Reply<()>)
    ensures r == Thrown("Unauthorized") <==> OrgOf(session).None?
    ensures r == Ok(()) <==> OrgOf(session).Some? && OwnedProperty(t, OrgOf(session).value, id) && !PropertyReferenced(t, id)
    ensures r.Err? ==> r.error == "Failed to delete property"
  {
    var org := OrgOf(session);
    if org.None? then Thrown("Unauthorized")
    // the ownership lookup's "Property not found" is thrown and caught by the action's own catch
    else if !OwnedProperty(t, org.value, id) then Err("Failed to delete property")
    else if PropertyReferenced(t, id) then Err("Failed to delete property")
    else Ok(())
  }

  method DeleteProperty(db: Db, session: Option<Session>, id: string) returns (r: Reply<()>)
    requires db.Valid()
    modifies db
    ensures db.Valid()
    ensures r == DeletePropertyReply(old(db.t), session, id)
    ensures r.Ok? ==> db.t == old(db.t).(
      properties := Filter(old(db.t).properties, NotProperty(id)),
      documents := DetachDocuments(old(db.t).documents, id))
    ensures r.Ok? ==> FindProperty(db.t, id).None?
    ensures !r.Ok? ==> db.t == old(db.t)
  {
    var org := OrgOf(session);
    if org.None? {
      return Thrown("Unauthorized");
    }
    if !OwnedProperty(db.t, org.value, id) {
      return Err("Failed to delete property");
    }
    if PropertyReferenced(db.t, id) {
      return Err("Failed to delete property");
    }
    FilterUnique(db.t.properties, PropertyId, NotProperty(id));
    var docs := DetachDocuments(db.t.documents, id);
    assert forall i :: 0 <= i < |docs| ==> DocumentId(docs[i]) == DocumentId(db.t.documents[i]);
    db.t := db.t.(properties := Filter(db.t.properties, NotProperty(id)), documents := docs);
    return Ok(());
  }

  /** Two organizations' property lists never share a property. */
  lemma PropertiesDisjoint(t: Tables, s1: Option<Session>, s2: Option<Session>)
    requires OrgOf(s1) != OrgOf(s2)
    ensures forall i, j :: 0 <= i < |GetProperties(t, s1)| && 0 <= j < |GetProperties(t, s2)| ==>
      GetProperties(t, s1)[i].property != GetProperties(t, s2)[j].property
  {
    GetPropertiesScoped(t, s1);
    GetPropertiesScoped(t, s2);
  }
}
