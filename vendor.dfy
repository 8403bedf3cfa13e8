/**
 * The organization's vendor directory. Every operation needs an organization
 * in the session and reads or writes only that organization's vendors.
 */
module Vendors {
  import opened Common
  import opened Seqs
  import opened Store

  datatype VendorInput = VendorInput(name: string, serviceType: string, email: Option<string>, phone: Option<string>)

  /** `VendorSchema`: name and service type non-empty; the email, when given and not empty, well formed. */
  predicate VendorInputValid(d: VendorInput) {
    |d.name| >= 1 && |d.serviceType| >= 1 && (Truthy(d.email) ==> IsEmail(d.email.value))
  }

  function NewVendor(id: string, org: string, d: VendorInput, now: int): (v: Vendor)
    ensures v.organizationId == org && v.name == d.name && v.serviceType == d.serviceType
    ensures v.email == NullIfEmpty(d.email) && v.phone == NullIfEmpty(d.phone)
  {
    Vendor(id, org, d.name, d.serviceType, NullIfEmpty(d.email), NullIfEmpty(d.phone), now)
  }

  /** The fields `updateVendor` writes; the id, the organization and `createdAt` stay. */
  function Edited(v: Vendor, d: VendorInput): (w: Vendor)
    ensures w.id == v.id && w.organizationId == v.organizationId && w.createdAt == v.createdAt
    ensures w.name == d.name && w.serviceType == d.serviceType
    ensures w.email == NullIfEmpty(d.email) && w.phone == NullIfEmpty(d.phone)
  {
    v.(name := d.name, serviceType := d.serviceType, email := NullIfEmpty(d.email), phone := NullIfEmpty(d.phone))
  }

  predicate CanInsertVendor(t: Tables, v: Vendor) {
    KeyFree(t.vendors, VendorId, v.id) && FindOrganization(t, v.organizationId).Some?
  }

  function VendorOfOrg(org: string): Vendor -> bool {
    (v: Vendor) => v.organizationId == org
  }

  function VendorCreatedAt(v: Vendor): int { v.createdAt }

  /** `getVendors`: the organization's vendors, newest first. */
  function GetVendors(t: Tables, session: Option<Session>): (r: seq<Vendor>)
    ensures OrgOf(session).None? ==> r == []
    ensures OrgOf(session).Some? ==> multiset(r) == multiset(Filter(t.vendors, VendorOfOrg(OrgOf(session).value)))
    ensures forall i :: 0 <= i < |r| ==> r[i] in t.vendors && Some(r[i].organizationId) == OrgOf(session)
    ensures forall i, j :: 0 <= i < j < |r| ==> r[i].createdAt >= r[j].createdAt
  {
    match OrgOf(session)
    case None => []
    case Some(org) => SortedFilter(t.vendors, VendorOfOrg(org), VendorCreatedAt)
  }

  // ---------------------------------------------------------------------------
  // createVendor
  // ---------------------------------------------------------------------------

  function CreateVendorReply(t: Tables, session: Option<Session>, d: VendorInput, newId: string, now: int)
    : (r: Reply<string>)
    ensures r == Err("Unauthorized") <==> OrgOf(session).None?
    ensures r == Err("Invalid fields") <==> OrgOf(session).Some? && !VendorInputValid(d)
    ensures r.Ok? <==> OrgOf(session).Some? && VendorInputValid(d) && CanInsertVendor(t, NewVendor(newId, OrgOf(session).value, d, now))
    ensures r.Ok? ==> r.value == "Vendor created successfully"
    ensures r.Err? ==> r.error in {"Unauthorized", "Invalid fields", "Failed to create vendor"}
  {
    if OrgOf(session).None? then Err("Unauthorized")
    else if !VendorInputValid(d) then Err("Invalid fields")
    else if !CanInsertVendor(t, NewVendor(newId, OrgOf(session).value, d, now)) then Err("Failed to create vendor")
    else Ok("Vendor created successfully")
  }

  method CreateVendor(db: Db, session: Option<Session>, d: VendorInput, newId: string, now: int) returns (r: Reply<string>)
    requires db.Valid()
    modifies db
    ensures db.Valid()
    ensures r == CreateVendorReply(old(db.t), session, d, newId, now)
    ensures r.Ok? ==> db.t == old(db.t).(vendors := old(db.t).vendors + [NewVendor(newId, OrgOf(session).value, d, now)])
    ensures !r.Ok? ==> db.t == old(db.t)
  {
    var org := OrgOf(session);
    if org.None? {
      return Err("Unauthorized");
    }
    if !VendorInputValid(d) {
      return Err("Invalid fields");
    }
    var v := NewVendor(newId, org.value, d, now);
    if !CanInsertVendor(db.t, v) {
      return Err("Failed to create vendor");
    }
    AppendUnique(db.t.vendors, VendorId, v);
    db.t := db.t.(vendors := db.t.vendors + [v]);
    return Ok("Vendor created successfully");
  }

  /** A created vendor is listed for its organization. */
  lemma CreatedVendorListed(t: Tables, session: Option<Session>, d: VendorInput, newId: string, now: int)
    requires CreateVendorReply(t, session, d, newId, now).Ok?
    ensures var v := NewVendor(newId, OrgOf(session).value, d, now);
      v in GetVendors(t.(vendors := t.vendors + [v]), session)
  {
    var v := NewVendor(newId, OrgOf(session).value, d, now);
    assert (t.vendors + [v])[|t.vendors|] == v;
  }

  // ---------------------------------------------------------------------------
  // updateVendor and deleteVendor: `where: { id, organizationId }`
  // ---------------------------------------------------------------------------

  /** Position of the vendor with this id, if it belongs to the organization. */
  function OwnedVendorIndex(t: Tables, org: string, id: string): (r: Option<nat>)
    ensures r.Some? ==> r.value < |t.vendors| && t.vendors[r.value].id == id && t.vendors[r.value].organizationId == org
    ensures r.None? <==> forall j :: 0 <= j < |t.vendors| ==> !(t.vendors[j].id == id && t.vendors[j].organizationId == org)
  {
    IndexWhere(t.vendors, (v: Vendor) => v.id == id && v.organizationId == org)
  }

  function UpdateVendorReply(t: Tables, session: Option<Session>, id: string, d: VendorInput): (r: Reply<string>)
    ensures r == Err("Unauthorized") <==> OrgOf(session).None?
    ensures r == Err("Invalid fields") <==> OrgOf(session).Some? && !VendorInputValid(d)
    ensures r.Ok? <==> OrgOf(session).Some? && VendorInputValid(d) && OwnedVendorIndex(t, OrgOf(session).value, id).Some?
    ensures r.Ok? ==> r.value == "Vendor updated successfully"
    ensures r.Err? ==> r.error in {"Unauthorized", "Invalid fields", "Failed to update vendor"}
  {
    if OrgOf(session).None? then Err("Unauthorized")
    else if !VendorInputValid(d) then Err("Invalid fields")
    // no vendor with that id in the organization: the update throws and is caught
    else if OwnedVendorIndex(t, OrgOf(session).value, id).None? then Err("Failed to update vendor")
    else Ok("Vendor updated successfully")
  }

  method UpdateVendor(db: Db, session: Option<Session>, id: string, d: VendorInput) returns (r: Reply<string>)
    requires db.Valid()
    modifies db
    ensures db.Valid()
    ensures r == UpdateVendorReply(old(db.t), session, id, d)
    ensures r.Ok? ==>
      var k := OwnedVendorIndex(old(db.t), OrgOf(session).value, id).value;
      db.t == old(db.t).(vendors := old(db.t).vendors[k := Edited(old(db.t).vendors[k], d)])
    ensures !r.Ok? ==> db.t == old(db.t)
  {
    var org := OrgOf(session);
    if org.None? {
      return Err("Unauthorized");
    }
    if !VendorInputValid(d) {
      return Err("Invalid fields");
    }
    var k := OwnedVendorIndex(db.t, org.value, id);
    if k.None? {
      return Err("Failed to update vendor");
    }
    var w := Edited(db.t.vendors[k.value], d);
    ReplaceUnique(db.t.vendors, VendorId, k.value, w);
    db.t := db.t.(vendors := db.t.vendors[k.value := w]);
    return Ok("Vendor updated successfully");
  }

  /** An update never touches another organization's vendors, and keeps the list of the caller's vendors' ids. */
  lemma UpdateStaysInOrg(t: Tables, session: Option<Session>, id: string, d: VendorInput)
    requires UpdateVendorReply(t, session, id, d).Ok?
    ensures var k := OwnedVendorIndex(t, OrgOf(session).value, id).value;
      var vs := t.vendors[k := Edited(t.vendors[k], d)];
      |vs| == |t.vendors| &&
      (forall j :: 0 <= j < |vs| ==> vs[j].id == t.vendors[j].id && vs[j].organizationId == t.vendors[j].organizationId) &&
      (forall j :: 0 <= j < |vs| && t.vendors[j].organizationId != OrgOf(session).value ==> vs[j] == t.vendors[j])
  {
  }

  function NotVendor(id: string): Vendor -> bool {
    (v: Vendor) => v.id != id
  }

  function DeleteVendorReply(t: Tables, session: Option<Session>, id: string): (r: Reply<string>)
    ensures r == Err("Unauthorized") <==> OrgOf(session).None?
    ensures r.Ok? <==> OrgOf(session).Some? && OwnedVendorIndex(t, OrgOf(session).value, id).Some?
    ensures r.Ok? ==> r.value == "Vendor deleted successfully"
    ensures r.Err? ==> r.error in {"Unauthorized", "Failed to delete vendor"}
  {
    if OrgOf(session).None? then Err("Unauthorized")
    else if OwnedVendorIndex(t, OrgOf(session).value, id).None? then Err("Failed to delete vendor")
    else Ok("Vendor deleted successfully")
  }

  method DeleteVendor(db: Db, session: Option<Session>, id: string) returns (r: Reply<string>)
    requires db.Valid()
    modifies db
    ensures db.Valid()
    ensures r == DeleteVendorReply(old(db.t), session, id)
    ensures r.Ok? ==> db.t == old(db.t).(vendors := Filter(old(db.t).vendors, NotVendor(id)))
    ensures !r.Ok? ==> db.t == old(db.t)
  {
    var org := OrgOf(session);
    if org.None? {
      return Err("Unauthorized");
    }
    var k := OwnedVendorIndex(db.t, org.value, id);
    if k.None? {
      return Err("Failed to delete vendor");
    }
    FilterUnique(db.t.vendors, VendorId, NotVendor(id));
    db.t := db.t.(vendors := Filter(db.t.vendors, NotVendor(id)));
    return Ok("Vendor deleted successfully");
  }

  /** Under unique ids, a successful delete removes only a vendor of the caller's organization. */
  lemma DeleteStaysInOrg(t: Tables, session: Option<Session>, id: string, j: nat)
    requires Consistent(t) && DeleteVendorReply(t, session, id).Ok?
    requires j < |t.vendors| && t.vendors[j].organizationId != OrgOf(session).value
    ensures t.vendors[j] in Filter(t.vendors, NotVendor(id))
  {
    var k := OwnedVendorIndex(t, OrgOf(session).value, id).value;
    assert VendorId(t.vendors[j]) != VendorId(t.vendors[k]);
  }
}
