/**
 * Document records. The file itself goes to an external store whose outcome
 * is a parameter here; the actions keep only its link, name and size. Reads
 * are scoped through the document's property, except where noted.
 */
module Documents {
  import opened Common
  import opened Seqs
  import opened Store
  import Tenants

  // ---------------------------------------------------------------------------
  // uploadDocument (the record part)
  // ---------------------------------------------------------------------------

  /** The form's fields: the file (its MIME type) when present, and the optional property and tenant ids. */
  datatype UploadForm = UploadForm(file: Option<string>, propertyId: Option<string>, tenantId: Option<string>)

  /** What the external file store answered: the stored file's link, name and size, or the message of its failure. */
  datatype StorageOutcome = Stored(url: string, name: string, size: int) | StorageFailed(message: string)

  /** `error.message || "Failed to upload document"`. */
  function UploadError(message: string): (r: string)
    ensures r != ""
    ensures message != "" ==> r == message
  {
    if message == "" then "Failed to upload document" else message
  }

  function NewDocument(id: string, f: UploadForm, url: string, name: string, size: int, now: int): (d: Document)
    requires f.file.Some?
    ensures d.propertyId == NullIfEmpty(f.propertyId) && d.tenantId == NullIfEmpty(f.tenantId)
    ensures d.url == url && d.mimeType == f.file.value
  {
    Document(id, name, url, f.file.value, size, NullIfEmpty(f.propertyId), NullIfEmpty(f.tenantId), now)
  }

  /** The database accepts the document: fresh id, and the property and tenant it names exist. */
  predicate CanInsertDocument(t: Tables, d: Document) {
    KeyFree(t.documents, DocumentId, d.id) &&
    (d.propertyId.Some? ==> FindProperty(t, d.propertyId.value).Some?) &&
    (d.tenantId.Some? ==> FindTenant(t, d.tenantId.value).Some?)
  }

  /**
   * `uploadDocument`'s reply. `stored` is the external store's outcome and
   * `refusal` the message the database's refusal of the insert carries.
   */
  function UploadReply(t: Tables, session: Option<Session>, f: UploadForm, stored: StorageOutcome,
                       refusal: string, newId: string, now: int): (r: Reply<()>)
    ensures session.None? ==> r == Err("Unauthorized")
    ensures session.Some? && f.file.None? ==> r == Err("No file provided")
    ensures r == Ok(()) <==>
      (session.Some? && f.file.Some? && stored.Stored? &&
       CanInsertDocument(t, NewDocument(newId, f, stored.url, stored.name, stored.size, now)))
    ensures session.Some? && f.file.Some? && stored.StorageFailed? ==> r == Err(UploadError(stored.message))
    ensures session.Some? && f.file.Some? && stored.Stored? && !r.Ok? ==> r == Err(UploadError(refusal))
    ensures !r.Thrown?
  {
    if session.None? then Err("Unauthorized")
    else if f.file.None? then Err("No file provided")
    else match stored
      case StorageFailed(message) => Err(UploadError(message))
      case Stored(url, name, size) =>
        if CanInsertDocument(t, NewDocument(newId, f, url, name, size, now)) then Ok(())
        else Err(UploadError(refusal))
  }

  method UploadDocument(db: Db, session: Option<Session>, f: UploadForm, stored: StorageOutcome,
                        refusal: string, newId: string, now: int)
    returns (r: Reply<()>)
    requires db.Valid()
    modifies db
    ensures db.Valid()
    ensures r == UploadReply(old(db.t), session, f, stored, refusal, newId, now)
    ensures r.Ok? ==> db.t == old(db.t).(documents := old(db.t).documents +
      [NewDocument(newId, f, stored.url, stored.name, stored.size, now)])
    ensures !r.Ok? ==> db.t == old(db.t)
  {
    if session.None? {
      return Err("Unauthorized");
    }
    if f.file.None? {
      return Err("No file provided");
    }
    if stored.StorageFailed? {
      return Err(UploadError(stored.message));
    }
    var d := NewDocument(newId, f, stored.url, stored.name, stored.size, now);
    if !CanInsertDocument(db.t, d) {
      return Err(UploadError(refusal));
    }
    AppendUnique(db.t.documents, DocumentId, d);
    db.t := db.t.(documents := db.t.documents + [d]);
    return Ok(());
  }

  // ---------------------------------------------------------------------------
  // Reads
  // ---------------------------------------------------------------------------

  /** The tables that decide which documents a caller sees: everything but the documents. */
  function Context(t: Tables): Tables {
    t.(documents := [])
  }

  function DocumentCreatedAt(d: Document): int { d.createdAt }

  /** The document hangs off a property of the organization. */
  predicate OnOrgProperty(t: Tables, org: string, d: Document) {
    d.propertyId.Some? && OwnedProperty(t, org, d.propertyId.value)
  }

  /**
   * `getDocuments`' `where`: each given id must match, and only when a
   * property id is given must the property be the caller's organization's
   * (an undefined organization id drops that condition).
   */
  function DocumentQuery(c: Tables, propertyId: Option<string>, tenantId: Option<string>,
                         org: Option<string>): Document -> bool {
    (d: Document) =>
      (Truthy(propertyId) ==> d.propertyId == propertyId && (org.None? || OnOrgProperty(c, org.value, d))) &&
      (Truthy(tenantId) ==> d.tenantId == tenantId)
  }

  /** `getDocuments(propertyId?, tenantId?)`, newest first. */
  function GetDocuments(t: Tables, session: Option<Session>, propertyId: Option<string>, tenantId: Option<string>)
    : (r: seq<Document>)
    ensures session.None? ==> r == []
    ensures session.Some? ==> multiset(r) == multiset(Filter(t.documents,
      DocumentQuery(Context(t), propertyId, tenantId, session.value.organizationId)))
    ensures forall i :: 0 <= i < |r| ==> r[i] in t.documents
    ensures forall i, j :: 0 <= i < j < |r| ==> r[i].createdAt >= r[j].createdAt
  {
    if session.None? then []
    else SortedFilter(t.documents, DocumentQuery(Context(t), propertyId, tenantId, session.value.organizationId),
                      DocumentCreatedAt)
  }

  /** Without a property id the organization plays no part: with no ids at all every document is listed. */
  lemma GetDocumentsUnscoped(t: Tables, session: Option<Session>)
    requires session.Some?
    ensures multiset(GetDocuments(t, session, None, None)) == multiset(t.documents)
  {
    FilterAll(t.documents, DocumentQuery(Context(t), None, None, session.value.organizationId));
  }

  /** With a property id, a document of another organization's property is never listed. */
  lemma GetDocumentsScopedByProperty(t: Tables, session: Option<Session>, propertyId: Option<string>,
                                     tenantId: Option<string>)
    requires session.Some? && Truthy(propertyId) && session.value.organizationId.Some?
    ensures var r := GetDocuments(t, session, propertyId, tenantId);
      forall i :: 0 <= i < |r| ==> r[i].propertyId == propertyId && OnOrgProperty(t, session.value.organizationId.value, r[i])
  {
    var r := GetDocuments(t, session, propertyId, tenantId);
    var p := DocumentQuery(Context(t), propertyId, tenantId, session.value.organizationId);
    forall i | 0 <= i < |r|
      ensures r[i].propertyId == propertyId && OnOrgProperty(t, session.value.organizationId.value, r[i])
    {
      assert r[i] in multiset(Filter(t.documents, p));
      assert p(r[i]) by {
        assert r[i] in Filter(t.documents, p);
        var k :| 0 <= k < |Filter(t.documents, p)| && Filter(t.documents, p)[k] == r[i];
      }
    }
  }

  function OrgDocument(c: Tables, org: string): Document -> bool {
    (d: Document) => OnOrgProperty(c, org, d)
  }

  /** `getAllDocuments`: the documents on the organization's properties, newest first. */
  function GetAllDocuments(t: Tables, session: Option<Session>): (r: seq<Document>)
    ensures OrgOf(session).None? ==> r == []
    ensures OrgOf(session).Some? ==> forall i :: 0 <= i < |r| ==> r[i] in t.documents && OnOrgProperty(t, OrgOf(session).value, r[i])
    ensures OrgOf(session).Some? ==> forall j :: 0 <= j < |t.documents| && OnOrgProperty(t, OrgOf(session).value, t.documents[j]) ==>
      t.documents[j] in r
    ensures forall i, j :: 0 <= i < j < |r| ==> r[i].createdAt >= r[j].createdAt
  {
    match OrgOf(session)
    case None => []
    case Some(org) => SortedFilter(t.documents, OrgDocument(Context(t), org), DocumentCreatedAt)
  }

  /** An uploaded document on one of the organization's properties shows up in its list. */
  lemma UploadedDocumentListed(t: Tables, session: Option<Session>, f: UploadForm, stored: StorageOutcome,
                               refusal: string, newId: string, now: int, viewer: Option<Session>)
    requires UploadReply(t, session, f, stored, refusal, newId, now) == Ok(())
    requires OrgOf(viewer).Some? && Truthy(f.propertyId) && OwnedProperty(t, OrgOf(viewer).value, f.propertyId.value)
    ensures var d := NewDocument(newId, f, stored.url, stored.name, stored.size, now);
      d in GetAllDocuments(t.(documents := t.documents + [d]), viewer)
  {
    var d := NewDocument(newId, f, stored.url, stored.name, stored.size, now);
    var t' := t.(documents := t.documents + [d]);
    assert Context(t') == Context(t);
    assert t'.documents[|t.documents|] == d;
  }

  /** Lease `i` is the tenant's first active lease in table order. */
  predicate FirstActiveAt(t: Tables, x: Tenant, i: int) {
    0 <= i < |t.leases| && Tenants.ActiveLeaseOf(x.id)(t.leases[i]) &&
    forall j :: 0 <= j < i ==> !Tenants.ActiveLeaseOf(x.id)(t.leases[j])
  }

  /** `tenant.leases[0]?.unit?.propertyId`: the property of the first active lease's unit, when there is one. */
  function FirstActiveProperty(t: Tables, x: Tenant): (r: Option<string>)
    ensures (forall j :: 0 <= j < |t.leases| ==> !Tenants.ActiveLeaseOf(x.id)(t.leases[j])) ==> r.None?
    ensures r.Some? <==> exists i :: FirstActiveAt(t, x, i) && FindUnit(t, t.leases[i].unitId).Some?
    ensures r.Some? ==> exists i ::
      FirstActiveAt(t, x, i) && FindUnit(t, t.leases[i].unitId).Some? &&
      FindUnit(t, t.leases[i].unitId).value.propertyId == r.value
  {
    match IndexWhere(t.leases, Tenants.ActiveLeaseOf(x.id))
    case None => None
    case Some(i) =>
      assert FirstActiveAt(t, x, i);
      FirstActiveUnique(t, x, i);
      match FindUnit(t, t.leases[i].unitId)
      case None => None
      case Some(u) => Some(u.propertyId)
  }

  /** There is only one first active lease. */
  lemma FirstActiveUnique(t: Tables, x: Tenant, i: int)
    requires FirstActiveAt(t, x, i)
    ensures forall k :: FirstActiveAt(t, x, k) ==> k == i
  {
  }

  /**
   * `getTenantDocuments`' `OR`: the tenant's own documents, or the documents of
   * the active lease's property. Without such a property the second branch
   * matches nothing.
   */
  function TenantQuery(tenantId: string, propertyId: Option<string>): Document -> bool {
    (d: Document) => d.tenantId == Some(tenantId) || (propertyId.Some? && d.propertyId == propertyId)
  }

  /** `getTenantDocuments`, for the tenant whose email is the session's. */
  function GetTenantDocuments(t: Tables, session: Option<Session>): (r: seq<Document>)
    ensures EmailOf(session).None? || FindTenantByEmail(t, EmailOf(session).value).None? ==> r == []
    ensures EmailOf(session).Some? && FindTenantByEmail(t, EmailOf(session).value).Some? ==>
      var x := FindTenantByEmail(t, EmailOf(session).value).value;
      var p := FirstActiveProperty(t, x);
      (forall i :: 0 <= i < |r| ==> r[i] in t.documents && (r[i].tenantId == Some(x.id) || (p.Some? && r[i].propertyId == p))) &&
      (forall j :: 0 <= j < |t.documents| && (t.documents[j].tenantId == Some(x.id) || (p.Some? && t.documents[j].propertyId == p)) ==>
        t.documents[j] in r)
    ensures forall i, j :: 0 <= i < j < |r| ==> r[i].createdAt >= r[j].createdAt
  {
    match EmailOf(session)
    case None => []
    case Some(email) =>
      match FindTenantByEmail(t, email)
      case None => []
      case Some(x) => SortedFilter(t.documents, TenantQuery(x.id, FirstActiveProperty(t, x)), DocumentCreatedAt)
  }

  // ---------------------------------------------------------------------------
  // deleteDocument
  // ---------------------------------------------------------------------------

  function NotDocument(id: string): Document -> bool {
    (d: Document) => d.id != id
  }

  function FindDocument(t: Tables, id: string): (r: Option<Document>)
    ensures r.Some? ==> r.value in t.documents && r.value.id == id
    ensures r.None? <==> KeyFree(t.documents, DocumentId, id)
  {
    FirstWhere(t.documents, (d: Document) => d.id == id)
  }

  function DeleteDocumentReply(t: Tables, session: Option<Session>, id: string): (r: Reply<()>)
    ensures r == Err("Unauthorized") <==> session.None?
    ensures r == Err("Document not found") <==> session.Some? && FindDocument(t, id).None?
    ensures r == Ok(()) <==> session.Some? && FindDocument(t, id).Some?
  {
    if session.None? then Err("Unauthorized")
    else if FindDocument(t, id).None? then Err("Document not found")
    else Ok(())
  }

  /** `deleteDocument`: any signed-in caller deletes any document; no organization check. */
  method DeleteDocument(db: Db, session: Option<Session>, id: string) returns (r: Reply<()>)
    requires db.Valid()
    modifies db
    ensures db.Valid()
    ensures r == DeleteDocumentReply(old(db.t), session, id)
    ensures r.Ok? ==> db.t == old(db.t).(documents := Filter(old(db.t).documents, NotDocument(id)))
    ensures !r.Ok? ==> db.t == old(db.t)
  {
    if session.None? {
      return Err("Unauthorized");
    }
    var doc := FindDocument(db.t, id);
    if doc.None? {
      return Err("Document not found");
    }
    FilterUnique(db.t.documents, DocumentId, NotDocument(id));
    db.t := db.t.(documents := Filter(db.t.documents, NotDocument(id)));
    return Ok(());
  }

  /** A delete removes exactly the document with that id and keeps every other, in order. */
  lemma DeleteRemovesOnlyThat(t: Tables, id: string)
    ensures var ds := Filter(t.documents, NotDocument(id));
      FindDocument(t.(documents := ds), id).None? &&
      forall j :: 0 <= j < |t.documents| && t.documents[j].id != id ==> t.documents[j] in ds
  {
    var ds := Filter(t.documents, NotDocument(id));
    forall j | 0 <= j < |ds| ensures ds[j].id != id {
      assert NotDocument(id)(ds[j]);
    }
  }

  /** A signed-in caller of one organization deletes a document on another organization's property. */
  lemma DeleteIgnoresOrganization(t: Tables, session: Option<Session>, id: string)
    requires session.Some? && OrgOf(session).Some? && FindDocument(t, id).Some?
    requires !OnOrgProperty(t, OrgOf(session).value, FindDocument(t, id).value)
    ensures DeleteDocumentReply(t, session, id) == Ok(())
  {
  }
}
