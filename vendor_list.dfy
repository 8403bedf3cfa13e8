/**
 * The vendor table's client state: the search box filters the list it was
 * given, and the delete dialog remembers which vendor it is about to delete.
 */
module VendorListUi {
  import opened Common
  import opened Seqs
  import opened Store
  import opened Vendors

  /** The vendor's name or service type contains the (already lower-cased) needle. */
  function Matches(needle: string): Vendor -> bool {
    (v: Vendor) => Contains(Lower(v.name), needle) || Contains(Lower(v.serviceType), needle)
  }

  /** The search term occurs in the vendor's name or service type, ignoring case. */
  predicate MatchesSearch(v: Vendor, term: string) {
    Contains(Lower(v.name), Lower(term)) || Contains(Lower(v.serviceType), Lower(term))
  }

  /** `filteredVendors`: exactly the vendors matching the search term. */
  function FilteredVendors(vs: seq<Vendor>, term: string): (r: seq<Vendor>)
    ensures |r| <= |vs|
    ensures forall i :: 0 <= i < |r| ==> r[i] in vs && MatchesSearch(r[i], term)
    ensures forall j :: 0 <= j < |vs| && MatchesSearch(vs[j], term) ==> vs[j] in r
  {
    Filter(vs, Matches(Lower(term)))
  }

  /** An empty search term keeps every vendor, in order. */
  lemma EmptySearchKeepsAll(vs: seq<Vendor>)
    ensures FilteredVendors(vs, "") == vs
  {
    forall j | 0 <= j < |vs|
      ensures Matches(Lower(""))(vs[j])
    {
      assert OccursAt(Lower(vs[j].name), "", 0);
    }
    FilterAll(vs, Matches(Lower("")));
  }

  lemma LowerUpperChar(c: char)
    ensures LowerChar(UpperChar(c)) == LowerChar(c)
  {
  }

  /** Typing the term in capitals finds the same vendors. */
  lemma SearchIgnoresCase(vs: seq<Vendor>, term: string)
    ensures FilteredVendors(vs, Upper(term)) == FilteredVendors(vs, term)
  {
    forall i | 0 <= i < |term|
      ensures Lower(Upper(term))[i] == Lower(term)[i]
    {
      LowerUpperChar(term[i]);
    }
    assert Lower(Upper(term)) == Lower(term);
  }

  /** The notice shown after a delete attempt. */
  datatype Toast = Toast(title: string, description: string, destructive: bool)

  function DeleteToast(r: Reply<string>): (toast: Toast)
    ensures toast.destructive <==> !r.Ok?
    ensures r.Err? ==> toast.description == r.error
  {
    match r
    case Err(e) => Toast("Error", e, true)
    case Thrown(e) => Toast("Error", e, true)
    case Ok(_) => Toast("Success", "Vendor deleted successfully", false)
  }

  class VendorList {
    var searchTerm: string
    /** The id awaiting confirmation in the delete dialog, if any. */
    var vendorToDelete: Option<string>

    constructor ()
      ensures searchTerm == "" && vendorToDelete.None?
    {
      searchTerm := "";
      vendorToDelete := None;
    }

    /** Opening the delete dialog for a vendor. */
    method SelectForDelete(id: string)
      modifies this
      ensures vendorToDelete == Some(id) && searchTerm == old(searchTerm)
    {
      vendorToDelete := Some(id);
    }

    /**
     * `handleDelete`: nothing without a selection; otherwise one call to
     * `deleteVendor`, a notice of its outcome, and the selection cleared
     * whether it succeeded or not.
     */
    method HandleDelete(db: Db, session: Option<Session>) returns (toast: Option<Toast>)
      requires db.Valid()
      modifies this, db
      ensures db.Valid()
      ensures searchTerm == old(searchTerm)
      ensures !Truthy(old(vendorToDelete)) ==>
        toast.None? && db.t == old(db.t) && vendorToDelete == old(vendorToDelete)
      ensures Truthy(old(vendorToDelete)) ==>
        var r := DeleteVendorReply(old(db.t), session, old(vendorToDelete).value);
        vendorToDelete.None? && toast == Some(DeleteToast(r)) &&
        db.t == (if r.Ok? then old(db.t).(vendors := Filter(old(db.t).vendors, NotVendor(old(vendorToDelete).value)))
                 else old(db.t))
    {
      if !Truthy(vendorToDelete) {
        return None;
      }
      var r := DeleteVendor(db, session, vendorToDelete.value);
      toast := Some(DeleteToast(r));
      vendorToDelete := None;
    }
  }
}
