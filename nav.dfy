/** The side menu: which entries a signed-in user is offered. */
module Navigation {
  import opened Common

  datatype NavItem = NavItem(title: string, href: string)

  const AdminNav: seq<NavItem> := [
    NavItem("Dashboard", "/dashboard"),
    NavItem("Properties", "/dashboard/properties"),
    NavItem("Tenants", "/dashboard/tenants"),
    NavItem("Finance", "/dashboard/finance"),
    NavItem("Maintenance", "/dashboard/maintenance"),
    NavItem("Documents", "/dashboard/documents"),
    NavItem("Reports", "/dashboard/reports"),
    NavItem("Settings", "/dashboard/settings")]

  const TenantNav: seq<NavItem> := [
    NavItem("Dashboard", "/dashboard"),
    NavItem("Payments", "/dashboard/payments"),
    NavItem("Maintenance", "/dashboard/maintenance"),
    NavItem("Documents", "/dashboard/documents"),
    NavItem("Settings", "/dashboard/settings")]

  predicate HasTitle(menu: seq<NavItem>, title: string) {
    exists i :: 0 <= i < |menu| && menu[i].title == title
  }

  /** `getNavItems(role)`: the tenant menu for a tenant, the admin menu for anyone else, no role included. */
  function GetNavItems(role: Option<Role>): (r: seq<NavItem>)
    ensures role == Some(TenantRole) ==> |r| == 5 && HasTitle(r, "Payments")
    ensures role != Some(TenantRole) ==> |r| == 8 && !HasTitle(r, "Payments")
    ensures r[0] == NavItem("Dashboard", "/dashboard") && r[|r| - 1] == NavItem("Settings", "/dashboard/settings")
  {
    if role == Some(TenantRole) then
      assert TenantNav[1].title == "Payments";
      TenantNav
    else
      assert forall i :: 0 <= i < |AdminNav| ==> AdminNav[i].title != "Payments";
      AdminNav
  }

  /** A tenant is offered no Properties, Tenants, Finance or Reports entry. */
  lemma TenantMenuLacksManagement()
    ensures !HasTitle(GetNavItems(Some(TenantRole)), "Properties")
    ensures !HasTitle(GetNavItems(Some(TenantRole)), "Tenants")
    ensures !HasTitle(GetNavItems(Some(TenantRole)), "Finance")
    ensures !HasTitle(GetNavItems(Some(TenantRole)), "Reports")
  {
    assert forall i :: 0 <= i < |TenantNav| ==> TenantNav[i].title in {"Dashboard", "Payments", "Maintenance", "Documents", "Settings"};
  }

  /** Every tenant entry's page is also one an administrator reaches, except Payments. */
  lemma TenantEntriesShared()
    ensures forall i :: 0 <= i < |TenantNav| && TenantNav[i].title != "Payments" ==> TenantNav[i] in AdminNav
  {
    assert TenantNav[0] == AdminNav[0] && TenantNav[2] == AdminNav[4];
    assert TenantNav[3] == AdminNav[5] && TenantNav[4] == AdminNav[7];
  }
}
