/**
 * The sidebar of the dashboard layout: a constant table of six links, two of
 * them for administrators only, filtered by the signed-in user's role.
 */
module Navigation {
  import opened Common
  import opened Schema
  import Sequences

  /** One link of the sidebar; `admin` marks the links only administrators get. */
  datatype NavItem = NavItem(name: string, href: string, admin: bool)

  const DashboardItem := NavItem("Dashboard", "/", false)
  const ProductsItem := NavItem("Products", "/products", true)
  const ShipmentsItem := NavItem("Shipments", "/shipments", false)
  const ProfileItem := NavItem("Profile", "/profile", false)
  const WalletItem := NavItem("Wallet", "/wallet", false)
  const SettingsItem := NavItem("Settings", "/settings", true)

  /** The `navigation` table, in display order. */
  const Items: seq<NavItem> := [DashboardItem, ProductsItem, ShipmentsItem, ProfileItem, WalletItem, SettingsItem]

  /** `user?.role === "ADMIN"`: false when nobody is signed in. */
  predicate IsAdmin(user: Option<User>) {
    user.Some? && user.value.role == ADMIN
  }

  /** The filter's test: a link is kept when it is not admin-only or the user is an administrator. */
  function ShownTo(user: Option<User>): NavItem -> bool {
    (item: NavItem) => !item.admin || IsAdmin(user)
  }

  /** `filteredNavigation`: the links the signed-in user (if any) is shown, in table order. */
  function FilteredNavigation(user: Option<User>): (r: seq<NavItem>)
    ensures forall item :: item in r <==> item in Items && (!item.admin || IsAdmin(user))
    ensures Sequences.IsSubsequence(r, Items)
  {
    Sequences.FilterMembers(Items, ShownTo(user));
    Sequences.FilterKeepsOrder(Items, ShownTo(user));
    Sequences.Filter(Items, ShownTo(user))
  }

  /** Filtering six links that keep, drop, keep, keep, keep, drop leaves the four kept ones, in order. */
  lemma FilterKeepsFourOfSix(a: NavItem, b: NavItem, c: NavItem, d: NavItem, e: NavItem, f: NavItem, p: NavItem -> bool)
    requires p(a) && !p(b) && p(c) && p(d) && p(e) && !p(f)
    ensures Sequences.Filter([a, b, c, d, e, f], p) == [a, c, d, e]
  {
    var s := [a, b, c, d, e, f];
    Sequences.FilterCons(f, [], p);
    Sequences.FilterCons(e, [f], p);
    Sequences.FilterCons(d, [e, f], p);
    Sequences.FilterCons(c, [d, e, f], p);
    Sequences.FilterCons(b, [c, d, e, f], p);
    Sequences.FilterCons(a, [b, c, d, e, f], p);
    assert [a] + [b, c, d, e, f] == s;
    assert [b] + [c, d, e, f] == [b, c, d, e, f];
    assert [c] + [d, e, f] == [c, d, e, f];
    assert [d] + [e, f] == [d, e, f];
    assert [e] + [f] == [e, f];
    assert [f] + [] == [f];
  }

  /** An administrator sees all six links, in order. */
  lemma AdminSeesAll(user: Option<User>)
    requires IsAdmin(user)
    ensures FilteredNavigation(user) == Items
  {
    Sequences.FilterKeepsAll(Items, ShownTo(user));
  }

  /** A client, or nobody, sees exactly Dashboard, Shipments, Profile and Wallet; never Products or Settings. */
  lemma NonAdminSeesFour(user: Option<User>)
    requires !IsAdmin(user)
    ensures FilteredNavigation(user) == [DashboardItem, ShipmentsItem, ProfileItem, WalletItem]
    ensures ProductsItem !in FilteredNavigation(user) && SettingsItem !in FilteredNavigation(user)
  {
    FilterKeepsFourOfSix(DashboardItem, ProductsItem, ShipmentsItem, ProfileItem, WalletItem, SettingsItem, ShownTo(user));
  }
}
