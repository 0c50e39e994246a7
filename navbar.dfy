/** The navigation bar: which item is highlighted for the current path, the mobile sheet's open
    flag, and sign-out. */
module Navbar {
  import opened UserContext

  datatype NavItem = NavItem(path: string, title: string)

  /** `navItems`. */
  function NavItems(): (items: seq<NavItem>)
    ensures |items| == 4 && items[0].path == "/"
  {
    [ NavItem("/", "Home"), NavItem("/explore", "Explore"), NavItem("/hobbies", "Features"),
      NavItem("/profile", "Profile") ]
  }

  /** `s.startsWith(p)`. */
  function StartsWith(s: string, p: string): (r: bool)
    ensures r <==> |p| <= |s| && forall i :: 0 <= i < |p| ==> s[i] == p[i]
  {
    |p| <= |s| && s[..|p|] == p
  }

  /** `isActive(path)` at `pathname`: the root item only on the root itself, any other item on
      every path that begins with its own, and nothing otherwise. */
  function IsActive(path: string, pathname: string): (active: bool)
    ensures path == "/" ==> (active <==> pathname == "/")
    ensures path != "/" ==> (active <==> StartsWith(pathname, path))
  {
    if path == "/" && pathname == "/" then true
    else if path != "/" && StartsWith(pathname, path) then true
    else false
  }

  /** Prefix matching also highlights a non-root item on deeper paths, and on any path that
      merely begins with the same letters. */
  lemma IsActivePrefixCases()
    ensures IsActive("/profile", "/profile")
    ensures IsActive("/profile", "/profile/settings")
    ensures IsActive("/explore", "/explorer")
    ensures !IsActive("/", "/explore") && !IsActive("/explore", "/")
  {
    assert "/profile/settings"[..|"/profile"|] == "/profile";
    assert "/explorer"[..|"/explore"|] == "/explore";
  }

  /** No two items of the bar are highlighted at once. */
  lemma AtMostOneNavItemActive(pathname: string)
    ensures forall i, j :: 0 <= i < j < |NavItems()| ==>
      !(IsActive(NavItems()[i].path, pathname) && IsActive(NavItems()[j].path, pathname))
  {
    var items := NavItems();
    forall i, j | 0 <= i < j < |items| && IsActive(items[j].path, pathname)
      ensures !IsActive(items[i].path, pathname)
    {
      assert pathname[1] == items[j].path[1];
    }
  }

  /** The bar's own state: whether the mobile sheet is open. */
  class NavbarState {
    var isOpen: bool

    constructor()
      ensures !isOpen
    {
      isOpen := false;
    }

    method SetOpen(b: bool)
      modifies this`isOpen
      ensures isOpen == b
    {
      isOpen := b;
    }

    /** `handleNavigation`: following a link closes the sheet. */
    method HandleNavigation()
      modifies this`isOpen
      ensures !isOpen
    {
      isOpen := false;
    }

    /** The Sign Out button, present only while authenticated. */
    predicate SignOutOffered(store: UserStore)
      reads store
    {
      store.isAuthenticated
    }

    /** Sign Out: `logout`, then `handleNavigation`. */
    method SignOut(store: UserStore)
      modifies this`isOpen, store
      ensures !isOpen
      ensures store.currentUser == store.guest && !store.isAuthenticated && store.notifications == []
      ensures store.savedSlot == NothingStored
      ensures !SignOutOffered(store)
    {
      store.Logout();
      HandleNavigation();
    }
  }
}
