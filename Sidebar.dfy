/**
 * The navigation sidebar: the entries the user's permissions allow, the
 * rule that marks an entry active for the current page, and the open and
 * collapsed flags the buttons and links change.
 */
module Sidebar {
  import opened Text
  import opened Sorting

  datatype NavItem = NavItem(id: string, name: string, permissionKey: string)

  const DASHBOARD := "dashboard"
  /** The width below which the sidebar overlays the page. */
  const LG_BREAKPOINT := 1024

  /** `permissions[key]`: a key missing from the map is falsy. */
  predicate Granted(permissions: map<string, bool>, key: string)
  {
    key in permissions && permissions[key]
  }

  function Allowed(permissions: map<string, bool>): NavItem -> bool
  {
    (item: NavItem) => Granted(permissions, item.permissionKey)
  }

  /** `NAV_ITEMS.filter(item => permissions[item.permissionKey])`. */
  function VisibleItems(items: seq<NavItem>, permissions: map<string, bool>): seq<NavItem>
  {
    Filter(items, Allowed(permissions))
  }

  /** Exactly the permitted items are shown, in their original order. */
  lemma VisibleItemsSpec(items: seq<NavItem>, permissions: map<string, bool>)
    ensures forall x :: x in VisibleItems(items, permissions) <==> x in items && Granted(permissions, x.permissionKey)
    ensures (forall i :: 0 <= i < |items| ==> Granted(permissions, items[i].permissionKey)) ==> VisibleItems(items, permissions) == items
    ensures (forall i :: 0 <= i < |items| ==> !Granted(permissions, items[i].permissionKey)) ==> VisibleItems(items, permissions) == []
  {
    forall x ensures x in VisibleItems(items, permissions) <==> x in items && Granted(permissions, x.permissionKey) {
      FilterMembership(items, Allowed(permissions), x);
    }
    if forall i :: 0 <= i < |items| ==> Granted(permissions, items[i].permissionKey) {
      FilterAll(items, Allowed(permissions));
    }
    if forall i :: 0 <= i < |items| ==> !Granted(permissions, items[i].permissionKey) {
      FilterNone(items, Allowed(permissions));
    }
  }

  /** Granting one more permission never hides an entry. */
  lemma {:induction false} MorePermissionsShowMore(items: seq<NavItem>, p: map<string, bool>, q: map<string, bool>, x: NavItem)
    requires forall k :: Granted(p, k) ==> Granted(q, k)
    requires x in VisibleItems(items, p)
    ensures x in VisibleItems(items, q)
  {
    FilterMembership(items, Allowed(p), x);
    FilterMembership(items, Allowed(q), x);
  }

  /** An entry is active on its own page and, except the dashboard, on any page its id begins. */
  predicate IsActive(currentPage: string, id: string)
  {
    currentPage == id || (id != DASHBOARD && StartsWith(currentPage, id))
  }

  lemma IsActiveSpec(currentPage: string, id: string)
    ensures id != DASHBOARD ==> (IsActive(currentPage, id) <==> StartsWith(currentPage, id))
    ensures IsActive(currentPage, DASHBOARD) <==> currentPage == DASHBOARD
    ensures IsActive(id, id)
  {
  }

  class State {
    var isOpen: bool
    var isCollapsed: bool
    /** `window.location.hash`. */
    var hash: string

    constructor(open: bool, collapsed: bool, page: string)
      ensures isOpen == open && isCollapsed == collapsed && hash == page
    {
      isOpen := open;
      isCollapsed := collapsed;
      hash := page;
    }

    method ToggleCollapsed()
      modifies this
      ensures isCollapsed == !old(isCollapsed)
      ensures isOpen == old(isOpen) && hash == old(hash)
    {
      isCollapsed := !isCollapsed;
    }

    /** `handleNavClick`: navigates, and closes the overlay on narrow screens. */
    method NavClick(page: string, innerWidth: int)
      modifies this
      ensures hash == page
      ensures isOpen == (old(isOpen) && innerWidth >= LG_BREAKPOINT)
      ensures isCollapsed == old(isCollapsed)
    {
      hash := page;
      if innerWidth < LG_BREAKPOINT {
        isOpen := false;
      }
    }

    /** Clicking the backdrop closes the sidebar. */
    method BackdropClick()
      modifies this
      ensures !isOpen && isCollapsed == old(isCollapsed) && hash == old(hash)
    {
      isOpen := false;
    }
  }
}
