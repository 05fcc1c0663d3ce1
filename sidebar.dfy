/** The dashboard navigation and the rule that highlights the item for the current path. */
module Sidebar {

  datatype NavItem = NavItem(name: string, href: string)

  /** The four items, in display order. */
  const NavItems: seq<NavItem> := [
    NavItem("Dashboard", "/dashboard"),
    NavItem("Chat", "/chat"),
    NavItem("Tracker", "/tracker"),
    NavItem("Settings", "/settings")
  ]

  /** The highlight rule: the path is the item's link, or lies below `/chat/` or `/tracker/` for those two.
      The contract restates the rule one direction at a time; what it means for the four items is
      `ActiveItems`, and that no path highlights two is `AtMostOneActive`. */
  function IsActive(pathname: string, href: string): (r: bool)
    ensures pathname == href ==> r
    ensures (href == "/chat" || href == "/tracker") && href + "/" <= pathname ==> r
    ensures r && pathname != href ==> (href == "/chat" || href == "/tracker") && href + "/" <= pathname
  {
    pathname == href
    || (href == "/chat" && "/chat/" <= pathname)
    || (href == "/tracker" && "/tracker/" <= pathname)
  }

  /** Which item a path highlights, by position in `NavItems`: Chat and Tracker also below their
      sub-path prefix, Dashboard and Settings only on their exact link. */
  lemma ActiveItems(pathname: string)
    ensures IsActive(pathname, NavItems[0].href) <==> pathname == "/dashboard"
    ensures IsActive(pathname, NavItems[1].href) <==> pathname == "/chat" || "/chat/" <= pathname
    ensures IsActive(pathname, NavItems[2].href) <==> pathname == "/tracker" || "/tracker/" <= pathname
    ensures IsActive(pathname, NavItems[3].href) <==> pathname == "/settings"
  {
  }

  /** No path highlights two items. */
  lemma {:induction false} AtMostOneActive(pathname: string, i: nat, j: nat)
    requires i < |NavItems| && j < |NavItems|
    requires IsActive(pathname, NavItems[i].href) && IsActive(pathname, NavItems[j].href)
    ensures i == j
  {
    if "/chat/" <= pathname {
      assert pathname[1] == 'c';
    }
    if "/tracker/" <= pathname {
      assert pathname[1] == 't';
    }
  }

  /** A path below the dashboard, or one that only starts with the letters of `/chat`, highlights nothing. */
  lemma NothingActive()
    ensures forall i :: 0 <= i < |NavItems| ==> !IsActive("/dashboard/x", NavItems[i].href)
    ensures forall i :: 0 <= i < |NavItems| ==> !IsActive("/chatroom", NavItems[i].href)
  {
    assert "/dashboard/x"[1] == 'd' && "/dashboard/x" != "/dashboard";
    assert !("/chat/" <= "/chatroom") by {
      assert "/chatroom"[5] == 'r';
    }
  }
}
