/**
 * The navigation bar (src/components/Navbar.tsx): the fixed list of entries,
 * the desktop list that drops any entry named "Home", and the prefix test
 * that marks an entry active for the current path.
 */
module Navbar {
  import opened JsArray

  datatype NavItem = NavItem(name: string, href: string, desc: string)

  /** `navItems`, in display order. */
  const NavItems: seq<NavItem> := [
    NavItem("About", "/about", "Learn about Aether"),
    NavItem("Write", "/write", "Send a message"),
    NavItem("My Messages", "/my-messages", "Your sent messages")
  ]

  /** `isActive`: the root entry is active on the root path and nowhere
      else; any other entry exactly on the paths whose first characters are
      its href, its own path included. */
  predicate IsActive(pathname: string, href: string): (b: bool)
    ensures href == "/" ==> (b <==> pathname == "/")
    ensures href != "/" ==> (b <==> |href| <= |pathname| && pathname[..|href|] == href)
    ensures href != "/" && pathname == href ==> b
  {
    if href == "/" then pathname == "/" else href <= pathname
  }

  /** The test is not segment-aware: "/writer" activates the Write entry. */
  lemma NotSegmentAware()
    ensures IsActive("/writer", NavItems[1].href)
  {
    assert "/write" <= "/writer" by {
      assert "/writer"[..6] == "/write";
    }
  }

  /** Two prefixes of the same path are prefixes of one another. */
  lemma {:induction false} PrefixesComparable(a: string, b: string, p: string)
    requires a <= p && b <= p
    ensures a <= b || b <= a
  {
    if |a| <= |b| {
      assert a == p[..|a|] && b == p[..|b|];
      assert b[..|a|] == a;
    } else {
      assert a == p[..|a|] && b == p[..|b|];
      assert a[..|b|] == b;
    }
  }

  /** No href of the list is a prefix of another, and none is the root. */
  lemma HrefsIncomparable()
    ensures forall i, j :: 0 <= i < |NavItems| && 0 <= j < |NavItems| && i != j ==>
      !(NavItems[i].href <= NavItems[j].href)
    ensures forall i :: 0 <= i < |NavItems| ==> NavItems[i].href != "/"
  {
    assert NavItems[0].href[1] == 'a';
    assert NavItems[1].href[1] == 'w';
    assert NavItems[2].href[1] == 'm';
  }

  /** For every path at most one entry of the list is active. */
  lemma AtMostOneActive(pathname: string)
    ensures forall i, j :: 0 <= i < j < |NavItems| ==>
      !(IsActive(pathname, NavItems[i].href) && IsActive(pathname, NavItems[j].href))
  {
    HrefsIncomparable();
    forall i, j | 0 <= i < j < |NavItems| && IsActive(pathname, NavItems[i].href)
      ensures !IsActive(pathname, NavItems[j].href)
    {
      if IsActive(pathname, NavItems[j].href) {
        PrefixesComparable(NavItems[i].href, NavItems[j].href, pathname);
      }
    }
  }

  predicate NotHome(item: NavItem) {
    item.name != "Home"
  }

  /** The desktop list: `navItems.filter(item => item.name !== 'Home')`. */
  function DesktopItems(items: seq<NavItem>): (r: seq<NavItem>)
    ensures IsSubsequence(r, items)
    ensures forall i :: 0 <= i < |r| ==> r[i].name != "Home"
    ensures r == items <==> forall i :: 0 <= i < |items| ==> items[i].name != "Home"
  {
    FilterIsSubsequence(items, NotHome);
    FilterKeepsAll(items, NotHome);
    Filter(items, NotHome)
  }

  /** No entry is named "Home", so the desktop bar shows the same entries in
      the same order as the mobile panel. */
  lemma DesktopShowsAll()
    ensures DesktopItems(NavItems) == NavItems
  {
    assert NavItems[0].name[0] == 'A';
    assert NavItems[1].name[0] == 'W';
    assert NavItems[2].name[0] == 'M';
    assert forall i :: 0 <= i < |NavItems| ==> NavItems[i].name != "Home";
  }
}
