/** The navigation bar: which links are visible in each authentication
    state, the Logout entry, and the mobile menu flag. */
module Navbar {
  import opened Text
  import AuthContext

  datatype NavLinkItem = NavLinkItem(name: string, path: string, authRequired: bool, hideWhenAuth: bool)

  const HomeLink := NavLinkItem("Home", "/", false, false)
  const JobsLink := NavLinkItem("Jobs", "/jobs", false, false)
  const InternshipsLink := NavLinkItem("Internships", "/internships", false, false)
  const ServicesLink := NavLinkItem("Services", "/services", false, false)
  const AboutLink := NavLinkItem("About Us", "/about", false, false)
  const ContactLink := NavLinkItem("Contact", "/contact", false, false)
  const AuthLink := NavLinkItem("Login/Sign Up", "/auth", false, true)
  const ProfileLink := NavLinkItem("Profile", "/profile", true, false)

  /** The six links with neither flag (an absent flag reads as false). */
  const PublicLinks: seq<NavLinkItem> := [HomeLink, JobsLink, InternshipsLink, ServicesLink, AboutLink, ContactLink]

  /** The application's link list, in display order. */
  const NavLinks: seq<NavLinkItem> := PublicLinks + [AuthLink, ProfileLink]

  predicate Visible(link: NavLinkItem, isAuthenticated: bool) {
    !(link.authRequired && !isAuthenticated) && !(link.hideWhenAuth && isAuthenticated)
  }

  /** `filteredNavLinks`: the visible links in their original order. */
  function FilterNavLinks(links: seq<NavLinkItem>, isAuthenticated: bool): (r: seq<NavLinkItem>)
    ensures |r| <= |links|
  {
    if links == [] then []
    else (if Visible(links[0], isAuthenticated) then [links[0]] else []) + FilterNavLinks(links[1..], isAuthenticated)
  }

  /** A link is shown exactly when it is in the list and visible: an
      `authRequired` link only when signed in, a `hideWhenAuth` link only
      when signed out. */
  lemma {:induction false} FilterNavLinksMembers(links: seq<NavLinkItem>, isAuthenticated: bool, l: NavLinkItem)
    ensures l in FilterNavLinks(links, isAuthenticated) <==> l in links && Visible(l, isAuthenticated)
    ensures l in FilterNavLinks(links, isAuthenticated) && l.authRequired ==> isAuthenticated
    ensures l in FilterNavLinks(links, isAuthenticated) && l.hideWhenAuth ==> !isAuthenticated
  {
    if links != [] {
      FilterNavLinksMembers(links[1..], isAuthenticated, l);
      assert links == [links[0]] + links[1..];
    }
  }

  /** Links with neither flag are kept in both states. */
  lemma {:induction false} FilterKeepsPlainLinks(links: seq<NavLinkItem>, isAuthenticated: bool)
    requires forall i :: 0 <= i < |links| ==> !links[i].authRequired && !links[i].hideWhenAuth
    ensures FilterNavLinks(links, isAuthenticated) == links
  {
    if links != [] {
      FilterKeepsPlainLinks(links[1..], isAuthenticated);
      assert [links[0]] + links[1..] == links;
    }
  }

  /** Filtering distributes over concatenation, so the kept links keep
      their relative order. */
  lemma {:induction false} FilterConcat(a: seq<NavLinkItem>, b: seq<NavLinkItem>, isAuthenticated: bool)
    ensures FilterNavLinks(a + b, isAuthenticated) == FilterNavLinks(a, isAuthenticated) + FilterNavLinks(b, isAuthenticated)
  {
    if a == [] {
      assert a + b == b;
    } else {
      var head := if Visible(a[0], isAuthenticated) then [a[0]] else [];
      assert (a + b)[0] == a[0];
      assert (a + b)[1..] == a[1..] + b;
      assert FilterNavLinks(a + b, isAuthenticated) == head + FilterNavLinks(a[1..] + b, isAuthenticated);
      FilterConcat(a[1..], b, isAuthenticated);
      assert FilterNavLinks(a, isAuthenticated) == head + FilterNavLinks(a[1..], isAuthenticated);
    }
  }

  function Names(links: seq<NavLinkItem>): (r: seq<string>)
    ensures |r| == |links|
    ensures forall i :: 0 <= i < |links| ==> r[i] == links[i].name
  {
    seq(|links|, i requires 0 <= i < |links| => links[i].name)
  }

  const PublicNames: seq<string> := ["Home", "Jobs", "Internships", "Services", "About Us", "Contact"]

  lemma FilterSignedOut()
    ensures FilterNavLinks(NavLinks, false) == PublicLinks + [AuthLink]
  {
    FilterConcat(PublicLinks, [AuthLink, ProfileLink], false);
    FilterKeepsPlainLinks(PublicLinks, false);
    assert [AuthLink, ProfileLink][1..] == [ProfileLink];
    assert FilterNavLinks([ProfileLink], false) == [];
  }

  lemma FilterSignedIn()
    ensures FilterNavLinks(NavLinks, true) == PublicLinks + [ProfileLink]
  {
    FilterConcat(PublicLinks, [AuthLink, ProfileLink], true);
    FilterKeepsPlainLinks(PublicLinks, true);
    assert [AuthLink, ProfileLink][1..] == [ProfileLink];
    assert FilterNavLinks([ProfileLink], true) == [ProfileLink] + FilterNavLinks([], true);
    assert FilterNavLinks([AuthLink, ProfileLink], true) == [] + [ProfileLink];
  }

  /** Over the application's links: signed out shows the six public links
      and "Login/Sign Up"; signed in shows the six and "Profile". */
  lemma NavLinksPerState()
    ensures Names(FilterNavLinks(NavLinks, false)) == PublicNames + ["Login/Sign Up"]
    ensures Names(FilterNavLinks(NavLinks, true)) == PublicNames + ["Profile"]
  {
    FilterSignedOut();
    FilterSignedIn();
  }

  /** The entries the bar shows: the visible links, then Logout when signed in. */
  function Entries(isAuthenticated: bool): (r: seq<string>)
    ensures ("Logout" in r) <==> isAuthenticated
    ensures |r| == 8 - (if isAuthenticated then 0 else 1)
  {
    NavLinksPerState();
    Names(FilterNavLinks(NavLinks, isAuthenticated)) + (if isAuthenticated then ["Logout"] else [])
  }

  /** The bar's own state: whether the mobile menu is open. */
  class NavbarState {
    var mobileMenuOpen: bool
    const auth: AuthContext.AuthProvider

    constructor (auth: AuthContext.AuthProvider)
      ensures !mobileMenuOpen && this.auth == auth
    {
      mobileMenuOpen := false;
      this.auth := auth;
    }

    /** The menu button flips the flag. */
    method ToggleMenu()
      modifies this
      ensures mobileMenuOpen == !old(mobileMenuOpen)
    {
      mobileMenuOpen := !mobileMenuOpen;
    }

    /** Choosing a link in the mobile menu closes it. */
    method ChooseMobileLink()
      modifies this
      ensures !mobileMenuOpen
    {
      mobileMenuOpen := false;
    }

    /** The desktop Logout button signs out; the menu flag is untouched. */
    method DesktopLogout()
      modifies auth
      ensures mobileMenuOpen == old(mobileMenuOpen)
      ensures auth.authState == AuthContext.SignedOut
      ensures auth.storage == AuthContext.StorageAfterLogout(old(auth.storage))
    {
      auth.Logout();
    }

    /** Logout from the mobile menu signs out and closes the menu. */
    method MobileLogout()
      modifies this, auth
      ensures !mobileMenuOpen
      ensures auth.authState == AuthContext.SignedOut
      ensures auth.storage == AuthContext.StorageAfterLogout(old(auth.storage))
    {
      auth.Logout();
      mobileMenuOpen := false;
    }
  }
}
