/**
 * The navigation bar: which link set it shows for the optional
 * isAuthenticated and userType props, which link is highlighted for the
 * current location, and the mobile menu's open/close rules, including the
 * in-page scroll for hash links on the home page.
 *
 * The DOM lookup of the hash target is the `elementFound` argument; the
 * smooth scroll itself is recorded in `scrolledTo`.
 */
module Navbar {
  import opened Wrappers
  import opened JsString
  import Translations

  datatype UserType = Candidate | Coach

  /** A link's target and the translation key of its label. */
  datatype NavLink = NavLink(href: string, labelKey: string)

  const PublicLinks: seq<NavLink> := [
    NavLink("#how-it-works", "nav.howItWorks"),
    NavLink("#candidates", "nav.forCandidates"),
    NavLink("#coaches", "nav.forCoaches")
  ]

  const CandidateLinks: seq<NavLink> := [
    NavLink("/dashboard", "nav.dashboard"),
    NavLink("/sessions", "nav.sessions"),
    NavLink("/reports", "nav.reports")
  ]

  const CoachLinks: seq<NavLink> := [
    NavLink("/coach/dashboard", "nav.dashboard"),
    NavLink("/coach/scenarios", "nav.scenarios"),
    NavLink("/coach/candidates", "nav.candidates"),
    NavLink("/coach/analytics", "nav.analytics")
  ]

  /** The component's prop defaults: not authenticated, a candidate. */
  function AuthenticatedProp(isAuthenticated: Option<bool>): bool {
    if isAuthenticated.Some? then isAuthenticated.value else false
  }

  function UserTypeProp(userType: Option<UserType>): UserType {
    if userType.Some? then userType.value else Candidate
  }

  /** `links`: the public set when signed out, otherwise the coach or candidate set. */
  function Links(isAuthenticated: Option<bool>, userType: Option<UserType>): seq<NavLink> {
    if AuthenticatedProp(isAuthenticated) then
      (if UserTypeProp(userType) == Coach then CoachLinks else CandidateLinks)
    else PublicLinks
  }

  predicate IsHashLink(href: string) {
    StartsWith(href, "#")
  }

  /** The router location the bar reads. */
  datatype Location = Location(pathname: string, hash: string)

  /** A hash link is active when it is the location's hash, a route link when it is the pathname. */
  predicate IsActive(link: NavLink, location: Location) {
    if IsHashLink(link.href) then location.hash == link.href else location.pathname == link.href
  }

  /** Signed-out visitors get the three public links whatever their user type. */
  lemma SignedOutSeesPublicLinks(isAuthenticated: Option<bool>, userType: Option<UserType>)
    requires isAuthenticated != Some(true)
    ensures Links(isAuthenticated, userType) == PublicLinks
    ensures |Links(isAuthenticated, userType)| == 3
    ensures forall i :: 0 <= i < 3 ==> IsHashLink(Links(isAuthenticated, userType)[i].href)
  {
  }

  /**
   * Signed-in users see the four coach links exactly when they are coaches,
   * otherwise (also when no user type is given) the three candidate links;
   * all of them are route links.
   */
  lemma SignedInLinks(userType: Option<UserType>)
    ensures var links := Links(Some(true), userType);
            && (|links| == 4 <==> userType == Some(Coach))
            && (userType == Some(Coach) ==> links == CoachLinks)
            && (userType != Some(Coach) ==> links == CandidateLinks)
            && (forall i :: 0 <= i < |links| ==> !IsHashLink(links[i].href))
  {
    var links := Links(Some(true), userType);
    forall i | 0 <= i < |links| ensures !IsHashLink(links[i].href) {
      assert links[i].href[0] == '/';
    }
  }

  /** No link set repeats a target. */
  predicate DistinctTargets(links: seq<NavLink>) {
    forall i, j :: 0 <= i < j < |links| ==> links[i].href != links[j].href
  }

  lemma LinkSetsDistinct()
    ensures DistinctTargets(PublicLinks) && DistinctTargets(CandidateLinks) && DistinctTargets(CoachLinks)
  {
  }

  /** Within one link set all links are of the same kind. */
  predicate Uniform(links: seq<NavLink>) {
    forall i, j :: 0 <= i < |links| && 0 <= j < |links| ==> IsHashLink(links[i].href) == IsHashLink(links[j].href)
  }

  /** In a set of same-kind links with distinct targets, at most one link is active. */
  lemma AtMostOneActiveIn(links: seq<NavLink>, location: Location, i: nat, j: nat)
    requires DistinctTargets(links) && Uniform(links)
    requires i < |links| && j < |links|
    requires IsActive(links[i], location) && IsActive(links[j], location)
    ensures i == j
  {
  }

  /** Whatever the props and the location, the bar highlights at most one link. */
  lemma AtMostOneActive(isAuthenticated: Option<bool>, userType: Option<UserType>, location: Location, i: nat, j: nat)
    requires i < |Links(isAuthenticated, userType)| && j < |Links(isAuthenticated, userType)|
    requires IsActive(Links(isAuthenticated, userType)[i], location)
    requires IsActive(Links(isAuthenticated, userType)[j], location)
    ensures i == j
  {
    var links := Links(isAuthenticated, userType);
    LinkSetsDistinct();
    assert Uniform(links) by {
      if AuthenticatedProp(isAuthenticated) {
        SignedInLinks(if UserTypeProp(userType) == Coach then Some(Coach) else Some(Candidate));
      } else {
        SignedOutSeesPublicLinks(isAuthenticated, userType);
      }
    }
    AtMostOneActiveIn(links, location, i, j);
  }

  /** Every label key the bar can show is an entry of the English navigation table. */
  lemma LabelsHaveEnglishText(isAuthenticated: Option<bool>, userType: Option<UserType>)
    ensures forall link | link in Links(isAuthenticated, userType) :: link.labelKey in Translations.EnNavigation
  {
  }

  /** handleNavClick intercepts a click only for a hash link on the home page. */
  predicate Intercepts(href: string, location: Location) {
    IsHashLink(href) && location.pathname == "/"
  }

  /** The mobile menu's state and the scroll the bar last asked for. */
  class MobileMenu {
    var mobileMenuOpen: bool
    var scrolledTo: Option<string>

    constructor ()
      ensures !mobileMenuOpen && scrolledTo == None
    {
      mobileMenuOpen := false;
      scrolledTo := None;
    }

    /** The menu button. */
    method ToggleMenu()
      modifies this
      ensures mobileMenuOpen == !old(mobileMenuOpen) && scrolledTo == old(scrolledTo)
    {
      mobileMenuOpen := !mobileMenuOpen;
    }

    /**
     * handleNavClick on a hash link: on the home page it prevents the default
     * jump, and if the target element exists it scrolls there and closes the
     * menu; off the home page, or with no element, the menu stays as it was.
     */
    method HandleNavClick(href: string, location: Location, elementFound: bool) returns (preventDefault: bool)
      modifies this
      ensures preventDefault <==> Intercepts(href, location)
      ensures preventDefault && elementFound ==> !mobileMenuOpen && scrolledTo == Some(href)
      ensures !(preventDefault && elementFound) ==> mobileMenuOpen == old(mobileMenuOpen) && scrolledTo == old(scrolledTo)
    {
      preventDefault := false;
      if Intercepts(href, location) {
        preventDefault := true;
        if elementFound {
          scrolledTo := Some(href);
          mobileMenuOpen := false;
        }
      }
    }

    /** A route link in the mobile menu closes it. */
    method RouteLinkClick()
      modifies this
      ensures !mobileMenuOpen && scrolledTo == old(scrolledTo)
    {
      mobileMenuOpen := false;
    }
  }

  /**
   * Open the menu on a page other than home and click a hash link: nothing is
   * intercepted and the menu stays open, even though the element exists.
   * This is a fact about the component on its own: in the application the
   * signed-out bar, the only one with hash links, is rendered on the home page.
   */
  method HashLinkAwayFromHome() returns (intercepted: bool, stillOpen: bool)
    ensures !intercepted && stillOpen
  {
    var menu := new MobileMenu();
    menu.ToggleMenu();
    intercepted := menu.HandleNavClick("#coaches", Location("/dashboard", ""), true);
    stillOpen := menu.mobileMenuOpen;
  }
}
