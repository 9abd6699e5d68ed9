/**
 * `OrbitalNavigation` (components/portfolio/orbital-navigation.tsx): the
 * desktop rail of section buttons and the mobile pop-up menu, both of which
 * hand the clicked item's id to the page's `handleNavigate`.
 */
module Navigation {
  import opened Common
  import Page

  /** The ids of `navItems`, in display order. */
  const NavItemIds: seq<string> := ["identity", "experience", "skills", "projects", "education", "contact"]

  /** The navigation offers exactly the page's sections, in the page's digit-key order, each once. */
  lemma NavItemsAreSections()
    ensures NavItemIds == Page.SectionIds
    ensures Unique(NavItemIds)
  {
    Page.SectionIdsUnique();
  }

  /** An item is drawn highlighted (and carries the indicator line) iff it is the active section. */
  predicate IsHighlighted(activeSection: string, itemId: string) {
    activeSection == itemId
  }

  /** The highlight flag of each item, in order. */
  function Highlights(activeSection: string): (h: seq<bool>)
    ensures |h| == |NavItemIds|
    ensures forall i :: 0 <= i < |NavItemIds| ==> (h[i] <==> IsHighlighted(activeSection, NavItemIds[i]))
  {
    MatchesOf(NavItemIds, activeSection)
  }

  /** Exactly one item is highlighted when the active section is a nav item, and none otherwise. */
  lemma AtMostOneHighlighted(activeSection: string)
    ensures CountTrue(Highlights(activeSection)) == (if activeSection in NavItemIds then 1 else 0)
  {
    NavItemsAreSections();
    UniqueMatchCount(NavItemIds, activeSection);
  }

  /** Clicking item `i` (on either bar) scrolls to its section whenever the page has it. */
  lemma ItemClickScrollsToItsSection(i: nat, documentIds: set<string>)
    requires i < |NavItemIds|
    ensures NavItemIds[i] in documentIds ==> Page.HandleNavigate(NavItemIds[i], documentIds) == Some(NavItemIds[i])
    ensures NavItemIds[i] !in documentIds ==> Page.HandleNavigate(NavItemIds[i], documentIds) == None
  {
  }

  /** The component's own state: whether the mobile menu is expanded. */
  class OrbitalNavigation {
    var isExpanded: bool

    constructor ()
      ensures !isExpanded
    {
      isExpanded := false;
    }

    /** The items of the mobile menu: all of them when expanded, none otherwise. */
    function MobileMenuItems(): (items: seq<string>)
      reads this
      ensures forall id :: id in items <==> isExpanded && id in Page.SectionIds
      ensures |items| > 0 <==> isExpanded
    {
      if isExpanded then NavItemIds else []
    }

    /** The round menu button: flips `isExpanded`. */
    method ToggleMenu()
      modifies this
      ensures isExpanded == !old(isExpanded)
    {
      isExpanded := !isExpanded;
    }

    /** A click on desktop item `i`: navigates to its id; the mobile menu is untouched. */
    method DesktopClick(i: nat, documentIds: set<string>) returns (scrollTo: Option<string>)
      requires i < |NavItemIds|
      ensures scrollTo == Page.HandleNavigate(NavItemIds[i], documentIds)
      ensures isExpanded == old(isExpanded)
    {
      scrollTo := Page.HandleNavigate(NavItemIds[i], documentIds);
    }

    /** A click on mobile item `i` (only rendered while expanded): navigates, then collapses the menu. */
    method MobileClick(i: nat, documentIds: set<string>) returns (scrollTo: Option<string>)
      requires isExpanded && i < |NavItemIds|
      modifies this
      ensures scrollTo == Page.HandleNavigate(NavItemIds[i], documentIds)
      ensures !isExpanded
    {
      scrollTo := Page.HandleNavigate(NavItemIds[i], documentIds);
      isExpanded := false;
    }
  }

  /** Toggling twice leaves the menu as it was. */
  method ToggleTwiceRestores(nav: OrbitalNavigation)
    modifies nav
    ensures nav.isExpanded == old(nav.isExpanded)
  {
    nav.ToggleMenu();
    nav.ToggleMenu();
  }
}
