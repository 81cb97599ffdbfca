/**
 * The storefront header (storefront/src/components/header.tsx): navigation highlighting, the
 * light/dark toggle, the mobile menu and the search box.
 *
 * The theme belongs to a theme provider that is not part of this model; it is modelled as a
 * value that `setTheme` overwrites. The router's location is an input; following a `Link`
 * sets it to the link's `href`.
 */
module Header {
  import Flags

  datatype NavItem = NavItem(caption: string, href: string)

  const NavigationItems: seq<NavItem> := [
    NavItem("Home", "/"),
    NavItem("Products", "/products"),
    NavItem("About", "/about"),
    NavItem("Contact", "/contact")]

  /** Which navigation items are highlighted for a location: exact equality with `href`. */
  function Highlighted(location: string): (flags: seq<bool>)
    ensures |flags| == |NavigationItems|
    ensures forall i :: 0 <= i < |flags| ==> (flags[i] <==> location == NavigationItems[i].href)
  {
    seq(|NavigationItems|, i requires 0 <= i < |NavigationItems| => location == NavigationItems[i].href)
  }

  lemma HrefsDistinct()
    ensures forall i, j :: 0 <= i < j < |NavigationItems| ==> NavigationItems[i].href != NavigationItems[j].href
  {
    assert NavigationItems[1].href[1] != NavigationItems[2].href[1];
    assert NavigationItems[1].href[1] != NavigationItems[3].href[1];
    assert NavigationItems[2].href[1] != NavigationItems[3].href[1];
  }

  /** The hrefs are distinct, so at most one item is highlighted, whatever the location. */
  lemma AtMostOneHighlighted(location: string)
    ensures Flags.CountTrue(Highlighted(location)) <= 1
  {
    HrefsDistinct();
    Flags.CountAtMostOne(Highlighted(location));
  }

  /** At an item's own location exactly that item is highlighted. */
  lemma ItemLocationHighlightsItem(i: nat)
    requires i < |NavigationItems|
    ensures Flags.CountTrue(Highlighted(NavigationItems[i].href)) == 1
    ensures Highlighted(NavigationItems[i].href)[i]
  {
    HrefsDistinct();
    Flags.CountOneHot(Highlighted(NavigationItems[i].href), i);
  }

  /** The theme toggle's new value: `'light'` becomes `'dark'`, anything else `'light'`. */
  function NextTheme(theme: string): (t: string)
    ensures t == "light" || t == "dark"
    ensures t == "dark" <==> theme == "light"
  {
    if theme == "light" then "dark" else "light"
  }

  /** Toggling twice restores `'light'` and `'dark'`; any other theme goes to `'light'` and then `'dark'`. */
  lemma ToggleTwice(theme: string)
    ensures theme == "light" || theme == "dark" ==> NextTheme(NextTheme(theme)) == theme
    ensures theme != "light" && theme != "dark" ==> NextTheme(theme) == "light" && NextTheme(NextTheme(theme)) == "dark" != theme
  {
  }

  datatype Icon = Moon | Sun

  /** The toggle shows the Moon in light mode and the Sun otherwise: the icon of the mode it switches to. */
  function ThemeIcon(theme: string): (icon: Icon)
    ensures icon == Moon <==> NextTheme(theme) == "dark"
  {
    if theme == "light" then Moon else Sun
  }

  datatype HeaderState = HeaderState(location: string, theme: string, mobileOpen: bool, searchQuery: string)

  /** The component's state, with the router location and the provider's theme beside it. */
  class HeaderComponent {
    var location: string
    var theme: string
    var mobileOpen: bool
    var searchQuery: string

    function State(): HeaderState
      reads this
    {
      HeaderState(location, theme, mobileOpen, searchQuery)
    }

    /** Mounting: the menu is closed and the search box is empty. */
    constructor (location: string, theme: string)
      ensures State() == HeaderState(location, theme, false, "")
    {
      this.location := location;
      this.theme := theme;
      mobileOpen := false;
      searchQuery := "";
    }

    /** `handleSearchChange`: only the query changes. */
    method HandleSearchChange(value: string)
      modifies this
      ensures State() == old(State()).(searchQuery := value)
    {
      searchQuery := value;
    }

    /** The theme toggle button. */
    method ToggleTheme()
      modifies this
      ensures State() == old(State()).(theme := NextTheme(old(theme)))
    {
      theme := if theme == "light" then "dark" else "light";
    }

    /** The sheet's `onOpenChange`, which opens or closes the mobile menu. */
    method SetMobileOpen(open: bool)
      modifies this
      ensures State() == old(State()).(mobileOpen := open)
    {
      mobileOpen := open;
    }

    /** Clicking desktop navigation item `i`: the link navigates. */
    method ClickNavItem(i: nat)
      requires i < |NavigationItems|
      modifies this
      ensures State() == old(State()).(location := NavigationItems[i].href)
    {
      location := NavigationItems[i].href;
    }

    /** Clicking mobile navigation item `i`: the link navigates and the menu closes. */
    method ClickMobileNavItem(i: nat)
      requires i < |NavigationItems|
      modifies this
      ensures State() == old(State()).(location := NavigationItems[i].href, mobileOpen := false)
    {
      location := NavigationItems[i].href;
      mobileOpen := false;
    }
  }
}
