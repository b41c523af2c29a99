/**
 * The main application sidebar: which navigation entry is highlighted for
 * the current path, the global key handler ('/' opens the search, Escape
 * closes the mobile menu), the search / mobile-menu / collapse toggles,
 * and the expand toggle of an entry with children.  The grouping of the
 * entries is `NavSections`.  The page's focused element is seen only
 * through its tag name; scroll locking of the document body is left out.
 */
module Sidebar {
  import opened JsText
  import opened NavSections

  // ----------------------------------------------------------- active path

  /**
   * `isActiveNavItem` as written: the path is the entry's path, or, for any
   * entry other than the root, merely starts with it.
   */
  predicate IsActiveNavItem(path: string, itemPath: string) {
    path == itemPath || (itemPath != "/" && StartsWith(path, itemPath))
  }

  /** The root entry is highlighted on the root path only; every other entry on all paths it prefixes. */
  lemma ActiveNavItemMeans(path: string, itemPath: string)
    ensures itemPath == "/" ==> (IsActiveNavItem(path, itemPath) <==> path == "/")
    ensures itemPath != "/" ==> (IsActiveNavItem(path, itemPath) <==> itemPath <= path)
  {
  }

  /** There is no check for a path separator: "/patientsX" highlights the "/patients" entry. */
  lemma PrefixWithoutSeparatorIsActive()
    ensures IsActiveNavItem("/patientsX", "/patients")
  {
    assert "/patients" <= "/patientsX";
  }

  /**
   * The evident intent: an entry is highlighted on its own path and on the
   * paths below it, one segment further down.  The root stays exact.
   */
  predicate IsActiveSegment(path: string, itemPath: string) {
    path == itemPath || (itemPath != "/" && StartsWith(path, itemPath + "/"))
  }

  /**
   * Under the corrected rule an entry other than the root is highlighted
   * exactly on its path and on paths continuing it after a '/', so a
   * sibling such as "/patientsX" no longer highlights "/patients"; and it
   * never highlights more than the rule as written.
   */
  lemma ActiveSegmentMeans(path: string, itemPath: string)
    ensures IsActiveSegment(path, itemPath) ==> IsActiveNavItem(path, itemPath)
    ensures itemPath != "/" ==> (IsActiveSegment(path, itemPath) <==>
      (path == itemPath || (|path| > |itemPath| && path[..|itemPath|] == itemPath && path[|itemPath|] == '/')))
    ensures !IsActiveSegment("/patientsX", "/patients")
  {
    if IsActiveSegment(path, itemPath) && path != itemPath {
      assert path[..|itemPath|] == (itemPath + "/")[..|itemPath|] == itemPath;
    }
    if itemPath != "/" && |path| > |itemPath| && path[..|itemPath|] == itemPath && path[|itemPath|] == '/' {
      assert path[..|itemPath| + 1] == itemPath + "/";
    }
    assert ("/patients" + "/")[9] == '/' && "/patientsX"[9] == 'X';
  }

  // ------------------------------------------------------------- UI state

  datatype SidebarUi = SidebarUi(searchOpen: bool, mobileMenuOpen: bool, collapsed: bool)

  /** The sidebar as mounted: search and menu closed, collapsed as the `defaultCollapsed` prop says. */
  function InitialUi(defaultCollapsed: bool): (s: SidebarUi)
    ensures !s.searchOpen && !s.mobileMenuOpen && s.collapsed == defaultCollapsed
  {
    SidebarUi(false, false, defaultCollapsed)
  }

  /** Tags of the elements in which '/' is typed text rather than a shortcut. */
  predicate IsFormField(tag: string) {
    tag == "INPUT" || tag == "TEXTAREA" || tag == "SELECT"
  }

  /**
   * `handleKeyDown`: '/' opens the search when it is closed and the focus
   * is not in a form field; otherwise Escape closes an open mobile menu.
   * The second component says whether the default action was prevented.
   */
  function KeyDown(s: SidebarUi, key: string, activeTag: string): (r: (SidebarUi, bool))
    ensures var opens := key == "/" && !s.searchOpen && !IsFormField(activeTag);
      var closes := key == "Escape" && s.mobileMenuOpen;
      && r.0.searchOpen == (s.searchOpen || opens)
      && r.0.mobileMenuOpen == (s.mobileMenuOpen && !closes)
      && r.0.collapsed == s.collapsed
      && (r.1 <==> opens || closes)
  {
    if key == "/" && !s.searchOpen && !IsFormField(activeTag) then (s.(searchOpen := true), true)
    else if key == "Escape" && s.mobileMenuOpen then (s.(mobileMenuOpen := false), true)
    else (s, false)
  }

  /** Any other key, or a shortcut that does not apply, changes nothing and lets the event through. */
  lemma KeyDownIgnored(s: SidebarUi, key: string, activeTag: string)
    requires key != "/" && key != "Escape"
    ensures KeyDown(s, key, activeTag) == (s, false)
  {
  }

  /** '/' never closes the search, and Escape never opens it. */
  lemma KeyDownMonotone(s: SidebarUi, key: string, activeTag: string)
    ensures s.searchOpen ==> KeyDown(s, key, activeTag).0.searchOpen
    ensures !s.mobileMenuOpen ==> !KeyDown(s, key, activeTag).0.mobileMenuOpen
  {
  }

  /** `toggleCollapsed`: the new state, which is also what `onCollapse` is told. */
  function ToggleCollapsed(s: SidebarUi): (r: (SidebarUi, bool))
    ensures r.0.collapsed == !s.collapsed && r.1 == r.0.collapsed
    ensures r.0.searchOpen == s.searchOpen && r.0.mobileMenuOpen == s.mobileMenuOpen
  {
    var next := !s.collapsed;
    (s.(collapsed := next), next)
  }

  /** `closeMobileMenu`: the menu is closed afterwards, whatever it was. */
  function CloseMobileMenu(s: SidebarUi): (r: SidebarUi)
    ensures !r.mobileMenuOpen && r.searchOpen == s.searchOpen && r.collapsed == s.collapsed
  {
    if s.mobileMenuOpen then s.(mobileMenuOpen := false) else s
  }

  /** Closing the menu twice is closing it once; toggling collapse twice restores it. */
  lemma TogglesLaws(s: SidebarUi)
    ensures CloseMobileMenu(CloseMobileMenu(s)) == CloseMobileMenu(s)
    ensures ToggleCollapsed(ToggleCollapsed(s).0).0 == s
    ensures ToggleMobileMenu(ToggleMobileMenu(s)) == s && ToggleSearch(ToggleSearch(s)) == s
  {
  }

  function ToggleSearch(s: SidebarUi): (r: SidebarUi)
    ensures r.searchOpen == !s.searchOpen && r.mobileMenuOpen == s.mobileMenuOpen && r.collapsed == s.collapsed
  {
    s.(searchOpen := !s.searchOpen)
  }

  function ToggleMobileMenu(s: SidebarUi): (r: SidebarUi)
    ensures r.mobileMenuOpen == !s.mobileMenuOpen && r.searchOpen == s.searchOpen && r.collapsed == s.collapsed
  {
    s.(mobileMenuOpen := !s.mobileMenuOpen)
  }

  /** An entry's `toggleExpanded`: only an entry with children flips (and swallows the click). */
  function ToggleExpanded(item: NavItem, expanded: bool): (r: (bool, bool))
    ensures r.1 <==> |item.children| > 0
    ensures r.0 == (if |item.children| > 0 then !expanded else expanded)
  {
    if |item.children| > 0 then (!expanded, true) else (expanded, false)
  }

  /** The sidebar component's signals, updated by its handlers. */
  class SidebarComponent {
    var ui: SidebarUi

    constructor(defaultCollapsed: bool)
      ensures ui == InitialUi(defaultCollapsed)
    {
      ui := InitialUi(defaultCollapsed);
    }

    method HandleKeyDown(key: string, activeTag: string) returns (prevented: bool)
      modifies this
      ensures (ui, prevented) == KeyDown(old(ui), key, activeTag)
    {
      prevented := false;
      if key == "/" && !ui.searchOpen && !IsFormField(activeTag) {
        prevented := true;
        ui := ui.(searchOpen := true);
        return;
      }
      if key == "Escape" && ui.mobileMenuOpen {
        prevented := true;
        ui := ui.(mobileMenuOpen := false);
        return;
      }
    }

    method OnToggleSearch()
      modifies this
      ensures ui == ToggleSearch(old(ui))
    {
      ui := ui.(searchOpen := !ui.searchOpen);
    }

    method OnToggleMobileMenu()
      modifies this
      ensures ui == ToggleMobileMenu(old(ui))
    {
      var nextState := !ui.mobileMenuOpen;
      ui := ui.(mobileMenuOpen := nextState);
    }

    /** Returns the value passed to `onCollapse`. */
    method OnToggleCollapsed() returns (reported: bool)
      modifies this
      ensures (ui, reported) == ToggleCollapsed(old(ui))
    {
      var newState := !ui.collapsed;
      ui := ui.(collapsed := newState);
      reported := newState;
    }

    method OnCloseMobileMenu()
      modifies this
      ensures ui == CloseMobileMenu(old(ui))
    {
      if ui.mobileMenuOpen {
        ui := ui.(mobileMenuOpen := false);
      }
    }
  }
}
