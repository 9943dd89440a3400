/** The sidebar component: icon lookup, the route predicates that highlight menu entries,
    the submenu toggle, and the mobile open/close rules. The router's current url is a
    parameter of the predicates; close requests to the shared sidebar state are counted. */
module SideBar {
  import opened Wrappers
  import opened Strings
  import opened SideBarMenu

  /** Feather icon names to Font Awesome classes. */
  const IconMap: map<string, string> := map[
    "home" := "fas fa-home",
    "user-plus" := "fas fa-user-plus",
    "users" := "fas fa-users",
    "file-text" := "fas fa-file-alt",
    "calendar-check" := "fas fa-calendar-check",
    "file-import" := "fas fa-file-import",
    "globe" := "fas fa-globe",
    "map" := "fas fa-map",
    "map-pin" := "fas fa-map-marker-alt",
    "layers" := "fas fa-layer-group",
    "tag" := "fas fa-tag",
    "list" := "fas fa-list",
    "banner" := "fas fa-flag",
    "award" := "fas fa-trophy",
    "clipboard-list" := "fas fa-clipboard-list",
    "lock" := "fas fa-lock",
    "calendar" := "fas fa-calendar-alt",
    "check-circle" := "fas fa-check-circle",
    "check-square" := "fas fa-check-square",
    "corner-up-right" := "fas fa-external-link-alt",
    "corner-down-left" := "fas fa-reply",
    "message-square" := "fas fa-comment",
    "user-check" := "fas fa-user-check",
    "trending-up" := "fas fa-chart-line",
    "user" := "fas fa-user",
    "question-circle" := "fas fa-question-circle",
    "history" := "fas fa-history",
    "clipboard" := "fas fa-clipboard",
    "credit-card" := "fas fa-credit-card",
    "cog" := "fas fa-cog",
    "log-out" := "fas fa-sign-out-alt",
    "key" := "fas fa-key",
    "settings" := "fas fa-cogs",
    "layout" := "fas fa-th-large",
    "bar-chart" := "fas fa-chart-bar",
    "podcast" := "fas fa-podcast",
    "chevron-down" := "fas fa-chevron-down",
    "chevron-right" := "fas fa-chevron-right",
    "user-cog" := "fas fa-user-cog",
    "bell" := "fas fa-bell",
    "rss" := "fas fa-rss",
    "trophy" := "fas fa-trophy"
  ]

  const DefaultIcon := "fas fa-circle"

  /** `iconMap[name] || 'fas fa-circle'` */
  function IconClass(name: string): (c: string)
    ensures name !in IconMap ==> c == DefaultIcon
  {
    if name in IconMap && IconMap[name] != "" then IconMap[name] else DefaultIcon
  }

  /** A known name gets its own mapped class: the `|| 'fas fa-circle'` fallback only ever
      applies to names outside the table. */
  lemma IconClassOfMappedName(name: string)
    ensures name in IconMap ==> IconClass(name) == IconMap[name]
  {
    if name in IconMap {
      MappedClassNonEmpty(name);
    }
  }

  /** No entry of the table maps to the empty (falsy) class. */
  lemma MappedClassNonEmpty(name: string)
    requires name in IconMap
    ensures IconMap[name] != ""
  {
  }

  /** The icon names the menu table uses. */
  const MenuIconNames: set<string> := {"corner-up-right", "trending-up", "calendar", "calendar-check",
    "history", "message-square", "user-check", "bell", "award", "map-pin", "podcast"}

  lemma MenuIconNamesAreMapped()
    ensures forall n :: n in MenuIconNames ==> n in IconMap
  {
  }

  /** The entry's icon, and the icons of its submenu, are among the listed names. */
  predicate IconsListed(e: MenuItem) {
    e.icon in MenuIconNames &&
    (e.submenu.Some? ==> forall s :: s in e.submenu.value ==> s.icon in MenuIconNames)
  }

  lemma MenuUsesListedIcons()
    ensures forall g, e :: g in MenuList && e in g.menus ==> IconsListed(e)
  {
    var menus := MenuList[0].menus;
    assert |menus| == 10;
    assert IconsListed(menus[0]) && IconsListed(menus[1]) && IconsListed(menus[2]);
    assert IconsListed(menus[3]) && IconsListed(menus[4]) && IconsListed(menus[5]);
    assert IconsListed(menus[6]) && IconsListed(menus[7]) && IconsListed(menus[8]);
    assert IconsListed(menus[9]);
  }

  /** The entry's icon, and the icons of its submenu, have a mapped class. */
  predicate IconsMapped(e: MenuItem) {
    e.icon in IconMap &&
    (e.submenu.Some? ==> forall s :: s in e.submenu.value ==> s.icon in IconMap)
  }

  lemma ListedIconsAreMapped(e: MenuItem)
    requires IconsListed(e)
    ensures IconsMapped(e)
  {
    MenuIconNamesAreMapped();
  }

  /** Every icon the menu table names, at either level, has a mapped class. */
  lemma MenuIconsAreMapped()
    ensures forall g, e :: g in MenuList && e in g.menus ==> IconsMapped(e)
  {
    MenuUsesListedIcons();
    forall g, e | g in MenuList && e in g.menus
      ensures IconsMapped(e)
    {
      ListedIconsAreMapped(e);
    }
  }

  /** `url === route || url.startsWith(route + '/')` */
  predicate IsRouteActive(url: string, route: string) {
    url == route || StartsWith(url, route + "/")
  }

  /** A route is active for its own url and for urls below it, and a longer url is active
      only across a '/' boundary, so a bare text prefix is not enough. */
  lemma RouteActiveAtSegments(url: string, route: string)
    ensures IsRouteActive(url, route) ==> StartsWith(url, route)
    ensures |url| > |route| ==> (IsRouteActive(url, route) <==> StartsWith(url, route) && url[|route|] == '/')
  {
    if StartsWith(url, route + "/") {
      assert url[..|route|] == (route + "/")[..|route|];
    }
    if |url| > |route| && StartsWith(url, route) && url[|route|] == '/' {
      assert url[..|route| + 1] == url[..|route|] + [url[|route|]];
    }
  }

  lemma PrefixOfAnotherRouteIsNotActive()
    ensures !IsRouteActive("/referrals", "/ref")
    ensures IsRouteActive("/referrals/5", "/referrals")
  {
    RouteActiveAtSegments("/referrals", "/ref");
    assert "/referrals"[4] == 'e';
    assert "/referrals/5"[..11] == "/referrals/";
  }

  /** The text `url.includes(item.link)` searches for: a missing link is coerced to
      "undefined". */
  function LinkText(item: MenuItem): string {
    if item.link.Some? then item.link.value else "undefined"
  }

  /** `submenu.some(item => url.includes(item.link))` */
  function IsParentMenuActive(url: string, submenu: seq<MenuItem>): (b: bool)
    ensures submenu == [] ==> !b
  {
    if submenu == [] then false
    else Contains(url, LinkText(submenu[0])) || IsParentMenuActive(url, submenu[1..])
  }

  /** A parent is highlighted exactly when some item's link occurs somewhere in the url. */
  lemma {:induction false} ParentActiveIffSomeLinkOccurs(url: string, submenu: seq<MenuItem>)
    ensures IsParentMenuActive(url, submenu) <==>
              exists k, i :: 0 <= k < |submenu| && 0 <= i <= |url| - |LinkText(submenu[k])|
                             && StartsWith(url[i..], LinkText(submenu[k]))
  {
    if submenu != [] {
      ParentActiveIffSomeLinkOccurs(url, submenu[1..]);
      ContainsAt(url, LinkText(submenu[0]));
      if IsParentMenuActive(url, submenu[1..]) {
        var k, i :| 0 <= k < |submenu[1..]| && 0 <= i <= |url| - |LinkText(submenu[1..][k])|
                    && StartsWith(url[i..], LinkText(submenu[1..][k]));
        assert submenu[k + 1] == submenu[1..][k];
      }
      if k, i :| 0 < k < |submenu| && 0 <= i <= |url| - |LinkText(submenu[k])|
                 && StartsWith(url[i..], LinkText(submenu[k])) {
        assert submenu[1..][k - 1] == submenu[k];
      }
    }
  }

  class SideBarComponent {
    var isSidebarOpen: bool
    var isMobile: bool
    var activeSubMenuIndex: Option<int>
    /** Whether the document body carries the `sidebar-open` class. */
    var bodySidebarOpen: bool
    /** Close requests sent to the shared sidebar state. */
    ghost var closeRequests: nat

    constructor ()
      ensures !isSidebarOpen && !isMobile && activeSubMenuIndex == None
      ensures !bodySidebarOpen && closeRequests == 0
    {
      isSidebarOpen := false;
      isMobile := false;
      activeSubMenuIndex := None;
      bodySidebarOpen := false;
      closeRequests := 0;
    }

    /** The body class marks an open sidebar on mobile only. */
    method UpdateBodyClass()
      modifies this`bodySidebarOpen
      ensures bodySidebarOpen <==> isMobile && isSidebarOpen
    {
      if isMobile && isSidebarOpen {
        bodySidebarOpen := true;
      } else {
        bodySidebarOpen := false;
      }
    }

    /** The subscription to the shared open state. */
    method OnSidebarOpenChanged(isOpen: bool)
      modifies this`isSidebarOpen, this`bodySidebarOpen
      ensures isSidebarOpen == isOpen
      ensures bodySidebarOpen <==> isMobile && isOpen
    {
      isSidebarOpen := isOpen;
      UpdateBodyClass();
    }

    /** The subscription to the shared mobile flag. */
    method OnMobileChanged(mobile: bool)
      modifies this`isMobile
      ensures isMobile == mobile
    {
      isMobile := mobile;
    }

    /** Asks the shared state to close the sidebar, on mobile only. */
    method CloseSidebar()
      modifies this`closeRequests
      ensures closeRequests == old(closeRequests) + (if isMobile then 1 else 0)
    {
      if isMobile {
        closeRequests := closeRequests + 1;
      }
    }

    /** Escape closes the sidebar only while it is open on mobile. */
    method OnKeyDown(key: string)
      modifies this`closeRequests
      ensures closeRequests == old(closeRequests) + (if key == "Escape" && isMobile && isSidebarOpen then 1 else 0)
    {
      if key == "Escape" && isMobile && isSidebarOpen {
        CloseSidebar();
      }
    }

    method ToggleSubMenu(index: int)
      modifies this`activeSubMenuIndex
      ensures activeSubMenuIndex == Toggled(old(activeSubMenuIndex), index)
    {
      if activeSubMenuIndex == Some(index) {
        activeSubMenuIndex := None;
      } else {
        activeSubMenuIndex := Some(index);
      }
    }

    /** At most one submenu is open: the one last toggled open. */
    function IsSubMenuActive(index: int): (b: bool)
      reads this
      ensures b <==> activeSubMenuIndex == Some(index)
    {
      activeSubMenuIndex == Some(index)
    }
  }
}
