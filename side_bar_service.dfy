/** The sidebar's static menu table and the one-slot submenu toggle that the sidebar
    service and component both keep. */
module SideBarMenu {
  import opened Wrappers

  /** A menu entry: a plain link, or a titled parent whose `submenu` holds the links. */
  datatype MenuItem = MenuItem(
    title: string,
    link: Option<string>,
    icon: string,
    hasSubmenu: bool,
    submenu: Option<seq<MenuItem>>)

  datatype MenuGroup = MenuGroup(moduleName: string, menus: seq<MenuItem>)

  /** The portal's menu. */
  const MenuList: seq<MenuGroup> := [
    MenuGroup("GBS Customer Portal", [
      MenuItem("Referrals", Some("referrals"), "corner-up-right", false, None),
      MenuItem("tyfcbslip", Some("tyfcbslip"), "trending-up", false, None),
      MenuItem("Events", None, "calendar", true, Some([
        MenuItem("Upcoming Events", Some("events/upcoming"), "calendar-check", false, None),
        MenuItem("My Events", Some("events/my-events"), "calendar", false, None),
        MenuItem("Event History", Some("events/history"), "history", false, None)])),
      MenuItem("Testimonials", None, "message-square", true, Some([
        MenuItem("My Testimonials", Some("testimonials/my"), "message-square", false, None),
        MenuItem("Give Testimonial", Some("testimonials/give"), "message-square", false, None),
        MenuItem("All Testimonials", Some("testimonials/all"), "message-square", false, None)])),
      MenuItem("One-to-One", Some("one-to-one"), "user-check", false, None),
      MenuItem("TYFCB", None, "trending-up", true, Some([
        MenuItem("Give TYFCB", Some("tyfcb/give"), "trending-up", false, None),
        MenuItem("TYFCB History", Some("tyfcb/history"), "history", false, None)])),
      MenuItem("Notifications", Some("notifications"), "bell", false, None),
      MenuItem("Leaderboard", Some("leaderboard"), "award", false, None),
      MenuItem("Near By", Some("nearby"), "map-pin", false, None),
      MenuItem("Podcasts", None, "podcast", true, Some([
        MenuItem("All Podcasts", Some("podcasts/all"), "podcast", false, None),
        MenuItem("Book Podcast", Some("podcasts/book"), "calendar-check", false, None),
        MenuItem("My Bookings", Some("podcasts/my-bookings"), "calendar", false, None)]))
    ])
  ]

  /** A link entry: a link and no submenu. */
  predicate LinkEntry(e: MenuItem) {
    e.link.Some? && !e.hasSubmenu && e.submenu.None?
  }

  /** A parent has a submenu of link entries and no link of its own; any other entry is a
      link entry. */
  predicate WellFormedEntry(e: MenuItem) {
    if e.hasSubmenu then
      e.link.None? && e.submenu.Some? && forall s :: s in e.submenu.value ==> LinkEntry(s)
    else
      LinkEntry(e)
  }

  lemma MenuListWellFormed()
    ensures forall g, e :: g in MenuList && e in g.menus ==> WellFormedEntry(e)
  {
    var menus := MenuList[0].menus;
    assert |menus| == 10;
    assert WellFormedEntry(menus[0]) && WellFormedEntry(menus[1]) && WellFormedEntry(menus[2]);
    assert WellFormedEntry(menus[3]) && WellFormedEntry(menus[4]) && WellFormedEntry(menus[5]);
    assert WellFormedEntry(menus[6]) && WellFormedEntry(menus[7]) && WellFormedEntry(menus[8]);
    assert WellFormedEntry(menus[9]);
  }

  /** `toggleSubMenu`: opening a submenu closes any other, and toggling the open one closes it. */
  function Toggled(active: Option<int>, index: int): (r: Option<int>)
    ensures r == None || r == Some(index)
    ensures r == None <==> active == Some(index)
  {
    if active == Some(index) then None else Some(index)
  }

  /** Toggling the same index twice restores the state exactly when nothing else was open. */
  lemma ToggleTwice(active: Option<int>, index: int)
    ensures Toggled(Toggled(active, index), index) == active <==> (active == None || active == Some(index))
  {
  }

  class SideBarService {
    const list: seq<MenuGroup>
    var isMobile: bool
    var activeSubMenuIndex: Option<int>

    constructor ()
      ensures list == MenuList && !isMobile && activeSubMenuIndex == None
    {
      list := MenuList;
      isMobile := false;
      activeSubMenuIndex := None;
    }

    /** Only the open submenu changes: the frame keeps `isMobile`, and the menu table is a
        constant. */
    method ToggleSubMenu(index: int)
      modifies this`activeSubMenuIndex
      ensures activeSubMenuIndex == Toggled(old(activeSubMenuIndex), index)
    {
      if activeSubMenuIndex == Some(index) {
        activeSubMenuIndex := None;
      } else {
        activeSubMenuIndex := Some(index);
      }
    }
  }
}
