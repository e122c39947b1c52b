/** The navigation bar (Navbar.tsx): the role-dependent list of tabs, the
    download badge, the first-name label and the menu's local state. */
module Navbar {
  import opened Types
  import opened Text

  /** A tab button; only the downloads tab carries a badge. */
  datatype NavItem = NavItem(id: string, text: string, badge: Option<int>)

  /** The tabs every visitor gets, in display order. */
  const BaseIds: seq<string> := ["hero", "awareness", "detection", "legal", "downloads"]

  const AdminId := "admin"

  function Ids(items: seq<NavItem>): (r: seq<string>)
    ensures |r| == |items|
    ensures forall i :: 0 <= i < |items| ==> r[i] == items[i].id
  {
    if |items| == 0 then [] else [items[0].id] + Ids(items[1..])
  }

  /** `navItems`: the five base tabs in their fixed order, the downloads tab
      badged with the download count, and the control-center tab appended
      last exactly when the user is a Cyber Expert. */
  function NavItems(user: Option<User>, downloadCount: int): (r: seq<NavItem>)
    ensures |r| == (if IsExpert(user) then 6 else 5)
    ensures Ids(r)[..5] == BaseIds
    ensures IsExpert(user) ==> r[5].id == AdminId && r[5].badge.None?
    ensures r[4].badge == Some(downloadCount)
    ensures forall i :: 0 <= i < 4 ==> r[i].badge.None?
  {
    var base := [
      NavItem("hero", "Home", None),
      NavItem("awareness", "Knowledge Hub", None),
      NavItem("detection", "Safety Scanner", None),
      NavItem("legal", "Cyber Laws", None),
      NavItem("downloads", "Downloads", Some(downloadCount))
    ];
    if IsExpert(user) then base + [NavItem(AdminId, "Control Center", None)] else base
  }

  /** The admin tab is offered exactly to Cyber Experts, and nothing else
      about the list depends on who is signed in. */
  lemma AdminOfferedIff(user: Option<User>, downloadCount: int)
    ensures AdminId in Ids(NavItems(user, downloadCount)) <==> IsExpert(user)
    ensures NavItems(user, downloadCount)[..5] == NavItems(None, downloadCount)
  {
    var ids := Ids(NavItems(user, downloadCount));
    assert ids[..5] == BaseIds;
    if !IsExpert(user) {
      assert ids == ids[..5];
    } else {
      assert ids[5] == AdminId;
    }
  }

  /** What a badge expression leaves in the page. */
  datatype BadgeRender = NoBadge | StrayText(text: string) | Badge(count: int)

  /** `{item.badge && item.badge > 0 && (<span>…)}` as written. A missing
      badge or a failed comparison renders nothing, but a badge of 0 makes the
      whole expression evaluate to the number 0, which React renders as the
      text "0". */
  function BadgeAsWritten(badge: Option<int>): (v: BadgeRender)
    ensures badge == Some(0) ==> v == StrayText("0")
    ensures badge.Some? && badge.value > 0 ==> v == Badge(badge.value)
    ensures badge.None? || badge.value < 0 ==> v == NoBadge
  {
    match badge
    case None => NoBadge
    case Some(n) => if n == 0 then StrayText("0") else if n > 0 then Badge(n) else NoBadge
  }

  /** With nothing downloaded, the downloads tab shows a stray "0" next to its
      label instead of no badge. */
  lemma EmptyLibraryShowsStrayZero(user: Option<User>)
    ensures BadgeAsWritten(NavItems(user, 0)[4].badge) == StrayText("0")
  {
  }

  /** The evident intent: a badge with the count when it is positive, and
      nothing otherwise. */
  function BadgeIntended(badge: Option<int>): (v: BadgeRender)
    ensures v.StrayText? == false
    ensures v.Badge? <==> badge.Some? && badge.value > 0
    ensures v.Badge? ==> v.count == badge.value
  {
    if badge.Some? && badge.value > 0 then Badge(badge.value) else NoBadge
  }

  /** The downloads tab shows the download count as its badge exactly when the
      count is positive; no tab ever shows stray text. */
  lemma DownloadBadgeShownIff(user: Option<User>, downloadCount: int)
    ensures var items := NavItems(user, downloadCount);
              && (BadgeIntended(items[4].badge) == Badge(downloadCount) <==> downloadCount > 0)
              && (forall i :: 0 <= i < |items| && i != 4 ==> BadgeIntended(items[i].badge) == NoBadge)
  {
  }

  /** The label beside the avatar, `name.split(' ')[0]`: the name up to its
      first space. */
  function FirstName(name: string): (r: string)
    ensures |r| <= |name| && r == name[..|r|] && ' ' !in r
    ensures |r| < |name| ==> name[|r|] == ' '
  {
    Before(name, ' ')
  }

  /** The bar's own state: the mobile menu and the profile menu. */
  datatype MenuState = MenuState(isOpen: bool, showProfileMenu: bool)

  /** What a click asks of the application: a new active tab, a logout, or
      the sign-in dialog. */
  datatype Request = NoRequest | SelectTab(tab: string) | Logout | OpenSignIn

  datatype Click = Click(menu: MenuState, request: Request)

  /** The logo always navigates home and leaves the menus alone. */
  function LogoClick(m: MenuState): (c: Click)
    ensures c.request == SelectTab("hero") && c.menu == m
  {
    Click(m, SelectTab("hero"))
  }

  /** A desktop tab button selects its tab. */
  function DesktopSelect(m: MenuState, item: NavItem): (c: Click)
    ensures c.request == SelectTab(item.id) && c.menu == m
  {
    Click(m, SelectTab(item.id))
  }

  /** A mobile menu entry selects its tab and closes the menu. */
  function MobileSelect(m: MenuState, item: NavItem): (c: Click)
    ensures c.request == SelectTab(item.id)
    ensures !c.menu.isOpen && c.menu.showProfileMenu == m.showProfileMenu
  {
    Click(m.(isOpen := false), SelectTab(item.id))
  }

  /** The hamburger button flips the mobile menu. */
  function ToggleMenu(m: MenuState): (c: Click)
    ensures c.request == NoRequest && c.menu.isOpen == !m.isOpen
    ensures c.menu.showProfileMenu == m.showProfileMenu
  {
    Click(m.(isOpen := !m.isOpen), NoRequest)
  }

  /** The avatar button flips the profile menu. */
  function ToggleProfileMenu(m: MenuState): (c: Click)
    ensures c.request == NoRequest
    ensures c.menu.showProfileMenu == !m.showProfileMenu && c.menu.isOpen == m.isOpen
  {
    Click(m.(showProfileMenu := !m.showProfileMenu), NoRequest)
  }

  /** The desktop Sign In button asks for the dialog and touches no menu. */
  function DesktopSignIn(m: MenuState): (c: Click)
    ensures c.request == OpenSignIn && c.menu == m
  {
    Click(m, OpenSignIn)
  }

  /** The mobile Sign In button asks for the dialog and closes the menu. */
  function MobileSignIn(m: MenuState): (c: Click)
    ensures c.request == OpenSignIn && !c.menu.isOpen && c.menu.showProfileMenu == m.showProfileMenu
  {
    Click(m.(isOpen := false), OpenSignIn)
  }

  /** Sign-out from the profile menu: logs out and closes that menu. */
  function ProfileSignOut(m: MenuState): (c: Click)
    ensures c.request == Logout && !c.menu.showProfileMenu && c.menu.isOpen == m.isOpen
  {
    Click(m.(showProfileMenu := false), Logout)
  }

  /** Sign-out from the mobile menu: logs out and closes the mobile menu. */
  function MobileSignOut(m: MenuState): (c: Click)
    ensures c.request == Logout && !c.menu.isOpen && c.menu.showProfileMenu == m.showProfileMenu
  {
    Click(m.(isOpen := false), Logout)
  }
}
