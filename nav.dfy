/** The navigation bar (src/components/layout/UnifiedNav.tsx): which links it
  * shows, the cart badge, the signed-in area and the mobile and desktop
  * containers. Whether a user is authenticated is an input, like the other
  * values the bar reads from the providers. */
module Nav {
  import opened Common
  import opened Types
  import Cart

  /** The one Telegram id the bar treats as an admin. */
  const AdminTelegramId: int := 12345678

  /** `user?.id === 12345678` */
  predicate IsAdminUser(user: Option<TelegramUser>)
  {
    user.Some? && user.value.id == AdminTelegramId
  }

  datatype NavItem = NavItem(to: string, caption: string, adminOnly: bool, exact: bool)

  const HomeLink: NavItem := NavItem("/", "Home", false, true)
  const MenuLink: NavItem := NavItem("/menu", "Menu", false, false)
  const OrdersLink: NavItem := NavItem("/order-history", "Orders", false, false)
  const AdminLink: NavItem := NavItem("/admin", "Admin", true, false)

  const NavLinks: seq<NavItem> := [HomeLink, MenuLink, OrdersLink, AdminLink]

  /** `links.filter(link => !link.adminOnly || (link.adminOnly && isAdmin))` */
  function Visible(links: seq<NavItem>, isAdmin: bool): (r: seq<NavItem>)
    ensures |r| <= |links|
  {
    if links == [] then []
    else (if !links[0].adminOnly || isAdmin then [links[0]] else []) + Visible(links[1..], isAdmin)
  }

  /** A link is shown exactly when it is listed and is either for everyone or
    * the user is the admin. */
  lemma {:induction false} VisibleMembers(links: seq<NavItem>, isAdmin: bool, l: NavItem)
    ensures l in Visible(links, isAdmin) <==> l in links && (!l.adminOnly || isAdmin)
  {
    if links != [] {
      VisibleMembers(links[1..], isAdmin, l);
      assert links == [links[0]] + links[1..];
    }
  }

  /** The labels of a list of links, in order. */
  function Labels(links: seq<NavItem>): (r: seq<string>)
    ensures |r| == |links|
    ensures forall i :: 0 <= i < |links| ==> r[i] == links[i].caption
  {
    seq(|links|, i requires 0 <= i < |links| => links[i].caption)
  }

  /** Home, Menu and Orders always show, in that order; Admin shows last, and
    * only for the admin user. */
  lemma ShownLinks(user: Option<TelegramUser>)
    ensures IsAdminUser(user) ==> Labels(Visible(NavLinks, IsAdminUser(user))) == ["Home", "Menu", "Orders", "Admin"]
    ensures !IsAdminUser(user) ==> Labels(Visible(NavLinks, IsAdminUser(user))) == ["Home", "Menu", "Orders"]
  {
    var isAdmin := IsAdminUser(user);
    var admin := if isAdmin then [AdminLink] else [];
    assert [AdminLink][1..] == [];
    assert Visible([AdminLink], isAdmin) == admin;
    assert [OrdersLink, AdminLink][1..] == [AdminLink];
    assert Visible([OrdersLink, AdminLink], isAdmin) == [OrdersLink] + admin;
    assert [MenuLink, OrdersLink, AdminLink][1..] == [OrdersLink, AdminLink];
    assert Visible([MenuLink, OrdersLink, AdminLink], isAdmin) == [MenuLink] + ([OrdersLink] + admin);
    assert NavLinks[1..] == [MenuLink, OrdersLink, AdminLink];
    assert Visible(NavLinks, isAdmin) == [HomeLink, MenuLink, OrdersLink] + admin;
  }

  /** The number on the cart link: shown only for a positive total quantity. */
  function CartBadge(totalQuantity: int): (r: Option<string>)
    ensures r.Some? <==> totalQuantity > 0
    ensures r.Some? ==> ParseInt(r.value) == Some(totalQuantity)
  {
    if totalQuantity > 0 then
      ParseIntOfIntToString(totalQuantity);
      Some(IntToString(totalQuantity))
    else None
  }

  /** A cart whose lines all hold at least one piece shows the badge exactly
    * when it is not empty. */
  lemma BadgeShownIffCartNotEmpty(items: seq<CartItem>)
    requires forall i :: 0 <= i < |items| ==> items[i].quantity >= 1
    ensures CartBadge(Cart.TotalQuantity(items)).Some? <==> items != []
  {
    TotalQuantityAtLeastCount(items);
  }

  lemma {:induction false} TotalQuantityAtLeastCount(items: seq<CartItem>)
    requires forall i :: 0 <= i < |items| ==> items[i].quantity >= 1
    ensures Cart.TotalQuantity(items) >= |items|
  {
    if items != [] {
      TotalQuantityAtLeastCount(items[..|items| - 1]);
    }
  }

  /** What the desktop bar shows at its right end. */
  datatype AuthArea =
    | UserInfo(firstName: string, photo: Option<string>)
    | ProfileLink
    | LoginButton
    | NoAuthArea

  /** The four cases of the signed-in area; the photo shows only when the user
    * has a non-empty `photo_url`. */
  function AuthAreaFor(isTelegramWebApp: bool, user: Option<TelegramUser>, isAuthenticated: bool): (a: AuthArea)
    ensures a.UserInfo? <==> isTelegramWebApp && user.Some?
    ensures a.UserInfo? ==>
      user.Some? && a.firstName == user.value.firstName
      && (a.photo.Some? <==> Truthy(user.value.photoUrl)) && (a.photo.Some? ==> a.photo == user.value.photoUrl)
    ensures !isTelegramWebApp && isAuthenticated ==> a == ProfileLink
    ensures !isTelegramWebApp && !isAuthenticated ==> a == LoginButton
    ensures isTelegramWebApp && user.None? ==> a == NoAuthArea
  {
    if isTelegramWebApp && user.Some? then
      UserInfo(user.value.firstName, if Truthy(user.value.photoUrl) then user.value.photoUrl else None)
    else if !isTelegramWebApp && isAuthenticated then ProfileLink
    else if !isTelegramWebApp && !isAuthenticated then LoginButton
    else NoAuthArea
  }

  const MobileNavClass: string :=
    "md:hidden fixed bottom-0" + " left-0 right-0 bg-card border-t p-2 flex justify-around supports-[backdrop-filter]:bg-background/60 backdrop-blur"
  const DesktopNavClass: string := "bg-card border-b shadow-sm sticky top-0 z-50 " + "hidden md:block"

  /** The class of the `nav` element: the bottom bar on mobile, the bar that is
    * hidden below the `md` breakpoint on desktop. */
  function NavClass(isMobile: bool): (r: string)
    ensures isMobile ==> |r| >= 24 && r[..24] == "md:hidden fixed bottom-0"
    ensures !isMobile ==> |r| >= 15 && r[|r| - 15..] == "hidden md:block"
  {
    if isMobile then MobileNavClass else DesktopNavClass
  }
}
